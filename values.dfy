/** Configuration documents as the Python code sees them after JSON or YAML
    parsing: `None`, booleans, integers, floats, strings, lists and dicts.
    A dict is an association list in insertion order, because Python dicts
    keep that order and the enumerators expose it. */
module Values {
  import opened Results
  import opened PyStrings

  datatype Value =
    | Null
    | Bool(b: bool)
    | Int(i: int)
      /** A float, carried as its Python `repr` (its value is never computed with). */
    | Float(text: string)
    | Str(s: string)
    | List(items: seq<Value>)
    | Obj(entries: seq<(string, Value)>)

  type Dict = seq<(string, Value)>

  /** The keys of a dict, in iteration order. */
  function Keys(d: Dict): (ks: seq<string>)
    ensures |ks| == |d|
    ensures forall i :: 0 <= i < |d| ==> ks[i] == d[i].0
  {
    if d == [] then [] else [d[0].0] + Keys(d[1..])
  }

  /** A key of a dict is the key of one of its entries. */
  lemma InKeys(d: Dict, k: string)
    ensures k in Keys(d) <==> exists v :: (k, v) in d
  {
    if k in Keys(d) {
      var i :| 0 <= i < |d| && Keys(d)[i] == k;
      assert d[i] in d;
      assert (k, d[i].1) == d[i];
    }
    if exists v :: (k, v) in d {
      var v :| (k, v) in d;
      var i :| 0 <= i < |d| && d[i] == (k, v);
      assert Keys(d)[i] == k;
    }
  }

  /** Keys of an appended entry come last. */
  lemma KeysSnoc(d: Dict, e: (string, Value))
    ensures Keys(d + [e]) == Keys(d) + [e.0]
  {
    var a := Keys(d + [e]);
    var b := Keys(d) + [e.0];
    forall j | 0 <= j < |a| ensures a[j] == b[j] {
      if j < |d| { assert (d + [e])[j] == d[j]; }
    }
  }

  /** Every Python dict has pairwise distinct keys. */
  predicate DistinctKeys(d: Dict)
  {
    forall i, j :: 0 <= i < j < |d| ==> d[i].0 != d[j].0
  }

  /** `d[k]` when `k in d`, else None. */
  function Get(d: Dict, k: string): (r: Option<Value>)
    ensures r.Some? <==> k in Keys(d)
    ensures r.Some? ==> exists i :: 0 <= i < |d| && d[i] == (k, r.value)
  {
    if d == [] then None
    else if d[0].0 == k then Some(d[0].1)
    else
      var r := Get(d[1..], k);
      assert r.Some? ==> exists i :: 0 <= i < |d| && d[i] == (k, r.value) by {
        if r.Some? {
          var i :| 0 <= i < |d[1..]| && d[1..][i] == (k, r.value);
          assert d[i + 1] == (k, r.value);
        }
      }
      r
  }

  /** With distinct keys, the entry at position `i` is what `Get` finds. */
  lemma {:induction false} GetAt(d: Dict, i: nat)
    requires DistinctKeys(d) && i < |d|
    ensures Get(d, d[i].0) == Some(d[i].1)
  {
    if i > 0 {
      assert DistinctKeys(d[1..]) by {
        forall a, b | 0 <= a < b < |d[1..]| ensures d[1..][a].0 != d[1..][b].0 {
          assert d[1..][a] == d[a + 1] && d[1..][b] == d[b + 1];
        }
      }
      GetAt(d[1..], i - 1);
      assert d[1..][i - 1] == d[i];
    }
  }

  /** `d.get(k, default)`: an explicit `None` value is returned as `Null`. */
  function GetOr(d: Dict, k: string, default: Value): Value
  {
    match Get(d, k)
    case Some(v) => v
    case None => default
  }

  /** `d[k] = v`: an existing key keeps its position, a new key goes last. */
  function Put(d: Dict, k: string, v: Value): (r: Dict)
    ensures k in Keys(d) ==> Keys(r) == Keys(d)
    ensures k !in Keys(d) ==> Keys(r) == Keys(d) + [k]
  {
    if d == [] then [(k, v)]
    else if d[0].0 == k then [(k, v)] + d[1..]
    else
      var rest := Put(d[1..], k, v);
      assert Keys([d[0]] + rest) == [d[0].0] + Keys(rest);
      [d[0]] + rest
  }

  /** After `d[k] = v`, `k` maps to `v` and every other key is unchanged. */
  lemma {:induction false} PutGet(d: Dict, k: string, v: Value, k': string)
    ensures Get(Put(d, k, v), k') == if k' == k then Some(v) else Get(d, k')
  {
    if d != [] && d[0].0 != k {
      PutGet(d[1..], k, v, k');
      assert Put(d, k, v)[1..] == Put(d[1..], k, v);
    }
  }

  /** Python truthiness (used for an `if` over a configuration flag). */
  predicate Truthy(v: Value)
  {
    match v
    case Null => false
    case Bool(b) => b
    case Int(i) => i != 0
    case Float(t) => t != "0.0" && t != "-0.0"
    case Str(s) => s != ""
    case List(items) => items != []
    case Obj(entries) => entries != []
  }

  /** `isinstance(v, (float, int))`; `bool` is a subclass of `int`. */
  predicate IsNumber(v: Value)
  {
    v.Int? || v.Float? || v.Bool?
  }

  /** `str(v)`. */
  function Show(v: Value): (r: string)
    ensures v.Str? ==> r == v.s
    decreases v, 2
  {
    match v
    case Null => "None"
    case Bool(b) => if b then "True" else "False"
    case Int(i) => IntToString(i)
    case Float(t) => t
    case Str(s) => s
    case List(_) => "[" + ShowItems(v, 0) + "]"
    case Obj(_) => "{" + ShowEntries(v, 0) + "}"
  }

  /** `repr(v)`: a string is quoted; escapes inside it are not modelled. */
  function Repr(v: Value): string
    decreases v, 3
  {
    if v.Str? then "'" + v.s + "'" else Show(v)
  }

  /** Items `i..` of a list, each shown by `repr`, separated by ", ". */
  function ShowItems(v: Value, i: nat): string
    requires v.List? && i <= |v.items|
    decreases v, 1, |v.items| - i
  {
    if i == |v.items| then ""
    else Repr(v.items[i]) + (if i + 1 < |v.items| then ", " else "") + ShowItems(v, i + 1)
  }

  /** Entries `i..` of a dict as `'key': repr(value)`, separated by ", ". */
  function ShowEntries(v: Value, i: nat): string
    requires v.Obj? && i <= |v.entries|
    decreases v, 1, |v.entries| - i
  {
    if i == |v.entries| then ""
    else
      "'" + v.entries[i].0 + "': " + Repr(v.entries[i].1)
      + (if i + 1 < |v.entries| then ", " else "") + ShowEntries(v, i + 1)
  }
}
