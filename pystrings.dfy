/** The few Python `str` operations the configuration code relies on:
    `startswith`, `join`, `split` on one character, `rstrip` of one
    character, `str(int)` and string comparison. */
module PyStrings {

  /** `s.startswith(p)` */
  predicate StartsWith(s: string, p: string)
  {
    |p| <= |s| && s[..|p|] == p
  }

  /** `sub in s`: `sub` occurs somewhere in `s`. */
  predicate Contains(s: string, sub: string)
  {
    StartsWith(s, sub) || (s != [] && Contains(s[1..], sub))
  }

  /** `sep.join(parts)` */
  function Join(sep: string, parts: seq<string>): (r: string)
    ensures |parts| == 1 ==> r == parts[0]
  {
    if |parts| == 0 then ""
    else if |parts| == 1 then parts[0]
    else parts[0] + sep + Join(sep, parts[1..])
  }

  /** Index of the first occurrence of `c` in `s`. */
  function IndexOf(s: string, c: char): (i: nat)
    requires c in s
    ensures i < |s| && s[i] == c && c !in s[..i]
  {
    if s[0] == c then 0
    else
      assert c in s[1..] by { var k :| 0 <= k < |s| && s[k] == c; assert s[1..][k - 1] == c; }
      var j := IndexOf(s[1..], c);
      assert s[..j + 1] == [s[0]] + s[1..][..j];
      j + 1
  }

  /** `s.split(c)` for a one-character separator: never empty, and the
      last field is what follows the last separator. */
  function Split(s: string, c: char): (r: seq<string>)
    ensures |r| >= 1
    decreases |s|
  {
    if c !in s then [s]
    else
      var i := IndexOf(s, c);
      [s[..i]] + Split(s[i + 1..], c)
  }

  /** The fields of a split never contain the separator. */
  lemma {:induction false} SplitFieldsAvoidSeparator(s: string, c: char)
    ensures forall k :: 0 <= k < |Split(s, c)| ==> c !in Split(s, c)[k]
    decreases |s|
  {
    if c in s {
      var i := IndexOf(s, c);
      SplitFieldsAvoidSeparator(s[i + 1..], c);
      assert Split(s, c) == [s[..i]] + Split(s[i + 1..], c);
    }
  }

  /** Joining the fields of a split with the separator gives the input back. */
  lemma {:induction false} JoinSplit(s: string, c: char)
    ensures Join([c], Split(s, c)) == s
    decreases |s|
  {
    if c in s {
      var i := IndexOf(s, c);
      var rest := Split(s[i + 1..], c);
      JoinSplit(s[i + 1..], c);
      assert Split(s, c) == [s[..i]] + rest;
      assert s == s[..i] + [c] + s[i + 1..];
    }
  }

  /** The first separator of `head + [c] + tail` ends a separator-free `head`. */
  lemma {:induction false} IndexOfAfterFree(head: string, c: char, tail: string)
    requires c !in head
    ensures c in head + [c] + tail
    ensures IndexOf(head + [c] + tail, c) == |head|
    ensures (head + [c] + tail)[..|head|] == head && (head + [c] + tail)[|head| + 1..] == tail
  {
    var s := head + [c] + tail;
    assert s[|head|] == c;
    if head != [] {
      assert s[1..] == head[1..] + [c] + tail;
      IndexOfAfterFree(head[1..], c, tail);
    }
  }

  /** Splitting a join of separator-free parts gives the parts back. */
  lemma {:induction false} SplitJoin(parts: seq<string>, c: char)
    requires |parts| >= 1
    requires forall k :: 0 <= k < |parts| ==> c !in parts[k]
    ensures Split(Join([c], parts), c) == parts
  {
    if |parts| > 1 {
      var head := parts[0];
      var tail := Join([c], parts[1..]);
      assert Join([c], parts) == head + [c] + tail;
      IndexOfAfterFree(head, c, tail);
      SplitJoin(parts[1..], c);
      assert parts == [head] + parts[1..];
    }
  }

  /** `parts[-1]` */
  function Last(parts: seq<string>): string
    requires parts != []
  {
    parts[|parts| - 1]
  }

  /** The last field of `s.split(c)`. */
  function LastField(s: string, c: char): string
  {
    Last(Split(s, c))
  }

  lemma LastFieldStep(s: string, c: char)
    requires c in s
    ensures LastField(s, c) == LastField(s[IndexOf(s, c) + 1..], c)
  {
    var i := IndexOf(s, c);
    var rest := Split(s[i + 1..], c);
    SplitStep(s, c);
    LastOfCons(s[..i], rest);
  }

  lemma LastOfCons(x: string, rest: seq<string>)
    requires rest != []
    ensures Last([x] + rest) == Last(rest)
  {
  }

  lemma SplitStep(s: string, c: char)
    requires c in s
    ensures Split(s, c) == [s[..IndexOf(s, c)]] + Split(s[IndexOf(s, c) + 1..], c)
  {
  }

  lemma LastFieldWhole(s: string, c: char)
    requires c !in s
    ensures LastField(s, c) == s && IsFinalField(s, c, s)
  {
    assert Split(s, c) == [s];
  }

  /** `f` is the longest suffix of `s` free of `c`: either all of `s`, or
      what follows a `c`. */
  predicate IsFinalField(s: string, c: char, f: string)
  {
    c !in f && |f| <= |s| && s[|s| - |f|..] == f
    && (|f| < |s| ==> s[|s| - |f| - 1] == c)
  }

  /** The final field after a separator at `i` is the final field of the whole. */
  lemma SuffixAfter(s: string, i: nat, f: string, c: char)
    requires i < |s| && s[i] == c
    requires IsFinalField(s[i + 1..], c, f)
    ensures IsFinalField(s, c, f)
  {
    assert s[|s| - |f|..] == s[i + 1..][|s| - i - 1 - |f|..];
  }

  /** The last field of a split is the longest suffix of the input free of
      the separator. */
  lemma {:induction false} LastFieldSpec(s: string, c: char)
    ensures IsFinalField(s, c, LastField(s, c))
    decreases |s|
  {
    if c in s {
      var i := IndexOf(s, c);
      var f := LastField(s[i + 1..], c);
      LastFieldSpec(s[i + 1..], c);
      LastFieldStep(s, c);
      SuffixAfter(s, i, f, c);
    } else {
      LastFieldWhole(s, c);
    }
  }

  /** `s.rstrip(c)` for one character: drop every trailing `c`. */
  function RStrip(s: string, c: char): string
  {
    if |s| > 0 && s[|s| - 1] == c then RStrip(s[..|s| - 1], c) else s
  }

  /** `rstrip` removes exactly the trailing run of `c`. */
  lemma {:induction false} RStripSpec(s: string, c: char)
    ensures var r := RStrip(s, c);
      |r| <= |s| && r == s[..|r|]
      && (|r| > 0 ==> r[|r| - 1] != c)
      && forall k :: |r| <= k < |s| ==> s[k] == c
  {
    if |s| > 0 && s[|s| - 1] == c {
      RStripSpec(s[..|s| - 1], c);
    }
  }

  /** The decimal digits of a natural number, as `str` prints them. */
  function NatToString(n: nat): (r: string)
    ensures |r| >= 1
    ensures forall k :: 0 <= k < |r| ==> '0' <= r[k] <= '9'
    decreases n
  {
    var d := ['0' + (n % 10) as char];
    if n < 10 then d else NatToString(n / 10) + d
  }

  /** `str(n)` for an integer. */
  function IntToString(n: int): string
  {
    if n < 0 then "-" + NatToString(-n) else NatToString(n)
  }

  /** Python's `<` on strings: lexicographic by code point. */
  predicate Less(a: string, b: string)
    decreases |a|
  {
    if |a| == 0 then |b| > 0
    else if |b| == 0 then false
    else a[0] < b[0] || (a[0] == b[0] && Less(a[1..], b[1..]))
  }

  lemma {:induction false} LessIrreflexive(a: string)
    ensures !Less(a, a)
    decreases |a|
  {
    if |a| > 0 { LessIrreflexive(a[1..]); }
  }

  lemma {:induction false} LessTransitive(a: string, b: string, c: string)
    requires Less(a, b) && Less(b, c)
    ensures Less(a, c)
    decreases |a|
  {
    if |a| > 0 && |b| > 0 && |c| > 0 && a[0] == b[0] == c[0] {
      LessTransitive(a[1..], b[1..], c[1..]);
    }
  }

  lemma {:induction false} LessTotal(a: string, b: string)
    requires a != b
    ensures Less(a, b) || Less(b, a)
    decreases |a|
  {
    if |a| > 0 && |b| > 0 && a[0] == b[0] {
      assert a == [a[0]] + a[1..] && b == [b[0]] + b[1..];
      LessTotal(a[1..], b[1..]);
    }
  }
}
