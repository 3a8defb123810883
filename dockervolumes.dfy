/** `_reorder_docker_volumes` and `sort_dicts`: deduplicate bind mounts on
    container path plus host path (trailing slashes ignored, the later
    entry wins) and return them in sorted order. */
module DockerVolumes {
  import opened PyStrings

  /** A DockerVolume dict: `{"containerPath", "hostPath", "mode"}`. */
  datatype DockerVolume = DockerVolume(containerPath: string, hostPath: string, mode: string)

  /** The dict key of the deduplication comprehension. */
  function DedupKey(v: DockerVolume): string
  {
    RStrip(v.containerPath, '/') + RStrip(v.hostPath, '/')
  }

  /** `sort_dicts` compares `tuple(sorted(d.items()))`; for a volume the
      sorted keys are containerPath < hostPath < mode, so the order is
      lexicographic on those three strings. */
  predicate Before(a: DockerVolume, b: DockerVolume)
  {
    Less(a.containerPath, b.containerPath)
    || (a.containerPath == b.containerPath && Less(a.hostPath, b.hostPath))
    || (a.containerPath == b.containerPath && a.hostPath == b.hostPath && Less(a.mode, b.mode))
  }

  predicate BeforeOrSame(a: DockerVolume, b: DockerVolume)
  {
    a == b || Before(a, b)
  }

  lemma BeforeTotal(a: DockerVolume, b: DockerVolume)
    ensures BeforeOrSame(a, b) || BeforeOrSame(b, a)
  {
    if a.containerPath != b.containerPath {
      LessTotal(a.containerPath, b.containerPath);
    } else if a.hostPath != b.hostPath {
      LessTotal(a.hostPath, b.hostPath);
    } else if a.mode != b.mode {
      LessTotal(a.mode, b.mode);
    }
  }

  lemma BeforeTransitive(a: DockerVolume, b: DockerVolume, c: DockerVolume)
    requires BeforeOrSame(a, b) && BeforeOrSame(b, c)
    ensures BeforeOrSame(a, c)
  {
    LessIrreflexive(a.containerPath);
    LessIrreflexive(a.hostPath);
    LessIrreflexive(b.containerPath);
    LessIrreflexive(b.hostPath);
    if a != b && b != c {
      if Less(a.containerPath, b.containerPath) && Less(b.containerPath, c.containerPath) {
        LessTransitive(a.containerPath, b.containerPath, c.containerPath);
      }
      if a.containerPath == b.containerPath == c.containerPath {
        if Less(a.hostPath, b.hostPath) && Less(b.hostPath, c.hostPath) {
          LessTransitive(a.hostPath, b.hostPath, c.hostPath);
        }
        if a.hostPath == b.hostPath == c.hostPath {
          LessTransitive(a.mode, b.mode, c.mode);
        }
      }
    }
  }

  predicate Sorted(vs: seq<DockerVolume>)
  {
    forall i, j :: 0 <= i < j < |vs| ==> BeforeOrSame(vs[i], vs[j])
  }

  /** True when a later entry than position `i` has the same key. */
  predicate Overridden(vs: seq<DockerVolume>, i: nat)
    requires i < |vs|
  {
    exists j :: i < j < |vs| && DedupKey(vs[j]) == DedupKey(vs[i])
  }

  /** `v` is an entry of `vs` that no later entry replaces. */
  predicate Survives(vs: seq<DockerVolume>, v: DockerVolume)
  {
    exists i :: 0 <= i < |vs| && vs[i] == v && !Overridden(vs, i)
  }

  /** What survives the dict comprehension: each entry that no later entry
      replaces (the order is irrelevant, the result is sorted afterwards). */
  function Survivors(vs: seq<DockerVolume>): (r: seq<DockerVolume>)
  {
    if vs == [] then []
    else (if Overridden(vs, 0) then [] else [vs[0]]) + Survivors(vs[1..])
  }

  lemma {:induction false} SurvivorsSpec(vs: seq<DockerVolume>)
    ensures forall v :: v in Survivors(vs) <==>
      exists i :: 0 <= i < |vs| && vs[i] == v && !Overridden(vs, i)
  {
    if vs != [] {
      SurvivorsSpec(vs[1..]);
      forall i | 0 < i < |vs| ensures Overridden(vs, i) <==> Overridden(vs[1..], i - 1) {
        if Overridden(vs, i) {
          var j :| i < j < |vs| && DedupKey(vs[j]) == DedupKey(vs[i]);
          assert vs[1..][j - 1] == vs[j];
        }
        if Overridden(vs[1..], i - 1) {
          var j :| i - 1 < j < |vs[1..]| && DedupKey(vs[1..][j]) == DedupKey(vs[1..][i - 1]);
          assert vs[j + 1] == vs[1..][j];
        }
      }
      forall v ensures v in Survivors(vs) <==>
        exists i :: 0 <= i < |vs| && vs[i] == v && !Overridden(vs, i)
      {
        if exists i :: 0 <= i < |vs| && vs[i] == v && !Overridden(vs, i) {
          var i :| 0 <= i < |vs| && vs[i] == v && !Overridden(vs, i);
          if i > 0 { assert vs[1..][i - 1] == v; }
        }
        if v in Survivors(vs[1..]) {
          var i :| 0 <= i < |vs[1..]| && vs[1..][i] == v && !Overridden(vs[1..], i);
          assert vs[i + 1] == v;
        }
      }
    }
  }

  /** No two survivors share a key. */
  lemma {:induction false} SurvivorsKeysDistinct(vs: seq<DockerVolume>)
    ensures KeysDistinct(Survivors(vs))
  {
    if vs != [] {
      SurvivorsKeysDistinct(vs[1..]);
      SurvivorsSpec(vs[1..]);
      var rest := Survivors(vs[1..]);
      if !Overridden(vs, 0) {
        forall b | 0 <= b < |rest| ensures DedupKey(rest[b]) != DedupKey(vs[0]) {
          assert rest[b] in rest;
          var i :| 0 <= i < |vs[1..]| && vs[1..][i] == rest[b] && !Overridden(vs[1..], i);
          assert vs[i + 1] == rest[b];
        }
        assert Survivors(vs) == [vs[0]] + rest;
      }
    }
  }

  /** Insertion into a sorted list. */
  function Insert(v: DockerVolume, s: seq<DockerVolume>): (r: seq<DockerVolume>)
    requires Sorted(s)
    ensures Sorted(r) && multiset(r) == multiset(s) + multiset{v}
  {
    if s == [] then [v]
    else if BeforeOrSame(v, s[0]) then
      var r := [v] + s;
      forall i, j | 0 <= i < j < |r| ensures BeforeOrSame(r[i], r[j]) {
        if i == 0 && j > 1 { BeforeTransitive(v, s[0], s[j - 1]); }
      }
      r
    else
      BeforeTotal(v, s[0]);
      var tail := Insert(v, s[1..]);
      var r := [s[0]] + tail;
      assert multiset(s) == multiset{s[0]} + multiset(s[1..]) by { assert s == [s[0]] + s[1..]; }
      forall i, j | 0 <= i < j < |r| ensures BeforeOrSame(r[i], r[j]) {
        if i == 0 {
          assert r[j] in multiset(tail);
          assert r[j] == v || r[j] in s[1..];
          if r[j] != v {
            var k :| 0 <= k < |s[1..]| && s[1..][k] == r[j];
            assert s[k + 1] == r[j];
          }
        }
      }
      r
  }

  /** sorted(...): the unique ordered arrangement of its argument. */
  function Sort(s: seq<DockerVolume>): (r: seq<DockerVolume>)
    ensures Sorted(r) && multiset(r) == multiset(s)
  {
    if s == [] then []
    else
      assert s == [s[0]] + s[1..];
      Insert(s[0], Sort(s[1..]))
  }

  /** `_reorder_docker_volumes(volumes)`. */
  function ReorderDockerVolumes(volumes: seq<DockerVolume>): (r: seq<DockerVolume>)
    ensures Sorted(r)
    ensures multiset(r) == multiset(Survivors(volumes))
  {
    Sort(Survivors(volumes))
  }

  predicate KeysDistinct(vs: seq<DockerVolume>)
  {
    forall a, b :: 0 <= a < b < |vs| ==> DedupKey(vs[a]) != DedupKey(vs[b])
  }

  lemma DropFirstKeepsKeysDistinct(s: seq<DockerVolume>)
    requires s != [] && KeysDistinct(s)
    ensures KeysDistinct(s[1..])
  {
    var t := s[1..];
    forall a, b | 0 <= a < b < |t| ensures DedupKey(t[a]) != DedupKey(t[b]) {
      assert t[a] == s[a + 1] && t[b] == s[b + 1];
    }
  }

  lemma ConsKeysDistinct(x: DockerVolume, t: seq<DockerVolume>)
    requires KeysDistinct(t)
    requires forall k :: 0 <= k < |t| ==> DedupKey(t[k]) != DedupKey(x)
    ensures KeysDistinct([x] + t)
  {
    var r := [x] + t;
    forall a, b | 0 <= a < b < |r| ensures DedupKey(r[a]) != DedupKey(r[b]) {
      assert r[b] == t[b - 1];
      if a > 0 { assert r[a] == t[a - 1]; }
    }
  }

  /** Every key of a permutation of `s` is a key of `s`. */
  lemma PermutationKeys(s: seq<DockerVolume>, r: seq<DockerVolume>, key: string)
    requires multiset(r) == multiset(s)
    requires forall k :: 0 <= k < |s| ==> DedupKey(s[k]) != key
    ensures forall j :: 0 <= j < |r| ==> DedupKey(r[j]) != key
  {
    forall j | 0 <= j < |r| ensures DedupKey(r[j]) != key {
      assert r[j] in multiset(s);
      var k :| 0 <= k < |s| && s[k] == r[j];
    }
  }

  lemma {:induction false} InsertKeepsKeysDistinct(v: DockerVolume, s: seq<DockerVolume>)
    requires Sorted(s) && KeysDistinct(s)
    requires forall k :: 0 <= k < |s| ==> DedupKey(s[k]) != DedupKey(v)
    ensures KeysDistinct(Insert(v, s))
  {
    if s == [] {
    } else if BeforeOrSame(v, s[0]) {
      ConsKeysDistinct(v, s);
    } else {
      var t := s[1..];
      DropFirstKeepsKeysDistinct(s);
      assert forall k :: 0 <= k < |t| ==> DedupKey(t[k]) != DedupKey(v) by {
        forall k | 0 <= k < |t| ensures DedupKey(t[k]) != DedupKey(v) { assert t[k] == s[k + 1]; }
      }
      InsertKeepsKeysDistinct(v, t);
      var tail := Insert(v, t);
      assert forall k :: 0 <= k < |t + [v]| ==> DedupKey((t + [v])[k]) != DedupKey(s[0]) by {
        forall k | 0 <= k < |t + [v]| ensures DedupKey((t + [v])[k]) != DedupKey(s[0]) {
          if k < |t| { assert (t + [v])[k] == s[k + 1]; }
        }
      }
      PermutationKeys(t + [v], tail, DedupKey(s[0]));
      ConsKeysDistinct(s[0], tail);
    }
  }

  lemma {:induction false} SortKeepsKeysDistinct(s: seq<DockerVolume>)
    requires KeysDistinct(s)
    ensures KeysDistinct(Sort(s))
  {
    if s != [] {
      DropFirstKeepsKeysDistinct(s);
      SortKeepsKeysDistinct(s[1..]);
      var rest := Sort(s[1..]);
      assert forall k :: 0 <= k < |s[1..]| ==> DedupKey(s[1..][k]) != DedupKey(s[0]) by {
        forall k | 0 <= k < |s[1..]| ensures DedupKey(s[1..][k]) != DedupKey(s[0]) {
          assert s[1..][k] == s[k + 1];
        }
      }
      PermutationKeys(s[1..], rest, DedupKey(s[0]));
      InsertKeepsKeysDistinct(s[0], rest);
    }
  }

  /** The result holds exactly the entries no later entry overrides, and
      no two of them share a deduplication key. */
  lemma ReorderDockerVolumesSpec(volumes: seq<DockerVolume>)
    ensures forall v :: v in ReorderDockerVolumes(volumes) <==> Survives(volumes, v)
    ensures KeysDistinct(ReorderDockerVolumes(volumes))
  {
    var s := Survivors(volumes);
    var r := ReorderDockerVolumes(volumes);
    SurvivorsSpec(volumes);
    SurvivorsKeysDistinct(volumes);
    SortKeepsKeysDistinct(s);
    forall v ensures v in r <==> v in s {
      assert v in r <==> v in multiset(r);
      assert v in s <==> v in multiset(s);
    }
  }
}
