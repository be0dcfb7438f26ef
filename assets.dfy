/**
 * The asset version store: file path to content hash, read by `Get` and
 * `Keys` to stamp every outbound message, and refreshed by a walk over the
 * asset directory.
 */
module Assets {
  import opened Wrappers
  import opened Strings
  import opened Sorting

  /** Ascending in Go's string order, without repetitions. */
  ghost predicate StrictlyAscending(s: seq<string>)
  {
    forall i, j :: 0 <= i < j < |s| ==> LexLe(s[i], s[j]) && s[i] != s[j]
  }

  /** `s` lists the set `ks` in ascending order, each element once. */
  ghost predicate SortsSet(s: seq<string>, ks: set<string>)
  {
    StrictlyAscending(s) && forall k :: k in s <==> k in ks
  }

  lemma LexLeIsTotalPreorder()
    ensures TotalPreorder(LexLe)
  {
    forall x, y ensures LexLe(x, y) || LexLe(y, x) {
      LexLeTotal(x, y);
    }
    forall x, y, z | LexLe(x, y) && LexLe(y, z) ensures LexLe(x, z) {
      LexLeTransitive(x, y, z);
    }
  }

  /** Insert a new string into an ascending list at its place. */
  function Insert(s: seq<string>, x: string): seq<string>
  {
    if |s| == 0 then [x]
    else if LexLe(x, s[0]) then [x] + s
    else [s[0]] + Insert(s[1..], x)
  }

  lemma {:induction false} InsertSorts(s: seq<string>, x: string, ks: set<string>)
    requires SortsSet(s, ks) && x !in ks
    ensures SortsSet(Insert(s, x), ks + {x})
  {
    if |s| > 0 && !LexLe(x, s[0]) {
      var t := s[1..];
      assert SortsSet(t, ks - {s[0]});
      InsertSorts(t, x, ks - {s[0]});
      var r := Insert(s, x);
      assert r == [s[0]] + Insert(t, x);
      LexLeTotal(x, s[0]);
      forall j | 0 < j < |r| ensures LexLe(s[0], r[j]) && s[0] != r[j] {
        assert r[j] in Insert(t, x);
        if r[j] != x {
          var m :| 0 <= m < |t| && t[m] == r[j];
          assert s[1 + m] == r[j];
        }
      }
    } else if |s| > 0 {
      var r := Insert(s, x);
      assert r == [x] + s;
      forall j | 0 < j < |r| ensures LexLe(x, r[j]) && x != r[j] {
        assert r[j] == s[j - 1] && s[j - 1] in ks;
        if j > 1 {
          LexLeTransitive(x, s[0], r[j]);
        }
      }
    }
  }

  lemma {:induction false} SortedExists(ks: set<string>)
    ensures exists s :: SortsSet(s, ks)
    decreases ks
  {
    if ks == {} {
      assert SortsSet([], ks);
    } else {
      var x :| x in ks;
      SortedExists(ks - {x});
      var s :| SortsSet(s, ks - {x});
      InsertSorts(s, x, ks - {x});
      assert ks - {x} + {x} == ks;
    }
  }

  /** The ascending list of a set of keys (what sorting the map's keys yields). */
  ghost function SortedKeys(ks: set<string>): (s: seq<string>)
    ensures SortsSet(s, ks)
  {
    SortedExists(ks);
    var s :| SortsSet(s, ks);
    s
  }

  /** A set has exactly one ascending listing. */
  lemma {:induction false} SortsSetUnique(a: seq<string>, b: seq<string>, ks: set<string>)
    requires SortsSet(a, ks) && SortsSet(b, ks)
    ensures a == b
    decreases |a|
  {
    if |a| == 0 {
      forall k ensures multiset(b)[k] == 0 {
        assert k in multiset(b) <==> k in b;
      }
      assert multiset(b) == multiset{};
    } else {
      assert a[0] in ks && a[0] in b;
      assert |b| > 0 && b[0] in ks && b[0] in a;
      var i :| 0 <= i < |a| && a[i] == b[0];
      var j :| 0 <= j < |b| && b[j] == a[0];
      if i > 0 && j > 0 {
        LexLeAntisymmetric(a[0], b[0]);
      }
      assert a[0] == b[0];
      var rest := ks - {a[0]};
      assert SortsSet(a[1..], rest);
      assert SortsSet(b[1..], rest);
      SortsSetUnique(a[1..], b[1..], rest);
      assert a == [a[0]] + a[1..] && b == [b[0]] + b[1..];
    }
  }

  /** What one visit of the directory walk finds for a file. */
  datatype FileRead = OpenError | ReadError | Hashed(hex: string)

  /**
   * One call the walk makes: a path, whether the walk reported an error for
   * it, whether it is a directory, and what reading and hashing it gives.
   */
  datatype Visit = Visit(path: string, walkErr: Option<string>, isDir: bool, content: FileRead)

  /** The visit makes the walk stop: an error passed in, or a file that cannot be opened or read. */
  predicate Fails(v: Visit)
  {
    v.walkErr.Some? || (!v.isDir && !v.content.Hashed?)
  }

  /** The error a failing visit ends the walk with. */
  function FailureMessage(v: Visit): string
  {
    if v.walkErr.Some? then v.walkErr.value
    else if v.content == OpenError then "open asset file"
    else "read asset file"
  }

  /** The number of visits made before the first failing one. */
  function FirstFailure(vs: seq<Visit>): (n: nat)
    ensures n <= |vs|
    ensures forall i :: 0 <= i < n ==> !Fails(vs[i])
    ensures n < |vs| ==> Fails(vs[n])
  {
    if |vs| == 0 then 0
    else if Fails(vs[0]) then 0
    else 1 + FirstFailure(vs[1..])
  }

  /** The map after recording one visit: files get their hash, directories are skipped. */
  function Record(m: map<string, string>, v: Visit): map<string, string>
  {
    if !v.isDir && v.content.Hashed? then m[v.path := v.content.hex] else m
  }

  /** The map after recording a sequence of visits in order. */
  function Written(m: map<string, string>, vs: seq<Visit>): map<string, string>
  {
    if |vs| == 0 then m else Record(Written(m, vs[..|vs| - 1]), vs[|vs| - 1])
  }

  /** Refreshing the hashes never removes a key. */
  lemma {:induction false} WrittenKeepsKeys(m: map<string, string>, vs: seq<Visit>)
    ensures m.Keys <= Written(m, vs).Keys
  {
    if |vs| > 0 {
      WrittenKeepsKeys(m, vs[..|vs| - 1]);
    }
  }

  /** Every key added by a refresh is the path of a visited file, never of a directory. */
  lemma {:induction false} WrittenAddsOnlyFiles(m: map<string, string>, vs: seq<Visit>, k: string)
    requires k in Written(m, vs) && k !in m
    ensures exists i :: 0 <= i < |vs| && vs[i].path == k && !vs[i].isDir
  {
    var init := vs[..|vs| - 1];
    var last := vs[|vs| - 1];
    if k in Written(m, init) {
      WrittenAddsOnlyFiles(m, init, k);
      var i :| 0 <= i < |init| && init[i].path == k && !init[i].isDir;
      assert vs[i] == init[i];
    } else {
      assert last.path == k && !last.isDir;
    }
  }

  /** The hash recorded for a path is the one its last file visit found. */
  lemma {:induction false} WrittenLastVisitWins(m: map<string, string>, vs: seq<Visit>, i: nat)
    requires i < |vs| && !vs[i].isDir && vs[i].content.Hashed?
    requires forall j :: i < j < |vs| ==> vs[j].path != vs[i].path || vs[j].isDir || !vs[j].content.Hashed?
    ensures vs[i].path in Written(m, vs) && Written(m, vs)[vs[i].path] == vs[i].content.hex
  {
    if i < |vs| - 1 {
      WrittenLastVisitWins(m, vs[..|vs| - 1], i);
    }
  }

  class AssetVersionStore {
    var store: map<string, string>

    /** `newAssetVersionStore()`: an empty store. */
    constructor ()
      ensures store == map[]
    {
      store := map[];
    }

    /** The stored hash of a path, or the empty string (Go's zero value) when there is none. */
    function Get(key: string): (h: string)
      reads this
      ensures key in store ==> h == store[key]
      ensures key !in store ==> h == ""
    {
      if key in store then store[key] else ""
    }

    /** Every stored key exactly once, in ascending order; the store is not changed. */
    method Keys() returns (keys: seq<string>)
      ensures SortsSet(keys, store.Keys)
      ensures keys == SortedKeys(store.Keys)
    {
      var rest := store.Keys;
      var out: seq<string> := [];
      while rest != {}
        invariant rest <= store.Keys
        invariant forall k :: k in out <==> k in store && k !in rest
        invariant Distinct(out)
        decreases rest
      {
        var k :| k in rest;
        out := out + [k];
        rest := rest - {k};
      }
      var a := new string[|out|](i requires 0 <= i < |out| => out[i]);
      assert a[..] == out;
      LexLeIsTotalPreorder();
      SortBy(a, LexLe);
      keys := a[..];
      PermutationDistinct(out, keys);
      forall k ensures k in keys <==> k in store {
        assert k in keys <==> k in multiset(keys);
        assert k in out <==> k in multiset(out);
      }
      SortsSetUnique(keys, SortedKeys(store.Keys), store.Keys);
    }

    /**
     * `UpdateAssetHashes`: record the hash of every file the walk visits, in
     * visit order, skipping directories; stop at the first failing visit,
     * keeping what was written before it.
     */
    method UpdateAssetHashes(visits: seq<Visit>) returns (err: Option<string>)
      modifies this
      ensures store == Written(old(store), visits[..FirstFailure(visits)])
      ensures err.None? <==> FirstFailure(visits) == |visits|
      ensures err.Some? ==> err.value == FailureMessage(visits[FirstFailure(visits)])
    {
      var i := 0;
      while i < |visits|
        invariant 0 <= i <= FirstFailure(visits)
        invariant store == Written(old(store), visits[..i])
      {
        var v := visits[i];
        if v.walkErr.Some? {
          return Some(v.walkErr.value);
        }
        if !v.isDir {
          match v.content
          case OpenError => return Some("open asset file");
          case ReadError => return Some("read asset file");
          case Hashed(hex) => store := store[v.path := hex];
        }
        assert visits[..i + 1][..i] == visits[..i];
        i := i + 1;
      }
      err := None;
    }
  }
}
