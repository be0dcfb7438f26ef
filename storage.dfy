/**
 * The application state record (`storage`) and its persistence rules: the
 * follower, subscriber, bits and donation sub-records, the event log, the
 * trimming and newest-first sorting `Save` does before writing, and the
 * read-modify-write steps the ingestion paths run inside `WithModLock`.
 * The locks themselves are not modelled: each locked closure is one call.
 */
module Storage {
  import opened Wrappers
  import opened Sorting

  /** `storeMaxRecent`: the cap on every bounded list after a save. */
  const StoreMaxRecent: nat := 50

  /**
   * The JSON values the core builds and stores: field maps of strings,
   * integers, booleans and timestamps, and the whole state record (the
   * payload of "store" messages). Timestamps are instants in nanoseconds.
   */
  datatype Value =
    | Str(s: string)
    | Int(i: int)
    | Bool(b: bool)
    | Time(t: int)
    | Object(fields: map<string, Value>)
    | State(snapshot: Snapshot)

  datatype Subscriber = Subscriber(name: string, months: int)

  /** One entry of the replay log: when it was stored, its type, its payload. */
  datatype StoredEvent = StoredEvent(time: int, typ: string, message: Value)

  /** `LastAmount` of donations is a float and is not part of the model. */
  datatype BitDonations = BitDonations(lastDonator: Option<string>, lastAmount: int, totalAmounts: Option<map<string, int>>)
  datatype Donations = Donations(lastDonator: Option<string>)
  datatype Followers = Followers(last: Option<string>, seen: seq<string>, count: int)
  datatype Subs = Subs(last: Option<string>, lastDuration: int, count: int, recent: seq<Subscriber>)

  /** The value of the whole record at one moment. */
  datatype Snapshot = Snapshot(
    bitDonations: BitDonations,
    donations: Donations,
    followers: Followers,
    subs: Subs,
    events: seq<StoredEvent>)

  /** The state of `newStorage()`: every field at its zero value. */
  const EmptySnapshot := Snapshot(
    BitDonations(None, 0, None), Donations(None), Followers(None, [], 0), Subs(None, 0, 0, []), [])

  // ---------------------------------------------------------------------
  // Trimming rules of Save
  // ---------------------------------------------------------------------

  /** A bounded list after a save: its first `StoreMaxRecent` entries. */
  function TrimRecent<T>(s: seq<T>): (r: seq<T>)
    ensures |r| == if |s| > StoreMaxRecent then StoreMaxRecent else |s|
    ensures r == s[..|r|]
  {
    if |s| > StoreMaxRecent then s[..StoreMaxRecent] else s
  }

  /** Prepending to a trimmed list and trimming again forgets nothing the untrimmed list would keep. */
  lemma PrependTrim<T>(x: T, s: seq<T>)
    ensures TrimRecent([x] + TrimRecent(s)) == TrimRecent([x] + s)
  {
    if |s| > StoreMaxRecent {
      assert ([x] + s[..StoreMaxRecent])[..StoreMaxRecent] == ([x] + s)[..StoreMaxRecent];
    }
  }

  /** The order `Save` sorts the log by: `x` may come before `y` when `y` is not newer. */
  predicate NewerOrSame(x: StoredEvent, y: StoredEvent)
  {
    y.time <= x.time
  }

  ghost predicate NewestFirst(s: seq<StoredEvent>)
  {
    forall i, j :: 0 <= i < j < |s| ==> s[j].time <= s[i].time
  }

  /**
   * `after` is a possible event log after `Save` ran on `before`: sorted
   * newest first, cut to the cap, taken from `before`, and nothing dropped
   * is newer than anything kept. Events with equal times may come in any
   * order, since `sort.Slice` is not stable.
   */
  ghost predicate IsTrimOf(after: seq<StoredEvent>, before: seq<StoredEvent>)
  {
    && NewestFirst(after)
    && |after| == (if |before| > StoreMaxRecent then StoreMaxRecent else |before|)
    && multiset(after) <= multiset(before)
    && forall i, d :: 0 <= i < |after| && d in multiset(before) - multiset(after) ==> d.time <= after[i].time
  }

  /** `after` is a possible state after `Save` ran on `before`: only the three bounded lists change. */
  ghost predicate SavedFrom(after: Snapshot, before: Snapshot)
  {
    && after.bitDonations == before.bitDonations
    && after.donations == before.donations
    && after.followers == before.followers.(seen := TrimRecent(before.followers.seen))
    && after.subs == before.subs.(recent := TrimRecent(before.subs.recent))
    && IsTrimOf(after.events, before.events)
  }

  /** Splitting a sequence splits its multiset. */
  lemma SplitMultiset<T>(s: seq<T>, k: nat)
    requires k <= |s|
    ensures multiset(s) == multiset(s[..k]) + multiset(s[k..])
  {
    assert s == s[..k] + s[k..];
  }

  /** Taking the first entries of a newest-first permutation of the log is a valid trim. */
  lemma PrefixOfSortedIsTrim(s: seq<StoredEvent>, before: seq<StoredEvent>, k: nat)
    requires NewestFirst(s) && multiset(s) == multiset(before)
    requires k == if |s| > StoreMaxRecent then StoreMaxRecent else |s|
    ensures IsTrimOf(s[..k], before)
  {
    assert |before| == |multiset(before)| == |multiset(s)| == |s|;
    SplitMultiset(s, k);
    DroppedNotNewer(s, k);
  }

  /** In a newest-first sequence, nothing after position `k` is newer than anything before it. */
  lemma DroppedNotNewer(s: seq<StoredEvent>, k: nat)
    requires NewestFirst(s) && k <= |s|
    ensures forall i, d :: 0 <= i < k && d in multiset(s[k..]) ==> d.time <= s[..k][i].time
  {
    forall i, d | 0 <= i < k && d in multiset(s[k..])
      ensures d.time <= s[..k][i].time
    {
      var j := InMultisetIndex(s[k..], d);
      assert s[k + j] == d;
    }
  }

  lemma SubMultisetSameSize<T>(a: multiset<T>, b: multiset<T>)
    requires a <= b && |a| == |b|
    ensures a == b
  {
    assert b == a + (b - a);
    assert |b - a| == 0;
  }

  lemma InMultisetIndex<T>(s: seq<T>, x: T) returns (j: nat)
    requires x in multiset(s)
    ensures j < |s| && s[j] == x
  {
    assert x in s;
    j :| 0 <= j < |s| && s[j] == x;
  }

  /** Trimming a trimmed log keeps the same events. */
  lemma {:induction false} TrimTwice(e0: seq<StoredEvent>, e1: seq<StoredEvent>, e2: seq<StoredEvent>)
    requires IsTrimOf(e1, e0) && IsTrimOf(e2, e1)
    ensures multiset(e2) == multiset(e1)
    ensures IsTrimOf(e2, e0)
  {
    SubMultisetSameSize(multiset(e2), multiset(e1));
    forall i, d | 0 <= i < |e2| && d in multiset(e0) - multiset(e2)
      ensures d.time <= e2[i].time
    {
      var j := InMultisetIndex(e1, e2[i]);
    }
  }

  /** Trimming, appending one event and trimming again is a trim of the log with that event appended. */
  lemma {:induction false} TrimAppendTrim(e0: seq<StoredEvent>, e1: seq<StoredEvent>, x: StoredEvent, e2: seq<StoredEvent>)
    requires IsTrimOf(e1, e0) && IsTrimOf(e2, e1 + [x])
    ensures IsTrimOf(e2, e0 + [x])
  {
    assert multiset(e1 + [x]) == multiset(e1) + multiset{x};
    assert multiset(e0 + [x]) == multiset(e0) + multiset{x};
    forall i, d | 0 <= i < |e2| && d in multiset(e0 + [x]) - multiset(e2)
      ensures d.time <= e2[i].time
    {
      if d !in multiset(e1 + [x]) - multiset(e2) {
        assert d in multiset(e0) - multiset(e1);
        TrimDropped(e0, e1, d);
        DroppedByFirstTrim(e1, x, e2, d, i);
      }
    }
  }

  /** A trim that dropped something was cut at the cap, and kept nothing older than what it dropped. */
  lemma TrimDropped(e0: seq<StoredEvent>, e1: seq<StoredEvent>, d: StoredEvent)
    requires IsTrimOf(e1, e0) && d in multiset(e0) - multiset(e1)
    ensures |e1| == StoreMaxRecent
    ensures forall k :: 0 <= k < |e1| ==> d.time <= e1[k].time
  {
    if |e0| <= StoreMaxRecent {
      SubMultisetSameSize(multiset(e1), multiset(e0));
      assert false;
    }
  }

  /**
   * When a full log gets one event appended and is trimmed back to the same
   * size, whatever is kept is at least as new as something of the old log.
   */
  lemma DroppedByFirstTrim(e1: seq<StoredEvent>, x: StoredEvent, e2: seq<StoredEvent>, d: StoredEvent, i: nat)
    requires |e2| == |e1| && i < |e2|
    requires multiset(e2) <= multiset(e1) + multiset{x}
    requires forall k :: 0 <= k < |e1| ==> d.time <= e1[k].time
    requires forall k, y :: 0 <= k < |e2| && y in multiset(e1) + multiset{x} - multiset(e2) ==> y.time <= e2[k].time
    ensures d.time <= e2[i].time
  {
    var b := multiset(e1) + multiset{x};
    if e2[i] in multiset(e1) {
      var j := InMultisetIndex(e1, e2[i]);
    } else {
      var dropped := b - multiset(e2);
      assert b == multiset(e2) + dropped;
      assert |dropped| == 1;
      var y :| y in dropped;
      assert y in multiset(e1);
      var j := InMultisetIndex(e1, y);
    }
  }

  /** Two saves in a row are one save. */
  lemma SavedTwice(s0: Snapshot, s1: Snapshot, s2: Snapshot)
    requires SavedFrom(s1, s0) && SavedFrom(s2, s1)
    ensures SavedFrom(s2, s0)
  {
    TrimTwice(s0.events, s1.events, s2.events);
  }

  /** Save, append an event, save again: one save of the log with the event appended. */
  lemma SavedAppendSaved(s0: Snapshot, s1: Snapshot, x: StoredEvent, s2: Snapshot)
    requires SavedFrom(s1, s0) && SavedFrom(s2, s1.(events := s1.events + [x]))
    ensures SavedFrom(s2, s0.(events := s0.events + [x]))
  {
    TrimAppendTrim(s0.events, s1.events, x, s2.events);
  }

  /** Save, record a follower, save again: one save after recording the follower. */
  lemma SavedFollowedSaved(s0: Snapshot, s1: Snapshot, login: string, s2: Snapshot)
    requires SavedFrom(s1, s0) && SavedFrom(s2, s1.(followers := Followed(s1.followers, login)))
    ensures SavedFrom(s2, s0.(followers := Followed(s0.followers, login)))
  {
    PrependTrim(login, s0.followers.seen);
    TrimTwice(s0.events, s1.events, s2.events);
  }

  /** Events with pairwise different times. */
  ghost predicate DistinctTimes(s: seq<StoredEvent>)
  {
    forall i, j :: 0 <= i < |s| && 0 <= j < |s| && i != j ==> s[i].time != s[j].time
  }

  /** Dropping the head of a sequence removes it from the multiset. */
  lemma MultisetTail<T>(s: seq<T>)
    requires |s| > 0
    ensures multiset(s[1..]) == multiset(s) - multiset{s[0]}
  {
    assert s == [s[0]] + s[1..];
  }

  /** Two newest-first orders of the same events start with the same event when no two times are equal. */
  lemma SameHead(a: seq<StoredEvent>, b: seq<StoredEvent>)
    requires NewestFirst(a) && NewestFirst(b) && multiset(a) == multiset(b) && DistinctTimes(a)
    requires |a| > 0
    ensures |b| > 0 && a[0] == b[0]
  {
    var j := InMultisetIndex(b, a[0]);
    var i := InMultisetIndex(a, b[0]);
    assert a[i].time == a[0].time;
  }

  /** Two newest-first orders of the same events are the same sequence when no two times are equal. */
  lemma {:induction false} NewestFirstUnique(a: seq<StoredEvent>, b: seq<StoredEvent>)
    requires NewestFirst(a) && NewestFirst(b) && multiset(a) == multiset(b) && DistinctTimes(a)
    ensures a == b
  {
    if |a| == 0 {
      assert |multiset(b)| == 0;
    } else {
      SameHead(a, b);
      MultisetTail(a);
      MultisetTail(b);
      NewestFirstUnique(a[1..], b[1..]);
      assert a == [a[0]] + a[1..] && b == [b[0]] + b[1..];
    }
  }

  /**
   * Saving an already saved state changes nothing but, possibly, the order
   * of events stored at the same instant; with distinct times it changes
   * nothing at all.
   */
  lemma SaveIdempotent(s0: Snapshot, s1: Snapshot, s2: Snapshot)
    requires SavedFrom(s1, s0) && SavedFrom(s2, s1)
    ensures s2.bitDonations == s1.bitDonations && s2.donations == s1.donations
    ensures s2.followers == s1.followers && s2.subs == s1.subs
    ensures multiset(s2.events) == multiset(s1.events) && NewestFirst(s2.events)
    ensures DistinctTimes(s1.events) ==> s2 == s1
  {
    TrimTwice(s0.events, s1.events, s2.events);
    if DistinctTimes(s1.events) {
      NewestFirstUnique(s1.events, s2.events);
    }
  }

  // ---------------------------------------------------------------------
  // Record updates made inside WithModLock
  // ---------------------------------------------------------------------

  /** The follower record after announcing a new follower. */
  function Followed(f: Followers, login: string): (r: Followers)
  {
    f.(last := Some(login), count := f.count + 1, seen := [login] + f.seen)
  }

  /** The bits record after a cheer of `amount` by `user`, shown as `displayName`. */
  function BitsRecorded(b: BitDonations, user: string, displayName: string, amount: int): (r: BitDonations)
  {
    var totals := b.totalAmounts.GetOr(map[]);
    b.(lastDonator := Some(displayName),
       lastAmount := amount,
       totalAmounts := Some(totals[user := TotalOf(totals, user) + amount]))
  }

  /** The running total of a user: absent users have the zero value. */
  function TotalOf(totals: map<string, int>, user: string): int
  {
    if user in totals then totals[user] else 0
  }

  /** A cheer adds to its own user's total only. */
  lemma BitsRecordedTotals(b: BitDonations, user: string, displayName: string, amount: int, other: string)
    ensures BitsRecorded(b, user, displayName, amount).totalAmounts.Some?
    ensures TotalOf(BitsRecorded(b, user, displayName, amount).totalAmounts.value, user)
         == TotalOf(b.totalAmounts.GetOr(map[]), user) + amount
    ensures other != user ==>
      TotalOf(BitsRecorded(b, user, displayName, amount).totalAmounts.value, other)
      == TotalOf(b.totalAmounts.GetOr(map[]), other)
    ensures BitsRecorded(b, user, displayName, amount).totalAmounts.value.Keys
         == b.totalAmounts.GetOr(map[]).Keys + {user}
  {
  }

  /** The subscriber record after a sub, resub or gifted sub for `name`. */
  function SubRecorded(s: Subs, name: string, months: int): (r: Subs)
  {
    s.(last := Some(name), lastDuration := months, recent := [Subscriber(name, months)] + s.recent)
  }

  // ---------------------------------------------------------------------
  // Loading
  // ---------------------------------------------------------------------

  /** What opening and decoding the snapshot file yields. */
  datatype StoreFile =
    | Missing
    | OpenFailed
    | NotGzip
    | BadJson
    | Decoded(snapshot: Snapshot)

  datatype LoadResult = Loaded | NotExist | LoadFailed(reason: string)

  /** Whether a load result stops the process at startup: anything but success or a missing file. */
  function StartupFatal(r: LoadResult): (fatal: bool)
    ensures fatal <==> r != Loaded && r != NotExist
  {
    r.LoadFailed?
  }

  // ---------------------------------------------------------------------
  // The record
  // ---------------------------------------------------------------------

  /** The `sort.Slice` call of `Save`: the log's events, newest first. */
  method SortNewestFirst(log: seq<StoredEvent>) returns (sorted: seq<StoredEvent>)
    ensures NewestFirst(sorted) && multiset(sorted) == multiset(log)
  {
    var a := new StoredEvent[|log|](i requires 0 <= i < |log| => log[i]);
    assert a[..] == log;
    SortBy(a, NewerOrSame);
    sorted := a[..];
    assert NewestFirst(sorted) by {
      forall i, j | 0 <= i < j < |sorted| ensures sorted[j].time <= sorted[i].time {
        assert NewerOrSame(sorted[i], sorted[j]);
      }
    }
  }

  class Store {
    var bitDonations: BitDonations
    var donations: Donations
    var followers: Followers
    var subs: Subs
    var events: seq<StoredEvent>

    /** `newStorage()`. */
    constructor ()
      ensures Snap() == EmptySnapshot
    {
      bitDonations := BitDonations(None, 0, None);
      donations := Donations(None);
      followers := Followers(None, [], 0);
      subs := Subs(None, 0, 0, []);
      events := [];
    }

    function Snap(): Snapshot
      reads this
    {
      Snapshot(bitDonations, donations, followers, subs, events)
    }

    /**
     * `Load`: a missing file is reported as its own outcome; any other
     * failure is an error with the step that failed; a decoded snapshot
     * replaces the record.
     */
    method Load(file: StoreFile) returns (r: LoadResult)
      modifies this
      ensures r == NotExist <==> file == Missing
      ensures r == Loaded <==> file.Decoded?
      ensures file == OpenFailed ==> r == LoadFailed("opening storage file")
      ensures file == NotGzip ==> r == LoadFailed("create gzip reader")
      ensures file == BadJson ==> r == LoadFailed("decode json")
      ensures file.Decoded? ==> Snap() == file.snapshot
      ensures !file.Decoded? ==> Snap() == old(Snap())
    {
      match file
      case Missing => r := NotExist;
      case OpenFailed => r := LoadFailed("opening storage file");
      case NotGzip => r := LoadFailed("create gzip reader");
      case BadJson => r := LoadFailed("decode json");
      case Decoded(s) =>
        bitDonations, donations, followers, subs, events := s.bitDonations, s.donations, s.followers, s.subs, s.events;
        r := Loaded;
    }

    /**
     * The trimming part of `Save`: cut the follower and subscriber lists to
     * the cap, sort the event log newest first and cut it to the cap.
     */
    method Save()
      modifies this
      ensures SavedFrom(Snap(), old(Snap()))
    {
      if |followers.seen| > StoreMaxRecent {
        followers := followers.(seen := followers.seen[..StoreMaxRecent]);
      }
      if |subs.recent| > StoreMaxRecent {
        subs := subs.(recent := subs.recent[..StoreMaxRecent]);
      }
      var sorted := SortNewestFirst(events);
      var k := if |sorted| > StoreMaxRecent then StoreMaxRecent else |sorted|;
      PrefixOfSortedIsTrim(sorted, events, k);
      events := sorted[..k];
    }

    /** Appending to the log (api.go), before any trimming. */
    method AppendEvent(e: StoredEvent)
      modifies this`events
      ensures events == old(events) + [e]
    {
      events := events + [e];
    }

    /** The bits update: last donator and amount, and the user's running total. */
    method RecordBits(user: string, displayName: string, amount: int) returns (total: int)
      modifies this`bitDonations
      ensures bitDonations == BitsRecorded(old(bitDonations), user, displayName, amount)
      ensures total == TotalOf(old(bitDonations).totalAmounts.GetOr(map[]), user) + amount
    {
      bitDonations := bitDonations.(lastDonator := Some(displayName), lastAmount := amount);
      if bitDonations.totalAmounts.None? {
        bitDonations := bitDonations.(totalAmounts := Some(map[]));
      }
      var totals := bitDonations.totalAmounts.value;
      totals := totals[user := TotalOf(totals, user) + amount];
      bitDonations := bitDonations.(totalAmounts := Some(totals));
      total := totals[user];
    }

    /** The sub update: last subscriber, its duration, and the subscriber prepended to the recent list. */
    method RecordSub(name: string, months: int)
      modifies this`subs
      ensures subs == SubRecorded(old(subs), name, months)
    {
      subs := subs.(last := Some(name), lastDuration := months);
      subs := subs.(recent := [Subscriber(name, months)] + subs.recent);
    }

    /** A new follower: last follower, count up by one, login prepended to the seen list. */
    method RecordFollow(login: string)
      modifies this`followers
      ensures followers == Followed(old(followers), login)
    {
      followers := followers.(last := Some(login));
      followers := followers.(count := followers.count + 1);
      followers := followers.(seen := [login] + followers.seen);
    }

    /** The API resync of followers: the reported total and the names as reported. */
    method ResyncFollowers(names: seq<string>, total: int)
      modifies this`followers
      ensures followers == old(followers).(count := total, seen := names)
    {
      followers := followers.(count := total, seen := names);
    }

    /** The API resync of the subscriber count. */
    method SetSubCount(n: int)
      modifies this`subs
      ensures subs == old(subs).(count := n)
    {
      subs := subs.(count := n);
    }

    /** Setting or clearing the last follower by hand: the empty name clears it. */
    method SetLastFollower(name: string)
      modifies this`followers
      ensures followers.last == (if name == "" then None else Some(name))
      ensures followers.seen == old(followers.seen) && followers.count == old(followers.count)
    {
      if name == "" {
        followers := followers.(last := None);
      } else {
        followers := followers.(last := Some(name));
      }
    }
  }
}
