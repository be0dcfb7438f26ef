/**
 * The periodic resync from the Twitch API: the follower list and total,
 * the subscriber count over all pages, and the publication of the result.
 * The HTTP answers are inputs.
 */
module Stats {
  import opened Wrappers
  import opened Strings
  import opened Storage
  import opened Api
  import opened Webhook

  /** An API request: no answer, or a status, the body (`None` when unreadable) and the body decoded. */
  datatype Fetch<T> = FetchFailed | Response(status: int, body: Option<string>, decoded: Option<T>)

  /** The error a request ends with, if any: no answer, a status other than 200, or an undecodable body. */
  function FetchError<T>(f: Fetch<T>): (r: Option<string>)
    ensures r.None? <==> f.Response? && f.status == 200 && f.decoded.Some?
  {
    match f
    case FetchFailed => Some("requesting subscribe")
    case Response(status, body, decoded) =>
      if status != 200 then Some(StatusError(status, body))
      else if decoded.None? then Some("decode json response")
      else None
  }

  /** The follower listing: the reported total and one page of followers. */
  datatype FollowerList = FollowerList(total: int, data: seq<HubFollow>)

  /**
   * `updateFollowers`: on a good answer, the follower count becomes the
   * reported total and `seen` the reported names in the reported order,
   * then the store is saved; on any error the store is not touched.
   */
  method UpdateFollowers(store: Store, answer: Fetch<FollowerList>) returns (err: Option<string>)
    modifies store
    ensures err == FetchError(answer)
    ensures err.Some? ==> store.Snap() == old(store.Snap())
    ensures err.None? ==>
      var list := answer.decoded.value;
      SavedFrom(store.Snap(), old(store.Snap()).(followers := old(store.followers).(count := list.total, seen := Names(list.data))))
  {
    err := FetchError(answer);
    if err.Some? {
      return;
    }
    var list := answer.decoded.value;
    var seen: seq<string> := [];
    var i := 0;
    while i < |list.data|
      invariant 0 <= i <= |list.data| && seen == Names(list.data[..i])
    {
      assert list.data[..i + 1][..i] == list.data[..i];
      seen := seen + [list.data[i].fromName];
      i := i + 1;
    }
    assert list.data[..i] == list.data;
    store.ResyncFollowers(seen, list.total);
    store.Save();
  }

  /** One subscription entry, as far as it is used. */
  datatype SubEntry = SubEntry(broadcasterID: string, userID: string)

  /** One page of the subscription listing and the cursor to the next one. */
  datatype SubPage = SubPage(cursor: string, data: seq<SubEntry>)

  /** The entries that count: the broadcaster's own subscription is not one. */
  function Others(data: seq<SubEntry>): (r: nat)
    ensures r <= |data|
    ensures (forall i :: 0 <= i < |data| ==> data[i].userID != data[i].broadcasterID) ==> r == |data|
    ensures (forall i :: 0 <= i < |data| ==> data[i].userID == data[i].broadcasterID) ==> r == 0
  {
    if |data| == 0 then 0
    else Others(data[..|data| - 1]) + (if data[|data| - 1].userID == data[|data| - 1].broadcasterID then 0 else 1)
  }

  /** A page answer that continues the paging: good and not empty. */
  predicate Continues(f: Fetch<SubPage>)
  {
    f.Response? && f.status == 200 && f.decoded.Some? && |f.decoded.value.data| > 0
  }

  /** Some answer ends the paging: an error or an empty page. */
  ghost predicate Ends(pages: seq<Fetch<SubPage>>)
  {
    exists i :: 0 <= i < |pages| && !Continues(pages[i])
  }

  /** The index of the first answer that ends the paging. */
  function Stop(pages: seq<Fetch<SubPage>>): (n: nat)
    requires Ends(pages)
    ensures n < |pages| && !Continues(pages[n])
    ensures forall i :: 0 <= i < n ==> Continues(pages[i])
  {
    if !Continues(pages[0]) then 0
    else
      assert Ends(pages[1..]) by {
        var i :| 0 <= i < |pages| && !Continues(pages[i]);
        assert pages[1..][i - 1] == pages[i];
      }
      1 + Stop(pages[1..])
  }

  /** The subscribers counted on the first `n` pages. */
  function CountedOn(pages: seq<Fetch<SubPage>>, n: nat): nat
    requires n <= |pages| && forall i :: 0 <= i < n ==> Continues(pages[i])
  {
    if n == 0 then 0 else assert Continues(pages[n - 1]); CountedOn(pages, n - 1) + Others(pages[n - 1].decoded.value.data)
  }

  /** The `after` cursor of each request up to page `n`: none first, then each page's cursor. */
  function CursorsOf(pages: seq<Fetch<SubPage>>, n: nat): (r: seq<Option<string>>)
    requires n <= |pages| && forall i :: 0 <= i < n ==> Continues(pages[i])
    ensures |r| == n + 1 && r[0] == None
    ensures forall i :: 0 < i <= n ==> Continues(pages[i - 1]) && r[i] == Some(pages[i - 1].decoded.value.cursor)
  {
    if n == 0 then [None] else assert Continues(pages[n - 1]); CursorsOf(pages, n - 1) + [Some(pages[n - 1].decoded.value.cursor)]
  }

  /** The entries on the first `n` pages, the broadcaster's own included. */
  function EntriesOn(pages: seq<Fetch<SubPage>>, n: nat): nat
    requires n <= |pages| && forall i :: 0 <= i < n ==> Continues(pages[i])
  {
    if n == 0 then 0 else assert Continues(pages[n - 1]); EntriesOn(pages, n - 1) + |pages[n - 1].decoded.value.data|
  }

  /** The count never exceeds the entries seen, and every page adds at most what it holds. */
  lemma {:induction false} CountedOnBound(pages: seq<Fetch<SubPage>>, n: nat)
    requires n <= |pages| && forall i :: 0 <= i < n ==> Continues(pages[i])
    ensures CountedOn(pages, n) <= EntriesOn(pages, n)
  {
    if n > 0 {
      CountedOnBound(pages, n - 1);
    }
  }

  /** The inner loop of the paging: count the entries of one page that are not the broadcaster's own. */
  method CountPage(data: seq<SubEntry>) returns (n: nat)
    ensures n == Others(data)
  {
    n := 0;
    var i := 0;
    while i < |data|
      invariant 0 <= i <= |data| && n == Others(data[..i])
    {
      assert data[..i + 1][..i] == data[..i];
      if data[i].userID != data[i].broadcasterID {
        n := n + 1;
      }
      i := i + 1;
    }
    assert data[..i] == data;
  }

  /**
   * `updateSubscriberCount`: request page after page, each after the
   * cursor of the one before, counting every entry that is not the
   * broadcaster's own, until an empty page; only then is the count
   * written and the store saved. An error on any page leaves the store as
   * it was. `cursors` are the `after` values of the requests made.
   */
  method UpdateSubscriberCount(store: Store, pages: seq<Fetch<SubPage>>) returns (err: Option<string>, cursors: seq<Option<string>>)
    requires Ends(pages)
    modifies store
    ensures |cursors| == Stop(pages) + 1
    ensures cursors[0] == None
    ensures forall i :: 0 < i < |cursors| ==> cursors[i] == Some(pages[i - 1].decoded.value.cursor)
    ensures err == FetchError(pages[Stop(pages)])
    ensures err.Some? ==> store.Snap() == old(store.Snap())
    ensures err.None? ==>
      SavedFrom(store.Snap(), old(store.Snap()).(subs := old(store.subs).(count := CountedOn(pages, Stop(pages)))))
  {
    var subCount;
    err, cursors, subCount := PageThrough(pages);
    if err.Some? {
      return;
    }
    store.SetSubCount(subCount);
    store.Save();
  }

  /**
   * The paging loop of `updateSubscriberCount`: request page after page,
   * each with the previous page's cursor, until an error or an empty page,
   * and count the entries that are not the broadcaster's own.
   */
  method PageThrough(pages: seq<Fetch<SubPage>>) returns (err: Option<string>, cursors: seq<Option<string>>, subCount: nat)
    requires Ends(pages)
    ensures cursors == CursorsOf(pages, Stop(pages))
    ensures err == FetchError(pages[Stop(pages)])
    ensures subCount == CountedOn(pages, Stop(pages))
  {
    ghost var stop := Stop(pages);
    var after: Option<string> := None;
    subCount := 0;
    cursors := [];
    var p := 0;
    while true
      invariant 0 <= p <= stop
      invariant cursors + [after] == CursorsOf(pages, p)
      invariant subCount == CountedOn(pages, p)
      decreases stop - p
    {
      cursors := cursors + [after];
      var answer := pages[p];
      err := FetchError(answer);
      if err.Some? {
        assert !Continues(pages[p]);
        return;
      }
      var page := answer.decoded.value;
      if |page.data| == 0 {
        assert !Continues(pages[p]);
        return;
      }
      assert Continues(pages[p]) && p < stop;
      var onPage := CountPage(page.data);
      subCount := subCount + onPage;
      after := Some(page.cursor);
      p := p + 1;
    }
  }

  /**
   * `updateStats`: the follower resync, then the subscriber count, then the
   * store broadcast, stopping at the first error, which is reported under
   * "update statistics module". A step that ran before the error keeps its
   * effect: a failed subscriber count leaves the followers resynced and saved.
   */
  method UpdateStats(srv: Server, followers: Fetch<FollowerList>, pages: seq<Fetch<SubPage>>, now: int)
    returns (err: Option<string>, sent: seq<Broadcast>)
    requires Ends(pages)
    modifies srv.store
    ensures FetchError(followers).Some? ==>
      err == Some("update statistics module: " + FetchError(followers).value) && sent == []
      && srv.store.Snap() == old(srv.store.Snap())
    ensures FetchError(followers).None? && FetchError(pages[Stop(pages)]).Some? ==>
      && err == Some("update statistics module: " + FetchError(pages[Stop(pages)]).value) && sent == []
      && SavedFrom(srv.store.Snap(), old(srv.store.Snap()).(
           followers := old(srv.store.followers).(count := followers.decoded.value.total,
                                                  seen := Names(followers.decoded.value.data))))
    ensures FetchError(followers).None? && FetchError(pages[Stop(pages)]).None? ==>
      && |sent| == 1 && sent[0].typ == MsgTypeStore && sent[0].payload == State(srv.store.Snap())
      && (err.None? <==> sent[0].failed.None?)
      && (err.Some? ==> err.value == "update statistics module: submit message")
      && SavedFrom(srv.store.Snap(), old(srv.store.Snap()).(
           followers := old(srv.store.followers).(count := followers.decoded.value.total,
                                                  seen := Names(followers.decoded.value.data)),
           subs := old(srv.store.subs).(count := CountedOn(pages, Stop(pages)))))
  {
    sent := [];
    ghost var s0 := srv.store.Snap();
    var e1 := UpdateFollowers(srv.store, followers);
    if e1.Some? {
      return Some("update statistics module: " + e1.value), [];
    }
    ghost var s1 := srv.store.Snap();
    var e2, _ := UpdateSubscriberCount(srv.store, pages);
    if e2.Some? {
      return Some("update statistics module: " + e2.value), [];
    }
    ghost var fs := s0.followers.(count := followers.decoded.value.total, seen := Names(followers.decoded.value.data));
    ghost var n := CountedOn(pages, Stop(pages));
    assert SavedFrom(s1.(subs := s1.subs.(count := n)), s0.(followers := fs, subs := s0.subs.(count := n)));
    SavedTwice(s0.(followers := fs, subs := s0.subs.(count := n)), s1.(subs := s1.subs.(count := n)), srv.store.Snap());
    var b := srv.sockets.SendAllSockets(srv.store, srv.assets, srv.stamp, MsgTypeStore, State(srv.store.Snap()), false, false, now);
    sent := [b];
    err := if b.failed.Some? then Some("update statistics module: submit message") else None;
  }
}
