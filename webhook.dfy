/**
 * The legacy Twitch webhook hub (W3C WebSub): the push endpoint and the
 * hub subscription request.
 */
module Webhook {
  import opened Wrappers
  import opened Strings
  import opened Sorting
  import opened Storage
  import opened Api

  /** One entry of a follow batch. */
  datatype HubFollow = HubFollow(fromName: string, followedAt: int)

  /**
   * One push request: the `hub.challenge` and `hub.reason` query values
   * (empty when absent), the body (`None` when reading it fails), the
   * `X-Hub-Signature` header, and the body decoded as a follow batch
   * (`None` when that fails).
   */
  datatype HubRequest = HubRequest(challenge: string, reason: string, body: Option<string>,
                                   signature: string, decoded: Option<seq<HubFollow>>)

  /** The signature header a genuine request carries: the HMAC of the body alone (WebSub section 8). */
  function HubSignature(hmacHex: HmacHex, secret: string, body: string): (r: string)
    ensures |r| >= 7 && r[..7] == "sha256=" && r[7..] == hmacHex(secret, body)
  {
    "sha256=" + hmacHex(secret, body)
  }

  /** The order the batch is processed in: by follow time, oldest first. */
  predicate FollowedNoLater(x: HubFollow, y: HubFollow)
  {
    x.followedAt <= y.followedAt
  }

  function Names(batch: seq<HubFollow>): (r: seq<string>)
    ensures |r| == |batch| && forall i :: 0 <= i < |batch| ==> r[i] == batch[i].fromName
  {
    if |batch| == 0 then [] else Names(batch[..|batch| - 1]) + [batch[|batch| - 1].fromName]
  }

  /** The follower record after a batch of names, in order: known names are skipped. */
  function ApplyFollows(f: Followers, names: seq<string>): Followers
  {
    if |names| == 0 then f
    else
      var g := ApplyFollows(f, names[..|names| - 1]);
      var n := names[|names| - 1];
      if n in g.seen then g else Followed(g, n)
  }

  /** The names a batch adds to `seen`, newest first. */
  function Added(f: Followers, names: seq<string>): seq<string>
  {
    if |names| == 0 then []
    else
      var n := names[|names| - 1];
      if n in ApplyFollows(f, names[..|names| - 1]).seen then Added(f, names[..|names| - 1])
      else [n] + Added(f, names[..|names| - 1])
  }

  /**
   * A batch prepends its new names to `seen` and counts each of them once;
   * `last` is the newest name added, and stays as it was when nothing is new.
   */
  lemma {:induction false} ApplyFollowsPrepends(f: Followers, names: seq<string>)
    ensures ApplyFollows(f, names).seen == Added(f, names) + f.seen
    ensures ApplyFollows(f, names).count == f.count + |Added(f, names)|
    ensures |Added(f, names)| == 0 ==> ApplyFollows(f, names).last == f.last
    ensures |Added(f, names)| > 0 ==> ApplyFollows(f, names).last == Some(Added(f, names)[0])
  {
    if |names| > 0 {
      ApplyFollowsPrepends(f, names[..|names| - 1]);
    }
  }

  /** Every name of a batch is known afterwards. */
  lemma {:induction false} ApplyFollowsKnows(f: Followers, names: seq<string>)
    ensures forall n :: n in names ==> n in ApplyFollows(f, names).seen
  {
    if |names| > 0 {
      var init := names[..|names| - 1];
      ApplyFollowsKnows(f, init);
      ApplyFollowsPrepends(f, init);
      ApplyFollowsPrepends(f, names);
      forall m | m in names ensures m in ApplyFollows(f, names).seen {
        if m != names[|names| - 1] {
          assert m in init;
        }
      }
    }
  }

  /** The added names come from the batch, were not known before, and are added once each. */
  lemma {:induction false} AddedAreNew(f: Followers, names: seq<string>)
    ensures forall n :: n in Added(f, names) ==> n in names && n !in f.seen
    ensures Distinct(Added(f, names))
  {
    if |names| > 0 {
      var init := names[..|names| - 1];
      var n := names[|names| - 1];
      AddedAreNew(f, init);
      ApplyFollowsPrepends(f, init);
      var a := Added(f, init);
      assert forall m :: m in a ==> m in names;
      if n !in ApplyFollows(f, init).seen {
        var a' := [n] + a;
        assert forall i, j :: 0 <= i < j < |a'| ==> a'[i] != a'[j] by {
          forall i, j | 0 <= i < j < |a'| ensures a'[i] != a'[j] {
            if i == 0 {
              assert a'[j] in a;
            } else {
              assert a'[i] == a[i - 1] && a'[j] == a[j - 1];
            }
          }
        }
      }
    }
  }

  /** Delivering the same batch again changes nothing. */
  lemma {:induction false} ApplyFollowsIdempotent(f: Followers, names: seq<string>)
    ensures ApplyFollows(ApplyFollows(f, names), names) == ApplyFollows(f, names)
  {
    var g := ApplyFollows(f, names);
    ApplyFollowsKnows(f, names);
    KnownNamesChangeNothing(g, names);
  }

  /** A batch whose names are all known changes nothing. */
  lemma {:induction false} KnownNamesChangeNothing(f: Followers, names: seq<string>)
    requires forall n :: n in names ==> n in f.seen
    ensures ApplyFollows(f, names) == f
  {
    if |names| > 0 {
      var init := names[..|names| - 1];
      assert forall n :: n in init ==> n in names;
      KnownNamesChangeNothing(f, init);
    }
  }

  /**
   * The batch loop as written: `Last` is set to the address of the loop
   * variable, which all iterations share (Go before 1.22), so once the loop
   * is over it names the last entry of the batch, whether or not that entry
   * was new. Everything else matches `ApplyFollows`.
   */
  function ApplyFollowsAsWritten(f: Followers, names: seq<string>): (r: Followers)
    ensures r.seen == ApplyFollows(f, names).seen && r.count == ApplyFollows(f, names).count
    ensures |Added(f, names)| == 0 ==> r.last == f.last
    ensures |Added(f, names)| > 0 ==> r.last == Some(names[|names| - 1])
  {
    ApplyFollowsPrepends(f, names);
    var g := ApplyFollows(f, names);
    if |Added(f, names)| > 0 then g.(last := Some(names[|names| - 1])) else g
  }

  /** A new follower "a" followed by the known "b": as written, "b" becomes the last follower. */
  lemma AsWrittenLastIsNotNewest()
    ensures var f := Followers(None, ["b"], 1);
      && ApplyFollows(f, ["a", "b"]).last == Some("a")
      && ApplyFollowsAsWritten(f, ["a", "b"]).last == Some("b")
  {
    var f := Followers(None, ["b"], 1);
    assert ["a", "b"][..1] == ["a"];
    assert ["a"][..0] == [];
    assert ApplyFollows(f, ["a"]) == Followers(Some("a"), ["a", "b"], 2);
    assert Added(f, ["a", "b"]) == ["a"];
  }

  /**
   * `handleWebHookPush`. A challenge is echoed before anything else; a
   * denial reason ends the request; then the body is read and its
   * signature checked. A follow batch is sorted oldest first and every
   * follower not yet known is recorded; then the state is saved and
   * published. Any other hook type changes nothing. `order` is the batch
   * in the order it was processed.
   */
  method HandleWebHookPush(srv: Server, hookType: string, secret: string, hmacHex: HmacHex, req: HubRequest, now: int)
    returns (reply: Reply, sent: seq<Broadcast>, order: seq<HubFollow>)
    modifies srv.store
    ensures req.challenge != "" ==> reply == Reply(200, req.challenge)
    ensures req.challenge == "" && req.reason == "" && req.body.Some? && req.signature != HubSignature(hmacHex, secret, req.body.value)
      ==> reply == Reply(401, "Signature verification failed\n")
    ensures reply.status == 401 ==> req.challenge == "" && req.reason == ""
    ensures !BatchAccepted(hookType, secret, hmacHex, req) ==>
      sent == [] && srv.store.Snap() == old(srv.store.Snap())
    ensures BatchAccepted(hookType, secret, hmacHex, req) ==>
      && reply == Reply(200, "")
      && multiset(order) == multiset(req.decoded.value)
      && Sorted(order, FollowedNoLater)
      && |sent| == 1 && sent[0].typ == MsgTypeStore && sent[0].payload == State(srv.store.Snap())
      && !sent[0].replay && !sent[0].storeEvent
      && SavedFrom(srv.store.Snap(), old(srv.store.Snap()).(followers := ApplyFollows(old(srv.store.followers), Names(order))))
  {
    sent, order := [], [];
    if req.challenge != "" {
      return Reply(200, req.challenge), [], [];
    }
    if req.reason != "" {
      return Reply(200, ""), [], [];
    }
    if req.body.None? {
      return Reply(200, ""), [], [];
    }
    if HubSignature(hmacHex, secret, req.body.value) != req.signature {
      return Reply(401, "Signature verification failed\n"), [], [];
    }
    if hookType != "follow" || req.decoded.None? {
      return Reply(200, ""), [], [];
    }
    var batch := req.decoded.value;
    var a := new HubFollow[|batch|](i requires 0 <= i < |batch| => batch[i]);
    assert a[..] == batch;
    assert TotalPreorder(FollowedNoLater);
    SortBy(a, FollowedNoLater);
    order := a[..];
    RecordBatch(srv.store, order);
    srv.store.Save();
    var st := srv.sockets.SendAllSockets(srv.store, srv.assets, srv.stamp, MsgTypeStore, State(srv.store.Snap()), false, false, now);
    reply, sent := Reply(200, ""), [st];
  }

  /** The loop over a sorted batch: record each follower not yet in `seen`, skip the others. */
  method RecordBatch(store: Store, batch: seq<HubFollow>)
    modifies store`followers
    ensures store.followers == ApplyFollows(old(store.followers), Names(batch))
  {
    var i := 0;
    while i < |batch|
      invariant 0 <= i <= |batch|
      invariant store.followers == ApplyFollows(old(store.followers), Names(batch[..i]))
    {
      var f := batch[i];
      assert Names(batch[..i + 1]) == Names(batch[..i]) + [f.fromName] by {
        assert batch[..i + 1][..i] == batch[..i];
      }
      var isKnown := f.fromName in store.followers.seen;
      if !isKnown {
        store.RecordFollow(f.fromName);
      }
      i := i + 1;
    }
    assert batch[..i] == batch;
  }

  /** The request carries a genuine, decodable follow batch and is not a challenge or a denial. */
  predicate BatchAccepted(hookType: string, secret: string, hmacHex: HmacHex, req: HubRequest)
  {
    && req.challenge == "" && req.reason == "" && req.body.Some?
    && req.signature == HubSignature(hmacHex, secret, req.body.value)
    && hookType == "follow" && req.decoded.Some?
  }

  // ---------------------------------------------------------------------
  // Hub subscription
  // ---------------------------------------------------------------------

  /** The callback for a hook type: base URL without trailing slashes, "api", "webhook", the type, joined by "/". */
  function HookURL(baseURL: string, hookType: string): (r: string)
    ensures r == TrimRight(baseURL, '/') + "/api/webhook/" + hookType
  {
    var base := TrimRight(baseURL, '/');
    Join4(base, "api", "webhook", hookType, "/");
    assert base + "/" + "api" + "/" + "webhook" + "/" + hookType == base + "/api/webhook/" + hookType;
    Join([base, "api", "webhook", hookType], "/")
  }

  /** Nanoseconds in a second, and the timeout of requests to Twitch. */
  const Second := 1_000_000_000
  const TwitchRequestTimeout := 2 * Second

  /** Go's integer division of durations: the quotient truncated toward zero. */
  function TruncDiv(a: int, b: int): (q: int)
    requires b > 0
    ensures a >= 0 ==> q * b <= a < q * b + b
    ensures a < 0 ==> q * b - b < a <= q * b
  {
    if a >= 0 then a / b else -((-a) / b)
  }

  /** `hub.lease_seconds`: the webhook timeout plus the request timeout, in whole seconds. */
  function LeaseSeconds(webHookTimeout: int): (s: int)
    ensures webHookTimeout + TwitchRequestTimeout >= 0 ==>
      s * Second <= webHookTimeout + TwitchRequestTimeout < (s + 1) * Second
    ensures webHookTimeout + TwitchRequestTimeout < 0 ==>
      (s - 1) * Second < webHookTimeout + TwitchRequestTimeout <= s * Second
  {
    TruncDiv(webHookTimeout + TwitchRequestTimeout, Second)
  }

  /** The body of a hub subscription request. */
  datatype HubSubscribe = HubSubscribe(callback: string, mode: string, topic: string, leaseSeconds: int, secret: string)

  /**
   * `registerWebHooks`: subscribe the follow hook at the hub; anything but
   * 202 Accepted is an error.
   */
  method RegisterWebHooks(baseURL: string, twitchID: string, webHookTimeout: int, secret: string,
                          post: HubSubscribe -> Created) returns (request: HubSubscribe, err: Option<string>)
    ensures request.callback == TrimRight(baseURL, '/') + "/api/webhook/follow"
    ensures request.mode == "subscribe" && request.secret == secret
    ensures request.topic == "https://api.twitch.tv/helix/users/follows?first=1&to_id=" + twitchID
    ensures request.leaseSeconds == LeaseSeconds(webHookTimeout)
    ensures err.None? <==> Accepted(post(request))
    ensures post(request) == RequestFailed ==> err == Some("requesting subscribe")
    ensures post(request).Answered? && !Accepted(post(request)) ==>
      err == Some(StatusError(post(request).status, post(request).body))
  {
    request := HubSubscribe(HookURL(baseURL, "follow"), "subscribe",
      "https://api.twitch.tv/helix/users/follows?first=1&to_id=" + twitchID,
      LeaseSeconds(webHookTimeout), secret);
    var answer := post(request);
    if answer == RequestFailed {
      return request, Some("requesting subscribe");
    }
    if answer.status != 202 {
      return request, Some(StatusError(answer.status, answer.body));
    }
    err := None;
  }
}
