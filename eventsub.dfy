/**
 * Twitch EventSub push notifications and the registration of the
 * subscriptions that produce them. HMAC-SHA256 (RFC 2104) with lowercase
 * hex output is a parameter; request bodies arrive together with the
 * result of decoding them as JSON.
 */
module EventSub {
  import opened Wrappers
  import opened Strings
  import opened Storage
  import opened Api

  const MessageTypeNotification := "notification"
  const MessageTypeVerification := "webhook_callback_verification"
  const MessageTypeRevocation := "revocation"
  const StatusEnabled := "enabled"
  const StatusVerificationPending := "webhook_callback_verification_pending"

  /** The payload of a `channel.follow` event, as far as it is used. */
  datatype FollowEvent = FollowEvent(userLogin: string, followedAt: int)

  /**
   * The decoded message body: the challenge, the subscription type, and the
   * event decoded as a follow (`None` when that decoding fails).
   */
  datatype Message = Message(challenge: string, subscriptionType: string, follow: Option<FollowEvent>)

  /**
   * One push request: the body (`None` when reading it fails), the
   * message-id, timestamp, message-type and signature headers, and the body
   * decoded (`None` when it is not a valid message).
   */
  datatype Request = Request(body: Option<string>, messageID: string, timestamp: string,
                             messageType: string, signature: string, decoded: Option<Message>)

  /** The text that is signed: message-id, timestamp and body, concatenated with nothing between. */
  function SignedText(messageID: string, timestamp: string, body: string): (r: string)
    ensures |r| == |messageID| + |timestamp| + |body|
    ensures r[..|messageID|] == messageID
    ensures r[|messageID|..|messageID| + |timestamp|] == timestamp
    ensures r[|messageID| + |timestamp|..] == body
  {
    messageID + timestamp + body
  }

  /** The signature header a genuine request carries. */
  function ExpectedSignature(hmacHex: HmacHex, secret: string, messageID: string, timestamp: string, body: string): (r: string)
    ensures |r| >= 7 && r[..7] == "sha256=" && r[7..] == hmacHex(secret, SignedText(messageID, timestamp, body))
  {
    "sha256=" + hmacHex(secret, SignedText(messageID, timestamp, body))
  }

  /**
   * Since nothing separates the signed parts, any two id/timestamp pairs
   * with the same concatenation carry the same signature.
   */
  lemma SignedTextAmbiguous(hmacHex: HmacHex, secret: string, id1: string, ts1: string, id2: string, ts2: string, body: string)
    requires id1 + ts1 == id2 + ts2
    ensures ExpectedSignature(hmacHex, secret, id1, ts1, body) == ExpectedSignature(hmacHex, secret, id2, ts2, body)
  {
    assert SignedText(id1, ts1, body) == (id1 + ts1) + body;
    assert SignedText(id2, ts2, body) == (id2 + ts2) + body;
  }

  function FollowFields(e: FollowEvent): map<string, Value>
  {
    map["from" := Str(e.userLogin), "followed_at" := Time(e.followedAt)]
  }

  /**
   * `handleEventsubPush`. A body that cannot be read ends the request with
   * the default status and no effect; the signature is checked next, before
   * decoding and before looking at the message type; revocations and
   * verifications are answered without further effect; a follow by a login
   * not yet seen is published (and logged), then recorded and saved.
   */
  method HandleEventsub(srv: Server, secret: string, hmacHex: HmacHex, req: Request, now: int)
    returns (reply: Reply, sent: seq<Broadcast>)
    modifies srv.store
    ensures req.body.None? ==> reply == Reply(200, "")
    ensures req.body.Some? && req.signature != ExpectedSignature(hmacHex, secret, req.messageID, req.timestamp, req.body.value)
      ==> reply == Reply(401, "Signature verification failed\n")
    ensures reply.status == 401 ==> req.body.Some?
    ensures req.body.Some? && req.signature == ExpectedSignature(hmacHex, secret, req.messageID, req.timestamp, req.body.value) ==>
      && (req.decoded.None? ==> reply.status == 400)
      && (req.decoded.Some? && req.messageType == MessageTypeRevocation ==> reply == Reply(204, ""))
      && (req.decoded.Some? && req.messageType == MessageTypeVerification ==> reply == Reply(200, req.decoded.value.challenge))
      && (req.decoded.Some? && req.messageType != MessageTypeRevocation && req.messageType != MessageTypeVerification ==>
            && (req.decoded.value.subscriptionType != "channel.follow" ==> reply == Reply(200, ""))
            && (req.decoded.value.subscriptionType == "channel.follow" && req.decoded.value.follow.None? ==> reply.status == 400))
    // Only a new follower in a genuine notification changes anything.
    ensures !NewFollower(secret, hmacHex, req, old(srv.store.followers.seen)) ==>
      sent == [] && srv.store.Snap() == old(srv.store.Snap())
    ensures NewFollower(secret, hmacHex, req, old(srv.store.followers.seen)) ==>
      var e := req.decoded.value.follow.value;
      && reply == Reply(200, "")
      && |sent| == 2
      && sent[0].typ == MsgTypeFollow && sent[0].payload == Object(FollowFields(e))
      && sent[0].storeEvent && !sent[0].replay
      && sent[1].typ == MsgTypeStore && sent[1].payload == State(srv.store.Snap())
      && !sent[1].storeEvent && !sent[1].replay
      && SavedFrom(srv.store.Snap(),
           Logged(old(srv.store.Snap()), sent[0], now).(followers := Followed(old(srv.store.followers), e.userLogin)))
  {
    sent := [];
    if req.body.None? {
      return Reply(200, ""), [];
    }
    var body := req.body.value;
    if ExpectedSignature(hmacHex, secret, req.messageID, req.timestamp, body) != req.signature {
      return Reply(401, "Signature verification failed\n"), [];
    }
    if req.decoded.None? {
      return Reply(400, "parsing message\n"), [];
    }
    var message := req.decoded.value;
    if req.messageType == MessageTypeRevocation {
      return Reply(204, ""), [];
    } else if req.messageType == MessageTypeVerification {
      return Reply(200, message.challenge), [];
    }
    if message.subscriptionType != "channel.follow" {
      return Reply(200, ""), [];
    }
    if message.follow.None? {
      return Reply(400, "parsing message\n"), [];
    }
    var evt := message.follow.value;
    var isKnown := evt.userLogin in srv.store.followers.seen;
    if isKnown {
      return Reply(200, ""), [];
    }
    ghost var s0 := srv.store.Snap();
    var b := srv.sockets.SendAllSockets(srv.store, srv.assets, srv.stamp, MsgTypeFollow, Object(FollowFields(evt)), false, true, now);
    ghost var s1 := srv.store.Snap();
    srv.store.RecordFollow(evt.userLogin);
    srv.store.Save();
    if Logs(b) {
      SavedFollowedSaved(Logged(s0, b, now), s1, evt.userLogin, srv.store.Snap());
    }
    var st := srv.sockets.SendAllSockets(srv.store, srv.assets, srv.stamp, MsgTypeStore, State(srv.store.Snap()), false, false, now);
    reply, sent := Reply(200, ""), [b, st];
  }

  /** A genuine, decodable follow notification by a login not among `seen`. */
  predicate NewFollower(secret: string, hmacHex: HmacHex, req: Request, seen: seq<string>)
  {
    && req.body.Some?
    && req.signature == ExpectedSignature(hmacHex, secret, req.messageID, req.timestamp, req.body.value)
    && req.decoded.Some?
    && req.messageType != MessageTypeRevocation
    && req.messageType != MessageTypeVerification
    && req.decoded.value.subscriptionType == "channel.follow"
    && req.decoded.value.follow.Some?
    && req.decoded.value.follow.value.userLogin !in seen
  }

  /** A second delivery of the same follow notification changes nothing. */
  lemma RedeliveryIsIgnored(secret: string, hmacHex: HmacHex, req: Request, seen: seq<string>)
    requires NewFollower(secret, hmacHex, req, seen)
    ensures !NewFollower(secret, hmacHex, req, TrimRecent([req.decoded.value.follow.value.userLogin] + seen))
  {
    var login := req.decoded.value.follow.value.userLogin;
    assert TrimRecent([login] + seen)[0] == login;
  }

  // ---------------------------------------------------------------------
  // Registration
  // ---------------------------------------------------------------------

  /** The callback registered for EventSub: the base URL without trailing slashes, then "/api/eventsub". */
  function HookURL(baseURL: string): (r: string)
    ensures r == TrimRight(baseURL, '/') + "/api/eventsub"
  {
    var base := TrimRight(baseURL, '/');
    Join3(base, "api", "eventsub", "/");
    Join([base, "api", "eventsub"], "/")
  }

  /** The events the service subscribes to, in order. */
  const Events: seq<string> := ["channel.follow"]

  /** A subscription as listed by the API, as far as it is used. */
  datatype Subscription = Subscription(status: string, callback: string, typ: string)

  /** A listed subscription covers `event` for this service: active or pending, same callback, same type. */
  predicate Covers(s: Subscription, hookURL: string, event: string)
  {
    (s.status == StatusEnabled || s.status == StatusVerificationPending) && s.callback == hookURL && s.typ == event
  }

  /** Whether any listed subscription covers the event, checked one entry at a time. */
  method SubscriptionExists(subs: seq<Subscription>, hookURL: string, event: string) returns (found: bool)
    ensures found <==> exists i :: 0 <= i < |subs| && Covers(subs[i], hookURL, event)
  {
    found := false;
    var i := 0;
    while i < |subs|
      invariant 0 <= i <= |subs|
      invariant found <==> exists j :: 0 <= j < i && Covers(subs[j], hookURL, event)
    {
      if Covers(subs[i], hookURL, event) {
        found := true;
      }
      i := i + 1;
    }
  }

  /** The events no listed subscription covers, in order. */
  ghost function Uncovered(subs: seq<Subscription>, hookURL: string, events: seq<string>): (r: seq<string>)
    ensures forall e :: e in r ==> e in events && forall i :: 0 <= i < |subs| ==> !Covers(subs[i], hookURL, e)
    ensures forall e :: e in events && (forall i :: 0 <= i < |subs| ==> !Covers(subs[i], hookURL, e)) ==> e in r
  {
    if |events| == 0 then []
    else
      var rest := Uncovered(subs, hookURL, events[1..]);
      if exists i :: 0 <= i < |subs| && Covers(subs[i], hookURL, events[0]) then rest else [events[0]] + rest
  }

  /** What listing the existing subscriptions gives. */
  datatype Listing = TokenFailed | ListFailed | ListUndecodable | Listed(subs: seq<Subscription>)

  /**
   * `registerEventSubHooks`: list the existing subscriptions, then create
   * each event's subscription unless one already covers it; any failure
   * ends the registration with an error. `posted` are the events a create
   * request was sent for.
   */
  method RegisterEventSubHooks(baseURL: string, listing: Listing, create: string -> Created)
    returns (err: Option<string>, posted: seq<string>)
    ensures listing == TokenFailed ==> err == Some("getting app-access-token") && posted == []
    ensures listing == ListFailed ==> err == Some("requesting subscribscriptions") && posted == []
    ensures listing == ListUndecodable ==> err == Some("decoding subscription list") && posted == []
    ensures listing.Listed? ==>
      var todo := Uncovered(listing.subs, HookURL(baseURL), Events);
      && |posted| <= |todo| && posted == todo[..|posted|]
      && (forall i :: 0 <= i < |posted| - 1 ==> Accepted(create(posted[i])))
      && (err.None? <==> posted == todo && forall i :: 0 <= i < |posted| ==> Accepted(create(posted[i])))
      && (err.Some? ==>
            && |posted| > 0
            && (create(posted[|posted| - 1]) == RequestFailed ==> err.value == "requesting subscribe")
            && (create(posted[|posted| - 1]).Answered? ==>
                  && create(posted[|posted| - 1]).status != 202
                  && err.value == StatusError(create(posted[|posted| - 1]).status, create(posted[|posted| - 1]).body)))
  {
    posted := [];
    match listing
    case TokenFailed => return Some("getting app-access-token"), [];
    case ListFailed => return Some("requesting subscribscriptions"), [];
    case ListUndecodable => return Some("decoding subscription list"), [];
    case Listed(subs) =>
      var hook := HookURL(baseURL);
      var k := 0;
      while k < |Events|
        invariant 0 <= k <= |Events|
        invariant Uncovered(subs, hook, Events) == posted + Uncovered(subs, hook, Events[k..])
        invariant forall i :: 0 <= i < |posted| ==> Accepted(create(posted[i]))
      {
        var event := Events[k];
        assert Events[k..][1..] == Events[k + 1..];
        var exists_ := SubscriptionExists(subs, hook, event);
        if !exists_ {
          posted := posted + [event];
          var answer := create(event);
          if answer == RequestFailed {
            return Some("requesting subscribe"), posted;
          }
          if answer.status != 202 {
            return Some(StatusError(answer.status, answer.body)), posted;
          }
        }
        k := k + 1;
      }
      err := None;
  }
}
