/**
 * The socket side of the service: the registry of connected sockets, the
 * envelope every outbound message is wrapped in, the broadcast that fans a
 * message out and logs it, the replay of the stored log to one socket, and
 * the manual "set / clear last follower" endpoint.
 */
module Api {
  import opened Wrappers
  import opened Strings
  import opened Sorting
  import opened Storage
  import opened Assets

  const MsgTypeAlert := "alert"
  const MsgTypeBits := "bits"
  const MsgTypeCustom := "custom"
  const MsgTypeDonation := "donation"
  const MsgTypeFollow := "follow"
  const MsgTypeHost := "host"
  const MsgTypeRaid := "raid"
  const MsgTypeStore := "store"
  const MsgTypeSub := "sub"
  const MsgTypeSubGift := "subgift"
  const MsgTypeReplay := "replay"

  /** `socketMessage`: what a socket receives. `time` is only set on replays. */
  datatype Envelope = Envelope(payload: Value, replay: bool, time: Option<int>, typ: string, version: string)

  /** A socket's write function: true when the message was written, false when it failed. */
  type Handler = Envelope -> bool

  /** The build version string and the SHA-256 hex digest, which is not modelled. */
  datatype Stamp = Stamp(build: string, sha256Hex: string -> string)

  /** The hash of each key in order, the empty string for a missing key. */
  function HashesOf(store: map<string, string>, keys: seq<string>): seq<string>
  {
    if |keys| == 0 then []
    else
      var k := keys[|keys| - 1];
      HashesOf(store, keys[..|keys| - 1]) + [if k in store then store[k] else ""]
  }

  /** One hash per key, in key order. */
  lemma {:induction false} HashesOfEach(store: map<string, string>, keys: seq<string>)
    ensures |HashesOf(store, keys)| == |keys|
    ensures forall i :: 0 <= i < |keys| ==>
      HashesOf(store, keys)[i] == (if keys[i] in store then store[keys[i]] else "")
  {
    if |keys| > 0 {
      HashesOfEach(store, keys[..|keys| - 1]);
    }
  }

  /** The text whose digest is the version: the build, then the asset hashes in key order, joined by "/". */
  ghost function VersionText(store: map<string, string>, build: string): string
  {
    Join([build] + HashesOf(store, SortedKeys(store.Keys)), "/")
  }

  /** The version stamped on every message. */
  ghost function VersionOf(store: map<string, string>, stamp: Stamp): string
  {
    stamp.sha256Hex(VersionText(store, stamp.build))
  }

  /** With no assets the version text is the build alone; otherwise the build, a "/", and the joined hashes. */
  lemma VersionTextShape(store: map<string, string>, build: string)
    ensures store == map[] ==> VersionText(store, build) == build
    ensures store != map[] ==>
      VersionText(store, build) == build + "/" + Join(HashesOf(store, SortedKeys(store.Keys)), "/")
  {
    var hs := HashesOf(store, SortedKeys(store.Keys));
    if store == map[] {
      var ks := SortedKeys(store.Keys);
      forall k ensures multiset(ks)[k] == 0 {
        assert k in multiset(ks) <==> k in ks;
      }
      assert multiset(ks) == multiset{};
    } else {
      var k :| k in store.Keys;
      assert k in SortedKeys(store.Keys);
      JoinCons(build, hs, "/");
    }
  }

  /**
   * `compileSocketMessage`: wrap a payload. Payload, replay flag and type
   * are copied, the time is set only when one is given, and the version
   * depends on nothing but the build and the asset hashes.
   */
  method CompileSocketMessage(assets: AssetVersionStore, stamp: Stamp, msgType: string, msg: Value,
                              replay: bool, overrideTime: Option<int>) returns (env: Envelope)
    ensures env.payload == msg && env.replay == replay && env.typ == msgType
    ensures env.time == overrideTime
    ensures env.version == VersionOf(assets.store, stamp)
  {
    var keys := assets.Keys();
    var parts := [stamp.build];
    var i := 0;
    while i < |keys|
      invariant 0 <= i <= |keys|
      invariant parts == [stamp.build] + HashesOf(assets.store, keys[..i])
    {
      parts := parts + [assets.Get(keys[i])];
      assert keys[..i + 1][..i] == keys[..i];
      i := i + 1;
    }
    assert keys[..i] == keys;
    var ver := stamp.sha256Hex(Join(parts, "/"));
    env := Envelope(msg, replay, None, msgType, ver);
    if overrideTime.Some? {
      env := env.(time := overrideTime);
    }
  }

  /** The envelope of a live broadcast. */
  ghost function LiveEnvelope(assets: map<string, string>, stamp: Stamp, msgType: string, msg: Value, replay: bool): Envelope
  {
    Envelope(msg, replay, None, msgType, VersionOf(assets, stamp))
  }

  /** The envelope replaying one stored event: flagged as replay, with the event's own time. */
  ghost function ReplayEnvelope(assets: map<string, string>, stamp: Stamp, e: StoredEvent): Envelope
  {
    Envelope(e.message, true, Some(e.time), e.typ, VersionOf(assets, stamp))
  }

  /** The event a broadcast logs. */
  function LoggedEvent(now: int, msgType: string, msg: Value): StoredEvent
  {
    StoredEvent(now, msgType, msg)
  }

  /** What one broadcast did: its arguments, the sockets that took it, and the one that failed. */
  datatype Broadcast = Broadcast(typ: string, payload: Value, replay: bool, storeEvent: bool,
                                 delivered: seq<string>, failed: Option<string>)

  /** The broadcast reached every socket and is to be kept in the log. */
  predicate Logs(b: Broadcast)
  {
    b.failed.None? && !b.replay && b.storeEvent
  }

  /** The state with the broadcast's event appended, when it is logged. */
  function Logged(s: Snapshot, b: Broadcast, now: int): (r: Snapshot)
    ensures r.bitDonations == s.bitDonations && r.donations == s.donations
    ensures r.followers == s.followers && r.subs == s.subs
    ensures Logs(b) ==> r.events == s.events + [LoggedEvent(now, b.typ, b.payload)]
    ensures !Logs(b) ==> r.events == s.events
  {
    if Logs(b) then s.(events := s.events + [LoggedEvent(now, b.typ, b.payload)]) else s
  }

  /** A broadcast followed by a save leaves a saved version of the state with the event logged. */
  lemma BroadcastThenSave(s0: Snapshot, s1: Snapshot, b: Broadcast, now: int, s2: Snapshot)
    requires Logs(b) ==> SavedFrom(s1, Logged(s0, b, now))
    requires !Logs(b) ==> s1 == s0
    requires SavedFrom(s2, s1)
    ensures SavedFrom(s2, Logged(s0, b, now))
  {
    if Logs(b) {
      SavedTwice(Logged(s0, b, now), s1, s2);
    }
  }

  /**
   * A save that followed an earlier save can be traced back to the state
   * before the earlier one, when only `bitDonations` changed in between.
   */
  lemma SavedOverBits(s0: Snapshot, s1: Snapshot, v: BitDonations, b: Broadcast, now: int, s2: Snapshot)
    requires SavedFrom(s1, s0)
    requires SavedFrom(s2, Logged(s1.(bitDonations := v), b, now))
    ensures SavedFrom(s2, Logged(s0.(bitDonations := v), b, now))
  {
    var t0, t1 := s0.(bitDonations := v), s1.(bitDonations := v);
    assert SavedFrom(t1, t0);
    if Logs(b) {
      SavedAppendSaved(t0, t1, LoggedEvent(now, b.typ, b.payload), s2);
    } else {
      SavedTwice(t0, t1, s2);
    }
  }

  /** HMAC-SHA256 of `data` under `key`, as lowercase hex. */
  type HmacHex = (string, string) -> string

  /** The answer written back: a status and a body. */
  datatype Reply = Reply(status: int, body: string)

  /** What a subscription request to Twitch gives: no answer, or a status and the body (`None` when unreadable). */
  datatype Created = RequestFailed | Answered(status: int, body: Option<string>)

  /** The subscription was accepted (202). */
  predicate Accepted(c: Created)
  {
    c.Answered? && c.status == 202
  }

  /** The error for an answer other than 202 Accepted. */
  function StatusError(status: int, body: Option<string>): string
  {
    if body.None? then "unexpected status " + FormatInt(status) + ", unable to read body"
    else "unexpected status " + FormatInt(status) + ": " + body.value
  }

  /** The error names the status and, when the body could be read, ends with it. */
  lemma StatusErrorCarriesBody(status: int, body: Option<string>)
    ensures var r := StatusError(status, body);
      && |r| > 18 && r[..18] == "unexpected status "
      && (body.Some? ==> |r| >= |body.value| && r[|r| - |body.value|..] == body.value)
  {
  }

  /** The objects every ingestion path works on. */
  datatype Server = Server(store: Store, sockets: SubscriptionStore, assets: AssetVersionStore, stamp: Stamp)

  /** The registry of connected sockets (`subcriptionStore`). */
  class SubscriptionStore {
    var handlers: map<string, Handler>

    /** `newSubscriptionStore()`: no sockets. */
    constructor ()
      ensures handlers == map[]
    {
      handlers := map[];
    }

    /** Register a socket; a handler already under `id` is replaced, other ids are untouched. */
    method SubscribeSocket(id: string, h: Handler)
      modifies this
      ensures id in handlers && handlers[id] == h
      ensures forall other :: other != id ==> (other in handlers <==> other in old(handlers))
      ensures forall other :: other != id && other in handlers ==> handlers[other] == old(handlers)[other]
    {
      handlers := handlers[id := h];
    }

    /** Forget a socket; other ids are untouched, and an unknown id changes nothing. */
    method UnsubscribeSocket(id: string)
      modifies this
      ensures id !in handlers
      ensures forall other :: other != id ==> (other in handlers <==> other in old(handlers))
      ensures forall other :: other != id && other in handlers ==> handlers[other] == old(handlers)[other]
      ensures id !in old(handlers) ==> handlers == old(handlers)
    {
      handlers := handlers - {id};
    }

    /**
     * The loop of `SendAllSockets`: hand the envelope to each socket in an
     * unspecified order until one fails.
     */
    method FanOut(assets: AssetVersionStore, stamp: Stamp, msgType: string, msg: Value, replay: bool)
      returns (delivered: seq<string>, failed: Option<string>)
      ensures Distinct(delivered)
      ensures forall id :: id in delivered ==>
        id in handlers && handlers[id](LiveEnvelope(assets.store, stamp, msgType, msg, replay))
      ensures failed.None? ==> forall id :: id in handlers ==> id in delivered
      ensures failed.Some? ==>
        && failed.value in handlers && failed.value !in delivered
        && !handlers[failed.value](LiveEnvelope(assets.store, stamp, msgType, msg, replay))
    {
      var rest := handlers.Keys;
      delivered := [];
      while rest != {}
        invariant rest <= handlers.Keys
        invariant forall id :: id in delivered <==> id in handlers && id !in rest
        invariant Distinct(delivered)
        invariant forall id :: id in delivered ==> handlers[id](LiveEnvelope(assets.store, stamp, msgType, msg, replay))
        decreases rest
      {
        var id :| id in rest;
        var env := CompileSocketMessage(assets, stamp, msgType, msg, replay, None);
        if !handlers[id](env) {
          return delivered, Some(id);
        }
        delivered := delivered + [id];
        rest := rest - {id};
      }
      failed := None;
    }

    /**
     * `SendAllSockets`: hand the message to every socket in an unspecified
     * order, stopping at the first socket that fails, which leaves the
     * store as it was. When all sockets took it, a live message that is
     * to be stored is appended to the log, stamped `now`, and the store is
     * saved.
     */
    method SendAllSockets(store: Store, assets: AssetVersionStore, stamp: Stamp, msgType: string, msg: Value,
                          replay: bool, storeEvent: bool, now: int) returns (b: Broadcast)
      modifies store
      ensures b.typ == msgType && b.payload == msg && b.replay == replay && b.storeEvent == storeEvent
      ensures Distinct(b.delivered)
      ensures forall id :: id in b.delivered ==>
        id in handlers && handlers[id](LiveEnvelope(assets.store, stamp, msgType, msg, replay))
      ensures b.failed.None? ==> forall id :: id in handlers ==> id in b.delivered
      ensures b.failed.Some? ==>
        && b.failed.value in handlers && b.failed.value !in b.delivered
        && !handlers[b.failed.value](LiveEnvelope(assets.store, stamp, msgType, msg, replay))
      ensures Logs(b) <==> b.failed.None? && !replay && storeEvent
      ensures !Logs(b) ==> store.Snap() == old(store.Snap())
      ensures Logs(b) ==> SavedFrom(store.Snap(), Logged(old(store.Snap()), b, now))
    {
      var delivered, failed := FanOut(assets, stamp, msgType, msg, replay);
      b := Broadcast(msgType, msg, replay, storeEvent, delivered, failed);
      if failed.Some? {
        return;
      }
      if replay || !storeEvent {
        return;
      }
      store.AppendEvent(LoggedEvent(now, msgType, msg));
      store.Save();
    }
  }

  /**
   * The replay branch of `handleUpdateSocket`: write every stored event, in
   * log order, as a replay carrying its stored time, to one socket; stop at
   * the first failed write. `attempts` are the envelopes written or tried.
   */
  method ReplayEvents(store: Store, assets: AssetVersionStore, stamp: Stamp, write: Handler)
    returns (attempts: seq<Envelope>, ok: bool)
    ensures |attempts| <= |store.events|
    ensures forall i :: 0 <= i < |attempts| ==> attempts[i] == ReplayEnvelope(assets.store, stamp, store.events[i])
    ensures forall i :: 0 <= i < |attempts| - 1 ==> write(attempts[i])
    ensures ok <==> |attempts| == |store.events| && forall i :: 0 <= i < |attempts| ==> write(attempts[i])
    ensures !ok ==> |attempts| > 0 && !write(attempts[|attempts| - 1])
  {
    var events := store.events;
    attempts := [];
    ok := true;
    while ok && |attempts| < |events|
      invariant |attempts| <= |events|
      invariant forall j :: 0 <= j < |attempts| ==> attempts[j] == ReplayEnvelope(assets.store, stamp, events[j])
      invariant forall j :: 0 <= j < |attempts| - 1 ==> write(attempts[j])
      invariant ok <==> forall j :: 0 <= j < |attempts| ==> write(attempts[j])
      decreases |events| - |attempts|, ok
    {
      var evt := events[|attempts|];
      var env := CompileSocketMessage(assets, stamp, evt.typ, evt.message, true, Some(evt.time));
      attempts := attempts + [env];
      ok := write(env);
    }
  }

  /** After a save the log is newest first, so a replay writes times that never increase. */
  lemma ReplayNewestFirst(events: seq<StoredEvent>, assets: map<string, string>, stamp: Stamp, attempts: seq<Envelope>)
    requires NewestFirst(events) && |attempts| <= |events|
    requires forall i :: 0 <= i < |attempts| ==> attempts[i] == ReplayEnvelope(assets, stamp, events[i])
    ensures forall i, j :: 0 <= i < j < |attempts| ==>
      attempts[i].time.Some? && attempts[j].time.Some? && attempts[j].time.value <= attempts[i].time.value
  {
  }

  /**
   * An older event logged before a newer one, as broadcasts append them:
   * once saved, the log replays the newer one first, so the replayed times
   * go back.
   */
  lemma ReplayAfterSaveGoesBack(s0: Snapshot, s1: Snapshot, assets: map<string, string>, stamp: Stamp)
    requires s0.events == [StoredEvent(1, MsgTypeFollow, Str("a")), StoredEvent(2, MsgTypeFollow, Str("b"))]
    requires SavedFrom(s1, s0)
    ensures |s1.events| == 2
    ensures ReplayEnvelope(assets, stamp, s1.events[0]).time == Some(2)
    ensures ReplayEnvelope(assets, stamp, s1.events[1]).time == Some(1)
  {
    var older, newer := s0.events[0], s0.events[1];
    var after := s1.events;
    SubMultisetSameSize(multiset(after), multiset(s0.events));
    assert after[0] in multiset(s0.events) && after[1] in multiset(s0.events);
    assert multiset(after) == multiset{after[0], after[1]} by {
      assert after == [after[0]] + [after[1]];
    }
    if after[0] == older {
      assert false;
    }
  }

  /**
   * A replay in time order, so that replayed times never decrease: the
   * log walked from its oldest end. Otherwise as `ReplayEvents`.
   */
  method ReplayOldestFirst(store: Store, assets: AssetVersionStore, stamp: Stamp, write: Handler)
    returns (attempts: seq<Envelope>, ok: bool)
    ensures |attempts| <= |store.events|
    ensures forall i :: 0 <= i < |attempts| ==>
      attempts[i] == ReplayEnvelope(assets.store, stamp, store.events[|store.events| - 1 - i])
    ensures forall i :: 0 <= i < |attempts| - 1 ==> write(attempts[i])
    ensures ok <==> |attempts| == |store.events| && forall i :: 0 <= i < |attempts| ==> write(attempts[i])
    ensures !ok ==> |attempts| > 0 && !write(attempts[|attempts| - 1])
  {
    var events := store.events;
    attempts := [];
    ok := true;
    while ok && |attempts| < |events|
      invariant |attempts| <= |events|
      invariant forall j :: 0 <= j < |attempts| ==> attempts[j] == ReplayEnvelope(assets.store, stamp, events[|events| - 1 - j])
      invariant forall j :: 0 <= j < |attempts| - 1 ==> write(attempts[j])
      invariant ok <==> forall j :: 0 <= j < |attempts| ==> write(attempts[j])
      decreases |events| - |attempts|, ok
    {
      var evt := events[|events| - 1 - |attempts|];
      var env := CompileSocketMessage(assets, stamp, evt.typ, evt.message, true, Some(evt.time));
      assert env == ReplayEnvelope(assets.store, stamp, events[|events| - 1 - |attempts|]);
      ghost var written := attempts;
      attempts := attempts + [env];
      ok := write(env);
      assert forall j :: 0 <= j < |written| ==> attempts[j] == written[j];
      assert attempts[|written|] == env;
      assert forall j :: 0 <= j < |written| ==> write(attempts[j]);
    }
  }

  /** Over a saved, newest-first log the oldest-first replay writes times that never decrease. */
  lemma ReplayOldestFirstInTimeOrder(events: seq<StoredEvent>, assets: map<string, string>, stamp: Stamp,
                                     attempts: seq<Envelope>)
    requires NewestFirst(events) && |attempts| <= |events|
    requires forall i :: 0 <= i < |attempts| ==> attempts[i] == ReplayEnvelope(assets, stamp, events[|events| - 1 - i])
    ensures forall i, j :: 0 <= i < j < |attempts| ==>
      attempts[i].time.Some? && attempts[j].time.Some? && attempts[i].time.value <= attempts[j].time.value
  {
  }

  /**
   * `handleSetLastFollower`: set the last follower to `name`, or clear it
   * for the empty name, save, broadcast the whole state without logging
   * it, and answer 202 whatever the broadcast did.
   */
  method HandleSetLastFollower(store: Store, sockets: SubscriptionStore, assets: AssetVersionStore, stamp: Stamp,
                               name: string, now: int) returns (status: int, sent: Broadcast)
    modifies store
    ensures status == 202
    ensures store.followers.last == (if name == "" then None else Some(name))
    ensures SavedFrom(store.Snap(),
      old(store.Snap()).(followers := old(store.followers).(last := if name == "" then None else Some(name))))
    ensures sent.typ == MsgTypeStore && sent.payload == State(store.Snap()) && !sent.replay && !sent.storeEvent
  {
    store.SetLastFollower(name);
    store.Save();
    sent := sockets.SendAllSockets(store, assets, stamp, MsgTypeStore, State(store.Snap()), false, false, now);
    status := 202;
  }

  /**
   * The tail every ingestion path shares: broadcast the message with
   * logging on, save, then broadcast the whole state without logging.
   * Failures of either broadcast are ignored.
   */
  method PublishAndSave(srv: Server, msgType: string, msg: Value, now: int) returns (sent: seq<Broadcast>)
    modifies srv.store
    ensures |sent| == 2
    ensures sent[0].typ == msgType && sent[0].payload == msg && !sent[0].replay && sent[0].storeEvent
    ensures sent[1].typ == MsgTypeStore && sent[1].payload == State(srv.store.Snap())
    ensures !sent[1].replay && !sent[1].storeEvent
    ensures SavedFrom(srv.store.Snap(), Logged(old(srv.store.Snap()), sent[0], now))
  {
    ghost var s0 := srv.store.Snap();
    var b := srv.sockets.SendAllSockets(srv.store, srv.assets, srv.stamp, msgType, msg, false, true, now);
    ghost var s1 := srv.store.Snap();
    srv.store.Save();
    BroadcastThenSave(s0, s1, b, now, srv.store.Snap());
    var st := srv.sockets.SendAllSockets(srv.store, srv.assets, srv.stamp, MsgTypeStore, State(srv.store.Snap()), false, false, now);
    sent := [b, st];
  }
}
