/**
 * The chat side: PRIVMSG (host announcements and cheers) and USERNOTICE
 * (raids, subs, resubs and gifted subs). A message arrives already parsed
 * into its sender, tags and parameters.
 */
module Irc {
  import opened Wrappers
  import opened Strings
  import opened Storage
  import opened Api

  /** A parsed chat message: the sender's nick, the IRCv3 tags, the parameters. */
  datatype IrcMessage = IrcMessage(user: string, tags: map<string, string>, params: seq<string>)

  /** `Trailing()`: the last parameter, or the empty string when there is none. */
  function Trailing(m: IrcMessage): (r: string)
    ensures |m.params| == 0 ==> r == ""
    ensures |m.params| > 0 ==> r == m.params[|m.params| - 1]
  {
    if |m.params| == 0 then "" else m.params[|m.params| - 1]
  }

  /** A tag lookup that yields the empty string (the zero value) for a missing tag. */
  function Tag(m: IrcMessage, key: string): (r: string)
    ensures key in m.tags ==> r == m.tags[key]
    ensures key !in m.tags ==> r == ""
  {
    if key in m.tags then m.tags[key] else ""
  }

  /** The two groups of the host announcement pattern; `amount` is empty when the count is absent. */
  datatype HostMatch = HostMatch(actor: string, amount: string)

  /** The host payload: who hosts, and the viewer count with "0" standing in for a missing one. */
  function HostFields(h: HostMatch): (r: map<string, Value>)
    ensures r.Keys == {"from", "viewerCount"}
    ensures r["from"] == Str(h.actor)
    ensures h.amount == "" ==> r["viewerCount"] == Str("0")
    ensures h.amount != "" ==> r["viewerCount"] == Str(h.amount)
  {
    map["from" := Str(h.actor), "viewerCount" := Str(if h.amount == "" then "0" else h.amount)]
  }

  /** The cheer is announced under the display-name tag when present (even empty), else under the sender. */
  function BitsDisplayName(m: IrcMessage): (r: string)
    ensures "msg-param-displayName" in m.tags ==> r == m.tags["msg-param-displayName"]
    ensures "msg-param-displayName" !in m.tags ==> r == m.user
  {
    if "msg-param-displayName" in m.tags then m.tags["msg-param-displayName"] else m.user
  }

  /**
   * A name taken from the tag `key` when the message carries it (even
   * empty), else from the tag `fallbackKey`, the empty string when that is
   * missing too.
   */
  function TagOr(m: IrcMessage, key: string, fallbackKey: string): (r: string)
    ensures key in m.tags ==> r == m.tags[key]
    ensures key !in m.tags && fallbackKey in m.tags ==> r == m.tags[fallbackKey]
    ensures key !in m.tags && fallbackKey !in m.tags ==> r == ""
  {
    if key in m.tags then m.tags[key] else Tag(m, fallbackKey)
  }

  /** A usernotice names its actor by the display-name tag when present, else by the `login` tag. */
  function NoticeDisplayName(m: IrcMessage): string
  {
    TagOr(m, "msg-param-displayName", "login")
  }

  function BitsFields(from: string, amount: int, message: string, total: int): map<string, Value>
  {
    map["from" := Str(from), "amount" := Int(amount), "message" := Str(message), "total_amount" := Int(total)]
  }

  /**
   * The sub/resub payload. `message` is left out when the trailing text is
   * the channel parameter, which is what an empty resub message looks like.
   */
  function SubFields(m: IrcMessage, from: string): (r: map<string, Value>)
    requires |m.params| > 0
    ensures r.Keys - {"message"} == {"from", "is_resub", "paid_for", "streak", "tier", "total"}
    ensures r["from"] == Str(from)
    ensures r["is_resub"] == Bool(Tag(m, "msg-id") == "resub")
    ensures "message" in r <==> Trailing(m) != m.params[0]
    ensures "message" in r ==> r["message"] == Str(Trailing(m))
    ensures r["total"] == Str(Tag(m, "msg-param-cumulative-months"))
  {
    var fields := map[
      "from" := Str(from),
      "is_resub" := Bool(Tag(m, "msg-id") == "resub"),
      "message" := Str(Trailing(m)),
      "paid_for" := Str(Tag(m, "msg-param-multimonth-duration")),
      "streak" := Str(Tag(m, "msg-param-streak-months")),
      "tier" := Str(Tag(m, "msg-param-sub-plan")),
      "total" := Str(Tag(m, "msg-param-cumulative-months"))];
    if Trailing(m) == m.params[0] then fields - {"message"} else fields
  }

  /** The recipient of a gifted sub: its display name when tagged, else its user name. */
  function GiftRecipient(m: IrcMessage): string
  {
    TagOr(m, "msg-param-recipient-display-name", "msg-param-recipient-user-name")
  }

  /** The gifted-sub payload: anonymous exactly for "anonsubgift", addressed to the recipient. */
  function SubGiftFields(m: IrcMessage, from: string): (r: map<string, Value>)
    ensures r.Keys == {"from", "is_anon", "gift_to", "paid_for", "streak", "tier", "total"}
    ensures r["from"] == Str(from)
    ensures r["is_anon"] == Bool(Tag(m, "msg-id") == "anonsubgift")
    ensures r["gift_to"] == Str(GiftRecipient(m))
    ensures r["total"] == Str(Tag(m, "msg-param-months"))
  {
    map[
      "from" := Str(from),
      "is_anon" := Bool(Tag(m, "msg-id") == "anonsubgift"),
      "gift_to" := Str(GiftRecipient(m)),
      "paid_for" := Str(Tag(m, "msg-param-gift-months")),
      "streak" := Str(Tag(m, "msg-param-streak-months")),
      "tier" := Str(Tag(m, "msg-param-sub-plan")),
      "total" := Str(Tag(m, "msg-param-months"))]
  }

  /** A month count from a tag: the parsed 64-bit integer, or 0 when it does not parse. */
  function MonthsOf(m: IrcMessage, key: string): (r: int)
    ensures ParseInt(Tag(m, key)).Some? ==> r == ParseInt(Tag(m, key)).value
    ensures ParseInt(Tag(m, key)).None? ==> r == 0
    ensures MinInt64 <= r <= MaxInt64
  {
    ParseInt(Tag(m, key)).GetOr(0)
  }

  /** The tag carries a cheer. */
  predicate HasBits(m: IrcMessage)
  {
    "bits" in m.tags && m.tags["bits"] != ""
  }

  /** The host announcement the message carries, if it comes from `jtv` and matches the pattern. */
  function HostOf(m: IrcMessage, hostMatch: string -> Option<HostMatch>): (r: Option<HostMatch>)
    ensures r.Some? ==> m.user == "jtv" && hostMatch(Trailing(m)) == r
    ensures r.None? ==> m.user != "jtv" || hostMatch(Trailing(m)).None?
  {
    if m.user == "jtv" then hostMatch(Trailing(m)) else None
  }

  /**
   * The cheer part of `handleTwitchPrivmsg`: an unparsable amount stops
   * here with nothing changed; otherwise record the bits, publish them with
   * the new total, save and publish the state.
   */
  method HandleBits(srv: Server, m: IrcMessage, now: int) returns (sent: seq<Broadcast>)
    requires HasBits(m)
    modifies srv.store
    ensures ParseInt(m.tags["bits"]).None? ==> sent == [] && srv.store.Snap() == old(srv.store.Snap())
    ensures ParseInt(m.tags["bits"]).Some? ==>
      var amount := ParseInt(m.tags["bits"]).value;
      var recorded := old(srv.store.Snap()).(bitDonations :=
        BitsRecorded(old(srv.store.Snap()).bitDonations, m.user, BitsDisplayName(m), amount));
      && CheerSent(m, old(srv.store.Snap()).bitDonations, sent, srv.store.Snap())
      && SavedFrom(srv.store.Snap(), Logged(recorded, sent[0], now))
  {
    var parsed := ParseInt(m.tags["bits"]);
    if parsed.None? {
      return [];
    }
    var amount := parsed.value;
    var displayName := BitsDisplayName(m);
    var total := srv.store.RecordBits(m.user, displayName, amount);
    sent := PublishAndSave(srv, MsgTypeBits, Object(BitsFields(displayName, amount, Trailing(m), total)), now);
  }

  /**
   * `handleTwitchPrivmsg`: a host announcement from `jtv` is published (and
   * logged); then a message with a non-empty `bits` tag is handled as a
   * cheer. Both can happen for one message.
   */
  method HandlePrivmsg(srv: Server, m: IrcMessage, hostMatch: string -> Option<HostMatch>, now: int)
    returns (sent: seq<Broadcast>)
    modifies srv.store
    ensures var h := HostOf(m, hostMatch);
      var k := if h.Some? then 1 else 0;
      && |sent| >= k
      && (h.Some? ==> sent[0].typ == MsgTypeHost && sent[0].payload == Object(HostFields(h.value))
                      && sent[0].storeEvent && !sent[0].replay)
      && (!HasBits(m) || ParseInt(m.tags["bits"]).None? ==> |sent| == k)
      && (HasBits(m) && ParseInt(m.tags["bits"]).Some? ==>
            |sent| == k + 2 && CheerSent(m, old(srv.store.Snap()).bitDonations, sent[k..], srv.store.Snap()))
    ensures !HasBits(m) || ParseInt(m.tags["bits"]).None? ==>
      var h := HostOf(m, hostMatch);
      && (h.Some? && Logs(sent[0]) ==> SavedFrom(srv.store.Snap(), Logged(old(srv.store.Snap()), sent[0], now)))
      && (h.None? || !Logs(sent[0]) ==> srv.store.Snap() == old(srv.store.Snap()))
    ensures HasBits(m) && ParseInt(m.tags["bits"]).Some? ==>
      var amount := ParseInt(m.tags["bits"]).value;
      var before := if HostOf(m, hostMatch).Some? then Logged(old(srv.store.Snap()), sent[0], now)
                    else old(srv.store.Snap());
      SavedFrom(srv.store.Snap(), Logged(before.(bitDonations :=
        BitsRecorded(old(srv.store.Snap()).bitDonations, m.user, BitsDisplayName(m), amount)), sent[|sent| - 2], now))
  {
    ghost var s0 := srv.store.Snap();
    var h := HostOf(m, hostMatch);
    var hostSent := PublishHost(srv, h, now);
    sent := hostSent;
    if HasBits(m) {
      ghost var before := if h.Some? then Logged(s0, hostSent[0], now) else s0;
      var more := CheerAfterHost(srv, m, before, h.Some? && Logs(hostSent[0]), now);
      sent := hostSent + more;
      assert sent[|hostSent|..] == more;
      assert h.Some? ==> sent[0] == hostSent[0];
      assert |more| == 2 ==> sent[|hostSent|] == more[0];
    }
  }

  /** The host part of `handleTwitchPrivmsg`: publish the announcement, if any, with logging on. */
  method PublishHost(srv: Server, h: Option<HostMatch>, now: int) returns (sent: seq<Broadcast>)
    modifies srv.store
    ensures h.None? ==> sent == [] && srv.store.Snap() == old(srv.store.Snap())
    ensures h.Some? ==>
      && |sent| == 1 && sent[0].typ == MsgTypeHost && sent[0].payload == Object(HostFields(h.value))
      && sent[0].storeEvent && !sent[0].replay
      && (Logs(sent[0]) ==> SavedFrom(srv.store.Snap(), Logged(old(srv.store.Snap()), sent[0], now)))
      && (!Logs(sent[0]) ==> srv.store.Snap() == old(srv.store.Snap()))
    ensures srv.store.bitDonations == old(srv.store.bitDonations)
  {
    sent := [];
    if h.Some? {
      var b := srv.sockets.SendAllSockets(srv.store, srv.assets, srv.stamp, MsgTypeHost, Object(HostFields(h.value)), false, true, now);
      sent := [b];
    }
  }

  /**
   * The two broadcasts of a cheer of the amount in the `bits` tag, over
   * bit totals `b0`, ending in the state `after`: the cheer with the new
   * running total, logged, then the whole state, not logged.
   */
  ghost predicate CheerSent(m: IrcMessage, b0: BitDonations, more: seq<Broadcast>, after: Snapshot)
    requires HasBits(m) && ParseInt(m.tags["bits"]).Some?
  {
    var amount := ParseInt(m.tags["bits"]).value;
    && |more| == 2
    && more[0].typ == MsgTypeBits && more[0].storeEvent && !more[0].replay
    && more[0].payload == Object(BitsFields(BitsDisplayName(m), amount, Trailing(m),
         TotalOf(b0.totalAmounts.GetOr(map[]), m.user) + amount))
    && more[1].typ == MsgTypeStore && more[1].payload == State(after)
    && !more[1].storeEvent && !more[1].replay
  }

  /**
   * The cheer part of `handleTwitchPrivmsg`, run on a store that is
   * `before`, or a save of it when `saved`: the bits are recorded over
   * `before`.
   */
  method CheerAfterHost(srv: Server, m: IrcMessage, ghost before: Snapshot, ghost saved: bool, now: int)
    returns (more: seq<Broadcast>)
    requires HasBits(m)
    requires saved ==> SavedFrom(srv.store.Snap(), before)
    requires !saved ==> srv.store.Snap() == before
    modifies srv.store
    ensures ParseInt(m.tags["bits"]).None? ==> more == [] && srv.store.Snap() == old(srv.store.Snap())
    ensures ParseInt(m.tags["bits"]).Some? ==>
      var amount := ParseInt(m.tags["bits"]).value;
      && CheerSent(m, before.bitDonations, more, srv.store.Snap())
      && SavedFrom(srv.store.Snap(), Logged(before.(bitDonations :=
           BitsRecorded(before.bitDonations, m.user, BitsDisplayName(m), amount)), more[0], now))
  {
    ghost var s1 := srv.store.Snap();
    more := HandleBits(srv, m, now);
    if ParseInt(m.tags["bits"]).Some? {
      if saved {
        assert s1.bitDonations == before.bitDonations;
        var amount := ParseInt(m.tags["bits"]).value;
        SavedOverBits(before, s1, BitsRecorded(before.bitDonations, m.user, BitsDisplayName(m), amount),
          more[0], now, srv.store.Snap());
      } else {
        assert s1 == before;
      }
    }
  }

  /**
   * `handleTwitchUsernotice`. Raids are published and logged but touch no
   * record; subs and resubs record the display name with the cumulative
   * months; gifted subs record the recipient with `msg-param-months`;
   * notices without or with another msg-id are ignored. A sub or resub
   * notice without parameters ends in a run-time panic before anything is
   * changed, reported as `panicked`.
   */
  method HandleUsernotice(srv: Server, m: IrcMessage, now: int) returns (sent: seq<Broadcast>, panicked: bool)
    modifies srv.store
    ensures var id := Tag(m, "msg-id");
      && (panicked <==> (id == "sub" || id == "resub") && |m.params| == 0)
      && (id !in {"raid", "sub", "resub", "subgift", "anonsubgift"} || panicked ==>
            sent == [] && srv.store.Snap() == old(srv.store.Snap()))
      && (id == "raid" ==>
            && |sent| == 1 && sent[0].typ == MsgTypeRaid && sent[0].storeEvent && !sent[0].replay
            && sent[0].payload == Object(map["from" := Str(NoticeDisplayName(m)),
                                             "viewerCount" := Str(Tag(m, "msg-param-viewerCount"))])
            && (Logs(sent[0]) ==> SavedFrom(srv.store.Snap(), Logged(old(srv.store.Snap()), sent[0], now)))
            && (!Logs(sent[0]) ==> srv.store.Snap() == old(srv.store.Snap())))
      && ((id == "sub" || id == "resub") && !panicked ==>
            && |sent| == 2 && sent[0].typ == MsgTypeSub
            && sent[0].payload == Object(SubFields(m, NoticeDisplayName(m)))
            && sent[0].storeEvent && !sent[0].replay
            && sent[1].typ == MsgTypeStore && sent[1].payload == State(srv.store.Snap())
            && !sent[1].storeEvent && !sent[1].replay
            && SavedFrom(srv.store.Snap(), Logged(old(srv.store.Snap()).(subs :=
                 SubRecorded(old(srv.store.subs), NoticeDisplayName(m), MonthsOf(m, "msg-param-cumulative-months"))),
                 sent[0], now)))
      && ((id == "subgift" || id == "anonsubgift") ==>
            && |sent| == 2 && sent[0].typ == MsgTypeSubGift
            && sent[0].payload == Object(SubGiftFields(m, NoticeDisplayName(m)))
            && sent[0].storeEvent && !sent[0].replay
            && sent[1].typ == MsgTypeStore && sent[1].payload == State(srv.store.Snap())
            && !sent[1].storeEvent && !sent[1].replay
            && SavedFrom(srv.store.Snap(), Logged(old(srv.store.Snap()).(subs :=
                 SubRecorded(old(srv.store.subs), GiftRecipient(m), MonthsOf(m, "msg-param-months"))),
                 sent[0], now)))
  {
    var displayName := NoticeDisplayName(m);
    var id := Tag(m, "msg-id");
    sent, panicked := [], false;
    if id == "raid" {
      var fields := map["from" := Str(displayName), "viewerCount" := Str(Tag(m, "msg-param-viewerCount"))];
      var b := srv.sockets.SendAllSockets(srv.store, srv.assets, srv.stamp, MsgTypeRaid, Object(fields), false, true, now);
      sent := [b];
    } else if id == "sub" || id == "resub" {
      if |m.params| == 0 {
        panicked := true;
        return;
      }
      var fields := SubFields(m, displayName);
      var duration := MonthsOf(m, "msg-param-cumulative-months");
      sent := RecordAndPublish(srv, displayName, duration, MsgTypeSub, Object(fields), now);
    } else if id == "subgift" || id == "anonsubgift" {
      var toName := GiftRecipient(m);
      var fields := SubGiftFields(m, displayName);
      var duration := MonthsOf(m, "msg-param-months");
      sent := RecordAndPublish(srv, toName, duration, MsgTypeSubGift, Object(fields), now);
    }
  }

  /** The common tail of the sub and gift branches: record the subscriber, then publish and save. */
  method RecordAndPublish(srv: Server, name: string, months: int, msgType: string, msg: Value, now: int)
    returns (sent: seq<Broadcast>)
    modifies srv.store
    ensures |sent| == 2 && sent[0].typ == msgType && sent[0].payload == msg && sent[1].typ == MsgTypeStore
    ensures sent[0].storeEvent && !sent[0].replay
    ensures sent[1].payload == State(srv.store.Snap()) && !sent[1].storeEvent && !sent[1].replay
    ensures SavedFrom(srv.store.Snap(), Logged(old(srv.store.Snap()).(subs :=
      SubRecorded(old(srv.store.subs), name, months)), sent[0], now))
  {
    srv.store.RecordSub(name, months);
    sent := PublishAndSave(srv, msgType, msg, now);
  }
}
