/**
 * The demo endpoint: a synthetic alert of a chosen kind, built from
 * request parameters with defaults, sent to every socket and never logged.
 */
module Demo {
  import opened Wrappers
  import opened Strings
  import opened Storage
  import opened Api

  /** The name demo alerts come from. */
  const DemoIssuer := "Twitch-Manager"

  /** `FormValue`: the parameter, or the empty string when it is absent. */
  function FormValue(params: map<string, string>, key: string): (v: string)
    ensures key in params ==> v == params[key]
    ensures key !in params ==> v == ""
  {
    if key in params then params[key] else ""
  }

  /** `demoGetParamInt`: the parameter as an integer, or the fallback when it is empty or not an integer. */
  function ParamInt(params: map<string, string>, key: string, fallback: int): (r: int)
    ensures FormValue(params, key) == "" ==> r == fallback
    ensures ParseInt(FormValue(params, key)).None? ==> r == fallback
    ensures ParseInt(FormValue(params, key)).Some? ==> r == ParseInt(FormValue(params, key)).value
  {
    var v := FormValue(params, key);
    if v == "" then fallback
    else
      match ParseInt(v)
      case None => fallback
      case Some(n) => n
  }

  /** `demoGetParamStr`: the parameter unchanged, or the fallback when it is empty. */
  function ParamStr(params: map<string, string>, key: string, fallback: string): (r: string)
    ensures FormValue(params, key) == "" ==> r == fallback
    ensures FormValue(params, key) != "" ==> r == FormValue(params, key)
    ensures fallback != "" ==> r != ""
  {
    var v := FormValue(params, key);
    if v == "" then fallback else v
  }

  /** The message type a demo is broadcast as and its payload. */
  datatype DemoMessage = DemoMessage(typ: string, payload: map<string, Value>)

  /** The demo events the endpoint knows. */
  const DemoEvents: set<string> := {MsgTypeBits, MsgTypeDonation, MsgTypeFollow, MsgTypeHost, MsgTypeRaid,
                                    MsgTypeSub, "resub", MsgTypeSubGift}

  /** The bits demo: a cheer with the amount, message and running total given or defaulted. */
  function BitsDemo(params: map<string, string>): (p: map<string, Value>)
    ensures p.Keys == {"from", "amount", "message", "total_amount"}
    ensures p["from"] == Str(DemoIssuer)
  {
    map[
      "from" := Str(DemoIssuer),
      "amount" := Int(ParamInt(params, "amount", 500)),
      "message" := Str(ParamStr(params, "message", "ShowLove500 Thanks for the Stream! myuserHype")),
      "total_amount" := Int(ParamInt(params, "total_amount", 1337))]
  }

  /** The donation demo, without its floating-point amount. */
  function DonationDemo(params: map<string, string>): (p: map<string, Value>)
    ensures p.Keys == {"name", "message"}
    ensures p["name"] == Str(DemoIssuer)
  {
    map["name" := Str(DemoIssuer), "message" := Str(ParamStr(params, "message", "You rock!"))]
  }

  /** The follow demo: followed now. */
  function FollowDemo(now: int): (p: map<string, Value>)
    ensures p.Keys == {"from", "followed_at"}
    ensures p["from"] == Str(DemoIssuer) && p["followed_at"] == Time(now)
  {
    map["from" := Str(DemoIssuer), "followed_at" := Time(now)]
  }

  /** The host and raid demos: a viewer count given or defaulted. */
  function ViewersDemo(params: map<string, string>): (p: map<string, Value>)
    ensures p.Keys == {"from", "viewerCount"}
    ensures p["from"] == Str(DemoIssuer)
  {
    map["from" := Str(DemoIssuer), "viewerCount" := Int(ParamInt(params, "viewerCount", 5))]
  }

  /** The sub demo: a first subscription, so no message, not a resub and a total of one. */
  function SubDemo(params: map<string, string>): (p: map<string, Value>)
    ensures p.Keys == {"from", "is_resub", "message", "paid_for", "streak", "tier", "total"}
    ensures p["from"] == Str(DemoIssuer)
    ensures p["is_resub"] == Bool(false) && p["message"] == Str("") && p["total"] == Int(1)
  {
    map[
      "from" := Str(DemoIssuer),
      "is_resub" := Bool(false),
      "message" := Str(""),
      "paid_for" := Int(ParamInt(params, "paid_for", 1)),
      "streak" := Int(ParamInt(params, "streak", 1)),
      "tier" := Str(ParamStr(params, "tier", "1000")),
      "total" := Int(1)]
  }

  /** The resub demo: the same fields as a sub, marked as a resub. */
  function ResubDemo(params: map<string, string>): (p: map<string, Value>)
    ensures p.Keys == SubDemo(params).Keys
    ensures p["from"] == Str(DemoIssuer) && p["is_resub"] == Bool(true)
  {
    map[
      "from" := Str(DemoIssuer),
      "is_resub" := Bool(true),
      "message" := Str(ParamStr(params, "message", "Already 12 months! PogChamp")),
      "paid_for" := Int(ParamInt(params, "paid_for", 1)),
      "streak" := Int(ParamInt(params, "streak", 12)),
      "tier" := Str(ParamStr(params, "tier", "1000")),
      "total" := Int(ParamInt(params, "total", 12))]
  }

  /** The gift demo: anonymous exactly when `is_anon` is "true". */
  function SubGiftDemo(params: map<string, string>): (p: map<string, Value>)
    ensures p.Keys == {"from", "is_anon", "gift_to", "paid_for", "streak", "tier", "total"}
    ensures p["from"] == Str(DemoIssuer)
    ensures p["is_anon"] == Bool(FormValue(params, "is_anon") == "true")
  {
    map[
      "from" := Str(DemoIssuer),
      "is_anon" := Bool(ParamStr(params, "is_anon", "false") == "true"),
      "gift_to" := Str(ParamStr(params, "gift_to", "Tester")),
      "paid_for" := Int(ParamInt(params, "paid_for", 1)),
      "streak" := Int(ParamInt(params, "streak", 12)),
      "tier" := Str(ParamStr(params, "tier", "1000")),
      "total" := Int(ParamInt(params, "total", 12))]
  }

  /**
   * The switch of `handleDemoAlert`: the payload of each known event, or
   * `None` for an unknown one. "resub" is sent as a "sub"; every other
   * event is sent under its own name.
   */
  function DemoPayload(event: string, params: map<string, string>, now: int): (r: Option<DemoMessage>)
    ensures r.None? <==> event !in DemoEvents
    ensures r.Some? ==> r.value.typ == (if event == "resub" then MsgTypeSub else event)
    ensures r.Some? && event != MsgTypeDonation ==> "from" in r.value.payload && r.value.payload["from"] == Str(DemoIssuer)
  {
    if event == MsgTypeBits then Some(DemoMessage(event, BitsDemo(params)))
    else if event == MsgTypeDonation then Some(DemoMessage(event, DonationDemo(params)))
    else if event == MsgTypeFollow then Some(DemoMessage(event, FollowDemo(now)))
    else if event == MsgTypeHost || event == MsgTypeRaid then Some(DemoMessage(event, ViewersDemo(params)))
    else if event == MsgTypeSub then Some(DemoMessage(event, SubDemo(params)))
    else if event == "resub" then Some(DemoMessage(MsgTypeSub, ResubDemo(params)))
    else if event == MsgTypeSubGift then Some(DemoMessage(event, SubGiftDemo(params)))
    else None
  }

  /** A bits, host or raid demo field that is not given, or given empty, carries its default. */
  lemma DemoDefaults(params: map<string, string>)
    ensures FormValue(params, "amount") == "" ==> BitsDemo(params)["amount"] == Int(500)
    ensures FormValue(params, "total_amount") == "" ==> BitsDemo(params)["total_amount"] == Int(1337)
    ensures FormValue(params, "message") == "" ==>
      BitsDemo(params)["message"] == Str("ShowLove500 Thanks for the Stream! myuserHype")
    ensures FormValue(params, "viewerCount") == "" ==> ViewersDemo(params)["viewerCount"] == Int(5)
  {
  }

  /**
   * A sub, resub or gift demo field that is not given, or given empty,
   * carries its default: a one-month tier-1000 sub, a twelve-month resub,
   * a public gift to "Tester".
   */
  lemma SubDemoDefaults(params: map<string, string>)
    ensures FormValue(params, "paid_for") == "" ==>
      SubDemo(params)["paid_for"] == Int(1) && ResubDemo(params)["paid_for"] == Int(1)
    ensures FormValue(params, "streak") == "" ==>
      SubDemo(params)["streak"] == Int(1) && ResubDemo(params)["streak"] == Int(12)
    ensures FormValue(params, "tier") == "" ==>
      SubDemo(params)["tier"] == Str("1000") && SubGiftDemo(params)["tier"] == Str("1000")
    ensures FormValue(params, "total") == "" ==> ResubDemo(params)["total"] == Int(12)
    ensures FormValue(params, "is_anon") != "true" ==> SubGiftDemo(params)["is_anon"] == Bool(false)
    ensures FormValue(params, "gift_to") == "" ==> SubGiftDemo(params)["gift_to"] == Str("Tester")
  {
  }

  /** A parameter that reads as an integer replaces the default of an integer field. */
  lemma DemoParamOverrides(params: map<string, string>, n: int)
    requires MinInt64 <= n <= MaxInt64
    ensures FormValue(params, "amount") == FormatInt(n) ==> BitsDemo(params)["amount"] == Int(n)
    ensures FormValue(params, "streak") == FormatInt(n) ==>
      SubDemo(params)["streak"] == Int(n) && ResubDemo(params)["streak"] == Int(n)
  {
    ParseFormatRoundTrip(n);
  }

  /**
   * `handleDemoAlert`: 404 for an unknown event; otherwise the payload is
   * sent to every socket without logging, answered 201, or 500 when a
   * socket fails. The store never changes.
   */
  method HandleDemoAlert(srv: Server, event: string, params: map<string, string>, now: int)
    returns (reply: Reply, sent: seq<Broadcast>)
    modifies srv.store
    ensures srv.store.Snap() == old(srv.store.Snap())
    ensures event !in DemoEvents ==> reply == Reply(404, "Event not found\n") && sent == []
    ensures event in DemoEvents ==>
      var m := DemoPayload(event, params, now).value;
      && |sent| == 1 && sent[0].typ == m.typ && sent[0].payload == Object(m.payload)
      && !sent[0].replay && !sent[0].storeEvent
      && (sent[0].failed.None? ==> reply == Reply(201, ""))
      && (sent[0].failed.Some? ==> reply == Reply(500, "send to sockets: submit message\n"))
  {
    var data := DemoPayload(event, params, now);
    if data.None? {
      return Reply(404, "Event not found\n"), [];
    }
    var m := data.value;
    var b := srv.sockets.SendAllSockets(srv.store, srv.assets, srv.stamp, m.typ, Object(m.payload), false, false, now);
    sent := [b];
    if b.failed.Some? {
      return Reply(500, "send to sockets: submit message\n"), sent;
    }
    reply := Reply(201, "");
  }
}
