/** The receiving side in base.py: the `POST /client/intervene` handler that either
    acknowledges a posted JSON body or answers a WebRTC offer, the registry `_pcs` of
    live peer connections, and the DataChannel `message` handler that recognises
    joint-state telemetry.

    `json.loads` is a parameter `string -> Option<Json>` (`None` when it raises); the
    UTF-8 decoding of a binary message is a parameter too. Building the session
    description and the SDP negotiation are the outcomes the caller supplies. */
module Receiver {
  import opened Json
  import opened InterventionPolicy

  // ---------------------------------------------------------------- request bodies

  /** `json.loads(body) if body else {}`, with a failed parse also read as `{}`. */
  function RequestData(text: string, loads: string -> Option<Json>): (data: Json)
    ensures text == "" ==> data == EmptyObject()
    ensures text != "" && loads(text).None? ==> data == EmptyObject()
    ensures text != "" && loads(text).Some? ==> data == loads(text).value
  {
    if text == "" then EmptyObject()
    else match loads(text)
      case None => EmptyObject()
      case Some(j) => j
  }

  /** `isinstance(data, dict) and "sdp" in data and "type" in data`. */
  predicate IsOffer(data: Json) {
    data.JObj? && "sdp" in data.fields && "type" in data.fields
  }

  /** An offer whose `sdp` and `type` make a session description. */
  predicate Describable(data: Json, describe: (Json, Json) -> bool) {
    IsOffer(data) && describe(data.fields["sdp"], data.fields["type"])
  }

  /** What the handler answers, and what it did to the peer connection it created. */
  datatype Reply = Reply(status: int, body: Json, opensPc: bool, closesPc: bool)

  const Acknowledged: Json := JObj(map["status" := JStr("ok")])
  const InvalidSdp: Json := JObj(map["error" := JStr("invalid sdp payload")])
  const NegotiationFailed: Json := JObj(map["error" := JStr("sdp negotiation failed")])

  /** The local description echoed back after a successful negotiation. */
  function Answer(sdp: string, kind: string): Json {
    JObj(map["sdp" := JStr(sdp), "type" := JStr(kind)])
  }

  /** `intervene`. `describe(sdp, type)` says whether `RTCSessionDescription` accepts the
      pair; `negotiate(sdp, type)` is the local description `(sdp, type)` after
      `setRemoteDescription`, `createAnswer` and `setLocalDescription`, or `None` when one
      of them raises. */
  function Intervene(text: string, loads: string -> Option<Json>, describe: (Json, Json) -> bool,
                     negotiate: (Json, Json) -> Option<(string, string)>): (r: Reply)
    ensures !IsOffer(RequestData(text, loads)) ==> r == Reply(200, Acknowledged, false, false)
    ensures r.opensPc <==> Describable(RequestData(text, loads), describe)
    ensures r.status == 400 <==> IsOffer(RequestData(text, loads)) && !r.opensPc
    ensures r.status == 400 ==> r.body == InvalidSdp
    ensures r.closesPc <==> r.status == 500
    ensures r.closesPc ==> r.opensPc && r.body == NegotiationFailed
    ensures r.opensPc ==>
      var d := RequestData(text, loads).fields;
      (r.closesPc <==> negotiate(d["sdp"], d["type"]).None?)
    ensures r.opensPc && !r.closesPc ==>
      var d := RequestData(text, loads).fields;
      negotiate(d["sdp"], d["type"]).Some? && r.status == 200 &&
      r.body == Answer(negotiate(d["sdp"], d["type"]).value.0, negotiate(d["sdp"], d["type"]).value.1)
  {
    var data := RequestData(text, loads);
    if !IsOffer(data) then Reply(200, Acknowledged, false, false)
    else
      var sdp, kind := data.fields["sdp"], data.fields["type"];
      if !describe(sdp, kind) then Reply(400, InvalidSdp, false, false)
      else match negotiate(sdp, kind)
        case None => Reply(500, NegotiationFailed, true, true)
        case Some(local) => Reply(200, Answer(local.0, local.1), true, false)
  }

  /** An empty body and a body `json.loads` rejects are both acknowledged. */
  lemma UnparsableBodiesAreAcknowledged(text: string, loads: string -> Option<Json>,
                                        describe: (Json, Json) -> bool,
                                        negotiate: (Json, Json) -> Option<(string, string)>)
    requires text == "" || loads(text).None?
    ensures Intervene(text, loads, describe, negotiate) == Reply(200, Acknowledged, false, false)
  {
  }

  /** The HTTP fallback of the controller (a `joint_states` object without `sdp`) is
      acknowledged and opens no connection. */
  lemma FallbackPostIsAcknowledged(states: seq<real>, text: string, loads: string -> Option<Json>,
                                   describe: (Json, Json) -> bool,
                                   negotiate: (Json, Json) -> Option<(string, string)>)
    requires text != "" && loads(text) == Some(FallbackPayload(states))
    ensures Intervene(text, loads, describe, negotiate) == Reply(200, Acknowledged, false, false)
  {
    assert "sdp" !in FallbackPayload(states).fields;
  }

  // ---------------------------------------------------------------- live connections

  /** The states of `RTCPeerConnection.connectionState`. */
  datatype ConnectionState = New | Connecting | Connected | Disconnected | Failed | Closed

  /** The states after which the handler closes and forgets the connection. */
  predicate Terminal(s: ConnectionState) {
    s == ConnectionState.Closed || s == Failed || s == Disconnected
  }

  /** The module-level set `_pcs`. A peer connection is a number handed out in order;
      `closes` logs every `pc.close()` in the order it is awaited. */
  class PeerRegistry {
    var pcs: set<nat>
    var nextPc: nat
    var closes: seq<nat>

    ghost predicate Valid()
      reads this`pcs, this`nextPc, this`closes
    {
      && (forall p :: p in pcs ==> p < nextPc)
      && (forall i :: 0 <= i < |closes| ==> closes[i] < nextPc)
    }

    /** The set at import time: empty. */
    constructor ()
      ensures Valid() && pcs == {} && nextPc == 0 && closes == []
    {
      pcs, nextPc, closes := {}, 0, [];
    }

    /** A request to `POST /client/intervene`: the reply of `Intervene`, a new connection
        registered when an offer is accepted, and that connection closed (but still
        registered) when the negotiation fails. */
    method HandleRequest(text: string, loads: string -> Option<Json>, describe: (Json, Json) -> bool,
                         negotiate: (Json, Json) -> Option<(string, string)>) returns (status: int, body: Json)
      requires Valid()
      modifies this`pcs, this`nextPc, this`closes
      ensures Valid()
      ensures var r := Intervene(text, loads, describe, negotiate);
        && status == r.status && body == r.body
        && pcs == old(pcs) + (if r.opensPc then {old(nextPc)} else {})
        && nextPc == old(nextPc) + (if r.opensPc then 1 else 0)
        && closes == old(closes) + (if r.closesPc then [old(nextPc)] else [])
    {
      var r := Intervene(text, loads, describe, negotiate);
      if r.opensPc {
        var pc := nextPc;
        nextPc := nextPc + 1;
        pcs := pcs + {pc};
        if r.closesPc {
          closes := closes + [pc];
        }
      }
      status, body := r.status, r.body;
    }

    /** `on_connectionstatechange`: in a terminal state the connection is closed and, in the
        `finally`, taken out of `_pcs`, whether or not the close raises. */
    method ConnectionStateChanged(pc: nat, s: ConnectionState)
      requires Valid() && pc < nextPc
      modifies this`pcs, this`closes
      ensures Valid()
      ensures Terminal(s) ==> pcs == old(pcs) - {pc} && closes == old(closes) + [pc]
      ensures !Terminal(s) ==> pcs == old(pcs) && closes == old(closes)
    {
      if Terminal(s) {
        closes := closes + [pc];
        pcs := pcs - {pc};
      }
    }
  }

  // ---------------------------------------------------------------- DataChannel messages

  /** A DataChannel message: text, or bytes that `decode("utf-8", errors="ignore")` reads. */
  datatype Message = Text(text: string) | Bytes(data: seq<bv8>)

  /** What the handler logs for one message. */
  datatype MessageLog =
    | JointStates(count: nat, withLatency: bool)  // the telemetry line, with or without latency
    | Generic(payload: Json)                     // any other JSON value
    | NonJson                                    // the handler raised while reading the message

  /** `len(v)` for a value `json.loads` produced, `None` where `len` raises `TypeError`. */
  function Len(v: Json): (n: Option<nat>)
    ensures n.None? <==> v.JNull? || v.JBool? || v.JNum?
    ensures v.JStr? ==> n == Some(|v.s|)
    ensures v.JArr? ==> n == Some(|v.items|)
    ensures v.JObj? ==> n == Some(|v.fields.Keys|)
  {
    match v
    case JStr(s) => Some(|s|)
    case JArr(xs) => Some(|xs|)
    case JObj(m) => Some(|m|)
    case _ => None
  }

  /** `len(payload.get("joint_states") or [])`: a false value counts as the empty list. */
  function JointStatesCount(v: Json): (n: Option<nat>)
    ensures !Truthy(v) ==> n == Some(0)
    ensures Truthy(v) ==> n == Len(v)
  {
    if Truthy(v) then Len(v) else Some(0)
  }

  /** `isinstance(sent_ts, (int, float))`; a JSON `true` or `false` is a Python `bool`, which
      is an `int`. */
  predicate IsNumber(v: Option<Json>) {
    v.Some? && (v.value.JNum? || v.value.JBool?)
  }

  /** `on_message`. */
  function OnMessage(m: Message, decode: seq<bv8> -> string, loads: string -> Option<Json>): (r: MessageLog)
    ensures var t := if m.Text? then m.text else decode(m.data);
      && (loads(t).None? ==> r == NonJson)
      && (loads(t).Some? && !(loads(t).value.JObj? && "joint_states" in loads(t).value.fields) ==>
            r == Generic(loads(t).value))
      && (loads(t).Some? && loads(t).value.JObj? && "joint_states" in loads(t).value.fields ==>
            var fields := loads(t).value.fields;
            (r.JointStates? <==> JointStatesCount(fields["joint_states"]).Some?) &&
            (r.JointStates? ==>
               r.count == JointStatesCount(fields["joint_states"]).value &&
               (r.withLatency <==> IsNumber(Get(fields, "timestamp")))) &&
            (!r.JointStates? ==> r == NonJson))
  {
    var t := if m.Text? then m.text else decode(m.data);
    match loads(t)
    case None => NonJson
    case Some(payload) =>
      if payload.JObj? && "joint_states" in payload.fields then
        match JointStatesCount(payload.fields["joint_states"])
        case None => NonJson
        case Some(n) => JointStates(n, IsNumber(Get(payload.fields, "timestamp")))
      else Generic(payload)
  }

  /** A DataChannel sample of the controller is recognised as telemetry with one entry per
      joint and with a latency, since it carries a numeric timestamp. */
  lemma ChannelSampleIsTelemetry(states: seq<real>, now: real, t: string,
                                 decode: seq<bv8> -> string, loads: string -> Option<Json>)
    requires loads(t) == Some(ChannelPayload(states, now))
    ensures OnMessage(Text(t), decode, loads) == JointStates(|states|, true)
  {
    var p := ChannelPayload(states, now);
    assert p.fields["joint_states"] == Numbers(states);
    assert Get(p.fields, "timestamp") == Some(JNum(now));
  }

  /** A payload whose `joint_states` is `null` or empty is reported with length 0. */
  lemma EmptyJointStatesCountZero(m: Message, decode: seq<bv8> -> string, loads: string -> Option<Json>)
    requires var t := if m.Text? then m.text else decode(m.data);
      loads(t).Some? && loads(t).value.JObj? && "joint_states" in loads(t).value.fields &&
      !Truthy(loads(t).value.fields["joint_states"])
    ensures OnMessage(m, decode, loads).JointStates?
    ensures OnMessage(m, decode, loads).count == 0
  {
  }
}
