/** The decisions agent/experiments/run_robots.py takes without touching its globals:
    how the stream address of a start request becomes the telemetry endpoint, which
    transport one joint-state sample takes, and which arm commands the worker's
    start-up sequence and its `finally` block issue. The controller in
    controller.dfy applies them to its state. */
module InterventionPolicy {
  import opened Json
  import opened Agents

  // ---------------------------------------------------------------- stream address

  /** The characters Python's `str.isspace` accepts, which `str.strip` removes. */
  predicate IsSpace(c: char) {
    c == ' ' || ('\U{9}' <= c <= '\U{D}') || ('\U{1C}' <= c <= '\U{1F}') ||
    c == '\U{85}' || c == '\U{A0}' || c == '\U{1680}' || ('\U{2000}' <= c <= '\U{200A}') ||
    c == '\U{2028}' || c == '\U{2029}' || c == '\U{202F}' || c == '\U{205F}' || c == '\U{3000}'
  }

  /** The first index at or after `i` that does not hold a space. */
  function SkipFront(s: string, i: nat): (k: nat)
    requires i <= |s|
    ensures i <= k <= |s|
    ensures forall m :: i <= m < k ==> IsSpace(s[m])
    ensures k < |s| ==> !IsSpace(s[k])
    decreases |s| - i
  {
    if i < |s| && IsSpace(s[i]) then SkipFront(s, i + 1) else i
  }

  /** The end of `s[lo..j]` once its trailing spaces are dropped. */
  function SkipBack(s: string, lo: nat, j: nat): (k: nat)
    requires lo <= j <= |s|
    ensures lo <= k <= j
    ensures forall m :: k <= m < j ==> IsSpace(s[m])
    ensures k > lo ==> !IsSpace(s[k - 1])
    decreases j
  {
    if j > lo && IsSpace(s[j - 1]) then SkipBack(s, lo, j - 1) else j
  }

  /** `str.strip()`. */
  function Strip(s: string): string {
    var i := SkipFront(s, 0);
    s[i..SkipBack(s, i, |s|)]
  }

  /** `Strip(s)` is the longest slice of `s` that neither starts nor ends with a space: only
      spaces are dropped from both ends, and it is empty exactly when `s` is all spaces. */
  lemma StripTrimsSpaces(s: string)
    ensures exists i, j ::
      && 0 <= i <= j <= |s| && Strip(s) == s[i..j]
      && (forall m :: 0 <= m < i ==> IsSpace(s[m]))
      && (forall m :: j <= m < |s| ==> IsSpace(s[m]))
    ensures Strip(s) != [] ==> !IsSpace(Strip(s)[0]) && !IsSpace(Strip(s)[|Strip(s)| - 1])
    ensures Strip(s) == [] <==> forall m :: 0 <= m < |s| ==> IsSpace(s[m])
  {
    var i := SkipFront(s, 0);
    var j := SkipBack(s, i, |s|);
    assert j > i ==> s[i..j][0] == s[i];
  }

  /** Stripping twice is stripping once. */
  lemma StripIdempotent(s: string)
    ensures Strip(Strip(s)) == Strip(s)
  {
    StripTrimsSpaces(s);
    var r := Strip(s);
    var i := SkipFront(r, 0);
    if r != [] {
      assert i == 0;
      var j := SkipBack(r, 0, |r|);
      assert j == |r|;
    }
  }

  /** The `streamAddress` of a start request, from `(request.get_json(silent=True) or {})`
      then `(body.get("streamAddress") or "").strip()`: a body that is not a dictionary, a
      missing or false value and a value that is not a string (whose `.strip` raises and
      is caught) all give the empty address. */
  function StreamAddress(body: Option<Json>): (sa: string)
    ensures HasStringAddress(body) ==> sa == Strip(body.value.fields["streamAddress"].s)
    ensures !HasStringAddress(body) ==> sa == ""
  {
    var b := if body.Some? && Truthy(body.value) then body.value else EmptyObject();
    match b
    case JObj(m) =>
      (match Get(m, "streamAddress")
       case None => ""
       case Some(v) => if !Truthy(v) then "" else if v.JStr? then Strip(v.s) else "")
    case _ => ""
  }

  /** The body is a dictionary whose `streamAddress` is a string. */
  predicate HasStringAddress(body: Option<Json>) {
    body.Some? && body.value.JObj? && "streamAddress" in body.value.fields &&
    body.value.fields["streamAddress"].JStr?
  }

  /** The address contains `"://"`. */
  predicate HasSchemeSeparator(s: string)
    decreases |s|
  {
    |s| >= 3 && (s[..3] == "://" || HasSchemeSeparator(s[1..]))
  }

  /** An address without `"://"` is read as `http://` plus the address. */
  function WithScheme(sa: string): (r: string)
    ensures HasSchemeSeparator(r)
    ensures HasSchemeSeparator(sa) ==> r == sa
    ensures !HasSchemeSeparator(sa) ==> r == "http://" + sa
  {
    if HasSchemeSeparator(sa) then sa
    else
      var r := "http://" + sa;
      assert r[4..][..3] == "://";
      assert HasSchemeSeparator(r[4..]);
      assert r[3..][1..] == r[4..] && HasSchemeSeparator(r[3..]);
      assert r[2..][1..] == r[3..] && HasSchemeSeparator(r[2..]);
      assert r[1..][1..] == r[2..] && HasSchemeSeparator(r[1..]);
      r
  }

  /** The six parts `urllib.parse.urlparse` splits a URL into. */
  datatype Url = Url(scheme: string, netloc: string, path: string, params: string, query: string, fragment: string)

  const InterveneEndpointPath: string := "/client/intervene"

  /** `parsed._replace(path="/client/intervene", params="", query="", fragment="")`. */
  function ToInterveneEndpoint(p: Url): Url {
    p.(path := InterveneEndpointPath, params := "", query := "", fragment := "")
  }

  /** The endpoint a start request sets. `parse` stands for `urlparse` (`None` when it
      raises, so that the endpoint is cleared) and `unparse` for `urlunparse`. */
  function EndpointFor(sa: string, parse: string -> Option<Url>, unparse: Url -> string): (r: Option<string>)
    ensures r.Some? <==> sa != "" && parse(WithScheme(sa)).Some?
    ensures r.Some? ==>
      var p := parse(WithScheme(sa)).value;
      r.value == unparse(Url(p.scheme, p.netloc, "/client/intervene", "", "", ""))
  {
    if sa == "" then None
    else
      match parse(WithScheme(sa))
      case None => None
      case Some(p) => Some(unparse(ToInterveneEndpoint(p)))
  }

  /** Only the scheme and the network location of the address reach the endpoint: the
      path, parameters, query and fragment the operator typed are dropped. */
  lemma EndpointKeepsOnlyOrigin(a: string, b: string, parse: string -> Option<Url>, unparse: Url -> string)
    requires a != "" && b != ""
    requires parse(WithScheme(a)).Some? && parse(WithScheme(b)).Some?
    requires parse(WithScheme(a)).value.scheme == parse(WithScheme(b)).value.scheme
    requires parse(WithScheme(a)).value.netloc == parse(WithScheme(b)).value.netloc
    ensures EndpointFor(a, parse, unparse) == EndpointFor(b, parse, unparse)
  {
    var pa, pb := parse(WithScheme(a)).value, parse(WithScheme(b)).value;
    assert ToInterveneEndpoint(pa) == ToInterveneEndpoint(pb);
  }

  // ---------------------------------------------------------------- telemetry

  /** The `readyState` of the DataChannel object. */
  datatype ReadyState = Connecting | Open | Closing | Closed

  /** What a loop iteration puts on the wire. */
  datatype Emission = ChannelMessage(payload: Json) | HttpPost(url: string, payload: Json)

  /** The DataChannel payload: `{"joint_states": ..., "timestamp": time.time()}`. */
  function ChannelPayload(states: seq<real>, now: real): Json {
    JObj(map["joint_states" := Numbers(states), "timestamp" := JNum(now)])
  }

  /** The HTTP fallback payload: `{"joint_states": ...}`, with no timestamp. */
  function FallbackPayload(states: seq<real>): Json {
    JObj(map["joint_states" := Numbers(states)])
  }

  /** `_webrtc_send_json` and the `_do_send` it schedules: nothing when there is no loop
      or no channel, and a send only while the channel reports `"open"`. */
  function WebrtcSendJson(loopPresent: bool, dc: Option<ReadyState>, payload: Json): (r: Option<Json>)
    ensures r.Some? <==> loopPresent && dc == Some(Open)
    ensures r.Some? ==> r.value == payload
  {
    if !loopPresent || dc.None? then None
    else if dc.value == Open then Some(payload)
    else None
  }

  /** The transport choice of one loop iteration: an open DataChannel is preferred; otherwise
      a non-empty endpoint gets an HTTP POST; otherwise nothing is sent. */
  function Transmit(dc: Option<ReadyState>, loopPresent: bool, endpoint: Option<string>,
                    states: seq<real>, now: real): (e: Option<Emission>)
    ensures dc == Some(Open) ==> (e.Some? <==> loopPresent)
    ensures dc == Some(Open) && e.Some? ==> e.value == ChannelMessage(ChannelPayload(states, now))
    ensures dc != Some(Open) ==> (e.Some? <==> endpoint.Some? && endpoint.value != "")
    ensures dc != Some(Open) && e.Some? ==> e.value == HttpPost(endpoint.value, FallbackPayload(states))
  {
    if dc.Some? && dc.value == Open then
      match WebrtcSendJson(loopPresent, dc, ChannelPayload(states, now))
      case None => None
      case Some(m) => Some(ChannelMessage(m))
    else if endpoint.Some? && endpoint.value != "" then
      Some(HttpPost(endpoint.value, FallbackPayload(states)))
    else None
  }

  /** Whatever the transport, the sample reaches the wire as the same `joint_states`
      array; only the DataChannel message carries a `timestamp`. */
  lemma EmissionShape(dc: Option<ReadyState>, loopPresent: bool, endpoint: Option<string>,
                      states: seq<real>, now: real)
    requires Transmit(dc, loopPresent, endpoint, states, now).Some?
    ensures var e := Transmit(dc, loopPresent, endpoint, states, now).value;
      e.payload.JObj? && "joint_states" in e.payload.fields &&
      e.payload.fields["joint_states"] == Numbers(states) &&
      ("timestamp" in e.payload.fields <==> e.ChannelMessage?)
  {
    var e := Transmit(dc, loopPresent, endpoint, states, now).value;
    if e.ChannelMessage? {
      assert e.payload == ChannelPayload(states, now);
    } else {
      assert e.payload == FallbackPayload(states);
      assert "timestamp" !in e.payload.fields;
    }
  }

  // ---------------------------------------------------------------- arm commands

  /** A command the worker issues to the robot, in the order it issues them. */
  datatype ArmCall =
    | SetTorque(side: Side, enabled: bool)
    | MoveArm(side: Side, target: seq<real>)
    | ActCall                 // `agent.act({})` on the composite agent
    | CloseArm(side: Side)

  /** The 14-entry start pose `-1 * np.array([...])`; entries 7 to 13 belong to the right arm. */
  const StartPose: seq<real> := [
    -7.79108842, -7.85551561, -3.11858294, -1.22565065, -4.58353459, -1.58613613, -2.95291302,
    -4.81056375, -4.72466083, -3.12471886, -5.85673865, -1.53091283, 1.0, 0.0]

  /** The right arm's share of the start pose, `arr[7:]`. */
  function RightStartPose(): (p: seq<real>)
    ensures |p| == 7 && StartPose[..7] + p == StartPose
  {
    StartPose[7..]
  }

  /** The worker's start-up sequence on the right arm: torque on, move to the start pose,
      torque off. `fails(i)` says whether the command issued at position `i` of the
      command log raises; the first command is issued at `base`. The second component
      says whether the sequence completed (gravity compensation engaged). */
  function PreambleCalls(hasRight: bool, fails: nat -> bool, base: nat): (r: (seq<ArmCall>, bool))
    ensures r.1 <==> hasRight && !fails(base) && !fails(base + 1) && !fails(base + 2)
    ensures r.1 ==> r.0 == [SetTorque(Right, true), MoveArm(Right, RightStartPose()), SetTorque(Right, false)]
    ensures r.0 <= [SetTorque(Right, true), MoveArm(Right, RightStartPose()), SetTorque(Right, false)]
    ensures !hasRight ==> r.0 == []
    ensures hasRight ==> |r.0| == (if fails(base) then 1 else if fails(base + 1) then 2 else 3)
  {
    var all := [SetTorque(Right, true), MoveArm(Right, RightStartPose()), SetTorque(Right, false)];
    if !hasRight then ([], false)
    else if fails(base) then (all[..1], false)
    else if fails(base + 1) then (all[..2], false)
    else if fails(base + 2) then (all, false)
    else (all, true)
  }

  /** The torque restore of the worker's `finally` block: left arm, then right arm, inside
      one `try`, so that a left arm that is `None` or raises leaves the right arm alone. */
  function RestoreCalls(hasLeft: bool, hasRight: bool, fails: nat -> bool, base: nat): (r: seq<ArmCall>)
    ensures r <= [SetTorque(Left, true), SetTorque(Right, true)]
    ensures r == [] <==> !hasLeft
    ensures SetTorque(Right, true) in r <==> hasLeft && !fails(base) && hasRight
  {
    if !hasLeft then []
    else if fails(base) || !hasRight then [SetTorque(Left, true)]
    else [SetTorque(Left, true), SetTorque(Right, true)]
  }

  /** Without a left arm, the `finally` block of the worker never re-enables torque on
      any arm. */
  lemma NoLeftArmNoRestore(hasRight: bool, fails: nat -> bool, base: nat)
    ensures forall s :: SetTorque(s, true) !in RestoreCalls(false, hasRight, fails, base)
  {
  }

  // ---------------------------------------------------------------- responses

  /** The `status` field of the control-plane responses. */
  datatype Status = NotLaunched | AlreadyActive | NotActive | Stopped

  datatype ApiResponse = ApiResponse(status: Status, code: int)

  /** HTTP status code each answer is sent with. */
  function CodeOf(s: Status): (c: int)
    ensures c == 400 <==> s == NotLaunched || s == NotActive
    ensures c == 200 <==> s == AlreadyActive || s == Stopped
  {
    match s
    case NotLaunched => 400
    case AlreadyActive => 200
    case NotActive => 400
    case Stopped => 200
  }
}
