# Intervention controller, in Dafny

This project models the core of a robot "intervention" system. Its four parts are:

- **The agent process's intervention controller** (`agent/experiments/run_robots.py`):
  - the background worker that moves the right arm to a start pose, switches it to gravity compensation and then streams joint states, over a WebRTC DataChannel when one is open and over HTTP POST otherwise;
  - `start_intervention`, `stop_intervention`, `cleanup` and the WebRTC bookkeeping;
  - the HTTP endpoints `POST /intervene` and `DELETE /intervene`.
- **The composite agents** (`agent/gello/agents/agent.py`):
  - `DummyAgent`, which acts with zeros;
  - `BimanualAgent`, which splits every observation vector into halves, asks the left and the right agent, and concatenates their answers.
- **The UI-side receiver** (`base.py`):
  - `POST /client/intervene`, which acknowledges JSON bodies and answers WebRTC offers;
  - the registry of live peer connections;
  - the DataChannel message handler.
- **The supervisor** (`start.go`):
  - it starts the agent and the UI in their own process groups;
  - it waits for the first child to exit or for a signal;
  - it derives the exit code and terminates both groups exactly once, with TERM and then KILL.

Every state the source mutates is a class:

- `Intervention.InterventionController` holds the globals of `run_robots.py`;
- `Receiver.PeerRegistry` holds `_pcs`;
- `Supervisor.Launcher` holds the kill trace and the `sync.Once`.

The pure parts are datatypes and functions. Their properties are proved as lemmas.

Threads are modelled as a map from thread ids to phases:

- a worker is `Fresh`, `Looping(counter)`, `Exiting` or `Finished`;
- `WorkerStep` runs one phase of `_intervention_loop`;
- `thread.join(timeout=2)` becomes `Join(t, budget)`, in which the thread takes at most `budget` steps.

Arm commands and the composite `act` raise according to oracles:

- `fails(i)` decides whether the i-th arm command raises;
- `armAct` decides what each side's `act` returns;
- `clock(i)` gives `time.time()` for the i-th emission (samples that send nothing do not advance it).

Arm commands are logged in `calls` and messages sent in `outbox`. `json.loads`, `urlparse`/`urlunparse`, the session-description check, the SDP negotiation and `kill(2)`'s errno are also inputs.

The model follows the code as written, including these behaviours:

- The robot is built with `agent_left=None` (`run_robots.py:141-144`).
  - The composite `act` therefore raises `AttributeError` on every sample, so a worker leaves its loop at the first sample.
  - `move_to_position` raises before it moves anything.
  - The `finally` block's torque restore raises at the left arm and never restores the right arm's torque, so a stop leaves the right arm in gravity compensation (`ControllerScenarios.StopLeavesRightArmLimp`).
- `POST /intervene` answers `already_active` with status 200 even after it has just started the worker (`run_robots.py:510-512`).
- A start with no usable `streamAddress`, or whose negotiation fails, keeps the previous `webrtc_dc` (`run_robots.py:395-397` and `502-508`). An old channel that is still open therefore stays the preferred transport of the new worker (`run_robots.py:249`, `ControllerScenarios.RestartKeepsOpenChannel`).
- The HTTP fallback body carries `joint_states` only, with no `timestamp` (`run_robots.py:256`).
- `stop_intervention` forgets a worker that is still alive after its 2-second join (`run_robots.py:315-320`).
  - A later start can then run a second worker beside it (`ControllerScenarios.TimedOutStopLeavesTwoWorkers`).
  - A start-up sequence that finishes after the stop sets `currently_intervening` again (`ControllerScenarios.LateStartUpSetsTheFlagAgain`).
- The DataChannel `open` and `close` handlers assign a local `webrtc_connected`, so they never change the global (`run_robots.py:351-359`).
- The bimanual `move_to_position` moves the left arm first and the right arm second (`agent.py:56-57`).

## Model

| member | source | states |
|---|---|---|
| Agents.DummyAct | agent/gello/agents/agent.py:33-34 | the action has exactly `num_dofs` entries and every one is zero, whatever the observation |
| Agents.SplitObservation | agent/gello/agents/agent.py:43-50 | it succeeds iff every observation vector has even length; otherwise the error is an AssertionError naming a key with an odd-length vector; on success each key's halves are the first and second half of that vector |
| Agents.HalvesReconstruct | agent/gello/agents/agent.py:45-50 | both halves have the observation's keys, equal lengths, and concatenate back to the original vector |
| Agents.EmptyObservationHalves | agent/gello/agents/agent.py:43-50 | the empty observation `act({})` splits into two empty observations without raising |
| Agents.Concat | agent/gello/agents/agent.py:51-53 | the result is the left action followed by the right one; a missing left or right agent raises AttributeError (the left one first), and an arm that raises makes the call raise with that arm's own error |
| Agents.BimanualAct | agent/gello/agents/agent.py:42-53 | an odd-length vector raises AssertionError before either agent is asked; otherwise the result is the concatenation of the two agents' answers on the two halves |
| Agents.DummiesCompose | agent/gello/agents/agent.py:29-53 | two dummy agents of n and m dofs compose into a dummy of n + m dofs |
| Agents.MoveToPosition | agent/gello/agents/agent.py:55-58 | the left arm moves first, to the first `num_dofs` entries of the position, and the right arm to the rest, the two targets making up the position; the right arm is asked iff the left arm exists and its move returned and the right arm exists; it returns True exactly when both moves happen |
| InterventionPolicy.StripTrimsSpaces | agent/experiments/run_robots.py:481 | `strip()` returns a contiguous slice with no whitespace at either end, and is empty exactly when the input is all whitespace |
| InterventionPolicy.StripIdempotent | agent/experiments/run_robots.py:481 | stripping twice is stripping once |
| InterventionPolicy.StreamAddress | agent/experiments/run_robots.py:479-483 | the stripped `streamAddress` when the body is an object with a string there, and the empty address otherwise |
| InterventionPolicy.WithScheme | agent/experiments/run_robots.py:491 | the address that is parsed always contains `://`; an address that has one is kept; otherwise `http://` is prepended |
| InterventionPolicy.EndpointFor | agent/experiments/run_robots.py:487-508 | an endpoint is set iff the address is non-empty and parses; it is the parsed URL with path `/client/intervene` and with params, query and fragment cleared |
| InterventionPolicy.EndpointKeepsOnlyOrigin | agent/experiments/run_robots.py:491-494 | two addresses whose parses agree on scheme and network location give the same endpoint: path, params, query and fragment never reach it |
| InterventionPolicy.WebrtcSendJson | agent/experiments/run_robots.py:43-58 | a message is sent iff the asyncio loop and the channel exist and the channel is open, and what is sent is the payload itself |
| InterventionPolicy.Transmit | agent/experiments/run_robots.py:248-267 | with an open channel the sample goes over the channel (joint states and timestamp), provided `_webrtc_send_json` finds the asyncio loop; otherwise it is POSTed (joint states only) iff an endpoint is configured |
| InterventionPolicy.EmissionShape | agent/experiments/run_robots.py:249-262 | whichever transport is used, the message carries the sample as the same `joint_states` array, and it carries a `timestamp` exactly when it goes over the channel |
| InterventionPolicy.RightStartPose | agent/experiments/run_robots.py:220-223 | the right arm's target is the last seven entries of the fourteen-entry start pose |
| InterventionPolicy.PreambleCalls | agent/experiments/run_robots.py:214-234 | the start-up issues right torque on, the move to the start pose and right torque off, in that order, and stops right after the first command that raises (one, two or three commands); it completes iff there is a right arm and none raises |
| InterventionPolicy.RestoreCalls | agent/experiments/run_robots.py:273-279 | the restore tries the left arm and then the right; it issues nothing without a left arm and re-enables the right arm only when the left restore succeeded |
| InterventionPolicy.NoLeftArmNoRestore | agent/experiments/run_robots.py:141-144 | with `agent_left=None` no arm ever has its torque re-enabled on exit |
| InterventionPolicy.CodeOf | agent/experiments/run_robots.py:469-525 | the HTTP status is 400 for `not_launched` and `not_active`, and 200 for `already_active` and `stopped` |
| Intervention.InterventionController.constructor | agent/experiments/run_robots.py:28-68 | the globals at import time: no worker, stop event clear, no endpoint, no connection, nothing issued |
| Intervention.InterventionController.IsActive | agent/experiments/run_robots.py:435-436 | active iff a worker is recorded and that worker is alive |
| Intervention.InterventionController.AtMostOneWorker | agent/experiments/run_robots.py:284-300 | in the controller's invariant, every live worker is the recorded one or one that a stop left behind |
| Intervention.InterventionController.StartIntervention | agent/experiments/run_robots.py:284-300 | it starts iff no recorded worker is alive; a start clears the stop event, records a fresh worker and appends it to `active_threads`; otherwise nothing changes |
| Intervention.InterventionController.StopIntervention | agent/experiments/run_robots.py:303-321 | it clears `currently_intervening`, sets the stop event and forgets the worker; a worker still alive after its join is left behind and still running; only the joined worker steps, every other thread keeps its phase; with a zero budget nothing else changes; the joined worker logs only worker commands, sends nothing when there is no open channel and no endpoint, and, with no left arm and past its start-up, switches no torque on |
| Intervention.InterventionController.Join | agent/experiments/run_robots.py:317 | the result says whether the thread is still alive; other threads keep their phase; a finished thread stays finished; the logs only grow, with worker commands only; nothing is sent when there is no open channel and no endpoint; with no left arm a worker past its start-up switches no torque on |
| Intervention.InterventionController.ActOnEmpty | agent/experiments/run_robots.py:243 | `agent.act({})` gives the composite outcome on two empty halves |
| Intervention.InterventionController.Emitted | agent/experiments/run_robots.py:248-267 | a sample produces at most one message; while the channel is open it is always the channel message with joint states and timestamp, since a channel never exists without its asyncio loop; otherwise it is one HTTP post iff an endpoint is set |
| Intervention.InterventionController.WorkerStep | agent/experiments/run_robots.py:204-281 | one step of a live worker keeps the invariant and changes no other thread; from the fresh phase it finishes at once without a launch, else issues `PreambleCalls` and loops iff they succeed; in the loop it exits when stopped, else logs one `act` and either exits on a raise or emits `Emitted` and advances the counter; from `finally` it issues `RestoreCalls`, clears `currently_intervening` and finishes; every command is a worker command, nothing is sent with no open channel and no endpoint, and torque once switched off is not switched on again in the start-up, nor at all later with no left arm |
| Intervention.InterventionController.Preamble | agent/experiments/run_robots.py:208-235 | without a launch the worker finishes at once with no `finally`; otherwise the start-up commands are issued, and `currently_intervening` is set exactly when all succeed |
| Intervention.InterventionController.Iterate | agent/experiments/run_robots.py:242-269 | the loop exits when the stop event is set or `currently_intervening` is clear, and otherwise samples once |
| Intervention.InterventionController.Sample | agent/experiments/run_robots.py:243-267 | `act` is logged; a raising `act` leaves for `finally` and sends nothing; a returned action is transmitted by `Transmit` and the counter advances |
| Intervention.InterventionController.Finally | agent/experiments/run_robots.py:271-281 | it issues the torque restore of `RestoreCalls`, clears `currently_intervening` and finishes the worker, sending nothing |
| Intervention.InterventionController.ChannelStateChanged | agent/experiments/run_robots.py:351-359 | an existing channel takes the new ready state; `webrtc_connected` is not touched |
| Intervention.InterventionController.StartWebrtcConnection | agent/experiments/run_robots.py:380-397 | without an endpoint nothing changes; otherwise the loop exists, and the connection and channel are recorded iff negotiation succeeded |
| Intervention.InterventionController.StopWebrtcConnection | agent/experiments/run_robots.py:400-419 | afterwards there is no connection and no channel, and the flag is clear |
| Intervention.InterventionController.ConfigureEndpoint | agent/experiments/run_robots.py:487-508 | the endpoint and the tracked address are set together, or cleared together; a connection is attempted iff the endpoint is non-empty; without one, or when negotiation fails, the previous connection and channel stay |
| Intervention.InterventionController.ApiInterveneStart | agent/experiments/run_robots.py:469-512 | without a launch it answers 400 and changes nothing; with a live worker it answers `already_active` and changes nothing; otherwise it sets the endpoint from `StreamAddress` and `EndpointFor`, starts a new worker, and still answers `already_active`; with no endpoint or a failed negotiation the previous connection and channel stay |
| Intervention.InterventionController.Launch | agent/experiments/run_robots.py:487-510 | after the endpoint is configured as in `ConfigureEndpoint`, a fresh worker is recorded, registered and started |
| Intervention.InterventionController.ApiInterveneStop | agent/experiments/run_robots.py:515-525 | with no live worker it answers 400 `not_active` and changes nothing; otherwise it closes the WebRTC connection before stopping the worker, so every sample sent during the join is an HTTP post and none is sent without an endpoint; it leaves the other threads as they were, logs only worker commands, and answers 200 `stopped`; with no left arm, a worker past its start-up switches no torque on while it is joined |
| Intervention.InterventionController.Cleanup | agent/experiments/run_robots.py:72-98 | the body runs at most once, and a second call changes nothing; it first closes the right arm, and completes iff that close succeeds; it then joins the threads of `active_threads`, so that finished threads stay finished, a thread already in its `finally` block finishes when its join has a budget, only worker commands follow the close, and nothing is sent with no open channel and no endpoint |
| ControllerScenarios.TimedOutStopLeavesTwoWorkers | agent/experiments/run_robots.py:303-321 | after a start, a stop whose join times out, and a second start, two workers are alive |
| ControllerScenarios.LateStartUpSetsTheFlagAgain | agent/experiments/run_robots.py:214-234 | a start-up that completes after the stop sets `currently_intervening` although the stop event is set and no worker is recorded |
| ControllerScenarios.RestartKeepsOpenChannel | agent/experiments/run_robots.py:487-508 | after a start that opened a channel and a worker that died at its first `act`, a start with no `streamAddress` clears the endpoint but leaves the channel open |
| ControllerScenarios.StopLeavesRightArmLimp | agent/experiments/run_robots.py:271-321 | with no left arm, a stop after the start-up has switched the right arm's torque off leaves it off: no later command switches torque on |
| Receiver.RequestData | base.py:77-81 | an empty body and an unparsable body both read as `{}`; otherwise the parsed value |
| Receiver.Intervene | base.py:71-121 | a non-offer is acknowledged with `{"status": "ok"}`; an offer opens a connection iff its description is valid, and otherwise gets 400 `invalid sdp payload`; an opened connection is closed, with 500 `sdp negotiation failed`, exactly when negotiation fails, and otherwise the answer is 200 with the local description |
| Receiver.UnparsableBodiesAreAcknowledged | base.py:76-81 | empty and non-JSON bodies are acknowledged and open no connection |
| Receiver.FallbackPostIsAcknowledged | base.py:119-121 | the controller's HTTP fallback body is acknowledged and opens no connection |
| Receiver.PeerRegistry.constructor | base.py:10 | the registry starts empty |
| Receiver.PeerRegistry.HandleRequest | base.py:84-117 | the reply is `Intervene`'s reply; an accepted offer adds a new connection to `_pcs`; a failed negotiation closes it and leaves it registered |
| Receiver.PeerRegistry.ConnectionStateChanged | base.py:95-102 | a closed, failed or disconnected connection is closed and removed from `_pcs`; any other state changes nothing |
| Receiver.Len | base.py:32 | `len` raises exactly on null, booleans and numbers, and is the length of a string, the number of items of an array and the number of keys of an object |
| Receiver.JointStatesCount | base.py:32 | a false `joint_states` counts as the empty list; a true one has its own length |
| Receiver.OnMessage | base.py:19-39 | a non-JSON message, or one whose `joint_states` has no length, is logged as non-JSON; an object with `joint_states` is telemetry with that count, and with a latency iff its timestamp is a number; anything else is logged generically |
| Receiver.ChannelSampleIsTelemetry | base.py:24-32 | a DataChannel sample of the controller is telemetry with one entry per joint and with a latency |
| Receiver.EmptyJointStatesCountZero | base.py:32-35 | a `joint_states` that is null or empty is reported with length 0 |
| Supervisor.TerminateProcessGroup | start.go:129-138 | a non-positive pid is refused without a kill; otherwise the group is signalled first, and the pid directly only when that fails; the error is nil iff one kill succeeded |
| Supervisor.ExitStatus | start.go:143-144 | the exit status byte of a process that exited, and -1 otherwise |
| Supervisor.FindExitError | start.go:141-142 | an ExitError at the head of the chain is found with its wait status, and a plain error finds nothing; the walk through wrapped errors is the body's, and `WrappingKeepsExitCode` states its effect |
| Supervisor.ExtractExitCode | start.go:140-148 | the code lies in -1..255; it is the wait status of the ExitError when there is one with a wait status, and 1 otherwise |
| Supervisor.WrappingKeepsExitCode | start.go:142 | wrapping an error any number of times does not change its exit code |
| Supervisor.ExitCodeFor | start.go:87-110 | a child that exits cleanly gives 0, and one that fails gives its extracted code; SIGINT gives 130 and any other signal 1 |
| Supervisor.ReasonFor | start.go:88-103 | the reason names the event that ended the wait, and a signal reason carries that signal |
| Supervisor.CleanupTermsBeforeKills | start.go:60-73 | cleanup keeps the earlier trace and sends only TERM and KILL, with no TERM after a KILL; with valid pids it signals the agent group and the UI group with TERM, then KILL, in that order |
| Supervisor.Launcher.constructor | start.go:59 | no kill has been sent and the cleanup has not run |
| Supervisor.Launcher.Terminate | start.go:129-138 | the kills of `TerminateProcessGroup` are appended to the trace and its error is returned |
| Supervisor.Launcher.Cleanup | start.go:59-73 | the first call appends the four-step cleanup trace; every later call changes nothing |
| Supervisor.Launcher.Run | start.go:15-117 | with no home directory or agent it exits 1 and kills nothing; if the UI cannot start it kills the agent group (TERM, then KILL) and exits 1; otherwise it exits with `ExitCodeFor` the first event, which is a signal `signal.Notify` forwards (never KILL) or the agent's or the UI's exit, after exactly one cleanup |

## Left out

- `stream.py` is not part of this model.
- `_webrtc_negotiate` and `_ensure_webrtc_loop`, the aiortc offer/answer exchange, are left out. Only their outcome is modelled, as the `negotiated` input (the channel's state, or none when negotiation raised or timed out).
- Real threads, `intervention_lock`, `sleep` and wall-clock timeouts are left out.
  - Operations run one at a time.
  - A join's 2-second timeout is a step budget.
- `time.time()` for the payload timestamp is the `clock` oracle. Floats are `real`.
- The receiver's latency arithmetic is left out; the model keeps only whether a latency is logged.
- Receiver.OnMessage: JSON numbers are reals, so integers and floats are not told apart. An integer `timestamp` of 2**1024 or more makes `float(sent_ts)` raise OverflowError in the source (base.py:30), and the message is then logged as non-JSON (base.py:38-39). The model logs it as telemetry with a latency.
- `json.dumps`, `json.loads`, `urlparse`, `urlunparse`, `bytes.decode`, `RTCSessionDescription` and the SDP negotiation in `base.py` are left out. Each is an oracle passed in as a parameter.
- Logging and `print` are left out. The `counter % 1000` print in the loop is left out; only the counter is kept.
- These parts of `run_robots.py` are left out:
  - `wait_for_server_ready`;
  - `enqueue_intervention_task` and the task queue, which nothing dequeues;
  - the signal handlers;
  - `api_launch`, `api_intervene_status` and `health`;
  - `stop_intervene`;
  - the module bootstrap beyond which arms exist.
- `intervene` is folded into `ApiInterveneStart`, because it only calls `start_intervention` and logs.
- `active_servers` in `cleanup` is the empty list and is never appended to, so its loop is left out.
- InterventionPolicy.Transmit: `_do_send` re-checks `readyState` on the loop thread. The model takes it to be the state seen when the send was scheduled. A close that lands between the two is not modelled.
- Intervention.InterventionController.ChannelStateChanged: which aiortc events fire, and when, is the caller's choice.
- `base.py`'s track and frame logging, `create_app` and the aiohttp server are left out.
- `start.go`'s `waitWithTimeout`, the sleeps, the goroutines and the `select` are left out. The first event is an input to `Launcher.Run`.
- These parts of `start.go` are left out: the path building, the `exec.Command` settings, and the signal registration.
- Supervisor.ExitStatus: Go takes the exit status from the wait word. The model represents it as a natural number stored with an `exited` flag, and takes it modulo 256.
- Agents.SplitObservation: Python raises at the first odd-length key in the dict's insertion order. The observation is a map here, so that order is lost, and the key named in the error is any odd-length one.
- Agents.MoveToPosition: the source calls `agent_left.num_dofs()`. The model takes the left agent's dof count as a number, or none when the left agent is missing. A `DummyAgent`, whose `num_dofs` is an integer attribute, would raise there; that case is not modelled.
