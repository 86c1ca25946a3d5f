/** The intervention controller of agent/experiments/run_robots.py: the module globals
    that the control-plane handlers and the worker thread share, the start/stop state
    machine, the worker body, the WebRTC bookkeeping and the exit-time cleanup.

    Threads are modelled without concurrency. A thread is an identifier whose `phase`
    says where its body is: not started yet (`Fresh`), in the polling loop, in the
    `finally` block (`Exiting`), or done. A thread is alive until it is done. Each
    worker step is one method, so the steps of different threads and the handlers
    can be interleaved in any order by the caller. `Join(t, budget)` lets thread
    `t` make up to `budget` steps, standing for how far it gets before the 2 s join
    timeout.

    The robot is an oracle. `fails(i)` says whether the arm command at position `i`
    of the command log raises. `armAct(side, i)` is what that arm's `act` answers for
    the composite `act` call logged at position `i`. `clock(n)` is `time.time()` for
    the `n`-th emitted sample. */
module Intervention {
  import opened Json
  import opened Agents
  import opened InterventionPolicy

  type Tid = nat

  /** Where a thread's body is. */
  datatype Phase = Fresh | Looping(counter: nat) | Exiting | Finished

  /** The globals `start_intervention` and `stop_intervention` update. */
  datatype SessionView = SessionView(thread: Option<Tid>, stopEvent: bool, activeThreads: seq<Tid>, nextTid: Tid)

  /** The globals of the WebRTC client side and the telemetry endpoint. */
  datatype LinkView = LinkView(endpoint: Option<string>, tracking: Option<string>, pcPresent: bool,
                               dc: Option<ReadyState>, connected: bool, loopPresent: bool)

  /** The invariant of the thread bookkeeping, on the values of the globals. */
  ghost predicate Coherent(phase: map<Tid, Phase>, nextTid: Tid, activeThreads: seq<Tid>,
                           thread: Option<Tid>, orphaned: set<Tid>)
  {
    && (forall t :: t in phase ==> t < nextTid)
    && (forall i :: 0 <= i < |activeThreads| ==> activeThreads[i] in phase)
    && (forall t :: t in phase ==> t in activeThreads)
    && (thread.Some? ==> thread.value in phase)
    && orphaned <= phase.Keys
    && (forall t :: t in phase && phase[t] != Finished ==> thread == Some(t) || t in orphaned)
  }

  /** A step of a live worker keeps the invariant, whatever phase it moves to. */
  lemma StepKeepsCoherent(phase: map<Tid, Phase>, nextTid: Tid, activeThreads: seq<Tid>,
                          thread: Option<Tid>, orphaned: set<Tid>, t: Tid, p: Phase)
    requires Coherent(phase, nextTid, activeThreads, thread, orphaned)
    requires t in phase && phase[t] != Finished
    ensures Coherent(phase[t := p], nextTid, activeThreads, thread, orphaned)
  {
  }

  /** Forgetting the recorded thread keeps the invariant once the threads `released`, which
      include the recorded one if it is alive, count as released. */
  lemma ReleaseKeepsCoherent(phase: map<Tid, Phase>, nextTid: Tid, activeThreads: seq<Tid>,
                             thread: Option<Tid>, orphaned: set<Tid>, released: set<Tid>)
    requires Coherent(phase, nextTid, activeThreads, thread, orphaned)
    requires released <= phase.Keys
    requires thread.Some? && phase[thread.value] != Finished ==> thread.value in released
    ensures Coherent(phase, nextTid, activeThreads, None, orphaned + released)
  {
  }

  /** Once the right arm is switched to gravity compensation in `log`, no later command of
      `log` switches torque back on. */
  ghost predicate TorqueStaysOff(log: seq<ArmCall>) {
    forall i, j :: 0 <= i < j < |log| && log[i] == SetTorque(Right, false) ==>
      !(log[j].SetTorque? && log[j].enabled)
  }

  /** From `before` to `after` no thread appeared or vanished, a finished thread stayed
      finished, and one in its `finally` block went no further back. */
  ghost predicate Advanced(before: map<Tid, Phase>, after: map<Tid, Phase>) {
    && after.Keys == before.Keys
    && (forall t :: t in before && before[t] == Finished ==> after[t] == Finished)
    && (forall t :: t in before && before[t] == Exiting ==> after[t] == Exiting || after[t] == Finished)
  }

  /** `log` switches no torque on from position `from` on. */
  ghost predicate NoTorqueOnFrom(log: seq<ArmCall>, from: nat) {
    forall k :: from <= k < |log| ==> !(log[k].SetTorque? && log[k].enabled)
  }

  /** A log without torque-on commands from `from`, extended by one without them, has none. */
  lemma NoTorqueOnChain(prev: seq<ArmCall>, now: seq<ArmCall>, from: nat)
    requires prev <= now && from <= |prev|
    requires NoTorqueOnFrom(prev, from) && NoTorqueOnFrom(now, |prev|)
    ensures NoTorqueOnFrom(now, from)
  {
    forall k | from <= k < |now| ensures !(now[k].SetTorque? && now[k].enabled) {
      if k < |prev| {
        assert now[k] == prev[k];
      }
    }
  }

  lemma AdvancedTransitive(a: map<Tid, Phase>, b: map<Tid, Phase>, c: map<Tid, Phase>)
    requires Advanced(a, b) && Advanced(b, c)
    ensures Advanced(a, c)
  {
  }

  /** The first `n` threads of `ts` that were in their `finally` block in `before` and were
      joined with a budget have finished in `now`. */
  ghost predicate FinishedUpTo(before: map<Tid, Phase>, now: map<Tid, Phase>, ts: seq<Tid>,
                               budget: nat -> nat, n: nat)
  {
    && n <= |ts| && Advanced(before, now)
    && forall j :: 0 <= j < n && budget(j) > 0 && ts[j] in before && before[ts[j]] == Exiting ==>
         now[ts[j]] == Finished
  }

  /** A join of the `n`-th thread that keeps every thread from going back, and finishes that
      thread when it was in its `finally` block and had a budget, extends the progress. */
  lemma FinishedUpToNext(before: map<Tid, Phase>, mid: map<Tid, Phase>, now: map<Tid, Phase>,
                         ts: seq<Tid>, budget: nat -> nat, n: nat)
    requires FinishedUpTo(before, mid, ts, budget, n) && n < |ts| && Advanced(mid, now)
    requires budget(n) > 0 && ts[n] in mid && mid[ts[n]] == Exiting ==> now[ts[n]] == Finished
    ensures FinishedUpTo(before, now, ts, budget, n + 1)
  {
    AdvancedTransitive(before, mid, now);
  }

  class InterventionController {
    // Fixed at start-up.
    const launched: bool
    const hasLeft: bool     // `agent.agent_left is not None`
    const hasRight: bool    // `agent.agent_right is not None`
    const fails: nat -> bool
    const armAct: (Side, nat) -> Outcome<seq<real>>
    const clock: nat -> real

    // The module globals.
    var interventionThread: Option<Tid>
    var stopEvent: bool                 // `intervention_stop_event.is_set()`
    var currentlyIntervening: bool
    var activeThreads: seq<Tid>
    var endpoint: Option<string>        // `webrtc_intervene_endpoint`
    var tracking: Option<string>        // `curr_tracking_robot_webrtc`
    var pcPresent: bool                 // `webrtc_pc is not None`
    var dc: Option<ReadyState>          // `webrtc_dc` and its `readyState`
    var webrtcConnected: bool
    var loopPresent: bool               // `webrtc_loop is not None`
    var cleanupInProgress: bool

    // The threads and what reached the robot and the wire.
    var phase: map<Tid, Phase>
    var nextTid: Tid
    var calls: seq<ArmCall>
    var outbox: seq<Emission>

    /** Threads a stop released while they were still alive. */
    ghost var orphaned: set<Tid>

    predicate Alive(t: Tid)
      reads this`phase
    {
      t in phase && phase[t] != Finished
    }

    ghost function LiveWorkers(): set<Tid>
      reads this`phase
    {
      set t | t in phase && phase[t] != Finished
    }

    ghost function Session(): SessionView
      reads this`interventionThread, this`stopEvent, this`activeThreads, this`nextTid
    {
      SessionView(interventionThread, stopEvent, activeThreads, nextTid)
    }

    ghost function Link(): LinkView
      reads this`endpoint, this`tracking, this`pcPresent, this`dc, this`webrtcConnected, this`loopPresent
    {
      LinkView(endpoint, tracking, pcPresent, dc, webrtcConnected, loopPresent)
    }

    /** `webrtc_dc` is only ever assigned after `_ensure_webrtc_loop` has created the loop,
        and nothing resets `webrtc_loop`: a channel never exists without its loop. */
    predicate ChannelHasLoop()
      reads this`dc, this`loopPresent
    {
      dc.Some? ==> loopPresent
    }

    /** The arm commands a worker can issue: the start-up sequence on the right arm, the
        composite `act`, and the torque restore, which starts with the left arm. */
    predicate WorkerCommand(c: ArmCall) {
      match c
      case SetTorque(side, enabled) => if side == Left then enabled && hasLeft else hasRight
      case MoveArm(side, target) => side == Right && target == RightStartPose() && hasRight
      case ActCall => true
      case CloseArm(_) => false
    }

    /** Every command logged from position `from` on is a worker's. */
    ghost predicate WorkerCommandsFrom(from: nat)
      reads this`calls
    {
      forall k :: from <= k < |calls| ==> WorkerCommand(calls[k])
    }

    /** Worker commands logged from `from` up to the earlier log `prev`, followed by worker
        commands only, make a log of worker commands from `from` on. */
    lemma WorkerCommandsChain(prev: seq<ArmCall>, from: nat)
      requires prev <= calls && from <= |prev|
      requires forall k :: from <= k < |prev| ==> WorkerCommand(prev[k])
      requires WorkerCommandsFrom(|prev|)
      ensures WorkerCommandsFrom(from)
    {
      forall k | from <= k < |calls| ensures WorkerCommand(calls[k]) {
        if k < |prev| {
          assert calls[k] == prev[k];
        }
      }
    }

    /** No open channel and no endpoint: a sample has nowhere to go. */
    predicate Silent()
      reads this`dc, this`endpoint
    {
      dc != Some(Open) && !(endpoint.Some? && endpoint.value != "")
    }

    /** The threads started so far are all listed in `active_threads` (which only grows),
        every live thread is either the recorded one or one that a stop released, and a
        channel has its loop. */
    ghost predicate Valid()
      reads this`phase, this`nextTid, this`activeThreads, this`interventionThread, this`orphaned,
            this`dc, this`loopPresent
    {
      Coherent(phase, nextTid, activeThreads, interventionThread, orphaned) && ChannelHasLoop()
    }

    /** The state right after the module is imported. */
    constructor (launched: bool, hasLeft: bool, hasRight: bool, fails: nat -> bool,
                 armAct: (Side, nat) -> Outcome<seq<real>>, clock: nat -> real)
      ensures Valid()
      ensures this.launched == launched && this.hasLeft == hasLeft && this.hasRight == hasRight
      ensures this.fails == fails && this.armAct == armAct && this.clock == clock
      ensures Session() == SessionView(None, false, [], 0) && phase == map[] && orphaned == {}
      ensures Link() == LinkView(None, None, false, None, false, false)
      ensures !currentlyIntervening && !cleanupInProgress && calls == [] && outbox == []
    {
      this.launched, this.hasLeft, this.hasRight := launched, hasLeft, hasRight;
      this.fails, this.armAct, this.clock := fails, armAct, clock;
      interventionThread, stopEvent, currentlyIntervening := None, false, false;
      activeThreads, nextTid, phase := [], 0, map[];
      endpoint, tracking, pcPresent, dc, webrtcConnected, loopPresent := None, None, false, None, false, false;
      cleanupInProgress, calls, outbox := false, [], [];
      orphaned := {};
    }

    /** `is_intervention_active`: the recorded thread exists and is alive. */
    predicate IsActive(): (r: bool)
      reads this`interventionThread, this`phase
      ensures r <==> interventionThread.Some? && interventionThread.value in LiveWorkers()
    {
      interventionThread.Some? && Alive(interventionThread.value)
    }

    /** As long as no stop has released a live thread, at most one worker is alive, and it
        is the recorded one. */
    lemma AtMostOneWorker()
      requires Valid() && orphaned == {}
      ensures LiveWorkers() <= (if interventionThread.Some? then {interventionThread.value} else {})
    {
    }

    // ------------------------------------------------------------ start and stop

    /** `start_intervention`: refuses while the recorded thread is alive; otherwise clears the
        stop event and records one new thread, also appended to `active_threads`. */
    method StartIntervention() returns (started: bool)
      requires Valid()
      modifies this`stopEvent, this`nextTid, this`phase, this`interventionThread, this`activeThreads
      ensures Valid()
      ensures started <==> !old(IsActive())
      ensures !started ==> Session() == old(Session()) && phase == old(phase)
      ensures started ==>
        && interventionThread == Some(old(nextTid)) && !stopEvent
        && activeThreads == old(activeThreads) + [old(nextTid)]
        && nextTid == old(nextTid) + 1
        && old(nextTid) !in old(phase) && phase == old(phase)[old(nextTid) := Fresh]
    {
      if IsActive() {
        return false;
      }
      stopEvent := false;
      var t := nextTid;
      nextTid := nextTid + 1;
      phase := phase[t := Fresh];
      interventionThread := Some(t);
      activeThreads := activeThreads + [t];
      return true;
    }

    /** `stop_intervention`: clears `currently_intervening`, sets the stop event, joins a live
        recorded thread for its budget, and forgets the thread whether or not it stopped.
        Only a thread still alive after the join can set `currently_intervening` again. */
    method StopIntervention(budget: nat)
      requires Valid()
      modifies this`phase, this`calls, this`outbox, this`currentlyIntervening, this`stopEvent, this`interventionThread, this`orphaned
      ensures Valid()
      ensures stopEvent && interventionThread.None?
      ensures !old(IsActive()) ==>
        phase == old(phase) && calls == old(calls) && outbox == old(outbox) &&
        orphaned == old(orphaned) && !currentlyIntervening
      ensures old(IsActive()) ==>
        var t := old(interventionThread).value;
        orphaned == old(orphaned) + (if Alive(t) then {t} else {})
      ensures currentlyIntervening ==> old(IsActive()) && old(interventionThread).value in LiveWorkers()
      ensures budget == 0 ==> phase == old(phase) && calls == old(calls) && outbox == old(outbox) && !currentlyIntervening
      ensures phase.Keys == old(phase).Keys
      ensures forall u :: u in phase && Some(u) != old(interventionThread) ==> phase[u] == old(phase)[u]
      ensures old(calls) <= calls && old(outbox) <= outbox
      ensures old(dc) != Some(Open) ==> forall i :: |old(outbox)| <= i < |outbox| ==> outbox[i].HttpPost?
      ensures forall k :: |old(calls)| <= k < |calls| ==> WorkerCommand(calls[k])
      ensures Silent() ==> outbox == old(outbox)
      ensures !hasLeft && old(IsActive()) && old(phase)[old(interventionThread).value] != Fresh ==>
        NoTorqueOnFrom(calls, |old(calls)|)
    {
      currentlyIntervening := false;
      stopEvent := true;
      ghost var released: set<Tid> := {};
      if interventionThread.Some? && Alive(interventionThread.value) {
        var t := interventionThread.value;
        var alive := Join(t, budget);
        if alive {
          released := {t};
        }
      }
      ReleaseKeepsCoherent(phase, nextTid, activeThreads, interventionThread, orphaned, released);
      orphaned := orphaned + released;
      interventionThread := None;
    }

    /** `thread.join(timeout=2)`: thread `t` makes up to `budget` steps and the result says
        whether it is still alive. Nothing but the threads' own state changes. */
    method Join(t: Tid, budget: nat) returns (alive: bool)
      requires Valid() && t in phase
      modifies this`phase, this`calls, this`outbox, this`currentlyIntervening
      ensures Valid()
      ensures alive <==> Alive(t)
      ensures phase.Keys == old(phase).Keys
      ensures forall u :: u in phase && u != t ==> phase[u] == old(phase)[u]
      ensures old(phase)[t] == Finished ==> phase[t] == Finished
      ensures old(calls) <= calls && old(outbox) <= outbox
      ensures currentlyIntervening ==> old(currentlyIntervening) || (alive && phase[t] != Fresh)
      ensures old(dc) != Some(Open) ==> forall i :: |old(outbox)| <= i < |outbox| ==> outbox[i].HttpPost?
      ensures budget == 0 ==> phase == old(phase) && calls == old(calls) && outbox == old(outbox) &&
                              currentlyIntervening == old(currentlyIntervening)
      ensures budget > 0 && old(phase)[t] == Exiting ==> phase[t] == Finished
      ensures forall k :: |old(calls)| <= k < |calls| ==> WorkerCommand(calls[k])
      ensures Silent() ==> outbox == old(outbox)
      ensures !hasLeft && old(phase)[t] != Fresh ==> NoTorqueOnFrom(calls, |old(calls)|)
    {
      var i := 0;
      while i < budget && Alive(t)
        invariant 0 <= i <= budget
        invariant Valid() && t in phase
        invariant phase.Keys == old(phase).Keys
        invariant forall u :: u in phase && u != t ==> phase[u] == old(phase)[u]
        invariant old(phase)[t] == Finished ==> phase[t] == Finished
        invariant old(calls) <= calls && old(outbox) <= outbox
        invariant currentlyIntervening ==> old(currentlyIntervening) || (Alive(t) && phase[t] != Fresh)
        invariant old(dc) != Some(Open) ==> forall k :: |old(outbox)| <= k < |outbox| ==> outbox[k].HttpPost?
        invariant i == 0 ==> phase == old(phase) && calls == old(calls) && outbox == old(outbox) &&
                             currentlyIntervening == old(currentlyIntervening)
        invariant i > 0 && old(phase)[t] == Exiting ==> phase[t] == Finished
        invariant forall k :: |old(calls)| <= k < |calls| ==> WorkerCommand(calls[k])
        invariant Silent() ==> outbox == old(outbox)
        invariant phase[t] == Fresh ==> calls == old(calls)
        invariant old(phase)[t] != Fresh ==> phase[t] != Fresh
        invariant !hasLeft && old(phase)[t] != Fresh ==> NoTorqueOnFrom(calls, |old(calls)|)
        decreases budget - i
      {
        ghost var prev := calls;
        WorkerStep(t);
        if !hasLeft && old(phase)[t] != Fresh {
          NoTorqueOnChain(prev, calls, |old(calls)|);
        }
        i := i + 1;
      }
      alive := Alive(t);
    }

    // ------------------------------------------------------------ the worker

    /** One arm command: it is logged, and raises when the oracle says so. */
    method Issue(c: ArmCall) returns (raised: bool)
      modifies this`calls
      ensures calls == old(calls) + [c]
      ensures raised == fails(|old(calls)|)
    {
      raised := fails(|calls|);
      calls := calls + [c];
    }

    /** The arms as the composite agent sees them for the `act` call logged at position `k`. */
    function LeftArm(k: nat): Option<ArmAct> {
      var aa := armAct;
      if hasLeft then Some((o: Obs) => aa(Left, k)) else None
    }

    function RightArm(k: nat): Option<ArmAct> {
      var aa := armAct;
      if hasRight then Some((o: Obs) => aa(Right, k)) else None
    }

    /** What the composite `agent.act({})` logged at position `k` answers. */
    function ActOutcome(k: nat): Outcome<seq<real>> {
      Concat(LeftArm(k), RightArm(k), map[], map[])
    }

    /** `agent.act({})` on the composite agent. */
    method ActOnEmpty(k: nat) returns (r: Outcome<seq<real>>)
      ensures r == ActOutcome(k)
    {
      EmptyObservationHalves();
      r := BimanualAct(map[], LeftArm(k), RightArm(k));
    }

    /** What a loop iteration emits for the sample `states` when `n` samples went before.
        Since a channel always has its loop, an open channel always carries the sample. */
    function Emitted(states: seq<real>, n: nat): (r: seq<Emission>)
      reads this`dc, this`loopPresent, this`endpoint
      ensures |r| <= 1
      ensures dc != Some(Open) ==> forall i :: 0 <= i < |r| ==> r[i].HttpPost?
      ensures ChannelHasLoop() && dc == Some(Open) ==>
        r == [ChannelMessage(ChannelPayload(states, clock(n)))]
      ensures dc != Some(Open) ==> (|r| == 1 <==> endpoint.Some? && endpoint.value != "")
    {
      var e := Transmit(dc, loopPresent, endpoint, states, clock(n));
      if e.Some? then [e.value] else []
    }

    /** The steps of `_intervention_loop`, one per call. */
    method WorkerStep(t: Tid)
      requires Valid() && Alive(t)
      modifies this`phase, this`calls, this`outbox, this`currentlyIntervening
      ensures Valid()
      ensures phase.Keys == old(phase).Keys
      ensures forall u :: u in phase && u != t ==> phase[u] == old(phase)[u]
      ensures phase[t] != Fresh
      ensures phase[t] == Finished ==> (currentlyIntervening ==> old(currentlyIntervening) && old(phase)[t] == Fresh)
      ensures old(calls) <= calls && old(outbox) <= outbox
      ensures old(dc) != Some(Open) ==> forall i :: |old(outbox)| <= i < |outbox| ==> outbox[i].HttpPost?
      ensures old(phase)[t] == Fresh ==> outbox == old(outbox)
      ensures old(phase)[t] == Fresh && !launched ==>
        phase[t] == Finished && calls == old(calls) && currentlyIntervening == old(currentlyIntervening)
      ensures old(phase)[t] == Fresh && launched ==>
        var r := PreambleCalls(hasRight, fails, |old(calls)|);
        && calls == old(calls) + r.0
        && phase[t] == (if r.1 then Looping(0) else Exiting)
        && currentlyIntervening == (r.1 || old(currentlyIntervening))
      ensures old(phase)[t].Looping? ==> currentlyIntervening == old(currentlyIntervening)
      ensures old(phase)[t].Looping? && (old(stopEvent) || !old(currentlyIntervening)) ==>
        phase[t] == Exiting && calls == old(calls) && outbox == old(outbox)
      ensures old(phase)[t].Looping? && !old(stopEvent) && old(currentlyIntervening) ==>
        var k := |old(calls)|;
        && calls == old(calls) + [ActCall]
        && (ActOutcome(k).Raised? ==> phase[t] == Exiting && outbox == old(outbox))
        && (ActOutcome(k).Returned? ==>
              phase[t] == Looping(old(phase)[t].counter + 1) &&
              outbox == old(outbox + Emitted(ActOutcome(k).value, |outbox|)))
      ensures old(phase)[t] == Exiting ==>
        && phase[t] == Finished && !currentlyIntervening && outbox == old(outbox)
        && calls == old(calls) + RestoreCalls(hasLeft, hasRight, fails, |old(calls)|)
      ensures forall i :: |old(calls)| <= i < |calls| ==> WorkerCommand(calls[i])
      ensures Silent() ==> outbox == old(outbox)
      ensures old(phase)[t] != Fresh && !hasLeft ==>
        NoTorqueOnFrom(calls, |old(calls)|)
      ensures old(phase)[t] == Fresh ==> TorqueStaysOff(calls[|old(calls)|..])
    {
      match phase[t] {
        case Fresh => Preamble(t);
        case Looping(_) => Iterate(t);
        case Exiting => Finally(t);
      }
      StepKeepsCoherent(old(phase), nextTid, activeThreads, interventionThread, orphaned, t, phase[t]);
    }

    /** The worker's start: without a launch it returns at once and touches nothing (the
        check precedes the `try`, so no `finally` runs); otherwise it issues right torque on,
        the move of the right arm to `arr[7:]` and right torque off, and only then sets
        `currently_intervening`. A command that raises sends the thread to `finally`. */
    method Preamble(t: Tid)
      requires t in phase && phase[t] == Fresh
      modifies this`phase, this`calls, this`outbox, this`currentlyIntervening
      ensures outbox == old(outbox)
      ensures !launched ==>
        phase == old(phase)[t := Finished] && calls == old(calls) &&
        currentlyIntervening == old(currentlyIntervening)
      ensures launched ==>
        var r := PreambleCalls(hasRight, fails, |old(calls)|);
        && calls == old(calls) + r.0
        && (r.1 ==> phase == old(phase)[t := Looping(0)] && currentlyIntervening)
        && (!r.1 ==> phase == old(phase)[t := Exiting] && currentlyIntervening == old(currentlyIntervening))
      ensures forall i :: |old(calls)| <= i < |calls| ==> WorkerCommand(calls[i])
      ensures TorqueStaysOff(calls[|old(calls)|..])
    {
      if !launched {
        phase := phase[t := Finished];
        return;
      }
      // `agent.agent_right` is None: AttributeError before any command
      var log, next := calls, Exiting;
      if hasRight {
        var raised := fails(|log|);
        log := log + [SetTorque(Right, true)];
        if !raised {
          raised := fails(|log|);
          log := log + [MoveArm(Right, RightStartPose())];
          if !raised {
            raised := fails(|log|);
            log := log + [SetTorque(Right, false)];
            if !raised {
              next := Looping(0);
            }
          }
        }
      }
      calls := log;
      if next.Looping? {
        currentlyIntervening := true;
      }
      phase := phase[t := next];
    }

    /** One pass of the polling loop. It leaves for `finally` unless the stop event is clear
        and `currently_intervening` holds; otherwise it takes one sample. */
    method Iterate(t: Tid)
      requires t in phase && phase[t].Looping?
      modifies this`phase, this`calls, this`outbox, this`currentlyIntervening
      ensures currentlyIntervening == old(currentlyIntervening)
      ensures !(!stopEvent && currentlyIntervening) ==>
        phase == old(phase)[t := Exiting] && calls == old(calls) && outbox == old(outbox)
      ensures !stopEvent && currentlyIntervening ==>
        var k := |old(calls)|;
        && calls == old(calls) + [ActCall]
        && (ActOutcome(k).Raised? ==> phase == old(phase)[t := Exiting] && outbox == old(outbox))
        && (ActOutcome(k).Returned? ==>
              && phase == old(phase)[t := Looping(old(phase)[t].counter + 1)]
              && outbox == old(outbox + Emitted(ActOutcome(k).value, |outbox|)))
      ensures forall i :: |old(calls)| <= i < |calls| ==> WorkerCommand(calls[i])
      ensures NoTorqueOnFrom(calls, |old(calls)|)
      ensures Silent() ==> outbox == old(outbox)
    {
      if stopEvent || !currentlyIntervening {
        phase := phase[t := Exiting];
      } else {
        Sample(t);
      }
    }

    /** The body of the polling loop: `agent.act({})` once; if it raises, the exception
        reaches the outer `except` and the thread goes to `finally`; otherwise the sample
        is emitted on the transport `Transmit` picks. Transport errors are swallowed. */
    method Sample(t: Tid)
      requires t in phase && phase[t].Looping?
      modifies this`phase, this`calls, this`outbox
      ensures calls == old(calls) + [ActCall]
      ensures ActOutcome(|old(calls)|).Raised? ==> phase == old(phase)[t := Exiting] && outbox == old(outbox)
      ensures ActOutcome(|old(calls)|).Returned? ==>
        && phase == old(phase)[t := Looping(old(phase)[t].counter + 1)]
        && outbox == old(outbox + Emitted(ActOutcome(|calls|).value, |outbox|))
      ensures Silent() ==> outbox == old(outbox)
    {
      var k := |calls|;
      calls := calls + [ActCall];
      var reading := ActOnEmpty(k);
      var next := if reading.Returned? then Looping(phase[t].counter + 1) else Exiting;
      if reading.Returned? {
        outbox := outbox + Emitted(reading.value, |outbox|);
      }
      phase := phase[t := next];
    }

    /** The `finally` block: torque back on for the left arm, then the right arm, in one `try`,
        then `currently_intervening` cleared and the thread done. */
    method Finally(t: Tid)
      requires t in phase && phase[t] == Exiting
      modifies this`phase, this`calls, this`outbox, this`currentlyIntervening
      ensures outbox == old(outbox)
      ensures calls == old(calls) + RestoreCalls(hasLeft, hasRight, fails, |old(calls)|)
      ensures !currentlyIntervening && phase == old(phase)[t := Finished]
      ensures forall i :: |old(calls)| <= i < |calls| ==> WorkerCommand(calls[i])
      ensures !hasLeft ==> calls == old(calls)
    {
      if hasLeft {
        var raised := Issue(SetTorque(Left, true));
        if !raised && hasRight {
          raised := Issue(SetTorque(Right, true));
        }
      }
      currentlyIntervening := false;
      phase := phase[t := Finished];
    }

    // ------------------------------------------------------------ WebRTC bookkeeping

    /** The channel reports a new `readyState` (its open and close events). */
    method ChannelStateChanged(s: ReadyState)
      requires ChannelHasLoop()
      modifies this`dc
      ensures ChannelHasLoop()
      ensures dc == if old(dc).Some? then Some(s) else None
    {
      if dc.Some? {
        dc := Some(s);
      }
    }

    /** The effect of `start_webrtc_connection` on the globals: nothing without an endpoint;
        otherwise the asyncio loop exists, and `negotiated` (the channel's state, `None` when
        negotiation failed or timed out) decides whether a connection is recorded. */
    method StartWebrtcConnection(negotiated: Option<ReadyState>)
      requires ChannelHasLoop()
      modifies this`loopPresent, this`pcPresent, this`dc, this`webrtcConnected
      ensures ChannelHasLoop()
      ensures !(endpoint.Some? && endpoint.value != "") ==> Link() == old(Link())
      ensures endpoint.Some? && endpoint.value != "" ==>
        && loopPresent && webrtcConnected == negotiated.Some?
        && (negotiated.Some? ==> pcPresent && dc == negotiated)
        && (negotiated.None? ==> pcPresent == old(pcPresent) && dc == old(dc))
    {
      if !(endpoint.Some? && endpoint.value != "") {
        return;
      }
      loopPresent := true;
      match negotiated
      case Some(s) =>
        pcPresent, dc, webrtcConnected := true, Some(s), true;
      case None =>
        webrtcConnected := false;
    }

    /** `stop_webrtc_connection`: whatever closing raises, the connection handles are dropped. */
    method StopWebrtcConnection()
      modifies this`pcPresent, this`dc, this`webrtcConnected
      ensures !pcPresent && dc.None? && !webrtcConnected
      ensures ChannelHasLoop()
    {
      pcPresent, dc, webrtcConnected := false, None, false;
    }

    // ------------------------------------------------------------ HTTP handlers

    /** The part of `POST /intervene` that follows the parse of `streamAddress`: a usable
        address (`target`, parsed from the stripped address `sa`) sets the endpoint and the
        tracked address and starts negotiation; otherwise both are cleared. */
    method ConfigureEndpoint(target: Option<string>, sa: string, negotiated: Option<ReadyState>)
      requires ChannelHasLoop()
      modifies this`endpoint, this`tracking, this`loopPresent, this`pcPresent, this`dc, this`webrtcConnected
      ensures ChannelHasLoop()
      ensures endpoint == target && tracking == (if target.Some? then Some(sa) else None)
      ensures endpoint.Some? && endpoint.value != "" ==>
        loopPresent && webrtcConnected == negotiated.Some? && (negotiated.Some? ==> pcPresent && dc == negotiated)
      ensures endpoint.Some? && endpoint.value != "" && negotiated.None? ==>
        pcPresent == old(pcPresent) && dc == old(dc)
      ensures !(endpoint.Some? && endpoint.value != "") ==>
        loopPresent == old(loopPresent) && pcPresent == old(pcPresent) && dc == old(dc) &&
        webrtcConnected == old(webrtcConnected)
    {
      if target.Some? {
        endpoint := target;
        tracking := Some(sa);
        StartWebrtcConnection(negotiated);
      } else {
        endpoint, tracking := None, None;
      }
    }

    /** `POST /intervene`. Without a launch: `not_launched`/400. With a live worker:
        `already_active`. Otherwise the stream address sets the endpoint, negotiation is
        attempted, a worker is started, and the answer is still `already_active`. */
    method ApiInterveneStart(body: Option<Json>, parse: string -> Option<Url>, unparse: Url -> string,
                             negotiated: Option<ReadyState>) returns (resp: ApiResponse)
      requires Valid()
      modifies this`endpoint, this`tracking, this`loopPresent, this`pcPresent, this`dc, this`webrtcConnected,
               this`stopEvent, this`nextTid, this`phase, this`interventionThread, this`activeThreads
      ensures Valid()
      ensures !launched ==> resp == ApiResponse(NotLaunched, 400)
      ensures launched ==> resp == ApiResponse(AlreadyActive, 200)
      ensures !launched || old(IsActive()) ==>
        Session() == old(Session()) && Link() == old(Link()) && phase == old(phase)
      ensures launched && !old(IsActive()) ==>
        && interventionThread == Some(old(nextTid)) && !stopEvent
        && activeThreads == old(activeThreads) + [old(nextTid)]
        && nextTid == old(nextTid) + 1
        && phase == old(phase)[old(nextTid) := Fresh]
      ensures launched && !old(IsActive()) ==>
        var sa := StreamAddress(body);
        && endpoint == EndpointFor(sa, parse, unparse)
        && tracking == (if endpoint.Some? then Some(sa) else None)
      ensures launched && !old(IsActive()) && endpoint.Some? && endpoint.value != "" ==>
        loopPresent && webrtcConnected == negotiated.Some? &&
        (negotiated.Some? ==> pcPresent && dc == negotiated)
      ensures launched && !old(IsActive()) && endpoint.Some? && endpoint.value != "" && negotiated.None? ==>
        pcPresent == old(pcPresent) && dc == old(dc)
      ensures launched && !old(IsActive()) && !(endpoint.Some? && endpoint.value != "") ==>
        loopPresent == old(loopPresent) && pcPresent == old(pcPresent) && dc == old(dc) &&
        webrtcConnected == old(webrtcConnected)
    {
      if !launched {
        return ApiResponse(NotLaunched, CodeOf(NotLaunched));
      }
      if IsActive() {
        return ApiResponse(AlreadyActive, CodeOf(AlreadyActive));
      }
      var sa := StreamAddress(body);
      Launch(EndpointFor(sa, parse, unparse), sa, negotiated);
      // the handler answers `already_active` even after starting the worker
      return ApiResponse(AlreadyActive, CodeOf(AlreadyActive));
    }

    /** The accepted branch of `POST /intervene`: the endpoint is configured, then one worker
        is started. */
    method Launch(target: Option<string>, sa: string, negotiated: Option<ReadyState>)
      requires Valid() && !IsActive()
      modifies this`endpoint, this`tracking, this`loopPresent, this`pcPresent, this`dc, this`webrtcConnected,
               this`stopEvent, this`nextTid, this`phase, this`interventionThread, this`activeThreads
      ensures Valid()
      ensures interventionThread == Some(old(nextTid)) && !stopEvent
      ensures activeThreads == old(activeThreads) + [old(nextTid)]
      ensures nextTid == old(nextTid) + 1
      ensures phase == old(phase)[old(nextTid) := Fresh]
      ensures endpoint == target && tracking == (if target.Some? then Some(sa) else None)
      ensures endpoint.Some? && endpoint.value != "" ==>
        loopPresent && webrtcConnected == negotiated.Some? &&
        (negotiated.Some? ==> pcPresent && dc == negotiated)
      ensures endpoint.Some? && endpoint.value != "" && negotiated.None? ==>
        pcPresent == old(pcPresent) && dc == old(dc)
      ensures !(endpoint.Some? && endpoint.value != "") ==>
        loopPresent == old(loopPresent) && pcPresent == old(pcPresent) && dc == old(dc) &&
        webrtcConnected == old(webrtcConnected)
    {
      ConfigureEndpoint(target, sa, negotiated);
      var started := StartIntervention();
    }

    /** `DELETE /intervene`. Without a live worker: `not_active`/400. Otherwise the WebRTC
        connection is dropped before the worker is told to stop, so every sample the worker
        emits while it is being joined goes over HTTP. */
    method ApiInterveneStop(budget: nat) returns (resp: ApiResponse)
      requires Valid()
      modifies this`pcPresent, this`dc, this`webrtcConnected, this`phase, this`calls, this`outbox,
               this`currentlyIntervening, this`stopEvent, this`interventionThread, this`orphaned
      ensures Valid()
      ensures !old(IsActive()) ==>
        resp == ApiResponse(NotActive, 400) &&
        Session() == old(Session()) && Link() == old(Link()) && phase == old(phase) &&
        calls == old(calls) && outbox == old(outbox)
      ensures !old(IsActive()) ==>
        currentlyIntervening == old(currentlyIntervening) && orphaned == old(orphaned)
      ensures old(IsActive()) ==>
        && resp == ApiResponse(Stopped, 200)
        && !pcPresent && dc.None? && !webrtcConnected
        && stopEvent && interventionThread.None?
        && (forall i :: |old(outbox)| <= i < |outbox| ==> outbox[i].HttpPost?)
      ensures old(IsActive()) ==>
        var t := old(interventionThread).value;
        && orphaned == old(orphaned) + (if Alive(t) then {t} else {})
        && (currentlyIntervening ==> t in LiveWorkers())
        && phase.Keys == old(phase).Keys
        && (forall u :: u in phase && u != t ==> phase[u] == old(phase)[u])
      ensures old(calls) <= calls && old(outbox) <= outbox
      ensures forall k :: |old(calls)| <= k < |calls| ==> WorkerCommand(calls[k])
      ensures !(endpoint.Some? && endpoint.value != "") ==> outbox == old(outbox)
      ensures !hasLeft && old(IsActive()) && old(phase)[old(interventionThread).value] != Fresh ==>
        NoTorqueOnFrom(calls, |old(calls)|)
    {
      if !IsActive() {
        return ApiResponse(NotActive, CodeOf(NotActive));
      }
      StopWebrtcConnection();
      StopIntervention(budget);
      return ApiResponse(Stopped, CodeOf(Stopped));
    }

    // ------------------------------------------------------------ exit-time cleanup

    /** One iteration of that loop: `if thread.is_alive(): thread.join(timeout=2)`. */
    method JoinIfAlive(t: Tid, budget: nat)
      requires Valid() && t in phase
      modifies this`phase, this`calls, this`outbox, this`currentlyIntervening
      ensures Valid()
      ensures Advanced(old(phase), phase) && old(calls) <= calls
      ensures forall u :: u in phase && u != t ==> phase[u] == old(phase)[u]
      ensures budget > 0 && old(phase)[t] == Exiting ==> phase[t] == Finished
      ensures WorkerCommandsFrom(|old(calls)|)
      ensures Silent() ==> outbox == old(outbox)
    {
      if Alive(t) {
        var _ := Join(t, budget);
      }
    }

    /** The loop of `cleanup` over `active_threads`: each thread still alive is joined, the
        `i`-th with budget `budget(i)`. Only the threads' own state changes; a finished thread
        stays finished, and one that was already in its `finally` block finishes as soon as
        its join allows a step. */
    method JoinLive(budget: nat -> nat)
      requires Valid()
      modifies this`phase, this`calls, this`outbox, this`currentlyIntervening
      ensures Valid()
      ensures phase.Keys == old(phase).Keys && old(calls) <= calls
      ensures forall t :: t in old(phase) && old(phase)[t] == Finished ==> phase[t] == Finished
      ensures forall i :: 0 <= i < |activeThreads| && budget(i) > 0 && old(phase)[activeThreads[i]] == Exiting ==>
                phase[activeThreads[i]] == Finished
      ensures WorkerCommandsFrom(|old(calls)|)
      ensures Silent() ==> outbox == old(outbox)
    {
      ghost var before, calls0, outbox0 := phase, calls, outbox;
      var i := 0;
      while i < |activeThreads|
        invariant Valid()
        invariant FinishedUpTo(before, phase, activeThreads, budget, i) && calls0 <= calls
        invariant WorkerCommandsFrom(|calls0|)
        invariant Silent() ==> outbox == outbox0
      {
        ghost var prev, mid := calls, phase;
        JoinIfAlive(activeThreads[i], budget(i));
        FinishedUpToNext(before, mid, phase, activeThreads, budget, i);
        WorkerCommandsChain(prev, |calls0|);
        i := i + 1;
      }
    }

    /** `cleanup`: its body runs at most once. It closes the right arm (a missing arm or a
        failing close raises out of the call, so nothing more happens), then joins every
        thread of `active_threads` that is still alive, the `i`-th with budget `budget(i)`. */
    method Cleanup(budget: nat -> nat) returns (completed: bool)
      requires Valid()
      modifies this`phase, this`calls, this`outbox, this`currentlyIntervening, this`cleanupInProgress
      ensures Valid()
      ensures old(cleanupInProgress) ==>
        !completed && phase == old(phase) && calls == old(calls) && outbox == old(outbox) &&
        currentlyIntervening == old(currentlyIntervening)
      ensures cleanupInProgress
      ensures !old(cleanupInProgress) ==>
        && (completed <==> hasRight && !fails(|old(calls)|))
        && (hasRight ==> |calls| > |old(calls)| && calls[..|old(calls)| + 1] == old(calls) + [CloseArm(Right)])
        && (!completed ==> phase == old(phase) && calls == old(calls) + (if hasRight then [CloseArm(Right)] else []))
      ensures !completed ==> outbox == old(outbox) && currentlyIntervening == old(currentlyIntervening)
      ensures phase.Keys == old(phase).Keys
      ensures forall t :: t in old(phase) && old(phase)[t] == Finished ==> t in phase && phase[t] == Finished
      ensures completed ==>
        forall i :: 0 <= i < |activeThreads| && budget(i) > 0 && old(phase)[activeThreads[i]] == Exiting ==>
          phase[activeThreads[i]] == Finished
      ensures forall k :: |old(calls)| < k < |calls| ==> WorkerCommand(calls[k])
      ensures Silent() ==> outbox == old(outbox)
    {
      if cleanupInProgress {
        return false;
      }
      cleanupInProgress := true;
      if !hasRight {
        return false;
      }
      var raised := Issue(CloseArm(Right));
      if raised {
        return false;
      }
      JoinLive(budget);
      return true;
    }
  }
}
