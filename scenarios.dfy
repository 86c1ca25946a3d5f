/** Runs of the intervention controller that show two consequences of
    `stop_intervention` forgetting a thread its join could not stop. */
module ControllerScenarios {
  import opened Json
  import opened Agents
  import opened InterventionPolicy
  import opened Intervention

  /** A controller on a launched robot with only a right arm, whose commands never raise. */
  method Launched() returns (c: InterventionController)
    ensures fresh(c) && c.Valid()
    ensures c.launched && !c.hasLeft && c.hasRight && (forall i :: !c.fails(i))
    ensures c.Session() == SessionView(None, false, [], 0) && c.phase == map[] && c.orphaned == {}
    ensures !c.currentlyIntervening && c.calls == []
  {
    c := new InterventionController(true, false, true, _ => false, (s, k) => Raised(HardwareError), _ => 0.0);
  }

  /** A stop whose join times out (no step fits in it) forgets the live worker; the next
      start then runs a second worker while the first is still alive. */
  method TimedOutStopLeavesTwoWorkers() returns (c: InterventionController)
    ensures c.Valid()
    ensures c.LiveWorkers() == {0, 1} && c.interventionThread == Some(1) && c.orphaned == {0}
  {
    c := Launched();
    var first := c.StartIntervention();
    c.StopIntervention(0);
    var second := c.StartIntervention();
    assert c.phase == map[0 := Fresh, 1 := Fresh];
  }

  /** A worker whose start-up sequence finishes after the stop sets `currently_intervening`
      again, although the stop cleared it and no worker is recorded any more. */
  method LateStartUpSetsTheFlagAgain() returns (c: InterventionController)
    ensures c.Valid()
    ensures c.currentlyIntervening && c.stopEvent && c.interventionThread.None?
    ensures c.calls == [SetTorque(Right, true), MoveArm(Right, RightStartPose()), SetTorque(Right, false)]
  {
    c := Launched();
    var started := c.StartIntervention();
    c.StopIntervention(0);
    assert !c.currentlyIntervening && c.phase == map[0 := Fresh];
    c.Preamble(0);
    StepKeepsCoherent(map[0 := Fresh], c.nextTid, c.activeThreads, c.interventionThread, c.orphaned, 0, c.phase[0]);
  }

  /** The body `{"streamAddress": "ui"}` carries the address `ui`. */
  lemma UiAddress()
    ensures StreamAddress(Some(JObj(map["streamAddress" := JStr("ui")]))) == "ui"
  {
    var s := "ui";
    assert !IsSpace(s[0]) && !IsSpace(s[1]);
    assert SkipFront(s, 0) == 0;
    assert SkipBack(s, 0, 2) == 2;
  }

  /** A start with the address `ui` whose negotiation opens a channel. */
  method StartWithChannel() returns (c: InterventionController)
    ensures c.Valid() && c.launched && !c.hasLeft && c.hasRight && (forall i :: !c.fails(i))
    ensures c.dc == Some(Open) && c.phase == map[0 := Fresh] && c.interventionThread == Some(0)
    ensures fresh(c) && !c.stopEvent && !c.currentlyIntervening && c.calls == [] && c.nextTid == 1
  {
    c := Launched();
    UiAddress();
    var r := c.ApiInterveneStart(Some(JObj(map["streamAddress" := JStr("ui")])),
                                 _ => Some(Url("http", "ui", "", "", "", "")),
                                 _ => "http://ui/client/intervene", Some(Open));
  }

  /** Without a left arm the worker's first `act` raises, so it runs its start-up, leaves the
      loop at the first sample and finishes, without touching the channel. */
  method RunOneArmWorker(c: InterventionController)
    requires c.Valid() && c.launched && !c.hasLeft && c.hasRight && (forall i :: !c.fails(i))
    requires c.phase == map[0 := Fresh] && !c.stopEvent
    modifies c
    ensures c.Valid() && c.phase == map[0 := Finished] && c.dc == old(c.dc) && c.nextTid == old(c.nextTid)
  {
    c.WorkerStep(0);
    assert c.phase == map[0 := Looping(0)] && c.currentlyIntervening;
    assert c.ActOutcome(|c.calls|).Raised?;
    c.WorkerStep(0);
    assert c.phase == map[0 := Exiting];
    c.WorkerStep(0);
  }

  /** A start whose body has no `streamAddress` keeps the channel an earlier start opened:
      the endpoint is cleared, but `webrtc_dc` stays open, so it would still be preferred
      over HTTP. The first worker dies at its first `act`, as it does with no left arm. */
  method RestartKeepsOpenChannel() returns (c: InterventionController)
    ensures c.Valid()
    ensures c.endpoint.None? && c.dc == Some(Open) && c.interventionThread == Some(1)
  {
    c := StartWithChannel();
    RunOneArmWorker(c);
    var r := c.ApiInterveneStart(None, _ => None, _ => "", None);
  }

  /** With no left arm, a stop after the start-up has switched the right arm to gravity
      compensation leaves it there: nothing the joined worker does switches torque back on. */
  method StopLeavesRightArmLimp(budget: nat) returns (c: InterventionController)
    ensures c.Valid() && c.interventionThread.None? && c.stopEvent
    ensures |c.calls| >= 3 && c.calls[2] == SetTorque(Right, false)
    ensures forall i :: 3 <= i < |c.calls| ==> !(c.calls[i].SetTorque? && c.calls[i].enabled)
  {
    c := Launched();
    var started := c.StartIntervention();
    c.WorkerStep(0);
    assert c.phase[0] == Looping(0) && |c.calls| == 3;
    var resp := c.ApiInterveneStop(budget);
  }
}
