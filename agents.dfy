/** The agent composition of agent/gello/agents/agent.py: a dummy agent that always
    answers zeros, and a bimanual agent that splits each observation between a left
    and a right agent, concatenates their actions, and splits a target position at
    the left arm's number of degrees of freedom.

    The two arms are external collaborators. An arm is given by what its call
    returns: `None` where the Python attribute holds `None` (so that touching it
    raises `AttributeError`), otherwise a function from the observation to an outcome,
    or a flag saying whether its motion command raises. */
module Agents {
  import opened Json

  /** An observation: one vector per key (`Dict[str, np.ndarray]`, one dimension). */
  type Obs = map<string, seq<real>>

  datatype Side = Left | Right

  /** The exceptions the composition can raise or pass on. */
  datatype Exception =
    | AssertionError(key: string)  // an observation vector of odd length
    | AttributeError               // a method looked up on `None`
    | HardwareError                // raised by the arm itself

  /** A Python call either returns a value or raises. */
  datatype Outcome<+T> = Returned(value: T) | Raised(error: Exception)

  /** What an arm's `act` answers for an observation. */
  type ArmAct = Obs -> Outcome<seq<real>>

  function Min(a: nat, b: nat): nat { if a <= b then a else b }

  /** Python's `(v[:n], v[n:])` for `n >= 0`: the cut is clamped to the length. */
  function SplitAt<E>(v: seq<E>, n: nat): (r: (seq<E>, seq<E>))
    ensures r.0 + r.1 == v
    ensures |r.0| == Min(n, |v|)
  {
    var k := Min(n, |v|);
    (v[..k], v[k..])
  }

  /** `DummyAgent.act`: `num_dofs` zeros, whatever the observation. */
  function DummyAct(numDofs: nat, obs: Obs): (r: seq<real>)
    ensures |r| == numDofs
    ensures forall i :: 0 <= i < |r| ==> r[i] == 0.0
  {
    seq(numDofs, _ => 0.0)
  }

  /** A dummy agent seen as an arm. */
  function Dummy(numDofs: nat): ArmAct {
    (obs: Obs) => Returned(DummyAct(numDofs, obs))
  }

  /** Every vector of the observation can be cut in two equal halves. */
  predicate AllEven(obs: Obs) {
    forall k :: k in obs ==> |obs[k]| % 2 == 0
  }

  /** `val[:L // 2]` and `val[L // 2:]` for every key. */
  function LeftObs(obs: Obs): Obs {
    map k | k in obs :: SplitAt(obs[k], |obs[k]| / 2).0
  }

  function RightObs(obs: Obs): Obs {
    map k | k in obs :: SplitAt(obs[k], |obs[k]| / 2).1
  }

  /** The two halves of an even observation have the key set of `obs`, equal lengths,
      and put back together give each original vector. */
  lemma HalvesReconstruct(obs: Obs)
    requires AllEven(obs)
    ensures LeftObs(obs).Keys == obs.Keys && RightObs(obs).Keys == obs.Keys
    ensures forall k :: k in obs ==>
      LeftObs(obs)[k] + RightObs(obs)[k] == obs[k] && |LeftObs(obs)[k]| == |RightObs(obs)[k]|
  {
    forall k | k in obs
      ensures LeftObs(obs)[k] + RightObs(obs)[k] == obs[k]
      ensures |LeftObs(obs)[k]| == |RightObs(obs)[k]|
    {
      var p := SplitAt(obs[k], |obs[k]| / 2);
      assert LeftObs(obs)[k] == p.0 && RightObs(obs)[k] == p.1;
    }
  }

  /** The `for key, val in obs.items()` loop of `BimanualAgent.act`: it fills the two
      sub-observations and stops with an `AssertionError` at a vector of odd length. */
  method SplitObservation(obs: Obs) returns (r: Outcome<(Obs, Obs)>)
    ensures r.Returned? <==> AllEven(obs)
    ensures r.Raised? ==> r.error.AssertionError? && r.error.key in obs && |obs[r.error.key]| % 2 == 1
    ensures r.Returned? ==> r.value.0 == LeftObs(obs) && r.value.1 == RightObs(obs)
  {
    var left: Obs := map[];
    var right: Obs := map[];
    var todo := obs.Keys;
    while todo != {}
      invariant todo <= obs.Keys
      invariant left.Keys == obs.Keys - todo && right.Keys == left.Keys
      invariant forall k :: k in left ==> left[k] == LeftObs(obs)[k] && right[k] == RightObs(obs)[k]
      invariant forall k :: k in obs && k !in todo ==> |obs[k]| % 2 == 0
      decreases todo
    {
      var key :| key in todo;
      var val := obs[key];
      var half := |val| / 2;
      if |val| != half * 2 {
        return Raised(AssertionError(key));
      }
      assert LeftObs(obs)[key] == val[..half] && RightObs(obs)[key] == val[half..];
      left := left[key := val[..half]];
      right := right[key := val[half..]];
      todo := todo - {key};
    }
    assert left == LeftObs(obs);
    assert right == RightObs(obs);
    return Returned((left, right));
  }

  /** `np.concatenate([agent_left.act(lo), agent_right.act(ro)])`: the left arm is asked
      first; a missing arm or an arm that raises makes the whole call raise. */
  function Concat(left: Option<ArmAct>, right: Option<ArmAct>, lo: Obs, ro: Obs): (r: Outcome<seq<real>>)
    ensures r.Returned? <==>
      left.Some? && left.value(lo).Returned? && right.Some? && right.value(ro).Returned?
    ensures left.None? ==> r == Raised(AttributeError)
    ensures left.Some? && left.value(lo).Raised? ==> r == left.value(lo)
    ensures left.Some? && left.value(lo).Returned? && right.None? ==> r == Raised(AttributeError)
    ensures left.Some? && left.value(lo).Returned? && right.Some? && right.value(ro).Raised? ==>
      r == Raised(right.value(ro).error)
    ensures r.Returned? ==>
      var a, b := left.value(lo).value, right.value(ro).value;
      |r.value| == |a| + |b| && r.value[..|a|] == a && r.value[|a|..] == b
  {
    match left
    case None => Raised(AttributeError)
    case Some(f) =>
      match f(lo)
      case Raised(e) => Raised(e)
      case Returned(a) =>
        match right
        case None => Raised(AttributeError)
        case Some(g) =>
          match g(ro)
          case Raised(e) => Raised(e)
          case Returned(b) => Returned(a + b)
  }

  /** `BimanualAgent.act`: an odd-length vector raises before any arm is asked; otherwise
      the left arm gets the first half of every vector and the right arm the second half. */
  method BimanualAct(obs: Obs, left: Option<ArmAct>, right: Option<ArmAct>) returns (r: Outcome<seq<real>>)
    ensures !AllEven(obs) ==> r.Raised? && r.error.AssertionError? && r.error.key in obs
    ensures AllEven(obs) ==> r == Concat(left, right, LeftObs(obs), RightObs(obs))
  {
    var halves := SplitObservation(obs);
    match halves
    case Raised(e) => r := Raised(e);
    case Returned(p) => r := Concat(left, right, p.0, p.1);
  }

  /** Two dummy agents composed answer `n + m` zeros. */
  lemma DummiesCompose(n: nat, m: nat, lo: Obs, ro: Obs)
    ensures Concat(Some(Dummy(n)), Some(Dummy(m)), lo, ro) == Returned(DummyAct(n + m, map[]))
  {
    var a, b := DummyAct(n, lo), DummyAct(m, ro);
    assert a + b == DummyAct(n + m, map[]);
  }

  /** The empty observation is split into two empty ones. */
  lemma EmptyObservationHalves()
    ensures AllEven(map[]) && LeftObs(map[]) == map[] && RightObs(map[]) == map[]
  {
  }

  /** One motion command issued to an arm. */
  datatype MoveCall = MoveCall(side: Side, target: seq<real>)

  datatype MoveResult = MoveResult(calls: seq<MoveCall>, outcome: Outcome<bool>)

  /** `BimanualAgent.move_to_position`: `position[:n]` to the left arm, then `position[n:]`
      to the right arm, with `n = agent_left.num_dofs()` (`leftDofs`, `None` when the left
      agent is `None`); the flags say whether an arm's motion command raises. */
  function MoveToPosition(position: seq<real>, leftDofs: Option<nat>, hasRight: bool,
                          leftFails: bool, rightFails: bool): (r: MoveResult)
    ensures r.outcome.Returned? <==> leftDofs.Some? && !leftFails && hasRight && !rightFails
    ensures r.outcome.Returned? ==> r.outcome.value
    ensures |r.calls| <= 2
    ensures |r.calls| >= 1 ==> r.calls[0].side == Left
    ensures |r.calls| == 2 ==> r.calls[1].side == Right
    ensures |r.calls| >= 1 <==> leftDofs.Some?
    ensures |r.calls| == 2 <==> leftDofs.Some? && !leftFails && hasRight
    ensures r.outcome.Returned? ==> |r.calls| == 2
    ensures |r.calls| >= 1 ==> r.calls[0].target == position[..Min(leftDofs.value, |position|)]
    ensures |r.calls| == 2 ==>
      r.calls[0].target + r.calls[1].target == position &&
      |r.calls[0].target| == Min(leftDofs.value, |position|)
  {
    match leftDofs
    case None => MoveResult([], Raised(AttributeError))
    case Some(n) =>
      var parts := SplitAt(position, n);
      var first := [MoveCall(Left, parts.0)];
      if leftFails then MoveResult(first, Raised(HardwareError))
      else if !hasRight then MoveResult(first, Raised(AttributeError))
      else
        var both := first + [MoveCall(Right, parts.1)];
        if rightFails then MoveResult(both, Raised(HardwareError))
        else MoveResult(both, Returned(true))
  }
}
