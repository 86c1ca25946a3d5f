/** The launcher in start.go: it starts the agent and the UI in process groups of their
    own, waits for whichever of the two exits or for a shutdown signal, stops both groups
    once, and exits with a code chosen from what ended the wait.

    `syscall.Kill` is an oracle: `errno(i)` is the error number the `i`-th kill of the
    trace answers, 0 for success. Process start-up, waiting and the `select` are inputs:
    a start gives a pid or fails, and `Event` is whatever `select` received first. */
module Supervisor {
  import opened Json

  /** The signals involved: the four `signal.Notify` listens for, and `SIGKILL`.
      Go's `os.Interrupt` is `SIGINT`. */
  datatype Signal = SigInt | SigTerm | SigHup | SigQuit | SigKill

  /** One `syscall.Kill(pid, sig)`; a negative pid addresses a process group. */
  datatype KillCall = KillCall(pid: int, sig: Signal)

  /** The errors `terminateProcessGroup` returns. */
  datatype KillError = InvalidPid | Errno(code: nat)

  /** The result of a kill answered by error number `e`. */
  function KillResult(e: nat): Option<KillError> {
    if e == 0 then None else Some(Errno(e))
  }

  /** `terminateProcessGroup(pid, sig)` with its kills numbered from `at`: a pid that is not
      positive is refused without a kill; otherwise the group `-pid` is signalled, and only
      when that fails the process `pid` itself, whose answer is then the result. */
  function TerminateProcessGroup(pid: int, sig: Signal, errno: nat -> nat, at: nat): (r: (seq<KillCall>, Option<KillError>))
    ensures pid <= 0 ==> r == ([], Some(InvalidPid))
    ensures pid > 0 ==> 1 <= |r.0| <= 2 && r.0[0] == KillCall(-pid, sig)
    ensures pid > 0 ==> (|r.0| == 2 <==> errno(at) != 0)
    ensures |r.0| == 2 ==> r.0[1] == KillCall(pid, sig) && r.1 == KillResult(errno(at + 1))
    ensures forall i :: 0 <= i < |r.0| ==> r.0[i].sig == sig
    ensures r.1.None? <==> pid > 0 && (errno(at) == 0 || errno(at + 1) == 0)
  {
    if pid <= 0 then ([], Some(InvalidPid))
    else if errno(at) == 0 then ([KillCall(-pid, sig)], None)
    else ([KillCall(-pid, sig), KillCall(pid, sig)], KillResult(errno(at + 1)))
  }

  // ---------------------------------------------------------------- exit codes

  /** `syscall.WaitStatus`: whether the process exited normally, and its status byte. */
  datatype WaitStatus = WaitStatus(exited: bool, status: nat)

  /** `WaitStatus.ExitStatus()`: the status byte of a process that exited, -1 otherwise. */
  function ExitStatus(w: WaitStatus): (c: int)
    ensures w.exited ==> c == w.status % 256
    ensures !w.exited ==> c == -1
    ensures -1 <= c <= 255
  {
    if w.exited then w.status % 256 else -1
  }

  /** The error `cmd.Wait()` returns, as far as `errors.As` looks into it: an
      `*exec.ExitError` whose `Sys()` is a `WaitStatus` or something else, an error
      wrapping another, or any other error. */
  datatype WaitError =
    | ExitError(sys: Option<WaitStatus>)
    | Wrapped(inner: WaitError)
    | OtherError

  /** The first `*exec.ExitError` on the unwrap chain, as `errors.As` finds it. */
  function FindExitError(e: WaitError): (r: Option<Option<WaitStatus>>)
    ensures e.ExitError? ==> r == Some(e.sys)
    ensures e.OtherError? ==> r.None?
  {
    match e
    case ExitError(sys) => Some(sys)
    case Wrapped(inner) => FindExitError(inner)
    case OtherError => None
  }

  /** `extractExitCode`. */
  function ExtractExitCode(e: WaitError): (c: int)
    ensures -1 <= c <= 255
    ensures FindExitError(e).Some? && FindExitError(e).value.Some? ==> c == ExitStatus(FindExitError(e).value.value)
    ensures !(FindExitError(e).Some? && FindExitError(e).value.Some?) ==> c == 1
  {
    match FindExitError(e)
    case Some(Some(w)) => ExitStatus(w)
    case _ => 1
  }

  /** Wrapping an error any number of times does not change its exit code. */
  lemma {:induction false} WrappingKeepsExitCode(e: WaitError, n: nat)
    ensures ExtractExitCode(Wrap(e, n)) == ExtractExitCode(e)
  {
    if n > 0 {
      WrappingKeepsExitCode(e, n - 1);
      assert FindExitError(Wrap(e, n)) == FindExitError(Wrap(e, n - 1));
    }
  }

  /** `n` layers of `fmt.Errorf("...: %w", ...)` around `e`. */
  function Wrap(e: WaitError, n: nat): WaitError {
    if n == 0 then e else Wrapped(Wrap(e, n - 1))
  }

  /** What `select` received first. */
  datatype Event =
    | AgentDone(err: Option<WaitError>)
    | UiDone(err: Option<WaitError>)
    | Received(sig: Signal)

  /** The signals `signal.Notify` forwards to the channel: interrupt, TERM, HUP and QUIT. */
  predicate Notified(sig: Signal) {
    sig != SigKill
  }

  datatype Reason = AgentExited | UiExited | ReceivedSignal(sig: Signal)

  /** The exit code after the `select`: 0 for a child that exited without error, the
      extracted code for one that failed, 130 for an interrupt and 1 for another signal. */
  function ExitCodeFor(ev: Event): (c: int)
    ensures (ev.AgentDone? || ev.UiDone?) && ev.err.None? ==> c == 0
    ensures (ev.AgentDone? || ev.UiDone?) && ev.err.Some? ==> c == ExtractExitCode(ev.err.value)
    ensures ev.Received? ==> (c == 130 <==> ev.sig == SigInt) && (c != 130 ==> c == 1)
  {
    match ev
    case AgentDone(err) => if err.Some? then ExtractExitCode(err.value) else 0
    case UiDone(err) => if err.Some? then ExtractExitCode(err.value) else 0
    case Received(sig) => if sig == SigInt then 130 else 1
  }

  /** The reason printed on exit. */
  function ReasonFor(ev: Event): (r: Reason)
    ensures r.AgentExited? <==> ev.AgentDone?
    ensures r.UiExited? <==> ev.UiDone?
    ensures r.ReceivedSignal? <==> ev.Received?
    ensures r.ReceivedSignal? ==> r.sig == ev.sig
  {
    match ev
    case AgentDone(_) => AgentExited
    case UiDone(_) => UiExited
    case Received(sig) => ReceivedSignal(sig)
  }

  // ---------------------------------------------------------------- the process

  /** `trace` followed by the kills of `terminateProcessGroup(pid, sig)`. */
  function Terminated(trace: seq<KillCall>, pid: int, sig: Signal, errno: nat -> nat): (r: seq<KillCall>)
    ensures |trace| <= |r| && r[..|trace|] == trace
    ensures forall i :: |trace| <= i < |r| ==> r[i].sig == sig
    ensures pid > 0 ==> |r| > |trace| && r[|trace|] == KillCall(-pid, sig)
  {
    trace + TerminateProcessGroup(pid, sig, errno, |trace|).0
  }

  /** The kills of the cleanup body for agent group `a` and UI group `u`, after `trace`:
      both groups get `SIGTERM`, then both get `SIGKILL`. */
  function CleanupTrace(trace: seq<KillCall>, a: int, u: int, errno: nat -> nat): seq<KillCall> {
    var t1 := Terminated(trace, a, SigTerm, errno);
    var t2 := Terminated(t1, u, SigTerm, errno);
    var k1 := Terminated(t2, a, SigKill, errno);
    Terminated(k1, u, SigKill, errno)
  }

  /** The cleanup only appends to the trace, and only `SIGTERM` and `SIGKILL`, with no
      `SIGKILL` before a `SIGTERM`; with valid pids each group gets each signal. */
  lemma CleanupTermsBeforeKills(trace: seq<KillCall>, a: int, u: int, errno: nat -> nat)
    ensures var r := CleanupTrace(trace, a, u, errno);
      && |trace| <= |r| && r[..|trace|] == trace
      && (forall i :: |trace| <= i < |r| ==> r[i].sig == SigTerm || r[i].sig == SigKill)
      && (forall i, j :: |trace| <= i < j < |r| && r[i].sig == SigKill ==> r[j].sig == SigKill)
    ensures a > 0 && u > 0 ==>
      var r := CleanupTrace(trace, a, u, errno)[|trace|..];
      && KillCall(-a, SigTerm) in r && KillCall(-u, SigTerm) in r
      && KillCall(-a, SigKill) in r && KillCall(-u, SigKill) in r
  {
    var t1 := Terminated(trace, a, SigTerm, errno);
    var t2 := Terminated(t1, u, SigTerm, errno);
    var k1 := Terminated(t2, a, SigKill, errno);
    var r := Terminated(k1, u, SigKill, errno);
    assert r == CleanupTrace(trace, a, u, errno);
    PrefixOfPrefix(trace, t1, t2);
    PrefixOfPrefix(t2, k1, r);
    PrefixOfPrefix(trace, t2, r);
    assert forall i :: |trace| <= i < |t2| ==> r[i] == t2[i];
    assert forall i :: |trace| <= i < |t2| ==> t2[i].sig == SigTerm by {
      forall i | |trace| <= i < |t2| ensures t2[i].sig == SigTerm {
        if i < |t1| { assert t2[i] == t1[i]; }
      }
    }
    assert forall i :: |t2| <= i < |r| ==> r[i].sig == SigKill by {
      forall i | |t2| <= i < |r| ensures r[i].sig == SigKill {
        if i < |k1| { assert r[i] == k1[i]; }
      }
    }
    if a > 0 && u > 0 {
      var d := r[|trace|..];
      assert d[0] == r[|trace|] == t1[|trace|] == KillCall(-a, SigTerm);
      assert d[|t1| - |trace|] == r[|t1|] == t2[|t1|] == KillCall(-u, SigTerm);
      assert d[|t2| - |trace|] == r[|t2|] == k1[|t2|] == KillCall(-a, SigKill);
      assert d[|k1| - |trace|] == r[|k1|] == KillCall(-u, SigKill);
    }
  }

  /** A prefix of a prefix is a prefix. */
  lemma PrefixOfPrefix(a: seq<KillCall>, b: seq<KillCall>, c: seq<KillCall>)
    requires |a| <= |b| && b[..|a|] == a && |b| <= |c| && c[..|b|] == b
    ensures c[..|a|] == a && forall i :: 0 <= i < |b| ==> c[i] == b[i]
  {
    assert forall i :: 0 <= i < |b| ==> c[i] == c[..|b|][i];
  }

  /** The launcher: the kill trace, and the `sync.Once` of the cleanup closure. */
  class Launcher {
    const errno: nat -> nat
    var trace: seq<KillCall>
    var cleanupDone: bool

    constructor (errno: nat -> nat)
      ensures this.errno == errno && trace == [] && !cleanupDone
    {
      this.errno := errno;
      trace, cleanupDone := [], false;
    }

    /** `terminateProcessGroup` against the live trace. */
    method Terminate(pid: int, sig: Signal) returns (err: Option<KillError>)
      modifies this`trace
      ensures trace == Terminated(old(trace), pid, sig, errno)
      ensures err == TerminateProcessGroup(pid, sig, errno, |old(trace)|).1
    {
      var r := TerminateProcessGroup(pid, sig, errno, |trace|);
      trace := trace + r.0;
      err := r.1;
    }

    /** `cleanup(exitOnReturn)`: the body runs on the first call only. */
    method Cleanup(agentPid: int, uiPid: int, exitOnReturn: bool)
      modifies this`trace, this`cleanupDone
      ensures cleanupDone
      ensures old(cleanupDone) ==> trace == old(trace)
      ensures !old(cleanupDone) ==> trace == CleanupTrace(old(trace), agentPid, uiPid, errno)
    {
      if cleanupDone {
        return;
      }
      cleanupDone := true;
      var _ := Terminate(agentPid, SigTerm);
      var _ := Terminate(uiPid, SigTerm);
      var _ := Terminate(agentPid, SigKill);
      var _ := Terminate(uiPid, SigKill);
    }

    /** `main` from the home directory lookup to `os.Exit`. `agent` and `ui` are the pids
        the two starts give, `None` when a start fails. `os.Exit` skips the deferred
        `cleanup(false)`, so the cleanup runs exactly once, from the `select`, unless a
        start failed. */
    method Run(homeFound: bool, agent: Option<int>, ui: Option<int>, ev: Event)
      returns (exitCode: int, reason: Option<Reason>)
      requires !cleanupDone
      requires ev.Received? ==> Notified(ev.sig)
      modifies this`trace, this`cleanupDone
      ensures !homeFound || agent.None? ==> exitCode == 1 && reason.None? && trace == old(trace) && !cleanupDone
      ensures homeFound && agent.Some? && ui.None? ==>
        && exitCode == 1 && reason.None? && !cleanupDone
        && trace == Terminated(Terminated(old(trace), agent.value, SigTerm, errno), agent.value, SigKill, errno)
      ensures homeFound && agent.Some? && ui.Some? ==>
        && exitCode == ExitCodeFor(ev) && reason == Some(ReasonFor(ev)) && cleanupDone
        && trace == CleanupTrace(old(trace), agent.value, ui.value, errno)
    {
      if !homeFound || agent.None? {
        return 1, None;
      }
      var agentPid := agent.value;
      if ui.None? {
        var _ := Terminate(agentPid, SigTerm);
        var _ := Terminate(agentPid, SigKill);
        return 1, None;
      }
      var uiPid := ui.value;
      exitCode := 0;
      match ev {
        case AgentDone(err) =>
          if err.Some? {
            exitCode := ExtractExitCode(err.value);
          }
          reason := Some(AgentExited);
        case UiDone(err) =>
          if err.Some? {
            exitCode := ExtractExitCode(err.value);
          }
          reason := Some(UiExited);
        case Received(sig) =>
          reason := Some(ReceivedSignal(sig));
          if sig == SigInt {
            exitCode := 130;
          } else {
            exitCode := 1;
          }
      }
      Cleanup(agentPid, uiPid, true);
    }
  }
}
