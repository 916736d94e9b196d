/** When a service can run (again): from which states some continuation leads to a STARTED service with
    nobody inside start or stop. */
module Restarts {
  import opened Lifecycle
  import opened Calls

  /** The service is up and the caller free. */
  predicate Up(s: Life) {
    s.phase == Started && s.io == Running && s.caller == Out
  }

  /** Nothing will ever clear the state: it is STOPPING or ERROR and no stop is under way to store STOPPED;
      or there is no IO thread to join and STARTING keeps every start away. */
  predicate Lost(s: Life) {
    || (s.caller == Out && (s.phase == Stopping || s.phase == Error))
    || (s.io == Absent && (s.caller == StopDecided || s.caller == Joining || s.caller == JoinFailed
                           || (s.caller == Out && s.phase == Starting)))
  }

  lemma LostStep(s: Life, step: Step)
    requires Kept(s) && Lost(s) && Enabled(s, step)
    ensures Lost(Next(s, step))
  {
  }

  lemma {:induction false} LostForever(states: seq<Life>, steps: seq<Step>, k: nat)
    requires Path(states, steps) && k < |states| && Kept(states[0]) && Lost(states[0])
    ensures Kept(states[k]) && Lost(states[k])
  {
    if k > 0 {
      LostForever(states, steps, k - 1);
      hide Kept, Lost, Enabled, Next;
      LostStep(states[k - 1], steps[k - 1]);
      KeptStep(states[k - 1], steps[k - 1]);
    }
  }

  // ---- the way up -----------------------------------------------------------------------------

  /** What to do next to get the service up. */
  function Towards(s: Life): Step {
    match s.caller
    case StartDecided => StartStore
    case Launching => Launch(true)
    case StopDecided => if s.io == Checked then StartedStore else StopStore
    case Joined => StoppedStore
    case JoinFailed => JoinErrorStore
    case Joining =>
      (match s.io
       case Checked => StartedStore
       case Signalled => SigintStore
       case Running => if s.phase == Started then SigintLoad else TimerLoad
       case io => NextOut(io))
    case Out =>
      (match s.phase
       case Starting => if s.io == Booting then BootLoad else if s.io == Checked then StartedStore else StopLoad
       case Started => StopLoad
       case _ => StartLoad)
  }

  /** How far that is, at most. */
  function Distance(s: Life): nat {
    match s.caller
    case StartDecided => 4
    case Launching => 3
    case StopDecided => if s.io == Checked then 15 else 14
    case Joined => 6
    case JoinFailed => 0
    case Joining =>
      (match s.io
       case Checked => 13
       case Signalled => 11
       case Running => if s.phase == Started then 12 else 10
       case Done => 7
       case Draining => 9
       case Booting => 9
       case _ => 8)
    case Out =>
      (match s.phase
       case Starting => if s.io == Booting then 2 else if s.io == Checked then 1 else 15
       case Started => 15
       case _ => 5)
  }

  /** The caller's stop was lost, or a SIGINT callback is under way. */
  predicate NeedsSigint(s: Life) {
    Hung(s) || s.io == Signalled
  }

  lemma CloserStep(s: Life)
    requires Kept(s) && !Lost(s) && !Up(s)
    ensures Enabled(s, Towards(s))
    ensures var t := Next(s, Towards(s)); !Lost(t) && (Up(t) || Distance(t) < Distance(s))
    ensures !NeedsSigint(s) ==> Towards(s) != SigintLoad && Towards(s) != SigintStore
                                && !NeedsSigint(Next(s, Towards(s)))
  {
  }

  lemma {:induction false} Revive(s: Life) returns (states: seq<Life>, steps: seq<Step>)
    requires Kept(s) && !Lost(s)
    ensures Path(states, steps) && states[0] == s && Up(states[|steps|])
    ensures !NeedsSigint(s) ==> NoSigint(steps)
    decreases if Up(s) then 0 else Distance(s) + 1
  {
    hide Kept, Lost, Enabled, Next, Distance, Towards, NeedsSigint, Up;
    if Up(s) {
      states, steps := [s], [];
    } else {
      CloserStep(s);
      var step := Towards(s);
      KeptStep(s, step);
      states, steps := Revive(Next(s, step));
      states, steps := Extend(s, step, states, steps);
    }
  }

  /** A path one step longer at the front. */
  lemma Extend(s: Life, step: Step, states: seq<Life>, steps: seq<Step>)
    returns (states': seq<Life>, steps': seq<Step>)
    requires Enabled(s, step) && Path(states, steps) && states[0] == Next(s, step)
    ensures Path(states', steps') && states'[0] == s && states'[|steps'|] == states[|steps|]
    ensures steps' == [step] + steps
  {
    hide Enabled, Next;
    states', steps' := [s] + states, [step] + steps;
    forall k | 0 <= k < |steps'|
      ensures Enabled(states'[k], steps'[k]) && states'[k + 1] == Next(states'[k], steps'[k])
    {
      if k > 0 {
        assert states'[k] == states[k - 1] && steps'[k] == steps[k - 1] && states'[k + 1] == states[k - 1 + 1];
      }
    }
  }

  // ---- exactly when ---------------------------------------------------------------------------

  ghost predicate CanGetUp(s: Life) {
    exists states: seq<Life>, steps: seq<Step> :: Path(states, steps) && states[0] == s && Up(states[|steps|])
  }

  ghost predicate CanGetUpCalmly(s: Life) {
    exists states: seq<Life>, steps: seq<Step> ::
      Path(states, steps) && NoSigint(steps) && states[0] == s && Up(states[|steps|])
  }

  /** In every run: some continuation gets the service up if and only if it is not lost. */
  lemma RunsAgainExactly(states: seq<Life>, steps: seq<Step>, k: nat)
    requires Run(states, steps) && k < |states|
    ensures CanGetUp(states[k]) <==> !Lost(states[k])
  {
    var s := states[k];
    KeptAlways(states, steps, k);
    hide Kept, Lost;
    if Lost(s) && CanGetUp(s) {
      var more: seq<Life>, taken: seq<Step> :| Path(more, taken) && more[0] == s && Up(more[|taken|]);
      LostForever(more, taken, |taken|);
      LostIsDown(more[|taken|]);
      assert false;
    }
    if !Lost(s) {
      var more, taken := Revive(s);
    }
  }

  lemma LostIsDown(s: Life)
    requires Lost(s) && Kept(s)
    ensures !Up(s)
  {
  }

  lemma NoSignalWithoutSigint(s: Life)
    requires Calm(s)
    ensures s.io != Signalled
  {
  }

  /** Without SIGINT, if and only if it is not lost and no stop hangs. In particular a service that is NEW
      or STOPPED can always be started. */
  lemma RunsAgainCalmlyExactly(states: seq<Life>, steps: seq<Step>, k: nat)
    requires Run(states, steps) && NoSigint(steps) && k < |states|
    ensures CanGetUpCalmly(states[k]) <==> !Lost(states[k]) && !Hung(states[k])
    ensures states[k].phase == New || states[k].phase == Stopped ==> CanGetUpCalmly(states[k])
  {
    var s := states[k];
    KeptAlways(states, steps, k);
    CalmWithoutSigint(states, steps, k);
    NoSignalWithoutSigint(s);
    if s.phase == New || s.phase == Stopped {
      NotLostWhenStartable(s);
    }
    RunsAgainExactly(states, steps, k);
    hide Kept, Lost, Calm, Enabled, Next;
    if CanGetUpCalmly(s) {
      var more: seq<Life>, taken: seq<Step> :|
        Path(more, taken) && NoSigint(taken) && more[0] == s && Up(more[|taken|]);
      if Hung(s) {
        HungForever(more, taken, |taken|);
        assert false;
      }
    }
    if !Lost(s) && !Hung(s) {
      var more, taken := Revive(s);
    }
  }

  lemma NotLostWhenStartable(s: Life)
    requires Kept(s) && (s.phase == New || s.phase == Stopped)
    ensures !Lost(s) && !Hung(s)
  {
  }

  // ---- stopping -------------------------------------------------------------------------------

  /** Some continuation without SIGINT begins with a stop and ends with that stop returned in success,
      the state STOPPED and the IO thread gone. */
  ghost predicate CanStop(s: Life) {
    exists states: seq<Life>, steps: seq<Step> ::
      && Path(states, steps) && NoSigint(steps) && states[0] == s && OneCall(steps, 0, |steps|) && steps[0] == StopLoad
      && Stops(states[|steps|])
  }

  predicate Stops(s: Life) {
    s.caller == Out && s.returned == StopOk && s.phase == Stopped && s.io == Absent
  }

  /** A running service can be stopped. */
  lemma StartedCanStop(states: seq<Life>, steps: seq<Step>, k: nat)
    requires Run(states, steps) && NoSigint(steps) && k < |states|
    requires states[k].phase == Started && states[k].caller == Out
    ensures CanStop(states[k])
  {
    CalmWithoutSigint(states, steps, k);
    var more, taken := StopPath(states[k]);
    assert OneCall(taken, 0, 7);
  }

  lemma StopPath(s: Life) returns (states: seq<Life>, steps: seq<Step>)
    requires s.phase == Started && s.io == Running && s.caller == Out
    ensures Path(states, steps) && states[0] == s && Stops(states[|steps|])
    ensures steps == [StopLoad, StopStore, TimerLoad, LoopExit, LoopClose(true), Join, StoppedStore]
  {
    var a := s.(caller := StopDecided, returned := Nothing);
    var b := a.(phase := Stopping, caller := Joining);
    var f := b.(io := Absent, caller := Joined);
    var g := f.(phase := Stopped, caller := Out, returned := StopOk);
    states := [s, a, b, b.(io := Draining), b.(io := Exiting), b.(io := Done), f, g];
    steps := [StopLoad, StopStore, TimerLoad, LoopExit, LoopClose(true), Join, StoppedStore];
  }

  // ---- SIGINT is final ------------------------------------------------------------------------

  /** Once a SIGINT has stored STOPPING outside any call, the service never gets up again: every start
      returns an error, and every stop returns at once without joining the IO thread. */
  lemma SigintIsFinal(states: seq<Life>, steps: seq<Step>, i: nat, k: nat)
    requires Run(states, steps) && i < k <= |steps| && steps[i] == SigintStore && states[i].caller == Out
    ensures !Up(states[k]) && states[k].caller == Out
    ensures states[k].phase == Stopping || states[k].phase == Error
    ensures k < |steps| && steps[k] == StartLoad ==> states[k + 1] == states[k].(returned := StartErr)
    ensures k < |steps| && steps[k] == StopLoad ==>
              states[k + 1] == states[k].(returned := if states[k].phase == Stopping then StopOk else StopErr)
  {
    Closing(states, steps, i, k);
    if k < |steps| {
      RunStep(states, steps, k);
    }
  }

  /** Shut down with nobody inside a call. */
  predicate Shut(s: Life) {
    Kept(s) && s.caller == Out && (s.phase == Stopping || s.phase == Error)
  }

  lemma ShutStep(s: Life, step: Step)
    requires Enabled(s, step) && (Shut(s) || (Kept(s) && s.caller == Out && step == SigintStore))
    ensures Shut(Next(s, step))
  {
  }

  lemma {:induction false} Closing(states: seq<Life>, steps: seq<Step>, i: nat, k: nat)
    requires Run(states, steps) && i < k <= |steps| && steps[i] == SigintStore && states[i].caller == Out
    ensures Shut(states[k])
  {
    hide Kept, Shut, Enabled, Next;
    KeptAlways(states, steps, k - 1);
    if k > i + 1 {
      Closing(states, steps, i, k - 1);
    }
    ShutStep(states[k - 1], steps[k - 1]);
  }

  // ---- a failed launch ------------------------------------------------------------------------

  /** A launch that fails leaves STARTING behind: until the caller calls stop, which fails and leaves ERROR,
      every further start reports success with no IO thread at all. */
  lemma FailedLaunchIsFinal(states: seq<Life>, steps: seq<Step>, i: nat, k: nat)
    requires Run(states, steps) && i < k <= |steps| && steps[i] == Launch(false)
    ensures Lost(states[k]) && states[k].io == Absent
    ensures k < |steps| && steps[k] == StartLoad && states[k].phase == Starting ==>
              states[k + 1] == states[k].(returned := StartOk)
  {
    NoThread(states, steps, i, k);
    if k < |steps| {
      RunStep(states, steps, k);
    }
  }

  predicate Orphaned(s: Life) {
    Kept(s) && Lost(s) && s.io == Absent
  }

  lemma OrphanedStep(s: Life, step: Step)
    requires Enabled(s, step) && (Orphaned(s) || (Kept(s) && step == Launch(false)))
    ensures Orphaned(Next(s, step))
  {
    KeptStep(s, step);
    if Orphaned(s) {
      LostStep(s, step);
    }
  }

  lemma {:induction false} NoThread(states: seq<Life>, steps: seq<Step>, i: nat, k: nat)
    requires Run(states, steps) && i < k <= |steps| && steps[i] == Launch(false)
    ensures Orphaned(states[k])
  {
    hide Kept, Orphaned, Enabled, Next;
    KeptAlways(states, steps, k - 1);
    if k > i + 1 {
      NoThread(states, steps, i, k - 1);
    }
    OrphanedStep(states[k - 1], steps[k - 1]);
  }
}
