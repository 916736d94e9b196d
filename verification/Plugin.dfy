/** The plug-in's wrapper around start and stop. Other threads change the state word at will, so the
    successive values its loads return are a parameter: `loads(k)` is what load number k reads. */
module Plugin {
  import opened Lifecycle
  import opened Calls
  import opened Restarts

  /** `desired` is read by the load at `at`, or by a poll whose total wait is still under the limit. */
  ghost predicate SeenInTime(loads: nat -> Phase, at: nat, desired: Phase, waitMs: int) {
    exists m: nat :: at <= m && (m == at || 50 * (m - at) < waitMs) && loads(m) == desired
  }

  /** `service_state_wait`: polls every 50 ms. The poll that uses the limit up is not looked at. */
  method StateWait(loads: nat -> Phase, at: nat, desired: Phase, waitMs: int) returns (ok: bool, next: nat)
    ensures ok <==> SeenInTime(loads, at, desired, waitMs)
    ensures next > at && (ok ==> loads(next - 1) == desired)
    ensures forall m: nat :: at <= m < next - 1 ==> loads(m) != desired
  {
    var total, k := 0, 0;
    var state := loads(at);
    while state != desired
      invariant total == 50 * k && state == loads(at + k)
      invariant forall m: nat :: at <= m < at + k ==> loads(m) != desired
      invariant k == 0 || total < waitMs
      decreases if total < waitMs then waitMs - total else 0, if k == 0 then 1 else 0
    {
      k := k + 1;
      state := loads(at + k);
      total := total + 50;
      if total >= waitMs {
        return false, at + k + 1;
      }
    }
    return true, at + k + 1;
  }

  /** Stop is called with load number `last` the latest before it, and that load read STARTED: at once,
      or by a poll in time after a first load that read STARTING. */
  ghost predicate StopsAfter(loads: nat -> Phase, last: nat) {
    && loads(last) == Started
    && (last == 0 || (loads(0) == Starting && SeenInTime(loads, 1, Started, 500)))
  }

  /** `service_stop`. `stopOk` is what `svl_service_stop` returns if it is called; `called` says
      whether it was, and `last` numbers the last load before that point. */
  method ServiceStop(loads: nat -> Phase, stopOk: bool) returns (ok: bool, called: bool, last: nat)
    ensures called <==> loads(0) == Started || (loads(0) == Starting && SeenInTime(loads, 1, Started, 500))
    ensures called ==> StopsAfter(loads, last)
    ensures forall m: nat :: 1 <= m < last ==> loads(m) != Started
    ensures loads(0) != Starting ==> last == 0
    ensures ok <==> && loads(0) != Error
                    && (loads(0) == Starting ==> called)
                    && (called ==> stopOk)
                    && SeenInTime(loads, last + 1, Stopped, 500)
    // A service that was never started stays NEW, and stopping it times out.
    ensures (forall k: nat :: loads(k) == New) ==> !ok
  {
    called, last := false, 0;
    var state := loads(0);
    if state == Error {
      return false, called, last;
    }
    if state == Starting {
      var seen, next := StateWait(loads, 1, Started, 500);
      last := next - 1;
      if !seen {
        return false, called, last;
      }
      called := true;
    }
    if state == Started {
      called := true;
    }
    if called && !stopOk {
      return false, called, last;
    }
    var next;
    ok, next := StateWait(loads, last + 1, Stopped, 500);
  }

  // ---- the wrapper on a run -------------------------------------------------------------------

  /** The loads of one call, number k of them made in state `at[k]` of the run, up to step `p`. They are
      made by the thread that calls start and stop, which does nothing else meanwhile. */
  predicate LoadedIn(states: seq<Life>, steps: seq<Step>, p: nat, at: seq<nat>, loads: nat -> Phase)
    requires |states| == |steps| + 1 && p < |steps|
  {
    && at != [] && (forall k :: 0 <= k < |at| ==> at[0] <= at[k] <= p && states[at[k]].phase == loads(k))
    && (forall k, m :: 0 <= k < m < |at| ==> at[k] <= at[m])
    && CallerIdle(steps, at[0], p) && states[at[0]].caller == Out
  }

  /** Step `p` of the run is the first step of a stop that `service_stop` calls. */
  ghost predicate IssuedByWrapper(states: seq<Life>, steps: seq<Step>, p: nat)
    requires |states| == |steps| + 1 && p < |steps|
  {
    exists loads: nat -> Phase, at: seq<nat> ::
      LoadedIn(states, steps, p, at, loads) && StopsAfter(loads, |at| - 1)
  }

  lemma CallerOnlyStep(s: Life, step: Step)
    requires Enabled(s, step) && !CallerStep(step)
    ensures Next(s, step).caller == s.caller
  {
  }

  /** A caller outside its calls stays outside while it does nothing. */
  lemma {:induction false} StaysOut(states: seq<Life>, steps: seq<Step>, i: nat, k: nat)
    requires Run(states, steps) && i <= k <= |steps| && CallerIdle(steps, i, k)
    ensures states[k].caller == states[i].caller
  {
    if i < k {
      StaysOut(states, steps, i, k - 1);
      CallerOnlyStep(states[k - 1], steps[k - 1]);
    }
  }

  /** The wrapper calls stop on STARTED. */
  lemma IssuedOnStarted(states: seq<Life>, steps: seq<Step>, p: nat)
    requires Run(states, steps) && NoSigint(steps) && p < |steps| && IssuedByWrapper(states, steps, p)
    ensures Observed(states, steps, p) && states[p].phase == Started
  {
    var loads: nat -> Phase, at: seq<nat> :|
      LoadedIn(states, steps, p, at, loads) && StopsAfter(loads, |at| - 1);
    var i := at[|at| - 1];
    StaysOut(states, steps, at[0], i);
    assert states[i].phase == Started && CallerIdle(steps, i, p);
    StartedStays(states, steps, i, p);
  }

  /** Without SIGINT, a stop the wrapper calls returns success if it returns at all, and leaves STOPPED
      with the IO thread gone: the result `ServiceStop` is given is never an error. */
  lemma WrapperStopSucceeds(states: seq<Life>, steps: seq<Step>, p: nat, k: nat)
    requires Run(states, steps) && NoSigint(steps) && OneCall(steps, p, k) && steps[p] == StopLoad
    requires IssuedByWrapper(states, steps, p) && states[k].caller == Out
    ensures Stops(states[k])
  {
    IssuedOnStarted(states, steps, p);
    StopSucceedsExactly(states, steps, p, k);
  }

  /** When every stop of a run is issued by the wrapper and no SIGINT comes, the run is disciplined: no
      stop hangs, STARTED does not come back after STOPPING in a launch, and a stop that succeeded left
      STOPPED with the IO thread gone. */
  lemma WrapperStops(states: seq<Life>, steps: seq<Step>, j: nat, k: nat)
    requires Run(states, steps) && NoSigint(steps) && j <= k < |states|
    requires forall p :: 0 <= p < |steps| && steps[p] == StopLoad ==> IssuedByWrapper(states, steps, p)
    ensures Disciplined(states, steps) && !Hung(states[k])
    ensures states[j].phase == Stopping && SameLaunch(steps, j, k) ==> states[k].phase != Started
    ensures states[k].returned == StopOk && states[k].caller == Out ==>
              (states[k].phase == New || states[k].phase == Stopped) && states[k].io == Absent
  {
    hide Hung;
    forall p | 0 <= p < |steps| && steps[p] == StopLoad ensures Observed(states, steps, p) {
      IssuedOnStarted(states, steps, p);
    }
    ObservedIsDisciplined(states, steps);
    StopDiscipline(states, steps, j, k);
  }
}
