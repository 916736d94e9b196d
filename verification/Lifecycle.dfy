/** Start, stop, SIGINT and the IO thread over one atomic state word. Every load and every store of
    the word is a step of its own, so that checks and the stores they guard can be separated. */
module Lifecycle {

  datatype Phase = New | Starting | Started | Stopping | Stopped | Error

  /** Where the IO thread is. `Checked`: it has seen STARTING and will store STARTED. `Signalled`:
      the SIGINT callback has decided to store STOPPING. `Draining`: the timer has closed the service
      handles. `Failing`: it will store ERROR. `Done`: the thread function returned and nobody joined
      it yet. */
  datatype Io = Absent | Booting | Checked | Running | Signalled | Draining | Exiting | Failing | Done

  /** Where the thread calling start and stop is. */
  datatype Caller = Out | StartDecided | Launching | StopDecided | Joining | JoinFailed | Joined

  /** `overlap`: a thread was launched while one was alive. `returned`: what the last call returned, if
      that call is over. */
  datatype Life = Life(phase: Phase, io: Io, caller: Caller, overlap: bool, returned: Returned)

  datatype Returned = Nothing | StartOk | StartErr | StopOk | StopErr

  predicate Alive(io: Io) { io != Absent && io != Done }

  function Initial(): Life { Life(New, Absent, Out, false, Nothing) }

  datatype Step =
    | StartLoad | StartStore | Launch(ok: bool)
    | StopLoad | StopStore | Join | JoinErrorStore | StoppedStore
    | BootLoad | BootFail | BootQuit | StartedStore | TimerLoad | LoopExit | LoopClose(ok: bool) | ErrorStore
    | SigintLoad | SigintStore

  predicate Enabled(s: Life, step: Step) {
    match step
    case StartLoad => s.caller == Out
    case StartStore => s.caller == StartDecided
    case Launch(_) => s.caller == Launching
    case StopLoad => s.caller == Out
    case StopStore => s.caller == StopDecided
    case Join => s.caller == Joining && !Alive(s.io)
    case JoinErrorStore => s.caller == JoinFailed
    case StoppedStore => s.caller == Joined
    case BootLoad => s.io == Booting
    case BootFail => s.io == Booting
    case BootQuit => s.io == Booting
    case StartedStore => s.io == Checked
    case TimerLoad => s.io == Running
    case LoopExit => s.io == Draining
    case LoopClose(_) => s.io == Exiting
    case ErrorStore => s.io == Failing
    case SigintLoad => s.io == Running
    case SigintStore => s.io == Signalled
  }

  function Next(s: Life, step: Step): Life
    requires Enabled(s, step)
  {
    match step
    case StartLoad =>
      (match s.phase
       case New => s.(caller := StartDecided, returned := Nothing)
       case Stopped => s.(caller := StartDecided, returned := Nothing)
       case Starting => s.(returned := StartOk)
       case Started => s.(returned := StartOk)
       case _ => s.(returned := StartErr))
    case StartStore => s.(phase := Starting, caller := Launching)
    case Launch(ok) =>
      if ok then s.(io := Booting, caller := Out, returned := StartOk, overlap := s.overlap || Alive(s.io))
      else s.(caller := Out, returned := StartErr)
    case StopLoad =>
      (match s.phase
       case Starting => s.(caller := StopDecided, returned := Nothing)
       case Started => s.(caller := StopDecided, returned := Nothing)
       case Error => s.(returned := StopErr)
       case _ => s.(returned := StopOk))
    case StopStore => s.(phase := Stopping, caller := Joining)
    case Join => if s.io == Done then s.(io := Absent, caller := Joined) else s.(caller := JoinFailed)
    case JoinErrorStore => s.(phase := Error, caller := Out, returned := StopErr)
    case StoppedStore => s.(phase := Stopped, caller := Out, returned := StopOk)
    case BootLoad => s.(io := if s.phase == Starting then Checked else Exiting)
    case BootFail => s.(io := Failing)
    case BootQuit => s.(io := Done)
    case StartedStore => s.(phase := Started, io := Running)
    case TimerLoad => if s.phase == Started then s else s.(io := Draining)
    case LoopExit => s.(io := Exiting)
    case LoopClose(ok) => s.(io := if ok then Done else Failing)
    case ErrorStore => s.(phase := Error, io := Done)
    case SigintLoad =>
      if s.phase == Stopping || s.phase == Stopped || s.phase == Error then s else s.(io := Signalled)
    case SigintStore => s.(phase := Stopping, io := Running)
  }

  /** A run: the states passed through, one more than the steps taken. */
  predicate Run(states: seq<Life>, steps: seq<Step>) {
    && |states| == |steps| + 1 && states[0] == Initial()
    && forall k :: 0 <= k < |steps| ==> Enabled(states[k], steps[k]) && states[k + 1] == Next(states[k], steps[k])
  }

  predicate NoSigint(steps: seq<Step>) {
    forall k :: 0 <= k < |steps| ==> steps[k] != SigintLoad && steps[k] != SigintStore
  }

  // ---- one IO thread at a time ----------------------------------------------------------------

  predicate Safe(s: Life) {
    && !s.overlap
    && (s.io != Absent ==> s.phase != New && s.phase != Stopped)
    && (s.caller == StartDecided ==> s.io == Absent && (s.phase == New || s.phase == Stopped))
    && (s.caller == Launching ==> s.io == Absent && s.phase == Starting)
    && (s.caller == Joined || s.caller == JoinFailed ==> s.io == Absent)
    && (s.caller == Joining ==> s.phase != New && s.phase != Stopped)
    && (s.caller == StopDecided ==> s.phase != New && s.phase != Stopped)
  }

  lemma SafeStep(s: Life, step: Step)
    requires Safe(s) && Enabled(s, step)
    ensures Safe(Next(s, step))
  {
  }

  lemma SafeMeans(s: Life)
    requires Safe(s)
    ensures !s.overlap && (s.phase == New || s.phase == Stopped ==> s.io == Absent)
  {
  }

  /** Over every interleaving, SIGINT included: state NEW or STOPPED means no IO thread is alive,
      and two IO threads never coexist. */
  lemma {:induction false} OneIoThread(states: seq<Life>, steps: seq<Step>, k: nat)
    requires Run(states, steps) && k < |states|
    ensures Safe(states[k])
    ensures !states[k].overlap
    ensures states[k].phase == New || states[k].phase == Stopped ==> states[k].io == Absent
  {
    if k > 0 {
      OneIoThread(states, steps, k - 1);
      hide Safe, Enabled, Next;
      SafeStep(states[k - 1], steps[k - 1]);
    }
    SafeMeans(states[k]);
  }

  // ---- the lost stop --------------------------------------------------------------------------

  /** The caller waits in join for a thread that has overwritten, or is about to overwrite, its
      STOPPING with STARTED. */
  predicate Hung(s: Life) {
    s.caller == Joining && ((s.io == Checked && s.phase == Stopping) || (s.io == Running && s.phase == Started))
  }

  /** What else holds without SIGINT. */
  predicate Calm(s: Life) {
    && Safe(s) && s.io != Signalled
    && (s.io == Checked ==> s.phase == Starting || (s.phase == Stopping && s.caller == Joining))
    && (s.io == Booting ==> s.phase == Starting || (s.phase == Stopping && s.caller == Joining))
    && (s.io == Running ==> s.phase == Started || (s.phase == Stopping && s.caller == Joining))
    && (s.phase == Started ==> s.io == Running)
    && (s.phase == Starting ==> s.io == Absent || s.io == Booting || s.io == Checked || s.io == Failing || s.io == Done)
    && (s.io == Draining || s.io == Exiting ==> s.phase == Stopping && s.caller == Joining)
    && (s.caller == Joining ==> s.phase == Stopping || s.phase == Started || s.phase == Error)
    && (s.phase == Stopping ==> s.caller == Joining || s.caller == Joined || s.caller == JoinFailed)
  }

  lemma CalmStep(s: Life, step: Step)
    requires Calm(s) && Enabled(s, step) && step != SigintLoad && step != SigintStore
    ensures Calm(Next(s, step))
  {
  }

  lemma {:induction false} CalmWithoutSigint(states: seq<Life>, steps: seq<Step>, k: nat)
    requires Run(states, steps) && NoSigint(steps) && k < |states|
    ensures Calm(states[k])
  {
    if k > 0 {
      CalmWithoutSigint(states, steps, k - 1);
      hide Calm, Enabled, Next;
      CalmStep(states[k - 1], steps[k - 1]);
    }
  }

  /** The store of STOPPING falls between the IO thread's check and its store of STARTED. */
  predicate LosesStop(s: Life, step: Step) {
    step == StopStore && s.io == Checked
  }

  lemma HungStep(s: Life, step: Step)
    requires Calm(s) && Enabled(s, step) && step != SigintLoad && step != SigintStore
    ensures Hung(Next(s, step)) <==> Hung(s) || LosesStop(s, step)
  {
  }

  lemma HungAfter(states: seq<Life>, steps: seq<Step>, k: nat)
    requires Run(states, steps) && NoSigint(steps) && k < |steps|
    ensures Hung(states[k + 1]) <==> Hung(states[k]) || LosesStop(states[k], steps[k])
  {
    hide Calm, Hung, LosesStop, Enabled, Next;
    CalmWithoutSigint(states, steps, k);
    HungStep(states[k], steps[k]);
  }

  /** Exactly when a stop is lost: the caller hangs at step k if and only if some stop before it
      stored STOPPING between the IO thread's load and its store. */
  lemma {:induction false} LostStopExactly(states: seq<Life>, steps: seq<Step>, k: nat)
    requires Run(states, steps) && NoSigint(steps) && k < |states|
    ensures Hung(states[k]) <==> exists j :: 0 <= j < k && LosesStop(states[j], steps[j])
  {
    assert |states| == |steps| + 1;
    if k > 0 {
      hide Run, NoSigint, Hung, LosesStop;
      LostStopExactly(states, steps, k - 1);
      HungAfter(states, steps, k - 1);
    } else {
      assert states[0] == Initial();
    }
  }

  /** A run that starts anywhere. */
  predicate Path(states: seq<Life>, steps: seq<Step>) {
    && |states| == |steps| + 1
    && forall k :: 0 <= k < |steps| ==> Enabled(states[k], steps[k]) && states[k + 1] == Next(states[k], steps[k])
  }

  /** Once hung, for ever hung: without SIGINT no continuation lets the caller return. */
  lemma {:induction false} HungForever(states: seq<Life>, steps: seq<Step>, k: nat)
    requires Path(states, steps) && NoSigint(steps) && k < |states| && Hung(states[0])
    ensures Hung(states[k])
  {
    if k > 0 {
      HungForever(states, steps, k - 1);
    }
  }

  /** What the IO thread does next on its way out. */
  function NextOut(io: Io): Step {
    match io
    case Booting => BootLoad
    case Running => TimerLoad
    case Draining => LoopExit
    case Exiting => LoopClose(true)
    case Failing => ErrorStore
    case _ => Join
  }

  function StepsLeft(io: Io): nat {
    match io
    case Running => 3
    case Booting => 2
    case Draining => 2
    case Exiting => 1
    case Failing => 1
    case _ => 0
  }

  lemma {:induction false} LetOut(s: Life) returns (states: seq<Life>, steps: seq<Step>)
    requires Calm(s) && s.caller == Joining && !Hung(s)
    ensures Path(states, steps) && NoSigint(steps) && states[0] == s
    ensures states[|steps|].caller == Out
    decreases StepsLeft(s.io)
  {
    var step := NextOut(s.io);
    var m := Next(s, step);
    CalmStep(s, step);
    if Alive(s.io) {
      states, steps := LetOut(m);
    } else {
      var last := if s.io == Done then StoppedStore else JoinErrorStore;
      states, steps := [m, Next(m, last)], [last];
    }
    states, steps := Prepend(s, step, states, steps);
  }

  lemma Prepend(s: Life, step: Step, states: seq<Life>, steps: seq<Step>)
    returns (states': seq<Life>, steps': seq<Step>)
    requires Enabled(s, step) && step != SigintLoad && step != SigintStore
    requires Path(states, steps) && NoSigint(steps) && states[0] == Next(s, step)
    ensures Path(states', steps') && NoSigint(steps') && states'[0] == s
    ensures states'[|steps'|] == states[|steps|]
  {
    hide Enabled, Next;
    states', steps' := [s] + states, [step] + steps;
    forall k | 0 <= k < |steps'|
      ensures Enabled(states'[k], steps'[k]) && states'[k + 1] == Next(states'[k], steps'[k])
    {
      if k > 0 {
        assert states'[k] == states[k - 1] && steps'[k] == steps[k - 1] && states'[k + 1] == states[k - 1 + 1];
      }
    }
  }

  /** Some continuation without SIGINT ends with the caller out of its call. */
  ghost predicate CanReturn(s: Life) {
    exists states: seq<Life>, steps: seq<Step> ::
      Path(states, steps) && NoSigint(steps) && states[0] == s && states[|steps|].caller == Out
  }

  /** A stop call that is waiting for the IO thread can return if and only if it is not hung. */
  lemma StopReturnsExactly(states: seq<Life>, steps: seq<Step>, k: nat)
    requires Run(states, steps) && NoSigint(steps) && k < |states| && states[k].caller == Joining
    ensures CanReturn(states[k]) <==> !Hung(states[k])
  {
    var s := states[k];
    CalmWithoutSigint(states, steps, k);
    if Hung(s) && CanReturn(s) {
      var more: seq<Life>, taken: seq<Step> :|
        Path(more, taken) && NoSigint(taken) && more[0] == s && more[|taken|].caller == Out;
      HungForever(more, taken, |taken|);
      assert false;
    }
    if !Hung(s) {
      var more, taken := LetOut(s);
    }
  }

  /** The race exists: a stop issued right after a start can hang. */
  lemma StopDuringStartCanHang() returns (states: seq<Life>, steps: seq<Step>)
    ensures Run(states, steps) && NoSigint(steps) && Hung(states[|steps|])
  {
    var a := Initial();
    var b := a.(caller := StartDecided);
    var c := b.(phase := Starting, caller := Launching);
    var d := c.(io := Booting, caller := Out, returned := StartOk);
    var e := d.(io := Checked);
    var f := e.(caller := StopDecided, returned := Nothing);
    var g := f.(phase := Stopping, caller := Joining);
    var h := g.(phase := Started, io := Running);
    states := [a, b, c, d, e, f, g, h];
    steps := [StartLoad, StartStore, Launch(true), BootLoad, StopLoad, StopStore, StartedStore];
  }

  // ---- the discipline of the plug-in ----------------------------------------------------------

  /** Stop is never called while the state reads STARTING. */
  predicate Disciplined(states: seq<Life>, steps: seq<Step>)
    requires |states| == |steps| + 1
  {
    forall k :: 0 <= k < |steps| && steps[k] == StopLoad ==> states[k].phase != Starting
  }

  predicate CallerStep(step: Step) {
    || step.StartLoad? || step.StartStore? || step.Launch?
    || step.StopLoad? || step.StopStore? || step.Join? || step.JoinErrorStore? || step.StoppedStore?
  }

  /** The calling thread takes none of the steps `i` to `k`. */
  predicate CallerIdle(steps: seq<Step>, i: nat, k: nat)
    requires i <= k <= |steps|
  {
    forall m :: i <= m < k ==> !CallerStep(steps[m])
  }

  lemma StartedStep(s: Life, step: Step)
    requires Calm(s) && Enabled(s, step) && step != SigintLoad && step != SigintStore
    requires s.phase == Started && s.caller == Out && !CallerStep(step)
    ensures Next(s, step).phase == Started && Next(s, step).caller == Out
  {
  }

  /** A caller that has read STARTED will read STARTED again until it acts itself. */
  lemma {:induction false} StartedStays(states: seq<Life>, steps: seq<Step>, i: nat, k: nat)
    requires Run(states, steps) && NoSigint(steps) && i <= k <= |steps| && CallerIdle(steps, i, k)
    requires states[i].phase == Started && states[i].caller == Out
    ensures states[k].phase == Started && states[k].caller == Out
  {
    if i < k {
      StartedStays(states, steps, i, k - 1);
      CalmWithoutSigint(states, steps, k - 1);
      hide Calm, Enabled, Next, CallerStep;
      StartedStep(states[k - 1], steps[k - 1]);
    }
  }

  predicate Orderly(s: Life) {
    && Calm(s)
    && (s.caller == StopDecided ==> s.phase == Started)
    && (s.caller == Joining ==> s.io != Booting && s.io != Checked && s.phase != Started)
    && (s.caller == Joined ==> s.phase == Stopping || s.phase == Error)
    && (s.caller != Out ==> s.returned == Nothing)
    && (s.returned == StopOk ==> s.phase == New || s.phase == Stopped)
  }

  lemma OrderlyStep(s: Life, step: Step)
    requires Orderly(s) && Enabled(s, step) && step != SigintLoad && step != SigintStore
    requires step == StopLoad ==> s.phase != Starting
    ensures Orderly(Next(s, step))
  {
    CalmStep(s, step);
  }

  lemma {:induction false} OrderlyWhenDisciplined(states: seq<Life>, steps: seq<Step>, k: nat)
    requires Run(states, steps) && NoSigint(steps) && Disciplined(states, steps) && k < |states|
    ensures Orderly(states[k])
  {
    if k > 0 {
      OrderlyWhenDisciplined(states, steps, k - 1);
      hide Orderly, Calm, Enabled, Next;
      OrderlyStep(states[k - 1], steps[k - 1]);
    }
  }

  /** Before step `p` the caller read STARTED and has done nothing since. */
  predicate Observed(states: seq<Life>, steps: seq<Step>, p: nat)
    requires |states| == |steps| + 1 && p < |steps|
  {
    exists i :: 0 <= i <= p && states[i].phase == Started && states[i].caller == Out && CallerIdle(steps, i, p)
  }

  /** Calling stop only after having read STARTED is enough discipline. */
  lemma ObservedIsDisciplined(states: seq<Life>, steps: seq<Step>)
    requires Run(states, steps) && NoSigint(steps)
    requires forall p :: 0 <= p < |steps| && steps[p] == StopLoad ==> Observed(states, steps, p)
    ensures Disciplined(states, steps)
  {
    hide CallerIdle;
    forall p | 0 <= p < |steps| && steps[p] == StopLoad ensures states[p].phase != Starting {
      var i :| 0 <= i <= p && states[i].phase == Started && states[i].caller == Out && CallerIdle(steps, i, p);
      StartedStays(states, steps, i, p);
    }
  }

  /** Past STARTED, in this launch. */
  predicate WindingDown(phase: Phase) {
    phase == Stopping || phase == Error || phase == Stopped
  }

  lemma WindsDown(s: Life, step: Step)
    requires Orderly(s) && WindingDown(s.phase) && Enabled(s, step)
    requires step != SigintLoad && step != SigintStore && step != StartStore
    ensures WindingDown(Next(s, step).phase)
  {
  }

  /** No start stores STARTING among the steps `j` to `k`. */
  predicate SameLaunch(steps: seq<Step>, j: nat, k: nat)
    requires j <= k <= |steps|
  {
    forall m :: j <= m < k ==> steps[m] != StartStore
  }

  lemma {:induction false} StaysDown(states: seq<Life>, steps: seq<Step>, j: nat, k: nat)
    requires Run(states, steps) && NoSigint(steps) && Disciplined(states, steps)
    requires j <= k <= |steps| && SameLaunch(steps, j, k) && WindingDown(states[j].phase)
    ensures WindingDown(states[k].phase)
  {
    hide Orderly, Enabled, Next, WindingDown, Disciplined;
    if j < k {
      StaysDown(states, steps, j, k - 1);
      OrderlyWhenDisciplined(states, steps, k - 1);
      WindsDown(states[k - 1], steps[k - 1]);
    }
  }

  /** With stop issued only when STARTING is not what the state reads, and no SIGINT: no stop is
      ever lost; once the state was STOPPING, STARTED does not come back in that launch; and after a
      stop that returned success the state is STOPPED, or NEW if nothing was ever started, and the IO
      thread is gone. */
  lemma StopDiscipline(states: seq<Life>, steps: seq<Step>, j: nat, k: nat)
    requires Run(states, steps) && NoSigint(steps) && Disciplined(states, steps) && j <= k < |states|
    ensures !Hung(states[k])
    ensures states[j].phase == Stopping && SameLaunch(steps, j, k) ==> states[k].phase != Started
    ensures states[k].returned == StopOk && states[k].caller == Out ==>
              (states[k].phase == New || states[k].phase == Stopped) && states[k].io == Absent
  {
    OrderlyWhenDisciplined(states, steps, k);
    OneIoThread(states, steps, k);
    if states[j].phase == Stopping && SameLaunch(steps, j, k) {
      StaysDown(states, steps, j, k);
    }
  }
}
