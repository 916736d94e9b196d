/** What start and stop do and return, and what the state word says, over every interleaving with the IO
    thread and with SIGINT. The statements are about the steps a run took and what its loads read. */
module Calls {
  import opened Lifecycle

  // ---- the state word -------------------------------------------------------------------------

  /** What a step writes to the state word. */
  function Stores(step: Step): Phase
    requires StoresPhase(step)
  {
    match step
    case StartStore => Starting
    case StartedStore => Started
    case StopStore => Stopping
    case SigintStore => Stopping
    case StoppedStore => Stopped
    case _ => Error
  }

  predicate StoresPhase(step: Step) {
    CallerStores(step) || step == StartedStore || step == ErrorStore || step == SigintStore
  }

  predicate CallerStores(step: Step) {
    step == StartStore || step == StopStore || step == JoinErrorStore || step == StoppedStore
  }

  /** Step `j` is the last before `k` that wrote the state word. */
  predicate LastStore(steps: seq<Step>, j: nat, k: nat) {
    j < k <= |steps| && StoresPhase(steps[j]) && forall m :: j < m < k ==> !StoresPhase(steps[m])
  }

  lemma StoreStep(s: Life, step: Step)
    requires Enabled(s, step)
    ensures Next(s, step).phase == if StoresPhase(step) then Stores(step) else s.phase
  {
  }

  /** The state is what was stored last, and NEW until something is. */
  lemma {:induction false} StateIsLastStore(states: seq<Life>, steps: seq<Step>, k: nat)
    requires Run(states, steps) && k < |states|
    ensures forall j: nat :: LastStore(steps, j, k) ==> states[k].phase == Stores(steps[j])
    ensures (forall j :: 0 <= j < k ==> !StoresPhase(steps[j])) ==> states[k].phase == New
  {
    if k > 0 {
      hide Enabled, Next, StoresPhase, Stores;
      StateIsLastStore(states, steps, k - 1);
      StoreStep(states[k - 1], steps[k - 1]);
      forall j: nat | LastStore(steps, j, k) ensures states[k].phase == Stores(steps[j]) {
        if j < k - 1 {
          assert LastStore(steps, j, k - 1);
        }
      }
    }
  }

  lemma RunStep(states: seq<Life>, steps: seq<Step>, k: nat)
    requires Run(states, steps) && k < |steps|
    ensures |states| == |steps| + 1 && Enabled(states[k], steps[k]) && states[k + 1] == Next(states[k], steps[k])
  {
  }

  // ---- calls ----------------------------------------------------------------------------------

  predicate IsLoad(step: Step) { step == StartLoad || step == StopLoad }

  /** The steps from `p` to `k` are those of the call that step `p` begins, and of others meanwhile. */
  predicate OneCall(steps: seq<Step>, p: nat, k: nat) {
    p < k <= |steps| && IsLoad(steps[p]) && forall m :: p < m < k ==> !IsLoad(steps[m])
  }

  /** The call took this step. */
  predicate Took(steps: seq<Step>, p: nat, k: nat, step: Step)
    requires k <= |steps|
  {
    exists j :: p < j < k && steps[j] == step
  }

  /** The call joined in a state with the IO thread `io`. */
  predicate JoinedWhen(states: seq<Life>, steps: seq<Step>, p: nat, k: nat, io: Io)
    requires k <= |steps| < |states|
  {
    exists j :: p < j < k && steps[j] == Join && states[j].io == io
  }

  lemma TookNothing(steps: seq<Step>, p: nat, step: Step)
    requires p < |steps|
    ensures !Took(steps, p, p + 1, step)
  {
  }

  lemma JoinedNothing(states: seq<Life>, steps: seq<Step>, p: nat, io: Io)
    requires p < |steps| < |states|
    ensures !JoinedWhen(states, steps, p, p + 1, io)
  {
  }

  lemma TookMore(steps: seq<Step>, p: nat, k: nat, step: Step)
    requires p < k < |steps|
    ensures Took(steps, p, k + 1, step) <==> Took(steps, p, k, step) || steps[k] == step
  {
  }

  lemma JoinedMore(states: seq<Life>, steps: seq<Step>, p: nat, k: nat, io: Io)
    requires p < k < |steps| < |states|
    ensures JoinedWhen(states, steps, p, k + 1, io) <==>
              JoinedWhen(states, steps, p, k, io) || (steps[k] == Join && states[k].io == io)
  {
  }

  /** What a start that read `read` has done when the caller stands at `at`. */
  predicate StartStage(read: Phase, at: Caller, stored: bool, launched: bool, failed: bool, returned: Returned) {
    if read == New || read == Stopped then
      match at
      case StartDecided => !stored && !launched && !failed
      case Launching => stored && !launched && !failed
      case Out => stored && launched != failed && returned == if failed then StartErr else StartOk
      case _ => false
    else
      && at == Out && !stored && !launched && !failed
      && returned == if read == Starting || read == Started then StartOk else StartErr
  }

  lemma StartStageStep(read: Phase, s: Life, step: Step, stored: bool, launched: bool, failed: bool)
    requires Enabled(s, step) && !IsLoad(step) && StartStage(read, s.caller, stored, launched, failed, s.returned)
    ensures StartStage(read, Next(s, step).caller, stored || step == StartStore, launched || step == Launch(true),
                       failed || step == Launch(false), Next(s, step).returned)
  {
  }

  lemma StartBegins(s: Life, t: Life)
    requires Enabled(s, StartLoad) && t == Next(s, StartLoad)
    ensures StartStage(s.phase, t.caller, false, false, false, t.returned)
  {
  }

  lemma {:induction false} StartStages(states: seq<Life>, steps: seq<Step>, p: nat, k: nat)
    requires Run(states, steps) && OneCall(steps, p, k) && steps[p] == StartLoad
    ensures StartStage(states[p].phase, states[k].caller, Took(steps, p, k, StartStore), Took(steps, p, k, Launch(true)),
                       Took(steps, p, k, Launch(false)), states[k].returned)
  {
    hide Enabled, Next, StartStage, Took;
    if k == p + 1 {
      StartBegins(states[p], states[k]);
      TookNothing(steps, p, StartStore);
      TookNothing(steps, p, Launch(true));
      TookNothing(steps, p, Launch(false));
    } else {
      StartStages(states, steps, p, k - 1);
      TookMore(steps, p, k - 1, StartStore);
      TookMore(steps, p, k - 1, Launch(true));
      TookMore(steps, p, k - 1, Launch(false));
      StartStageStep(states[p].phase, states[k - 1], steps[k - 1], Took(steps, p, k - 1, StartStore),
                     Took(steps, p, k - 1, Launch(true)), Took(steps, p, k - 1, Launch(false)));
    }
  }

  /** A start that is over stored STARTING and launched a thread exactly when it read NEW or STOPPED, and
      returned an error exactly when it read STOPPING or ERROR or its launch failed. */
  lemma StartDoesExactly(states: seq<Life>, steps: seq<Step>, p: nat, k: nat)
    requires Run(states, steps) && OneCall(steps, p, k) && steps[p] == StartLoad && states[k].caller == Out
    ensures var idle := states[p].phase == New || states[p].phase == Stopped;
            && (Took(steps, p, k, StartStore) <==> idle)
            && (Took(steps, p, k, Launch(true)) || Took(steps, p, k, Launch(false)) <==> idle)
    ensures states[k].returned == StartErr <==>
              states[p].phase == Stopping || states[p].phase == Error || Took(steps, p, k, Launch(false))
    ensures states[k].returned == StartErr || states[k].returned == StartOk
  {
    StartStages(states, steps, p, k);
  }

  /** What a stop that read `read` has done when the caller stands at `at`. */
  predicate StopStage(read: Phase, at: Caller, stored: bool, found: bool, none: bool, returned: Returned) {
    if read == Starting || read == Started then
      match at
      case StopDecided => !stored && !found && !none
      case Joining => stored && !found && !none
      case Joined => stored && found && !none
      case JoinFailed => stored && !found && none
      case Out => stored && found != none && returned == if none then StopErr else StopOk
      case _ => false
    else
      && at == Out && !stored && !found && !none
      && returned == if read == Error then StopErr else StopOk
  }

  lemma StopStageStep(read: Phase, s: Life, step: Step, stored: bool, found: bool, none: bool)
    requires Enabled(s, step) && !IsLoad(step) && StopStage(read, s.caller, stored, found, none, s.returned)
    ensures StopStage(read, Next(s, step).caller, stored || step == StopStore, found || (step == Join && s.io == Done),
                      none || (step == Join && s.io == Absent), Next(s, step).returned)
  {
  }

  lemma StopBegins(s: Life, t: Life)
    requires Enabled(s, StopLoad) && t == Next(s, StopLoad)
    ensures StopStage(s.phase, t.caller, false, false, false, t.returned)
  {
  }

  lemma {:induction false} StopStages(states: seq<Life>, steps: seq<Step>, p: nat, k: nat)
    requires Run(states, steps) && OneCall(steps, p, k) && steps[p] == StopLoad
    ensures StopStage(states[p].phase, states[k].caller, Took(steps, p, k, StopStore),
                      JoinedWhen(states, steps, p, k, Done), JoinedWhen(states, steps, p, k, Absent),
                      states[k].returned)
  {
    hide Enabled, Next, StopStage, Took, JoinedWhen;
    if k == p + 1 {
      StopBegins(states[p], states[k]);
      TookNothing(steps, p, StopStore);
      JoinedNothing(states, steps, p, Done);
      JoinedNothing(states, steps, p, Absent);
    } else {
      StopStages(states, steps, p, k - 1);
      TookMore(steps, p, k - 1, StopStore);
      JoinedMore(states, steps, p, k - 1, Done);
      JoinedMore(states, steps, p, k - 1, Absent);
      StopStageStep(states[p].phase, states[k - 1], steps[k - 1], Took(steps, p, k - 1, StopStore),
                    JoinedWhen(states, steps, p, k - 1, Done), JoinedWhen(states, steps, p, k - 1, Absent));
    }
  }

  /** A stop that is over stored STOPPING, and then joined, exactly when it read STARTING or STARTED, and
      returned an error exactly when it read ERROR or its join found no thread. */
  lemma StopDoesExactly(states: seq<Life>, steps: seq<Step>, p: nat, k: nat)
    requires Run(states, steps) && OneCall(steps, p, k) && steps[p] == StopLoad && states[k].caller == Out
    ensures var up := states[p].phase == Starting || states[p].phase == Started;
            && (Took(steps, p, k, StopStore) <==> up)
            && (JoinedWhen(states, steps, p, k, Done) || JoinedWhen(states, steps, p, k, Absent) <==> up)
    ensures states[k].returned == StopErr <==>
              states[p].phase == Error || JoinedWhen(states, steps, p, k, Absent)
    ensures states[k].returned == StopErr || states[k].returned == StopOk
  {
    StopStages(states, steps, p, k);
  }

  // ---- a stop that does something -------------------------------------------------------------

  /** What holds in every run, SIGINT included. */
  predicate Kept(s: Life) {
    && Safe(s)
    && (s.phase == Started ==> s.io == Running || s.io == Signalled)
    && (s.phase == Starting ==> s.io == Absent || s.io == Booting || s.io == Checked || s.io == Failing || s.io == Done)
    && (s.io == Booting || s.io == Checked ==> s.phase == Starting || (s.phase == Stopping && s.caller == Joining))
    && (s.io == Running || s.io == Signalled ==> s.phase == Started || s.phase == Stopping)
    && (s.io == Draining || s.io == Exiting ==> s.phase == Stopping)
    && (s.caller == Joining ==> s.phase == Stopping || s.phase == Started || s.phase == Error)
    && (s.caller == Joined || s.caller == JoinFailed ==> s.phase == Stopping || s.phase == Error)
  }

  lemma KeptStep(s: Life, step: Step)
    requires Kept(s) && Enabled(s, step)
    ensures Kept(Next(s, step))
  {
  }

  lemma {:induction false} KeptAlways(states: seq<Life>, steps: seq<Step>, k: nat)
    requires Run(states, steps) && k < |states|
    ensures Kept(states[k])
  {
    if k > 0 {
      KeptAlways(states, steps, k - 1);
      hide Kept, Enabled, Next;
      KeptStep(states[k - 1], steps[k - 1]);
    }
  }

  /** The course of a stop that found the service up: with a thread it can only succeed, without it can
      only fail. */
  predicate OnCourse(s: Life, thread: bool) {
    match s.caller
    case StopDecided => (s.io == Absent) == !thread
    case Joining => (s.io == Absent) == !thread
    case Joined => thread && s.io == Absent
    case JoinFailed => !thread && s.io == Absent
    case Out => s.io == Absent && s.returned == (if thread then StopOk else StopErr)
                && s.phase == (if thread then Stopped else Error)
    case _ => false
  }

  lemma OnCourseStep(s: Life, step: Step, thread: bool)
    requires Kept(s) && OnCourse(s, thread) && Enabled(s, step) && !IsLoad(step)
    ensures OnCourse(Next(s, step), thread)
  {
  }

  lemma {:induction false} StaysOnCourse(states: seq<Life>, steps: seq<Step>, p: nat, k: nat)
    requires Run(states, steps) && OneCall(steps, p, k) && steps[p] == StopLoad
    requires states[p].phase == Starting || states[p].phase == Started
    ensures OnCourse(states[k], states[p].io != Absent)
  {
    assert Enabled(states[p], StopLoad) && states[p + 1] == Next(states[p], StopLoad);
    if k > p + 1 {
      StaysOnCourse(states, steps, p, k - 1);
      KeptAlways(states, steps, k - 1);
      hide OnCourse, Kept, Enabled, Next;
      OnCourseStep(states[k - 1], steps[k - 1], states[p].io != Absent);
    }
  }

  /** A stop that read STARTING or STARTED and is over succeeded if and only if there was an IO thread when
      it read; then the state is STOPPED and the thread gone, otherwise the state is ERROR. When it read
      STARTED there was one. */
  lemma StopSucceedsExactly(states: seq<Life>, steps: seq<Step>, p: nat, k: nat)
    requires Run(states, steps) && OneCall(steps, p, k) && steps[p] == StopLoad && states[k].caller == Out
    requires states[p].phase == Starting || states[p].phase == Started
    ensures states[k].returned == StopOk <==> states[p].io != Absent
    ensures states[k].phase == if states[p].io != Absent then Stopped else Error
    ensures states[k].io == Absent
    ensures states[p].phase == Started ==> states[p].io != Absent
  {
    StaysOnCourse(states, steps, p, k);
    KeptAlways(states, steps, p);
  }

  // ---- the IO thread --------------------------------------------------------------------------

  predicate IoStep(step: Step) {
    !CallerStep(step)
  }

  /** The steps after which the IO thread can stand at `io`. */
  predicate LeadsTo(step: Step, io: Io) {
    match io
    case Absent => step == Join
    case Booting => step == Launch(true)
    case Checked => step == BootLoad
    case Running => step == StartedStore || step == TimerLoad || step == SigintLoad || step == SigintStore
    case Signalled => step == SigintLoad
    case Draining => step == TimerLoad
    case Exiting => step == BootLoad || step == LoopExit
    case Failing => step == BootFail || step == LoopClose(false)
    case Done => step == BootQuit || step == LoopClose(true) || step == ErrorStore
  }

  /** The last step before `k` that moved the IO thread is step `j`. */
  predicate LastMove(steps: seq<Step>, j: nat, k: nat) {
    && j < k <= |steps| && MovesIo(steps[j]) && forall m :: j < m < k ==> !MovesIo(steps[m])
  }

  predicate MovesIo(step: Step) {
    IoStep(step) || step == Launch(true) || step == Join
  }

  lemma MoveStep(s: Life, step: Step)
    requires Kept(s) && Enabled(s, step)
    ensures if MovesIo(step) then LeadsTo(step, Next(s, step).io) else Next(s, step).io == s.io
  {
  }

  /** Where the IO thread stands says what it did last; it stands nowhere until it is launched. */
  lemma {:induction false} LastMoveIs(states: seq<Life>, steps: seq<Step>, k: nat)
    requires Run(states, steps) && k < |states|
    ensures states[k].io == Absent || exists j: nat :: LastMove(steps, j, k) && LeadsTo(steps[j], states[k].io)
  {
    if k > 0 {
      LastMoveIs(states, steps, k - 1);
      KeptAlways(states, steps, k - 1);
      hide Kept, Enabled, Next, LeadsTo, MovesIo;
      MoveStep(states[k - 1], steps[k - 1]);
      if MovesIo(steps[k - 1]) {
        assert LastMove(steps, k - 1, k);
      } else if states[k - 1].io != Absent {
        var j: nat :| LastMove(steps, j, k - 1) && LeadsTo(steps[j], states[k - 1].io);
        assert LastMove(steps, j, k);
      }
    }
  }

  /** The IO thread met a foreign call that failed. */
  predicate Fails(step: Step) {
    step == BootFail || step == LoopClose(false)
  }

  /** What a failed IO thread comes to while the caller stores nothing. */
  predicate Reporting(s: Life) {
    s.io == Failing || (s.io == Done && s.phase == Error) || (s.io == Absent && s.caller == Joined)
  }

  lemma ReportingStep(s: Life, step: Step)
    requires Kept(s) && Enabled(s, step) && !CallerStores(step)
    requires Reporting(s) || Fails(step)
    ensures Reporting(Next(s, step))
  {
  }

  /** When an IO thread that failed is done, and the caller has stored nothing since, the state is ERROR. */
  lemma {:induction false} FailureIsReported(states: seq<Life>, steps: seq<Step>, j: nat, k: nat)
    requires Run(states, steps) && j < k <= |steps| && Fails(steps[j])
    requires forall m :: j < m < k ==> !CallerStores(steps[m])
    ensures Reporting(states[k])
    ensures states[k].io == Done ==> states[k].phase == Error
  {
    KeptAlways(states, steps, k - 1);
    if k > j + 1 {
      FailureIsReported(states, steps, j, k - 1);
    }
    hide Kept, Enabled, Next;
    ReportingStep(states[k - 1], steps[k - 1]);
  }

  /** The caller's last step before `k`, at `i`, was a join that found no thread. */
  predicate JoinFoundNone(states: seq<Life>, steps: seq<Step>, i: nat, k: nat) {
    i < k <= |steps| < |states| && steps[i] == Join && states[i].io == Absent && CallerIdle(steps, i + 1, k)
  }

  lemma {:induction false} FailedJoinIs(states: seq<Life>, steps: seq<Step>, k: nat)
    requires Run(states, steps) && k < |states| && states[k].caller == JoinFailed
    ensures exists i: nat :: JoinFoundNone(states, steps, i, k)
  {
    if k > 0 {
      assert Enabled(states[k - 1], steps[k - 1]) && states[k] == Next(states[k - 1], steps[k - 1]);
      if states[k - 1].caller == JoinFailed {
        FailedJoinIs(states, steps, k - 1);
        var i: nat :| JoinFoundNone(states, steps, i, k - 1);
        assert JoinFoundNone(states, steps, i, k);
      } else {
        assert JoinFoundNone(states, steps, k - 1, k);
      }
    }
  }

  /** Why ERROR was stored at step `j`: the IO thread's last step before it was a failure, or the caller's
      was a join that found no thread. */
  ghost predicate ErrorCause(states: seq<Life>, steps: seq<Step>, j: nat)
    requires j < |steps| < |states|
  {
    if steps[j] == ErrorStore then exists i: nat :: LastMove(steps, i, j) && Fails(steps[i])
    else steps[j] == JoinErrorStore && exists i: nat :: JoinFoundNone(states, steps, i, j)
  }

  /** The state is ERROR if and only if the last store was made on account of a failed IO thread, or of a
      join that found none. */
  lemma ErrorExactly(states: seq<Life>, steps: seq<Step>, k: nat)
    requires Run(states, steps) && k < |states|
    ensures states[k].phase == Error <==> exists j: nat :: LastStore(steps, j, k) && ErrorCause(states, steps, j)
  {
    hide Enabled, Next, ErrorCause;
    StateIsLastStore(states, steps, k);
    if j: nat :| LastStore(steps, j, k) && ErrorCause(states, steps, j) {
      CausesStoreError(states, steps, j);
    }
    if states[k].phase == Error {
      var j := FindLastStore(steps, k);
      ErrorHasCause(states, steps, j);
    }
  }

  lemma CausesStoreError(states: seq<Life>, steps: seq<Step>, j: nat)
    requires j < |steps| < |states| && ErrorCause(states, steps, j)
    ensures StoresPhase(steps[j]) && Stores(steps[j]) == Error
  {
  }

  lemma ErrorHasCause(states: seq<Life>, steps: seq<Step>, j: nat)
    requires Run(states, steps) && j < |steps| && StoresPhase(steps[j]) && Stores(steps[j]) == Error
    ensures ErrorCause(states, steps, j)
  {
    hide Next;
    if steps[j] == ErrorStore {
      LastMoveIs(states, steps, j);
    } else {
      FailedJoinIs(states, steps, j);
    }
  }

  lemma {:induction false} FindLastStore(steps: seq<Step>, k: nat) returns (j: nat)
    requires k <= |steps| && exists m :: 0 <= m < k && StoresPhase(steps[m])
    ensures LastStore(steps, j, k)
  {
    if StoresPhase(steps[k - 1]) {
      j := k - 1;
    } else {
      j := FindLastStore(steps, k - 1);
    }
  }

  // ---- SIGINT ---------------------------------------------------------------------------------

  /** Step `m` is the IO thread's next after step `i`. */
  predicate NextIoStep(steps: seq<Step>, i: nat, m: nat) {
    i < m < |steps| && IoStep(steps[m]) && CallerIsActing(steps, i, m)
  }

  predicate CallerIsActing(steps: seq<Step>, i: nat, m: nat)
    requires m <= |steps|
  {
    forall x :: i < x < m ==> CallerStep(steps[x])
  }

  lemma SignalledStep(s: Life, step: Step)
    requires Kept(s) && Enabled(s, step) && (step == SigintLoad || CallerStep(step))
    ensures Next(s, step).io == Signalled <==> if step == SigintLoad then s.phase == Started else s.io == Signalled
  {
  }

  lemma {:induction false} SignalledExactly(states: seq<Life>, steps: seq<Step>, i: nat, m: nat)
    requires Run(states, steps) && i < m <= |steps| && steps[i] == SigintLoad && CallerIsActing(steps, i, m)
    ensures states[m].io == Signalled <==> states[i].phase == Started
  {
    KeptAlways(states, steps, m - 1);
    hide Kept, Enabled, Next, CallerStep;
    SignalledStep(states[m - 1], steps[m - 1]);
    if m > i + 1 {
      SignalledExactly(states, steps, i, m - 1);
    }
  }

  /** The SIGINT callback stores STOPPING exactly when it read STARTED. */
  lemma SigintStopsExactly(states: seq<Life>, steps: seq<Step>, i: nat, m: nat)
    requires Run(states, steps) && NextIoStep(steps, i, m) && steps[i] == SigintLoad
    ensures steps[m] == SigintStore <==> states[i].phase == Started
    ensures steps[m] == SigintStore ==> states[m + 1].phase == Stopping && states[m + 1].io == Running
  {
    RunStep(states, steps, m);
    SignalledExactly(states, steps, i, m);
  }

  // ---- who can go on --------------------------------------------------------------------------

  ghost predicate CallerCanMove(s: Life) {
    exists step :: CallerStep(step) && Enabled(s, step)
  }

  ghost predicate IoCanMove(s: Life) {
    exists step :: IoStep(step) && Enabled(s, step)
  }

  /** The only thing anyone ever waits for is a stop for the end of a live IO thread. Calls can be made in
      every state, the timer and SIGINT can come at any time while the loop runs, and every foreign call
      can turn out either way. */
  lemma NobodyElseWaits(s: Life)
    ensures CallerCanMove(s) <==> !(s.caller == Joining && Alive(s.io))
    ensures IoCanMove(s) <==> Alive(s.io)
    ensures s.caller == Out ==> Enabled(s, StartLoad) && Enabled(s, StopLoad)
    ensures s.caller == Launching ==> Enabled(s, Launch(true)) && Enabled(s, Launch(false))
    ensures s.io == Booting ==> Enabled(s, BootLoad) && Enabled(s, BootFail) && Enabled(s, BootQuit)
    ensures s.io == Running ==> Enabled(s, TimerLoad) && Enabled(s, SigintLoad)
    ensures s.io == Exiting ==> Enabled(s, LoopClose(true)) && Enabled(s, LoopClose(false))
  {
    CallerMoves(s);
    IoMoves(s);
  }

  lemma CallerMoves(s: Life)
    ensures CallerCanMove(s) <==> !(s.caller == Joining && Alive(s.io))
  {
    var step := match s.caller
      case Out => StartLoad
      case StartDecided => StartStore
      case Launching => Launch(true)
      case StopDecided => StopStore
      case Joining => Join
      case JoinFailed => JoinErrorStore
      case Joined => StoppedStore;
    if !(s.caller == Joining && Alive(s.io)) {
      assert CallerStep(step) && Enabled(s, step);
    }
  }

  lemma IoMoves(s: Life)
    ensures IoCanMove(s) <==> Alive(s.io)
  {
    var step := match s.io
      case Booting => BootLoad
      case Checked => StartedStore
      case Running => TimerLoad
      case Signalled => SigintStore
      case Draining => LoopExit
      case Exiting => LoopClose(true)
      case _ => ErrorStore;
    if Alive(s.io) {
      assert IoStep(step) && Enabled(s, step);
    }
  }
}
