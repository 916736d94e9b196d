/** How a run can go on. From every state libuv and the main thread can finish what is under way and
    give everything back, except a slot that was stranded. */
module Recovery {
  import opened Basics
  import opened Pools
  import opened ServiceModel
  import opened Ownership
  import opened Invariant
  import opened Steps
  import opened Theorems
  import opened Messages

  // ---- going on -------------------------------------------------------------------------------

  predicate NoRewrite(steps: seq<Step>) {
    forall k :: 0 <= k < |steps| ==> !steps[k].Rewrite?
  }

  /** A run can go on from `s` to `t`, the caller's memory left alone. */
  ghost predicate GoesTo(s: State, t: State) {
    exists steps: seq<Step> :: Reaches(s, steps, t) && NoRewrite(steps)
  }

  ghost predicate Onward(s: State, t: State) {
    Inv(t) && GoesTo(s, t)
  }

  lemma Begin(s: State)
    requires Inv(s)
    ensures Onward(s, s)
  {
    hide Inv;
    assert Reaches(s, [], s);
  }

  lemma {:induction false} ReachesOn(s: State, first: seq<Step>, m: State, more: seq<Step>, t: State)
    requires Reaches(s, first, m) && Reaches(m, more, t)
    ensures Reaches(s, first + more, t)
    decreases |first|
  {
    hide Next, Enabled, InBounds;
    if first == [] {
      assert first + more == more;
    } else {
      ReachesOn(Next(s, first[0]), first[1..], m, more, t);
      assert (first + more)[1..] == first[1..] + more;
    }
  }

  lemma GoesOn(s: State, m: State, more: seq<Step>, t: State)
    requires GoesTo(s, m) && Reaches(m, more, t) && NoRewrite(more)
    ensures GoesTo(s, t)
  {
    hide Reaches;
    var first: seq<Step> :| Reaches(s, first, m) && NoRewrite(first);
    ReachesOn(s, first, m, more, t);
  }

  /** What no step changes but a command call, a rewrite, or a close callback without an event. */
  predicate Lasting(s: State, t: State) {
    && t.n == s.n && t.memory == s.memory && t.queued == s.queued && t.promises == s.promises
    && t.stranded == s.stranded && t.cmdHand == s.cmdHand
  }

  /** Slots are stranded by a close callback without an event, for ever. */
  lemma StrandedMoves(s: State, step: Step, t: State)
    requires Enabled(s, step) && InBounds(s, step) && t == Next(s, step)
    ensures t.stranded == if step.CloseTake? && s.evFree == [] then s.stranded + [s.io.slot] else s.stranded
    ensures !step.CmdTake? && !step.CmdQueue? ==> t.cmdHand == s.cmdHand
  {
    if OpensLink(step) {
      hide Next, Enabled, InBounds;
      OpeningStays(s, step, t);
    } else {
      hide Notes, Upto, Pushed, Room, Enabled, Dispatch, SetLink, Peek;
      if step.HandleEnd? {
        DispatchMoves(s, s.cmds[s.io.command], step.reply);
      }
    }
  }

  predicate Continues(m: State, step: Step) {
    && !step.CmdTake? && !step.CmdQueue? && !step.Rewrite? && (step.CloseTake? ==> m.evFree != [])
  }

  /** One more step. */
  lemma Go(s: State, m: State, step: Step) returns (t: State)
    requires Enabled(m, step) && Continues(m, step)
    requires Onward(s, m)
    ensures InBounds(m, step) && t == Next(m, step) && Lasting(m, t)
    ensures KeepsMessages(step) ==> SameMessages(m, t)
    ensures Onward(s, t)
  {
    hide Inv, Enabled, InBounds, Next, GoesTo;
    StepInBounds(m, step);
    t := Next(m, step);
    StepKeeps(m, step, t);
    StepGoes(s, m, step, t);
    BatchMoves(m, step, t);
    StrandedMoves(m, step, t);
    if KeepsMessages(step) {
      MessagesStay(m, step, t);
    } else {
      SendMoves(m, step, t);
    }
  }

  lemma StepGoes(s: State, m: State, step: Step, t: State)
    requires Enabled(m, step) && InBounds(m, step) && t == Next(m, step) && !step.Rewrite?
    requires GoesTo(s, m)
    ensures GoesTo(s, t)
  {
    hide Next, Enabled, InBounds, GoesTo;
    assert Reaches(t, [], t) && [step][1..] == [];
    GoesOn(s, m, [step], t);
  }

  lemma SendMoves(s: State, step: Step, t: State)
    requires Enabled(s, step) && InBounds(s, step) && t == Next(s, step)
    requires step.Transmit? || step.WriteDone? || step.HandleEnd?
    ensures t.memory == s.memory && t.queued == s.queued && t.promises == s.promises
  {
    if step.HandleEnd? {
      HandlingWrites(s, step.reply, t);
    }
  }

  // ---- the main thread gives its events back --------------------------------------------------

  /** Only what the main thread does alone has happened: acquiring and giving back. */
  predicate IoSide(s: State, t: State) {
    && Lasting(s, t) && SameMessages(s, t)
    && t.io == s.io && t.links == s.links && t.freeLinks == s.freeLinks && t.sendReqs == s.sendReqs
    && t.cmdReady == s.cmdReady && t.cmdFree == s.cmdFree && t.cmds == s.cmds
  }

  /** Whatever of the batch is still held is given back. */
  lemma {:induction false} FinishBatch(s: State, m: State) returns (t: State)
    requires Onward(s, m)
    ensures Onward(s, t) && IoSide(m, t) && t.evReady == m.evReady && t.evRel == |t.updates|
    decreases |m.updates| - m.evRel + |m.updates| - m.bufRel
  {
    hide Inv, GoesTo;
    assert m.evRel <= m.bufRel <= |m.updates| <= |m.updates| && m.bufRel <= m.evRel + 1 by { BatchCursors(m); }
    t := m;
    if m.evRel < m.bufRel {
      var u := Go(s, m, ReleaseEvent);
      t := FinishBatch(s, u);
    } else if m.bufRel < |m.updates| {
      var u := Go(s, m, ReleaseBuffer);
      t := FinishBatch(s, u);
    }
  }

  lemma BatchCursors(s: State)
    requires Inv(s)
    ensures s.evRel <= s.bufRel <= |s.updates| && s.bufRel <= s.evRel + 1
  {
    hide LinksOk, RoomOk, WritesOk, LogOk, PipelineOk, TracesOk, OpenIsReading;
    hide BuffersOnce, SlotsOnce, CommandsOnce, RequestsOnce;
  }

  /** Every event that is in no callback's hand becomes free. */
  lemma FreeEvents(s: State, m: State) returns (t: State)
    requires Onward(s, m)
    ensures Onward(s, t) && IoSide(m, t)
    ensures t.evReady == [] && t.evRel == t.bufRel == |t.updates| && |t.evFree| + |HandEvent(t.io)| == Cap(t)
  {
    hide Inv, GoesTo, Notes;
    var u := FinishBatch(s, m);
    var v := Go(s, u, Acquire);
    t := FinishBatch(s, v);
    BatchCursors(t);
    FreeCount(t);
  }

  lemma FreeCount(s: State)
    requires Inv(s)
    ensures |s.evFree| + |s.evReady| + (|s.updates| - s.evRel) + |HandEvent(s.io)| == Cap(s)
  {
    hide Inv, EventsOnce;
    InvParts(s);
    FreeSize(s);
  }

  /** A slot named by a callback under way exists. */
  lemma SlotCount(s: State)
    requires Inv(s)
    ensures |s.links| == s.n && (s.io.ClosingBare? ==> s.io.slot < s.n)
  {
    hide Inv;
    InvParts(s);
    AtPoint(s);
  }

  // ---- callbacks under way --------------------------------------------------------------------

  const REFUSAL := Reply(false, false, false)

  /** A callback that holds an event ends by queueing it. */
  lemma PublishEnds(s: State, m: State, step: Step) returns (t: State)
    requires step == PublishOpen(false) || step == PublishRead || step == PublishClose
    requires Enabled(m, step)
    requires Onward(s, m)
    ensures Onward(s, t) && Lasting(m, t) && SameMessages(m, t) && t.io == Idle
  {
    hide Inv, GoesTo, Pushed;
    t := Go(s, m, step);
  }

  lemma CloseTakes(s: State, m: State, i: nat) returns (t: State)
    requires Onward(s, m) && m.io == ClosingBare(i) && m.evFree != []
    ensures Onward(s, t) && Lasting(m, t) && SameMessages(m, t) && t.links == m.links
    ensures t.io.ClosingWith? && t.io.slot == i
  {
    hide Inv, GoesTo;
    t := Go(s, m, CloseTake);
  }

  lemma RefusalWrites(s: State, cmd: Command)
    requires SlotAtHand(s)
    ensures var t := Dispatch(s, cmd, REFUSAL);
            t.writes == s.writes && t.sent == s.sent && t.handled == s.handled
  {
    hide Pushed, Refused;
  }

  /** The command being handled comes to nothing. */
  lemma Refuse(s: State, m: State) returns (t: State)
    requires Onward(s, m) && m.io.Handling?
    ensures Onward(s, t) && Lasting(m, t) && t.io == Idle && |t.handled| == |m.handled| + 1
    ensures t.writes == m.writes && t.sent == m.sent
  {
    hide Inv, GoesTo, Dispatch;
    t := Go(s, m, HandleEnd(REFUSAL));
    RefusalWrites(m, m.cmds[m.io.command]);
  }

  /** The callback under way is finished; a command being handled comes to nothing. */
  lemma ToIdle(s: State, m: State) returns (t: State)
    requires Onward(s, m)
    ensures Onward(s, t) && t.io == Idle && Lasting(m, t) && t.writes == m.writes && t.sent == m.sent
    ensures |t.handled| == |m.handled| + if m.io.Handling? then 1 else 0
  {
    hide Inv, GoesTo;
    match m.io {
      case Idle => t := m;
      case Opening(_, _) => t := PublishEnds(s, m, PublishOpen(false));
      case Receiving(_, _) => t := PublishEnds(s, m, PublishRead);
      case ClosingBare(i) =>
        SlotCount(m);
        var u := FreeEvents(s, m);
        var v := CloseTakes(s, u, i);
        t := PublishEnds(s, v, PublishClose);
      case ClosingWith(_, _) => t := PublishEnds(s, m, PublishClose);
      case Handling(_) => t := Refuse(s, m);
    }
  }

  /** Commands are handled up to number `k`, each to no effect. */
  lemma {:induction false} HandleUpTo(s: State, m: State, k: nat) returns (t: State)
    requires Onward(s, m) && m.io == Idle && |m.handled| <= k <= |m.queued|
    ensures Onward(s, t) && t.io == Idle && Lasting(m, t) && |t.handled| == k
    decreases k - |m.handled|
  {
    hide Inv, GoesTo;
    t := m;
    if |m.handled| < k {
      NextQueued(m);
      var u := Go(s, m, HandleBegin);
      var v := Refuse(s, u);
      t := HandleUpTo(s, v, k);
    }
  }

  lemma NextQueued(s: State)
    requires s.io == Idle && Inv(s)
    ensures |s.queued| == |s.handled| + |s.cmdReady|
    ensures s.cmdReady != [] ==> s.cmdReady[0] < |s.cmds| && s.queued[|s.handled|] == s.cmds[s.cmdReady[0]]
  {
    hide Inv, PipelineOk, CommandsOnce;
    InvParts(s);
    NextCommand(s);
  }

  /** Every pending write ends. */
  lemma {:induction false} EndWrites(s: State, m: State) returns (t: State)
    requires Onward(s, m) && m.io == Idle
    ensures Onward(s, t) && t.io == Idle && Lasting(m, t) && t.handled == m.handled && t.writes == []
    decreases |m.writes|
  {
    hide Inv, GoesTo;
    t := m;
    if m.writes != [] {
      var u := Go(s, m, WriteDone(0, false));
      t := EndWrites(s, u);
    }
  }

  // ---- slots ----------------------------------------------------------------------------------

  /** Nothing is under way but what clients may still send. */
  predicate Resting(s: State) {
    s.io == Idle && s.writes == []
  }

  lemma CloseBegins(s: State, m: State, i: nat) returns (t: State)
    requires Onward(s, m) && Resting(m) && i < |m.links| && m.links[i].handle == Ending
    ensures Onward(s, t) && Lasting(m, t) && SameMessages(m, t) && t.io == ClosingBare(i) && t.evFree == m.evFree
    ensures |t.links| == |m.links| && t.links == m.links[i := t.links[i]]
  {
    hide Inv, GoesTo, Pushed;
    t := Go(s, m, CloseBegin(i));
  }

  lemma CloseEnds(s: State, m: State, i: nat) returns (t: State)
    requires Onward(s, m) && m.io.ClosingWith? && m.io.slot == i
    ensures Onward(s, t) && Lasting(m, t) && SameMessages(m, t) && t.io == Idle
    ensures i < |t.links| == |m.links| && t.links == m.links[i := t.links[i]] && t.links[i].handle == Gone
  {
    hide Inv, GoesTo, Pushed;
    t := Go(s, m, PublishClose);
  }

  /** The handle of slot `i` is being closed, and an event is free for its close callback. */
  lemma EndHandle(s: State, m: State, i: nat) returns (t: State)
    requires Onward(s, m) && Resting(m) && i < |m.links| && m.links[i].handle == Ending && m.evFree != []
    ensures Onward(s, t) && Resting(t) && Lasting(m, t) && t.handled == m.handled
    ensures |t.links| == |m.links| && t.links == m.links[i := t.links[i]] && t.links[i].handle == Gone
  {
    hide Inv, GoesTo;
    t := CloseBegins(s, m, i);
    t := CloseTakes(s, t, i);
    t := CloseEnds(s, t, i);
  }

  /** Whatever state slot `i` is in, its handle goes. */
  lemma EndSlot(s: State, m: State, i: nat) returns (t: State)
    requires Onward(s, m) && Resting(m) && i < |m.links|
    ensures Onward(s, t) && Resting(t) && Lasting(m, t) && t.handled == m.handled
    ensures |t.links| == |m.links| && t.links == m.links[i := t.links[i]] && t.links[i].handle == Gone
  {
    hide Inv, GoesTo;
    SlotCount(m);
    t := FreeEvents(s, m);
    if m.links[i].handle == Pending {
      t := Go(s, t, Connect(i, true));
    } else if m.links[i].handle == Reading {
      t := Go(s, t, Hangup(i));
    }
    if m.links[i].handle != Gone {
      t := EndHandle(s, t, i);
    }
  }

  lemma {:induction false} EndSlots(s: State, m: State, k: nat) returns (t: State)
    requires Onward(s, m) && Resting(m) && k <= |m.links|
    ensures Onward(s, t) && Resting(t) && Lasting(m, t) && t.handled == m.handled && |t.links| == |m.links|
    ensures forall i :: 0 <= i < k ==> t.links[i].handle == Gone
  {
    hide Inv, GoesTo;
    t := m;
    if k > 0 {
      var u := EndSlots(s, m, k - 1);
      t := EndSlot(s, u, k - 1);
    }
  }

  // ---- everything comes back ------------------------------------------------------------------

  /** No handle is left, no write, no event: whatever there is, is in its pool. */
  predicate Settled(s: State) {
    && Resting(s) && (forall i :: 0 <= i < |s.links| ==> s.links[i].handle == Gone)
    && s.evReady == [] && s.evRel == s.bufRel == |s.updates|
  }

  /** From any state things can come to rest with the first `k` commands handled and no more. */
  lemma Settle(s: State, m: State, k: nat) returns (t: State)
    requires Onward(s, m) && |m.handled| + (if m.io.Handling? then 1 else 0) <= k <= |m.queued|
    ensures Onward(s, t) && Settled(t) && Lasting(m, t) && |t.handled| == k
  {
    hide Inv, GoesTo;
    t := ToIdle(s, m);
    t := HandleUpTo(s, t, k);
    t := EndWrites(s, t);
    t := EndSlots(s, t, |t.links|);
    t := FreeEvents(s, t);
  }

  lemma Unheld(s: State)
    requires Settled(s)
    requires Inv(s)
    ensures LinkBufs(s.links) == multiset{} && Owned(s.links) == multiset{}
  {
    hide EventsOnce, BuffersOnce, SlotsOnce, CommandsOnce, RequestsOnce;
    hide RoomOk, WritesOk, LogOk, PipelineOk, TracesOk, OpenIsReading;
    NothingHeld(s.links, s.io);
  }

  /** At rest every object the IO thread deals with is in its pool. */
  lemma SettledPools(s: State)
    requires Settled(s)
    requires Inv(s)
    ensures multiset(s.evFree) == All(Cap(s)) && multiset(s.poolRead) == All(Cap(s))
    ensures multiset(s.sendReqs) == All(Cap(s)) && multiset(s.freeLinks) + multiset(s.stranded) == All(s.n)
  {
    hide Inv, All;
    Unheld(s);
    InvParts(s);
    hide LinksOk, RoomOk, WritesOk, LogOk, PipelineOk, TracesOk, OpenIsReading, CommandsOnce;
    assert s.updates[s.evRel..] == [] == s.updates[s.bufRel..];
    Alone(multiset(s.evFree));
    Alone(multiset(s.poolRead));
    Alone(multiset(s.sendReqs));
    assert multiset(s.freeLinks) + multiset(s.stranded) + multiset{} == multiset(s.freeLinks) + multiset(s.stranded);
  }

  lemma Alone(a: multiset<nat>)
    ensures a + multiset{} == a && a + multiset{} + multiset{} + multiset{} == a
    ensures a + multiset([]) + multiset{} + multiset{} == a && a + multiset([]) + multiset([]) + multiset{} == a
  {
    var none: seq<nat> := [];
    assert multiset(none) == multiset{};
  }

  /** A command the main thread has filled is queued. */
  lemma QueueFilled(s: State) returns (t: State)
    requires Inv(s)
    ensures Onward(s, t) && t.n == s.n && t.stranded == s.stranded && t.cmdHand == None
  {
    hide Inv, GoesTo, Peek;
    Begin(s);
    t := s;
    if s.cmdHand.Some? {
      StepInBounds(s, CmdQueue);
      t := Next(s, CmdQueue);
      StepKeeps(s, CmdQueue, t);
      StepGoes(s, s, CmdQueue, t);
    }
  }

  /** Every object of the service is in its pool. */
  predicate AllFree(n: nat, s: State) {
    && multiset(s.evFree) == All(4 * n) && multiset(s.poolRead) == All(4 * n)
    && multiset(s.cmdFree) == All(4 * n) && multiset(s.sendReqs) == All(4 * n)
    && multiset(s.freeLinks) == All(n)
  }

  /** From every state the run can go on until every queued command has been handled and all events, read
      buffers, commands, write requests and slots are free, except the slots stranded so far. */
  lemma EverythingElseComesBack(n: nat, steps: seq<Step>, s: State) returns (t: State)
    requires Reached(n, steps, s)
    ensures GoesTo(s, t) && t.handled == t.queued && t.stranded == s.stranded
    ensures AllFree(n, t.(freeLinks := t.freeLinks + s.stranded))
  {
    hide Inv, GoesTo, All, Settled, Reached;
    ReachedInv(n, steps, s);
    SizeOf(n, steps, s);
    var u := QueueFilled(s);
    HandledFits(u);
    t := Settle(s, u, |u.queued|);
    SettledCommands(t);
    SettledPools(t);
    assert multiset(t.freeLinks + s.stranded) == multiset(t.freeLinks) + multiset(s.stranded);
  }

  lemma HandledFits(s: State)
    requires Inv(s)
    ensures s.handled <= s.queued && |s.handled| + (if s.io.Handling? then 1 else 0) <= |s.queued|
  {
    hide Inv;
    InvParts(s);
    hide LinksOk, RoomOk, WritesOk, LogOk, TracesOk, OpenIsReading;
    hide EventsOnce, BuffersOnce, SlotsOnce, CommandsOnce, RequestsOnce;
  }

  /** And every command, once all are handled and none is being filled. */
  lemma SettledCommands(s: State)
    requires Settled(s) && |s.handled| == |s.queued| && s.cmdHand == None
    requires Inv(s)
    ensures s.handled == s.queued && multiset(s.cmdFree) == All(Cap(s))
  {
    hide Inv, All;
    NextQueued(s);
    HandledFits(s);
    InvParts(s);
    Alone(multiset(s.cmdFree));
    hide LinksOk, RoomOk, WritesOk, LogOk, PipelineOk, TracesOk, OpenIsReading;
    hide EventsOnce, BuffersOnce, SlotsOnce, RequestsOnce;
  }

  lemma {:induction false} StrandedStays(s: State, steps: seq<Step>, t: State)
    requires Reaches(s, steps, t)
    ensures t.n == s.n && s.stranded <= t.stranded
    decreases |steps|
  {
    hide Next, Enabled, InBounds;
    if steps != [] {
      var m := Next(s, steps[0]);
      BatchMoves(s, steps[0], m);
      StrandedMoves(s, steps[0], m);
      StrandedStays(m, steps[1..], t);
    }
  }

  /** Some way of going on frees everything. */
  ghost predicate Recoverable(n: nat, s: State) {
    exists more: seq<Step>, t: State :: Reaches(s, more, t) && AllFree(n, t)
  }

  /** Whether the whole service can still be recovered is decided by the stranded slots alone. */
  lemma RecoverableExactly(n: nat, steps: seq<Step>, s: State)
    requires Reached(n, steps, s)
    ensures Recoverable(n, s) <==> s.stranded == []
  {
    hide Inv, Reaches, AllFree, Reached;
    ReachedInv(n, steps, s);
    SizeOf(n, steps, s);
    if s.stranded == [] {
      var t := EverythingElseComesBack(n, steps, s);
      assert t.(freeLinks := t.freeLinks + s.stranded) == t;
      var more: seq<Step> :| Reaches(s, more, t) && NoRewrite(more);
      assert Recoverable(n, s);
    } else if Recoverable(n, s) {
      var more: seq<Step>, t: State :| Reaches(s, more, t) && AllFree(n, t);
      RunKeeps(s, more, t);
      StrandedStays(s, more, t);
      NoneStranded(n, t);
      assert false;
    }
  }

  lemma NoneStranded(n: nat, s: State)
    requires AllFree(n, s) && s.n == n
    requires Inv(s)
    ensures s.stranded == []
  {
    hide Inv;
    InvParts(s);
    var f, o := multiset(s.freeLinks), multiset(s.stranded);
    assert |f + o + Owned(s.links)| == |f| + |o| + |Owned(s.links)|;
    assert |o| == |s.stranded|;
  }
}
