/** What becomes of the messages of send commands. The code keeps the caller's pointer from the call
    until libuv has written the bytes, so what goes out is what the memory holds when each byte is
    taken. A message is named by the place of its command in the queue history. */
module Messages {
  import opened Basics
  import opened ServiceModel
  import opened Ownership
  import opened Conservation
  import opened Invariant
  import opened Steps
  import opened Theorems

  // ---- every write has its own command --------------------------------------------------------

  predicate WriteKnown(w: Write, handled: seq<Command>) {
    && w.order < |handled| && handled[w.order] == SendCommand(w.cmd, w.slot, w.at, w.len)
    && |w.taken| <= w.len
  }

  predicate SentKnown(e: Sent, handled: seq<Command>) {
    && e.order < |handled| && handled[e.order].SendCommand?
    && |e.bytes| <= handled[e.order].len && (e.ok ==> |e.bytes| == handled[e.order].len)
  }

  predicate MessagesOk(s: State) {
    && |s.promises| == |s.queued|
    && (forall k :: 0 <= k < |s.writes| ==> WriteKnown(s.writes[k], s.handled))
    && (forall j :: 0 <= j < |s.sent| ==> SentKnown(s.sent[j], s.handled))
    && (forall a, b :: 0 <= a < b < |s.writes| ==> s.writes[a].order != s.writes[b].order)
    && (forall a, b :: 0 <= a < b < |s.sent| ==> s.sent[a].order != s.sent[b].order)
    && (forall a, b :: 0 <= a < |s.writes| && 0 <= b < |s.sent| ==> s.writes[a].order != s.sent[b].order)
  }

  /** No message was touched. */
  predicate SameMessages(s: State, t: State) {
    && t.writes == s.writes && t.handled == s.handled && t.sent == s.sent
    && t.queued == s.queued && t.promises == s.promises && t.memory == s.memory
  }

  predicate KeepsMessages(step: Step) {
    !step.Transmit? && !step.WriteDone? && !step.HandleEnd? && !step.CmdQueue? && !step.Rewrite?
  }

  lemma MessagesStay(s: State, step: Step, t: State)
    requires Enabled(s, step) && InBounds(s, step) && t == Next(s, step)
    requires KeepsMessages(step)
    ensures SameMessages(s, t)
  {
    match step {
      case HandleBegin =>
      case Relaunch =>
      case Acquire =>
      case ReleaseBuffer =>
      case ReleaseEvent =>
      case CmdTake(_) =>
      case _ =>
        hide Next, Enabled, InBounds;
        if OpensLink(step) {
          OpeningStays(s, step, t);
        } else {
          WorkStays(s, step, t);
        }
    }
  }

  /** Handling a command adds at most one write, and it is the next in order. */
  lemma HandlingWrites(s: State, reply: Reply, t: State)
    requires InBounds(s, HandleEnd(reply)) && t == HandleEndNext(s, reply)
    ensures t.sent == s.sent && t.queued == s.queued && t.promises == s.promises && t.memory == s.memory
    ensures t.handled == s.handled + [s.cmds[s.io.command]]
    ensures t.writes == s.writes
            || (t.writes == s.writes + [Last(t.writes)] && Last(t.writes).order == |s.handled|
                && WriteKnown(Last(t.writes), t.handled) && Last(t.writes).taken == [])
  {
    hide Pushed, Refused;
  }

  lemma HandlingOk(s: State, reply: Reply, t: State)
    requires InBounds(s, HandleEnd(reply)) && t == HandleEndNext(s, reply)
    requires MessagesOk(s)
    ensures MessagesOk(t)
  {
    HandlingWrites(s, reply, t);
    hide HandleEndNext;
    assert forall k :: 0 <= k < |s.handled| ==> t.handled[k] == s.handled[k];
  }

  lemma WriteDoneOk(s: State, k: nat, ok: bool, t: State)
    requires Enabled(s, WriteDone(k, ok)) && t == WriteDoneNext(s, k, ok)
    requires MessagesOk(s)
    ensures MessagesOk(t)
  {
    hide Pushed;
    forall j | 0 <= j < |t.writes| ensures t.writes[j] == s.writes[if j < k then j else j + 1] {}
    assert WriteKnown(s.writes[k], s.handled);
    forall j | 0 <= j < |t.sent| ensures SentKnown(t.sent[j], t.handled) {
      if j < |s.sent| {
        assert t.sent[j] == s.sent[j];
      }
    }
  }

  lemma SameOk(s: State, t: State)
    requires t.writes == s.writes && t.handled == s.handled && t.sent == s.sent
    requires t.queued == s.queued && t.promises == s.promises
    requires MessagesOk(s)
    ensures MessagesOk(t)
  {
  }

  lemma TransmitOk(s: State, k: nat, t: State)
    requires Enabled(s, Transmit(k)) && t == TransmitNext(s, k)
    requires MessagesOk(s)
    ensures MessagesOk(t)
  {
  }

  lemma QueueOk(s: State, t: State)
    requires InBounds(s, CmdQueue) && t == CmdQueueNext(s)
    requires MessagesOk(s)
    ensures MessagesOk(t)
  {
    hide Pushed, Message;
  }

  lemma MessagesStep(s: State, step: Step, t: State)
    requires Enabled(s, step) && InBounds(s, step) && t == Next(s, step)
    requires MessagesOk(s)
    ensures MessagesOk(t)
  {
    hide HandleEndNext, WriteDoneNext, TransmitNext, CmdQueueNext, MessagesOk;
    if KeepsMessages(step) {
      hide Next, Enabled, InBounds;
      MessagesStay(s, step, t);
      SameOk(s, t);
    } else {
      match step {
        case HandleEnd(reply) => HandlingOk(s, reply, t);
        case WriteDone(k, ok) => WriteDoneOk(s, k, ok, t);
        case Transmit(k) => TransmitOk(s, k, t);
        case CmdQueue => QueueOk(s, t);
        case Rewrite(_, _) => SameOk(s, t);
      }
    }
  }

  lemma {:induction false} MessagesRun(s: State, steps: seq<Step>, t: State)
    requires Reaches(s, steps, t) && MessagesOk(s)
    ensures MessagesOk(t)
    decreases |steps|
  {
    hide Next, Enabled, InBounds, MessagesOk;
    if steps != [] {
      MessagesStep(s, steps[0], Next(s, steps[0]));
      MessagesRun(Next(s, steps[0]), steps[1..], t);
    }
  }

  /** Every write, pending or finished, belongs to a handled send command of its own: no command is sent
      twice. A pending one is on the slot its command named, and that slot's close callback has not run. */
  lemma WritesAreOrdered(n: nat, steps: seq<Step>, s: State)
    requires Reached(n, steps, s)
    ensures MessagesOk(s)
    ensures forall k :: 0 <= k < |s.writes| ==>
              var i := s.writes[k].slot;
              && i < |s.links| && s.links[i].state != Closed
              && (s.links[i].handle == Reading || s.links[i].handle == Ending)
  {
    MessagesRun(Init(n), steps, s);
    ReachedInv(n, steps, s);
  }

  // ---- what goes out --------------------------------------------------------------------------

  /** What a pending write sends if its memory stays as it is. */
  function Coming(memory: map<nat, Byte>, w: Write): seq<Byte>
    requires |w.taken| <= w.len
  {
    w.taken + Peek(memory, w.at + |w.taken|, w.len - |w.taken|)
  }

  /** A finished write sent a part of the promise, and all of it if libuv reported success. */
  predicate SentRight(e: Sent, promise: seq<Byte>) {
    e.bytes <= promise && (e.ok ==> e.bytes == promise)
  }

  /** Message `o` is, or was, as promised: still waiting unchanged, going out unchanged, or sent right. */
  predicate Intact(s: State, o: nat) {
    && o < |s.promises| && o < |s.queued|
    && (|s.handled| <= o ==> Message(s.memory, s.queued[o]) == s.promises[o])
    && (forall k :: 0 <= k < |s.writes| && s.writes[k].order == o ==>
          |s.writes[k].taken| <= s.writes[k].len && Coming(s.memory, s.writes[k]) == s.promises[o])
    && (forall j :: 0 <= j < |s.sent| && s.sent[j].order == o ==> SentRight(s.sent[j], s.promises[o]))
  }

  /** The byte at address `a` is still to be read for message `o`. */
  predicate Awaited(s: State, o: nat, a: nat) {
    || (|s.handled| <= o < |s.queued| && s.queued[o].SendCommand?
        && s.queued[o].at <= a < s.queued[o].at + s.queued[o].len)
    || exists k :: 0 <= k < |s.writes| && s.writes[k].order == o
         && s.writes[k].at + |s.writes[k].taken| <= a < s.writes[k].at + s.writes[k].len
  }

  lemma PeekElsewhere(memory: map<nat, Byte>, at: nat, len: nat, a: nat, byte: Byte)
    requires !(at <= a < at + len) || byte == At(memory, a)
    ensures Peek(memory[a := byte], at, len) == Peek(memory, at, len)
  {
  }

  lemma RewriteIntact(s: State, a: nat, byte: Byte, o: nat)
    requires Intact(s, o) && (Awaited(s, o, a) ==> byte == At(s.memory, a))
    ensures Intact(s.(memory := s.memory[a := byte]), o)
  {
    if |s.handled| <= o && s.queued[o].SendCommand? {
      PeekElsewhere(s.memory, s.queued[o].at, s.queued[o].len, a, byte);
    }
    forall k | 0 <= k < |s.writes| && s.writes[k].order == o
      ensures Coming(s.memory[a := byte], s.writes[k]) == s.promises[o]
    {
      var w := s.writes[k];
      PeekElsewhere(s.memory, w.at + |w.taken|, w.len - |w.taken|, a, byte);
    }
  }

  /** Taking the next byte changes nothing about what is coming. */
  lemma TakenIsComing(memory: map<nat, Byte>, w: Write)
    requires |w.taken| < w.len
    ensures Coming(memory, w.(taken := w.taken + [At(memory, w.at + |w.taken|)])) == Coming(memory, w)
  {
    var rest := Peek(memory, w.at + |w.taken|, w.len - |w.taken|);
    assert rest == [At(memory, w.at + |w.taken|)] + Peek(memory, w.at + |w.taken| + 1, w.len - |w.taken| - 1);
  }

  lemma TransmitIntact(s: State, k: nat, o: nat)
    requires Intact(s, o) && Enabled(s, Transmit(k))
    ensures Intact(TransmitNext(s, k), o)
  {
    TakenIsComing(s.memory, s.writes[k]);
    hide Coming;
  }

  lemma WriteDoneIntact(s: State, k: nat, ok: bool, o: nat)
    requires Intact(s, o) && Enabled(s, WriteDone(k, ok))
    ensures Intact(WriteDoneNext(s, k, ok), o)
  {
    hide Pushed;
    var t := WriteDoneNext(s, k, ok);
    forall j | 0 <= j < |t.writes| ensures t.writes[j] == s.writes[if j < k then j else j + 1] {}
    if s.writes[k].order == o {
      assert s.writes[k].taken <= Coming(s.memory, s.writes[k]);
    }
    hide Coming;
    forall j | 0 <= j < |t.sent| && t.sent[j].order == o ensures SentRight(t.sent[j], t.promises[o]) {
      if j < |s.sent| {
        assert t.sent[j] == s.sent[j];
      }
    }
  }

  /** The write of a command just handled is about to send what the command pointed at. */
  lemma HandlingIntact(s: State, reply: Reply, t: State, o: nat)
    requires InBounds(s, HandleEnd(reply)) && t == HandleEndNext(s, reply)
    requires PipelineOk(s) && Intact(s, o) && MessagesOk(s)
    ensures Intact(t, o)
  {
    HandlingWrites(s, reply, t);
    hide HandleEndNext;
    assert s.queued[|s.handled|] == s.cmds[s.io.command];
    if t.writes != s.writes && o == |s.handled| {
      var w := Last(t.writes);
      assert Coming(s.memory, w) == Peek(s.memory, w.at, w.len);
    }
    hide Coming;
    forall k | 0 <= k < |t.writes| && t.writes[k].order == o
      ensures |t.writes[k].taken| <= t.writes[k].len && Coming(t.memory, t.writes[k]) == t.promises[o]
    {
      if k < |s.writes| {
        assert t.writes[k] == s.writes[k];
      }
    }
  }

  lemma SameIntact(s: State, t: State, o: nat)
    requires SameMessages(s, t) && Intact(s, o)
    ensures Intact(t, o)
  {
    hide Coming;
  }

  lemma QueueIntact(s: State, t: State, o: nat)
    requires InBounds(s, CmdQueue) && t == CmdQueueNext(s) && Intact(s, o)
    ensures Intact(t, o)
  {
    hide Coming, Pushed;
  }

  /** A message stays as promised through every step but a rewrite of a byte it still awaits. */
  lemma IntactStep(s: State, step: Step, t: State, o: nat)
    requires Enabled(s, step) && InBounds(s, step) && t == Next(s, step)
    requires PipelineOk(s) && Intact(s, o) && MessagesOk(s)
    requires step.Rewrite? && Awaited(s, o, step.at) ==> step.byte == At(s.memory, step.at)
    ensures Intact(t, o)
  {
    hide HandleEndNext, WriteDoneNext, TransmitNext, CmdQueueNext, PipelineOk, Intact, Awaited, MessagesOk;
    if KeepsMessages(step) {
      hide Next, Enabled, InBounds;
      MessagesStay(s, step, t);
      SameIntact(s, t, o);
    } else {
      match step {
        case HandleEnd(reply) => HandlingIntact(s, reply, t, o);
        case WriteDone(k, ok) => WriteDoneIntact(s, k, ok, o);
        case Transmit(k) => TransmitIntact(s, k, o);
        case Rewrite(a, byte) => RewriteIntact(s, a, byte, o);
        case CmdQueue => QueueIntact(s, t, o);
      }
    }
  }

  // ---- whole runs -----------------------------------------------------------------------------

  ghost predicate AllIntact(s: State) {
    MessagesOk(s) && forall o :: 0 <= o < |s.queued| ==> Intact(s, o)
  }

  /** The caller never rewrites a byte some message still awaits. */
  ghost predicate Considerate(s: State, steps: seq<Step>)
    decreases |steps|
  {
    steps == [] ||
    (&& Enabled(s, steps[0]) && InBounds(s, steps[0])
     && (steps[0].Rewrite? ==> forall o: nat :: !Awaited(s, o, steps[0].at))
     && Considerate(Next(s, steps[0]), steps[1..]))
  }

  /** A message is as promised when it is queued. */
  lemma QueuedIntact(s: State)
    requires InBounds(s, CmdQueue) && |s.cmdReady| < Cap(s)
    requires PipelineOk(s) && MessagesOk(s)
    ensures Intact(CmdQueueNext(s), |s.queued|)
  {
  }

  lemma AllIntactStep(s: State, step: Step, t: State)
    requires Enabled(s, step) && InBounds(s, step) && t == Next(s, step)
    requires AllIntact(s) && (step.Rewrite? ==> forall o: nat :: !Awaited(s, o, step.at))
    requires Inv(s)
    ensures AllIntact(t)
  {
    hide EventsOnce, BuffersOnce, SlotsOnce, CommandsOnce, RequestsOnce, Inv;
    hide LinksOk, RoomOk, WritesOk, LogOk, PipelineOk, TracesOk, OpenIsReading;
    hide MessagesOk, Intact, Awaited, Next, Enabled, InBounds, CmdQueueNext;
    InvParts(s);
    MessagesStep(s, step, t);
    QueueMoves(s, step, t);
    if step.CmdQueue? {
      CommandsExist(s);
      QueuedIntact(s);
    }
    forall o | 0 <= o < |t.queued| ensures Intact(t, o) {
      if o < |s.queued| {
        IntactStep(s, step, t, o);
      }
    }
  }

  lemma QueueMoves(s: State, step: Step, t: State)
    requires Enabled(s, step) && InBounds(s, step) && t == Next(s, step)
    ensures if step.CmdQueue?
            then s.cmdHand.Some? && InBounds(s, CmdQueue) && t == CmdQueueNext(s) && |t.queued| <= |s.queued| + 1
            else t.queued == s.queued
  {
    if KeepsMessages(step) {
      hide Next, Enabled, InBounds;
      MessagesStay(s, step, t);
    } else {
      hide Enabled, Pushed, HandleEndNext, Peek;
      if step.HandleEnd? {
        HandlingWrites(s, step.reply, t);
      }
    }
  }

  lemma {:induction false} AllIntactRun(s: State, steps: seq<Step>, t: State)
    requires Reaches(s, steps, t) && Considerate(s, steps) && AllIntact(s)
    requires Inv(s)
    ensures AllIntact(t)
    decreases |steps|
  {
    hide Inv, Next, Enabled, InBounds, AllIntact, Awaited;
    if steps != [] {
      var m := Next(s, steps[0]);
      AllIntactStep(s, steps[0], m);
      StepKeeps(s, steps[0], m);
      AllIntactRun(m, steps[1..], t);
    }
  }

  lemma ConsiderateRuns(n: nat, steps: seq<Step>, s: State)
    requires Reached(n, steps, s) && Considerate(Init(n), steps)
    ensures AllIntact(s) && |s.handled| <= |s.queued|
  {
    hide AllIntact;
    CommandsInOrder(n, steps, s);
    InitKeeps(n);
    NothingYet(n);
    AllIntactRun(Init(n), steps, s);
  }

  lemma NothingYet(n: nat)
    ensures AllIntact(Init(n))
  {
  }

  /** If the caller leaves the memory of its messages alone while they are awaited, every finished write
      sent a part of the message as it was when it was queued, all of it if libuv reported success, and
      every pending one is about to. */
  lemma MessagesArrive(n: nat, steps: seq<Step>, s: State)
    requires Reached(n, steps, s) && Considerate(Init(n), steps)
    ensures forall j :: 0 <= j < |s.sent| ==>
              s.sent[j].order < |s.promises| && SentRight(s.sent[j], s.promises[s.sent[j].order])
    ensures forall k :: 0 <= k < |s.writes| ==>
              && |s.writes[k].taken| <= s.writes[k].len && s.writes[k].order < |s.promises|
              && Coming(s.memory, s.writes[k]) == s.promises[s.writes[k].order]
  {
    hide Reached, Considerate, Coming;
    ConsiderateRuns(n, steps, s);
    forall j | 0 <= j < |s.sent|
      ensures s.sent[j].order < |s.promises| && SentRight(s.sent[j], s.promises[s.sent[j].order])
    {
      assert SentKnown(s.sent[j], s.handled);
      assert Intact(s, s.sent[j].order);
    }
    forall k | 0 <= k < |s.writes|
      ensures && |s.writes[k].taken| <= s.writes[k].len && s.writes[k].order < |s.promises|
              && Coming(s.memory, s.writes[k]) == s.promises[s.writes[k].order]
    {
      assert WriteKnown(s.writes[k], s.handled);
      assert Intact(s, s.writes[k].order);
    }
  }
}
