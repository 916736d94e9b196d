/** Exactly when the message of a send command goes out as it was when it was queued, and so exactly
    which rewrites of the caller's memory spoil it. */
module Rewrites {
  import opened Basics
  import opened Pools
  import opened ServiceModel
  import opened Ownership
  import opened Conservation
  import opened Invariant
  import opened Steps
  import opened Theorems
  import opened Causes
  import opened Messages
  import opened Recovery

  /** What is sent for message `o` in any state is right. */
  ghost predicate SentAsPromised(s: State, o: nat) {
    forall j :: 0 <= j < |s.sent| && s.sent[j].order == o ==> o < |s.promises| && SentRight(s.sent[j], s.promises[o])
  }

  /** The message is sent as promised however the run goes on, if the caller writes no more. */
  ghost predicate Secure(s: State, o: nat) {
    forall t: State :: GoesTo(s, t) ==> SentAsPromised(t, o)
  }

  /** The handler of queued command `o` will not write: it is no send, its slot does not exist or is
      stranded, or it is being handled now and is refused or finds no write request. */
  predicate Unsendable(s: State, o: nat)
    requires o < |s.queued|
  {
    var cmd := s.queued[o];
    || !cmd.SendCommand? || cmd.target >= s.n || cmd.target in s.stranded
    || (s.io.Handling? && o == |s.handled| && (Refused(s, cmd.target) || s.sendReqs == []))
  }

  /** Message `o` waits in the queue and no write will ever be made for it. */
  predicate Dead(s: State, o: nat) {
    |s.handled| <= o < |s.queued| && Unsendable(s, o)
  }

  // ---- an intact message stays intact ---------------------------------------------------------

  lemma {:induction false} IntactRun(s: State, steps: seq<Step>, t: State, o: nat)
    requires Reaches(s, steps, t) && NoRewrite(steps) && Intact(s, o) && MessagesOk(s)
    requires Inv(s)
    ensures Intact(t, o)
    decreases |steps|
  {
    hide Inv, Next, Enabled, InBounds, Intact, MessagesOk;
    if steps != [] {
      var m := Next(s, steps[0]);
      InvParts(s);
      IntactStep(s, steps[0], m, o);
      MessagesStep(s, steps[0], m);
      StepKeeps(s, steps[0], m);
      IntactRun(m, steps[1..], t, o);
    }
  }

  lemma IntactSecure(s: State, o: nat)
    requires Intact(s, o) && MessagesOk(s)
    requires Inv(s)
    ensures Secure(s, o)
  {
    hide Inv, Reaches, Intact, MessagesOk, NoRewrite;
    forall t: State | GoesTo(s, t) ensures SentAsPromised(t, o) {
      var steps: seq<Step> :| Reaches(s, steps, t) && NoRewrite(steps);
      IntactRun(s, steps, t, o);
      IntactSent(t, o);
    }
  }

  lemma IntactSent(s: State, o: nat)
    requires Intact(s, o)
    ensures SentAsPromised(s, o)
  {
  }

  // ---- a dead command is never written --------------------------------------------------------

  /** There is no write for message `o`, past or pending, and there will be none. */
  predicate Unwritten(s: State, o: nat) {
    && (forall k :: 0 <= k < |s.writes| ==> s.writes[k].order != o)
    && (forall j :: 0 <= j < |s.sent| ==> s.sent[j].order != o)
    && (o < |s.handled| || Dead(s, o))
  }

  lemma DeadUnwritten(s: State, o: nat)
    requires MessagesOk(s) && Dead(s, o)
    ensures Unwritten(s, o)
  {
    hide Unsendable;
    forall k | 0 <= k < |s.writes| ensures s.writes[k].order != o {
      assert WriteKnown(s.writes[k], s.handled);
    }
    forall j | 0 <= j < |s.sent| ensures s.sent[j].order != o {
      assert SentKnown(s.sent[j], s.handled);
    }
  }

  /** While a command is being handled, nothing else changes a link or takes a write request. */
  lemma HandlingHolds(s: State, step: Step, t: State)
    requires Enabled(s, step) && InBounds(s, step) && t == Next(s, step)
    requires s.io.Handling? && !step.HandleEnd?
    ensures t.io == s.io && t.links == s.links && t.sendReqs == s.sendReqs
  {
    hide Notes, Upto, Pushed;
  }

  /** The command being handled is the first that was queued and has not been handled. */
  lemma InHandIsNext(s: State)
    requires s.io.Handling? && Inv(s)
    ensures s.io.command < |s.cmds| && |s.handled| < |s.queued| && s.queued[|s.handled|] == s.cmds[s.io.command]
  {
    hide Inv;
    InvParts(s);
    CommandsExist(s);
    hide LinksOk, RoomOk, WritesOk, LogOk, TracesOk, OpenIsReading;
    hide EventsOnce, BuffersOnce, SlotsOnce, CommandsOnce, RequestsOnce;
    assert s.queued[|s.handled|] == InHand(s)[0];
  }

  lemma AbsentRefuses(s: State, i: nat)
    requires i >= |s.links|
    ensures Refused(s, i)
  {
  }

  /** A stranded slot refuses every command. */
  lemma StrandedRefuses(s: State, i: nat)
    requires i < s.n && i in s.stranded
    requires Inv(s)
    ensures Refused(s, i)
  {
    hide Inv;
    SlotCount(s);
    InvParts(s);
    hide RoomOk, WritesOk, LogOk, PipelineOk, TracesOk, OpenIsReading;
    hide EventsOnce, BuffersOnce, SlotsOnce, CommandsOnce, RequestsOnce;
    if s.links[i].handle != Gone {
      OwnedSlot(s, i);
    }
    assert LinkShape(s.links[i], i, s.io);
  }

  lemma DeadIsRefused(s: State, reply: Reply, t: State)
    requires InBounds(s, HandleEnd(reply)) && t == HandleEndNext(s, reply) && Dead(s, |s.handled|)
    requires Inv(s)
    ensures t.writes == s.writes
  {
    hide Inv, Refused, Pushed;
    InHandIsNext(s);
    SlotCount(s);
    var cmd := s.queued[|s.handled|];
    if cmd.SendCommand? {
      if cmd.target >= s.n {
        AbsentRefuses(s, cmd.target);
      } else if cmd.target in s.stranded {
        StrandedRefuses(s, cmd.target);
      }
    }
  }

  lemma SameRefusal(s: State, t: State, i: nat)
    requires t.links == s.links
    ensures Refused(t, i) == Refused(s, i)
  {
  }

  lemma QueueGrows(s: State, step: Step, t: State)
    requires Enabled(s, step) && InBounds(s, step) && t == Next(s, step)
    ensures s.queued <= t.queued
  {
    hide Next, Enabled, InBounds;
    QueueMoves(s, step, t);
  }

  lemma DeadStays(s: State, step: Step, t: State, o: nat)
    requires Enabled(s, step) && InBounds(s, step) && t == Next(s, step)
    requires Dead(s, o) && o >= |t.handled|
    ensures Dead(t, o)
  {
    hide Next, Enabled, InBounds, Refused;
    BatchMoves(s, step, t);
    StrandedMoves(s, step, t);
    QueueGrows(s, step, t);
    HandledStep(s, step, t);
    if s.io.Handling? && o == |s.handled| && s.queued[o].SendCommand? {
      HandlingHolds(s, step, t);
      SameRefusal(s, t, s.queued[o].target);
    }
  }

  /** Handling a command makes no write for another, nor for a dead one. */
  lemma UnwrittenHandling(s: State, reply: Reply, t: State, o: nat)
    requires InBounds(s, HandleEnd(reply)) && t == HandleEndNext(s, reply)
    requires Unwritten(s, o)
    requires Inv(s)
    ensures forall k :: 0 <= k < |t.writes| ==> t.writes[k].order != o
  {
    hide Inv, HandleEndNext, Dead;
    HandlingWrites(s, reply, t);
    if o == |s.handled| {
      DeadIsRefused(s, reply, t);
    }
  }

  lemma UnwrittenSend(s: State, step: Step, t: State, o: nat)
    requires step.Transmit? || step.WriteDone?
    requires Enabled(s, step) && t == Next(s, step)
    requires forall k :: 0 <= k < |s.writes| ==> s.writes[k].order != o
    requires forall j :: 0 <= j < |s.sent| ==> s.sent[j].order != o
    ensures forall k :: 0 <= k < |t.writes| ==> t.writes[k].order != o
    ensures forall j :: 0 <= j < |t.sent| ==> t.sent[j].order != o
  {
    hide Pushed;
  }

  lemma UnwrittenStep(s: State, step: Step, t: State, o: nat)
    requires Enabled(s, step) && InBounds(s, step) && t == Next(s, step)
    requires Unwritten(s, o)
    requires Inv(s)
    ensures Unwritten(t, o)
  {
    hide Inv, Dead, Next, Enabled, InBounds;
    HandledStep(s, step, t);
    if o >= |t.handled| {
      DeadStays(s, step, t, o);
    }
    if step.Transmit? || step.WriteDone? {
      UnwrittenSend(s, step, t, o);
    } else if step.HandleEnd? {
      HandleEnds(s, step.reply, t);
      UnwrittenHandling(s, step.reply, t, o);
    } else {
      WritesStay(s, step, t);
    }
  }

  lemma HandleEnds(s: State, reply: Reply, t: State)
    requires Enabled(s, HandleEnd(reply)) && InBounds(s, HandleEnd(reply)) && t == Next(s, HandleEnd(reply))
    ensures t == HandleEndNext(s, reply) && t.sent == s.sent
  {
    HandlingWrites(s, reply, t);
  }

  lemma WritesStay(s: State, step: Step, t: State)
    requires Enabled(s, step) && InBounds(s, step) && t == Next(s, step)
    requires !step.Transmit? && !step.WriteDone? && !step.HandleEnd?
    ensures t.writes == s.writes && t.sent == s.sent
  {
    if KeepsMessages(step) {
      hide Next, Enabled, InBounds;
      MessagesStay(s, step, t);
    }
  }

  lemma {:induction false} UnwrittenRun(s: State, steps: seq<Step>, t: State, o: nat)
    requires Reaches(s, steps, t) && Unwritten(s, o)
    requires Inv(s)
    ensures Unwritten(t, o)
    decreases |steps|
  {
    hide Inv, Next, Enabled, InBounds, Unwritten;
    if steps != [] {
      var m := Next(s, steps[0]);
      UnwrittenStep(s, steps[0], m, o);
      StepKeeps(s, steps[0], m);
      UnwrittenRun(m, steps[1..], t, o);
    }
  }

  lemma DeadSecure(s: State, o: nat)
    requires Dead(s, o) && MessagesOk(s)
    requires Inv(s)
    ensures Secure(s, o)
  {
    hide Inv, Reaches, NoRewrite, Dead, MessagesOk;
    DeadUnwritten(s, o);
    forall t: State | GoesTo(s, t) ensures SentAsPromised(t, o) {
      var steps: seq<Step> :| Reaches(s, steps, t) && NoRewrite(steps);
      UnwrittenRun(s, steps, t, o);
    }
  }

  // ---- any other command can be written -------------------------------------------------------

  /** The slot most recently freed is given up again. */
  lemma AcceptFails(s: State, m: State) returns (t: State)
    requires Onward(s, m) && Resting(m) && m.freeLinks != []
    ensures Onward(s, t) && Resting(t) && Lasting(m, t) && t.handled == m.handled
    ensures t.freeLinks == Front(m.freeLinks) && t.evFree == m.evFree && t.sendReqs == m.sendReqs
  {
    hide Inv, GoesTo;
    t := Go(s, m, Accept(true));
  }

  /** The slot most recently freed takes a client. */
  lemma AcceptTakes(s: State, m: State) returns (t: State)
    requires Onward(s, m) && Resting(m) && m.freeLinks != [] && m.evFree != []
    ensures Onward(s, t) && SameMessages(m, t) && Lasting(m, t) && t.sendReqs == m.sendReqs
    ensures t.io == Opening(Last(m.freeLinks), m.evFree[0])
  {
    hide Inv, GoesTo;
    t := Go(s, m, Accept(false));
  }

  lemma ReadyTakes(s: State)
    requires s.io.Opening? && Inv(s)
    ensures |s.evReady| < Cap(s)
  {
    hide Inv;
    InvParts(s);
    ReadyHasRoom(s);
  }

  lemma AcceptPublishes(s: State, m: State) returns (t: State)
    requires Onward(s, m) && m.io.Opening?
    ensures Onward(s, t) && SameMessages(m, t) && Lasting(m, t) && t.sendReqs == m.sendReqs
    ensures t.io == Idle && !Refused(t, m.io.slot)
  {
    hide Inv, GoesTo;
    ReadyTakes(m);
    t := Go(s, m, PublishOpen(false));
  }

  /** A free slot can be given to a client. */
  lemma {:induction false} Reopen(s: State, m: State, i: nat) returns (t: State)
    requires Onward(s, m) && Resting(m) && i in m.freeLinks && m.evFree != []
    ensures Onward(s, t) && Resting(t) && Lasting(m, t) && t.handled == m.handled
    ensures t.sendReqs == m.sendReqs && !Refused(t, i)
    decreases |m.freeLinks|
  {
    hide Inv, GoesTo, Refused;
    if Last(m.freeLinks) == i {
      t := AcceptTakes(s, m);
      t := AcceptPublishes(s, t);
    } else {
      t := AcceptFails(s, m);
      assert i in t.freeLinks;
      t := Reopen(s, t, i);
    }
  }

  /** At rest every slot that is not stranded is free, and so are an event and a write request for it. */
  lemma SettledSlot(s: State, i: nat)
    requires Settled(s) && i < s.n && i !in s.stranded
    requires Inv(s)
    ensures i in s.freeLinks && s.evFree != [] && s.sendReqs != []
  {
    hide Inv;
    SettledPools(s);
    AllCounts(s.n);
    AllCounts(Cap(s));
    assert (multiset(s.freeLinks) + multiset(s.stranded))[i] == multiset(s.freeLinks)[i] + multiset(s.stranded)[i];
    assert |multiset(s.evFree)| == |s.evFree| && |multiset(s.sendReqs)| == |s.sendReqs|;
  }

  /** The send command being handled is not refused and finds a write request. */
  lemma SendsNow(s: State, m: State) returns (t: State)
    requires Onward(s, m) && m.io.Handling? && |m.handled| < |m.queued|
    requires var cmd := m.queued[|m.handled|];
             cmd.SendCommand? && !Refused(m, cmd.target) && m.sendReqs != []
    ensures Onward(s, t) && t.io == Idle && Lasting(m, t)
    ensures var cmd := m.queued[|m.handled|];
            t.writes == m.writes
              + [Write(Last(m.sendReqs), cmd.target, cmd.id, |m.handled|, cmd.at, cmd.len, [])]
  {
    hide Inv, GoesTo, Refused;
    InHandIsNext(m);
    t := Go(s, m, HandleEnd(Reply(true, true, true)));
  }

  /** A command that waits can come to be written, unless it is dead. */
  lemma SendsLater(s: State, o: nat) returns (t: State)
    requires |s.handled| <= o < |s.queued| && !Dead(s, o)
    requires Inv(s)
    ensures Onward(s, t) && t.io == Idle && Lasting(s, t) && t.writes != []
    ensures var w, cmd := Last(t.writes), s.queued[o];
            w.order == o && cmd.SendCommand? && w.at == cmd.at && w.len == cmd.len && w.taken == []
  {
    hide Inv, GoesTo, Refused, Settled;
    Begin(s);
    if s.io.Handling? && o == |s.handled| {
      t := SendsNow(s, s);
    } else {
      var i := s.queued[o].target;
      var u := Settle(s, s, o);
      SettledSlot(u, i);
      RestingWhenSettled(u);
      u := Reopen(s, u, i);
      NextQueued(u);
      var v := Go(s, u, HandleBegin);
      SameRefusal(u, v, i);
      t := SendsNow(s, v);
    }
  }

  lemma RestingWhenSettled(s: State)
    requires Settled(s)
    ensures Resting(s)
  {
  }

  // ---- whatever is written can be finished ----------------------------------------------------

  lemma ByteTaken(s: State, m: State, k: nat) returns (t: State)
    requires Onward(s, m) && k < |m.writes| && |m.writes[k].taken| < m.writes[k].len
    ensures Onward(s, t) && Lasting(m, t) && t.io == m.io && t.sent == m.sent && |t.writes| == |m.writes|
    ensures var w := m.writes[k]; t.writes[k] == w.(taken := w.taken + [At(m.memory, w.at + |w.taken|)])
  {
    hide Inv, GoesTo;
    t := Go(s, m, Transmit(k));
  }

  lemma WriteEnds(s: State, m: State, k: nat) returns (t: State)
    requires Onward(s, m) && m.io == Idle && k < |m.writes| && |m.writes[k].taken| == m.writes[k].len
    ensures Onward(s, t) && t.promises == m.promises
    ensures t.sent == m.sent + [Sent(m.writes[k].order, true, Coming(m.memory, m.writes[k]))]
  {
    hide Inv, GoesTo, Pushed;
    t := Go(s, m, WriteDone(k, true));
    assert Coming(m.memory, m.writes[k]) == m.writes[k].taken;
  }

  /** Nothing keeps libuv from taking the rest of a write and reporting success. */
  lemma {:induction false} FinishWrite(s: State, m: State, k: nat) returns (t: State)
    requires Onward(s, m) && m.io == Idle && k < |m.writes| && |m.writes[k].taken| <= m.writes[k].len
    ensures GoesTo(s, t) && t.promises == m.promises
    ensures t.sent == m.sent + [Sent(m.writes[k].order, true, Coming(m.memory, m.writes[k]))]
    decreases m.writes[k].len - |m.writes[k].taken|
  {
    hide Inv, GoesTo, Coming;
    var w := m.writes[k];
    if |w.taken| == w.len {
      t := WriteEnds(s, m, k);
    } else {
      t := ByteTaken(s, m, k);
      TakenIsComing(m.memory, w);
      t := FinishWrite(s, t, k);
    }
  }

  // ---- exactly when a message is secure -------------------------------------------------------

  lemma WrongWrite(s: State, k: nat)
    requires k < |s.writes| && |s.writes[k].taken| <= s.writes[k].len && s.writes[k].order < |s.promises|
    requires Coming(s.memory, s.writes[k]) != s.promises[s.writes[k].order]
    requires Inv(s)
    ensures !Secure(s, s.writes[k].order)
  {
    hide Inv, GoesTo, Coming;
    Begin(s);
    var m := ToIdle(s, s);
    var t := FinishWrite(s, m, k);
    WrongLast(t, s.writes[k].order);
  }

  lemma WrongLast(s: State, o: nat)
    requires s.sent != [] && o < |s.promises|
    requires Last(s.sent).order == o && !SentRight(Last(s.sent), s.promises[o])
    ensures !SentAsPromised(s, o)
  {
    assert s.sent[|s.sent| - 1] == Last(s.sent);
  }

  lemma WrongMessage(s: State, o: nat)
    requires |s.handled| <= o < |s.queued| && o < |s.promises| && !Dead(s, o)
    requires Message(s.memory, s.queued[o]) != s.promises[o]
    requires Inv(s)
    ensures !Secure(s, o)
  {
    hide Inv, GoesTo, Dead, Peek;
    var m := SendsLater(s, o);
    var w := Last(m.writes);
    assert Coming(m.memory, w) == Peek(m.memory, w.at, w.len) by {
      assert [] + Peek(m.memory, w.at, w.len) == Peek(m.memory, w.at, w.len);
    }
    var t := FinishWrite(s, m, |m.writes| - 1);
    WrongLast(t, o);
  }

  /** Exactly when a message is secure, whatever stage it is at and wherever the two threads stand: what
      was sent, what is being sent and what the queued command points at is as promised, or the command
      can never be written. */
  lemma SecureExactly(n: nat, steps: seq<Step>, s: State, o: nat)
    requires Reached(n, steps, s) && o < |s.queued|
    ensures Secure(s, o) <==> Intact(s, o) || Dead(s, o)
  {
    hide Inv, Reached, Secure, Dead, Coming, Message, SentRight;
    ReachedInv(n, steps, s);
    WritesAreOrdered(n, steps, s);
    if Intact(s, o) {
      IntactSecure(s, o);
    } else if Dead(s, o) {
      DeadSecure(s, o);
    } else if |s.handled| <= o && Message(s.memory, s.queued[o]) != s.promises[o] {
      WrongMessage(s, o);
    } else if k :| 0 <= k < |s.writes| && s.writes[k].order == o && Coming(s.memory, s.writes[k]) != s.promises[o] {
      WrongWrite(s, k);
    } else {
      WrongSent(s, o);
    }
  }

  lemma WrongSent(s: State, o: nat)
    requires o < |s.promises|
    requires exists j :: 0 <= j < |s.sent| && s.sent[j].order == o && !SentRight(s.sent[j], s.promises[o])
    requires Inv(s)
    ensures !Secure(s, o)
  {
    hide Inv, GoesTo;
    Begin(s);
  }

  // ---- exactly which rewrites are safe --------------------------------------------------------

  lemma PeekSpoiled(memory: map<nat, Byte>, at: nat, len: nat, a: nat, byte: Byte)
    requires at <= a < at + len && byte != At(memory, a)
    ensures Peek(memory[a := byte], at, len) != Peek(memory, at, len)
  {
    assert Peek(memory, at, len)[a - at] == At(memory, a);
    assert Peek(memory[a := byte], at, len)[a - at] == byte;
  }

  lemma ComingSpoiled(memory: map<nat, Byte>, w: Write, a: nat, byte: Byte)
    requires |w.taken| <= w.len && w.at + |w.taken| <= a < w.at + w.len && byte != At(memory, a)
    ensures Coming(memory[a := byte], w) != Coming(memory, w)
  {
    PeekSpoiled(memory, w.at + |w.taken|, w.len - |w.taken|, a, byte);
    assert Coming(memory, w)[|w.taken|..] == Peek(memory, w.at + |w.taken|, w.len - |w.taken|);
  }

  /** A rewrite leaves a message intact exactly if it misses the bytes still awaited, or changes nothing. */
  lemma RewriteIntactExactly(s: State, o: nat, a: nat, byte: Byte)
    requires Intact(s, o)
    ensures Intact(s.(memory := s.memory[a := byte]), o) <==> !Awaited(s, o, a) || byte == At(s.memory, a)
  {
    if !Awaited(s, o, a) || byte == At(s.memory, a) {
      RewriteIntact(s, a, byte, o);
    } else if |s.handled| <= o && s.queued[o].SendCommand? && s.queued[o].at <= a < s.queued[o].at + s.queued[o].len {
      PeekSpoiled(s.memory, s.queued[o].at, s.queued[o].len, a, byte);
    } else {
      hide Coming;
      var k :| 0 <= k < |s.writes| && s.writes[k].order == o
               && s.writes[k].at + |s.writes[k].taken| <= a < s.writes[k].at + s.writes[k].len;
      ComingSpoiled(s.memory, s.writes[k], a, byte);
    }
  }

  /** Exactly which rewrites are safe. Rewriting a byte of memory leaves a message that is as promised so
      far secure if and only if the byte is not one the message still awaits, in the queue or in a pending
      write, or it keeps its value, or the command can never be written. */
  lemma RewriteIsSafeExactly(n: nat, steps: seq<Step>, s: State, o: nat, a: nat, byte: Byte)
    requires Reached(n, steps, s) && Intact(s, o)
    ensures Secure(Next(s, Rewrite(a, byte)), o) <==>
              !Awaited(s, o, a) || byte == At(s.memory, a) || Dead(s, o)
  {
    assert o < |s.queued|;
    hide Reached, Secure, Intact, Awaited;
    var t := TakeStep(n, steps, s, Rewrite(a, byte));
    SecureExactly(n, steps + [Rewrite(a, byte)], t, o);
    RewriteIntactExactly(s, o, a, byte);
    hide Refused;
    assert Dead(t, o) == Dead(s, o) by {
      SameRefusal(s, t, if o < |s.queued| && s.queued[o].SendCommand? then s.queued[o].target else 0);
    }
  }
}
