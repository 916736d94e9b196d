/** Runs in which the code does not do what one would wish, for every number of clients. */
module Witnesses {
  import opened Basics
  import opened Pools
  import opened ServiceModel
  import opened Ownership
  import opened Theorems
  import opened Batches

  /** Slot `i` is being read, holds no buffer, nothing is being written, and no thread is mid-way. */
  predicate Listening(s: State, i: nat) {
    && s.io == Idle && s.writes == [] && i < |s.links|
    && s.links[i].state == Open && s.links[i].handle == Reading && s.links[i].buffer == None && s.links[i].offer == 0
  }

  /** The first client. */
  lemma FirstClient(n: nat) returns (steps: seq<Step>, s: State, i: nat)
    requires n > 0
    ensures Reached(n, steps, s) && Listening(s, i)
    ensures s.n == n && |s.evFree| == 4 * n - 1 && |s.poolRead| == 4 * n && |s.evReady| == 1
    ensures s.updates == [] && s.evRel == s.bufRel == 0
    ensures s.evReady[0] < |s.events| && !s.events[s.evReady[0]].ReadEvent?
    ensures s.evFree[0] != s.evReady[0]
    ensures s.stranded == [] && s.cmdHand == None && |s.cmdFree| == 4 * n && s.cmdReady == []
    ensures s.queued == s.handled == [] && s.promises == [] && s.sent == [] && s.memory == map[] && s.sendReqs != []
  {
    UptoAt(4 * n, 0);
    UptoAt(4 * n, 1);
    var a := Init(n);
    assert Reached(n, [], a);
    var b := TakeStep(n, [], a, Accept(false));
    i := Last(a.freeLinks);
    PushesNeverFail(n, [] + [Accept(false)], b);
    s := TakeStep(n, [] + [Accept(false)], b, PublishOpen(false));
    steps := [] + [Accept(false)] + [PublishOpen(false)];
    hide Reached, Upto;
  }

  /** The client sends a byte and it is reported. */
  lemma OneRead(n: nat, steps: seq<Step>, s: State, i: nat) returns (steps': seq<Step>, t: State)
    requires Reached(n, steps, s) && Listening(s, i) && s.evFree != [] && s.poolRead != []
    ensures Reached(n, steps', t) && Listening(t, i) && t.links == s.links
    ensures |t.evFree| == |s.evFree| - 1 && |t.poolRead| == |s.poolRead| - 1
    ensures t.evReady == s.evReady + [s.evFree[0]] && t.updates == s.updates
    ensures t.evRel == s.evRel && t.bufRel == s.bufRel && t.stranded == s.stranded && |t.events| == |s.events|
    ensures s.evFree[0] < |t.events| && t.events[s.evFree[0]].ReadEvent?
    ensures forall e :: 0 <= e < |t.events| && e != s.evFree[0] ==> t.events[e] == s.events[e]
  {
    hide Reached, Upto, Notes;
    var a := TakeStep(n, steps, s, Alloc(i));
    var b := TakeStep(n, steps + [Alloc(i)], a, Receive(i, [0]));
    var more := steps + [Alloc(i)] + [Receive(i, [0])];
    PushesNeverFail(n, more, b);
    SizeOf(n, more, b);
    t := TakeStep(n, more, b, PublishRead);
    steps' := more + [PublishRead];
  }

  /** Reads until no event is free. */
  lemma {:induction false} UseUpEvents(n: nat, steps: seq<Step>, s: State, i: nat)
    returns (steps': seq<Step>, t: State)
    requires Reached(n, steps, s) && Listening(s, i) && |s.poolRead| >= |s.evFree|
    ensures Reached(n, steps', t) && Listening(t, i) && t.evFree == [] && t.stranded == s.stranded
    decreases |s.evFree|
  {
    hide Reached;
    steps', t := steps, s;
    if s.evFree != [] {
      steps', t := OneRead(n, steps, s, i);
      steps', t := UseUpEvents(n, steps', t, i);
    }
  }

  /** A slot can be stranded: a client whose events the main thread never acquires hangs up. */
  lemma StrandingHappens(n: nat) returns (steps: seq<Step>, s: State, i: nat)
    requires n > 0
    ensures Reached(n, steps, s) && s.stranded == [i]
  {
    hide Reached;
    steps, s, i := FirstClient(n);
    steps, s := UseUpEvents(n, steps, s, i);
    var a := TakeStep(n, steps, s, Hangup(i));
    var b := TakeStep(n, steps + [Hangup(i)], a, CloseBegin(i));
    s := TakeStep(n, steps + [Hangup(i)] + [CloseBegin(i)], b, CloseTake);
    steps := steps + [Hangup(i)] + [CloseBegin(i)] + [CloseTake];
  }

  /** An open and a read acquired and given back: the batch stays on record. */
  lemma BatchGivenBack(n: nat) returns (steps: seq<Step>, s: State, i: nat)
    requires n > 0
    ensures Reached(n, steps, s) && Listening(s, i) && s.n == n
    ensures s.evRel == s.bufRel == |s.updates| == 2 && |s.evFree| == 4 * n == |s.poolRead| && !NoReads(s, 0)
  {
    hide Reached;
    var a, b;
    steps, a, i := FirstClient(n);
    steps, b := OneRead(n, steps, a, i);
    SizeOf(n, steps, b);
    steps, s := Acquired(n, steps, b);
    steps, s := GivenBack(n, steps, s);
    steps, s := GivenBack(n, steps, s);
  }

  lemma Acquired(n: nat, steps: seq<Step>, s: State) returns (steps': seq<Step>, t: State)
    requires Reached(n, steps, s) && s.updates == [] && s.evRel == s.bufRel == 0
    ensures Reached(n, steps', t) && t.n == s.n && t.updates == s.evReady && t.evRel == t.bufRel == 0
    ensures t.events == s.events && t.evFree == s.evFree && t.poolRead == s.poolRead
    ensures t.io == s.io && t.writes == s.writes && t.links == s.links
  {
    hide Reached, Notes;
    t := TakeStep(n, steps, s, Acquire);
    steps' := steps + [Acquire];
  }

  /** One turn of the release loop. */
  lemma GivenBack(n: nat, steps: seq<Step>, s: State) returns (steps': seq<Step>, t: State)
    requires Reached(n, steps, s) && s.n == n && s.evRel == s.bufRel < |s.updates|
    ensures Reached(n, steps', t) && s.updates[s.evRel] < |s.events|
    ensures t.updates == s.updates && t.evRel == t.bufRel == s.evRel + 1 && |t.evFree| == |s.evFree| + 1
    ensures |t.poolRead| == |s.poolRead| + if s.events[s.updates[s.evRel]].ReadEvent? then 1 else 0
    ensures t.n == s.n && t.events == s.events && t.io == s.io && t.writes == s.writes && t.links == s.links
  {
    hide Reached;
    PushesNeverFail(n, steps, s);
    var a := TakeStep(n, steps, s, ReleaseBuffer);
    PushesNeverFail(n, steps + [ReleaseBuffer], a);
    t := TakeStep(n, steps + [ReleaseBuffer], a, ReleaseEvent);
    steps' := steps + [ReleaseBuffer] + [ReleaseEvent];
  }

  /** A second release can list an event twice: another event is out meanwhile. */
  lemma SecondReleaseDuplicatesEvent(n: nat) returns (steps: seq<Step>, s: State)
    requires n > 0
    ensures Reached(n, steps, s) && s.evRel == s.bufRel == |s.updates|
    ensures (forall k :: 0 <= k < |s.updates| ==> s.updates[k] < |s.events|) && !EventsOnce(ReleaseCall(s))
  {
    hide Reached, ReleaseCall, EventsOnce, BuffersOnce;
    var i, a;
    steps, a, i := BatchGivenBack(n);
    steps, s := OneRead(n, steps, a, i);
    ReleaseConservesExactly(n, steps, s);
  }

  /** Or, when no event is out, hand a link's buffer to the pool as well. */
  lemma SecondReleaseDuplicatesBuffer(n: nat) returns (steps: seq<Step>, s: State)
    requires n > 0
    ensures Reached(n, steps, s) && s.evRel == s.bufRel == |s.updates| && |s.evFree| == 4 * n
    ensures forall k :: 0 <= k < |s.updates| ==> s.updates[k] < |s.events|
    ensures EventsOnce(ReleaseCall(s)) && !BuffersOnce(ReleaseCall(s))
  {
    hide Reached, ReleaseCall, EventsOnce, BuffersOnce;
    var i, a;
    steps, a, i := BatchGivenBack(n);
    s := TakeStep(n, steps, a, Alloc(i));
    steps := steps + [Alloc(i)];
    assert NoReads(s, 0) == NoReads(a, 0) by { SameReads(a, s); }
    ReleaseConservesExactly(n, steps, s);
  }

  /** The main thread sends a byte of its memory, where 0 stands, to the first client. */
  lemma MessageQueued(n: nat, steps: seq<Step>, s: State, i: nat) returns (steps': seq<Step>, t: State)
    requires n > 0 && Reached(n, steps, s) && Listening(s, i) && s.n == n && s.cmdHand == None
    requires |s.cmdFree| == 4 * n && s.cmdReady == [] && s.queued == s.handled == [] && s.promises == []
    requires s.sent == [] && s.memory == map[] && s.sendReqs != []
    ensures Reached(n, steps', t) && Listening(t, i) && t.handled == [] && t.promises == [[0]] && t.sent == []
    ensures t.sendReqs != [] && t.queued == [SendCommand(0, i, 0, 1)] && |t.cmdReady| == 1 && t.cmdReady[0] < |t.cmds|
    ensures t.cmds[t.cmdReady[0]] == t.queued[0]
  {
    hide Reached;
    var cmd := SendCommand(0, i, 0, 1);
    var a := TakeStep(n, steps, s, CmdTake(cmd));
    assert Message(a.memory, cmd) == [0];
    t := TakeStep(n, steps + [CmdTake(cmd)], a, CmdQueue);
    steps' := steps + [CmdTake(cmd)] + [CmdQueue];
  }

  /** A queued message is handled. */
  lemma MessageHandled(n: nat, steps: seq<Step>, s: State, i: nat) returns (steps': seq<Step>, t: State)
    requires Reached(n, steps, s) && Listening(s, i) && s.handled == [] && s.sendReqs != []
    requires |s.cmdReady| == 1 && s.cmdReady[0] < |s.cmds| && s.cmds[s.cmdReady[0]] == SendCommand(0, i, 0, 1)
    ensures Reached(n, steps', t) && steps <= steps' && t.io == Idle && t.promises == s.promises && t.sent == s.sent
    ensures t.memory == s.memory && |t.writes| == 1
    ensures t.writes[0] == Write(t.writes[0].request, i, 0, 0, 0, 1, [])
  {
    hide Reached;
    var reply := Reply(true, true, true);
    var a := TakeStep(n, steps, s, HandleBegin);
    t := TakeStep(n, steps + [HandleBegin], a, HandleEnd(reply));
    steps' := steps + [HandleBegin] + [HandleEnd(reply)];
  }

  /** A message of one byte is written, whatever the byte is by now. */
  lemma MessageWritten(n: nat, steps: seq<Step>, s: State) returns (steps': seq<Step>, t: State)
    requires Reached(n, steps, s) && s.io == Idle && |s.writes| == 1
    requires s.writes[0].order == s.writes[0].at == 0 && s.writes[0].len == 1 && s.writes[0].taken == []
    ensures Reached(n, steps', t) && steps <= steps' && t.promises == s.promises
    ensures t.sent == s.sent + [Sent(0, true, [At(s.memory, 0)])]
  {
    hide Reached;
    var a := TakeStep(n, steps, s, Transmit(0));
    assert a.writes[0].taken == [At(s.memory, 0)];
    t := TakeStep(n, steps + [Transmit(0)], a, WriteDone(0, true));
    steps' := steps + [Transmit(0)] + [WriteDone(0, true)];
  }

  lemma MemoryReused(n: nat, steps: seq<Step>, s: State) returns (t: State)
    requires Reached(n, steps, s)
    ensures t == s.(memory := s.memory[0 := 1]) && Reached(n, steps + [Rewrite(0, 1)], t) && At(t.memory, 0) == 1
  {
    hide Reached;
    t := TakeStep(n, steps, s, Rewrite(0, 1));
  }

  /** A message can go out changed: the caller reuses its memory while it is being written. */
  lemma RewrittenMessageIsSent(n: nat) returns (steps: seq<Step>, s: State)
    requires n > 0
    ensures Reached(n, steps, s) && s.promises == [[0]] && s.sent == [Sent(0, true, [1])]
  {
    hide Reached;
    var i;
    steps, s, i := FirstClient(n);
    steps, s := MessageQueued(n, steps, s, i);
    steps, s := MessageHandled(n, steps, s, i);
    s := MemoryReused(n, steps, s);
    steps, s := MessageWritten(n, steps + [Rewrite(0, 1)], s);
  }

  /** Or as soon as the call has returned, while the command still waits in the queue. */
  lemma RewrittenWhileQueuedIsSent(n: nat) returns (steps: seq<Step>, s: State, first: seq<Step>, m: State)
    requires n > 0
    ensures Reached(n, steps, s) && s.promises == [[0]] && s.sent == [Sent(0, true, [1])]
    ensures Reached(n, first, m) && first + [Rewrite(0, 1)] <= steps && |m.queued| == 1 && m.handled == []
  {
    hide Reached;
    var i;
    steps, s, i := FirstClient(n);
    first, m := MessageQueued(n, steps, s, i);
    s := MemoryReused(n, first, m);
    steps, s := MessageHandled(n, first + [Rewrite(0, 1)], s, i);
    steps, s := MessageWritten(n, steps, s);
  }
}
