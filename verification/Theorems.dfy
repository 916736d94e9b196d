/** What holds in every state of every run: any number of clients, any number of steps, any
    interleaving of the two threads. */
module Theorems {
  import opened Basics
  import opened Pools
  import opened ServiceModel
  import opened Ownership
  import opened Conservation
  import opened Traces
  import opened Invariant
  import opened Steps

  /** `s` is reached from setup with room for `n` clients. */
  predicate Reached(n: nat, steps: seq<Step>, s: State) {
    Reaches(Init(n), steps, s)
  }

  lemma ReachedInv(n: nat, steps: seq<Step>, s: State)
    requires Reached(n, steps, s)
    ensures Inv(s)
  {
    InitKeeps(n);
    RunKeeps(Init(n), steps, s);
  }

  lemma InvParts(s: State)
    requires Inv(s)
    ensures EventsOnce(s) && BuffersOnce(s) && SlotsOnce(s) && CommandsOnce(s) && RequestsOnce(s)
    ensures LinksOk(s) && RoomOk(s) && WritesOk(s) && LogOk(s) && PipelineOk(s) && TracesOk(s) && OpenIsReading(s)
  {
  }

  // ---- runs -----------------------------------------------------------------------------------

  lemma {:induction false} ReachesThen(s: State, first: seq<Step>, m: State, step: Step, t: State)
    requires Reaches(s, first, m) && Enabled(m, step) && InBounds(m, step) && t == Next(m, step)
    ensures Reaches(s, first + [step], t)
    decreases |first|
  {
    hide Next, Enabled, InBounds;
    if first == [] {
      assert [step][1..] == [] && first + [step] == [step];
      assert Reaches(t, [], t);
    } else {
      ReachesThen(Next(s, first[0]), first[1..], m, step, t);
      assert (first + [step])[1..] == first[1..] + [step];
    }
  }

  lemma {:induction false} ReachesBefore(s: State, steps: seq<Step>, t: State) returns (m: State)
    requires Reaches(s, steps, t) && steps != []
    ensures Reaches(s, Front(steps), m)
    ensures Enabled(m, Last(steps)) && InBounds(m, Last(steps)) && t == Next(m, Last(steps))
    decreases |steps|
  {
    hide Next, Enabled, InBounds;
    if |steps| == 1 {
      m := s;
      assert steps[1..] == [] == Front(steps);
    } else {
      m := ReachesBefore(Next(s, steps[0]), steps[1..], t);
      assert Front(steps)[1..] == Front(steps[1..]);
    }
  }

  lemma {:induction false} ReachesOne(s: State, steps: seq<Step>, t: State, u: State)
    requires Reaches(s, steps, t) && Reaches(s, steps, u)
    ensures t == u
    decreases |steps|
  {
    hide Next, Enabled, InBounds;
    if steps != [] {
      ReachesOne(Next(s, steps[0]), steps[1..], t, u);
    }
  }

  lemma ReachedOne(n: nat, steps: seq<Step>, s: State, t: State)
    requires Reached(n, steps, s) && Reached(n, steps, t)
    ensures s == t
  {
    ReachesOne(Init(n), steps, s, t);
  }

  /** Whatever is enabled can be taken, and makes the run one step longer. */
  lemma TakeStep(n: nat, steps: seq<Step>, s: State, step: Step) returns (t: State)
    requires Reached(n, steps, s) && Enabled(s, step)
    ensures InBounds(s, step) && t == Next(s, step) && Reached(n, steps + [step], t)
  {
    ReachedInv(n, steps, s);
    hide Inv, Enabled, InBounds, Next;
    StepInBounds(s, step);
    t := Next(s, step);
    ReachesThen(Init(n), steps, s, step, t);
  }

  /** What the callbacks that open a link leave alone: the batch, the buffers and the messages. */
  predicate OpeningFrame(s: State, t: State) {
    && t.n == s.n && t.updates == s.updates && t.seen == s.seen && t.bufRel == s.bufRel && t.data == s.data
    && t.writes == s.writes && t.handled == s.handled && t.sent == s.sent
    && t.queued == s.queued && t.promises == s.promises && t.memory == s.memory
    && t.stranded == s.stranded && t.cmdHand == s.cmdHand
  }

  lemma AcceptFrame(s: State, fault: bool)
    requires SlotAtHand(s)
    ensures OpeningFrame(s, AcceptNext(s, fault))
  {
  }

  lemma ConnectFrame(s: State, i: nat, fault: bool)
    requires i < |s.links|
    ensures OpeningFrame(s, ConnectNext(s, i, fault))
  {
  }

  lemma PublishOpenFrame(s: State, readFails: bool)
    requires InBounds(s, PublishOpen(readFails))
    ensures OpeningFrame(s, PublishOpenNext(s, readFails))
  {
  }

  predicate OpensLink(step: Step) {
    step.Accept? || step.Connect? || step.PublishOpen?
  }

  lemma OpeningStays(s: State, step: Step, t: State)
    requires Enabled(s, step) && InBounds(s, step) && t == Next(s, step) && OpensLink(step)
    ensures OpeningFrame(s, t)
  {
    hide AcceptNext, ConnectNext, PublishOpenNext, OpeningFrame;
    match step {
      case Accept(fault) => AcceptFrame(s, fault);
      case Connect(i, fault) => ConnectFrame(s, i, fault);
      case PublishOpen(readFails) => PublishOpenFrame(s, readFails);
    }
  }

  /** What the callbacks that read from a link or close it leave alone: the batch and the messages. */
  predicate LinkFrame(s: State, t: State) {
    && t.n == s.n && t.updates == s.updates && t.seen == s.seen && t.bufRel == s.bufRel
    && t.writes == s.writes && t.handled == s.handled && t.sent == s.sent
    && t.queued == s.queued && t.promises == s.promises && t.memory == s.memory && t.cmdHand == s.cmdHand
  }

  lemma AllocFrame(s: State, i: nat)
    requires InBounds(s, Alloc(i))
    ensures LinkFrame(s, AllocNext(s, i))
  {
  }

  lemma ReceiveFrame(s: State, i: nat, bytes: seq<Byte>)
    requires InBounds(s, Receive(i, bytes))
    ensures LinkFrame(s, ReceiveNext(s, i, bytes))
  {
  }

  lemma PublishReadFrame(s: State)
    requires InBounds(s, PublishRead)
    ensures LinkFrame(s, PublishReadNext(s))
  {
  }

  lemma CloseTakeFrame(s: State)
    requires InBounds(s, CloseTake)
    ensures LinkFrame(s, CloseTakeNext(s))
  {
  }

  lemma PublishCloseFrame(s: State)
    requires InBounds(s, PublishClose)
    ensures LinkFrame(s, PublishCloseNext(s))
  {
  }

  predicate WorksLink(step: Step) {
    || step.Alloc? || step.Receive? || step.PublishRead? || step.Hangup?
    || step.CloseBegin? || step.CloseTake? || step.PublishClose?
  }

  lemma WorkStays(s: State, step: Step, t: State)
    requires Enabled(s, step) && InBounds(s, step) && t == Next(s, step) && WorksLink(step)
    ensures LinkFrame(s, t)
  {
    hide AllocNext, ReceiveNext, PublishReadNext, CloseTakeNext, PublishCloseNext, Pushed;
    match step {
      case Alloc(i) => AllocFrame(s, i);
      case Receive(i, bytes) => ReceiveFrame(s, i, bytes);
      case PublishRead => PublishReadFrame(s);
      case Hangup(_) =>
      case CloseBegin(_) =>
      case CloseTake => CloseTakeFrame(s);
      case PublishClose => PublishCloseFrame(s);
    }
  }

  /** Who changes the acquired batch, and how. */
  lemma BatchMoves(s: State, step: Step, t: State)
    requires Enabled(s, step) && InBounds(s, step) && t == Next(s, step)
    ensures t.n == s.n
    ensures t.updates == if step == Acquire then s.evReady else s.updates
    ensures step != Acquire ==> t.seen == s.seen && (step != ReleaseBuffer ==> t.bufRel == s.bufRel)
  {
    if OpensLink(step) {
      hide Next, Enabled, InBounds;
      OpeningStays(s, step, t);
    } else if WorksLink(step) {
      hide Next, Enabled, InBounds;
      WorkStays(s, step, t);
    } else {
      hide Notes, Upto, Pushed, Enabled, Dispatch;
      if step.HandleEnd? {
        DispatchMoves(s, s.cmds[s.io.command], step.reply);
      }
    }
  }

  lemma DispatchMoves(s: State, cmd: Command, reply: Reply)
    requires SlotAtHand(s)
    ensures var t := Dispatch(s, cmd, reply);
            && t.n == s.n && t.updates == s.updates && t.seen == s.seen && t.bufRel == s.bufRel && t.data == s.data
            && t.stranded == s.stranded && t.cmdHand == s.cmdHand
  {
    hide Pushed, Refused;
  }

  lemma {:induction false} SameN(s: State, steps: seq<Step>, t: State)
    requires Reaches(s, steps, t)
    ensures t.n == s.n
    decreases |steps|
  {
    if steps != [] {
      BatchMoves(s, steps[0], Next(s, steps[0]));
      hide Next, Enabled, InBounds;
      SameN(Next(s, steps[0]), steps[1..], t);
    }
  }

  lemma SizeOf(n: nat, steps: seq<Step>, s: State)
    requires Reached(n, steps, s)
    ensures s.n == n
  {
    SameN(Init(n), steps, s);
  }

  // ---- ownership ------------------------------------------------------------------------------

  /** Each of the 4N read buffers is in exactly one place. */
  lemma BufferHasOneOwner(n: nat, steps: seq<Step>, s: State, b: nat)
    requires Reached(n, steps, s) && b < 4 * n
    ensures s.bufRel <= |s.updates|
    ensures multiset(s.poolRead)[b] + LinkBufs(s.links)[b] + EventBufs(s.events, s.evReady)[b]
            + EventBufs(s.events, s.updates[s.bufRel..])[b] == 1
  {
    ReachedInv(n, steps, s);
    SameN(Init(n), steps, s);
    BufferCounts(s, b);
  }

  lemma BufferCounts(s: State, b: nat)
    requires BuffersOnce(s) && b < Cap(s)
    ensures multiset(s.poolRead)[b] + LinkBufs(s.links)[b] + EventBufs(s.events, s.evReady)[b]
            + EventBufs(s.events, s.updates[s.bufRel..])[b] == 1
  {
    AllCounts(Cap(s));
    CountSum(multiset(s.poolRead), LinkBufs(s.links), EventBufs(s.events, s.evReady),
             EventBufs(s.events, s.updates[s.bufRel..]), b);
  }

  /** Each of the 4N events is in exactly one of the free list, the ready queue, the part of the
      acquired batch not yet given back, or a callback's hand. */
  lemma EventHasOneOwner(n: nat, steps: seq<Step>, s: State, e: nat)
    requires Reached(n, steps, s) && e < 4 * n
    ensures s.evRel <= |s.updates| <= 4 * n
    ensures multiset(s.evFree)[e] + multiset(s.evReady)[e] + multiset(s.updates[s.evRel..])[e]
            + HandEvent(s.io)[e] == 1
  {
    ReachedInv(n, steps, s);
    SameN(Init(n), steps, s);
    EventCounts(s, e);
    BatchFits(n, steps, s);
  }

  lemma EventCounts(s: State, e: nat)
    requires EventsOnce(s) && e < Cap(s)
    ensures multiset(s.evFree)[e] + multiset(s.evReady)[e] + multiset(s.updates[s.evRel..])[e]
            + HandEvent(s.io)[e] == 1
  {
    AllCounts(Cap(s));
    CountSum(multiset(s.evFree), multiset(s.evReady), multiset(s.updates[s.evRel..]), HandEvent(s.io), e);
  }

  lemma ReadyFits(s: State)
    requires EventsOnce(s)
    ensures |s.evReady| <= Cap(s)
  {
    AllCounts(Cap(s));
    CountSum(multiset(s.evFree), multiset(s.evReady), multiset(s.updates[s.evRel..]), HandEvent(s.io), 0);
  }

  /** A batch never overflows `event_updates`. */
  lemma {:induction false} BatchFits(n: nat, steps: seq<Step>, s: State)
    requires Reached(n, steps, s)
    ensures |s.updates| <= 4 * n
  {
    InitKeeps(n);
    BatchFitsFrom(Init(n), steps, s);
  }

  lemma {:induction false} BatchFitsFrom(s: State, steps: seq<Step>, t: State)
    requires Reaches(s, steps, t) && |s.updates| <= Cap(s)
    requires Inv(s)
    ensures |t.updates| <= Cap(s)
    decreases |steps|
  {
    hide Inv, EventsOnce, Next, Enabled, InBounds;
    if steps != [] {
      var m := Next(s, steps[0]);
      StepKeeps(s, steps[0], m);
      BatchMoves(s, steps[0], m);
      InvParts(s);
      ReadyFits(s);
      BatchFitsFrom(m, steps[1..], t);
    }
  }

  /** Each slot is listed free once, stranded once, or owned by one live handle; its id is its
      index; a free slot holds no buffer and is NEW or CLOSED. */
  lemma SlotHasOneOwner(n: nat, steps: seq<Step>, s: State, i: nat)
    requires Reached(n, steps, s) && i < n
    ensures |s.links| == n && s.links[i].id == i
    ensures multiset(s.freeLinks)[i] + multiset(s.stranded)[i] + (if s.links[i].handle == Gone then 0 else 1) == 1
    ensures s.links[i].handle == Gone ==>
              s.links[i].buffer == None && (s.links[i].state == New || s.links[i].state == Closed)
  {
    ReachedInv(n, steps, s);
    SameN(Init(n), steps, s);
    SlotCounts(s, i);
  }

  lemma {:induction false} OwnedOnce(links: seq<Link>, i: nat)
    requires i < |links|
    ensures Owned(links)[i] == if links[i].handle == Gone then 0 else 1
  {
    OwnedBound(Front(links));
    if i < |links| - 1 {
      OwnedOnce(Front(links), i);
    } else {
      assert i !in Owned(Front(links));
    }
  }

  lemma SlotCounts(s: State, i: nat)
    requires SlotsOnce(s) && i < s.n
    ensures multiset(s.freeLinks)[i] + multiset(s.stranded)[i] + (if s.links[i].handle == Gone then 0 else 1) == 1
  {
    AllCounts(s.n);
    OwnedOnce(s.links, i);
    CountSum(multiset(s.freeLinks), multiset(s.stranded), Owned(s.links), multiset{}, i);
    assert (multiset(s.freeLinks) + multiset(s.stranded) + Owned(s.links))[i] == 1;
  }

  /** No push on a bounded queue or pool ever fails: the branches that log a stranded object are dead,
      and the pool pushes whose result the code ignores lose no buffer. */
  lemma PushesNeverFail(n: nat, steps: seq<Step>, s: State)
    requires Reached(n, steps, s)
    ensures s.io.Opening? || s.io.Receiving? || s.io.ClosingWith? ==> |s.evReady| < 4 * n
    ensures s.io.ClosingWith? ==> |s.freeLinks| < n
    ensures s.io.Handling? ==> |s.cmdFree| < 4 * n
    ensures s.cmdHand.Some? ==> |s.cmdReady| < 4 * n
    ensures s.writes != [] ==> |s.sendReqs| < 4 * n
    ensures s.evRel < |s.updates| ==> |s.evFree| < 4 * n
    ensures (exists i :: 0 <= i < |s.links| && s.links[i].buffer.Some?) ==> |s.poolRead| < 4 * n
    ensures s.bufRel < |s.updates| && s.updates[s.bufRel] < |s.events| && s.events[s.updates[s.bufRel]].ReadEvent?
            ==> |s.poolRead| < 4 * n
  {
    hide Inv, EventsOnce, SlotsOnce, CommandsOnce, RequestsOnce, LinksOk, BuffersOnce, TracesOk, LogOk;
    ReachedInv(n, steps, s);
    SameN(Init(n), steps, s);
    InvParts(s);
    QueuesHaveRoom(s);
    PoolTakesBack(s);
  }

  lemma QueuesHaveRoom(s: State)
    requires EventsOnce(s) && SlotsOnce(s) && CommandsOnce(s) && RequestsOnce(s) && LinksOk(s)
    ensures s.io.Opening? || s.io.Receiving? || s.io.ClosingWith? ==> |s.evReady| < Cap(s)
    ensures s.io.ClosingWith? ==> |s.freeLinks| < s.n
    ensures s.io.Handling? ==> |s.cmdFree| < Cap(s)
    ensures s.cmdHand.Some? ==> |s.cmdReady| < Cap(s)
    ensures s.writes != [] ==> |s.sendReqs| < Cap(s)
    ensures s.evRel < |s.updates| ==> |s.evFree| < Cap(s)
  {
    hide EventsOnce, SlotsOnce, CommandsOnce, RequestsOnce, LinksOk;
    AtPoint(s);
    CommandsExist(s);
    if HandEvent(s.io) != multiset{} {
      ReadyHasRoom(s);
    }
    if s.io.ClosingWith? {
      OwnedSlot(s, s.io.slot);
    }
    if s.writes != [] {
      RequestReturned(s, 0, true);
    }
    if s.evRel < |s.updates| {
      FreeHasRoom(s);
    }
  }

  lemma PoolTakesBack(s: State)
    requires BuffersOnce(s)
    ensures (exists i :: 0 <= i < |s.links| && s.links[i].buffer.Some?) ==> |s.poolRead| < Cap(s)
    ensures s.bufRel < |s.updates| && s.updates[s.bufRel] < |s.events| && s.events[s.updates[s.bufRel]].ReadEvent?
            ==> |s.poolRead| < Cap(s)
  {
    if i :| 0 <= i < |s.links| && s.links[i].buffer.Some? {
      LinkBufsMember(s.links, i);
      PoolHasRoom(s);
    }
    if s.bufRel < |s.updates| && s.updates[s.bufRel] < |s.events| && s.events[s.updates[s.bufRel]].ReadEvent? {
      EventBufsMember(s.events, s.updates[s.bufRel..], 0);
      PoolHasRoom(s);
    }
  }

  /** No read buffer ever holds more than its 65535 bytes, however long events stay unavailable, and
      whatever a read callback brings within the length last offered still fits when it comes: the
      guard of `tn_buffer_add_length` never fails, so no byte that arrived is left uncounted. */
  lemma ArrivalsFit(n: nat, steps: seq<Step>, s: State, i: nat, bytes: seq<Byte>)
    requires Reached(n, steps, s) && Enabled(s, Receive(i, bytes))
    ensures forall b :: 0 <= b < |s.data| ==> |s.data[b]| <= MAX_RECV
    ensures InBounds(s, Receive(i, bytes)) && |s.data[s.links[i].buffer.value]| + |bytes| <= MAX_RECV
    ensures var b := s.links[i].buffer.value;
            ReceiveNext(s, i, bytes).data == s.data[b := s.data[b] + bytes]
  {
    hide Inv, Reached, EventsOnce, BuffersOnce, SlotsOnce, CommandsOnce, RequestsOnce;
    hide LinksOk, WritesOk, LogOk, PipelineOk, TracesOk, OpenIsReading;
    ReachedInv(n, steps, s);
    InvParts(s);
    OfferHolds(s, i, bytes);
  }

  // ---- what the main thread reads -------------------------------------------------------------

  /** Nothing but the main thread's own acquire and release changes what its batch says: no link
      ever writes into a buffer an acquired event refers to. */
  lemma BatchIsStable(s: State, step: Step, t: State)
    requires Enabled(s, step) && InBounds(s, step) && t == Next(s, step)
    requires step != Acquire && step != ReleaseBuffer
    requires Inv(s)
    ensures s.bufRel <= |s.updates| && t.updates == s.updates && t.bufRel == s.bufRel
    ensures Notes(t.events, t.data, s.updates[s.bufRel..]) == Notes(s.events, s.data, s.updates[s.bufRel..])
  {
    hide Inv, Next, Enabled, InBounds, Notes;
    StepKeeps(s, step, t);
    BatchMoves(s, step, t);
    InvParts(s);
    InvParts(t);
    LogsAgree(s, t);
  }

  lemma BatchBoundsOf(s: State)
    requires Inv(s)
    ensures s.bufRel <= |s.updates|
  {
    InvParts(s);
  }

  lemma LogsAgree(s: State, t: State)
    requires LogOk(s) && LogOk(t) && t.updates == s.updates && t.bufRel == s.bufRel && t.seen == s.seen
    ensures Notes(t.events, t.data, s.updates[s.bufRel..]) == Notes(s.events, s.data, s.updates[s.bufRel..])
  {
  }

  predicate KeepsBatch(steps: seq<Step>) {
    forall k :: 0 <= k < |steps| ==> steps[k] != Acquire && steps[k] != ReleaseBuffer
  }

  /** The same over any stretch of a run in which the main thread neither acquires nor releases. */
  lemma {:induction false} BatchIsStableOverRuns(s: State, steps: seq<Step>, t: State)
    requires Reaches(s, steps, t) && KeepsBatch(steps)
    requires Inv(s)
    ensures s.bufRel <= |s.updates| && t.updates == s.updates && t.bufRel == s.bufRel
    ensures Notes(t.events, t.data, s.updates[s.bufRel..]) == Notes(s.events, s.data, s.updates[s.bufRel..])
    decreases |steps|
  {
    hide Inv, Next, Enabled, InBounds, Notes;
    if steps == [] {
      BatchBoundsOf(s);
    } else {
      var m := Next(s, steps[0]);
      BatchIsStable(s, steps[0], m);
      StepKeeps(s, steps[0], m);
      BatchIsStableOverRuns(m, steps[1..], t);
    }
  }

  /** The main thread acquires exactly what was queued, in order, none twice. */
  lemma SeenIsPrefixOfLog(n: nat, steps: seq<Step>, s: State)
    requires Reached(n, steps, s)
    ensures s.seen <= s.log
    ensures s.log == s.seen + Notes(s.events, s.data, s.evReady)
  {
    ReachedInv(n, steps, s);
  }

  // ---- traces ---------------------------------------------------------------------------------

  /** The events queued under one client id always read (open, reads, close | close) repeated, up
      to a prefix; so do the events the main thread has acquired. */
  lemma EventsAreWellFormed(n: nat, steps: seq<Step>, s: State, i: nat)
    requires Reached(n, steps, s) && i < n
    ensures Tracked(s.log, i).ok && Tracked(s.seen, i).ok
  {
    ReachedInv(n, steps, s);
    SameN(Init(n), steps, s);
    assert SlotTrace(s, i);
    assert s.seen == s.log[..|s.seen|];
    OkPrefix(s.log, |s.seen|, i);
  }

  lemma {:induction false} OkPrefix(log: seq<Note>, k: nat, i: nat)
    requires k <= |log| && Tracked(log, i).ok
    ensures Tracked(log[..k], i).ok
  {
    if k == |log| {
      assert log[..k] == log;
    } else {
      assert Front(log)[..k] == log[..k];
      OkPrefix(Front(log), k, i);
    }
  }

  /** What `ok` means for one log: an open session's notes since its open are all reads. */
  lemma {:induction false} UpSince(log: seq<Note>, i: nat) returns (j: nat)
    requires Tracked(log, i).ok && Tracked(log, i).up
    ensures j < |log| && log[j].Opened? && log[j].client == i
    ensures forall m :: j < m < |log| && log[m].client == i ==> log[m].Bytes?
  {
    if Last(log).client == i && Last(log).Opened? {
      j := |log| - 1;
    } else {
      j := UpSince(Front(log), i);
      assert Front(log)[j] == log[j];
    }
  }

  /** Every read event lies in a session: after an open of its client with only reads of that
      client in between. */
  lemma ReadsFollowAnOpen(log: seq<Note>, i: nat, k: nat)
    requires Tracked(log, i).ok && k < |log| && log[k].Bytes? && log[k].client == i
    ensures exists j :: 0 <= j < k && log[j].Opened? && log[j].client == i
              && forall m :: j < m < k && log[m].client == i ==> log[m].Bytes?
  {
    OkPrefix(log, k + 1, i);
    assert Front(log[..k + 1]) == log[..k];
    var j := UpSince(log[..k], i);
    assert log[j] == log[..k][j];
    forall m | j < m < k && log[m].client == i ensures log[m].Bytes? {
      assert log[..k][m] == log[m];
    }
  }

  /** Between two opens of one client there is a close: reuse of an id never mixes connections. */
  lemma {:induction false} OpensAreSeparated(log: seq<Note>, i: nat, j: nat, k: nat)
    requires Tracked(log, i).ok && j < k < |log|
    requires log[j].Opened? && log[j].client == i && log[k].Opened? && log[k].client == i
    ensures exists m :: j < m < k && log[m].Ended? && log[m].client == i
  {
    OkPrefix(log, k + 1, i);
    assert Front(log[..k + 1]) == log[..k];
    OkPrefix(log[..k + 1], k, i);
    assert log[..k + 1][..k] == log[..k];
    var m := DownSince(log[..k], i, j);
    assert log[m] == log[..k][m];
  }

  lemma {:induction false} DownSince(log: seq<Note>, i: nat, j: nat) returns (m: nat)
    requires Tracked(log, i).ok && !Tracked(log, i).up && j < |log| && log[j].Opened? && log[j].client == i
    ensures j < m < |log| && log[m].Ended? && log[m].client == i
  {
    if Last(log).client == i && Last(log).Ended? {
      m := |log| - 1;
    } else {
      m := DownSince(Front(log), i, j);
      assert Front(log)[m] == log[m];
    }
  }

  /** Byte-stream fidelity. For every use of every slot, the bytes reported so far are a prefix of
      the bytes that arrived; for a link being read, and for one being closed until its close
      callback, they are all of them but those waiting in its read buffer. The open event of an
      outbound connection names the command that asked for it (for an inbound one the code leaves
      that field alone). The close event carries the cause the history recorded independently of the
      link, and `uv_close` ran at most once. */
  lemma BytesAreFaithful(n: nat, steps: seq<Step>, s: State, i: nat)
    requires Reached(n, steps, s) && i < n
    ensures |s.links| == n
    ensures var t, u := Tracked(s.log, i), Uses(s.wire, i);
            && |t.reports| <= |u|
            && (forall k :: 0 <= k < |t.reports| ==>
                  && t.reports[k].bytes <= u[k].arrived
                  && (t.reports[k].announced && u[k].cmd.Some? ==> t.reports[k].cmd == u[k].cmd)
                  && (t.reports[k].ended.Some? ==> t.reports[k].ended == u[k].cause))
            && (forall k :: 0 <= k < |u| ==> u[k].closes <= 1)
            && (s.links[i].handle == Reading || s.links[i].state == Closing ==>
                  && u != [] && (s.links[i].handle == Reading ==> t.up)
                  && (if t.up then |t.reports| == |u| && Last(t.reports).bytes + Tail(s, i) == Last(u).arrived
                      else Last(u).arrived == []))
  {
    hide Inv, Reached, EventsOnce, BuffersOnce, SlotsOnce, CommandsOnce, RequestsOnce;
    hide RoomOk, WritesOk, LogOk, PipelineOk, OpenIsReading, Tracked, Uses;
    ReachedInv(n, steps, s);
    SizeOf(n, steps, s);
    InvParts(s);
    assert SlotTrace(s, i);
    var t, u := Tracked(s.log, i), Uses(s.wire, i);
    forall k | 0 <= k < |t.reports|
      ensures t.reports[k].bytes <= u[k].arrived
              && (t.reports[k].announced && u[k].cmd.Some? ==> t.reports[k].cmd == u[k].cmd)
              && (t.reports[k].ended.Some? ==> t.reports[k].ended == u[k].cause)
    {
      assert Matches(t.reports[k], u[k]);
    }
  }

  /** A slot is reused only after its last close was queued: an idle slot has every use reported
      to the end. */
  lemma ReuseOnlyAfterClose(n: nat, steps: seq<Step>, s: State, i: nat)
    requires Reached(n, steps, s) && i in s.freeLinks
    ensures |Tracked(s.log, i).reports| == |Uses(s.wire, i)|
    ensures forall r :: r in Tracked(s.log, i).reports ==> r.ended.Some?
  {
    ReachedInv(n, steps, s);
    FreeSlot(s, i);
    assert SlotTrace(s, i);
    EndedUnlessUp(s.log, i);
  }

  /** Every report but that of a session still open has its close. */
  lemma {:induction false} EndedUnlessUp(log: seq<Note>, i: nat)
    requires Tracked(log, i).ok
    ensures Tracked(log, i).up ==> Tracked(log, i).reports != []
    ensures var t := Tracked(log, i);
            forall r :: r in (if t.up then Front(t.reports) else t.reports) ==> r.ended.Some?
  {
    if log != [] {
      EndedUnlessUp(Front(log), i);
      var before, t := Tracked(Front(log), i), Tracked(log, i);
      if Last(log).client == i && Last(log).Opened? {
        assert Front(t.reports) == before.reports;
      }
      if Last(log).client == i && !Last(log).Opened? && before.up {
        assert Front(t.reports) == Front(before.reports);
      }
    }
  }

  // ---- commands -------------------------------------------------------------------------------

  /** What is queued and not handled is in the ready queue, in order. */
  lemma NextCommand(s: State)
    requires s.io == Idle && PipelineOk(s) && CommandsOnce(s)
    ensures |s.queued| == |s.handled| + |s.cmdReady|
    ensures s.cmdReady != [] ==> s.cmdReady[0] < |s.cmds| && s.queued[|s.handled|] == s.cmds[s.cmdReady[0]]
  {
    CommandsExist(s);
    hide CommandsOnce;
    var ready := CommandsAt(s.cmds, s.cmdReady);
    assert s.queued == s.handled + ready;
    if s.cmdReady != [] {
      assert s.cmdReady[0] in s.cmdReady;
      assert s.queued[|s.handled|] == ready[0];
    }
  }

  /** Handled commands are a prefix of queued ones. */
  lemma CommandsInOrder(n: nat, steps: seq<Step>, s: State)
    requires Reached(n, steps, s)
    ensures s.handled <= s.queued
    ensures s.io == Idle && s.cmdReady == [] ==> s.handled == s.queued
  {
    ReachedInv(n, steps, s);
  }

  /** Each of the 4N write requests is listed once or attached to one pending write. */
  lemma RequestHasOneOwner(n: nat, steps: seq<Step>, s: State, r: nat)
    requires Reached(n, steps, s) && r < 4 * n
    ensures multiset(s.sendReqs)[r] + Requests(s.writes)[r] == 1
  {
    hide Inv, EventsOnce, BuffersOnce, SlotsOnce, CommandsOnce, RequestsOnce;
    hide LinksOk, RoomOk, WritesOk, LogOk, PipelineOk, TracesOk, OpenIsReading;
    ReachedInv(n, steps, s);
    SameN(Init(n), steps, s);
    InvParts(s);
    RequestCount(s, r);
  }

  lemma RequestCount(s: State, r: nat)
    requires RequestsOnce(s) && r < Cap(s)
    ensures multiset(s.sendReqs)[r] + Requests(s.writes)[r] == 1
  {
    AllCounts(Cap(s));
    assert (multiset(s.sendReqs) + Requests(s.writes))[r] == multiset(s.sendReqs)[r] + Requests(s.writes)[r];
  }

  /** Each of the 4N commands is free, being filled, ready, or being handled. */
  lemma CommandHasOneOwner(n: nat, steps: seq<Step>, s: State, c: nat)
    requires Reached(n, steps, s) && c < 4 * n
    ensures multiset(s.cmdFree)[c] + multiset(s.cmdReady)[c] + Held(s.cmdHand)[c] + HandCommand(s.io)[c] == 1
  {
    hide Inv, EventsOnce, BuffersOnce, SlotsOnce, CommandsOnce, RequestsOnce;
    hide LinksOk, RoomOk, WritesOk, LogOk, PipelineOk, TracesOk, OpenIsReading;
    ReachedInv(n, steps, s);
    SameN(Init(n), steps, s);
    InvParts(s);
    CommandCount(s, c);
  }

  // ---- bounds ---------------------------------------------------------------------------------

  /** Read events queued or acquired whose buffer has not come back. */
  function ReadsOut(s: State): nat
    requires s.bufRel <= |s.updates|
  {
    |EventBufs(s.events, s.evReady)| + |EventBufs(s.events, s.updates[s.bufRel..])|
  }

  lemma PoolSize(s: State)
    requires BuffersOnce(s)
    ensures |s.poolRead| + |LinkBufs(s.links)| + ReadsOut(s) == Cap(s)
  {
    AllCounts(Cap(s));
    CountSum(multiset(s.poolRead), LinkBufs(s.links), EventBufs(s.events, s.evReady),
             EventBufs(s.events, s.updates[s.bufRel..]), 0);
  }

  /** Backpressure: with at most 3N read events out, a link without a buffer always gets one; the
      pool is empty exactly when links and read events hold all 4N buffers. */
  lemma AllocSucceeds(n: nat, steps: seq<Step>, s: State, i: nat)
    requires Reached(n, steps, s) && Enabled(s, Alloc(i)) && s.links[i].buffer == None
    ensures InBounds(s, Alloc(i)) && s.bufRel <= |s.updates|
    ensures AllocNext(s, i).links[i].buffer == None <==> |LinkBufs(s.links)| + ReadsOut(s) == 4 * n
    ensures ReadsOut(s) <= 3 * n ==> AllocNext(s, i).links[i].buffer.Some?
  {
    hide EventsOnce, BuffersOnce, SlotsOnce, CommandsOnce, RequestsOnce, Inv;
    hide RoomOk, WritesOk, LogOk, PipelineOk, TracesOk, OpenIsReading, LinkBufs, EventBufs;
    ReachedInv(n, steps, s);
    InvParts(s);
    SameN(Init(n), steps, s);
    StepInBounds(s, Alloc(i));
    BatchBounds(s);
    PoolSize(s);
    LinkBufsSize(s.links);
  }

  lemma FreeSize(s: State)
    requires EventsOnce(s)
    ensures |s.evFree| + |s.evReady| + (|s.updates| - s.evRel) + |HandEvent(s.io)| == Cap(s)
  {
    AllCounts(Cap(s));
    CountSum(multiset(s.evFree), multiset(s.evReady), multiset(s.updates[s.evRel..]), HandEvent(s.io), 0);
  }

  /** A close callback strands its slot exactly when all 4N events are queued or acquired. */
  lemma StrandsExactlyWhenEventsAreOut(n: nat, steps: seq<Step>, s: State)
    requires Reached(n, steps, s) && s.io.ClosingBare?
    ensures InBounds(s, CloseTake) && s.evRel <= |s.updates|
    ensures CloseTakeNext(s).stranded != s.stranded <==> |s.evReady| + (|s.updates| - s.evRel) == 4 * n
  {
    hide EventsOnce, BuffersOnce, SlotsOnce, CommandsOnce, RequestsOnce, Inv;
    hide LinksOk, RoomOk, WritesOk, LogOk, PipelineOk, TracesOk, OpenIsReading;
    ReachedInv(n, steps, s);
    InvParts(s);
    SameN(Init(n), steps, s);
    StepInBounds(s, CloseTake);
    BatchBounds(s);
    FreeSize(s);
  }

  lemma NothingHeld(links: seq<Link>, io: IoPoint)
    requires forall i :: 0 <= i < |links| ==> links[i].handle == Gone && LinkShape(links[i], i, io)
    ensures LinkBufs(links) == multiset{} && Owned(links) == multiset{}
  {
    InitLinks(links);
  }

  /** When `uv_run` can return, no link holds a buffer, every slot is free or stranded, and every
      write request is back; if no slot was ever stranded, all N are free again. */
  lemma QuietAtLoopExit(n: nat, steps: seq<Step>, s: State)
    requires Reached(n, steps, s) && LoopDone(s)
    ensures LinkBufs(s.links) == multiset{} && multiset(s.sendReqs) == All(4 * n)
    ensures multiset(s.freeLinks) + multiset(s.stranded) == All(n)
    ensures s.stranded == [] ==> multiset(s.freeLinks) == multiset(Init(n).freeLinks)
  {
    hide Inv, All, Upto, SlotsOnce, RequestsOnce;
    ReachedInv(n, steps, s);
    SameN(Init(n), steps, s);
    InvParts(s);
    NothingHeld(s.links, s.io);
    UptoIsAll(n);
    QuietSums(s);
    assert s.stranded == [] ==> multiset(s.freeLinks) + multiset(s.stranded) == multiset(s.freeLinks);
  }

  lemma QuietSums(s: State)
    requires SlotsOnce(s) && RequestsOnce(s) && s.writes == [] && Owned(s.links) == multiset{}
    ensures multiset(s.sendReqs) == All(Cap(s)) && multiset(s.freeLinks) + multiset(s.stranded) == All(s.n)
  {
    assert multiset(s.sendReqs) + multiset{} == multiset(s.sendReqs);
    assert multiset(s.freeLinks) + multiset(s.stranded) + multiset{} == multiset(s.freeLinks) + multiset(s.stranded);
  }
}
