/** The invariant of the step system, and the parts of a step that several callbacks share. */
module Invariant {
  import opened Basics
  import opened Pools
  import opened ServiceModel
  import opened Ownership
  import opened Conservation
  import opened Traces

  /** A slot's id is its index; its state, handle and buffer fit together; only the IO thread
      inside its close callback sees a slot CLOSED that still has a handle. */
  predicate LinkShape(l: Link, i: nat, io: IoPoint) {
    && l.id == i && (l.handle != Reading ==> l.offer == 0)
    && match l.handle
       case Gone => l.buffer == None && (l.state == New || l.state == Closed)
       case Pending => l.buffer == None && (l.state == New || l.state == Open) && l.cmdClose == None
       case Reading => l.state == Open && l.cmdClose == None
       case Ending =>
         || l.state == Closing
         || (l.state == Closed && l.buffer == None && (io == ClosingBare(i) || (io.ClosingWith? && io.slot == i)))
  }

  predicate LinksOk(s: State) {
    && |s.links| == s.n
    && (forall i :: 0 <= i < |s.links| ==> LinkShape(s.links[i], i, s.io))
    && IoFits(s.io, s.links)
  }

  /** The slot a callback is in the middle of is as that callback left it. */
  predicate IoFits(io: IoPoint, links: seq<Link>) {
    match io
    case Opening(i, _) => i < |links| && links[i].handle == Pending
    case Receiving(i, _) => i < |links| && links[i].handle == Reading && links[i].buffer.Some? && links[i].offer == 0
    case ClosingBare(i) => i < |links| && links[i].handle == Ending && links[i].state == Closed
    case ClosingWith(i, _) => i < |links| && links[i].handle == Ending && links[i].state == Closed
    case _ => true
  }

  lemma AtPoint(s: State)
    requires LinksOk(s)
    ensures |s.links| == s.n && IoFits(s.io, s.links)
  {
  }

  lemma IoMoves(s: State, t: State)
    requires LinksOk(s) && t.n == s.n && t.links == s.links && IoFits(t.io, s.links)
    requires s.io.ClosingBare? ==> t.io.ClosingWith? && t.io.slot == s.io.slot
    requires !s.io.ClosingWith?
    ensures LinksOk(t)
  {
  }

  /** No buffer holds more than its capacity, and what libuv was offered still fits behind the bytes
      of the buffer it was offered from. */
  predicate RoomOk(s: State) {
    && (forall b :: 0 <= b < |s.data| ==> |s.data[b]| <= MAX_RECV)
    && (forall i :: 0 <= i < |s.links| && s.links[i].offer > 0 ==>
          && s.links[i].buffer.Some? && s.links[i].buffer.value < |s.data|
          && |s.data[s.links[i].buffer.value]| + s.links[i].offer <= MAX_RECV)
  }

  /** A pending write belongs to a slot whose close callback has not run. */
  predicate WritesOk(s: State) {
    forall k :: 0 <= k < |s.writes| ==>
      var i := s.writes[k].slot;
      && i < |s.links|
      && (s.links[i].handle == Reading || s.links[i].handle == Ending)
      && s.links[i].state != Closed
  }

  /** The ready queue, read through its pointers now, is exactly what was queued and not yet
      acquired; so is the part of the acquired batch that has not been given back. */
  predicate LogOk(s: State) {
    && s.bufRel <= |s.updates| <= s.bufRel + |s.seen|
    && s.log == s.seen + Notes(s.events, s.data, s.evReady)
    && Notes(s.events, s.data, s.updates[s.bufRel..]) == s.seen[|s.seen| - (|s.updates| - s.bufRel)..]
  }

  function CommandsAt(cmds: seq<Command>, ids: seq<nat>): (r: seq<Command>)
    ensures |r| == |ids|
    ensures forall k :: 0 <= k < |ids| ==> r[k] == if ids[k] < |cmds| then cmds[ids[k]] else NoCommand
  {
    seq(|ids|, k requires 0 <= k < |ids| => if ids[k] < |cmds| then cmds[ids[k]] else NoCommand)
  }

  function InHand(s: State): seq<Command> {
    if s.io.Handling? then CommandsAt(s.cmds, [s.io.command]) else []
  }

  /** Commands are handled in the order they were queued, none skipped, none twice. */
  predicate PipelineOk(s: State) {
    s.queued == s.handled + InHand(s) + CommandsAt(s.cmds, s.cmdReady)
  }

  predicate TracesOk(s: State) {
    forall i :: 0 <= i < |s.links| ==> SlotTrace(s, i)
  }

  predicate Core(s: State) {
    && EventsOnce(s) && BuffersOnce(s) && SlotsOnce(s) && CommandsOnce(s) && RequestsOnce(s)
    && LinksOk(s) && RoomOk(s) && WritesOk(s) && LogOk(s) && PipelineOk(s) && TracesOk(s)
  }

  /** Outside the open callbacks a slot in state OPEN is being read from, so its handle pointer is
      valid and `uv_close` has not been called on it. */
  predicate OpenIsReading(s: State) {
    forall i :: 0 <= i < |s.links| && s.links[i].state == Open && s.links[i].handle != Reading ==>
      s.io.Opening? && s.io.slot == i
  }

  predicate Inv(s: State) {
    Core(s) && OpenIsReading(s)
  }

  // ---- shared pieces --------------------------------------------------------------------------

  /** A step that leaves a slot's link, buffer bytes and histories alone keeps its agreement. */
  lemma OtherSlots(s: State, t: State, i: nat)
    requires TracesOk(s) && |t.links| == |s.links|
    requires forall j :: 0 <= j < |s.links| && j != i ==>
               && t.links[j] == s.links[j] && Tail(t, j) == Tail(s, j)
               && IdleSlot(t, j) == IdleSlot(s, j)
               && Tracked(t.log, j) == Tracked(s.log, j) && Uses(t.wire, j) == Uses(s.wire, j)
    requires i < |s.links| ==> SlotTrace(t, i)
    ensures TracesOk(t)
  {
    hide Agree, Tracked, Uses;
    forall j | 0 <= j < |t.links| ensures SlotTrace(t, j) {
      if j != i {
        assert SlotTrace(s, j);
      }
    }
  }

  lemma WireElsewhere(wire: seq<Wire>, w: Wire)
    ensures forall j: nat :: j != w.client ==> Uses(wire + [w], j) == Uses(wire, j)
  {
    forall j: nat | j != w.client ensures Uses(wire + [w], j) == Uses(wire, j) {
      UsesPush(wire, w, j);
    }
  }

  lemma LogElsewhere(log: seq<Note>, note: Note)
    ensures forall j: nat :: j != note.client ==> Tracked(log + [note], j) == Tracked(log, j)
  {
    forall j: nat | j != note.client ensures Tracked(log + [note], j) == Tracked(log, j) {
      TrackedPush(log, note, j);
    }
  }

  lemma SameBufs(links: seq<Link>, i: nat, l: Link)
    requires i < |links| && l.buffer == links[i].buffer
    ensures LinkBufs(links[i := l]) == LinkBufs(links)
  {
    LinkBufsUpdate(links, i, l);
    CancelSum(LinkBufs(links[i := l]), LinkBufs(links), Held(l.buffer));
  }

  /** A step that touches no link, buffer, or history keeps every slot's agreement. */
  lemma SameTraces(s: State, t: State)
    requires TracesOk(s) && t.links == s.links && t.data == s.data && t.stranded == s.stranded
    requires t.log == s.log && t.wire == s.wire
    ensures TracesOk(t)
  {
    hide Agree, Tracked, Uses;
    forall j | 0 <= j < |t.links| ensures SlotTrace(t, j) {
      assert SlotTrace(s, j);
    }
  }

  lemma SameLog(s: State, t: State)
    requires LogOk(s) && t.events == s.events && t.data == s.data && t.evReady == s.evReady
    requires t.updates == s.updates && t.bufRel == s.bufRel && t.seen == s.seen && t.log == s.log
    ensures LogOk(t)
  {
  }

  lemma SamePipeline(s: State, t: State)
    requires PipelineOk(s) && t.queued == s.queued && t.handled == s.handled && t.cmds == s.cmds
    requires t.cmdReady == s.cmdReady && InHand(t) == InHand(s)
    ensures PipelineOk(t)
  {
  }

  lemma SameWrites(s: State, t: State)
    requires WritesOk(s) && t.links == s.links && t.writes == s.writes
    ensures WritesOk(t)
  {
  }

  lemma SameRoom(s: State, t: State)
    requires RoomOk(s) && t.links == s.links && t.data == s.data
    ensures RoomOk(t)
  {
  }

  /** A link that loses its offer, or has none, needs no room. */
  lemma RoomWithout(s: State, t: State, i: nat)
    requires RoomOk(s) && i < |s.links| == |t.links| && t.data == s.data
    requires t.links == s.links[i := t.links[i]] && t.links[i].offer == 0
    ensures RoomOk(t)
  {
  }

  // ---- taking a slot --------------------------------------------------------------------------

  lemma TakeSlotShape(s: State, state: LinkState, cmd: Option<CmdId>)
    requires SlotsOnce(s) && LinksOk(s) && WritesOk(s) && SlotAtHand(s) && s.freeLinks != []
    requires state == New || state == Open
    ensures LinksOk(TakeSlot(s, state, cmd)) && WritesOk(TakeSlot(s, state, cmd))
  {
    FreeSlot(s, Last(s.freeLinks));
  }

  lemma TakeSlotTraces(s: State, state: LinkState, cmd: Option<CmdId>)
    requires SlotsOnce(s) && LinksOk(s) && TracesOk(s) && SlotAtHand(s) && s.freeLinks != []
    ensures TracesOk(TakeSlot(s, state, cmd))
  {
    hide Agree, Tracked, Uses;
    var i := Last(s.freeLinks);
    FreeSlot(s, i);
    var t := TakeSlot(s, state, cmd);
    WireElsewhere(s.wire, Last(t.wire));
    UsesPush(s.wire, Last(t.wire), i);
    assert SlotTrace(s, i);
    AgreeBegin(s.links[i], Tail(s, i), Tracked(s.log, i), Uses(s.wire, i), t.links[i]);
    OtherSlots(s, t, i);
  }

  lemma TakeSlotKeeps(s: State, state: LinkState, cmd: Option<CmdId>)
    requires Core(s) && s.freeLinks != [] && (state == New || state == Open)
    ensures SlotAtHand(s) && Core(TakeSlot(s, state, cmd))
  {
    var i := Last(s.freeLinks);
    FreeSlot(s, i);
    var t := TakeSlot(s, state, cmd);
    SlotTaken(s, state, cmd);
    SameBufs(s.links, i, t.links[i]);
    TakeSlotShape(s, state, cmd);
    TakeSlotTraces(s, state, cmd);
    RoomWithout(s, t, i);
    SameEvents(s, t); SameBuffers(s, t); SameCommands(s, t); SameRequests(s, t);
    SameLog(s, t); SamePipeline(s, t);
  }

  // ---- dropping a connection ------------------------------------------------------------------

  /** `uv_close` can be called on slot `i`: its handle is live and not already closing, and no
      callback is in the middle of another slot. */
  predicate Droppable(s: State, i: nat) {
    && i < |s.links| && (s.io == Idle || s.io.Handling?)
    && (s.links[i].handle == Pending || s.links[i].handle == Reading)
  }

  lemma DropShape(s: State, i: nat, cause: Option<CmdId>)
    requires LinksOk(s) && WritesOk(s) && Droppable(s, i)
    ensures LinksOk(Drop(s, i, cause)) && WritesOk(Drop(s, i, cause))
    ensures s.links[i].cmdClose == None
  {
  }

  lemma DropTraces(s: State, i: nat, cause: Option<CmdId>)
    requires SlotsOnce(s) && LinksOk(s) && TracesOk(s) && Droppable(s, i)
    requires s.links[i].cmdClose == None
    ensures TracesOk(Drop(s, i, cause))
  {
    hide Agree, Tracked, Uses;
    var t := Drop(s, i, cause);
    OwnedSlot(s, i);
    assert SlotTrace(s, i);
    AgreeDrop(s.links[i], Tail(s, i), Tracked(s.log, i), Uses(s.wire, i), cause);
    WireElsewhere(s.wire, Last(t.wire));
    UsesPush(s.wire, Last(t.wire), i);
    OtherSlots(s, t, i);
  }

  lemma DropKeeps(s: State, i: nat, cause: Option<CmdId>)
    requires Core(s) && Droppable(s, i)
    ensures Core(Drop(s, i, cause))
  {
    var t := Drop(s, i, cause);
    SlotStays(s, i, t.links[i]);
    SameBufs(s.links, i, t.links[i]);
    DropShape(s, i, cause);
    DropTraces(s, i, cause);
    RoomWithout(s, t, i);
    SameEvents(s, t); SameBuffers(s, t); SameCommands(s, t); SameRequests(s, t);
    SameLog(s, t); SamePipeline(s, t);
  }

  lemma TakeOpenEventKeeps(s: State, i: nat)
    requires Core(s) && s.io == Idle && Droppable(s, i) && s.links[i].handle == Pending
    ensures Core(TakeOpenEvent(s, i))
  {
    if s.evFree == [] {
      DropKeeps(s, i, None);
    } else {
      var t := TakeOpenEvent(s, i);
      EventTaken(s, t);
      IoMoves(s, t);
      SameBuffers(s, t); SameSlots(s, t); SameCommands(s, t); SameRequests(s, t);
      SameRoom(s, t); SameWrites(s, t); SameLog(s, t); SamePipeline(s, t); SameTraces(s, t);
    }
  }

  // ---- what outstanding events say ------------------------------------------------------------

  /** Rewriting an event object none of the listed ones is. */
  lemma NotesKeepEvent(events: seq<Event>, data: seq<seq<Byte>>, ids: seq<nat>, e: nat, x: Event)
    requires e < |events| && e !in ids
    ensures Notes(events[e := x], data, ids) == Notes(events, data, ids)
  {
  }

  /** Writing into a buffer none of the listed events refers to. */
  lemma NotesKeepData(events: seq<Event>, data: seq<seq<Byte>>, ids: seq<nat>, b: nat, bytes: seq<Byte>)
    requires b < |data| && b !in EventBufs(events, ids)
    ensures Notes(events, data[b := bytes], ids) == Notes(events, data, ids)
  {
    forall k | 0 <= k < |ids|
      ensures NoteOf(events, data[b := bytes], ids[k]) == NoteOf(events, data, ids[k])
    {
      if ids[k] < |events| && events[ids[k]].ReadEvent? {
        EventBufsMember(events, ids, k);
      }
    }
  }

  lemma LogPublished(s: State, t: State, e: nat, x: Event)
    requires LogOk(s) && EventsOnce(s) && HandEvent(s.io) == multiset{e} && e < |s.events|
    requires t.events == s.events[e := x] && t.data == s.data && t.evReady == s.evReady + [e]
    requires t.updates == s.updates && t.bufRel == s.bufRel && t.seen == s.seen
    requires t.log == s.log + [NoteOf(t.events, t.data, e)]
    ensures LogOk(t)
  {
    EventInHand(s, e);
    NotesKeepEvent(s.events, s.data, s.evReady, e, x);
    NotesKeepEvent(s.events, s.data, s.updates[s.bufRel..], e, x);
    assert Notes(t.events, t.data, t.evReady)
        == Notes(t.events, t.data, s.evReady) + [NoteOf(t.events, t.data, e)];
  }

  lemma LogKeepsData(s: State, t: State, b: nat)
    requires LogOk(s) && b < |s.data| == |t.data| && t.data == s.data[b := t.data[b]]
    requires b !in EventBufs(s.events, s.evReady) && b !in EventBufs(s.events, s.updates[s.bufRel..])
    requires t.events == s.events && t.evReady == s.evReady && t.updates == s.updates
    requires t.bufRel == s.bufRel && t.seen == s.seen && t.log == s.log
    ensures LogOk(t)
  {
    NotesKeepData(s.events, s.data, s.evReady, b, t.data[b]);
    NotesKeepData(s.events, s.data, s.updates[s.bufRel..], b, t.data[b]);
  }
}
