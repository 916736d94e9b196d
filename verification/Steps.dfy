/** Every step keeps the invariant, whichever thread takes it. */
module Steps {
  import opened Basics
  import opened Pools
  import opened ServiceModel
  import opened Ownership
  import opened Conservation
  import opened Traces
  import opened Invariant

  // ---- opening --------------------------------------------------------------------------------

  lemma AcceptKeeps(s: State, fault: bool, t: State)
    requires Enabled(s, Accept(fault)) && InBounds(s, Accept(fault)) && t == AcceptNext(s, fault)
    requires Inv(s)
    ensures Inv(t)
  {
    hide EventsOnce, BuffersOnce, SlotsOnce, CommandsOnce, RequestsOnce;
    hide LinksOk, RoomOk, WritesOk, LogOk, PipelineOk, TracesOk, LinkBufs, EventBufs, Owned, Notes;
    AtPoint(s);
    if s.freeLinks != [] {
      var i := Last(s.freeLinks);
      FreeSlot(s, i);
      TakeSlotKeeps(s, Open, None);
      var u := TakeSlot(s, Open, None);
      if fault {
        DropKeeps(u, i, None);
      } else {
        TakeOpenEventKeeps(u, i);
      }
    }
  }

  lemma ConnectKeeps(s: State, i: nat, fault: bool, t: State)
    requires Enabled(s, Connect(i, fault)) && InBounds(s, Connect(i, fault)) && t == ConnectNext(s, i, fault)
    requires Inv(s)
    ensures Inv(t)
  {
    hide EventsOnce, BuffersOnce, SlotsOnce, CommandsOnce, RequestsOnce;
    hide LinksOk, RoomOk, WritesOk, LogOk, PipelineOk, TracesOk, LinkBufs, EventBufs, Owned, Notes;
    AtPoint(s);
    if fault {
      DropKeeps(s, i, None);
    } else {
      TakeOpenEventKeeps(s, i);
    }
  }

  lemma OpenShape(s: State)
    requires LinksOk(s) && WritesOk(s) && InBounds(s, PublishOpen(false)) && |s.evReady| < Cap(s)
    ensures LinksOk(PublishOpenNext(s, false)) && WritesOk(PublishOpenNext(s, false))
  {
  }

  lemma OpenTraces(s: State)
    requires LinksOk(s) && SlotsOnce(s) && TracesOk(s) && InBounds(s, PublishOpen(false)) && |s.evReady| < Cap(s)
    ensures TracesOk(PublishOpenNext(s, false))
  {
    hide Agree, Tracked, Uses;
    var t := PublishOpenNext(s, false);
    var i := s.io.slot;
    OwnedSlot(s, i);
    LogElsewhere(s.log, Last(t.log));
    TrackedPush(s.log, Last(t.log), i);
    assert SlotTrace(s, i);
    AgreeOpen(s.links[i], Tracked(s.log, i), Uses(s.wire, i), i);
    OtherSlots(s, t, i);
  }

  lemma PublishOpenCore(s: State)
    requires Core(s) && s.io.Opening?
    ensures InBounds(s, PublishOpen(false)) && |s.evReady| < Cap(s) && Core(PublishOpenNext(s, false))
  {
    hide EventsOnce, BuffersOnce, SlotsOnce, CommandsOnce, RequestsOnce;
    hide LinksOk, RoomOk, WritesOk, LogOk, PipelineOk, TracesOk, LinkBufs, EventBufs, Owned, Notes;
    AtPoint(s);
    var i, e := s.io.slot, s.io.event;
    EventInHand(s, e);
    ReadyHasRoom(s);
    var t := PublishOpenNext(s, false);
    EventPublished(s, t, e);
    SameBufs(s.links, i, t.links[i]);
    BuffersPublished(s, t, e, t.events[e]);
    SlotStays(s, i, t.links[i]);
    OpenShape(s);
    OpenTraces(s);
    LogPublished(s, t, e, t.events[e]);
    OfferAt(s, i);
    RoomWithout(s, t, i);
    SameSlots(SetLink(s, i, t.links[i]), t);
    SameCommands(s, t); SameRequests(s, t); SamePipeline(s, t);
  }

  /** Only a link being read has anything on offer, and not while a read event is filled for it. */
  lemma OfferAt(s: State, i: nat)
    requires LinksOk(s) && i < |s.links|
    requires s.links[i].handle != Reading || (s.io.Receiving? && s.io.slot == i)
    ensures s.links[i].offer == 0
  {
  }

  lemma PublishOpenKeeps(s: State, readFails: bool, t: State)
    requires Enabled(s, PublishOpen(readFails)) && InBounds(s, PublishOpen(readFails))
    requires t == PublishOpenNext(s, readFails)
    requires Inv(s)
    ensures Inv(t)
  {
    hide EventsOnce, BuffersOnce, SlotsOnce, CommandsOnce, RequestsOnce;
    hide LinksOk, RoomOk, WritesOk, LogOk, PipelineOk, TracesOk, LinkBufs, EventBufs, Owned, Notes;
    AtPoint(s);
    PublishOpenCore(s);
    if readFails {
      var u := PublishOpenNext(s, false);
      DropKeeps(u, s.io.slot, None);
    }
  }

  // ---- receiving ------------------------------------------------------------------------------

  lemma AllocTraces(s: State, i: nat)
    requires LinksOk(s) && TracesOk(s) && InBounds(s, Alloc(i))
    requires s.poolRead != [] ==>
               forall j :: 0 <= j < |s.links| ==> s.links[j].buffer != Some(Last(s.poolRead))
    ensures TracesOk(AllocNext(s, i))
  {
    hide Agree, Tracked, Uses;
    var t := AllocNext(s, i);
    assert SlotTrace(s, i);
    AgreeBuffer(s.links[i], t.links[i].buffer, t.links[i].offer, Tail(s, i), IdleSlot(s, i),
                Tracked(s.log, i), Uses(s.wire, i));
    OtherSlots(s, t, i);
  }

  lemma NoLinkHasPoolBuffer(s: State)
    requires BuffersOnce(s) && s.poolRead != []
    ensures forall j :: 0 <= j < |s.links| ==> s.links[j].buffer != Some(Last(s.poolRead))
  {
    PoolBufferLoose(s);
    forall j | 0 <= j < |s.links| ensures s.links[j].buffer != Some(Last(s.poolRead)) {
      if s.links[j].buffer.Some? {
        LinkBufsMember(s.links, j);
      }
    }
  }

  lemma AllocShape(s: State, i: nat)
    requires LinksOk(s) && WritesOk(s) && Enabled(s, Alloc(i)) && InBounds(s, Alloc(i))
    ensures LinksOk(AllocNext(s, i)) && WritesOk(AllocNext(s, i))
  {
  }

  /** What is offered fits, and emptying a buffer from the pool takes no room from another offer. */
  lemma AllocRoom(s: State, i: nat)
    requires RoomOk(s) && InBounds(s, Alloc(i))
    requires s.poolRead != [] ==>
               forall j :: 0 <= j < |s.links| ==> s.links[j].buffer != Some(Last(s.poolRead))
    ensures RoomOk(AllocNext(s, i))
  {
  }

  lemma AllocLog(s: State, i: nat)
    requires LogOk(s) && BuffersOnce(s) && InBounds(s, Alloc(i))
    ensures LogOk(AllocNext(s, i))
  {
    var t := AllocNext(s, i);
    if t.data == s.data {
      SameLog(s, t);
    } else {
      PoolBufferLoose(s);
      LogKeepsData(s, t, Last(s.poolRead));
    }
  }

  lemma AllocKeeps(s: State, i: nat, t: State)
    requires Enabled(s, Alloc(i)) && InBounds(s, Alloc(i)) && t == AllocNext(s, i)
    requires Inv(s)
    ensures Inv(t)
  {
    hide EventsOnce, BuffersOnce, SlotsOnce, CommandsOnce, RequestsOnce;
    hide LinksOk, RoomOk, WritesOk, LogOk, PipelineOk, TracesOk, LinkBufs, EventBufs, Owned, Notes;
    AtPoint(s);
    if s.poolRead != [] {
      NoLinkHasPoolBuffer(s);
    }
    BufferTaken(s, i);
    SlotStays(s, i, t.links[i]);
    SameSlots(SetLink(s, i, t.links[i]), t);
    AllocTraces(s, i);
    AllocRoom(s, i);
    AllocLog(s, i);
    SameEvents(s, t); SameCommands(s, t); SameRequests(s, t); SamePipeline(s, t);
    AllocShape(s, i);
  }

  /** The bytes of an accepted offer always fit: the buffer it was made from is still the link's,
      and nobody has written to it since. */
  lemma OfferHolds(s: State, i: nat, bytes: seq<Byte>)
    requires RoomOk(s) && CanReceive(s, i, bytes)
    ensures InBounds(s, Receive(i, bytes)) && |bytes| <= Room(s.data[s.links[i].buffer.value])
  {
  }

  /** Only the receiving link's bytes change. */
  lemma ReceiveTraces(s: State, i: nat, bytes: seq<Byte>)
    requires LinksOk(s) && TracesOk(s) && CanReceive(s, i, bytes) && InBounds(s, Receive(i, bytes))
    requires |bytes| <= Room(s.data[s.links[i].buffer.value])
    requires forall j :: 0 <= j < |s.links| && j != i ==> s.links[j].buffer != s.links[i].buffer
    ensures TracesOk(ReceiveNext(s, i, bytes))
  {
    hide Agree, Tracked, Uses;
    var t := ReceiveNext(s, i, bytes);
    assert SlotTrace(s, i);
    AgreeArrive(s.links[i], Tail(s, i), Tracked(s.log, i), Uses(s.wire, i), bytes);
    WireElsewhere(s.wire, Last(t.wire));
    UsesPush(s.wire, Last(t.wire), i);
    OtherSlots(s, t, i);
  }

  lemma ReceiveShape(s: State, i: nat, bytes: seq<Byte>)
    requires LinksOk(s) && WritesOk(s) && Enabled(s, Receive(i, bytes)) && InBounds(s, Receive(i, bytes))
    ensures LinksOk(ReceiveNext(s, i, bytes)) && WritesOk(ReceiveNext(s, i, bytes))
  {
  }

  /** Received bytes take room from no other link's offer. */
  lemma ReceiveRoom(s: State, i: nat, bytes: seq<Byte>)
    requires RoomOk(s) && InBounds(s, Receive(i, bytes))
    requires forall j :: 0 <= j < |s.links| && j != i ==> s.links[j].buffer != s.links[i].buffer
    ensures RoomOk(ReceiveNext(s, i, bytes))
  {
  }

  lemma ReceiveKeeps(s: State, i: nat, bytes: seq<Byte>, t: State)
    requires Enabled(s, Receive(i, bytes)) && InBounds(s, Receive(i, bytes)) && t == ReceiveNext(s, i, bytes)
    requires Inv(s)
    ensures Inv(t)
  {
    hide EventsOnce, BuffersOnce, SlotsOnce, CommandsOnce, RequestsOnce;
    hide LinksOk, RoomOk, WritesOk, LogOk, PipelineOk, TracesOk, LinkBufs, EventBufs, Owned, Notes;
    AtPoint(s);
    BufferExclusive(s, i);
    OfferHolds(s, i, bytes);
    if s.evFree == [] {
      SameEvents(s, t);
    } else {
      EventTaken(s, t);
    }
    ReceiveShape(s, i, bytes);
    ReceiveTraces(s, i, bytes);
    ReceiveRoom(s, i, bytes);
    LogKeepsData(s, t, s.links[i].buffer.value);
    SlotStays(s, i, t.links[i]);
    SameSlots(SetLink(s, i, t.links[i]), t);
    SameBufs(s.links, i, t.links[i]);
    SameBuffers(s, t); SameCommands(s, t); SameRequests(s, t); SamePipeline(s, t);
  }

  lemma ReadShape(s: State)
    requires LinksOk(s) && WritesOk(s) && InBounds(s, PublishRead)
    ensures LinksOk(PublishReadNext(s)) && WritesOk(PublishReadNext(s))
  {
  }

  lemma ReadTraces(s: State)
    requires LinksOk(s) && TracesOk(s) && InBounds(s, PublishRead) && |s.evReady| < Cap(s)
    ensures TracesOk(PublishReadNext(s))
  {
    hide Agree, Tracked, Uses;
    var t := PublishReadNext(s);
    var i := s.io.slot;
    LogElsewhere(s.log, Last(t.log));
    TrackedPush(s.log, Last(t.log), i);
    assert SlotTrace(s, i);
    AgreeRead(s.links[i], Tail(s, i), Tracked(s.log, i), Uses(s.wire, i), i);
    OtherSlots(s, t, i);
  }

  lemma PublishReadKeeps(s: State, t: State)
    requires Enabled(s, PublishRead) && InBounds(s, PublishRead) && t == PublishReadNext(s)
    requires Inv(s)
    ensures Inv(t)
  {
    hide EventsOnce, BuffersOnce, SlotsOnce, CommandsOnce, RequestsOnce;
    hide LinksOk, RoomOk, WritesOk, LogOk, PipelineOk, TracesOk, LinkBufs, EventBufs, Owned, Notes;
    AtPoint(s);
    var i, e := s.io.slot, s.io.event;
    EventInHand(s, e);
    BufferExclusive(s, i);
    ReadyHasRoom(s);
    EventPublished(s, t, e);
    ReadPublished(s);
    SlotStays(s, i, t.links[i]);
    ReadShape(s);
    ReadTraces(s);
    assert NoteOf(t.events, t.data, e) == Last(t.log);
    LogPublished(s, t, e, t.events[e]);
    OfferAt(s, i);
    RoomWithout(s, t, i);
    SameSlots(SetLink(s, i, t.links[i]), t);
    SameCommands(s, t); SameRequests(s, t); SamePipeline(s, t);
  }

  lemma HangupKeeps(s: State, i: nat, t: State)
    requires Enabled(s, Hangup(i)) && InBounds(s, Hangup(i)) && t == Drop(s, i, None)
    requires Inv(s)
    ensures Inv(t)
  {
    hide EventsOnce, BuffersOnce, SlotsOnce, CommandsOnce, RequestsOnce;
    hide LinksOk, RoomOk, WritesOk, LogOk, PipelineOk, TracesOk, LinkBufs, EventBufs, Owned, Notes;
    AtPoint(s);
    DropKeeps(s, i, None);
  }

  // ---- closing --------------------------------------------------------------------------------

  lemma CloseBeginShape(s: State, i: nat)
    requires LinksOk(s) && WritesOk(s) && Enabled(s, CloseBegin(i))
    ensures LinksOk(CloseBeginNext(s, i)) && WritesOk(CloseBeginNext(s, i))
  {
  }

  lemma CloseBeginTraces(s: State, i: nat)
    requires LinksOk(s) && TracesOk(s) && Enabled(s, CloseBegin(i))
    ensures TracesOk(CloseBeginNext(s, i))
  {
    hide Agree, Tracked, Uses;
    assert SlotTrace(s, i);
    AgreeClosed(s.links[i], Tail(s, i), Tracked(s.log, i), Uses(s.wire, i));
    OtherSlots(s, CloseBeginNext(s, i), i);
  }

  lemma CloseBeginKeeps(s: State, i: nat, t: State)
    requires Enabled(s, CloseBegin(i)) && InBounds(s, CloseBegin(i)) && t == CloseBeginNext(s, i)
    requires Inv(s)
    ensures Inv(t)
  {
    hide EventsOnce, BuffersOnce, SlotsOnce, CommandsOnce, RequestsOnce;
    hide LinksOk, RoomOk, WritesOk, LogOk, PipelineOk, TracesOk, LinkBufs, EventBufs, Owned, Notes;
    AtPoint(s);
    BufferReturned(s, i);
    SlotStays(s, i, t.links[i]);
    SameSlots(SetLink(s, i, t.links[i]), t);
    CloseBeginShape(s, i);
    CloseBeginTraces(s, i);
    OfferAt(s, i);
    RoomWithout(s, t, i);
    SameEvents(s, t); SameCommands(s, t); SameRequests(s, t); SameLog(s, t); SamePipeline(s, t);
  }

  /** No free event: the slot is given to nobody. */
  lemma StrandShape(s: State)
    requires LinksOk(s) && WritesOk(s) && InBounds(s, CloseTake) && s.evFree == []
    ensures LinksOk(CloseTakeNext(s)) && WritesOk(CloseTakeNext(s))
  {
  }

  lemma StrandTraces(s: State)
    requires LinksOk(s) && TracesOk(s) && InBounds(s, CloseTake) && s.evFree == []
    ensures TracesOk(CloseTakeNext(s))
  {
    hide Agree, Tracked, Uses;
    var t := CloseTakeNext(s);
    var i := s.io.slot;
    assert SlotTrace(s, i);
    AgreeStranded(s.links[i], Tail(s, i), Tracked(s.log, i), Uses(s.wire, i));
    OtherSlots(s, t, s.io.slot);
  }

  lemma StrandCore(s: State, t: State)
    requires InBounds(s, CloseTake) && s.evFree == [] && t == CloseTakeNext(s)
    requires Core(s)
    ensures Core(t)
  {
    hide EventsOnce, BuffersOnce, SlotsOnce, CommandsOnce, RequestsOnce;
    hide LinksOk, RoomOk, WritesOk, LogOk, PipelineOk, TracesOk, LinkBufs, EventBufs, Owned, Notes;
    AtPoint(s);
    var i := s.io.slot;
    SlotStranded(s);
    SameBufs(s.links, i, t.links[i]);
    StrandShape(s);
    StrandTraces(s);
    OfferAt(s, i);
    RoomWithout(s, t, i);
    SameEvents(s, t); SameBuffers(s, t); SameCommands(s, t); SameRequests(s, t); SameLog(s, t); SamePipeline(s, t);
  }

  lemma CloseEventTaken(s: State, t: State)
    requires InBounds(s, CloseTake) && s.evFree != [] && t == CloseTakeNext(s)
    requires Core(s)
    ensures Core(t)
  {
    hide EventsOnce, BuffersOnce, SlotsOnce, CommandsOnce, RequestsOnce;
    hide LinksOk, RoomOk, WritesOk, LogOk, PipelineOk, TracesOk, LinkBufs, EventBufs, Owned, Notes;
    AtPoint(s);
    EventTaken(s, t);
    IoMoves(s, t);
    SameBuffers(s, t); SameSlots(s, t); SameCommands(s, t); SameRequests(s, t);
    SameRoom(s, t); SameWrites(s, t); SameLog(s, t); SamePipeline(s, t); SameTraces(s, t);
  }

  lemma CloseTakeKeeps(s: State, t: State)
    requires Enabled(s, CloseTake) && InBounds(s, CloseTake) && t == CloseTakeNext(s)
    requires Inv(s)
    ensures Inv(t)
  {
    hide EventsOnce, BuffersOnce, SlotsOnce, CommandsOnce, RequestsOnce;
    hide LinksOk, RoomOk, WritesOk, LogOk, PipelineOk, TracesOk, LinkBufs, EventBufs, Owned, Notes;
    AtPoint(s);
    if s.evFree == [] {
      StrandCore(s, t);
    } else {
      CloseEventTaken(s, t);
    }
  }

  lemma CloseShape(s: State)
    requires LinksOk(s) && WritesOk(s) && InBounds(s, PublishClose)
    ensures LinksOk(PublishCloseNext(s)) && WritesOk(PublishCloseNext(s))
  {
  }

  lemma CloseTraces(s: State)
    requires LinksOk(s) && SlotsOnce(s) && TracesOk(s) && InBounds(s, PublishClose) && |s.evReady| < Cap(s)
    ensures TracesOk(PublishCloseNext(s))
  {
    hide Agree, Tracked, Uses;
    var t := PublishCloseNext(s);
    var i := s.io.slot;
    OwnedSlot(s, i);
    LogElsewhere(s.log, Last(t.log));
    TrackedPush(s.log, Last(t.log), i);
    assert SlotTrace(s, i);
    AgreeEnd(s.links[i], Tail(s, i), Tracked(s.log, i), Uses(s.wire, i), i);
    OtherSlots(s, t, i);
  }

  lemma PublishCloseKeeps(s: State, t: State)
    requires Enabled(s, PublishClose) && InBounds(s, PublishClose) && t == PublishCloseNext(s)
    requires Inv(s)
    ensures Inv(t)
  {
    hide EventsOnce, BuffersOnce, SlotsOnce, CommandsOnce, RequestsOnce;
    hide LinksOk, RoomOk, WritesOk, LogOk, PipelineOk, TracesOk, LinkBufs, EventBufs, Owned, Notes;
    AtPoint(s);
    var i, e := s.io.slot, s.io.event;
    EventInHand(s, e);
    ReadyHasRoom(s);
    EventPublished(s, t, e);
    SameBufs(s.links, i, t.links[i]);
    BuffersPublished(s, t, e, t.events[e]);
    SlotFreed(s);
    CloseShape(s);
    CloseTraces(s);
    LogPublished(s, t, e, t.events[e]);
    OfferAt(s, i);
    RoomWithout(s, t, i);
    SameCommands(s, t); SameRequests(s, t); SamePipeline(s, t);
  }

  // ---- writes and commands --------------------------------------------------------------------

  lemma TransmitWrites(s: State, k: nat)
    requires WritesOk(s) && k < |s.writes|
    ensures WritesOk(TransmitNext(s, k))
  {
  }

  lemma TransmitKeeps(s: State, k: nat, t: State)
    requires Enabled(s, Transmit(k)) && InBounds(s, Transmit(k)) && t == TransmitNext(s, k)
    requires Inv(s)
    ensures Inv(t)
  {
    hide EventsOnce, BuffersOnce, SlotsOnce, CommandsOnce, RequestsOnce;
    hide LinksOk, RoomOk, WritesOk, LogOk, PipelineOk, TracesOk, LinkBufs, EventBufs, Owned, Notes;
    RequestKept(s, k);
    TransmitWrites(s, k);
    SameEvents(s, t); SameBuffers(s, t); SameSlots(s, t); SameCommands(s, t); SameLinks(s, t);
    SameRoom(s, t); SameLog(s, t); SamePipeline(s, t); SameTraces(s, t);
  }

  lemma WriteDoneWrites(s: State, k: nat, ok: bool)
    requires WritesOk(s) && k < |s.writes|
    ensures WritesOk(WriteDoneNext(s, k, ok))
  {
  }

  lemma WriteDoneKeeps(s: State, k: nat, ok: bool, t: State)
    requires Enabled(s, WriteDone(k, ok)) && InBounds(s, WriteDone(k, ok)) && t == WriteDoneNext(s, k, ok)
    requires Inv(s)
    ensures Inv(t)
  {
    hide EventsOnce, BuffersOnce, SlotsOnce, CommandsOnce, RequestsOnce;
    hide LinksOk, RoomOk, WritesOk, LogOk, PipelineOk, TracesOk, LinkBufs, EventBufs, Owned, Notes;
    RequestReturned(s, k, ok);
    WriteDoneWrites(s, k, ok);
    SameEvents(s, t); SameBuffers(s, t); SameSlots(s, t); SameCommands(s, t); SameLinks(s, t);
    SameRoom(s, t); SameLog(s, t); SamePipeline(s, t); SameTraces(s, t);
  }

  lemma HandleBeginPipeline(s: State)
    requires PipelineOk(s) && s.io == Idle && s.cmdReady != []
    ensures PipelineOk(HandleBeginNext(s))
  {
    hide CommandsAt;
    ReadySplits(s.cmds, s.cmdReady);
    Regroup(s.handled, CommandsAt(s.cmds, [s.cmdReady[0]]), CommandsAt(s.cmds, s.cmdReady[1..]));
  }

  lemma ReadySplits(cmds: seq<Command>, ids: seq<nat>)
    requires ids != []
    ensures CommandsAt(cmds, ids) == CommandsAt(cmds, [ids[0]]) + CommandsAt(cmds, ids[1..])
  {
  }

  lemma Regroup(a: seq<Command>, b: seq<Command>, c: seq<Command>)
    ensures a + [] + (b + c) == a + b + c
  {
  }

  lemma HandleBeginKeeps(s: State, t: State)
    requires Enabled(s, HandleBegin) && InBounds(s, HandleBegin) && t == HandleBeginNext(s)
    requires Inv(s)
    ensures Inv(t)
  {
    hide EventsOnce, BuffersOnce, SlotsOnce, CommandsOnce, RequestsOnce;
    hide LinksOk, RoomOk, WritesOk, LogOk, PipelineOk, TracesOk, LinkBufs, EventBufs, Owned, Notes;
    AtPoint(s);
    CommandStarted(s);
    IoMoves(s, t);
    HandleBeginPipeline(s);
    SameEvents(s, t); SameBuffers(s, t); SameSlots(s, t); SameRequests(s, t);
    SameRoom(s, t); SameWrites(s, t); SameLog(s, t); SameTraces(s, t);
  }

  predicate ConnectRefused(s: State, reply: Reply) {
    s.freeLinks != [] && SlotAtHand(s) && reply.handleOk && !reply.connectOk
  }

  lemma RefusedConnectShape(s: State, id: CmdId, reply: Reply)
    requires LinksOk(s) && SlotsOnce(s) && WritesOk(s) && ConnectRefused(s, reply)
    ensures LinksOk(HandleOpen(s, id, reply)) && WritesOk(HandleOpen(s, id, reply))
  {
    FreeSlot(s, Last(s.freeLinks));
  }

  lemma RefusedConnectTraces(s: State, id: CmdId, reply: Reply)
    requires LinksOk(s) && SlotsOnce(s) && TracesOk(s) && ConnectRefused(s, reply)
    ensures TracesOk(HandleOpen(s, id, reply))
  {
    hide Agree, Tracked, Uses;
    var i := Last(s.freeLinks);
    FreeSlot(s, i);
    var t := HandleOpen(s, id, reply);
    assert SlotTrace(s, i);
    AgreeFree(s.links[i], Tail(s, i), Tracked(s.log, i), Uses(s.wire, i), t.links[i]);
    OtherSlots(s, t, i);
  }

  lemma FreeLinkBare(s: State, i: nat)
    requires LinksOk(s) && i < s.n && s.links[i].handle == Gone
    ensures s.links[i].buffer == None
  {
  }

  /** A connect that fails at once gives its slot straight back. */
  lemma RefusedConnectKeeps(s: State, id: CmdId, reply: Reply)
    requires Core(s) && s.io.Handling? && s.freeLinks != [] && reply.handleOk && !reply.connectOk
    ensures SlotAtHand(s) && Core(HandleOpen(s, id, reply))
  {
    hide EventsOnce, BuffersOnce, SlotsOnce, CommandsOnce, RequestsOnce;
    hide LinksOk, RoomOk, WritesOk, LogOk, PipelineOk, TracesOk, LinkBufs, EventBufs, Owned, Notes;
    AtPoint(s);
    var i := Last(s.freeLinks);
    FreeSlot(s, i);
    var t := HandleOpen(s, id, reply);
    FreeListFits(s);
    assert t.freeLinks == s.freeLinks;
    SlotStays(s, i, t.links[i]);
    SameSlots(SetLink(s, i, t.links[i]), t);
    FreeLinkBare(s, i);
    SameBufs(s.links, i, t.links[i]);
    RefusedConnectShape(s, id, reply);
    RefusedConnectTraces(s, id, reply);
    RoomWithout(s, t, i);
    SameEvents(s, t); SameBuffers(s, t); SameCommands(s, t); SameRequests(s, t);
    SameLog(s, t); SamePipeline(s, t);
  }

  lemma FreeListFits(s: State)
    requires SlotsOnce(s)
    ensures |s.freeLinks| <= s.n
  {
    AllCounts(s.n);
    CountSum(multiset(s.freeLinks), multiset(s.stranded), Owned(s.links), multiset{}, 0);
    assert |multiset(s.freeLinks) + multiset(s.stranded) + Owned(s.links)| == s.n;
  }

  /** A write is only started on a slot that is being read from. */
  lemma SendWrites(s: State, id: CmdId, target: nat, at: nat, len: nat, reply: Reply)
    requires WritesOk(s) && OpenIsReading(s) && s.io.Handling?
    ensures WritesOk(HandleSend(s, id, target, at, len, reply))
  {
  }

  lemma SendKeeps(s: State, id: CmdId, target: nat, at: nat, len: nat, reply: Reply)
    requires Core(s) && s.io.Handling? && OpenIsReading(s)
    ensures Core(HandleSend(s, id, target, at, len, reply))
  {
    hide EventsOnce, BuffersOnce, SlotsOnce, CommandsOnce, RequestsOnce;
    hide LinksOk, RoomOk, WritesOk, LogOk, PipelineOk, TracesOk, LinkBufs, EventBufs, Owned, Notes;
    AtPoint(s);
    var t := HandleSend(s, id, target, at, len, reply);
    RequestSent(s, id, target, at, len, reply);
    IoMoves(s, t);
    SendWrites(s, id, target, at, len, reply);
    SameEvents(s, t); SameBuffers(s, t); SameSlots(s, t); SameCommands(s, t); SameRoom(s, t);
    SameLog(s, t); SamePipeline(s, t); SameTraces(s, t);
  }

  lemma DispatchKeeps(s: State, cmd: Command, reply: Reply)
    requires Inv(s) && s.io.Handling?
    ensures SlotAtHand(s) && Inv(Dispatch(s, cmd, reply))
    ensures var t := Dispatch(s, cmd, reply);
            t.n == s.n && t.io == s.io && t.cmdFree == s.cmdFree && t.cmdReady == s.cmdReady
            && t.cmds == s.cmds && t.cmdHand == s.cmdHand && t.handled == s.handled && t.queued == s.queued
  {
    hide EventsOnce, BuffersOnce, SlotsOnce, CommandsOnce, RequestsOnce;
    hide LinksOk, RoomOk, WritesOk, LogOk, PipelineOk, TracesOk, LinkBufs, EventBufs, Owned, Notes;
    AtPoint(s);
    if s.freeLinks != [] {
      FreeSlot(s, Last(s.freeLinks));
    }
    match cmd
    case NoCommand =>
    case OpenCommand(id) =>
      if s.freeLinks != [] && reply.handleOk {
        if reply.connectOk {
          TakeSlotKeeps(s, New, Some(id));
        } else {
          RefusedConnectKeeps(s, id, reply);
        }
      }
    case CloseCommand(id, target) =>
      if !Refused(s, target) {
        DropKeeps(s, target, Some(id));
      }
    case SendCommand(id, target, at, len) =>
      SendKeeps(s, id, target, at, len, reply);
  }

  lemma HandleEndPipeline(m: State, t: State)
    requires PipelineOk(m) && m.io.Handling? && m.io.command < |m.cmds| && t.io == Idle
    requires t.handled == m.handled + [m.cmds[m.io.command]] && t.queued == m.queued
    requires t.cmds == m.cmds && t.cmdReady == m.cmdReady
    ensures PipelineOk(t)
  {
    assert InHand(m) == [m.cmds[m.io.command]] && InHand(t) == [];
  }

  lemma HandleEndKeeps(s: State, reply: Reply, t: State)
    requires Enabled(s, HandleEnd(reply)) && InBounds(s, HandleEnd(reply)) && t == HandleEndNext(s, reply)
    requires Inv(s)
    ensures Inv(t)
  {
    hide EventsOnce, BuffersOnce, SlotsOnce, CommandsOnce, RequestsOnce;
    hide LinksOk, RoomOk, WritesOk, LogOk, PipelineOk, TracesOk, LinkBufs, EventBufs, Owned, Notes;
    AtPoint(s);
    CommandsExist(s);
    var c := s.io.command;
    DispatchKeeps(s, s.cmds[c], reply);
    var m := Dispatch(s, s.cmds[c], reply);
    CommandDone(m, t);
    IoMoves(m, t);
    HandleEndPipeline(m, t);
    SameEvents(m, t); SameBuffers(m, t); SameSlots(m, t); SameRequests(m, t);
    SameRoom(m, t); SameWrites(m, t); SameLog(m, t); SameTraces(m, t);
  }

  lemma RequestsReset(s: State)
    requires s.writes == []
    ensures RequestsOnce(s.(sendReqs := Upto(Cap(s))))
  {
    UptoIsAll(Cap(s));
  }

  lemma RelaunchKeeps(s: State, t: State)
    requires Enabled(s, Relaunch) && InBounds(s, Relaunch) && t == s.(sendReqs := Upto(Cap(s)))
    requires Inv(s)
    ensures Inv(t)
  {
    hide EventsOnce, BuffersOnce, SlotsOnce, CommandsOnce, RequestsOnce;
    hide LinksOk, RoomOk, WritesOk, LogOk, PipelineOk, TracesOk, LinkBufs, EventBufs, Owned, Notes;
    AtPoint(s);
    RequestsReset(s);
    IoMoves(s, t);
    SameEvents(s, t); SameBuffers(s, t); SameSlots(s, t); SameCommands(s, t);
    SameRoom(s, t); SameWrites(s, t); SameLog(s, t); SamePipeline(s, t); SameTraces(s, t);
  }

  // ---- the main thread ------------------------------------------------------------------------

  lemma SameLinks(s: State, t: State)
    requires LinksOk(s) && t.n == s.n && t.links == s.links && t.io == s.io
    ensures LinksOk(t)
  {
  }

  lemma BatchBounds(s: State)
    requires EventsOnce(s)
    ensures s.evRel <= s.bufRel <= |s.updates|
  {
  }

  lemma AcquireLog(s: State)
    requires LogOk(s)
    ensures LogOk(AcquireNext(s))
  {
    var t := AcquireNext(s);
    assert t.updates[t.bufRel..] == s.evReady;
  }

  lemma AcquireKeeps(s: State, t: State)
    requires Enabled(s, Acquire) && InBounds(s, Acquire) && t == AcquireNext(s)
    requires Inv(s)
    ensures Inv(t)
  {
    hide EventsOnce, BuffersOnce, SlotsOnce, CommandsOnce, RequestsOnce;
    hide LinksOk, RoomOk, WritesOk, LogOk, PipelineOk, TracesOk, LinkBufs, EventBufs, Owned, Notes;
    AtPoint(s);
    EventsAcquired(s);
    BatchBounds(s);
    BuffersAcquired(s);
    AcquireLog(s);
    SameSlots(s, t); SameCommands(s, t); SameRequests(s, t); SameLinks(s, t);
    SameRoom(s, t); SameWrites(s, t); SamePipeline(s, t); SameTraces(s, t);
  }

  lemma HeldEventExists(s: State)
    requires EventsOnce(s) && Enabled(s, ReleaseBuffer)
    ensures InBounds(s, ReleaseBuffer) && EventsOnce(ReleaseBufferNext(s))
  {
    EventsExist(s);
    assert s.updates[s.bufRel] in s.updates[s.evRel..];
  }

  lemma ReleaseBufferLog(s: State)
    requires LogOk(s) && InBounds(s, ReleaseBuffer)
    ensures LogOk(ReleaseBufferNext(s))
  {
    var t := ReleaseBufferNext(s);
    assert t.updates[t.bufRel..] == s.updates[s.bufRel..][1..];
    assert Notes(t.events, t.data, t.updates[t.bufRel..]) == Notes(s.events, s.data, s.updates[s.bufRel..])[1..];
  }

  lemma ReleaseBufferKeeps(s: State, t: State)
    requires Enabled(s, ReleaseBuffer) && InBounds(s, ReleaseBuffer) && t == ReleaseBufferNext(s)
    requires Inv(s)
    ensures Inv(t)
  {
    hide EventsOnce, BuffersOnce, SlotsOnce, CommandsOnce, RequestsOnce;
    hide LinksOk, RoomOk, WritesOk, LogOk, PipelineOk, TracesOk, LinkBufs, EventBufs, Owned, Notes;
    AtPoint(s);
    HeldEventExists(s);
    BufferReleased(s);
    ReleaseBufferLog(s);
    SameSlots(s, t); SameCommands(s, t); SameRequests(s, t); SameLinks(s, t);
    SameRoom(s, t); SameWrites(s, t); SamePipeline(s, t); SameTraces(s, t);
  }

  lemma ReleaseEventKeeps(s: State, t: State)
    requires Enabled(s, ReleaseEvent) && InBounds(s, ReleaseEvent) && t == ReleaseEventNext(s)
    requires Inv(s)
    ensures Inv(t)
  {
    hide EventsOnce, BuffersOnce, SlotsOnce, CommandsOnce, RequestsOnce;
    hide LinksOk, RoomOk, WritesOk, LogOk, PipelineOk, TracesOk, LinkBufs, EventBufs, Owned, Notes;
    AtPoint(s);
    BatchBounds(s);
    EventReleased(s);
    SameBuffers(s, t); SameSlots(s, t); SameCommands(s, t); SameRequests(s, t); SameLinks(s, t);
    SameRoom(s, t); SameWrites(s, t); SameLog(s, t); SamePipeline(s, t); SameTraces(s, t);
  }

  lemma CmdTakePipeline(s: State, cmd: Command)
    requires CommandsOnce(s) && PipelineOk(s) && InBounds(s, CmdTake(cmd))
    ensures PipelineOk(CmdTakeNext(s, cmd))
  {
    CommandsExist(s);
    var t := CmdTakeNext(s, cmd);
    assert CommandsAt(t.cmds, s.cmdReady) == CommandsAt(s.cmds, s.cmdReady);
    assert InHand(t) == InHand(s);
  }

  lemma CmdTakeKeeps(s: State, cmd: Command, t: State)
    requires Enabled(s, CmdTake(cmd)) && InBounds(s, CmdTake(cmd)) && t == CmdTakeNext(s, cmd)
    requires Inv(s)
    ensures Inv(t)
  {
    hide EventsOnce, BuffersOnce, SlotsOnce, CommandsOnce, RequestsOnce;
    hide LinksOk, RoomOk, WritesOk, LogOk, PipelineOk, TracesOk, LinkBufs, EventBufs, Owned, Notes;
    AtPoint(s);
    CommandsExist(s);
    CommandTaken(s, cmd);
    CmdTakePipeline(s, cmd);
    SameEvents(s, t); SameBuffers(s, t); SameSlots(s, t); SameRequests(s, t); SameLinks(s, t);
    SameRoom(s, t); SameWrites(s, t); SameLog(s, t); SameTraces(s, t);
  }

  lemma CmdQueuePipeline(s: State)
    requires PipelineOk(s) && InBounds(s, CmdQueue) && |s.cmdReady| < Cap(s)
    ensures PipelineOk(CmdQueueNext(s))
  {
    var t := CmdQueueNext(s);
    assert CommandsAt(t.cmds, t.cmdReady) == CommandsAt(s.cmds, s.cmdReady) + [s.cmds[s.cmdHand.value]];
  }

  lemma CmdQueueKeeps(s: State, t: State)
    requires Enabled(s, CmdQueue) && InBounds(s, CmdQueue) && t == CmdQueueNext(s)
    requires Inv(s)
    ensures Inv(t)
  {
    hide EventsOnce, BuffersOnce, SlotsOnce, CommandsOnce, RequestsOnce;
    hide LinksOk, RoomOk, WritesOk, LogOk, PipelineOk, TracesOk, LinkBufs, EventBufs, Owned, Notes;
    AtPoint(s);
    CommandsExist(s);
    CommandQueued(s);
    CmdQueuePipeline(s);
    SameEvents(s, t); SameBuffers(s, t); SameSlots(s, t); SameRequests(s, t); SameLinks(s, t);
    SameRoom(s, t); SameWrites(s, t); SameLog(s, t); SameTraces(s, t);
  }

  /** The caller's memory is nobody's resource: rewriting it moves nothing. */
  lemma RewriteKeeps(s: State, at: nat, byte: Byte, t: State)
    requires t == s.(memory := s.memory[at := byte])
    requires Inv(s)
    ensures Inv(t)
  {
    hide EventsOnce, BuffersOnce, SlotsOnce, CommandsOnce, RequestsOnce;
    hide LinksOk, RoomOk, WritesOk, LogOk, PipelineOk, TracesOk, LinkBufs, EventBufs, Owned, Notes;
    SameEvents(s, t); SameBuffers(s, t); SameSlots(s, t); SameCommands(s, t); SameRequests(s, t); SameLinks(s, t);
    SameRoom(s, t); SameWrites(s, t); SameLog(s, t); SamePipeline(s, t); SameTraces(s, t);
  }

  // ---- all of them ----------------------------------------------------------------------------

  /** The setup establishes the invariant. */
  lemma InitKeeps(n: nat)
    ensures Inv(Init(n))
  {
    InitOnce(n);
    InitHistory(n);
    hide EventsOnce, BuffersOnce, SlotsOnce, CommandsOnce, RequestsOnce, TracesOk;
  }

  lemma InitOnce(n: nat)
    ensures var s := Init(n);
            EventsOnce(s) && BuffersOnce(s) && SlotsOnce(s) && CommandsOnce(s) && RequestsOnce(s)
  {
    hide EventsOnce, BuffersOnce, SlotsOnce, CommandsOnce, RequestsOnce, Init;
    InitEvents(n);
    InitBuffers(n);
    InitSlots(n);
    InitCommands(n);
  }

  lemma InitEvents(n: nat)
    ensures EventsOnce(Init(n))
  {
    InitPools(n);
    hide Upto, All, EventBufs;
    var s := Init(n);
    assert s.updates[s.evRel..] == [];
  }

  lemma InitBuffers(n: nat)
    ensures BuffersOnce(Init(n))
  {
    var s := Init(n);
    InitLinks(s.links);
    InitPools(n);
    hide Upto, All, LinkBufs, EventBufs;
    assert s.updates[s.bufRel..] == [] == s.evReady;
    assert EventBufs(s.events, []) == multiset{};
  }

  lemma InitSlots(n: nat)
    ensures SlotsOnce(Init(n))
  {
    InitLinks(Init(n).links);
    InitPools(n);
    hide Upto, All, Owned, EventBufs;
  }

  lemma InitCommands(n: nat)
    ensures CommandsOnce(Init(n)) && RequestsOnce(Init(n))
  {
    InitPools(n);
    hide Upto, All, EventBufs;
  }

  lemma InitPools(n: nat)
    ensures forall events :: EventBufs(events, []) == multiset{}
    ensures multiset(Upto(4 * n)) + multiset([]) + multiset([]) + multiset{} == All(4 * n)
    ensures multiset(Upto(4 * n)) + multiset{} + multiset{} + multiset{} == All(4 * n)
    ensures multiset(Upto(4 * n)) + multiset([]) + multiset{} + multiset{} == All(4 * n)
    ensures multiset(Upto(4 * n)) + Requests([]) == All(4 * n)
    ensures multiset(Upto(n)) + multiset([]) + multiset{} == All(n)
  {
    UptoIsAll(n);
    UptoIsAll(4 * n);
    hide Upto, All;
    var none: seq<nat> := [];
    assert multiset(none) == multiset{};
  }

  lemma InitHistory(n: nat)
    ensures TracesOk(Init(n))
  {
  }

  lemma {:induction false} InitLinks(links: seq<Link>)
    requires forall i :: 0 <= i < |links| ==> links[i].handle == Gone && links[i].buffer == None
    ensures LinkBufs(links) == multiset{} && Owned(links) == multiset{}
  {
    if links != [] {
      InitLinks(Front(links));
    }
  }

  lemma SlotExists(s: State)
    requires SlotsOnce(s)
    ensures SlotAtHand(s)
  {
    if s.freeLinks != [] {
      FreeSlot(s, Last(s.freeLinks));
    }
  }

  /** Memory safety of the indices: whatever step is enabled, every buffer, event, command and slot
      it touches exists. */
  lemma StepInBounds(s: State, step: Step)
    requires Inv(s) && Enabled(s, step)
    ensures InBounds(s, step)
  {
    hide EventsOnce, BuffersOnce, SlotsOnce, CommandsOnce, RequestsOnce;
    hide LinksOk, RoomOk, WritesOk, LogOk, PipelineOk, TracesOk, LinkBufs, EventBufs, Owned, Notes;
    AtPoint(s);
    SlotExists(s);
    CommandsExist(s);
    BufferCount(s);
    match step
    case PublishOpen(_) => EventInHand(s, s.io.event);
    case PublishRead => EventInHand(s, s.io.event); BufferExclusive(s, s.io.slot);
    case PublishClose => EventInHand(s, s.io.event);
    case Alloc(i) =>
      if s.poolRead != [] { PoolBufferLoose(s); }
      if s.links[i].buffer.Some? { BufferExclusive(s, i); }
    case Receive(i, bytes) => OfferHolds(s, i, bytes);
    case ReleaseBuffer => HeldEventExists(s);
    case ReleaseEvent => BatchBounds(s);
    case _ =>
  }

  predicate OnLink(step: Step) {
    || step.Accept? || step.Connect? || step.PublishOpen? || step.Alloc? || step.Receive? || step.PublishRead?
    || step.Hangup? || step.CloseBegin? || step.CloseTake? || step.PublishClose?
  }

  lemma LinkStepKeeps(s: State, step: Step, t: State)
    requires Enabled(s, step) && InBounds(s, step) && t == Next(s, step) && OnLink(step)
    requires Inv(s)
    ensures Inv(t)
  {
    hide Inv, AcceptNext, ConnectNext, PublishOpenNext, AllocNext, ReceiveNext, PublishReadNext;
    hide CloseBeginNext, CloseTakeNext, PublishCloseNext, Drop;
    match step
    case Accept(fault) => AcceptKeeps(s, fault, t);
    case Connect(i, fault) => ConnectKeeps(s, i, fault, t);
    case PublishOpen(readFails) => PublishOpenKeeps(s, readFails, t);
    case Alloc(i) => AllocKeeps(s, i, t);
    case Receive(i, bytes) => ReceiveKeeps(s, i, bytes, t);
    case PublishRead => PublishReadKeeps(s, t);
    case Hangup(i) => HangupKeeps(s, i, t);
    case CloseBegin(i) => CloseBeginKeeps(s, i, t);
    case CloseTake => CloseTakeKeeps(s, t);
    case PublishClose => PublishCloseKeeps(s, t);
  }

  /** Every step keeps the invariant. */
  lemma StepKeeps(s: State, step: Step, t: State)
    requires Enabled(s, step) && InBounds(s, step) && t == Next(s, step)
    requires Inv(s)
    ensures Inv(t)
  {
    hide Inv, TransmitNext, WriteDoneNext, HandleBeginNext, HandleEndNext, AcquireNext, ReleaseBufferNext;
    hide ReleaseEventNext, CmdTakeNext, CmdQueueNext, LoopDone, Upto;
    match step
    case Transmit(k) => TransmitKeeps(s, k, t);
    case WriteDone(k, ok) => WriteDoneKeeps(s, k, ok, t);
    case HandleBegin => HandleBeginKeeps(s, t);
    case HandleEnd(reply) => HandleEndKeeps(s, reply, t);
    case Relaunch => RelaunchKeeps(s, t);
    case Acquire => AcquireKeeps(s, t);
    case ReleaseBuffer => ReleaseBufferKeeps(s, t);
    case ReleaseEvent => ReleaseEventKeeps(s, t);
    case CmdTake(cmd) => CmdTakeKeeps(s, cmd, t);
    case CmdQueue => CmdQueueKeeps(s, t);
    case Rewrite(at, byte) => RewriteKeeps(s, at, byte, t);
    case _ =>
      hide Next, Enabled, InBounds;
      LinkStepKeeps(s, step, t);
  }

  /** Every run, of any length and any interleaving, stays inside the invariant. */
  lemma {:induction false} RunKeeps(s: State, steps: seq<Step>, t: State)
    requires Reaches(s, steps, t)
    requires Inv(s)
    ensures Inv(t)
    decreases |steps|
  {
    hide Inv;
    if steps != [] {
      var m := Next(s, steps[0]);
      StepKeeps(s, steps[0], m);
      RunKeeps(m, steps[1..], t);
    }
  }
}
