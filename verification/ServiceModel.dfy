/** The two-thread service as a step system.
    A step is one callback section of the IO thread, or one API section of the main thread, that
    makes at most one call on a queue or pool both threads use; everything else a section does is
    private to its thread. Every interleaving of the two threads is therefore a sequence of steps.
    Objects are named by index and reached through indices only, as the code reaches them through
    pointers, so that sharing an object by mistake would be visible. */
module ServiceModel {
  import opened Basics
  import opened Pools

  type CmdId = nat

  // ---- entities -------------------------------------------------------------------------------

  datatype LinkState = New | Open | Closing | Closed

  /** What libuv knows about the slot's handle: none, initialised but not read from (accepted or
      connecting), reading, or `uv_close` called and its callback not finished. */
  datatype Handle = Gone | Pending | Reading | Ending

  /** `offer` is the length the last alloc callback offered libuv and no read callback has used yet.
      `None` in a command field stands for TN_CMD_INVALID. */
  datatype Link = Link(
    id: nat,
    state: LinkState,
    handle: Handle,
    buffer: Option<nat>,
    offer: nat,
    cmdOpen: Option<CmdId>,
    cmdClose: Option<CmdId>)

  datatype Event =
    | Blank
    | OpenEvent(client: nat, cmd: Option<CmdId>)
    | ReadEvent(client: nat, buffer: nat, length: nat)
    | CloseEvent(client: nat, cmd: Option<CmdId>)

  /** A send command holds no bytes: it points at `len` bytes of the caller's memory. */
  datatype Command =
    | NoCommand
    | OpenCommand(id: CmdId)
    | CloseCommand(id: CmdId, target: nat)
    | SendCommand(id: CmdId, target: nat, at: nat, len: nat)

  /** A pending write points at the same memory; `taken` is what has been read from it so far, and
      `order` the place of its command among those handled. */
  datatype Write = Write(request: nat, slot: nat, cmd: CmdId, order: nat, at: nat, len: nat, taken: seq<Byte>)

  /** Where the IO thread stands between two calls on shared queues. */
  datatype IoPoint =
    | Idle
    | Opening(slot: nat, event: nat)
    | Receiving(slot: nat, event: nat)
    | ClosingBare(slot: nat)
    | ClosingWith(slot: nat, event: nat)
    | Handling(command: nat)

  // ---- histories ------------------------------------------------------------------------------

  /** What an event tells the main thread, read through its pointers. */
  datatype Note =
    | Opened(client: nat, cmd: Option<CmdId>)
    | Bytes(client: nat, bytes: seq<Byte>)
    | Ended(client: nat, cmd: Option<CmdId>)

  /** What happened at the network side of a slot. */
  datatype Wire =
    | Began(client: nat, cmd: Option<CmdId>)
    | Arrived(client: nat, bytes: seq<Byte>)
    | Dropping(client: nat, cmd: Option<CmdId>)

  /** A finished write: which handled command asked for it, whether libuv reported success, and the
      bytes that were taken from memory for it. */
  datatype Sent = Sent(order: nat, ok: bool, bytes: seq<Byte>)

  datatype State = State(
    n: nat,
    links: seq<Link>,
    freeLinks: seq<nat>,
    stranded: seq<nat>,        // slots whose close callback found no free event
    poolRead: seq<nat>,
    data: seq<seq<Byte>>,      // data[b]: the unread bytes of read buffer b
    evFree: seq<nat>,
    evReady: seq<nat>,
    events: seq<Event>,
    updates: seq<nat>,         // event_updates[..event_updates_count]
    evRel: nat,                // events of the batch already given back
    bufRel: nat,               // events of the batch whose buffer was already given back
    cmdFree: seq<nat>,
    cmdReady: seq<nat>,
    cmds: seq<Command>,
    cmdHand: Option<nat>,      // command the main thread has popped and not yet queued
    sendReqs: seq<nat>,
    writes: seq<Write>,
    memory: map<nat, Byte>,    // the caller's memory, by address
    io: IoPoint,
    log: seq<Note>,            // every event ever queued, in order
    seen: seq<Note>,           // every event ever acquired, in order
    wire: seq<Wire>,
    queued: seq<Command>,
    promises: seq<seq<Byte>>,  // promises[k]: the message of queued[k] as it was when it was queued
    handled: seq<Command>,
    sent: seq<Sent>)

  function Cap(s: State): nat { 4 * s.n }

  function Init(n: nat): State {
    State(n,
          seq(n, i requires 0 <= i => Link(i, New, Gone, None, 0, None, None)), Upto(n), [],
          Upto(4 * n), seq(4 * n, _ => []),
          Upto(4 * n), [], seq(4 * n, _ => Blank),
          [], 0, 0,
          Upto(4 * n), [], seq(4 * n, _ => NoCommand), None,
          Upto(4 * n), [], map[],
          Idle, [], [], [], [], [], [], [])
  }

  /** What event object `e` says at this moment, through its buffer pointer. */
  function NoteOf(events: seq<Event>, data: seq<seq<Byte>>, e: nat): Note {
    if e >= |events| then Bytes(0, []) else
    match events[e]
    case Blank => Bytes(0, [])
    case OpenEvent(c, cmd) => Opened(c, cmd)
    case CloseEvent(c, cmd) => Ended(c, cmd)
    case ReadEvent(c, b, len) =>
      Bytes(c, if b < |data| && len <= |data[b]| then data[b][..len] else [])
  }

  function Notes(events: seq<Event>, data: seq<seq<Byte>>, ids: seq<nat>): (r: seq<Note>)
    ensures |r| == |ids|
    ensures forall k :: 0 <= k < |ids| ==> r[k] == NoteOf(events, data, ids[k])
  {
    seq(|ids|, k requires 0 <= k < |ids| => NoteOf(events, data, ids[k]))
  }

  /** The byte the caller's memory holds at an address. */
  function At(memory: map<nat, Byte>, a: nat): Byte {
    if a in memory then memory[a] else 0
  }

  function Peek(memory: map<nat, Byte>, at: nat, len: nat): (r: seq<Byte>)
    ensures |r| == len
    ensures forall k :: 0 <= k < len ==> r[k] == At(memory, at + k)
  {
    seq<Byte>(len, k requires 0 <= k < len => At(memory, at + k))
  }

  /** The message of a command, read through its pointer now. */
  function Message(memory: map<nat, Byte>, cmd: Command): seq<Byte> {
    if cmd.SendCommand? then Peek(memory, cmd.at, cmd.len) else []
  }

  // ---- steps ----------------------------------------------------------------------------------

  /** Environment answers met while one command is handled. */
  datatype Reply = Reply(handleOk: bool, connectOk: bool, writeOk: bool)

  datatype Step =
    | Accept(fault: bool)
    | Connect(slot: nat, fault: bool)
    | PublishOpen(readFails: bool)
    | Alloc(slot: nat)
    | Receive(slot: nat, bytes: seq<Byte>)
    | PublishRead
    | Hangup(slot: nat)
    | CloseBegin(slot: nat)
    | CloseTake
    | PublishClose
    | Transmit(k: nat)
    | WriteDone(k: nat, ok: bool)
    | HandleBegin
    | HandleEnd(reply: Reply)
    | Relaunch
    | Acquire
    | ReleaseBuffer
    | ReleaseEvent
    | CmdTake(cmd: Command)
    | CmdQueue
    | Rewrite(at: nat, byte: Byte)

  /** A read callback can deliver `bytes` to slot `i`: it is being read from, and there are no more
      bytes than the last alloc callback offered room for. */
  predicate CanReceive(s: State, i: nat, bytes: seq<Byte>) {
    i < |s.links| && s.links[i].handle == Reading && 0 < |bytes| <= s.links[i].offer
  }

  /** When a step can be taken: the IO thread runs one callback at a time, libuv keeps its
      contract, and the main thread alternates acquire and release. */
  predicate Enabled(s: State, step: Step) {
    match step
    case Accept(_) => s.io == Idle
    case Connect(i, _) =>
      s.io == Idle && i < |s.links| && s.links[i].handle == Pending
    case PublishOpen(_) => s.io.Opening?
    case Alloc(i) => s.io == Idle && i < |s.links| && s.links[i].handle == Reading
    case Receive(i, bytes) => s.io == Idle && CanReceive(s, i, bytes)
    case PublishRead => s.io.Receiving?
    case Hangup(i) => s.io == Idle && i < |s.links| && s.links[i].handle == Reading
    case CloseBegin(i) =>
      && s.io == Idle && i < |s.links| && s.links[i].handle == Ending
      && forall k :: 0 <= k < |s.writes| ==> s.writes[k].slot != i
    case CloseTake => s.io.ClosingBare?
    case PublishClose => s.io.ClosingWith?
    case Transmit(k) => k < |s.writes| && |s.writes[k].taken| < s.writes[k].len
    case WriteDone(k, ok) =>
      s.io == Idle && k < |s.writes| && (ok ==> |s.writes[k].taken| == s.writes[k].len)
    case HandleBegin => s.io == Idle && s.cmdReady != []
    case HandleEnd(_) => s.io.Handling?
    case Relaunch => s.io == Idle && LoopDone(s)
    case Acquire => s.evRel == |s.updates|
    case ReleaseBuffer => s.bufRel == s.evRel < |s.updates|
    case ReleaseEvent => s.evRel < s.bufRel
    case CmdTake(cmd) => s.cmdHand == None && cmd != NoCommand
    case CmdQueue => s.cmdHand.Some?
    case Rewrite(_, _) => true
  }

  /** `uv_run` can have returned: no link handle is left and no write is pending. */
  predicate LoopDone(s: State) {
    s.writes == [] && forall i :: 0 <= i < |s.links| ==> s.links[i].handle == Gone
  }

  function SetLink(s: State, i: nat, l: Link): State
    requires i < |s.links|
  {
    s.(links := s.links[i := l])
  }

  /** Slot `i` moves to CLOSING and `uv_close` is called on its handle. A close command leaves its id
      in the link; everyone else leaves the link's field as it is. The history records the cause
      itself: the command, or that there was none. */
  function Drop(s: State, i: nat, cause: Option<CmdId>): State
    requires i < |s.links|
  {
    SetLink(s, i, DroppedLink(s.links[i], cause)).(wire := s.wire + [Dropping(s.links[i].id, cause)])
  }

  function DroppedLink(l: Link, cause: Option<CmdId>): Link {
    l.(state := Closing, handle := Ending, offer := 0, cmdClose := if cause.Some? then cause else l.cmdClose)
  }

  /** Pops the open event, or gives the connection up. */
  function TakeOpenEvent(s: State, i: nat): State
    requires i < |s.links|
  {
    if s.evFree == [] then Drop(s, i, None)
    else s.(evFree := s.evFree[1..], io := Opening(i, s.evFree[0]))
  }

  /** Takes the most recently freed slot and hands it to a fresh handle. */
  function TakeSlot(s: State, state: LinkState, cmd: Option<CmdId>): State
    requires s.freeLinks != [] && Last(s.freeLinks) < |s.links|
  {
    var i := Last(s.freeLinks);
    SetLink(s, i, Link(s.links[i].id, state, Pending, None, 0, cmd, None))
      .(freeLinks := Front(s.freeLinks), wire := s.wire + [Began(s.links[i].id, cmd)])
  }

  predicate SlotAtHand(s: State) {
    s.freeLinks != [] ==> Last(s.freeLinks) < |s.links|
  }

  function AcceptNext(s: State, fault: bool): State
    requires SlotAtHand(s)
  {
    if s.freeLinks == [] then s
    else
      var i := Last(s.freeLinks);
      var t := TakeSlot(s, Open, None);
      if fault then Drop(t, i, None) else TakeOpenEvent(t, i)
  }

  function ConnectNext(s: State, i: nat, fault: bool): State
    requires i < |s.links|
  {
    if fault then Drop(s, i, None) else TakeOpenEvent(s, i)
  }

  /** A bounded queue takes `x`, or refuses it when full. */
  function Pushed(q: seq<nat>, cap: nat, x: nat): seq<nat> {
    if |q| < cap then q + [x] else q
  }

  function PublishOpenNext(s: State, readFails: bool): State
    requires s.io.Opening? && s.io.slot < |s.links| && s.io.event < |s.events|
  {
    var i, e := s.io.slot, s.io.event;
    var l := s.links[i];
    var t := s.(events := s.events[e := OpenEvent(l.id, l.cmdOpen)], io := Idle);
    if |s.evReady| < Cap(s) then
      var u := SetLink(t, i, l.(state := Open, handle := Reading))
               .(evReady := s.evReady + [e], log := s.log + [Opened(l.id, l.cmdOpen)]);
      if readFails then Drop(u, i, None) else u
    else Drop(t, i, None)
  }

  /** The room left behind the bytes of a read buffer. */
  function Room(bytes: seq<Byte>): nat {
    if |bytes| <= MAX_RECV then MAX_RECV - |bytes| else 0
  }

  predicate BufferKnown(s: State, i: nat)
    requires i < |s.links|
  {
    s.links[i].buffer.Some? ==> s.links[i].buffer.value < |s.data|
  }

  /** Offers libuv the room left in the link's buffer, or in one from the pool, or nothing. */
  function AllocNext(s: State, i: nat): State
    requires i < |s.links| && BufferKnown(s, i) && (s.poolRead != [] ==> Last(s.poolRead) < |s.data|)
  {
    var l := s.links[i];
    if l.buffer.Some? then SetLink(s, i, l.(offer := Room(s.data[l.buffer.value])))
    else if s.poolRead == [] then SetLink(s, i, l.(offer := 0))
    else
      var b := Last(s.poolRead);
      SetLink(s, i, l.(buffer := Some(b), offer := Room([])))
        .(poolRead := Front(s.poolRead), data := s.data[b := []])
  }

  /** The bytes are in the buffer's memory. Counting them in fails when there are more of them than
      the buffer has room for; otherwise an event is popped for them if there is one. */
  function ReceiveNext(s: State, i: nat, bytes: seq<Byte>): State
    requires i < |s.links| && s.links[i].buffer.Some? && BufferKnown(s, i)
  {
    var b := s.links[i].buffer.value;
    var t := SetLink(s, i, s.links[i].(offer := 0)).(wire := s.wire + [Arrived(s.links[i].id, bytes)]);
    if |bytes| > Room(s.data[b]) then t
    else
      var u := t.(data := s.data[b := s.data[b] + bytes]);
      if s.evFree == [] then u
      else u.(evFree := s.evFree[1..], io := Receiving(i, s.evFree[0]))
  }

  function PublishReadNext(s: State): State
    requires s.io.Receiving? && s.io.slot < |s.links| && s.io.event < |s.events|
    requires s.links[s.io.slot].buffer.Some? && s.links[s.io.slot].buffer.value < |s.data|
  {
    var i, e := s.io.slot, s.io.event;
    var l := s.links[i];
    var b := l.buffer.value;
    var t := s.(events := s.events[e := ReadEvent(l.id, b, |s.data[b]|)], io := Idle);
    if |s.evReady| < Cap(s) then
      SetLink(t, i, l.(buffer := None))
        .(evReady := s.evReady + [e], log := s.log + [Bytes(l.id, s.data[b])])
    else t
  }

  function CloseBeginNext(s: State, i: nat): State
    requires i < |s.links|
  {
    var l := s.links[i];
    SetLink(s, i, l.(state := Closed, buffer := None))
      .(poolRead := if l.buffer.Some? then Pushed(s.poolRead, Cap(s), l.buffer.value) else s.poolRead,
        io := ClosingBare(i))
  }

  function CloseTakeNext(s: State): State
    requires s.io.ClosingBare? && s.io.slot < |s.links|
  {
    var i := s.io.slot;
    if s.evFree == [] then
      SetLink(s, i, s.links[i].(handle := Gone)).(stranded := s.stranded + [i], io := Idle)
    else s.(evFree := s.evFree[1..], io := ClosingWith(i, s.evFree[0]))
  }

  function PublishCloseNext(s: State): State
    requires s.io.ClosingWith? && s.io.slot < |s.links| && s.io.event < |s.events|
  {
    var i, e := s.io.slot, s.io.event;
    var l := s.links[i];
    SetLink(s, i, l.(handle := Gone))
      .(events := s.events[e := CloseEvent(l.id, l.cmdClose)],
        evReady := Pushed(s.evReady, Cap(s), e),
        log := if |s.evReady| < Cap(s) then s.log + [Ended(l.id, l.cmdClose)] else s.log,
        freeLinks := Pushed(s.freeLinks, s.n, i),
        io := Idle)
  }

  /** The next byte of a write is taken from the caller's memory, as it is now. */
  function TransmitNext(s: State, k: nat): State
    requires k < |s.writes|
  {
    var w := s.writes[k];
    s.(writes := s.writes[k := w.(taken := w.taken + [At(s.memory, w.at + |w.taken|)])])
  }

  function WriteDoneNext(s: State, k: nat, ok: bool): State
    requires k < |s.writes|
  {
    s.(writes := s.writes[..k] + s.writes[k + 1..],
       sendReqs := Pushed(s.sendReqs, Cap(s), s.writes[k].request),
       sent := s.sent + [Sent(s.writes[k].order, ok, s.writes[k].taken)])
  }

  function HandleBeginNext(s: State): State
    requires s.cmdReady != []
  {
    s.(cmdReady := s.cmdReady[1..], io := Handling(s.cmdReady[0]))
  }

  /** The guard both link commands apply before touching a handle. */
  predicate Refused(s: State, target: nat) {
    target >= |s.links| || s.links[target].state != Open || s.links[target].handle == Ending
  }

  function HandleOpen(s: State, id: CmdId, reply: Reply): State
    requires SlotAtHand(s)
  {
    if !reply.handleOk || s.freeLinks == [] then s
    else if reply.connectOk then TakeSlot(s, New, Some(id))
    else
      var i := Last(s.freeLinks);
      SetLink(s, i, Link(s.links[i].id, New, Gone, None, 0, Some(id), None))
        .(freeLinks := Pushed(Front(s.freeLinks), s.n, i))
  }

  function HandleClose(s: State, id: CmdId, target: nat): State {
    if Refused(s, target) then s
    else Drop(s, target, Some(id))
  }

  function HandleSend(s: State, id: CmdId, target: nat, at: nat, len: nat, reply: Reply): State {
    if Refused(s, target) || s.sendReqs == [] then s
    else
      var r := Last(s.sendReqs);
      if reply.writeOk then
        s.(sendReqs := Front(s.sendReqs), writes := s.writes + [Write(r, target, id, |s.handled|, at, len, [])])
      else s.(sendReqs := Pushed(Front(s.sendReqs), Cap(s), r))
  }

  function Dispatch(s: State, cmd: Command, reply: Reply): State
    requires SlotAtHand(s)
  {
    match cmd
    case NoCommand => s
    case OpenCommand(id) => HandleOpen(s, id, reply)
    case CloseCommand(id, target) => HandleClose(s, id, target)
    case SendCommand(id, target, at, len) => HandleSend(s, id, target, at, len, reply)
  }

  function HandleEndNext(s: State, reply: Reply): State
    requires s.io.Handling? && s.io.command < |s.cmds| && SlotAtHand(s)
  {
    var c := s.io.command;
    Dispatch(s, s.cmds[c], reply)
      .(cmdFree := Pushed(s.cmdFree, Cap(s), c), handled := s.handled + [s.cmds[c]], io := Idle)
  }

  function AcquireNext(s: State): State {
    s.(updates := s.evReady, evReady := [], evRel := 0, bufRel := 0,
       seen := s.seen + Notes(s.events, s.data, s.evReady))
  }

  function ReleaseBufferNext(s: State): State
    requires s.bufRel < |s.updates| && s.updates[s.bufRel] < |s.events|
  {
    var e := s.updates[s.bufRel];
    s.(bufRel := s.bufRel + 1,
       poolRead := if s.events[e].ReadEvent?
                   then Pushed(s.poolRead, Cap(s), s.events[e].buffer) else s.poolRead)
  }

  function ReleaseEventNext(s: State): State
    requires s.evRel < |s.updates|
  {
    s.(evRel := s.evRel + 1, evFree := Pushed(s.evFree, Cap(s), s.updates[s.evRel]))
  }

  function CmdTakeNext(s: State, cmd: Command): State
    requires s.cmdFree != [] ==> s.cmdFree[0] < |s.cmds|
  {
    if s.cmdFree == [] then s
    else s.(cmdFree := s.cmdFree[1..], cmds := s.cmds[s.cmdFree[0] := cmd],
            cmdHand := Some(s.cmdFree[0]))
  }

  function CmdQueueNext(s: State): State
    requires s.cmdHand.Some? && s.cmdHand.value < |s.cmds|
  {
    var c := s.cmdHand.value;
    s.(cmdReady := Pushed(s.cmdReady, Cap(s), c), cmdHand := None,
       queued := if |s.cmdReady| < Cap(s) then s.queued + [s.cmds[c]] else s.queued,
       promises := if |s.cmdReady| < Cap(s) then s.promises + [Message(s.memory, s.cmds[c])] else s.promises)
  }

  /** Every object the step reaches through an index is one that exists. */
  predicate InBounds(s: State, step: Step) {
    match step
    case Accept(_) => SlotAtHand(s)
    case PublishOpen(_) => s.io.Opening? && s.io.slot < |s.links| && s.io.event < |s.events|
    case Alloc(i) =>
      i < |s.links| && BufferKnown(s, i) && (s.poolRead != [] ==> Last(s.poolRead) < |s.data|)
    case Receive(i, _) => i < |s.links| && s.links[i].buffer.Some? && BufferKnown(s, i)
    case PublishRead =>
      && s.io.Receiving? && s.io.slot < |s.links| && s.io.event < |s.events|
      && s.links[s.io.slot].buffer.Some? && s.links[s.io.slot].buffer.value < |s.data|
    case CloseTake => s.io.ClosingBare? && s.io.slot < |s.links|
    case PublishClose => s.io.ClosingWith? && s.io.slot < |s.links| && s.io.event < |s.events|
    case HandleEnd(_) => s.io.Handling? && s.io.command < |s.cmds| && SlotAtHand(s)
    case ReleaseBuffer => s.bufRel < |s.updates| && s.updates[s.bufRel] < |s.events|
    case ReleaseEvent => s.evRel < |s.updates|
    case CmdTake(_) => s.cmdFree != [] ==> s.cmdFree[0] < |s.cmds|
    case CmdQueue => s.cmdHand.Some? && s.cmdHand.value < |s.cmds|
    case _ => true
  }

  function Next(s: State, step: Step): State
    requires Enabled(s, step) && InBounds(s, step)
  {
    match step
    case Accept(fault) => AcceptNext(s, fault)
    case Connect(i, fault) => ConnectNext(s, i, fault)
    case PublishOpen(readFails) => PublishOpenNext(s, readFails)
    case Alloc(i) => AllocNext(s, i)
    case Receive(i, bytes) => ReceiveNext(s, i, bytes)
    case PublishRead => PublishReadNext(s)
    case Hangup(i) => Drop(s, i, None)
    case CloseBegin(i) => CloseBeginNext(s, i)
    case CloseTake => CloseTakeNext(s)
    case PublishClose => PublishCloseNext(s)
    case Transmit(k) => TransmitNext(s, k)
    case WriteDone(k, ok) => WriteDoneNext(s, k, ok)
    case HandleBegin => HandleBeginNext(s)
    case HandleEnd(reply) => HandleEndNext(s, reply)
    case Relaunch => s.(sendReqs := Upto(Cap(s)))
    case Acquire => AcquireNext(s)
    case ReleaseBuffer => ReleaseBufferNext(s)
    case ReleaseEvent => ReleaseEventNext(s)
    case CmdTake(cmd) => CmdTakeNext(s, cmd)
    case CmdQueue => CmdQueueNext(s)
    case Rewrite(at, byte) => s.(memory := s.memory[at := byte])
  }

  /** `t` is reached from `s` by taking `steps` in order. */
  predicate Reaches(s: State, steps: seq<Step>, t: State)
    decreases |steps|
  {
    if steps == [] then s == t
    else Enabled(s, steps[0]) && InBounds(s, steps[0]) && Reaches(Next(s, steps[0]), steps[1..], t)
  }
}
