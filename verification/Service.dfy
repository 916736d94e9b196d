/** The service object itself: the callbacks and API calls as the code performs them, field by field.
    Beside its fields it keeps, as ghost state, the run of the step system it has gone through; `Valid`
    says that the fields are those of the state that run has reached. Every method keeps `Valid`, so
    everything proved of runs holds of the object. */
module ServiceObject {
  import opened Basics
  import opened Pools
  import opened ServiceModel
  import opened Ownership
  import opened Conservation
  import opened Theorems
  import opened Effects

  /** What the read callback is handed: an error, nothing, or bytes. */
  datatype Nread = Failed | Nothing | Got(bytes: seq<Byte>)

  class Service {
    const n: nat                     // client_count_max
    var links: seq<Link>             // link_list.client_map
    var freeLinks: seq<nat>          // link_list.client_list_free
    var poolRead: seq<nat>
    var data: seq<seq<Byte>>
    var evFree: seq<nat>
    var evReady: seq<nat>
    var events: seq<Event>
    var updates: seq<nat>            // event_updates[..event_updates_count]
    var cmdFree: seq<nat>
    var cmdReady: seq<nat>
    var cmds: seq<Command>
    var sendReqs: seq<nat>
    ghost var writes: seq<Write>     // what libuv holds: no field of the program lists it

    /** The abstract state: these fields, and what no field of the program records, namely the point
        each thread has reached, the caller's memory and the histories. */
    ghost var view: State

    /** The steps taken since setup. */
    ghost var steps: seq<Step>

    /** The fields are those of `s`. */
    ghost predicate Shows(s: State)
      reads this
    {
      && s.n == n && s.links == links && s.freeLinks == freeLinks
      && s.poolRead == poolRead && s.data == data
      && s.evFree == evFree && s.evReady == evReady && s.events == events && s.updates == updates
      && s.cmdFree == cmdFree && s.cmdReady == cmdReady && s.cmds == cmds
      && s.sendReqs == sendReqs && s.writes == writes
    }

    ghost predicate Valid()
      reads this
    {
      Shows(view) && Reached(n, steps, view)
    }

    /** The next section of a callback or call is done: the run grows by its step. */
    ghost method Take(step: Step)
      requires Reached(n, steps, view) && Enabled(view, step)
      modifies this`view, this`steps
      ensures InBounds(old(view), step) && view == Next(old(view), step) && steps == old(steps) + [step]
      ensures Reached(n, steps, view)
    {
      var t := TakeStep(n, steps, view, step);
      view, steps := t, steps + [step];
    }

    /** Every object the next section reaches through an index exists. */
    lemma InReach(step: Step)
      requires Valid() && Enabled(view, step)
      ensures InBounds(view, step)
    {
      hide Reached;
      var _ := TakeStep(n, steps, view, step);
    }

    /** A queue is never full when something is about to be pushed. */
    lemma QueueRoom()
      requires Valid()
      ensures view.io.Opening? || view.io.Receiving? || view.io.ClosingWith? ==> |evReady| < 4 * n
      ensures view.io.ClosingWith? ==> |freeLinks| < n
      ensures view.io.Handling? ==> |cmdFree| < 4 * n
      ensures view.cmdHand.Some? ==> |cmdReady| < 4 * n
      ensures writes != [] ==> |sendReqs| < 4 * n
      ensures view.evRel < |updates| ==> |evFree| < 4 * n
    {
      hide Reached;
      PushesNeverFail(n, steps, view);
    }

    /** Nor is the pool when a link or a held event gives its buffer back. */
    lemma PoolRoom(i: nat)
      requires Valid()
      ensures i < |links| && links[i].buffer.Some? ==> |poolRead| < 4 * n
      ensures view.bufRel < |updates| && updates[view.bufRel] < |events| && events[updates[view.bufRel]].ReadEvent?
              ==> |poolRead| < 4 * n
    {
      hide Reached;
      PushesNeverFail(n, steps, view);
    }

    /** A slot's id is its index. */
    lemma Id(i: nat)
      requires Valid() && i < |links|
      ensures links[i].id == i
    {
      hide Reached;
      ReachedInv(n, steps, view);
    }

    // ---- setup --------------------------------------------------------------------------------

    constructor (maxClients: nat)
      ensures Valid() && view == Init(maxClients) && n == maxClients && steps == []
    {
      n := maxClients;
      poolRead, data := Upto(4 * maxClients), seq(4 * maxClients, _ => []);
      evFree, evReady, events, updates := Upto(4 * maxClients), [], seq(4 * maxClients, _ => Blank), [];
      cmdFree, cmdReady, cmds := Upto(4 * maxClients), [], seq(4 * maxClients, _ => NoCommand);
      links, freeLinks, sendReqs, writes := [], [], [], [];
      view, steps := Init(maxClients), [];
      new;
      SetupLinks();
      SetupRequests();
      assert links == view.links;
    }

    method SetupLinks()
      requires links == [] && freeLinks == []
      modifies this`links, this`freeLinks
      ensures freeLinks == Upto(n)
      ensures |links| == n && forall i :: 0 <= i < n ==> links[i] == Link(i, New, Gone, None, 0, None, None)
    {
      var i := 0;
      while i < n
        invariant i <= n && |links| == i && freeLinks == Upto(i)
        invariant forall k :: 0 <= k < i ==> links[k] == Link(k, New, Gone, None, 0, None, None)
      {
        links := links + [Link(i, New, Gone, None, 0, None, None)];
        freeLinks := freeLinks + [i];
        i := i + 1;
      }
    }

    method SetupRequests()
      modifies this`sendReqs
      ensures sendReqs == Upto(4 * n)
    {
      sendReqs := [];
      var i := 0;
      while i < 4 * n
        invariant i <= 4 * n && sendReqs == Upto(i)
      {
        sendReqs := sendReqs + [i];
        i := i + 1;
      }
    }

    /** A new IO thread, after the last one's loop ended, lists every write request anew. */
    method StartIo()
      requires Valid() && view.io == Idle && LoopDone(view)
      modifies this
      ensures Valid() && sendReqs == Upto(4 * n) && view == old(view).(sendReqs := sendReqs)
    {
      hide Reached;
      SetupRequests();
      Take(Relaunch);
    }

    // ---- small operations several callbacks share -----------------------------------------------

    /** Calls `uv_close` on the handle of slot `i`, on account of a close command or of none. */
    method CloseHandle(i: nat, cause: Option<CmdId>)
      requires i < |links|
      modifies this`links
      ensures links == old(links)[i := DroppedLink(old(links)[i], cause)]
    {
      var l := links[i];
      if cause.Some? {
        l := l.(cmdClose := cause);
      }
      links := links[i := l.(state := Closing, handle := Ending, offer := 0)];
    }

    /** `svl_link_list_open`, and the fields both its users set. */
    method OpenLink(state: LinkState, cmd: Option<CmdId>) returns (i: nat)
      requires freeLinks != [] && Last(freeLinks) < |links|
      modifies this`links, this`freeLinks
      ensures i == Last(old(freeLinks)) && freeLinks == Front(old(freeLinks))
      ensures links == old(links)[i := Link(old(links)[i].id, state, Pending, None, 0, cmd, None)]
    {
      i := Last(freeLinks);
      freeLinks := Front(freeLinks);
      links := links[i := Link(links[i].id, state, Pending, None, 0, cmd, None)];
    }

    /** Fills event `e` and queues it for the main thread. */
    method PushReady(e: nat, x: Event) returns (ok: bool)
      requires e < |events|
      modifies this`events, this`evReady
      ensures events == old(events)[e := x]
      ensures ok == (|old(evReady)| < 4 * n) && evReady == Pushed(old(evReady), 4 * n, e)
    {
      events := events[e := x];
      ok := |evReady| < 4 * n;
      if ok {
        evReady := evReady + [e];
      }
    }

    /** Pops a free event, if there is one. */
    method PopEvent() returns (evt: Option<nat>)
      modifies this`evFree
      ensures if old(evFree) == [] then evt == None && evFree == old(evFree)
              else evt == Some(old(evFree)[0]) && evFree == old(evFree)[1..]
    {
      if evFree == [] {
        return None;
      }
      evt := Some(evFree[0]);
      evFree := evFree[1..];
    }

    // ---- opening --------------------------------------------------------------------------------

    /** Without a free slot nothing happens. Otherwise the most recently freed slot is taken, and either its
        open is reported and it is read from, or it is being closed: because the connection is at fault, no
        event was free, or reading could not be started. (The `None` of the open note stands for a field
        nobody sets.) */
    method OnInboundConnection(fault: bool, readFails: bool)
      requires Valid() && view.io == Idle
      modifies this
      ensures Valid() && view.io == Idle
      ensures old(freeLinks) == [] ==> view == old(view)
      ensures old(freeLinks) != [] ==>
                var i, told := Last(old(freeLinks)), !fault && old(evFree) != [];
                && i < |links| && freeLinks == Front(old(freeLinks))
                && view.log == old(view.log) + (if told then [Opened(i, None)] else [])
                && links[i].state == (if told && !readFails then Open else Closing)
                && links[i].handle == (if told && !readFails then Reading else Ending)
                && links[i].cmdClose == None
    {
      hide Reached, Next, Enabled, InBounds;
      ConnectionAccepted(view, fault);
      InReach(Accept(fault));
      if freeLinks != [] {
        Id(Last(freeLinks));
      }
      if freeLinks == [] {
        Take(Accept(fault));
        return;
      }
      var i, evt := Accepted(fault);
      if evt.Some? {
        ReportOpen(i, evt.value, readFails);
      }
    }

    /** The first half: a slot is taken, and an event for it unless the connection is at fault. */
    method Accepted(fault: bool) returns (i: nat, evt: Option<nat>)
      requires Valid() && view.io == Idle && freeLinks != []
      modifies this
      ensures Valid() && i == Last(old(freeLinks)) && freeLinks == Front(old(freeLinks)) && view.log == old(view.log)
      ensures evt == if fault || old(evFree) == [] then None else Some(old(evFree)[0])
      ensures view.io == if evt.Some? then Opening(i, evt.value) else Idle
      ensures i < |old(links)|
      ensures var l := Link(old(links)[i].id, Open, Pending, None, 0, None, None);
              links == old(links)[i := if evt.Some? then l else DroppedLink(l, None)]
    {
      hide Reached, Next, Enabled, InBounds;
      ConnectionAccepted(view, fault);
      InReach(Accept(fault));
      i := OpenLink(Open, None);
      evt := None;
      if !fault {
        evt := PopEvent();
      }
      if evt == None {
        CloseHandle(i, None);
      }
      Take(Accept(fault));
    }

    /** An outbound connection came up or failed; its open event names the command that asked for it. */
    method OnOutboundConnection(i: nat, fault: bool, readFails: bool)
      requires Valid() && Enabled(view, Connect(i, fault))
      modifies this
      ensures Valid() && view.io == Idle && i < |links|
      ensures var told := !fault && old(evFree) != [];
              && view.log == old(view.log) + (if told then [Opened(i, old(links)[i].cmdOpen)] else [])
              && links[i].state == (if told && !readFails then Open else Closing)
              && links[i].handle == (if told && !readFails then Reading else Ending)
              && links[i].cmdClose == old(links)[i].cmdClose
    {
      hide Reached;
      ConnectionMade(view, i, fault);
      hide Next, Enabled, InBounds;
      var evt := None;
      if !fault {
        evt := PopEvent();
      }
      if evt == None {
        CloseHandle(i, None);
      }
      Take(Connect(i, fault));
      if evt.Some? {
        ReportOpen(i, evt.value, readFails);
      }
    }

    /** The second half of both: the push never fails, so the open is always reported. */
    method ReportOpen(i: nat, e: nat, readFails: bool)
      requires Valid() && view.io == Opening(i, e)
      modifies this
      ensures Valid() && view.io == Idle && i < |old(links)| && freeLinks == old(freeLinks)
      ensures view.log == old(view.log) + [Opened(i, old(links)[i].cmdOpen)]
      ensures var l := old(links)[i].(state := Open, handle := Reading);
              links == old(links)[i := if readFails then DroppedLink(l, None) else l]
    {
      hide Reached, Next, Enabled, InBounds;
      OpenPublished(view, readFails);
      InReach(PublishOpen(readFails));
      Id(i);
      QueueRoom();
      var ok := PushReady(e, OpenEvent(links[i].id, links[i].cmdOpen));
      if ok {
        links := links[i := links[i].(state := Open, handle := Reading)];
      }
      if !ok || readFails {
        CloseHandle(i, None);
      }
      Take(PublishOpen(readFails));
    }

    // ---- receiving ------------------------------------------------------------------------------

    /** Offers exactly the room left in the link's buffer, or nothing when it has none and the pool is
        empty. */
    method OnRecvAlloc(i: nat) returns (offered: nat)
      requires Valid() && Enabled(view, Alloc(i))
      modifies this
      ensures Valid() && view.io == Idle && i < |links| && links[i].offer == offered
      ensures links[i].buffer == None <==> old(links)[i].buffer == None && old(poolRead) == []
      ensures links[i].buffer == None ==> offered == 0
      ensures links[i].buffer.Some? ==>
                links[i].buffer.value < |data| && |data[links[i].buffer.value]| + offered == MAX_RECV
    {
      hide Reached;
      InReach(Alloc(i));
      RoomOffered(view, i);
      hide Next, Enabled, InBounds;
      var l := links[i];
      if l.buffer == None && poolRead != [] {
        var b := Last(poolRead);
        poolRead := Front(poolRead);
        data := data[b := []];
        l := l.(buffer := Some(b));
      }
      offered := if l.buffer == None then 0 else Room(data[l.buffer.value]);
      links := links[i := l.(offer := offered)];
      Take(Alloc(i));
      Bounded();
    }

    lemma Bounded()
      requires Valid()
      ensures forall b :: 0 <= b < |data| ==> |data[b]| <= MAX_RECV
    {
      hide Reached;
      ReachedInv(n, steps, view);
    }

    /** An error closes the link. Bytes are appended to the link's buffer; if an event is free, everything
        the buffer holds is reported and the link lets the buffer go, otherwise it keeps collecting. */
    method OnRecv(i: nat, nread: Nread)
      requires Valid() && view.io == Idle && i < |links| && links[i].handle == Reading
      requires nread.Got? ==> 0 < |nread.bytes| <= links[i].offer
      modifies this
      ensures Valid() && view.io == Idle
      ensures nread == Nothing ==> view == old(view)
      ensures nread == Failed ==>
                view.log == old(view.log) && links == old(links)[i := DroppedLink(old(links)[i], None)]
      ensures nread.Got? ==> old(links)[i].buffer.Some? && old(links)[i].buffer.value < |old(data)|
      ensures nread.Got? ==>
                var b := old(links)[i].buffer.value;
                && data == old(data)[b := old(data)[b] + nread.bytes]
                && view.log == old(view.log) + (if old(evFree) == [] then [] else [Bytes(i, data[b])])
                && var kept := if old(evFree) == [] then Some(b) else None;
                   links == old(links)[i := old(links)[i].(buffer := kept, offer := 0)]
    {
      hide Reached;
      match nread
      case Nothing =>
      case Failed =>
        CloseHandle(i, None);
        Take(Hangup(i));
      case Got(bytes) => Received(i, bytes);
    }

    method Received(i: nat, bytes: seq<Byte>)
      requires Valid() && view.io == Idle && CanReceive(view, i, bytes)
      modifies this
      ensures Valid() && view.io == Idle
      ensures old(links)[i].buffer.Some? && old(links)[i].buffer.value < |old(data)|
      ensures var b := old(links)[i].buffer.value;
              && data == old(data)[b := old(data)[b] + bytes]
              && view.log == old(view.log) + (if old(evFree) == [] then [] else [Bytes(i, data[b])])
              && var kept := if old(evFree) == [] then Some(b) else None;
                 links == old(links)[i := old(links)[i].(buffer := kept, offer := 0)]
    {
      hide Reached, Next, Enabled, InBounds;
      BytesReceived(view, i, bytes);
      Fits(i, bytes);
      var b := links[i].buffer.value;
      links := links[i := links[i].(offer := 0)];
      var fits := |bytes| <= Room(data[b]);
      var evt := None;
      if fits {
        data := data[b := data[b] + bytes];
        evt := PopEvent();
      }
      Take(Receive(i, bytes));
      if evt.Some? {
        ReportRead(i, evt.value);
      }
    }

    lemma Fits(i: nat, bytes: seq<Byte>)
      requires Valid() && view.io == Idle && CanReceive(view, i, bytes)
      ensures InBounds(view, Receive(i, bytes)) && |bytes| <= Room(data[links[i].buffer.value])
    {
      hide Reached;
      ArrivalsFit(n, steps, view, i, bytes);
    }

    method ReportRead(i: nat, e: nat)
      requires Valid() && view.io == Receiving(i, e)
      modifies this
      ensures Valid() && view.io == Idle && data == old(data)
      ensures i < |old(links)| && old(links)[i].buffer.Some? && old(links)[i].buffer.value < |data|
      ensures links == old(links)[i := old(links)[i].(buffer := None)]
      ensures view.log == old(view.log) + [Bytes(i, data[old(links)[i].buffer.value])]
    {
      hide Reached, Next, Enabled, InBounds;
      ReadPublishedAs(view);
      InReach(PublishRead);
      Id(i);
      QueueRoom();
      var b := links[i].buffer.value;
      var ok := PushReady(e, ReadEvent(links[i].id, b, |data[b]|));
      if ok {
        links := links[i := links[i].(buffer := None)];
      }
      Take(PublishRead);
    }

    // ---- closing --------------------------------------------------------------------------------

    /** The link is CLOSED and its buffer back in the pool. If an event was free, the close is reported with
        the command on the link and the slot is free again; otherwise nothing is reported and the slot is
        stranded. */
    method OnCloseLink(i: nat)
      requires Valid() && Enabled(view, CloseBegin(i))
      modifies this
      ensures Valid() && view.io == Idle
      ensures links == old(links)[i := old(links)[i].(state := Closed, handle := Gone, buffer := None)]
      ensures poolRead == old(poolRead) + (if old(links)[i].buffer.Some? then [old(links)[i].buffer.value] else [])
      ensures if old(evFree) != []
              then && view.log == old(view.log) + [Ended(i, old(links)[i].cmdClose)]
                   && freeLinks == old(freeLinks) + [i] && view.stranded == old(view.stranded)
              else view.log == old(view.log) && freeLinks == old(freeLinks) && view.stranded == old(view.stranded) + [i]
    {
      hide Reached;
      CloseBegun(view, i);
      hide Next, Enabled, InBounds;
      PoolRoom(i);
      var buffer := links[i].buffer;
      links := links[i := links[i].(state := Closed, buffer := None)];
      if buffer.Some? && |poolRead| < 4 * n {
        poolRead := poolRead + [buffer.value];
      }
      Take(CloseBegin(i));
      FinishClose(i);
    }

    method FinishClose(i: nat)
      requires Valid() && view.io == ClosingBare(i) && i < |links|
      modifies this
      ensures Valid() && view.io == Idle && poolRead == old(poolRead)
      ensures links == old(links)[i := old(links)[i].(handle := Gone)]
      ensures if old(evFree) != []
              then && view.log == old(view.log) + [Ended(i, old(links)[i].cmdClose)]
                   && freeLinks == old(freeLinks) + [i] && view.stranded == old(view.stranded)
              else view.log == old(view.log) && freeLinks == old(freeLinks) && view.stranded == old(view.stranded) + [i]
    {
      hide Reached;
      var evt := PopEvent();
      if evt == None {
        links := links[i := links[i].(handle := Gone)];
      }
      Take(CloseTake);
      if evt.Some? {
        ReportClose(i, evt.value);
      }
    }

    method ReportClose(i: nat, e: nat)
      requires Valid() && view.io == ClosingWith(i, e)
      modifies this
      ensures Valid() && view.io == Idle && poolRead == old(poolRead) && i < |old(links)|
      ensures links == old(links)[i := old(links)[i].(handle := Gone)]
      ensures view.log == old(view.log) + [Ended(i, old(links)[i].cmdClose)]
      ensures freeLinks == old(freeLinks) + [i] && view.stranded == old(view.stranded)
    {
      hide Reached, Next, Enabled, InBounds;
      ClosePublished(view);
      InReach(PublishClose);
      Id(i);
      QueueRoom();
      var _ := PushReady(e, CloseEvent(links[i].id, links[i].cmdClose));
      if |freeLinks| < n {
        freeLinks := freeLinks + [i];
      }
      links := links[i := links[i].(handle := Gone)];
      Take(PublishClose);
    }

    // ---- writing --------------------------------------------------------------------------------

    /** The write of a request is over: the request is listed again, and the history says what was sent. */
    method OnSend(request: nat, ok: bool, ghost k: nat)
      requires Valid() && Enabled(view, WriteDone(k, ok)) && request == writes[k].request
      modifies this
      ensures Valid() && view.io == Idle
      ensures writes == old(writes)[..k] + old(writes)[k + 1..]
      ensures sendReqs == old(sendReqs) + [request]
      ensures view.sent == old(view.sent) + [Sent(old(writes)[k].order, ok, old(writes)[k].taken)]
    {
      hide Reached;
      QueueRoom();
      if |sendReqs| < 4 * n {
        sendReqs := sendReqs + [request];
      }
      writes := writes[..k] + writes[k + 1..];
      Take(WriteDone(k, ok));
    }

    // What the environment does between callbacks; it keeps the run, and so `Valid`, going.

    /** libuv takes one more byte of a write from the caller's memory. */
    ghost method ByteTaken(k: nat)
      requires Valid() && Enabled(view, Transmit(k))
      modifies this`writes, this`view, this`steps
      ensures Valid() && view.memory == old(view.memory)
      ensures var w := old(writes)[k];
              writes == old(writes)[k := w.(taken := w.taken + [At(view.memory, w.at + |w.taken|)])]
    {
      hide Reached;
      Take(Transmit(k));
      writes := view.writes;
    }

    /** The caller writes a byte of its own memory. */
    ghost method MemoryRewritten(at: nat, byte: Byte)
      requires Valid()
      modifies this`view, this`steps
      ensures Valid() && view == old(view).(memory := old(view).memory[at := byte])
    {
      hide Reached;
      Take(Rewrite(at, byte));
    }

    // ---- commands -------------------------------------------------------------------------------

    /** `svl_link_list_get` and the guard of the close and send handlers. */
    method Refuses(ghost s: State, target: nat) returns (refused: bool)
      requires Shows(s)
      ensures refused == Refused(s, target)
    {
      if target >= |links| {
        return true;
      }
      refused := links[target].state != Open || links[target].handle == Ending;
    }

    method HandleCmdOpen(ghost s: State, id: CmdId, reply: Reply)
      requires Shows(s) && SlotAtHand(s)
      modifies this`links, this`freeLinks
      ensures Shows(HandleOpen(s, id, reply))
    {
      if reply.handleOk && freeLinks != [] {
        var i := OpenLink(New, Some(id));
        if !reply.connectOk {
          if |freeLinks| < n {
            freeLinks := freeLinks + [i];
          }
          links := links[i := links[i].(handle := Gone)];
        }
      }
    }

    method HandleCmdClose(ghost s: State, id: CmdId, target: nat)
      requires Shows(s)
      modifies this`links
      ensures Shows(HandleClose(s, id, target))
    {
      var refused := Refuses(s, target);
      if !refused {
        CloseHandle(target, Some(id));
      }
    }

    method HandleCmdSend(ghost s: State, id: CmdId, target: nat, at: nat, len: nat, reply: Reply)
      requires Shows(s)
      modifies this`sendReqs, this`writes
      ensures Shows(HandleSend(s, id, target, at, len, reply))
    {
      var refused := Refuses(s, target);
      if !refused && sendReqs != [] {
        var r := Last(sendReqs);
        sendReqs := Front(sendReqs);
        if reply.writeOk {
          writes := writes + [Write(r, target, id, |s.handled|, at, len, [])];
        } else if |sendReqs| < 4 * n {
          sendReqs := sendReqs + [r];
        }
      }
    }

    /** One turn of the check callback's loop: the command handled is the next in the order of queueing, and
        whichever branch its handler takes, it is free again afterwards. What a send, close or open changed,
        and when it changed nothing, is `Done`. */
    method HandleOne(reply: Reply)
      requires Valid() && view.io == Idle && cmdReady != []
      modifies this
      ensures Valid() && view.io == Idle && cmdReady == old(cmdReady)[1..]
      ensures cmdFree == old(cmdFree) + [old(cmdReady)[0]]
      ensures |old(view.handled)| < |view.queued|
      ensures view.handled == old(view.handled) + [view.queued[|old(view.handled)|]]
      ensures view.queued == old(view.queued) && view.cmdHand == old(view.cmdHand)
      ensures Done(old(view), view, view.queued[|old(view.handled)|], reply)
    {
      hide Reached, Next, Enabled, InBounds, Done;
      NextInLine();
      HandleBegun(view);
      var c := cmdReady[0];
      cmdReady := cmdReady[1..];
      Take(HandleBegin);
      DoneFrom(old(view), view, cmds[c], reply);
      CommandHandled(view, reply);
      InReach(HandleEnd(reply));
      QueueRoom();
      Dispatched(c, reply);
    }

    /** What handling the command in hand changes. */
    lemma HandlingDoes(reply: Reply)
      requires Valid() && view.io.Handling?
      ensures view.io.command < |cmds| && Enabled(view, HandleEnd(reply)) && InBounds(view, HandleEnd(reply))
      ensures Done(view, Next(view, HandleEnd(reply)), cmds[view.io.command], reply)
    {
      hide Reached, Done, Next, Enabled, InBounds;
      CommandTakesEffect(n, steps, view, reply);
    }

    lemma NextInLine()
      requires Valid() && view.io == Idle && cmdReady != []
      ensures cmdReady[0] < |cmds| && |view.handled| < |view.queued|
      ensures view.queued[|view.handled|] == cmds[cmdReady[0]]
    {
      hide Reached;
      ReachedInv(n, steps, view);
      NextCommand(view);
    }

    method Handle(ghost s: State, cmd: Command, reply: Reply)
      requires Shows(s) && SlotAtHand(s)
      modifies this`links, this`freeLinks, this`sendReqs, this`writes
      ensures Shows(Dispatch(s, cmd, reply))
    {
      hide Shows, HandleOpen, HandleClose, HandleSend;
      match cmd {
        case NoCommand =>
        case OpenCommand(id) => HandleCmdOpen(s, id, reply);
        case CloseCommand(id, target) => HandleCmdClose(s, id, target);
        case SendCommand(id, target, at, len) => HandleCmdSend(s, id, target, at, len, reply);
      }
    }

    method Dispatched(c: nat, reply: Reply)
      requires Valid() && view.io == Handling(c) && InBounds(view, HandleEnd(reply)) && |cmdFree| < 4 * n
      modifies this
      ensures Valid() && view.io == Idle && cmdReady == old(cmdReady) && cmdFree == old(cmdFree) + [c]
      ensures view.handled == old(view.handled) + [old(cmds)[c]]
      ensures view.queued == old(view.queued) && view.cmdHand == old(view.cmdHand)
      ensures Done(old(view), view, old(cmds)[c], reply)
    {
      hide Reached, Next, Enabled, InBounds, Done;
      HandlingDoes(reply);
      CommandHandled(view, reply);
      hide Dispatch;
      ghost var s := view;
      Handle(s, cmds[c], reply);
      DispatchFrame(s, s.cmds[c], reply);
      if |cmdFree| < 4 * n {
        cmdFree := cmdFree + [c];
      }
      Take(HandleEnd(reply));
    }

    /** The check callback: handles ready commands until there are none, the ones the main thread queues
        after turn k, `meanwhile[k]`, included. Then everything ever queued has been handled. */
    method OnCheck(replies: nat -> Reply, meanwhile: seq<seq<Command>>)
      requires Valid() && view.io == Idle && view.cmdHand == None
      requires forall k, m :: 0 <= k < |meanwhile| && 0 <= m < |meanwhile[k]| ==> meanwhile[k][m] != NoCommand
      modifies this
      ensures Valid() && view.io == Idle && view.cmdHand == None && cmdReady == []
      ensures old(view.queued) <= view.queued == view.handled
    {
      hide Reached, Shows;
      var k := 0;
      while cmdReady != []
        invariant Valid() && view.io == Idle && view.cmdHand == None && old(view.queued) <= view.queued
        decreases if k < |meanwhile| then |meanwhile| - k else 0, |cmdReady|
      {
        HandleOne(replies(k));
        if k < |meanwhile| {
          SubmitAll(meanwhile[k]);
        }
        k := k + 1;
      }
      CheckDone();
    }

    lemma CheckDone()
      requires Valid() && view.io == Idle && cmdReady == []
      ensures view.queued == view.handled
    {
      hide Reached;
      CommandsInOrder(n, steps, view);
    }

    // ---- the main thread ------------------------------------------------------------------------

    /** `svl_service_cmd_open`, `_close` and `_send`: refused unless the service is STARTED and a command is
        free. A send is queued with its pointer; what it points at now is on record as promised. */
    method Submit(cmd: Command, started: bool) returns (ok: bool)
      requires Valid() && view.cmdHand == None && cmd != NoCommand
      modifies this
      ensures Valid() && view.cmdHand == None && view.io == old(view.io)
      ensures ok <==> started && old(cmdFree) != []
      ensures !ok ==> view == old(view)
      ensures ok ==> && view.queued == old(view.queued) + [cmd] && view.handled == old(view.handled)
                     && view.promises == old(view.promises) + [Message(view.memory, cmd)]
    {
      hide Reached;
      ok := started && cmdFree != [];
      if ok {
        InReach(CmdTake(cmd));
        var c := cmdFree[0];
        cmdFree := cmdFree[1..];
        cmds := cmds[c := cmd];
        Take(CmdTake(cmd));
        QueueRoom();
        if |cmdReady| < 4 * n {
          cmdReady := cmdReady + [c];
        }
        Take(CmdQueue);
      }
    }

    method SubmitAll(list: seq<Command>)
      requires Valid() && view.cmdHand == None && NoCommand !in list
      modifies this
      ensures Valid() && view.cmdHand == None && view.io == old(view.io) && old(view.queued) <= view.queued
    {
      hide Reached, Shows;
      for k := 0 to |list|
        invariant Valid() && view.cmdHand == None && view.io == old(view.io) && old(view.queued) <= view.queued
      {
        var _ := Submit(list[k], true);
      }
    }

    /** Everything queued so far has now been seen, in order, and nothing twice. */
    method EventsAcquire() returns (ok: bool)
      requires Valid() && view.evRel == |updates|
      modifies this
      ensures Valid() && updates == old(evReady) && evReady == [] && view.evRel == view.bufRel == 0
      ensures view.seen == view.log == old(view.log)
      ensures ok <==> updates != []
    {
      hide Reached;
      AllSeen();
      updates, evReady := evReady, [];
      ok := updates != [];
      Take(Acquire);
    }

    lemma AllSeen()
      requires Valid()
      ensures view.log == view.seen + Notes(events, data, evReady)
    {
      hide Reached;
      SeenIsPrefixOfLog(n, steps, view);
    }

    /** Gives back exactly the events of the batch and exactly the buffers of its read events. */
    method EventsRelease()
      requires Valid() && view.evRel == view.bufRel == 0
      modifies this
      ensures Valid() && view.evRel == view.bufRel == |updates| && updates == old(updates)
      ensures multiset(evFree) == old(multiset(evFree)) + multiset(updates)
      ensures multiset(poolRead) == old(multiset(poolRead)) + EventBufs(events, updates)
      ensures events == old(events) && data == old(data) && links == old(links) && evReady == old(evReady)
    {
      hide Reached, Shows, EventBuf, EventBufs;
      var i := 0;
      NoneGiven(multiset(evFree), multiset(poolRead), events, updates);
      while i < |updates|
        invariant Valid() && i <= |updates| == |old(updates)| && view.evRel == view.bufRel == i
        invariant updates == old(updates) && events == old(events)
        invariant data == old(data) && links == old(links) && evReady == old(evReady)
        invariant multiset(evFree) == old(multiset(evFree)) + multiset(updates[..i])
        invariant multiset(poolRead) == old(multiset(poolRead)) + EventBufs(events, updates[..i])
      {
        ghost var pool, free := multiset(poolRead), evFree;
        ReleaseOne(i);
        OneMoreGiven(old(multiset(evFree)), free, updates, i);
        OneMoreBuffer(old(multiset(poolRead)), pool, events, updates, i);
        i := i + 1;
      }
      assert updates[..i] == updates;
    }

    /** One turn of the release loop: both pushes find room. */
    method ReleaseOne(i: nat)
      requires Valid() && view.evRel == view.bufRel == i < |updates|
      modifies this
      ensures Valid() && view.evRel == view.bufRel == i + 1 && updates == old(updates) && updates[i] < |events|
      ensures evFree == old(evFree) + [updates[i]]
      ensures multiset(poolRead) == old(multiset(poolRead)) + EventBuf(events[updates[i]])
      ensures events == old(events) && data == old(data) && links == old(links) && evReady == old(evReady)
    {
      ReleaseBuffer(i);
      ReleaseEvent(i);
    }

    method ReleaseBuffer(i: nat)
      requires Valid() && view.evRel == view.bufRel == i < |updates|
      modifies this
      ensures Valid() && view.evRel == i && view.bufRel == i + 1 && updates == old(updates) && updates[i] < |events|
      ensures multiset(poolRead) == old(multiset(poolRead)) + EventBuf(events[updates[i]])
      ensures events == old(events) && data == old(data) && links == old(links) && evReady == old(evReady)
      ensures evFree == old(evFree)
    {
      hide Reached, Next, Enabled, InBounds;
      BufferGiven(view);
      InReach(Step.ReleaseBuffer);
      PoolRoom(0);
      match events[updates[i]] {
        case ReadEvent(_, b, _) =>
          if |poolRead| < 4 * n {
            poolRead := poolRead + [b];
          }
        case _ =>
      }
      Take(Step.ReleaseBuffer);
    }

    method ReleaseEvent(i: nat)
      requires Valid() && view.evRel == i && view.bufRel == i + 1 && i < |updates|
      modifies this
      ensures Valid() && view.evRel == view.bufRel == i + 1 && updates == old(updates)
      ensures evFree == old(evFree) + [updates[i]] && poolRead == old(poolRead)
      ensures events == old(events) && data == old(data) && links == old(links) && evReady == old(evReady)
    {
      hide Reached;
      QueueRoom();
      if |evFree| < 4 * n {
        evFree := evFree + [updates[i]];
      }
      Take(Step.ReleaseEvent);
    }
  }

  // What has been given back after some turns of the release loop.

  lemma NoneGiven(free: multiset<nat>, pool: multiset<nat>, events: seq<Event>, ids: seq<nat>)
    ensures free + multiset(ids[..0]) == free && pool + EventBufs(events, ids[..0]) == pool
  {
    assert ids[..0] == [];
  }

  lemma OneMoreGiven(was: multiset<nat>, free: seq<nat>, ids: seq<nat>, i: nat)
    requires i < |ids| && multiset(free) == was + multiset(ids[..i])
    ensures multiset(free + [ids[i]]) == was + multiset(ids[..i + 1])
  {
    assert ids[..i + 1] == ids[..i] + [ids[i]];
    assert multiset(free + [ids[i]]) == multiset(free) + multiset{ids[i]};
  }

  lemma OneMoreBuffer(was: multiset<nat>, pool: multiset<nat>, events: seq<Event>, ids: seq<nat>, i: nat)
    requires i < |ids| && ids[i] < |events| && pool == was + EventBufs(events, ids[..i])
    ensures pool + EventBuf(events[ids[i]]) == was + EventBufs(events, ids[..i + 1])
  {
    hide EventBufs, EventBuf;
    assert ids[..i + 1] == ids[..i] + [ids[i]];
    EventBufsPushed(events, ids[..i], ids[i]);
  }

  // What taking a step means, for the steps of the larger callbacks.

  lemma ClosePublished(s: State)
    requires s.io.ClosingWith?
    ensures Enabled(s, PublishClose)
    ensures InBounds(s, PublishClose) ==> s.io.slot < |s.links| && s.io.event < |s.events|
    ensures InBounds(s, PublishClose) && |s.evReady| < Cap(s) && |s.freeLinks| < s.n ==>
              var i, e := s.io.slot, s.io.event;
              var l := s.links[i];
              Next(s, PublishClose) ==
                s.(links := s.links[i := l.(handle := Gone)], freeLinks := s.freeLinks + [i],
                   events := s.events[e := CloseEvent(l.id, l.cmdClose)], evReady := s.evReady + [e],
                   log := s.log + [Ended(l.id, l.cmdClose)], io := Idle)
  {
  }

  lemma OpenPublished(s: State, readFails: bool)
    requires s.io.Opening?
    ensures Enabled(s, PublishOpen(readFails))
    ensures InBounds(s, PublishOpen(readFails)) ==> s.io.slot < |s.links| && s.io.event < |s.events|
    ensures InBounds(s, PublishOpen(readFails)) && |s.evReady| < Cap(s) ==>
              var i, e := s.io.slot, s.io.event;
              var l := s.links[i].(state := Open, handle := Reading);
              Next(s, PublishOpen(readFails)) ==
                s.(links := s.links[i := if readFails then DroppedLink(l, None) else l],
                   events := s.events[e := OpenEvent(l.id, l.cmdOpen)], evReady := s.evReady + [e],
                   log := s.log + [Opened(l.id, l.cmdOpen)], io := Idle,
                   wire := s.wire + if readFails then [Dropping(l.id, None)] else [])
  {
  }

  lemma ReadPublishedAs(s: State)
    requires s.io.Receiving?
    ensures Enabled(s, PublishRead)
    ensures InBounds(s, PublishRead) ==>
              && s.io.slot < |s.links| && s.io.event < |s.events|
              && s.links[s.io.slot].buffer.Some? && s.links[s.io.slot].buffer.value < |s.data|
    ensures InBounds(s, PublishRead) && |s.evReady| < Cap(s) ==>
              var i, e := s.io.slot, s.io.event;
              var l := s.links[i];
              var b := l.buffer.value;
              Next(s, PublishRead) ==
                s.(links := s.links[i := l.(buffer := None)], events := s.events[e := ReadEvent(l.id, b, |s.data[b]|)],
                   evReady := s.evReady + [e], log := s.log + [Bytes(l.id, s.data[b])], io := Idle)
  {
  }

  lemma RoomOffered(s: State, i: nat)
    requires Enabled(s, Alloc(i)) && InBounds(s, Alloc(i))
    ensures s.io == Idle && i < |s.links| && BufferKnown(s, i) && (s.poolRead != [] ==> Last(s.poolRead) < |s.data|)
    ensures Next(s, Alloc(i)) == AllocNext(s, i)
  {
  }

  lemma CloseBegun(s: State, i: nat)
    requires Enabled(s, CloseBegin(i))
    ensures i < |s.links| && InBounds(s, CloseBegin(i)) && Next(s, CloseBegin(i)) == CloseBeginNext(s, i)
  {
  }

  lemma HandleBegun(s: State)
    requires s.io == Idle && s.cmdReady != []
    ensures Enabled(s, HandleBegin) && InBounds(s, HandleBegin) && Next(s, HandleBegin) == HandleBeginNext(s)
  {
  }

  lemma BufferGiven(s: State)
    requires s.bufRel == s.evRel < |s.updates|
    ensures Enabled(s, ReleaseBuffer)
    ensures InBounds(s, ReleaseBuffer) ==>
              s.updates[s.bufRel] < |s.events| && Next(s, ReleaseBuffer) == ReleaseBufferNext(s)
  {
  }

  lemma ConnectionAccepted(s: State, fault: bool)
    requires s.io == Idle
    ensures Enabled(s, Accept(fault))
    ensures InBounds(s, Accept(fault)) ==> SlotAtHand(s)
    ensures InBounds(s, Accept(fault)) && s.freeLinks == [] ==> Next(s, Accept(fault)) == s
    ensures InBounds(s, Accept(fault)) && s.freeLinks != [] ==>
              var i, told := Last(s.freeLinks), !fault && s.evFree != [];
              var l := Link(s.links[i].id, Open, Pending, None, 0, None, None);
              Next(s, Accept(fault)) ==
                s.(links := s.links[i := if told then l else DroppedLink(l, None)], freeLinks := Front(s.freeLinks),
                   evFree := if told then s.evFree[1..] else s.evFree,
                   io := if told then Opening(i, s.evFree[0]) else Idle,
                   wire := s.wire + [Began(l.id, None)] + if told then [] else [Dropping(l.id, None)])
  {
  }

  lemma ConnectionMade(s: State, i: nat, fault: bool)
    requires Enabled(s, Connect(i, fault))
    ensures s.io == Idle && i < |s.links| && InBounds(s, Connect(i, fault))
    ensures Next(s, Connect(i, fault)) == ConnectNext(s, i, fault)
  {
  }

  lemma BytesReceived(s: State, i: nat, bytes: seq<Byte>)
    requires s.io == Idle && CanReceive(s, i, bytes)
    ensures Enabled(s, Receive(i, bytes))
    ensures InBounds(s, Receive(i, bytes)) ==> s.links[i].buffer.Some? && s.links[i].buffer.value < |s.data|
    ensures InBounds(s, Receive(i, bytes)) && |bytes| <= Room(s.data[s.links[i].buffer.value]) ==>
              var b := s.links[i].buffer.value;
              Next(s, Receive(i, bytes)) ==
                s.(links := s.links[i := s.links[i].(offer := 0)], data := s.data[b := s.data[b] + bytes],
                   evFree := if s.evFree == [] then [] else s.evFree[1..],
                   io := if s.evFree == [] then Idle else Receiving(i, s.evFree[0]),
                   wire := s.wire + [Arrived(s.links[i].id, bytes)])
  {
  }

  lemma CommandHandled(s: State, reply: Reply)
    requires s.io.Handling?
    ensures Enabled(s, HandleEnd(reply))
    ensures InBounds(s, HandleEnd(reply)) ==>
              && s.io.command < |s.cmds| && SlotAtHand(s)
              && var c := s.io.command;
                 Next(s, HandleEnd(reply)) ==
                   Dispatch(s, s.cmds[c], reply)
                     .(cmdFree := Pushed(s.cmdFree, Cap(s), c), handled := s.handled + [s.cmds[c]], io := Idle)
  {
    hide Dispatch, Pushed;
  }

  /** Popping the command first makes no difference to what handling it does. */
  lemma DoneFrom(s: State, m: State, cmd: Command, reply: Reply)
    requires m.links == s.links && m.freeLinks == s.freeLinks && m.wire == s.wire
    requires m.writes == s.writes && m.sendReqs == s.sendReqs && m.handled == s.handled
    ensures forall t :: Done(m, t, cmd, reply) ==> Done(s, t, cmd, reply)
  {
  }

  /** No handler touches the command queues or the cursors of the main thread. */
  lemma DispatchFrame(s: State, cmd: Command, reply: Reply)
    requires SlotAtHand(s)
    ensures var t := Dispatch(s, cmd, reply);
            && t.n == s.n && t.io == s.io && t.cmdFree == s.cmdFree && t.cmdReady == s.cmdReady && t.cmds == s.cmds
            && t.cmdHand == s.cmdHand && t.queued == s.queued && t.handled == s.handled
  {
    hide Pushed, Refused;
  }
}
