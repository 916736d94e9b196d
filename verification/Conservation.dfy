/** Every step keeps every resource conserved. */
module Conservation {
  import opened Basics
  import opened Pools
  import opened ServiceModel
  import opened Ownership

  /** Four places: it does not matter which of them holds `m`. */
  lemma Shift(a: multiset<nat>, b: multiset<nat>, c: multiset<nat>, d: multiset<nat>, m: multiset<nat>)
    ensures (a + m) + b + c + d == a + (b + m) + c + d == a + b + (c + m) + d == a + b + c + (d + m)
  {
    Shift3(a, b, c, m);
    Shift3(a + b, c, d, m);
  }

  lemma Shift3(a: multiset<nat>, b: multiset<nat>, c: multiset<nat>, m: multiset<nat>)
    ensures (a + m) + b + c == a + (b + m) + c == a + b + (c + m)
  {
  }

  // ---- events ---------------------------------------------------------------------------------

  lemma EventTaken(s: State, t: State)
    requires EventsOnce(s) && s.evFree != [] && HandEvent(s.io) == multiset{}
    requires t.n == s.n && |t.events| == |s.events| && t.evReady == s.evReady
    requires t.updates == s.updates && t.evRel == s.evRel && t.bufRel == s.bufRel
    requires t.evFree == s.evFree[1..] && HandEvent(t.io) == multiset{s.evFree[0]}
    ensures EventsOnce(t)
  {
    PopFront(s.evFree);
    var e := multiset{s.evFree[0]};
    Shift(multiset(t.evFree), multiset(s.evReady), multiset(s.updates[s.evRel..]), multiset{}, e);
  }

  /** A ready push after a free pop always has room. */
  lemma ReadyHasRoom(s: State)
    requires EventsOnce(s) && HandEvent(s.io) != multiset{}
    ensures |s.evReady| < Cap(s)
  {
    AllCounts(Cap(s));
    CountSum(multiset(s.evFree), multiset(s.evReady), multiset(s.updates[s.evRel..]), HandEvent(s.io), 0);
  }

  lemma EventPublished(s: State, t: State, e: nat)
    requires EventsOnce(s) && HandEvent(s.io) == multiset{e}
    requires t.n == s.n && |t.events| == |s.events| && t.evFree == s.evFree
    requires t.updates == s.updates && t.evRel == s.evRel && t.bufRel == s.bufRel
    requires t.evReady == s.evReady + [e] && HandEvent(t.io) == multiset{}
    ensures EventsOnce(t)
  {
    Push(s.evReady, e);
    Shift(multiset(s.evFree), multiset(s.evReady), multiset(s.updates[s.evRel..]), multiset{}, multiset{e});
  }

  lemma EventsAcquired(s: State)
    requires EventsOnce(s) && s.evRel == |s.updates|
    ensures EventsOnce(AcquireNext(s))
  {
    var t := AcquireNext(s);
    assert s.updates[s.evRel..] == [] && t.updates[t.evRel..] == s.evReady;
    Shift(multiset(s.evFree), multiset{}, multiset{}, HandEvent(s.io), multiset(s.evReady));
  }

  /** The free list always has room for an event the main thread still holds. */
  lemma FreeHasRoom(s: State)
    requires EventsOnce(s) && s.evRel < |s.updates|
    ensures |s.evFree| < Cap(s)
  {
    AllCounts(Cap(s));
    CountSum(multiset(s.evFree), multiset(s.evReady), multiset(s.updates[s.evRel..]), HandEvent(s.io), 0);
  }

  lemma EventReleased(s: State)
    requires EventsOnce(s) && s.evRel < s.bufRel
    ensures EventsOnce(ReleaseEventNext(s))
  {
    var t := ReleaseEventNext(s);
    var e, rest := s.updates[s.evRel], s.updates[s.evRel + 1..];
    FreeHasRoom(s);
    assert t.evFree == s.evFree + [e] && t.updates[t.evRel..] == rest;
    assert multiset(t.evFree) == multiset(s.evFree) + multiset{e};
    assert multiset(s.updates[s.evRel..]) == multiset(rest) + multiset{e} by {
      assert s.updates[s.evRel..] == [e] + rest;
    }
    Shift(multiset(s.evFree), multiset(s.evReady), multiset(rest), HandEvent(s.io), multiset{e});
  }

  /** An event in hand is in no queue, and every listed event exists. */
  lemma EventInHand(s: State, e: nat)
    requires EventsOnce(s) && HandEvent(s.io) == multiset{e}
    ensures e < Cap(s) == |s.events| && e !in s.evReady && e !in s.updates[s.evRel..] && e !in s.updates[s.bufRel..]
  {
    AllCounts(Cap(s));
    var sum := multiset(s.evFree) + multiset(s.evReady) + multiset(s.updates[s.evRel..]) + HandEvent(s.io);
    CountSum(multiset(s.evFree), multiset(s.evReady), multiset(s.updates[s.evRel..]), HandEvent(s.io), e);
    assert e !in multiset(s.evReady) && e !in multiset(s.updates[s.evRel..]);
    assert s.updates[s.bufRel..] == s.updates[s.evRel..][s.bufRel - s.evRel..];
  }

  lemma EventsExist(s: State)
    requires EventsOnce(s)
    ensures forall e :: e in s.evFree || e in s.evReady || e in s.updates[s.evRel..] ==> e < Cap(s)
  {
    AllCounts(Cap(s));
    var sum := multiset(s.evFree) + multiset(s.evReady) + multiset(s.updates[s.evRel..]) + HandEvent(s.io);
    forall e | e in s.evFree || e in s.evReady || e in s.updates[s.evRel..] ensures e < Cap(s) {
      assert e in multiset(s.evFree) || e in multiset(s.evReady) || e in multiset(s.updates[s.evRel..]);
      assert sum[e] > 0;
    }
  }

  // ---- read buffers ---------------------------------------------------------------------------

  lemma BufferCount(s: State)
    requires BuffersOnce(s)
    ensures |s.data| == Cap(s)
  {
  }

  lemma BufferTaken(s: State, i: nat)
    requires BuffersOnce(s) && InBounds(s, Alloc(i))
    ensures BuffersOnce(AllocNext(s, i))
  {
    hide BuffersOnce, LinkBufs, EventBufs;
    var t := AllocNext(s, i);
    LinkBufsUpdate(s.links, i, t.links[i]);
    if t.links[i].buffer == s.links[i].buffer {
      CancelSum(LinkBufs(t.links), LinkBufs(s.links), Held(s.links[i].buffer));
      SameBuffers(s, t);
    } else {
      PopBack(s.poolRead);
      PoolToLink(s, t, Last(s.poolRead));
    }
  }

  lemma PoolToLink(s: State, t: State, b: nat)
    requires BuffersOnce(s) && t.n == s.n && |t.data| == |s.data|
    requires multiset(s.poolRead) == multiset(t.poolRead) + multiset{b}
    requires LinkBufs(t.links) == LinkBufs(s.links) + multiset{b}
    requires t.events == s.events && t.evReady == s.evReady && t.updates == s.updates && t.bufRel == s.bufRel
    ensures BuffersOnce(t)
  {
    Shift(multiset(t.poolRead), LinkBufs(s.links), EventBufs(s.events, s.evReady),
          EventBufs(s.events, s.updates[s.bufRel..]), multiset{b});
  }

  /** Writing an event in hand leaves the buffers of all the others alone. */
  lemma EventWritten(s: State, e: nat, x: Event)
    requires EventsOnce(s) && HandEvent(s.io) == multiset{e} && e < |s.events|
    ensures EventBufs(s.events[e := x], s.evReady) == EventBufs(s.events, s.evReady)
    ensures EventBufs(s.events[e := x], s.updates[s.bufRel..]) == EventBufs(s.events, s.updates[s.bufRel..])
  {
    EventInHand(s, e);
    EventBufsFrame(s.events, s.evReady, e, x);
    EventBufsFrame(s.events, s.updates[s.bufRel..], e, x);
  }

  lemma EventBufsPushed(events: seq<Event>, ids: seq<nat>, e: nat)
    requires e < |events|
    ensures EventBufs(events, ids + [e]) == EventBufs(events, ids) + EventBuf(events[e])
  {
    assert Front(ids + [e]) == ids;
  }

  /** Publishing an event that carries no buffer. */
  lemma BuffersPublished(s: State, t: State, e: nat, x: Event)
    requires BuffersOnce(s) && EventsOnce(s) && HandEvent(s.io) == multiset{e} && e < |s.events| && !x.ReadEvent?
    requires t.n == s.n && t.poolRead == s.poolRead && |t.data| == |s.data|
    requires LinkBufs(t.links) == LinkBufs(s.links)
    requires t.events == s.events[e := x] && t.evReady == s.evReady + [e]
    requires t.updates == s.updates && t.bufRel == s.bufRel
    ensures BuffersOnce(t)
  {
    EventWritten(s, e, x);
    EventBufsPushed(t.events, s.evReady, e);
  }

  lemma ReadPublished(s: State)
    requires InBounds(s, PublishRead) && BuffersOnce(s) && EventsOnce(s)
    ensures BuffersOnce(PublishReadNext(s))
  {
    hide LinkBufs, EventBufs, All, EventsOnce;
    var t := PublishReadNext(s);
    var i, e := s.io.slot, s.io.event;
    ReadyHasRoom(s);
    EventWritten(s, e, t.events[e]);
    EventBufsPushed(t.events, s.evReady, e);
    LinkBufsUpdate(s.links, i, t.links[i]);
    assert LinkBufs(s.links) == LinkBufs(t.links) + Held(s.links[i].buffer);
    Shift(multiset(s.poolRead), LinkBufs(t.links), EventBufs(s.events, s.evReady),
          EventBufs(s.events, s.updates[s.bufRel..]), Held(s.links[i].buffer));
  }

  /** The pool always has room for a buffer that is somewhere else. */
  lemma PoolHasRoom(s: State)
    requires BuffersOnce(s)
    requires LinkBufs(s.links) != multiset{} || EventBufs(s.events, s.updates[s.bufRel..]) != multiset{}
    ensures |s.poolRead| < Cap(s)
  {
    AllCounts(Cap(s));
    var l, r, u := LinkBufs(s.links), EventBufs(s.events, s.evReady), EventBufs(s.events, s.updates[s.bufRel..]);
    CountSum(multiset(s.poolRead), l, r, u, 0);
  }

  lemma BufferReturned(s: State, i: nat)
    requires BuffersOnce(s) && i < |s.links|
    ensures BuffersOnce(CloseBeginNext(s, i))
  {
    var t := CloseBeginNext(s, i);
    LinkBufsUpdate(s.links, i, t.links[i]);
    if s.links[i].buffer.Some? {
      LinkBufsMember(s.links, i);
      PoolHasRoom(s);
      Push(s.poolRead, s.links[i].buffer.value);
    }
    assert multiset(t.poolRead) == multiset(s.poolRead) + Held(s.links[i].buffer);
    assert LinkBufs(s.links) == LinkBufs(t.links) + Held(s.links[i].buffer);
    Shift(multiset(s.poolRead), LinkBufs(t.links), EventBufs(s.events, s.evReady),
          EventBufs(s.events, s.updates[s.bufRel..]), Held(s.links[i].buffer));
  }

  lemma BuffersAcquired(s: State)
    requires BuffersOnce(s) && s.bufRel == |s.updates|
    ensures BuffersOnce(AcquireNext(s))
  {
    var t := AcquireNext(s);
    assert s.updates[s.bufRel..] == [] && t.updates[t.bufRel..] == s.evReady;
    Shift(multiset(s.poolRead), LinkBufs(s.links), multiset{}, multiset{}, EventBufs(s.events, s.evReady));
  }

  lemma BufferReleased(s: State)
    requires BuffersOnce(s) && InBounds(s, ReleaseBuffer)
    ensures BuffersOnce(ReleaseBufferNext(s))
  {
    var t := ReleaseBufferNext(s);
    var held := s.updates[s.bufRel..];
    assert held[1..] == t.updates[t.bufRel..];
    EventBufsFirst(s.events, held);
    var e := s.events[held[0]];
    if e.ReadEvent? {
      PoolHasRoom(s);
      Push(s.poolRead, e.buffer);
    }
    Shift(multiset(s.poolRead), LinkBufs(s.links), EventBufs(s.events, s.evReady),
          EventBufs(s.events, held[1..]), EventBuf(e));
  }

  /** A buffer a link holds is referred to by no outstanding event and by no other link. */
  lemma BufferExclusive(s: State, i: nat)
    requires BuffersOnce(s) && i < |s.links| && s.links[i].buffer.Some?
    ensures var b := s.links[i].buffer.value;
            && b < Cap(s) && b !in s.poolRead
            && b !in EventBufs(s.events, s.evReady) && b !in EventBufs(s.events, s.updates[s.bufRel..])
    ensures forall j :: 0 <= j < |s.links| && j != i ==> s.links[j].buffer != s.links[i].buffer
  {
    var b := s.links[i].buffer.value;
    LinkBufsMember(s.links, i);
    AllCounts(Cap(s));
    var l, r, u := LinkBufs(s.links), EventBufs(s.events, s.evReady), EventBufs(s.events, s.updates[s.bufRel..]);
    var sum := multiset(s.poolRead) + l + r + u;
    CountSum(multiset(s.poolRead), l, r, u, b);
    assert b !in multiset(s.poolRead);
    forall j | 0 <= j < |s.links| && j != i ensures s.links[j].buffer != s.links[i].buffer {
      if s.links[j].buffer == s.links[i].buffer {
        LinkBufsTwice(s.links, if i < j then i else j, if i < j then j else i);
      }
    }
  }

  lemma PoolBufferLoose(s: State)
    requires BuffersOnce(s) && s.poolRead != []
    ensures var b := Last(s.poolRead);
            && b < Cap(s) && b !in LinkBufs(s.links)
            && b !in EventBufs(s.events, s.evReady) && b !in EventBufs(s.events, s.updates[s.bufRel..])
  {
    var b := Last(s.poolRead);
    AllCounts(Cap(s));
    var l, r, u := LinkBufs(s.links), EventBufs(s.events, s.evReady), EventBufs(s.events, s.updates[s.bufRel..]);
    var sum := multiset(s.poolRead) + l + r + u;
    CountSum(multiset(s.poolRead), l, r, u, b);
    assert b in multiset(s.poolRead);
  }

  // ---- slots ----------------------------------------------------------------------------------

  lemma FreeSlot(s: State, i: nat)
    requires SlotsOnce(s) && i in s.freeLinks
    ensures i < s.n && s.links[i].handle == Gone && i !in s.stranded && multiset(s.freeLinks)[i] == 1
  {
    AllCounts(s.n);
    var sum := multiset(s.freeLinks) + multiset(s.stranded) + Owned(s.links);
    assert i in multiset(s.freeLinks);
    assert sum[i] == multiset(s.freeLinks)[i] + multiset(s.stranded)[i] + Owned(s.links)[i];
    OwnedMember(s.links, i);
    assert i !in multiset(s.stranded);
  }

  lemma OwnedSlot(s: State, i: nat)
    requires SlotsOnce(s) && i < s.n && s.links[i].handle != Gone
    ensures i !in s.freeLinks && i !in s.stranded && |s.freeLinks| < s.n
  {
    AllCounts(s.n);
    var f, o := multiset(s.freeLinks), multiset(s.stranded);
    var sum := f + o + Owned(s.links);
    OwnedMember(s.links, i);
    assert sum[i] == f[i] + o[i] + Owned(s.links)[i];
    assert i !in f && i !in o;
    assert |sum| == |f| + |o| + |Owned(s.links)|;
  }

  lemma SlotTaken(s: State, state: LinkState, cmd: Option<CmdId>)
    requires SlotsOnce(s) && s.freeLinks != [] && SlotAtHand(s)
    ensures SlotsOnce(TakeSlot(s, state, cmd))
  {
    var t := TakeSlot(s, state, cmd);
    var i := Last(s.freeLinks);
    FreeSlot(s, i);
    PopBack(s.freeLinks);
    OwnedUpdate(s.links, i, t.links[i]);
    Shift3(multiset(t.freeLinks), multiset(s.stranded), Owned(s.links), multiset{i});
  }

  lemma SlotStranded(s: State)
    requires SlotsOnce(s) && InBounds(s, CloseTake) && s.links[s.io.slot].handle != Gone && s.evFree == []
    ensures SlotsOnce(CloseTakeNext(s))
  {
    var t := CloseTakeNext(s);
    var i := s.io.slot;
    OwnedUpdate(s.links, i, t.links[i]);
    Push(s.stranded, i);
    assert Owned(s.links) == Owned(t.links) + multiset{i};
    Shift3(multiset(s.freeLinks), multiset(s.stranded), Owned(t.links), multiset{i});
  }

  lemma SlotFreed(s: State)
    requires SlotsOnce(s) && InBounds(s, PublishClose) && s.links[s.io.slot].handle != Gone
    ensures SlotsOnce(PublishCloseNext(s))
  {
    var t := PublishCloseNext(s);
    var i := s.io.slot;
    OwnedSlot(s, i);
    OwnedUpdate(s.links, i, t.links[i]);
    Push(s.freeLinks, i);
    assert Owned(s.links) == Owned(t.links) + multiset{i};
    Shift3(multiset(s.freeLinks), multiset(s.stranded), Owned(t.links), multiset{i});
  }

  /** A handle may change in any way that leaves it live. */
  lemma SlotStays(s: State, i: nat, l: Link)
    requires SlotsOnce(s) && i < s.n && (s.links[i].handle == Gone <==> l.handle == Gone)
    ensures SlotsOnce(SetLink(s, i, l))
  {
    OwnedUpdate(s.links, i, l);
    CancelSum(Owned(s.links[i := l]), Owned(s.links), if l.handle == Gone then multiset{} else multiset{i});
  }

  // ---- commands -------------------------------------------------------------------------------

  lemma CommandCount(s: State, c: nat)
    requires CommandsOnce(s)
    ensures multiset(s.cmdFree)[c] + multiset(s.cmdReady)[c] + Held(s.cmdHand)[c] + HandCommand(s.io)[c]
            == if c < Cap(s) then 1 else 0
    ensures |s.cmdFree| + |s.cmdReady| + |Held(s.cmdHand)| + |HandCommand(s.io)| == Cap(s)
  {
    AllCounts(Cap(s));
    CountSum(multiset(s.cmdFree), multiset(s.cmdReady), Held(s.cmdHand), HandCommand(s.io), c);
  }

  lemma CommandsExist(s: State)
    requires CommandsOnce(s)
    ensures |s.cmds| == Cap(s)
    ensures s.cmdFree != [] ==> s.cmdFree[0] < Cap(s)
    ensures forall c :: c in s.cmdReady ==> c < Cap(s)
    ensures s.cmdHand.Some? ==> s.cmdHand.value < Cap(s) && s.cmdHand.value !in s.cmdReady && |s.cmdReady| < Cap(s)
    ensures s.io.Handling? ==> s.io.command < Cap(s) && |s.cmdFree| < Cap(s)
    ensures s.cmdFree != [] ==> s.cmdFree[0] !in s.cmdReady && (s.io.Handling? ==> s.cmdFree[0] != s.io.command)
  {
    assert |s.cmds| == Cap(s);
    hide CommandsOnce;
    forall c | c in s.cmdReady ensures c < Cap(s) {
      CommandCount(s, c);
      assert c in multiset(s.cmdReady);
    }
    if s.cmdHand.Some? {
      CommandCount(s, s.cmdHand.value);
      assert s.cmdHand.value !in multiset(s.cmdReady);
    }
    if s.io.Handling? {
      CommandCount(s, s.io.command);
    }
    if s.cmdFree != [] {
      CommandCount(s, s.cmdFree[0]);
      assert s.cmdFree[0] in multiset(s.cmdFree);
      assert s.cmdFree[0] !in multiset(s.cmdReady);
    }
  }

  lemma CommandTaken(s: State, cmd: Command)
    requires CommandsOnce(s) && InBounds(s, CmdTake(cmd)) && s.cmdHand == None
    ensures CommandsOnce(CmdTakeNext(s, cmd))
  {
    var t := CmdTakeNext(s, cmd);
    if s.cmdFree != [] {
      PopFront(s.cmdFree);
      Shift(multiset(t.cmdFree), multiset(s.cmdReady), multiset{}, HandCommand(s.io), multiset{s.cmdFree[0]});
    }
  }

  lemma CommandQueued(s: State)
    requires CommandsOnce(s) && InBounds(s, CmdQueue)
    ensures CommandsOnce(CmdQueueNext(s))
  {
    CommandsExist(s);
    Push(s.cmdReady, s.cmdHand.value);
    Shift(multiset(s.cmdFree), multiset(s.cmdReady), multiset{}, HandCommand(s.io), multiset{s.cmdHand.value});
  }

  lemma CommandStarted(s: State)
    requires CommandsOnce(s) && s.io == Idle && s.cmdReady != []
    ensures CommandsOnce(HandleBeginNext(s))
  {
    var t := HandleBeginNext(s);
    PopFront(s.cmdReady);
    Shift(multiset(s.cmdFree), multiset(t.cmdReady), Held(s.cmdHand), multiset{}, multiset{s.cmdReady[0]});
  }

  /** Whatever the handler did, the command goes back to the free list. */
  lemma CommandDone(s: State, t: State)
    requires CommandsOnce(s) && s.io.Handling?
    requires t.n == s.n && |t.cmds| == |s.cmds| && t.cmdReady == s.cmdReady && t.cmdHand == s.cmdHand
    requires t.io == Idle && t.cmdFree == Pushed(s.cmdFree, Cap(s), s.io.command)
    ensures CommandsOnce(t)
  {
    CommandsExist(s);
    Push(s.cmdFree, s.io.command);
    Shift(multiset(s.cmdFree), multiset(s.cmdReady), Held(s.cmdHand), multiset{}, multiset{s.io.command});
  }

  // ---- write requests -------------------------------------------------------------------------

  lemma RequestSent(s: State, id: CmdId, target: nat, at: nat, len: nat, reply: Reply)
    requires RequestsOnce(s)
    ensures RequestsOnce(HandleSend(s, id, target, at, len, reply))
  {
    if !Refused(s, target) && s.sendReqs != [] {
      hide Refused;
      var r := Last(s.sendReqs);
      if reply.writeOk {
        RequestAttached(s, Write(r, target, id, |s.handled|, at, len, []));
      } else {
        RequestListed(s);
        hide RequestsOnce;
        assert HandleSend(s, id, target, at, len, reply) == s;
      }
    }
  }

  lemma RequestAttached(s: State, w: Write)
    requires RequestsOnce(s) && s.sendReqs != [] && w.request == Last(s.sendReqs)
    ensures RequestsOnce(s.(sendReqs := Front(s.sendReqs), writes := s.writes + [w]))
  {
    PopBack(s.sendReqs);
    assert Front(s.writes + [w]) == s.writes;
    SwapSum(multiset(Front(s.sendReqs)), multiset{w.request}, Requests(s.writes));
  }

  /** A request just taken can be listed again. */
  lemma RequestListed(s: State)
    requires RequestsOnce(s) && s.sendReqs != []
    ensures Pushed(Front(s.sendReqs), Cap(s), Last(s.sendReqs)) == s.sendReqs
  {
    AllCounts(Cap(s));
    assert |multiset(s.sendReqs) + Requests(s.writes)| == |s.sendReqs| + |Requests(s.writes)|;
    assert |multiset(s.sendReqs)| == |s.sendReqs|;
  }

  lemma RequestKept(s: State, k: nat)
    requires RequestsOnce(s) && k < |s.writes|
    ensures RequestsOnce(TransmitNext(s, k))
  {
    RequestsUpdate(s.writes, k, TransmitNext(s, k).writes[k]);
  }

  lemma RequestReturned(s: State, k: nat, ok: bool)
    requires RequestsOnce(s) && k < |s.writes|
    ensures RequestsOnce(WriteDoneNext(s, k, ok)) && |s.sendReqs| < Cap(s)
  {
    var t := WriteDoneNext(s, k, ok);
    var r := s.writes[k].request;
    AllCounts(Cap(s));
    RequestsSize(s.writes);
    assert |multiset(s.sendReqs) + Requests(s.writes)| == |s.sendReqs| + |Requests(s.writes)|;
    RequestsRemove(s.writes, k);
    Push(s.sendReqs, r);
    Shift3(multiset(s.sendReqs), Requests(t.writes), multiset{}, multiset{r});
  }

  // ---- steps that leave a resource alone ------------------------------------------------------

  lemma SameEvents(s: State, t: State)
    requires EventsOnce(s) && t.n == s.n && |t.events| == |s.events|
    requires t.evFree == s.evFree && t.evReady == s.evReady && HandEvent(t.io) == HandEvent(s.io)
    requires t.updates == s.updates && t.evRel == s.evRel && t.bufRel == s.bufRel
    ensures EventsOnce(t)
  {
  }

  lemma SameBuffers(s: State, t: State)
    requires BuffersOnce(s) && t.n == s.n && |t.data| == |s.data| && t.poolRead == s.poolRead
    requires LinkBufs(t.links) == LinkBufs(s.links) && t.events == s.events
    requires t.evReady == s.evReady && t.updates == s.updates && t.bufRel == s.bufRel
    ensures BuffersOnce(t)
  {
  }

  lemma SameSlots(s: State, t: State)
    requires SlotsOnce(s) && t.n == s.n && t.links == s.links
    requires t.freeLinks == s.freeLinks && t.stranded == s.stranded
    ensures SlotsOnce(t)
  {
  }

  lemma SameCommands(s: State, t: State)
    requires CommandsOnce(s) && t.n == s.n && |t.cmds| == |s.cmds| && t.cmdFree == s.cmdFree
    requires t.cmdReady == s.cmdReady && t.cmdHand == s.cmdHand && HandCommand(t.io) == HandCommand(s.io)
    ensures CommandsOnce(t)
  {
  }

  lemma SameRequests(s: State, t: State)
    requires RequestsOnce(s) && t.n == s.n && t.sendReqs == s.sendReqs && t.writes == s.writes
    ensures RequestsOnce(t)
  {
  }
}
