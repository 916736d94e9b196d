/** Who owns what. Each resource of the service is conserved: the multiset sum of the places its
    objects can be in is always `All`, so every object is in exactly one place. */
module Ownership {
  import opened Basics
  import opened Pools
  import opened ServiceModel

  // ---- where objects are ----------------------------------------------------------------------

  function Held(o: Option<nat>): multiset<nat> {
    if o.Some? then multiset{o.value} else multiset{}
  }

  /** The read buffers the links hold. */
  function LinkBufs(links: seq<Link>): multiset<nat> {
    if links == [] then multiset{} else LinkBufs(Front(links)) + Held(Last(links).buffer)
  }

  function EventBuf(e: Event): multiset<nat> {
    if e.ReadEvent? then multiset{e.buffer} else multiset{}
  }

  function BufAt(events: seq<Event>, e: nat): multiset<nat> {
    if e < |events| then EventBuf(events[e]) else multiset{}
  }

  /** The read buffers the listed events refer to. */
  function EventBufs(events: seq<Event>, ids: seq<nat>): multiset<nat> {
    if ids == [] then multiset{} else EventBufs(events, Front(ids)) + BufAt(events, Last(ids))
  }

  function Owner(l: Link, i: nat): multiset<nat> {
    if l.handle == Gone then multiset{} else multiset{i}
  }

  /** The slots a live handle owns. */
  function Owned(links: seq<Link>): multiset<nat> {
    if links == [] then multiset{} else Owned(Front(links)) + Owner(Last(links), |links| - 1)
  }

  function Requests(writes: seq<Write>): multiset<nat> {
    if writes == [] then multiset{} else Requests(Front(writes)) + multiset{Last(writes).request}
  }

  function HandEvent(io: IoPoint): multiset<nat> {
    match io
    case Opening(_, e) => multiset{e}
    case Receiving(_, e) => multiset{e}
    case ClosingWith(_, e) => multiset{e}
    case _ => multiset{}
  }

  function HandCommand(io: IoPoint): multiset<nat> {
    if io.Handling? then multiset{io.command} else multiset{}
  }

  // ---- the laws -------------------------------------------------------------------------------

  /** Each event object is free, ready, acquired and not yet given back, or in a callback's hand. */
  predicate EventsOnce(s: State) {
    && |s.events| == Cap(s)
    && s.evRel <= s.bufRel <= |s.updates| && s.bufRel <= s.evRel + 1
    && multiset(s.evFree) + multiset(s.evReady) + multiset(s.updates[s.evRel..]) + HandEvent(s.io)
       == All(Cap(s))
  }

  /** Each read buffer is in the pool, with one link, or with one outstanding read event. */
  predicate BuffersOnce(s: State) {
    && |s.data| == Cap(s) && s.bufRel <= |s.updates|
    && multiset(s.poolRead) + LinkBufs(s.links) + EventBufs(s.events, s.evReady)
       + EventBufs(s.events, s.updates[s.bufRel..])
       == All(Cap(s))
  }

  /** Each slot is listed free, stranded, or owned by one handle. */
  predicate SlotsOnce(s: State) {
    && |s.links| == s.n
    && multiset(s.freeLinks) + multiset(s.stranded) + Owned(s.links) == All(s.n)
  }

  /** Each command is free, being filled, ready, or being handled. */
  predicate CommandsOnce(s: State) {
    && |s.cmds| == Cap(s)
    && multiset(s.cmdFree) + multiset(s.cmdReady) + Held(s.cmdHand) + HandCommand(s.io) == All(Cap(s))
  }

  /** Each write request is listed, or attached to one pending write. */
  predicate RequestsOnce(s: State) {
    multiset(s.sendReqs) + Requests(s.writes) == All(Cap(s))
  }

  // ---- sums under update ----------------------------------------------------------------------

  lemma {:induction false} LinkBufsUpdate(links: seq<Link>, i: nat, l: Link)
    requires i < |links|
    ensures LinkBufs(links[i := l]) + Held(links[i].buffer) == LinkBufs(links) + Held(l.buffer)
  {
    hide Held;
    var next, was, now := links[i := l], Held(links[i].buffer), Held(l.buffer);
    if i == |links| - 1 {
      assert Front(next) == Front(links);
      SwapSum(LinkBufs(Front(links)), was, now);
    } else {
      LinkBufsUpdate(Front(links), i, l);
      assert Front(next) == Front(links)[i := l];
      SwapSum(LinkBufs(Front(next)), Held(Last(links).buffer), was);
      SwapSum(LinkBufs(Front(links)), Held(Last(links).buffer), now);
    }
  }

  lemma {:induction false} OwnedUpdate(links: seq<Link>, i: nat, l: Link)
    requires i < |links|
    ensures Owned(links[i := l]) + Owner(links[i], i) == Owned(links) + Owner(l, i)
  {
    hide Owner;
    var next, was, now := links[i := l], Owner(links[i], i), Owner(l, i);
    if i == |links| - 1 {
      assert Front(next) == Front(links);
      SwapSum(Owned(Front(links)), was, now);
    } else {
      OwnedUpdate(Front(links), i, l);
      assert Front(next) == Front(links)[i := l];
      var last := Owner(Last(links), |links| - 1);
      SwapSum(Owned(Front(next)), last, was);
      SwapSum(Owned(Front(links)), last, now);
    }
  }

  lemma {:induction false} OwnedMember(links: seq<Link>, i: nat)
    requires i < |links|
    ensures i in Owned(links) <==> links[i].handle != Gone
  {
    OwnedBound(Front(links));
    if i < |links| - 1 {
      OwnedMember(Front(links), i);
    }
  }

  lemma {:induction false} OwnedBound(links: seq<Link>)
    ensures forall x :: x in Owned(links) ==> x < |links|
  {
    if links != [] {
      OwnedBound(Front(links));
    }
  }

  lemma {:induction false} LinkBufsMember(links: seq<Link>, i: nat)
    requires i < |links| && links[i].buffer.Some?
    ensures links[i].buffer.value in LinkBufs(links)
  {
    if i < |links| - 1 {
      LinkBufsMember(Front(links), i);
    }
  }

  /** Two links never share a buffer that is counted once. */
  lemma {:induction false} LinkBufsTwice(links: seq<Link>, i: nat, j: nat)
    requires i < j < |links| && links[i].buffer.Some? && links[i].buffer == links[j].buffer
    ensures LinkBufs(links)[links[i].buffer.value] >= 2
  {
    if j == |links| - 1 {
      LinkBufsMember(Front(links), i);
    } else {
      LinkBufsTwice(Front(links), i, j);
    }
  }

  lemma {:induction false} LinkBufsSize(links: seq<Link>)
    ensures |LinkBufs(links)| <= |links|
    ensures (exists i :: 0 <= i < |links| && links[i].buffer == None) ==> |LinkBufs(links)| < |links|
  {
    if links != [] {
      LinkBufsSize(Front(links));
      if i :| 0 <= i < |links| && links[i].buffer == None {
        if i < |links| - 1 {
          assert Front(links)[i].buffer == None;
        }
      }
    }
  }

  lemma {:induction false} EventBufsMember(events: seq<Event>, ids: seq<nat>, k: nat)
    requires k < |ids| && ids[k] < |events| && events[ids[k]].ReadEvent?
    ensures events[ids[k]].buffer in EventBufs(events, ids)
  {
    if k < |ids| - 1 {
      EventBufsMember(events, Front(ids), k);
    }
  }

  lemma {:induction false} EventBufsFrame(events: seq<Event>, ids: seq<nat>, e: nat, x: Event)
    requires e < |events| && e !in ids
    ensures EventBufs(events[e := x], ids) == EventBufs(events, ids)
  {
    if ids != [] {
      assert Last(ids) in ids;
      assert BufAt(events[e := x], Last(ids)) == BufAt(events, Last(ids));
      hide BufAt;
      EventBufsFrame(events, Front(ids), e, x);
    }
  }

  lemma {:induction false} EventBufsFirst(events: seq<Event>, ids: seq<nat>)
    requires ids != []
    ensures EventBufs(events, ids) == EventBufs(events, ids[1..]) + BufAt(events, ids[0])
  {
    hide BufAt;
    if |ids| > 1 {
      EventBufsFirst(events, Front(ids));
      assert Front(ids)[1..] == Front(ids[1..]) && Last(ids[1..]) == Last(ids);
      SwapSum(EventBufs(events, Front(ids[1..])), BufAt(events, ids[0]), BufAt(events, Last(ids)));
    } else {
      assert Front(ids) == [] == ids[1..];
    }
  }

  lemma {:induction false} RequestsConcat(a: seq<Write>, b: seq<Write>)
    ensures Requests(a + b) == Requests(a) + Requests(b)
  {
    if b == [] {
      assert a + b == a;
    } else {
      RequestsConcat(a, Front(b));
      assert Front(a + b) == a + Front(b) && Last(a + b) == Last(b);
    }
  }

  lemma RequestsOne(w: Write)
    ensures Requests([w]) == multiset{w.request}
  {
    assert Front([w]) == [];
  }

  lemma RequestsRemove(writes: seq<Write>, k: nat)
    requires k < |writes|
    ensures Requests(writes) == Requests(writes[..k] + writes[k + 1..]) + multiset{writes[k].request}
  {
    hide Requests;
    var before, w, after := writes[..k], writes[k], writes[k + 1..];
    assert writes == before + [w] + after;
    RequestsConcat(before + [w], after);
    RequestsConcat(before, [w]);
    RequestsConcat(before, after);
    RequestsOne(w);
    SwapSum(Requests(before), multiset{w.request}, Requests(after));
  }

  /** A write keeps its request while bytes are taken for it. */
  lemma {:induction false} RequestsUpdate(writes: seq<Write>, k: nat, w: Write)
    requires k < |writes| && w.request == writes[k].request
    ensures Requests(writes[k := w]) == Requests(writes)
  {
    if k == |writes| - 1 {
      assert Front(writes[k := w]) == Front(writes);
    } else {
      RequestsUpdate(Front(writes), k, w);
      assert Front(writes[k := w]) == Front(writes)[k := w];
    }
  }

  lemma {:induction false} RequestsSize(writes: seq<Write>)
    ensures |Requests(writes)| == |writes|
  {
    if writes != [] {
      RequestsSize(Front(writes));
    }
  }
}
