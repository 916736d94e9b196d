/** The contract of acquire and release: what a batch gives back, and when calling them is safe. */
module Batches {
  import opened Pools
  import opened ServiceModel
  import opened Ownership
  import opened Conservation
  import opened Invariant
  import opened Steps
  import opened Theorems

  lemma HeldKnown(s: State)
    requires EventsOnce(s)
    ensures s.bufRel <= |s.updates| && |s.events| == Cap(s)
    ensures forall k :: s.evRel <= k < |s.updates| ==> s.updates[k] < |s.events|
  {
    EventsExist(s);
    forall k | s.evRel <= k < |s.updates| ensures s.updates[k] < |s.events| {
      assert s.updates[k] == s.updates[s.evRel..][k - s.evRel];
      assert s.updates[k] in s.updates[s.evRel..];
    }
  }

  predicate Releasable(s: State) {
    && s.evRel == s.bufRel <= |s.updates|
    && forall k :: s.evRel <= k < |s.updates| ==> s.updates[k] < |s.events|
  }

  /** One turn of the release loop. */
  function ReleaseOne(s: State): State
    requires Releasable(s) && s.evRel < |s.updates|
  {
    ReleaseEventNext(ReleaseBufferNext(s))
  }

  /** The release loop, from wherever its cursors stand. */
  function ReleaseRest(s: State): State
    requires Releasable(s)
    decreases |s.updates| - s.evRel
  {
    if s.evRel == |s.updates| then s else ReleaseRest(ReleaseOne(s))
  }

  lemma ReleaseOneKeeps(s: State, m: State, t: State)
    requires s.evRel == s.bufRel < |s.updates| && s.updates[s.bufRel] < |s.events|
    requires m == ReleaseBufferNext(s) && t == ReleaseEventNext(m)
    requires Inv(s)
    ensures Inv(t)
  {
    hide Inv;
    StepKeeps(s, ReleaseBuffer, m);
    StepKeeps(m, ReleaseEvent, t);
  }

  /** Releasing a batch gives every event and buffer of it back and keeps the invariant. */
  lemma {:induction false} ReleaseKeeps(s: State)
    requires Releasable(s)
    requires Inv(s)
    ensures var t := ReleaseRest(s);
            && Inv(t) && t.evRel == t.bufRel == |t.updates| && t.updates == s.updates
            && multiset(t.evFree) == multiset(s.evFree) + multiset(s.updates[s.evRel..])
            && multiset(t.poolRead) == multiset(s.poolRead) + EventBufs(s.events, s.updates[s.bufRel..])
            && t.evReady == s.evReady && t.links == s.links && t.events == s.events && t.data == s.data
    decreases |s.updates| - s.evRel
  {
    hide Inv, EventBufs;
    if s.evRel == |s.updates| {
      assert s.updates[s.evRel..] == [];
      NoBufs(s.events);
      assert multiset(s.poolRead) + multiset{} == multiset(s.poolRead);
    } else {
      var m := ReleaseBufferNext(s);
      var u := ReleaseOne(s);
      ReleaseOneKeeps(s, m, u);
      ReleaseKeeps(u);
      InvParts(s);
      FreeHasRoom(s);
      ReleaseOneMoves(s, u);
    }
  }

  lemma NoBufs(events: seq<Event>)
    ensures EventBufs(events, []) == multiset{}
  {
  }

  /** What one turn moves: the event to the free list, its buffer if any to the pool. */
  lemma ReleaseOneMoves(s: State, u: State)
    requires Releasable(s) && s.evRel < |s.updates| && u == ReleaseOne(s)
    requires |s.evFree| < Cap(s) && BuffersOnce(s)
    ensures multiset(u.evFree) + multiset(u.updates[u.evRel..]) == multiset(s.evFree) + multiset(s.updates[s.evRel..])
    ensures multiset(u.poolRead) + EventBufs(u.events, u.updates[u.bufRel..])
            == multiset(s.poolRead) + EventBufs(s.events, s.updates[s.bufRel..])
  {
    EventMoves(s, u);
    BufferMoves(s, u);
  }

  lemma EventMoves(s: State, u: State)
    requires Releasable(s) && s.evRel < |s.updates| && u == ReleaseOne(s) && |s.evFree| < Cap(s)
    ensures multiset(u.evFree) + multiset(u.updates[u.evRel..]) == multiset(s.evFree) + multiset(s.updates[s.evRel..])
  {
    var held := s.updates[s.evRel..];
    assert held[1..] == u.updates[u.evRel..];
    PopFront(held);
    Push(s.evFree, held[0]);
    SwapSum(multiset(s.evFree), multiset{held[0]}, multiset(held[1..]));
  }

  lemma BufferMoves(s: State, u: State)
    requires Releasable(s) && s.evRel < |s.updates| && u == ReleaseOne(s) && BuffersOnce(s)
    ensures multiset(u.poolRead) + EventBufs(u.events, u.updates[u.bufRel..])
            == multiset(s.poolRead) + EventBufs(s.events, s.updates[s.bufRel..])
  {
    hide LinkBufs, All;
    var held := s.updates[s.bufRel..];
    var e := s.events[held[0]];
    assert held[1..] == u.updates[u.bufRel..];
    EventBufsFirst(s.events, held);
    if e.ReadEvent? {
      PoolHasRoom(s);
      Push(s.poolRead, e.buffer);
    }
    hide BuffersOnce, EventBufs;
    assert multiset(u.poolRead) == multiset(s.poolRead) + EventBuf(e);
    SwapSum(multiset(s.poolRead), EventBuf(e), EventBufs(s.events, held[1..]));
  }

  /** Acquire conserves events and buffers exactly when the previous batch has been given back: it would
      overwrite the record of any event still held. */
  lemma AcquireConservesExactly(n: nat, steps: seq<Step>, s: State)
    requires Reached(n, steps, s)
    ensures EventsOnce(AcquireNext(s)) && BuffersOnce(AcquireNext(s)) <==> s.evRel == |s.updates|
  {
    hide Inv;
    ReachedInv(n, steps, s);
    InvParts(s);
    if s.evRel == |s.updates| {
      EventsAcquired(s);
      BuffersAcquired(s);
    } else if EventsOnce(AcquireNext(s)) {
      FreeSize(s);
      FreeSize(AcquireNext(s));
      assert false;
    }
  }

  /** What `svl_service_events_release` does: it walks the whole batch, because the count is not
      zeroed by an earlier release. */
  function ReleaseCall(s: State): State
    requires forall k :: 0 <= k < |s.updates| ==> s.updates[k] < |s.events|
  {
    ReleaseRest(s.(evRel := 0, bufRel := 0))
  }

  lemma {:induction false} ReleaseSizes(s: State)
    requires Releasable(s) && |s.evFree| <= Cap(s)
    ensures var t, total := ReleaseRest(s), |s.evFree| + |s.updates| - s.evRel;
            && t.n == s.n && t.evReady == s.evReady && t.io == s.io && t.updates == s.updates
            && t.evRel == |t.updates| == t.bufRel && |t.events| == |s.events|
            && |t.evFree| == (if total <= Cap(s) then total else Cap(s))
            && (|s.evFree| == Cap(s) ==> t.evFree == s.evFree)
    decreases |s.updates| - s.evRel
  {
    if s.evRel < |s.updates| {
      ReleaseSizes(ReleaseOne(s));
    }
  }

  lemma {:induction false} BatchKnown(s: State, steps: seq<Step>, t: State)
    requires Reaches(s, steps, t) && (forall e :: e in s.updates ==> e < Cap(s))
    requires Inv(s)
    ensures forall e :: e in t.updates ==> e < Cap(s)
    decreases |steps|
  {
    hide Inv, EventsOnce, Next, Enabled, InBounds;
    if steps != [] {
      var m := Next(s, steps[0]);
      StepKeeps(s, steps[0], m);
      BatchMoves(s, steps[0], m);
      InvParts(s);
      EventsExist(s);
      BatchKnown(m, steps[1..], t);
    }
  }

  /** Release is only safe once per acquire. Called when the batch is wholly held or wholly given back,
      it conserves the events exactly when the batch is still held (or empty) or the free list is full,
      and the buffers exactly when it is still held, the pool is full, or no event of the batch carries
      one; so it conserves both exactly when every duplicate is refused. */
  lemma ReleaseConservesExactly(n: nat, steps: seq<Step>, s: State)
    requires Reached(n, steps, s) && s.evRel == s.bufRel && (s.evRel == 0 || s.evRel == |s.updates|)
    ensures forall k :: 0 <= k < |s.updates| ==> s.updates[k] < |s.events|
    ensures EventsOnce(ReleaseCall(s)) <==> s.evRel == 0 || |s.evFree| == 4 * n
    ensures BuffersOnce(ReleaseCall(s)) <==> s.evRel == 0 || |s.poolRead| == 4 * n || NoReads(s, 0)
  {
    hide Inv, ReleaseCall, EventsOnce, BuffersOnce, SlotsOnce, CommandsOnce, RequestsOnce;
    hide LinksOk, RoomOk, WritesOk, LogOk, PipelineOk, TracesOk, OpenIsReading;
    ReachedInv(n, steps, s);
    SameN(Init(n), steps, s);
    InitKeeps(n);
    BatchKnown(Init(n), steps, s);
    InvParts(s);
    HeldKnown(s);
    forall k | 0 <= k < |s.updates| ensures s.updates[k] < |s.events| {
      assert s.updates[k] in s.updates;
    }
    if s.evRel == 0 {
      FirstRelease(s);
    } else {
      SecondRelease(s);
    }
  }

  /** No event of the batch from place `from` on carries a buffer. */
  predicate NoReads(s: State, from: nat) {
    forall k :: from <= k < |s.updates| ==> s.updates[k] < |s.events| && !s.events[s.updates[k]].ReadEvent?
  }

  lemma FirstRelease(s: State)
    requires s.evRel == s.bufRel == 0 && (forall k :: 0 <= k < |s.updates| ==> s.updates[k] < |s.events|)
    requires Inv(s)
    ensures EventsOnce(ReleaseCall(s)) && BuffersOnce(ReleaseCall(s))
  {
    hide Inv, EventsOnce, BuffersOnce, ReleaseRest;
    assert s == s.(evRel := 0, bufRel := 0);
    ReleaseKeeps(s);
    InvParts(ReleaseCall(s));
  }

  /** What walking a batch does to the pool: nothing if it is full or there is nothing to push. */
  lemma {:induction false} ReleasePool(s: State)
    requires Releasable(s)
    ensures var t := ReleaseRest(s);
            && t.links == s.links && t.events == s.events && t.data == s.data && |t.poolRead| >= |s.poolRead|
            && (if |s.poolRead| >= Cap(s) || NoReads(s, s.evRel) then t.poolRead == s.poolRead
                else |t.poolRead| > |s.poolRead|)
    decreases |s.updates| - s.evRel
  {
    if s.evRel < |s.updates| {
      ReleasePool(ReleaseOne(s));
    }
  }

  lemma SecondRelease(s: State)
    requires EventsOnce(s) && BuffersOnce(s) && 0 < s.evRel == s.bufRel == |s.updates|
    requires forall k :: 0 <= k < |s.updates| ==> s.updates[k] < |s.events|
    ensures EventsOnce(ReleaseCall(s)) <==> |s.evFree| == Cap(s)
    ensures BuffersOnce(ReleaseCall(s)) <==> |s.poolRead| == Cap(s) || NoReads(s, 0)
  {
    FreeSize(s);
    PoolSize(s);
    var u := s.(evRel := 0, bufRel := 0);
    ReleaseSizes(u);
    ReleasePool(u);
    hide EventsOnce, BuffersOnce, ReleaseRest, EventBufs, LinkBufs, NoReads, ReadsOut;
    var r := ReleaseCall(s);
    assert NoReads(u, 0) == NoReads(s, 0) by { SameReads(s, u); }
    if EventsOnce(r) {
      FreeSize(r);
    }
    if BuffersOnce(r) {
      PoolSize(r);
      SameReadsOut(s, r);
    }
    if |s.evFree| == Cap(s) {
      SameEvents(s, r);
    }
    if r.poolRead == s.poolRead {
      SameBuffers(s, r);
    }
  }

  lemma SameReads(s: State, u: State)
    requires u.updates == s.updates && u.events == s.events
    ensures NoReads(u, 0) == NoReads(s, 0)
  {
  }

  lemma SameReadsOut(s: State, r: State)
    requires r.events == s.events && r.evReady == s.evReady && r.updates == s.updates && r.bufRel == s.bufRel
    requires s.bufRel <= |s.updates|
    ensures ReadsOut(r) == ReadsOut(s)
  {
  }

  /** After an acquire that found nothing, release does nothing. */
  lemma ReleaseAfterEmptyAcquire(s: State)
    requires s.evReady == []
    ensures ReleaseCall(AcquireNext(s)) == AcquireNext(s)
  {
    assert AcquireNext(s).(evRel := 0, bufRel := 0) == AcquireNext(s);
  }
}
