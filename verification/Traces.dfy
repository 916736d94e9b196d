/** Reading the histories: what the event log reports about each client id, and what the network
    did to the slot of that id. Both are read left to right, one use of the slot at a time. */
module Traces {
  import opened Basics
  import opened ServiceModel

  /** One use of a slot, from the network's side. `cause` is set once the use is being closed: the
      close command responsible, or `None` if no command was. `closes` counts the calls of
      `uv_close` on its handle. */
  datatype Use = Use(cmd: Option<CmdId>, arrived: seq<Byte>, cause: Option<Option<CmdId>>, closes: nat)

  function Uses(wire: seq<Wire>, i: nat): seq<Use> {
    if wire == [] then [] else
    var u := Uses(Front(wire), i);
    if Last(wire).client != i then u else
    match Last(wire)
    case Began(_, cmd) => u + [Use(cmd, [], None, 0)]
    case Arrived(_, bytes) =>
      if u == [] then u else Front(u) + [Last(u).(arrived := Last(u).arrived + bytes)]
    case Dropping(_, cause) =>
      if u == [] then u else Front(u) + [Last(u).(cause := Some(cause), closes := Last(u).closes + 1)]
  }

  /** One use of a client id, as its events report it. */
  datatype Report = Report(announced: bool, cmd: Option<CmdId>, bytes: seq<Byte>, ended: Option<Option<CmdId>>)

  /** `ok`: so far the events were (open, reads*, close | close)*, up to a prefix.
      `up`: the last use was opened and not yet closed. */
  datatype Track = Track(ok: bool, up: bool, reports: seq<Report>)

  function Advance(t: Track, note: Note): Track {
    match note
    case Opened(_, cmd) => Track(t.ok && !t.up, true, t.reports + [Report(true, cmd, [], None)])
    case Bytes(_, bytes) =>
      if t.up && t.reports != []
      then t.(reports := Front(t.reports) + [Last(t.reports).(bytes := Last(t.reports).bytes + bytes)])
      else t.(ok := false)
    case Ended(_, cause) =>
      if t.up && t.reports != []
      then Track(t.ok, false, Front(t.reports) + [Last(t.reports).(ended := Some(cause))])
      else Track(t.ok, false, t.reports + [Report(false, None, [], Some(cause))])
  }

  function Tracked(log: seq<Note>, i: nat): Track {
    if log == [] then Track(true, false, []) else
    var t := Tracked(Front(log), i);
    if Last(log).client == i then Advance(t, Last(log)) else t
  }

  /** A report says nothing the network did not do. */
  predicate Matches(r: Report, u: Use) {
    && r.bytes <= u.arrived
    && (if r.announced then r.cmd == u.cmd else r.bytes == [])
    && (r.ended.Some? ==> r.ended == u.cause)
  }

  /** How the two histories of a slot agree, given its link, the bytes waiting in its buffer, and
      whether the slot is idle (free for the next connection). */
  predicate Agree(l: Link, tail: seq<Byte>, idle: bool, t: Track, u: seq<Use>) {
    && t.ok && (t.up ==> t.reports != [] && Last(t.reports).announced && Last(t.reports).ended == None)
    && (forall k :: 0 <= k < |u| ==> u[k].closes == if u[k].cause.Some? then 1 else 0)
    && |t.reports| <= |u| && (forall k :: 0 <= k < |t.reports| ==> Matches(t.reports[k], u[k]))
    && (if idle then !t.up && |u| == |t.reports|
        else u != [] && |u| == |t.reports| + (if t.up then 0 else 1))
    && (l.handle == Pending ==> !idle && !t.up && Last(u) == Use(l.cmdOpen, [], None, 0))
    && (l.handle == Reading ==>
          && !idle && t.up && Last(u).cause == None && Last(u).cmd == l.cmdOpen
          && Last(t.reports).bytes + tail == Last(u).arrived)
    && (l.handle == Ending ==>
          && !idle && Last(u).cause == Some(l.cmdClose)
          && (if t.up then l.state == Closing ==> Last(t.reports).bytes + tail == Last(u).arrived
              else Last(u).arrived == []))
  }

  function Tail(s: State, i: nat): seq<Byte>
    requires i < |s.links|
  {
    var b := s.links[i].buffer;
    if b.Some? && b.value < |s.data| then s.data[b.value] else []
  }

  predicate IdleSlot(s: State, i: nat)
    requires i < |s.links|
  {
    s.links[i].handle == Gone && i !in s.stranded
  }

  /** The histories of slot `i` agree. */
  predicate SlotTrace(s: State, i: nat)
    requires i < |s.links|
  {
    Agree(s.links[i], Tail(s, i), IdleSlot(s, i), Tracked(s.log, i), Uses(s.wire, i))
  }

  // ---- one more entry -------------------------------------------------------------------------

  lemma TrackedPush(log: seq<Note>, note: Note, i: nat)
    ensures Tracked(log + [note], i)
         == if note.client == i then Advance(Tracked(log, i), note) else Tracked(log, i)
  {
    assert Front(log + [note]) == log;
  }

  lemma UsesPush(wire: seq<Wire>, w: Wire, i: nat)
    ensures w.client != i ==> Uses(wire + [w], i) == Uses(wire, i)
    ensures w.client == i && w.Began? ==> Uses(wire + [w], i) == Uses(wire, i) + [Use(w.cmd, [], None, 0)]
    ensures w.client == i && Uses(wire, i) != [] && w.Arrived? ==>
              var u := Uses(wire, i);
              Uses(wire + [w], i) == Front(u) + [Last(u).(arrived := Last(u).arrived + w.bytes)]
    ensures w.client == i && Uses(wire, i) != [] && w.Dropping? ==>
              var u := Uses(wire, i);
              Uses(wire + [w], i) == Front(u) + [Last(u).(cause := Some(w.cmd), closes := Last(u).closes + 1)]
  {
    assert Front(wire + [w]) == wire;
  }

  // ---- what agreement survives ----------------------------------------------------------------

  lemma AgreeBegin(l: Link, tail: seq<Byte>, t: Track, u: seq<Use>, l': Link)
    requires Agree(l, tail, true, t, u)
    requires l'.handle == Pending
    ensures Agree(l', [], false, t, u + [Use(l'.cmdOpen, [], None, 0)])
  {
  }

  /** Agreement does not depend on which buffer holds the waiting bytes, or what libuv was offered. */
  lemma AgreeBuffer(l: Link, b: Option<nat>, offer: nat, tail: seq<Byte>, idle: bool, t: Track, u: seq<Use>)
    requires Agree(l, tail, idle, t, u)
    ensures Agree(l.(buffer := b, offer := offer), tail, idle, t, u)
  {
  }

  /** The close callback gives the buffer back: the waiting bytes are gone. */
  lemma AgreeClosed(l: Link, tail: seq<Byte>, t: Track, u: seq<Use>)
    requires Agree(l, tail, false, t, u) && l.handle == Ending
    ensures Agree(l.(state := Closed, buffer := None), [], false, t, u)
  {
  }

  /** A stranded slot is not idle: its use was never reported closed. */
  lemma AgreeStranded(l: Link, tail: seq<Byte>, t: Track, u: seq<Use>)
    requires Agree(l, tail, false, t, u)
    ensures Agree(l.(handle := Gone), tail, false, t, u)
  {
  }

  /** A free slot may be rewritten while it stays free. */
  lemma AgreeFree(l: Link, tail: seq<Byte>, t: Track, u: seq<Use>, l': Link)
    requires Agree(l, tail, true, t, u) && l'.handle == Gone
    ensures Agree(l', tail, true, t, u)
  {
  }

  lemma AgreeOpen(l: Link, t: Track, u: seq<Use>, i: nat)
    requires Agree(l, [], false, t, u) && l.handle == Pending
    ensures Agree(l.(state := Open, handle := Reading), [], false, Advance(t, Opened(i, l.cmdOpen)), u)
  {
    var t' := Advance(t, Opened(i, l.cmdOpen));
    forall k | 0 <= k < |t'.reports| ensures Matches(t'.reports[k], u[k]) {
    }
  }

  lemma AgreeArrive(l: Link, tail: seq<Byte>, t: Track, u: seq<Use>, bytes: seq<Byte>)
    requires Agree(l, tail, false, t, u) && l.handle == Reading
    ensures u != []
    ensures Agree(l.(offer := 0), tail + bytes, false, t,
                  Front(u) + [Last(u).(arrived := Last(u).arrived + bytes)])
  {
    var u' := Front(u) + [Last(u).(arrived := Last(u).arrived + bytes)];
    assert Last(t.reports).bytes + (tail + bytes) == Last(u).arrived + bytes;
    forall k | 0 <= k < |t.reports| ensures Matches(t.reports[k], u'[k]) {
      assert Matches(t.reports[k], u[k]);
    }
  }

  lemma AgreeRead(l: Link, tail: seq<Byte>, t: Track, u: seq<Use>, i: nat)
    requires Agree(l, tail, false, t, u) && l.handle == Reading
    ensures Agree(l.(buffer := None), [], false, Advance(t, Bytes(i, tail)), u)
  {
    var t' := Advance(t, Bytes(i, tail));
    forall k | 0 <= k < |t'.reports| ensures Matches(t'.reports[k], u[k]) {
      assert Matches(t.reports[k], u[k]);
    }
    assert Last(t'.reports).bytes + [] == Last(u).arrived;
  }

  /** The link ends up with the cause the history records: a link that no command closes must not
      hold the id of an earlier one. */
  lemma AgreeDrop(l: Link, tail: seq<Byte>, t: Track, u: seq<Use>, cause: Option<CmdId>)
    requires Agree(l, tail, false, t, u) && (l.handle == Pending || l.handle == Reading)
    requires cause == None ==> l.cmdClose == None
    ensures u != []
    ensures Agree(DroppedLink(l, cause), tail, false, t,
                  Front(u) + [Last(u).(cause := Some(cause), closes := Last(u).closes + 1)])
  {
    var u' := Front(u) + [Last(u).(cause := Some(cause), closes := Last(u).closes + 1)];
    forall k | 0 <= k < |t.reports| ensures Matches(t.reports[k], u'[k]) {
      assert Matches(t.reports[k], u[k]);
    }
  }

  lemma AgreeEnd(l: Link, tail: seq<Byte>, t: Track, u: seq<Use>, i: nat)
    requires Agree(l, tail, false, t, u) && l.handle == Ending
    ensures Agree(l.(handle := Gone), [], true, Advance(t, Ended(i, l.cmdClose)), u)
  {
    var t' := Advance(t, Ended(i, l.cmdClose));
    forall k | 0 <= k < |t'.reports| ensures Matches(t'.reports[k], u[k]) {
      if k < |t.reports| {
        assert Matches(t.reports[k], u[k]);
      }
    }
  }
}
