/** Which command opened and which command closed each use of a slot, read off the run itself. */
module Causes {
  import opened Basics
  import opened Pools
  import opened ServiceModel
  import opened Ownership
  import opened Traces
  import opened Invariant
  import opened Steps
  import opened Theorems

  // ---- the record of handled commands ---------------------------------------------------------

  lemma HandledStep(s: State, step: Step, t: State)
    requires Enabled(s, step) && InBounds(s, step) && t == Next(s, step)
    ensures t.handled == s.handled + (if step.HandleEnd? then [s.cmds[s.io.command]] else [])
  {
    if OpensLink(step) {
      hide Next, Enabled, InBounds;
      OpeningStays(s, step, t);
    } else if WorksLink(step) {
      hide Next, Enabled, InBounds;
      WorkStays(s, step, t);
    } else {
      hide Notes, Upto, Pushed, Dispatch, Enabled;
    }
  }

  // ---- what a handled command does to a slot --------------------------------------------------

  /** At `m`, `step` handles close command `id` for slot `i` and does not refuse it, during the slot's
      use number `k`. */
  predicate Closes(m: State, step: Step, i: nat, k: nat, id: CmdId) {
    && step.HandleEnd? && m.io.Handling? && m.io.command < |m.cmds|
    && m.cmds[m.io.command] == CloseCommand(id, i) && !Refused(m, i)
    && |Uses(m.wire, i)| == k + 1
  }

  /** At `m`, `step` handles open command `id` and its connect begins use number `k` of slot `i`. */
  predicate Opens(m: State, step: Step, i: nat, k: nat, id: CmdId) {
    && step.HandleEnd? && m.io.Handling? && m.io.command < |m.cmds|
    && m.cmds[m.io.command] == OpenCommand(id) && step.reply.handleOk && step.reply.connectOk
    && m.freeLinks != [] && Last(m.freeLinks) == i && |Uses(m.wire, i)| == k
  }

  /** Somewhere in the run, a close command `id` ended use `k` of slot `i`. */
  ghost predicate ClosedBy(n: nat, steps: seq<Step>, i: nat, k: nat, id: CmdId) {
    exists j: nat, m: State :: j < |steps| && Reached(n, steps[..j], m) && Closes(m, steps[j], i, k, id)
  }

  /** Somewhere in the run, an open command `id` began use `k` of slot `i`. */
  ghost predicate OpenedBy(n: nat, steps: seq<Step>, i: nat, k: nat, id: CmdId) {
    exists j: nat, m: State :: j < |steps| && Reached(n, steps[..j], m) && Opens(m, steps[j], i, k, id)
  }

  // ---- what the history says ------------------------------------------------------------------

  predicate ClosedAs(wire: seq<Wire>, i: nat, k: nat, id: CmdId) {
    k < |Uses(wire, i)| && Uses(wire, i)[k].cause == Some(Some(id))
  }

  predicate OpenedAs(wire: seq<Wire>, i: nat, k: nat, id: CmdId) {
    k < |Uses(wire, i)| && Uses(wire, i)[k].cmd == Some(id)
  }

  /** One more entry. A use that is being dropped must not have a cause yet. */
  lemma EntryPushed(wire: seq<Wire>, w: Wire, i: nat, k: nat, id: CmdId)
    requires w.client == i && w.Dropping? ==> Uses(wire, i) != [] && Last(Uses(wire, i)).cause == None
    ensures ClosedAs(wire + [w], i, k, id) <==>
              ClosedAs(wire, i, k, id) || (w == Dropping(i, Some(id)) && |Uses(wire, i)| == k + 1)
    ensures OpenedAs(wire + [w], i, k, id) <==>
              OpenedAs(wire, i, k, id) || (w == Began(i, Some(id)) && |Uses(wire, i)| == k)
  {
    assert Front(wire + [w]) == wire;
  }

  /** A live link is in a use that nobody has dropped. */
  lemma Undropped(s: State, i: nat)
    requires TracesOk(s) && i < |s.links| && (s.links[i].handle == Pending || s.links[i].handle == Reading)
    ensures Uses(s.wire, i) != [] && Last(Uses(s.wire, i)).cause == None
  {
    assert SlotTrace(s, i);
  }

  /** Steps that leave the network side of every slot alone. */
  lemma WireStays(s: State, step: Step, t: State)
    requires Enabled(s, step) && InBounds(s, step) && t == Next(s, step)
    requires !step.Connect? && !step.PublishOpen? && !step.Hangup?
    requires !step.Accept? && !step.Receive? && !step.HandleEnd?
    ensures t.wire == s.wire
  {
    hide Notes, Upto, Pushed;
  }

  lemma SlotIds(s: State)
    requires LinksOk(s)
    ensures |s.links| == s.n && forall i :: 0 <= i < |s.links| ==> s.links[i].id == i
  {
  }

  /** Steps that at most close the handle of one slot, on no command. */
  lemma DropsBare(s: State, step: Step, t: State) returns (j: nat)
    requires Enabled(s, step) && InBounds(s, step) && t == Next(s, step)
    requires step.Connect? || step.PublishOpen? || step.Hangup?
    requires LinksOk(s)
    ensures j < |s.links| && (s.links[j].handle == Pending || s.links[j].handle == Reading)
    ensures t.wire == s.wire || t.wire == s.wire + [Dropping(j, None)]
  {
    SlotIds(s);
    AtPoint(s);
    hide LinksOk, Pushed;
    j := if step.PublishOpen? then s.io.slot else step.slot;
  }

  lemma AcceptEntries(s: State, fault: bool, t: State)
    requires SlotAtHand(s) && s.freeLinks != [] && t == AcceptNext(s, fault)
    requires LinksOk(s)
    ensures var began := s.wire + [Began(Last(s.freeLinks), None)];
            t.wire == began || t.wire == began + [Dropping(Last(s.freeLinks), None)]
  {
    SlotIds(s);
    hide LinksOk;
  }

  lemma AcceptCauses(s: State, fault: bool, t: State, i: nat, k: nat, id: CmdId)
    requires SlotAtHand(s) && t == AcceptNext(s, fault)
    requires LinksOk(s)
    ensures ClosedAs(t.wire, i, k, id) <==> ClosedAs(s.wire, i, k, id)
    ensures OpenedAs(t.wire, i, k, id) <==> OpenedAs(s.wire, i, k, id)
  {
    if s.freeLinks != [] {
      AcceptEntries(s, fault, t);
      hide ClosedAs, OpenedAs, AcceptNext, LinksOk;
      var j := Last(s.freeLinks);
      EntryPushed(s.wire, Began(j, None), i, k, id);
      var began := s.wire + [Began(j, None)];
      UsesPush(s.wire, Began(j, None), j);
      EntryPushed(began, Dropping(j, None), i, k, id);
    }
  }

  lemma HandledEntries(s: State, reply: Reply, t: State)
    requires InBounds(s, HandleEnd(reply)) && t == HandleEndNext(s, reply)
    requires LinksOk(s)
    ensures match s.cmds[s.io.command]
            case OpenCommand(id) =>
              if reply.handleOk && reply.connectOk && s.freeLinks != []
              then t.wire == s.wire + [Began(Last(s.freeLinks), Some(id))] else t.wire == s.wire
            case CloseCommand(id, i) =>
              if Refused(s, i) then t.wire == s.wire else t.wire == s.wire + [Dropping(i, Some(id))]
            case _ => t.wire == s.wire
  {
    SlotIds(s);
    hide LinksOk, Pushed;
  }

  lemma HandledCauses(s: State, reply: Reply, t: State, i: nat, k: nat, id: CmdId)
    requires InBounds(s, HandleEnd(reply)) && t == HandleEndNext(s, reply)
    requires LinksOk(s) && TracesOk(s) && OpenIsReading(s)
    ensures ClosedAs(t.wire, i, k, id) <==>
              ClosedAs(s.wire, i, k, id) || Closes(s, HandleEnd(reply), i, k, id)
    ensures OpenedAs(t.wire, i, k, id) <==>
              OpenedAs(s.wire, i, k, id) || Opens(s, HandleEnd(reply), i, k, id)
  {
    HandledEntries(s, reply, t);
    var cmd := s.cmds[s.io.command];
    if cmd.CloseCommand? && !Refused(s, cmd.target) {
      Undropped(s, cmd.target);
    }
    hide ClosedAs, OpenedAs, HandleEndNext, LinksOk, TracesOk, OpenIsReading, Uses;
    if t.wire != s.wire {
      EntryPushed(s.wire, Last(t.wire), i, k, id);
    }
  }

  lemma ReceiveCauses(s: State, j: nat, bytes: seq<Byte>, t: State, i: nat, k: nat, id: CmdId)
    requires InBounds(s, Receive(j, bytes)) && t == ReceiveNext(s, j, bytes)
    ensures ClosedAs(t.wire, i, k, id) <==> ClosedAs(s.wire, i, k, id)
    ensures OpenedAs(t.wire, i, k, id) <==> OpenedAs(s.wire, i, k, id)
  {
    EntryPushed(s.wire, Arrived(s.links[j].id, bytes), i, k, id);
  }

  lemma BareCauses(s: State, step: Step, t: State, i: nat, k: nat, id: CmdId)
    requires Enabled(s, step) && InBounds(s, step) && t == Next(s, step)
    requires !step.Accept? && !step.Receive? && !step.HandleEnd?
    requires LinksOk(s) && TracesOk(s)
    ensures ClosedAs(t.wire, i, k, id) <==> ClosedAs(s.wire, i, k, id)
    ensures OpenedAs(t.wire, i, k, id) <==> OpenedAs(s.wire, i, k, id)
  {
    hide Next, Enabled, InBounds, LinksOk, TracesOk, ClosedAs, OpenedAs, Uses;
    if step.Connect? || step.PublishOpen? || step.Hangup? {
      var j := DropsBare(s, step, t);
      Undropped(s, j);
      EntryPushed(s.wire, Dropping(j, None), i, k, id);
    } else {
      WireStays(s, step, t);
    }
  }

  /** What one step adds to either record. */
  lemma CauseStep(s: State, step: Step, t: State, i: nat, k: nat, id: CmdId)
    requires Enabled(s, step) && InBounds(s, step) && t == Next(s, step)
    requires Inv(s)
    ensures ClosedAs(t.wire, i, k, id) <==> ClosedAs(s.wire, i, k, id) || Closes(s, step, i, k, id)
    ensures OpenedAs(t.wire, i, k, id) <==> OpenedAs(s.wire, i, k, id) || Opens(s, step, i, k, id)
  {
    hide EventsOnce, BuffersOnce, SlotsOnce, CommandsOnce, RequestsOnce, Inv;
    hide LinksOk, RoomOk, WritesOk, LogOk, PipelineOk, TracesOk, OpenIsReading;
    hide ClosedAs, OpenedAs, Uses, Refused, AcceptNext, HandleEndNext, ReceiveNext;
    InvParts(s);
    match step {
      case Accept(fault) => AcceptCauses(s, fault, t, i, k, id);
      case HandleEnd(reply) => HandledCauses(s, reply, t, i, k, id);
      case Receive(j, bytes) => ReceiveCauses(s, j, bytes, t, i, k, id);
      case _ =>
        hide Next, Enabled, InBounds;
        BareCauses(s, step, t, i, k, id);
    }
  }

  /** The history records command `id` as the cause of closing a use exactly when the run contains the
      step in which that command closed that use; the same for opening. */
  lemma {:induction false} CausedExactly(n: nat, steps: seq<Step>, s: State, i: nat, k: nat, id: CmdId)
    requires Reached(n, steps, s)
    ensures ClosedAs(s.wire, i, k, id) <==> ClosedBy(n, steps, i, k, id)
    ensures OpenedAs(s.wire, i, k, id) <==> OpenedBy(n, steps, i, k, id)
    decreases |steps|
  {
    if steps != [] {
      hide Next, Enabled, InBounds, Closes, Opens, Inv, Reaches;
      var first := Front(steps);
      var m := ReachesBefore(Init(n), steps, s);
      ReachedInv(n, first, m);
      CausedExactly(n, first, m, i, k, id);
      CauseStep(m, Last(steps), s, i, k, id);
      hide ClosedAs, OpenedAs;
      RunLonger(n, steps, m, i, k, id);
    }
  }

  /** A run one step longer contains what the shorter one did and its last step. */
  lemma RunLonger(n: nat, steps: seq<Step>, m: State, i: nat, k: nat, id: CmdId)
    requires steps != [] && Reached(n, Front(steps), m)
    ensures ClosedBy(n, steps, i, k, id) <==>
              ClosedBy(n, Front(steps), i, k, id) || Closes(m, Last(steps), i, k, id)
    ensures OpenedBy(n, steps, i, k, id) <==>
              OpenedBy(n, Front(steps), i, k, id) || Opens(m, Last(steps), i, k, id)
  {
    hide Closes, Opens, Reached;
    var first := Front(steps);
    forall j: nat | j < |first| ensures first[..j] == steps[..j] {}
    assert steps[..|first|] == first;
    forall j: nat, u: State | j < |steps| && Reached(n, steps[..j], u) ensures j == |first| ==> u == m {
      if j == |first| {
        ReachedOne(n, first, m, u);
      }
    }
    if j: nat, u: State :| j < |first| && Reached(n, first[..j], u) && Closes(u, first[j], i, k, id) {
      assert Reached(n, steps[..j], u) && Closes(u, steps[j], i, k, id);
    }
    if j: nat, u: State :| j < |first| && Reached(n, first[..j], u) && Opens(u, first[j], i, k, id) {
      assert Reached(n, steps[..j], u) && Opens(u, steps[j], i, k, id);
    }
  }

  // ---- what the events say --------------------------------------------------------------------

  /** Command correlation, both ways: the close event of a use carries command `id` if and only if that
      command closed that very use, and TN_CMD_INVALID if and only if no command did. In particular it
      never carries an id left over from an earlier use, nor that of a refused command. */
  lemma CloseNamesItsCommand(n: nat, steps: seq<Step>, s: State, i: nat, k: nat)
    requires Reached(n, steps, s) && i < n && k < |Tracked(s.log, i).reports|
    requires Tracked(s.log, i).reports[k].ended.Some?
    ensures forall id: CmdId :: Tracked(s.log, i).reports[k].ended == Some(Some(id)) <==> ClosedBy(n, steps, i, k, id)
    ensures Tracked(s.log, i).reports[k].ended == Some(None) <==> forall id: CmdId :: !ClosedBy(n, steps, i, k, id)
  {
    BytesAreFaithful(n, steps, s, i);
    hide Reached, ClosedBy;
    var ended := Tracked(s.log, i).reports[k].ended;
    forall id: CmdId ensures ended == Some(Some(id)) <==> ClosedBy(n, steps, i, k, id) {
      CausedExactly(n, steps, s, i, k, id);
    }
    assert ended.value.Some? ==> ClosedBy(n, steps, i, k, ended.value.value);
  }

  /** The open event of a use begun by command `id` carries that command. */
  lemma OpenNamesItsCommand(n: nat, steps: seq<Step>, s: State, i: nat, k: nat, id: CmdId)
    requires Reached(n, steps, s) && i < n && k < |Tracked(s.log, i).reports|
    requires Tracked(s.log, i).reports[k].announced && OpenedBy(n, steps, i, k, id)
    ensures Tracked(s.log, i).reports[k].cmd == Some(id)
  {
    BytesAreFaithful(n, steps, s, i);
    hide Reached, OpenedBy;
    CausedExactly(n, steps, s, i, k, id);
  }

  /** A command that closed a use was queued for that client id and has been handled. */
  lemma ClosersWereQueued(n: nat, steps: seq<Step>, s: State, i: nat, k: nat, id: CmdId)
    requires Reached(n, steps, s) && ClosedBy(n, steps, i, k, id)
    ensures CloseCommand(id, i) in s.handled && CloseCommand(id, i) in s.queued
  {
    CommandsInOrder(n, steps, s);
    var j: nat, m: State :| j < |steps| && Reached(n, steps[..j], m) && Closes(m, steps[j], i, k, id);
    hide Next, Enabled, InBounds, Reached;
    var u := StateAfter(n, steps, s, j);
    ReachedOne(n, steps[..j], m, u);
    HandledStep(u, steps[j], Next(u, steps[j]));
    assert Last(Next(u, steps[j]).handled) == CloseCommand(id, i);
  }

  /** The state a run passes through after `j` of its steps, from which the rest of the run leads on. */
  lemma {:induction false} StateAfter(n: nat, steps: seq<Step>, s: State, j: nat) returns (m: State)
    requires Reached(n, steps, s) && j < |steps|
    ensures Reached(n, steps[..j], m) && Enabled(m, steps[j]) && InBounds(m, steps[j])
    ensures Next(m, steps[j]).handled <= s.handled
    decreases |steps|
  {
    hide Next, Enabled, InBounds;
    m := ReachesBefore(Init(n), steps, s);
    assert Front(steps) == steps[..|steps| - 1];
    if j < |steps| - 1 {
      var last := m;
      m := StateAfter(n, Front(steps), last, j);
      assert Front(steps)[..j] == steps[..j];
      HandledStep(last, Last(steps), s);
    }
  }

  // ---- what one close command does ------------------------------------------------------------

  /** A close command that is not refused becomes the cause of ending the current use of its slot, which
      had none; one that is refused changes no link and no record. */
  lemma CloseCommandTakesEffect(n: nat, steps: seq<Step>, s: State, reply: Reply)
    requires Reached(n, steps, s) && s.io.Handling?
    ensures s.io.command < |s.cmds| && InBounds(s, HandleEnd(reply))
    ensures s.cmds[s.io.command].CloseCommand? ==>
              var t, i, id := HandleEndNext(s, reply), s.cmds[s.io.command].target, s.cmds[s.io.command].id;
              if i < |s.links| && s.links[i].state == Open
              then |Uses(t.wire, i)| == |Uses(s.wire, i)| > 0 && Last(Uses(t.wire, i)).cause == Some(Some(id))
                   && Last(Uses(s.wire, i)).cause == None
              else t.links == s.links && t.wire == s.wire
  {
    hide Inv;
    ReachedInv(n, steps, s);
    StepInBounds(s, HandleEnd(reply));
    var cmd := s.cmds[s.io.command];
    if cmd.CloseCommand? {
      InvParts(s);
      CloseHandled(s, reply, cmd.target, cmd.id);
    }
  }

  lemma CloseHandled(s: State, reply: Reply, i: nat, id: CmdId)
    requires InBounds(s, HandleEnd(reply)) && s.cmds[s.io.command] == CloseCommand(id, i)
    requires TracesOk(s) && LinksOk(s) && OpenIsReading(s)
    ensures var t := HandleEndNext(s, reply);
            if i < |s.links| && s.links[i].state == Open
            then |Uses(t.wire, i)| == |Uses(s.wire, i)| > 0 && Last(Uses(t.wire, i)).cause == Some(Some(id))
                 && Last(Uses(s.wire, i)).cause == None
            else t.links == s.links && t.wire == s.wire
  {
    hide TracesOk, LinksOk, Uses, HandleEndNext;
    CloseWire(s, reply, i, id);
    if i < |s.links| && s.links[i].state == Open {
      assert s.links[i].handle == Reading;
      SlotIds(s);
      Undropped(s, i);
      UsesDropped(s.wire, i, id);
    }
  }

  lemma CloseWire(s: State, reply: Reply, i: nat, id: CmdId)
    requires InBounds(s, HandleEnd(reply)) && s.cmds[s.io.command] == CloseCommand(id, i)
    ensures var t := HandleEndNext(s, reply);
            if Refused(s, i) then t.links == s.links && t.wire == s.wire
            else t.wire == s.wire + [Dropping(s.links[i].id, Some(id))]
  {
    hide Pushed;
  }

  lemma UsesDropped(wire: seq<Wire>, i: nat, id: CmdId)
    requires Uses(wire, i) != []
    ensures var u := Uses(wire + [Dropping(i, Some(id))], i);
            |u| == |Uses(wire, i)| && Last(u).cause == Some(Some(id))
  {
    UsesPush(wire, Dropping(i, Some(id)), i);
  }
}
