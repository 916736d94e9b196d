/** What handling a command does, told without the handlers: which links, writes and requests are
    different afterwards, in every reached state and for every answer of the environment. */
module Effects {
  import opened Basics
  import opened Pools
  import opened ServiceModel
  import opened Ownership
  import opened Conservation
  import opened Invariant
  import opened Steps
  import opened Theorems

  predicate LinksStay(s: State, t: State) {
    t.links == s.links && t.freeLinks == s.freeLinks && t.wire == s.wire
  }

  predicate WritesStay(s: State, t: State) {
    t.writes == s.writes && t.sendReqs == s.sendReqs
  }

  /** A send to an OPEN link with a request listed makes one write, of that command and its memory and
      with a request that is no longer listed, if and only if `uv_write` succeeds. Otherwise no write is
      made and every request stays listed. */
  predicate SendDone(s: State, t: State, id: CmdId, i: nat, at: nat, len: nat, writeOk: bool) {
    && LinksStay(s, t)
    && if i < |s.links| && s.links[i].state == Open && s.sendReqs != [] && writeOk then
         && |t.writes| == |s.writes| + 1 && t.writes[..|s.writes|] == s.writes
         && Last(t.writes) == Write(Last(t.writes).request, i, id, |s.handled|, at, len, [])
         && multiset(s.sendReqs) == multiset(t.sendReqs) + multiset{Last(t.writes).request}
       else WritesStay(s, t)
  }

  /** A close of an OPEN link puts it in CLOSING, leaves its id there and closes the handle; of any other
      link it does nothing. */
  predicate CloseDone(s: State, t: State, id: CmdId, i: nat) {
    && WritesStay(s, t) && t.freeLinks == s.freeLinks
    && if i < |s.links| && s.links[i].state == Open then
         && t.links == s.links[i := s.links[i].(state := Closing, handle := Ending, offer := 0, cmdClose := Some(id))]
         && t.wire == s.wire + [Dropping(i, Some(id))]
       else LinksStay(s, t)
  }

  /** An open takes a free slot for a new use, in state NEW with its id, if and only if the handle could be
      made and the connect begun; otherwise the same slots are free as before, and no use begins. */
  predicate OpenDone(s: State, t: State, id: CmdId, reply: Reply) {
    && WritesStay(s, t)
    && if s.freeLinks != [] && reply.handleOk && reply.connectOk then
         var i := Last(s.freeLinks);
         && i < |s.links| && t.freeLinks == Front(s.freeLinks)
         && t.links == s.links[i := Link(i, New, Pending, None, 0, Some(id), None)]
         && t.wire == s.wire + [Began(i, Some(id))]
       else
         && t.freeLinks == s.freeLinks && t.wire == s.wire && |t.links| == |s.links|
         && forall j :: 0 <= j < |s.links| && t.links[j] != s.links[j] ==>
              j in s.freeLinks && t.links[j] == Link(j, New, Gone, None, 0, Some(id), None)
  }

  predicate Done(s: State, t: State, cmd: Command, reply: Reply) {
    match cmd
    case NoCommand => LinksStay(s, t) && WritesStay(s, t)
    case OpenCommand(id) => OpenDone(s, t, id, reply)
    case CloseCommand(id, i) => CloseDone(s, t, id, i)
    case SendCommand(id, i, at, len) => SendDone(s, t, id, i, at, len, reply.writeOk)
  }

  // ---- the handlers ---------------------------------------------------------------------------

  lemma RefusedUnlessOpen(s: State, i: nat)
    requires LinksOk(s) && OpenIsReading(s) && s.io.Handling?
    ensures Refused(s, i) <==> !(i < |s.links| && s.links[i].state == Open)
  {
  }

  lemma SendHandled(s: State, id: CmdId, i: nat, at: nat, len: nat, reply: Reply)
    requires RequestsOnce(s) && (Refused(s, i) <==> !(i < |s.links| && s.links[i].state == Open))
    ensures SendDone(s, HandleSend(s, id, i, at, len, reply), id, i, at, len, reply.writeOk)
  {
    hide Refused, RequestsOnce;
    if !Refused(s, i) && s.sendReqs != [] {
      PopBack(s.sendReqs);
      RequestListed(s);
    }
  }

  lemma CloseHandled(s: State, id: CmdId, i: nat)
    requires (Refused(s, i) <==> !(i < |s.links| && s.links[i].state == Open)) && (i < |s.links| ==> s.links[i].id == i)
    ensures CloseDone(s, HandleClose(s, id, i), id, i)
  {
    hide Refused;
  }

  lemma OpenHandled(s: State, id: CmdId, reply: Reply)
    requires SlotAtHand(s) && (forall i :: 0 <= i < |s.links| ==> s.links[i].id == i) && |s.freeLinks| <= s.n
    ensures OpenDone(s, HandleOpen(s, id, reply), id, reply)
  {
    if s.freeLinks != [] {
      assert Front(s.freeLinks) + [Last(s.freeLinks)] == s.freeLinks;
    }
  }

  lemma FreeFits(s: State)
    requires SlotsOnce(s)
    ensures |s.freeLinks| <= s.n
  {
    AllCounts(s.n);
    assert |multiset(s.freeLinks) + multiset(s.stranded) + Owned(s.links)|
        == |s.freeLinks| + |s.stranded| + |Owned(s.links)|;
  }

  lemma Dispatched(s: State, cmd: Command, reply: Reply)
    requires SlotsOnce(s) && RequestsOnce(s) && LinksOk(s) && OpenIsReading(s) && s.io.Handling? && SlotAtHand(s)
    ensures Done(s, Dispatch(s, cmd, reply), cmd, reply)
  {
    FreeFits(s);
    LinkIds(s);
    hide SlotsOnce, RequestsOnce, LinksOk, OpenIsReading, HandleOpen, HandleClose, HandleSend;
    hide OpenDone, CloseDone, SendDone, Refused;
    match cmd {
      case NoCommand =>
      case OpenCommand(id) => OpenHandled(s, id, reply);
      case CloseCommand(id, i) =>
        RefusedUnlessOpen(s, i);
        CloseHandled(s, id, i);
      case SendCommand(id, i, at, len) =>
        RefusedUnlessOpen(s, i);
        SendHandled(s, id, i, at, len, reply);
    }
  }

  lemma LinkIds(s: State)
    requires LinksOk(s)
    ensures forall i :: 0 <= i < |s.links| ==> s.links[i].id == i
  {
  }

  lemma DoneStays(s: State, u: State, t: State, cmd: Command, reply: Reply)
    requires Done(s, u, cmd, reply) && LinksStay(u, t) && WritesStay(u, t)
    ensures Done(s, t, cmd, reply)
  {
  }

  /** Whatever command is being handled, in whatever state was reached: what is different afterwards. */
  lemma CommandTakesEffect(n: nat, steps: seq<Step>, s: State, reply: Reply)
    requires Reached(n, steps, s) && s.io.Handling?
    ensures s.io.command < |s.cmds| && Enabled(s, HandleEnd(reply)) && InBounds(s, HandleEnd(reply))
    ensures Done(s, Next(s, HandleEnd(reply)), s.cmds[s.io.command], reply)
  {
    ReachedInv(n, steps, s);
    var cmd := HandlingKnown(s, reply);
    InvParts(s);
    hide Reached, Inv, SlotsOnce, RequestsOnce, LinksOk, OpenIsReading, Done, Dispatch;
    Dispatched(s, cmd, reply);
    HandleEnds(s, reply);
    DoneStays(s, Dispatch(s, cmd, reply), Next(s, HandleEnd(reply)), cmd, reply);
  }

  lemma HandlingKnown(s: State, reply: Reply) returns (cmd: Command)
    requires Inv(s) && s.io.Handling?
    ensures Enabled(s, HandleEnd(reply)) && InBounds(s, HandleEnd(reply))
    ensures s.io.command < |s.cmds| && cmd == s.cmds[s.io.command] && SlotAtHand(s)
  {
    hide Inv;
    StepInBounds(s, HandleEnd(reply));
    cmd := s.cmds[s.io.command];
  }

  lemma HandleEnds(s: State, reply: Reply)
    requires Enabled(s, HandleEnd(reply)) && InBounds(s, HandleEnd(reply))
    ensures s.io.Handling? && s.io.command < |s.cmds| && SlotAtHand(s)
    ensures var u := Dispatch(s, s.cmds[s.io.command], reply);
            LinksStay(u, Next(s, HandleEnd(reply))) && WritesStay(u, Next(s, HandleEnd(reply)))
  {
    hide Dispatch, Pushed;
  }

  /** A send command on an OPEN link with a request listed makes exactly one more pending write, for this
      command, its slot and its memory, and takes one request off the list, if `uv_write` succeeds; in every
      other case writes and listed requests are what they were. */
  lemma SendCommandTakesEffect(n: nat, steps: seq<Step>, s: State, reply: Reply, id: CmdId, i: nat, at: nat, len: nat)
    requires Reached(n, steps, s) && s.io.Handling?
    requires s.io.command < |s.cmds| && s.cmds[s.io.command] == SendCommand(id, i, at, len)
    ensures Enabled(s, HandleEnd(reply)) && InBounds(s, HandleEnd(reply))
    ensures var t := Next(s, HandleEnd(reply));
            && t.links == s.links
            && if i < |s.links| && s.links[i].state == Open && s.sendReqs != [] && reply.writeOk then
                 exists r :: t.writes == s.writes + [Write(r, i, id, |s.handled|, at, len, [])]
                             && multiset(s.sendReqs) == multiset(t.sendReqs) + multiset{r}
               else t.writes == s.writes && t.sendReqs == s.sendReqs
  {
    CommandTakesEffect(n, steps, s, reply);
    hide Reached, Next, Enabled, InBounds;
    var t := Next(s, HandleEnd(reply));
    if i < |s.links| && s.links[i].state == Open && s.sendReqs != [] && reply.writeOk {
      assert t.writes == t.writes[..|s.writes|] + [Last(t.writes)];
    }
  }
}
