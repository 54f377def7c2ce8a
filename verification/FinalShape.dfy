// What a final response does to its INVITE itself, whatever becomes of the
// ACK and the BYE: the slot is as InviteAnswered leaves it, but for its
// links and the report to the application.
module FinalShape {
  import opened Slots
  import opened Table
  import opened ClientSteps
  import opened Links
  import opened History
  import opened HistoryKeeps
  import opened AbandonKeeps
  import opened ReceiveKeeps
  import opened FinalKeeps

  predicate SameCore(s: Slot, t: Slot) {
    && t.active == s.active && t.gen == s.gen && t.role == s.role && t.state == s.state
    && t.flags == s.flags && t.timer == s.timer && t.due == s.due && t.policy == s.policy
    && t.parent == s.parent && (t.invite.Some? <==> s.invite.Some?)
    && InviteTimeout(t) == InviteTimeout(s) && t.attempt == s.attempt && t.sends == s.sends
    && t.createdAt == s.createdAt && t.nextSend == s.nextSend
  }

  lemma WithByeCore(s: Slot)
    ensures SameCore(s, WithBye(s))
  {
  }

  lemma QueueByeCore(tm: Tm, i: nat, a: nat, r: Resp, room: Room)
    requires Inv(tm) && AckOf(tm, i, a) && tm.slots[i].flags.abandoned
    ensures SameCore(tm.slots[i], QueueBye(tm, i, r, room).0.slots[i])
  {
    hide Inv, WithBye, ByeOf, SameCore;
    OfSlot(tm, i);
    OfSlot(tm, a);
    var s := tm.slots[i];
    CoreSelf(s);
    WithByeCore(s);
    ByeFresh(s, i, r, tm.reliable, room.byeBranch, tm.gens);
    AbandonedSafe(tm, i);
    ByeFits(tm, i, r, room.byeBranch);
    NewSlotInv(tm, ByeOf(s, i, r, tm.reliable, room.byeBranch), room.byeSlot);
  }

  lemma CoreSelf(s: Slot)
    ensures SameCore(s, s)
  {
  }

  lemma ByeFits(tm: Tm, i: nat, r: Resp, branch: nat)
    requires i < |tm.slots| && LiveClient(tm.slots[i]) && IsInvite(tm.slots[i])
    requires tm.slots[i].parent.None? && Safe(tm.slots, i)
    ensures ParentFor(tm.slots, ByeOf(tm.slots[i], i, r, tm.reliable, branch))
  {
  }

  lemma NeedAckCore(tm: Tm, i: nat, space: Space)
    requires Inv(tm) && Answering(tm, i)
    ensures SameCore(tm.slots[i], NeedAck(tm, i, space).slots[i])
  {
    hide Inv, CloneOf;
    OfSlot(tm, i);
    if tm.slots[i].child.None? {
      assert Safe(tm.slots, i);
      CloneFresh(tm.slots[i], ACK, i, tm.gens);
      AckFits(tm, i);
      NewSlotInv(tm, CloneOf(tm.slots[i], ACK, i), CloneSpace(tm.slots[i], space));
    }
  }

  lemma AckFits(tm: Tm, i: nat)
    requires i < |tm.slots| && LiveClient(tm.slots[i]) && IsInvite(tm.slots[i])
    requires tm.slots[i].parent.None? && Safe(tm.slots, i)
    ensures ParentFor(tm.slots, CloneOf(tm.slots[i], ACK, i))
  {
  }

  lemma FinalTailCore(t: Tm, i: nat, a: nat, r: Resp, now: nat, room: Room)
    requires Inv(t) && AckOf(t, i, a)
    requires HeardFor(t.log, t.slots[i], r)
    ensures var w := FinalTail(t, i, a, r, now, room);
      SameCore(t.slots[i], w.0.slots[i])
      && (w.0.slots[i].finalReported <==> w.1 == Ok || t.slots[i].finalReported)
  {
    hide Inv, BuildAck, QueueBye, SameCore;
    var s := t.slots[i];
    CoreSelf(s);
    var u := AckBuilding(t, i, a, r, room.ackBranch);
    BuildAckInv(t, i, a, r, room.ackBranch);
    if s.flags.abandoned {
      QueueByeInv(u, i, a, r, room);
      QueueByeCore(u, i, a, r, room);
    }
    var (w, rc) := if s.flags.abandoned then QueueBye(u, i, r, room) else (u, Ok);
    if rc == Ok {
      ReportCore(s, w.slots[i]);
    }
  }

  lemma ReportCore(s: Slot, t: Slot)
    requires SameCore(s, t)
    ensures SameCore(s, t.(finalReported := true))
  {
  }

  // The whole of it, with or without the room for the ACK and the BYE
  lemma InviteFinalCore(tm: Tm, i: nat, r: Resp, now: nat, room: Room)
    requires Inv(tm) && i < |tm.slots| && LiveClient(tm.slots[i]) && tm.slots[i].invite.Some?
    requires !tm.slots[i].state.Terminated? && tm.slots[i].nextSend.Never?
    requires HeardFor(tm.log, tm.slots[i], r)
    ensures var w := InviteFinal(tm, i, r, now, room);
      && SameCore(InviteAnswered(tm.slots[i], Class(r), now), w.0.slots[i])
      && (w.0.slots[i].finalReported <==> w.1 == Ok || tm.slots[i].finalReported)
  {
    hide Inv, InviteAnswered, NeedAck, FinalTail, AckOf, Answering, SameCore, Safe;
    var s := InviteAnswered(tm.slots[i], Class(r), now);
    OfSlot(tm, i);
    AnsweredOk(tm.slots[i], Class(r), now);
    CalmPut(tm, i, s);
    var p := Put(tm, i, s);
    IsAnswering(p, i);
    NeedAckInv(p, i, room.ackSlot);
    NeedAckCore(p, i, room.ackSlot);
    var t := NeedAck(p, i, room.ackSlot);
    if t.slots[i].child.Some? {
      var a := t.slots[i].child.value;
      AckOfChild(t, i);
      IsAck(t, i, a);
      FinalTailCore(t, i, a, r, now, room);
      CoreTrans(s, t.slots[i], FinalTail(t, i, a, r, now, room).0.slots[i]);
    }
  }

  lemma CoreTrans(s: Slot, t: Slot, u: Slot)
    requires SameCore(s, t) && SameCore(t, u)
    ensures SameCore(s, u)
  {
  }

  lemma AbandonedSafe(tm: Tm, i: nat)
    requires i < |tm.slots| && LiveClient(tm.slots[i]) && tm.slots[i].flags.abandoned
    requires !tm.slots[i].state.Terminated? && tm.slots[i].parent.None?
    ensures Safe(tm.slots, i)
  {
  }
}
