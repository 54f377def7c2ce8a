// Final responses, and responses as a whole, keep the invariant.
module FinalKeeps {
  import opened Base
  import opened Slots
  import opened Table
  import opened ClientSteps
  import opened Links
  import opened History
  import opened HistoryKeeps
  import opened AbandonKeeps
  import opened ReceiveKeeps

  lemma ArmAckOk(a: Slot, now: nat)
    requires SlotOk(a) && LiveClient(a) && a.verb.ACK? && a.parent.Some? && a.built
    ensures SlotOk(a.(nextSend := At(now))) && Calm(a, a.(nextSend := At(now)))
  {
  }

  lemma ReportedOk(s: Slot)
    requires SlotOk(s) && LiveClient(s) && s.invite.Some? && s.state.Completed? && s.timer.TimerD?
    requires s.invite.value.timeoutAt.Never? && s.nextSend.Never? && s.child.Some?
    ensures SlotOk(s.(finalReported := true)) && Calm(s, s.(finalReported := true))
  {
  }

  lemma ArmAckInv(tm: Tm, i: nat, a: nat, r: Resp, now: nat)
    requires Inv(tm) && AckOf(tm, i, a) && tm.slots[a].built
    requires Class(r) == 2 && tm.slots[i].flags.abandoned ==> ByeFlag(tm.slots[i])
    ensures var t := ArmAck(tm, i, a, r, now);
      && Inv(t) && Silent(tm.log, t.log) && t.slots[i].finalReported
      && SameLife(tm.slots[i].(finalReported := true), t.slots[i])
      && WaitsForInviteAck(t.slots[i])
  {
    hide Inv, SlotLogged, SlotOk, ByeLogged, ParentOk;
    OfSlot(tm, a);
    OfSlot(tm, i);
    ArmAckOk(tm.slots[a], now);
    CalmPut(tm, a, tm.slots[a].(nextSend := At(now)));
    var u := Put(tm, a, tm.slots[a].(nextSend := At(now)));
    ReportedOk(tm.slots[i]);
    CalmPut(u, i, u.slots[i].(finalReported := true));
    var w := Put(u, i, u.slots[i].(finalReported := true));
    var e := AckArmed(tm.slots[i].gen, tm.slots[a].gen, Class(r), tm.slots[i].flags.abandoned);
    NoteOwn(w, i, e);
  }

  // An INVITE whose final response was just handled, told or not
  predicate Answered(tm: Tm, t: Tm, i: nat)
    requires i < |tm.slots| && i < |t.slots|
  {
    && LiveClient(t.slots[i]) && WaitsForInviteAck(t.slots[i]) && t.slots[i].finalReported
    && t.slots[i].gen == tm.slots[i].gen && t.slots[i].attempt == tm.slots[i].attempt
    && t.slots[i].app == tm.slots[i].app && !t.slots[i].verb.ACK?
  }

  lemma InviteFinalInv(tm: Tm, i: nat, r: Resp, now: nat, room: Room)
    requires Inv(tm) && i < |tm.slots| && LiveClient(tm.slots[i]) && tm.slots[i].invite.Some?
    requires !tm.slots[i].state.Terminated? && tm.slots[i].nextSend.Never?
    requires HeardFor(tm.log, tm.slots[i], r)
    ensures var (t, rc) := InviteFinal(tm, i, r, now, room);
      && Inv(t) && Silent(tm.log, t.log)
      && (rc == Ok ==> Answered(tm, t, i))
  {
    hide Inv, InviteAnswered, NeedAck, FinalTail, AckOf, Answering;
    var s := InviteAnswered(tm.slots[i], Class(r), now);
    OfSlot(tm, i);
    AnsweredOk(tm.slots[i], Class(r), now);
    CalmPut(tm, i, s);
    assert Answering(Put(tm, i, s), i) by { IsAnswering(Put(tm, i, s), i); }
    NeedAckInv(Put(tm, i, s), i, room.ackSlot);
    var t := NeedAck(Put(tm, i, s), i, room.ackSlot);
    if t.slots[i].child.Some? {
      var a := t.slots[i].child.value;
      AckOfChild(t, i);
      IsAck(t, i, a);
      if t.slots[a].built || room.ackFits {
        InviteFinalTail(tm, t, i, a, r, now, room);
      }
    }
  }

  lemma IsAnswering(tm: Tm, i: nat)
    requires i < |tm.slots| && LiveClient(tm.slots[i]) && tm.slots[i].invite.Some?
    requires tm.slots[i].state.Completed? && tm.slots[i].timer.TimerD?
    requires tm.slots[i].invite.value.timeoutAt.Never? && tm.slots[i].nextSend.Never?
    ensures Answering(tm, i)
  {
  }

  lemma IsAck(tm: Tm, i: nat, a: nat)
    requires AckOf(tm, i, a)
    ensures i < |tm.slots| && a < |tm.slots| && a != i
  {
  }

  lemma InviteFinalTail(tm: Tm, t: Tm, i: nat, a: nat, r: Resp, now: nat, room: Room)
    requires i < |tm.slots| && |t.slots| == |tm.slots|
    requires Inv(t) && AckOf(t, i, a) && tm.log == t.log
    requires t.slots[i].gen == tm.slots[i].gen && t.slots[i].attempt == tm.slots[i].attempt
    requires t.slots[i].app == tm.slots[i].app && LiveClient(t.slots[i])
    requires HeardFor(t.log, t.slots[i], r)
    ensures i < |t.slots| && a < |t.slots|
    ensures var (w, rc) := FinalTail(t, i, a, r, now, room);
      Inv(w) && Silent(tm.log, w.log) && (rc == Ok ==> Answered(tm, w, i))
  {
    hide Inv, BuildAck, QueueBye, ArmAck, AckOf, Answering;
    IsAck(t, i, a);
    var s := t.slots[i];
    var u := AckBuilding(t, i, a, r, room.ackBranch);
    BuildAckInv(t, i, a, r, room.ackBranch);
    if s.flags.abandoned {
      QueueByeInv(u, i, a, r, room);
    }
    var (w, rc) := if s.flags.abandoned then QueueBye(u, i, r, room) else (u, Ok);
    if rc == Ok {
      IsAck(w, i, a);
      ArmAckInv(w, i, a, r, now);
    }
  }

  // --- After the application was told

  lemma SettleInv(tm: Tm, i: nat)
    requires Inv(tm) && i < |tm.slots| && LiveClient(tm.slots[i])
    requires !tm.slots[i].verb.ACK?
    ensures Inv(Settle(tm, i))
  {
    hide Inv;
    OfSlot(tm, i);
    CalmPut(tm, i, ReleaseOutbound(tm.slots[i]));
  }

  lemma TellStays(tm: Tm, i: nat, listening: bool, what: Report, react: Reaction)
    requires i < |tm.slots| && LiveClient(tm.slots[i])
    ensures LiveClient(Tell(tm, i, listening, what, react).slots[i])
  {
  }

  lemma HearInviteInv(tm: Tm, i: nat, r: Resp, now: nat, room: Room, react: Reaction)
    requires Inv(tm) && i < |tm.slots| && LiveClient(tm.slots[i]) && tm.slots[i].invite.Some?
    requires !tm.slots[i].state.Terminated? && tm.slots[i].nextSend.Never? && Class(r) >= 1
    requires Class(r) == 1 ==>
               !tm.slots[i].finalReported && WasHeard(tm.log, tm.slots[i].gen, tm.slots[i].attempt, 1)
    requires WasSent(tm.log, tm.slots[i].gen, tm.slots[i].attempt, INVITE, tm.slots[i].ident)
    requires Class(r) >= 2 ==> HeardFor(tm.log, tm.slots[i], r)
    ensures Inv(HearInvite(tm, i, r, now, room, react).0)
  {
    hide Inv, HeardFor, WasSent, WasHeard, Evidence, InviteFinal, HearRinging, Tell, Settle, Answered;
    var s := tm.slots[i];
    OfSlot(tm, i);
    if s.app.response && !s.finalReported {
      OpenSlot(s, tm.log);
    }
    if Class(r) == 1 {
      HearRingingInv(tm, i, now, room);
      var t := HearRinging(tm, i, now, room);
      if t.slots[i].app.response {
        SilentOpen(tm.log, t.log, s.gen, s.attempt);
      }
      TellInv(t, i, t.slots[i].app.response, Progress, react);
    } else {
      HearFinalInv(tm, i, r, now, room, react);
    }
  }

  lemma HearFinalInv(tm: Tm, i: nat, r: Resp, now: nat, room: Room, react: Reaction)
    requires Inv(tm) && i < |tm.slots| && LiveClient(tm.slots[i]) && tm.slots[i].invite.Some?
    requires !tm.slots[i].state.Terminated? && tm.slots[i].nextSend.Never? && Class(r) >= 2
    requires WasSent(tm.log, tm.slots[i].gen, tm.slots[i].attempt, INVITE, tm.slots[i].ident)
    requires HeardFor(tm.log, tm.slots[i], r)
    ensures Inv(HearInvite(tm, i, r, now, room, react).0)
  {
    hide Inv, InviteFinal, Tell, Settle, Answered, HeardFor, WasSent, SlotLogged;
    var s := tm.slots[i];
    OfSlot(tm, i);
    IsInviteSlot(s);
    if s.app.response && !s.finalReported {
      OpenSlot(s, tm.log);
    }
    InviteFinalInv(tm, i, r, now, room);
    var (t, rc) := InviteFinal(tm, i, r, now, room);
    if rc == Ok {
      AnsweredFacts(tm, t, i);
      var l := !s.finalReported && t.slots[i].app.response;
      if l {
        SilentOpen(tm.log, t.log, s.gen, s.attempt);
      }
      TellInv(t, i, l, Final, react);
      TellStays(t, i, l, Final, react);
      var u := Tell(t, i, l, Final, react);
      SameVerb(t, i, l, Final, react);
      SettleInv(u, i);
    }
  }

  lemma IsInviteSlot(s: Slot)
    requires SlotOk(s) && LiveClient(s) && s.invite.Some?
    ensures IsInvite(s)
  {
  }

  lemma SameVerb(tm: Tm, i: nat, listening: bool, what: Report, react: Reaction)
    requires i < |tm.slots|
    ensures Tell(tm, i, listening, what, react).slots[i].verb == tm.slots[i].verb
  {
  }

  lemma AnsweredFacts(tm: Tm, t: Tm, i: nat)
    requires i < |tm.slots| && i < |t.slots| && Answered(tm, t, i)
    ensures LiveClient(t.slots[i]) && t.slots[i].finalReported
    ensures t.slots[i].gen == tm.slots[i].gen && t.slots[i].attempt == tm.slots[i].attempt
    ensures t.slots[i].app == tm.slots[i].app && !t.slots[i].verb.ACK?
  {
  }

  // --- Requests other than INVITE

  // Releasing the request first makes no difference to what follows
  lemma RestartReleased(s: Slot, b: Build)
    ensures Restart(ReleaseOutbound(s), b) == Restart(s, b)
  {
  }

  lemma TellReleased(tm: Tm, i: nat, s: Slot, l: bool, what: Report, react: Reaction)
    requires i < |tm.slots| && s.active && s.child.None? && MayRestart(s)
    requires l ==> !s.flags.abandoned
    requires !WaitsForInviteAck(s)
    ensures var u := Tell(Put(tm, i, s), i, l, what, react);
      && (if u.slots[i].state.Calling? then u else Put(u, i, ReleaseOutbound(u.slots[i])))
         == Tell(Put(tm, i, ReleaseOutbound(s)), i, l, what, react)
      && (u.slots[i].state.Calling? || !WaitsForInviteAck(u.slots[i]))
  {
    var r := ReleaseOutbound(s);
    PutPut(tm, i, s, r);
    if l && react.Retry? {
      var e := Told(s.gen, s.attempt, what);
      var n := Note(tm, e);
      assert s.(child := None) == s && r.(child := None) == r;
      RestartReleased(s, react.b);
      PutPut(n, i, s, Restart(s, react.b));
      PutPut(n, i, r, Restart(s, react.b));
      assert Note(Put(tm, i, s), e) == Put(n, i, s);
      assert Note(Put(tm, i, r), e) == Put(n, i, r);
    } else if l {
      var e := Told(s.gen, s.attempt, what);
      assert Put(Note(Put(tm, i, s), e), i, r) == Note(Put(tm, i, r), e);
    }
  }

  lemma OtherAnsweredOk(s: Slot, now: nat)
    requires SlotOk(s) && LiveClient(s) && s.invite.None? && !s.state.Terminated?
    requires !s.verb.ACK? && s.parent.None?
    ensures var t := ReleaseOutbound(OtherAnswered(s, now));
      SlotOk(t) && Calm(s, t) && t.finalReported && t.app == s.app && t.attempt == s.attempt
  {
  }

  lemma HearOtherInv(tm: Tm, i: nat, r: Resp, now: nat, react: Reaction)
    requires Inv(tm) && i < |tm.slots| && LiveClient(tm.slots[i]) && tm.slots[i].invite.None?
    requires !tm.slots[i].state.Terminated? && tm.slots[i].matchable
    requires !tm.slots[i].verb.ACK?
    requires WasSent(tm.log, tm.slots[i].gen, tm.slots[i].attempt, tm.slots[i].verb,
                     tm.slots[i].ident)
    ensures Inv(HearOther(tm, i, r, now, react))
  {
    hide Inv, Tell, OtherAnswered, ReleaseOutbound;
    var s := tm.slots[i];
    OfSlot(tm, i);
    NotHeldBack(tm, i);
    OpenSlot(s, tm.log);
    if Class(r) < 2 {
      TellInv(tm, i, s.app.response, Progress, react);
    } else {
      var t := OtherAnswered(s, now);
      var l := !s.finalReported && s.app.response;
      OtherAnsweredOk(s, now);
      CalmPut(tm, i, ReleaseOutbound(t));
      OtherFacts(s, now);
      TellReleased(tm, i, t, l, Final, react);
      TellInv(Put(tm, i, ReleaseOutbound(t)), i, l, Final, react);
    }
  }

  lemma OtherFacts(s: Slot, now: nat)
    requires s.active && !s.flags.abandoned && s.child.None? && s.invite.None? && !IsInvite(s)
    ensures var t := OtherAnswered(s, now);
      t.active && !t.flags.abandoned && t.child.None? && MayRestart(t) && !WaitsForInviteAck(t)
  {
  }

  // What was sent is not waiting behind an ACK, and has no child of its own
  lemma NotHeldBack(tm: Tm, i: nat)
    requires Inv(tm) && i < |tm.slots| && LiveClient(tm.slots[i]) && tm.slots[i].invite.None?
    requires !tm.slots[i].verb.ACK?
    requires WasSent(tm.log, tm.slots[i].gen, tm.slots[i].attempt, tm.slots[i].verb,
                     tm.slots[i].ident)
    ensures tm.slots[i].parent.None? && tm.slots[i].child.None?
  {
    OfSlot(tm, i);
    var s := tm.slots[i];
    var k :| 0 <= k < |tm.log| && IsRequest(tm.log[k], s.gen, s.attempt, s.verb, s.ident);
    assert EventFits(s, tm.log[k]);
  }

  // --- A response as a whole

  lemma QuietInv(tm: Tm, i: nat)
    requires Inv(tm) && i < |tm.slots| && LiveClient(tm.slots[i])
    requires !tm.slots[i].verb.ACK?
    ensures Inv(Put(tm, i, Quiet(tm.slots[i])))
  {
    hide Inv;
    OfSlot(tm, i);
    CalmPut(tm, i, Quiet(tm.slots[i]));
  }

  lemma ReceiveInv(tm: Tm, r: Resp, now: nat, room: Room, react: Reaction)
    requires Inv(tm) && Plausible(tm, r)
    ensures Inv(Receive(tm, r, now, room, react).0)
  {
    hide Inv, HearInvite, HearOther;
    var f := FindFrom(tm.slots, r, 0);
    if f.Some? {
      var i := f.value;
      var s := tm.slots[i];
      var e := Heard(s.gen, s.attempt, Class(r), r.contact);
      assert Answerable(tm, i);
      OfSlot(tm, i);
      NoteOwn(tm, i, e);
      var t := Note(tm, e);
      WasSentGrows(tm.log, e, s.gen, s.attempt, s.verb, s.ident);
      HeardNow(tm.log, s, r);
      QuietInv(t, i);
      var u := Put(t, i, Quiet(s));
      if IsInvite(s) {
        if !(Class(r) == 1 && s.finalReported) {
          HearInviteInv(u, i, r, now, room, react);
        }
      } else {
        HearOtherInv(u, i, r, now, react);
      }
    }
  }
}
