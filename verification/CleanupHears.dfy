// A response to an abandoned INVITE only takes its cleanup forward.
module CleanupHears {
  import opened Base
  import opened Slots
  import opened Table
  import opened ClientSteps
  import opened Links
  import opened History
  import opened HistoryKeeps
  import opened AbandonKeeps
  import opened ReceiveKeeps
  import opened FinalKeeps
  import opened Cleanup
  import opened FinalShape

  // --- Provisional responses

  lemma RingForward(s: Slot, ok: bool, now: nat)
    requires Cleaning(s) && Armed(s) && SlotOk(s) && !s.finalReported
    ensures var r := Slots.Ringing(s);
      && r.invite.Some?
      && var u := if !r.invite.value.cancel.Scheduled? then r
                  else ArmCleanup(if ok then CancelStarted(r) else FinishAbandoned(r), now);
         Forward(s, u, now)
  {
  }

  lemma HearRingingForward(tm: Tm, i: nat, now: nat, room: Room)
    requires Inv(tm) && i < |tm.slots| && Cleaning(tm.slots[i]) && Armed(tm.slots[i])
    requires !tm.slots[i].finalReported
    requires WasHeard(tm.log, tm.slots[i].gen, tm.slots[i].attempt, 1)
    requires WasSent(tm.log, tm.slots[i].gen, tm.slots[i].attempt, INVITE, tm.slots[i].ident)
    ensures Forward(tm.slots[i], HearRinging(tm, i, now, room).slots[i], now)
  {
    hide Inv, Slots.Ringing, StartCancel, FinishAbandoned, ArmCleanup, CancelStarted, Forward,
         Cleaning, Armed;
    CleaningFacts(tm.slots[i]);
    var s := Slots.Ringing(tm.slots[i]);
    OfSlot(tm, i);
    RingingFlag(tm.slots[i]);
    RingForward(tm.slots[i], true, now);
    RingForward(tm.slots[i], false, now);
    if s.invite.value.cancel.Scheduled? {
      RingInv(tm, i);
      RingingOk(tm.slots[i]);
      OfSlot(Put(tm, i, s), i);
      StartCancelInv(Put(tm, i, s), i, room.cancelSlot);
    }
  }

  lemma CleaningFacts(s: Slot)
    requires Cleaning(s)
    ensures LiveClient(s) && s.invite.Some? && s.parent.None? && s.flags.abandoned
    ensures !s.state.Terminated?
  {
  }

  // --- Final responses

  lemma AnsweredForward(s: Slot, u: Slot, sclass: nat, now: nat)
    requires Cleaning(s) && Armed(s) && SlotOk(s) && SameCore(InviteAnswered(s, sclass, now), u)
    requires u.finalReported
    ensures Forward(s, u, now)
  {
    hide TimerDMs;
  }

  // Without the room, it is in no phase that is known to end
  lemma UnansweredStuck(s: Slot, u: Slot, sclass: nat, now: nat)
    requires Cleaning(s) && SameCore(InviteAnswered(s, sclass, now), u) && !u.finalReported
    ensures !Forward(s, u, now)
  {
  }

  // --- A response as a whole

  lemma AbandonedIsDeaf(s: Slot)
    requires Cleaning(s) && SlotOk(s)
    ensures !s.app.response && !s.app.timeout
  {
  }

  lemma HearInviteForward(tm: Tm, i: nat, r: Resp, now: nat, room: Room, react: Reaction)
    requires Inv(tm) && i < |tm.slots| && Cleaning(tm.slots[i]) && Armed(tm.slots[i])
    requires tm.slots[i].nextSend.Never? && Class(r) >= 1
    requires Class(r) == 1 ==>
               !tm.slots[i].finalReported && WasHeard(tm.log, tm.slots[i].gen, tm.slots[i].attempt, 1)
    requires WasSent(tm.log, tm.slots[i].gen, tm.slots[i].attempt, INVITE, tm.slots[i].ident)
    requires Class(r) >= 2 ==> HeardFor(tm.log, tm.slots[i], r)
    ensures var w := HearInvite(tm, i, r, now, room, react);
            Forward(tm.slots[i], w.0.slots[i], now) <==> w.1 == Ok || tm.slots[i].finalReported
  {
    hide Inv, InviteFinal, HearRinging, Cleaning, Armed, Forward, InviteAnswered, SameCore;
    OfSlot(tm, i);
    CleaningFacts(tm.slots[i]);
    AbandonedIsDeaf(tm.slots[i]);
    if Class(r) == 1 {
      HearRingingForward(tm, i, now, room);
      HearRingingInv(tm, i, now, room);
    } else {
      InviteFinalCore(tm, i, r, now, room);
      InviteFinalInv(tm, i, r, now, room);
      var (t, rc) := InviteFinal(tm, i, r, now, room);
      if rc == Ok || tm.slots[i].finalReported {
        AnsweredForward(tm.slots[i], t.slots[i], Class(r), now);
      } else {
        UnansweredStuck(tm.slots[i], t.slots[i], Class(r), now);
      }
    }
  }

  lemma QuietStays(s: Slot)
    requires Cleaning(s) && Armed(s)
    ensures SamePhase(s, Quiet(s)) && Armed(Quiet(s))
  {
  }

  lemma QuietForward(s: Slot, u: Slot, now: nat)
    requires Cleaning(s) && Cleaning(Quiet(s))
    ensures Forward(s, u, now) <==> Forward(Quiet(s), u, now)
  {
  }

  // Any response to it, unless its first final one lacks the room for ACK and
  // BYE
  lemma ReceiveForward(tm: Tm, i: nat, r: Resp, now: nat, room: Room, react: Reaction)
    requires Inv(tm) && Plausible(tm, r) && i < |tm.slots|
    requires Cleaning(tm.slots[i]) && Armed(tm.slots[i])
    requires FindFrom(tm.slots, r, 0) == Some(i)
    ensures var w := Receive(tm, r, now, room, react);
      Forward(tm.slots[i], w.0.slots[i], now) <==> w.1 == Ok || tm.slots[i].finalReported
  {
    hide Inv, HearInvite, HearOther, Cleaning, Armed, Forward, SamePhase, Quiet;
    var s := tm.slots[i];
    var e := Heard(s.gen, s.attempt, Class(r), r.contact);
    CleaningFacts(s);
    assert Answerable(tm, i);
    OfSlot(tm, i);
    NoteOwn(tm, i, e);
    var t := Note(tm, e);
    WasSentGrows(tm.log, e, s.gen, s.attempt, s.verb, s.ident);
    HeardNow(tm.log, s, r);
    QuietInv(t, i);
    QuietStays(s);
    PhaseStays(s, Quiet(s));
    QuietSame(s);
    var u := Put(t, i, Quiet(s));
    if Class(r) == 1 && s.finalReported {
      StaysIsForward(s, s, now) by { PhaseSelf(s); }
    } else {
      HearInviteForward(u, i, r, now, room, react);
      QuietForward(s, Receive(tm, r, now, room, react).0.slots[i], now);
    }
  }

  lemma PhaseSelf(s: Slot)
    requires Cleaning(s)
    ensures SamePhase(s, s)
  {
  }

  lemma PhaseStays(s: Slot, u: Slot)
    requires Cleaning(s) && SamePhase(s, u)
    ensures Cleaning(u)
  {
  }

  lemma QuietSame(s: Slot)
    ensures var t := Quiet(s);
      t.gen == s.gen && t.attempt == s.attempt && t.ident == s.ident && t.nextSend.Never?
      && t.finalReported == s.finalReported && t.verb == s.verb && t.invite == s.invite
  {
  }
}
