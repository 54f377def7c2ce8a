// Sending, running one slot, and the pump over all of them keep the
// invariant; so do the server side and the calls that add or drop slots.
module RunKeeps {
  import opened Base
  import opened Slots
  import opened Table
  import opened ClientSteps
  import opened Links
  import opened History
  import opened HistoryKeeps
  import opened ClientKeeps
  import opened AbandonKeeps
  import opened ReceiveKeeps
  import opened PumpKeeps

  // --- Sending

  lemma SentJustified(s: Slot, log: seq<Event>, now: nat)
    requires SlotLogged(s, log) && LiveClient(s) && s.nextSend.At? && !s.state.Terminated?
    requires s.verb.BYE? ==> s.parent.None?
    requires s.verb.ACK? ==> s.built
    ensures Justified(log, Sent(s.gen, s.attempt, s.verb, s.ident, now))
  {
    forall k | 0 <= k < |log| && log[k].ByeMade? && log[k].byeGen == s.gen
      ensures SentBy(log, log[k].ackGen)
    {
      assert EventFits(s, log[k]) && ByeHeld(s, log[k], log);
    }
    forall k | 0 <= k < |log|
      ensures Compatible(log[k], Sent(s.gen, s.attempt, s.verb, s.ident, now))
    {
      assert EventFits(s, log[k]);
    }
  }

  lemma NoteSent(tm: Tm, i: nat, now: nat)
    requires Inv(tm) && i < |tm.slots| && LiveClient(tm.slots[i])
    requires tm.slots[i].nextSend.At? && !tm.slots[i].state.Terminated?
    requires tm.slots[i].verb.ACK? ==> tm.slots[i].built
    ensures var s := tm.slots[i];
            Inv(Note(tm, Sent(s.gen, s.attempt, s.verb, s.ident, now)))
  {
    hide Inv;
    OfSlot(tm, i);
    var s := tm.slots[i];
    SentJustified(s, tm.log, now);
    NoteOwn(tm, i, Sent(s.gen, s.attempt, s.verb, s.ident, now));
  }

  lemma NoteSendOk(s: Slot, now: nat)
    requires SlotOk(s) && LiveClient(s) && s.invite.Some? && s.nextSend.At?
    ensures var n := NoteSend(s, now);
      && SlotOk(n) && SameLinks(s, n) && Calm(s, n.(sends := 0)) && n.invite == s.invite
      && n.ident == s.ident && n.nextSend == s.nextSend && n.state == s.state
  {
  }

  lemma ArmBOk(n: Slot, now: nat)
    requires SlotOk(n) && LiveClient(n) && n.invite.Some? && n.nextSend.At?
    ensures var t := ArmTimerB(n, now);
      && SlotOk(t) && SameLinks(n, t) && Calm(n, t) && t.nextSend == n.nextSend
      && t.invite.value.cancel == n.invite.value.cancel && ByeFlag(t) == ByeFlag(n)
      && t.ident == n.ident
  {
    hide TimerBMs;
  }

  lemma NextSendOk(n: Slot, at: Deadline)
    requires SlotOk(n) && LiveClient(n) && n.invite.Some? && n.nextSend.At?
    ensures var t := n.(nextSend := at);
      && SlotOk(t) && SameLinks(n, t) && Calm(n, t) && ByeFlag(t) == ByeFlag(n)
  {
  }

  lemma PostSendOk(n: Slot, now: nat)
    requires SlotOk(n) && LiveClient(n) && n.invite.Some? && n.nextSend.At?
    ensures var t := PostSendInvite(n, now);
      && SlotOk(t) && SameLinks(n, t) && Calm(n, t)
      && t.invite.value.cancel == n.invite.value.cancel && ByeFlag(t) == ByeFlag(n)
      && t.ident == n.ident
  {
    hide InviteDelay, TimerBMs, ArmTimerB, SlotOk;
    var t := ArmTimerB(n, now);
    ArmBOk(n, now);
    NextSendOk(n, Never);
    NextSendOk(t, Never);
    NextSendOk(t, At(now + InviteDelay(t.policy, t.sends)));
  }

  lemma CalmThrough(s: Slot, n: Slot, t: Slot)
    requires Calm(s, n.(sends := 0)) && SameLinks(s, n) && Calm(n, t)
    ensures Calm(s, t.(sends := 0)) && SameLinks(s, t)
  {
  }

  lemma InviteSentOk(s: Slot, now: nat)
    requires SlotOk(s) && LiveClient(s) && s.invite.Some? && s.nextSend.At?
    ensures var t := PostSendInvite(NoteSend(s, now), now);
      && SlotOk(t) && SameLinks(s, t) && Calm(s, t.(sends := 0))
      && t.invite.value.cancel == s.invite.value.cancel && ByeFlag(t) == ByeFlag(s)
      && t.ident == s.ident
  {
    hide NoteSend, PostSendInvite, SlotOk, Calm, SameLinks;
    var n := NoteSend(s, now);
    NoteSendOk(s, now);
    LinksLive(s, n);
    PostSendOk(n, now);
    CalmThrough(s, n, PostSendInvite(n, now));
  }

  lemma LinksLive(s: Slot, n: Slot)
    requires SameLinks(s, n) && LiveClient(s)
    ensures LiveClient(n)
  {
  }

  lemma InviteSentLogged(s: Slot, t: Slot, log: seq<Event>)
    requires SlotLogged(s, log) && LiveClient(s) && Calm(s, t.(sends := 0)) && t.ident == s.ident
    requires WasSent(log, s.gen, s.attempt, s.verb, s.ident)
    ensures SlotLogged(t, log)
  {
    forall k | 0 <= k < |log|
      ensures EventFits(t, log[k]) && ByeHeld(t, log[k], log)
    {
      assert EventFits(s, log[k]) && ByeHeld(s, log[k], log);
    }
    CalmLogged(s, t.(sends := 0), log);
  }

  lemma JustSent(log: seq<Event>, s: Slot, now: nat)
    ensures var l := log + [Sent(s.gen, s.attempt, s.verb, s.ident, now)];
            WasSent(l, s.gen, s.attempt, s.verb, s.ident) && SentBy(l, s.gen)
  {
    var l := log + [Sent(s.gen, s.attempt, s.verb, s.ident, now)];
    assert IsRequest(l[|log|], s.gen, s.attempt, s.verb, s.ident);
    assert IsSent(l[|log|], s.gen);
  }

  lemma InviteSentInv(tm: Tm, i: nat, now: nat)
    requires Inv(tm) && i < |tm.slots| && LiveClient(tm.slots[i]) && tm.slots[i].invite.Some?
    requires tm.slots[i].nextSend.At? && !tm.slots[i].state.Terminated?
    ensures var s := tm.slots[i];
            var t := Note(tm, Sent(s.gen, s.attempt, s.verb, s.ident, now));
            Inv(Put(t, i, PostSendInvite(NoteSend(s, now), now)))
  {
    hide Inv, PostSendInvite, NoteSend;
    var s := tm.slots[i];
    OfSlot(tm, i);
    NoteSent(tm, i, now);
    var t := Note(tm, Sent(s.gen, s.attempt, s.verb, s.ident, now));
    OfSlot(t, i);
    InviteSentOk(s, now);
    JustSent(tm.log, s, now);
    InviteSentLogged(s, PostSendInvite(NoteSend(s, now), now), t.log);
    PutInv(t, i, PostSendInvite(NoteSend(s, now), now));
  }

  lemma OtherSentOk(s: Slot, now: nat)
    requires SlotOk(s) && LiveClient(s) && s.invite.None? && s.nextSend.At? && !s.verb.ACK?
    ensures var t := PostSendOther(NoteSend(s, now), now); SlotOk(t) && Calm(s, t)
  {
  }

  lemma OtherSentInv(tm: Tm, i: nat, now: nat)
    requires Inv(tm) && i < |tm.slots| && LiveClient(tm.slots[i]) && tm.slots[i].invite.None?
    requires tm.slots[i].nextSend.At? && !tm.slots[i].state.Terminated? && !tm.slots[i].verb.ACK?
    ensures var s := tm.slots[i];
            var t := Note(tm, Sent(s.gen, s.attempt, s.verb, s.ident, now));
            Inv(Put(t, i, PostSendOther(NoteSend(s, now), now)))
  {
    hide Inv, PostSendOther, NoteSend;
    var s := tm.slots[i];
    NoteSent(tm, i, now);
    OfSlot(tm, i);
    OtherSentOk(s, now);
    CalmPut(Note(tm, Sent(s.gen, s.attempt, s.verb, s.ident, now)), i,
            PostSendOther(NoteSend(s, now), now));
  }

  // --- An ACK sent, and the BYE behind it set free

  lemma AckQuietOk(s: Slot, now: nat)
    requires SlotOk(s) && LiveClient(s) && s.verb.ACK?
    ensures var t := NoteSend(s, now).(nextSend := Never); SlotOk(t) && Calm(s, t)
  {
  }

  lemma ByeFreedOk(b: Slot, now: nat)
    requires SlotOk(b) && LiveClient(b) && b.verb.BYE? && b.parent.Some?
    ensures SlotOk(b.(parent := None, nextSend := At(now)))
  {
  }

  lemma ByeFreedLogged(tm: Tm, a: nat, b: nat, now: nat)
    requires Inv(tm) && a < |tm.slots| && b < |tm.slots| && LiveClient(tm.slots[a])
    requires tm.slots[a].verb.ACK? && tm.slots[a].child == Some(b) && LiveClient(tm.slots[b])
    requires tm.slots[b].verb.BYE? && SentBy(tm.log, tm.slots[a].gen)
    ensures SlotLogged(tm.slots[b].(parent := None, nextSend := At(now)), tm.log)
  {
    hide Inv;
    OfSlot(tm, a);
    OfSlot(tm, b);
    var s := tm.slots[b];
    var t := s.(parent := None, nextSend := At(now));
    forall k | 0 <= k < |tm.log|
      ensures EventFits(t, tm.log[k]) && ByeHeld(t, tm.log[k], tm.log)
    {
      assert EventFits(s, tm.log[k]);
      AckOfSlot(tm, a, k);
    }
  }

  lemma AckSentInv(tm: Tm, i: nat, now: nat)
    requires Inv(tm) && i < |tm.slots| && LiveClient(tm.slots[i]) && tm.slots[i].verb.ACK?
    requires SentBy(tm.log, tm.slots[i].gen)
    ensures Inv(AckSent(Put(tm, i, NoteSend(tm.slots[i], now)), i, now).0)
  {
    hide Inv, NoteSend, CopyOf, Copies, Evidence;
    var a := tm.slots[i];
    OfSlot(tm, i);
    AckQuietOk(a, now);
    AckQuietSame(a, now);
    var s := NoteSend(a, now).(nextSend := Never);
    PutPut(tm, i, NoteSend(a, now), s);
    CalmPut(tm, i, s);
    var t := Put(tm, i, s);
    if s.child.Some? {
      var b := s.child.value;
      OfSlot(t, b);
      OfSlot(t, i);
      ByeFreedOk(tm.slots[b], now);
      ByeFreedLogged(t, i, b, now);
      NoChildLogged(s, tm.log);
      AckLoses(s, tm.log);
      UnlinkInv(t, i, b, s.(child := None), tm.slots[b].(parent := None, nextSend := At(now)));
      assert AckSent(Put(tm, i, NoteSend(a, now)), i, now).0.slots
          == t.slots[i := s.(child := None)][b := tm.slots[b].(parent := None, nextSend := At(now))];
    }
  }

  lemma AckQuietSame(s: Slot, now: nat)
    ensures NoteSend(s, now).child == s.child && NoteSend(s, now).verb == s.verb
    ensures NoteSend(s, now).(nextSend := Never).child == s.child
  {
  }

  // --- Sending as a whole

  lemma BuiltOk(s: Slot, m: bool, b: bool)
    requires SlotOk(s) && LiveClient(s) && !s.state.Terminated? && s.nextSend.At?
    requires s.matchable ==> m
    requires s.built ==> b
    ensures var t := s.(built := b, matchable := m); SlotOk(t) && Calm(s, t)
  {
  }

  lemma SendNowInv(tm: Tm, i: nat, now: nat, ch: Choice)
    requires Inv(tm) && i < |tm.slots| && LiveClient(tm.slots[i])
    requires tm.slots[i].nextSend.At? && !tm.slots[i].state.Terminated?
    ensures Inv(SendNow(tm, i, now, ch).tm)
  {
    hide Inv, AckSent, PostSendInvite, PostSendOther, NoteSend;
    var s := tm.slots[i];
    OfSlot(tm, i);
    if !s.built && !ch.build.Built? {
      var m := s.matchable || ch.build.IdsOnly?;
      BuiltOk(s, m, s.built);
      assert s.(matchable := m) == s.(built := s.built, matchable := m);
      CalmPut(tm, i, s.(matchable := m));
    } else {
      var b := s.(built := true, matchable := s.matchable || !s.built);
      BuiltOk(s, s.matchable || !s.built, true);
      CalmPut(tm, i, b);
      if ch.sendOk {
        SentSlotInv(Put(tm, i, b), i, now);
        SendShape(tm, i, now, ch);
      }
    }
  }

  // What a send that gets through does, once the request is built
  function SentSlot(t: Tm, i: nat, now: nat): (r: Tm)
    requires i < |t.slots|
  {
    var b := t.slots[i];
    var u := Note(t, Sent(b.gen, b.attempt, b.verb, b.ident, now));
    var n := NoteSend(b, now);
    if b.verb.ACK? then AckSent(Put(u, i, n), i, now).0
    else Put(u, i, if IsInvite(b) then PostSendInvite(n, now) else PostSendOther(n, now))
  }

  lemma SendShape(tm: Tm, i: nat, now: nat, ch: Choice)
    requires i < |tm.slots| && ch.sendOk && (tm.slots[i].built || ch.build.Built?)
    ensures var s := tm.slots[i];
            var b := s.(built := true, matchable := s.matchable || !s.built);
            SendNow(tm, i, now, ch).tm == SentSlot(Put(tm, i, b), i, now)
            && SendNow(tm, i, now, ch).rc == Ok
  {
    hide AckSent, PostSendInvite, PostSendOther;
    var s := tm.slots[i];
    var b := s.(built := true, matchable := s.matchable || !s.built);
    var e := Sent(b.gen, b.attempt, b.verb, b.ident, now);
    var n := NoteSend(b, now);
    PutPut(Note(tm, e), i, b, n);
    PutPut(Note(tm, e), i, b, PostSendInvite(n, now));
    PutPut(Note(tm, e), i, b, PostSendOther(n, now));
    assert Note(Put(tm, i, b), e) == Put(Note(tm, e), i, b);
  }

  lemma SentAckInv(tm: Tm, i: nat, now: nat)
    requires Inv(tm) && i < |tm.slots| && LiveClient(tm.slots[i]) && tm.slots[i].verb.ACK?
    requires tm.slots[i].nextSend.At? && !tm.slots[i].state.Terminated? && tm.slots[i].built
    ensures Inv(SentSlot(tm, i, now))
  {
    hide Inv, AckSent, PostSendInvite, PostSendOther, NoteSend;
    var s := tm.slots[i];
    NoteSent(tm, i, now);
    JustSent(tm.log, s, now);
    NoteSendGen(s, now);
    AckSentInv(Note(tm, Sent(s.gen, s.attempt, s.verb, s.ident, now)), i, now);
  }

  lemma NoteSendGen(s: Slot, now: nat)
    ensures NoteSend(s, now).verb == s.verb && NoteSend(s, now).gen == s.gen
  {
  }

  lemma SentSlotInv(tm: Tm, i: nat, now: nat)
    requires Inv(tm) && i < |tm.slots| && LiveClient(tm.slots[i])
    requires tm.slots[i].nextSend.At? && !tm.slots[i].state.Terminated?
    requires tm.slots[i].verb.ACK? ==> tm.slots[i].built
    ensures Inv(SentSlot(tm, i, now))
  {
    hide Inv, AckSent, PostSendInvite, PostSendOther, NoteSend, SlotLogged;
    var s := tm.slots[i];
    OfSlot(tm, i);
    if s.verb.ACK? {
      SentAckInv(tm, i, now);
    } else if IsInvite(s) {
      InviteSentInv(tm, i, now);
    } else {
      OtherSentInv(tm, i, now);
    }
  }

  // --- One client slot

  lemma ArmCleanupFacts(s: Slot, now: nat)
    ensures var t := ArmCleanup(s, now);
      && t.state == s.state && t.flags == s.flags && t.nextSend == s.nextSend
      && t.timer == s.timer && t.active == s.active && t.role == s.role
      && (t.invite.Some? <==> s.invite.Some?)
  {
  }

  lemma ClientRunInv(tm: Tm, i: nat, now: nat, ch: Choice)
    requires Inv(tm) && i < |tm.slots| && LiveClient(tm.slots[i])
    ensures Inv(ClientRun(tm, i, now, ch).tm)
  {
    hide Inv, ArmCleanup, ExpireLive, FireTimer, SendNow, FinishAbandoned;
    var s := tm.slots[i];
    if !s.state.Terminated? && !s.flags.terminated {
      ArmInv(tm, i, now);
      ArmCleanupFacts(s, now);
      var a := ArmCleanup(s, now);
      var t := Put(tm, i, a);
      if InviteDue(a, now) {
        if !a.flags.abandoned {
          ExpireLiveInv(t, i, now, ch);
        } else {
          FinishInv(t, i);
          PutPut(tm, i, a, FinishAbandoned(a));
        }
      } else if TimerDue(a, now) {
        FireTimerInv(t, i, ch);
      } else if Due(a.nextSend, now) {
        SendNowInv(t, i, now, ch);
      }
    }
  }
}
