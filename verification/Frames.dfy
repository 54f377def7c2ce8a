// What an operation on one transaction leaves alone: every other INVITE and
// server transaction that may not be evicted.
module Frames {
  import opened Base
  import opened Slots
  import opened Table
  import opened ClientSteps
  import opened ServerSteps
  import opened Machine
  import opened Links
  import opened History
  import opened HistoryKeeps
  import opened AbandonKeeps
  import opened ReceiveKeeps
  import opened FinalKeeps
  import opened PumpKeeps
  import opened RunKeeps
  import opened Runs

  // A transaction of its own, no ACK, CANCEL or BYE made on the side
  predicate Standing(s: Slot) {
    s.active && s.parent.None? && (s.role.Server? || s.invite.Some? || s.app.owned)
  }

  // ... that stays until it is done
  predicate Pinned(s: Slot) {
    Standing(s) && !Evictable(s)
  }

  // A slot never goes back to an earlier life
  predicate Onwards(tm: Tm, t: Tm) {
    && |t.slots| == |tm.slots| && t.gens >= tm.gens
    && forall j :: 0 <= j < |tm.slots| && t.slots[j].active ==>
         (tm.slots[j].active && t.slots[j].gen == tm.slots[j].gen) || t.slots[j].gen >= tm.gens
  }

  predicate Replaced(s: Slot, gens: nat) {
    s.active ==> s.gen >= gens
  }

  predicate KeptAt(s: Slot, t: Slot, gens: nat) {
    Standing(s) ==> t == s || (!Pinned(s) && Replaced(t, gens))
  }

  predicate Keeps(tm: Tm, t: Tm, x: nat) {
    Onwards(tm, t) &&
    forall j {:trigger KeptAt(tm.slots[j], t.slots[j], tm.gens)} ::
      0 <= j < |tm.slots| && j != x ==> KeptAt(tm.slots[j], t.slots[j], tm.gens)
  }

  lemma KeepsTrans(tm: Tm, t: Tm, u: Tm, x: nat)
    requires Keeps(tm, t, x) && Keeps(t, u, x)
    ensures Keeps(tm, u, x)
  {
    forall j | 0 <= j < |tm.slots| && j != x
      ensures KeptAt(tm.slots[j], u.slots[j], tm.gens)
    {
      assert KeptAt(tm.slots[j], t.slots[j], tm.gens) && KeptAt(t.slots[j], u.slots[j], t.gens);
    }
  }

  lemma VacateOnwards(tm: Tm, c: nat)
    requires Inv(tm) && c < |tm.slots| && (tm.slots[c].active ==> Evictable(tm.slots[c]))
    ensures forall j :: 0 <= j < |tm.slots| ==>
              Vacate(tm, c).slots[j] == EMPTY || Vacate(tm, c).slots[j] == tm.slots[j]
  {
    if tm.slots[c].active {
      DropInv(tm, c);
    }
  }

  lemma NewSlotOnwards(tm: Tm, s: Slot, space: Space)
    requires Inv(tm)
    ensures Onwards(tm, NewSlot(tm, s, space).0)
    ensures forall j :: 0 <= j < |tm.slots| ==>
              var u := NewSlot(tm, s, space).0.slots[j];
              u == tm.slots[j] || Replaced(u, tm.gens)
  {
    hide Inv;
    AllocRight(tm.slots);
    var c := AllocIndex(tm.slots);
    if c.Some? {
      VacateOnwards(tm, c.value);
    }
  }

  lemma NewSlotKeepsPinned(tm: Tm, s: Slot, space: Space, x: nat)
    requires Inv(tm) && Fresh(s, tm.gens) && ParentFor(tm.slots, s) && Unborn(s)
    ensures Keeps(tm, NewSlot(tm, s, space).0, x)
    ensures forall j :: 0 <= j < |tm.slots| && Pinned(tm.slots[j]) ==>
              NewSlot(tm, s, space).1 != Some(j)
  {
    hide Inv;
    NewSlotInv(tm, s, space);
    NewSlotOnwards(tm, s, space);
    forall j | 0 <= j < |tm.slots| && Pinned(tm.slots[j])
      ensures Safe(tm.slots, j)
    {
    }
  }

  // One more change, to the transaction operated on, to what is no INVITE, or
  // to a transaction just made
  predicate MayPut(tm: Tm, t: Tm, x: nat, j: nat, s: Slot) {
    && j < |tm.slots| == |t.slots|
    && s.active == t.slots[j].active && s.gen == t.slots[j].gen
    && (j == x || !Standing(tm.slots[j]) || t.slots[j].gen >= tm.gens)
  }

  lemma PutMore(tm: Tm, t: Tm, x: nat, j: nat, s: Slot)
    requires Keeps(tm, t, x) && MayPut(tm, t, x, j, s)
    requires j != x && t.slots[j].gen >= tm.gens ==> !Pinned(tm.slots[j])
    ensures Keeps(tm, Put(t, j, s), x)
  {
    var u := Put(t, j, s);
    forall k | 0 <= k < |tm.slots| && k != x
      ensures KeptAt(tm.slots[k], u.slots[k], tm.gens)
    {
      assert KeptAt(tm.slots[k], t.slots[k], tm.gens);
    }
  }

  lemma NoteMore(tm: Tm, t: Tm, x: nat, e: Event)
    requires Keeps(tm, t, x)
    ensures Keeps(tm, Note(t, e), x)
  {
  }

  lemma KeepsSelf(tm: Tm, x: nat)
    ensures Keeps(tm, tm, x)
  {
  }

  lemma PutKeeps(tm: Tm, i: nat, s: Slot)
    requires i < |tm.slots| && s.active == tm.slots[i].active && s.gen == tm.slots[i].gen
    ensures Keeps(tm, Put(tm, i, s), i)
  {
    KeepsSelf(tm, i);
    PutMore(tm, tm, i, i, s);
  }

  lemma StartCancelKeeps(tm: Tm, i: nat, space: Space)
    requires Inv(tm) && Cancellable(tm, i)
    ensures Keeps(tm, StartCancel(tm, i, space).0, i)
  {
    hide Inv, CancelReady, Keeps, CloneOf;
    var s := tm.slots[i];
    OfSlot(tm, i);
    KeepsSelf(tm, i);
    if s.invite.value.cancel.OnWire? {
    } else if !s.invite.value.provisional {
      PutKeeps(tm, i, CancelStarted(s));
    } else {
      CloneFresh(s, CANCEL, i, tm.gens);
      CloneParts(s, CANCEL, i);
      NewSlotKeepsPinned(tm, CloneOf(s, CANCEL, i), CloneSpace(s, space), i);
      NewSlotInv(tm, CloneOf(s, CANCEL, i), CloneSpace(s, space));
      var (t, c) := NewSlot(tm, CloneOf(s, CANCEL, i), CloneSpace(s, space));
      if c.Some? {
        assert Safe(tm.slots, i);
        PutMore(tm, t, i, i, CancelStarted(s));
        var u := Put(t, i, CancelStarted(s));
        var e := CancelMade(s.gen, s.attempt, tm.gens, s.ident);
        NoteMore(tm, u, i, e);
        ReadySame(u.slots[c.value]);
        PutMore(tm, Note(u, e), i, c.value, CancelReady(u.slots[c.value]));
      }
    }
  }

  lemma CloneParts(src: Slot, verb: Method, p: nat)
    ensures CloneOf(src, verb, p).parent == (if verb.ACK? then Some(p) else None)
    ensures CloneOf(src, verb, p).role.Client? && CloneOf(src, verb, p).verb == verb
  {
  }

  lemma ReadySame(s: Slot)
    ensures CancelReady(s).active == s.active && CancelReady(s).gen == s.gen
  {
  }

  lemma SameActive(s: Slot, t: Slot)
    requires SameLinks(s, t)
    ensures t.active == s.active && t.gen == s.gen
  {
  }

  lemma DetachCalm(s: Slot)
    requires SlotOk(s) && LiveClient(s) && s.invite.Some? && !s.state.Terminated? && !s.finalReported
    ensures Calm(s, DetachCallbacks(s)) && SlotOk(DetachCallbacks(s))
  {
  }

  lemma AbandonKeepsPinned(tm: Tm, i: nat, space: Space)
    requires Inv(tm) && i < |tm.slots| && LiveClient(tm.slots[i]) && tm.slots[i].invite.Some?
    requires !tm.slots[i].state.Terminated? && !tm.slots[i].finalReported
    ensures Keeps(tm, Abandon(tm, i, space), i)
  {
    hide Inv, StartCancel, FinishAbandoned, Keeps, SameLinks, Calm;
    var s := DetachCallbacks(tm.slots[i]);
    OfSlot(tm, i);
    DetachCalm(tm.slots[i]);
    CalmPut(tm, i, s);
    PutKeeps(tm, i, s);
    var p := Put(tm, i, s);
    FinishSame(s);
    SameActive(s, FinishAbandoned(s));
    if s.sends == 0 {
      PutKeeps(tm, i, FinishAbandoned(s));
    } else {
      StartCancelKeeps(p, i, space);
      StartCancelInv(p, i, space);
      var t := StartCancel(p, i, space).0;
      KeepsTrans(tm, p, t, i);
      if !StartCancel(p, i, space).1 {
        FinishSame(t.slots[i]);
        SameActive(t.slots[i], FinishAbandoned(t.slots[i]));
        PutMore(tm, t, i, i, FinishAbandoned(t.slots[i]));
      }
    }
  }

  lemma TellKeeps(tm: Tm, i: nat, l: bool, what: Report, react: Reaction)
    requires i < |tm.slots|
    ensures Keeps(tm, Tell(tm, i, l, what, react), i)
  {
  }

  lemma NextKeeps(tm: Tm, i: nat, b: Build)
    ensures Keeps(tm, NextTx(tm, i, b).0, i)
  {
  }

  // --- Responses

  lemma HearRingingKeeps(tm: Tm, i: nat, now: nat, room: Room)
    requires Inv(tm) && i < |tm.slots| && LiveClient(tm.slots[i]) && tm.slots[i].invite.Some?
    requires !tm.slots[i].state.Terminated? && !tm.slots[i].finalReported
    requires WasHeard(tm.log, tm.slots[i].gen, tm.slots[i].attempt, 1)
    requires WasSent(tm.log, tm.slots[i].gen, tm.slots[i].attempt, INVITE, tm.slots[i].ident)
    ensures Keeps(tm, HearRinging(tm, i, now, room), i)
  {
    hide Inv, Slots.Ringing, StartCancel, FinishAbandoned, ArmCleanup, Keeps;
    RingInv(tm, i);
    RingingOk(tm.slots[i]) by { OfSlot(tm, i); }
    RingingFlag(tm.slots[i]);
    var s := Slots.Ringing(tm.slots[i]);
    var t := Put(tm, i, s);
    PutKeeps(tm, i, s);
    if s.invite.value.cancel.Scheduled? {
      OfSlot(t, i);
      StartCancelKeeps(t, i, room.cancelSlot);
      StartCancelInv(t, i, room.cancelSlot);
      var (u, ok) := StartCancel(t, i, room.cancelSlot);
      KeepsTrans(tm, t, u, i);
      FinishSame(u.slots[i]);
      CancelStartedSame(s);
      if !ok {
        PutMore(tm, u, i, i, FinishAbandoned(u.slots[i]));
      }
      var w := if ok then u else Put(u, i, FinishAbandoned(u.slots[i]));
      ArmSame(w.slots[i], now);
      PutMore(tm, w, i, i, ArmCleanup(w.slots[i], now));
    }
  }

  lemma NeedAckKeeps(tm: Tm, i: nat, space: Space)
    requires Inv(tm) && Answering(tm, i)
    ensures Keeps(tm, NeedAck(tm, i, space), i)
  {
    hide Inv, Keeps, CloneOf;
    OfSlot(tm, i);
    KeepsSelf(tm, i);
    if tm.slots[i].child.None? {
      CloneFresh(tm.slots[i], ACK, i, tm.gens);
      CloneParts(tm.slots[i], ACK, i);
      assert Safe(tm.slots, i);
      NewSlotKeepsPinned(tm, CloneOf(tm.slots[i], ACK, i), CloneSpace(tm.slots[i], space), i);
      NewSlotInv(tm, CloneOf(tm.slots[i], ACK, i), CloneSpace(tm.slots[i], space));
      var (t, c) := NewSlot(tm, CloneOf(tm.slots[i], ACK, i), CloneSpace(tm.slots[i], space));
      if c.Some? {
        PutMore(tm, t, i, i, t.slots[i].(child := c));
      }
    }
  }

  lemma QueueByeKeeps(tm: Tm, i: nat, a: nat, r: Resp, room: Room)
    requires Inv(tm) && AckOf(tm, i, a) && tm.slots[i].flags.abandoned
    ensures Keeps(tm, QueueBye(tm, i, r, room).0, i)
  {
    hide Inv, Keeps, WithBye, ByeOf;
    OfSlot(tm, i);
    OfSlot(tm, a);
    KeepsSelf(tm, i);
    var s := tm.slots[i];
    if Class(r) == 2 && !s.invite.value.byeStarted && room.byeFits {
      var n := ByeOf(s, i, r, tm.reliable, room.byeBranch);
      ByeFresh(s, i, r, tm.reliable, room.byeBranch, tm.gens);
      ByeParts(s, i, r, tm.reliable, room.byeBranch);
      assert Safe(tm.slots, i) && Safe(tm.slots, a);
      NewSlotKeepsPinned(tm, n, room.byeSlot, i);
      NewSlotInv(tm, n, room.byeSlot);
      var (t, b) := NewSlot(tm, n, room.byeSlot);
      if b.Some? {
        WithByeSame(t.slots[i]);
        PutMore(tm, t, i, i, WithBye(t.slots[i]));
        var e := ByeMade(s.gen, s.attempt, tm.slots[a].gen, tm.gens, s.ident, r.contact, room.byeBranch);
        NoteMore(tm, Put(t, i, WithBye(t.slots[i])), i, e);
        var u := Note(Put(t, i, WithBye(t.slots[i])), e);
        PutMore(tm, u, i, a, u.slots[a].(child := b));
      }
    }
  }

  lemma WithByeSame(s: Slot)
    ensures WithBye(s).active == s.active && WithBye(s).gen == s.gen
  {
  }

  lemma BuildAckSame(a: Slot, src: Slot, r: Resp, branch: nat)
    ensures BuildAck(a, src, r, branch).active == a.active
    ensures BuildAck(a, src, r, branch).gen == a.gen
  {
  }

  lemma ArmAckKeeps(tm: Tm, i: nat, a: nat, r: Resp, now: nat)
    requires Inv(tm) && AckOf(tm, i, a)
    ensures Keeps(tm, ArmAck(tm, i, a, r, now), i)
  {
    hide Inv, Keeps;
    OfSlot(tm, a);
    KeepsSelf(tm, i);
    PutMore(tm, tm, i, a, tm.slots[a].(nextSend := At(now)));
    var u := Put(tm, a, tm.slots[a].(nextSend := At(now)));
    PutMore(tm, u, i, i, u.slots[i].(finalReported := true));
    NoteMore(tm, Put(u, i, u.slots[i].(finalReported := true)), i,
             AckArmed(tm.slots[i].gen, tm.slots[a].gen, Class(r), tm.slots[i].flags.abandoned));
  }

  lemma FinalTailKeeps(t: Tm, i: nat, a: nat, r: Resp, now: nat, room: Room)
    requires Inv(t) && AckOf(t, i, a)
    requires HeardFor(t.log, t.slots[i], r)
    ensures Keeps(t, FinalTail(t, i, a, r, now, room).0, i)
  {
    hide Inv, BuildAck, QueueBye, ArmAck, Keeps;
    var s := t.slots[i];
    var u := AckBuilding(t, i, a, r, room.ackBranch);
    OfSlot(t, a);
    KeepsSelf(t, i);
    BuildAckInv(t, i, a, r, room.ackBranch);
    if !t.slots[a].built {
      var e := AckBuilt(s.gen, s.attempt, t.slots[a].gen, Class(r), s.ident, r.contact, room.ackBranch);
      BuildAckSame(t.slots[a], s, r, room.ackBranch);
      NoteMore(t, t, i, e);
      PutMore(t, Note(t, e), i, a, BuildAck(t.slots[a], s, r, room.ackBranch));
    }
    if s.flags.abandoned {
      QueueByeInv(u, i, a, r, room);
      QueueByeKeeps(u, i, a, r, room);
    } else {
      KeepsSelf(u, i);
    }
    var (w, rc) := if s.flags.abandoned then QueueBye(u, i, r, room) else (u, Ok);
    KeepsTrans(t, u, w, i);
    if rc == Ok {
      ArmAckKeeps(w, i, a, r, now);
      KeepsTrans(t, w, ArmAck(w, i, a, r, now), i);
    }
  }

  lemma InviteFinalKeeps(tm: Tm, i: nat, r: Resp, now: nat, room: Room)
    requires Inv(tm) && i < |tm.slots| && LiveClient(tm.slots[i]) && tm.slots[i].invite.Some?
    requires !tm.slots[i].state.Terminated? && tm.slots[i].nextSend.Never?
    requires HeardFor(tm.log, tm.slots[i], r)
    ensures Keeps(tm, InviteFinal(tm, i, r, now, room).0, i)
  {
    hide Inv, InviteAnswered, NeedAck, FinalTail, AckOf, Answering, Keeps;
    var s := InviteAnswered(tm.slots[i], Class(r), now);
    OfSlot(tm, i);
    AnsweredOk(tm.slots[i], Class(r), now);
    CalmPut(tm, i, s);
    PutKeeps(tm, i, s);
    var p := Put(tm, i, s);
    IsAnswering(p, i);
    NeedAckInv(p, i, room.ackSlot);
    NeedAckKeeps(p, i, room.ackSlot);
    var t := NeedAck(p, i, room.ackSlot);
    KeepsTrans(tm, p, t, i);
    if t.slots[i].child.Some? {
      var a := t.slots[i].child.value;
      AckOfChild(t, i);
      IsAck(t, i, a);
      FinalTailKeeps(t, i, a, r, now, room);
      KeepsTrans(tm, t, FinalTail(t, i, a, r, now, room).0, i);
    }
  }

  lemma HearInviteKeeps(tm: Tm, i: nat, r: Resp, now: nat, room: Room, react: Reaction)
    requires Inv(tm) && i < |tm.slots| && LiveClient(tm.slots[i]) && tm.slots[i].invite.Some?
    requires !tm.slots[i].state.Terminated? && tm.slots[i].nextSend.Never? && Class(r) >= 1
    requires Class(r) == 1 ==>
               !tm.slots[i].finalReported && WasHeard(tm.log, tm.slots[i].gen, tm.slots[i].attempt, 1)
    requires WasSent(tm.log, tm.slots[i].gen, tm.slots[i].attempt, INVITE, tm.slots[i].ident)
    requires Class(r) >= 2 ==> HeardFor(tm.log, tm.slots[i], r)
    ensures Keeps(tm, HearInvite(tm, i, r, now, room, react).0, i)
  {
    hide Inv, InviteFinal, HearRinging, Tell, Keeps, Settle;
    if Class(r) == 1 {
      HearRingingKeeps(tm, i, now, room);
      var t := HearRinging(tm, i, now, room);
      var l := t.slots[i].app.response;
      TellKeeps(t, i, l, Progress, react);
      KeepsTrans(tm, t, Tell(t, i, l, Progress, react), i);
    } else {
      InviteFinalKeeps(tm, i, r, now, room);
      var (t, rc) := InviteFinal(tm, i, r, now, room);
      var l := !tm.slots[i].finalReported && t.slots[i].app.response;
      TellKeeps(t, i, l, Final, react);
      var u := Tell(t, i, l, Final, react);
      KeepsTrans(tm, t, u, i);
      SettleKeeps(u, i);
      KeepsTrans(tm, u, Settle(u, i), i);
    }
  }

  lemma SettleKeeps(tm: Tm, i: nat)
    requires i < |tm.slots|
    ensures Keeps(tm, Settle(tm, i), i)
  {
    hide Keeps;
    KeepsSelf(tm, i);
    PutMore(tm, tm, i, i, ReleaseOutbound(tm.slots[i]));
  }

  lemma AnsweredSame(s: Slot, now: nat)
    ensures OtherAnswered(s, now).active == s.active && OtherAnswered(s, now).gen == s.gen
  {
  }

  lemma HearOtherKeeps(tm: Tm, i: nat, r: Resp, now: nat, react: Reaction)
    requires i < |tm.slots|
    ensures Keeps(tm, HearOther(tm, i, r, now, react), i)
  {
    hide Tell, OtherAnswered, Keeps, Settle;
    var s := tm.slots[i];
    TellKeeps(tm, i, s.app.response, Progress, react);
    var t := Put(tm, i, OtherAnswered(s, now));
    var l := !s.finalReported && s.app.response;
    AnsweredSame(s, now);
    PutKeeps(tm, i, OtherAnswered(s, now));
    TellKeeps(t, i, l, Final, react);
    KeepsTrans(tm, t, Tell(t, i, l, Final, react), i);
    SettleKeeps(Tell(t, i, l, Final, react), i);
    KeepsTrans(tm, Tell(t, i, l, Final, react), Settle(Tell(t, i, l, Final, react), i), i);
  }

  // The response in hand leaves every INVITE but its own alone
  lemma ReceiveKeepsPinned(tm: Tm, r: Resp, now: nat, room: Room, react: Reaction)
    requires Inv(tm) && Plausible(tm, r)
    ensures var f := FindFrom(tm.slots, r, 0);
            Keeps(tm, Receive(tm, r, now, room, react).0, if f.Some? then f.value else |tm.slots|)
  {
    hide Inv, HearInvite, HearOther, Keeps;
    var f := FindFrom(tm.slots, r, 0);
    KeepsSelf(tm, if f.Some? then f.value else |tm.slots|);
    if f.Some? {
      var i := f.value;
      var s := tm.slots[i];
      var e := Heard(s.gen, s.attempt, Class(r), r.contact);
      assert Answerable(tm, i);
      OfSlot(tm, i);
      NoteOwn(tm, i, e);
      NoteMore(tm, tm, i, e);
      var t := Note(tm, e);
      WasSentGrows(tm.log, e, s.gen, s.attempt, s.verb, s.ident);
      HeardNow(tm.log, s, r);
      QuietInv(t, i);
      var u := Put(t, i, Quiet(s));
      PutMore(tm, t, i, i, Quiet(s));
      if IsInvite(s) {
        if !(Class(r) == 1 && s.finalReported) {
          HearInviteKeeps(u, i, r, now, room, react);
          KeepsTrans(tm, u, HearInvite(u, i, r, now, room, react).0, i);
        }
      } else {
        HearOtherKeeps(u, i, r, now, react);
        KeepsTrans(tm, u, HearOther(u, i, r, now, react), i);
      }
    }
  }

  // --- The pump

  lemma ExpireLiveKeeps(tm: Tm, i: nat, now: nat, ch: Choice)
    requires Inv(tm) && i < |tm.slots| && LiveClient(tm.slots[i]) && tm.slots[i].invite.Some?
    requires !tm.slots[i].state.Terminated? && !tm.slots[i].finalReported
    ensures Keeps(tm, ExpireLive(tm, i, now, ch), i)
  {
    hide Inv, Abandon, Tell, ArmCleanup, Keeps;
    AbandonKeepsPinned(tm, i, ch.cancelSlot);
    var t := Abandon(tm, i, ch.cancelSlot);
    ArmSame(t.slots[i], now);
    PutMore(tm, t, i, i, ArmCleanup(t.slots[i], now));
    var u := Put(t, i, ArmCleanup(t.slots[i], now));
    TellKeeps(u, i, tm.slots[i].app.timeout, TimedOut, ch.react);
    var w := Tell(u, i, tm.slots[i].app.timeout, TimedOut, ch.react);
    KeepsTrans(tm, u, w, i);
    NoteMore(tm, w, i, Detached(tm.slots[i].gen));
  }

  lemma RetireSame(s: Slot)
    ensures RetireChild(s).active == s.active && RetireChild(s).gen == s.gen
  {
  }

  // The chain below a transaction holds none that stands on its own
  lemma ChainIsNotStanding(tm: Tm, i: nat)
    requires Inv(tm) && i < |tm.slots| && LiveClient(tm.slots[i])
    ensures var c := tm.slots[i].child;
      c.Some? ==>
        && c.value < |tm.slots| && !Standing(tm.slots[c.value])
        && (tm.slots[c.value].child.Some? ==>
              tm.slots[c.value].child.value < |tm.slots|
              && !Standing(tm.slots[tm.slots[c.value].child.value]))
  {
    OfSlot(tm, i);
    if tm.slots[i].child.Some? {
      var c := tm.slots[i].child.value;
      OfSlot(tm, c);
      if tm.slots[c].child.Some? {
        OfSlot(tm, tm.slots[c].child.value);
      }
    }
  }

  lemma TerminateChildKeeps(tm: Tm, i: nat)
    requires i < |tm.slots|
    requires var c := tm.slots[i].child;
      c.Some? && c.value < |tm.slots| ==>
        (c.value == i || !Standing(tm.slots[c.value]))
        && (tm.slots[c.value].child.Some? && tm.slots[c.value].child.value < |tm.slots| ==>
              tm.slots[c.value].child.value == i
              || !Standing(tm.slots[tm.slots[c.value].child.value]))
    ensures Keeps(tm, tm.(slots := TerminateChild(tm.slots, i)), i)
  {
    hide Keeps, RetireChild;
    KeepsSelf(tm, i);
    var c := tm.slots[i].child;
    if c.Some? && c.value < |tm.slots| {
      var g := tm.slots[c.value].child;
      var t := tm;
      if g.Some? && g.value < |tm.slots| {
        RetireSame(tm.slots[g.value]);
        t := Put(tm, g.value, RetireChild(tm.slots[g.value]));
        PutMore(tm, tm, i, g.value, RetireChild(tm.slots[g.value]));
      }
      RetireSame(t.slots[c.value]);
      PutMore(tm, t, i, c.value, RetireChild(t.slots[c.value]));
      var u := Put(t, c.value, RetireChild(t.slots[c.value]));
      PutMore(tm, u, i, i, u.slots[i].(child := None));
      assert Put(u, i, u.slots[i].(child := None)) == tm.(slots := TerminateChild(tm.slots, i));
    }
  }

  lemma FireTimerKeeps(tm: Tm, i: nat, ch: Choice)
    requires Inv(tm) && i < |tm.slots| && LiveClient(tm.slots[i])
    ensures Keeps(tm, FireTimer(tm, i, ch), i)
  {
    hide Inv, Tell, TerminateChild, ClearTimer, MarkTerminated, Keeps, ReleaseOutbound;
    var s := tm.slots[i];
    ChainIsNotStanding(tm, i);
    ExpiredFacts(s);
    var t := Put(tm, i, Expired(s));
    PutKeeps(tm, i, Expired(s));
    TerminateChildKeeps(t, i);
    var u := t.(slots := TerminateChild(t.slots, i));
    KeepsTrans(tm, t, u, i);
    var l := !s.finalReported && s.app.timeout;
    TellKeeps(u, i, l, TimedOut, ch.react);
    var w := Tell(u, i, l, TimedOut, ch.react);
    KeepsTrans(tm, u, w, i);
    ReleasedFacts(w.slots[i]);
    PutMore(tm, w, i, i, ReleaseOutbound(w.slots[i]));
  }

  lemma AckSentKeeps(tm: Tm, i: nat, now: nat)
    requires i < |tm.slots|
    requires tm.slots[i].child.Some? && tm.slots[i].child.value < |tm.slots| ==>
               tm.slots[i].child.value == i || !Standing(tm.slots[tm.slots[i].child.value])
    ensures Keeps(tm, AckSent(tm, i, now).0, i)
  {
    hide Keeps;
    KeepsSelf(tm, i);
    var s := tm.slots[i].(nextSend := Never);
    PutMore(tm, tm, i, i, s);
    if s.child.Some? && s.child.value < |tm.slots| {
      var b := s.child.value;
      PutMore(tm, tm, i, b, tm.slots[b].(parent := None, nextSend := At(now)));
      PutMore(tm, Put(tm, b, tm.slots[b].(parent := None, nextSend := At(now))), i, i,
              s.(child := None));
    }
  }

  lemma SentParts(s: Slot, now: nat)
    ensures NoteSend(s, now).active == s.active && NoteSend(s, now).gen == s.gen
    ensures NoteSend(s, now).child == s.child
    ensures PostSendInvite(s, now).active == s.active && PostSendInvite(s, now).gen == s.gen
    ensures PostSendOther(s, now).active == s.active && PostSendOther(s, now).gen == s.gen
  {
    hide InviteDelay, OtherDelay, TimerBMs, TimerFMs;
  }

  lemma SentSlotKeeps(t: Tm, i: nat, now: nat)
    requires i < |t.slots|
    requires t.slots[i].child.Some? && t.slots[i].child.value < |t.slots| ==>
               t.slots[i].child.value == i || !Standing(t.slots[t.slots[i].child.value])
    ensures Keeps(t, SentSlot(t, i, now), i)
  {
    hide PostSendInvite, PostSendOther, NoteSend, AckSent, Keeps;
    var b := t.slots[i];
    var e := Sent(b.gen, b.attempt, b.verb, b.ident, now);
    var u := Note(t, e);
    KeepsSelf(t, i);
    NoteMore(t, t, i, e);
    var n := NoteSend(b, now);
    SentParts(b, now);
    SentParts(n, now);
    if b.verb.ACK? {
      PutMore(t, u, i, i, n);
      AckSentKeeps(Put(u, i, n), i, now);
      KeepsTrans(t, Put(u, i, n), AckSent(Put(u, i, n), i, now).0, i);
    } else {
      PutMore(t, u, i, i, if IsInvite(b) then PostSendInvite(n, now) else PostSendOther(n, now));
    }
  }

  lemma SendNowKeeps(tm: Tm, i: nat, now: nat, ch: Choice)
    requires Inv(tm) && i < |tm.slots| && LiveClient(tm.slots[i])
    ensures Keeps(tm, SendNow(tm, i, now, ch).tm, i)
  {
    hide Inv, PostSendInvite, PostSendOther, NoteSend, AckSent, Keeps, SentSlot;
    var s := tm.slots[i];
    ChainIsNotStanding(tm, i);
    if !s.built && !ch.build.Built? {
      PutKeeps(tm, i, s.(matchable := s.matchable || ch.build.IdsOnly?));
    } else {
      var b := s.(built := true, matchable := s.matchable || !s.built);
      PutKeeps(tm, i, b);
      if ch.sendOk {
        SendShape(tm, i, now, ch);
        SentSlotKeeps(Put(tm, i, b), i, now);
        KeepsTrans(tm, Put(tm, i, b), SentSlot(Put(tm, i, b), i, now), i);
      }
    }
  }

  lemma ClientRunKeeps(tm: Tm, i: nat, now: nat, ch: Choice)
    requires Inv(tm) && i < |tm.slots| && LiveClient(tm.slots[i])
    ensures Keeps(tm, ClientRun(tm, i, now, ch).tm, i)
  {
    hide Inv, ArmCleanup, ExpireLive, FireTimer, SendNow, FinishAbandoned, Keeps;
    var s := tm.slots[i];
    KeepsSelf(tm, i);
    if !s.state.Terminated? && !s.flags.terminated {
      ArmInv(tm, i, now);
      ArmCleanupFacts(s, now);
      ArmSame(s, now);
      var a := ArmCleanup(s, now);
      PutKeeps(tm, i, a);
      var t := Put(tm, i, a);
      OfSlot(t, i);
      if InviteDue(a, now) {
        if !a.flags.abandoned {
          ExpireLiveKeeps(t, i, now, ch);
          KeepsTrans(tm, t, ExpireLive(t, i, now, ch), i);
        } else {
          FinishSame(a);
          PutKeeps(tm, i, FinishAbandoned(a));
        }
      } else if TimerDue(a, now) {
        FireTimerKeeps(t, i, ch);
        KeepsTrans(tm, t, FireTimer(t, i, ch), i);
      } else if Due(a.nextSend, now) {
        SendNowKeeps(t, i, now, ch);
        KeepsTrans(tm, t, SendNow(t, i, now, ch).tm, i);
      }
    }
  }

  lemma ServerRunKeeps(tm: Tm, i: nat, now: nat, ch: Choice)
    requires Inv(tm) && i < |tm.slots| && LiveServer(tm.slots[i])
    ensures Keeps(tm, ServerRun(tm, i, now, ch).tm, i)
  {
    hide Inv, ServerTerminated, ServerSent, ArmTimerL, ServerWake, Keeps, ClientSlot;
    var s := tm.slots[i];
    KeepsSelf(tm, i);
    if TimerDue(s, now) {
      ServerStopsOnward(s);
      PutKeeps(tm, i, ServerTerminated(s));
      ServerStopsInv(tm, i);
      if s.timer.TimerL? && s.server.owner.Some? && ch.hangup.Some? {
        var t := Put(tm, i, ServerTerminated(s));
        var n := ClientSlot(tm.reliable, BYE, ch.hangup.value, s.policy, 0, false, false, false);
        ClientFresh(tm, BYE, ch.hangup.value, s.policy, 0, false, false, false);
        NewSlotKeepsPinned(t, n, ch.hangupSlot, i);
        KeepsTrans(tm, t, NewSlot(t, n, ch.hangupSlot).0, i);
      }
    } else if !s.state.Terminated? && Due(s.nextSend, now) {
      var a := ArmTimerL(s, now);
      ArmLOnward(s, now);
      PutKeeps(tm, i, a);
      ServerSentSame(a, now, ch.again);
      var e := Replied(a.gen, a.server.status, now);
      NoteMore(tm, tm, i, e);
      PutMore(tm, Note(tm, e), i, i, ServerSent(a, now, ch.again));
    }
  }

  lemma ServerStopsInv(tm: Tm, i: nat)
    requires Inv(tm) && i < |tm.slots| && LiveServer(tm.slots[i])
    ensures Inv(Put(tm, i, ServerTerminated(tm.slots[i])))
  {
    hide Inv;
    OfSlot(tm, i);
    ServerPut(tm, i, ServerTerminated(tm.slots[i]));
  }

  lemma ServerStopsOnward(s: Slot)
    ensures Onward(s, ServerTerminated(s))
  {
  }

  lemma ArmLOnward(s: Slot, now: nat)
    ensures Onward(s, ArmTimerL(s, now))
  {
  }

  // Running a slot leaves every other INVITE alone
  lemma RunSlotKeeps(tm: Tm, i: nat, now: nat, ch: Choice)
    requires Inv(tm) && i < |tm.slots|
    ensures Keeps(tm, RunSlot(tm, i, now, ch).tm, i)
  {
    hide Inv, ClientRun, ServerRun, Keeps;
    KeepsSelf(tm, i);
    if tm.slots[i].active {
      if tm.slots[i].role.Client? {
        ClientRunKeeps(tm, i, now, ch);
      } else {
        ServerRunKeeps(tm, i, now, ch);
      }
    }
  }
}
