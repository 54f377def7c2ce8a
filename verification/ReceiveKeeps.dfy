// A response received keeps the invariant, as long as it answers a request
// that was sent and is not an ACK.
module ReceiveKeeps {
  import opened Base
  import opened Slots
  import opened Table
  import opened ClientSteps
  import opened Links
  import opened History
  import opened HistoryKeeps
  import opened ClientKeeps
  import opened AbandonKeeps

  // What a network can be trusted with: responses are to requests sent
  predicate Plausible(tm: Tm, r: Resp) {
    && Class(r) >= 1
    && forall i :: 0 <= i < |tm.slots| && Matches(tm.slots[i], r) ==> Answerable(tm, i)
  }

  predicate Answerable(tm: Tm, i: nat)
    requires i < |tm.slots|
  {
    var s := tm.slots[i];
    !s.verb.ACK? && WasSent(tm.log, s.gen, s.attempt, s.verb, s.ident)
  }

  // The final response in hand is to an INVITE sent, and on record
  predicate HeardFor(log: seq<Event>, s: Slot, r: Resp) {
    && WasSent(log, s.gen, s.attempt, INVITE, s.ident)
    && Heard(s.gen, s.attempt, Class(r), r.contact) in log
  }

  // ... as it is once Receive has noted it
  lemma HeardNow(log: seq<Event>, s: Slot, r: Resp)
    ensures var l := log + [Heard(s.gen, s.attempt, Class(r), r.contact)];
      && WasHeard(l, s.gen, s.attempt, Class(r))
      && (WasSent(log, s.gen, s.attempt, INVITE, s.ident) ==> HeardFor(l, s, r))
  {
    var e := Heard(s.gen, s.attempt, Class(r), r.contact);
    var l := log + [e];
    assert l[|log|] == e && IsHeard(l[|log|], s.gen, s.attempt, Class(r));
    if WasSent(log, s.gen, s.attempt, INVITE, s.ident) {
      WasSentGrows(log, e, s.gen, s.attempt, INVITE, s.ident);
    }
  }

  // --- Provisional responses to an INVITE

  lemma RingingOk(s: Slot)
    requires SlotOk(s) && LiveClient(s) && s.invite.Some? && !s.state.Terminated? && !s.finalReported
    ensures SlotOk(Slots.Ringing(s)) && SameLinks(s, Slots.Ringing(s))
  {
  }

  lemma RingingLogged(s: Slot, log: seq<Event>)
    requires SlotLogged(s, log) && LiveClient(s) && s.invite.Some? && !s.state.Terminated?
    requires WasHeard(log, s.gen, s.attempt, 1)
    ensures SlotLogged(Slots.Ringing(s), log)
  {
    var t := Slots.Ringing(s);
    forall k | 0 <= k < |log|
      ensures EventFits(t, log[k]) && ByeHeld(t, log[k], log)
    {
      assert EventFits(s, log[k]) && ByeHeld(s, log[k], log);
    }
  }

  lemma RingInv(tm: Tm, i: nat)
    requires Inv(tm) && i < |tm.slots| && LiveClient(tm.slots[i]) && tm.slots[i].invite.Some?
    requires !tm.slots[i].state.Terminated? && !tm.slots[i].finalReported
    requires WasHeard(tm.log, tm.slots[i].gen, tm.slots[i].attempt, 1)
    ensures Inv(Put(tm, i, Slots.Ringing(tm.slots[i])))
  {
    hide Inv, Slots.Ringing;
    OfSlot(tm, i);
    RingingOk(tm.slots[i]);
    RingingLogged(tm.slots[i], tm.log);
    RingingFlag(tm.slots[i]);
    PutInv(tm, i, Slots.Ringing(tm.slots[i]));
  }

  lemma RingingFlag(s: Slot)
    requires s.invite.Some?
    ensures ByeFlag(Slots.Ringing(s)) == ByeFlag(s)
    ensures Slots.Ringing(s).invite.Some? && Slots.Ringing(s).attempt == s.attempt
    ensures Slots.Ringing(s).ident == s.ident && Slots.Ringing(s).finalReported == s.finalReported
    ensures Slots.Ringing(s).state.Proceeding? && Slots.Ringing(s).app == s.app
    ensures Slots.Ringing(s).invite.value.cancel == s.invite.value.cancel
  {
  }

  lemma ArmInv(tm: Tm, i: nat, now: nat)
    requires Inv(tm) && i < |tm.slots| && LiveClient(tm.slots[i])
    ensures Inv(Put(tm, i, ArmCleanup(tm.slots[i], now)))
  {
    hide Inv;
    OfSlot(tm, i);
    CalmPut(tm, i, ArmCleanup(tm.slots[i], now));
  }

  lemma HearRingingInv(tm: Tm, i: nat, now: nat, room: Room)
    requires Inv(tm) && i < |tm.slots| && LiveClient(tm.slots[i]) && tm.slots[i].invite.Some?
    requires !tm.slots[i].state.Terminated? && !tm.slots[i].finalReported
    requires WasHeard(tm.log, tm.slots[i].gen, tm.slots[i].attempt, 1)
    requires WasSent(tm.log, tm.slots[i].gen, tm.slots[i].attempt, INVITE, tm.slots[i].ident)
    ensures var t := HearRinging(tm, i, now, room);
      && Inv(t) && Silent(tm.log, t.log) && LiveClient(t.slots[i])
      && t.slots[i].gen == tm.slots[i].gen && t.slots[i].attempt == tm.slots[i].attempt
      && t.slots[i].app == tm.slots[i].app
  {
    hide Inv, Slots.Ringing, StartCancel, FinishAbandoned, ArmCleanup, CancelStarted;
    var s := Slots.Ringing(tm.slots[i]);
    RingInv(tm, i);
    RingingOk(tm.slots[i]) by { OfSlot(tm, i); }
    RingingFlag(tm.slots[i]);
    var t := Put(tm, i, s);
    if s.invite.value.cancel.Scheduled? {
      OfSlot(t, i);
      StartCancelInv(t, i, room.cancelSlot);
      var (u, ok) := StartCancel(t, i, room.cancelSlot);
      CancelStartedSame(s);
      var w := if ok then u else Put(u, i, FinishAbandoned(u.slots[i]));
      if !ok {
        FinishInv(u, i);
        FinishSame(s);
      }
      ArmInv(w, i, now);
      ArmSame(w.slots[i], now);
    }
  }

  lemma CancelStartedSame(s: Slot)
    requires s.invite.Some?
    ensures var t := CancelStarted(s);
      SameLinks(s, t) && t.attempt == s.attempt && t.app == s.app && t.invite.Some?
  {
  }

  lemma FinishSame(s: Slot)
    requires !s.verb.ACK?
    ensures var t := FinishAbandoned(s);
      SameLinks(s, t) && t.attempt == s.attempt && t.app == s.app
  {
  }

  lemma ArmSame(s: Slot, now: nat)
    ensures var t := ArmCleanup(s, now);
      SameLinks(s, t) && t.attempt == s.attempt && t.app == s.app
  {
  }

  // --- Final responses to an INVITE

  // An INVITE whose final response is being handled
  predicate Answering(tm: Tm, i: nat) {
    && i < |tm.slots| && LiveClient(tm.slots[i]) && tm.slots[i].invite.Some?
    && tm.slots[i].state.Completed? && tm.slots[i].timer.TimerD?
    && tm.slots[i].invite.value.timeoutAt.Never? && tm.slots[i].nextSend.Never?
  }

  lemma AnsweredOk(s: Slot, sclass: nat, now: nat)
    requires SlotOk(s) && LiveClient(s) && s.invite.Some? && !s.state.Terminated?
    requires s.nextSend.Never?
    ensures var t := InviteAnswered(s, sclass, now);
      && SlotOk(t) && Calm(s, t) && t.state.Completed? && t.timer.TimerD?
      && t.invite.value.timeoutAt.Never? && t.nextSend == s.nextSend
      && t.finalReported == s.finalReported && t.app == s.app
      && t.flags.abandoned == s.flags.abandoned
  {
  }

  // The same transaction, as far as its history goes
  predicate SameLife(s: Slot, t: Slot) {
    s.active == t.active && s.gen == t.gen && s.attempt == t.attempt && s.role == t.role
    && s.verb == t.verb && s.app == t.app && s.finalReported == t.finalReported
    && s.flags.abandoned == t.flags.abandoned && s.ident == t.ident
  }

  lemma NeedAckInv(tm: Tm, i: nat, space: Space)
    requires Inv(tm) && Answering(tm, i)
    ensures var t := NeedAck(tm, i, space);
      && Inv(t) && Answering(t, i) && t.log == tm.log && t.reliable == tm.reliable
      && SameLife(tm.slots[i], t.slots[i])
  {
    hide Inv;
    OfSlot(tm, i);
    var s := tm.slots[i];
    if s.child.None? {
      assert Safe(tm.slots, i);
      CloneFresh(s, ACK, i, tm.gens);
      NewSlotInv(tm, CloneOf(s, ACK, i), CloneSpace(s, space));
      var (t, c) := NewSlot(tm, CloneOf(s, ACK, i), CloneSpace(s, space));
      if c.Some? {
        NoByeYet(tm, i);
        LinkAckInv(t, i, c.value);
      }
    }
  }

  // A BYE was made for an INVITE only once it had an ACK
  lemma NoByeYet(tm: Tm, i: nat)
    requires Inv(tm) && Answering(tm, i) && tm.slots[i].child.None?
    ensures !ByeFlag(tm.slots[i])
  {
    OfSlot(tm, i);
  }

  // The ACK of an INVITE, with what is behind it
  predicate AckOf(tm: Tm, i: nat, a: nat) {
    && Answering(tm, i) && a < |tm.slots| && tm.slots[i].child == Some(a) && a != i
    && LiveClient(tm.slots[a]) && tm.slots[a].verb.ACK? && tm.slots[a].parent == Some(i)
  }

  lemma AckOfChild(tm: Tm, i: nat)
    requires Inv(tm) && Answering(tm, i) && tm.slots[i].child.Some?
    ensures AckOf(tm, i, tm.slots[i].child.value)
  {
    OfSlot(tm, i);
  }

  lemma BuildAckOk(a: Slot, src: Slot, r: Resp, branch: nat)
    requires SlotOk(a) && LiveClient(a) && a.verb.ACK? && a.parent.Some?
    ensures SlotOk(BuildAck(a, src, r, branch)) && SameLinks(a, BuildAck(a, src, r, branch))
  {
  }

  // An ACK not built yet was never sent
  lemma BuildAckLogged(a: Slot, src: Slot, r: Resp, branch: nat, log: seq<Event>)
    requires SlotOk(a) && SlotLogged(a, log) && LiveClient(a) && a.verb.ACK? && a.parent.Some?
    requires !a.built && AckOnRecord(log, a.gen, BuildAck(a, src, r, branch).ident)
    ensures SlotLogged(BuildAck(a, src, r, branch), log)
  {
    hide AckOnRecord;
    var t := BuildAck(a, src, r, branch);
    forall k | 0 <= k < |log|
      ensures EventFits(t, log[k]) && ByeHeld(t, log[k], log)
    {
      assert EventFits(a, log[k]) && ByeHeld(a, log[k], log);
    }
  }

  lemma BuildAckInv(tm: Tm, i: nat, a: nat, r: Resp, branch: nat)
    requires Inv(tm) && AckOf(tm, i, a) && HeardFor(tm.log, tm.slots[i], r)
    ensures var t := AckBuilding(tm, i, a, r, branch);
      && Inv(t) && AckOf(t, i, a) && t.slots[a].built && t.slots[i] == tm.slots[i]
      && Silent(tm.log, t.log) && t.gens == tm.gens
      && t.slots[a].gen == tm.slots[a].gen && HeardFor(t.log, t.slots[i], r)
  {
    hide Inv, Copies, CopyOf, BuildAck, SlotLogged, SlotOk;
    OfSlot(tm, a);
    OfSlot(tm, i);
    var s, c := tm.slots[i], tm.slots[a];
    if !c.built {
      var e := AckBuilt(s.gen, s.attempt, c.gen, Class(r), s.ident, r.contact, branch);
      NoteOwn(tm, i, e);
      WasSentGrows(tm.log, e, s.gen, s.attempt, INVITE, s.ident);
      var t := Note(tm, e);
      OfSlot(t, a);
      BuiltParts(c, s, r, branch);
      BuiltIdent(c, s, r, branch);
      assert IsAckBuilt(t.log[|tm.log|], c.gen, BuildAck(c, s, r, branch).ident);
      BuildAckOk(c, s, r, branch);
      BuildAckLogged(c, s, r, branch, t.log);
      PutInv(t, a, BuildAck(c, s, r, branch));
    }
  }

  lemma BuiltParts(a: Slot, src: Slot, r: Resp, branch: nat)
    ensures var t := BuildAck(a, src, r, branch);
      && t.built && t.active == a.active && t.gen == a.gen && t.role == a.role && t.verb == a.verb
      && t.parent == a.parent && t.child == a.child && ByeFlag(t) == ByeFlag(a)
  {
  }

  lemma BuiltIdent(a: Slot, src: Slot, r: Resp, branch: nat)
    requires a.ident == CopyOf(src.ident).(branch := 0)
    ensures BuildAck(a, src, r, branch).ident ==
            if Class(r) == 2 then CopyOf(src.ident).(uri := r.contact, branch := branch)
            else CopyOf(src.ident)
  {
    hide Copies;
  }

  // --- The BYE of an abandoned call

  lemma ByeFresh(src: Slot, i: nat, r: Resp, reliable: bool, branch: nat, gen: nat)
    ensures Fresh(ByeOf(src, i, r, reliable, branch), gen)
    ensures Unborn(ByeOf(src, i, r, reliable, branch))
  {
    assert OtherOk(Awake(ByeOf(src, i, r, reliable, branch), gen));
  }

  // BYE b as made for INVITE i and its ACK a
  function ByeEvent(tm: Tm, i: nat, a: nat, b: nat): Event
    requires i < |tm.slots| && a < |tm.slots| && b < |tm.slots|
  {
    var s, c := tm.slots[i], tm.slots[b];
    ByeMade(s.gen, s.attempt, tm.slots[a].gen, c.gen, s.ident, c.ident.uri, c.ident.branch)
  }

  // The BYE made for ACK a, not yet behind it
  predicate LooseBye(tm: Tm, i: nat, a: nat, b: nat) {
    && AckOf(tm, i, a) && b < |tm.slots| && b != a && b != i
    && tm.slots[i].flags.abandoned && tm.slots[a].child.None?
    && LiveClient(tm.slots[b]) && tm.slots[b].verb.BYE? && !tm.slots[b].app.owned
    && tm.slots[b].parent == Some(i) && tm.slots[b].child.None?
    && tm.slots[b].invite.None?
  }

  // ... for a 2xx heard from there
  predicate ByeReady(tm: Tm, i: nat, a: nat, b: nat) {
    && LooseBye(tm, i, a, b)
    && tm.slots[b].ident == ByeIdent(ByeEvent(tm, i, a, b))
    && Answered2xx(tm.log, tm.slots[i], tm.slots[b].ident.uri)
  }

  predicate Answered2xx(log: seq<Event>, s: Slot, contact: Uri.SipUri) {
    WasSent(log, s.gen, s.attempt, INVITE, s.ident) && Heard(s.gen, s.attempt, 2, contact) in log
  }

  predicate OnlyAck(log: seq<Event>, byeGen: nat, ackGen: nat) {
    forall k :: 0 <= k < |log| && log[k].ByeMade? && log[k].byeGen == byeGen ==>
      log[k].ackGen == ackGen
  }

  lemma LinkByeInv(tm: Tm, i: nat, a: nat, b: nat)
    requires Inv(tm) && LooseBye(tm, i, a, b) && ByeFlag(tm.slots[i])
    requires OnlyAck(tm.log, tm.slots[b].gen, tm.slots[a].gen)
    ensures Inv(Put(tm, a, tm.slots[a].(child := Some(b))))
  {
    LinkByeLinked(tm.slots, a, b);
    OfSlot(tm, a);
    LinkByeLogged(tm.slots, a, b, tm.log);
    PutOk(tm.slots, a, tm.slots[a].(child := Some(b)), tm.gens);
  }

  lemma ByeOfRoot(s: Slot, log: seq<Event>, e: Event)
    requires SlotLogged(s, log) && LiveClient(s) && s.invite.Some? && s.flags.abandoned
    requires e.ByeMade? && e.gen == s.gen && e.byeGen != s.gen
    ensures SlotLogged(WithBye(s), log + [e])
  {
    var t := WithBye(s);
    assert SlotLogged(t, log) by {
      forall k | 0 <= k < |log|
        ensures EventFits(t, log[k]) && ByeHeld(t, log[k], log)
      {
        assert EventFits(s, log[k]) && ByeHeld(s, log[k], log);
      }
    }
    SlotLoggedGrows(t, log, e);
  }

  lemma ByeOfOther(tm: Tm, i: nat, a: nat, b: nat, j: nat)
    requires Inv(tm) && ByeReady(tm, i, a, b) && !ByeFlag(tm.slots[i]) && j < |tm.slots| && j != i
    ensures SlotLogged(tm.slots[j],
              tm.log + [ByeEvent(tm, i, a, b)])
  {
    hide Inv;
    var e := ByeEvent(tm, i, a, b);
    OfSlot(tm, j);
    if tm.slots[j].active {
      GensDiffer(tm, i, j);
      if j != b {
        GensDiffer(tm, b, j);
      }
      SlotLoggedGrows(tm.slots[j], tm.log, e);
    }
  }

  lemma GensDiffer(tm: Tm, i: nat, j: nat)
    requires Inv(tm) && i < |tm.slots| && j < |tm.slots| && i != j
    requires tm.slots[i].active && tm.slots[j].active
    ensures tm.slots[i].gen != tm.slots[j].gen
  {
  }

  // Only one ACK holds the BYE
  lemma OneAck(tm: Tm, i: nat, a: nat, b: nat, j: nat)
    requires Inv(tm) && LooseBye(tm, i, a, b) && !ByeFlag(tm.slots[i]) && j < |tm.slots|
    ensures AckLogged(tm.slots, j, ByeEvent(tm, i, a, b))
  {
    hide Inv;
    OfSlot(tm, j);
    OfSlot(tm, a);
    var s := tm.slots[j];
    if s.active && s.child.Some? && !IsInvite(s) && s.child.value != b {
      GensDiffer(tm, s.child.value, b);
    }
  }

  lemma ByeRecorded(tm: Tm, i: nat, a: nat, b: nat)
    requires Inv(tm) && ByeReady(tm, i, a, b) && !ByeFlag(tm.slots[i])
    ensures var e := ByeEvent(tm, i, a, b);
            SlotsLogged(tm.slots[i := WithBye(tm.slots[i])], tm.log + [e])
  {
    var e := ByeEvent(tm, i, a, b);
    var u := tm.slots[i := WithBye(tm.slots[i])];
    var l := tm.log + [e];
    forall j | 0 <= j < |u|
      ensures SlotLogged(u[j], l)
    {
      if j == i {
        OfSlot(tm, i);
        GensDiffer(tm, i, b);
        ByeOfRoot(tm.slots[i], tm.log, e);
      } else {
        ByeOfOther(tm, i, a, b, j);
      }
    }
    ByeLinksRecorded(tm, i, a, b);
  }

  lemma ByeLinksRecorded(tm: Tm, i: nat, a: nat, b: nat)
    requires Inv(tm) && LooseBye(tm, i, a, b) && !ByeFlag(tm.slots[i])
    ensures var e := ByeEvent(tm, i, a, b);
            var u := tm.slots[i := WithBye(tm.slots[i])];
            var l := tm.log + [e];
            && (forall j :: 0 <= j < |u| ==> ByeLogged(u, j, l))
            && (forall j, k :: 0 <= j < |u| && 0 <= k < |l| ==> AckLogged(u, j, l[k]))
  {
    hide Inv;
    var e := ByeEvent(tm, i, a, b);
    var u := tm.slots[i := WithBye(tm.slots[i])];
    var l := tm.log + [e];
    forall j | 0 <= j < |u|
      ensures ByeLogged(u, j, l)
    {
      OfSlot(tm, j);
      if j == i {
        assert IsBye(l[|tm.log|], tm.slots[i].gen, tm.slots[a].gen);
      } else if u[j].child.Some? && u[j].child.value < |u|
        && ByeOnRecord(tm.log, u[j].gen, tm.slots[u[j].child.value].gen) {
        ByeGrows(tm.log, e, u[j].gen, tm.slots[u[j].child.value].gen);
      }
    }
    forall j, k | 0 <= j < |u| && 0 <= k < |l|
      ensures AckLogged(u, j, l[k])
    {
      if k < |tm.log| {
        assert l[k] == tm.log[k];
        AckOfSlot(tm, j, k);
      } else {
        OneAck(tm, i, a, b, j);
      }
    }
  }

  lemma AckOfSlot(tm: Tm, j: nat, k: nat)
    requires Inv(tm) && j < |tm.slots| && k < |tm.log|
    ensures AckLogged(tm.slots, j, tm.log[k])
  {
  }

  lemma ByeStory(tm: Tm, i: nat, a: nat, b: nat)
    requires Inv(tm) && ByeReady(tm, i, a, b) && !ByeFlag(tm.slots[i])
    ensures var e := ByeEvent(tm, i, a, b);
            Story(tm.log + [e]) && KnownGens(e, tm.gens)
  {
    var e := ByeEvent(tm, i, a, b);
    OfSlot(tm, i);
    OfSlot(tm, b);
    forall k | 0 <= k < |tm.log| ensures Compatible(tm.log[k], e) {
      assert EventFits(tm.slots[i], tm.log[k]) && EventFits(tm.slots[b], tm.log[k]);
    }
    StoryGrows(tm.log, e);
  }

  lemma WithByeOk(s: Slot)
    requires SlotOk(s) && LiveClient(s) && s.flags.abandoned && s.child.Some?
    ensures SlotOk(WithBye(s)) && SameLinks(s, WithBye(s))
  {
  }

  lemma ByeGoes(tm: Tm, i: nat, a: nat, b: nat)
    requires Inv(tm) && ByeReady(tm, i, a, b) && !ByeFlag(tm.slots[i])
    ensures var e := ByeEvent(tm, i, a, b);
            Inv(Note(Put(tm, i, WithBye(tm.slots[i])), e))
  {
    ByeStory(tm, i, a, b);
    ByeRecorded(tm, i, a, b);
    OfSlot(tm, i);
    WithByeOk(tm.slots[i]);
    LocalPut(tm, i, WithBye(tm.slots[i]));
  }

  predicate NoByeEvent(log: seq<Event>, gen: nat) {
    forall k :: 0 <= k < |log| && log[k].ByeMade? ==> log[k].byeGen != gen
  }

  lemma NoOldBye(tm: Tm)
    requires Inv(tm)
    ensures NoByeEvent(tm.log, tm.gens)
  {
    forall k | 0 <= k < |tm.log| && tm.log[k].ByeMade? ensures tm.log[k].byeGen != tm.gens {
      assert KnownGens(tm.log[k], tm.gens);
    }
  }

  lemma ByeQueuedInv(t: Tm, i: nat, a: nat, b: nat)
    requires Inv(t) && ByeReady(t, i, a, b) && !ByeFlag(t.slots[i])
    requires NoByeEvent(t.log, t.slots[b].gen)
    ensures var e := ByeEvent(t, i, a, b);
            var u := Note(Put(t, i, WithBye(t.slots[i])), e);
      && Inv(Put(u, a, u.slots[a].(child := Some(b))))
      && ByeFlag(WithBye(t.slots[i])) && Silent(t.log, u.log)
      && SameLife(t.slots[i], WithBye(t.slots[i]))
  {
    hide Inv, SlotLogged, SlotOk, ChildOk, ParentOk, ByeLogged;
    OfSlot(t, i);
    ByeGoes(t, i, a, b);
    var e := ByeEvent(t, i, a, b);
    LinkByeInv(Note(Put(t, i, WithBye(t.slots[i])), e), i, a, b);
  }

  // The BYE in a slot of its own, if it finds one
  lemma ByeSlotInv(tm: Tm, i: nat, a: nat, r: Resp, room: Room)
    requires Inv(tm) && AckOf(tm, i, a) && tm.slots[i].flags.abandoned && !ByeFlag(tm.slots[i])
    requires HeardFor(tm.log, tm.slots[i], r) && Class(r) == 2
    ensures var (t, b) := NewSlot(tm, ByeOf(tm.slots[i], i, r, tm.reliable, room.byeBranch), room.byeSlot);
      && Inv(t) && t.log == tm.log && t.slots[i] == tm.slots[i] && t.slots[a] == tm.slots[a]
      && (b.Some? ==>
            && ByeReady(t, i, a, b.value)
            && ByeEvent(t, i, a, b.value) ==
               ByeMade(tm.slots[i].gen, tm.slots[i].attempt, tm.slots[a].gen, tm.gens,
                       tm.slots[i].ident, r.contact, room.byeBranch))
  {
    hide Inv, SlotLogged, ByeLogged, NewSlot, ByeOf, HeardFor, ByeReady, ByeEvent;
    var s := tm.slots[i];
    OfSlot(tm, i);
    assert Safe(tm.slots, i) && Safe(tm.slots, a);
    ByeFresh(s, i, r, tm.reliable, room.byeBranch, tm.gens);
    ByeParts(s, i, r, tm.reliable, room.byeBranch);
    NewSlotInv(tm, ByeOf(s, i, r, tm.reliable, room.byeBranch), room.byeSlot);
    NoChildYet(tm, i, a);
    var (t, b) := NewSlot(tm, ByeOf(s, i, r, tm.reliable, room.byeBranch), room.byeSlot);
    if b.Some? {
      ByeIsReady(tm, t, i, a, b.value, r, room.byeBranch);
    }
  }

  lemma ByeIsReady(tm: Tm, t: Tm, i: nat, a: nat, b: nat, r: Resp, branch: nat)
    requires AckOf(tm, i, a) && tm.slots[i].flags.abandoned && tm.slots[a].child.None?
    requires HeardFor(tm.log, tm.slots[i], r) && Class(r) == 2
    requires |t.slots| == |tm.slots| && b < |t.slots| && b != i && b != a && t.log == tm.log
    requires t.slots[i] == tm.slots[i] && t.slots[a] == tm.slots[a]
    requires t.slots[b] == Awake(ByeOf(tm.slots[i], i, r, tm.reliable, branch), tm.gens)
    ensures ByeReady(t, i, a, b)
    ensures ByeEvent(t, i, a, b) ==
            ByeMade(tm.slots[i].gen, tm.slots[i].attempt, tm.slots[a].gen, tm.gens,
                    tm.slots[i].ident, r.contact, branch)
  {
    hide ByeOf, WasSent;
    ByeParts(tm.slots[i], i, r, tm.reliable, branch);
  }

  lemma ByeParts(src: Slot, i: nat, r: Resp, reliable: bool, branch: nat)
    ensures var s := ByeOf(src, i, r, reliable, branch);
      && s.parent == Some(i) && s.child.None? && s.role.Client? && s.verb.BYE? && !s.app.owned
      && s.invite.None?
      && s.ident == src.ident.(branch := branch, cseq := (src.ident.cseq + 1) % 0x1_0000_0000,
                               uri := r.contact)
  {
  }

  lemma QueueByeInv(tm: Tm, i: nat, a: nat, r: Resp, room: Room)
    requires Inv(tm) && AckOf(tm, i, a) && tm.slots[i].flags.abandoned
    requires HeardFor(tm.log, tm.slots[i], r)
    ensures var (t, rc) := QueueBye(tm, i, r, room);
      && Inv(t) && AckOf(t, i, a) && Silent(tm.log, t.log)
      && SameLife(tm.slots[i], t.slots[i]) && tm.slots[a].gen == t.slots[a].gen
      && t.slots[a].built == tm.slots[a].built
      && (rc == Ok && Class(r) == 2 ==> ByeFlag(t.slots[i]))
  {
    hide Inv, ByeOf, NewSlot;
    var s := tm.slots[i];
    if Class(r) == 2 && !s.invite.value.byeStarted && room.byeFits {
      ByeSlotInv(tm, i, a, r, room);
      NoOldBye(tm);
      var (t, b) := NewSlot(tm, ByeOf(s, i, r, tm.reliable, room.byeBranch), room.byeSlot);
      if b.Some? {
        ByeQueuedInv(t, i, a, b.value);
      }
    }
  }

  // The ACK holds no BYE before one was started
  lemma NoChildYet(tm: Tm, i: nat, a: nat)
    requires Inv(tm) && AckOf(tm, i, a) && !ByeFlag(tm.slots[i])
    ensures tm.slots[a].child.None?
  {
    OfSlot(tm, a);
  }
}
