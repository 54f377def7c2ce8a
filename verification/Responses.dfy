module Responses {
  // Which transaction a response belongs to, and what one that does not answer
  // an INVITE leaves alone.

  import opened Base
  import opened Slots
  import opened Table
  import opened ClientSteps
  import opened History
  import opened HistoryKeeps
  import opened ReceiveKeeps
  import opened FinalKeeps

  // Section 17.1.3 of RFC 3261, with the call and its CSeq number: a client
  // transaction on the wire, the same branch and the same method
  predicate AnswerTo(s: Slot, r: Resp) {
    && s.active && s.role == Client && s.matchable
    && r.callId == s.ident.callId && r.fromTag == s.ident.fromTag
    && r.branch == s.ident.branch && r.cseq == s.ident.cseq && r.verb == s.verb
  }

  predicate FirstAnswered(slots: seq<Slot>, r: Resp, i: nat) {
    i < |slots| && AnswerTo(slots[i], r) && forall j :: 0 <= j < i ==> !AnswerTo(slots[j], r)
  }

  lemma FoundFirst(slots: seq<Slot>, r: Resp)
    ensures var f := FindFrom(slots, r, 0);
      && (f.Some? <==> exists i :: 0 <= i < |slots| && AnswerTo(slots[i], r))
      && forall i: nat :: FirstAnswered(slots, r, i) ==> f == Some(i)
    ensures FindFrom(slots, r, 0).Some? ==> FirstAnswered(slots, r, FindFrom(slots, r, 0).value)
  {
    forall i | 0 <= i < |slots| ensures AnswerTo(slots[i], r) == Matches(slots[i], r) {
    }
    var f := FindFrom(slots, r, 0);
    if f.Some? {
      assert AnswerTo(slots[f.value], r);
    }
    forall i: nat | FirstAnswered(slots, r, i) ensures f == Some(i) {
      assert AnswerTo(slots[i], r);
    }
  }

  // --- What it adds to the history

  predicate AckAnswers(e: Event, r: Resp, room: Room) {
    && (e.AckBuilt? ==>
          e.sclass == r.code / 100 && e.contact == r.contact && e.branch == room.ackBranch)
    && (e.ByeMade? ==> e.contact == r.contact && e.branch == room.byeBranch)
  }

  // Events of transaction g only
  predicate OwnEvents(l: seq<Event>, m: seq<Event>, g: nat, r: Resp, room: Room) {
    l <= m && forall k :: |l| <= k < |m| ==> m[k].gen == g && AckAnswers(m[k], r, room)
  }

  lemma EventsTrans(l: seq<Event>, m: seq<Event>, n: seq<Event>, g: nat, r: Resp, room: Room)
    requires OwnEvents(l, m, g, r, room) && OwnEvents(m, n, g, r, room)
    ensures OwnEvents(l, n, g, r, room)
  {
    hide AckAnswers;
    forall k | |l| <= k < |n| ensures n[k].gen == g && AckAnswers(n[k], r, room) {
      if k < |m| { assert n[k] == m[k]; }
    }
  }

  lemma EventsSame(l: seq<Event>, g: nat, r: Resp, room: Room)
    ensures OwnEvents(l, l, g, r, room)
  {
  }

  lemma EventsOne(l: seq<Event>, e: Event, g: nat, r: Resp, room: Room)
    requires e.gen == g && AckAnswers(e, r, room)
    ensures OwnEvents(l, l + [e], g, r, room)
  {
  }

  lemma TellEvents(tm: Tm, i: nat, l: bool, what: Report, react: Reaction, r: Resp, room: Room)
    requires i < |tm.slots|
    ensures OwnEvents(tm.log, Tell(tm, i, l, what, react).log, tm.slots[i].gen, r, room)
  {
    hide Restart;
  }

  lemma StartCancelEvents(tm: Tm, i: nat, space: Space, r: Resp, room: Room)
    requires i < |tm.slots| && tm.slots[i].invite.Some?
    ensures OwnEvents(tm.log, StartCancel(tm, i, space).0.log, tm.slots[i].gen, r, room)
  {
    hide CloneOf, NewSlot, CloneSpace, CancelReady;
    NewSlotLog(tm, CloneOf(tm.slots[i], CANCEL, i), CloneSpace(tm.slots[i], space));
  }

  lemma RingingEvents(tm: Tm, i: nat, now: nat, room: Room, r: Resp)
    requires i < |tm.slots| && tm.slots[i].invite.Some?
    ensures OwnEvents(tm.log, HearRinging(tm, i, now, room).log, tm.slots[i].gen, r, room)
  {
    hide StartCancel, FinishAbandoned, ArmCleanup, OwnEvents;
    var s := Slots.Ringing(tm.slots[i]);
    EventsSame(tm.log, tm.slots[i].gen, r, room);
    StartCancelEvents(Put(tm, i, s), i, room.cancelSlot, r, room);
  }

  lemma QueueByeEvents(tm: Tm, i: nat, r: Resp, room: Room)
    requires i < |tm.slots|
    ensures OwnEvents(tm.log, QueueBye(tm, i, r, room).0.log, tm.slots[i].gen, r, room)
  {
    hide NewSlot, ByeOf, WithBye;
    NewSlotLog(tm, ByeOf(tm.slots[i], i, r, tm.reliable, room.byeBranch), room.byeSlot);
  }

  lemma TailEvents(t: Tm, i: nat, a: nat, r: Resp, now: nat, room: Room)
    requires Inv(t) && AckOf(t, i, a) && HeardFor(t.log, t.slots[i], r)
    ensures OwnEvents(t.log, FinalTail(t, i, a, r, now, room).0.log, t.slots[i].gen, r, room)
  {
    hide Inv, BuildAck, QueueBye, AckOf, HeardFor, OwnEvents, AckAnswers;
    IsAck(t, i, a);
    var g := t.slots[i].gen;
    var u := AckBuilding(t, i, a, r, room.ackBranch);
    BuildAckInv(t, i, a, r, room.ackBranch);
    BuildingEvents(t, i, a, r, room);
    EventsSame(u.log, g, r, room);
    if t.slots[i].flags.abandoned {
      QueueByeEvents(u, i, r, room);
      QueueByeInv(u, i, a, r, room);
    }
    var (w, rc) := if t.slots[i].flags.abandoned then QueueBye(u, i, r, room) else (u, Ok);
    EventsTrans(t.log, u.log, w.log, g, r, room);
    if rc == Ok {
      ArmEvents(w, i, a, r, now, room);
      EventsTrans(t.log, w.log, ArmAck(w, i, a, r, now).log, g, r, room);
    }
  }

  lemma BuildingEvents(t: Tm, i: nat, a: nat, r: Resp, room: Room)
    requires i < |t.slots| && a < |t.slots|
    ensures OwnEvents(t.log, AckBuilding(t, i, a, r, room.ackBranch).log, t.slots[i].gen, r, room)
  {
    hide BuildAck;
  }

  lemma ArmEvents(t: Tm, i: nat, a: nat, r: Resp, now: nat, room: Room)
    requires i < |t.slots| && a < |t.slots| && a != i
    ensures OwnEvents(t.log, ArmAck(t, i, a, r, now).log, t.slots[i].gen, r, room)
  {
  }

  lemma FinalEvents(tm: Tm, i: nat, r: Resp, now: nat, room: Room)
    requires Inv(tm) && i < |tm.slots| && LiveClient(tm.slots[i]) && tm.slots[i].invite.Some?
    requires !tm.slots[i].state.Terminated? && tm.slots[i].nextSend.Never?
    requires HeardFor(tm.log, tm.slots[i], r)
    ensures OwnEvents(tm.log, InviteFinal(tm, i, r, now, room).0.log, tm.slots[i].gen, r, room)
  {
    hide Inv, InviteAnswered, NeedAck, FinalTail, AckOf, Answering, OwnEvents, SlotLogged;
    var s := InviteAnswered(tm.slots[i], Class(r), now);
    OfSlot(tm, i);
    AnsweredOk(tm.slots[i], Class(r), now);
    CalmPut(tm, i, s);
    var p := Put(tm, i, s);
    IsAnswering(p, i);
    NeedAckInv(p, i, room.ackSlot);
    var t := NeedAck(p, i, room.ackSlot);
    EventsSame(tm.log, tm.slots[i].gen, r, room);
    if t.slots[i].child.Some? {
      var a := t.slots[i].child.value;
      AckOfChild(t, i);
      IsAck(t, i, a);
      TailEvents(t, i, a, r, now, room);
    }
  }

  lemma HearEvents(tm: Tm, i: nat, r: Resp, now: nat, room: Room, react: Reaction)
    requires Inv(tm) && i < |tm.slots| && LiveClient(tm.slots[i]) && tm.slots[i].invite.Some?
    requires !tm.slots[i].state.Terminated? && tm.slots[i].nextSend.Never? && Class(r) >= 1
    requires Class(r) == 1 ==>
               !tm.slots[i].finalReported && WasHeard(tm.log, tm.slots[i].gen, tm.slots[i].attempt, 1)
    requires WasSent(tm.log, tm.slots[i].gen, tm.slots[i].attempt, INVITE, tm.slots[i].ident)
    requires Class(r) >= 2 ==> HeardFor(tm.log, tm.slots[i], r)
    ensures OwnEvents(tm.log, HearInvite(tm, i, r, now, room, react).0.log, tm.slots[i].gen, r, room)
  {
    hide Inv, InviteFinal, HearRinging, Tell, OwnEvents, Answered, HeardFor;
    var g := tm.slots[i].gen;
    if Class(r) == 1 {
      HearRingingInv(tm, i, now, room);
      RingingEvents(tm, i, now, room, r);
      var t := HearRinging(tm, i, now, room);
      TellEvents(t, i, t.slots[i].app.response, Progress, react, r, room);
      EventsTrans(tm.log, t.log, Tell(t, i, t.slots[i].app.response, Progress, react).log, g, r, room);
    } else {
      FinalEvents(tm, i, r, now, room);
      InviteFinalInv(tm, i, r, now, room);
      var (t, rc) := InviteFinal(tm, i, r, now, room);
      if rc == Ok {
        AnsweredFacts(tm, t, i);
        var l := !tm.slots[i].finalReported && t.slots[i].app.response;
        TellEvents(t, i, l, Final, react, r, room);
        EventsTrans(tm.log, t.log, Tell(t, i, l, Final, react).log, g, r, room);
      }
    }
  }

  lemma OtherEvents(tm: Tm, i: nat, r: Resp, now: nat, room: Room, react: Reaction)
    requires i < |tm.slots|
    ensures OwnEvents(tm.log, HearOther(tm, i, r, now, react).log, tm.slots[i].gen, r, room)
  {
    hide Tell, OwnEvents;
    var s := tm.slots[i];
    var t := Put(tm, i, OtherAnswered(s, now));
    TellEvents(tm, i, s.app.response, Progress, react, r, room);
    TellEvents(t, i, !s.finalReported && s.app.response, Final, react, r, room);
  }

  // --- Responses as a whole

  // A response is for no transaction exactly if it answers none.
  lemma ResponseFinds(tm: Tm, r: Resp, now: nat, room: Room, react: Reaction)
    ensures Receive(tm, r, now, room, react).1 != NotFound <==>
            exists i :: 0 <= i < |tm.slots| && AnswerTo(tm.slots[i], r)
  {
    hide HearInvite, HearOther;
    FoundFirst(tm.slots, r);
    var f := FindFrom(tm.slots, r, 0);
    if f.Some? {
      var s := tm.slots[f.value];
      var u := Put(Note(tm, Heard(s.gen, s.attempt, Class(r), r.contact)), f.value, Quiet(s));
      if s.invite.Some? {
        NeverUnfound(u, f.value, r, now, room, react);
      }
    }
  }

  lemma NeverUnfound(tm: Tm, i: nat, r: Resp, now: nat, room: Room, react: Reaction)
    requires i < |tm.slots| && tm.slots[i].invite.Some?
    ensures HearInvite(tm, i, r, now, room, react).1 != NotFound
  {
    hide HearRinging, Tell, NeedAck, InviteAnswered, AckBuilding, ArmAck, NewSlot, ByeOf, Settle;
  }

  // It is on record for the first transaction it answers, with its class and
  // its Contact, and all that follows is of that transaction; an ACK or a BYE
  // made for it is made for this very response.
  lemma ResponseActs(tm: Tm, r: Resp, now: nat, room: Room, react: Reaction, i: nat)
    requires Inv(tm) && Plausible(tm, r) && FirstAnswered(tm.slots, r, i)
    ensures var s, t := tm.slots[i], Receive(tm, r, now, room, react).0;
      && |t.log| > |tm.log| && tm.log <= t.log
      && t.log[|tm.log|] == Heard(s.gen, s.attempt, r.code / 100, r.contact)
      && forall k :: |tm.log| <= k < |t.log| ==>
           t.log[k].gen == s.gen
           && (t.log[k].AckBuilt? ==>
                 t.log[k].sclass == r.code / 100 && t.log[k].contact == r.contact
                 && t.log[k].branch == room.ackBranch)
           && (t.log[k].ByeMade? ==>
                 t.log[k].contact == r.contact && t.log[k].branch == room.byeBranch)
  {
    hide Inv, HearInvite, HearOther, Quiet;
    FoundFirst(tm.slots, r);
    var s := tm.slots[i];
    var e := Heard(s.gen, s.attempt, Class(r), r.contact);
    assert Answerable(tm, i);
    OfSlot(tm, i);
    NoteOwn(tm, i, e);
    var l := tm.log + [e];
    WasSentGrows(tm.log, e, s.gen, s.attempt, s.verb, s.ident);
    HeardNow(tm.log, s, r);
    QuietInv(Note(tm, e), i);
    QuietKin(s);
    EventsOne(tm.log, e, s.gen, r, room);
    var u := Put(Note(tm, e), i, Quiet(s));
    if IsInvite(s) {
      if !(Class(r) == 1 && s.finalReported) {
        HearEvents(u, i, r, now, room, react);
        EventsTrans(tm.log, l, HearInvite(u, i, r, now, room, react).0.log, s.gen, r, room);
      }
    } else {
      OtherEvents(u, i, r, now, room, react);
      EventsTrans(tm.log, l, HearOther(u, i, r, now, react).log, s.gen, r, room);
    }
  }

  lemma QuietKin(s: Slot)
    ensures var t := Quiet(s);
      && t.gen == s.gen && t.attempt == s.attempt && t.ident == s.ident && t.nextSend.Never?
      && t.active == s.active && t.role == s.role && t.verb == s.verb && t.invite == s.invite
      && t.state == s.state && t.finalReported == s.finalReported
  {
  }

  // A response to a request other than INVITE, a CANCEL for one, changes no
  // INVITE, tells nothing of one, and makes no ACK and no BYE.
  lemma NoInviteTouched(tm: Tm, r: Resp, now: nat, room: Room, react: Reaction)
    requires Inv(tm) && Plausible(tm, r) && !r.verb.INVITE?
    ensures var t := Receive(tm, r, now, room, react).0;
      && tm.log <= t.log
      && (forall j :: 0 <= j < |tm.slots| && tm.slots[j].active && tm.slots[j].verb.INVITE? ==>
            t.slots[j] == tm.slots[j]
            && forall k :: |tm.log| <= k < |t.log| ==> t.log[k].gen != tm.slots[j].gen)
      && forall k :: |tm.log| <= k < |t.log| ==>
           !t.log[k].AckBuilt? && !t.log[k].AckArmed? && !t.log[k].ByeMade? && !t.log[k].CancelMade?
  {
    hide Inv, HearOther, Quiet, HearInvite;
    FoundFirst(tm.slots, r);
    var f := FindFrom(tm.slots, r, 0);
    if f.Some? {
      var i := f.value;
      ResponseActs(tm, r, now, room, react, i);
      OfSlot(tm, i);
      QuietKin(tm.slots[i]);
      var s := tm.slots[i];
      var u := Put(Note(tm, Heard(s.gen, s.attempt, Class(r), r.contact)), i, Quiet(s));
      OtherAlone(u, i, r, now, react);
      forall j | 0 <= j < |tm.slots| && tm.slots[j].active && tm.slots[j].verb.INVITE?
        ensures j != i && tm.slots[j].gen != s.gen
      {
        if j != i {
          GensDiffer(tm, i, j);
        }
      }
    }
  }

  lemma OtherAlone(tm: Tm, i: nat, r: Resp, now: nat, react: Reaction)
    requires i < |tm.slots|
    ensures var t := HearOther(tm, i, r, now, react);
      && tm.log <= t.log && t.slots == tm.slots[i := t.slots[i]]
      && forall k :: |tm.log| <= k < |t.log| ==> t.log[k].Told?
  {
    hide Restart, OtherAnswered, ReleaseOutbound;
  }
}
