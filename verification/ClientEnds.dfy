module ClientEnds {
  // How a client transaction hears of its end: what a response or a timer does
  // to its slot, what is told of it, and what goes out for it, step by step.

  import opened Base
  import opened Slots
  import opened Table
  import opened ClientSteps
  import opened Machine
  import opened History
  import opened HistoryKeeps
  import opened AbandonKeeps
  import opened ReceiveKeeps
  import opened FinalKeeps
  import opened FinalShape
  import opened PumpKeeps
  import opened Runs
  import opened Responses
  import opened ClientFigures

  // What is told of transaction s, if it is told at all
  function Telling(s: Slot, tell: bool, what: Report): seq<Event> {
    if tell then [Told(s.gen, s.attempt, what)] else []
  }

  lemma TellAdds(tm: Tm, i: nat, tell: bool, what: Report, react: Reaction)
    requires i < |tm.slots|
    ensures var t := Tell(tm, i, tell, what, react);
      && t.log == tm.log + Telling(tm.slots[i], tell, what)
      && (react == Ignore ==> t.slots == tm.slots)
      && forall j :: 0 <= j < |tm.slots| && j != i ==> t.slots[j] == tm.slots[j]
  {
    hide Restart;
  }

  // --- Ringing

  // The first provisional response to an INVITE starts the time its Expires
  // gives it, from when it was sent; it is told of each, and repeats nothing
  // any more.
  lemma RingsOn(tm: Tm, r: Resp, now: nat, room: Room, i: nat)
    requires FirstAnswered(tm.slots, r, i) && 100 <= r.code <= 199
    requires tm.slots[i].verb.INVITE? && tm.slots[i].invite.Some? && !tm.slots[i].finalReported
    requires tm.slots[i].invite.value.cancel != Scheduled
    ensures var s, q := tm.slots[i], Receive(tm, r, now, room, Ignore);
      var t := q.0.slots[i];
      && q.1 == Ok && OnlySlot(tm, q.0, i)
      && q.0.log == tm.log + [Heard(s.gen, s.attempt, 1, r.contact)] + Telling(s, s.app.response, Progress)
      && t.state == Proceeding && t.nextSend == Never && t.invite.Some?
      && t.invite.value.provisional
      && t.invite.value.timeoutAt ==
         (if s.invite.value.timeoutAt.At? && !s.invite.value.provisional
          then At(s.createdAt + 1000 * s.expires) else s.invite.value.timeoutAt)
      && t.invite.value.timeoutId == (if s.flags.abandoned then s.invite.value.timeoutId else NoFinal)
  {
    hide StartCancel, NextTx, InviteFinal, HearOther;
    FoundFirst(tm.slots, r);
  }

  // --- Final responses

  // One to a request other than INVITE: told the first time, and Timer K.
  lemma OtherEnds(tm: Tm, r: Resp, now: nat, room: Room, i: nat)
    requires FirstAnswered(tm.slots, r, i) && r.code >= 200
    requires tm.slots[i].verb != INVITE
    ensures var s, q := tm.slots[i], Receive(tm, r, now, room, Ignore);
      var t := q.0.slots[i];
      && q.1 == Ok && OnlySlot(tm, q.0, i)
      && q.0.log == tm.log + [Heard(s.gen, s.attempt, r.code / 100, r.contact)]
                    + Telling(s, !s.finalReported && s.app.response, Final)
      && t.state == Completed && t.timer == TimerK && t.due == At(now + OrElse(s.policy.k, s.policy.t4))
      && t.nextSend == Never && t.finalReported && !t.matchable
  {
    hide HearInvite, NextTx;
    FoundFirst(tm.slots, r);
  }

  // The timer an INVITE waits out after its final response: 64*T1 for a 2xx
  // to one given up, which a repeated one does not put off; Timer D otherwise
  predicate WaitsOut(s: Slot, t: Slot, sclass: nat, now: nat) {
    if s.finalReported && s.flags.abandoned then t.timer == s.timer && t.due == s.due
    else
      && t.timer == TimerD
      && t.due == At(now + if sclass == 2 && s.flags.abandoned then 64 * s.policy.t1
                           else OrElse(s.policy.d, s.policy.t4))
  }

  lemma AnsweredWaits(s: Slot, t: Slot, sclass: nat, now: nat)
    requires SameCore(InviteAnswered(Quiet(s), sclass, now), t)
    ensures WaitsOut(s, t, sclass, now) && t.state == Completed && t.nextSend == Never
    ensures t.flags == s.flags && t.gen == s.gen && t.attempt == s.attempt
  {
  }

  // The ACK of an INVITE is due at once, and told of last but one
  predicate AckDue(t: Tm, i: nat, sclass: nat, now: nat) {
    && i < |t.slots| && t.slots[i].child.Some?
    && var a := t.slots[i].child.value;
      && a < |t.slots| && a != i && t.slots[a].verb.ACK? && t.slots[a].built
      && t.slots[a].nextSend == At(now)
      && |t.log| > 0
      && t.log[|t.log| - 1] ==
         AckArmed(t.slots[i].gen, t.slots[a].gen, sclass, t.slots[i].flags.abandoned)
  }

  lemma ArmedDue(t: Tm, i: nat, a: nat, r: Resp, now: nat)
    requires AckOf(t, i, a) && t.slots[a].built
    ensures AckDue(ArmAck(t, i, a, r, now), i, Class(r), now)
  {
  }

  lemma TailDue(t: Tm, i: nat, a: nat, r: Resp, now: nat, room: Room)
    requires Inv(t) && AckOf(t, i, a) && HeardFor(t.log, t.slots[i], r)
    ensures var (w, rc) := FinalTail(t, i, a, r, now, room);
      rc == Ok ==> AckDue(w, i, Class(r), now)
  {
    hide Inv, BuildAck, QueueBye, ArmAck, AckOf, HeardFor, AckDue;
    IsAck(t, i, a);
    var u := AckBuilding(t, i, a, r, room.ackBranch);
    BuildAckInv(t, i, a, r, room.ackBranch);
    if t.slots[i].flags.abandoned {
      QueueByeInv(u, i, a, r, room);
    }
    var (w, rc) := if t.slots[i].flags.abandoned then QueueBye(u, i, r, room) else (u, Ok);
    if rc == Ok {
      ArmedDue(w, i, a, r, now);
    }
  }

  lemma FinalDue(tm: Tm, i: nat, r: Resp, now: nat, room: Room)
    requires Inv(tm) && i < |tm.slots| && LiveClient(tm.slots[i]) && tm.slots[i].invite.Some?
    requires !tm.slots[i].state.Terminated? && tm.slots[i].nextSend.Never?
    requires HeardFor(tm.log, tm.slots[i], r)
    ensures var (w, rc) := InviteFinal(tm, i, r, now, room);
      rc == Ok ==> AckDue(w, i, Class(r), now)
  {
    hide Inv, InviteAnswered, NeedAck, FinalTail, AckOf, Answering, HeardFor, AckDue;
    var s := InviteAnswered(tm.slots[i], Class(r), now);
    OfSlot(tm, i);
    AnsweredOk(tm.slots[i], Class(r), now);
    CalmPut(tm, i, s);
    var p := Put(tm, i, s);
    IsAnswering(p, i);
    NeedAckInv(p, i, room.ackSlot);
    var t := NeedAck(p, i, room.ackSlot);
    if t.slots[i].child.Some? {
      var a := t.slots[i].child.value;
      AckOfChild(t, i);
      IsAck(t, i, a);
      HeardSame(tm.log, tm.slots[i], t.slots[i], r);
      TailDue(t, i, a, r, now, room);
    }
  }

  lemma HeardSame(log: seq<Event>, s: Slot, t: Slot, r: Resp)
    requires HeardFor(log, s, r) && t.gen == s.gen && t.attempt == s.attempt && t.ident == s.ident
    ensures HeardFor(log, t, r)
  {
  }

  // INVITE s had its final response: its ACK is due at once, each time; told
  // the first time, and Completed
  predicate Ended(s: Slot, u: Tm, i: nat, sclass: nat, now: nat) {
    && i < |u.slots|
    && u.slots[i].state == Completed && u.slots[i].nextSend == Never && u.slots[i].finalReported
    && WaitsOut(s, u.slots[i], sclass, now)
    && var tell := Telling(s, !s.finalReported && s.app.response, Final);
       && |tell| <= |u.log| && u.log[|u.log| - |tell|..] == tell
       && AckDue(u.(log := u.log[..|u.log| - |tell|]), i, sclass, now)
  }

  lemma ToldEnded(s: Slot, w: Tm, i: nat, sclass: nat, now: nat, l: bool)
    requires i < |w.slots| && AckDue(w, i, sclass, now) && WaitsOut(s, w.slots[i], sclass, now)
    requires w.slots[i].state == Completed && w.slots[i].nextSend == Never && w.slots[i].finalReported
    requires w.slots[i].gen == s.gen && w.slots[i].attempt == s.attempt
    requires l == (!s.finalReported && s.app.response)
    ensures Ended(s, Tell(w, i, l, Final, Ignore), i, sclass, now)
  {
    hide WaitsOut, AckDue;
    TellAdds(w, i, l, Final, Ignore);
    var u := Tell(w, i, l, Final, Ignore);
    assert u.log[..|w.log|] == w.log;
    DueStays(w, u.(log := w.log), i, sclass, now);
  }

  lemma HearingEnds(u: Tm, s: Slot, i: nat, r: Resp, now: nat, room: Room)
    requires Inv(u) && i < |u.slots| && u.slots[i] == Quiet(s) && r.code >= 200
    requires LiveClient(u.slots[i]) && u.slots[i].invite.Some? && !u.slots[i].state.Terminated?
    requires HeardFor(u.log, u.slots[i], r) && InviteFinal(u, i, r, now, room).1 == Ok
    ensures Ended(s, HearInvite(u, i, r, now, room, Ignore).0, i, Class(r), now)
  {
    hide Inv, InviteFinal, HearRinging, Tell, SameCore, InviteAnswered, AckDue, WaitsOut, HeardFor, Ended;
    QuietKin(s);
    InviteFinalInv(u, i, r, now, room);
    InviteFinalCore(u, i, r, now, room);
    FinalDue(u, i, r, now, room);
    var w := InviteFinal(u, i, r, now, room).0;
    AnsweredWaits(s, w.slots[i], Class(r), now);
    var l := !s.finalReported && w.slots[i].app.response;
    TellAdds(w, i, l, Final, Ignore);
    QuietApp(s);
    ToldEnded(s, w, i, Class(r), now, l);
  }

  lemma QuietApp(s: Slot)
    ensures Quiet(s).app == s.app
  {
  }

  // So it ends if there is room for what that takes.
  lemma InviteEnds(tm: Tm, r: Resp, now: nat, room: Room, i: nat)
    requires Inv(tm) && Plausible(tm, r) && FirstAnswered(tm.slots, r, i) && r.code >= 200
    requires tm.slots[i].verb.INVITE? && Receive(tm, r, now, room, Ignore).1 == Ok
    ensures Ended(tm.slots[i], Receive(tm, r, now, room, Ignore).0, i, r.code / 100, now)
  {
    hide Inv, InviteFinal, HearOther, HearRinging, Tell, Quiet, HeardFor, Ended;
    FoundFirst(tm.slots, r);
    var s := tm.slots[i];
    var e := Heard(s.gen, s.attempt, Class(r), r.contact);
    assert Answerable(tm, i);
    OfSlot(tm, i);
    NoteOwn(tm, i, e);
    WasSentGrows(tm.log, e, s.gen, s.attempt, s.verb, s.ident);
    HeardNow(tm.log, s, r);
    QuietInv(Note(tm, e), i);
    QuietKin(s);
    var u := Put(Note(tm, e), i, Quiet(s));
    HeardSame(u.log, s, Quiet(s), r);
    HearingEnds(u, s, i, r, now, room);
  }

  lemma DueStays(t: Tm, u: Tm, i: nat, sclass: nat, now: nat)
    requires AckDue(t, i, sclass, now) && u.slots == t.slots && u.log == t.log
    ensures AckDue(u, i, sclass, now)
  {
  }

  // --- Out of time

  predicate OutOfTime(s: Slot, now: nat) {
    s.invite.Some? && s.invite.value.timeoutAt.At? && s.invite.value.timeoutAt.ms <= now
  }

  // An INVITE of the application's out of time is told of, if anyone listens,
  // and given up for good, which is the last thing on record for it; what is
  // to be done about it is due at once.
  lemma InviteTimesOut(tm: Tm, i: nat, now: nat, ch: Choice)
    requires Inv(tm) && i < |tm.slots| && LiveClient(tm.slots[i]) && tm.slots[i].state != Terminated
    requires OutOfTime(tm.slots[i], now) && !tm.slots[i].flags.abandoned
    ensures var s, r := tm.slots[i], RunSlot(tm, i, now, ch);
      var end := Telling(s, s.app.timeout, TimedOut) + [Detached(s.gen)];
      && r.rc == Ok && r.next == At(now) && tm.log <= r.tm.log
      && |tm.log| + |end| <= |r.tm.log| <= |tm.log| + |end| + 1
      && r.tm.log[|r.tm.log| - |end|..] == end
      && (|r.tm.log| > |tm.log| + |end| ==> r.tm.log[|tm.log|].CancelMade?)
  {
    hide Inv, Abandon, Tell, ArmCleanup, AbandonedSlot;
    var s := tm.slots[i];
    OfSlot(tm, i);
    OpenSlot(s, tm.log);
    NotYetArmed(s, now);
    assert tm.slots[i := s] == tm.slots;
    AbandonInv(tm, i, ch.cancelSlot);
    AbandonedIsSame(s, true);
    AbandonedIsSame(s, false);
    var t := Abandon(tm, i, ch.cancelSlot);
    AbandonAdds(tm, i, ch.cancelSlot);
    ArmSame(t.slots[i], now);
    var u := Put(t, i, ArmCleanup(t.slots[i], now));
    TellAdds(u, i, s.app.timeout, TimedOut, ch.react);
  }

  lemma NotYetArmed(s: Slot, now: nat)
    requires !s.flags.abandoned
    ensures ArmCleanup(s, now) == s
  {
  }

  // Giving up puts the CANCEL on record, if one is made
  lemma AbandonAdds(tm: Tm, i: nat, space: Space)
    requires i < |tm.slots| && tm.slots[i].invite.Some?
    ensures var t := Abandon(tm, i, space);
      && tm.log <= t.log && |t.log| <= |tm.log| + 1
      && (|t.log| > |tm.log| ==> t.log[|tm.log|].CancelMade?)
  {
    hide CloneOf, NewSlot, CloneSpace, CancelReady, FinishAbandoned;
    var s := DetachCallbacks(tm.slots[i]);
    NewSlotLog(Put(tm, i, s), CloneOf(s, CANCEL, i), CloneSpace(s, space));
  }

  predicate Over(s: Slot) {
    s.state == Terminated && s.nextSend == Never && !s.matchable
  }

  // The whole chain from i on
  predicate ChainOver(slots: seq<Slot>, i: nat, t: seq<Slot>)
    requires i < |slots| == |t|
  {
    && Over(t[i])
    && (slots[i].child.Some? ==>
          var a := slots[i].child.value;
          && a < |slots| && Over(t[a])
          && (slots[a].child.Some? ==>
                var b := slots[a].child.value; b < |slots| && Over(t[b])))
  }

  // An INVITE, its ACK and the BYE, each in a slot of its own
  predicate Chain(slots: seq<Slot>, i: nat) {
    && i < |slots|
    && (slots[i].child.Some? ==>
          var a := slots[i].child.value;
          && a < |slots| && a != i
          && (slots[a].child.Some? ==>
                var b := slots[a].child.value; b < |slots| && b != a && b != i))
  }

  lemma IsChain(tm: Tm, i: nat)
    requires Inv(tm) && i < |tm.slots| && tm.slots[i].active && !tm.slots[i].verb.ACK?
    ensures Chain(tm.slots, i)
  {
    hide Inv;
    OfSlot(tm, i);
    if tm.slots[i].child.Some? {
      OfSlot(tm, tm.slots[i].child.value);
    }
  }

  lemma RetiredOver(s: Slot)
    ensures Over(RetireChild(s))
  {
  }

  lemma ReleasedOver(s: Slot)
    ensures Over(ReleaseOutbound(Expired(s).(child := None)))
    ensures Expired(s).child == s.child && Expired(s).state.Terminated?
  {
  }

  lemma ChainEnds(slots: seq<Slot>, i: nat)
    requires Chain(slots, i) && slots[i].child.Some?
    ensures var u := TerminateChild(slots, i); var a := slots[i].child.value;
      && u[i] == slots[i].(child := None) && Over(u[a])
      && (slots[a].child.Some? ==> Over(u[slots[a].child.value]))
  {
    hide RetireChild, Over;
    var a := slots[i].child.value;
    RetiredOver(slots[a]);
    if slots[a].child.Some? {
      RetiredOver(slots[slots[a].child.value]);
    }
  }

  lemma FiredEnds(tm: Tm, i: nat, ch: Choice)
    requires Chain(tm.slots, i) && ch.react == Ignore
    ensures var s, t := tm.slots[i], FireTimer(tm, i, ch);
      && t.log == tm.log + Telling(s, !s.finalReported && s.app.timeout, TimedOut)
      && ChainOver(tm.slots, i, t.slots)
  {
    hide RetireChild, ReleaseOutbound, Over, Tell, ClearTimer, MarkTerminated, TerminateChild;
    var s := tm.slots[i];
    ReleasedOver(s);
    ExpiredFacts(s);
    var t := Put(tm, i, Expired(s));
    if s.child.Some? {
      ChainEnds(t.slots, i);
    } else {
      ChildlessEnds(t.slots, i);
    }
    var u := t.(slots := TerminateChild(t.slots, i));
    TellAdds(u, i, !s.finalReported && s.app.timeout, TimedOut, Ignore);
  }

  lemma ChildlessEnds(slots: seq<Slot>, i: nat)
    requires i < |slots| && slots[i].child.None?
    ensures TerminateChild(slots, i) == slots && slots[i].(child := None) == slots[i]
  {
  }

  // Timers D, F and K end a transaction: told if it had no final response, and
  // its ACK and the BYE waiting for it end with it.
  lemma TimerEnds(tm: Tm, i: nat, now: nat, ch: Choice)
    requires Inv(tm) && i < |tm.slots| && LiveClient(tm.slots[i]) && tm.slots[i].state != Terminated
    requires tm.slots[i].timer != NoTimer && tm.slots[i].due.At? && tm.slots[i].due.ms <= now
    requires !OutOfTime(tm.slots[i], now) && ch.react == Ignore
    requires tm.slots[i].flags.abandoned ==> tm.slots[i].state.Completed?
    ensures var s, t := tm.slots[i], RunSlot(tm, i, now, ch).tm;
      && t.log == tm.log + Telling(s, !s.finalReported && s.app.timeout, TimedOut)
      && ChainOver(tm.slots, i, t.slots)
  {
    hide Inv, FireTimer, ExpireLive, SendNow, FinishAbandoned, ChainOver;
    OfSlot(tm, i);
    IsChain(tm, i);
    assert ArmCleanup(tm.slots[i], now) == tm.slots[i];
    assert tm.slots[i := tm.slots[i]] == tm.slots;
    FiredEnds(tm, i, ch);
  }

  // --- Given up

  // The application may cancel an INVITE of its own once, until its final
  // response is through.
  lemma CancelAccepted(tm: Tm, i: nat, space: Space)
    requires i < |tm.slots| && LiveClient(tm.slots[i])
    ensures var s := tm.slots[i];
      CancelTx(tm, i, space).1 == Ok <==>
        && s.verb.INVITE? && s.invite.Some? && s.state !in {Completed, Terminated}
        && s.child == None && !s.finalReported && !s.invite.value.appCancelled
  {
    hide Abandon;
  }

  // One never sent is then over; one that did not ring waits for that, deaf to
  // the clock; and nothing is told of it from here on.
  lemma CancelWaits(tm: Tm, i: nat, space: Space)
    requires i < |tm.slots| && LiveClient(tm.slots[i]) && CancelTx(tm, i, space).1 == Ok
    requires !tm.slots[i].flags.abandoned && !tm.slots[i].invite.value.provisional
    requires tm.slots[i].invite.value.cancel.NotCancelled?
    ensures var s, q := tm.slots[i], CancelTx(tm, i, space).0;
      var t := q.slots[i];
      && OnlySlot(tm, q, i) && q.log == tm.log + [Detached(s.gen)]
      && t.invite.Some? && t.invite.value.timeoutAt == Never
      && t.flags.abandoned && !t.app.response && !t.app.timeout
      && (if s.sends == 0 then t.state == Terminated
          else t.state == s.state && t.nextSend == s.nextSend && t.invite.value.cancel == Scheduled)
  {
    hide NewSlot, CloneOf, CloneSpace, CancelReady, DetachCallbacks, FinishAbandoned;
    var s := tm.slots[i];
    DetachedSlot(s.(invite := Some(s.invite.value.(appCancelled := true))));
  }

  lemma DetachedSlot(s: Slot)
    requires s.invite.Some?
    ensures var d := DetachCallbacks(s); var f := FinishAbandoned(d);
      && d.invite == Some(s.invite.value.(timeoutAt := Never, timeoutId := NoTimeout))
      && d.flags.abandoned && !d.app.response && !d.app.timeout && d.sends == s.sends
      && d.state == s.state && d.nextSend == s.nextSend
      && f.state == Terminated && f.invite.Some? && f.invite.value.timeoutAt == Never
      && f.flags.abandoned && f.app == d.app
  {
  }

  // One that rang gets its CANCEL, if there is room for it, which goes out in
  // its first turn: the INVITE's identity, over the same transport.
  lemma CancelGoesOut(tm: Tm, i: nat, space: Space, now: nat, ch: Choice) returns (c: nat)
    requires Inv(tm) && Cancellable(tm, i) && tm.slots[i].invite.value.cancel != OnWire
    requires tm.slots[i].invite.value.provisional && StartCancel(tm, i, space).1 && ch.sendOk
    ensures var s, t := tm.slots[i], StartCancel(tm, i, space).0;
      && c < |tm.slots| && c != i && LiveClient(t.slots[c])
      && t.slots[c].flags.reliable == s.flags.reliable && t.slots[c].policy == s.policy
      && RunSlot(t, c, now, ch).tm.log ==
         tm.log + [CancelMade(s.gen, s.attempt, tm.gens, s.ident),
                   Sent(tm.gens, 0, CANCEL, CopyOf(s.ident), now)]
  {
    hide Inv, Copies, CopyOf, NewSlot, RunSlot;
    var s := tm.slots[i];
    OfSlot(tm, i);
    AbandonedSafe(tm, i);
    CloneFresh(s, CANCEL, i, tm.gens);
    NewSlotInv(tm, CloneOf(s, CANCEL, i), CloneSpace(s, space));
    c := NewSlot(tm, CloneOf(s, CANCEL, i), CloneSpace(s, space)).1.value;
    var t := StartCancel(tm, i, space).0;
    GoesAtAll(t, c, now, ch);
  }
}
