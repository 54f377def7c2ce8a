// The sends on record, and what adds to them: a transaction's own turn in
// the pump, and nothing else.
module SendLog {
  import opened Base
  import opened Slots
  import opened Table
  import opened ClientSteps
  import opened ServerSteps
  import opened Machine
  import opened History
  import opened HistoryKeeps
  import opened AbandonKeeps
  import opened ReceiveKeeps
  import opened FinalKeeps
  import opened RunKeeps
  import opened Runs

  function SendTimes(log: seq<Event>, g: nat, a: nat): seq<nat> {
    if log == [] then []
    else
      var n := |log| - 1;
      SendTimes(log[..n], g, a)
      + (if log[n].Sent? && log[n].gen == g && log[n].attempt == a then [log[n].at] else [])
  }

  predicate NoneAfter(log: seq<Event>, g: nat, a: nat) {
    forall k :: 0 <= k < |log| && log[k].Sent? && log[k].gen == g ==> log[k].attempt <= a
  }

  // What a transaction sends, and the ACK it waits for
  predicate Traffic(e: Event, g: nat) {
    (e.Sent? || e.Replied? || e.Acked?) && e.gen == g
  }

  // Longer by nothing of that of g
  predicate LogKept(l: seq<Event>, m: seq<Event>, g: nat) {
    l <= m && forall k :: |l| <= k < |m| ==> !Traffic(m[k], g)
  }

  lemma LogKeptTrans(l: seq<Event>, m: seq<Event>, n: seq<Event>, g: nat)
    requires LogKept(l, m, g) && LogKept(m, n, g)
    ensures LogKept(l, n, g)
  {
    forall k | |l| <= k < |n| ensures !Traffic(n[k], g) {
      if k < |m| { assert n[k] == m[k]; }
    }
  }

  lemma {:induction false} SendTimesKept(l: seq<Event>, m: seq<Event>, g: nat, a: nat)
    requires LogKept(l, m, g)
    ensures SendTimes(m, g, a) == SendTimes(l, g, a)
    decreases |m|
  {
    if |m| > |l| {
      var n := |m| - 1;
      assert l <= m[..n];
      SendTimesKept(l, m[..n], g, a);
    } else {
      assert l == m;
    }
  }

  lemma {:induction false} NoTimes(log: seq<Event>, g: nat, a: nat)
    requires forall k :: 0 <= k < |log| && log[k].Sent? && log[k].gen == g ==> log[k].attempt != a
    ensures SendTimes(log, g, a) == []
  {
    if log != [] {
      NoTimes(log[..|log| - 1], g, a);
    }
  }

  lemma KeptSelf(l: seq<Event>, g: nat)
    ensures LogKept(l, l, g)
  {
  }

  lemma SilentKept(l: seq<Event>, m: seq<Event>, g: nat)
    requires Silent(l, m)
    ensures LogKept(l, m, g)
  {
  }

  lemma NoteKept(l: seq<Event>, e: Event, g: nat)
    requires !Traffic(e, g)
    ensures LogKept(l, l + [e], g)
  {
  }

  // --- What each operation adds

  lemma AckSentLog(tm: Tm, i: nat, now: nat)
    requires i < |tm.slots|
    ensures AckSent(tm, i, now).0.log == tm.log
  {
  }

  lemma SendNowLog(tm: Tm, j: nat, now: nat, ch: Choice, g: nat)
    requires j < |tm.slots| && tm.slots[j].gen != g
    ensures LogKept(tm.log, SendNow(tm, j, now, ch).tm.log, g)
  {
    hide PostSendInvite, PostSendOther, NoteSend, AckSent, Wake;
    var s := tm.slots[j];
    var b := s.(built := true, matchable := s.matchable || !s.built);
    var t := Note(tm, Sent(b.gen, b.attempt, b.verb, b.ident, now));
    AckSentLog(Put(t, j, NoteSend(b, now)), j, now);
  }

  lemma TellLog(tm: Tm, i: nat, l: bool, what: Report, r: Reaction, g: nat)
    requires i < |tm.slots|
    ensures LogKept(tm.log, Tell(tm, i, l, what, r).log, g)
  {
  }

  lemma ExpireLiveLog(tm: Tm, j: nat, now: nat, ch: Choice, g: nat)
    requires Inv(tm) && j < |tm.slots| && LiveClient(tm.slots[j]) && tm.slots[j].invite.Some?
    requires !tm.slots[j].state.Terminated? && !tm.slots[j].finalReported
    ensures LogKept(tm.log, ExpireLive(tm, j, now, ch).log, g)
  {
    hide Inv, Abandon, Tell, ArmCleanup, LogKept, AbandonedSlot;
    AbandonInv(tm, j, ch.cancelSlot);
    var t := Abandon(tm, j, ch.cancelSlot);
    SilentKept(tm.log, t.log, g);
    var u := Put(t, j, ArmCleanup(t.slots[j], now));
    TellLog(u, j, tm.slots[j].app.timeout, TimedOut, ch.react, g);
    var w := Tell(u, j, tm.slots[j].app.timeout, TimedOut, ch.react);
    LogKeptTrans(tm.log, t.log, w.log, g);
    NoteKept(w.log, Detached(tm.slots[j].gen), g);
    LogKeptTrans(tm.log, w.log, w.log + [Detached(tm.slots[j].gen)], g);
  }

  lemma ClientRunLog(tm: Tm, j: nat, now: nat, ch: Choice, g: nat)
    requires Inv(tm) && j < |tm.slots| && LiveClient(tm.slots[j]) && tm.slots[j].gen != g
    ensures LogKept(tm.log, ClientRun(tm, j, now, ch).tm.log, g)
  {
    hide Inv, ArmCleanup, ExpireLive, SendNow, FinishAbandoned, Tell, TerminateChild, LogKept;
    var s := tm.slots[j];
    KeptSelf(tm.log, g);
    if !s.state.Terminated? && !s.flags.terminated {
      ArmInv(tm, j, now);
      ArmCleanupFacts(s, now);
      ArmSame(s, now);
      var a := ArmCleanup(s, now);
      var t := Put(tm, j, a);
      OfSlot(t, j);
      if InviteDue(a, now) {
        if !a.flags.abandoned {
          ExpireLiveLog(t, j, now, ch, g);
        }
      } else if TimerDue(a, now) {
        var u := Put(t, j, ClearTimer(MarkTerminated(a)));
        TellLog(u.(slots := TerminateChild(u.slots, j)), j, !a.finalReported && a.app.timeout,
                TimedOut, ch.react, g);
      } else if Due(a.nextSend, now) {
        SendNowLog(t, j, now, ch, g);
      }
    }
  }

  lemma RunSlotLog(tm: Tm, j: nat, now: nat, ch: Choice, g: nat)
    requires Inv(tm) && j < |tm.slots| && (tm.slots[j].active ==> tm.slots[j].gen != g)
    ensures LogKept(tm.log, RunSlot(tm, j, now, ch).tm.log, g)
  {
    hide Inv, ClientRun, LogKept, ServerSent, ArmTimerL, ServerTerminated, ServerWake, ClientSlot;
    KeptSelf(tm.log, g);
    if tm.slots[j].active {
      if tm.slots[j].role.Client? {
        ClientRunLog(tm, j, now, ch, g);
      } else {
        var a := ArmTimerL(tm.slots[j], now);
        ArmedGen(tm.slots[j], now);
        NoteKept(tm.log, Replied(a.gen, a.server.status, now), g);
      }
    }
  }

  lemma ArmedGen(s: Slot, now: nat)
    ensures ArmTimerL(s, now).gen == s.gen
  {
  }

  lemma InviteFinalLog(tm: Tm, i: nat, r: Resp, now: nat, room: Room, g: nat)
    requires Inv(tm) && i < |tm.slots| && LiveClient(tm.slots[i]) && tm.slots[i].invite.Some?
    requires !tm.slots[i].state.Terminated? && tm.slots[i].nextSend.Never?
    requires HeardFor(tm.log, tm.slots[i], r)
    ensures LogKept(tm.log, InviteFinal(tm, i, r, now, room).0.log, g)
  {
    hide Inv, InviteFinal, LogKept, Answered;
    InviteFinalInv(tm, i, r, now, room);
    SilentKept(tm.log, InviteFinal(tm, i, r, now, room).0.log, g);
  }

  lemma HearInviteLog(tm: Tm, i: nat, r: Resp, now: nat, room: Room, react: Reaction, g: nat)
    requires Inv(tm) && i < |tm.slots| && LiveClient(tm.slots[i]) && tm.slots[i].invite.Some?
    requires !tm.slots[i].state.Terminated? && tm.slots[i].nextSend.Never? && Class(r) >= 1
    requires Class(r) == 1 ==>
               !tm.slots[i].finalReported && WasHeard(tm.log, tm.slots[i].gen, tm.slots[i].attempt, 1)
    requires WasSent(tm.log, tm.slots[i].gen, tm.slots[i].attempt, INVITE, tm.slots[i].ident)
    requires Class(r) >= 2 ==> HeardFor(tm.log, tm.slots[i], r)
    ensures LogKept(tm.log, HearInvite(tm, i, r, now, room, react).0.log, g)
  {
    hide Inv, InviteFinal, HearRinging, Tell, LogKept;
    if Class(r) == 1 {
      HearRingingInv(tm, i, now, room);
      var t := HearRinging(tm, i, now, room);
      SilentKept(tm.log, t.log, g);
      TellLog(t, i, t.slots[i].app.response, Progress, react, g);
      LogKeptTrans(tm.log, t.log, Tell(t, i, t.slots[i].app.response, Progress, react).log, g);
    } else {
      InviteFinalLog(tm, i, r, now, room, g);
      var t := InviteFinal(tm, i, r, now, room).0;
      var l := !tm.slots[i].finalReported && t.slots[i].app.response;
      TellLog(t, i, l, Final, react, g);
      LogKeptTrans(tm.log, t.log, Tell(t, i, l, Final, react).log, g);
    }
  }

  lemma ReceiveLog(tm: Tm, r: Resp, now: nat, room: Room, react: Reaction, g: nat)
    requires Inv(tm) && Plausible(tm, r)
    ensures LogKept(tm.log, Receive(tm, r, now, room, react).0.log, g)
  {
    hide Inv, HearInvite, Tell, LogKept;
    KeptSelf(tm.log, g);
    var f := FindFrom(tm.slots, r, 0);
    if f.Some? {
      var i := f.value;
      var s := tm.slots[i];
      var e := Heard(s.gen, s.attempt, Class(r), r.contact);
      assert Answerable(tm, i);
      OfSlot(tm, i);
      NoteOwn(tm, i, e);
      var t := Note(tm, e);
      NoteKept(tm.log, e, g);
      WasSentGrows(tm.log, e, s.gen, s.attempt, s.verb, s.ident);
      HeardNow(tm.log, s, r);
      QuietInv(t, i);
      var u := Put(t, i, Quiet(s));
      if IsInvite(s) {
        if !(Class(r) == 1 && s.finalReported) {
          HearInviteLog(u, i, r, now, room, react, g);
          LogKeptTrans(tm.log, t.log, HearInvite(u, i, r, now, room, react).0.log, g);
        }
      } else {
        HearOtherLog(u, i, r, now, react, g);
        LogKeptTrans(tm.log, t.log, HearOther(u, i, r, now, react).log, g);
      }
    }
  }

  lemma HearOtherLog(tm: Tm, i: nat, r: Resp, now: nat, react: Reaction, g: nat)
    requires i < |tm.slots|
    ensures LogKept(tm.log, HearOther(tm, i, r, now, react).log, g)
  {
    hide LogKept, Tell, OtherAnswered;
    var s := tm.slots[i];
    TellLog(tm, i, s.app.response, Progress, react, g);
    TellLog(Put(tm, i, OtherAnswered(s, now)), i, !s.finalReported && s.app.response, Final, react, g);
  }

  lemma {:induction false} ReapLog(tm: Tm, k: nat)
    requires k <= |tm.slots|
    ensures ReapFrom(tm, k).log == tm.log
    decreases |tm.slots| - k
  {
    if k < |tm.slots| {
      ReapLog(if tm.slots[k].active && tm.slots[k].state.Terminated? then Drop(tm, k) else tm, k + 1);
    }
  }

  lemma CancelTxLog(tm: Tm, j: nat, space: Space, g: nat)
    requires Inv(tm) && (j < |tm.slots| && tm.slots[j].active ==> tm.slots[j].role.Client?)
    ensures LogKept(tm.log, CancelTx(tm, j, space).0.log, g)
  {
    hide Inv, Abandon, LogKept, AbandonedSlot;
    KeptSelf(tm.log, g);
    if CancelTx(tm, j, space).1 == Ok {
      var s := tm.slots[j];
      MarkCancelled(tm, j);
      if !s.flags.abandoned {
        var t := Put(tm, j, s.(invite := Some(s.invite.value.(appCancelled := true))));
        AbandonInv(t, j, space);
        var a := Abandon(t, j, space);
        SilentKept(tm.log, a.log, g);
        NoteKept(a.log, Detached(s.gen), g);
        LogKeptTrans(tm.log, a.log, a.log + [Detached(s.gen)], g);
      }
    }
  }

  // The transaction a request is the ACK of
  predicate AckOfGen(tm: Tm, q: Req, g: nat) {
    var h := Classify(tm, q);
    h.AckHeard? && tm.slots[h.i].gen == g
  }

  // No step but the pump's sends anything, and only an ACK is an ACK
  lemma StepLog(tm: Tm, st: Step, g: nat)
    requires Inv(tm) && Allowed(tm, st) && !st.PumpAt?
    requires st.Ask? ==> !AckOfGen(tm, st.q, g)
    ensures LogKept(tm.log, Apply(tm, st).log, g)
  {
    hide Inv, Receive, CancelTx, LogKept, ClientSlot, ServerSlot, DropFamily, FamilySize;
    KeptSelf(tm.log, g);
    match st {
      case Hear(r, now, room, react) => ReceiveLog(tm, r, now, room, react, g);
      case Cancel(j, space) => CancelTxLog(tm, j, space, g);
      case ReapAll => ReapLog(tm, 0);
      case Ask(q, now) => AskLog(tm, q, now, g);
      case _ => QuietStepLog(tm, st);
    }
  }

  // Only the pump sends: requests, and responses
  lemma OnlyPumpSends(tm: Tm, st: Step, k: nat)
    requires Inv(tm) && Allowed(tm, st) && !st.PumpAt?
    requires |tm.log| <= k < |Apply(tm, st).log|
    ensures tm.log <= Apply(tm, st).log
    ensures !Apply(tm, st).log[k].Sent? && !Apply(tm, st).log[k].Replied?
  {
    hide Inv, Apply;
    if st.Ask? {
      AckOnly(tm, st.q, st.when);
    } else {
      StepLog(tm, st, Apply(tm, st).log[k].gen);
    }
  }

  lemma AckOnly(tm: Tm, q: Req, now: nat)
    ensures var t := Apply(tm, Ask(q, now));
      t.log == tm.log || exists g :: t.log == tm.log + [Acked(g)]
  {
    hide Classify, AckSlot, Again;
  }

  lemma AskLog(tm: Tm, q: Req, now: nat, g: nat)
    requires !AckOfGen(tm, q, g)
    ensures LogKept(tm.log, Request(tm, q, now).log, g)
  {
    hide Classify, AckSlot, Again;
  }

  lemma QuietStepLog(tm: Tm, st: Step)
    requires !st.PumpAt? && !st.Hear? && !st.Cancel? && !st.ReapAll? && !st.Ask?
    ensures Apply(tm, st).log == tm.log
  {
    hide ClientSlot, ServerSlot, DropFamily, FamilySize, AllocIndex, Classify, Responded, Restart,
         AckSlot, Again;
  }
}
