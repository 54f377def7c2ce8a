module BackoffRuns {
  // The sends of one INVITE over any run: never closer together than the
  // doubling intervals say, whatever else goes on in the table.

  import opened Base
  import opened Slots
  import opened Table
  import opened ClientSteps
  import opened ServerSteps
  import opened Machine
  import opened Links
  import opened History
  import opened HistoryKeeps
  import opened AbandonKeeps
  import opened ReceiveKeeps
  import opened FinalKeeps
  import opened PumpKeeps
  import opened RunKeeps
  import opened Runs
  import opened Frames
  import opened FinalShape
  import opened CleanupRuns
  import opened Backoff
  import opened SendLog

  // --- The sends on record

  // The n-th send comes at least base * (2^(n-1) - 1) after the first
  predicate PacedTimes(base: nat, ts: seq<nat>) {
    forall m :: 0 <= m < |ts| ==> ts[m] >= ts[0] + Total(base, m)
  }

  predicate Logged(s: Slot, log: seq<Event>) {
    && NoneAfter(log, s.gen, s.attempt)
    && (Sound(s.policy) && In32Bits(s) ==>
          var ts := SendTimes(log, s.gen, s.attempt);
          |ts| == s.sends && (|ts| > 0 ==> ts[0] == s.createdAt)
          && PacedTimes(InviteBase(s.policy), ts))
  }

  lemma LoggedKept(s: Slot, t: Slot, l: seq<Event>, m: seq<Event>)
    requires Logged(s, l) && LogKept(l, m, s.gen)
    requires t.gen == s.gen && t.attempt == s.attempt && t.sends == s.sends
    requires t.createdAt == s.createdAt && t.policy == s.policy
    requires s.flags.abandoned ==> t.flags.abandoned
    ensures Logged(t, m)
  {
    hide InviteBase, TimerBMs, CleanupMs, SendTimes;
    SendTimesKept(l, m, s.gen, s.attempt);
    forall k | 0 <= k < |m| && m[k].Sent? && m[k].gen == s.gen
      ensures m[k].attempt <= s.attempt
    {
      if k < |l| { assert m[k] == l[k]; }
    }
  }

  lemma LoggedRestart(s: Slot, b: Build, l: seq<Event>)
    requires Logged(s, l)
    ensures Logged(Restart(s.(child := None), b), l)
  {
    NoTimes(l, s.gen, s.attempt + 1);
  }

  lemma LoggedSend(s: Slot, t: Slot, log: seq<Event>, now: nat)
    requires Logged(s, log) && t.gen == s.gen && t.attempt == s.attempt && t.policy == s.policy
    requires t.flags.abandoned == s.flags.abandoned
    requires Sound(s.policy) && In32Bits(s) ==>
               t.sends == s.sends + 1 && now >= t.createdAt + Total(InviteBase(s.policy), s.sends)
               && t.createdAt == if s.sends == 0 then now else s.createdAt
    ensures Logged(t, log + [Sent(s.gen, s.attempt, s.verb, s.ident, now)])
  {
    hide InviteBase, TimerBMs, CleanupMs, Total;
    var e := Sent(s.gen, s.attempt, s.verb, s.ident, now);
    var m := log + [e];
    assert m[..|m| - 1] == log;
    assert SendTimes(m, s.gen, s.attempt) == SendTimes(log, s.gen, s.attempt) + [now];
    forall k | 0 <= k < |m| && m[k].Sent? && m[k].gen == s.gen
      ensures m[k].attempt <= s.attempt
    {
      if k < |log| { assert m[k] == log[k]; }
    }
    GapDoubles(InviteBase(s.policy), 0);
  }

  // --- One INVITE, with its history

  predicate Steady(s: Slot, log: seq<Event>, clock: nat, g: nat, p: Policy) {
    s.active && s.gen == g ==>
      LiveClient(s) && s.invite.Some? && s.policy == p && Paced(s, clock) && Logged(s, log)
  }

  // The same sends, with nothing more to send
  lemma RestSteady(s: Slot, t: Slot, l: seq<Event>, m: seq<Event>, clock: nat, p: Policy)
    requires Logged(s, l) && LogKept(l, m, s.gen) && s.policy == p
    requires t.gen == s.gen && t.attempt == s.attempt && t.sends == s.sends
    requires t.createdAt == s.createdAt && t.policy == s.policy
    requires s.flags.abandoned ==> t.flags.abandoned
    requires LiveClient(t) && t.invite.Some? && t.nextSend.Never? && !t.state.Calling?
    ensures Steady(t, m, clock, s.gen, p)
  {
    hide Logged, LogKept, Paced;
    LoggedKept(s, t, l, m);
    RestPaced(t, clock);
  }

  lemma NextSteady(tm: Tm, i: nat, b: Build, clock: nat, g: nat, p: Policy)
    requires i < |tm.slots| && Steady(tm.slots[i], tm.log, clock, g, p)
    ensures Steady(NextTx(tm, i, b).0.slots[i], tm.log, clock, g, p)
    ensures NextTx(tm, i, b).0.log == tm.log
  {
    hide Logged, InviteBase, TimerBMs, CleanupMs, PacedLive, PacedGone, LogKept;
    var s := tm.slots[i];
    if s.active && s.gen == g {
      LoggedRestart(s, b, tm.log);
      KeptSelf(tm.log, g);
      LoggedKept(s, s.(child := None), tm.log, tm.log);
      ChildlessPaced(s, clock);
      RestartPaced(s.(child := None), b, clock);
    }
  }

  lemma ChildlessPaced(s: Slot, clock: nat)
    requires s.invite.Some? && Paced(s, clock)
    ensures Paced(s.(child := None), clock)
  {
  }

  lemma RestartPaced(s: Slot, b: Build, clock: nat)
    requires s.invite.Some?
    ensures !s.flags.abandoned ==> Restart(s, b).invite.Some? && Paced(Restart(s, b), clock)
  {
  }

  lemma TellSteady(tm: Tm, i: nat, l: bool, what: Report, r: Reaction, clock: nat, g: nat, p: Policy)
    requires i < |tm.slots| && Steady(tm.slots[i], tm.log, clock, g, p)
    ensures var t := Tell(tm, i, l, what, r);
      Steady(t.slots[i], t.log, clock, g, p) && LogKept(tm.log, t.log, g)
  {
    hide Steady, NextTx;
    if l {
      var t := Note(tm, Told(tm.slots[i].gen, tm.slots[i].attempt, what));
      NotedSteady(tm.slots[i], tm.log, t.log, clock, g, p);
      match r {
        case Ignore =>
        case Retry(b) => NextSteady(t, i, b, clock, g, p);
      }
    }
  }

  lemma NotedSteady(s: Slot, l: seq<Event>, m: seq<Event>, clock: nat, g: nat, p: Policy)
    requires Steady(s, l, clock, g, p) && LogKept(l, m, g)
    ensures Steady(s, m, clock, g, p)
  {
    hide Logged, LogKept;
    if s.active && s.gen == g {
      LoggedKept(s, s, l, m);
    }
  }

  // --- Its own steps: responses

  lemma HearRingingSteady(tm: Tm, i: nat, now: nat, room: Room, p: Policy)
    requires Inv(tm) && i < |tm.slots| && LiveClient(tm.slots[i]) && tm.slots[i].invite.Some?
    requires !tm.slots[i].state.Terminated? && tm.slots[i].nextSend.Never?
    requires !tm.slots[i].finalReported
    requires WasHeard(tm.log, tm.slots[i].gen, tm.slots[i].attempt, 1)
    requires WasSent(tm.log, tm.slots[i].gen, tm.slots[i].attempt, INVITE, tm.slots[i].ident)
    requires tm.slots[i].policy == p && Logged(tm.slots[i], tm.log)
    ensures var t := HearRinging(tm, i, now, room);
      && Steady(t.slots[i], t.log, now, tm.slots[i].gen, p)
      && LogKept(tm.log, t.log, tm.slots[i].gen) && LiveClient(t.slots[i])
      && t.slots[i].gen == tm.slots[i].gen
  {
    hide Inv, Slots.Ringing, StartCancel, FinishAbandoned, ArmCleanup, CancelStarted, Steady, Logged;
    var s := tm.slots[i];
    var r := Slots.Ringing(s);
    OfSlot(tm, i);
    RingingFlag(s);
    RingQuiet(s, true, now);
    RingQuiet(s, false, now);
    HearRingingInv(tm, i, now, room);
    var t := HearRinging(tm, i, now, room);
    SilentKept(tm.log, t.log, s.gen);
    if r.invite.value.cancel.Scheduled? {
      RingInv(tm, i);
      RingingOk(s);
      OfSlot(Put(tm, i, r), i);
      StartCancelInv(Put(tm, i, r), i, room.cancelSlot);
    }
    RestSteady(s, t.slots[i], tm.log, t.log, now, p);
  }

  lemma RingQuiet(s: Slot, ok: bool, now: nat)
    requires LiveClient(s) && s.invite.Some? && s.nextSend.Never? && SlotOk(s)
    requires !s.finalReported && !s.state.Terminated?
    ensures var r := Slots.Ringing(s);
      && r.invite.Some?
      && var t := if !r.invite.value.cancel.Scheduled? then r
                  else ArmCleanup(if ok then CancelStarted(r) else FinishAbandoned(r), now);
      t.gen == s.gen && t.attempt == s.attempt && t.sends == s.sends
      && t.createdAt == s.createdAt && t.policy == s.policy
      && t.flags.abandoned == s.flags.abandoned
      && LiveClient(t) && t.invite.Some? && t.nextSend.Never? && !t.state.Calling?
  {
  }

  lemma AnsweredQuiet(s: Slot, u: Slot, sclass: nat, now: nat)
    requires LiveClient(s) && s.invite.Some? && s.nextSend.Never?
    requires SameCore(InviteAnswered(s, sclass, now), u)
    ensures u.gen == s.gen && u.attempt == s.attempt && u.sends == s.sends
    ensures u.createdAt == s.createdAt && u.policy == s.policy
    ensures u.flags.abandoned == s.flags.abandoned
    ensures LiveClient(u) && u.invite.Some? && u.nextSend.Never? && !u.state.Calling?
  {
    hide TimerDMs;
  }

  lemma HearInviteSteady(tm: Tm, i: nat, r: Resp, now: nat, room: Room, react: Reaction, p: Policy)
    requires Inv(tm) && i < |tm.slots| && LiveClient(tm.slots[i]) && tm.slots[i].invite.Some?
    requires !tm.slots[i].state.Terminated? && tm.slots[i].nextSend.Never? && Class(r) >= 1
    requires Class(r) == 1 ==>
               !tm.slots[i].finalReported && WasHeard(tm.log, tm.slots[i].gen, tm.slots[i].attempt, 1)
    requires WasSent(tm.log, tm.slots[i].gen, tm.slots[i].attempt, INVITE, tm.slots[i].ident)
    requires tm.slots[i].policy == p && Logged(tm.slots[i], tm.log)
    requires Class(r) >= 2 ==> HeardFor(tm.log, tm.slots[i], r)
    ensures var w := HearInvite(tm, i, r, now, room, react).0;
      Steady(w.slots[i], w.log, now, tm.slots[i].gen, p)
      && LogKept(tm.log, w.log, tm.slots[i].gen)
  {
    hide Inv, InviteFinal, HearRinging, InviteAnswered, SameCore, Steady, Logged, Tell, Answered,
         LogKept;
    var s := tm.slots[i];
    OfSlot(tm, i);
    if Class(r) == 1 {
      HearRingingSteady(tm, i, now, room, p);
      var t := HearRinging(tm, i, now, room);
      TellSteady(t, i, t.slots[i].app.response, Progress, react, now, s.gen, p);
      LogKeptTrans(tm.log, t.log, Tell(t, i, t.slots[i].app.response, Progress, react).log, s.gen);
    } else {
      InviteFinalCore(tm, i, r, now, room);
      InviteFinalInv(tm, i, r, now, room);
      var (t, rc) := InviteFinal(tm, i, r, now, room);
      SilentKept(tm.log, t.log, s.gen);
      AnsweredQuiet(s, t.slots[i], Class(r), now);
      RestSteady(s, t.slots[i], tm.log, t.log, now, p);
      if rc == Ok {
        var l := !s.finalReported && t.slots[i].app.response;
        TellSteady(t, i, l, Final, react, now, s.gen, p);
        var u := Tell(t, i, l, Final, react);
        LogKeptTrans(tm.log, t.log, u.log, s.gen);
        SettleSteady(u, i, now, s.gen, p);
      }
    }
  }

  lemma SettleSteady(tm: Tm, i: nat, clock: nat, g: nat, p: Policy)
    requires i < |tm.slots| && Steady(tm.slots[i], tm.log, clock, g, p)
    ensures Steady(Settle(tm, i).slots[i], tm.log, clock, g, p) && Settle(tm, i).log == tm.log
  {
    hide Logged, Paced, LogKept;
    var s := tm.slots[i];
    if s.active && s.gen == g && !s.state.Calling? {
      KeptSelf(tm.log, g);
      RestSteady(s, ReleaseOutbound(s), tm.log, tm.log, clock, p);
    }
  }

  lemma ReceiveSteady(tm: Tm, r: Resp, now: nat, room: Room, react: Reaction, i: nat, g: nat, p: Policy)
    requires Inv(tm) && Plausible(tm, r) && i < |tm.slots| && tm.clock <= now
    requires FindFrom(tm.slots, r, 0) == Some(i) && tm.slots[i].gen == g
    requires Steady(tm.slots[i], tm.log, tm.clock, g, p)
    ensures var t := Receive(tm, r, now, room, react).0;
            Steady(t.slots[i], t.log, now, g, p)
  {
    hide Inv, HearInvite, HearOther, Logged, Paced, LogKept;
    var s := tm.slots[i];
    var e := Heard(s.gen, s.attempt, Class(r), r.contact);
    assert Answerable(tm, i);
    OfSlot(tm, i);
    NoteOwn(tm, i, e);
    var t := Note(tm, e);
    NoteKept(tm.log, e, g);
    WasSentGrows(tm.log, e, s.gen, s.attempt, s.verb, s.ident);
    HeardNow(tm.log, s, r);
    QuietInv(t, i);
    var u := Put(t, i, Quiet(s));
    LaterPaced(s, tm.clock, now);
    if Class(r) == 1 && s.finalReported {
      LoggedKept(s, s, tm.log, t.log);
    } else {
      LoggedKept(s, Quiet(s), tm.log, t.log);
      HearInviteSteady(u, i, r, now, room, react, p);
    }
  }

  // --- Its own steps: giving up

  lemma AbandonSteady(tm: Tm, i: nat, space: Space, clock: nat, p: Policy)
    requires Inv(tm) && i < |tm.slots| && LiveClient(tm.slots[i]) && tm.slots[i].invite.Some?
    requires !tm.slots[i].state.Terminated? && !tm.slots[i].finalReported
    requires !tm.slots[i].flags.abandoned
    requires Steady(tm.slots[i], tm.log, clock, tm.slots[i].gen, p)
    ensures var t := Abandon(tm, i, space);
      Steady(t.slots[i], t.log, clock, tm.slots[i].gen, p)
      && LogKept(tm.log, t.log, tm.slots[i].gen)
  {
    hide Inv, Abandon, AbandonedSlot, Logged, Paced, LogKept;
    var s := tm.slots[i];
    OfSlot(tm, i);
    AbandonInv(tm, i, space);
    var t := Abandon(tm, i, space);
    SilentKept(tm.log, t.log, s.gen);
    AbandonPaced(s, true, clock);
    AbandonPaced(s, false, clock);
    AbandonedSends(s, true);
    AbandonedSends(s, false);
    LoggedKept(s, t.slots[i], tm.log, t.log);
  }

  lemma AbandonedSends(s: Slot, ok: bool)
    requires s.invite.Some?
    ensures var t := AbandonedSlot(s, ok);
      t.gen == s.gen && t.attempt == s.attempt && t.sends == s.sends && t.createdAt == s.createdAt
      && t.policy == s.policy && t.flags.abandoned && t.active == s.active && t.role == s.role
      && t.invite.Some?
  {
  }

  lemma CancelTxSteady(tm: Tm, i: nat, space: Space, clock: nat, g: nat, p: Policy)
    requires Inv(tm) && i < |tm.slots| && LiveClient(tm.slots[i]) && tm.slots[i].gen == g
    requires Steady(tm.slots[i], tm.log, clock, g, p)
    ensures var t := CancelTx(tm, i, space).0; Steady(t.slots[i], t.log, clock, g, p)
  {
    hide Inv, Abandon, Logged, LogKept, Paced;
    var s := tm.slots[i];
    if CancelTx(tm, i, space).1 == Ok {
      var c := s.(invite := Some(s.invite.value.(appCancelled := true)));
      MarkCancelled(tm, i);
      KeptSelf(tm.log, g);
      LoggedKept(s, c, tm.log, tm.log);
      AppCancelPaced(s, clock);
      if !s.flags.abandoned {
        var t := Put(tm, i, c);
        AbandonSteady(t, i, space, clock, p);
        var a := Abandon(t, i, space);
        NoteKept(a.log, Detached(g), g);
        NotedSteady(a.slots[i], a.log, a.log + [Detached(g)], clock, g, p);
      }
    }
  }

  lemma AppCancelPaced(s: Slot, clock: nat)
    requires s.invite.Some? && Paced(s, clock)
    ensures Paced(s.(invite := Some(s.invite.value.(appCancelled := true))), clock)
  {
  }

  lemma ExpireLiveSteady(tm: Tm, i: nat, now: nat, ch: Choice, p: Policy)
    requires Inv(tm) && i < |tm.slots| && LiveClient(tm.slots[i]) && tm.slots[i].invite.Some?
    requires !tm.slots[i].state.Terminated? && !tm.slots[i].finalReported
    requires !tm.slots[i].flags.abandoned
    requires Steady(tm.slots[i], tm.log, now, tm.slots[i].gen, p)
    ensures var t := ExpireLive(tm, i, now, ch);
      Steady(t.slots[i], t.log, now, tm.slots[i].gen, p)
  {
    hide Inv, Abandon, Tell, ArmCleanup, Steady, LogKept;
    var s := tm.slots[i];
    AbandonSteady(tm, i, ch.cancelSlot, now, p);
    var t := Abandon(tm, i, ch.cancelSlot);
    ArmSteady(t.slots[i], t.log, now, s.gen, p);
    var u := Put(t, i, ArmCleanup(t.slots[i], now));
    TellSteady(u, i, s.app.timeout, TimedOut, ch.react, now, s.gen, p);
    var w := Tell(u, i, s.app.timeout, TimedOut, ch.react);
    NoteKept(w.log, Detached(s.gen), s.gen);
    NotedSteady(w.slots[i], w.log, w.log + [Detached(s.gen)], now, s.gen, p);
  }

  lemma ArmSteady(s: Slot, log: seq<Event>, now: nat, g: nat, p: Policy)
    requires Steady(s, log, now, g, p)
    ensures Steady(ArmCleanup(s, now), log, now, g, p)
  {
    hide Logged, Paced, LogKept;
    if s.active && s.gen == g {
      ArmPaced(s, now);
      KeptSelf(log, g);
      LoggedKept(s, ArmCleanup(s, now), log, log);
    }
  }

  lemma FireTimerSteady(tm: Tm, i: nat, now: nat, ch: Choice, p: Policy)
    requires Inv(tm) && i < |tm.slots| && LiveClient(tm.slots[i]) && tm.slots[i].invite.Some?
    requires !tm.slots[i].timer.NoTimer? && IsInvite(tm.slots[i])
    requires Steady(tm.slots[i], tm.log, now, tm.slots[i].gen, p)
    ensures var t := FireTimer(tm, i, ch);
      Steady(t.slots[i], t.log, now, tm.slots[i].gen, p)
  {
    hide Inv, Tell, TerminateChild, ClearTimer, MarkTerminated, Logged, LogKept, Paced,
         ReleaseOutbound;
    var s := tm.slots[i];
    ExpiredFacts(s);
    ExpiredSends(s);
    var t := Put(tm, i, Expired(s));
    if s.child.Some? {
      NotOwnGrandchild(tm, i);
    }
    TerminateOwn(t.slots, i);
    var u := t.(slots := TerminateChild(t.slots, i));
    KeptSelf(tm.log, s.gen);
    RestSteady(s, u.slots[i], tm.log, tm.log, now, p);
    var l := !s.finalReported && s.app.timeout;
    TellSteady(u, i, l, TimedOut, ch.react, now, s.gen, p);
    var w := Tell(u, i, l, TimedOut, ch.react);
    ReleaseSteady(w.slots[i], w.log, now, s.gen, p);
  }

  lemma ExpiredSends(s: Slot)
    ensures var t := Expired(s).(child := None);
      t.gen == s.gen && t.attempt == s.attempt && t.sends == s.sends && t.createdAt == s.createdAt
      && t.policy == s.policy && t.flags.abandoned == s.flags.abandoned && t.active == s.active
      && t.role == s.role && t.invite == s.invite && t.nextSend.Never? && t.state.Terminated?
  {
  }

  lemma ReleaseSteady(s: Slot, log: seq<Event>, now: nat, g: nat, p: Policy)
    requires Steady(s, log, now, g, p)
    ensures !s.state.Calling? ==> Steady(ReleaseOutbound(s), log, now, g, p)
  {
    hide Logged, Paced, LogKept;
    if s.active && s.gen == g && !s.state.Calling? {
      KeptSelf(log, g);
      RestSteady(s, ReleaseOutbound(s), log, log, now, p);
    }
  }

  // --- Its own steps: sending

  lemma BuiltSteady(s: Slot, b: bool, m: bool, log: seq<Event>, now: nat, g: nat, p: Policy)
    requires Steady(s, log, now, g, p)
    ensures Steady(s.(built := b, matchable := m), log, now, g, p)
  {
    hide Logged, LogKept, Paced;
    if s.active && s.gen == g {
      KeptSelf(log, g);
      LoggedKept(s, s.(built := b, matchable := m), log, log);
      BuiltPaced(s, b, m, now);
    }
  }

  lemma BuiltPaced(s: Slot, b: bool, m: bool, now: nat)
    requires s.invite.Some? && Paced(s, now)
    ensures Paced(s.(built := b, matchable := m), now)
  {
  }

  lemma SentSteady(s: Slot, log: seq<Event>, now: nat, p: Policy)
    requires SlotOk(s) && LiveClient(s) && s.invite.Some?
    requires Due(s.nextSend, now) && !Due(InviteTimeout(s), now)
    requires Ready(s)
    requires Steady(s, log, now, s.gen, p)
    ensures Steady(PostSendInvite(NoteSend(s, now), now),
                   log + [Sent(s.gen, s.attempt, s.verb, s.ident, now)], now, s.gen, p)
  {
    hide Logged, PostSendInvite, InviteBase, TimerBMs, CleanupMs, Paced, NoteSend;
    var t := PostSendInvite(NoteSend(s, now), now);
    SendPaced(s, now);
    SentFacts(s, now);
    if Sound(s.policy) && In32Bits(s) {
      NextDelay(s, now);
      SentInTime(s, now);
    }
    LoggedSend(s, t, log, now);
  }

  lemma SentInTime(s: Slot, now: nat)
    requires s.invite.Some? && Paced(s, now) && Sound(s.policy) && In32Bits(s) && Due(s.nextSend, now)
    ensures now >= (if s.sends == 0 then now else s.createdAt)
                   + Total(InviteBase(s.policy), s.sends)
    ensures s.sends == 0 ==> s.createdAt == 0
  {
    hide InviteBase, TimerBMs, CleanupMs;
  }

  lemma SentFacts(s: Slot, now: nat)
    ensures var t := PostSendInvite(NoteSend(s, now), now);
      t.gen == s.gen && t.attempt == s.attempt && t.policy == s.policy && t.active == s.active
      && t.role == s.role && t.flags == s.flags && (t.invite.Some? <==> s.invite.Some?)
      && t.createdAt == (if s.createdAt == 0 && s.sends == 0 then now else s.createdAt)
      && t.sends == (s.sends + 1) % 256
  {
    hide PostSendInvite;
    PostFacts(NoteSend(s, now), now);
  }

  lemma PostFacts(s: Slot, now: nat)
    ensures var t := PostSendInvite(s, now);
      t.gen == s.gen && t.attempt == s.attempt && t.policy == s.policy && t.active == s.active
      && t.role == s.role && t.flags == s.flags && (t.invite.Some? <==> s.invite.Some?)
      && t.createdAt == s.createdAt && t.sends == s.sends
  {
    hide InviteDelay, TimerBMs, WaitsForInviteAck;
  }

  lemma ArmedReady(s: Slot, now: nat)
    requires s.invite.Some? && Paced(s, now)
    ensures var t := ArmCleanup(s, now); t.invite.Some? && Ready(t)
  {
    hide InviteBase, TimerBMs, CleanupMs, Total;
  }

  lemma SendNowSteady(tm: Tm, i: nat, now: nat, ch: Choice, p: Policy)
    requires Inv(tm) && i < |tm.slots| && LiveClient(tm.slots[i]) && tm.slots[i].invite.Some?
    requires !tm.slots[i].state.Terminated? && IsInvite(tm.slots[i])
    requires Due(tm.slots[i].nextSend, now) && !Due(InviteTimeout(tm.slots[i]), now)
    requires Ready(tm.slots[i])
    requires Steady(tm.slots[i], tm.log, now, tm.slots[i].gen, p)
    ensures var t := SendNow(tm, i, now, ch).tm; Steady(t.slots[i], t.log, now, tm.slots[i].gen, p)
  {
    hide Inv, PostSendInvite, PostSendOther, AckSent, Steady, NoteSend, Wake;
    var s := tm.slots[i];
    OfSlot(tm, i);
    if !s.built && !ch.build.Built? {
      BuiltSteady(s, s.built, s.matchable || ch.build.IdsOnly?, tm.log, now, s.gen, p);
      assert s.(built := s.built, matchable := s.matchable || ch.build.IdsOnly?)
          == s.(matchable := s.matchable || ch.build.IdsOnly?);
    } else {
      var b := s.(built := true, matchable := s.matchable || !s.built);
      BuiltSteady(s, true, s.matchable || !s.built, tm.log, now, s.gen, p);
      if ch.sendOk {
        BuiltOk(s, s.matchable || !s.built, true);
        NoteSendVerb(b, now);
        SentSteady(b, tm.log, now, p);
      }
    }
  }

  lemma NoteSendVerb(s: Slot, now: nat)
    ensures NoteSend(s, now).verb == s.verb
  {
  }

  lemma ClientRunSteady(tm: Tm, i: nat, now: nat, ch: Choice, p: Policy)
    requires Inv(tm) && i < |tm.slots| && LiveClient(tm.slots[i]) && tm.slots[i].invite.Some?
    requires Steady(tm.slots[i], tm.log, now, tm.slots[i].gen, p)
    ensures var t := ClientRun(tm, i, now, ch).tm; Steady(t.slots[i], t.log, now, tm.slots[i].gen, p)
  {
    hide Inv, ArmCleanup, ExpireLive, FireTimer, SendNow, FinishAbandoned, Logged, Paced, Ready,
         Sound, In32Bits;
    var s := tm.slots[i];
    OfSlot(tm, i);
    if !s.state.Terminated? && !s.flags.terminated {
      ArmInv(tm, i, now);
      ArmCleanupFacts(s, now);
      ArmSame(s, now);
      ArmSteady(s, tm.log, now, s.gen, p);
      ArmedReady(s, now);
      var a := ArmCleanup(s, now);
      var t := Put(tm, i, a);
      OfSlot(t, i);
      if InviteDue(a, now) {
        if !a.flags.abandoned {
          ExpireLiveSteady(t, i, now, ch, p);
        } else {
          FinishSends(a);
          KeptSelf(tm.log, s.gen);
          RestSteady(a, FinishAbandoned(a), tm.log, tm.log, now, p);
        }
      } else if TimerDue(a, now) {
        FireTimerSteady(t, i, now, ch, p);
      } else if Due(a.nextSend, now) {
        SendNowSteady(t, i, now, ch, p);
      }
    }
  }

  lemma FinishSends(s: Slot)
    ensures var t := FinishAbandoned(s);
      t.gen == s.gen && t.attempt == s.attempt && t.sends == s.sends && t.createdAt == s.createdAt
      && t.policy == s.policy && t.flags.abandoned == s.flags.abandoned && t.active == s.active
      && t.role == s.role && (t.invite.Some? <==> s.invite.Some?)
      && t.nextSend.Never? && t.state.Terminated?
  {
  }

  // --- Any step, any run

  predicate InviteSteady(tm: Tm, clock: nat, i: nat, g: nat, p: Policy) {
    i < |tm.slots| && g < tm.gens && Steady(tm.slots[i], tm.log, clock, g, p)
  }

  lemma StaysSteady(tm: Tm, t: Tm, i: nat, g: nat, p: Policy, was: nat, clock: nat)
    requires Inv(tm) && InviteSteady(tm, was, i, g, p) && Stays(tm, t, i)
    requires LogKept(tm.log, t.log, g) && was <= clock
    ensures g < t.gens && Steady(t.slots[i], t.log, clock, g, p)
  {
    hide Inv, Logged, Paced, LogKept;
    OfSlot(tm, i);
    if t.slots[i].active && t.slots[i].gen == g {
      LaterPaced(tm.slots[i], was, clock);
      NotedSteady(tm.slots[i], tm.log, t.log, clock, g, p);
    }
  }

  lemma {:induction false} PumpSteady(tm: Tm, k: nat, now: nat, ch: nat -> Choice, next: Deadline,
                                      i: nat, g: nat, p: Policy)
    requires Inv(tm) && k <= |tm.slots| && InviteSteady(tm, now, i, g, p)
    ensures InviteSteady(PumpFrom(tm, k, now, ch, next).tm, now, i, g, p)
    decreases |tm.slots| - k
  {
    hide Inv, RunSlot, Steady, Keeps, Stays;
    if k < |tm.slots| {
      var r := RunSlot(tm, k, now, ch(k));
      RunSlotInv(tm, k, now, ch(k));
      RunSlotSteady(tm, k, now, ch(k), i, g, p);
      if r.rc == Ok {
        PumpSteady(r.tm, k + 1, now, ch, Earliest(next, r.next), i, g, p);
      }
    }
  }

  lemma RunSlotSteady(tm: Tm, k: nat, now: nat, ch: Choice, i: nat, g: nat, p: Policy)
    requires Inv(tm) && k < |tm.slots| && InviteSteady(tm, now, i, g, p)
    ensures InviteSteady(RunSlot(tm, k, now, ch).tm, now, i, g, p)
  {
    hide Inv, RunSlot, Logged, Paced, LogKept, Keeps, Stays;
    var r := RunSlot(tm, k, now, ch);
    RunSlotKeeps(tm, k, now, ch);
    GensGrow(tm, r.tm, k);
    if k == i {
      OnwardAt(tm, r.tm, i, k);
      if tm.slots[i].active && tm.slots[i].gen == g {
        OfSlot(tm, i);
        RunOwnSteady(tm, i, now, ch, p);
      }
    } else {
      KeepsStays(tm, r.tm, k, i);
      if tm.slots[i].active && tm.slots[i].gen == g {
        OtherGen(tm, i, k);
        RunSlotLog(tm, k, now, ch, g);
        StaysSteady(tm, r.tm, i, g, p, now, now);
      } else {
        OnwardAt(tm, r.tm, i, k);
      }
    }
  }

  lemma RunOwnSteady(tm: Tm, i: nat, now: nat, ch: Choice, p: Policy)
    requires Inv(tm) && i < |tm.slots| && LiveClient(tm.slots[i]) && tm.slots[i].invite.Some?
    requires Steady(tm.slots[i], tm.log, now, tm.slots[i].gen, p)
    ensures var t := RunSlot(tm, i, now, ch).tm; Steady(t.slots[i], t.log, now, tm.slots[i].gen, p)
  {
    hide Inv, ClientRun, Steady;
    ClientRunSteady(tm, i, now, ch, p);
  }

  lemma OnwardAt(tm: Tm, t: Tm, i: nat, x: nat)
    requires Keeps(tm, t, x) && i < |tm.slots|
    ensures t.slots[i].active ==>
              (tm.slots[i].active && t.slots[i].gen == tm.slots[i].gen) || t.slots[i].gen >= tm.gens
  {
  }

  lemma OtherGen(tm: Tm, i: nat, k: nat)
    requires Inv(tm) && i < |tm.slots| && k < |tm.slots| && i != k && tm.slots[i].active
    ensures tm.slots[k].active ==> tm.slots[k].gen != tm.slots[i].gen
  {
  }

  // Time goes on, if the step looks at the clock
  lemma AbandonClock(tm: Tm, i: nat, space: Space)
    requires i < |tm.slots| && tm.slots[i].invite.Some?
    ensures Abandon(tm, i, space).clock == tm.clock
  {
    hide FinishAbandoned, StartCancel;
    StartCancelClock(Put(tm, i, DetachCallbacks(tm.slots[i])), i, space);
  }

  lemma StartCancelClock(tm: Tm, i: nat, space: Space)
    requires i < |tm.slots| && tm.slots[i].invite.Some?
    ensures StartCancel(tm, i, space).0.clock == tm.clock
  {
    hide AllocIndex, DropFamily, FamilySize, CloneOf, CancelReady, ClearInviteTimeout, CloneSpace;
  }

  lemma StepClock(tm: Tm, st: Step)
    requires Inv(tm) && Allowed(tm, st)
    ensures Apply(tm, st).clock == TimeOf(tm, st) >= tm.clock
  {
    hide Inv, Pump, Receive, Request, ClientSlot, ServerSlot, AllocIndex, Classify, Restart,
         Abandon, DropFamily, FamilySize, Responded;
    match st {
      case Cancel(j, space) =>
        if CancelTx(tm, j, space).1 == Ok {
          AbandonClock(Put(tm, j, tm.slots[j].(invite :=
            Some(tm.slots[j].invite.value.(appCancelled := true)))), j, space);
        }
      case ReapAll => ReapClock(tm, 0);
      case _ =>
    }
  }

  lemma {:induction false} ReapClock(tm: Tm, k: nat)
    requires k <= |tm.slots|
    ensures ReapFrom(tm, k).clock == tm.clock
    decreases |tm.slots| - k
  {
    hide DropFamily, FamilySize;
    if k < |tm.slots| {
      ReapClock(if tm.slots[k].active && tm.slots[k].state.Terminated? then Drop(tm, k) else tm, k + 1);
    }
  }

  lemma StepSteady(tm: Tm, st: Step, i: nat, g: nat, p: Policy)
    requires Inv(tm) && Allowed(tm, st) && InviteSteady(tm, tm.clock, i, g, p)
    ensures InviteSteady(Apply(tm, st), Apply(tm, st).clock, i, g, p)
  {
    hide Inv, Pump, Receive, Request, NewSlot, ClientSlot, ServerSlot, NewServer, SendResponse,
         CancelTx, NextTx, Drop, Keeps, Steady, LogKept, Stays;
    var t := Apply(tm, st);
    StepClock(tm, st);
    if st.PumpAt? {
      PumpStepSteady(tm, st.now, st.ch, i, g, p);
    } else {
      StepKeeps(tm, st);
      GensGrow(tm, t, Subject(tm, st));
      OnwardAt(tm, t, i, Subject(tm, st));
      if !tm.slots[i].active || tm.slots[i].gen != g {
        GoneSteady(t.slots[i], t.log, t.clock, g, p);
      } else if Subject(tm, st) != i {
        KeepsStays(tm, t, Subject(tm, st), i);
        NotItsAck(tm, st, i, g);
        StepLog(tm, st, g);
        StaysSteady(tm, t, i, g, p, tm.clock, t.clock);
      } else {
        SteadyIsInvite(tm.slots[i], tm.log, tm.clock, p);
        match st {
          case Hear(r, now, room, react) => ReceiveSteady(tm, r, now, room, react, i, g, p);
          case Cancel(j, space) => CancelTxSteady(tm, i, space, tm.clock, g, p);
          case Next(j, b) => NextSteady(tm, i, b, tm.clock, g, p);
          case DropTx(j) => DroppedSteady(tm, i, g, p);
          case _ =>
        }
      }
    }
  }

  lemma NotItsAck(tm: Tm, st: Step, i: nat, g: nat)
    requires Inv(tm) && i < |tm.slots| && tm.slots[i].active && tm.slots[i].gen == g
    requires Subject(tm, st) != i
    ensures st.Ask? ==> !AckOfGen(tm, st.q, g)
  {
    hide Inv, Classify;
    if st.Ask? && AckOfGen(tm, st.q, g) {
      OtherGen(tm, i, Classify(tm, st.q).i);
    }
  }

  lemma GoneSteady(s: Slot, log: seq<Event>, clock: nat, g: nat, p: Policy)
    requires s.active ==> s.gen != g
    ensures Steady(s, log, clock, g, p)
  {
  }

  lemma SteadyIsInvite(s: Slot, log: seq<Event>, clock: nat, p: Policy)
    requires s.active && Steady(s, log, clock, s.gen, p)
    ensures LiveClient(s) && s.invite.Some?
  {
  }

  lemma DroppedSteady(tm: Tm, i: nat, g: nat, p: Policy)
    requires i < |tm.slots|
    ensures Steady(Drop(tm, i).slots[i], tm.log, tm.clock, g, p)
    ensures Drop(tm, i).log == tm.log && Drop(tm, i).gens == tm.gens && Drop(tm, i).clock == tm.clock
  {
    assert Drop(tm, i).slots[i] == DroppedAt(tm.slots, i, i);
  }

  lemma PumpStepSteady(tm: Tm, now: nat, ch: nat -> Choice, i: nat, g: nat, p: Policy)
    requires Inv(tm) && tm.clock <= now && InviteSteady(tm, tm.clock, i, g, p)
    ensures InviteSteady(Pump(tm, now, ch).tm.(clock := now), now, i, g, p)
  {
    hide Inv, Logged, Paced, PumpFrom;
    if tm.slots[i].active && tm.slots[i].gen == g {
      LaterPaced(tm.slots[i], tm.clock, now);
    }
    PumpSteady(tm, 0, now, ch, Never, i, g, p);
  }

  lemma {:induction false} RunSteady(tm: Tm, steps: seq<Step>, i: nat, g: nat, p: Policy)
    requires Inv(tm) && AllowedRun(tm, steps) && InviteSteady(tm, tm.clock, i, g, p)
    ensures var t := Run(tm, steps); InviteSteady(t, t.clock, i, g, p)
    decreases |steps|
  {
    hide Inv, Apply, Allowed, InviteSteady;
    if steps != [] {
      ApplyInv(tm, steps[0]);
      StepSteady(tm, steps[0], i, g, p);
      RunSteady(Apply(tm, steps[0]), steps[1..], i, g, p);
    }
  }

  // An INVITE just made
  predicate JustMade(tm: Tm, i: nat) {
    i < |tm.slots| && LiveClient(tm.slots[i]) && tm.slots[i].invite == Some(NEW_INVITE)
    && tm.slots[i].state.Calling? && tm.slots[i].sends == 0 && tm.slots[i].createdAt == 0
    && !tm.slots[i].flags.abandoned && Sound(tm.slots[i].policy)
    && forall k :: 0 <= k < |tm.log| && tm.log[k].Sent? ==> tm.log[k].gen != tm.slots[i].gen
  }

  lemma MadeByApplication(tm: Tm, ident: Ident, policy: Policy, expires: nat, onR: bool, onT: bool,
                          built: bool, space: Space)
    requires Inv(tm)
    ensures var (t, c) := NewSlot(tm, ClientSlot(tm.reliable, INVITE, ident, policy, expires, onR, onT, built),
                                  space);
            c.Some? ==> JustMade(t, c.value)
  {
    hide Inv;
    ClientFresh(tm, INVITE, ident, policy, expires, onR, onT, built);
    var s := ClientSlot(tm.reliable, INVITE, ident, policy, expires, onR, onT, built);
    NewSlotInv(tm, s, space);
    forall k | 0 <= k < |tm.log| ensures tm.log[k].gen < tm.gens {
      KnownGen(tm, k);
    }
  }

  lemma KnownGen(tm: Tm, k: nat)
    requires Inv(tm) && k < |tm.log|
    ensures tm.log[k].gen < tm.gens
  {
    assert KnownGens(tm.log[k], tm.gens);
  }

  lemma MadeSteady(tm: Tm, i: nat)
    requires Inv(tm) && JustMade(tm, i)
    ensures InviteSteady(tm, tm.clock, i, tm.slots[i].gen, tm.slots[i].policy)
  {
    hide Inv;
    var s := tm.slots[i];
    OfSlot(tm, i);
    NoTimes(tm.log, s.gen, s.attempt);
    NewPaced(s, tm.clock);
  }

  // The sends of one attempt, `ts`, back off: each comes no sooner than the
  // doubled intervals before it add up to; and before the INVITE is given up
  // on, the interval to the next is exactly base * 2^(n-1), below Timer B and
  // one base interval.
  predicate BacksOff(s: Slot, ts: seq<nat>) {
    var base := InviteBase(s.policy);
    && |ts| == s.sends
    && (forall m :: 0 <= m < |ts| ==> ts[m] >= ts[0] + base * (Pow2(m) - 1))
    && (s.nextSend.At? && s.sends > 0 && !s.flags.abandoned ==>
          InviteDelay(s.policy, s.sends) == base * Pow2(s.sends - 1)
          && base * Pow2(s.sends - 1) < TimerBMs(s.policy) + base
          && s.nextSend.ms >= ts[0] + base * (Pow2(s.sends) - 1))
  }

  // So it is after any run since the INVITE was made, as long as 32 bits can
  // hold the intervals
  lemma InviteBacksOff(tm: Tm, steps: seq<Step>, i: nat)
    requires Inv(tm) && AllowedRun(tm, steps) && JustMade(tm, i)
    ensures var t := Run(tm, steps); var s := t.slots[i];
      s.active && s.gen == tm.slots[i].gen && In32Bits(s) ==>
        s.policy == tm.slots[i].policy && BacksOff(s, SendTimes(t.log, s.gen, s.attempt))
  {
    hide Inv, AllowedRun, Run, Sound, In32Bits, Steady, BacksOff, SendTimes;
    MadeSteady(tm, i);
    RunSteady(tm, steps, i, tm.slots[i].gen, tm.slots[i].policy);
    var t := Run(tm, steps);
    var s := t.slots[i];
    if s.active && s.gen == tm.slots[i].gen && In32Bits(s) {
      SteadyMeans(s, t.log, t.clock, s.gen, tm.slots[i].policy);
    }
  }

  lemma SteadyMeans(s: Slot, log: seq<Event>, clock: nat, g: nat, p: Policy)
    requires s.active && s.gen == g && Steady(s, log, clock, g, p) && Sound(p) && In32Bits(s)
    ensures s.policy == p && BacksOff(s, SendTimes(log, g, s.attempt))
  {
    hide InviteDelay, TimerBMs, CleanupMs, InviteBase, Pow2, Total, SendTimes;
    var base := InviteBase(p);
    var ts := SendTimes(log, g, s.attempt);
    TimesMean(base, ts);
    if s.nextSend.At? && s.sends > 0 && !s.flags.abandoned {
      GapClosed(base, s.sends);
      TotalClosed(base, s.sends);
      InviteDelayRight(p, s.sends);
    }
  }

  lemma TimesMean(base: nat, ts: seq<nat>)
    requires PacedTimes(base, ts)
    ensures forall m :: 0 <= m < |ts| ==> ts[m] >= ts[0] + base * (Pow2(m) - 1)
  {
    hide Pow2, Total;
    forall m | 0 <= m < |ts| ensures ts[m] >= ts[0] + base * (Pow2(m) - 1) {
      TotalClosed(base, m);
    }
  }
}
