module ClientFigures {
  // Sections 17.1.1 and 17.1.2 of RFC 3261: what a client transaction does in
  // its turn and on hearing a response, from the call that leads to it to what
  // is then on the wire, in the slot and told to the application.

  import opened Base
  import opened Slots
  import opened Table
  import opened ClientSteps
  import opened Machine
  import opened History
  import opened HistoryKeeps
  import opened Runs
  import opened Backoff

  // --- Timers

  function OrElse(own: nat, ms: nat): nat {
    if own != 0 then own else ms
  }

  // Section 17.1.1.1: T1, T2 and T4 where the policy gives none, and a policy
  // that gives all three as it is
  lemma DefaultTimers(p: Policy)
    ensures Resolve(NO_POLICY) == NO_POLICY.(t1 := 500, t2 := 4000, t4 := 5000)
    ensures p.t1 != 0 && p.t2 != 0 && p.t4 != 0 ==> Resolve(p) == p
  {
  }

  // --- A turn that sends

  // Neither a timer nor the INVITE's own time is over
  predicate Waits(s: Slot, now: nat) {
    && s.active && s.role == Client && s.state != Terminated && !s.flags.terminated
    && !s.flags.abandoned
    && (s.invite.Some? && s.invite.value.timeoutAt.At? ==> s.invite.value.timeoutAt.ms > now)
    && (s.timer != NoTimer && s.due.At? ==> s.due.ms > now)
  }

  predicate DueToGo(s: Slot, now: nat) {
    s.nextSend.At? && s.nextSend.ms <= now
  }

  // It is built, or can be, and gets through
  predicate Goes(s: Slot, ch: Choice) {
    ch.sendOk && (s.built || ch.build == Built)
  }

  // As it is sent
  function BuiltSlot(s: Slot): Slot {
    s.(built := true, matchable := s.matchable || !s.built)
  }

  predicate OnlySlot(tm: Tm, t: Tm, i: nat)
    requires |t.slots| == |tm.slots|
  {
    forall j :: 0 <= j < |tm.slots| && j != i ==> t.slots[j] == tm.slots[j]
  }

  lemma TurnSends(tm: Tm, i: nat, now: nat, ch: Choice)
    requires i < |tm.slots| && Waits(tm.slots[i], now) && DueToGo(tm.slots[i], now)
    ensures RunSlot(tm, i, now, ch) == SendNow(tm, i, now, ch)
  {
    hide SendNow, ExpireLive, FireTimer, FinishAbandoned;
    assert tm.slots[i := tm.slots[i]] == tm.slots;
  }

  // What cannot be built, or does not get through, ends the pass with nothing
  // sent and nothing counted, and stays due.
  lemma SendFails(tm: Tm, i: nat, now: nat, ch: Choice)
    requires i < |tm.slots| && Waits(tm.slots[i], now) && DueToGo(tm.slots[i], now)
    requires !Goes(tm.slots[i], ch)
    ensures var s, r := tm.slots[i], RunSlot(tm, i, now, ch);
      && r.rc == (if s.built || ch.build == Built then SendFailed else NoSpace)
      && r.tm.log == tm.log && OnlySlot(tm, r.tm, i)
      && DueToGo(r.tm.slots[i], now) && r.tm.slots[i].sends == s.sends
      && r.tm.slots[i].ident == s.ident && r.tm.slots[i].state == s.state
  {
    hide RunSlot;
    TurnSends(tm, i, now, ch);
  }

  // What is sent is on record and counted
  predicate GoesOut(tm: Tm, t: Tm, i: nat, now: nat)
    requires |t.slots| == |tm.slots| && i < |tm.slots|
  {
    var s := tm.slots[i];
    && t.log == tm.log + [Sent(s.gen, s.attempt, s.verb, s.ident, now)]
    && t.slots[i].sends == (s.sends + 1) % 256 && t.slots[i].state == s.state
    && t.slots[i].ident == s.ident
    && t.slots[i].built && t.slots[i].matchable == (s.matchable || !s.built)
  }

  // Timer A after n sends and one more
  function TimerA(p: Policy, n: nat): nat {
    OrElse(p.a, p.t1) * Pow2(n)
  }

  lemma TimerAIs(p: Policy, n: nat)
    requires TimerA(p, n) < 0x1_0000_0000
    ensures InviteDelay(p, n + 1) == TimerA(p, n)
  {
    hide InviteDelay, Pow2;
    InviteDelayRight(p, n + 1);
  }

  // Timer B from the first time on, and Timer A, doubled with each send, unless
  // the transport is reliable or it rang
  predicate InviteWaits(s: Slot, t: Slot, now: nat)
    requires s.invite.Some?
  {
    var p, v := s.policy, s.invite.value;
    && t.invite.Some? && t.timer == s.timer && t.due == s.due
    && t.invite.value.timeoutAt ==
       (if v.timeoutAt.At? then v.timeoutAt else At(now + OrElse(p.b, 64 * p.t1)))
    && t.invite.value.timeoutId == (if v.timeoutAt.At? then v.timeoutId else NoResponse)
    && (if s.flags.reliable || v.provisional then t.nextSend == Never
        else s.sends < 255 && TimerA(p, s.sends) < 0x1_0000_0000 ==>
          t.nextSend == At(now + TimerA(p, s.sends)))
  }

  lemma NoteSendFacts(s: Slot, now: nat)
    ensures var t := NoteSend(s, now);
      && t.sends == (s.sends + 1) % 256 && t.state == s.state && t.ident == s.ident
      && t.built == s.built && t.matchable == s.matchable && t.verb == s.verb
      && t.invite == s.invite && t.timer == s.timer && t.due == s.due && t.child == s.child
      && t.policy == s.policy && t.flags == s.flags && t.server == s.server
  {
  }

  lemma TimerBFacts(s: Slot, now: nat)
    requires s.invite.Some?
    ensures var t, v := ArmTimerB(s, now), s.invite.value;
      && t.invite == Some(if v.timeoutAt.At? then v
                          else v.(timeoutAt := At(now + OrElse(s.policy.b, 64 * s.policy.t1)),
                                  timeoutId := NoResponse))
      && t.sends == s.sends && t.state == s.state && t.ident == s.ident
      && t.built == s.built && t.matchable == s.matchable
      && t.timer == s.timer && t.due == s.due && t.policy == s.policy && t.flags == s.flags
  {
  }

  lemma InviteAfter(s: Slot, now: nat)
    requires s.verb.INVITE? && s.invite.Some? && !(s.child.Some? && s.timer.TimerD?)
    ensures var t := PostSendInvite(NoteSend(s, now), now);
      && InviteWaits(s, t, now)
      && t.sends == (s.sends + 1) % 256 && t.state == s.state && t.ident == s.ident
      && t.built == s.built && t.matchable == s.matchable
  {
    hide InviteDelay, TimerA, NoteSend, ArmTimerB;
    NoteSendFacts(s, now);
    TimerBFacts(NoteSend(s, now), now);
    if s.sends < 255 && TimerA(s.policy, s.sends) < 0x1_0000_0000 {
      TimerAIs(s.policy, s.sends);
    }
  }

  // An INVITE due is sent, and due again after that.
  lemma InviteGoesOut(tm: Tm, i: nat, now: nat, ch: Choice)
    requires i < |tm.slots| && Waits(tm.slots[i], now)
    requires DueToGo(tm.slots[i], now) && Goes(tm.slots[i], ch)
    requires tm.slots[i].verb.INVITE? && tm.slots[i].invite.Some?
    requires !(tm.slots[i].child.Some? && tm.slots[i].timer.TimerD?)
    ensures var t := RunSlot(tm, i, now, ch).tm;
      GoesOut(tm, t, i, now) && OnlySlot(tm, t, i) && InviteWaits(tm.slots[i], t.slots[i], now)
  {
    hide RunSlot, PostSendInvite, NoteSend, InviteWaits;
    TurnSends(tm, i, now, ch);
    var s := tm.slots[i];
    InviteAfter(BuiltSlot(s), now);
    NoteSendFacts(BuiltSlot(s), now);
    assert InviteWaits(s, RunSlot(tm, i, now, ch).tm.slots[i], now) by {
      AsInviteWaits(s, RunSlot(tm, i, now, ch).tm.slots[i], now);
    }
  }

  lemma AsInviteWaits(s: Slot, t: Slot, now: nat)
    requires s.invite.Some? && InviteWaits(BuiltSlot(s), t, now)
    ensures InviteWaits(s, t, now)
  {
  }

  // Timer F from the first time on, and Timer E, doubled with each send up to T2
  predicate OtherWaits(s: Slot, t: Slot, now: nat) {
    var p := s.policy;
    && (if s.timer != NoTimer then t.timer == s.timer && t.due == s.due
        else t.timer == TimerF && t.due == At(now + OrElse(p.f, 64 * p.t1)))
    && t.nextSend == if s.flags.reliable then Never
                     else At(now + if s.sends == 0 then OrElse(p.e, p.t1)
                                   else Min(OrElse(p.e, p.t1) * Pow2(s.sends), p.t2))
  }

  lemma OtherAfter(s: Slot, now: nat)
    requires s.sends < 255
    ensures var t := PostSendOther(NoteSend(s, now), now);
      && OtherWaits(s, t, now)
      && t.sends == (s.sends + 1) % 256 && t.state == s.state && t.ident == s.ident
      && t.built == s.built && t.matchable == s.matchable
  {
    hide OtherDelay, Pow2, NoteSend;
    NoteSendFacts(s, now);
    OtherDelayRight(s.policy, s.sends + 1);
  }

  lemma AsOtherWaits(s: Slot, t: Slot, now: nat)
    requires OtherWaits(BuiltSlot(s), t, now)
    ensures OtherWaits(s, t, now)
  {
  }

  // Any other request but an ACK likewise.
  lemma OtherGoesOut(tm: Tm, i: nat, now: nat, ch: Choice)
    requires i < |tm.slots| && Waits(tm.slots[i], now)
    requires DueToGo(tm.slots[i], now) && Goes(tm.slots[i], ch)
    requires !tm.slots[i].verb.INVITE? && !tm.slots[i].verb.ACK? && tm.slots[i].sends < 255
    ensures var t := RunSlot(tm, i, now, ch).tm;
      GoesOut(tm, t, i, now) && OnlySlot(tm, t, i) && OtherWaits(tm.slots[i], t.slots[i], now)
  {
    hide RunSlot, PostSendOther, NoteSend, OtherWaits;
    TurnSends(tm, i, now, ch);
    var s := tm.slots[i];
    OtherAfter(BuiltSlot(s), now);
    NoteSendFacts(BuiltSlot(s), now);
    assert OtherWaits(s, RunSlot(tm, i, now, ch).tm.slots[i], now) by {
      AsOtherWaits(s, RunSlot(tm, i, now, ch).tm.slots[i], now);
    }
  }

  // An ACK is sent once each time it is asked for, and the BYE that waited for
  // it is free to go at once.
  lemma AckGoesOut(tm: Tm, i: nat, now: nat, ch: Choice)
    requires Inv(tm)
    requires i < |tm.slots| && Waits(tm.slots[i], now)
    requires DueToGo(tm.slots[i], now) && Goes(tm.slots[i], ch)
    requires tm.slots[i].verb.ACK?
    ensures var t := RunSlot(tm, i, now, ch).tm;
      && GoesOut(tm, t, i, now) && t.slots[i].nextSend == Never && t.slots[i].child == None
      && (forall j :: 0 <= j < |tm.slots| && j != i && tm.slots[i].child != Some(j) ==>
            t.slots[j] == tm.slots[j])
      && (tm.slots[i].child.Some? ==>
            var b := tm.slots[i].child.value;
            && b < |tm.slots| && tm.slots[b].verb.BYE?
            && t.slots[b] == tm.slots[b].(parent := None, nextSend := At(now)))
  {
    hide RunSlot, Inv, Wake;
    TurnSends(tm, i, now, ch);
    AckWithBye(tm, i);
  }

  lemma AckWithBye(tm: Tm, i: nat)
    requires Inv(tm) && i < |tm.slots| && LiveClient(tm.slots[i]) && tm.slots[i].verb.ACK?
    ensures tm.slots[i].child.Some? ==>
              var b := tm.slots[i].child.value;
              b < |tm.slots| && b != i && tm.slots[b].verb.BYE?
  {
    OfSlot(tm, i);
  }

  // Whatever it is, it is sent
  lemma GoesAtAll(tm: Tm, i: nat, now: nat, ch: Choice)
    requires i < |tm.slots| && Waits(tm.slots[i], now)
    requires DueToGo(tm.slots[i], now) && Goes(tm.slots[i], ch) && !tm.slots[i].verb.ACK?
    ensures var s, t := tm.slots[i], RunSlot(tm, i, now, ch).tm;
      && t.log == tm.log + [Sent(s.gen, s.attempt, s.verb, s.ident, now)]
      && OnlySlot(tm, t, i)
  {
    hide RunSlot, PostSendInvite, PostSendOther, NoteSend;
    TurnSends(tm, i, now, ch);
    NoteSendFacts(BuiltSlot(tm.slots[i]), now);
  }

  // --- A new request

  // Due at once: in its first turn it is sent as asked for, whenever that is,
  // with the policy's timers or the default ones.
  lemma NewGoesOut(tm: Tm, verb: Method, ident: Ident, policy: Policy, expires: nat,
                   onResponse: bool, onTimeout: bool, built: bool,
                   c: nat, now: nat, ch: Choice)
    requires !verb.ACK? && !Generic(verb) && ch.sendOk && (built || ch.build == Built)
    requires var s := ClientSlot(tm.reliable, verb, ident, policy, expires, onResponse, onTimeout, built);
      NewSlot(tm, s, Fits).1 == Some(c)
    ensures var t := Apply(tm, NewClient(verb, ident, policy, expires, onResponse, onTimeout, built, Fits));
      var u := RunSlot(t, c, now, ch).tm;
      && u.log == t.log + [Sent(tm.gens, 0, verb, ident, now)]
      && OnlySlot(t, u, c)
      && t.slots[c].app == App(true, onResponse, onTimeout)
      && t.slots[c].flags == Flags(tm.reliable, false, false, false)
      && t.slots[c].policy == Resolve(policy) && t.slots[c].expires == OrElse(expires, 300)
  {
    hide NewSlot, RunSlot, Resolve;
    var s := ClientSlot(tm.reliable, verb, ident, policy, expires, onResponse, onTimeout, built);
    var t := NewSlot(tm, s, Fits).0;
    NewInSlot(tm, s, c);
    GoesAtAll(t, c, now, ch);
  }

  lemma NewInSlot(tm: Tm, s: Slot, c: nat)
    requires NewSlot(tm, s, Fits).1 == Some(c)
    ensures c < |tm.slots| && NewSlot(tm, s, Fits).0.slots[c] == Awake(s, tm.gens)
    ensures NewSlot(tm, s, Fits).0.log == tm.log
  {
    hide AllocIndex, DropFamily, FamilySize;
  }

  // --- The next attempt

  // A transaction may be tried again once it is over or had its final response,
  // unless it was given up or a child other than its ACK hangs on it; and the
  // next attempt goes out in its next turn, with the next CSeq.
  lemma RetryGoesOut(tm: Tm, i: nat, now: nat, ch: Choice)
    requires ch.sendOk && (i < |tm.slots| && tm.slots[i].active ==> tm.slots[i].role.Client?)
    ensures var (t, rc) := NextTx(tm, i, Built);
      && (rc == Ok <==>
            && i < |tm.slots| && tm.slots[i].active && !tm.slots[i].flags.abandoned
            && (tm.slots[i].child.Some? ==>
                  var c := tm.slots[i].child.value;
                  c < |tm.slots| && tm.slots[c].active && tm.slots[c].verb.ACK?)
            && tm.slots[i].state in {Terminated, Completed})
      && (rc == Ok && !tm.slots[i].verb.ACK? ==>
            var s := tm.slots[i];
            && RunSlot(t, i, now, ch).tm.log ==
               tm.log + [Sent(s.gen, s.attempt + 1, s.verb,
                              s.ident.(cseq := (s.ident.cseq + 1) % 0x1_0000_0000), now)])
  {
    hide RunSlot;
    var (t, rc) := NextTx(tm, i, Built);
    if rc == Ok && !tm.slots[i].verb.ACK? {
      GoesAtAll(t, i, now, ch);
    }
  }
}
