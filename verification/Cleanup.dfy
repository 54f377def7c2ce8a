module Cleanup {
  // The cleanup of an abandoned INVITE only goes forward, each of its phases
  // has one deadline, and the whole of it ends in bounded time.

  import opened Base
  import opened Slots
  import opened Table
  import opened ClientSteps
  import opened Links
  import opened History
  import opened HistoryKeeps
  import opened AbandonKeeps
  import opened ReceiveKeeps
  import opened PumpKeeps
  import opened RunKeeps
  import opened Frames

  // Waiting to CANCEL, CANCELed, or answered and only re-ACKing
  predicate InPhase(s: Slot)
    requires s.invite.Some?
  {
    var c := s.invite.value.cancel;
    if s.finalReported then s.state.Completed? && s.timer.TimerD?
    else (s.state.Calling? && c.Scheduled?) || (s.state.Proceeding? && c.OnWire?)
  }

  predicate Cleaning(s: Slot) {
    && LiveClient(s) && s.invite.Some? && s.parent.None?
    && s.flags.abandoned && !s.state.Terminated? && InPhase(s)
  }

  // Cleaned up
  predicate Over(s: Slot) {
    LiveClient(s) && s.invite.Some? && s.parent.None? && s.flags.abandoned && s.state.Terminated?
  }

  function PhaseNo(s: Slot): nat
    requires Cleaning(s)
  {
    if s.finalReported then 2 else if s.state.Proceeding? then 1 else 0
  }

  // The phase that Timer D ends has been given its deadline
  predicate Armed(s: Slot)
    requires Cleaning(s)
  {
    PhaseNo(s) == 2 ==> s.due.At?
  }

  function PhaseDeadline(s: Slot): Deadline
    requires Cleaning(s)
  {
    if s.finalReported then s.due else s.invite.value.timeoutAt
  }

  function LastMs(p: Policy): nat {
    Max(CleanupMs(p), TimerDMs(p))
  }

  // When the cleanup is over at the latest
  function Bound(s: Slot): nat
    requires Cleaning(s) && PhaseDeadline(s).At?
  {
    PhaseDeadline(s).ms
    + (if PhaseNo(s) == 2 then 0 else LastMs(s.policy))
    + (if PhaseNo(s) == 0 then CleanupMs(s.policy) else 0)
  }

  // s, later on, at `now`: done with, or no earlier a phase, whose deadline
  // did not move if it is the same one
  predicate Forward(s: Slot, u: Slot, now: nat)
    requires Cleaning(s)
  {
    u.active && u.gen == s.gen ==>
      Over(u) || (
        && Cleaning(u) && u.policy == s.policy
        && PhaseNo(s) <= PhaseNo(u)
        && Armed(u)
        && (PhaseDeadline(s).At? ==>
              PhaseDeadline(u).At?
              && (PhaseNo(s) == PhaseNo(u) ==> PhaseDeadline(u) == PhaseDeadline(s))
              && (now <= PhaseDeadline(s).ms ==> Bound(u) <= Bound(s))))
  }

  lemma CleaningIsPinned(s: Slot)
    requires Cleaning(s)
    ensures Pinned(s)
  {
  }

  // --- Entering

  // What giving up makes of the slot, with its CANCEL started or not
  lemma GivenUpSlot(s: Slot, ok: bool)
    requires SlotOk(s) && LiveClient(s) && s.invite.Some? && !s.flags.abandoned
    requires !s.state.Terminated? && !s.state.Completed? && !s.finalReported
    ensures var u := AbandonedSlot(s, ok);
      if s.sends > 0 && ok
      then Cleaning(u) && (PhaseNo(u) == 1 <==> s.invite.value.provisional)
      else u.state.Terminated?
  {
  }

  // --- One turn of the pump

  lemma ArmStays(s: Slot, now: nat)
    requires Cleaning(s) && SlotOk(s) && Armed(s)
    ensures var u := ArmCleanup(s, now);
      && Cleaning(u) && Forward(s, u, now) && PhaseNo(u) == PhaseNo(s) && u.policy == s.policy
      && u.gen == s.gen && (PhaseDeadline(s).At? ==> u == s)
      && (PhaseNo(s) < 2 && PhaseDeadline(s).Never? ==>
            PhaseDeadline(u) == At(now + CleanupMs(s.policy)))
  {
  }

  lemma SentStays(s: Slot, now: nat, m: bool)
    requires Cleaning(s) && PhaseNo(s) < 2 && PhaseDeadline(s).At?
    ensures var u := PostSendInvite(NoteSend(s.(built := true, matchable := m), now), now);
            Cleaning(u) && PhaseNo(u) == PhaseNo(s) && PhaseDeadline(u) == PhaseDeadline(s)
            && u.policy == s.policy && u.gen == s.gen
  {
    hide InviteDelay, TimerBMs;
  }

  // Same phase, same deadline
  predicate SamePhase(s: Slot, u: Slot)
    requires Cleaning(s)
  {
    Cleaning(u) && PhaseNo(u) == PhaseNo(s) && PhaseDeadline(u) == PhaseDeadline(s)
    && u.policy == s.policy && u.gen == s.gen
  }

  lemma BuiltStays(s: Slot, b: bool, m: bool)
    requires Cleaning(s)
    ensures SamePhase(s, s.(built := b, matchable := m))
  {
  }

  lemma SendStays(tm: Tm, i: nat, now: nat, ch: Choice)
    requires i < |tm.slots| && Cleaning(tm.slots[i]) && PhaseNo(tm.slots[i]) < 2
    requires PhaseDeadline(tm.slots[i]).At? && IsInvite(tm.slots[i])
    ensures SamePhase(tm.slots[i], SendNow(tm, i, now, ch).tm.slots[i])
  {
    hide PostSendInvite, PostSendOther, NoteSend, AckSent, Cleaning, PhaseNo, PhaseDeadline;
    var s := tm.slots[i];
    if !s.built && !ch.build.Built? {
      BuiltStays(s, s.built, s.matchable || ch.build.IdsOnly?);
    } else {
      BuiltStays(s, true, s.matchable || !s.built);
      if ch.sendOk {
        SentStays(s, now, s.matchable || !s.built);
        var b := s.(built := true, matchable := s.matchable || !s.built);
        SentVerb(b, now);
      }
    }
  }

  lemma SentVerb(s: Slot, now: nat)
    ensures NoteSend(s, now).verb == s.verb
  {
  }

  lemma StaysIsForward(s: Slot, u: Slot, now: nat)
    requires Cleaning(s) && Armed(s) && SamePhase(s, u)
    ensures Forward(s, u, now)
  {
  }

  lemma OverIsForward(s: Slot, u: Slot, now: nat)
    requires Cleaning(s) && Over(u)
    ensures Forward(s, u, now)
  {
  }

  lemma FireEnds(tm: Tm, i: nat, ch: Choice)
    requires Inv(tm) && i < |tm.slots| && LiveClient(tm.slots[i]) && tm.slots[i].flags.abandoned
    requires !tm.slots[i].timer.NoTimer? && tm.slots[i].invite.Some?
    ensures Over(FireTimer(tm, i, ch).slots[i])
  {
    hide Inv, RetireChild, TerminateChild;
    OfSlot(tm, i);
    var s := tm.slots[i];
    var t := Put(tm, i, ClearTimer(MarkTerminated(s)));
    if s.child.Some? {
      NotOwnGrandchild(tm, i) by { TimerNoAck(s); }
    }
    TerminateOwn(t.slots, i);
  }

  lemma TimerNoAck(s: Slot)
    requires SlotOk(s) && LiveClient(s) && !s.timer.NoTimer?
    ensures !s.verb.ACK?
  {
  }

  lemma ClientRunCleans(tm: Tm, i: nat, now: nat, ch: Choice)
    requires Inv(tm) && i < |tm.slots| && Cleaning(tm.slots[i]) && Armed(tm.slots[i])
    ensures var s := tm.slots[i]; var u := ClientRun(tm, i, now, ch).tm.slots[i];
      && Forward(s, u, now)
      && (Due(PhaseDeadline(s), now) ==> Over(u))
      && (Over(u) || (Cleaning(u) && PhaseDeadline(u).At?
          && PhaseDeadline(u).ms <= Max(now + CleanupMs(s.policy),
                                        if PhaseDeadline(s).At? then PhaseDeadline(s).ms else 0)))
  {
    hide Inv, ArmCleanup, ExpireLive, FireTimer, SendNow, FinishAbandoned, PhaseNo, Bound;
    var s := tm.slots[i];
    OfSlot(tm, i);
    ArmStays(s, now);
    ArmInv(tm, i, now);
    ArmCleanupFacts(s, now);
    var a := ArmCleanup(s, now);
    var t := Put(tm, i, a);
    OfSlot(t, i);
    PhaseFacts(a);
    PhaseFacts(s);
    var u := ClientRun(tm, i, now, ch).tm.slots[i];
    if InviteDue(a, now) {
      FinishEnds(a);
      OverIsForward(s, u, now);
    } else if TimerDue(a, now) {
      FireEnds(t, i, ch);
      OverIsForward(s, u, now);
    } else if Due(a.nextSend, now) {
      SendStays(t, i, now, ch);
      ForwardTrans(s, a, u, now);
    }
  }

  lemma FinishEnds(s: Slot)
    requires Cleaning(s)
    ensures Over(FinishAbandoned(s))
  {
  }

  lemma ForwardTrans(s: Slot, a: Slot, u: Slot, now: nat)
    requires Cleaning(s) && Cleaning(a) && Cleaning(u) && Forward(s, a, now)
    requires a.active && a.gen == s.gen && PhaseNo(a) == PhaseNo(s) && PhaseDeadline(a).At?
    requires PhaseDeadline(s).At? ==> a == s
    requires SamePhase(a, u)
    ensures Forward(s, u, now)
  {
  }

  // How the phases show in the slot
  lemma PhaseFacts(s: Slot)
    requires Cleaning(s) && SlotOk(s)
    ensures PhaseNo(s) <= 2
    ensures PhaseNo(s) == 2 ==>
              s.timer.TimerD? && s.nextSend.Never? && s.invite.value.timeoutAt.Never?
              && PhaseDeadline(s) == s.due
    ensures PhaseNo(s) < 2 ==> PhaseDeadline(s) == InviteTimeout(s)
  {
  }
}
