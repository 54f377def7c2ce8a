module Backoff {
  // Retransmission of requests over an unreliable transport: the delays the
  // loops compute, and the timing of one INVITE from send to send.

  import opened Base
  import opened Slots
  import opened Links
  import opened AbandonKeeps

  // --- Doubling

  // base + 2 base + ... , n terms
  function Total(base: nat, n: nat): nat {
    if n == 0 then 0 else 2 * Total(base, n - 1) + base
  }

  // The n-th of those terms
  function Gap(base: nat, n: nat): nat
    requires n >= 1
  {
    Total(base, n - 1) + base
  }

  lemma {:induction false} TotalClosed(base: nat, n: nat)
    ensures Total(base, n) == base * (Pow2(n) - 1)
  {
    if n > 0 {
      TotalClosed(base, n - 1);
      assert base * (Pow2(n) - 1) == base * (2 * Pow2(n - 1) - 1)
          == 2 * (base * (Pow2(n - 1) - 1)) + base;
    }
  }

  lemma GapClosed(base: nat, n: nat)
    requires n >= 1
    ensures Gap(base, n) == base * Pow2(n - 1)
  {
    TotalClosed(base, n - 1);
    assert base * (Pow2(n - 1) - 1) + base == base * Pow2(n - 1);
  }

  lemma {:induction false} TotalGrows(base: nat, m: nat, n: nat)
    requires m <= n && base >= 1
    ensures Total(base, m) <= Total(base, n)
    ensures Total(1, n) <= Total(base, n)
    decreases n
  {
    if n > 0 {
      TotalGrows(base, if m == n then n - 1 else m, n - 1);
    }
  }

  lemma EightMore(n: nat)
    ensures Pow2(n + 8) == 256 * Pow2(n)
  {
    assert Pow2(n + 8) == 2 * Pow2(n + 7) && Pow2(n + 7) == 2 * Pow2(n + 6);
    assert Pow2(n + 6) == 2 * Pow2(n + 5) && Pow2(n + 5) == 2 * Pow2(n + 4);
    assert Pow2(n + 4) == 2 * Pow2(n + 3) && Pow2(n + 3) == 2 * Pow2(n + 2);
    assert Pow2(n + 2) == 2 * Pow2(n + 1) && Pow2(n + 1) == 2 * Pow2(n);
  }

  lemma FewSends(base: nat, n: nat)
    requires base >= 1 && n >= 1 && Gap(base, n) < 0x2_0000_0000
    ensures n <= 33
  {
    if n >= 34 {
      TotalGrows(base, 33, n - 1);
      TotalGrows(base, 33, 33);
      TotalClosed(1, 33);
      EightMore(25);
      EightMore(17);
      EightMore(9);
      EightMore(1);
    }
  }

  lemma {:induction false} DoubledIsGap(base: nat, n: nat)
    requires n >= 1 && Gap(base, n) < 0x1_0000_0000_0000_0000
    ensures Doubled(base, n) == Gap(base, n)
  {
    hide Gap, Total;
    if n > 1 {
      var gap := Gap(base, n - 1);
      NextGap(base, n);
      assert gap < 0x1_0000_0000_0000_0000;
      DoubledIsGap(base, n - 1);
      DoubledNext(base, n);
    } else {
      NextGap(base, n);
    }
  }

  lemma NextGap(base: nat, n: nat)
    requires n >= 1
    ensures Gap(base, n) == if n == 1 then base else 2 * Gap(base, n - 1)
  {
  }

  lemma DoubledNext(base: nat, n: nat)
    requires n > 1 && 2 * Doubled(base, n - 1) < 0x1_0000_0000_0000_0000
    ensures Doubled(base, n) == 2 * Doubled(base, n - 1)
  {
  }

  // The loop for an INVITE doubles exactly, as long as 32 bits hold the result
  lemma InviteDelayRight(p: Policy, sends: nat)
    requires sends >= 1 && InviteBase(p) * Pow2(sends - 1) < 0x1_0000_0000
    ensures InviteDelay(p, sends) == InviteBase(p) * Pow2(sends - 1)
  {
    GapClosed(InviteBase(p), sends);
    DoubledIsGap(InviteBase(p), sends);
  }

  lemma {:induction false} OtherDelayFromRight(delay: nat, t2: nat, i: nat, sends: nat)
    requires i < sends
    ensures OtherDelayFrom(delay, t2, i, sends) == Min(delay * Pow2(sends - i), t2)
    decreases sends - i
  {
    assert Pow2(sends - i) == 2 * Pow2(sends - i - 1);
    AtLeastOne(sends - i - 1);
    assert delay * Pow2(sends - i) == (2 * delay) * Pow2(sends - i - 1);
    if 2 * delay >= t2 {
      assert (2 * delay) * Pow2(sends - i - 1) >= 2 * delay;
    } else if i + 1 < sends {
      OtherDelayFromRight(2 * delay, t2, i + 1, sends);
    }
  }

  lemma {:induction false} AtLeastOne(n: nat)
    ensures Pow2(n) >= 1
  {
    if n > 0 {
      AtLeastOne(n - 1);
    }
  }

  // The loop for any other request: the base interval once, then doubling up
  // to T2
  lemma OtherDelayRight(p: Policy, sends: nat)
    ensures OtherDelay(p, sends) ==
            if sends <= 1 then OtherBase(p) else Min(OtherBase(p) * Pow2(sends - 1), p.t2)
  {
    if sends > 1 {
      OtherDelayFromRight(OtherBase(p), p.t2, 1, sends);
    }
  }

  // --- One INVITE

  // What the 32 bits of a delay must hold: Timer B and one base interval,
  // and twice as much, or twice the cleanup, once the call is abandoned
  predicate In32Bits(s: Slot) {
    var sum := TimerBMs(s.policy) + InviteBase(s.policy);
    if s.flags.abandoned then 2 * Max(sum, CleanupMs(s.policy)) <= 0x1_0000_0000
    else sum <= 0x1_0000_0000
  }

  predicate Sound(p: Policy) {
    InviteBase(p) >= 1 && TimerBMs(p) >= 1
  }

  predicate Waiting(s: Slot)
    requires s.invite.Some?
  {
    s.nextSend.At? && s.sends >= 1
  }

  // The next send is due no sooner than the doubled intervals say, and the
  // last interval is still below Timer B and one base interval
  predicate PacedLive(s: Slot)
    requires s.invite.Some? && Waiting(s)
  {
    var base := InviteBase(s.policy);
    && s.invite.value.timeoutAt == At(s.createdAt + TimerBMs(s.policy))
    && s.nextSend.ms >= s.createdAt + Total(base, s.sends)
    && Gap(base, s.sends) < TimerBMs(s.policy) + base
  }

  // Abandoned, waiting for a response to CANCEL after: at most one interval
  // beyond what the time left allows
  predicate PacedGone(s: Slot, clock: nat)
    requires s.invite.Some? && Waiting(s)
  {
    var base := InviteBase(s.policy);
    var sum := TimerBMs(s.policy) + base;
    var gap := Gap(base, s.sends);
    var c := CleanupMs(s.policy);
    && s.invite.value.cancel.Scheduled?
    && s.nextSend.ms >= s.createdAt + Total(base, s.sends)
    && match s.invite.value.timeoutAt
       case Never => gap < sum
       case At(t) =>
         t <= clock + c
         && (gap < sum || (s.nextSend.ms + c >= t + gap && gap < 2 * Max(sum, c)))
  }

  predicate Paced(s: Slot, clock: nat)
    requires s.invite.Some?
  {
    Sound(s.policy) && In32Bits(s) ==>
      && (s.nextSend.At? ==> s.state.Calling?)
      && (s.state.Calling? && s.sends == 0 ==>
            s.createdAt == 0 && s.invite.value.timeoutAt.Never? && !s.flags.abandoned)
      && (Waiting(s) ==> if s.flags.abandoned then PacedGone(s, clock) else PacedLive(s))
  }

  // --- What happens to one INVITE

  // Nothing due, or nothing sent yet: as good as new
  lemma RestPaced(s: Slot, clock: nat)
    requires s.invite.Some? && s.nextSend.Never? && !s.state.Calling?
    ensures Paced(s, clock)
  {
  }

  lemma NewPaced(s: Slot, clock: nat)
    requires s.invite.Some? && s.state.Calling? && s.sends == 0 && s.createdAt == 0
    requires s.invite.value.timeoutAt.Never? && !s.flags.abandoned
    ensures Paced(s, clock)
  {
  }

  lemma LaterPaced(s: Slot, clock: nat, now: nat)
    requires s.invite.Some? && Paced(s, clock) && clock <= now
    ensures Paced(s, now)
  {
    hide InviteBase, TimerBMs, CleanupMs, Total;
  }

  lemma ArmPaced(s: Slot, now: nat)
    requires s.invite.Some? && Paced(s, now)
    ensures ArmCleanup(s, now).invite.Some? && Paced(ArmCleanup(s, now), now)
  {
    hide InviteBase, TimerBMs, Total;
  }

  // Given up on, whatever the reason
  lemma AbandonPaced(s: Slot, ok: bool, clock: nat)
    requires SlotOk(s) && LiveClient(s) && s.invite.Some? && !s.flags.abandoned
    requires Paced(s, clock)
    ensures AbandonedSlot(s, ok).invite.Some? && Paced(AbandonedSlot(s, ok), clock)
  {
    hide InviteBase, TimerBMs, CleanupMs, Total;
  }

  // When the pump gets to a send, an abandoned INVITE has its deadline set
  predicate Ready(s: Slot)
    requires s.invite.Some?
  {
    Sound(s.policy) && In32Bits(s) && s.flags.abandoned && s.nextSend.At? ==>
      s.sends > 0 && InviteTimeout(s).At?
  }

  // A send at its time: before the INVITE timeout, no earlier than due
  lemma SendPaced(s: Slot, now: nat)
    requires SlotOk(s) && LiveClient(s) && s.invite.Some? && Paced(s, now)
    requires Due(s.nextSend, now) && !Due(InviteTimeout(s), now) && Ready(s)
    ensures var t := PostSendInvite(NoteSend(s, now), now);
            t.invite.Some? && Paced(t, now)
  {
    hide InviteDelay, TimerBMs, InviteBase, CleanupMs, Total, Gap;
    GapDoubles(InviteBase(s.policy), s.sends);
    if Sound(s.policy) && In32Bits(s) {
      NextDelay(s, now);
    }
  }

  lemma NextDelay(s: Slot, now: nat)
    requires SlotOk(s) && LiveClient(s) && s.invite.Some? && Paced(s, now)
    requires Sound(s.policy) && In32Bits(s)
    requires Due(s.nextSend, now) && !Due(InviteTimeout(s), now)
    requires s.flags.abandoned ==> s.sends > 0 && InviteTimeout(s).At?
    ensures s.sends <= 33
    ensures InviteDelay(s.policy, s.sends + 1) == Gap(InviteBase(s.policy), s.sends + 1)
    ensures var sum := TimerBMs(s.policy) + InviteBase(s.policy);
            Gap(InviteBase(s.policy), s.sends + 1) <
              if s.flags.abandoned then 2 * Max(sum, CleanupMs(s.policy)) else sum
  {
    hide InviteDelay, TimerBMs, InviteBase, CleanupMs;
    var base := InviteBase(s.policy);
    GapDoubles(base, s.sends);
    FewSends(base, s.sends + 1);
    InviteDelayRight(s.policy, s.sends + 1) by { GapClosed(base, s.sends + 1); }
    GapClosed(base, s.sends + 1);
  }

  lemma GapDoubles(base: nat, n: nat)
    ensures Gap(base, n + 1) == if n == 0 then base else 2 * Gap(base, n)
    ensures Total(base, n + 1) == Total(base, n) + Gap(base, n + 1) && Total(base, 0) == 0
  {
  }
}
