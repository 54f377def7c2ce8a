module Calls {
  // An accepted INVITE and its dialog together (usipy_sip_dialog.c on top of
  // the server transactions): the 2xx is the dialog's to repeat until the ACK
  // comes, as section 13.3.1.4 of RFC 3261 has it.

  import opened Base
  import opened Slots
  import opened ServerSteps

  // --- The dialog

  datatype Dlg = Dlg(ackPending: bool, retryMs: nat, ended: bool, cseq: nat, timers: Policy)

  // When the dialog wants the 2xx again, once it went out
  function AgainAt(d: Dlg, now: nat): Deadline {
    if d.ackPending then At(now + d.retryMs) else Never
  }

  function NextRetry(d: Dlg, ms: nat): nat {
    if 2 * ms < d.timers.t2 then 2 * ms else d.timers.t2
  }

  function AfterSent(d: Dlg): Dlg {
    if d.ackPending then d.(retryMs := NextRetry(d, d.retryMs)) else d
  }

  function NoLongerPending(d: Dlg): Dlg {
    d.(ackPending := false)
  }

  // A BYE of ours: only one, and only if there is a slot for it
  function AfterEnd(d: Dlg, fits: bool): Dlg {
    if d.ended || !fits then d
    else d.(ended := true, ackPending := false, cseq := (d.cseq + 1) % 0x1_0000_0000)
  }

  function AfterPeerBye(d: Dlg): Dlg {
    d.(ended := true, ackPending := false)
  }

  // --- The call

  datatype CallEvent =
    | Tried(at: nat)                       // to send the 2xx
    | Went(at: nat)                        // and it got through
    | AckCame
    | Ended                                // BYE of either side, or the dialog gone
    | Expired(kept: bool, byeMade: bool)   // Timer L with no ACK

  datatype Call = Call(slot: Slot, dlg: Dlg, alive: bool, hist: seq<CallEvent>)

  datatype CallStep =
    | Turn(now: nat, sent: bool, keep: bool, byeFits: bool)  // the pump, for this slot
    | Ack(at: nat)
    | Repeat(when: nat)
    | HangUp(fits: bool)
    | PeerBye
    | Destroy

  function Record(c: Call, e: CallEvent): Call {
    c.(hist := c.hist + [e])
  }

  function Stopped(s: Slot, alive: bool): Slot {
    if alive then s.(nextSend := Never) else s
  }

  // Timer L with no ACK: the application may keep the call; otherwise a BYE
  // is tried, once
  function Expire(c: Call, keep: bool, byeFits: bool): Call {
    if !c.alive || !c.dlg.ackPending then c
    else
      var d := NoLongerPending(c.dlg);
      var t := c.(slot := Stopped(c.slot, c.alive));
      if keep then Record(t.(dlg := d), Expired(true, false))
      else Record(t.(dlg := AfterEnd(d, byeFits)), Expired(false, byeFits && !d.ended))
  }

  function TakeTurn(c: Call, now: nat, sent: bool, keep: bool, byeFits: bool): Call {
    var s := c.slot;
    if Due(if s.timer.NoTimer? then Never else s.due, now) then
      var t := c.(slot := ServerTerminated(s));
      if s.timer.TimerL? then Expire(t, keep, byeFits) else t
    else if s.state.Terminated? || !Due(s.nextSend, now) then c
    else
      var t := Record(c.(slot := ArmTimerL(s, now)), Tried(now));
      if !sent then t
      else
        Record(t.(slot := ServerSent(t.slot, now, AgainAt(c.dlg, now)),
                  dlg := if c.alive then AfterSent(c.dlg) else c.dlg), Went(now))
  }

  function Step(c: Call, st: CallStep): Call {
    match st
    case Turn(now, sent, keep, fits) => TakeTurn(c, now, sent, keep, fits)
    case Ack(now) =>
      if c.slot.state.Accepted? && c.slot.server.ackable
      then Record(c.(slot := AckSlot(c.slot, now),
                     dlg := if c.alive then NoLongerPending(c.dlg) else c.dlg), AckCame)
      else c
    case Repeat(now) => c.(slot := Again(c.slot, now))
    case HangUp(fits) =>
      if !c.alive || c.dlg.ended || !fits then c
      else Record(c.(slot := Stopped(c.slot, true), dlg := AfterEnd(c.dlg, fits)), Ended)
    case PeerBye =>
      if !c.alive then c
      else Record(c.(slot := Stopped(c.slot, true), dlg := AfterPeerBye(c.dlg)), Ended)
    case Destroy =>
      if !c.alive then c
      else Record(c.(slot := WithOwner(Stopped(c.slot, true), None), dlg := NoLongerPending(c.dlg),
                     alive := false), Ended)
  }

  function Steps(c: Call, sts: seq<CallStep>): Call
    decreases |sts|
  {
    if sts == [] then c else Steps(Step(c, sts[0]), sts[1..])
  }

  // A call as accepted: the 2xx due, the dialog made and the owner of it
  predicate JustAccepted(c: Call) {
    && c.alive && c.hist == []
    && c.slot.state.Accepted? && c.slot.timer.TimerL? && c.slot.due.Never?
    && c.slot.server.owner.Some? && c.slot.server.ackable && 200 <= c.slot.server.status < 300
    && IsInvite(c.slot)
    && c.dlg.ackPending && !c.dlg.ended && c.dlg.retryMs == c.dlg.timers.t1
  }

  // --- What the history shows

  predicate Silencing(e: CallEvent) {
    e.AckCame? || e.Ended? || e.Expired?
  }

  function Times(h: seq<CallEvent>): seq<nat> {
    if h == [] then []
    else Times(h[..|h| - 1]) + (if h[|h| - 1].Went? then [h[|h| - 1].at] else [])
  }

  // The k-th interval: T1, and doubling from there, up to T2
  function Interval(p: Policy, k: nat): nat {
    if k == 0 then p.t1
    else
      var ms := 2 * Interval(p, k - 1);
      if ms < p.t2 then ms else p.t2
  }

  lemma {:induction false} IntervalIs(p: Policy, k: nat)
    requires k > 0
    ensures Interval(p, k) == Min(p.t1 * Pow2(k), p.t2)
  {
    assert Pow2(k) == 2 * Pow2(k - 1);
    assert p.t1 * Pow2(k) == 2 * (p.t1 * Pow2(k - 1));
    if k > 1 {
      IntervalIs(p, k - 1);
    } else {
      assert Pow2(0) == 1;
    }
  }

  predicate Spaced(p: Policy, ts: seq<nat>) {
    forall k :: 0 <= k < |ts| - 1 ==> ts[k + 1] >= ts[k] + Interval(p, k)
  }

  predicate Quiet(h: seq<CallEvent>) {
    forall k :: 0 <= k < |h| ==> !Silencing(h[k])
  }

  // Nothing is tried after what silences
  predicate SilentAfter(h: seq<CallEvent>) {
    forall j, k :: 0 <= j < k < |h| && Silencing(h[j]) ==> !h[k].Tried? && !h[k].Went? && !h[k].Expired?
  }

  // Timer L counts from the first attempt
  predicate LFromFirst(s: Slot, h: seq<CallEvent>) {
    if h == [] || !h[0].Tried? then s.due.Never?
    else s.due == At(h[0].at + TimerLMs(s.policy))
  }

  // --- What holds after every step

  predicate Timed(c: Call) {
    var ts := Times(c.hist);
    && Spaced(c.dlg.timers, ts)
    && (c.dlg.ackPending ==> c.dlg.retryMs == Interval(c.dlg.timers, |ts|))
    && (c.slot.nextSend.At? && c.slot.state.Accepted? && ts != [] ==>
          c.slot.nextSend.ms >= ts[|ts| - 1] + Interval(c.dlg.timers, |ts| - 1))
  }

  predicate Shaped(c: Call) {
    var s := c.slot;
    && IsInvite(s) && 200 <= s.server.status < 300 && (s.server.owner.Some? <==> c.alive)
    && ((s.state.Accepted? && s.timer.TimerL? && LFromFirst(s, c.hist))
        || (s.state.Terminated? && s.timer.NoTimer?))
    && (s.nextSend.At? && s.state.Accepted? ==> c.dlg.ackPending && c.alive)
    && (c.dlg.ackPending ==> Quiet(c.hist))
    && (c.alive && Quiet(c.hist) && s.state.Accepted? ==> c.dlg.ackPending)
    && (Quiet(c.hist) ==> c.alive && !c.dlg.ended && (c.hist != [] ==> c.hist[0].Tried?))
  }

  predicate Sound(c: Call) {
    Shaped(c) && Timed(c) && SilentAfter(c.hist)
  }

  lemma AcceptedSound(c: Call)
    requires JustAccepted(c)
    ensures Sound(c)
  {
  }

  lemma TimesMore(h: seq<CallEvent>, e: CallEvent)
    ensures Times(h + [e]) == if e.Went? then Times(h) + [e.at] else Times(h)
  {
    assert (h + [e])[..|h|] == h;
  }

  // An event added, if nothing forbids it
  lemma SilentMore(h: seq<CallEvent>, e: CallEvent)
    requires SilentAfter(h)
    requires Quiet(h) || !(e.Tried? || e.Went? || e.Expired?)
    ensures SilentAfter(h + [e])
    ensures Quiet(h + [e]) <==> Quiet(h) && !Silencing(e)
  {
    var m := h + [e];
    forall j, k | 0 <= j < k < |m| && Silencing(m[j])
      ensures !m[k].Tried? && !m[k].Went? && !m[k].Expired?
    {
      assert m[j] == h[j];
      if k < |h| { assert m[k] == h[k]; }
    }
    assert m[|h|] == e;
    assert forall k :: 0 <= k < |h| ==> m[k] == h[k];
  }

  // What a step other than a send does to the 2xx: no more of it
  lemma Silenced(c: Call, t: Call, e: CallEvent)
    requires Sound(c) && Silencing(e) && (e.Expired? ==> Quiet(c.hist))
    requires t.hist == c.hist + [e] && t.dlg.timers == c.dlg.timers
    requires !t.dlg.ackPending && (t.slot.nextSend.Never? || t.slot.state.Terminated?)
    requires t.slot.verb == c.slot.verb && t.slot.server.status == c.slot.server.status
    requires t.slot.server.owner.Some? <==> t.alive
    requires (t.slot.state.Terminated? && t.slot.timer.NoTimer?)
             || (t.slot.state == c.slot.state && t.slot.timer == c.slot.timer
                 && t.slot.due == c.slot.due && t.slot.policy == c.slot.policy)
    ensures Sound(t)
  {
    hide Interval, Spaced, SilentAfter, Times, TimerLMs;
    TimesMore(c.hist, e);
    SilentMore(c.hist, e);
  }

  lemma TriedSound(c: Call, now: nat)
    requires Sound(c) && !c.slot.state.Terminated? && Due(c.slot.nextSend, now)
    ensures Sound(Record(c.(slot := ArmTimerL(c.slot, now)), Tried(now)))
    ensures var a := ArmTimerL(c.slot, now);
            a.nextSend == c.slot.nextSend && a.server == c.slot.server && a.state == c.slot.state
  {
    TimesMore(c.hist, Tried(now));
    SilentMore(c.hist, Tried(now));
  }

  lemma WentSound(c: Call, now: nat)
    requires Sound(c) && c.hist != [] && !c.slot.state.Terminated? && Due(c.slot.nextSend, now)
    ensures Sound(Record(c.(slot := ServerSent(c.slot, now, AgainAt(c.dlg, now)),
                            dlg := if c.alive then AfterSent(c.dlg) else c.dlg), Went(now)))
  {
    hide RefusalSent, FinalSent, TimerLMs;
    TimesMore(c.hist, Went(now));
    SilentMore(c.hist, Went(now));
    SentAccepted(c.slot, now, AgainAt(c.dlg, now));
  }

  lemma SentAccepted(s: Slot, now: nat, again: Deadline)
    requires s.state.Accepted? && s.server.owner.Some?
    ensures var t := ServerSent(s, now, again);
      && t.state == s.state && t.timer == s.timer && t.due == s.due && t.policy == s.policy
      && t.server == s.server && t.verb == s.verb && t.nextSend == again
  {
    hide RefusalSent, FinalSent;
  }

  lemma ExpireSound(c: Call, keep: bool, fits: bool)
    requires Sound(c) && !c.slot.state.Terminated? && c.slot.timer.TimerL?
    ensures Sound(Expire(c.(slot := ServerTerminated(c.slot)), keep, fits))
  {
    hide SilentAfter, Times, Spaced, Interval;
    var t := c.(slot := ServerTerminated(c.slot));
    var u := Expire(t, keep, fits);
    if c.alive && c.dlg.ackPending {
      Silenced(c, u, if keep then Expired(true, false) else Expired(false, fits && !c.dlg.ended));
    }
  }

  lemma TurnSound(c: Call, now: nat, sent: bool, keep: bool, fits: bool)
    requires Sound(c)
    ensures Sound(TakeTurn(c, now, sent, keep, fits))
  {
    hide Timed, SilentAfter, ArmTimerL, ServerSent, Expire, LFromFirst, AfterSent;
    var s := c.slot;
    if Due(if s.timer.NoTimer? then Never else s.due, now) {
      ExpireSound(c, keep, fits);
    } else if !s.state.Terminated? && Due(s.nextSend, now) {
      TriedSound(c, now);
      var t := Record(c.(slot := ArmTimerL(s, now)), Tried(now));
      if sent {
        WentSound(t, now);
      }
    }
  }

  lemma StepSound(c: Call, st: CallStep)
    requires Sound(c)
    ensures Sound(Step(c, st))
  {
    hide Timed, SilentAfter, TakeTurn, LFromFirst, Quiet;
    match st {
      case Turn(now, sent, keep, fits) => TurnSound(c, now, sent, keep, fits);
      case Ack(now) =>
        if c.slot.state.Accepted? && c.slot.server.ackable {
          if !c.alive {
            QuietNextSend(c);
          }
          Silenced(c, Step(c, st), AckCame);
        }
      case Repeat(now) =>
        RepeatSound(c, now);
      case HangUp(fits) =>
        if c.alive && !c.dlg.ended && fits {
          Silenced(c, Step(c, st), Ended);
        }
      case PeerBye =>
        if c.alive {
          Silenced(c, Step(c, st), Ended);
        }
      case Destroy =>
        if c.alive {
          Silenced(c, Step(c, st), Ended);
        }
    }
  }

  lemma QuietNextSend(c: Call)
    requires Sound(c) && !c.alive
    ensures (c.slot.nextSend.Never? || c.slot.state.Terminated?) && !c.dlg.ackPending
  {
  }

  // A request repeated changes nothing once it was accepted
  lemma RepeatSound(c: Call, now: nat)
    requires Sound(c)
    ensures Sound(c.(slot := Again(c.slot, now)))
  {
  }

  // --- Whole runs

  lemma {:induction false} StepsSound(c: Call, sts: seq<CallStep>)
    requires Sound(c)
    ensures Sound(Steps(c, sts))
    decreases |sts|
  {
    hide Sound, Step;
    if sts != [] {
      StepSound(c, sts[0]);
      StepsSound(Step(c, sts[0]), sts[1..]);
    }
  }

  lemma {:induction false} SameTimers(c: Call, sts: seq<CallStep>)
    ensures Steps(c, sts).dlg.timers == c.dlg.timers
    decreases |sts|
  {
    if sts != [] {
      OneSameTimers(c, sts[0]);
      SameTimers(Step(c, sts[0]), sts[1..]);
    }
  }

  lemma OneSameTimers(c: Call, st: CallStep)
    ensures Step(c, st).dlg.timers == c.dlg.timers
  {
    hide ServerSent, ServerTerminated, ArmTimerL, AckSlot, Again;
  }

  // Section 13.3.1.4 of RFC 3261, for any run of a call from its acceptance:
  // the sends of the 2xx are T1 and then doubling up to T2 apart, none of them
  // after the ACK, a BYE, the end of the dialog, or Timer L; and that counts
  // from the first attempt.
  lemma TwoHundredsReliable(c: Call, sts: seq<CallStep>)
    requires JustAccepted(c)
    ensures var u := Steps(c, sts); var ts := Times(u.hist);
      && (forall k :: 0 <= k < |ts| - 1 ==> ts[k + 1] >= ts[k] + Interval(c.dlg.timers, k))
      && (forall j, k :: 0 <= j < k < |u.hist| && Silencing(u.hist[j]) ==>
            !u.hist[k].Tried? && !u.hist[k].Went? && !u.hist[k].Expired?)
      && (u.slot.state.Accepted? ==> LFromFirst(u.slot, u.hist))
  {
    hide Steps, JustAccepted, Interval, Times;
    AcceptedSound(c);
    StepsSound(c, sts);
    SameTimers(c, sts);
  }

  // Once armed, Timer L is not moved
  lemma TimerLStays(c: Call, st: CallStep)
    requires Sound(c) && c.slot.state.Accepted? && c.slot.due.At?
    requires Step(c, st).slot.state.Accepted?
    ensures Step(c, st).slot.due == c.slot.due
  {
    hide RefusalSent, FinalSent, TimerLMs;
    match st {
      case Turn(now, sent, keep, fits) =>
        if Due(c.slot.nextSend, now) {
          SentAccepted(c.slot, now, AgainAt(c.dlg, now));
        }
      case _ =>
    }
  }

  // Timer L at its end: if nothing silenced the 2xx before, the call is kept
  // or a BYE is tried, once; if something did, nothing happens but the end of
  // the transaction.
  lemma ExpiryActsOnce(c: Call, now: nat, sent: bool, keep: bool, fits: bool)
    requires Sound(c) && c.slot.state.Accepted? && Due(c.slot.due, now)
    ensures var u := Step(c, Turn(now, sent, keep, fits));
      && u.slot.state.Terminated?
      && u.hist == (if Quiet(c.hist) then c.hist + [Expired(keep, !keep && fits)] else c.hist)
      && (Quiet(c.hist) ==> u.dlg.ended == (!keep && fits))
      && !u.dlg.ackPending
  {
  }
}
