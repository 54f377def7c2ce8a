module CallRuns {
  // Section 13.3.1.4 of RFC 3261 over whole runs of the transaction manager: an
  // INVITE answered 2xx, with a dialog that moves its sends, among everything
  // else that goes on in the table.

  import opened Base
  import opened Slots
  import opened Table
  import opened ClientSteps
  import opened ServerSteps
  import opened History
  import opened Runs
  import opened CleanupRuns
  import opened ServerMoves
  import BackoffRuns
  import Calls

  // --- The responses sent

  function ReplyTimes(w: seq<Event>): seq<nat> {
    if w == [] then []
    else
      var n := |w| - 1;
      ReplyTimes(w[..n]) + (if w[n].Replied? then [w[n].at] else [])
  }

  predicate NoneAfterAck(w: seq<Event>) {
    forall j, k :: 0 <= j < k < |w| && w[j].Acked? ==> !w[k].Replied?
  }

  predicate Unacked(w: seq<Event>) {
    forall j :: 0 <= j < |w| ==> !w[j].Acked?
  }

  lemma EventMore(w: seq<Event>, e: Event)
    ensures ReplyTimes(w + [e]) == if e.Replied? then ReplyTimes(w) + [e.at] else ReplyTimes(w)
    ensures NoneAfterAck(w) && (e.Replied? ==> Unacked(w)) ==> NoneAfterAck(w + [e])
    ensures Unacked(w + [e]) <==> Unacked(w) && !e.Acked?
  {
    var m := w + [e];
    assert m[..|w|] == w;
    assert m[|w|] == e;
    assert forall j :: 0 <= j < |w| ==> m[j] == w[j];
  }

  // --- One call

  // What is known of the responses so far: their spacing, none after the ACK,
  // none later than Timer L allows
  predicate Reliable(w: seq<Event>, timers: Policy, lms: nat) {
    var ts := ReplyTimes(w);
    && Calls.Spaced(timers, ts) && NoneAfterAck(w)
    && forall k :: 0 < k < |ts| ==> ts[k] < ts[0] + lms
  }

  // No copy is due before its time, nor at all after the ACK
  predicate SendsInTime(s: Slot, w: seq<Event>, timers: Policy) {
    var ts := ReplyTimes(w);
    s.nextSend.At? ==>
      && s.server.owner.Some? && Unacked(w)
      && (ts != [] ==> s.nextSend.ms >= ts[|ts| - 1] + Calls.Interval(timers, |ts| - 1))
  }

  // Timer L counts from the first attempt
  predicate EndsInTime(s: Slot, w: seq<Event>, clock: nat, lms: nat) {
    var ts := ReplyTimes(w);
    && TimerLMs(s.policy) == lms
    && (s.due.Never? ==> ts == [])
    && (s.due.At? ==> s.due.ms <= (if ts == [] then clock else ts[0]) + lms)
  }

  predicate Accepting(s: Slot) {
    && LiveServer(s) && IsInvite(s) && 200 <= s.server.status < 300
    && (s.state.Terminated? || (s.state.Accepted? && s.timer.TimerL?))
  }

  predicate Answering(s: Slot, w: seq<Event>, clock: nat, timers: Policy, lms: nat) {
    && Accepting(s)
    && (s.state.Terminated? || (SendsInTime(s, w, timers) && EndsInTime(s, w, clock, lms)))
  }

  // The dialog wants the next copy one interval on, or none
  predicate Wanted(w: seq<Event>, now: nat, again: Deadline, timers: Policy) {
    again.At? ==> again.ms >= now + Calls.Interval(timers, |ReplyTimes(w)|)
  }

  // ... as it does in fact, whatever happened to its call
  lemma DialogWants(c: Calls.Call, w: seq<Event>, now: nat)
    requires Calls.Sound(c) && |Calls.Times(c.hist)| == |ReplyTimes(w)|
    ensures Wanted(w, now, Calls.AgainAt(c.dlg, now), c.dlg.timers)
  {
    hide Calls.Shaped, Calls.SilentAfter, Calls.Spaced, Calls.Interval;
  }

  // --- Its moves

  // What the dialog does besides: it moves the next send to never only, and
  // gives the call up only after that
  predicate LedMove(s: Slot, w: seq<Event>, m: Move, timers: Policy) {
    match m
    case Turn(now, ch) => Wanted(w, now, ch.again, timers)
    case Resend(d) => d.Never?
    case OwnerSet(o) => o.None? ==> s.nextSend.Never?
    case _ => true
  }

  lemma ArmAnswers(s: Slot, w: seq<Event>, was: nat, now: nat, timers: Policy, lms: nat)
    requires Answering(s, w, was, timers, lms) && !s.state.Terminated? && was <= now
    ensures var a := ArmTimerL(s, now);
      && Answering(a, w, now, timers, lms) && a.state.Accepted? && a.due.At?
      && a.gen == s.gen && a.nextSend == s.nextSend && a.server == s.server
      && (s.due.At? ==> a == s) && (s.due.Never? ==> ReplyTimes(w) == [])
  {
  }

  lemma SentReliable(s: Slot, w: seq<Event>, now: nat, timers: Policy, lms: nat)
    requires Answering(s, w, now, timers, lms) && s.state.Accepted? && s.due.At?
    requires Reliable(w, timers, lms) && Due(s.nextSend, now)
    requires ReplyTimes(w) == [] || now < s.due.ms
    ensures Reliable(w + [Replied(s.gen, s.server.status, now)], timers, lms)
  {
    hide Calls.Interval, TimerLMs, NoneAfterAck, Unacked;
    EventMore(w, Replied(s.gen, s.server.status, now));
  }

  lemma SentAnswers(s: Slot, w: seq<Event>, now: nat, again: Deadline, timers: Policy, lms: nat)
    requires Answering(s, w, now, timers, lms) && s.state.Accepted? && s.due.At?
    requires Due(s.nextSend, now) && Wanted(w, now, again, timers)
    ensures Answering(ServerSent(s, now, again), w + [Replied(s.gen, s.server.status, now)],
                      now, timers, lms)
  {
    hide Calls.Interval, TimerLMs, ServerSent, Unacked;
    EventMore(w, Replied(s.gen, s.server.status, now));
    SentParts(s, now, again);
  }

  lemma SentParts(s: Slot, now: nat, again: Deadline)
    requires s.state.Accepted? && s.server.owner.Some?
    ensures var t := ServerSent(s, now, again);
      && t.nextSend == again && t.state == s.state && t.timer == s.timer && t.due == s.due
      && t.policy == s.policy && t.server == s.server && t.gen == s.gen && t.verb == s.verb
      && t.active == s.active && t.role == s.role
  {
    hide RefusalSent, FinalSent;
  }

  lemma TurnAnswers(s: Slot, w: seq<Event>, was: nat, m: Move, timers: Policy, lms: nat)
    requires Answering(s, w, was, timers, lms) && Reliable(w, timers, lms)
    requires m.Turn? && was <= m.now && LedMove(s, w, m, timers)
    ensures var (t, ev) := Moved(s, m);
      Answering(t, w + ev, m.now, timers, lms) && Reliable(w + ev, timers, lms)
  {
    hide Reliable, ServerSent, ArmTimerL, ReplyTimes, SendsInTime, Wanted;
    var now := m.now;
    assert w + [] == w;
    if !TimerDue(s, now) && !s.state.Terminated? && Due(s.nextSend, now) {
      var a := ArmTimerL(s, now);
      ArmAnswers(s, w, was, now, timers, lms);
      SentReliable(a, w, now, timers, lms);
      SentAnswers(a, w, now, m.ch.again, timers, lms);
    }
  }

  lemma MoveAnswers(s: Slot, w: seq<Event>, was: nat, m: Move, timers: Policy, lms: nat)
    requires Answering(s, w, was, timers, lms) && Reliable(w, timers, lms) && Apt(s, m)
    requires (m.Turn? ==> was <= m.now) && LedMove(s, w, m, timers)
    ensures var (t, ev) := Moved(s, m);
      && Answering(t, w + ev, if m.Turn? then m.now else was, timers, lms)
      && Reliable(w + ev, timers, lms)
  {
    hide TimerLMs, Reliable, NoneAfterAck, Unacked, Calls.Interval;
    assert w + [] == w;
    match m {
      case Turn(now, ch) => TurnAnswers(s, w, was, m, timers, lms);
      case AckIn(now) => AckReliable(s.gen, w, timers, lms);
      case _ =>
    }
  }

  lemma AckReliable(g: nat, w: seq<Event>, timers: Policy, lms: nat)
    requires Reliable(w, timers, lms)
    ensures Reliable(w + [Acked(g)], timers, lms) && ReplyTimes(w + [Acked(g)]) == ReplyTimes(w)
  {
    hide NoneAfterAck, Unacked, Calls.Interval;
    EventMore(w, Acked(g));
  }

  // --- Any step

  predicate Led(tm: Tm, st: Step, i: nat, g: nat, n: nat, timers: Policy) {
    i < |tm.slots| && Is(tm.slots[i], g) ==>
      match st
      case PumpAt(now, ch) => Wanted(Since(tm.log, n, g), now, ch(i).again, timers)
      case ResendAt(j, o, due) => j == i && OwnedBy(tm, i, o) ==> due.Never?
      case Disown(j, o) => j == i && OwnedBy(tm, i, o) ==> tm.slots[i].nextSend.Never?
      case _ => true
  }

  lemma LedMoves(tm: Tm, st: Step, i: nat, g: nat, n: nat, m: Move, timers: Policy)
    requires i < |tm.slots| && Is(tm.slots[i], g)
    requires MoveIn(tm, st, i, m) && Led(tm, st, i, g, n, timers)
    ensures LedMove(tm.slots[i], Since(tm.log, n, g), m, timers)
    ensures m.Turn? ==> st.PumpAt? && m.now == st.now
  {
    hide Wanted, Classify, Since;
  }

  // Everything that holds of the call made by generation g of slot i, whose
  // history is what the log got after its first n events
  predicate CallHolds(tm: Tm, i: nat, g: nat, n: nat, timers: Policy, lms: nat) {
    && Lone(tm, i, g) && n <= |tm.log|
    && Reliable(Since(tm.log, n, g), timers, lms)
    && (Is(tm.slots[i], g) ==> Answering(tm.slots[i], Since(tm.log, n, g), tm.clock, timers, lms))
  }

  lemma LaterAnswers(s: Slot, w: seq<Event>, was: nat, clock: nat, timers: Policy, lms: nat)
    requires Answering(s, w, was, timers, lms) && was <= clock
    ensures Answering(s, w, clock, timers, lms)
  {
  }

  lemma StepHolds(tm: Tm, st: Step, i: nat, g: nat, n: nat, timers: Policy, lms: nat)
    requires Inv(tm) && Allowed(tm, st) && CallHolds(tm, i, g, n, timers, lms)
    requires Led(tm, st, i, g, n, timers)
    ensures Inv(Apply(tm, st)) && CallHolds(Apply(tm, st), i, g, n, timers, lms)
  {
    hide Inv, Apply, Led, Allowed, Reliable, Answering, Moved, MoveIn, LedMove, Apt, Since;
    BackoffRuns.StepClock(tm, st);
    var t := Apply(tm, st);
    var m := StepSince(tm, st, i, g, n);
    if Is(tm.slots[i], g) {
      var w := Since(tm.log, n, g);
      LedMoves(tm, st, i, g, n, m, timers);
      TurnTime(tm, st);
      MoveAnswers(tm.slots[i], w, tm.clock, m, timers, lms);
      LaterAnswers(Moved(tm.slots[i], m).0, w + Moved(tm.slots[i], m).1,
                   if m.Turn? then m.now else tm.clock, t.clock, timers, lms);
    }
  }

  lemma TurnTime(tm: Tm, st: Step)
    requires Allowed(tm, st)
    ensures st.PumpAt? ==> tm.clock <= st.now == TimeOf(tm, st)
  {
  }

  // --- Any run

  // The dialog leads its call in every step of a run
  predicate LedRun(tm: Tm, steps: seq<Step>, i: nat, g: nat, n: nat, timers: Policy)
    decreases |steps|
  {
    steps != [] ==>
      Led(tm, steps[0], i, g, n, timers) && LedRun(Apply(tm, steps[0]), steps[1..], i, g, n, timers)
  }

  lemma {:induction false} RunHolds(tm: Tm, steps: seq<Step>, i: nat, g: nat, n: nat,
                                    timers: Policy, lms: nat)
    requires Inv(tm) && AllowedRun(tm, steps) && LedRun(tm, steps, i, g, n, timers)
    requires CallHolds(tm, i, g, n, timers, lms)
    ensures Inv(Run(tm, steps)) && CallHolds(Run(tm, steps), i, g, n, timers, lms)
    decreases |steps|
  {
    hide Inv, Apply, Allowed, CallHolds, Led;
    if steps != [] {
      StepHolds(tm, steps[0], i, g, n, timers, lms);
      RunHolds(Apply(tm, steps[0]), steps[1..], i, g, n, timers, lms);
    }
  }

  // An INVITE with a 2xx queued and an owner, none of it sent yet
  predicate JustAnswered(tm: Tm, i: nat) {
    && i < |tm.slots| && LiveServer(tm.slots[i]) && IsInvite(tm.slots[i])
    && tm.slots[i].state.Accepted? && tm.slots[i].timer.TimerL? && tm.slots[i].due.Never?
    && tm.slots[i].server.owner.Some? && 200 <= tm.slots[i].server.status < 300
  }

  lemma AnsweredSlot(s: Slot, code: nat, noAck: bool, owner: nat)
    requires LiveServer(s) && IsInvite(s) && 200 <= code <= 299
    ensures LiveServer(Responded(s, code, noAck))
    ensures forall tm: Tm, i: nat ::
              i < |tm.slots| && tm.slots[i] == WithOwner(Responded(s, code, noAck), Some(owner)) ==>
                JustAnswered(tm, i)
  {
  }

  // Answering an INVITE and owning it makes one
  lemma AnswerMakesCall(tm: Tm, i: nat, code: nat, noAck: bool, owner: nat)
    requires i < |tm.slots| && LiveServer(tm.slots[i]) && IsInvite(tm.slots[i])
    requires 200 <= code <= 299 && SendResponse(tm, i, code, noAck, true).1 == Ok
    ensures JustAnswered(Apply(Apply(tm, Respond(i, code, noAck, true)), Own(i, owner)), i)
  {
    hide Responded, JustAnswered, WithOwner;
    AnsweredSlot(tm.slots[i], code, noAck, owner);
  }

  lemma AnsweredHolds(tm: Tm, i: nat, timers: Policy)
    requires Inv(tm) && JustAnswered(tm, i)
    ensures CallHolds(tm, i, tm.slots[i].gen, |tm.log|, timers, TimerLMs(tm.slots[i].policy))
  {
    hide TimerLMs, Calls.Interval, Inv, Since;
    LoneNow(tm, i);
    SinceNow(tm.log, tm.slots[i].gen);
  }

  // After any run since an INVITE was answered, in which its dialog leads it:
  // the copies of the 2xx that were sent are T1 and then doubling up to T2
  // apart, none comes after the ACK, and none once Timer L is over, counted
  // from the first of them.
  lemma RepliesReliable(tm: Tm, steps: seq<Step>, i: nat, timers: Policy)
    requires Inv(tm) && AllowedRun(tm, steps) && JustAnswered(tm, i)
    requires LedRun(tm, steps, i, tm.slots[i].gen, |tm.log|, timers)
    ensures var w := Since(Run(tm, steps).log, |tm.log|, tm.slots[i].gen); var ts := ReplyTimes(w);
      && (forall k :: 0 <= k < |ts| - 1 ==> ts[k + 1] >= ts[k] + Calls.Interval(timers, k))
      && (forall j, k :: 0 <= j < k < |w| && w[j].Acked? ==> !w[k].Replied?)
      && (forall k :: 0 < k < |ts| ==> ts[k] < ts[0] + TimerLMs(tm.slots[i].policy))
  {
    hide Inv, AllowedRun, LedRun, Run, TimerLMs, ReplyTimes, Answering, Calls.Interval, Since;
    var g, lms := tm.slots[i].gen, TimerLMs(tm.slots[i].policy);
    AnsweredHolds(tm, i, timers);
    RunHolds(tm, steps, i, g, |tm.log|, timers, lms);
  }

  // --- Once its dialog has ended it

  // No copy is due
  predicate Hushed(s: Slot) {
    Accepting(s) && (s.state.Terminated? || s.nextSend.Never?)
  }

  lemma MoveHushed(s: Slot, w: seq<Event>, m: Move, timers: Policy)
    requires Hushed(s) && Apt(s, m) && LedMove(s, w, m, timers)
    ensures var (t, ev) := Moved(s, m); Hushed(t) && forall k :: 0 <= k < |ev| ==> !ev[k].Replied?
  {
  }

  predicate Quieted(tm: Tm, i: nat, g: nat, n: nat, w: seq<Event>) {
    && Lone(tm, i, g) && n <= |tm.log| && (Is(tm.slots[i], g) ==> Hushed(tm.slots[i]))
    && w <= Since(tm.log, n, g)
    && forall k :: |w| <= k < |Since(tm.log, n, g)| ==> !Since(tm.log, n, g)[k].Replied?
  }

  lemma {:induction false} RunQuiet(tm: Tm, steps: seq<Step>, i: nat, g: nat, n: nat, timers: Policy,
                                    w: seq<Event>)
    requires Inv(tm) && AllowedRun(tm, steps) && LedRun(tm, steps, i, g, n, timers)
    requires Quieted(tm, i, g, n, w)
    ensures Quieted(Run(tm, steps), i, g, n, w)
    decreases |steps|
  {
    hide Inv, Apply, Allowed, Led, Hushed, Since, MoveIn, Moved, Apt, LedMove;
    if steps != [] {
      var m := StepSince(tm, steps[0], i, g, n);
      if Is(tm.slots[i], g) {
        LedMoves(tm, steps[0], i, g, n, m, timers);
        MoveHushed(tm.slots[i], Since(tm.log, n, g), m, timers);
      }
      RunQuiet(Apply(tm, steps[0]), steps[1..], i, g, n, timers, w);
    }
  }

  // The owner wants no more of it, or gives it up
  predicate Ends(tm: Tm, st: Step, i: nat) {
    match st
    case ResendAt(j, o, due) => j == i && OwnedBy(tm, i, o) && due.Never?
    case Disown(j, o) => j == i && OwnedBy(tm, i, o)
    case _ => false
  }

  lemma EndHushes(tm: Tm, st: Step, i: nat, g: nat, n: nat, timers: Policy)
    requires Ends(tm, st, i) && Is(tm.slots[i], g) && Led(tm, st, i, g, n, timers)
    requires Accepting(tm.slots[i])
    ensures Hushed(Apply(tm, st).slots[i]) && Apply(tm, st).log == tm.log
  {
  }

  lemma {:induction false} LedSplit(tm: Tm, steps: seq<Step>, k: nat, i: nat, g: nat, n: nat,
                                    timers: Policy)
    requires LedRun(tm, steps, i, g, n, timers) && k <= |steps|
    ensures LedRun(tm, steps[..k], i, g, n, timers)
    ensures LedRun(Run(tm, steps[..k]), steps[k..], i, g, n, timers)
    decreases k
  {
    hide Apply, Led;
    if k == 0 {
      assert steps[..0] == [] && steps[0..] == steps;
    } else {
      LedSplit(Apply(tm, steps[0]), steps[1..], k - 1, i, g, n, timers);
      assert steps[..k][1..] == steps[1..][..k - 1] && steps[..k][0] == steps[0];
      assert steps[1..][k - 1..] == steps[k..];
    }
  }

  // So after a BYE of either side, the end of the dialog or its destruction,
  // each of which stops the copies: however the run goes on, none is sent.
  lemma RepliesEnd(tm: Tm, steps: seq<Step>, k: nat, i: nat, timers: Policy)
    requires Inv(tm) && AllowedRun(tm, steps) && JustAnswered(tm, i)
    requires LedRun(tm, steps, i, tm.slots[i].gen, |tm.log|, timers) && k < |steps|
    requires var u := Run(tm, steps[..k]); Ends(u, steps[k], i) && Is(u.slots[i], tm.slots[i].gen)
    ensures var g, n := tm.slots[i].gen, |tm.log|;
      var before, after := Since(Run(tm, steps[..k]).log, n, g), Since(Run(tm, steps).log, n, g);
      before <= after && forall j :: |before| <= j < |after| ==> !after[j].Replied?
  {
    hide Inv, Since, Apply, Allowed, Led, Hushed, Ends, Reliable, JustAnswered, TimerLMs;
    AnsweredHolds(tm, i, timers);
    var g, n, lms := tm.slots[i].gen, |tm.log|, TimerLMs(tm.slots[i].policy);
    var u := Run(tm, steps[..k]);
    RunSplit(tm, steps, k);
    LedSplit(tm, steps, k, i, g, n, timers);
    RunHolds(tm, steps[..k], i, g, n, timers, lms);
    assert steps[k..][0] == steps[k] && steps[k..][1..] == steps[k + 1..];
    EndHushes(u, steps[k], i, g, n, timers);
    var m := StepSince(u, steps[k], i, g, n);
    RunQuiet(Apply(u, steps[k]), steps[k + 1..], i, g, n, timers, Since(u.log, n, g));
  }
}
