module RefusalRuns {
  // An INVITE refused, over whole runs: how its refusal is sent again until the
  // ACK comes or Timer H is over, and that the intervals are those of section
  // 17.2.1 of RFC 3261 only if no provisional response was sent before.

  import opened Base
  import opened Slots
  import opened Table
  import opened ClientSteps
  import opened ServerSteps
  import opened Machine
  import opened Runs
  import opened History
  import opened ServerMoves
  import opened Theorems
  import opened Samples

  // --- The responses sent

  function Replies(w: seq<Event>): seq<Event> {
    if w == [] then []
    else
      var n := |w| - 1;
      Replies(w[..n]) + (if w[n].Replied? then [w[n]] else [])
  }

  predicate Refusal(e: Event) {
    e.Replied? && e.status >= 300
  }

  // After the n-th response, if it was a refusal, the next is one too, and
  // comes no sooner than the interval for n responses
  predicate Paced(rs: seq<Event>, p: Policy) {
    forall k :: 0 <= k < |rs| - 1 && Refusal(rs[k]) ==>
      Refusal(rs[k + 1]) && rs[k + 1].at >= rs[k].at + ServerInviteDelay(p, (k + 1) % 256)
  }

  // None comes once Timer H is over
  predicate Timely(rs: seq<Event>, p: Policy) {
    forall j, k :: 0 <= j < k < |rs| && Refusal(rs[j]) && Refusal(rs[k]) ==>
      rs[k].at < rs[j].at + TimerHMs(p)
  }

  // ... nor after the ACK
  predicate NoneAfterAck(w: seq<Event>) {
    forall j, k :: 0 <= j < k < |w| && w[j].Acked? ==> !Refusal(w[k])
  }

  predicate Unacked(w: seq<Event>) {
    forall j :: 0 <= j < |w| ==> !w[j].Acked?
  }

  predicate Refused(w: seq<Event>, p: Policy) {
    Paced(Replies(w), p) && Timely(Replies(w), p) && NoneAfterAck(w)
  }

  lemma EventMore(w: seq<Event>, e: Event)
    ensures Replies(w + [e]) == if e.Replied? then Replies(w) + [e] else Replies(w)
    ensures NoneAfterAck(w) && (Refusal(e) ==> Unacked(w)) ==> NoneAfterAck(w + [e])
    ensures Unacked(w + [e]) <==> Unacked(w) && !e.Acked?
  {
    var m := w + [e];
    assert m[..|w|] == w;
    assert m[|w|] == e;
    assert forall j :: 0 <= j < |w| ==> m[j] == w[j];
  }

  // --- The slot

  predicate NoRefusals(rs: seq<Event>) {
    forall k :: 0 <= k < |rs| ==> !Refusal(rs[k])
  }

  predicate LastRefused(rs: seq<Event>) {
    rs != [] && Refusal(rs[|rs| - 1])
  }

  // The next copy: one interval after the last, unless the transport is reliable
  function NextCopy(s: Slot, rs: seq<Event>): Deadline
    requires LastRefused(rs)
  {
    if s.flags.reliable then Never
    else At(rs[|rs| - 1].at + ServerInviteDelay(s.policy, |rs| % 256))
  }

  // Refused, and no ACK yet
  predicate Waiting(s: Slot, rs: seq<Event>) {
    && s.timer.TimerH?
    && if LastRefused(rs)
       then s.nextSend == NextCopy(s, rs) && s.due.At?
            && forall k :: 0 <= k < |rs| && Refusal(rs[k]) ==> s.due.ms <= rs[k].at + TimerHMs(s.policy)
       else s.due.Never? && NoRefusals(rs)
  }

  predicate StateOk(s: Slot, w: seq<Event>) {
    if s.server.status < 200
    then (s.state.Trying? || s.state.Proceeding?) && s.timer.NoTimer? && Unacked(w)
    else if s.server.status < 300 then true
    else
      (s.state.Confirmed? && s.nextSend.Never?)
      || (s.state.Completed? && Unacked(w) && Waiting(s, Replies(w)))
  }

  predicate Serving(s: Slot, w: seq<Event>, p: Policy) {
    && LiveServer(s) && IsInvite(s) && s.policy == p && s.sends == |Replies(w)| % 256
    && (s.server.status < 300 ==> NoRefusals(Replies(w)))
    && (s.state.Terminated? || StateOk(s, w))
  }

  // Neither a copy of the INVITE nor an owner moves the next send of a refusal
  predicate Undisturbed(s: Slot, m: Move) {
    m.RequestIn? || m.Resend? ==> s.server.status < 300
  }

  // --- Its moves

  predicate SameCount(s: Slot, t: Slot) {
    && t.sends == s.sends && t.policy == s.policy && t.verb == s.verb
    && t.active == s.active && t.role == s.role && t.server == s.server
    && t.flags.reliable == s.flags.reliable
  }

  lemma CountKept(s: Slot, now: nat)
    ensures SameCount(s, RefusalSent(s, now)) && SameCount(s, FinalSent(s, now))
  {
    hide AnswerTimerMs, ServerInviteDelay, TimerJMs;
  }

  lemma SentCount(s: Slot, now: nat, again: Deadline)
    ensures SameCount(s.(sends := (s.sends + 1) % 256), ServerSent(s, now, again))
  {
    hide RefusalSent, FinalSent;
    CountKept(NoteSend(s, now).(nextSend := Never), now);
  }

  lemma SentEarly(s: Slot, now: nat, again: Deadline)
    requires s.server.status < 200 && (s.state.Trying? || s.state.Proceeding?)
    ensures var t := ServerSent(s, now, again); t.state == s.state && t.timer == s.timer
  {
    hide RefusalSent, FinalSent;
  }

  lemma SentRefusal(s: Slot, now: nat, again: Deadline)
    requires s.server.status >= 300 && IsInvite(s) && s.state.Completed? && s.timer.TimerH?
    ensures var t := ServerSent(s, now, again);
      && t.state.Completed? && t.timer.TimerH?
      && t.due == (if s.due.Never? then At(now + TimerHMs(s.policy)) else s.due)
      && t.nextSend == if s.flags.reliable then Never
                       else At(now + ServerInviteDelay(s.policy, (s.sends + 1) % 256))
  {
    hide ServerInviteDelay, TimerHMs;
  }

  lemma CountMore(n: nat)
    ensures (n % 256 + 1) % 256 == (n + 1) % 256
  {
  }

  // What a response sent adds to the history
  lemma ReplyRefused(s: Slot, w: seq<Event>, now: nat, p: Policy)
    requires Serving(s, w, p) && Refused(w, p) && !s.state.Terminated?
    requires (s.server.status >= 300 ==> !TimerDue(s, now)) && Due(s.nextSend, now)
    ensures Refused(w + [Replied(s.gen, s.server.status, now)], p)
  {
    hide ServerInviteDelay, TimerHMs;
    EventMore(w, Replied(s.gen, s.server.status, now));
  }

  lemma ReplyServes(s: Slot, w: seq<Event>, now: nat, again: Deadline, p: Policy)
    requires Serving(s, w, p) && !s.state.Terminated?
    requires (s.server.status >= 300 ==> !TimerDue(s, now)) && Due(s.nextSend, now)
    ensures Serving(ServerSent(s, now, again), w + [Replied(s.gen, s.server.status, now)], p)
  {
    hide ServerInviteDelay, TimerHMs, ServerSent, Unacked, NoneAfterAck;
    EventMore(w, Replied(s.gen, s.server.status, now));
    SentCount(s, now, again);
    CountMore(|Replies(w)|);
    if s.server.status < 200 {
      SentEarly(s, now, again);
    } else if s.server.status >= 300 {
      SentRefusal(s, now, again);
    }
  }

  lemma ArmedServes(s: Slot, w: seq<Event>, now: nat, p: Policy)
    requires Serving(s, w, p) && !s.state.Terminated?
    ensures var a := ArmTimerL(s, now);
      && Serving(a, w, p) && a.nextSend == s.nextSend && a.gen == s.gen && a.server == s.server
      && a.state == s.state && (s.server.status < 200 || s.server.status >= 300 ==> a == s)
  {
  }

  lemma TurnServes(s: Slot, w: seq<Event>, m: Move, p: Policy)
    requires Serving(s, w, p) && Refused(w, p) && m.Turn?
    ensures var (t, ev) := Moved(s, m); Serving(t, w + ev, p) && Refused(w + ev, p)
  {
    hide Refused, ServerSent, ArmTimerL, StateOk, NoRefusals;
    var now := m.now;
    assert w + [] == w;
    if !TimerDue(s, now) && !s.state.Terminated? && Due(s.nextSend, now) {
      var a := ArmTimerL(s, now);
      ArmedServes(s, w, now, p);
      if m.ch.sendOk {
        ReplyRefused(a, w, now, p);
        ReplyServes(a, w, now, m.ch.again, p);
      }
    }
  }

  lemma MoveServes(s: Slot, w: seq<Event>, m: Move, p: Policy)
    requires Serving(s, w, p) && Refused(w, p) && Apt(s, m) && Undisturbed(s, m)
    ensures var (t, ev) := Moved(s, m); Serving(t, w + ev, p) && Refused(w + ev, p)
  {
    hide Refused, ServerSent, ServerConfirmed, Responded, ArmTimerL, AckSlot, Waiting, Unacked;
    assert w + [] == w;
    match m {
      case Turn(now, ch) => TurnServes(s, w, m, p);
      case AckIn(now) =>
        AckServes(s, w, now, p);
        AckRefused(s.gen, w, p);
      case Answer(code, noAck) => AnswerServes(s, w, code, noAck, p);
      case OwnerSet(o) => OwnerServes(s, w, o, p);
      case _ =>
    }
  }

  lemma AckServes(s: Slot, w: seq<Event>, now: nat, p: Policy)
    requires Serving(s, w, p) && (s.state.Completed? || s.state.Accepted?) && s.server.ackable
    ensures Serving(AckSlot(s, now), w + [Acked(s.gen)], p)
  {
    hide ServerInviteDelay, TimerHMs, Unacked;
    EventMore(w, Acked(s.gen));
  }

  lemma AnswerServes(s: Slot, w: seq<Event>, code: nat, noAck: bool, p: Policy)
    requires Serving(s, w, p) && !s.state.Terminated? && s.server.status < 200
    ensures Serving(Responded(s, code, noAck), w, p)
  {
    hide ServerInviteDelay, TimerHMs, Unacked;
  }

  lemma OwnerServes(s: Slot, w: seq<Event>, o: Option<nat>, p: Policy)
    requires Serving(s, w, p)
    ensures Serving(WithOwner(s, o), w, p)
  {
    hide ServerInviteDelay, TimerHMs, Unacked;
  }

  lemma AckRefused(g: nat, w: seq<Event>, p: Policy)
    requires Refused(w, p)
    ensures Refused(w + [Acked(g)], p)
  {
    EventMore(w, Acked(g));
  }

  // --- Any step, any run

  predicate InviteServed(tm: Tm, i: nat, g: nat, n: nat, p: Policy) {
    && Lone(tm, i, g) && n <= |tm.log| && Refused(Since(tm.log, n, g), p)
    && (Is(tm.slots[i], g) ==> Serving(tm.slots[i], Since(tm.log, n, g), p))
  }

  // No copy of the INVITE comes once it was refused, and nobody owns it then
  predicate LeftAlone(tm: Tm, st: Step, i: nat, g: nat) {
    i < |tm.slots| && Is(tm.slots[i], g) && tm.slots[i].server.status >= 300 ==>
      match st
      case Ask(q, _) => Classify(tm, q) != Repeated(i)
      case ResendAt(j, o, _) => j == i ==> !OwnedBy(tm, i, o)
      case _ => true
  }

  lemma AloneMove(tm: Tm, st: Step, i: nat, g: nat, m: Move)
    requires i < |tm.slots| && Is(tm.slots[i], g) && MoveIn(tm, st, i, m) && LeftAlone(tm, st, i, g)
    ensures Undisturbed(tm.slots[i], m)
  {
    hide Classify;
  }

  predicate LeftAloneRun(tm: Tm, steps: seq<Step>, i: nat, g: nat)
    decreases |steps|
  {
    steps != [] ==> LeftAlone(tm, steps[0], i, g) && LeftAloneRun(Apply(tm, steps[0]), steps[1..], i, g)
  }

  lemma {:induction false} RunServes(tm: Tm, steps: seq<Step>, i: nat, g: nat, n: nat, p: Policy)
    requires Inv(tm) && AllowedRun(tm, steps) && LeftAloneRun(tm, steps, i, g)
    requires InviteServed(tm, i, g, n, p)
    ensures InviteServed(Run(tm, steps), i, g, n, p)
    decreases |steps|
  {
    hide Inv, Apply, Allowed, LeftAlone, Serving, Refused, Since, MoveIn, Moved, Apt, Undisturbed;
    if steps != [] {
      var m := StepSince(tm, steps[0], i, g, n);
      if Is(tm.slots[i], g) {
        AloneMove(tm, steps[0], i, g, m);
        MoveServes(tm.slots[i], Since(tm.log, n, g), m, p);
      }
      RunServes(Apply(tm, steps[0]), steps[1..], i, g, n, p);
    }
  }

  // An INVITE just received
  predicate JustInvited(tm: Tm, i: nat) {
    && i < |tm.slots| && LiveServer(tm.slots[i]) && IsInvite(tm.slots[i])
    && tm.slots[i].state.Trying? && tm.slots[i].timer.NoTimer?
    && tm.slots[i].server.status == 0 && tm.slots[i].sends == 0
  }

  lemma InvitedServed(tm: Tm, i: nat)
    requires Inv(tm) && JustInvited(tm, i)
    ensures InviteServed(tm, i, tm.slots[i].gen, |tm.log|, tm.slots[i].policy)
  {
    hide Inv, Since;
    LoneNow(tm, i);
    SinceNow(tm.log, tm.slots[i].gen);
  }

  // After any run since an INVITE came, in which no copy of it comes once it
  // is refused: after the n-th response sent, if that is a refusal, the next
  // comes no sooner than T1 * 2^(n-1), or T2 if that is less, later; none
  // comes after the ACK, none once Timer H is over, counted from the first;
  // and while it waits, the next is due at just that time, if at all.
  lemma RefusalBacksOff(tm: Tm, steps: seq<Step>, i: nat)
    requires Inv(tm) && AllowedRun(tm, steps) && JustInvited(tm, i)
    requires LeftAloneRun(tm, steps, i, tm.slots[i].gen)
    ensures var t, g, p := Run(tm, steps), tm.slots[i].gen, tm.slots[i].policy;
      var w := Since(t.log, |tm.log|, g); var rs := Replies(w);
      && (forall k :: 0 <= k < |rs| - 1 && Refusal(rs[k]) ==>
            Refusal(rs[k + 1]) && rs[k + 1].at >= rs[k].at + ServerInviteDelay(p, (k + 1) % 256))
      && (forall j, k :: 0 <= j < k < |w| && w[j].Acked? ==> !Refusal(w[k]))
      && (forall j, k :: 0 <= j < k < |rs| && Refusal(rs[j]) && Refusal(rs[k]) ==>
            rs[k].at < rs[j].at + TimerHMs(p))
      && (Is(t.slots[i], g) && t.slots[i].state.Completed? && LastRefused(rs) ==>
            t.slots[i].policy == p && t.slots[i].nextSend == NextCopy(t.slots[i], rs))
  {
    hide Inv, AllowedRun, LeftAloneRun, Run, ServerInviteDelay, TimerHMs, Replies, Since, JustInvited;
    InvitedServed(tm, i);
    RunServes(tm, steps, i, tm.slots[i].gen, |tm.log|, tm.slots[i].policy);
  }

  // The first interval of a refusal, with n responses sent before it, is T1
  // exactly if n is 0, but for n wrapping in the 8 bits it is counted in.
  lemma FirstInterval(p: Policy, n: nat)
    requires 0 < p.t1 < p.t2
    ensures ServerInviteDelay(p, (n + 1) % 256) == p.t1 <==> n % 256 == 0 || n % 256 == 255
  {
    var m := (n + 1) % 256;
    assert Pow2(0) == 1 && Pow2(1) == 2;
    if 2 <= m < 32 {
      Pow2Grows(m - 1);
    }
  }

  lemma {:induction false} Pow2Grows(k: nat)
    requires k >= 1
    ensures Pow2(k) >= 2
  {
    if k > 1 {
      Pow2Grows(k - 1);
    }
  }

  // A request for an INVITE makes one
  lemma RequestInvites(tm: Tm, q: Req, from: Ident, timers: Policy, tag: nat, onCancel: bool,
                       noAck: bool, space: Space)
    requires q.verb.INVITE?
    ensures var (t, c, rc) := NewServer(tm, ServerSlot(tm.reliable, INVITE, from, timers, tag, onCancel, noAck),
                                        q, space);
            c.Some? ==> JustInvited(t, c.value)
  {
    hide AllocIndex, DropFamily, FamilySize;
  }

  // --- A refusal after a 100

  lemma DoubledFirst() returns (tm: Tm, s: Slot)
    ensures Reached(tm) && tm.slots == [s] && tm.clock == 0 && s.policy.t1 == 500
    ensures s.state.Completed? && s.server.status == 486 && s.nextSend == At(1000)
  {
    hide Reached;
    InviteReached();
    var t0 := Tm([Samples.Invited()], 1, false, 1, 0, []);
    var a := Responded(Samples.Invited(), 100, false);
    ReachedMore(t0, Respond(0, 100, false, true));
    var t1 := t0.(slots := [a]);
    assert Apply(t0, Respond(0, 100, false, true)) == t1;
    ReachedPass(t1, 0, Uneventful());
    var b := a.(sends := 1, nextSend := Never);
    var t2 := t1.(slots := [b], log := [Replied(0, 100, 0)]);
    assert RunSlot(t1, 0, 0, Uneventful()).tm == t2;
    tm, s := Refuse(t2, b);
  }

  lemma Refuse(t: Tm, b: Slot) returns (tm: Tm, s: Slot)
    requires Reached(t) && t.slots == [b] && t.clock == 0 && LiveServer(b) && IsInvite(b)
    requires b.state.Proceeding? && b.server.status == 100 && b.sends == 1 && b.policy == TIMERS
    requires !b.flags.reliable
    ensures Reached(tm) && tm.slots == [s] && tm.clock == 0 && s.policy.t1 == 500
    ensures s.state.Completed? && s.server.status == 486 && s.nextSend == At(1000)
  {
    hide Reached;
    ReachedMore(t, Respond(0, 486, false, true));
    var c := Responded(b, 486, false);
    var u := t.(slots := [c]);
    assert Apply(t, Respond(0, 486, false, true)) == u;
    ReachedPass(u, 0, Uneventful());
    tm := RunSlot(u, 0, 0, Uneventful()).tm.(clock := 0);
    s := ServerSent(c, 0, Never);
    SentRefusal(c, 0, Never);
    SentCount(c, 0, Never);
    assert ServerInviteDelay(TIMERS, 2) == 1000;
    assert tm.slots == [s];
  }
}
