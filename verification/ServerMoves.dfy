module ServerMoves {
  // One server INVITE among everything else that goes on: each step of the
  // transaction manager is one of a few moves of its slot, or does away with
  // it; and nothing but its moves adds to what it has on the wire.

  import opened Base
  import opened Slots
  import opened Table
  import opened ClientSteps
  import opened ServerSteps
  import opened Machine
  import opened History
  import opened HistoryKeeps
  import opened Runs
  import opened Frames
  import opened CleanupRuns
  import opened SendLog

  datatype Move =
    | Rest
    | Turn(now: nat, ch: Choice)
    | AckIn(at: nat)
    | RequestIn(when: nat)
    | Answer(code: nat, noAck: bool)
    | OwnerSet(owner: Option<nat>)
    | Resend(due: Deadline)

  // The slot after a move, and what the move adds to the history
  function Moved(s: Slot, m: Move): (Slot, seq<Event>) {
    match m
    case Rest => (s, [])
    case Turn(now, ch) =>
      if TimerDue(s, now) then (ServerTerminated(s), [])
      else if s.state.Terminated? || !Due(s.nextSend, now) then (s, [])
      else
        var a := ArmTimerL(s, now);
        if !ch.sendOk then (a, [])
        else (ServerSent(a, now, ch.again), [Replied(a.gen, a.server.status, now)])
    case AckIn(now) => (AckSlot(s, now), [Acked(s.gen)])
    case RequestIn(now) => (Again(s, now), [])
    case Answer(code, noAck) => (Responded(s, code, noAck), [])
    case OwnerSet(o) => (WithOwner(s, o), [])
    case Resend(d) => (s.(nextSend := d), [])
  }

  // When a move may happen
  predicate Apt(s: Slot, m: Move) {
    match m
    case AckIn(_) => (s.state.Completed? || s.state.Accepted?) && s.server.ackable
    case Answer(code, _) => !s.state.Terminated? && s.server.status < 200 && code >= 100
    case _ => true
  }

  // ... and in which step
  predicate MoveIn(tm: Tm, st: Step, i: nat, m: Move) {
    match m
    case Rest => true
    case Turn(now, ch) => st.PumpAt? && now == st.now && ch == st.ch(i)
    case AckIn(now) => st.Ask? && Classify(tm, st.q) == AckHeard(i) && now == st.when
    case RequestIn(now) => st.Ask? && Classify(tm, st.q) == Repeated(i) && now == st.when
    case Answer(code, noAck) => st.Respond? && st.i == i && code == st.code && noAck == st.wantsNoAck
    case OwnerSet(o) =>
      (st.Own? && st.invite == i && o == Some(st.owner))
      || (st.Disown? && st.held == i && o.None? && OwnedBy(tm, i, st.holder))
    case Resend(d) => st.ResendAt? && st.answered == i && d == st.due && OwnedBy(tm, i, st.whose)
  }

  // --- What one transaction has on the wire

  function Wire(log: seq<Event>, g: nat): seq<Event> {
    if log == [] then []
    else
      var n := |log| - 1;
      Wire(log[..n], g) + (if Traffic(log[n], g) then [log[n]] else [])
  }

  lemma WireMore(l: seq<Event>, e: Event, g: nat)
    ensures Wire(l + [e], g) == if Traffic(e, g) then Wire(l, g) + [e] else Wire(l, g)
  {
    assert (l + [e])[..|l|] == l;
  }

  lemma {:induction false} WireKept(l: seq<Event>, m: seq<Event>, g: nat)
    requires LogKept(l, m, g)
    ensures Wire(m, g) == Wire(l, g)
    decreases |m|
  {
    if |m| > |l| {
      var n := |m| - 1;
      assert l <= m[..n];
      WireKept(l, m[..n], g);
    } else {
      assert l == m;
    }
  }

  lemma {:induction false} WireSum(log: seq<Event>, n: nat, g: nat)
    requires n <= |log|
    ensures Wire(log, g) == Wire(log[..n], g) + Wire(log[n..], g)
    decreases |log|
  {
    if n == |log| {
      assert log[..n] == log && log[n..] == [];
    } else {
      var k := |log| - 1;
      WireSum(log[..k], n, g);
      assert log[..k][..n] == log[..n] && log[..k][n..] == log[n..][..k - n];
    }
  }

  // Since the log was n events long
  function Since(log: seq<Event>, n: nat, g: nat): seq<Event> {
    if n <= |log| then Wire(log[n..], g) else []
  }

  lemma SinceMore(l: seq<Event>, m: seq<Event>, n: nat, g: nat, ev: seq<Event>)
    requires l <= m && n <= |l| && Wire(m, g) == Wire(l, g) + ev
    ensures Since(m, n, g) == Since(l, n, g) + ev
  {
    hide Wire;
    WireSum(l, n, g);
    WireSum(m, n, g);
    assert l[..n] == m[..n];
    var a, b, c := Wire(l[..n], g), Wire(l[n..], g), Wire(m[n..], g);
    assert a + c == a + b + ev;
    assert c == (a + c)[|a|..] && b + ev == (a + b + ev)[|a|..];
  }

  lemma SinceNow(log: seq<Event>, g: nat)
    ensures Since(log, |log|, g) == []
  {
    assert log[|log|..] == [];
  }

  // --- One transaction

  predicate Is(s: Slot, g: nat) {
    s.active && s.gen == g
  }

  // Transaction g is that of slot i, or gone
  predicate Lone(tm: Tm, i: nat, g: nat) {
    && i < |tm.slots| && g < tm.gens
    && (forall j :: 0 <= j < |tm.slots| && j != i ==> !Is(tm.slots[j], g))
    && (Is(tm.slots[i], g) ==> LiveServer(tm.slots[i]) && IsInvite(tm.slots[i]))
  }

  lemma LoneNow(tm: Tm, i: nat)
    requires Inv(tm) && i < |tm.slots| && LiveServer(tm.slots[i]) && IsInvite(tm.slots[i])
    ensures Lone(tm, i, tm.slots[i].gen)
  {
  }

  // What became of it, once it moved by m
  predicate Went(tm: Tm, t: Tm, i: nat, g: nat, m: Move)
    requires i < |tm.slots|
  {
    && Lone(t, i, g) && tm.log <= t.log
    && (if Is(tm.slots[i], g)
        then
          && Wire(t.log, g) == Wire(tm.log, g) + Moved(tm.slots[i], m).1
          && (Is(t.slots[i], g) ==> t.slots[i] == Moved(tm.slots[i], m).0)
        else !Is(t.slots[i], g) && Wire(t.log, g) == Wire(tm.log, g))
  }

  lemma MovedSame(s: Slot, m: Move)
    requires Apt(s, m) && LiveServer(s) && IsInvite(s)
    ensures var t := Moved(s, m).0; LiveServer(t) && IsInvite(t) && t.gen == s.gen
  {
    hide AckSlot, ServerSent, ArmTimerL, Responded, ServerTerminated;
    match m {
      case Turn(now, ch) =>
        ArmLOnward(s, now);
        ServerSentSame(ArmTimerL(s, now), now, ch.again);
        ServerStopsOnward(s);
      case AckIn(now) => AckSlotSame(s, now);
      case Answer(code, noAck) => AnswerSame(s, code, noAck);
      case _ =>
    }
  }

  lemma AnswerSame(s: Slot, code: nat, noAck: bool)
    ensures var t := Responded(s, code, noAck);
      t.active == s.active && t.role == s.role && t.gen == s.gen && t.verb == s.verb
  {
  }

  // --- Steps about something else

  lemma AsideGoes(tm: Tm, t: Tm, i: nat, x: nat, g: nat)
    requires Inv(tm) && Lone(tm, i, g) && Keeps(tm, t, x) && LogKept(tm.log, t.log, g)
    requires x == i ==> !Is(tm.slots[i], g)
    ensures Went(tm, t, i, g, Rest)
  {
    hide Inv;
    WireKept(tm.log, t.log, g);
    if Is(tm.slots[i], g) {
      OfSlot(tm, i);
      KeepsStays(tm, t, x, i);
    }
  }

  // --- The turn of its slot

  // One event of its own, or none, and its slot changed
  lemma PutGoes(tm: Tm, t: Tm, i: nat, g: nat, m: Move)
    requires Lone(tm, i, g) && Is(tm.slots[i], g) && Apt(tm.slots[i], m)
    requires t.slots == tm.slots[i := Moved(tm.slots[i], m).0] && t.gens == tm.gens
    requires t.log == tm.log + Moved(tm.slots[i], m).1
    ensures Went(tm, t, i, g, m)
  {
    hide Moved, Apt;
    MovedSame(tm.slots[i], m);
    MovedWire(tm.slots[i], m);
    var ev := Moved(tm.slots[i], m).1;
    if ev != [] {
      WireMore(tm.log, ev[0], g);
      assert tm.log + ev == tm.log + [ev[0]];
    } else {
      assert tm.log + ev == tm.log;
    }
  }

  lemma MovedWire(s: Slot, m: Move)
    ensures var ev := Moved(s, m).1; |ev| <= 1 && (|ev| == 1 ==> Traffic(ev[0], s.gen))
  {
    hide ServerSent;
  }

  lemma HangUpGoes(tm: Tm, i: nat, now: nat, ch: Choice, g: nat)
    requires Inv(tm) && Lone(tm, i, g) && Is(tm.slots[i], g) && TimerDue(tm.slots[i], now)
    ensures Went(tm, RunSlot(tm, i, now, ch).tm, i, g, Turn(now, ch))
  {
    hide Inv, ServerTerminated, ClientSlot, NewSlot, Keeps;
    var s := tm.slots[i];
    var t := Put(tm, i, ServerTerminated(s));
    var r := RunSlot(tm, i, now, ch);
    PutGoes(tm, t, i, g, Turn(now, ch));
    if s.timer.TimerL? && s.server.owner.Some? && ch.hangup.Some? {
      var b := ClientSlot(tm.reliable, BYE, ch.hangup.value, s.policy, 0, false, false, false);
      ServerStopsInv(tm, i);
      ClientFresh(tm, BYE, ch.hangup.value, s.policy, 0, false, false, false);
      NewSlotOnwards(t, b, ch.hangupSlot);
      NewSlotLog(t, b, ch.hangupSlot);
      NewSlotGens(t, b, ch.hangupSlot);
    }
  }

  lemma NewSlotGens(tm: Tm, s: Slot, space: Space)
    ensures NewSlot(tm, s, space).0.gens >= tm.gens
  {
    hide AllocIndex, DropFamily, FamilySize;
  }

  lemma OwnTurnGoes(tm: Tm, i: nat, now: nat, ch: Choice, g: nat)
    requires Inv(tm) && Lone(tm, i, g) && Is(tm.slots[i], g)
    ensures Went(tm, RunSlot(tm, i, now, ch).tm, i, g, Turn(now, ch))
  {
    hide Inv, ServerTerminated, ServerSent, ArmTimerL, ServerWake, Went;
    if TimerDue(tm.slots[i], now) {
      HangUpGoes(tm, i, now, ch, g);
    } else {
      PutGoes(tm, RunSlot(tm, i, now, ch).tm, i, g, Turn(now, ch));
    }
  }

  lemma OtherTurnGoes(tm: Tm, k: nat, now: nat, ch: Choice, i: nat, g: nat)
    requires Inv(tm) && k < |tm.slots| && Lone(tm, i, g) && (k == i ==> !Is(tm.slots[i], g))
    ensures Went(tm, RunSlot(tm, k, now, ch).tm, i, g, Rest)
  {
    hide Inv, RunSlot, Keeps, LogKept, Went;
    RunSlotKeeps(tm, k, now, ch);
    RunSlotLog(tm, k, now, ch, g);
    AsideGoes(tm, RunSlot(tm, k, now, ch).tm, i, k, g);
  }

  // Two in a row, of which one at most is a move
  lemma WentOn(tm: Tm, t: Tm, u: Tm, i: nat, g: nat, m: Move)
    requires Lone(tm, i, g)
    requires (Went(tm, t, i, g, m) && Went(t, u, i, g, Rest))
             || (Went(tm, t, i, g, Rest) && Went(t, u, i, g, m) && (Is(tm.slots[i], g) ==> Is(t.slots[i], g)))
    ensures Went(tm, u, i, g, m)
  {
    hide Wire, Moved;
    MovedRest(tm.slots[i]);
    MovedRest(t.slots[i]);
  }

  lemma MovedRest(s: Slot)
    ensures Moved(s, Rest) == (s, [])
  {
  }

  lemma {:induction false} PassRests(tm: Tm, k: nat, now: nat, ch: nat -> Choice, next: Deadline,
                                     i: nat, g: nat)
    requires Inv(tm) && k <= |tm.slots| && Lone(tm, i, g) && (k <= i ==> !Is(tm.slots[i], g))
    ensures Went(tm, PumpFrom(tm, k, now, ch, next).tm, i, g, Rest)
    decreases |tm.slots| - k
  {
    hide Inv, RunSlot, Went, Wire;
    WentNowhere(tm, i, g);
    if k < |tm.slots| {
      var r := RunSlot(tm, k, now, ch(k));
      RunSlotInv(tm, k, now, ch(k));
      OtherTurnGoes(tm, k, now, ch(k), i, g);
      WentParts(tm, r.tm, i, g, Rest);
      if r.rc == Ok {
        PassRests(r.tm, k + 1, now, ch, Earliest(next, r.next), i, g);
        WentOn(tm, r.tm, PumpFrom(r.tm, k + 1, now, ch, Earliest(next, r.next)).tm, i, g, Rest);
      }
    }
  }

  lemma WentNowhere(tm: Tm, i: nat, g: nat)
    requires Lone(tm, i, g)
    ensures Went(tm, tm, i, g, Rest)
  {
  }

  lemma WentParts(tm: Tm, t: Tm, i: nat, g: nat, m: Move)
    requires Lone(tm, i, g) && Went(tm, t, i, g, m)
    ensures Lone(t, i, g) && tm.log <= t.log
    ensures !Is(tm.slots[i], g) ==> !Is(t.slots[i], g)
  {
  }

  lemma {:induction false} PassGoes(tm: Tm, k: nat, now: nat, ch: nat -> Choice, next: Deadline,
                                    i: nat, g: nat) returns (m: Move)
    requires Inv(tm) && k <= i < |tm.slots| && Lone(tm, i, g)
    ensures Went(tm, PumpFrom(tm, k, now, ch, next).tm, i, g, m)
    ensures m == Rest || m == Turn(now, ch(i))
    decreases |tm.slots| - k
  {
    hide Inv, RunSlot, Went, Wire;
    var r := RunSlot(tm, k, now, ch(k));
    RunSlotInv(tm, k, now, ch(k));
    var end := PumpFrom(r.tm, k + 1, now, ch, Earliest(next, r.next)).tm;
    if !Is(tm.slots[i], g) {
      m := Rest;
      PassRests(tm, k, now, ch, next, i, g);
    } else if k == i {
      m := Turn(now, ch(i));
      OwnTurnGoes(tm, i, now, ch(i), g);
      WentParts(tm, r.tm, i, g, m);
      if r.rc == Ok {
        PassRests(r.tm, k + 1, now, ch, Earliest(next, r.next), i, g);
        WentOn(tm, r.tm, end, i, g, m);
      }
    } else {
      m := Rest;
      OtherTurnGoes(tm, k, now, ch(k), i, g);
      WentParts(tm, r.tm, i, g, Rest);
      if r.rc == Ok {
        if Is(r.tm.slots[i], g) {
          m := PassGoes(r.tm, k + 1, now, ch, Earliest(next, r.next), i, g);
        } else {
          PassRests(r.tm, k + 1, now, ch, Earliest(next, r.next), i, g);
        }
        WentOn(tm, r.tm, end, i, g, m);
      }
    }
  }

  // --- Any step

  lemma ClockGoes(tm: Tm, t: Tm, i: nat, g: nat, m: Move, now: nat)
    requires i < |tm.slots| && Went(tm, t, i, g, m)
    ensures Went(tm, t.(clock := now), i, g, m)
  {
  }

  lemma AskGoes(tm: Tm, q: Req, now: nat, i: nat, g: nat) returns (m: Move)
    requires Inv(tm) && Lone(tm, i, g) && Is(tm.slots[i], g) && Subject(tm, Ask(q, now)) == i
    ensures Went(tm, Apply(tm, Ask(q, now)), i, g, m)
    ensures Apt(tm.slots[i], m) && MoveIn(tm, Ask(q, now), i, m)
  {
    hide Inv, Classify, AckSlot, Again, Went;
    match Classify(tm, q) {
      case AckHeard(j) => m := AckIn(now);
      case _ => m := RequestIn(now);
    }
    PutGoes(tm, Request(tm, q, now), i, g, m);
    ClockGoes(tm, Request(tm, q, now), i, g, m, now);
  }

  lemma OwnStepGoes(tm: Tm, st: Step, i: nat, g: nat) returns (m: Move)
    requires Inv(tm) && Allowed(tm, st) && Lone(tm, i, g) && Is(tm.slots[i], g)
    requires Subject(tm, st) == i && !st.PumpAt? && !st.DropTx?
    ensures Went(tm, Apply(tm, st), i, g, m)
    ensures Apt(tm.slots[i], m) && MoveIn(tm, st, i, m)
  {
    hide Inv, AckSlot, Again, Request, Receive, CancelTx, NextTx, Responded, Went, Wire, Classify;
    m := Rest;
    var s := tm.slots[i];
    match st {
      case Ask(q, now) =>
        m := AskGoes(tm, q, now, i, g);
        return;
      case Own(_, o) => m := OwnerSet(Some(o));
      case Disown(_, o) => m := if OwnedBy(tm, i, o) then OwnerSet(None) else Rest;
      case ResendAt(_, o, d) => m := if OwnedBy(tm, i, o) then Resend(d) else Rest;
      case Respond(j, code, noAck, fits) =>
        m := if SendResponse(tm, j, code, noAck, fits).1 == Ok then Answer(code, noAck) else Rest;
      case _ =>
    }
    assert tm.slots[i := s] == tm.slots && tm.log + [] == tm.log;
    PutGoes(tm, Apply(tm, st), i, g, m);
  }

  lemma DropGoes(tm: Tm, i: nat, g: nat)
    requires Inv(tm) && Allowed(tm, DropTx(i)) && Lone(tm, i, g) && Is(tm.slots[i], g)
    ensures Went(tm, Apply(tm, DropTx(i)), i, g, Rest)
  {
    hide Inv, Keeps;
    StepKeeps(tm, DropTx(i));
    DropLone(tm, Drop(tm, i), i, g);
    assert Drop(tm, i).slots[i] == DroppedAt(tm.slots, i, i);
  }

  lemma DropLone(tm: Tm, t: Tm, i: nat, g: nat)
    requires Lone(tm, i, g) && Keeps(tm, t, i)
    ensures g < t.gens && forall j :: 0 <= j < |t.slots| && j != i ==> !Is(t.slots[j], g)
  {
  }

  lemma OtherAck(tm: Tm, st: Step, i: nat, g: nat)
    requires Lone(tm, i, g) && !(Is(tm.slots[i], g) && Subject(tm, st) == i)
    ensures st.Ask? ==> !AckOfGen(tm, st.q, g)
  {
    hide Classify;
    forall j | 0 <= j < |tm.slots| && Is(tm.slots[j], g) ensures j == i {
    }
  }

  // Every step is a move, if the transaction is still there
  lemma StepGoes(tm: Tm, st: Step, i: nat, g: nat) returns (m: Move)
    requires Inv(tm) && Allowed(tm, st) && Lone(tm, i, g)
    ensures Went(tm, Apply(tm, st), i, g, m)
    ensures Is(tm.slots[i], g) ==> Apt(tm.slots[i], m) && MoveIn(tm, st, i, m)
  {
    hide Inv, Apply, Went, Keeps, LogKept, Allowed;
    if st.PumpAt? {
      m := PassGoes(tm, 0, st.now, st.ch, Never, i, g);
      PumpClock(tm, st);
      ClockGoes(tm, Pump(tm, st.now, st.ch).tm, i, g, m, st.now);
    } else if Is(tm.slots[i], g) && Subject(tm, st) == i {
      if st.DropTx? {
        m := Rest;
        DropGoes(tm, i, g);
      } else {
        m := OwnStepGoes(tm, st, i, g);
      }
    } else {
      m := Rest;
      StepKeeps(tm, st);
      OtherAck(tm, st, i, g);
      StepLog(tm, st, g);
      AsideGoes(tm, Apply(tm, st), i, Subject(tm, st), g);
    }
  }

  lemma PumpClock(tm: Tm, st: Step)
    requires st.PumpAt?
    ensures Apply(tm, st) == PumpFrom(tm, 0, st.now, st.ch, Never).tm.(clock := st.now)
    ensures Pump(tm, st.now, st.ch) == PumpFrom(tm, 0, st.now, st.ch, Never)
  {
  }

  // ... and moves of no other kind since the log was n events long
  lemma StepSince(tm: Tm, st: Step, i: nat, g: nat, n: nat) returns (m: Move)
    requires Inv(tm) && Allowed(tm, st) && Lone(tm, i, g) && n <= |tm.log|
    ensures var t := Apply(tm, st);
      && Inv(t) && Lone(t, i, g) && n <= |t.log|
      && (if Is(tm.slots[i], g)
          then
            && Apt(tm.slots[i], m) && MoveIn(tm, st, i, m)
            && Since(t.log, n, g) == Since(tm.log, n, g) + Moved(tm.slots[i], m).1
            && (Is(t.slots[i], g) ==> t.slots[i] == Moved(tm.slots[i], m).0)
          else !Is(t.slots[i], g) && Since(t.log, n, g) == Since(tm.log, n, g))
  {
    hide Inv, Apply, Allowed, Wire, Moved, Since, MoveIn, Apt;
    ApplyInv(tm, st);
    m := StepGoes(tm, st, i, g);
    if Is(tm.slots[i], g) {
      SinceMore(tm.log, Apply(tm, st).log, n, g, Moved(tm.slots[i], m).1);
    } else {
      SinceMore(tm.log, Apply(tm, st).log, n, g, []);
    }
  }

  // --- Runs in two parts

  lemma {:induction false} RunSplit(tm: Tm, steps: seq<Step>, k: nat)
    requires AllowedRun(tm, steps) && k <= |steps|
    ensures AllowedRun(tm, steps[..k]) && AllowedRun(Run(tm, steps[..k]), steps[k..])
    ensures Run(tm, steps) == Run(Run(tm, steps[..k]), steps[k..])
    decreases k
  {
    hide Apply, Allowed;
    if k == 0 {
      assert steps[..0] == [] && steps[0..] == steps;
    } else {
      RunSplit(Apply(tm, steps[0]), steps[1..], k - 1);
      assert steps[..k][1..] == steps[1..][..k - 1] && steps[..k][0] == steps[0];
      assert steps[1..][k - 1..] == steps[k..];
    }
  }
}
