module CleanupRuns {
  // The cleanup of an abandoned INVITE over whole runs: whatever else goes on
  // in the table, it goes forward, and ends in bounded time.

  import opened Base
  import opened Slots
  import opened Table
  import opened ClientSteps
  import opened ServerSteps
  import opened Machine
  import opened Links
  import opened History
  import opened HistoryKeeps
  import opened AbandonKeeps
  import opened Runs
  import opened Frames
  import opened Cleanup
  import opened CleanupHears
  import opened CleanupRoom

  // --- Steps that are about something else

  // What a step about other transactions does to slot i
  predicate Stays(tm: Tm, t: Tm, i: nat) {
    && i < |tm.slots| == |t.slots| && t.gens >= tm.gens
    && (t.slots[i].active ==>
          (tm.slots[i].active && t.slots[i].gen == tm.slots[i].gen) || t.slots[i].gen >= tm.gens)
    && KeptAt(tm.slots[i], t.slots[i], tm.gens)
  }

  lemma KeepsStays(tm: Tm, t: Tm, x: nat, i: nat)
    requires Keeps(tm, t, x) && i < |tm.slots| && i != x
    ensures Stays(tm, t, i)
  {
  }

  lemma StaysTrans(tm: Tm, t: Tm, u: Tm, i: nat)
    requires Stays(tm, t, i) && Stays(t, u, i)
    ensures Stays(tm, u, i)
  {
  }

  lemma ForwardStays(s: Slot, tm: Tm, t: Tm, i: nat, now: nat)
    requires Cleaning(s) && Stays(tm, t, i) && s.gen < tm.gens && Forward(s, tm.slots[i], now)
    ensures Forward(s, t.slots[i], now)
  {
    hide Over, PhaseNo, PhaseDeadline, Bound;
    if t.slots[i].active && t.slots[i].gen == s.gen {
      assert Standing(tm.slots[i]) by {
        assert Over(tm.slots[i]) || Cleaning(tm.slots[i]);
        OverFacts(tm.slots[i]);
      }
    }
  }

  lemma OverFacts(s: Slot)
    ensures Over(s) ==> LiveClient(s) && s.invite.Some? && s.parent.None? && s.state.Terminated?
  {
  }

  lemma SelfForward(s: Slot, now: nat)
    requires Cleaning(s) && Armed(s)
    ensures Forward(s, s, now)
  {
  }

  lemma SameForward(tm: Tm, t: Tm, i: nat, now: nat)
    requires Inv(tm) && Stays(tm, t, i) && Cleaning(tm.slots[i]) && Armed(tm.slots[i])
    ensures Forward(tm.slots[i], t.slots[i], now)
  {
    hide Inv, Forward;
    OfSlot(tm, i);
    SelfForward(tm.slots[i], now);
    ForwardStays(tm.slots[i], tm, t, i, now);
  }

  // --- The pump

  lemma {:induction false} PumpFromStays(tm: Tm, k: nat, now: nat, ch: nat -> Choice,
                                         next: Deadline, i: nat)
    requires Inv(tm) && i < k <= |tm.slots|
    ensures Stays(tm, PumpFrom(tm, k, now, ch, next).tm, i)
    decreases |tm.slots| - k
  {
    hide Inv, RunSlot, Stays, Keeps;
    KeepsSelf(tm, k);
    if k == |tm.slots| {
      KeepsStays(tm, tm, k, i);
    } else {
      RunSlotKeeps(tm, k, now, ch(k));
      RunSlotInv(tm, k, now, ch(k));
      var r := RunSlot(tm, k, now, ch(k));
      KeepsStays(tm, r.tm, k, i);
      if r.rc == Ok {
        PumpFromStays(r.tm, k + 1, now, ch, Earliest(next, r.next), i);
        StaysTrans(tm, r.tm, PumpFrom(r.tm, k + 1, now, ch, Earliest(next, r.next)).tm, i);
      }
    }
  }

  // After a pass that got to slot i: over if it was time, and with its
  // deadline set if not
  predicate Served(s: Slot, u: Slot, now: nat)
    requires Cleaning(s)
  {
    u.active && u.gen == s.gen ==>
      Over(u) || (!Due(PhaseDeadline(s), now) && Cleaning(u) && PhaseDeadline(u).At?)
  }

  lemma RunServes(tm: Tm, i: nat, now: nat, ch: Choice)
    requires Inv(tm) && i < |tm.slots| && Cleaning(tm.slots[i]) && Armed(tm.slots[i])
    ensures var u := RunSlot(tm, i, now, ch).tm.slots[i];
            Forward(tm.slots[i], u, now) && Served(tm.slots[i], u, now)
  {
    hide Inv, Forward, ClientRun, Over, Armed, PhaseNo, PhaseDeadline, InPhase;
    ClientRunCleans(tm, i, now, ch);
  }

  lemma ServedStays(s: Slot, tm: Tm, t: Tm, i: nat, now: nat)
    requires Cleaning(s) && Stays(tm, t, i) && s.gen < tm.gens && Served(s, tm.slots[i], now)
    ensures Served(s, t.slots[i], now)
  {
    hide PhaseNo, PhaseDeadline, InPhase;
  }

  lemma {:induction false} PumpFromForward(tm: Tm, k: nat, now: nat, ch: nat -> Choice,
                                           next: Deadline, i: nat, s: Slot)
    requires Inv(tm) && k <= i < |tm.slots| && Cleaning(s) && Armed(s) && s.gen < tm.gens
    requires tm.slots[i] == s
    ensures var r := PumpFrom(tm, k, now, ch, next);
            Forward(s, r.tm.slots[i], now) && (r.rc == Ok ==> Served(s, r.tm.slots[i], now))
    decreases i - k
  {
    hide Inv, RunSlot, Stays, Keeps, Forward, Served, Cleaning, Armed;
    var r := RunSlot(tm, k, now, ch(k));
    RunSlotInv(tm, k, now, ch(k));
    if k == i {
      RunServes(tm, i, now, ch(k));
      if r.rc == Ok {
        RunSlotKeeps(tm, k, now, ch(k));
        var t := PumpFrom(r.tm, k + 1, now, ch, Earliest(next, r.next)).tm;
        PumpFromStays(r.tm, k + 1, now, ch, Earliest(next, r.next), i);
        GensGrow(tm, r.tm, k);
        ForwardStays(s, r.tm, t, i, now);
        ServedStays(s, r.tm, t, i, now);
      }
    } else {
      RunSlotKeeps(tm, k, now, ch(k));
      KeepsStays(tm, r.tm, k, i);
      GensGrow(tm, r.tm, k);
      StaysPinned(tm, r.tm, i);
      SelfForward(s, now);
      if r.rc == Ok {
        PumpFromForward(r.tm, k + 1, now, ch, Earliest(next, r.next), i, s);
      }
    }
  }

  lemma GensGrow(tm: Tm, t: Tm, x: nat)
    requires Keeps(tm, t, x)
    ensures t.gens >= tm.gens && |t.slots| == |tm.slots|
  {
  }

  lemma StaysPinned(tm: Tm, t: Tm, i: nat)
    requires Stays(tm, t, i) && Cleaning(tm.slots[i])
    ensures t.slots[i] == tm.slots[i]
  {
    CleaningIsPinned(tm.slots[i]);
  }

  // --- The other steps

  lemma DropKeepsOthers(tm: Tm, j: nat, x: nat)
    requires Inv(tm) && j < |tm.slots| && tm.slots[j].active && tm.slots[j].parent.None?
    requires j == x || tm.slots[j].state.Terminated?
    ensures Keeps(tm, Drop(tm, j), x)
  {
    hide Inv, Drop;
    DropInv(tm, j);
    DropSame(tm, j);
    OfSlot(tm, j);
    forall k | 0 <= k < |tm.slots|
      ensures Drop(tm, j).slots[k] == tm.slots[k] || Drop(tm, j).slots[k] == EMPTY
    {
      DroppedIsNoInvite(tm, j, k);
    }
    forall k | 0 <= k < |tm.slots| && k != x
      ensures KeptAt(tm.slots[k], Drop(tm, j).slots[k], tm.gens)
    {
      OfSlot(tm, k);
      DroppedIsNoInvite(tm, j, k);
    }
  }

  lemma DropSame(tm: Tm, j: nat)
    requires j < |tm.slots|
    ensures Drop(tm, j).gens == tm.gens
  {
  }

  lemma DroppedIsNoInvite(tm: Tm, j: nat, k: nat)
    requires Inv(tm) && j < |tm.slots| && tm.slots[j].active && tm.slots[j].parent.None?
    requires k < |tm.slots|
    ensures var d := Drop(tm, j).slots[k];
      d == tm.slots[k] || (d == EMPTY && (k == j || tm.slots[k].parent.Some?))
  {
    DropExact(tm, j, k);
  }

  lemma {:induction false} ReapKeeps(tm: Tm, k: nat, x: nat)
    requires Inv(tm) && k <= |tm.slots|
    ensures Keeps(tm, ReapFrom(tm, k), x)
    decreases |tm.slots| - k
  {
    hide Inv, Drop, Keeps;
    KeepsSelf(tm, x);
    if k < |tm.slots| {
      OfSlot(tm, k);
      if tm.slots[k].active && tm.slots[k].state.Terminated? {
        DropInv(tm, k);
        DropKeepsOthers(tm, k, x);
        ReapKeeps(Drop(tm, k), k + 1, x);
        KeepsTrans(tm, Drop(tm, k), ReapFrom(Drop(tm, k), k + 1), x);
      } else {
        ReapKeeps(tm, k + 1, x);
      }
    }
  }

  lemma CancelKeeps(tm: Tm, j: nat, space: Space)
    requires Inv(tm) && (j < |tm.slots| && tm.slots[j].active ==> tm.slots[j].role.Client?)
    ensures Keeps(tm, CancelTx(tm, j, space).0, j)
  {
    hide Inv, Keeps, Abandon;
    KeepsSelf(tm, j);
    if CancelTx(tm, j, space).1 == Ok {
      var s := tm.slots[j];
      var c := s.(invite := Some(s.invite.value.(appCancelled := true)));
      PutKeeps(tm, j, c);
      MarkCancelled(tm, j);
      if !s.flags.abandoned {
        var t := Put(tm, j, c);
        AbandonKeepsPinned(t, j, space);
        KeepsTrans(tm, t, Abandon(t, j, space), j);
        NoteMore(tm, Abandon(t, j, space), j, Detached(s.gen));
      }
    }
  }

  lemma NewServerKeeps(tm: Tm, q: Req, from: Ident, timers: Policy, tag: nat,
                       onCancel: bool, noAck: bool, space: Space, x: nat)
    requires Inv(tm)
    ensures Keeps(tm, NewServer(tm, ServerSlot(tm.reliable, q.verb, from, timers, tag, onCancel, noAck),
                                q, space).0, x)
  {
    hide Inv, Keeps;
    var s := ServerSlot(tm.reliable, q.verb, from, timers, tag, onCancel, noAck);
    KeepsSelf(tm, x);
    if !q.verb.ACK? {
      assert Fresh(s, tm.gens) && Unborn(s);
      NewSlotKeepsPinned(tm, s, space, x);
    }
  }

  // The server transaction a request is about
  function Asked(tm: Tm, q: Req): nat {
    match Classify(tm, q)
    case AckHeard(j) => j
    case Repeated(j) => j
    case _ => |tm.slots|
  }

  lemma RequestKeeps(tm: Tm, q: Req, now: nat)
    requires Inv(tm)
    ensures Keeps(tm, Request(tm, q, now), Asked(tm, q))
  {
    hide Inv, Classify, Keeps, AckSlot;
    KeepsSelf(tm, |tm.slots|);
    match Classify(tm, q) {
      case AckHeard(j) =>
        AckSlotSame(tm.slots[j], now);
        ServerPutKeeps(tm, j, AckSlot(tm.slots[j], now));
        NoteMore(tm, Put(tm, j, AckSlot(tm.slots[j], now)), j, Acked(tm.slots[j].gen));
      case Repeated(j) =>
        ServerPutKeeps(tm, j, Again(tm.slots[j], now));
      case _ =>
    }
  }

  lemma ServerPutKeeps(tm: Tm, j: nat, s: Slot)
    requires j < |tm.slots| && LiveServer(tm.slots[j]) && Onward(tm.slots[j], s)
    ensures Keeps(tm, Put(tm, j, s), j)
  {
  }

  lemma RespondKeeps(tm: Tm, j: nat, code: nat, noAck: bool, fits: bool)
    requires j < |tm.slots| && (tm.slots[j].active ==> tm.slots[j].role.Server?)
    ensures Keeps(tm, SendResponse(tm, j, code, noAck, fits).0, j)
  {
    hide Keeps;
    KeepsSelf(tm, j);
    if SendResponse(tm, j, code, noAck, fits).1 == Ok {
      ServerPutKeeps(tm, j, Responded(tm.slots[j], code, noAck));
    }
  }

  lemma RespondIdle(tm: Tm, j: nat, code: nat, noAck: bool, fits: bool)
    requires j < |tm.slots| && !tm.slots[j].active
    ensures SendResponse(tm, j, code, noAck, fits).0 == tm
  {
  }

  lemma OwnershipKeeps(tm: Tm, j: nat, o: Option<nat>, at: Deadline)
    requires j < |tm.slots| && LiveServer(tm.slots[j])
    ensures Keeps(tm, Put(tm, j, WithOwner(tm.slots[j], o)), j)
    ensures Keeps(tm, Put(tm, j, tm.slots[j].(nextSend := at)), j)
  {
    hide Keeps;
    ServerPutKeeps(tm, j, WithOwner(tm.slots[j], o));
    ServerPutKeeps(tm, j, tm.slots[j].(nextSend := at));
  }

  lemma ClockKeeps(tm: Tm, t: Tm, now: nat, x: nat)
    requires Keeps(tm, t, x)
    ensures Keeps(tm, t.(clock := now), x)
  {
  }

  function ServerAt(tm: Tm, j: nat): nat {
    if j < |tm.slots| && LiveServer(tm.slots[j]) then j else |tm.slots|
  }

  // The slot a step is about
  function Subject(tm: Tm, st: Step): nat {
    match st
    case Hear(r, _, _, _) => var f := FindFrom(tm.slots, r, 0); if f.Some? then f.value else |tm.slots|
    case Cancel(j, _) => j
    case Next(j, _) => j
    case DropTx(j) => j
    case Ask(q, _) => Asked(tm, q)
    case Respond(j, _, _, _) => ServerAt(tm, j)
    case Own(j, _) => ServerAt(tm, j)
    case Disown(j, _) => ServerAt(tm, j)
    case ResendAt(j, _, _) => ServerAt(tm, j)
    case _ => |tm.slots|
  }

  lemma StepKeeps(tm: Tm, st: Step)
    requires Inv(tm) && Allowed(tm, st) && !st.PumpAt?
    ensures Keeps(tm, Apply(tm, st), Subject(tm, st))
  {
    hide Inv, Receive, Request, NewSlot, ClientSlot, ServerSlot, NewServer, SendResponse,
         CancelTx, NextTx, Drop, Keeps;
    var x := Subject(tm, st);
    KeepsSelf(tm, x);
    match st {
      case PumpAt(_, _) =>
      case Hear(r, now, room, react) =>
        ReceiveKeepsPinned(tm, r, now, room, react);
        ClockKeeps(tm, Receive(tm, r, now, room, react).0, now, x);
      case Ask(q, now) =>
        RequestKeeps(tm, q, now);
        ClockKeeps(tm, Request(tm, q, now), now, x);
      case NewClient(verb, ident, policy, expires, onR, onT, built, space) =>
        ClientFresh(tm, verb, ident, policy, expires, onR, onT, built);
        NewSlotKeepsPinned(tm, ClientSlot(tm.reliable, verb, ident, policy, expires, onR, onT, built),
                           space, x);
      case NewServerTx(q, from, timers, tag, onCancel, noAck, slot) =>
        NewServerKeeps(tm, q, from, timers, tag, onCancel, noAck, slot, x);
      case Respond(j, code, noAck, fits) =>
        RespondKeeps(tm, j, code, noAck, fits);
        if !tm.slots[j].active {
          RespondIdle(tm, j, code, noAck, fits);
        }
      case Cancel(j, space) =>
        CancelKeeps(tm, j, space);
      case Next(j, b) =>
        NextKeeps(tm, j, b);
      case DropTx(j) =>
        if j < |tm.slots| && tm.slots[j].active {
          DropKeepsOthers(tm, j, j);
        }
      case ReapAll =>
        ReapKeeps(tm, 0, x);
      case Own(j, o) =>
        if j < |tm.slots| && LiveServer(tm.slots[j]) {
          OwnershipKeeps(tm, j, Some(o), Never);
        }
      case Disown(j, o) =>
        if OwnedBy(tm, j, o) {
          OwnershipKeeps(tm, j, None, Never);
        }
      case ResendAt(j, o, d) =>
        if OwnedBy(tm, j, o) {
          OwnershipKeeps(tm, j, None, d);
        }
    }
  }

  // --- Any step

  // When a step happens, if it looks at the clock
  function TimeOf(tm: Tm, st: Step): nat {
    match st
    case PumpAt(now, _) => now
    case Hear(_, now, _, _) => now
    case Ask(_, now) => now
    case _ => tm.clock
  }

  // The first final response to transaction i, if that is what the step is,
  // finds the room for its ACK and BYE
  predicate Roomy(tm: Tm, st: Step, i: nat) {
    st.Hear? && FindFrom(tm.slots, st.r, 0) == Some(i) ==>
      tm.slots[i].finalReported || HasRoom(tm.slots, i, st.r, st.room)
  }

  lemma AppCancelForward(s: Slot, now: nat)
    requires Cleaning(s) && Armed(s)
    ensures Forward(s, s.(invite := Some(s.invite.value.(appCancelled := true))), now)
  {
  }

  // Whatever happens, the cleanup stays in its phase with its deadline, goes
  // to a later phase, or is over: unless there is no room, and then never
  lemma CleanupAdvances(tm: Tm, st: Step, i: nat)
    requires Inv(tm) && Allowed(tm, st) && i < |tm.slots|
    requires Cleaning(tm.slots[i]) && Armed(tm.slots[i])
    ensures Forward(tm.slots[i], Apply(tm, st).slots[i], TimeOf(tm, st)) <==> Roomy(tm, st, i)
  {
    hide Inv, Pump, Receive, Request, NewSlot, ClientSlot, ServerSlot, NewServer, SendResponse,
         Drop, Keeps, Forward, Armed, PhaseNo, PhaseDeadline, InPhase;
    var now := TimeOf(tm, st);
    if st.PumpAt? {
      PumpForward(tm, st.now, st.ch, i);
    } else if Subject(tm, st) != i {
      StepKeeps(tm, st);
      KeepsStays(tm, Apply(tm, st), Subject(tm, st), i);
      SameForward(tm, Apply(tm, st), i, now);
    } else if st.Hear? {
      ReceiveForward(tm, i, st.r, st.at, st.room, st.react);
      RoomIsOk(tm, i, st.r, st.at, st.room, st.react);
    } else if st.DropTx? {
      DroppedForward(tm, i, now);
    } else {
      SelfForward(tm.slots[i], now);
      AppCancelForward(tm.slots[i], now);
    }
  }

  lemma DroppedForward(tm: Tm, i: nat, now: nat)
    requires Inv(tm) && i < |tm.slots| && Cleaning(tm.slots[i])
    ensures Forward(tm.slots[i], Drop(tm, i).slots[i], now)
  {
    assert Drop(tm, i).slots[i] == DroppedAt(tm.slots, i, i);
  }

  lemma PumpForward(tm: Tm, now: nat, ch: nat -> Choice, i: nat)
    requires Inv(tm) && i < |tm.slots| && Cleaning(tm.slots[i]) && Armed(tm.slots[i])
    ensures var r := Pump(tm, now, ch);
      && Forward(tm.slots[i], r.tm.slots[i], now)
      && (r.rc == Ok ==> Served(tm.slots[i], r.tm.slots[i], now))
  {
    hide Inv, Forward, Served, Armed, InPhase, PumpFrom;
    OfSlot(tm, i);
    PumpFromForward(tm, 0, now, ch, Never, i, tm.slots[i]);
  }

  // A pass of the pump that goes through at a phase's deadline ends the
  // cleanup, and any pass that goes through gives a phase its deadline.
  lemma PumpEndsCleanup(tm: Tm, now: nat, ch: nat -> Choice, i: nat)
    requires Inv(tm) && i < |tm.slots| && Cleaning(tm.slots[i]) && Armed(tm.slots[i])
    requires Pump(tm, now, ch).rc == Ok
    ensures var s := tm.slots[i]; var u := Pump(tm, now, ch).tm.slots[i];
      u.active && u.gen == s.gen && !u.state.Terminated? ==>
        !Due(PhaseDeadline(s), now) && Cleaning(u) && PhaseDeadline(u).At?
  {
    hide Inv, Forward, PhaseNo, PhaseDeadline, InPhase, Armed, Pump;
    PumpForward(tm, now, ch, i);
  }

  // --- Any run

  // Slot i is still the transaction of generation g, and not done
  predicate Pending(tm: Tm, i: nat, g: nat) {
    i < |tm.slots| && tm.slots[i].active && tm.slots[i].gen == g && !tm.slots[i].state.Terminated?
  }

  // Over all the run transaction g is pending, finds room, and the pump is
  // kept up with: no step comes later than the deadline of the phase.
  predicate OnTime(tm: Tm, steps: seq<Step>, i: nat, g: nat)
    decreases |steps|
  {
    && Pending(tm, i, g)
    && (steps != [] ==>
          && Roomy(tm, steps[0], i)
          && (Cleaning(tm.slots[i]) ==> NotAfter(TimeOf(tm, steps[0]), PhaseDeadline(tm.slots[i])))
          && OnTime(Apply(tm, steps[0]), steps[1..], i, g))
  }

  predicate NotAfter(t: nat, d: Deadline) {
    d.At? ==> t <= d.ms
  }

  // However the run goes, an abandoned INVITE whose deadline is set is not
  // pending any more once Bound has passed: phases only advance, and the sum
  // of what each may take from here on never grows.
  lemma {:induction false} CleanupBounded(tm: Tm, steps: seq<Step>, i: nat)
    requires Inv(tm) && AllowedRun(tm, steps) && i < |tm.slots|
    requires Cleaning(tm.slots[i]) && Armed(tm.slots[i]) && PhaseDeadline(tm.slots[i]).At?
    requires OnTime(tm, steps, i, tm.slots[i].gen)
    requires steps != []
    ensures var u := Run(tm, steps).slots[i];
      && Cleaning(u) && PhaseNo(tm.slots[i]) <= PhaseNo(u) && PhaseDeadline(u).At?
      && Bound(u) <= Bound(tm.slots[i])
    ensures TimeOf(Run(tm, steps[..|steps| - 1]), steps[|steps| - 1]) <= Bound(tm.slots[i])
    decreases |steps|
  {
    hide Inv, Apply, Armed, InPhase, Roomy, Allowed, TimeOf, PhaseNo, PhaseDeadline, Bound;
    var s := tm.slots[i];
    var t := Apply(tm, steps[0]);
    ApplyInv(tm, steps[0]);
    CleanupAdvances(tm, steps[0], i);
    PendingForward(s, t, i, TimeOf(tm, steps[0]));
    BoundIsLater(s);
    if |steps| > 1 {
      CleanupBounded(t, steps[1..], i);
      var n := |steps| - 1;
      assert steps[1..][..n - 1] == steps[..n][1..];
      assert Run(tm, steps[..n]) == Run(t, steps[..n][1..]);
    }
  }

  lemma PendingForward(s: Slot, t: Tm, i: nat, now: nat)
    requires Cleaning(s) && PhaseDeadline(s).At? && Pending(t, i, s.gen)
    requires Forward(s, t.slots[i], now) && now <= PhaseDeadline(s).ms
    ensures var u := t.slots[i];
      && Cleaning(u) && Armed(u) && PhaseNo(s) <= PhaseNo(u) && PhaseDeadline(u).At?
      && Bound(u) <= Bound(s) && u.gen == s.gen
  {
    hide InPhase, PhaseNo, PhaseDeadline, Bound, Armed;
  }

  lemma BoundIsLater(s: Slot)
    requires Cleaning(s) && PhaseDeadline(s).At?
    ensures PhaseDeadline(s).ms <= Bound(s)
  {
  }
}
