module CallSlots {
  // Calls are what the transaction manager does to their slots: every step of
  // it leaves the slot of an accepted INVITE alone or is a step of the call.

  import opened Slots
  import opened Table
  import opened ClientSteps
  import opened ServerSteps
  import opened Machine
  import opened History
  import opened HistoryKeeps
  import opened Runs
  import opened Frames
  import opened CleanupRuns
  import Calls

  // The slot of a call that goes on
  predicate SlotOf(tm: Tm, i: nat, c: Calls.Call) {
    && i < |tm.slots| && tm.slots[i] == c.slot && LiveServer(c.slot) && IsInvite(c.slot)
    && 200 <= c.slot.server.status < 300 && (c.slot.server.owner.Some? <==> c.alive)
  }

  // The pump told what the dialog wants: when to send again, and a BYE if the
  // call is to be ended
  predicate AsTheDialogWants(c: Calls.Call, now: nat, ch: Choice, keep: bool) {
    && ch.again == Calls.AgainAt(c.dlg, now)
    && (ch.hangup.Some? <==> c.alive && c.dlg.ackPending && !keep && !c.dlg.ended)
  }

  // The pump's turn on the slot is the call's turn, unless the slot goes to
  // the very BYE that ends the call
  lemma TurnIsRun(tm: Tm, i: nat, c: Calls.Call, now: nat, ch: Choice, keep: bool, fits: bool)
    requires Inv(tm) && SlotOf(tm, i, c) && AsTheDialogWants(c, now, ch, keep)
    ensures var u := RunSlot(tm, i, now, ch).tm.slots[i];
            var t := Calls.TakeTurn(c, now, ch.sendOk, keep, fits).slot;
      u == t || (t.state.Terminated? && Replaced(u, tm.gens))
  {
    hide Inv, ServerSent, ArmTimerL, ClientSlot, AllocIndex, Drop, Calls.AgainAt;
    var s := c.slot;
    if TimerDue(s, now) {
      ServerStopsInv(tm, i);
      var t := Put(tm, i, ServerTerminated(s));
      if s.timer.TimerL? && c.alive && ch.hangup.Some? {
        NewSlotOnwards(t, ClientSlot(tm.reliable, BYE, ch.hangup.value, s.policy, 0,
                                     false, false, false), ch.hangupSlot);
      }
    }
  }

  // The turns of other slots are not about it
  lemma OtherTurnsSpare(tm: Tm, j: nat, i: nat, now: nat, ch: Choice)
    requires Inv(tm) && i < |tm.slots| && j < |tm.slots| && i != j
    requires LiveServer(tm.slots[i]) && !Evictable(tm.slots[i])
    ensures RunSlot(tm, j, now, ch).tm.slots[i] == tm.slots[i]
  {
    hide Inv, RunSlot, Evictable;
    RunSlotKeeps(tm, j, now, ch);
    KeepsStays(tm, RunSlot(tm, j, now, ch).tm, j, i);
    OfSlot(tm, i);
  }

  // Any other step: an ACK, the request repeated, or nothing to do with it
  lemma StepIsCallStep(tm: Tm, st: Runs.Step, i: nat, c: Calls.Call)
    requires Inv(tm) && Allowed(tm, st) && SlotOf(tm, i, c) && !Evictable(c.slot)
    requires !st.PumpAt? && st != DropTx(i)
    requires !st.Own? && !st.Disown? && !st.ResendAt?
    ensures var u := Apply(tm, st).slots[i];
      || u == c.slot
      || (st.Ask? && (u == Calls.Step(c, Calls.Ack(st.when)).slot
                      || u == Calls.Step(c, Calls.Repeat(st.when)).slot))
  {
    hide Inv, Apply, Evictable, Keeps, AckSlot;
    OfSlot(tm, i);
    if Subject(tm, st) != i {
      StepKeeps(tm, st);
      KeepsStays(tm, Apply(tm, st), Subject(tm, st), i);
    } else {
      SubjectIsCall(tm, st, i, c);
    }
  }

  lemma SubjectIsCall(tm: Tm, st: Runs.Step, i: nat, c: Calls.Call)
    requires Inv(tm) && Allowed(tm, st) && SlotOf(tm, i, c) && Subject(tm, st) == i
    requires !st.PumpAt? && st != DropTx(i) && !st.Own? && !st.Disown? && !st.ResendAt?
    ensures var u := Apply(tm, st).slots[i];
      || u == c.slot
      || (st.Ask? && (u == Calls.Step(c, Calls.Ack(st.when)).slot
                      || u == Calls.Step(c, Calls.Repeat(st.when)).slot))
  {
    hide Inv, AckSlot, Classify, Again, Abandon, Restart, Receive, Responded;
    OfSlot(tm, i);
    match st {
      case Ask(q, now) =>
      case Hear(r, now, room, react) =>
      case Cancel(j, space) =>
      case Next(j, b) =>
      case Respond(j, code, noAck, fits) =>
      case _ =>
    }
  }
}
