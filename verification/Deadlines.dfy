module Deadlines {
  // A pass of the pump says when to run it next: when that is no later than
  // anything a transaction still has to do, and the two cases it misses.

  import opened Base
  import opened Slots
  import opened Table
  import opened ClientSteps
  import opened ServerSteps
  import opened Machine
  import opened Links
  import opened History
  import opened HistoryKeeps
  import opened ReceiveKeeps
  import opened PumpKeeps
  import opened RunKeeps
  import opened Runs
  import opened Frames
  import opened Theorems
  import opened Samples

  // d is no earlier than the next pass, or overdue with the pass due at once
  predicate InTime(d: Deadline, next: Deadline, now: nat) {
    d.At? ==> NoLater(next, Max(d.ms, now))
  }

  predicate Covered(s: Slot, next: Deadline, now: nat) {
    s.active && !s.state.Terminated? ==>
      InTime(s.nextSend, next, now) && InTime(InviteTimeout(s), next, now)
      && InTime(TimerDeadline(s), next, now)
  }

  // --- What a pass may overlook

  // A slot left due at once, after its turn: a transaction that was restarted
  // or just made
  predicate Left(s: Slot) {
    LiveClient(s) && s.app.owned && s.parent.None? && (s.state.Calling? || s.state.Trying?)
    && s.timer.NoTimer? && s.nextSend == At(0)
  }

  // A timer fires, and the callback it leads to restarts the transaction
  predicate Retries(s: Slot, now: nat, ch: Choice) {
    LiveClient(s) && !s.state.Terminated? && !s.flags.terminated && !s.flags.abandoned
    && !InviteDue(s, now) && TimerDue(s, now) && s.app.timeout && !s.finalReported
    && ch.react.Retry?
  }

  // Timer L fires, and the owner ends the call with a BYE of its own
  predicate HangsUp(s: Slot, now: nat, ch: Choice) {
    LiveServer(s) && s.timer.TimerL? && TimerDue(s, now) && s.server.owner.Some?
    && ch.hangup.Some? && ch.hangupSlot.Fits?
  }

  // The slot that BYE is put in
  function ByeAt(tm: Tm, i: nat, now: nat, ch: Choice): (c: Option<nat>)
    requires i < |tm.slots|
    ensures c.Some? ==> c.value < |tm.slots|
  {
    if HangsUp(tm.slots[i], now, ch)
    then AllocIndex(tm.slots[i := ServerTerminated(tm.slots[i])]) else None
  }

  // The pass is already past that slot
  predicate HangsUpBehind(tm: Tm, i: nat, now: nat, ch: Choice)
    requires i < |tm.slots|
  {
    ByeAt(tm, i, now, ch).Some? && ByeAt(tm, i, now, ch).value <= i
  }

  // ... at some slot from i on, each seen when the pass reaches it
  predicate HangsUpFrom(tm: Tm, i: nat, now: nat, ch: nat -> Choice)
    requires i <= |tm.slots|
    decreases |tm.slots| - i
  {
    i < |tm.slots|
    && (HangsUpBehind(tm, i, now, ch(i))
        || HangsUpFrom(RunSlot(tm, i, now, ch(i)).tm, i + 1, now, ch))
  }

  // --- One turn

  // What running slot i may do to another one, unless the pump is due again
  // at once or a BYE is put there
  predicate Aside(s: Slot, t: Slot) {
    t == s || !t.active || t.state.Terminated?
  }

  predicate OthersAside(tm: Tm, t: Tm, i: nat, c: Option<nat>)
    requires |t.slots| == |tm.slots|
  {
    forall j :: 0 <= j < |tm.slots| && j != i && c != Some(j) ==> Aside(tm.slots[j], t.slots[j])
  }

  predicate OwnTurn(s: Slot, t: Slot, next: Deadline, now: nat, ch: Choice) {
    if Retries(s, now, ch) then Left(t) else Covered(t, next, now)
  }

  predicate Turn(tm: Tm, i: nat, r: Ran, now: nat, ch: Choice)
    requires i < |tm.slots| && |r.tm.slots| == |tm.slots|
  {
    NoLater(r.next, now)
    || (var c := ByeAt(tm, i, now, ch);
        && OthersAside(tm, r.tm, i, c)
        && (c.Some? ==> Left(r.tm.slots[c.value]))
        && (c != Some(i) ==> OwnTurn(tm.slots[i], r.tm.slots[i], r.next, now, ch)))
  }

  lemma WakeCovers(s: Slot, now: nat)
    ensures Covered(s, Wake(s), now)
  {
  }

  lemma RestartLeft(s: Slot, b: Build)
    requires LiveClient(s) && s.app.owned && s.parent.None?
    ensures Left(Restart(s, b)) && Restart(s, b).state.Calling?
  {
  }

  predicate RetryWanted(s: Slot, ch: Choice) {
    s.app.timeout && !s.finalReported && !s.flags.abandoned && ch.react.Retry?
  }

  lemma TellExpired(tm: Tm, i: nat, l: bool, ch: Choice)
    requires i < |tm.slots| && LiveClient(tm.slots[i]) && tm.slots[i].state.Terminated?
    requires tm.slots[i].child.None?
    ensures var t := Tell(tm, i, l, TimedOut, ch.react);
      t.slots == if l && ch.react.Retry? && !tm.slots[i].flags.abandoned
                 then tm.slots[i := Restart(tm.slots[i].(child := None), ch.react.b)] else tm.slots
  {
    hide Restart;
  }

  lemma ExpiredParts(s: Slot)
    ensures var e := Expired(s);
      && LiveClient(e) == LiveClient(s) && e.app == s.app && e.parent == s.parent
      && e.child == s.child && e.state.Terminated? && e.flags.abandoned == s.flags.abandoned
  {
  }

  lemma Freed(tm: Tm, i: nat)
    requires i < |tm.slots|
    requires tm.slots[i].child.Some? ==>
               tm.slots[i].child.value != i && tm.slots[i].child.value < |tm.slots|
               && tm.slots[tm.slots[i].child.value].child != Some(i)
    ensures var u := TerminateChild(tm.slots, i);
      && u[i] == tm.slots[i].(child := None)
      && forall j :: 0 <= j < |tm.slots| && j != i ==> Aside(tm.slots[j], u[j])
  {
  }

  // The timer of a client slot fires
  lemma FireTimerTurn(tm: Tm, i: nat, ch: Choice)
    requires i < |tm.slots| && LiveClient(tm.slots[i])
    requires var s := tm.slots[i]; s.app.timeout && !s.flags.abandoned ==> s.app.owned && s.parent.None?
    requires tm.slots[i].child.Some? ==>
               tm.slots[i].child.value != i && tm.slots[i].child.value < |tm.slots|
               && tm.slots[tm.slots[i].child.value].child != Some(i)
    ensures var t := FireTimer(tm, i, ch);
      && OthersAside(tm, t, i, None)
      && if RetryWanted(tm.slots[i], ch) then Left(t.slots[i]) else t.slots[i].state.Terminated?
  {
    hide Restart, Left, Tell, TerminateChild, ClearTimer, MarkTerminated, ReleaseOutbound;
    var s := tm.slots[i];
    var t := Put(tm, i, Expired(s));
    ExpiredParts(s);
    Freed(t, i);
    var u := t.(slots := TerminateChild(t.slots, i));
    TellExpired(u, i, !s.finalReported && s.app.timeout, ch);
    var e := u.slots[i];
    assert e.(child := None) == e;
    ReleasedFacts(e);
    if RetryWanted(s, ch) {
      RestartLeft(e, ch.react.b);
    }
  }

  lemma SendTurn(tm: Tm, i: nat, now: nat, ch: Choice)
    requires i < |tm.slots| && SendNow(tm, i, now, ch).rc == Ok
    ensures var r := SendNow(tm, i, now, ch);
      NoLater(r.next, now)
      || (OthersAside(tm, r.tm, i, None) && Covered(r.tm.slots[i], r.next, now))
  {
    hide PostSendInvite, PostSendOther, NoteSend, Wake;
    var s := tm.slots[i];
    var b := s.(built := true, matchable := s.matchable || !s.built);
    var n := NoteSend(b, now);
    WakeCovers(PostSendInvite(n, now), now);
    WakeCovers(PostSendOther(n, now), now);
    WakeCovers(SendNow(tm, i, now, ch).tm.slots[i], now);
  }

  lemma TimerNotAck(tm: Tm, i: nat)
    requires Inv(tm) && i < |tm.slots| && LiveClient(tm.slots[i]) && !tm.slots[i].timer.NoTimer?
    ensures tm.slots[i].child.Some? ==>
              tm.slots[i].child.value != i && tm.slots[i].child.value < |tm.slots|
              && tm.slots[tm.slots[i].child.value].child != Some(i)
    ensures tm.slots[i].app.timeout && !tm.slots[i].flags.abandoned ==>
              tm.slots[i].app.owned && tm.slots[i].parent.None?
  {
    OfSlot(tm, i);
    if tm.slots[i].child.Some? {
      NotOwnGrandchild(tm, i);
    }
  }

  // A turn that changes only its own slot
  lemma PlainTurn(tm: Tm, i: nat, r: Ran, now: nat, ch: Choice)
    requires i < |tm.slots| && |r.tm.slots| == |tm.slots|
    requires r.tm.slots == tm.slots[i := r.tm.slots[i]]
    requires !HangsUp(tm.slots[i], now, ch) && !Retries(tm.slots[i], now, ch)
    requires Covered(r.tm.slots[i], r.next, now)
    ensures Turn(tm, i, r, now, ch)
  {
  }

  lemma StoppedCovers(s: Slot, next: Deadline, now: nat)
    requires s.state.Terminated?
    ensures Covered(s, next, now)
  {
  }

  lemma ArmAlone(s: Slot, now: nat)
    ensures var a := ArmCleanup(s, now);
      && a.timer == s.timer && a.due == s.due && a.app == s.app
      && a.flags == s.flags && a.state == s.state && a.finalReported == s.finalReported
      && a.parent == s.parent && a.child == s.child
      && (!s.flags.abandoned ==> a == s)
  {
  }

  lemma ClientTurn(tm: Tm, i: nat, now: nat, ch: Choice)
    requires Inv(tm) && i < |tm.slots| && LiveClient(tm.slots[i])
    requires ClientRun(tm, i, now, ch).rc == Ok
    ensures Turn(tm, i, ClientRun(tm, i, now, ch), now, ch)
  {
    hide Inv, ArmCleanup, ExpireLive, FireTimer, SendNow, Wake, Covered, Left, FinishAbandoned;
    OfSlot(tm, i);
    var s := tm.slots[i];
    var r := ClientRun(tm, i, now, ch);
    if s.state.Terminated? || s.flags.terminated {
      StoppedCovers(s, r.next, now);
    } else {
      ArmCleanupFacts(s, now);
      ArmAlone(s, now);
      var a := ArmCleanup(s, now);
      var t := Put(tm, i, a);
      if InviteDue(a, now) {
        if a.flags.abandoned {
          FinishStops(a);
          StoppedCovers(r.tm.slots[i], r.next, now);
          PlainTurn(tm, i, r, now, ch);
        }
      } else if TimerDue(a, now) {
        ArmInv(tm, i, now);
        TimerNotAck(t, i);
        FireTimerTurn(t, i, ch);
        if !Retries(s, now, ch) {
          StoppedCovers(r.tm.slots[i], r.next, now);
        }
      } else if !Due(a.nextSend, now) {
        WakeCovers(a, now);
        PlainTurn(tm, i, r, now, ch);
      } else {
        SendTurn(t, i, now, ch);
      }
    }
  }

  lemma FinishStops(s: Slot)
    ensures FinishAbandoned(s).state.Terminated?
  {
  }

  lemma ServerWakeCovers(s: Slot, now: nat)
    requires s.invite.None?
    ensures Covered(s, ServerWake(s), now)
  {
  }

  lemma ServerStops(s: Slot)
    ensures ServerTerminated(s).state.Terminated?
  {
  }

  lemma ArmLSame(s: Slot, now: nat)
    ensures Onward(s, ArmTimerL(s, now))
  {
  }

  lemma ByeLeft(reliable: bool, ident: Ident, policy: Policy, gen: nat)
    ensures Left(Awake(ClientSlot(reliable, BYE, ident, policy, 0, false, false, false), gen))
  {
  }

  // A new transaction is put in the slot allocated, if it fits
  lemma NewSlotTurn(tm: Tm, s: Slot, space: Space)
    requires Inv(tm)
    ensures var (t, c) := NewSlot(tm, s, space); var a := AllocIndex(tm.slots);
      && (forall j :: 0 <= j < |tm.slots| && !(a == Some(j) && space.Fits?) ==>
            t.slots[j] == tm.slots[j] || !t.slots[j].active)
      && (a.Some? && space.Fits? ==> t.slots[a.value] == Awake(s, tm.gens))
  {
    hide Inv, Awake;
    AllocRight(tm.slots);
    var c := AllocIndex(tm.slots);
    if c.Some? {
      VacateOnwards(tm, c.value);
    }
  }

  lemma HangUpTurn(tm: Tm, i: nat, now: nat, ch: Choice)
    requires Inv(tm) && i < |tm.slots| && LiveServer(tm.slots[i]) && TimerDue(tm.slots[i], now)
    ensures Turn(tm, i, ServerRun(tm, i, now, ch), now, ch)
  {
    hide Inv, ServerTerminated, Covered, Left, ClientSlot, NewSlot;
    var s := tm.slots[i];
    var t := Put(tm, i, ServerTerminated(s));
    var r := ServerRun(tm, i, now, ch);
    ServerStops(s);
    if s.timer.TimerL? && s.server.owner.Some? && ch.hangup.Some? {
      var n := ClientSlot(tm.reliable, BYE, ch.hangup.value, s.policy, 0, false, false, false);
      ServerStopsInv(tm, i);
      NewSlotTurn(t, n, ch.hangupSlot);
      ByeLeft(tm.reliable, ch.hangup.value, s.policy, tm.gens);
      if ByeAt(tm, i, now, ch) != Some(i) {
        IdleCovers(r.tm.slots[i], r.next, now);
      }
    } else {
      StoppedCovers(r.tm.slots[i], r.next, now);
      PlainTurn(tm, i, r, now, ch);
    }
  }

  lemma IdleCovers(s: Slot, next: Deadline, now: nat)
    requires !s.active || s.state.Terminated?
    ensures Covered(s, next, now)
  {
  }

  lemma ServerTurn(tm: Tm, i: nat, now: nat, ch: Choice)
    requires Inv(tm) && i < |tm.slots| && LiveServer(tm.slots[i])
    requires ServerRun(tm, i, now, ch).rc == Ok
    ensures Turn(tm, i, ServerRun(tm, i, now, ch), now, ch)
  {
    hide Inv, ServerSent, ServerTerminated, ServerWake, Covered, Turn, ArmTimerL;
    OfSlot(tm, i);
    var s := tm.slots[i];
    var r := ServerRun(tm, i, now, ch);
    if TimerDue(s, now) {
      HangUpTurn(tm, i, now, ch);
    } else if s.state.Terminated? || !Due(s.nextSend, now) {
      ServerWakeCovers(s, now);
      PlainTurn(tm, i, r, now, ch);
    } else {
      var a := ArmTimerL(s, now);
      ArmLSame(s, now);
      ServerSentSame(a, now, ch.again);
      ServerWakeCovers(ServerSent(a, now, ch.again), now);
      PlainTurn(tm, i, r, now, ch);
    }
  }

  lemma RunSlotTurn(tm: Tm, i: nat, now: nat, ch: Choice)
    requires Inv(tm) && i < |tm.slots| && RunSlot(tm, i, now, ch).rc == Ok
    ensures Turn(tm, i, RunSlot(tm, i, now, ch), now, ch)
  {
    hide Inv, ClientRun, ServerRun, Turn;
    if !tm.slots[i].active {
      IdleCovers(tm.slots[i], Never, now);
      PlainTurn(tm, i, Ran(tm, Never, Ok), now, ch);
    } else if tm.slots[i].role.Client? {
      ClientTurn(tm, i, now, ch);
    } else {
      ServerTurn(tm, i, now, ch);
    }
  }

  // --- The pass as a whole

  // The slots passed so far: each is covered or left
  predicate Sorted(slots: seq<Slot>, i: nat, next: Deadline, now: nat)
    requires i <= |slots|
  {
    forall j :: 0 <= j < i ==> Left(slots[j]) || Covered(slots[j], next, now)
  }

  predicate NoneLeft(slots: seq<Slot>, i: nat)
    requires i <= |slots|
  {
    forall j :: 0 <= j < i ==> !Left(slots[j])
  }

  predicate NoneRetries(slots: seq<Slot>, i: nat, now: nat, ch: nat -> Choice) {
    forall j :: i <= j < |slots| ==> !Retries(slots[j], now, ch(j))
  }

  lemma EarlierCovers(s: Slot, t: Slot, next: Deadline, more: Deadline, now: nat)
    requires Covered(s, next, now) && Aside(s, t)
    ensures Covered(t, Earliest(next, more), now)
  {
  }

  lemma OwnCovers(s: Slot, next: Deadline, more: Deadline, now: nat)
    requires Covered(s, more, now)
    ensures Covered(s, Earliest(next, more), now)
  {
  }

  lemma LeftMissed(s: Slot, next: Deadline, now: nat)
    requires Left(s) && !NoLater(next, now)
    ensures !Covered(s, next, now)
  {
  }

  // What is left or retries is not to be evicted
  lemma LeftPinned(s: Slot, now: nat, ch: Choice)
    ensures SlotOk(s) && (Left(s) || Retries(s, now, ch)) ==> Pinned(s)
    ensures Left(s) ==> !Retries(s, now, ch)
    ensures Left(s) || Retries(s, now, ch) ==> s.active && !s.state.Terminated?
  {
  }

  // What one more turn does to the other slots
  lemma OtherSlot(tm: Tm, i: nat, j: nat, r: Ran, next: Deadline, now: nat, ch: Choice, own: Choice)
    requires Inv(tm) && i < |tm.slots| == |r.tm.slots| && j < |tm.slots| && j != i
    requires Turn(tm, i, r, now, ch) && Keeps(tm, r.tm, i) && !NoLater(r.next, now)
    ensures Left(r.tm.slots[j]) <==> Left(tm.slots[j]) || ByeAt(tm, i, now, ch) == Some(j)
    ensures Retries(r.tm.slots[j], now, own) <==> Retries(tm.slots[j], now, own)
    ensures Covered(tm.slots[j], next, now) && !Left(r.tm.slots[j]) ==>
              Covered(r.tm.slots[j], Earliest(next, r.next), now)
  {
    hide Inv, Covered, Left, Retries, ByeAt, HangsUp, Pinned, Standing, Replaced, OwnTurn;
    var s, t := tm.slots[j], r.tm.slots[j];
    OfSlot(tm, j);
    LeftPinned(s, now, own);
    LeftPinned(t, now, own);
    assert KeptAt(s, t, tm.gens);
    PinnedStands(s);
    if ByeAt(tm, i, now, ch) != Some(j) {
      assert Aside(s, t);
      if Covered(s, next, now) {
        EarlierCovers(s, t, next, r.next, now);
      }
    }
  }

  lemma PinnedStands(s: Slot)
    ensures Pinned(s) ==> Standing(s)
  {
  }

  // ... and to its own
  lemma OwnSlot(tm: Tm, i: nat, r: Ran, next: Deadline, now: nat, ch: Choice)
    requires i < |tm.slots| == |r.tm.slots|
    requires Turn(tm, i, r, now, ch) && !NoLater(r.next, now)
    ensures Left(r.tm.slots[i]) <==>
            Retries(tm.slots[i], now, ch) || ByeAt(tm, i, now, ch) == Some(i)
    ensures Left(r.tm.slots[i]) || Covered(r.tm.slots[i], Earliest(next, r.next), now)
  {
    hide Covered, Left, Retries, ByeAt, HangsUp;
    var t := r.tm.slots[i];
    if ByeAt(tm, i, now, ch) != Some(i) && !Retries(tm.slots[i], now, ch) {
      OwnCovers(t, next, r.next, now);
      if Left(t) {
        LeftMissed(t, r.next, now);
      }
    }
  }

  // One more turn: who is left, and who will retry
  lemma OneMore(tm: Tm, i: nat, r: Ran, next: Deadline, now: nat, ch: nat -> Choice)
    requires Inv(tm) && i < |tm.slots| == |r.tm.slots|
    requires Turn(tm, i, r, now, ch(i)) && Keeps(tm, r.tm, i) && !NoLater(r.next, now)
    requires Sorted(tm.slots, i, next, now)
    ensures Sorted(r.tm.slots, i + 1, Earliest(next, r.next), now)
    ensures NoneLeft(r.tm.slots, i + 1) <==>
            NoneLeft(tm.slots, i) && !Retries(tm.slots[i], now, ch(i))
            && !HangsUpBehind(tm, i, now, ch(i))
    ensures NoneRetries(r.tm.slots, i + 1, now, ch) <==> NoneRetries(tm.slots, i + 1, now, ch)
  {
    hide Inv, Covered, Left, Retries, ByeAt, HangsUp, Turn, Keeps;
    OwnSlot(tm, i, r, next, now, ch(i));
    forall j | 0 <= j < |tm.slots| && j != i
      ensures Left(r.tm.slots[j]) <==> Left(tm.slots[j]) || ByeAt(tm, i, now, ch(i)) == Some(j)
      ensures Retries(r.tm.slots[j], now, ch(j)) <==> Retries(tm.slots[j], now, ch(j))
      ensures Covered(tm.slots[j], next, now) && !Left(r.tm.slots[j]) ==>
                Covered(r.tm.slots[j], Earliest(next, r.next), now)
    {
      OtherSlot(tm, i, j, r, next, now, ch(i), ch(j));
    }
    forall j | 0 <= j <= i
      ensures Left(r.tm.slots[j]) || Covered(r.tm.slots[j], Earliest(next, r.next), now)
    {
    }
    if HangsUpBehind(tm, i, now, ch(i)) {
      assert Left(r.tm.slots[ByeAt(tm, i, now, ch(i)).value]);
    } else if NoneLeft(tm.slots, i) && !Retries(tm.slots[i], now, ch(i)) {
      forall j | 0 <= j <= i ensures !Left(r.tm.slots[j]) {
      }
    } else if !NoneLeft(tm.slots, i) {
      var j :| 0 <= j < i && Left(tm.slots[j]);
      assert Left(r.tm.slots[j]);
    }
    forall j | i + 1 <= j < |tm.slots|
      ensures Retries(r.tm.slots[j], now, ch(j)) <==> Retries(tm.slots[j], now, ch(j))
    {
    }
  }

  // The next pass is asked for no later than any slot so far wants it
  lemma {:induction false} NextOnlyEarlier(tm: Tm, i: nat, now: nat, ch: nat -> Choice, next: Deadline)
    requires i <= |tm.slots| && NoLater(next, now)
    ensures NoLater(PumpFrom(tm, i, now, ch, next).next, now)
    decreases |tm.slots| - i
  {
    hide RunSlot;
    if i < |tm.slots| {
      var r := RunSlot(tm, i, now, ch(i));
      if r.rc == Ok {
        NextOnlyEarlier(r.tm, i + 1, now, ch, Earliest(next, r.next));
      }
    }
  }

  lemma LateTurn(tm: Tm, i: nat, now: nat, ch: nat -> Choice, next: Deadline)
    requires i < |tm.slots| && RunSlot(tm, i, now, ch(i)).rc == Ok
    requires !NoLater(PumpFrom(tm, i, now, ch, next).next, now)
    ensures !NoLater(RunSlot(tm, i, now, ch(i)).next, now)
  {
    hide RunSlot;
    var r := RunSlot(tm, i, now, ch(i));
    if NoLater(r.next, now) {
      NextOnlyEarlier(r.tm, i + 1, now, ch, Earliest(next, r.next));
    }
  }

  lemma {:induction false} PumpFromExact(tm: Tm, i: nat, now: nat, ch: nat -> Choice, next: Deadline)
    requires Inv(tm) && i <= |tm.slots| && Sorted(tm.slots, i, next, now)
    requires PumpFrom(tm, i, now, ch, next).rc == Ok
    requires !NoLater(PumpFrom(tm, i, now, ch, next).next, now)
    ensures var r := PumpFrom(tm, i, now, ch, next);
      && Sorted(r.tm.slots, |r.tm.slots|, r.next, now)
      && (NoneLeft(r.tm.slots, |r.tm.slots|) <==>
            NoneLeft(tm.slots, i) && NoneRetries(tm.slots, i, now, ch)
            && !HangsUpFrom(tm, i, now, ch))
    decreases |tm.slots| - i
  {
    hide Inv, RunSlot, Turn, Keeps, Sorted, NoneLeft, NoneRetries, HangsUpBehind, Retries;
    if i < |tm.slots| {
      var r := RunSlot(tm, i, now, ch(i));
      assert r.rc == Ok;
      LateTurn(tm, i, now, ch, next);
      RunSlotTurn(tm, i, now, ch(i));
      RunSlotKeeps(tm, i, now, ch(i));
      RunSlotInv(tm, i, now, ch(i));
      OneMore(tm, i, r, next, now, ch);
      PumpFromExact(r.tm, i + 1, now, ch, Earliest(next, r.next));
      RetriesSplit(tm.slots, i, now, ch);
    } else {
      NoRetriesLeft(tm.slots, i, now, ch);
    }
  }

  lemma RetriesSplit(slots: seq<Slot>, i: nat, now: nat, ch: nat -> Choice)
    requires i < |slots|
    ensures NoneRetries(slots, i, now, ch) <==>
            !Retries(slots[i], now, ch(i)) && NoneRetries(slots, i + 1, now, ch)
  {
    hide Retries;
  }

  lemma NoRetriesLeft(slots: seq<Slot>, i: nat, now: nat, ch: nat -> Choice)
    requires i >= |slots|
    ensures NoneRetries(slots, i, now, ch)
  {
  }

  lemma AllCovered(slots: seq<Slot>, next: Deadline, now: nat)
    requires Sorted(slots, |slots|, next, now) && !NoLater(next, now)
    ensures NoneLeft(slots, |slots|) <==>
            forall j :: 0 <= j < |slots| ==> Covered(slots[j], next, now)
  {
    hide Left, Covered;
    forall j | 0 <= j < |slots|
      ensures Left(slots[j]) <==> !Covered(slots[j], next, now)
    {
      if Left(slots[j]) {
        LeftMissed(slots[j], next, now);
      }
    }
  }

  lemma AtOnceCovers(s: Slot, next: Deadline, now: nat)
    requires NoLater(next, now)
    ensures Covered(s, next, now)
  {
  }

  // After any pass that went through, next_run_at is no later than any
  // deadline left, or than now if one of those is overdue. It fails in this
  // exactly when it asks for no other pass at once although a timeout
  // callback restarted its transaction, or a BYE was put in a slot that the
  // pass was already past.
  lemma DeadlinesExact(tm: Tm, now: nat, ch: nat -> Choice)
    requires Inv(tm) && Pump(tm, now, ch).rc == Ok
    ensures var r := Pump(tm, now, ch);
      (forall j :: 0 <= j < |r.tm.slots| ==> Covered(r.tm.slots[j], r.next, now)) <==>
        NoLater(r.next, now)
        || ((forall j :: 0 <= j < |tm.slots| ==> !Retries(tm.slots[j], now, ch(j)))
            && !HangsUpFrom(tm, 0, now, ch))
  {
    hide Inv, PumpFrom, Covered, Left, Retries, HangsUpFrom;
    var r := Pump(tm, now, ch);
    if NoLater(r.next, now) {
      forall j | 0 <= j < |r.tm.slots| ensures Covered(r.tm.slots[j], r.next, now) {
        AtOnceCovers(r.tm.slots[j], r.next, now);
      }
    } else {
      PumpFromExact(tm, 0, now, ch, Never);
      AllCovered(r.tm.slots, r.next, now);
    }
  }

  lemma {:induction false} NoCallHungUp(tm: Tm, i: nat, now: nat, ch: nat -> Choice)
    requires i <= |tm.slots| && forall j :: ch(j).hangup.None?
    ensures !HangsUpFrom(tm, i, now, ch)
    decreases |tm.slots| - i
  {
    hide RunSlot;
    if i < |tm.slots| {
      NoCallHungUp(RunSlot(tm, i, now, ch(i)).tm, i + 1, now, ch);
    }
  }

  // A pass in which no callback restarts anything and no call is hung up for
  // want of an ACK misses nothing.
  lemma NoDeadlineMissed(tm: Tm, now: nat, ch: nat -> Choice, j: nat)
    requires Inv(tm) && (forall i :: ch(i).react.Ignore? && ch(i).hangup.None?)
    requires j < |tm.slots| && Pump(tm, now, ch).rc == Ok
    ensures var r := Pump(tm, now, ch); var s := r.tm.slots[j];
      s.active && !s.state.Terminated? ==>
        InTime(s.nextSend, r.next, now) && InTime(InviteTimeout(s), r.next, now)
        && InTime(TimerDeadline(s), r.next, now)
  {
    hide Inv, Pump;
    DeadlinesExact(tm, now, ch);
    NoCallHungUp(tm, 0, now, ch);
    assert Covered(Pump(tm, now, ch).tm.slots[j], Pump(tm, now, ch).next, now);
  }

  // --- What is overlooked, at tables that runs lead to

  // A timeout callback asks again: due at once, with no next pass asked for.
  lemma RetryOverlooked() returns (tm: Tm, now: nat, ch: nat -> Choice)
    ensures Reached(tm) && tm.clock <= now && |tm.slots| == 1
    ensures Retries(tm.slots[0], now, ch(0))
    ensures var r := Pump(tm, now, ch);
      && r.rc == Ok && r.next == Never
      && r.tm.slots[0].active && !r.tm.slots[0].state.Terminated?
      && r.tm.slots[0].nextSend == At(0)
  {
    hide Reached;
    AskReached();
    tm := Asked();
    now := 32000;
    ch := (i: nat) => Uneventful().(react := Retry(Built));
    OnePass(tm, now, ch);
  }

  // The BYE takes the slot the INVITE gives up: due at once as well.
  lemma HangUpOverlooked() returns (tm: Tm, now: nat, ch: nat -> Choice)
    ensures Reached(tm) && tm.clock <= now && |tm.slots| == 1
    ensures HangsUpBehind(tm, 0, now, ch(0))
    ensures var r := Pump(tm, now, ch);
      && r.rc == Ok && r.next == Never
      && r.tm.slots[0].active && r.tm.slots[0].verb.BYE? && !r.tm.slots[0].state.Terminated?
      && r.tm.slots[0].nextSend == At(0)
  {
    hide Reached;
    CallReached();
    tm := Called();
    now := 32000;
    ch := (i: nat) => Uneventful().(hangup := Some(CALL));
    var over := [ServerTerminated(tm.slots[0])];
    assert AllocFrom(over, 0, None) == AllocFrom(over, 1, Some(0)) == Some(0);
    assert tm.slots[0 := ServerTerminated(tm.slots[0])] == over;
    OnePass(tm, now, ch);
  }
}
