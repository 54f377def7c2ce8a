module CleanupStuck {
  // Why the cleanup needs room: without it, a final response that keeps coming
  // back keeps its INVITE for ever.

  import opened Base
  import opened Slots
  import opened Table
  import opened ClientSteps
  import opened History
  import opened ReceiveKeeps
  import opened Runs
  import opened Theorems
  import opened Cleanup
  import opened CleanupRoom
  import opened CleanupRuns
  import opened Samples

  const BUSY := Resp(1, 2, 3, 4, INVITE, 486, PEER)
  const SMALL := Room(Fits, Fits, true, 0, true, Fits, 0)

  // The n-th copy of the response, four seconds after the one before
  function Copy(n: nat): Step {
    Hear(BUSY, 100 + 4000 * n, SMALL, Ignore)
  }

  function After(n: nat): (tm: Tm)
    ensures |tm.slots| == 1
  {
    if n == 0 then Given() else Apply(After(n - 1), Copy(n))
  }

  // What that comes to, in a table of one slot, where the ACK finds none
  function Held(n: nat): Slot {
    GivenUp().(
      state := Completed, nextSend := Never, built := false,
      timer := TimerD, due := At(5100 + 4000 * n),
      invite := Some(InviteRun(Never, false, Scheduled, NoTimeout, false, true)))
  }

  predicate HeldAt(tm: Tm, n: nat) {
    && tm.slots == [if n == 0 then GivenUp() else Held(n)] && tm.clock == 100 + 4000 * n
    && |tm.log| > 0 && tm.log[0] == Sent(0, 0, INVITE, CALL, 0)
  }

  lemma CopyHeld(tm: Tm, n: nat)
    requires HeldAt(tm, n)
    ensures Allowed(tm, Copy(n + 1)) && HeldAt(Apply(tm, Copy(n + 1)), n + 1)
  {
    hide HearInvite, HeldAt, Plausible;
    CopyPlausible(tm, n);
    assert FindFrom(tm.slots, BUSY, 0) == Some(0) by { HeldSlot(tm, n); }
    HeldSlot(tm, n);
    CopyHeard(Put(Note(tm, Heard(0, 0, 4, PEER)), 0, Quiet(tm.slots[0])), tm, n);
  }

  lemma HeldSlot(tm: Tm, n: nat)
    requires HeldAt(tm, n)
    ensures |tm.slots| == 1 && Matches(tm.slots[0], BUSY) && IsInvite(tm.slots[0])
    ensures tm.slots[0].gen == 0 && tm.slots[0].attempt == 0 && tm.slots[0].invite.Some?
    ensures tm.clock == 100 + 4000 * n
  {
  }

  lemma CopyPlausible(tm: Tm, n: nat)
    requires HeldAt(tm, n)
    ensures Plausible(tm, BUSY)
  {
    assert IsRequest(tm.log[0], 0, 0, INVITE, CALL);
  }

  lemma CopyHeard(u: Tm, tm: Tm, n: nat)
    requires HeldAt(tm, n) && u == Put(Note(tm, Heard(0, 0, 4, PEER)), 0, Quiet(tm.slots[0]))
    ensures var t := HearInvite(u, 0, BUSY, 100 + 4000 * (n + 1), SMALL, Ignore).0;
            HeldAt(t.(clock := 100 + 4000 * (n + 1)), n + 1)
  {
    hide NeedAck, InviteAnswered, Quiet;
    AnsweredHeld(tm, n);
    var p := Put(u, 0, InviteAnswered(u.slots[0], 4, 100 + 4000 * (n + 1)));
    assert p.slots == [Held(n + 1)];
    NoAckFor(p, n + 1);
  }

  lemma AnsweredHeld(tm: Tm, n: nat)
    requires HeldAt(tm, n)
    ensures InviteAnswered(Quiet(tm.slots[0]), 4, 100 + 4000 * (n + 1)) == Held(n + 1)
    ensures !Quiet(tm.slots[0]).finalReported && Quiet(tm.slots[0]).invite.Some?
  {
  }

  lemma NoAckFor(p: Tm, n: nat)
    requires p.slots == [Held(n)]
    ensures NeedAck(p, 0, Fits) == p
  {
    assert AllocFrom(p.slots, 0, None) == AllocFrom(p.slots, 1, None) == None;
  }

  lemma {:induction false} AfterHeld(n: nat)
    ensures Reached(After(n)) && HeldAt(After(n), n)
  {
    hide Reached, HeldAt, Apply, Allowed;
    if n == 0 {
      GivenReached();
      StartHeld();
    } else {
      AfterHeld(n - 1);
      CopyHeld(After(n - 1), n - 1);
      ReachedMore(After(n - 1), Copy(n));
    }
  }

  lemma StartHeld()
    ensures HeldAt(Given(), 0)
  {
  }

  // The INVITE was in the first phase, to be over by 96.1 seconds.
  lemma StartBound()
    ensures var s := Given().slots[0];
      Cleaning(s) && Armed(s) && PhaseDeadline(s) == At(32100) && Bound(s) == 96100
  {
  }

  // Each copy of the response comes before the deadline of the one before,
  // and puts it off: so the INVITE is kept however long one waits.
  lemma RoomNeeded(n: nat)
    ensures Reached(After(n)) && Pending(After(n), 0, 0) && After(n).clock == 100 + 4000 * n
    ensures Allowed(After(n), Copy(n + 1)) && !Roomy(After(n), Copy(n + 1), 0)
    ensures n > 0 ==> After(n).slots[0].timer.TimerD?
    ensures n > 0 ==> After(n).slots[0].due == At(After(n).clock + 5000)
  {
    hide Reached, Apply, Allowed, After, Roomy;
    AfterHeld(n);
    CopyHeld(After(n), n);
    HeldRoomless(After(n), n);
  }

  lemma HeldRoomless(tm: Tm, n: nat)
    requires HeldAt(tm, n)
    ensures !Roomy(tm, Copy(n + 1), 0)
  {
    hide OneSpare, HasRoom;
    HeldSpare(tm, n);
    HeldNeeds(tm, n);
    assert FindFrom(tm.slots, BUSY, 0) == Some(0);
  }

  lemma HeldSpare(tm: Tm, n: nat)
    requires HeldAt(tm, n)
    ensures !OneSpare(tm.slots)
  {
  }

  lemma HeldNeeds(tm: Tm, n: nat)
    requires HeldAt(tm, n) && !OneSpare(tm.slots)
    ensures !HasRoom(tm.slots, 0, BUSY, SMALL)
  {
    hide OneSpare;
  }
}
