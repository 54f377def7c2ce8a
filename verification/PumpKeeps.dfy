// The timer pump, and every other operation, keeps the invariant.
module PumpKeeps {
  import opened Base
  import opened Slots
  import opened Table
  import opened ClientSteps
  import opened Links
  import opened History
  import opened HistoryKeeps
  import opened ClientKeeps
  import opened AbandonKeeps
  import opened ReceiveKeeps
  import opened FinalKeeps

  // --- Out of time

  lemma TellAbandoned(tm: Tm, i: nat, l: bool, what: Report, react: Reaction)
    requires i < |tm.slots| && tm.slots[i].flags.abandoned
    ensures Tell(tm, i, l, what, react).slots == tm.slots
    ensures Tell(tm, i, l, what, react).gens == tm.gens
  {
  }

  lemma ExpireLiveInv(tm: Tm, i: nat, now: nat, ch: Choice)
    requires Inv(tm) && i < |tm.slots| && LiveClient(tm.slots[i]) && tm.slots[i].invite.Some?
    requires !tm.slots[i].state.Terminated? && !tm.slots[i].flags.abandoned
    requires InviteTimeout(tm.slots[i]).At?
    ensures Inv(ExpireLive(tm, i, now, ch))
  {
    hide Inv, Abandon, Tell, ArmCleanup, AbandonedSlot;
    var s := tm.slots[i];
    OfSlot(tm, i);
    OpenSlot(s, tm.log);
    AbandonInv(tm, i, ch.cancelSlot);
    AbandonedIsSame(s, true);
    AbandonedIsSame(s, false);
    var t := Abandon(tm, i, ch.cancelSlot);
    ArmInv(t, i, now);
    ArmSame(t.slots[i], now);
    var u := Put(t, i, ArmCleanup(t.slots[i], now));
    SilentOpen(tm.log, t.log, s.gen, s.attempt);
    TellInv(u, i, s.app.timeout, TimedOut, ch.react);
    TellAbandoned(u, i, s.app.timeout, TimedOut, ch.react);
    var w := Tell(u, i, s.app.timeout, TimedOut, ch.react);
    OfSlot(w, i);
    NoteOwn(w, i, Detached(s.gen));
  }

  // --- Timers D, F and K

  lemma RetireOk(s: Slot, log: seq<Event>)
    requires SlotOk(s) && LiveClient(s) && SlotLogged(s, log)
    ensures SlotOk(RetireChild(s)) && SlotLogged(RetireChild(s), log)
    ensures SameLinks(s.(parent := None, child := None), RetireChild(s))
  {
    var t := RetireChild(s);
    forall k | 0 <= k < |log|
      ensures EventFits(t, log[k]) && ByeHeld(t, log[k], log)
    {
      assert EventFits(s, log[k]) && ByeHeld(s, log[k], log);
    }
  }

  lemma AckLoses(a: Slot, log: seq<Event>)
    requires SlotOk(a) && LiveClient(a) && !IsInvite(a) && SlotLogged(a, log)
    ensures SlotOk(a.(child := None)) && SlotLogged(a.(child := None), log)
    ensures RetireChild(a.(child := None)) == RetireChild(a)
  {
    NoChildLogged(a, log);
  }

  lemma InviteLoses(s: Slot, log: seq<Event>)
    requires SlotOk(s) && LiveClient(s) && s.state.Terminated? && SlotLogged(s, log)
    ensures SlotOk(s.(child := None)) && SlotLogged(s.(child := None), log)
  {
    NoChildLogged(s, log);
  }

  lemma ChildGoes(tm: Tm, i: nat, a: nat)
    requires Inv(tm) && i < |tm.slots| && a < |tm.slots| && LiveClient(tm.slots[i])
    requires IsInvite(tm.slots[i]) && tm.slots[i].state.Terminated?
    requires tm.slots[i].child == Some(a) && tm.slots[a].child.None?
    ensures a != i
    ensures Inv(tm.(slots := tm.slots[i := tm.slots[i].(child := None)][a := RetireChild(tm.slots[a])]))
  {
    hide Inv;
    OfSlot(tm, i);
    OfSlot(tm, a);
    InviteLoses(tm.slots[i], tm.log);
    RetireOk(tm.slots[a], tm.log);
    UnlinkInv(tm, i, a, tm.slots[i].(child := None), RetireChild(tm.slots[a]));
  }

  lemma GrandchildGoes(tm: Tm, a: nat, b: nat)
    requires Inv(tm) && a < |tm.slots| && b < |tm.slots| && LiveClient(tm.slots[a])
    requires !IsInvite(tm.slots[a]) && tm.slots[a].child == Some(b)
    ensures a != b
    ensures Inv(tm.(slots := tm.slots[a := tm.slots[a].(child := None)][b := RetireChild(tm.slots[b])]))
  {
    hide Inv;
    OfSlot(tm, a);
    OfSlot(tm, b);
    AckLoses(tm.slots[a], tm.log);
    RetireOk(tm.slots[b], tm.log);
    UnlinkInv(tm, a, b, tm.slots[a].(child := None), RetireChild(tm.slots[b]));
  }

  // The ACK without the BYE behind it
  lemma AckAlone(tm: Tm, i: nat, a: nat)
    requires Inv(tm) && i < |tm.slots| && a < |tm.slots| && LiveClient(tm.slots[i])
    requires IsInvite(tm.slots[i]) && tm.slots[i].child == Some(a)
    requires tm.slots[a].child.Some?
    ensures var b := tm.slots[a].child.value;
      && b < |tm.slots| && b != i && b != a && a != i
      && Inv(tm.(slots := tm.slots[a := tm.slots[a].(child := None)][b := RetireChild(tm.slots[b])]))
      && RetireChild(tm.slots[a].(child := None)) == RetireChild(tm.slots[a])
  {
    hide Inv, SlotLogged, ByeLogged, SlotOk;
    OfSlot(tm, i);
    OfSlot(tm, a);
    var b := tm.slots[a].child.value;
    OfSlot(tm, b);
    GrandchildGoes(tm, a, b);
    AckLoses(tm.slots[a], tm.log);
  }

  // The chain below a terminated INVITE goes as a whole
  lemma TerminateInv(tm: Tm, i: nat)
    requires Inv(tm) && i < |tm.slots| && LiveClient(tm.slots[i])
    requires tm.slots[i].state.Terminated? && !tm.slots[i].verb.ACK?
    ensures Inv(tm.(slots := TerminateChild(tm.slots, i)))
    ensures TerminateChild(tm.slots, i)[i] == tm.slots[i].(child := None)
  {
    hide Inv, RetireChild, SlotLogged, ByeLogged, SlotOk, TerminateChild;
    OfSlot(tm, i);
    var s := tm.slots[i];
    if s.child.None? {
      NoChain(tm, i);
    } else {
      var a := s.child.value;
      if tm.slots[a].child.Some? {
        var b := tm.slots[a].child.value;
        AckAlone(tm, i, a);
        var t := tm.(slots := tm.slots[a := tm.slots[a].(child := None)][b := RetireChild(tm.slots[b])]);
        ChildGoes(t, i, a);
        ChainOfTwo(tm, i, a, b);
      } else {
        ChildGoes(tm, i, a);
        ChainOfOne(tm, i, a);
      }
    }
  }

  lemma NoChain(tm: Tm, i: nat)
    requires i < |tm.slots| && tm.slots[i].child.None?
    ensures tm.(slots := TerminateChild(tm.slots, i)) == tm
    ensures TerminateChild(tm.slots, i)[i] == tm.slots[i].(child := None)
  {
    assert tm.slots[i].(child := None) == tm.slots[i];
  }

  lemma ChainOfOne(tm: Tm, i: nat, a: nat)
    requires i < |tm.slots| && a < |tm.slots| && a != i
    requires tm.slots[i].child == Some(a) && tm.slots[a].child.None?
    ensures TerminateChild(tm.slots, i) ==
            tm.slots[i := tm.slots[i].(child := None)][a := RetireChild(tm.slots[a])]
  {
    hide RetireChild;
  }

  lemma ChainOfTwo(tm: Tm, i: nat, a: nat, b: nat)
    requires i < |tm.slots| && a < |tm.slots| && b < |tm.slots| && a != i && b != i && b != a
    requires tm.slots[i].child == Some(a) && tm.slots[a].child == Some(b)
    requires RetireChild(tm.slots[a].(child := None)) == RetireChild(tm.slots[a])
    ensures var t := tm.slots[a := tm.slots[a].(child := None)][b := RetireChild(tm.slots[b])];
      TerminateChild(tm.slots, i) == t[i := t[i].(child := None)][a := RetireChild(t[a])]
  {
    hide RetireChild;
  }

  // Terminating commutes with releasing the request of i itself
  lemma TerminateReleased(slots: seq<Slot>, i: nat, s: Slot)
    requires i < |slots| && slots[i] == s
    requires s.child.Some? ==>
               s.child.value != i && s.child.value < |slots|
               && slots[s.child.value].child != Some(i)
    ensures TerminateChild(slots[i := ReleaseOutbound(s)], i)
         == TerminateChild(slots, i)[i := ReleaseOutbound(TerminateChild(slots, i)[i])]
  {
  }

  function Expired(s: Slot): Slot {
    ClearTimer(MarkTerminated(s))
  }

  lemma ExpiredOk(s: Slot)
    requires SlotOk(s) && LiveClient(s) && !s.timer.NoTimer?
    ensures var t := ReleaseOutbound(Expired(s));
      SlotOk(t) && Calm(s, t) && t.state.Terminated? && t.app == s.app && t.attempt == s.attempt
  {
  }

  lemma ExpiredFacts(s: Slot)
    ensures var t := Expired(s);
      && t.active == s.active && t.state.Terminated? && t.child == s.child
      && t.flags.abandoned == s.flags.abandoned && t.gen == s.gen && t.attempt == s.attempt
      && ReleaseOutbound(t).(child := None) == ReleaseOutbound(t.(child := None))
      && t.app == s.app && t.role == s.role && t.verb == s.verb
  {
  }

  // Everything terminated, and the request released already
  lemma FireQuietly(tm: Tm, i: nat)
    requires Inv(tm) && i < |tm.slots| && LiveClient(tm.slots[i])
    requires !tm.slots[i].timer.NoTimer?
    ensures var t := Put(tm, i, Expired(tm.slots[i]));
            var u := t.(slots := TerminateChild(t.slots, i));
      && u.slots[i] == Expired(tm.slots[i]).(child := None)
      && Inv(Put(u, i, ReleaseOutbound(u.slots[i])))
  {
    hide Inv, RetireChild, ReleaseOutbound, Expired;
    var s := tm.slots[i];
    var x := Expired(s);
    OfSlot(tm, i);
    ExpiredOk(s);
    ExpiredFacts(s);
    CalmPut(tm, i, ReleaseOutbound(x));
    var t := Put(tm, i, x);
    var q := Put(tm, i, ReleaseOutbound(x));
    TerminateInv(q, i);
    if s.child.Some? {
      OfSlot(tm, s.child.value);
      NotOwnGrandchild(tm, i);
    }
    PutPut(tm, i, x, ReleaseOutbound(x));
    TerminateReleased(t.slots, i, x);
    TerminateOwn(t.slots, i);
  }

  lemma TerminateOwn(slots: seq<Slot>, i: nat)
    requires i < |slots|
    requires slots[i].child.Some? ==>
               slots[i].child.value != i && slots[i].child.value < |slots|
               && slots[slots[i].child.value].child != Some(i)
    ensures TerminateChild(slots, i)[i] == slots[i].(child := None)
  {
    assert slots[i].child.None? ==> slots[i].(child := None) == slots[i];
  }

  lemma NotOwnGrandchild(tm: Tm, i: nat)
    requires Inv(tm) && i < |tm.slots| && LiveClient(tm.slots[i]) && tm.slots[i].child.Some?
    requires !tm.slots[i].verb.ACK?
    ensures var c := tm.slots[i].child.value;
      c != i && c < |tm.slots| && tm.slots[c].child != Some(i)
  {
    OfSlot(tm, i);
    OfSlot(tm, tm.slots[i].child.value);
  }

  lemma FireTimerInv(tm: Tm, i: nat, ch: Choice)
    requires Inv(tm) && i < |tm.slots| && LiveClient(tm.slots[i])
    requires !tm.slots[i].timer.NoTimer? && !tm.slots[i].state.Terminated?
    ensures Inv(FireTimer(tm, i, ch))
  {
    hide Inv, Tell, ReleaseOutbound, TerminateChild, ClearTimer, MarkTerminated;
    var s := tm.slots[i];
    OfSlot(tm, i);
    FireQuietly(tm, i);
    ExpiredFacts(s);
    var t := Put(tm, i, Expired(s));
    var u := t.(slots := TerminateChild(t.slots, i));
    var x := u.slots[i];
    var l := !s.finalReported && s.app.timeout;
    assert Put(u, i, x) == u;
    TellReleased(u, i, x, l, TimedOut, ch.react);
    if l {
      OpenSlot(s, tm.log);
    }
    ReleasedFacts(x);
    TellInv(Put(u, i, ReleaseOutbound(x)), i, l, TimedOut, ch.react);
  }

  lemma ReleasedFacts(s: Slot)
    ensures var t := ReleaseOutbound(s);
      t.active == s.active && t.role == s.role && t.gen == s.gen && t.attempt == s.attempt
      && t.app == s.app && t.state == s.state && t.finalReported == s.finalReported
  {
  }
}
