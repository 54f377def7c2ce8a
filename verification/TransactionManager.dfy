module TransactionManager {
  // The transaction manager itself: a table of slots changed in place, each
  // operation proved to do what its specification as a function says.

  import opened Base
  import opened Slots
  import opened Table
  import opened ClientSteps
  import opened ServerSteps
  import opened Machine
  import opened History
  import opened HistoryKeeps
  import opened ReceiveKeeps
  import opened PumpKeeps
  import opened RunKeeps
  import opened Runs

  // --- The delay loops

  // `i` and `sends` are 8 bits wide, the delay 64
  method InviteSendDelay(p: Policy, sends: nat) returns (ms: nat)
    requires sends < 256
    ensures ms == InviteDelay(p, sends)
  {
    var delay := InviteBase(p);
    var i := 1;
    while i < sends
      invariant 1 <= i <= Max(1, sends)
      invariant delay == Doubled(InviteBase(p), i)
    {
      delay := (2 * delay) % 0x1_0000_0000_0000_0000;
      i := i + 1;
    }
    ms := delay % 0x1_0000_0000;
  }

  method OtherSendDelay(p: Policy, sends: nat) returns (ms: nat)
    requires sends < 256
    ensures ms == OtherDelay(p, sends)
  {
    ms := OtherBase(p);
    var i := 1;
    while i < sends
      invariant 1 <= i <= Max(1, sends)
      invariant OtherDelay(p, sends) == OtherDelayFrom(ms, p.t2, i, sends)
    {
      ms := 2 * ms;
      if ms >= p.t2 {
        return p.t2;
      }
      i := i + 1;
    }
  }

  // --- Chains of children

  // What the recursion over a chain of children relies on
  predicate ShortChain(slots: seq<Slot>, i: nat)
    requires i < |slots|
  {
    slots[i].child.Some? ==>
      var c := slots[i].child.value;
      && c < |slots| && c != i && slots[c].active
      && (slots[c].child.Some? ==>
            var b := slots[c].child.value;
            b < |slots| && b != c && b != i && slots[b].active && slots[b].child.None?)
  }

  function ChainLength(slots: seq<Slot>, i: nat): (n: nat)
    requires i < |slots| && ShortChain(slots, i)
    ensures n <= 2
  {
    if slots[i].child.None? then 0
    else if slots[slots[i].child.value].child.None? then 1
    else 2
  }

  lemma RetireTwice(s: Slot)
    ensures RetireChild(s.(child := None)) == RetireChild(s)
  {
  }

  lemma InvShort(tm: Tm, i: nat)
    requires Inv(tm) && i < |tm.slots| && LiveClient(tm.slots[i]) && !tm.slots[i].verb.ACK?
    ensures ShortChain(tm.slots, i)
  {
    OfSlot(tm, i);
    if tm.slots[i].child.Some? {
      var c := tm.slots[i].child.value;
      OfSlot(tm, c);
      if tm.slots[c].child.Some? {
        OfSlot(tm, tm.slots[c].child.value);
      }
    }
  }

  class Manager {
    const slots: array<Slot>
    var nactive: nat
    const reliable: bool
    var gens: nat
    ghost var clock: nat
    ghost var log: seq<Event>

    // The table as a value
    ghost function View(): (tm: Tm)
      reads this, slots
      ensures |tm.slots| == slots.Length
    {
      Tm(slots[..], nactive, reliable, gens, clock, log)
    }

    ghost predicate Valid()
      reads this, slots
    {
      Inv(View())
    }

    constructor (n: nat, reliable: bool)
      ensures fresh(slots) && slots.Length == n && Valid()
      ensures View() == Start(n, reliable)
    {
      slots := new Slot[n](_ => EMPTY);
      nactive, gens := 0, 0;
      this.reliable := reliable;
      clock, log := 0, [];
      new;
      assert slots[..] == seq(n, _ => EMPTY);
      StartInv(n, reliable);
    }

    // --- Dropping

    // The children first, then the transaction itself
    method DropTransaction(index: nat) returns (rc: Rc)
      modifies this, slots
      ensures (View(), rc) == Table.DropTransaction(old(View()), index)
    {
      if index >= slots.Length {
        return Inval;
      }
      if !slots[index].active {
        return NotFound;
      }
      ghost var was := slots[..];
      DropChildren(index);
      var p := slots[index].parent;
      if p.Some? && p.value < slots.Length && slots[p.value].active
         && slots[p.value].child == Some(index) {
        slots[p.value] := slots[p.value].(child := None);
      }
      slots[index] := EMPTY;
      nactive := if nactive > 0 then nactive - 1 else 0;
      assert slots[..] == DropFamily(was, index);
      return Ok;
    }

    // ... the children
    method DropChildren(index: nat)
      requires index < slots.Length && slots[index].active
      modifies this, slots
      ensures slots[index] == old(slots[index])
      ensures nactive == Max(0, old(nactive) - (FamilySize(old(slots[..]), index, slots.Length) - 1))
      ensures forall j :: 0 <= j < slots.Length ==>
                slots[j] == if j != index && InFamily(old(slots[..]), index, j) then EMPTY
                            else old(slots[j])
      ensures View() == old(View()).(slots := slots[..], nactive := nactive)
    {
      ghost var was := slots[..];
      var i := 0;
      while i < slots.Length
        modifies this`nactive, slots
        invariant i <= slots.Length
        invariant nactive == Max(0, old(nactive) - ChildrenUpTo(was, index, i))
        invariant forall j :: 0 <= j < slots.Length ==>
                    slots[j] == if j < i && j != index && InFamily(was, index, j) then EMPTY else was[j]
      {
        if i != index && slots[i].active && slots[i].parent == Some(index) {
          slots[i] := EMPTY;
          nactive := if nactive > 0 then nactive - 1 else 0;
        }
        i := i + 1;
      }
      ChildrenAndSelf(was, index, i);
    }

    // Dropping every terminated transaction
    method ReapTerminated()
      requires Valid()
      modifies this, slots
      ensures Valid() && View() == Table.Reap(old(View()))
    {
      hide Inv;
      ApplyInv(View(), ReapAll);
      if nactive == 0 {
        return;
      }
      var i := 0;
      while i < slots.Length
        modifies this, slots
        invariant i <= slots.Length
        invariant ReapFrom(View(), i) == Table.Reap(old(View()))
      {
        if slots[i].active && slots[i].state.Terminated? {
          var _ := DropTransaction(i);
        }
        i := i + 1;
      }
    }

    // --- Allocating

    // A free slot, or failing that the victim that would go first anyway
    method AllocSlot() returns (c: Option<nat>)
      modifies this, slots
      ensures c == AllocIndex(old(slots[..]))
      ensures View() == if c.Some? then Vacate(old(View()), c.value) else old(View())
    {
      ghost var was := slots[..];
      var i := 0;
      c := None;
      var due := 0;
      while i < slots.Length && slots[i].active
        invariant i <= slots.Length && (c.Some? ==> c.value < i)
        invariant AllocFrom(was, 0, None) == AllocFrom(was, i, c)
        invariant c.Some? ==> was[c.value].active && due == EvictKey(was[c.value])
      {
        if Evictable(slots[i]) {
          var key := EvictKey(slots[i]);
          if c.None? || key < due {
            c, due := Some(i), key;
          }
        }
        i := i + 1;
      }
      if i == slots.Length {
        if c.None? {
          return;
        }
        var _ := DropTransaction(c.value);
        i := c.value;
      }
      slots[i] := EMPTY;
      c := Some(i);
    }

    // ... and filled, as far as the storage allows
    method NewSlot(s: Slot, space: Space) returns (c: Option<nat>)
      modifies this, slots
      ensures (View(), c) == Table.NewSlot(old(View()), s, space)
    {
      c := AllocSlot();
      if c.None? {
        return;
      }
      match space {
        case Fits =>
          slots[c.value] := Awake(s, gens);
          nactive, gens := nactive + 1, gens + 1;
        case Full =>
          c := None;
        case FullLate =>
          nactive := nactive + 1;
          c := None;
      }
    }

    // --- Giving up on an INVITE

    method StartCancel(i: nat, space: Space) returns (ok: bool)
      requires i < slots.Length && slots[i].invite.Some?
      modifies this, slots
      ensures (View(), ok) == ClientSteps.StartCancel(old(View()), i, space)
    {
      hide Copies, CopyOf, Inv;
      var s := slots[i];
      var v := s.invite.value;
      if v.cancel.OnWire? {
        return true;
      }
      if !v.provisional {
        slots[i] := s.(invite := Some(v.(cancel := Scheduled)));
        return true;
      }
      var g := gens;
      var c := NewSlot(CloneOf(s, CANCEL, i), CloneSpace(s, space));
      if c.None? {
        return false;
      }
      ghost var t := View();
      if slots[i].invite.Some? {
        slots[i] := slots[i].(invite := Some(slots[i].invite.value.(cancel := OnWire)));
      }
      slots[i] := ClearInviteTimeout(slots[i]);
      assert slots[..] == t.slots[i := slots[i]];
      log := log + [CancelMade(s.gen, s.attempt, g, s.ident)];
      slots[c.value] := CancelReady(slots[c.value]);
      return true;
    }

    method Abandon(i: nat, space: Space)
      requires i < slots.Length && slots[i].invite.Some?
      modifies this, slots
      ensures View() == ClientSteps.Abandon(old(View()), i, space)
    {
      slots[i] := DetachCallbacks(slots[i]);
      if slots[i].sends == 0 {
        slots[i] := FinishAbandoned(slots[i]);
        return;
      }
      var ok := StartCancel(i, space);
      if !ok {
        slots[i] := FinishAbandoned(slots[i]);
      }
    }

    method Cancel(index: nat, space: Space) returns (rc: Rc)
      requires Valid() && Allowed(View(), Step.Cancel(index, space))
      modifies this, slots
      ensures Valid() && (View(), rc) == CancelTx(old(View()), index, space)
    {
      hide Inv, Allowed, ClientSteps.Abandon;
      ApplyInv(View(), Step.Cancel(index, space));
      if index >= slots.Length {
        return Inval;
      }
      if !slots[index].active {
        return NotFound;
      }
      var s := slots[index];
      if !IsInvite(s) || s.state.Completed? || s.state.Terminated?
        || s.child.Some? || s.finalReported
        || s.invite.None? || s.invite.value.appCancelled
      {
        return Unsupported;
      }
      slots[index] := s.(invite := Some(s.invite.value.(appCancelled := true)));
      if !s.flags.abandoned {
        Abandon(index, space);
        log := log + [Detached(s.gen)];
      }
      return Ok;
    }

    // --- Restarting, and telling the application

    method Restarted(index: nat, b: Build) returns (rc: Rc)
      modifies this, slots
      ensures (View(), rc) == NextTx(old(View()), index, b)
    {
      if index >= slots.Length {
        return Inval;
      }
      if !slots[index].active {
        return NotFound;
      }
      if slots[index].flags.abandoned {
        return Unsupported;
      }
      var c := slots[index].child;
      if c.Some? {
        if !(c.value < slots.Length && slots[c.value].active && slots[c.value].verb.ACK?) {
          return Unsupported;
        }
        slots[index] := slots[index].(child := None);
      }
      assert slots[..] == old(slots[..])[index := slots[index]];
      if !MayRestart(slots[index]) {
        return Unsupported;
      }
      slots[index] := Restart(slots[index], b);
      assert slots[..] == old(slots[..])[index := slots[index]];
      return if b.Built? then Ok else NoSpace;
    }

    method NextTransaction(index: nat, b: Build) returns (rc: Rc)
      requires Valid() && Allowed(View(), Next(index, b))
      modifies this, slots
      ensures Valid() && (View(), rc) == NextTx(old(View()), index, b)
    {
      hide Inv, Allowed, NextTx;
      ApplyInv(View(), Next(index, b));
      rc := Restarted(index, b);
    }

    method Tell(i: nat, listening: bool, what: Report, react: Reaction)
      requires i < slots.Length
      modifies this, slots
      ensures View() == ClientSteps.Tell(old(View()), i, listening, what, react)
    {
      if listening {
        log := log + [Told(slots[i].gen, slots[i].attempt, what)];
        if react.Retry? {
          var _ := Restarted(i, react.b);
        }
      }
    }

    // --- Responses

    method FindClient(r: Resp) returns (f: Option<nat>)
      ensures f == FindFrom(slots[..], r, 0)
    {
      var i := 0;
      while i < slots.Length
        invariant i <= slots.Length
        invariant FindFrom(slots[..], r, 0) == FindFrom(slots[..], r, i)
      {
        if Matches(slots[i], r) {
          return Some(i);
        }
        i := i + 1;
      }
      return None;
    }

    // The BYE of an abandoned call that got answered
    method QueueBye(i: nat, r: Resp, room: Room) returns (rc: Rc)
      requires i < slots.Length
      modifies this, slots
      ensures (View(), rc) == ClientSteps.QueueBye(old(View()), i, r, room)
    {
      var s := slots[i];
      if Class(r) != 2 || s.invite.None? || s.invite.value.byeStarted
        || s.child.None? || s.child.value >= slots.Length
      {
        return Ok;
      }
      if !room.byeFits {
        return BadMsg;
      }
      var a := s.child.value;
      var g, ackGen := gens, slots[a].gen;
      var b := NewSlot(ByeOf(s, i, r, reliable, room.byeBranch), room.byeSlot);
      if b.None? {
        return NoSpace;
      }
      slots[i] := WithBye(slots[i]);
      log := log + [ByeMade(s.gen, s.attempt, ackGen, g, s.ident, r.contact, room.byeBranch)];
      slots[a] := slots[a].(child := b);
      return Ok;
    }

    method NeedAck(i: nat, space: Space)
      requires i < slots.Length
      modifies this, slots
      ensures View() == ClientSteps.NeedAck(old(View()), i, space)
    {
      if slots[i].child.None? {
        var c := NewSlot(CloneOf(slots[i], ACK, i), CloneSpace(slots[i], space));
        if c.Some? {
          slots[i] := slots[i].(child := c);
        }
      }
    }

    // The final response to an INVITE: its ACK, built once and armed each
    // time, and the BYE of an abandoned call before that
    method HandleInviteFinal(i: nat, r: Resp, now: nat, room: Room) returns (rc: Rc)
      requires i < slots.Length
      modifies this, slots
      ensures (View(), rc) == InviteFinal(old(View()), i, r, now, room)
    {
      hide ClientSteps.NeedAck, FinalTail, InviteAnswered;
      slots[i] := InviteAnswered(slots[i], Class(r), now);
      NeedAck(i, room.ackSlot);
      var c := slots[i].child;
      if c.None? || c.value >= slots.Length {
        return NoSpace;
      }
      if !slots[c.value].built && !room.ackFits {
        return NoSpace;
      }
      rc := FinishFinal(i, c.value, r, now, room);
    }

    method FinishFinal(i: nat, a: nat, r: Resp, now: nat, room: Room) returns (rc: Rc)
      requires i < slots.Length && a < slots.Length
      modifies this, slots
      ensures (View(), rc) == FinalTail(old(View()), i, a, r, now, room)
    {
      hide ClientSteps.QueueBye, BuildAck, ClientSteps.ArmAck;
      var abandoned := slots[i].flags.abandoned;
      if !slots[a].built {
        log := log + [AckBuilt(slots[i].gen, slots[i].attempt, slots[a].gen, Class(r), slots[i].ident,
                               r.contact, room.ackBranch)];
        slots[a] := BuildAck(slots[a], slots[i], r, room.ackBranch);
      }
      if abandoned {
        rc := QueueBye(i, r, room);
        if rc != Ok {
          return;
        }
      }
      ArmAck(i, a, r, now);
      return Ok;
    }

    method ArmAck(i: nat, a: nat, r: Resp, now: nat)
      requires i < slots.Length && a < slots.Length
      modifies this, slots
      ensures View() == ClientSteps.ArmAck(old(View()), i, a, r, now)
    {
      slots[a] := slots[a].(nextSend := At(now));
      slots[i] := slots[i].(finalReported := true);
      log := log + [AckArmed(slots[i].gen, slots[a].gen, Class(r), slots[i].flags.abandoned)];
    }

    method HearRinging(i: nat, now: nat, room: Room)
      requires i < slots.Length && slots[i].invite.Some?
      modifies this, slots
      ensures View() == ClientSteps.HearRinging(old(View()), i, now, room)
    {
      hide ClientSteps.StartCancel, FinishAbandoned, ArmCleanup;
      slots[i] := Slots.Ringing(slots[i]);
      if slots[i].invite.value.cancel.Scheduled? {
        var ok := StartCancel(i, room.cancelSlot);
        ghost var w := slots[..];
        if !ok {
          slots[i] := FinishAbandoned(slots[i]);
        }
        slots[i] := ArmCleanup(slots[i], now);
        assert ok ==> slots[..] == w[i := ArmCleanup(w[i], now)];
      }
    }

    method HandleIncomingResponse(r: Resp, now: nat, room: Room, react: Reaction) returns (rc: Rc)
      requires Valid() && Allowed(View(), Hear(r, now, room, react))
      modifies this, slots
      ensures Valid() && View() == Apply(old(View()), Hear(r, now, room, react))
      ensures rc == Receive(old(View()), r, now, room, react).1
    {
      hide Inv, Allowed, ClientSteps.Tell, InviteFinal, ClientSteps.HearRinging, Slots.Quiet,
           OtherAnswered, ReleaseOutbound;
      ApplyInv(View(), Hear(r, now, room, react));
      rc := TakeResponse(r, now, room, react);
      clock := now;
    }

    method TakeResponse(r: Resp, now: nat, room: Room, react: Reaction) returns (rc: Rc)
      modifies this, slots
      ensures (View(), rc) == Receive(old(View()), r, now, room, react)
    {
      hide HearInvite, HearOther;
      var f := FindClient(r);
      if f.None? {
        return NotFound;
      }
      var i := f.value;
      log := log + [Heard(slots[i].gen, slots[i].attempt, Class(r), r.contact)];
      if IsInvite(slots[i]) && Class(r) == 1 && slots[i].finalReported {
        return Ok;
      }
      slots[i] := Slots.Quiet(slots[i]);
      if IsInvite(slots[i]) && slots[i].invite.Some? {
        rc := TakeInviteResponse(i, r, now, room, react);
      } else {
        TakeOtherResponse(i, r, now, react);
        rc := Ok;
      }
    }

    method TakeInviteResponse(i: nat, r: Resp, now: nat, room: Room, react: Reaction) returns (rc: Rc)
      requires i < slots.Length && slots[i].invite.Some?
      modifies this, slots
      ensures (View(), rc) == HearInvite(old(View()), i, r, now, room, react)
    {
      hide ClientSteps.Tell, InviteFinal, ClientSteps.HearRinging, ReleaseOutbound;
      var first := !slots[i].finalReported;
      if Class(r) < 2 {
        if Class(r) == 1 {
          HearRinging(i, now, room);
        }
        Tell(i, slots[i].app.response, Progress, react);
        return Ok;
      }
      rc := HandleInviteFinal(i, r, now, room);
      if rc == Ok {
        Tell(i, first && slots[i].app.response, Final, react);
        Settle(i);
      }
    }

    method TakeOtherResponse(i: nat, r: Resp, now: nat, react: Reaction)
      requires i < slots.Length
      modifies this, slots
      ensures View() == HearOther(old(View()), i, r, now, react)
    {
      hide ClientSteps.Tell, OtherAnswered, ReleaseOutbound;
      var s := slots[i];
      if Class(r) < 2 {
        Tell(i, s.app.response, Progress, react);
      } else {
        slots[i] := OtherAnswered(s, now);
        ghost var t := View();
        assert t == Put(old(View()), i, OtherAnswered(s, now));
        Tell(i, !s.finalReported && s.app.response, Final, react);
        Settle(i);
      }
    }

    method Settle(i: nat)
      requires i < slots.Length
      modifies slots
      ensures View() == ClientSteps.Settle(old(View()), i)
    {
      if !slots[i].state.Calling? && !WaitsForInviteAck(slots[i]) {
        slots[i] := ReleaseOutbound(slots[i]);
      }
    }

    // --- The timer pump, client side

    method ExpireInvite(i: nat, now: nat, ch: Choice)
      requires i < slots.Length && slots[i].invite.Some?
      modifies this, slots
      ensures View() == ExpireLive(old(View()), i, now, ch)
    {
      hide ClientSteps.Tell, ClientSteps.Abandon, ArmCleanup;
      var s := slots[i];
      Abandon(i, ch.cancelSlot);
      slots[i] := ArmCleanup(slots[i], now);
      Tell(i, s.app.timeout, TimedOut, ch.react);
      log := log + [Detached(s.gen)];
    }

    // Down the chain of children, the last one first
    method TerminateChild(i: nat)
      requires i < slots.Length && ShortChain(slots[..], i)
      modifies slots
      ensures slots[..] == ClientSteps.TerminateChild(old(slots[..]), i)
      decreases ChainLength(slots[..], i)
    {
      hide RetireChild;
      if slots[i].child.None? {
        return;
      }
      var c := slots[i].child.value;
      ghost var s := slots[c];
      TerminateChild(c);
      RetireTwice(s);
      slots[c] := RetireChild(slots[c]);
      slots[i] := slots[i].(child := None);
    }

    method FireTimer(i: nat, ch: Choice)
      requires i < slots.Length && ShortChain(slots[..], i)
      modifies this, slots
      ensures View() == ClientSteps.FireTimer(old(View()), i, ch)
    {
      hide ClientSteps.Tell, ClientSteps.TerminateChild, ReleaseOutbound, ClearTimer,
           MarkTerminated;
      var s := slots[i];
      ExpiredFacts(s);
      slots[i] := ClearTimer(MarkTerminated(s));
      TerminateChild(i);
      Tell(i, !s.finalReported && s.app.timeout, TimedOut, ch.react);
      if !slots[i].state.Calling? {
        slots[i] := ReleaseOutbound(slots[i]);
      }
    }

    // Timer B, and the next copy unless the transport or the peer makes that
    // unnecessary
    method PostSendInvite(i: nat, now: nat)
      requires i < slots.Length && slots[i].sends < 256
      modifies slots
      ensures slots[..] == old(slots[..])[i := Slots.PostSendInvite(old(slots[i]), now)]
    {
      hide InviteDelay, TimerBMs;
      if WaitsForInviteAck(slots[i]) {
        slots[i] := slots[i].(nextSend := Never);
        return;
      }
      slots[i] := ArmTimerB(slots[i], now);
      if slots[i].flags.reliable || (slots[i].invite.Some? && slots[i].invite.value.provisional) {
        slots[i] := slots[i].(nextSend := Never);
      } else {
        var ms := InviteSendDelay(slots[i].policy, slots[i].sends);
        slots[i] := slots[i].(nextSend := At(now + ms));
      }
    }

    // Timer F, and the next copy
    method PostSendOther(i: nat, now: nat)
      requires i < slots.Length && slots[i].sends < 256
      modifies slots
      ensures slots[..] == old(slots[..])[i := Slots.PostSendOther(old(slots[i]), now)]
    {
      hide OtherDelay, TimerFMs;
      if slots[i].timer.NoTimer? {
        slots[i] := slots[i].(timer := TimerF, due := At(now + TimerFMs(slots[i].policy)));
      }
      if slots[i].flags.reliable {
        slots[i] := slots[i].(nextSend := Never);
      } else {
        var ms := OtherSendDelay(slots[i].policy, slots[i].sends);
        slots[i] := slots[i].(nextSend := At(now + ms));
      }
    }

    // An ACK went out: the BYE behind it is free to go
    method ReleaseBye(i: nat, now: nat) returns (next: Deadline)
      requires i < slots.Length
      modifies slots
      ensures (View(), next) == AckSent(old(View()), i, now)
    {
      slots[i] := slots[i].(nextSend := Never);
      next := Never;
      var c := slots[i].child;
      if c.Some? && c.value < slots.Length {
        var s := slots[i];
        slots[c.value] := slots[c.value].(parent := None, nextSend := At(now));
        slots[i] := s.(child := None);
        next := At(now);
        assert slots[..] == old(slots[..])[c.value := old(slots[c.value]).(
                              parent := None, nextSend := At(now))][i := s.(child := None)];
      }
    }

    method Send(i: nat, now: nat, ch: Choice) returns (next: Deadline, rc: Rc)
      requires i < slots.Length
      modifies this, slots
      ensures Ran(View(), next, rc) == SendNow(old(View()), i, now, ch)
    {
      hide Slots.PostSendInvite, Slots.PostSendOther, NoteSend, AckSent, Wake;
      if !slots[i].built {
        if !ch.build.Built? {
          slots[i] := slots[i].(matchable := slots[i].matchable || ch.build.IdsOnly?);
          return Never, NoSpace;
        }
        slots[i] := slots[i].(built := true, matchable := true);
      }
      ghost var b := slots[i];
      assert slots[..] == old(slots[..])[i := b];
      if !ch.sendOk {
        return Never, SendFailed;
      }
      log := log + [Sent(slots[i].gen, slots[i].attempt, slots[i].verb, slots[i].ident, now)];
      NoteSendSame(b, now);
      slots[i] := NoteSend(slots[i], now);
      assert slots[..] == old(slots[..])[i := NoteSend(b, now)];
      if slots[i].verb.ACK? {
        next := ReleaseBye(i, now);
        next := Earliest(next, Wake(slots[i]));
      } else {
        if IsInvite(slots[i]) {
          PostSendInvite(i, now);
        } else {
          PostSendOther(i, now);
        }
        next := Wake(slots[i]);
      }
      return next, Ok;
    }

    // usipy_sip_tm_uac_run
    method UacRun(i: nat, now: nat, ch: Choice) returns (next: Deadline, rc: Rc)
      requires i < slots.Length && Valid() && LiveClient(slots[i])
      modifies this, slots
      ensures Ran(View(), next, rc) == ClientRun(old(View()), i, now, ch)
    {
      hide Inv, ArmCleanup, ExpireLive, ClientSteps.FireTimer, SendNow, FinishAbandoned, Wake;
      if slots[i].state.Terminated? || slots[i].flags.terminated {
        return Never, Ok;
      }
      ArmInv(View(), i, now);
      ArmCleanupFacts(slots[i], now);
      slots[i] := ArmCleanup(slots[i], now);
      assert View() == Put(old(View()), i, slots[i]);
      if InviteDue(slots[i], now) {
        if !slots[i].flags.abandoned {
          ExpireInvite(i, now, ch);
          return At(now), Ok;
        }
        slots[i] := FinishAbandoned(slots[i]);
        return Never, Ok;
      }
      if TimerDue(slots[i], now) {
        TimerHasShortChain(View(), i);
        FireTimer(i, ch);
        return Never, Ok;
      }
      if !Due(slots[i].nextSend, now) {
        return Wake(slots[i]), Ok;
      }
      next, rc := Send(i, now, ch);
    }

    // --- The timer pump, server side

    // usipy_sip_tm_uas_run
    method UasRun(i: nat, now: nat, ch: Choice) returns (next: Deadline, rc: Rc)
      requires i < slots.Length
      modifies this, slots
      ensures Ran(View(), next, rc) == ServerRun(old(View()), i, now, ch)
    {
      hide ServerTerminated, ServerSent, ArmTimerL, ServerWake, ClientSlot;
      var s := slots[i];
      if TimerDue(s, now) {
        slots[i] := ServerTerminated(s);
        if s.timer.TimerL? && s.server.owner.Some? && ch.hangup.Some? {
          var _ := NewSlot(
            ClientSlot(reliable, BYE, ch.hangup.value, s.policy, 0, false, false, false),
            ch.hangupSlot);
        }
        return Never, Ok;
      }
      if s.state.Terminated? || !Due(s.nextSend, now) {
        return ServerWake(s), Ok;
      }
      slots[i] := ArmTimerL(s, now);
      if !ch.sendOk {
        return Never, SendFailed;
      }
      log := log + [Replied(slots[i].gen, slots[i].server.status, now)];
      slots[i] := ServerSent(slots[i], now, ch.again);
      return ServerWake(slots[i]), Ok;
    }

    // usipy_sip_tm_run: the slots in turn, up to the first failure
    method Run(now: nat, ch: nat -> Choice) returns (next: Deadline, rc: Rc)
      requires Valid() && clock <= now
      modifies this, slots
      ensures Valid()
      ensures var r := Pump(old(View()), now, ch);
              View() == r.tm.(clock := now) && next == r.next && rc == r.rc
    {
      hide Inv, ClientRun, ServerRun;
      ApplyInv(View(), PumpAt(now, ch));
      next, rc := Never, Ok;
      var i := 0;
      while i < slots.Length
        modifies this, slots
        invariant i <= slots.Length && rc == Ok && Inv(View())
        invariant PumpFrom(View(), i, now, ch, next) == Pump(old(View()), now, ch)
      {
        RunSlotInv(View(), i, now, ch(i));
        if slots[i].active {
          var n: Deadline;
          if slots[i].role.Client? {
            n, rc := UacRun(i, now, ch(i));
          } else {
            n, rc := UasRun(i, now, ch(i));
          }
          next := Earliest(next, n);
          if rc != Ok {
            break;
          }
        }
        i := i + 1;
      }
      clock := now;
    }

    // --- Requests

    method FindServer(p: Slot -> bool) returns (f: Option<nat>)
      ensures f == FirstFrom(slots[..], p, 0)
    {
      var i := 0;
      while i < slots.Length
        invariant i <= slots.Length
        invariant FirstFrom(slots[..], p, 0) == FirstFrom(slots[..], p, i)
      {
        if p(slots[i]) {
          return Some(i);
        }
        i := i + 1;
      }
      return None;
    }

    method FindTransaction(q: Req) returns (h: Meaning)
      ensures h == Classify(View(), q)
    {
      var a := FindServer(s => AckMatches(s, q));
      if a.Some? {
        return AckHeard(a.value);
      }
      var c := FindServer(s => CancelMatches(s, q));
      if c.Some? {
        return CancelHeard(c.value);
      }
      var t := FindServer(s => SameRequest(s, q));
      return if t.Some? then Repeated(t.value) else Unseen;
    }

    // usipy_sip_tm_handle_incoming_request, up to what a CANCEL or a new
    // request makes the application do
    method HandleIncomingRequest(q: Req, now: nat) returns (h: Meaning)
      requires Valid() && clock <= now
      modifies this, slots
      ensures Valid() && View() == Request(old(View()), q, now).(clock := now)
      ensures h == Classify(old(View()), q)
    {
      hide Inv, AckSlot, Classify, Again;
      ApplyInv(View(), Ask(q, now));
      clock := now;
      h := FindTransaction(q);
      ClassifyAnyTime(old(View()), q, now);
      match h {
        case AckHeard(i) =>
          log := log + [Acked(slots[i].gen)];
          slots[i] := AckSlot(slots[i], now);
        case Repeated(i) =>
          slots[i] := Again(slots[i], now);
        case _ =>
      }
    }

    // usipy_sip_tm_send_uas_response
    method SendUasResponse(index: nat, code: nat, noAck: bool, fits: bool) returns (rc: Rc)
      requires Valid() && Allowed(View(), Respond(index, code, noAck, fits))
      modifies slots
      ensures Valid() && (View(), rc) == SendResponse(old(View()), index, code, noAck, fits)
    {
      hide Inv, Responded;
      ApplyInv(View(), Respond(index, code, noAck, fits));
      if !slots[index].active {
        return NotFound;
      }
      if slots[index].state.Terminated? || slots[index].server.status >= 200 {
        return Unsupported;
      }
      if !fits {
        return NoSpace;
      }
      slots[index] := Responded(slots[index], code, noAck);
      return Ok;
    }

    // --- New transactions

    method NewUac(verb: Method, ident: Ident, policy: Policy, expires: nat, onResponse: bool,
                  onTimeout: bool, built: bool, space: Space) returns (c: Option<nat>)
      requires Valid() && !verb.ACK? && !verb.CANCEL?
      modifies this, slots
      ensures Valid()
      ensures Generic(verb) ==> c.None? && View() == old(View())
      ensures !Generic(verb) ==>
        (View(), c) == Table.NewSlot(old(View()),
          ClientSlot(reliable, verb, ident, policy, expires, onResponse, onTimeout, built), space)
    {
      hide Inv, Table.NewSlot, ClientSlot;
      ApplyInv(View(), NewClient(verb, ident, policy, expires, onResponse, onTimeout, built, space));
      if Generic(verb) {
        return None;
      }
      c := NewSlot(ClientSlot(reliable, verb, ident, policy, expires, onResponse, onTimeout, built),
                   space);
    }

    method NewUas(q: Req, from: Ident, policy: Policy, localTag: nat, onCancel: bool, noAck: bool,
                  space: Space) returns (c: Option<nat>, rc: Rc)
      requires Valid()
      modifies this, slots
      ensures Valid()
      ensures (View(), c, rc) == NewServer(old(View()),
                ServerSlot(reliable, q.verb, from, policy, localTag, onCancel, noAck), q, space)
    {
      hide Inv, Table.NewSlot;
      ApplyInv(View(), NewServerTx(q, from, policy, localTag, onCancel, noAck, space));
      if q.verb.ACK? || Generic(q.verb) {
        return None, Unsupported;
      }
      var t := FindServer(s => SameRequest(s, q));
      if t.Some? {
        return None, Unsupported;
      }
      c := NewSlot(ServerSlot(reliable, q.verb, from, policy, localTag, onCancel, noAck), space);
      rc := if c.Some? then Ok else NoSpace;
    }

    // --- The owner of an accepted INVITE

    method SetOwner(index: nat, owner: nat) returns (rc: Rc)
      requires Valid()
      modifies slots
      ensures Valid() && (View(), rc) == ServerSteps.SetOwner(old(View()), index, owner)
    {
      hide Inv;
      ApplyInv(View(), Own(index, owner));
      if index >= slots.Length || !LiveServer(slots[index]) {
        return NotFound;
      }
      slots[index] := WithOwner(slots[index], Some(owner));
      return Ok;
    }

    method ClearOwner(index: nat, owner: nat) returns (rc: Rc)
      requires Valid()
      modifies slots
      ensures Valid() && (View(), rc) == ServerSteps.ClearOwner(old(View()), index, owner)
    {
      hide Inv;
      ApplyInv(View(), Disown(index, owner));
      if index >= slots.Length || !LiveServer(slots[index])
        || slots[index].server.owner != Some(owner)
      {
        return NotFound;
      }
      slots[index] := WithOwner(slots[index], None);
      return Ok;
    }

    method SendAt(index: nat, owner: nat, at: Deadline) returns (rc: Rc)
      requires Valid()
      modifies slots
      ensures Valid() && (View(), rc) == ServerSteps.SendAt(old(View()), index, owner, at)
    {
      hide Inv;
      ApplyInv(View(), ResendAt(index, owner, at));
      if index >= slots.Length || !LiveServer(slots[index])
        || slots[index].server.owner != Some(owner)
      {
        return NotFound;
      }
      slots[index] := slots[index].(nextSend := at);
      return Ok;
    }

    // usipy_sip_tm_uas_owned_tx
    method Owned(index: nat, owner: nat) returns (b: bool)
      ensures b == OwnedBy(View(), index, owner)
    {
      b := index < slots.Length && LiveServer(slots[index])
           && slots[index].server.owner == Some(owner);
    }

    // A transaction of the application's own to drop
    method Forget(index: nat) returns (rc: Rc)
      requires Valid() && Allowed(View(), DropTx(index))
      modifies this, slots
      ensures Valid() && (View(), rc) == Table.DropTransaction(old(View()), index)
    {
      hide Inv, Allowed;
      ApplyInv(View(), DropTx(index));
      rc := DropTransaction(index);
    }
  }

  // The family of `index` but for itself
  function ChildrenUpTo(slots: seq<Slot>, index: nat, n: nat): nat
    requires index < |slots| && n <= |slots|
  {
    if n == 0 then 0
    else ChildrenUpTo(slots, index, n - 1)
         + (if n - 1 != index && InFamily(slots, index, n - 1) then 1 else 0)
  }

  lemma {:induction false} ChildrenAndSelf(slots: seq<Slot>, index: nat, n: nat)
    requires index < |slots| && n <= |slots|
    ensures FamilySize(slots, index, n) ==
            ChildrenUpTo(slots, index, n) + (if index < n then 1 else 0)
  {
    if n > 0 {
      ChildrenAndSelf(slots, index, n - 1);
    }
  }

  lemma NoteSendSame(s: Slot, now: nat)
    ensures var n := NoteSend(s, now); n.verb == s.verb && n.sends < 256
  {
  }

  lemma TimerHasShortChain(tm: Tm, i: nat)
    requires Inv(tm) && i < |tm.slots| && LiveClient(tm.slots[i]) && !tm.slots[i].timer.NoTimer?
    ensures ShortChain(tm.slots, i)
  {
    OfSlot(tm, i);
    InvShort(tm, i);
  }

  lemma ClassifyAnyTime(tm: Tm, q: Req, now: nat)
    ensures Classify(tm.(clock := now), q) == Classify(tm, q)
  {
  }
}
