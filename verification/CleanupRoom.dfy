module CleanupRoom {
  // The room a final response to an abandoned INVITE needs, for its ACK and for
  // the BYE that ends the call, told from the table before it is handled.

  import opened Base
  import opened Slots
  import opened Table
  import opened ClientSteps
  import opened Links
  import opened History
  import opened HistoryKeeps
  import opened AbandonKeeps
  import opened ReceiveKeeps
  import opened FinalKeeps
  import opened FinalShape
  import opened Cleanup

  // A slot that is free, or to be had
  predicate Spare(s: Slot) {
    !s.active || Evictable(s)
  }

  predicate OneSpare(slots: seq<Slot>) {
    exists j :: 0 <= j < |slots| && Spare(slots[j])
  }

  // Another one, once slot c is taken and its children are gone
  predicate SpareWithout(slots: seq<Slot>, c: nat)
    requires c < |slots|
  {
    exists j :: 0 <= j < |slots| && j != c && (Spare(slots[j]) || InFamily(slots, c, j))
  }

  // The ACK there is was built, or can be; or there is a slot for one, and
  // its Request-URI can be copied
  predicate AckRoom(slots: seq<Slot>, i: nat, room: Room)
    requires i < |slots|
  {
    match slots[i].child
    case Some(a) => room.ackFits || (a < |slots| && slots[a].built)
    case None => room.ackFits && CloneSpace(slots[i], room.ackSlot).Fits? && OneSpare(slots)
  }

  // ... and one for the BYE besides
  predicate ByeRoom(slots: seq<Slot>, i: nat, room: Room)
    requires i < |slots|
  {
    && room.byeFits && room.byeSlot.Fits?
    && if slots[i].child.Some? then OneSpare(slots)
       else var c := AllocIndex(slots); c.Some? && SpareWithout(slots, c.value)
  }

  predicate HasRoom(slots: seq<Slot>, i: nat, r: Resp, room: Room)
    requires i < |slots|
  {
    Class(r) >= 2 ==>
      AckRoom(slots, i, room)
      && (Class(r) == 2 && !ByeFlag(slots[i]) ==> ByeRoom(slots, i, room))
  }

  // --- What happens to the INVITE itself makes no room

  predicate Kept(s: Slot) {
    s.active && !Evictable(s)
  }

  lemma {:induction false} AllocSame(slots: seq<Slot>, i: nat, x: Slot, k: nat, best: Option<nat>)
    requires i < |slots| && Kept(slots[i]) && Kept(x)
    requires k <= |slots| && (best.Some? ==> best.value < |slots| && best.value != i)
    ensures AllocFrom(slots[i := x], k, best) == AllocFrom(slots, k, best)
    decreases |slots| - k
  {
    hide Evictable, EvictKey;
    if k < |slots| && slots[k].active {
      AllocSame(slots, i, x, k + 1, if Better(slots, k, best) then Some(k) else best);
    }
  }

  lemma SpareSame(slots: seq<Slot>, i: nat, x: Slot)
    requires i < |slots| && Kept(slots[i]) && Kept(x)
    ensures AllocIndex(slots[i := x]) == AllocIndex(slots)
    ensures OneSpare(slots[i := x]) == OneSpare(slots)
  {
    hide Evictable;
    AllocSame(slots, i, x, 0, None);
    AllocRight(slots);
    AllocRight(slots[i := x]);
    SpareAlloc(slots);
    SpareAlloc(slots[i := x]);
  }

  lemma SpareAlloc(slots: seq<Slot>)
    ensures AllocIndex(slots).Some? <==> OneSpare(slots)
    ensures AllocIndex(slots).Some? ==> Spare(slots[AllocIndex(slots).value])
  {
    hide Evictable, AllocIndex;
    AllocRight(slots);
    if AllocIndex(slots).Some? {
      assert Spare(slots[AllocIndex(slots).value]);
    }
    if OneSpare(slots) {
      var j :| 0 <= j < |slots| && Spare(slots[j]);
      assert !slots[j].active || Evictable(slots[j]);
    }
  }

  lemma WithoutSame(slots: seq<Slot>, i: nat, x: Slot, c: nat)
    requires i < |slots| && Kept(slots[i]) && Kept(x) && x.parent == slots[i].parent
    requires c < |slots| && c != i
    ensures SpareWithout(slots[i := x], c) == SpareWithout(slots, c)
  {
    hide Evictable;
    var t := slots[i := x];
    forall j | 0 <= j < |slots|
      ensures Spare(t[j]) == Spare(slots[j]) && InFamily(t, c, j) == InFamily(slots, c, j)
    {
    }
    if SpareWithout(slots, c) {
      var j :| 0 <= j < |slots| && j != c && (Spare(slots[j]) || InFamily(slots, c, j));
      assert Spare(t[j]) || InFamily(t, c, j);
    }
    if SpareWithout(t, c) {
      var j :| 0 <= j < |slots| && j != c && (Spare(t[j]) || InFamily(t, c, j));
      assert Spare(slots[j]) || InFamily(slots, c, j);
    }
  }

  lemma RoomSame(slots: seq<Slot>, i: nat, x: Slot, r: Resp, room: Room)
    requires i < |slots| && Kept(slots[i]) && Kept(x)
    requires x.parent == slots[i].parent && x.child == slots[i].child && ByeFlag(x) == ByeFlag(slots[i])
    requires x.child != Some(i) && x.ident == slots[i].ident
    ensures HasRoom(slots[i := x], i, r, room) == HasRoom(slots, i, r, room)
  {
    hide Evictable, AllocIndex, ByeFlag, SpareWithout, OneSpare;
    SpareSame(slots, i, x);
    SpareAlloc(slots);
    if AllocIndex(slots).Some? {
      WithoutSame(slots, i, x, AllocIndex(slots).value);
    }
  }

  // --- The CANCEL

  lemma CancelRoom(tm: Tm, i: nat, space: Space)
    requires i < |tm.slots| && tm.slots[i].invite.Some?
    ensures var v := tm.slots[i].invite.value;
      StartCancel(tm, i, space).1 <==>
        v.cancel.OnWire? || !v.provisional || (CloneSpace(tm.slots[i], space).Fits? && OneSpare(tm.slots))
  {
    hide CloneOf, Vacate, Install, AllocIndex, OneSpare;
    SpareAlloc(tm.slots);
  }

  // An INVITE given up on enters the first phase, or the second if it rang,
  // unless there is nothing to clean up or no room for the CANCEL
  lemma AbandonEnters(tm: Tm, i: nat, space: Space)
    requires Inv(tm) && i < |tm.slots| && LiveClient(tm.slots[i]) && tm.slots[i].invite.Some?
    requires var s := tm.slots[i];
      !s.flags.abandoned && !s.state.Terminated? && !s.state.Completed? && !s.finalReported
    ensures var s, u := tm.slots[i], Abandon(tm, i, space).slots[i];
      if s.sends > 0
        && (s.invite.value.provisional ==> CloneSpace(s, space).Fits? && OneSpare(tm.slots))
      then Cleaning(u) && (PhaseNo(u) == 1 <==> s.invite.value.provisional)
      else u.state.Terminated?
  {
    hide Inv, OneSpare, StartCancel, Cleaning, Copies;
    var s := tm.slots[i];
    var d := DetachCallbacks(s);
    OfSlot(tm, i);
    GivenUpSlot(s, true);
    GivenUpSlot(s, false);
    if s.sends > 0 {
      DetachKept(s);
      SpareSame(tm.slots, i, d);
      CancelRoom(Put(tm, i, d), i, space);
      CalmPut(tm, i, d);
      StartCancelInv(Put(tm, i, d), i, space);
    }
  }

  lemma DetachKept(s: Slot)
    requires LiveClient(s) && s.invite.Some? && !s.state.Terminated? && !s.finalReported
    ensures Kept(s) && Kept(DetachCallbacks(s))
    ensures var d := DetachCallbacks(s);
      d.invite.Some? && d.invite.value.provisional == s.invite.value.provisional
      && d.invite.value.cancel == s.invite.value.cancel && d.sends == s.sends && d.ident == s.ident
  {
  }

  // --- The ACK

  // The table once a transaction with a parent was put in slot c
  lemma TakenRoom(tm: Tm, c: nat, s: Slot)
    requires Inv(tm) && AllocIndex(tm.slots) == Some(c) && s.parent.Some?
    ensures OneSpare(Install(Vacate(tm, c), c, s).slots) <==> SpareWithout(tm.slots, c)
  {
    hide Inv;
    AllocRight(tm.slots);
    SpareAlloc(tm.slots);
    var t := Install(Vacate(tm, c), c, s).slots;
    forall j | 0 <= j < |tm.slots|
      ensures Spare(t[j]) <==> j != c && (Spare(tm.slots[j]) || InFamily(tm.slots, c, j))
    {
      TakenAt(tm, c, s, j);
    }
    if OneSpare(t) {
      var j :| 0 <= j < |t| && Spare(t[j]);
      assert Spare(tm.slots[j]) || InFamily(tm.slots, c, j);
    }
    if SpareWithout(tm.slots, c) {
      var j :| 0 <= j < |t| && j != c && (Spare(tm.slots[j]) || InFamily(tm.slots, c, j));
      assert Spare(t[j]);
    }
  }

  lemma TakenAt(tm: Tm, c: nat, s: Slot, j: nat)
    requires Inv(tm) && c < |tm.slots| && Spare(tm.slots[c]) && s.parent.Some? && j < |tm.slots|
    ensures var t := Install(Vacate(tm, c), c, s).slots;
            Spare(t[j]) <==> j != c && (Spare(tm.slots[j]) || InFamily(tm.slots, c, j))
  {
    hide ClientEvictable, ServerEvictable;
    if tm.slots[c].active {
      DropExact(tm, c, j);
    } else if j != c && InFamily(tm.slots, c, j) {
      OfSlot(tm, j);
    }
  }

  lemma NeedAckRoom(tm: Tm, i: nat, space: Space)
    requires Inv(tm) && Answering(tm, i) && tm.slots[i].flags.abandoned && tm.slots[i].child.None?
    ensures var t := NeedAck(tm, i, space);
      && (t.slots[i].child.Some? <==> CloneSpace(tm.slots[i], space).Fits? && OneSpare(tm.slots))
      && (t.slots[i].child.Some? ==>
            && t.slots[i].child == AllocIndex(tm.slots) && !t.slots[t.slots[i].child.value].built
            && (OneSpare(t.slots) <==> SpareWithout(tm.slots, AllocIndex(tm.slots).value)))
  {
    hide Inv, SpareWithout, OneSpare, CloneOf, Evictable, Install, Vacate, Copies, Fresh, Unborn;
    var s := CloneOf(tm.slots[i], ACK, i);
    OfSlot(tm, i);
    SpareAlloc(tm.slots);
    AckClone(tm.slots[i], i);
    assert Safe(tm.slots, i) by { AbandonedSafe(tm, i); }
    CloneFresh(tm.slots[i], ACK, i, tm.gens);
    AckFits(tm, i);
    NewSlotInv(tm, s, CloneSpace(tm.slots[i], space));
    if CloneSpace(tm.slots[i], space).Fits? && OneSpare(tm.slots) {
      var c := AllocIndex(tm.slots).value;
      var v := Install(Vacate(tm, c), c, s);
      TakenRoom(tm, c, s);
      AbandonedKept(v.slots[i]);
      AbandonedKept(v.slots[i].(child := Some(c)));
      SpareSame(v.slots, i, v.slots[i].(child := Some(c)));
    }
  }

  lemma AckClone(s: Slot, i: nat)
    ensures CloneOf(s, ACK, i).parent == Some(i) && !CloneOf(s, ACK, i).built
  {
  }

  lemma AbandonedKept(s: Slot)
    requires s.active && s.flags.abandoned && !s.state.Terminated?
    ensures Kept(s)
  {
  }

  // --- The BYE

  lemma TailRoom(t: Tm, i: nat, a: nat, r: Resp, now: nat, room: Room)
    requires Inv(t) && AckOf(t, i, a) && t.slots[i].flags.abandoned
    requires HeardFor(t.log, t.slots[i], r)
    ensures FinalTail(t, i, a, r, now, room).1 == Ok <==>
            (Class(r) == 2 && !ByeFlag(t.slots[i]) ==>
               room.byeFits && room.byeSlot.Fits? && OneSpare(t.slots))
  {
    hide Inv, BuildAck, ByeOf, Evictable, OneSpare, ArmAck, AllocIndex;
    var u := AckBuilding(t, i, a, r, room.ackBranch);
    ChildKept(t.slots[a]);
    BuiltSame(t.slots[a], t.slots[i], r, room.ackBranch);
    ChildKept(BuildAck(t.slots[a], t.slots[i], r, room.ackBranch));
    SpareSame(t.slots, a, u.slots[a]);
    SpareAlloc(u.slots);
  }

  lemma ChildKept(s: Slot)
    requires s.active && s.parent.Some?
    ensures Kept(s)
  {
  }

  lemma BuiltSame(a: Slot, s: Slot, r: Resp, branch: nat)
    ensures BuildAck(a, s, r, branch).active == a.active && BuildAck(a, s, r, branch).parent == a.parent
  {
  }

  // --- The final response as a whole

  lemma InviteFinalRoom(tm: Tm, i: nat, r: Resp, now: nat, room: Room)
    requires Inv(tm) && i < |tm.slots| && LiveClient(tm.slots[i]) && tm.slots[i].invite.Some?
    requires !tm.slots[i].state.Terminated? && tm.slots[i].nextSend.Never?
    requires tm.slots[i].flags.abandoned && Class(r) >= 2
    requires HeardFor(tm.log, tm.slots[i], r)
    ensures InviteFinal(tm, i, r, now, room).1 == Ok <==> HasRoom(tm.slots, i, r, room)
  {
    hide Inv, InviteAnswered, NeedAck, FinalTail, AckOf, Answering, Safe, HasRoom;
    var s := InviteAnswered(tm.slots[i], Class(r), now);
    OfSlot(tm, i);
    AnsweredOk(tm.slots[i], Class(r), now);
    CalmPut(tm, i, s);
    var p := Put(tm, i, s);
    IsAnswering(p, i);
    NotOwnChild(p, i);
    AnsweredLinks(tm.slots[i], Class(r), now);
    AbandonedKept(tm.slots[i]);
    AbandonedKept(s);
    RoomSame(tm.slots, i, s, r, room);
    AnsweringRoom(p, i, r, now, room);
  }

  lemma AnsweredLinks(s: Slot, sclass: nat, now: nat)
    requires s.invite.Some?
    ensures var t := InviteAnswered(s, sclass, now);
      t.active == s.active && t.parent == s.parent && t.child == s.child && ByeFlag(t) == ByeFlag(s)
      && t.flags == s.flags && t.state.Completed? && t.ident == s.ident
  {
  }

  lemma NotOwnChild(tm: Tm, i: nat)
    requires Inv(tm) && Answering(tm, i)
    ensures tm.slots[i].child != Some(i)
  {
    if tm.slots[i].child.Some? {
      AckOfChild(tm, i);
    }
  }

  lemma AnsweringRoom(p: Tm, i: nat, r: Resp, now: nat, room: Room)
    requires Inv(p) && Answering(p, i) && i < |p.slots|
    requires p.slots[i].flags.abandoned && Class(r) >= 2
    requires HeardFor(p.log, p.slots[i], r)
    ensures var t := NeedAck(p, i, room.ackSlot); var c := t.slots[i].child;
      (c.Some? && c.value < |t.slots| && (t.slots[c.value].built || room.ackFits)
       && FinalTail(t, i, c.value, r, now, room).1 == Ok) <==> HasRoom(p.slots, i, r, room)
  {
    hide Inv, NeedAck, FinalTail, AckOf, Answering, OneSpare, SpareWithout, AllocIndex;
    NeedAckInv(p, i, room.ackSlot);
    var t := NeedAck(p, i, room.ackSlot);
    AnsweringFacts(p, i);
    AnsweringFacts(t, i);
    SpareAlloc(p.slots);
    if p.slots[i].child.None? {
      NeedAckRoom(p, i, room.ackSlot);
      NoByeYet(p, i);
      AckFlag(p, i, room.ackSlot);
    } else {
      HadAck(p, i, room.ackSlot);
    }
    if t.slots[i].child.Some? {
      var a := t.slots[i].child.value;
      AckOfChild(t, i);
      IsAck(t, i, a);
      TailRoom(t, i, a, r, now, room);
    }
  }

  lemma AnsweringFacts(tm: Tm, i: nat)
    requires Answering(tm, i)
    ensures i < |tm.slots|
  {
  }

  lemma HadAck(tm: Tm, i: nat, space: Space)
    requires i < |tm.slots| && tm.slots[i].child.Some?
    ensures NeedAck(tm, i, space) == tm
  {
  }

  // The ACK's slot leaves the INVITE's own BYE flag alone
  lemma AckFlag(tm: Tm, i: nat, space: Space)
    requires Inv(tm) && Answering(tm, i) && tm.slots[i].flags.abandoned
    ensures ByeFlag(NeedAck(tm, i, space).slots[i]) == ByeFlag(tm.slots[i])
  {
    hide Inv, CloneOf, Evictable;
    OfSlot(tm, i);
    if tm.slots[i].child.None? {
      AbandonedSafe(tm, i);
      CloneFresh(tm.slots[i], ACK, i, tm.gens);
      AckFits(tm, i);
      NewSlotInv(tm, CloneOf(tm.slots[i], ACK, i), CloneSpace(tm.slots[i], space));
    }
  }

  // A response to an abandoned INVITE goes through exactly when there is room
  // for what it takes
  lemma RoomIsOk(tm: Tm, i: nat, r: Resp, now: nat, room: Room, react: Reaction)
    requires Inv(tm) && Plausible(tm, r) && FindFrom(tm.slots, r, 0) == Some(i)
    requires Cleaning(tm.slots[i])
    ensures Receive(tm, r, now, room, react).1 == Ok <==> HasRoom(tm.slots, i, r, room)
  {
    hide Inv, InviteFinal, HearOther, HearRinging, Tell, Quiet, HasRoom, Settle, InPhase;
    var s := tm.slots[i];
    var e := Heard(s.gen, s.attempt, Class(r), r.contact);
    OfSlot(tm, i);
    assert Answerable(tm, i);
    if Class(r) >= 2 {
      NoteOwn(tm, i, e);
      HeardNow(tm.log, s, r);
      QuietInv(Note(tm, e), i);
      QuietLinks(s);
      AbandonedKept(s);
      AbandonedKept(Quiet(s));
      ChildElsewhere(tm, i);
      RoomSame(tm.slots, i, Quiet(s), r, room);
      InviteFinalRoom(Put(Note(tm, e), i, Quiet(s)), i, r, now, room);
    } else {
      FewNeedNone(tm.slots, i, r, room);
    }
  }

  lemma FewNeedNone(slots: seq<Slot>, i: nat, r: Resp, room: Room)
    requires i < |slots| && Class(r) < 2
    ensures HasRoom(slots, i, r, room)
  {
  }

  lemma ChildElsewhere(tm: Tm, i: nat)
    requires Inv(tm) && i < |tm.slots| && LiveClient(tm.slots[i]) && tm.slots[i].invite.Some?
    ensures tm.slots[i].child != Some(i)
  {
    OfSlot(tm, i);
  }

  lemma QuietLinks(s: Slot)
    ensures var t := Quiet(s);
      LiveClient(t) == LiveClient(s) && t.active == s.active && t.parent == s.parent
      && t.child == s.child && ByeFlag(t) == ByeFlag(s)
      && t.invite == s.invite && t.flags == s.flags && t.state == s.state && t.nextSend.Never?
      && t.ident == s.ident && t.gen == s.gen && t.attempt == s.attempt
  {
  }
}
