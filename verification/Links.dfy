module Links {
  // The links between slots, and what every slot obeys on its own: the
  // invariant of the table, kept by each way of changing it.

  import opened Base
  import opened Slots
  import opened Table

  // --- Families: an INVITE, its ACK, the BYE behind the ACK

  predicate ParentOk(slots: seq<Slot>, i: nat)
    requires i < |slots|
  {
    var s := slots[i];
    s.active && s.parent.Some? ==>
      var p := s.parent.value;
      p < |slots| && p != i && LiveClient(slots[p]) && IsInvite(slots[p])
      && slots[p].parent.None? && LiveClient(s) && !IsInvite(s)
  }

  predicate ByeFlag(s: Slot) {
    s.invite.Some? && s.invite.value.byeStarted
  }

  // An ACK not built yet is a copy of its INVITE, its branch to come
  predicate AckWaits(s: Slot, a: Slot) {
    !a.built ==> Copies(s.ident) && a.ident == CopyOf(s.ident).(branch := 0)
  }

  predicate ChildOk(slots: seq<Slot>, i: nat)
    requires i < |slots|
  {
    var s := slots[i];
    s.active && s.child.Some? ==>
      var c := s.child.value;
      c < |slots| && LiveClient(s) && LiveClient(slots[c])
      && if IsInvite(s) then slots[c].verb.ACK? && slots[c].parent == Some(i) && AckWaits(s, slots[c])
         else s.verb.ACK? && s.parent.Some? && slots[c].verb.BYE? && slots[c].child.None?
              && slots[c].parent == s.parent
              && s.parent.value < |slots| && slots[s.parent.value].flags.abandoned
              && ByeFlag(slots[s.parent.value])
              && slots[s.parent.value].child == Some(i)
  }

  predicate Linked(slots: seq<Slot>) {
    && (forall i {:trigger ParentOk(slots, i)} :: 0 <= i < |slots| ==> ParentOk(slots, i))
    && (forall i {:trigger ChildOk(slots, i)} :: 0 <= i < |slots| ==> ChildOk(slots, i))
    && (forall i :: 0 <= i < |slots| && !slots[i].active ==> slots[i] == EMPTY)
  }

  // --- One slot

  predicate InviteOk(s: Slot)
    requires s.invite.Some?
  {
    var v := s.invite.value;
    && s.app.owned && s.parent.None?
    && (v.timeoutAt.At? ==> !s.finalReported)
    && (!v.cancel.NotCancelled? ==> s.flags.abandoned)
    && (v.cancel.OnWire? ==> v.provisional)
    && (v.byeStarted ==> s.flags.abandoned && (s.state.Terminated? || s.child.Some?))
    && (s.state.Calling? || s.state.Completed? || s.state.Terminated?
        || (s.state.Proceeding? && v.provisional))
    && (s.state.Calling? ==> !v.provisional)
    && (s.state.Completed? ==> v.timeoutAt.Never? && s.nextSend.Never?)
    && (s.finalReported && !s.state.Terminated? ==>
          s.state.Completed? && s.timer.TimerD? && s.child.Some?)
  }

  predicate OtherOk(s: Slot) {
    && !s.flags.abandoned
    && (s.parent.Some? ==>
          !s.app.owned && s.timer.NoTimer? && !s.finalReported && !s.state.Terminated?
          && (s.verb.ACK? || (s.verb.BYE? && s.nextSend.Never? && s.sends == 0)))
    && (s.verb.ACK? ==>
          !s.app.owned && s.timer.NoTimer? && !s.finalReported
          && (s.state.Terminated? || (s.parent.Some? && s.state.Calling?)))
    && (s.verb.CANCEL? ==> !s.app.owned)
    && (s.finalReported ==>
          !s.matchable && (s.state.Terminated? || (s.state.Completed? && s.timer.TimerK?)))
  }

  predicate ClientOk(s: Slot) {
    && (s.flags.terminated <==> s.state.Terminated?)
    && (s.invite.Some? <==> IsInvite(s))
    && (s.state.Terminated? ==> !s.matchable && s.nextSend.Never? && s.parent.None?)
    && (s.flags.abandoned || !s.app.owned ==> !s.app.response && !s.app.timeout)
    && (s.finalReported ==> s.nextSend.Never?)
    && (s.sends < 256)
    && (if s.invite.Some? then InviteOk(s) else OtherOk(s))
  }

  predicate ServerOk(s: Slot) {
    s.parent.None? && s.child.None? && s.invite.None? && !s.flags.abandoned && !s.verb.ACK?
  }

  predicate SlotOk(s: Slot) {
    s.active ==> if s.role.Client? then ClientOk(s) else ServerOk(s)
  }

  // --- The table

  predicate AllOk(slots: seq<Slot>) {
    forall i {:trigger SlotOk(slots[i])} :: 0 <= i < |slots| ==> SlotOk(slots[i])
  }

  predicate GensOk(slots: seq<Slot>, gens: nat) {
    && (forall i :: 0 <= i < |slots| && slots[i].active ==> slots[i].gen < gens)
    && (forall i, j ::
          0 <= i < j < |slots| && slots[i].active && slots[j].active ==>
            slots[i].gen != slots[j].gen)
  }

  predicate Good(tm: Tm) {
    && Linked(tm.slots)
    && AllOk(tm.slots)
    && GensOk(tm.slots, tm.gens)
    && CountActive(tm.slots) <= tm.nactive
  }

  // --- Counting

  lemma {:induction false} CountPut(slots: seq<Slot>, i: nat, s: Slot)
    requires i < |slots|
    ensures CountActive(slots[i := s]) ==
            CountActive(slots) + (if s.active then 1 else 0) - (if slots[i].active then 1 else 0)
  {
    var t := slots[i := s];
    var n := |slots| - 1;
    if i == n {
      assert t[..n] == slots[..n];
    } else {
      assert t[..n] == slots[..n][i := s];
      CountPut(slots[..n], i, s);
    }
  }

  lemma {:induction false} CountDropped(slots: seq<Slot>, i: nat, n: nat)
    requires i < |slots| && n <= |slots| && slots[i].active
    ensures CountActive(DropFamily(slots, i)[..n]) == CountActive(slots[..n]) - FamilySize(slots, i, n)
  {
    var d := DropFamily(slots, i);
    if n == 0 {
      assert d[..n] == [] && slots[..n] == [];
    } else {
      assert d[..n][..n - 1] == d[..n - 1] && slots[..n][..n - 1] == slots[..n - 1];
      CountDropped(slots, i, n - 1);
      assert d[n - 1] == DroppedAt(slots, i, n - 1);
    }
  }

  // --- Changing one slot and not its links

  predicate SameLinks(s: Slot, t: Slot) {
    s.active == t.active && s.gen == t.gen && s.role == t.role && s.verb == t.verb
    && s.parent == t.parent && s.child == t.child && (s.flags.abandoned ==> t.flags.abandoned)
    && (ByeFlag(s) ==> ByeFlag(t))
    && (IsInvite(s) && s.child.Some? ==> t.ident == s.ident)
    && (s.verb.ACK? && s.parent.Some? && !t.built ==> !s.built && t.ident == s.ident)
  }

  lemma PutLinked(slots: seq<Slot>, i: nat, s: Slot)
    requires Linked(slots) && i < |slots| && slots[i].active && SameLinks(slots[i], s)
    ensures Linked(slots[i := s])
  {
    var t := slots[i := s];
    forall j | 0 <= j < |t|
      ensures ParentOk(t, j) && ChildOk(t, j)
    {
      assert ParentOk(slots, j) && ChildOk(slots, j);
    }
  }

  lemma LocalPut(tm: Tm, i: nat, s: Slot)
    requires Good(tm) && i < |tm.slots| && tm.slots[i].active
    requires SameLinks(tm.slots[i], s) && SlotOk(s)
    ensures Good(Put(tm, i, s))
  {
    PutLinked(tm.slots, i, s);
    CountPut(tm.slots, i, s);
  }

  // --- Dropping a transaction that has no parent

  lemma DropLinked(slots: seq<Slot>, i: nat, j: nat)
    requires Linked(slots) && i < |slots| && slots[i].active && slots[i].parent.None?
    requires j < |slots|
    ensures ParentOk(DropFamily(slots, i), j) && ChildOk(DropFamily(slots, i), j)
    ensures DropFamily(slots, i)[j] == if InFamily(slots, i, j) then EMPTY else slots[j]
  {
    var d := DropFamily(slots, i);
    assert ParentOk(slots, j) && ChildOk(slots, j);
    assert d[j] == DroppedAt(slots, i, j);
    if d[j].active {
      assert d[j] == slots[j];
      if d[j].parent.Some? {
        assert d[d[j].parent.value] == DroppedAt(slots, i, d[j].parent.value);
        assert ParentOk(slots, d[j].parent.value);
      }
      if d[j].child.Some? {
        assert d[d[j].child.value] == DroppedAt(slots, i, d[j].child.value);
      }
    }
  }

  lemma DropCleans(slots: seq<Slot>, i: nat)
    requires Linked(slots) && i < |slots| && slots[i].active && slots[i].parent.None?
    ensures Linked(DropFamily(slots, i))
    ensures forall j :: 0 <= j < |slots| ==>
              DropFamily(slots, i)[j] == if InFamily(slots, i, j) then EMPTY else slots[j]
  {
    forall j | 0 <= j < |slots|
      ensures ParentOk(DropFamily(slots, i), j) && ChildOk(DropFamily(slots, i), j)
      ensures DropFamily(slots, i)[j] == if InFamily(slots, i, j) then EMPTY else slots[j]
    {
      DropLinked(slots, i, j);
    }
  }

  // Some slots emptied, the others as they were
  predicate Emptied(slots: seq<Slot>, d: seq<Slot>) {
    |d| == |slots| && forall j :: 0 <= j < |d| ==> d[j] == EMPTY || d[j] == slots[j]
  }

  lemma EmptiedKeeps(slots: seq<Slot>, d: seq<Slot>, gens: nat)
    requires Emptied(slots, d) && AllOk(slots) && GensOk(slots, gens)
    ensures AllOk(d) && GensOk(d, gens)
  {
    forall j | 0 <= j < |d| ensures SlotOk(d[j]) { assert SlotOk(slots[j]); }
  }

  lemma DropKeeps(tm: Tm, i: nat)
    requires Good(tm) && i < |tm.slots| && tm.slots[i].active && tm.slots[i].parent.None?
    ensures Good(Drop(tm, i))
  {
    var d := Drop(tm, i).slots;
    CountDropped(tm.slots, i, |d|);
    assert d[..|d|] == d && tm.slots[..|d|] == tm.slots;
    DropCleans(tm.slots, i);
    EmptiedKeeps(tm.slots, d, tm.gens);
  }

  // What a dropped root leaves behind: nothing of its family, and every
  // other slot as it was
  lemma DropExact(tm: Tm, i: nat, j: nat)
    requires Good(tm) && i < |tm.slots| && tm.slots[i].active && tm.slots[i].parent.None?
    requires j < |tm.slots|
    ensures Drop(tm, i).slots[j] == if InFamily(tm.slots, i, j) then EMPTY else tm.slots[j]
    ensures Drop(tm, i).slots[j].active ==>
              Drop(tm, i).slots[j].parent != Some(i) && Drop(tm, i).slots[j].child != Some(i)
  {
    var d := Drop(tm, i).slots;
    assert d[j] == DroppedAt(tm.slots, i, j);
    assert ChildOk(tm.slots, j);
  }

  // --- Allocating

  lemma {:induction false} AllocFromRight(slots: seq<Slot>, i: nat, best: Option<nat>)
    requires i <= |slots|
    requires forall j :: 0 <= j < i ==> slots[j].active
    requires best.None? ==> forall j :: 0 <= j < i ==> !Evictable(slots[j])
    requires best.Some? ==> best.value < i && Evictable(slots[best.value])
    requires best.Some? ==> forall j :: 0 <= j < i && Evictable(slots[j]) ==>
               EvictKey(slots[best.value]) <= EvictKey(slots[j])
               && (j < best.value ==> EvictKey(slots[best.value]) < EvictKey(slots[j]))
    ensures var r := AllocFrom(slots, i, best);
      && (r.Some? <==> exists j :: 0 <= j < |slots| && (!slots[j].active || Evictable(slots[j])))
      && (r.Some? && slots[r.value].active ==>
            Evictable(slots[r.value])
            && (forall j :: 0 <= j < |slots| ==> slots[j].active)
            && (forall j :: 0 <= j < |slots| && Evictable(slots[j]) ==>
                  EvictKey(slots[r.value]) <= EvictKey(slots[j])
                  && (j < r.value ==> EvictKey(slots[r.value]) < EvictKey(slots[j]))))
      && (r.Some? && !slots[r.value].active ==> forall j :: 0 <= j < r.value ==> slots[j].active)
    decreases |slots| - i
  {
    if i < |slots| && slots[i].active {
      AllocFromRight(slots, i + 1, if Better(slots, i, best) then Some(i) else best);
    }
  }

  // alloc_slot: exactly when it succeeds, and whom it evicts
  lemma AllocRight(slots: seq<Slot>)
    ensures var r := AllocIndex(slots);
      && (r.Some? <==> exists j :: 0 <= j < |slots| && (!slots[j].active || Evictable(slots[j])))
      && (r.Some? && slots[r.value].active ==>
            Evictable(slots[r.value])
            && (forall j :: 0 <= j < |slots| ==> slots[j].active)
            && (forall j :: 0 <= j < |slots| && Evictable(slots[j]) ==>
                  EvictKey(slots[r.value]) <= EvictKey(slots[j])
                  && (j < r.value ==> EvictKey(slots[r.value]) < EvictKey(slots[j]))))
      && (r.Some? && !slots[r.value].active ==> forall j :: 0 <= j < r.value ==> slots[j].active)
  {
    AllocFromRight(slots, 0, None);
  }

  // A transaction an eviction can't touch
  predicate Safe(slots: seq<Slot>, j: nat)
    requires j < |slots|
  {
    && slots[j].active && !Evictable(slots[j])
    && (slots[j].parent.Some? ==>
          slots[j].parent.value < |slots| && !Evictable(slots[slots[j].parent.value]))
  }

  lemma VacateKeeps(tm: Tm, c: nat)
    requires Good(tm) && c < |tm.slots| && (tm.slots[c].active ==> Evictable(tm.slots[c]))
    ensures Good(Vacate(tm, c))
    ensures forall j :: 0 <= j < |tm.slots| && Safe(tm.slots, j) ==>
              j != c && Vacate(tm, c).slots[j] == tm.slots[j]
  {
    if tm.slots[c].active {
      DropKeeps(tm, c);
      var d := Drop(tm, c).slots;
      assert d[c] == DroppedAt(tm.slots, c, c);
      assert d[c := EMPTY] == d;
      forall j | 0 <= j < |tm.slots| && Safe(tm.slots, j)
        ensures d[j] == tm.slots[j]
      {
        DropExact(tm, c, j);
      }
    } else {
      assert tm.slots[c := EMPTY] == tm.slots;
    }
  }

  predicate Fresh(s: Slot, gen: nat) {
    s.child.None? && SlotOk(Awake(s, gen))
  }

  // A slot that may be put where there was none
  predicate Fitting(slots: seq<Slot>, c: nat, s: Slot) {
    s.active && s.child.None? && SlotOk(s) &&
    (s.parent.Some? ==>
       var p := s.parent.value;
       p < |slots| && p != c && LiveClient(slots[p]) && IsInvite(slots[p])
       && slots[p].parent.None? && s.role.Client? && !IsInvite(s))
  }

  lemma InstallLinked(slots: seq<Slot>, c: nat, s: Slot, j: nat)
    requires Linked(slots) && c < |slots| && slots[c] == EMPTY && Fitting(slots, c, s)
    requires j < |slots|
    ensures ParentOk(slots[c := s], j) && ChildOk(slots[c := s], j)
  {
    assert ParentOk(slots, j) && ChildOk(slots, j);
  }

  lemma InstallKeeps(tm: Tm, c: nat, s: Slot)
    requires Good(tm) && c < |tm.slots| && tm.slots[c] == EMPTY
    requires Fitting(tm.slots, c, Awake(s, tm.gens))
    ensures Good(Install(tm, c, s))
  {
    var t := Install(tm, c, s).slots;
    var n := Awake(s, tm.gens);
    CountPut(tm.slots, c, n);
    forall j | 0 <= j < |t|
      ensures ParentOk(t, j) && ChildOk(t, j)
    {
      InstallLinked(tm.slots, c, n, j);
    }
  }

  predicate ParentFor(slots: seq<Slot>, s: Slot) {
    s.parent.Some? ==>
      var p := s.parent.value;
      p < |slots| && LiveClient(slots[p]) && IsInvite(slots[p]) && slots[p].parent.None?
      && Safe(slots, p) && s.role.Client? && !IsInvite(s)
  }

  lemma VacatedFits(slots: seq<Slot>, v: seq<Slot>, c: nat, s: Slot, gen: nat)
    requires Linked(slots) && ParentFor(slots, s) && Fresh(s, gen) && |v| == |slots|
    requires forall j :: 0 <= j < |slots| && Safe(slots, j) ==> j != c && v[j] == slots[j]
    ensures Fitting(v, c, Awake(s, gen))
  {
  }

  // The whole of an allocation
  lemma NewSlotKeeps(tm: Tm, s: Slot, space: Space)
    requires Good(tm) && Fresh(s, tm.gens) && ParentFor(tm.slots, s)
    ensures var (t, c) := NewSlot(tm, s, space);
      && Good(t) && t.log == tm.log && t.reliable == tm.reliable && t.clock == tm.clock
      && (c.Some? ==> t.slots[c.value] == Awake(s, tm.gens)
                      && t.gens == tm.gens + 1)
      && (c.None? ==> t.gens == tm.gens)
      && forall j :: 0 <= j < |tm.slots| && Safe(tm.slots, j) ==>
           c != Some(j) && t.slots[j] == tm.slots[j]
  {
    AllocRight(tm.slots);
    var c := AllocIndex(tm.slots);
    if c.Some? {
      VacateKeeps(tm, c.value);
      VacatedFits(tm.slots, Vacate(tm, c.value).slots, c.value, s, tm.gens);
      if space.Fits? {
        InstallKeeps(Vacate(tm, c.value), c.value, s);
      }
    }
  }
}
