// Every operation of a client transaction keeps the invariant.
module ClientKeeps {
  import opened Base
  import opened Slots
  import opened Table
  import opened Links
  import opened History

  // --- Changing links

  lemma UnlinkLinked(slots: seq<Slot>, p: nat, c: nat, s: Slot, t: Slot)
    requires Linked(slots) && p < |slots| && c < |slots| && slots[p].active
    requires slots[p].child == Some(c) && slots[c].child.None?
    requires SameLinks(slots[p].(child := None), s)
    requires SameLinks(slots[c], t) || SameLinks(slots[c].(parent := None), t)
    ensures p != c && Linked(slots[p := s][c := t])
  {
    hide AckWaits, ByeFlag;
    assert ChildOk(slots, p) && ParentOk(slots, c);
    var u := slots[p := s][c := t];
    forall j | 0 <= j < |u|
      ensures ParentOk(u, j) && ChildOk(u, j)
    {
      UnlinkedAt(slots, p, c, s, t, j);
    }
  }

  lemma UnlinkedAt(slots: seq<Slot>, p: nat, c: nat, s: Slot, t: Slot, j: nat)
    requires Linked(slots) && p < |slots| && c < |slots| && slots[p].active && j < |slots|
    requires slots[p].child == Some(c) && slots[c].child.None?
    requires SameLinks(slots[p].(child := None), s)
    requires SameLinks(slots[c], t) || SameLinks(slots[c].(parent := None), t)
    ensures ParentOk(slots[p := s][c := t], j) && ChildOk(slots[p := s][c := t], j)
  {
    hide Copies, CopyOf;
    assert ChildOk(slots, p) && ParentOk(slots, c);
    assert ParentOk(slots, j) && ChildOk(slots, j);
  }

  lemma UnlinkLogged(slots: seq<Slot>, p: nat, c: nat, s: Slot, t: Slot, log: seq<Event>)
    requires SlotsLogged(slots, log) && p < |slots| && c < |slots| && slots[p].active && p != c
    requires SameLinks(slots[p].(child := None), s) && slots[c].child.None? && slots[c].active
    requires SameLinks(slots[c], t) || SameLinks(slots[c].(parent := None), t)
    requires SlotLogged(s, log) && SlotLogged(t, log)
    ensures SlotsLogged(slots[p := s][c := t], log)
  {
    var u := slots[p := s][c := t];
    forall j | 0 <= j < |u|
      ensures ByeLogged(u, j, log)
    {
      assert ByeLogged(slots, j, log);
    }
    forall j, k | 0 <= j < |u| && 0 <= k < |log|
      ensures AckLogged(u, j, log[k])
    {
      assert AckLogged(slots, j, log[k]);
    }
  }

  lemma PutOk(slots: seq<Slot>, i: nat, s: Slot, gens: nat)
    requires AllOk(slots) && GensOk(slots, gens) && i < |slots| && SlotOk(s)
    requires s.active == slots[i].active && s.gen == slots[i].gen
    ensures AllOk(slots[i := s]) && GensOk(slots[i := s], gens)
    ensures CountActive(slots[i := s]) == CountActive(slots)
  {
    CountPut(slots, i, s);
  }

  // Parent p gives up its child c, which may lose its parent too
  lemma UnlinkInv(tm: Tm, p: nat, c: nat, s: Slot, t: Slot)
    requires Inv(tm) && p < |tm.slots| && c < |tm.slots| && tm.slots[p].active
    requires tm.slots[p].child == Some(c) && tm.slots[c].child.None?
    requires SameLinks(tm.slots[p].(child := None), s)
    requires SameLinks(tm.slots[c], t) || SameLinks(tm.slots[c].(parent := None), t)
    requires SlotOk(s) && SlotOk(t) && SlotLogged(s, tm.log) && SlotLogged(t, tm.log)
    ensures p != c && Inv(tm.(slots := tm.slots[p := s][c := t]))
  {
    assert tm.slots[c].active by { assert ChildOk(tm.slots, p); }
    UnlinkLinked(tm.slots, p, c, s, t);
    UnlinkLogged(tm.slots, p, c, s, t, tm.log);
    PutOk(tm.slots, p, s, tm.gens);
    PutOk(tm.slots[p := s], c, t, tm.gens);
  }

  lemma LinkAckLinked(slots: seq<Slot>, i: nat, a: nat)
    requires Linked(slots) && i < |slots| && a < |slots| && LiveClient(slots[i])
    requires IsInvite(slots[i]) && slots[i].child.None?
    requires LiveClient(slots[a]) && slots[a].verb.ACK? && slots[a].parent == Some(i)
    requires AckWaits(slots[i], slots[a])
    ensures Linked(slots[i := slots[i].(child := Some(a))])
  {
    var u := slots[i := slots[i].(child := Some(a))];
    forall j | 0 <= j < |u|
      ensures ParentOk(u, j) && ChildOk(u, j)
    {
      assert ParentOk(slots, j) && ChildOk(slots, j);
    }
  }

  lemma LinkLogged(slots: seq<Slot>, i: nat, a: nat, log: seq<Event>)
    requires SlotsLogged(slots, log) && i < |slots| && a < |slots|
    requires slots[i].active && IsInvite(slots[i]) && slots[i].child.None? && !ByeFlag(slots[i])
    ensures SlotsLogged(slots[i := slots[i].(child := Some(a))], log)
  {
    var s := slots[i].(child := Some(a));
    assert SlotLogged(s, log) by {
      assert SlotLogged(slots[i], log);
      forall k | 0 <= k < |log|
        ensures EventFits(s, log[k]) && ByeHeld(s, log[k], log)
      {
        assert EventFits(slots[i], log[k]) && ByeHeld(slots[i], log[k], log);
      }
    }
    var u := slots[i := s];
    forall j | 0 <= j < |u|
      ensures ByeLogged(u, j, log)
    {
      assert ByeLogged(slots, j, log);
    }
    forall j, k | 0 <= j < |u| && 0 <= k < |log|
      ensures AckLogged(u, j, log[k])
    {
      assert AckLogged(slots, j, log[k]);
    }
  }

  lemma LinkAckInv(tm: Tm, i: nat, a: nat)
    requires Inv(tm) && i < |tm.slots| && a < |tm.slots| && LiveClient(tm.slots[i])
    requires IsInvite(tm.slots[i]) && tm.slots[i].child.None? && !ByeFlag(tm.slots[i])
    requires LiveClient(tm.slots[a]) && tm.slots[a].verb.ACK? && tm.slots[a].parent == Some(i)
    requires AckWaits(tm.slots[i], tm.slots[a])
    ensures Inv(Put(tm, i, tm.slots[i].(child := Some(a))))
  {
    LinkAckLinked(tm.slots, i, a);
    LinkLogged(tm.slots, i, a, tm.log);
    assert SlotOk(tm.slots[i]);
    PutOk(tm.slots, i, tm.slots[i].(child := Some(a)), tm.gens);
  }

  // The BYE goes behind the ACK of its abandoned INVITE
  lemma LinkByeLinked(slots: seq<Slot>, a: nat, b: nat)
    requires Linked(slots) && a < |slots| && b < |slots| && LiveClient(slots[a])
    requires slots[a].verb.ACK? && slots[a].child.None? && slots[a].parent.Some?
    requires LiveClient(slots[b]) && slots[b].verb.BYE? && slots[b].child.None?
    requires slots[b].parent == slots[a].parent
    requires slots[a].parent.value < |slots| && slots[slots[a].parent.value].flags.abandoned
             && slots[slots[a].parent.value].child == Some(a)
             && ByeFlag(slots[slots[a].parent.value])
    ensures Linked(slots[a := slots[a].(child := Some(b))])
  {
    var u := slots[a := slots[a].(child := Some(b))];
    assert ParentOk(slots, a);
    forall j | 0 <= j < |u|
      ensures ParentOk(u, j) && ChildOk(u, j)
    {
      assert ParentOk(slots, j) && ChildOk(slots, j);
    }
  }

  lemma LinkByeLogged(slots: seq<Slot>, a: nat, b: nat, log: seq<Event>)
    requires SlotsLogged(slots, log) && a < |slots| && b < |slots|
    requires slots[a].active && slots[a].verb.ACK? && slots[a].child.None?
    requires slots[a].invite.None? && !(slots[b].invite.Some?)
    requires forall k :: 0 <= k < |log| && log[k].ByeMade? && log[k].byeGen == slots[b].gen ==>
               log[k].ackGen == slots[a].gen
    ensures SlotsLogged(slots[a := slots[a].(child := Some(b))], log)
  {
    var s := slots[a].(child := Some(b));
    assert SlotLogged(s, log) by {
      assert SlotLogged(slots[a], log);
      forall k | 0 <= k < |log|
        ensures EventFits(s, log[k]) && ByeHeld(s, log[k], log)
      {
        assert EventFits(slots[a], log[k]) && ByeHeld(slots[a], log[k], log);
      }
    }
    var u := slots[a := s];
    forall j | 0 <= j < |u|
      ensures ByeLogged(u, j, log)
    {
      assert ByeLogged(slots, j, log);
    }
    forall j, k | 0 <= j < |u| && 0 <= k < |log|
      ensures AckLogged(u, j, log[k])
    {
      assert AckLogged(slots, j, log[k]);
    }
  }
}
