// The few ways the table and the history change, each of which keeps the
// invariant. Every operation is made of these.
module HistoryKeeps {
  import opened Base
  import opened Slots
  import opened Table
  import opened Links
  import opened History

  // What the invariant says of one slot
  lemma OfSlot(tm: Tm, i: nat)
    requires Inv(tm) && i < |tm.slots|
    ensures SlotOk(tm.slots[i]) && SlotLogged(tm.slots[i], tm.log)
    ensures ParentOk(tm.slots, i) && ChildOk(tm.slots, i) && ByeLogged(tm.slots, i, tm.log)
    ensures tm.slots[i].active ==> tm.slots[i].gen < tm.gens
  {
  }

  lemma PutPut(tm: Tm, i: nat, s: Slot, t: Slot)
    requires i < |tm.slots|
    ensures Put(Put(tm, i, s), i, t) == Put(tm, i, t)
  {
    assert tm.slots[i := s][i := t] == tm.slots[i := t];
  }

  // --- Longer histories

  lemma SentByGrows(log: seq<Event>, e: Event, gen: nat)
    requires SentBy(log, gen)
    ensures SentBy(log + [e], gen)
  {
    var k :| 0 <= k < |log| && IsSent(log[k], gen);
    assert IsSent((log + [e])[k], gen);
  }

  lemma WasSentGrows(log: seq<Event>, e: Event, gen: nat, attempt: nat, verb: Method, ident: Ident)
    requires WasSent(log, gen, attempt, verb, ident)
    ensures WasSent(log + [e], gen, attempt, verb, ident)
  {
    var k :| 0 <= k < |log| && IsRequest(log[k], gen, attempt, verb, ident);
    assert IsRequest((log + [e])[k], gen, attempt, verb, ident);
  }

  lemma WasHeardGrows(log: seq<Event>, e: Event, gen: nat, attempt: nat, sclass: nat)
    requires WasHeard(log, gen, attempt, sclass)
    ensures WasHeard(log + [e], gen, attempt, sclass)
  {
    var k :| 0 <= k < |log| && IsHeard(log[k], gen, attempt, sclass);
    assert IsHeard((log + [e])[k], gen, attempt, sclass);
  }

  lemma AckGrows(log: seq<Event>, e: Event, gen: nat, ident: Ident)
    requires AckOnRecord(log, gen, ident)
    ensures AckOnRecord(log + [e], gen, ident)
  {
    var k :| 0 <= k < |log| && IsAckBuilt(log[k], gen, ident);
    assert IsAckBuilt((log + [e])[k], gen, ident);
  }

  lemma CancelGrows(log: seq<Event>, e: Event, gen: nat, ident: Ident)
    requires CancelOnRecord(log, gen, ident)
    ensures CancelOnRecord(log + [e], gen, ident)
  {
    var k :| 0 <= k < |log| && IsCancel(log[k], gen, ident);
    assert IsCancel((log + [e])[k], gen, ident);
  }

  lemma ByeGrows(log: seq<Event>, e: Event, gen: nat, ackGen: nat)
    requires ByeOnRecord(log, gen, ackGen)
    ensures ByeOnRecord(log + [e], gen, ackGen)
  {
    var k :| 0 <= k < |log| && IsBye(log[k], gen, ackGen);
    assert IsBye((log + [e])[k], gen, ackGen);
  }

  lemma StoryGrows(log: seq<Event>, e: Event)
    requires Story(log) && Justified(log, e)
    ensures Story(log + [e])
  {
    var l := log + [e];
    forall k | 0 <= k < |l|
      ensures Justified(l[..k], l[k])
    {
      if k < |log| {
        assert l[..k] == log[..k];
        assert l[k] == log[k];
      } else {
        assert l[..k] == log;
      }
    }
  }

  lemma RepliedGrows(log: seq<Event>, e: Event, gen: nat)
    requires FinallyReplied(log, gen)
    ensures FinallyReplied(log + [e], gen)
  {
    var k :| 0 <= k < |log| && IsFinalReply(log[k], gen);
    assert IsFinalReply((log + [e])[k], gen);
  }

  lemma EvidenceGrows(s: Slot, log: seq<Event>, e: Event)
    requires Evidence(s, log)
    ensures Evidence(s, log + [e])
  {
    if s.role.Server? {
      if s.timer.TimerJ? {
        RepliedGrows(log, e, s.gen);
      }
    } else {
      if IsInvite(s) && s.sends > 0 {
        WasSentGrows(log, e, s.gen, s.attempt, INVITE, s.ident);
      }
      if s.invite.Some? && s.invite.value.provisional {
        WasHeardGrows(log, e, s.gen, s.attempt, 1);
      }
      if s.verb.CANCEL? && s.nextSend.At? {
        CancelGrows(log, e, s.gen, s.ident);
      }
      if s.verb.ACK? && (s.built || s.nextSend.At?) {
        AckGrows(log, e, s.gen, s.ident);
      }
    }
  }

  // The facts about slot s once e is added
  lemma SlotLoggedGrows(s: Slot, log: seq<Event>, e: Event)
    requires SlotLogged(s, log)
    requires s.active ==> EventFits(s, e) && ByeHeld(s, e, log)
    ensures SlotLogged(s, log + [e])
  {
    if s.active {
      var l := log + [e];
      EvidenceGrows(s, log, e);
      forall k | 0 <= k < |l|
        ensures EventFits(s, l[k]) && ByeHeld(s, l[k], l)
      {
        var d := l[k];
        if k < |log| {
          assert d == log[k];
        }
        assert ByeHeld(s, d, log);
        if d.ByeMade? && SentBy(log, d.ackGen) {
          SentByGrows(log, e, d.ackGen);
        }
      }
    }
  }

  // --- Adding an event

  lemma NoteSlots(slots: seq<Slot>, log: seq<Event>, e: Event)
    requires SlotsLogged(slots, log)
    requires forall j :: 0 <= j < |slots| && slots[j].active ==>
               EventFits(slots[j], e) && ByeHeld(slots[j], e, log)
    requires forall j :: 0 <= j < |slots| ==> AckLogged(slots, j, e)
    ensures SlotsLogged(slots, log + [e])
  {
    var l := log + [e];
    forall j | 0 <= j < |slots|
      ensures SlotLogged(slots[j], l)
    {
      SlotLoggedGrows(slots[j], log, e);
    }
    forall j | 0 <= j < |slots|
      ensures ByeLogged(slots, j, l)
    {
      assert ByeLogged(slots, j, log);
      var s := slots[j];
      if s.child.Some? && s.child.value < |slots| &&
         ByeOnRecord(log, s.gen, slots[s.child.value].gen) {
        ByeGrows(log, e, s.gen, slots[s.child.value].gen);
      }
    }
    forall j, k | 0 <= j < |slots| && 0 <= k < |l|
      ensures AckLogged(slots, j, l[k])
    {
      if k < |log| { assert l[k] == log[k]; assert AckLogged(slots, j, log[k]); }
    }
  }

  lemma NoteInv(tm: Tm, e: Event)
    requires Inv(tm) && Justified(tm.log, e) && KnownGens(e, tm.gens)
    requires forall j :: 0 <= j < |tm.slots| && tm.slots[j].active ==>
               EventFits(tm.slots[j], e) && ByeHeld(tm.slots[j], e, tm.log)
    requires forall j :: 0 <= j < |tm.slots| ==> AckLogged(tm.slots, j, e)
    ensures Inv(Note(tm, e))
  {
    StoryGrows(tm.log, e);
    NoteSlots(tm.slots, tm.log, e);
  }

  // An event of slot i alone
  lemma NoteOwn(tm: Tm, i: nat, e: Event)
    requires Inv(tm) && i < |tm.slots| && tm.slots[i].active && e.gen == tm.slots[i].gen
    requires !e.ByeMade? && KnownGens(e, tm.gens)
    requires Justified(tm.log, e) && EventFits(tm.slots[i], e)
    ensures Inv(Note(tm, e))
  {
    hide Justified, EventFits, KnownGens;
    OwnFits(tm.slots, tm.gens, i, e);
    NoteInv(tm, e);
  }

  lemma OwnFits(slots: seq<Slot>, gens: nat, i: nat, e: Event)
    requires GensOk(slots, gens) && i < |slots| && slots[i].active && e.gen == slots[i].gen
    requires !e.ByeMade? && EventFits(slots[i], e)
    ensures forall j :: 0 <= j < |slots| && slots[j].active ==> EventFits(slots[j], e)
  {
    forall j | 0 <= j < |slots| && slots[j].active
      ensures EventFits(slots[j], e)
    {
      if j < i { assert slots[j].gen != slots[i].gen; }
      if i < j { assert slots[i].gen != slots[j].gen; }
    }
  }

  // --- Changing one slot, its links left alone

  lemma PutSlots(slots: seq<Slot>, i: nat, s: Slot, log: seq<Event>)
    requires SlotsLogged(slots, log) && i < |slots| && slots[i].active
    requires SameLinks(slots[i], s) && SlotLogged(s, log)
    requires ByeFlag(s) ==> ByeFlag(slots[i])
    requires IsInvite(slots[i]) == IsInvite(s)
    ensures SlotsLogged(slots[i := s], log)
  {
    var t := slots[i := s];
    forall j | 0 <= j < |t|
      ensures ByeLogged(t, j, log)
    {
      assert ByeLogged(slots, j, log);
    }
    forall j, k | 0 <= j < |t| && 0 <= k < |log|
      ensures AckLogged(t, j, log[k])
    {
      assert AckLogged(slots, j, log[k]);
    }
  }

  lemma PutInv(tm: Tm, i: nat, s: Slot)
    requires Inv(tm) && i < |tm.slots| && tm.slots[i].active
    requires SameLinks(tm.slots[i], s) && SlotOk(s) && SlotLogged(s, tm.log)
    requires ByeFlag(s) ==> ByeFlag(tm.slots[i])
    ensures Inv(Put(tm, i, s))
  {
    LocalPut(tm, i, s);
    PutSlots(tm.slots, i, s, tm.log);
  }

  // A change that takes nothing back
  predicate Calm(s: Slot, t: Slot) {
    && s.role.Client? && SameLinks(s, t) && s.app.owned == t.app.owned && s.attempt == t.attempt
    && s.ident == t.ident
    && (s.verb.ACK? ==>
          (s.built ==> t.built || t.state.Terminated?)
          && (t.built || t.nextSend.At? ==> s.built || s.nextSend.At?))
    && (s.finalReported ==> t.finalReported)
    && (s.state.Terminated? ==> t.state.Terminated?)
    && (t.sends > 0 ==> s.sends > 0 || !IsInvite(s))
    && (t.nextSend.At? && s.verb.CANCEL? ==> s.nextSend.At?)
    && (s.invite.Some? <==> t.invite.Some?)
    && (s.invite.Some? ==>
          (s.invite.value.cancel.OnWire? ==> t.invite.value.cancel.OnWire?)
          && (t.invite.value.byeStarted <==> s.invite.value.byeStarted)
          && (t.invite.value.provisional ==> s.invite.value.provisional))
  }

  lemma CalmFits(s: Slot, t: Slot, e: Event, log: seq<Event>)
    requires s.active && Calm(s, t) && EventFits(s, e) && ByeHeld(s, e, log)
    ensures EventFits(t, e) && ByeHeld(t, e, log)
  {
    hide SentBy, Succeeds, ByeIdent;
  }

  lemma CalmEvidence(s: Slot, t: Slot, log: seq<Event>)
    requires s.active && Calm(s, t) && Evidence(s, log)
    ensures Evidence(t, log) && t.active
  {
    hide WasSent, WasHeard, CancelOnRecord, AckOnRecord, ServerEvidence;
  }

  lemma CalmLogged(s: Slot, t: Slot, log: seq<Event>)
    requires SlotLogged(s, log) && Calm(s, t)
    ensures SlotLogged(t, log)
  {
    hide Calm, Evidence, EventFits, ByeHeld;
    if s.active {
      CalmEvidence(s, t, log);
      forall k | 0 <= k < |log|
        ensures EventFits(t, log[k]) && ByeHeld(t, log[k], log)
      {
        assert EventFits(s, log[k]) && ByeHeld(s, log[k], log);
        CalmFits(s, t, log[k], log);
      }
    } else {
      CalmActive(s, t);
    }
  }

  lemma CalmActive(s: Slot, t: Slot)
    requires Calm(s, t)
    ensures t.active == s.active
  {
  }

  lemma CalmPut(tm: Tm, i: nat, s: Slot)
    requires Inv(tm) && i < |tm.slots| && tm.slots[i].active
    requires Calm(tm.slots[i], s) && SlotOk(s)
    ensures Inv(Put(tm, i, s))
  {
    CalmLogged(tm.slots[i], s, tm.log);
    PutInv(tm, i, s);
  }

  // --- Dropping and allocating

  lemma EmptiedSlots(slots: seq<Slot>, d: seq<Slot>, log: seq<Event>)
    requires SlotsLogged(slots, log) && Emptied(slots, d) && Linked(d)
    ensures SlotsLogged(d, log)
  {
    forall j | 0 <= j < |d|
      ensures SlotLogged(d[j], log) && ByeLogged(d, j, log)
    {
      assert SlotLogged(slots[j], log) && ByeLogged(slots, j, log);
      assert ChildOk(d, j);
    }
    forall j, k | 0 <= j < |d| && 0 <= k < |log|
      ensures AckLogged(d, j, log[k])
    {
      assert AckLogged(slots, j, log[k]);
      assert ChildOk(d, j);
    }
  }

  lemma DropInv(tm: Tm, i: nat)
    requires Inv(tm) && i < |tm.slots| && tm.slots[i].active && tm.slots[i].parent.None?
    ensures Inv(Drop(tm, i))
    ensures forall j :: 0 <= j < |tm.slots| ==>
              Drop(tm, i).slots[j] == if InFamily(tm.slots, i, j) then EMPTY else tm.slots[j]
  {
    DropKeeps(tm, i);
    DropCleans(tm.slots, i);
    EmptiedSlots(tm.slots, Drop(tm, i).slots, tm.log);
  }

  // A new slot with no past
  predicate Unborn(s: Slot) {
    s.sends == 0 && (s.invite.Some? ==> !s.invite.value.provisional && !s.invite.value.byeStarted)
    && (s.verb.CANCEL? && s.role.Client? ==> s.nextSend.Never?)
    && (s.verb.ACK? && s.role.Client? ==> s.nextSend.Never? && !s.built)
    && (s.role.Server? ==>
          s.timer.NoTimer? && s.state.Trying? && !s.flags.acked && s.server.status == 0)
  }

  lemma InstallSlots(slots: seq<Slot>, c: nat, s: Slot, log: seq<Event>)
    requires SlotsLogged(slots, log) && c < |slots| && slots[c] == EMPTY && Linked(slots)
    requires Unborn(s) && s.child.None?
    requires forall k :: 0 <= k < |log| ==> KnownGens(log[k], s.gen)
    ensures SlotsLogged(slots[c := s], log)
  {
    var t := slots[c := s];
    forall j | 0 <= j < |t|
      ensures SlotLogged(t[j], log) && ByeLogged(t, j, log)
    {
      assert SlotLogged(slots[j], log) && ByeLogged(slots, j, log);
      assert ChildOk(slots, j);
      if j == c {
        forall k | 0 <= k < |log|
          ensures EventFits(s, log[k]) && ByeHeld(s, log[k], log)
        {
          assert KnownGens(log[k], s.gen);
        }
      }
    }
    forall j, k | 0 <= j < |t| && 0 <= k < |log|
      ensures AckLogged(t, j, log[k])
    {
      assert AckLogged(slots, j, log[k]);
      assert ChildOk(slots, j);
    }
  }

  lemma VacateInv(tm: Tm, c: nat)
    requires Inv(tm) && c < |tm.slots| && (tm.slots[c].active ==> Evictable(tm.slots[c]))
    ensures Inv(Vacate(tm, c))
  {
    VacateKeeps(tm, c);
    var v := Vacate(tm, c).slots;
    if tm.slots[c].active {
      DropCleans(tm.slots, c);
    }
    EmptiedSlots(tm.slots, v, tm.log);
  }

  lemma InstallHonest(tm: Tm, c: nat, s: Slot)
    requires Honest(tm) && Linked(tm.slots) && c < |tm.slots| && tm.slots[c] == EMPTY
    requires Unborn(s) && s.child.None?
    ensures Honest(Install(tm, c, s))
  {
    InstallSlots(tm.slots, c, Awake(s, tm.gens), tm.log);
  }

  lemma NewSlotHonest(tm: Tm, s: Slot, space: Space)
    requires Inv(tm) && Unborn(s) && s.child.None?
    ensures Honest(NewSlot(tm, s, space).0)
  {
    AllocRight(tm.slots);
    var c := AllocIndex(tm.slots);
    if c.Some? {
      VacateInv(tm, c.value);
      if space.Fits? {
        InstallHonest(Vacate(tm, c.value), c.value, s);
      }
    }
  }

  // The history is no part of that
  lemma NewSlotLog(tm: Tm, s: Slot, space: Space)
    ensures NewSlot(tm, s, space).0.log == tm.log
  {
    hide AllocIndex, DropFamily, FamilySize;
  }

  // A new transaction, allocated and installed: the invariant is kept, and so
  // is every transaction that may not be evicted
  lemma NewSlotInv(tm: Tm, s: Slot, space: Space)
    requires Inv(tm) && Fresh(s, tm.gens) && ParentFor(tm.slots, s) && Unborn(s)
    ensures var (t, c) := NewSlot(tm, s, space);
      && Inv(t) && t.log == tm.log && t.reliable == tm.reliable && t.clock == tm.clock
      && (c.Some? ==> t.slots[c.value] == Awake(s, tm.gens) && t.gens == tm.gens + 1)
      && (c.None? ==> t.gens == tm.gens)
      && forall j :: 0 <= j < |tm.slots| && Safe(tm.slots, j) ==>
           c != Some(j) && t.slots[j] == tm.slots[j]
  {
    NewSlotKeeps(tm, s, space);
    NewSlotHonest(tm, s, space);
  }
}
