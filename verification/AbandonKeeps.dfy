// Giving up on an INVITE, restarting a transaction, and telling the
// application: each keeps the invariant.
module AbandonKeeps {
  import opened Base
  import opened Slots
  import opened Table
  import opened ClientSteps
  import opened Links
  import opened History
  import opened HistoryKeeps
  import opened ClientKeeps

  // Longer by events that tell the application nothing
  predicate Silent(l: seq<Event>, m: seq<Event>) {
    l <= m && forall k :: |l| <= k < |m| ==>
      !m[k].Told? && !m[k].Detached? && !m[k].Sent? && !m[k].Replied? && !m[k].Acked?
  }

  // An attempt whose outcome was not told yet
  predicate Open(log: seq<Event>, gen: nat, attempt: nat) {
    forall k :: 0 <= k < |log| ==>
      log[k] != Detached(gen)
      && !(log[k].Told? && log[k].gen == gen && log[k].attempt == attempt && !log[k].what.Progress?)
  }

  lemma SilentOpen(l: seq<Event>, m: seq<Event>, gen: nat, attempt: nat)
    requires Silent(l, m) && Open(l, gen, attempt)
    ensures Open(m, gen, attempt)
  {
    forall k | 0 <= k < |m|
      ensures m[k] != Detached(gen)
      ensures !(m[k].Told? && m[k].gen == gen && m[k].attempt == attempt && !m[k].what.Progress?)
    {
      if k < |l| { assert m[k] == l[k]; }
    }
  }

  lemma OpenSlot(s: Slot, log: seq<Event>)
    requires SlotLogged(s, log) && s.active
    requires !s.finalReported && !s.state.Terminated? && !s.flags.abandoned
    ensures Open(log, s.gen, s.attempt)
  {
    forall k | 0 <= k < |log|
      ensures log[k] != Detached(s.gen)
      ensures !(log[k].Told? && log[k].gen == s.gen && log[k].attempt == s.attempt
                && !log[k].what.Progress?)
    {
      assert EventFits(s, log[k]);
    }
  }

  // --- CANCEL

  // What starting the CANCEL leaves of the INVITE itself
  function CancelStarted(s: Slot): Slot
    requires s.invite.Some?
  {
    var v := s.invite.value;
    if v.cancel.OnWire? then s
    else if !v.provisional then s.(invite := Some(v.(cancel := Scheduled)))
    else ClearInviteTimeout(s.(invite := Some(v.(cancel := OnWire))))
  }

  lemma CloneFresh(src: Slot, verb: Method, p: nat, gen: nat)
    requires !src.flags.terminated && (verb.ACK? || verb.CANCEL?)
    ensures Fresh(CloneOf(src, verb, p), gen) && Unborn(CloneOf(src, verb, p))
  {
    var s := Awake(CloneOf(src, verb, p), gen);
    assert s.verb == verb && !s.flags.terminated && s.invite.None?;
    assert OtherOk(s);
  }

  lemma CancelJustified(s: Slot, log: seq<Event>, c: nat)
    requires SlotLogged(s, log) && LiveClient(s) && s.invite.Some?
    requires s.invite.value.provisional && !s.invite.value.cancel.OnWire? && !s.finalReported
    requires WasSent(log, s.gen, s.attempt, INVITE, s.ident) && Copies(s.ident)
    ensures Justified(log, CancelMade(s.gen, s.attempt, c, s.ident))
  {
    var e := CancelMade(s.gen, s.attempt, c, s.ident);
    forall k | 0 <= k < |log| ensures Compatible(log[k], e) {
      assert EventFits(s, log[k]);
    }
  }

  // A CANCEL on the wire: the INVITE marked, the event noted, the CANCEL armed
  lemma CancelGoes(t: Tm, i: nat, c: nat, g: nat)
    requires Inv(t) && i < |t.slots| && c < |t.slots| && i != c && LiveClient(t.slots[i])
    requires t.slots[i].invite.Some? && t.slots[i].flags.abandoned
    requires t.slots[i].invite.value.provisional && !t.slots[i].invite.value.cancel.OnWire?
    requires !t.slots[i].finalReported
    requires WasSent(t.log, t.slots[i].gen, t.slots[i].attempt, INVITE, t.slots[i].ident)
    requires t.slots[c].active && t.slots[c].role.Client? && t.slots[c].verb.CANCEL?
    requires t.slots[c].gen == g < t.gens
    requires Copies(t.slots[i].ident) && t.slots[c].ident == CopyOf(t.slots[i].ident)
    requires t.slots[c].parent.None? && t.slots[c].state.Trying? && !t.slots[c].finalReported
    ensures var s := t.slots[i];
            var u := Note(Put(t, i, CancelStarted(s)), CancelMade(s.gen, s.attempt, g, s.ident));
            Inv(Put(u, c, CancelReady(u.slots[c])))
  {
    hide Inv, Justified, Copies, CopyOf, SlotLogged;
    var s := t.slots[i];
    var e := CancelMade(s.gen, s.attempt, g, s.ident);
    OfSlot(t, i);
    CalmPut(t, i, CancelStarted(s));
    var p := Put(t, i, CancelStarted(s));
    CancelJustified(s, t.log, g);
    NoteOwn(p, i, e);
    var u := Note(p, e);
    var r := CancelReady(u.slots[c]);
    OfSlot(u, c);
    assert IsCancel(u.log[|u.log| - 1], g, r.ident);
    ReadyLogged(u.slots[c], u.log);
    PutInv(u, c, r);
  }

  lemma ReadyLogged(s: Slot, log: seq<Event>)
    requires SlotLogged(s, log) && s.active && s.role.Client? && s.verb.CANCEL?
    requires CancelOnRecord(log, s.gen, s.ident)
    ensures SlotLogged(CancelReady(s), log)
  {
    hide CancelOnRecord;
    var r := CancelReady(s);
    forall k | 0 <= k < |log|
      ensures EventFits(r, log[k]) && ByeHeld(r, log[k], log)
    {
      assert EventFits(s, log[k]) && ByeHeld(s, log[k], log);
    }
  }

  predicate Cancellable(tm: Tm, i: nat) {
    && i < |tm.slots| && LiveClient(tm.slots[i]) && tm.slots[i].invite.Some?
    && tm.slots[i].flags.abandoned && !tm.slots[i].state.Terminated? && !tm.slots[i].finalReported
    && WasSent(tm.log, tm.slots[i].gen, tm.slots[i].attempt, INVITE, tm.slots[i].ident)
  }

  lemma StartCancelInv(tm: Tm, i: nat, space: Space)
    requires Inv(tm) && Cancellable(tm, i)
    ensures var (t, ok) := StartCancel(tm, i, space);
      && Inv(t) && Silent(tm.log, t.log)
      && t.slots[i] == (if ok then CancelStarted(tm.slots[i]) else tm.slots[i])
  {
    hide Inv, Copies, CopyOf, Fresh, Unborn;
    var s := tm.slots[i];
    var v := s.invite.value;
    OfSlot(tm, i);
    if v.cancel.OnWire? {
    } else if !v.provisional {
      CalmPut(tm, i, CancelStarted(s));
    } else {
      CloneFresh(s, CANCEL, i, tm.gens);
      assert Safe(tm.slots, i);
      NewSlotInv(tm, CloneOf(s, CANCEL, i), CloneSpace(s, space));
      var (t, c) := NewSlot(tm, CloneOf(s, CANCEL, i), CloneSpace(s, space));
      if c.Some? {
        CancelGoes(t, i, c.value, tm.gens);
      }
    }
  }

  // --- Abandoning

  function AbandonedSlot(s: Slot, ok: bool): Slot
    requires s.invite.Some?
  {
    var d := DetachCallbacks(s);
    if d.sends == 0 || !ok then FinishAbandoned(d) else CancelStarted(d)
  }

  lemma AbandonedIsSame(s: Slot, ok: bool)
    requires s.invite.Some?
    requires !s.verb.ACK?
    ensures var t := AbandonedSlot(s, ok);
      SameLinks(s, t) && t.flags.abandoned && t.app.owned == s.app.owned && t.attempt == s.attempt
  {
  }

  lemma FinishInv(tm: Tm, i: nat)
    requires Inv(tm) && i < |tm.slots| && LiveClient(tm.slots[i]) && tm.slots[i].invite.Some?
    ensures Inv(Put(tm, i, FinishAbandoned(tm.slots[i])))
  {
    hide Inv;
    OfSlot(tm, i);
    CalmPut(tm, i, FinishAbandoned(tm.slots[i]));
  }

  lemma AbandonInv(tm: Tm, i: nat, space: Space)
    requires Inv(tm) && i < |tm.slots| && LiveClient(tm.slots[i]) && tm.slots[i].invite.Some?
    requires !tm.slots[i].state.Terminated? && !tm.slots[i].finalReported
    ensures var t := Abandon(tm, i, space);
      && Inv(t) && Silent(tm.log, t.log)
      && (t.slots[i] == AbandonedSlot(tm.slots[i], true)
          || t.slots[i] == AbandonedSlot(tm.slots[i], false))
  {
    hide Inv;
    var s := DetachCallbacks(tm.slots[i]);
    OfSlot(tm, i);
    CalmPut(tm, i, s);
    var u := Put(tm, i, s);
    if s.sends == 0 {
      PutPut(tm, i, s, FinishAbandoned(s));
      FinishInv(u, i);
    } else {
      StartCancelInv(u, i, space);
      var (t, ok) := StartCancel(u, i, space);
      if !ok {
        FinishInv(t, i);
      }
    }
  }

  lemma AbandonDetachInv(tm: Tm, i: nat, space: Space)
    requires Inv(tm) && i < |tm.slots| && LiveClient(tm.slots[i]) && tm.slots[i].invite.Some?
    requires !tm.slots[i].state.Terminated? && !tm.slots[i].finalReported
    ensures Inv(Note(Abandon(tm, i, space), Detached(tm.slots[i].gen)))
  {
    hide Inv, Abandon, AbandonedSlot;
    OfSlot(tm, i);
    AbandonInv(tm, i, space);
    AbandonedIsSame(tm.slots[i], true);
    AbandonedIsSame(tm.slots[i], false);
    OfSlot(Abandon(tm, i, space), i);
    NoteOwn(Abandon(tm, i, space), i, Detached(tm.slots[i].gen));
  }

  lemma MarkCancelled(tm: Tm, i: nat)
    requires Inv(tm) && i < |tm.slots| && LiveClient(tm.slots[i]) && tm.slots[i].invite.Some?
    ensures Inv(Put(tm, i,
                    tm.slots[i].(invite := Some(tm.slots[i].invite.value.(appCancelled := true)))))
  {
    hide Inv;
    OfSlot(tm, i);
    CalmPut(tm, i, tm.slots[i].(invite := Some(tm.slots[i].invite.value.(appCancelled := true))));
  }

  lemma CancelTxInv(tm: Tm, i: nat, space: Space)
    requires Inv(tm) && (i < |tm.slots| && tm.slots[i].active ==> tm.slots[i].role.Client?)
    ensures Inv(CancelTx(tm, i, space).0)
  {
    hide Inv;
    if CancelTx(tm, i, space).1 == Ok {
      var s := tm.slots[i];
      MarkCancelled(tm, i);
      if !s.flags.abandoned {
        AbandonDetachInv(
          Put(tm, i, s.(invite := Some(s.invite.value.(appCancelled := true)))), i, space);
      }
    }
  }

  // --- Restarting

  lemma RestartLogged(s: Slot, b: Build, log: seq<Event>)
    requires LiveClient(s) && SlotLogged(s, log) && !s.flags.abandoned && s.app.owned && s.parent.None?
    requires !s.verb.CANCEL?
    requires !s.verb.ACK?
    ensures SlotLogged(Restart(s.(child := None), b), log)
  {
    var t := Restart(s.(child := None), b);
    forall k | 0 <= k < |log|
      ensures EventFits(t, log[k]) && ByeHeld(t, log[k], log)
    {
      assert EventFits(s, log[k]) && ByeHeld(s, log[k], log);
    }
  }

  lemma NoChildLogged(s: Slot, log: seq<Event>)
    requires SlotLogged(s, log)
    ensures SlotLogged(s.(child := None), log)
  {
    var t := s.(child := None);
    if s.active {
      forall k | 0 <= k < |log|
        ensures EventFits(t, log[k]) && ByeHeld(t, log[k], log)
      {
        assert EventFits(s, log[k]) && ByeHeld(s, log[k], log);
      }
    }
  }

  // The ACK of the attempt before, if any, is let go
  lemma LetGoInv(tm: Tm, i: nat, s: Slot)
    requires Inv(tm) && i < |tm.slots| && LiveClient(tm.slots[i]) && !tm.slots[i].flags.abandoned
    requires tm.slots[i].parent.None? && SameLinks(tm.slots[i].(child := None), s)
    requires SlotOk(s) && SlotLogged(s, tm.log) && (ByeFlag(s) ==> ByeFlag(tm.slots[i]))
    ensures Inv(Put(tm, i, s))
  {
    hide Inv;
    var c := tm.slots[i].child;
    OfSlot(tm, i);
    if c.Some? {
      OfSlot(tm, c.value);
      UnlinkInv(tm, i, c.value, s, tm.slots[c.value]);
      assert tm.slots[i := s][c.value := tm.slots[c.value]] == tm.slots[i := s];
    } else {
      PutInv(tm, i, s);
    }
  }

  // The application restarts its own transactions only
  predicate MayCallNext(tm: Tm, i: nat) {
    i < |tm.slots| && tm.slots[i].active ==> tm.slots[i].role.Client? && tm.slots[i].app.owned
  }

  lemma RestartInv(tm: Tm, i: nat, b: Build)
    requires Inv(tm) && i < |tm.slots| && LiveClient(tm.slots[i]) && tm.slots[i].app.owned
    requires !tm.slots[i].flags.abandoned
    ensures Inv(Put(tm, i, Restart(tm.slots[i].(child := None), b)))
  {
    hide Inv, Restart;
    var s := tm.slots[i];
    OfSlot(tm, i);
    RestartLogged(s, b, tm.log);
    RestartOk(s, b);
    LetGoInv(tm, i, Restart(s.(child := None), b));
  }

  lemma RestartOk(s: Slot, b: Build)
    requires SlotOk(s) && LiveClient(s) && s.app.owned && !s.flags.abandoned
    ensures SlotOk(Restart(s.(child := None), b))
    ensures SameLinks(s.(child := None), Restart(s.(child := None), b))
    ensures !ByeFlag(Restart(s.(child := None), b))
  {
  }

  lemma NextTxInv(tm: Tm, i: nat, b: Build)
    requires Inv(tm) && MayCallNext(tm, i)
    ensures Inv(NextTx(tm, i, b).0)
  {
    hide Inv;
    if i < |tm.slots| && tm.slots[i].active && !tm.slots[i].flags.abandoned {
      var s := tm.slots[i];
      if MayRestart(s) {
        RestartInv(tm, i, b);
      } else {
        OfSlot(tm, i);
        NoChildLogged(s, tm.log);
        LetGoInv(tm, i, s.(child := None));
      }
    }
  }

  // --- Telling the application

  lemma ToldJustified(log: seq<Event>, gen: nat, attempt: nat, what: Report)
    requires Open(log, gen, attempt)
    ensures Justified(log, Told(gen, attempt, what))
  {
  }

  lemma TellInv(tm: Tm, i: nat, listening: bool, what: Report, react: Reaction)
    requires Inv(tm) && i < |tm.slots| && LiveClient(tm.slots[i])
    requires listening ==>
               var s := tm.slots[i];
               s.app.owned && Open(tm.log, s.gen, s.attempt)
               && (what.Final? ==> s.finalReported)
               && (what.TimedOut? ==> s.state.Terminated? || s.flags.abandoned)
    ensures Inv(Tell(tm, i, listening, what, react))
  {
    hide Inv;
    if listening {
      var s := tm.slots[i];
      OfSlot(tm, i);
      var e := Told(s.gen, s.attempt, what);
      ToldJustified(tm.log, s.gen, s.attempt, what);
      NoteOwn(tm, i, e);
      if react.Retry? {
        NextTxInv(Note(tm, e), i, react.b);
      }
    }
  }
}
