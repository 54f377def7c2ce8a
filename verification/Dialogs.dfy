// The dialog of a call, on top of a transaction manager
// (usipy_sip_dialog.c): it owns the INVITE it accepted, and sends the BYE.
module Dialogs {
  import opened Base
  import opened Slots
  import opened Table
  import opened ClientSteps
  import opened ServerSteps
  import opened History
  import opened Runs
  import opened TransactionManager
  import opened Calls

  class Dialog {
    const tm: Manager
    // The INVITE accepted here, none for a dialog of an INVITE sent
    const invite: Option<nat>
    const id: nat
    const timers: Policy
    const peer: Ident
    var ackPending: bool
    var retryMs: nat
    var ended: bool
    var cseq: nat

    function State(): Dlg
      reads this
    {
      Dlg(ackPending, retryMs, ended, cseq, timers)
    }

    ghost predicate Valid()
      reads this, tm, tm.slots
    {
      tm.Valid()
    }

    constructor (tm: Manager, invite: Option<nat>, id: nat, timers: Policy, peer: Ident)
      requires tm.Valid()
      ensures Valid() && this.tm == tm && this.invite == invite && this.id == id
      ensures State() == Dlg(invite.Some?, timers.t1, false, peer.cseq, timers)
      ensures this.peer == peer
    {
      this.tm, this.invite, this.id, this.timers, this.peer := tm, invite, id, timers, peer;
      ackPending, retryMs, ended, cseq := invite.Some?, timers.t1, false, peer.cseq;
    }

    // The next send of the 2xx, if the INVITE is still this dialog's
    method SendAt(at: Deadline) returns (rc: Rc)
      requires Valid()
      modifies tm.slots
      ensures Valid() && State() == old(State())
      ensures invite.None? ==> rc == NotFound && tm.View() == old(tm.View())
      ensures invite.Some? ==>
        (tm.View(), rc) == ServerSteps.SendAt(old(tm.View()), invite.value, id, at)
    {
      if invite.None? {
        return NotFound;
      }
      rc := tm.SendAt(invite.value, id, at);
    }

    // usipy_sip_dialog_uas_sent
    method UasSent(now: nat)
      requires Valid()
      modifies this`retryMs, tm.slots
      ensures Valid()
      ensures if old(ackPending) && invite.Some? && OwnedBy(old(tm.View()), invite.value, id)
              then State() == AfterSent(old(State()))
                   && tm.View() == ServerSteps.SendAt(old(tm.View()), invite.value, id,
                                                      AgainAt(old(State()), now)).0
              else State() == old(State()) && tm.View() == old(tm.View())
    {
      hide Inv;
      if !ackPending {
        return;
      }
      var rc := SendAt(At(now + retryMs));
      if rc != Ok {
        return;
      }
      var doubled := retryMs * 2;
      retryMs := if doubled < timers.t2 then doubled else timers.t2;
    }

    // usipy_sip_dialog_uas_acked
    method UasAcked()
      requires Valid()
      modifies this`ackPending, tm.slots
      ensures Valid() && State() == NoLongerPending(old(State()))
      ensures tm.View() == Stop(old(tm.View()))
    {
      ackPending := false;
      var _ := SendAt(Never);
    }

    // No more of the 2xx
    function Stop(t: Tm): Tm {
      if invite.None? then t else ServerSteps.SendAt(t, invite.value, id, Never).0
    }

    // usipy_sip_dialog_end: the BYE, unless there was one or there is no slot
    method End(space: Space) returns (rc: Rc, bye: Option<nat>)
      requires Valid()
      modifies this`ended, this`cseq, this`ackPending, tm, tm.slots
      ensures Valid() && State() == AfterEnd(old(State()), bye.Some?)
      ensures old(ended) ==> rc == Unsupported && bye.None? && tm.View() == old(tm.View())
      ensures !old(ended) ==>
        var (t, b) := Table.NewSlot(old(tm.View()), ByeSlot(old(cseq)), space);
        && bye == b && (rc == Ok <==> b.Some?)
        && tm.View() == if b.Some? then Stop(t) else t
    {
      hide Inv, Table.NewSlot, ServerSteps.SendAt;
      if ended {
        return Unsupported, None;
      }
      bye := tm.NewUac(BYE, peer.(cseq := NextCseq(cseq)), timers, 0, false, false, false, space);
      if bye.None? {
        return NoSpace, None;
      }
      cseq := NextCseq(cseq);
      ended := true;
      UasAcked();
      rc := Ok;
    }

    function NextCseq(n: nat): nat {
      (n + 1) % 0x1_0000_0000
    }

    function ByeSlot(n: nat): Slot {
      ClientSlot(tm.reliable, BYE, peer.(cseq := NextCseq(n)), timers, 0, false, false, false)
    }

    // usipy_sip_dialog_uas_timeout: what `keep` says is the answer of the
    // application's no_ack callback. True if it was for this dialog to handle;
    // `told` if the handler is to be called.
    method UasTimeout(keep: bool, space: Space) returns (handled: bool, bye: Option<nat>, told: bool)
      requires Valid()
      modifies this`ended, this`cseq, this`ackPending, tm, tm.slots
      ensures Valid()
      ensures handled == (old(ackPending) && invite.Some?
                          && OwnedBy(old(tm.View()), invite.value, id))
      ensures !handled ==> State() == old(State()) && tm.View() == old(tm.View())
      ensures told == (handled && !keep)
      ensures handled ==>
        State() == (if keep then NoLongerPending(old(State()))
                    else AfterEnd(NoLongerPending(old(State())), bye.Some?))
      ensures handled && keep ==> bye.None? && tm.View() == Stop(old(tm.View()))
      ensures handled && !keep && old(ended) ==> bye.None? && tm.View() == Stop(old(tm.View()))
      ensures handled && !keep && !old(ended) ==>
        var (t, b) := Table.NewSlot(Stop(old(tm.View())), ByeSlot(old(cseq)), space);
        bye == b && tm.View() == if b.Some? then Stop(t) else t
    {
      hide Inv, Table.NewSlot;
      if invite.None? || !ackPending {
        return false, None, false;
      }
      var owned := tm.Owned(invite.value, id);
      if !owned {
        return false, None, false;
      }
      UasAcked();
      if keep {
        return true, None, false;
      }
      var rc;
      rc, bye := End(space);
      return true, bye, true;
    }

    // usipy_sip_dialog_accept_uas_bye: `matches` is whether the request is of
    // this dialog
    method AcceptUasBye(matches: bool, index: nat) returns (rc: Rc)
      requires Valid()
      modifies this`ended, this`ackPending, tm.slots
      ensures Valid()
      ensures var t := old(tm.View());
        && (rc == Ok <==> matches && index < |t.slots| && LiveServer(t.slots[index])
                          && t.slots[index].verb.BYE?)
        && (rc == Ok ==> State() == AfterPeerBye(old(State())) && tm.View() == Stop(t))
        && (rc != Ok ==> State() == old(State()) && tm.View() == t)
    {
      hide Inv;
      if !matches {
        return Unsupported;
      }
      if index >= tm.slots.Length || !tm.slots[index].active {
        return NotFound;
      }
      if !tm.slots[index].role.Server? || !tm.slots[index].verb.BYE? {
        return Unsupported;
      }
      ended := true;
      UasAcked();
      return Ok;
    }

    // usipy_sip_dialog_dtor: nothing of the 2xx is left to it
    method Destroy()
      requires Valid()
      modifies this`ackPending, tm.slots
      ensures Valid()
      ensures invite.None? ==> tm.View() == old(tm.View())
      ensures invite.Some? ==>
        tm.View() == ServerSteps.ClearOwner(Stop(old(tm.View())), invite.value, id).0
    {
      hide Inv;
      if invite.Some? {
        UasAcked();
        var _ := tm.ClearOwner(invite.value, id);
      }
    }
  }

  predicate CanAccept(t: Tm, index: nat, code: nat, stored: bool) {
    200 <= code <= 299 && index < |t.slots| && LiveServer(t.slots[index]) && stored
  }

  // usipy_sip_dialog_uas_ctor: the 2xx queued, and the INVITE the dialog's;
  // `stored` is whether there is memory for the dialog and its requests
  method AcceptInvite(tm: Manager, index: nat, id: nat, code: nat, noAck: bool, fits: bool,
                      timers: Policy, peer: Ident, stored: bool)
    returns (d: Option<Dialog>)
    requires tm.Valid()
    modifies tm.slots
    ensures tm.Valid()
    ensures !CanAccept(old(tm.View()), index, code, stored) ==>
      d.None? && tm.View() == old(tm.View())
    ensures CanAccept(old(tm.View()), index, code, stored) ==>
      var (t, rc) := SendResponse(old(tm.View()), index, code, noAck, fits);
      && (d.Some? <==> rc == Ok)
      && (d.Some? ==>
            && tm.View() == ServerSteps.SetOwner(t, index, id).0
            && d.value.Valid() && d.value.tm == tm && fresh(d.value)
            && d.value.invite == Some(index) && d.value.id == id
            && d.value.State() == Dlg(true, timers.t1, false, peer.cseq, timers))
      && (d.None? ==> tm.View() == t)
  {
    hide Inv, Responded;
    if code < 200 || code > 299 || index >= tm.slots.Length || !LiveServer(tm.slots[index])
      || !stored
    {
      return None;
    }
    var rc := tm.SendUasResponse(index, code, noAck, fits);
    if rc != Ok {
      return None;
    }
    RespondedLive(old(tm.View()), index, code, noAck);
    rc := tm.SetOwner(index, id);
    var dialog := new Dialog(tm, Some(index), id, timers, peer);
    d := Some(dialog);
  }

  lemma RespondedLive(t: Tm, i: nat, code: nat, noAck: bool)
    requires i < |t.slots| && LiveServer(t.slots[i])
    ensures LiveServer(Responded(t.slots[i], code, noAck))
  {
  }

  // What it makes of an INVITE not answered yet: a call as accepted
  lemma AcceptedCall(s: Slot, code: nat, noAck: bool, id: nat, timers: Policy, cseq: nat)
    requires LiveServer(s) && IsInvite(s) && 200 <= code <= 299 && s.server.status < 200
    ensures JustAccepted(Call(WithOwner(Responded(s, code, noAck), Some(id)),
                          Dlg(true, timers.t1, false, cseq, timers), true, []))
  {
  }
}
