// The client transactions (usipy_sip_tm_uac.c), as functions on the table.
// Every choice made outside, by the network, the application or the size of
// a message, is a parameter.
module ClientSteps {
  import opened Base
  import opened Slots
  import opened Table

  // What an application callback does: nothing, or restart its transaction
  datatype Reaction = Ignore | Retry(b: Build)

  // --- ACK and CANCEL of an INVITE

  function CloneOf(src: Slot, verb: Method, p: nat): Slot {
    EMPTY.(
      verb := verb,
      role := Client,
      state := if verb.ACK? then Calling else Trying,
      flags := src.flags.(abandoned := false),
      ident := if verb.CANCEL? then CopyOf(src.ident) else CopyOf(src.ident).(branch := 0),
      policy := src.policy, expires := src.expires,
      parent := if verb.ACK? then Some(p) else None)
  }

  // A Request-URI that does not parse again leaves the slot unused
  function CloneSpace(src: Slot, space: Space): Space {
    if Copies(src.ident) then space else Full
  }

  // A CANCEL is built and due at once; an ACK waits for the response
  function CancelReady(s: Slot): Slot {
    s.(matchable := true, built := true, nextSend := At(0))
  }

  // uac_start_cancel: false if no CANCEL could be made
  function StartCancel(tm: Tm, i: nat, space: Space): (r: (Tm, bool))
    requires i < |tm.slots| && tm.slots[i].invite.Some?
    ensures |r.0.slots| == |tm.slots|
  {
    var s := tm.slots[i];
    var v := s.invite.value;
    if v.cancel.OnWire? then (tm, true)
    else if !v.provisional then
      (Put(tm, i, s.(invite := Some(v.(cancel := Scheduled)))), true)
    else
      var (t, c) := NewSlot(tm, CloneOf(s, CANCEL, i), CloneSpace(s, space));
      if c.None? then (t, false)
      else
        var p := t.slots[i];
        var q := ClearInviteTimeout(if p.invite.None? then p
                   else p.(invite := Some(p.invite.value.(cancel := OnWire))));
        var u := Note(Put(t, i, q), CancelMade(s.gen, s.attempt, tm.gens, s.ident));
        (Put(u, c.value, CancelReady(u.slots[c.value])), true)
  }

  // uac_abandon
  function Abandon(tm: Tm, i: nat, space: Space): (r: Tm)
    requires i < |tm.slots| && tm.slots[i].invite.Some?
    ensures |r.slots| == |tm.slots|
  {
    var s := DetachCallbacks(tm.slots[i]);
    if s.sends == 0 then Put(tm, i, FinishAbandoned(s))
    else
      var (t, ok) := StartCancel(Put(tm, i, s), i, space);
      if ok then t else Put(t, i, FinishAbandoned(t.slots[i]))
  }

  // usipy_sip_tm_cancel
  function CancelTx(tm: Tm, i: nat, space: Space): (Tm, Rc) {
    if i >= |tm.slots| then (tm, Inval)
    else if !tm.slots[i].active then (tm, NotFound)
    else
      var s := tm.slots[i];
      if !IsInvite(s) || s.state.Completed? || s.state.Terminated?
        || s.child.Some? || s.finalReported
        || s.invite.None? || s.invite.value.appCancelled
      then (tm, Unsupported)
      else
        var t := Put(tm, i, s.(invite := Some(s.invite.value.(appCancelled := true))));
        if s.flags.abandoned then (t, Ok)
        else (Note(Abandon(t, i, space), Detached(s.gen)), Ok)
  }

  // --- Restarting (usipy_sip_tm_next_transaction)

  function NextTx(tm: Tm, i: nat, b: Build): (r: (Tm, Rc))
    ensures |r.0.slots| == |tm.slots|
  {
    if i >= |tm.slots| then (tm, Inval)
    else if !tm.slots[i].active then (tm, NotFound)
    else
      var s := tm.slots[i];
      if s.flags.abandoned then (tm, Unsupported)
      else if s.child.Some? &&
              !(s.child.value < |tm.slots| && tm.slots[s.child.value].active
                && tm.slots[s.child.value].verb.ACK?)
      then (tm, Unsupported)
      else
        var t := s.(child := None);
        if !MayRestart(t) then (Put(tm, i, t), Unsupported)
        else (Put(tm, i, Restart(t, b)), if b.Built? then Ok else NoSpace)
  }

  // The application is told, if it asked to be, and reacts
  function Tell(tm: Tm, i: nat, listening: bool, what: Report, r: Reaction): (t: Tm)
    requires i < |tm.slots|
    ensures |t.slots| == |tm.slots|
  {
    if !listening then tm
    else
      var t := Note(tm, Told(tm.slots[i].gen, tm.slots[i].attempt, what));
      match r
      case Ignore => t
      case Retry(b) => NextTx(t, i, b).0
  }

  // --- Responses

  datatype Resp = Resp(callId: nat, fromTag: nat, branch: nat, cseq: nat, verb: Method,
                       code: nat, contact: Uri.SipUri)

  function Class(r: Resp): nat { r.code / 100 }

  // Whether the storage holds what a response makes necessary: its CANCEL,
  // its ACK (the slot, and the request built from the response) and BYE.
  // The branches of the ACK of a 2xx and of the BYE come from the id policy.
  datatype Room = Room(cancelSlot: Space, ackSlot: Space, ackFits: bool, ackBranch: nat,
                       byeFits: bool, byeSlot: Space, byeBranch: nat)

  predicate Matches(s: Slot, r: Resp) {
    LiveClient(s) && s.matchable &&
    s.ident.callId == r.callId && s.ident.fromTag == r.fromTag &&
    s.ident.branch == r.branch && s.ident.cseq == r.cseq && s.verb == r.verb
  }

  function FindFrom(slots: seq<Slot>, r: Resp, i: nat): (f: Option<nat>)
    requires i <= |slots|
    ensures f.Some? ==> i <= f.value < |slots| && Matches(slots[f.value], r)
    ensures forall j :: i <= j < (if f.Some? then f.value else |slots|) ==> !Matches(slots[j], r)
    decreases |slots| - i
  {
    if i == |slots| then None
    else if Matches(slots[i], r) then Some(i)
    else FindFrom(slots, r, i + 1)
  }

  // The BYE of an abandoned call that got answered: made now, sent by the
  // ACK's own sending (abandoned_uac)
  function ByeOf(src: Slot, i: nat, r: Resp, reliable: bool, branch: nat): Slot {
    EMPTY.(
      verb := BYE, role := Client, state := Trying,
      flags := NO_FLAGS.(reliable := reliable),
      ident := src.ident.(branch := branch, cseq := (src.ident.cseq + 1) % 0x1_0000_0000,
                          uri := r.contact),
      matchable := true, policy := Resolve(src.policy), parent := Some(i))
  }

  function WithBye(s: Slot): Slot {
    if s.invite.None? then s else s.(invite := Some(s.invite.value.(byeStarted := true)))
  }

  function QueueBye(tm: Tm, i: nat, r: Resp, room: Room): (q: (Tm, Rc))
    requires i < |tm.slots|
    ensures |q.0.slots| == |tm.slots|
  {
    var s := tm.slots[i];
    if Class(r) != 2 || s.invite.None? || s.invite.value.byeStarted
      || s.child.None? || s.child.value >= |tm.slots| then (tm, Ok)
    else if !room.byeFits then (tm, BadMsg)
    else
      var a := s.child.value;
      var (t, b) := NewSlot(tm, ByeOf(s, i, r, tm.reliable, room.byeBranch), room.byeSlot);
      if b.None? then (t, NoSpace)
      else
        var e := ByeMade(s.gen, s.attempt, tm.slots[a].gen, tm.gens, s.ident, r.contact, room.byeBranch);
        var u := Note(Put(t, i, WithBye(t.slots[i])), e);
        (Put(u, a, u.slots[a].(child := b)), Ok)
  }

  // The ACK: its slot
  function NeedAck(tm: Tm, i: nat, space: Space): (r: Tm)
    requires i < |tm.slots|
    ensures |r.slots| == |tm.slots|
  {
    if tm.slots[i].child.Some? then tm
    else
      var (t, c) := NewSlot(tm, CloneOf(tm.slots[i], ACK, i), CloneSpace(tm.slots[i], space));
      if c.None? then t else Put(t, i, t.slots[i].(child := c))
  }

  // ... and the request in it: to the peer's Contact with a branch of its
  // own for a 2xx, hop by hop with the INVITE's branch otherwise
  function BuildAck(a: Slot, src: Slot, r: Resp, branch: nat): Slot {
    if Class(r) == 2
    then a.(built := true, matchable := true, ident := a.ident.(uri := r.contact, branch := branch))
    else a.(built := true, matchable := true, ident := a.ident.(branch := src.ident.branch))
  }

  // Built once, and kept for the final responses after that
  function AckBuilding(t: Tm, i: nat, a: nat, r: Resp, branch: nat): (u: Tm)
    requires i < |t.slots| && a < |t.slots|
    ensures |u.slots| == |t.slots|
  {
    var s := t.slots[i];
    if t.slots[a].built then t
    else
      Put(Note(t, AckBuilt(s.gen, s.attempt, t.slots[a].gen, Class(r), s.ident, r.contact, branch)),
          a, BuildAck(t.slots[a], s, r, branch))
  }

  function ArmAck(tm: Tm, i: nat, a: nat, r: Resp, now: nat): (t: Tm)
    requires i < |tm.slots| && a < |tm.slots|
    ensures |t.slots| == |tm.slots|
  {
    var u := Put(tm, a, tm.slots[a].(nextSend := At(now)));
    var s := u.slots[i];
    Note(Put(u, i, s.(finalReported := true)),
         AckArmed(s.gen, tm.slots[a].gen, Class(r), s.flags.abandoned))
  }

  // uac_handle_invite_final, once the ACK has a slot
  function FinalTail(t: Tm, i: nat, a: nat, r: Resp, now: nat, room: Room): (q: (Tm, Rc))
    requires i < |t.slots| && a < |t.slots|
    ensures |q.0.slots| == |t.slots|
  {
    var s := t.slots[i];
    var u := AckBuilding(t, i, a, r, room.ackBranch);
    var (w, rc) := if s.flags.abandoned then QueueBye(u, i, r, room) else (u, Ok);
    if rc != Ok then (w, rc) else (ArmAck(w, i, a, r, now), Ok)
  }

  // ... and all of it
  function InviteFinal(tm: Tm, i: nat, r: Resp, now: nat, room: Room): (q: (Tm, Rc))
    requires i < |tm.slots|
    ensures |q.0.slots| == |tm.slots|
  {
    var t := NeedAck(Put(tm, i, InviteAnswered(tm.slots[i], Class(r), now)), i, room.ackSlot);
    var c := t.slots[i].child;
    if c.None? || c.value >= |t.slots| then (t, NoSpace)
    else if !t.slots[c.value].built && !room.ackFits then (t, NoSpace)
    else FinalTail(t, i, c.value, r, now, room)
  }

  // After a final response is through, its request is of no more use,
  // unless it was restarted or has its ACK to resend
  function Settle(tm: Tm, i: nat): (r: Tm)
    requires i < |tm.slots|
    ensures |r.slots| == |tm.slots|
  {
    var s := tm.slots[i];
    if s.state.Calling? || WaitsForInviteAck(s) then tm else Put(tm, i, ReleaseOutbound(s))
  }

  // A provisional response to an INVITE
  function HearRinging(tm: Tm, i: nat, now: nat, room: Room): (t: Tm)
    requires i < |tm.slots| && tm.slots[i].invite.Some?
    ensures |t.slots| == |tm.slots|
  {
    var s := Ringing(tm.slots[i]);
    var t := Put(tm, i, s);
    if !s.invite.value.cancel.Scheduled? then t
    else
      var (u, ok) := StartCancel(t, i, room.cancelSlot);
      var w := if ok then u else Put(u, i, FinishAbandoned(u.slots[i]));
      Put(w, i, ArmCleanup(w.slots[i], now))
  }

  function HearInvite(tm: Tm, i: nat, r: Resp, now: nat, room: Room, react: Reaction): (q: (Tm, Rc))
    requires i < |tm.slots| && tm.slots[i].invite.Some?
    ensures |q.0.slots| == |tm.slots|
  {
    var first := !tm.slots[i].finalReported;
    if Class(r) < 2 then
      var t := if Class(r) == 1 then HearRinging(tm, i, now, room) else tm;
      (Tell(t, i, t.slots[i].app.response, Progress, react), Ok)
    else
      var (t, rc) := InviteFinal(tm, i, r, now, room);
      if rc != Ok then (t, rc)
      else (Settle(Tell(t, i, first && t.slots[i].app.response, Final, react), i), Ok)
  }

  function HearOther(tm: Tm, i: nat, r: Resp, now: nat, react: Reaction): (t: Tm)
    requires i < |tm.slots|
    ensures |t.slots| == |tm.slots|
  {
    var s := tm.slots[i];
    if Class(r) < 2 then Tell(tm, i, s.app.response, Progress, react)
    else
      var t := Put(tm, i, OtherAnswered(s, now));
      Settle(Tell(t, i, !s.finalReported && s.app.response, Final, react), i)
  }

  // handle_incoming_response
  function Receive(tm: Tm, r: Resp, now: nat, room: Room, react: Reaction): (q: (Tm, Rc))
    ensures |q.0.slots| == |tm.slots|
  {
    var f := FindFrom(tm.slots, r, 0);
    if f.None? then (tm, NotFound)
    else
      var i := f.value;
      var s := tm.slots[i];
      var t := Note(tm, Heard(s.gen, s.attempt, Class(r), r.contact));
      if IsInvite(s) && Class(r) == 1 && s.finalReported then (t, Ok)
      else
        var u := Put(t, i, Quiet(s));
        if IsInvite(s) && s.invite.Some? then HearInvite(u, i, r, now, room, react)
        else (HearOther(u, i, r, now, react), Ok)
  }

  // --- The timer pump

  // What happens outside while a slot is run. `again`, `hangup` and
  // `hangupSlot` are for a server INVITE: when its dialog wants the 2xx sent
  // again, and the BYE with which it ends a call that was never ACKed.
  datatype Choice = Choice(sendOk: bool, build: Build, cancelSlot: Space, react: Reaction,
                           again: Deadline, hangup: Option<Ident>, hangupSlot: Space)

  // The table after a slot was run, when it wants to be run next, and
  // whether that went wrong
  datatype Ran = Ran(tm: Tm, next: Deadline, rc: Rc)

  predicate InviteDue(s: Slot, now: nat) {
    Due(InviteTimeout(s), now)
  }

  predicate TimerDue(s: Slot, now: nat) {
    Due(TimerDeadline(s), now)
  }

  // An application's INVITE out of time: from here on it is cleaned up alone
  function ExpireLive(tm: Tm, i: nat, now: nat, ch: Choice): (t: Tm)
    requires i < |tm.slots| && tm.slots[i].invite.Some?
    ensures |t.slots| == |tm.slots|
  {
    var s := tm.slots[i];
    var t := Abandon(tm, i, ch.cancelSlot);
    var u := Put(t, i, ArmCleanup(t.slots[i], now));
    Note(Tell(u, i, s.app.timeout, TimedOut, ch.react), Detached(s.gen))
  }

  // The whole chain below i: the ACK and the BYE waiting for it
  function TerminateChild(slots: seq<Slot>, i: nat): (r: seq<Slot>)
    requires i < |slots|
    ensures |r| == |slots|
  {
    match slots[i].child
    case None => slots
    case Some(c) =>
      if c >= |slots| then slots
      else
        var t := match slots[c].child
          case Some(b) => if b < |slots| then slots[b := RetireChild(slots[b])] else slots
          case None => slots;
        var u := t[c := RetireChild(t[c])];
        u[i := u[i].(child := None)]
  }

  // Timers D, F and K
  function FireTimer(tm: Tm, i: nat, ch: Choice): (t: Tm)
    requires i < |tm.slots|
    ensures |t.slots| == |tm.slots|
  {
    var s := tm.slots[i];
    var t := Put(tm, i, ClearTimer(MarkTerminated(s)));
    var u := t.(slots := TerminateChild(t.slots, i));
    var w := Tell(u, i, !s.finalReported && s.app.timeout, TimedOut, ch.react);
    if w.slots[i].state.Calling? then w else Put(w, i, ReleaseOutbound(w.slots[i]))
  }

  // An ACK went out: nothing to repeat, and the BYE behind it is free to go
  function AckSent(tm: Tm, i: nat, now: nat): (r: (Tm, Deadline))
    requires i < |tm.slots|
    ensures |r.0.slots| == |tm.slots|
  {
    var s := tm.slots[i].(nextSend := Never);
    if s.child.None? || s.child.value >= |tm.slots| then (Put(tm, i, s), Never)
    else
      var b := s.child.value;
      var t := Put(tm, b, tm.slots[b].(parent := None, nextSend := At(now)));
      (Put(t, i, s.(child := None)), At(now))
  }

  function SendNow(tm: Tm, i: nat, now: nat, ch: Choice): (r: Ran)
    requires i < |tm.slots|
    ensures |r.tm.slots| == |tm.slots|
  {
    var s := tm.slots[i];
    if !s.built && !ch.build.Built? then
      Ran(Put(tm, i, s.(matchable := s.matchable || ch.build.IdsOnly?)), Never, NoSpace)
    else
      var b := s.(built := true, matchable := s.matchable || !s.built);
      if !ch.sendOk then Ran(Put(tm, i, b), Never, SendFailed)
      else
        var t := Note(tm, Sent(b.gen, b.attempt, b.verb, b.ident, now));
        var n := NoteSend(b, now);
        if n.verb.ACK? then
          var (u, next) := AckSent(Put(t, i, n), i, now);
          Ran(u, Earliest(next, Wake(u.slots[i])), Ok)
        else
          var p := if IsInvite(n) then PostSendInvite(n, now) else PostSendOther(n, now);
          Ran(Put(t, i, p), Wake(p), Ok)
  }

  // usipy_sip_tm_uac_run
  function ClientRun(tm: Tm, i: nat, now: nat, ch: Choice): (r: Ran)
    requires i < |tm.slots|
    ensures |r.tm.slots| == |tm.slots|
  {
    var s := tm.slots[i];
    if s.state.Terminated? || s.flags.terminated then Ran(tm, Never, Ok)
    else
      var a := ArmCleanup(s, now);
      var t := Put(tm, i, a);
      if InviteDue(a, now) then
        if !a.flags.abandoned then Ran(ExpireLive(t, i, now, ch), At(now), Ok)
        else Ran(Put(tm, i, FinishAbandoned(a)), Never, Ok)
      else if TimerDue(a, now) then Ran(FireTimer(t, i, ch), Never, Ok)
      else if !Due(a.nextSend, now) then Ran(t, Wake(a), Ok)
      else SendNow(t, i, now, ch)
  }

  // --- New transactions

  // usipy_sip_tm_new_uac_tr (an INVITE or a request of its own) and
  // usipy_sip_tm_new_in_dialog_transaction (never an INVITE)
  function ClientSlot(reliable: bool, verb: Method, ident: Ident, policy: Policy, expires: nat,
                      onResponse: bool, onTimeout: bool, built: bool): Slot
  {
    EMPTY.(
      role := Client, verb := verb,
      app := App(true, onResponse, onTimeout),
      state := if verb.INVITE? then Calling else Trying,
      flags := NO_FLAGS.(reliable := reliable), ident := ident, matchable := true,
      policy := Resolve(policy), built := built, nextSend := At(0),
      invite := if verb.INVITE? then Some(NEW_INVITE) else None,
      expires := if expires != 0 then expires else 300)
  }
}
