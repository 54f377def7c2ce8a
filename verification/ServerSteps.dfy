// The server transactions (usipy_sip_tm_uas.c), as functions on the table.
module ServerSteps {
  import opened Base
  import opened Slots
  import opened Table
  import opened ClientSteps

  // A request received; a tag of 0 is one that is missing
  datatype Req = Req(callId: nat, fromTag: nat, toTag: nat, branch: nat, cseq: nat, verb: Method)

  predicate LiveServer(s: Slot) {
    s.active && s.role.Server?
  }

  // usipy_sip_tm_tid_matches_tx
  predicate SameRequest(s: Slot, q: Req) {
    LiveServer(s) && s.matchable && s.ident.callId == q.callId && s.ident.fromTag == q.fromTag
    && s.ident.branch == q.branch && s.ident.cseq == q.cseq && s.verb == q.verb
  }

  // The ACK of a 2xx is matched by its dialog, any other one hop by hop
  predicate AckMatches(s: Slot, q: Req) {
    q.verb.ACK? && LiveServer(s) && IsInvite(s) && (s.state.Completed? || s.state.Accepted?)
    && s.server.ackable && s.ident.callId == q.callId && s.ident.fromTag == q.fromTag
    && (if 200 <= s.server.status < 300 then q.toTag != 0 && s.server.localTag == q.toTag
        else s.ident.branch == q.branch)
    && s.ident.cseq == q.cseq
  }

  predicate CancelMatches(s: Slot, q: Req) {
    q.verb.CANCEL? && LiveServer(s) && IsInvite(s) && s.server.onCancel
    && !s.state.Completed? && !s.state.Accepted? && !s.state.Confirmed? && !s.state.Terminated?
    && s.ident.callId == q.callId && s.ident.fromTag == q.fromTag
    && s.ident.branch == q.branch && s.ident.cseq == q.cseq
  }

  function FirstFrom(slots: seq<Slot>, p: Slot -> bool, i: nat): (f: Option<nat>)
    requires i <= |slots|
    ensures f.Some? ==> i <= f.value < |slots| && p(slots[f.value])
    ensures forall j :: i <= j < (if f.Some? then f.value else |slots|) ==> !p(slots[j])
    decreases |slots| - i
  {
    if i == |slots| then None else if p(slots[i]) then Some(i) else FirstFrom(slots, p, i + 1)
  }

  function ServerSlot(reliable: bool, verb: Method, ident: Ident, policy: Policy, localTag: nat,
                      onCancel: bool, noAck: bool): Slot
  {
    EMPTY.(
      app := NO_APP.(owned := true), role := Server, verb := verb, state := Trying,
      flags := NO_FLAGS.(reliable := reliable),
      ident := ident, matchable := true, policy := Resolve(policy),
      server := NO_SERVER.(localTag := localTag, onCancel := onCancel, noAck := noAck))
  }

  // usipy_sip_tm_new_uas_tr
  function NewServer(tm: Tm, s: Slot, q: Req, space: Space): (r: (Tm, Option<nat>, Rc))
    ensures |r.0.slots| == |tm.slots|
  {
    if s.verb.ACK? || Generic(s.verb) then (tm, None, Unsupported)
    else if FirstFrom(tm.slots, x => SameRequest(x, q), 0).Some? then (tm, None, Unsupported)
    else
      var (t, i) := NewSlot(tm, s, space);
      (t, i, if i.Some? then Ok else NoSpace)
  }

  // usipy_sip_tm_send_uas_response
  function SendResponse(tm: Tm, i: nat, code: nat, noAck: bool, fits: bool): (r: (Tm, Rc))
    requires i < |tm.slots|
    ensures |r.0.slots| == |tm.slots|
  {
    var s := tm.slots[i];
    if !s.active then (tm, NotFound)
    else if s.state.Terminated? || s.server.status >= 200 then (tm, Unsupported)
    else if !fits then (tm, NoSpace)
    else (Put(tm, i, Responded(s, code, noAck)), Ok)
  }

  // The owner of an accepted INVITE: who may move its next send
  predicate OwnedBy(tm: Tm, i: nat, owner: nat) {
    i < |tm.slots| && LiveServer(tm.slots[i]) && tm.slots[i].server.owner == Some(owner)
  }

  function WithOwner(s: Slot, owner: Option<nat>): Slot {
    s.(server := s.server.(owner := owner))
  }

  function SetOwner(tm: Tm, i: nat, owner: nat): (r: (Tm, Rc))
    ensures |r.0.slots| == |tm.slots|
  {
    if i < |tm.slots| && LiveServer(tm.slots[i])
    then (Put(tm, i, WithOwner(tm.slots[i], Some(owner))), Ok) else (tm, NotFound)
  }

  function ClearOwner(tm: Tm, i: nat, owner: nat): (r: (Tm, Rc))
    ensures |r.0.slots| == |tm.slots|
  {
    if OwnedBy(tm, i, owner)
    then (Put(tm, i, WithOwner(tm.slots[i], None)), Ok) else (tm, NotFound)
  }

  function SendAt(tm: Tm, i: nat, owner: nat, at: Deadline): (r: (Tm, Rc))
    ensures |r.0.slots| == |tm.slots|
  {
    if OwnedBy(tm, i, owner)
    then (Put(tm, i, tm.slots[i].(nextSend := at)), Ok) else (tm, NotFound)
  }

  // What an ACK does to its INVITE; the owner of a 2xx stops resending it
  function AckSlot(s: Slot, now: nat): Slot {
    if 200 <= s.server.status < 300
    then s.(flags := s.flags.(acked := true),
            nextSend := if s.server.owner.Some? then Never else s.nextSend)
    else ServerConfirmed(s, now)
  }

  // A request sent again is answered again
  function Again(s: Slot, now: nat): Slot {
    if !s.state.Confirmed? && !s.state.Accepted? && s.built then s.(nextSend := At(now)) else s
  }

  datatype Meaning = AckHeard(i: nat) | CancelHeard(i: nat) | Repeated(i: nat) | Unseen

  function Classify(tm: Tm, q: Req): (h: Meaning)
    ensures !h.Unseen? ==> h.i < |tm.slots| && LiveServer(tm.slots[h.i])
    ensures h.AckHeard? ==> AckMatches(tm.slots[h.i], q)
    ensures h.CancelHeard? ==> CancelMatches(tm.slots[h.i], q)
    ensures h.Repeated? ==> SameRequest(tm.slots[h.i], q)
  {
    var a := FirstFrom(tm.slots, s => AckMatches(s, q), 0);
    var c := FirstFrom(tm.slots, s => CancelMatches(s, q), 0);
    var t := FirstFrom(tm.slots, s => SameRequest(s, q), 0);
    if a.Some? then AckHeard(a.value)
    else if c.Some? then CancelHeard(c.value)
    else if t.Some? then Repeated(t.value)
    else Unseen
  }

  // handle_incoming_request, up to the callback a CANCEL or a new request
  // leads to: those act through the other operations
  function Request(tm: Tm, q: Req, now: nat): (r: Tm)
    ensures |r.slots| == |tm.slots|
  {
    match Classify(tm, q)
    case AckHeard(i) => Put(Note(tm, Acked(tm.slots[i].gen)), i, AckSlot(tm.slots[i], now))
    case CancelHeard(_) => tm
    case Repeated(i) => Put(tm, i, Again(tm.slots[i], now))
    case Unseen => tm
  }

  // usipy_sip_tm_uas_run
  function ServerWake(s: Slot): Deadline {
    Earliest(s.nextSend, TimerDeadline(s))
  }

  function ServerRun(tm: Tm, i: nat, now: nat, ch: Choice): (r: Ran)
    requires i < |tm.slots|
    ensures |r.tm.slots| == |tm.slots|
  {
    var s := tm.slots[i];
    if TimerDue(s, now) then
      var t := Put(tm, i, ServerTerminated(s));
      if s.timer.TimerL? && s.server.owner.Some? && ch.hangup.Some? then
        Ran(NewSlot(t, ClientSlot(tm.reliable, BYE, ch.hangup.value, s.policy, 0, false, false, false),
                    ch.hangupSlot).0, Never, Ok)
      else Ran(t, Never, Ok)
    else if s.state.Terminated? || !Due(s.nextSend, now) then Ran(tm, ServerWake(s), Ok)
    else
      var a := ArmTimerL(s, now);
      if !ch.sendOk then Ran(Put(tm, i, a), Never, SendFailed)
      else
        var t := Note(tm, Replied(a.gen, a.server.status, now));
        var p := ServerSent(a, now, ch.again);
        Ran(Put(t, i, p), ServerWake(p), Ok)
  }
}
