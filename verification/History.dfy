// What a run may look like: every event is justified by the ones before it.
// The rest of the module ties the slots to the history, so that each
// operation can be shown to add justified events only.
module History {
  import opened Slots
  import opened Table
  import opened Links

  predicate IsSent(e: Event, gen: nat) {
    e.Sent? && e.gen == gen
  }

  predicate SentBy(log: seq<Event>, gen: nat) {
    exists k :: 0 <= k < |log| && IsSent(log[k], gen)
  }

  predicate IsRequest(e: Event, gen: nat, attempt: nat, verb: Method, ident: Ident) {
    e.Sent? && e.gen == gen && e.attempt == attempt && e.verb == verb && e.ident == ident
  }

  predicate WasSent(log: seq<Event>, gen: nat, attempt: nat, verb: Method, ident: Ident) {
    exists k :: 0 <= k < |log| && IsRequest(log[k], gen, attempt, verb, ident)
  }

  predicate IsHeard(e: Event, gen: nat, attempt: nat, sclass: nat) {
    e.Heard? && e.gen == gen && e.attempt == attempt && e.sclass == sclass
  }

  predicate WasHeard(log: seq<Event>, gen: nat, attempt: nat, sclass: nat) {
    exists k :: 0 <= k < |log| && IsHeard(log[k], gen, attempt, sclass)
  }

  // What an ACK built for an INVITE carries: the Contact of a 2xx and a branch
  // of its own, or for any other response what the INVITE does
  predicate IsAckBuilt(e: Event, ackGen: nat, ident: Ident) {
    e.AckBuilt? && e.ackGen == ackGen
    && ident == if e.sclass == 2 then CopyOf(e.ident).(uri := e.contact, branch := e.branch)
                else CopyOf(e.ident)
  }

  predicate AckOnRecord(log: seq<Event>, ackGen: nat, ident: Ident) {
    exists k :: 0 <= k < |log| && IsAckBuilt(log[k], ackGen, ident)
  }

  // The same request n attempts later
  function CseqAfter(cseq: nat, n: nat): nat {
    if n == 0 then cseq else (cseq + n) % 0x1_0000_0000
  }

  predicate Succeeds(c: Ident, d: Ident, n: nat) {
    && d.callId == c.callId && d.fromTag == c.fromTag && d.cseq == CseqAfter(c.cseq, n)
    && (n == 0 ==> d == c)
  }

  predicate IsCancel(e: Event, cancelGen: nat, ident: Ident) {
    e.CancelMade? && e.cancelGen == cancelGen && CopyOf(e.ident) == ident
  }

  predicate CancelOnRecord(log: seq<Event>, cancelGen: nat, ident: Ident) {
    exists k :: 0 <= k < |log| && IsCancel(log[k], cancelGen, ident)
  }

  // What a BYE made for an INVITE carries: the next CSeq, a branch of its own,
  // and the Contact of the 2xx
  function ByeIdent(e: Event): Ident
    requires e.ByeMade?
  {
    e.ident.(branch := e.branch, cseq := (e.ident.cseq + 1) % 0x1_0000_0000, uri := e.contact)
  }

  predicate IsBye(e: Event, gen: nat, ackGen: nat) {
    e.ByeMade? && e.gen == gen && e.ackGen == ackGen
  }

  predicate ByeOnRecord(log: seq<Event>, gen: nat, ackGen: nat) {
    exists k :: 0 <= k < |log| && IsBye(log[k], gen, ackGen)
  }

  // An earlier event d does not rule out a later event e
  predicate Compatible(d: Event, e: Event) {
    match e
    case Told(g, a, _) =>
      // nothing but progress comes before anything else told about one
      // attempt, and nothing at all is told once the callbacks are gone
      !(d.Told? && d.gen == g && d.attempt == a && !d.what.Progress?)
      && d != Detached(g)
    case CancelMade(g, a, _, _) =>
      // one CANCEL an INVITE, and none after its final response was reported
      !(d.CancelMade? && d.gen == g) && d != Told(g, a, Final)
    case ByeMade(g, _, _, b, _, _, _) =>
      // one BYE an INVITE, not sent yet
      !(d.ByeMade? && d.gen == g) && !(d.Sent? && d.gen == b)
    case Sent(g, a, verb, id, _) =>
      // a transaction sends one request, with the next CSeq in each attempt
      (d.Sent? && d.gen == g ==>
         d.verb == verb && d.attempt <= a && Succeeds(d.ident, id, a - d.attempt))
      // ... and the BYE made for an INVITE is sent as it was made
      && (d.ByeMade? && d.byeGen == g ==> verb.BYE? && id == ByeIdent(d))
    case _ => true
  }

  // ... and what an event needs to have happened before it
  predicate Grounded(past: seq<Event>, e: Event) {
    match e
    case CancelMade(g, a, _, id) =>
      // the very INVITE it cancels was sent, under an identity that can be
      // copied, and a provisional response heard
      WasSent(past, g, a, INVITE, id) && Copies(id) && WasHeard(past, g, a, 1)
    case Sent(g, _, verb, id, _) =>
      // a CANCEL on the wire is one made for an INVITE, under its identity;
      // a BYE queued behind an ACK follows that ACK
      (verb.CANCEL? ==> CancelOnRecord(past, g, id))
      // an ACK one built for an INVITE
      && (verb.ACK? ==> AckOnRecord(past, g, id))
      && forall k :: 0 <= k < |past| && past[k].ByeMade? && past[k].byeGen == g ==>
           SentBy(past, past[k].ackGen)
    case AckBuilt(g, a, _, c, id, contact, _) =>
      // it was sent, and the response this is for heard
      WasSent(past, g, a, INVITE, id) && Copies(id) && Heard(g, a, c, contact) in past
    case ByeMade(g, a, _, _, id, contact, _) =>
      // it was sent, and a 2xx from there heard
      WasSent(past, g, a, INVITE, id) && Heard(g, a, 2, contact) in past
    case AckArmed(g, ag, sclass, abandoned) =>
      // the 2xx of an abandoned INVITE is ACKed only with a BYE to follow
      sclass == 2 && abandoned ==> ByeOnRecord(past, g, ag)
    case _ => true
  }

  predicate Justified(past: seq<Event>, e: Event) {
    Grounded(past, e) && forall k :: 0 <= k < |past| ==> Compatible(past[k], e)
  }

  predicate Story(log: seq<Event>) {
    forall k {:trigger Justified(log[..k], log[k])} ::
      0 <= k < |log| ==> Justified(log[..k], log[k])
  }

  // --- The history of one slot

  predicate EventFits(s: Slot, e: Event) {
    match e
    case Told(g, a, what) =>
      g == s.gen ==>
        a <= s.attempt
        && (a == s.attempt && what.Final? ==> s.finalReported)
        && (a == s.attempt && what.TimedOut? ==> s.state.Terminated? || s.flags.abandoned)
    case Detached(g) => g == s.gen ==> s.flags.abandoned
    case CancelMade(g, _, _, _) =>
      g == s.gen ==> s.flags.abandoned && s.invite.Some? && s.invite.value.cancel.OnWire?
    case ByeMade(g, _, _, b, _, _, _) =>
      (g == s.gen ==> s.flags.abandoned && s.invite.Some? && s.invite.value.byeStarted)
      && (b == s.gen ==> s.verb.BYE? && !s.app.owned && (s.role.Client? ==> s.ident == ByeIdent(e)))
    case Sent(g, a, verb, id, _) =>
      g == s.gen && s.role.Client? ==>
        && (s.verb.BYE? ==> s.parent.None?)
        && verb == s.verb && a <= s.attempt && Succeeds(id, s.ident, s.attempt - a)
        && (s.verb.ACK? ==> s.built || s.state.Terminated?)
    case _ => true
  }

  // A BYE behind an ACK stays put until the ACK was sent, if it ever goes
  predicate ByeHeld(s: Slot, e: Event, log: seq<Event>) {
    e.ByeMade? && e.byeGen == s.gen ==>
      s.parent.Some? || s.state.Terminated? || SentBy(log, e.ackGen)
  }

  predicate IsFinalReply(e: Event, gen: nat) {
    e.Replied? && e.gen == gen && e.status >= 200
  }

  predicate FinallyReplied(log: seq<Event>, gen: nat) {
    exists k :: 0 <= k < |log| && IsFinalReply(log[k], gen)
  }

  // Timer J runs once the final response to a request other than INVITE went
  // out; an INVITE is confirmed by its ACK only, and stays accepted otherwise
  predicate ServerEvidence(s: Slot, log: seq<Event>) {
    && (s.timer.TimerJ? ==> FinallyReplied(log, s.gen) && !IsInvite(s))
    && (IsInvite(s) && 200 <= s.server.status < 300 ==> s.state.Accepted? || s.state.Terminated?)
    && (s.state.Confirmed? || s.flags.acked ==> Acked(s.gen) in log)
  }

  predicate Evidence(s: Slot, log: seq<Event>) {
    (s.role.Server? ==> ServerEvidence(s, log))
    && (s.role.Client? ==>
      && (IsInvite(s) && s.sends > 0 ==> WasSent(log, s.gen, s.attempt, INVITE, s.ident))
      && (s.invite.Some? && s.invite.value.provisional ==> WasHeard(log, s.gen, s.attempt, 1))
      && (s.verb.CANCEL? && s.nextSend.At? ==> CancelOnRecord(log, s.gen, s.ident))
      && (s.verb.ACK? && (s.built || s.nextSend.At?) ==> AckOnRecord(log, s.gen, s.ident)))
  }

  predicate SlotLogged(s: Slot, log: seq<Event>) {
    s.active ==>
      && Evidence(s, log)
      && (forall k {:trigger EventFits(s, log[k])} :: 0 <= k < |log| ==> EventFits(s, log[k]))
      && (forall k {:trigger ByeHeld(s, log[k], log)} :: 0 <= k < |log| ==> ByeHeld(s, log[k], log))
  }

  predicate KnownGens(e: Event, gens: nat) {
    e.gen < gens && (e.ByeMade? ==> e.byeGen < gens && e.ackGen < gens)
    && (e.CancelMade? ==> e.cancelGen < gens)
  }

  // The BYE behind ACK a is the one on record for it
  predicate AckLogged(slots: seq<Slot>, a: nat, e: Event)
    requires a < |slots|
  {
    slots[a].active && slots[a].child.Some? && slots[a].child.value < |slots| && e.ByeMade?
    && !IsInvite(slots[a]) && slots[slots[a].child.value].gen == e.byeGen ==>
      e.ackGen == slots[a].gen
  }

  predicate ByeLogged(slots: seq<Slot>, i: nat, log: seq<Event>)
    requires i < |slots|
  {
    slots[i].active && slots[i].invite.Some? && slots[i].invite.value.byeStarted
    && slots[i].child.Some? && slots[i].child.value < |slots| ==>
      ByeOnRecord(log, slots[i].gen, slots[slots[i].child.value].gen)
  }

  predicate SlotsLogged(slots: seq<Slot>, log: seq<Event>) {
    && (forall i {:trigger SlotLogged(slots[i], log)} ::
          0 <= i < |slots| ==> SlotLogged(slots[i], log))
    && (forall i, k {:trigger AckLogged(slots, i, log[k])} ::
          0 <= i < |slots| && 0 <= k < |log| ==> AckLogged(slots, i, log[k]))
    && (forall i {:trigger ByeLogged(slots, i, log)} ::
          0 <= i < |slots| ==> ByeLogged(slots, i, log))
  }

  predicate Honest(tm: Tm) {
    && Story(tm.log)
    && (forall k {:trigger KnownGens(tm.log[k], tm.gens)} ::
          0 <= k < |tm.log| ==> KnownGens(tm.log[k], tm.gens))
    && SlotsLogged(tm.slots, tm.log)
  }

  predicate Inv(tm: Tm) {
    Good(tm) && Honest(tm)
  }
}
