module Requests {
  // Which transaction a request is about: an ACK, a CANCEL, or one that came
  // before; and what it does there.

  import opened Base
  import opened Slots
  import opened Table
  import opened ServerSteps
  import opened History
  import opened HistoryKeeps

  // --- What a request is for

  predicate Serves(s: Slot) {
    s.active && s.role == Server
  }

  // The same call and CSeq number
  predicate SameCall(s: Slot, q: Req) {
    q.callId == s.ident.callId && q.fromTag == s.ident.fromTag && q.cseq == s.ident.cseq
  }

  // An INVITE that had its final response and waits for the ACK
  predicate WaitsForAck(s: Slot) {
    Serves(s) && s.verb.INVITE? && s.server.ackable && (s.state.Completed? || s.state.Accepted?)
  }

  predicate Answered2xx(s: Slot) {
    200 <= s.server.status <= 299
  }

  // Section 13.2.2.4 of RFC 3261: the ACK of a 2xx is a request of its own in
  // the dialog, whatever its branch; section 17.1.1.3: any other ACK has the
  // branch of the INVITE, whatever its tag
  predicate AckFor(s: Slot, q: Req) {
    && WaitsForAck(s) && SameCall(s, q)
    && (Answered2xx(s) ==> q.toTag == s.server.localTag && q.toTag != 0)
    && (!Answered2xx(s) ==> q.branch == s.ident.branch)
  }

  // Section 9.2: an INVITE not answered yet, on the same branch
  predicate CancelFor(s: Slot, q: Req) {
    && Serves(s) && s.verb.INVITE? && s.server.onCancel
    && s.state !in {Completed, Accepted, Confirmed, Terminated}
    && SameCall(s, q) && q.branch == s.ident.branch
  }

  // Section 17.2.3: the same method on the same branch
  predicate CopyFor(s: Slot, q: Req) {
    Serves(s) && s.matchable && SameCall(s, q) && q.branch == s.ident.branch && q.verb == s.verb
  }

  predicate First(slots: seq<Slot>, p: Slot -> bool, i: nat) {
    i < |slots| && p(slots[i]) && forall j :: 0 <= j < i ==> !p(slots[j])
  }

  lemma FirstFound(slots: seq<Slot>, p: Slot -> bool, q: Slot -> bool)
    requires forall s :: p(s) == q(s)
    ensures var f := FirstFrom(slots, p, 0);
      && (f.Some? <==> exists i :: 0 <= i < |slots| && q(slots[i]))
      && (f.Some? ==> First(slots, q, f.value))
      && forall i: nat :: First(slots, q, i) ==> f == Some(i)
  {
    var f := FirstFrom(slots, p, 0);
    if f.Some? {
      assert q(slots[f.value]);
    }
    forall i: nat | First(slots, q, i) ensures f == Some(i) {
      assert q(slots[i]);
    }
  }

  // --- ACK

  lemma AckFound(tm: Tm, q: Req)
    requires q.verb.ACK?
    ensures var f := FirstFrom(tm.slots, s => AckMatches(s, q), 0);
      && (f.Some? <==> exists i :: 0 <= i < |tm.slots| && AckFor(tm.slots[i], q))
      && forall i: nat :: First(tm.slots, s => AckFor(s, q), i) ==> f == Some(i)
  {
    FirstFound(tm.slots, s => AckMatches(s, q), s => AckFor(s, q));
  }

  // What an ACK makes of its INVITE: a 2xx acknowledged, and not sent again by
  // its owner; any other response confirmed, for T4 or at once
  predicate Acknowledged(s: Slot, t: Slot, now: nat) {
    if Answered2xx(s)
    then t == s.(flags := s.flags.(acked := true),
                 nextSend := if s.server.owner.Some? then Never else s.nextSend)
    else if s.flags.reliable
    then t == s.(state := Terminated, flags := s.flags.(terminated := true), timer := NoTimer,
                 nextSend := Never)
    else t == s.(state := Confirmed, timer := TimerI, due := At(now + s.policy.t4), nextSend := Never)
  }

  // An ACK acknowledges the first INVITE it is for, which is on record, and
  // changes nothing else.
  lemma AckAcknowledges(tm: Tm, q: Req, now: nat, i: nat)
    requires q.verb.ACK? && First(tm.slots, s => AckFor(s, q), i)
    ensures var t := Request(tm, q, now);
      && t.log == tm.log + [Acked(tm.slots[i].gen)]
      && Acknowledged(tm.slots[i], t.slots[i], now)
      && forall j :: 0 <= j < |tm.slots| && j != i ==> t.slots[j] == tm.slots[j]
  {
    AckFound(tm, q);
  }

  // An ACK that is for none does nothing at all.
  lemma StrayAck(tm: Tm, q: Req, now: nat)
    requires Inv(tm) && q.verb.ACK?
    requires forall i :: 0 <= i < |tm.slots| ==> !AckFor(tm.slots[i], q)
    ensures Request(tm, q, now) == tm
  {
    hide Inv;
    AckFound(tm, q);
    forall i | 0 <= i < |tm.slots| ensures !SameRequest(tm.slots[i], q) {
      OfSlot(tm, i);
    }
  }

  // So an INVITE answered 2xx becomes acknowledged exactly by an ACK with its
  // call-id, tags and CSeq number, on any branch, that is for none before it.
  lemma AckOf2xx(tm: Tm, q: Req, now: nat, i: nat)
    requires Inv(tm) && q.verb.ACK? && i < |tm.slots|
    requires var s := tm.slots[i]; WaitsForAck(s) && Answered2xx(s) && !s.flags.acked
    ensures var s := tm.slots[i];
      Request(tm, q, now).slots[i].flags.acked <==>
        && q.callId == s.ident.callId && q.fromTag == s.ident.fromTag && q.cseq == s.ident.cseq
        && q.toTag == s.server.localTag && q.toTag != 0
        && forall j :: 0 <= j < i ==> !AckFor(tm.slots[j], q)
  {
    hide Inv, Request;
    WhoseAck(tm, q, now, i);
  }

  // ... and one refused is confirmed exactly by one with its call-id, from tag,
  // branch and CSeq number, whatever its to tag.
  lemma AckOfRefusal(tm: Tm, q: Req, now: nat, i: nat)
    requires Inv(tm) && q.verb.ACK? && i < |tm.slots|
    requires WaitsForAck(tm.slots[i]) && !Answered2xx(tm.slots[i])
    ensures var s, t := tm.slots[i], Request(tm, q, now).slots[i];
      (t.state.Confirmed? || t.state.Terminated?) <==>
        && q.callId == s.ident.callId && q.fromTag == s.ident.fromTag && q.cseq == s.ident.cseq
        && q.branch == s.ident.branch
        && forall j :: 0 <= j < i ==> !AckFor(tm.slots[j], q)
  {
    hide Inv, Request;
    WhoseAck(tm, q, now, i);
  }

  // Either the ACK is for slot i first of all, or it leaves it alone
  lemma WhoseAck(tm: Tm, q: Req, now: nat, i: nat)
    requires Inv(tm) && q.verb.ACK? && i < |tm.slots|
    ensures var t := Request(tm, q, now);
      if AckFor(tm.slots[i], q) && forall j :: 0 <= j < i ==> !AckFor(tm.slots[j], q)
      then Acknowledged(tm.slots[i], t.slots[i], now)
      else t.slots[i] == tm.slots[i]
  {
    hide Inv, Request, Acknowledged, AckMatches;
    var p := s => AckFor(s, q);
    AckFound(tm, q);
    var f := FirstFrom(tm.slots, s => AckMatches(s, q), 0);
    if f.Some? {
      FirstFound(tm.slots, s => AckMatches(s, q), p) by { SameAcks(q); }
      AckAcknowledges(tm, q, now, f.value);
      if i != f.value && AckFor(tm.slots[i], q) {
        assert p(tm.slots[f.value]);
      }
    } else {
      StrayAck(tm, q, now);
    }
  }

  lemma SameAcks(q: Req)
    requires q.verb.ACK?
    ensures forall s :: AckMatches(s, q) == AckFor(s, q)
  {
  }

  // --- CANCEL, and requests that came before

  // A CANCEL is reported for the first INVITE it is for, and leaves the table
  // to what the application does about it.
  lemma CancelMeans(tm: Tm, q: Req, now: nat, i: nat)
    requires q.verb.CANCEL? && First(tm.slots, s => CancelFor(s, q), i)
    ensures Classify(tm, q) == CancelHeard(i) && Request(tm, q, now) == tm
  {
    FirstFound(tm.slots, s => CancelMatches(s, q), s => CancelFor(s, q));
    FirstFound(tm.slots, s => AckMatches(s, q), s => false);
  }

  // A request that came before is answered again, if its answer is built and
  // it was not taken over by an ACK or an owner; and that is all.
  lemma CopyMeans(tm: Tm, q: Req, now: nat, i: nat)
    requires !q.verb.ACK? && First(tm.slots, s => CopyFor(s, q), i)
    requires q.verb.CANCEL? ==> forall j :: 0 <= j < |tm.slots| ==> !CancelFor(tm.slots[j], q)
    ensures Classify(tm, q) == Repeated(i)
    ensures var s, t := tm.slots[i], Request(tm, q, now);
      && t.log == tm.log
      && t.slots[i] == (if s.built && s.state !in {Confirmed, Accepted} then s.(nextSend := At(now)) else s)
      && forall j :: 0 <= j < |tm.slots| && j != i ==> t.slots[j] == tm.slots[j]
  {
    FirstFound(tm.slots, s => SameRequest(s, q), s => CopyFor(s, q));
    FirstFound(tm.slots, s => AckMatches(s, q), s => false);
    if q.verb.CANCEL? {
      FirstFound(tm.slots, s => CancelMatches(s, q), s => CancelFor(s, q));
    } else {
      FirstFound(tm.slots, s => CancelMatches(s, q), s => false);
    }
  }

  // A request that is none of these is new, and left to the application.
  lemma NewMeans(tm: Tm, q: Req, now: nat)
    requires !q.verb.ACK?
    requires forall j :: 0 <= j < |tm.slots| ==>
               !CopyFor(tm.slots[j], q) && !(q.verb.CANCEL? && CancelFor(tm.slots[j], q))
    ensures Classify(tm, q) == Unseen && Request(tm, q, now) == tm
  {
    FirstFound(tm.slots, s => SameRequest(s, q), s => CopyFor(s, q));
    FirstFound(tm.slots, s => AckMatches(s, q), s => false);
    if q.verb.CANCEL? {
      FirstFound(tm.slots, s => CancelMatches(s, q), s => CancelFor(s, q));
    } else {
      FirstFound(tm.slots, s => CancelMatches(s, q), s => false);
    }
  }
}
