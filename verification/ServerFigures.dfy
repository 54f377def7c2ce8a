module ServerFigures {
  // Sections 17.2.1 and 17.2.2 of RFC 3261: what becomes of a response the
  // application answers with, from that call to what is then on the wire and
  // what the transaction waits for.

  import opened Base
  import opened Slots
  import opened Table
  import opened ClientSteps
  import opened ServerSteps
  import opened Machine
  import opened Requests
  import opened ClientFigures

  // 64*T1 as the server side computes it, in 32 bits
  function SixtyFour(p: Policy): nat {
    (64 * p.t1) % 0x1_0000_0000
  }

  // What a transaction waits for once its answer went out
  predicate WaitsAfter(s: Slot, t: Slot, code: nat, now: nat, again: Deadline) {
    && t.server.status == code && t.sends == (s.sends + 1) % 256 && t.ident == s.ident
    && if code < 200 then t.state == Proceeding && t.timer == NoTimer && t.nextSend == Never
       else if s.verb == INVITE && code < 300 then
         // the ACK, for Timer L; its owner has it sent again
         && t.state == Accepted && t.server.ackable
         && t.timer == TimerL && t.due == At(now + OrElse(s.policy.l, SixtyFour(s.policy)))
         && t.nextSend == (if s.server.owner.Some? then again else Never)
       else if s.verb == INVITE then
         // the ACK, for Timer H, and Timer G for the next copy
         && t.state == Completed && t.server.ackable
         && t.timer == TimerH && t.due == At(now + SixtyFour(s.policy))
         && (t.nextSend.Never? <==> s.flags.reliable)
       else if s.flags.reliable then t.state == Terminated && t.flags.terminated
       else
         // copies of the request, for Timer J
         && t.state == Completed && t.timer == TimerJ && t.nextSend == Never
         && t.due == At(now + OrElse(s.policy.j, SixtyFour(s.policy)))
  }

  lemma EarlySends(s: Slot, code: nat, noAck: bool, now: nat, again: Deadline)
    requires s.server.status < 200 && s.state != Terminated && 100 <= code < 200
    ensures var a := ArmTimerL(Responded(s, code, noAck), now);
      && WaitsAfter(s, ServerSent(a, now, again), code, now, again)
      && a.gen == s.gen && a.server.status == code
  {
    hide RefusalSent, FinalSent;
  }

  lemma AcceptSends(s: Slot, code: nat, noAck: bool, now: nat, again: Deadline)
    requires s.server.status < 200 && s.state != Terminated && s.verb == INVITE && 200 <= code < 300
    ensures var a := ArmTimerL(Responded(s, code, noAck), now);
      && WaitsAfter(s, ServerSent(a, now, again), code, now, again)
      && a.gen == s.gen && a.server.status == code
  {
    hide RefusalSent, FinalSent;
  }

  lemma RefuseSends(s: Slot, code: nat, noAck: bool, now: nat, again: Deadline)
    requires s.server.status < 200 && s.state != Terminated && s.verb == INVITE && code >= 300
    ensures var a := ArmTimerL(Responded(s, code, noAck), now);
      && WaitsAfter(s, ServerSent(a, now, again), code, now, again)
      && a.gen == s.gen && a.server.status == code
  {
    hide FinalSent, ServerInviteDelay;
  }

  lemma FinalSends(s: Slot, code: nat, noAck: bool, now: nat, again: Deadline)
    requires s.server.status < 200 && s.state != Terminated && s.verb != INVITE && code >= 200
    ensures var a := ArmTimerL(Responded(s, code, noAck), now);
      && WaitsAfter(s, ServerSent(a, now, again), code, now, again)
      && a.gen == s.gen && a.server.status == code
  {
    hide RefusalSent, AnswerTimerMs, NoteSend, Responded;
    OtherResponded(s, code, noAck);
    NoteSendFacts(Responded(s, code, noAck), now);
  }

  lemma OtherResponded(s: Slot, code: nat, noAck: bool)
    requires s.verb != INVITE && code >= 200
    ensures var t := Responded(s, code, noAck);
      && t.state == Completed && t.timer == NoTimer && t.server.status == code && t.gen == s.gen
      && t.verb == s.verb && t.policy == s.policy && t.flags == s.flags && t.sends == s.sends
      && t.ident == s.ident
  {
  }

  lemma RespondedDue(s: Slot, code: nat, noAck: bool, now: nat)
    requires code >= 100
    ensures var t := Responded(s, code, noAck);
      && t.active == s.active && t.role == s.role && t.gen == s.gen && t.state != Terminated
      && t.nextSend == At(0) && (t.timer == NoTimer || t.due == Never)
  {
  }

  // A transaction takes any number of provisional responses and one final one.
  // Each goes out in the next turn, and it waits for what its method, the code
  // and the transport call for.
  lemma AnswerGoesOut(tm: Tm, i: nat, code: nat, noAck: bool, now: nat, ch: Choice)
    requires i < |tm.slots| && LiveServer(tm.slots[i]) && code >= 100 && ch.sendOk
    ensures var s, q := tm.slots[i], SendResponse(tm, i, code, noAck, true);
      && (q.1 == Ok <==> s.state != Terminated && s.server.status < 200)
      && (q.1 != Ok ==> q.0 == tm)
      && (q.1 == Ok ==>
            var r := RunSlot(q.0, i, now, ch);
            && r.rc == Ok && OnlySlot(tm, r.tm, i)
            && r.tm.log == tm.log + [Replied(s.gen, code, now)]
            && WaitsAfter(s, r.tm.slots[i], code, now, ch.again))
  {
    hide Responded, ServerSent, ArmTimerL, WaitsAfter, ServerTerminated, ServerWake;
    var s := tm.slots[i];
    if s.state != Terminated && s.server.status < 200 {
      if code < 200 {
        EarlySends(s, code, noAck, now, ch.again);
      } else if s.verb != INVITE {
        FinalSends(s, code, noAck, now, ch.again);
      } else if code < 300 {
        AcceptSends(s, code, noAck, now, ch.again);
      } else {
        RefuseSends(s, code, noAck, now, ch.again);
      }
      RespondedDue(s, code, noAck, now);
    }
  }

  // The end of its wait ends a transaction other than INVITE, and nothing else
  // comes of it.
  lemma WaitEnds(tm: Tm, i: nat, now: nat, ch: Choice)
    requires i < |tm.slots| && LiveServer(tm.slots[i]) && tm.slots[i].timer !in {NoTimer, TimerL}
    requires tm.slots[i].due.At? && tm.slots[i].due.ms <= now
    ensures var r := RunSlot(tm, i, now, ch);
      && r.rc == Ok && r.tm.log == tm.log && OnlySlot(tm, r.tm, i)
      && r.tm.slots[i].state == Terminated && r.tm.slots[i].nextSend == Never
  {
    hide ServerSent, ArmTimerL;
  }

  // A request gets a transaction of its own unless it is an ACK, has no name,
  // or is a copy of one that has it already; or for want of room.
  lemma RequestAccepted(tm: Tm, s: Slot, q: Req)
    requires s.verb == q.verb
    ensures var n := NewServer(tm, s, q, Fits);
      && (n.2 == Unsupported <==>
            q.verb in {ACK, OTHER(0)} || exists i :: 0 <= i < |tm.slots| && CopyFor(tm.slots[i], q))
      && (n.2 == NoSpace <==> n.2 != Unsupported && AllocIndex(tm.slots).None?)
      && (n.2 != Ok ==> n.0 == tm && n.1.None?)
      && (n.2 == Ok ==> n.1.Some? && n.0.slots[n.1.value] == Awake(s, tm.gens))
  {
    hide AllocIndex, DropFamily, FamilySize;
    FirstFound(tm.slots, x => SameRequest(x, q), x => CopyFor(x, q));
  }

  // Only the owner of a transaction moves its next send, or lets go of it.
  lemma OwnersOnly(tm: Tm, i: nat, owner: nat, at: Deadline)
    ensures var q, l := SendAt(tm, i, owner, at), ClearOwner(tm, i, owner);
      && (q.1 == Ok <==>
            && i < |tm.slots| && tm.slots[i].active && tm.slots[i].role == Server
            && tm.slots[i].server.owner == Some(owner))
      && l.1 == q.1
      && (q.1 != Ok ==> q.0 == tm && l.0 == tm)
      && (q.1 == Ok ==>
            && OnlySlot(tm, q.0, i) && q.0.slots[i] == tm.slots[i].(nextSend := at)
            && OnlySlot(tm, l.0, i) && l.0.slots[i].server == tm.slots[i].server.(owner := None)
            && SendAt(l.0, i, owner, at).1 == NotFound)
  {
  }
}
