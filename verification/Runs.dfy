// Whole runs of the transaction manager: any sequence of calls, messages
// and timer passes, and what holds after every one of them.
module Runs {
  import opened Base
  import opened Slots
  import opened Table
  import opened ClientSteps
  import opened ServerSteps
  import opened Machine
  import opened Links
  import opened History
  import opened HistoryKeeps
  import opened AbandonKeeps
  import opened ReceiveKeeps
  import opened FinalKeeps
  import opened RunKeeps

  datatype Step =
    | PumpAt(now: nat, ch: nat -> Choice)
    | Hear(r: Resp, at: nat, room: Room, react: Reaction)
    | Ask(q: Req, when: nat)
    | NewClient(verb: Method, ident: Ident, policy: Policy, expires: nat,
                onResponse: bool, onTimeout: bool, built: bool, space: Space)
    | NewServerTx(q: Req, from: Ident, timers: Policy, localTag: nat,
                  onCancel: bool, noAck: bool, slot: Space)
    | Respond(i: nat, code: nat, wantsNoAck: bool, fits: bool)
    | Cancel(index: nat, cancelSpace: Space)
    | Next(which: nat, build: Build)
    | DropTx(gone: nat)
    | ReapAll
    | Own(invite: nat, owner: nat)
    | Disown(held: nat, holder: nat)
    | ResendAt(answered: nat, whose: nat, due: Deadline)

  function Apply(tm: Tm, st: Step): (t: Tm)
    ensures |t.slots| == |tm.slots|
  {
    match st
    case PumpAt(now, ch) => Pump(tm, now, ch).tm.(clock := now)
    case Hear(r, now, room, react) => Receive(tm, r, now, room, react).0.(clock := now)
    case Ask(q, now) => Request(tm, q, now).(clock := now)
    case NewClient(verb, ident, policy, expires, onR, onT, built, space) =>
      if Generic(verb) then tm
      else NewSlot(tm, ClientSlot(tm.reliable, verb, ident, policy, expires, onR, onT, built), space).0
    case NewServerTx(q, from, timers, tag, onCancel, noAck, slot) =>
      NewServer(tm, ServerSlot(tm.reliable, q.verb, from, timers, tag, onCancel, noAck), q, slot).0
    case Respond(i, code, noAck, fits) =>
      if i < |tm.slots| then SendResponse(tm, i, code, noAck, fits).0 else tm
    case Cancel(i, space) => CancelTx(tm, i, space).0
    case Next(i, b) => NextTx(tm, i, b).0
    case DropTx(i) => DropTransaction(tm, i).0
    case ReapAll => Reap(tm)
    case Own(i, o) => SetOwner(tm, i, o).0
    case Disown(i, o) => ClearOwner(tm, i, o).0
    case ResendAt(i, o, d) => SendAt(tm, i, o, d).0
  }

  // What the network and the application are trusted with: responses are to
  // requests sent; ACK and CANCEL are left to the transaction manager; the
  // calls for client and server transactions get one of their kind, and a
  // restart one the application asked for; what is dropped has no parent.
  // Time does not run backwards.
  predicate Allowed(tm: Tm, st: Step) {
    match st
    case PumpAt(now, _) => tm.clock <= now
    case Hear(r, now, _, _) => tm.clock <= now && Plausible(tm, r)
    case Ask(_, now) => tm.clock <= now
    case NewClient(verb, _, _, _, _, _, _, _) => !verb.ACK? && !verb.CANCEL?
    case NewServerTx(_, _, _, _, _, _, _) => true
    case Respond(i, code, _, _) =>
      i < |tm.slots| && (tm.slots[i].active ==> tm.slots[i].role.Server?) && code >= 100
    case Cancel(i, _) => i < |tm.slots| && tm.slots[i].active ==> tm.slots[i].role.Client?
    case Next(i, _) => MayCallNext(tm, i)
    case DropTx(i) => i < |tm.slots| && tm.slots[i].active ==> tm.slots[i].parent.None?
    case ReapAll => true
    case Own(_, _) => true
    case Disown(_, _) => true
    case ResendAt(_, _, _) => true
  }

  function Run(tm: Tm, steps: seq<Step>): (t: Tm)
    ensures |t.slots| == |tm.slots|
    decreases |steps|
  {
    if steps == [] then tm else Run(Apply(tm, steps[0]), steps[1..])
  }

  predicate AllowedRun(tm: Tm, steps: seq<Step>)
    decreases |steps|
  {
    steps != [] ==> Allowed(tm, steps[0]) && AllowedRun(Apply(tm, steps[0]), steps[1..])
  }

  function Start(n: nat, reliable: bool): Tm {
    Tm(seq(n, _ => EMPTY), 0, reliable, 0, 0, [])
  }

  lemma {:induction false} NoneActive(slots: seq<Slot>)
    requires forall i :: 0 <= i < |slots| ==> !slots[i].active
    ensures CountActive(slots) == 0
  {
    if slots != [] {
      NoneActive(slots[..|slots| - 1]);
    }
  }

  lemma StartInv(n: nat, reliable: bool)
    ensures Inv(Start(n, reliable))
  {
    NoneActive(Start(n, reliable).slots);
  }

  // --- The server side

  lemma ServerPut(tm: Tm, i: nat, s: Slot)
    requires Inv(tm) && i < |tm.slots| && LiveServer(tm.slots[i]) && Onward(tm.slots[i], s)
    requires ServerEvidence(s, tm.log)
    ensures Inv(Put(tm, i, s))
  {
    hide Inv;
    OfSlot(tm, i);
    var o := tm.slots[i];
    forall k | 0 <= k < |tm.log|
      ensures EventFits(s, tm.log[k]) && ByeHeld(s, tm.log[k], tm.log)
    {
      assert EventFits(o, tm.log[k]) && ByeHeld(o, tm.log[k], tm.log);
    }
    PutInv(tm, i, s);
  }

  lemma ClientFresh(tm: Tm, verb: Method, ident: Ident, policy: Policy, expires: nat,
                    onR: bool, onT: bool, built: bool)
    requires !verb.ACK? && !verb.CANCEL?
    ensures var s := ClientSlot(tm.reliable, verb, ident, policy, expires, onR, onT, built);
            Fresh(s, tm.gens) && Unborn(s) && s.parent.None?
  {
  }

  lemma ServerRunInv(tm: Tm, i: nat, now: nat, ch: Choice)
    requires Inv(tm) && i < |tm.slots| && LiveServer(tm.slots[i])
    ensures Inv(ServerRun(tm, i, now, ch).tm)
  {
    hide Inv;
    var s := tm.slots[i];
    OfSlot(tm, i);
    if TimerDue(s, now) {
      PlainEvidence(s, tm.log);
      ServerPut(tm, i, ServerTerminated(s));
      var t := Put(tm, i, ServerTerminated(s));
      if s.timer.TimerL? && s.server.owner.Some? && ch.hangup.Some? {
        ClientFresh(tm, BYE, ch.hangup.value, s.policy, 0, false, false, false);
        NewSlotInv(t, ClientSlot(tm.reliable, BYE, ch.hangup.value, s.policy, 0, false, false, false),
                   ch.hangupSlot);
      }
    } else if !s.state.Terminated? && Due(s.nextSend, now) {
      ServerSendInv(tm, i, now, ch);
    }
  }

  lemma ServerSendInv(tm: Tm, i: nat, now: nat, ch: Choice)
    requires Inv(tm) && i < |tm.slots| && LiveServer(tm.slots[i])
    requires !tm.slots[i].state.Terminated?
    ensures var a := ArmTimerL(tm.slots[i], now);
      && Inv(Put(tm, i, a))
      && Inv(Put(Note(tm, Replied(a.gen, a.server.status, now)), i, ServerSent(a, now, ch.again)))
  {
    hide Inv;
    var s := tm.slots[i];
    var a := ArmTimerL(s, now);
    OfSlot(tm, i);
    ArmLEvidence(s, now, tm.log);
    ServerPut(tm, i, a);
    var e := Replied(a.gen, a.server.status, now);
    NoteOwn(tm, i, e);
    ServerSentSame(a, now, ch.again);
    SentEvidence(a, now, ch.again, tm.log);
    ServerPut(Note(tm, e), i, ServerSent(a, now, ch.again));
  }

  // What keeps the evidence about a server transaction
  lemma PlainEvidence(s: Slot, log: seq<Event>)
    requires ServerEvidence(s, log)
    ensures ServerEvidence(ServerTerminated(s), log)
    ensures forall o :: ServerEvidence(WithOwner(s, o), log)
    ensures forall at :: ServerEvidence(s.(nextSend := at), log)
  {
  }

  lemma ArmLEvidence(s: Slot, now: nat, log: seq<Event>)
    requires ServerEvidence(s, log)
    ensures ServerEvidence(ArmTimerL(s, now), log)
  {
    hide AnswerTimerMs;
  }

  predicate SentAs(s: Slot, t: Slot) {
    && t.gen == s.gen && t.flags.acked == s.flags.acked && t.verb == s.verb
    && t.server == s.server
    && (t.state == s.state || t.state.Terminated?)
  }

  lemma SentParts(s: Slot, now: nat)
    ensures SentAs(s, RefusalSent(s, now)) && RefusalSent(s, now).timer == s.timer
    ensures SentAs(s, FinalSent(s, now))
    ensures var n := NoteSend(s, now).(nextSend := Never); SentAs(s, n) && n.timer == s.timer && n.state == s.state
  {
    hide AnswerTimerMs, ServerInviteDelay, TimerJMs;
  }

  lemma SentTimers(s: Slot, now: nat, again: Deadline)
    ensures var t := ServerSent(s, now, again);
      && SentAs(s, t)
      && (t.timer == s.timer
          || (s.server.status >= 200 && !s.state.Accepted?
              && !(s.server.status >= 300 && IsInvite(s))))
  {
    hide RefusalSent, FinalSent, NoteSend;
    SentParts(s, now);
    SentParts(NoteSend(s, now).(nextSend := Never), now);
  }

  lemma SentEvidence(s: Slot, now: nat, again: Deadline, log: seq<Event>)
    requires ServerEvidence(s, log) && !s.state.Terminated?
    ensures ServerEvidence(ServerSent(s, now, again), log + [Replied(s.gen, s.server.status, now)])
  {
    hide ServerSent;
    SentTimers(s, now, again);
    var e := Replied(s.gen, s.server.status, now);
    var m := log + [e];
    if s.timer.TimerJ? {
      RepliedGrows(log, e, s.gen);
    }
    if s.server.status >= 200 {
      assert IsFinalReply(m[|log|], s.gen);
    }
    assert Acked(s.gen) in log ==> Acked(s.gen) in m;
  }

  lemma AckEvidence(s: Slot, now: nat, log: seq<Event>)
    requires ServerEvidence(s, log) && s.active && s.role.Server?
    ensures ServerEvidence(AckSlot(s, now), log + [Acked(s.gen)])
  {
    var e := Acked(s.gen);
    var m := log + [e];
    if s.timer.TimerJ? {
      RepliedGrows(log, e, s.gen);
    }
    assert m[|log|] == e;
  }

  // The same server transaction, done or further on
  predicate Onward(s: Slot, t: Slot) {
    && t.active == s.active && t.role == s.role && t.gen == s.gen && t.verb == s.verb
    && t.app == s.app && t.attempt == s.attempt && t.parent == s.parent && t.child == s.child
    && t.invite == s.invite && t.flags.abandoned == s.flags.abandoned
    && t.finalReported == s.finalReported && (s.state.Terminated? ==> t.state.Terminated?)
  }

  lemma ServerSentParts(s: Slot, now: nat)
    ensures Onward(s, RefusalSent(s, now)) && Onward(s, FinalSent(s, now))
    ensures Onward(s, NoteSend(s, now).(nextSend := Never))
  {
    hide AnswerTimerMs, ServerInviteDelay, TimerJMs;
  }

  lemma ServerSentSame(s: Slot, now: nat, again: Deadline)
    ensures Onward(s, ServerSent(s, now, again))
  {
    hide RefusalSent, FinalSent, NoteSend;
    ServerSentParts(s, now);
    ServerSentParts(NoteSend(s, now).(nextSend := Never), now);
  }

  lemma NewServerInv(tm: Tm, q: Req, from: Ident, timers: Policy, tag: nat,
                     onCancel: bool, noAck: bool, space: Space)
    requires Inv(tm)
    ensures Inv(NewServer(tm, ServerSlot(tm.reliable, q.verb, from, timers, tag, onCancel, noAck),
                          q, space).0)
  {
    hide Inv;
    var s := ServerSlot(tm.reliable, q.verb, from, timers, tag, onCancel, noAck);
    if !q.verb.ACK? {
      assert Fresh(s, tm.gens) && Unborn(s);
      NewSlotInv(tm, s, space);
    }
  }

  lemma RequestInv(tm: Tm, q: Req, now: nat)
    requires Inv(tm)
    ensures Inv(Request(tm, q, now))
  {
    hide Inv, Classify;
    match Classify(tm, q) {
      case AckHeard(i) =>
        var s := tm.slots[i];
        OfSlot(tm, i);
        AckSlotSame(s, now);
        NoteOwn(tm, i, Acked(s.gen));
        AckEvidence(s, now, tm.log);
        ServerPut(Note(tm, Acked(s.gen)), i, AckSlot(s, now));
      case Repeated(i) =>
        OfSlot(tm, i);
        ServerPut(tm, i, Again(tm.slots[i], now));
      case _ =>
    }
  }

  lemma AckSlotSame(s: Slot, now: nat)
    requires !s.state.Terminated?
    ensures Onward(s, AckSlot(s, now))
  {
  }

  lemma RespondedSame(s: Slot, code: nat, noAck: bool, log: seq<Event>)
    requires ServerEvidence(s, log) && !s.state.Terminated?
    ensures ServerEvidence(Responded(s, code, noAck), log)
    ensures Onward(s, Responded(s, code, noAck))
  {
  }

  lemma RespondInv(tm: Tm, i: nat, code: nat, noAck: bool, fits: bool)
    requires Inv(tm) && i < |tm.slots| && (tm.slots[i].active ==> tm.slots[i].role.Server?)
    ensures Inv(SendResponse(tm, i, code, noAck, fits).0)
  {
    hide Inv, Responded;
    var s := tm.slots[i];
    OfSlot(tm, i);
    if SendResponse(tm, i, code, noAck, fits).1 == Ok {
      RespondedSame(s, code, noAck, tm.log);
      ServerPut(tm, i, Responded(s, code, noAck));
    }
  }

  lemma OwnershipInv(tm: Tm, i: nat, o: Option<nat>, at: Deadline)
    requires Inv(tm) && i < |tm.slots| && LiveServer(tm.slots[i])
    ensures Inv(Put(tm, i, WithOwner(tm.slots[i], o)))
    ensures Inv(Put(tm, i, tm.slots[i].(nextSend := at)))
  {
    hide Inv;
    OfSlot(tm, i);
    PlainEvidence(tm.slots[i], tm.log);
    ServerPut(tm, i, WithOwner(tm.slots[i], o));
    ServerPut(tm, i, tm.slots[i].(nextSend := at));
  }

  // --- The pump

  lemma RunSlotInv(tm: Tm, i: nat, now: nat, ch: Choice)
    requires Inv(tm) && i < |tm.slots|
    ensures Inv(RunSlot(tm, i, now, ch).tm)
  {
    hide Inv, ClientRun, ServerRun;
    if tm.slots[i].active {
      if tm.slots[i].role.Client? {
        ClientRunInv(tm, i, now, ch);
      } else {
        ServerRunInv(tm, i, now, ch);
      }
    }
  }

  lemma {:induction false} PumpFromInv(tm: Tm, i: nat, now: nat, ch: nat -> Choice, next: Deadline)
    requires Inv(tm) && i <= |tm.slots|
    ensures Inv(PumpFrom(tm, i, now, ch, next).tm)
    decreases |tm.slots| - i
  {
    hide Inv, RunSlot;
    if i < |tm.slots| {
      RunSlotInv(tm, i, now, ch(i));
      var r := RunSlot(tm, i, now, ch(i));
      if r.rc == Ok {
        PumpFromInv(r.tm, i + 1, now, ch, Earliest(next, r.next));
      }
    }
  }

  // --- Dropping

  lemma {:induction false} ReapFromInv(tm: Tm, i: nat)
    requires Inv(tm) && i <= |tm.slots|
    ensures Inv(ReapFrom(tm, i))
    decreases |tm.slots| - i
  {
    hide Inv, Drop;
    if i < |tm.slots| {
      OfSlot(tm, i);
      if tm.slots[i].active && tm.slots[i].state.Terminated? {
        DropInv(tm, i);
        ReapFromInv(Drop(tm, i), i + 1);
      } else {
        ReapFromInv(tm, i + 1);
      }
    }
  }

  // --- Any step, any run

  lemma ClockInv(tm: Tm, now: nat)
    requires Inv(tm)
    ensures Inv(tm.(clock := now))
  {
  }

  lemma ApplyInv(tm: Tm, st: Step)
    requires Inv(tm) && Allowed(tm, st)
    ensures Inv(Apply(tm, st))
  {
    hide Inv, Pump, Receive, Request, NewSlot, ClientSlot, ServerSlot, NewServer, SendResponse,
         CancelTx, NextTx, Drop;
    match st {
      case PumpAt(now, ch) =>
        PumpInv(tm, now, ch);
        ClockInv(Pump(tm, now, ch).tm, now);
      case Hear(r, now, room, react) =>
        ReceiveInv(tm, r, now, room, react);
        ClockInv(Receive(tm, r, now, room, react).0, now);
      case Ask(q, now) =>
        RequestInv(tm, q, now);
        ClockInv(Request(tm, q, now), now);
      case NewClient(verb, ident, policy, expires, onR, onT, built, space) =>
        ClientFresh(tm, verb, ident, policy, expires, onR, onT, built);
        NewSlotInv(tm, ClientSlot(tm.reliable, verb, ident, policy, expires, onR, onT, built), space);
      case NewServerTx(q, from, timers, tag, onCancel, noAck, slot) =>
        NewServerInv(tm, q, from, timers, tag, onCancel, noAck, slot);
      case Respond(i, code, noAck, fits) =>
        RespondInv(tm, i, code, noAck, fits);
      case Cancel(i, space) =>
        CancelTxInv(tm, i, space);
      case Next(i, b) =>
        NextTxInv(tm, i, b);
      case DropTx(i) =>
        if i < |tm.slots| && tm.slots[i].active {
          DropInv(tm, i);
        }
      case ReapAll =>
        ReapFromInv(tm, 0);
      case Own(i, o) =>
        if i < |tm.slots| && LiveServer(tm.slots[i]) {
          OwnershipInv(tm, i, Some(o), Never);
        }
      case Disown(i, o) =>
        if OwnedBy(tm, i, o) {
          OwnershipInv(tm, i, None, Never);
        }
      case ResendAt(i, o, d) =>
        if OwnedBy(tm, i, o) {
          OwnershipInv(tm, i, None, d);
        }
    }
  }

  lemma PumpInv(tm: Tm, now: nat, ch: nat -> Choice)
    requires Inv(tm)
    ensures Inv(Pump(tm, now, ch).tm)
  {
    PumpFromInv(tm, 0, now, ch, Never);
  }

  lemma {:induction false} RunInv(tm: Tm, steps: seq<Step>)
    requires Inv(tm) && AllowedRun(tm, steps)
    ensures Inv(Run(tm, steps))
    decreases |steps|
  {
    hide Inv, Apply;
    if steps != [] {
      ApplyInv(tm, steps[0]);
      RunInv(Apply(tm, steps[0]), steps[1..]);
    }
  }
}
