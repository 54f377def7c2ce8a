// A few tables that runs lead to, to show by example where a property fails.
module Samples {
  import opened Base
  import opened Slots
  import opened Table
  import opened ClientSteps
  import opened ServerSteps
  import opened Machine
  import opened Runs
  import opened Theorems

  const PEER := Uri.SipUri("sip", "", "", "h", 0, [], [])
  const CALL := Ident(1, 2, 3, 4, PEER)
  const TIMERS := Policy(500, 4000, 5000, 0, 0, 0, 0, 0, 0, 0, 0)

  function Uneventful(): Choice {
    Choice(true, Built, Fits, Ignore, Never, None, Fits)
  }

  // A pass over a table of one slot
  lemma OnePass(tm: Tm, now: nat, ch: nat -> Choice)
    requires |tm.slots| == 1
    ensures Pump(tm, now, ch) == RunSlot(tm, 0, now, ch(0))
  {
    hide RunSlot;
    var r := RunSlot(tm, 0, now, ch(0));
    if r.rc == Ok {
      assert PumpFrom(tm, 0, now, ch, Never) == PumpFrom(r.tm, 1, now, ch, Earliest(Never, r.next));
    }
  }

  lemma ReachedPass(tm: Tm, now: nat, ch: Choice)
    requires Reached(tm) && |tm.slots| == 1 && tm.clock <= now
    ensures Reached(RunSlot(tm, 0, now, ch).tm.(clock := now))
  {
    hide Reached, Pump, RunSlot;
    ReachedMore(tm, PumpAt(now, _ => ch));
    OnePass(tm, now, _ => ch);
  }

  // --- A request sent at 0

  function NewAsk(): Slot {
    ClientSlot(false, OTHER(6), CALL, TIMERS, 0, false, true, true).(active := true)
  }

  function Asked(): Tm {
    Tm([NewAsk().(sends := 1, timer := TimerF, due := At(32000), nextSend := At(500))],
       1, false, 1, 0, [Sent(0, 0, OTHER(6), CALL, 0)])
  }

  lemma NewAskReached()
    ensures Reached(Tm([NewAsk()], 1, false, 1, 0, []))
  {
    hide Reached;
    var t := Start(1, false);
    StartReached(1, false);
    var st := NewClient(OTHER(6), CALL, TIMERS, 0, false, true, true, Fits);
    ReachedMore(t, st);
    assert Apply(t, st).slots == [NewAsk()];
  }

  lemma AskReached()
    ensures Reached(Asked())
  {
    hide Reached;
    var t := Tm([NewAsk()], 1, false, 1, 0, []);
    NewAskReached();
    ReachedPass(t, 0, Uneventful());
    assert OtherDelay(TIMERS, 1) == 500 && TimerFMs(TIMERS) == 32000;
    assert RunSlot(t, 0, 0, Uneventful()).tm == Asked();
  }

  // --- An INVITE answered 200 by its owner at 0

  function Invited(): Slot {
    ServerSlot(false, INVITE, CALL, TIMERS, 7, false, false).(active := true)
  }

  function Replying(): Slot {
    Responded(WithOwner(Invited(), Some(9)), 200, false)
  }

  function Called(): Tm {
    Tm([Replying().(sends := 1, due := At(32000), nextSend := Never)],
       1, false, 1, 0, [Replied(0, 200, 0)])
  }

  lemma InviteReached()
    ensures Reached(Tm([Invited()], 1, false, 1, 0, []))
  {
    hide Reached;
    var t := Start(1, false);
    var st := NewServerTx(Req(1, 2, 0, 3, 4, INVITE), CALL, TIMERS, 7, false, false, Fits);
    StartReached(1, false);
    ReachedMore(t, st);
    assert Apply(t, st).slots == [Invited()];
  }

  lemma OwnedReached()
    ensures Reached(Tm([WithOwner(Invited(), Some(9))], 1, false, 1, 0, []))
  {
    hide Reached;
    var t := Tm([Invited()], 1, false, 1, 0, []);
    InviteReached();
    ReachedMore(t, Own(0, 9));
    assert Apply(t, Own(0, 9)) == t.(slots := [WithOwner(Invited(), Some(9))]);
  }

  lemma ReplyReached()
    ensures Reached(Tm([Replying()], 1, false, 1, 0, []))
  {
    hide Reached;
    var t := Tm([WithOwner(Invited(), Some(9))], 1, false, 1, 0, []);
    OwnedReached();
    ReachedMore(t, Respond(0, 200, false, true));
    assert Apply(t, Respond(0, 200, false, true)) == t.(slots := [Replying()]);
  }

  lemma ReplySent()
    ensures var s := Replying();
      && ArmTimerL(s, 0) == s.(due := At(32000))
      && ServerSent(s.(due := At(32000)), 0, Never) == s.(due := At(32000), sends := 1, nextSend := Never)
  {
    hide RefusalSent, FinalSent;
    assert AnswerTimerMs(Replying()) == 32000;
  }

  lemma CallTurn()
    ensures RunSlot(Tm([Replying()], 1, false, 1, 0, []), 0, 0, Uneventful()).tm == Called()
  {
    hide ArmTimerL, ServerSent, ServerWake;
    ReplySent();
  }

  lemma CallReached()
    ensures Reached(Called())
  {
    hide Reached, Replying, RunSlot;
    ReplyReached();
    CallTurn();
    ReachedPass(Tm([Replying()], 1, false, 1, 0, []), 0, Uneventful());
  }

  // --- An INVITE sent at 0 and given up on before anything came back

  function Inviting(): Slot {
    NewCall().(
      sends := 1, nextSend := At(500),
      invite := Some(NEW_INVITE.(timeoutAt := At(32000), timeoutId := NoResponse)))
  }

  function SentCall(): Tm {
    Tm([Inviting()], 1, false, 1, 0, [Sent(0, 0, INVITE, CALL, 0)])
  }

  function NewCall(): Slot {
    ClientSlot(false, INVITE, CALL, TIMERS, 0, false, false, true).(active := true)
  }

  lemma NewCallReached()
    ensures Reached(Tm([NewCall()], 1, false, 1, 0, []))
  {
    hide Reached;
    var t := Start(1, false);
    StartReached(1, false);
    var st := NewClient(INVITE, CALL, TIMERS, 0, false, false, true, Fits);
    ReachedMore(t, st);
    assert Apply(t, st).slots == [NewCall()];
  }

  lemma SentCallReached()
    ensures Reached(SentCall())
  {
    hide Reached;
    var t := Tm([NewCall()], 1, false, 1, 0, []);
    NewCallReached();
    ReachedPass(t, 0, Uneventful());
    assert InviteDelay(TIMERS, 1) == 500 && TimerBMs(TIMERS) == 32000;
    assert RunSlot(t, 0, 0, Uneventful()).tm == SentCall();
  }

  // ... with the time set by which the call is given up for good
  function GivenUp(): Slot {
    Inviting().(
      app := App(true, false, false), flags := NO_FLAGS.(abandoned := true),
      invite := Some(InviteRun(At(32100), false, Scheduled, NoTimeout, false, true)))
  }

  function Given(): Tm {
    Tm([GivenUp()], 1, false, 1, 100, [Sent(0, 0, INVITE, CALL, 0), Detached(0)])
  }

  lemma GivenReached()
    ensures Reached(Given())
  {
    hide Reached;
    SentCallReached();
    ReachedMore(SentCall(), Cancel(0, Fits));
    var u := Apply(SentCall(), Cancel(0, Fits));
    assert u == Given().(
      clock := 0,
      slots := [GivenUp().(invite := Some(GivenUp().invite.value.(timeoutAt := Never)))]);
    ReachedPass(u, 100, Uneventful());
    assert RunSlot(u, 0, 100, Uneventful()).tm == Given().(clock := 0);
  }
}
