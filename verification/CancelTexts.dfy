module CancelTexts {
  // Every INVITE that rang can be given up on, in a table of two slots: which
  // shows what becomes of its Request-URI in the CANCEL, whatever it is.

  import opened Base
  import opened Slots
  import opened Table
  import opened ClientSteps
  import opened Machine
  import opened History
  import opened Runs
  import opened Theorems
  import opened Samples
  import opened Strings
  import opened UriText

  function NewInvite(id: Ident): Slot {
    ClientSlot(false, INVITE, id, TIMERS, 0, false, false, true).(active := true)
  }

  function Out(id: Ident): Slot {
    NewInvite(id).(
      sends := 1, nextSend := At(500),
      invite := Some(NEW_INVITE.(timeoutAt := At(32000), timeoutId := NoResponse)))
  }

  function OutTm(id: Ident): Tm {
    Tm([Out(id), EMPTY], 1, false, 1, 0, [Sent(0, 0, INVITE, id, 0)])
  }

  // A pass over two slots
  lemma TwoPass(tm: Tm, now: nat, ch: nat -> Choice)
    requires |tm.slots| == 2
    requires RunSlot(tm, 0, now, ch(0)).rc == Ok
    ensures Pump(tm, now, ch).tm == RunSlot(RunSlot(tm, 0, now, ch(0)).tm, 1, now, ch(1)).tm
  {
    hide RunSlot;
    var r := RunSlot(tm, 0, now, ch(0));
    var q := RunSlot(r.tm, 1, now, ch(1));
    var next := Earliest(Never, r.next);
    assert PumpFrom(tm, 0, now, ch, Never) == PumpFrom(r.tm, 1, now, ch, next);
    if q.rc == Ok {
      assert PumpFrom(r.tm, 1, now, ch, next) == PumpFrom(q.tm, 2, now, ch, Earliest(next, q.next));
    }
  }

  lemma NewReached(id: Ident)
    ensures Reached(Tm([NewInvite(id), EMPTY], 1, false, 1, 0, []))
  {
    hide Reached;
    StartReached(2, false);
    var st := NewClient(INVITE, id, TIMERS, 0, false, false, true, Fits);
    ReachedMore(Start(2, false), st);
    assert Apply(Start(2, false), st).slots == [NewInvite(id), EMPTY];
  }

  lemma OutReached(id: Ident)
    ensures Reached(OutTm(id))
  {
    hide Reached;
    var t := Tm([NewInvite(id), EMPTY], 1, false, 1, 0, []);
    var ch: nat -> Choice := _ => Uneventful();
    NewReached(id);
    ReachedMore(t, PumpAt(0, ch)) by { hide Apply; }
    assert InviteDelay(TIMERS, 1) == 500 && TimerBMs(TIMERS) == 32000;
    assert RunSlot(t, 0, 0, ch(0)).tm == OutTm(id);
    TwoPass(t, 0, ch);
  }

  // 180, after 100 ms
  function RingingResp(id: Ident): Resp {
    Resp(id.callId, id.fromTag, id.branch, id.cseq, INVITE, 180, PEER)
  }

  const ROOM := Room(Fits, Fits, true, 0, true, Fits, 0)

  function Rung(id: Ident): Slot {
    Out(id).(
      state := Proceeding, nextSend := Never, built := false,
      invite := Some(InviteRun(At(300000), true, NotCancelled, NoFinal, false, false)))
  }

  function RungTm(id: Ident): Tm {
    Tm([Rung(id), EMPTY], 1, false, 1, 100, [Sent(0, 0, INVITE, id, 0), Heard(0, 0, 1, PEER)])
  }

  lemma RungReached(id: Ident)
    ensures Reached(RungTm(id))
  {
    hide Reached;
    OutReached(id);
    var t, r := OutTm(id), RingingResp(id);
    assert IsRequest(t.log[0], 0, 0, INVITE, id);
    ReachedMore(t, Hear(r, 100, ROOM, Ignore)) by { hide Apply; }
    assert FindFrom(t.slots, r, 0) == Some(0);
    assert Receive(t, r, 100, ROOM, Ignore).0.slots == [Rung(id), EMPTY];
    assert Receive(t, r, 100, ROOM, Ignore).0.log == RungTm(id).log;
  }

  function GivenUpLate(id: Ident): Slot {
    Rung(id).(
      app := App(true, false, false), flags := NO_FLAGS.(abandoned := true),
      invite := Some(InviteRun(Never, true, OnWire, NoTimeout, false, true)))
  }

  // Given up on, its CANCEL still to be made
  function Detaching(id: Ident): Slot {
    Rung(id).(
      app := App(true, false, false), flags := NO_FLAGS.(abandoned := true),
      invite := Some(InviteRun(Never, true, NotCancelled, NoTimeout, false, true)))
  }

  function CancelSlot(id: Ident): Slot {
    CancelReady(Awake(CloneOf(Detaching(id), CANCEL, 0), 1))
  }

  function CancelledTm(id: Ident): Tm {
    Tm([GivenUpLate(id), CancelSlot(id)], 2, false, 2, 100,
       [Sent(0, 0, INVITE, id, 0), Heard(0, 0, 1, PEER), CancelMade(0, 0, 1, id), Detached(0)])
  }

  lemma SecondSlot(t: Tm, s: Slot, n: Slot)
    requires t.slots == [s, EMPTY] && s.active && !Evictable(s) && t.gens == 1 && t.nactive == 1
    ensures NewSlot(t, n, Fits) ==
            (t.(slots := [s, Awake(n, 1)], nactive := 2, gens := 2), Some(1))
    ensures NewSlot(t, n, Full) == (t, None)
  {
    assert AllocFrom(t.slots, 0, None) == AllocFrom(t.slots, 1, None) == Some(1);
    assert t.slots[1 := EMPTY] == t.slots && t.slots[1 := Awake(n, 1)] == [s, Awake(n, 1)];
  }

  lemma CancelStarts(id: Ident)
    ensures var t := RungTm(id).(slots := [Detaching(id), EMPTY]);
      StartCancel(t, 0, Fits) ==
        if Copies(id)
        then (CancelledTm(id).(log := t.log + [CancelMade(0, 0, 1, id)]), true) else (t, false)
  {
    hide NewSlot, Copies, CopyOf;
    var t := RungTm(id).(slots := [Detaching(id), EMPTY]);
    var n := CloneOf(Detaching(id), CANCEL, 0);
    SecondSlot(t, Detaching(id), n);
    assert [Detaching(id), Awake(n, 1)][0 := GivenUpLate(id)][1 := CancelReady(Awake(n, 1))]
        == [GivenUpLate(id), CancelSlot(id)];
  }

  lemma AppCancels(id: Ident)
    ensures var t := RungTm(id).(slots := [Detaching(id), EMPTY]);
            var (u, ok) := StartCancel(t, 0, Fits);
      Apply(RungTm(id), Cancel(0, Fits)) ==
        Note(if ok then u else Put(u, 0, FinishAbandoned(u.slots[0])), Detached(0))
  {
    hide StartCancel, FinishAbandoned;
    var s := Rung(id).(invite := Some(Rung(id).invite.value.(appCancelled := true)));
    assert DetachCallbacks(s) == Detaching(id);
    assert [Rung(id), EMPTY][0 := s][0 := Detaching(id)] == [Detaching(id), EMPTY];
  }

  lemma CancelledReached(id: Ident)
    requires Copies(id)
    ensures Reached(CancelledTm(id))
  {
    hide Reached, Copies, CopyOf, Apply, StartCancel;
    RungReached(id);
    ReachedMore(RungTm(id), Cancel(0, Fits)) by { CancelAllowed(id); }
    CancelStarts(id);
    AppCancels(id);
    assert RungTm(id).log + [CancelMade(0, 0, 1, id)] + [Detached(0)] == CancelledTm(id).log;
  }

  lemma CancelAllowed(id: Ident)
    ensures Allowed(RungTm(id), Cancel(0, Fits))
  {
  }

  lemma CancelSends(id: Ident)
    ensures var t := CancelledTm(id); var u := Pump(t, 200, _ => Uneventful()).tm;
            u.log == t.log + [Sent(1, 0, CANCEL, CopyOf(id), 200)]
  {
    hide CopyOf, Copies, OtherDelay, TimerFMs;
    var t := CancelledTm(id);
    var ch: nat -> Choice := _ => Uneventful();
    var r := RunSlot(t, 0, 200, ch(0));
    assert r.rc == Ok && r.tm.log == t.log && r.tm.slots[1] == CancelSlot(id);
    TwoPass(t, 200, ch);
  }

  // Whatever the Request-URI, an INVITE goes out and rings and is given up on:
  // its CANCEL follows with the copy of it, or there is none and the INVITE is
  // at its end.
  lemma EveryCancel(id: Ident) returns (tm: Tm)
    ensures Reached(tm) && |tm.slots| == 2
    ensures |tm.log| > 1 && tm.log[0] == Sent(0, 0, INVITE, id, 0)
    ensures Copies(id) ==> tm.log[|tm.log| - 1] == Sent(1, 0, CANCEL, CopyOf(id), 200)
    ensures !Copies(id) ==>
      tm.slots[0].active && tm.slots[0].state.Terminated? && Detached(0) in tm.log
      && forall k :: 0 <= k < |tm.log| ==> !tm.log[k].CancelMade?
  {
    hide Reached, Copies, CopyOf, Apply, StartCancel, Pump;
    if Copies(id) {
      CancelledReached(id);
      ReachedMore(CancelledTm(id), PumpAt(200, _ => Uneventful()));
      CancelSends(id);
      tm := Apply(CancelledTm(id), PumpAt(200, _ => Uneventful()));
      PassLog(CancelledTm(id), 200, _ => Uneventful());
    } else {
      RungReached(id);
      ReachedMore(RungTm(id), Cancel(0, Fits)) by { CancelAllowed(id); }
      CancelStarts(id);
      AppCancels(id);
      tm := Apply(RungTm(id), Cancel(0, Fits));
      assert tm.log[2] == Detached(0);
    }
  }

  lemma PassLog(tm: Tm, now: nat, ch: nat -> Choice)
    ensures Apply(tm, PumpAt(now, ch)).log == Pump(tm, now, ch).tm.log
  {
  }

  // An INVITE to "sip:h;;" goes out to "sip:h;", and its CANCEL to "sip:h".
  lemma CancelElsewhere() returns (tm: Tm, u: Uri.SipUri, v: Uri.SipUri)
    ensures Uri.Parse("sip:h;;") == Some(u) && Uri.Build(u) == "sip:h;" && Uri.Build(v) == "sip:h"
    ensures var id := CALL.(uri := u);
      && Reached(tm) && |tm.log| > 1 && tm.log[0] == Sent(0, 0, INVITE, id, 0)
      && tm.log[|tm.log| - 1] == Sent(1, 0, CANCEL, id.(uri := v), 200)
  {
    hide Uri.Parse, Uri.Build, Reached;
    SemicolonsLost();
    u, v := Plain([TvPair("", "")]), Plain([]);
    tm := EveryCancel(CALL.(uri := u));
  }

  // One to "sip:@h;x=y@" goes out, and can have no CANCEL.
  lemma NoCancelAtAll() returns (tm: Tm, u: Uri.SipUri)
    ensures Uri.Parse("sip:@h;x=y@") == Some(u)
    ensures Reached(tm) && |tm.log| > 1 && tm.log[0] == Sent(0, 0, INVITE, CALL.(uri := u), 0)
    ensures Detached(0) in tm.log && forall k :: 0 <= k < |tm.log| ==> !tm.log[k].CancelMade?
  {
    hide Uri.Parse, Uri.Build, Reached;
    NoHostLeft();
    u := Plain([TvPair("x", "y@")]);
    tm := EveryCancel(CALL.(uri := u));
  }
}
