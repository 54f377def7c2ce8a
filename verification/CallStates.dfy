module CallStates {
  // The states of a user agent (sip_ua/*.c) as a machine over everything that
  // can happen to it. A callback of the application may do more to the agent
  // before it returns: each stimulus carries those it leads to.

  import opened Base

  datatype State = Idle | Trying | Dialing | Connected | Disconnected

  datatype Emit = Dial | Connect | Disconnect

  // What happened so far; `Bye` is one of ours. What the application is told
  // goes with the state that was left and the stimulus that led to it.
  datatype Trace = Emitted(what: Emit, from: State, why: Stimulus) | Bye | PeerBye | Retried

  // What matters of the dialog here
  datatype Link = Link(ended: bool, ackPending: bool)

  // `asked` is whether the answer to an authentication challenge was tried
  datatype Agent = Agent(state: State, link: Option<Link>, asked: bool, trace: seq<Trace>)

  // How an operation of the transaction manager or the dialog turns out is
  // part of the stimulus; the sequence is what the callback it leads to does.
  datatype Stimulus =
    | DialEvent(made: bool)
    | ConnectEvent(code: nat, accepted: bool, within: seq<Stimulus>)
    | DisconnectEvent(status: nat, done: bool, next: seq<Stimulus>)
    | InviteRequest(answered: bool, after: seq<Stimulus>)
    | ByeRequest(matches: bool, told: seq<Stimulus>)
    | Response(scode: nat, canRetry: bool, linked: bool, later: seq<Stimulus>)
    | NoAck(asks: bool, keep: bool, byeMade: bool, first: seq<Stimulus>, last: seq<Stimulus>)

  const NEW := Agent(Idle, None, false, [])

  function Emitting(a: Agent, s: State, e: Emit, st: Stimulus): Agent {
    a.(state := s, trace := a.trace + [Emitted(e, a.state, st)])
  }

  // usipy_sip_dialog_end
  function HangUp(a: Agent, byeMade: bool): Agent {
    if a.link.None? || a.link.value.ended || !byeMade then a
    else a.(link := Some(Link(true, false)), trace := a.trace + [Bye])
  }

  function Handle(a: Agent, st: Stimulus): Agent
    decreases st, 1
  {
    match st
    case DialEvent(made) =>
      if a.state.Idle? && made then a.(state := Dialing, asked := false) else a
    case InviteRequest(answered, after) =>
      if a.state.Idle? && answered then HandleAll(Emitting(a, Trying, Dial, st), after) else a
    case ConnectEvent(code, accepted, within) =>
      if a.state.Trying? && (code == 0 || 200 <= code <= 299) && accepted
      then HandleAll(Emitting(a.(link := Some(Link(false, true))), Connected, Connect, st), within)
      else a
    case DisconnectEvent(status, done, next) =>
      if a.state.Trying? then
        if (status == 0 || status >= 300) && done
        then HandleAll(Emitting(a, Disconnected, Disconnect, st), next) else a
      else if a.state.Dialing? then
        if done then HandleAll(Emitting(a, Disconnected, Disconnect, st), next) else a
      else if a.state.Connected? && a.link.Some? && !a.link.value.ended && done
      then HandleAll(Emitting(HangUp(a, true), Disconnected, Disconnect, st), next)
      else a
    case ByeRequest(matches, told) =>
      if a.state.Connected? && a.link.Some? && matches
      then HandleAll(Emitting(a.(link := Some(Link(true, false)), trace := a.trace + [PeerBye]),
                              Disconnected, Disconnect, st), told)
      else a
    case Response(scode, canRetry, linked, later) =>
      if !a.state.Dialing? || scode < 200 then a
      else if (scode == 401 || scode == 407) && canRetry && !a.asked
      then a.(asked := true, trace := a.trace + [Retried])
      else if scode < 300 then
        if a.link.None? && !linked then a
        else
          HandleAll(Emitting(a.(link := if a.link.None? then Some(Link(false, false)) else a.link),
                             Connected, Connect, st), later)
      else HandleAll(Emitting(a, Disconnected, Disconnect, st), later)
    case NoAck(asks, keep, byeMade, first, last) =>
      // Timer L, with the dialog's no_ack callback asked first if there is one
      if a.link.None? || !a.link.value.ackPending then a
      else
        var b := a.(link := Some(a.link.value.(ackPending := false)));
        var c := if asks then HandleAll(b, first) else b;
        if asks && keep then c
        else
          var d := HangUp(c, byeMade);
          if d.state.Connected? then HandleAll(Emitting(d, Disconnected, Disconnect, st), last) else d
  }

  function HandleAll(a: Agent, sts: seq<Stimulus>): Agent
    decreases sts, 0
  {
    if sts == [] then a else HandleAll(Handle(a, sts[0]), sts[1..])
  }

  // --- What holds whatever happens

  function Rank(e: Emit): nat {
    match e
    case Dial => 0
    case Connect => 1
    case Disconnect => 2
  }

  // What a state lets the application have been told: ranks below this
  function Limit(s: State): nat {
    match s
    case Idle => 0
    case Trying => 1
    case Dialing => 0
    case Connected => 2
    case Disconnected => 3
  }

  // In order, and so each at most once
  predicate Ordered(t: seq<Trace>) {
    forall j, k :: 0 <= j < k < |t| && t[j].Emitted? && t[k].Emitted? ==>
      Rank(t[j].what) < Rank(t[k].what)
  }

  predicate Below(t: seq<Trace>, n: nat) {
    forall j :: 0 <= j < |t| && t[j].Emitted? ==> Rank(t[j].what) < n
  }

  predicate Ends(e: Trace) {
    e.Bye? || e.PeerBye?
  }

  // One end of the dialog at most: a BYE of ours or the peer's
  predicate OneEnd(t: seq<Trace>) {
    forall j, k :: 0 <= j < k < |t| ==> !(Ends(t[j]) && Ends(t[k]))
  }

  predicate OneRetry(t: seq<Trace>) {
    forall j, k :: 0 <= j < k < |t| ==> !(t[j].Retried? && t[k].Retried?)
  }

  predicate NoEnd(t: seq<Trace>) {
    forall j :: 0 <= j < |t| ==> !Ends(t[j])
  }

  predicate NoRetry(t: seq<Trace>) {
    forall j :: 0 <= j < |t| ==> !t[j].Retried?
  }

  predicate Sane(a: Agent) {
    && Ordered(a.trace) && OneEnd(a.trace) && OneRetry(a.trace)
    && Below(a.trace, Limit(a.state))
    && (a.link.None? || !a.link.value.ended ==> NoEnd(a.trace))
    && (a.link.Some? ==> a.state.Connected? || a.state.Disconnected?)
    && (a.link.Some? && a.link.value.ended ==> a.state.Disconnected?)
    && (a.state.Disconnected? && a.link.Some? ==> !a.link.value.ackPending)
    && (!a.asked || a.state.Idle? ==> NoRetry(a.trace))
  }

  lemma NewSane()
    ensures Sane(NEW)
  {
  }

  lemma TraceMore(t: seq<Trace>, e: Trace)
    ensures Ordered(t) && (e.Emitted? ==> Below(t, Rank(e.what))) ==> Ordered(t + [e])
    ensures forall n :: Below(t + [e], n) <==> Below(t, n) && (e.Emitted? ==> Rank(e.what) < n)
    ensures OneEnd(t) && (Ends(e) ==> NoEnd(t)) ==> OneEnd(t + [e])
    ensures NoEnd(t + [e]) <==> NoEnd(t) && !Ends(e)
    ensures OneRetry(t) && (e.Retried? ==> NoRetry(t)) ==> OneRetry(t + [e])
    ensures NoRetry(t + [e]) <==> NoRetry(t) && !e.Retried?
  {
    var m := t + [e];
    assert m[|t|] == e && forall j :: 0 <= j < |t| ==> m[j] == t[j];
  }

  lemma BelowMore(t: seq<Trace>, m: nat, n: nat)
    requires Below(t, m) && m <= n
    ensures Below(t, n)
  {
  }

  // A callback at a state change
  lemma EmittingSane(a: Agent, s: State, e: Emit, st: Stimulus)
    requires Sane(a) && Limit(a.state) <= Rank(e) && Rank(e) + 1 == Limit(s)
    requires a.link.Some? ==> s.Connected? || s.Disconnected?
    requires s.Disconnected? && a.link.Some? ==> !a.link.value.ackPending
    requires a.link.Some? && a.link.value.ended ==> s.Disconnected?
    ensures Sane(Emitting(a, s, e, st))
  {
    hide Ordered, Below, OneEnd, OneRetry, NoEnd, NoRetry;
    BelowMore(a.trace, Limit(a.state), Rank(e));
    TraceMore(a.trace, Emitted(e, a.state, st));
    BelowMore(a.trace, Limit(a.state), Limit(s));
  }

  // The end of the dialog, with the callback that follows it
  lemma EndingSane(a: Agent, e: Trace, st: Stimulus)
    requires Sane(a) && Ends(e) && a.state.Connected? && a.link.Some? && !a.link.value.ended
    ensures Sane(Emitting(a.(link := Some(Link(true, false)), trace := a.trace + [e]),
                          Disconnected, Disconnect, st))
  {
    hide Ordered, Below, OneEnd, OneRetry, NoEnd, NoRetry;
    TraceMore(a.trace, e);
    TraceMore(a.trace + [e], Emitted(Disconnect, Connected, st));
    BelowMore(a.trace, 2, 3);
  }

  lemma RetriedSane(a: Agent)
    requires Sane(a) && a.state.Dialing? && !a.asked
    ensures Sane(a.(asked := true, trace := a.trace + [Retried]))
  {
    TraceMore(a.trace, Retried);
  }

  lemma DialSane(a: Agent)
    requires Sane(a) && a.state.Idle?
    ensures Sane(a.(state := Dialing, asked := false))
  {
  }

  lemma UnpendedSane(a: Agent)
    requires Sane(a) && a.link.Some?
    ensures Sane(a.(link := Some(a.link.value.(ackPending := false))))
  {
  }

  // Linked while a call is coming up
  lemma LinkedSane(a: Agent, pending: bool, st: Stimulus)
    requires Sane(a) && (a.state.Trying? || a.state.Dialing?)
    ensures a.link.None?
    ensures Sane(Emitting(a.(link := Some(Link(false, pending))), Connected, Connect, st))
  {
    hide Ordered, Below, OneEnd, OneRetry, NoEnd, NoRetry;
    BelowMore(a.trace, Limit(a.state), 1);
    TraceMore(a.trace, Emitted(Connect, a.state, st));
    BelowMore(a.trace, Limit(a.state), 2);
  }

  lemma {:induction false} HandleSane(a: Agent, st: Stimulus)
    requires Sane(a)
    ensures Sane(Handle(a, st))
    decreases st, 1
  {
    hide Sane, Emitting;
    match st {
      case DialEvent(made) =>
        if a.state.Idle? {
          DialSane(a);
        }
      case InviteRequest(answered, after) =>
        if a.state.Idle? && answered {
          IdleLink(a);
          EmittingSane(a, Trying, Dial, st);
          AllSane(Emitting(a, Trying, Dial, st), after);
        }
      case ConnectEvent(code, accepted, within) =>
        if a.state.Trying? {
          LinkedSane(a, true, st);
          AllSane(Emitting(a.(link := Some(Link(false, true))), Connected, Connect, st), within);
        }
      case DisconnectEvent(status, done, next) =>
        DisconnectSane(a, st);
      case ByeRequest(matches, told) =>
        if a.state.Connected? && a.link.Some? {
          ConnectedLink(a);
          EndingSane(a, PeerBye, st);
          AllSane(Emitting(a.(link := Some(Link(true, false)), trace := a.trace + [PeerBye]),
                           Disconnected, Disconnect, st), told);
        }
      case Response(scode, canRetry, linked, later) =>
        ResponseSane(a, st);
      case NoAck(asks, keep, byeMade, first, last) =>
        NoAckSane(a, st);
    }
  }

  lemma IdleLink(a: Agent)
    requires Sane(a) && !a.state.Connected? && !a.state.Disconnected?
    ensures a.link.None?
  {
  }

  lemma ConnectedLink(a: Agent)
    requires Sane(a) && a.state.Connected? && a.link.Some?
    ensures !a.link.value.ended
  {
  }

  lemma {:induction false} DisconnectSane(a: Agent, st: Stimulus)
    requires Sane(a) && st.DisconnectEvent?
    ensures Sane(Handle(a, st))
    decreases st, 0
  {
    hide Sane, Emitting;
    if a.state.Trying? || a.state.Dialing? {
      IdleLink(a);
      EmittingSane(a, Disconnected, Disconnect, st);
      AllSane(Emitting(a, Disconnected, Disconnect, st), st.next);
    } else if a.state.Connected? && a.link.Some? {
      ConnectedLink(a);
      EndingSane(a, Bye, st);
      AllSane(Emitting(HangUp(a, true), Disconnected, Disconnect, st), st.next);
    }
  }

  lemma {:induction false} ResponseSane(a: Agent, st: Stimulus)
    requires Sane(a) && st.Response?
    ensures Sane(Handle(a, st))
    decreases st, 0
  {
    hide Sane, Emitting;
    if a.state.Dialing? {
      IdleLink(a);
      if !a.asked {
        RetriedSane(a);
      }
      LinkedSane(a, false, st);
      EmittingSane(a, Disconnected, Disconnect, st);
      AllSane(Emitting(a.(link := Some(Link(false, false))), Connected, Connect, st), st.later);
      AllSane(Emitting(a, Disconnected, Disconnect, st), st.later);
    }
  }

  lemma {:induction false} NoAckSane(a: Agent, st: Stimulus)
    requires Sane(a) && st.NoAck?
    ensures Sane(Handle(a, st))
    decreases st, 0
  {
    hide Sane, Emitting;
    if a.link.Some? && a.link.value.ackPending {
      var b := a.(link := Some(a.link.value.(ackPending := false)));
      UnpendedSane(a);
      var c := b;
      if st.asks {
        AllSane(b, st.first);
        c := HandleAll(b, st.first);
      }
      AllLinked(b, st.first);
      if !(st.asks && st.keep) {
        LastSane(c, st.byeMade, st.last, st);
      }
    }
  }

  // The dialog's own end when the ACK never came, from wherever the callback
  // before it left the agent
  lemma {:induction false} LastSane(c: Agent, byeMade: bool, last: seq<Stimulus>, st: Stimulus)
    requires Sane(c) && c.link.Some? && !c.link.value.ackPending
    ensures var d := HangUp(c, byeMade);
      Sane(if d.state.Connected? then HandleAll(Emitting(d, Disconnected, Disconnect, st), last) else d)
    decreases last, 1
  {
    hide Sane, Emitting;
    var d := HangUp(c, byeMade);
    if c.state.Connected? {
      ConnectedLink(c);
      if byeMade {
        EndingSane(c, Bye, st);
      } else {
        EmittingSane(c, Disconnected, Disconnect, st);
      }
      AllSane(Emitting(d, Disconnected, Disconnect, st), last);
    } else {
      LinkedState(c);
      GoneSane(c, byeMade);
    }
  }

  lemma LinkedState(c: Agent)
    requires Sane(c) && c.link.Some?
    ensures c.state.Connected? || c.state.Disconnected?
  {
  }

  // A BYE tried for a call that was disconnected without one
  lemma GoneSane(c: Agent, byeMade: bool)
    requires Sane(c) && c.link.Some? && c.state.Disconnected?
    ensures Sane(HangUp(c, byeMade))
  {
    TraceMore(c.trace, Bye);
  }

  lemma {:induction false} AllLinked(a: Agent, sts: seq<Stimulus>)
    requires a.link.Some? && !a.link.value.ackPending && (a.state.Connected? || a.state.Disconnected?)
    ensures var b := HandleAll(a, sts);
      b.link.Some? && !b.link.value.ackPending && (b.state.Connected? || b.state.Disconnected?)
    decreases sts
  {
    if sts != [] {
      OneLinked(a, sts[0]);
      AllLinked(Handle(a, sts[0]), sts[1..]);
    }
  }

  lemma {:induction false} OneLinked(a: Agent, st: Stimulus)
    requires a.link.Some? && !a.link.value.ackPending && (a.state.Connected? || a.state.Disconnected?)
    ensures var b := Handle(a, st);
      b.link.Some? && !b.link.value.ackPending && (b.state.Connected? || b.state.Disconnected?)
    decreases st
  {
    if a.state.Connected? {
      match st {
        case DisconnectEvent(status, done, next) =>
          AllLinked(Emitting(HangUp(a, true), Disconnected, Disconnect, st), next);
        case ByeRequest(matches, told) =>
          AllLinked(Emitting(a.(link := Some(Link(true, false)), trace := a.trace + [PeerBye]),
                             Disconnected, Disconnect, st), told);
        case _ =>
      }
    }
  }

  lemma {:induction false} AllSane(a: Agent, sts: seq<Stimulus>)
    requires Sane(a)
    ensures Sane(HandleAll(a, sts))
    decreases sts, 0
  {
    hide Sane;
    if sts != [] {
      HandleSane(a, sts[0]);
      AllSane(Handle(a, sts[0]), sts[1..]);
    }
  }

  // Any history of a user agent: the application hears of DIAL, CONNECT and
  // DISCONNECT in that order, each at most once; the dialog ends once at most,
  // so there is one BYE of ours at most and none after the peer's; and a
  // challenge is answered once.
  lemma AgentOrdered(sts: seq<Stimulus>)
    ensures var t := HandleAll(NEW, sts).trace;
      && (forall j, k :: 0 <= j < k < |t| && t[j].Emitted? && t[k].Emitted? ==>
            Rank(t[j].what) < Rank(t[k].what))
      && (forall j, k :: 0 <= j < k < |t| ==> !(Ends(t[j]) && Ends(t[k])))
      && (forall j, k :: 0 <= j < k < |t| ==> !(t[j].Retried? && t[k].Retried?))
  {
    NewSane();
    AllSane(NEW, sts);
  }

  // Nothing leads out of being disconnected, or has any effect there
  lemma DisconnectedForGood(sts: seq<Stimulus>, st: Stimulus)
    requires HandleAll(NEW, sts).state.Disconnected?
    ensures Handle(HandleAll(NEW, sts), st) == HandleAll(NEW, sts)
  {
    NewSane();
    AllSane(NEW, sts);
  }
}
