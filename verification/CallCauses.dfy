module CallCauses {
  // What a user agent tells the application, and what leads to it: nothing is
  // told without its cause, and no cause goes untold.

  import opened Base
  import opened CallStates

  predicate HasRetried(t: seq<Trace>) {
    exists j :: 0 <= j < |t| && t[j].Retried?
  }

  predicate Challenge(code: nat) {
    code == 401 || code == 407
  }

  // A call comes up by a 2xx to our INVITE, with a dialog made for it, or by
  // our own 2xx, accepted
  predicate ConnectCause(from: State, why: Stimulus) {
    || (from == Dialing && why.Response? && 200 <= why.scode <= 299 && why.linked)
    || (from == Trying && why.ConnectEvent? && (why.code == 0 || 200 <= why.code <= 299)
        && why.accepted)
  }

  // It ends, or does not come up, by a refusal of either side, the first
  // challenge excepted if it can be answered; by either side hanging up; or
  // for want of an ACK
  predicate DisconnectCause(past: seq<Trace>, from: State, why: Stimulus) {
    match from
    case Trying => why.DisconnectEvent? && (why.status == 0 || why.status >= 300) && why.done
    case Dialing =>
      || (why.DisconnectEvent? && why.done)
      || (why.Response? && why.scode >= 300
          && (Challenge(why.scode) && why.canRetry ==> HasRetried(past)))
    case Connected =>
      || (why.DisconnectEvent? && why.done)
      || (why.ByeRequest? && why.matches)
      || (why.NoAck? && !(why.asks && why.keep))
    case _ => false
  }

  predicate Caused(past: seq<Trace>, e: Trace) {
    match e
    case Emitted(Dial, from, why) => from == Idle && why.InviteRequest? && why.answered
    case Emitted(Connect, from, why) => ConnectCause(from, why)
    case Emitted(Disconnect, from, why) => DisconnectCause(past, from, why)
    case _ => true
  }

  predicate AllCaused(t: seq<Trace>) {
    forall k {:trigger Caused(t[..k], t[k])} :: 0 <= k < |t| ==> Caused(t[..k], t[k])
  }

  predicate Grounded(a: Agent) {
    && Sane(a) && AllCaused(a.trace)
    && (a.state.Dialing? && a.asked ==> HasRetried(a.trace))
    && (a.state.Connected? ==> a.link.Some?)
  }

  lemma CausedMore(t: seq<Trace>, e: Trace)
    requires AllCaused(t) && Caused(t, e)
    ensures AllCaused(t + [e])
  {
    hide Caused;
    var m := t + [e];
    forall k | 0 <= k < |m| ensures Caused(m[..k], m[k]) {
      if k < |t| {
        assert m[..k] == t[..k] && m[k] == t[k];
      } else {
        assert m[..k] == t;
      }
    }
  }

  lemma EmittingGrounded(a: Agent, b: Agent, s: State, e: Emit, st: Stimulus)
    requires AllCaused(a.trace) && Caused(a.trace, Emitted(e, a.state, st))
    requires b == Emitting(a, s, e, st) && Sane(b) && !s.Dialing? && (s.Connected? ==> a.link.Some?)
    ensures Grounded(b)
  {
    hide Caused, AllCaused, Sane;
    CausedMore(a.trace, Emitted(e, a.state, st));
  }

  // The end of the dialog on record before
  lemma EndedCaused(t: seq<Trace>, e: Trace)
    requires AllCaused(t) && !e.Emitted?
    ensures AllCaused(t + [e])
  {
    hide AllCaused;
    CausedMore(t, e);
  }

  lemma {:induction false} AllGrounded(a: Agent, sts: seq<Stimulus>)
    requires Grounded(a)
    ensures Grounded(HandleAll(a, sts))
    decreases sts, 0
  {
    hide Grounded;
    if sts != [] {
      HandleGrounded(a, sts[0]);
      AllGrounded(Handle(a, sts[0]), sts[1..]);
    }
  }

  lemma {:induction false} HandleGrounded(a: Agent, st: Stimulus)
    requires Grounded(a)
    ensures Grounded(Handle(a, st))
    decreases st, 1
  {
    hide Sane, AllCaused;
    match st {
      case DialEvent(made) =>
        HandleSane(a, st);
      case InviteRequest(answered, after) =>
        if a.state.Idle? && answered {
          IdleLink(a);
          EmittingSane(a, Trying, Dial, st);
          EmittingGrounded(a, Emitting(a, Trying, Dial, st), Trying, Dial, st);
          AllGrounded(Emitting(a, Trying, Dial, st), after);
        }
      case ConnectEvent(code, accepted, within) =>
        if a.state.Trying? && (code == 0 || 200 <= code <= 299) && accepted {
          LinkedSane(a, true, st);
          var l := a.(link := Some(Link(false, true)));
          EmittingGrounded(l, Emitting(l, Connected, Connect, st), Connected, Connect, st);
          AllGrounded(Emitting(l, Connected, Connect, st), within);
        }
      case DisconnectEvent(status, done, next) =>
        DisconnectGrounded(a, st);
      case ByeRequest(matches, told) =>
        if a.state.Connected? && matches {
          ConnectedLink(a);
          EndingSane(a, PeerBye, st);
          EndedCaused(a.trace, PeerBye);
          var l := a.(link := Some(Link(true, false)), trace := a.trace + [PeerBye]);
          EmittingGrounded(l, Emitting(l, Disconnected, Disconnect, st), Disconnected, Disconnect, st);
          AllGrounded(Emitting(l, Disconnected, Disconnect, st), told);
        }
      case Response(scode, canRetry, linked, later) =>
        ResponseGrounded(a, st);
      case NoAck(asks, keep, byeMade, first, last) =>
        NoAckGrounded(a, st);
    }
  }

  lemma {:induction false} DisconnectGrounded(a: Agent, st: Stimulus)
    requires Grounded(a) && st.DisconnectEvent?
    ensures Grounded(Handle(a, st))
    decreases st, 0
  {
    hide Sane, AllCaused;
    if a.state.Trying? || a.state.Dialing? {
      IdleLink(a);
      EmittingSane(a, Disconnected, Disconnect, st);
      if st.done && (a.state.Dialing? || st.status == 0 || st.status >= 300) {
        EmittingGrounded(a, Emitting(a, Disconnected, Disconnect, st), Disconnected, Disconnect, st);
        AllGrounded(Emitting(a, Disconnected, Disconnect, st), st.next);
      }
    } else if a.state.Connected? && st.done {
      ConnectedLink(a);
      EndingSane(a, Bye, st);
      EndedCaused(a.trace, Bye);
      var l := HangUp(a, true);
      EmittingGrounded(l, Emitting(l, Disconnected, Disconnect, st), Disconnected, Disconnect, st);
      AllGrounded(Emitting(l, Disconnected, Disconnect, st), st.next);
    }
  }

  lemma {:induction false} ResponseGrounded(a: Agent, st: Stimulus)
    requires Grounded(a) && st.Response?
    ensures Grounded(Handle(a, st))
    decreases st, 0
  {
    hide Sane, AllCaused;
    if a.state.Dialing? && st.scode >= 200 {
      IdleLink(a);
      if Challenge(st.scode) && st.canRetry && !a.asked {
        RetriedSane(a);
        EndedCaused(a.trace, Retried);
        assert (a.trace + [Retried])[|a.trace|].Retried?;
      } else if st.scode < 300 {
        if st.linked {
          LinkedSane(a, false, st);
          var l := a.(link := Some(Link(false, false)));
          EmittingGrounded(l, Emitting(l, Connected, Connect, st), Connected, Connect, st);
          AllGrounded(Emitting(l, Connected, Connect, st), st.later);
        }
      } else {
        EmittingSane(a, Disconnected, Disconnect, st);
        EmittingGrounded(a, Emitting(a, Disconnected, Disconnect, st), Disconnected, Disconnect, st);
        AllGrounded(Emitting(a, Disconnected, Disconnect, st), st.later);
      }
    }
  }

  lemma {:induction false} NoAckGrounded(a: Agent, st: Stimulus)
    requires Grounded(a) && st.NoAck?
    ensures Grounded(Handle(a, st))
    decreases st, 0
  {
    hide Sane, AllCaused;
    if a.link.Some? && a.link.value.ackPending {
      var b := a.(link := Some(a.link.value.(ackPending := false)));
      UnpendedSane(a);
      LinkedState(a);
      var c := b;
      if st.asks {
        AllGrounded(b, st.first);
        c := HandleAll(b, st.first);
      }
      AllLinked(b, st.first);
      if !(st.asks && st.keep) {
        LastGrounded(c, st);
      }
    }
  }

  lemma {:induction false} LastGrounded(c: Agent, st: Stimulus)
    requires Grounded(c) && c.link.Some? && !c.link.value.ackPending
    requires st.NoAck? && !(st.asks && st.keep)
    ensures var d := HangUp(c, st.byeMade);
      Grounded(if d.state.Connected? then HandleAll(Emitting(d, Disconnected, Disconnect, st), st.last) else d)
    decreases st.last, 1
  {
    hide Sane, AllCaused;
    var d := HangUp(c, st.byeMade);
    if c.state.Connected? {
      ConnectedLink(c);
      if st.byeMade {
        EndingSane(c, Bye, st);
        EndedCaused(c.trace, Bye);
      } else {
        EmittingSane(c, Disconnected, Disconnect, st);
      }
      EmittingGrounded(d, Emitting(d, Disconnected, Disconnect, st), Disconnected, Disconnect, st);
      AllGrounded(Emitting(d, Disconnected, Disconnect, st), st.last);
    } else {
      LinkedState(c);
      GoneSane(c, st.byeMade);
      EndedCaused(c.trace, Bye);
    }
  }

  lemma HistoryGrounded(sts: seq<Stimulus>)
    ensures Grounded(HandleAll(NEW, sts))
  {
    NewSane();
    AllGrounded(NEW, sts);
  }

  // In any history, whatever the application is told has its cause: CONNECT is
  // told of a response from 200 to 299 alone, with a dialog made, or of an
  // answer of our own from 200 to 299, accepted; DISCONNECT of a refusal, of
  // either side hanging up, or of the ACK that never came.
  lemma ToldForCause(sts: seq<Stimulus>, k: nat)
    requires var t := HandleAll(NEW, sts).trace; k < |t| && t[k].Emitted?
    ensures var t := HandleAll(NEW, sts).trace;
      match t[k].what
      case Dial => t[k].from == Idle && t[k].why.InviteRequest? && t[k].why.answered
      case Connect => ConnectCause(t[k].from, t[k].why)
      case Disconnect => DisconnectCause(t[..k], t[k].from, t[k].why)
  {
    hide Sane;
    HistoryGrounded(sts);
    var t := HandleAll(NEW, sts).trace;
    assert Caused(t[..k], t[k]);
  }

  // --- No cause goes untold

  // The next thing told, of this stimulus in this state; callbacks may lead to
  // more after it
  predicate Tells(a: Agent, b: Agent, e: Emit, st: Stimulus) {
    && |a.trace| < |b.trace| && a.trace <= b.trace && b.trace[|a.trace|] == Emitted(e, a.state, st)
  }

  // ... the end of the dialog on record first
  predicate EndsAndTells(a: Agent, b: Agent, end: Trace, st: Stimulus) {
    && |a.trace| + 1 < |b.trace| && a.trace <= b.trace && b.trace[|a.trace|] == end
    && b.trace[|a.trace| + 1] == Emitted(Disconnect, a.state, st)
  }

  lemma {:induction false} AllGrow(a: Agent, sts: seq<Stimulus>)
    ensures a.trace <= HandleAll(a, sts).trace
    decreases sts, 0
  {
    if sts != [] {
      OneGrows(a, sts[0]);
      AllGrow(Handle(a, sts[0]), sts[1..]);
    }
  }

  lemma {:induction false} OneGrows(a: Agent, st: Stimulus)
    ensures a.trace <= Handle(a, st).trace
    decreases st, 1
  {
    match st {
      case InviteRequest(answered, after) => AllGrow(Emitting(a, Trying, Dial, st), after);
      case ConnectEvent(code, accepted, within) =>
        AllGrow(Emitting(a.(link := Some(Link(false, true))), Connected, Connect, st), within);
      case DisconnectEvent(status, done, next) =>
        AllGrow(Emitting(a, Disconnected, Disconnect, st), next);
        AllGrow(Emitting(HangUp(a, true), Disconnected, Disconnect, st), next);
      case ByeRequest(matches, told) =>
        AllGrow(Emitting(a.(link := Some(Link(true, false)), trace := a.trace + [PeerBye]),
                         Disconnected, Disconnect, st), told);
      case Response(scode, canRetry, linked, later) =>
        AllGrow(Emitting(a.(link := if a.link.None? then Some(Link(false, false)) else a.link),
                         Connected, Connect, st), later);
        AllGrow(Emitting(a, Disconnected, Disconnect, st), later);
      case NoAck(asks, keep, byeMade, first, last) =>
        NoAckGrows(a, st);
      case _ =>
    }
  }

  lemma {:induction false} NoAckGrows(a: Agent, st: Stimulus)
    requires st.NoAck?
    ensures a.trace <= Handle(a, st).trace
    decreases st, 0
  {
    if a.link.Some? && a.link.value.ackPending {
      var b := a.(link := Some(a.link.value.(ackPending := false)));
      AllGrow(b, st.first);
      var c := if st.asks then HandleAll(b, st.first) else b;
      AllGrow(Emitting(HangUp(c, st.byeMade), Disconnected, Disconnect, st), st.last);
    }
  }

  // While dialing: a provisional response does nothing; a 2xx connects, if a
  // dialog can be made for it, and does nothing if not; the first challenge is
  // answered, if it can be; any other final response disconnects.
  lemma WhileDialing(sts: seq<Stimulus>, st: Stimulus)
    requires HandleAll(NEW, sts).state.Dialing?
    ensures var a := HandleAll(NEW, sts); var b := Handle(a, st);
      match st
      case Response(code, canRetry, linked, _) =>
        && (code < 200 ==> b == a)
        && (200 <= code <= 299 ==> if linked then Tells(a, b, Connect, st) else b == a)
        && (code >= 300 && Challenge(code) && canRetry && !HasRetried(a.trace) ==>
              b.state.Dialing? && b.trace == a.trace + [Retried])
        && (code >= 300 && !(Challenge(code) && canRetry && !HasRetried(a.trace)) ==>
              Tells(a, b, Disconnect, st))
      case DisconnectEvent(_, done, _) => if done then Tells(a, b, Disconnect, st) else b == a
      case _ => b == a
  {
    hide Sane, AllCaused;
    HistoryGrounded(sts);
    var a := HandleAll(NEW, sts);
    IdleLink(a);
    AskedMeans(a);
    match st {
      case Response(code, canRetry, linked, later) =>
        AllGrow(Emitting(a.(link := Some(Link(false, false))), Connected, Connect, st), later);
        AllGrow(Emitting(a, Disconnected, Disconnect, st), later);
      case DisconnectEvent(_, done, next) =>
        AllGrow(Emitting(a, Disconnected, Disconnect, st), next);
      case _ =>
    }
  }

  lemma AskedMeans(a: Agent)
    requires Grounded(a) && a.state.Dialing?
    ensures a.asked <==> HasRetried(a.trace)
  {
  }

  // While trying: an answer from 200 to 299 that is accepted connects, a refusal
  // that goes out disconnects, and nothing else does anything.
  lemma WhileTrying(sts: seq<Stimulus>, st: Stimulus)
    requires HandleAll(NEW, sts).state.Trying?
    ensures var a := HandleAll(NEW, sts); var b := Handle(a, st);
      match st
      case ConnectEvent(code, accepted, _) =>
        if (code == 0 || 200 <= code <= 299) && accepted then Tells(a, b, Connect, st) else b == a
      case DisconnectEvent(status, done, _) =>
        if (status == 0 || status >= 300) && done then Tells(a, b, Disconnect, st) else b == a
      case _ => b == a
  {
    hide Sane, AllCaused;
    HistoryGrounded(sts);
    var a := HandleAll(NEW, sts);
    IdleLink(a);
    match st {
      case ConnectEvent(_, _, within) =>
        AllGrow(Emitting(a.(link := Some(Link(false, true))), Connected, Connect, st), within);
      case DisconnectEvent(_, _, next) =>
        AllGrow(Emitting(a, Disconnected, Disconnect, st), next);
      case _ =>
    }
  }

  // While connected: hanging up sends a BYE and the peer's is taken, and both
  // disconnect; nothing else does but the ACK that never comes.
  lemma WhileConnected(sts: seq<Stimulus>, st: Stimulus)
    requires HandleAll(NEW, sts).state.Connected? && !st.NoAck?
    ensures var a := HandleAll(NEW, sts); var b := Handle(a, st);
      match st
      case DisconnectEvent(_, done, _) => if done then EndsAndTells(a, b, Bye, st) else b == a
      case ByeRequest(matches, _) => if matches then EndsAndTells(a, b, PeerBye, st) else b == a
      case _ => b == a
  {
    hide Sane, AllCaused;
    HistoryGrounded(sts);
    var a := HandleAll(NEW, sts);
    ConnectedLink(a);
    match st {
      case DisconnectEvent(_, _, next) =>
        AllGrow(Emitting(HangUp(a, true), Disconnected, Disconnect, st), next);
      case ByeRequest(_, told) =>
        AllGrow(Emitting(a.(link := Some(Link(true, false)), trace := a.trace + [PeerBye]),
                         Disconnected, Disconnect, st), told);
      case _ =>
    }
  }

  // The ACK that never came: the call is over, unless the application keeps it;
  // one acknowledged, or ours, is left alone.
  lemma WithoutAck(sts: seq<Stimulus>, st: Stimulus)
    requires HandleAll(NEW, sts).state.Connected? && st.NoAck?
    ensures var a := HandleAll(NEW, sts); var b := Handle(a, st);
      && a.link.Some?
      && (!a.link.value.ackPending ==> b == a)
      && (a.link.value.ackPending && !(st.asks && st.keep) ==> b.state.Disconnected?)
      && (a.link.value.ackPending && st.asks && st.keep && st.first == [] ==>
            b == a.(link := Some(Link(false, false))))
  {
    hide Sane, AllCaused;
    HistoryGrounded(sts);
    var a := HandleAll(NEW, sts);
    ConnectedLink(a);
    if a.link.value.ackPending {
      var b := a.(link := Some(a.link.value.(ackPending := false)));
      AllLinked(b, st.first);
      var c := if st.asks then HandleAll(b, st.first) else b;
      AllGone(Emitting(HangUp(c, st.byeMade), Disconnected, Disconnect, st), st.last);
    }
  }

  lemma {:induction false} AllGone(a: Agent, sts: seq<Stimulus>)
    requires a.state.Disconnected?
    ensures HandleAll(a, sts).state.Disconnected?
    decreases sts, 0
  {
    if sts != [] {
      OneGone(a, sts[0]);
      AllGone(Handle(a, sts[0]), sts[1..]);
    }
  }

  lemma {:induction false} OneGone(a: Agent, st: Stimulus)
    requires a.state.Disconnected?
    ensures Handle(a, st).state.Disconnected?
    decreases st, 1
  {
    if st.NoAck? && a.link.Some? && a.link.value.ackPending {
      AllGone(a.(link := Some(a.link.value.(ackPending := false))), st.first);
    }
  }

  // While idle: an INVITE answered with a 100 is told of, a call made is not.
  lemma WhileIdle(sts: seq<Stimulus>, st: Stimulus)
    requires HandleAll(NEW, sts).state.Idle?
    ensures var a := HandleAll(NEW, sts); var b := Handle(a, st);
      match st
      case InviteRequest(answered, _) => if answered then Tells(a, b, Dial, st) else b == a
      case DialEvent(made) =>
        b.trace == a.trace && b.state == (if made then Dialing else Idle)
      case _ => b == a
  {
    hide Sane, AllCaused;
    HistoryGrounded(sts);
    var a := HandleAll(NEW, sts);
    IdleLink(a);
    if st.InviteRequest? {
      AllGrow(Emitting(a, Trying, Dial, st), st.after);
    }
  }
}
