// A user agent (sip_ua/*.c): the handlers of each state, changing the agent in
// place and calling the application back, which may call them again.
module UserAgents {
  import opened Base
  import opened CallStates

  class UserAgent {
    var state: State
    var link: Option<Link>
    var asked: bool
    ghost var trace: seq<Trace>

    ghost function View(): Agent
      reads this
    {
      Agent(state, link, asked, trace)
    }

    constructor ()
      ensures View() == NEW
    {
      state, link, asked, trace := Idle, None, false, [];
    }

    // usipy_sip_ua_transition and the callback after it, with what the
    // application does from there
    method Emit(s: State, e: CallStates.Emit, within: seq<Stimulus>, ghost st: Stimulus)
      modifies this
      ensures View() == HandleAll(Emitting(old(View()), s, e, st), within)
      decreases within, 1
    {
      trace := trace + [Emitted(e, state, st)];
      state := s;
      HappenAll(within);
    }

    method HappenAll(sts: seq<Stimulus>)
      modifies this
      ensures View() == HandleAll(old(View()), sts)
      decreases sts, 0
    {
      if sts != [] {
        Happen(sts[0]);
        HappenAll(sts[1..]);
      }
    }

    // Whatever it is, by the state the agent is in
    method Happen(st: Stimulus)
      modifies this
      ensures View() == Handle(old(View()), st)
      decreases st, 2
    {
      if st.NoAck? {
        TimerL(st);
      } else {
        match state {
          case Idle => OnIdle(st);
          case Trying => OnTrying(st);
          case Dialing => OnDialing(st);
          case Connected => OnConnected(st);
          case Disconnected =>
        }
      }
    }

    // usipy_sip_ua_idle.c
    method OnIdle(st: Stimulus)
      requires state.Idle? && !st.NoAck?
      modifies this
      ensures View() == Handle(old(View()), st)
      decreases st, 1
    {
      match st {
        case InviteRequest(answered, after) =>
          if answered {
            Emit(Trying, Dial, after, st);
          }
        case DialEvent(made) =>
          if made {
            state, asked := Dialing, false;
          }
        case _ =>
      }
    }

    // usipy_sip_ua_trying.c
    method OnTrying(st: Stimulus)
      requires state.Trying? && !st.NoAck?
      modifies this
      ensures View() == Handle(old(View()), st)
      decreases st, 1
    {
      match st {
        case ConnectEvent(code, accepted, within) =>
          var status := if code == 0 then 200 else code;
          if status < 200 || status > 299 || !accepted {
            return;
          }
          link := Some(Link(false, true));
          Emit(Connected, Connect, within, st);
        case DisconnectEvent(code, done, next) =>
          var status := if code == 0 then 487 else code;
          if status < 300 || !done {
            return;
          }
          Emit(Disconnected, Disconnect, next, st);
        case _ =>
      }
    }

    // usipy_sip_ua_dialing.c
    method OnDialing(st: Stimulus)
      requires state.Dialing? && !st.NoAck?
      modifies this
      ensures View() == Handle(old(View()), st)
      decreases st, 1
    {
      match st {
        case DisconnectEvent(_, done, next) =>
          if done {
            Emit(Disconnected, Disconnect, next, st);
          }
        case Response(scode, canRetry, linked, later) =>
          if scode < 200 {
            return;
          }
          if scode == 401 || scode == 407 {
            if !asked && canRetry {
              asked := true;
              trace := trace + [Retried];
              return;
            }
          }
          if scode < 300 {
            if link.None? {
              if !linked {
                return;
              }
              link := Some(Link(false, false));
            }
            Emit(Connected, Connect, later, st);
            return;
          }
          Emit(Disconnected, Disconnect, later, st);
        case _ =>
      }
    }

    // usipy_sip_ua_connected.c
    method OnConnected(st: Stimulus)
      requires state.Connected? && !st.NoAck?
      modifies this
      ensures View() == Handle(old(View()), st)
      decreases st, 1
    {
      match st {
        case ByeRequest(matches, told) =>
          if link.None? || !matches {
            return;
          }
          link := Some(Link(true, false));
          trace := trace + [PeerBye];
          Emit(Disconnected, Disconnect, told, st);
        case DisconnectEvent(_, done, next) =>
          if link.None? {
            return;
          }
          var ended := EndDialog(done);
          if ended {
            Emit(Disconnected, Disconnect, next, st);
          }
        case _ =>
      }
    }

    // usipy_sip_dialog_end
    method EndDialog(byeMade: bool) returns (ok: bool)
      requires link.Some?
      modifies this
      ensures View() == HangUp(old(View()), byeMade)
      ensures ok == (!old(link).value.ended && byeMade)
    {
      if link.value.ended || !byeMade {
        return false;
      }
      link := Some(Link(true, false));
      trace := trace + [Bye];
      ok := true;
    }

    // Timer L without the ACK (usipy_sip_dialog_uas_timeout), and the handler
    // of the agent (usipy_sip_ua_trying_no_ack) at its end
    method TimerL(st: Stimulus)
      requires st.NoAck?
      modifies this
      ensures View() == Handle(old(View()), st)
      decreases st, 1
    {
      if link.None? || !link.value.ackPending {
        return;
      }
      link := Some(link.value.(ackPending := false));
      if st.asks {
        HappenAll(st.first);
        if st.keep {
          return;
        }
      }
      if link.Some? {
        var _ := EndDialog(st.byeMade);
      }
      if state.Connected? {
        Emit(Disconnected, Disconnect, st.last, st);
      }
    }
  }
}
