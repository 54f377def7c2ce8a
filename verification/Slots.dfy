// One transaction slot (struct usipy_sip_tm_txi) and what the transaction
// manager does to a single slot, without looking at any other one.
module Slots {
  import opened Base
  import Uri

  datatype Role = Client | Server

  datatype TxState =
    | Nil | Calling | Trying | Proceeding | Completed | Confirmed | Terminated | Accepted

  // Any other method goes by its number, and those without one by 0
  datatype Method = ACK | BYE | CANCEL | INVITE | OTHER(kind: nat)

  datatype TimerKind =
    | NoTimer | TimerD | TimerF | TimerH | TimerI | TimerJ | TimerK | TimerL

  // A timer policy with its base timers resolved; a derived timer left 0 is
  // computed from the base ones.
  datatype Policy = Policy(
    t1: nat, t2: nat, t4: nat,
    a: nat, b: nat, d: nat, e: nat, f: nat, j: nat, k: nat, l: nat)

  datatype CancelState = NotCancelled | Scheduled | OnWire

  datatype TimeoutId = NoTimeout | NoResponse | NoFinal

  // Runtime of an outgoing INVITE (struct usipy_sip_tm_uac_invite)
  datatype InviteRun = InviteRun(
    timeoutAt: Deadline, provisional: bool, cancel: CancelState,
    timeoutId: TimeoutId, byeStarted: bool, appCancelled: bool)

  // What identifies a request on the wire. The Request-URI is as it was
  // parsed; the other strings are left abstract. A branch of 0 is one not
  // chosen yet.
  datatype Ident = Ident(callId: nat, fromTag: nat, branch: nat, cseq: nat, uri: Uri.SipUri)

  datatype Flags = Flags(reliable: bool, terminated: bool, abandoned: bool, acked: bool)

  // The application's part in a transaction: `owned` is history, telling one
  // it asked for from one the transaction manager made by itself.
  datatype App = App(owned: bool, response: bool, timeout: bool)

  // What only a server transaction has
  datatype ServerSide = ServerSide(
    status: nat, ackable: bool, onCancel: bool, noAck: bool, localTag: nat, owner: Option<nat>)

  // `gen` and `attempt` are history: which life of the slot this is, and how
  // many times it was restarted.
  datatype Slot = Slot(
    active: bool, gen: nat, attempt: nat, app: App,
    role: Role, verb: Method, state: TxState, flags: Flags,
    ident: Ident, matchable: bool,
    sends: nat, createdAt: nat,
    timer: TimerKind, due: Deadline, policy: Policy,
    built: bool, nextSend: Deadline,
    parent: Option<nat>, child: Option<nat>,
    invite: Option<InviteRun>, expires: nat,
    finalReported: bool, server: ServerSide)

  const NO_POLICY := Policy(0, 0, 0, 0, 0, 0, 0, 0, 0, 0, 0)
  const NO_IDENT := Ident(0, 0, 0, 0, Uri.NO_URI)
  const NO_APP := App(false, false, false)
  const NO_FLAGS := Flags(false, false, false, false)
  const NO_SERVER := ServerSide(0, false, false, false, 0, None)
  const NEW_INVITE := InviteRun(Never, false, NotCancelled, NoTimeout, false, false)

  // A slot as reset
  const EMPTY := Slot(
    false, 0, 0, NO_APP, Client, OTHER(0), Nil, NO_FLAGS,
    NO_IDENT, false, 0, 0, NoTimer, At(0), NO_POLICY, false, Never,
    None, None, None, 0, false, NO_SERVER)

  predicate Generic(m: Method) {
    m == OTHER(0)
  }

  predicate LiveClient(s: Slot) {
    s.active && s.role.Client?
  }

  predicate IsInvite(s: Slot) {
    s.verb.INVITE?
  }

  // The identity of a request made from another one: the Request-URI is
  // printed and parsed again, if it can be
  predicate Copies(id: Ident) {
    Uri.Reprinted(id.uri).Some?
  }

  function CopyOf(id: Ident): Ident {
    match Uri.Reprinted(id.uri)
    case Some(u) => id.(uri := u)
    case None => id
  }

  // --- Timer values

  // Base timers left 0 are those of RFC 3261, section 17.1.1.1
  function Resolve(p: Policy): Policy {
    p.(t1 := if p.t1 == 0 then 500 else p.t1,
       t2 := if p.t2 == 0 then 4000 else p.t2,
       t4 := if p.t4 == 0 then 5000 else p.t4)
  }

  function CleanupMs(p: Policy): nat { 64 * p.t1 }

  function TimerBMs(p: Policy): nat { if p.b != 0 then p.b else 64 * p.t1 }

  function TimerDMs(p: Policy): nat { if p.d != 0 then p.d else p.t4 }

  function TimerKMs(p: Policy): nat { if p.k != 0 then p.k else p.t4 }

  function TimerFMs(p: Policy): nat { if p.f != 0 then p.f else 64 * p.t1 }

  // The server side computes 64*T1 in 32 bits, unchecked
  function TimerHMs(p: Policy): nat { (64 * p.t1) % 0x1_0000_0000 }

  function TimerLMs(p: Policy): nat { if p.l != 0 then p.l else TimerHMs(p) }

  function TimerJMs(p: Policy): nat { if p.j != 0 then p.j else TimerHMs(p) }

  function InviteBase(p: Policy): nat { if p.a != 0 then p.a else p.t1 }

  function OtherBase(p: Policy): nat { if p.e != 0 then p.e else p.t1 }

  // `delay <<= 1`, n - 1 times, in 64 bits
  function Doubled(base: nat, n: nat): nat {
    if n <= 1 then base else (2 * Doubled(base, n - 1)) % 0x1_0000_0000_0000_0000
  }

  function InviteDelay(p: Policy, sends: nat): nat {
    Doubled(InviteBase(p), sends) % 0x1_0000_0000
  }

  // The loop of a request other than INVITE: i counts up to `sends`, and the
  // delay never gets past T2 once it has been doubled.
  function OtherDelayFrom(delay: nat, t2: nat, i: nat, sends: nat): nat
    decreases sends - i
  {
    if i >= sends then delay
    else if 2 * delay >= t2 then t2
    else OtherDelayFrom(2 * delay, t2, i + 1, sends)
  }

  function OtherDelay(p: Policy, sends: nat): nat {
    OtherDelayFrom(OtherBase(p), p.t2, 1, sends)
  }

  function ServerInviteDelay(p: Policy, sends: nat): nat {
    var shift := if sends > 0 then sends - 1 else 0;
    if shift >= 31 then p.t2 else Min(p.t1 * Pow2(shift), p.t2)
  }

  // --- Field updates shared by the client paths

  function ClearTimer(s: Slot): Slot {
    s.(timer := NoTimer, due := At(0))
  }

  function ClearInviteTimeout(s: Slot): Slot {
    if s.invite.None? then s
    else s.(invite := Some(s.invite.value.(timeoutAt := Never, timeoutId := NoTimeout)))
  }

  function MarkTerminated(s: Slot): Slot {
    s.(state := Terminated, flags := s.flags.(terminated := true), nextSend := Never)
  }

  function ReleaseOutbound(s: Slot): Slot {
    s.(matchable := false, built := false, nextSend := Never)
  }

  function FinishAbandoned(s: Slot): Slot {
    ReleaseOutbound(ClearInviteTimeout(MarkTerminated(s)))
  }

  // What terminate_child does to the child itself
  function RetireChild(s: Slot): Slot {
    ReleaseOutbound(
      ClearInviteTimeout(ClearTimer(MarkTerminated(s))).(parent := None, child := None))
  }

  function DetachCallbacks(s: Slot): Slot {
    ClearInviteTimeout(s.(app := s.app.(response := false, timeout := false),
                          flags := s.flags.(abandoned := true)))
  }

  function InviteTimeout(s: Slot): Deadline {
    if s.invite.None? then Never else s.invite.value.timeoutAt
  }

  function TimerDeadline(s: Slot): Deadline {
    if s.timer.NoTimer? then Never else s.due
  }

  // The earliest moment a client slot has anything to do
  function Wake(s: Slot): Deadline {
    Earliest(Earliest(s.nextSend, InviteTimeout(s)), TimerDeadline(s))
  }

  predicate WaitsForInviteAck(s: Slot) {
    IsInvite(s) && s.child.Some? && s.timer.TimerD?
  }

  function ArmCleanup(s: Slot, now: nat): Slot {
    if s.invite.None? || !s.flags.abandoned || s.invite.value.timeoutAt.At? then s
    else if (s.state.Calling? && s.invite.value.cancel.Scheduled?)
      || (s.state.Proceeding? && s.invite.value.cancel.OnWire?)
    then s.(invite := Some(s.invite.value.(timeoutAt := At(now + CleanupMs(s.policy)))))
    else s
  }

  // A send that got through
  function NoteSend(s: Slot, now: nat): Slot {
    s.(createdAt := if s.createdAt == 0 && s.sends == 0 then now else s.createdAt,
       sends := (s.sends + 1) % 256)
  }

  function ArmTimerB(s: Slot, now: nat): Slot {
    if s.invite.Some? && s.invite.value.timeoutAt.Never?
    then s.(invite := Some(s.invite.value.(
              timeoutAt := At(now + TimerBMs(s.policy)), timeoutId := NoResponse)))
    else s
  }

  function PostSendInvite(s: Slot, now: nat): Slot {
    if WaitsForInviteAck(s) then s.(nextSend := Never)
    else
      var t := ArmTimerB(s, now);
      if t.flags.reliable || (t.invite.Some? && t.invite.value.provisional)
      then t.(nextSend := Never)
      else t.(nextSend := At(now + InviteDelay(t.policy, t.sends)))
  }

  function PostSendOther(s: Slot, now: nat): Slot {
    var t := if s.timer.NoTimer?
             then s.(timer := TimerF, due := At(now + TimerFMs(s.policy)))
             else s;
    if t.flags.reliable then t.(nextSend := Never)
    else t.(nextSend := At(now + OtherDelay(t.policy, t.sends)))
  }

  // --- A response heard, before anything else is done about it

  // Any response ends the retransmissions
  function Quiet(s: Slot): Slot {
    s.(nextSend := Never, built := false)
  }

  // A provisional response to an INVITE: ringing, so its Expires takes over
  // from Timer B the first time
  function Ringing(s: Slot): Slot
    requires s.invite.Some?
  {
    var v := s.invite.value;
    s.(state := Proceeding,
       invite := Some(v.(
         timeoutAt := if !v.provisional && v.timeoutAt.At?
                      then At(s.createdAt + 1000 * s.expires) else v.timeoutAt,
         provisional := true,
         timeoutId := if s.flags.abandoned then v.timeoutId else NoFinal)))
  }

  // The timer a final response to an INVITE starts
  function FinalTimer(s: Slot, sclass: nat, now: nat): Slot {
    if s.finalReported && s.flags.abandoned then s
    else s.(timer := TimerD,
            due := At(now + if sclass == 2 && s.flags.abandoned
                            then CleanupMs(s.policy) else TimerDMs(s.policy)))
  }

  function InviteAnswered(s: Slot, sclass: nat, now: nat): Slot {
    FinalTimer(ClearInviteTimeout(s), sclass, now).(state := Completed)
  }

  function OtherAnswered(s: Slot, now: nat): Slot {
    ClearInviteTimeout(s).(
      timer := TimerK, due := At(now + TimerKMs(s.policy)),
      state := Completed, finalReported := true)
  }

  // --- Restarting a transaction with the next CSeq

  datatype Build = Built | IdsOnly | NoIds

  predicate MayRestart(s: Slot) {
    s.state.Terminated? || s.state.Completed?
  }

  function Restart(s: Slot, b: Build): Slot {
    s.(state := Calling, flags := s.flags.(terminated := false),
       attempt := s.attempt + 1,
       ident := s.ident.(cseq := (s.ident.cseq + 1) % 0x1_0000_0000),
       matchable := !b.NoIds?, built := b.Built?,
       sends := 0, createdAt := 0,
       timer := NoTimer, due := At(0),
       nextSend := At(0),
       invite := if s.invite.Some? then Some(NEW_INVITE) else None,
       finalReported := false)
  }

  // --- The server side of a slot

  function ServerTerminated(s: Slot): Slot {
    s.(state := Terminated, flags := s.flags.(terminated := true),
       timer := NoTimer, nextSend := Never)
  }

  // A final or provisional response accepted for sending
  function Responded(s: Slot, code: nat, noAck: bool): Slot {
    var v := s.server.(status := code, ackable := false);
    var t := s.(built := true, nextSend := At(0), server := v,
                state := if code < 200 then Proceeding else Completed);
    if code < 200 then t.(timer := NoTimer)
    else if IsInvite(s) && code < 300 then
      t.(state := Accepted, timer := TimerL, due := Never,
         server := v.(ackable := true, noAck := false))
    else if IsInvite(s) then
      t.(timer := TimerH, due := Never, server := v.(ackable := true, noAck := noAck))
    else t.(timer := NoTimer, server := v.(noAck := false))
  }

  // How long the timer started by a final response to an INVITE runs
  function AnswerTimerMs(s: Slot): nat {
    if s.timer.TimerL? then TimerLMs(s.policy) else TimerHMs(s.policy)
  }

  // Timer L runs from the first attempt to send the 2xx
  function ArmTimerL(s: Slot, now: nat): Slot {
    if s.state.Accepted? && s.due.Never?
    then s.(due := At(now + AnswerTimerMs(s))) else s
  }

  // After a response other than 2xx to an INVITE was sent: Timer H, counted
  // from the first time, and another copy later
  function RefusalSent(s: Slot, now: nat): Slot {
    var u := if s.due.Never? then s.(due := At(now + AnswerTimerMs(s))) else s;
    if u.flags.reliable then u
    else u.(nextSend := At(now + ServerInviteDelay(u.policy, u.sends)))
  }

  // After the final response to any other request was sent
  function FinalSent(s: Slot, now: nat): Slot {
    if s.flags.reliable then ServerTerminated(s)
    else s.(timer := TimerJ, due := At(now + TimerJMs(s.policy)))
  }

  // After a successful send. `again` is when the owner of an accepted INVITE
  // wants it sent again.
  function ServerSent(s: Slot, now: nat, again: Deadline): Slot {
    var t := NoteSend(s, now).(nextSend := Never);
    if t.state.Accepted? then
      if t.server.owner.Some? then t.(nextSend := again) else t
    else if t.server.status >= 300 && IsInvite(t) then RefusalSent(t, now)
    else if t.server.status >= 200 then FinalSent(t, now)
    else t
  }

  // The ACK of a response other than 2xx
  function ServerConfirmed(s: Slot, now: nat): Slot {
    var t := s.(nextSend := Never);
    if t.flags.reliable then ServerTerminated(t)
    else t.(state := Confirmed, timer := TimerI, due := At(now + t.policy.t4))
  }

  // --- Who can go early when the slots run out

  predicate ClientEvictable(s: Slot) {
    s.state.Completed? && s.finalReported && (s.timer.TimerD? || s.timer.TimerK?)
  }

  predicate ServerEvictable(s: Slot) {
    match s.state
    case Completed => s.timer.TimerJ?
    case Confirmed => s.timer.TimerI?
    case Accepted => s.flags.acked
    case _ => false
  }

  predicate Evictable(s: Slot) {
    s.active && s.parent.None? &&
    (s.state.Terminated? ||
     (!s.flags.abandoned && if s.role.Client? then ClientEvictable(s) else ServerEvictable(s)))
  }

  // How soon an evictable slot would go anyway
  function EvictKey(s: Slot): nat {
    if s.state.Terminated? then 0 else if s.due.Never? then TIME_NONE else s.due.ms
  }
}
