module Theorems {
  // What any run of the transaction manager guarantees, read off its
  // invariant. Every statement is about an arbitrary run from an empty table.

  import opened Base
  import UriText
  import opened Slots
  import opened Table
  import opened ClientSteps
  import opened Links
  import opened History
  import opened HistoryKeeps
  import opened AbandonKeeps
  import opened ReceiveKeeps
  import opened Runs

  ghost predicate Reached(tm: Tm) {
    exists n, reliable, steps :: Reaches(n, reliable, steps, tm)
  }

  ghost predicate Reaches(n: nat, reliable: bool, steps: seq<Step>, tm: Tm) {
    AllowedRun(Start(n, reliable), steps) && Run(Start(n, reliable), steps) == tm
  }

  lemma ReachedInv(tm: Tm)
    requires Reached(tm)
    ensures Inv(tm)
  {
    hide Inv;
    var n, reliable, steps :| Reaches(n, reliable, steps, tm);
    StartInv(n, reliable);
    RunInv(Start(n, reliable), steps);
  }

  lemma StartReached(n: nat, reliable: bool)
    ensures Reached(Start(n, reliable))
  {
    assert Reaches(n, reliable, [], Start(n, reliable));
  }

  lemma {:induction false} RunMore(tm: Tm, steps: seq<Step>, st: Step)
    requires AllowedRun(tm, steps) && Allowed(Run(tm, steps), st)
    ensures AllowedRun(tm, steps + [st]) && Run(tm, steps + [st]) == Apply(Run(tm, steps), st)
    decreases |steps|
  {
    hide Apply, Allowed;
    if steps == [] {
      assert steps + [st] == [st] && [st][1..] == [];
    } else {
      RunMore(Apply(tm, steps[0]), steps[1..], st);
      assert (steps + [st])[1..] == steps[1..] + [st];
    }
  }

  lemma ReachedMore(tm: Tm, st: Step)
    requires Reached(tm) && Allowed(tm, st)
    ensures Reached(Apply(tm, st))
  {
    hide Apply, Allowed, AllowedRun, Run;
    var n, reliable, steps :| Reaches(n, reliable, steps, tm);
    RunMore(Start(n, reliable), steps, st);
    assert Reaches(n, reliable, steps + [st], Apply(tm, st));
  }

  lemma EventJustified(tm: Tm, k: nat)
    requires Reached(tm) && k < |tm.log|
    ensures Grounded(tm.log[..k], tm.log[k])
    ensures forall j :: 0 <= j < k ==> Compatible(tm.log[j], tm.log[k])
  {
    ReachedInv(tm);
    assert Justified(tm.log[..k], tm.log[k]);
    forall j | 0 <= j < k ensures Compatible(tm.log[j], tm.log[k]) {
      assert Compatible(tm.log[..k][j], tm.log[k]);
    }
  }

  // --- Callbacks

  // What the application is told about one attempt: provisional responses,
  // then at most one of final response and timeout; and nothing at all once
  // the INVITE was cancelled or timed out.
  lemma OneOutcome(tm: Tm, j: nat, k: nat)
    requires Reached(tm) && j < k < |tm.log| && tm.log[k].Told?
    ensures (tm.log[j].Told? && tm.log[j].gen == tm.log[k].gen
             && tm.log[j].attempt == tm.log[k].attempt) ==> tm.log[j].what.Progress?
    ensures tm.log[j] != Detached(tm.log[k].gen)
  {
    EventJustified(tm, k);
    assert Compatible(tm.log[j], tm.log[k]);
  }

  // --- CANCEL

  // An INVITE gets at most one CANCEL; it was sent before, a provisional
  // response to it was heard, and no final response to it was reported.
  lemma OneCancel(tm: Tm, k: nat)
    requires Reached(tm) && k < |tm.log| && tm.log[k].CancelMade?
    ensures var e := tm.log[k];
      && WasSent(tm.log[..k], e.gen, e.attempt, INVITE, e.ident)
      && WasHeard(tm.log[..k], e.gen, e.attempt, 1)
      && forall j :: 0 <= j < k ==>
           !(tm.log[j].CancelMade? && tm.log[j].gen == e.gen)
           && tm.log[j] != Told(e.gen, e.attempt, Final)
  {
    EventJustified(tm, k);
  }

  // A CANCEL on the wire carries the call-id, tag, branch and CSeq of an
  // INVITE that was sent, and its Request-URI printed and parsed again: the
  // same one exactly if it is good, and the same text exactly if the text of
  // the INVITE's is clean.
  lemma CancelNamesItsInvite(tm: Tm, k: nat) returns (c: nat, j: nat)
    requires Reached(tm) && k < |tm.log| && tm.log[k].Sent? && tm.log[k].verb.CANCEL?
    ensures j < c < k && tm.log[c].CancelMade? && tm.log[c].cancelGen == tm.log[k].gen
    ensures tm.log[j].Sent? && tm.log[j].verb.INVITE? && tm.log[j].gen == tm.log[c].gen
    ensures var sent, made := tm.log[j].ident, tm.log[k].ident;
      && made.callId == sent.callId && made.fromTag == sent.fromTag
      && made.branch == sent.branch && made.cseq == sent.cseq
      && Uri.Parse(Uri.Build(sent.uri)) == Some(made.uri)
      && (made.uri == sent.uri <==> Uri.GoodUri(sent.uri))
      && (Uri.Build(made.uri) == Uri.Build(sent.uri) <==> UriText.CleanUri(Uri.Build(sent.uri)))
  {
    hide Uri.Build, Uri.Parse, Uri.GoodUri, UriText.CleanUri;
    var e := tm.log[k];
    EventJustified(tm, k);
    c :| 0 <= c < k && IsCancel(tm.log[..k][c], e.gen, e.ident);
    EventJustified(tm, c);
    var d := tm.log[c];
    assert tm.log[..k][c] == d;
    j :| 0 <= j < c && IsRequest(tm.log[..c][j], d.gen, d.attempt, INVITE, d.ident);
    assert tm.log[..c][j] == tm.log[j];
    Uri.UriTrips(d.ident.uri);
    UriText.TextTrips(Uri.Build(d.ident.uri));
  }

  // --- ACK

  // An ACK on the wire carries the call-id, tag and CSeq of an INVITE that was
  // sent, and answers a final response to it that was heard: for a 2xx at its
  // Contact and with a branch of its own, for any other one with the INVITE's
  // branch and its Request-URI printed and parsed again.
  lemma AckNamesItsInvite(tm: Tm, k: nat) returns (b: nat, j: nat)
    requires Reached(tm) && k < |tm.log| && tm.log[k].Sent? && tm.log[k].verb.ACK?
    ensures j < b < k && tm.log[b].AckBuilt? && tm.log[b].ackGen == tm.log[k].gen
    ensures tm.log[j].Sent? && tm.log[j].verb.INVITE?
            && tm.log[j].gen == tm.log[b].gen && tm.log[j].attempt == tm.log[b].attempt
    ensures Heard(tm.log[b].gen, tm.log[b].attempt, tm.log[b].sclass, tm.log[b].contact) in tm.log[..b]
    ensures var sent, made := tm.log[j].ident, tm.log[k].ident;
      && made.callId == sent.callId && made.fromTag == sent.fromTag && made.cseq == sent.cseq
      && if tm.log[b].sclass == 2
         then made.uri == tm.log[b].contact && made.branch == tm.log[b].branch
         else made.branch == sent.branch && Uri.Parse(Uri.Build(sent.uri)) == Some(made.uri)
  {
    hide Uri.Build, Uri.Parse;
    var e := tm.log[k];
    EventJustified(tm, k);
    b :| 0 <= b < k && IsAckBuilt(tm.log[..k][b], e.gen, e.ident);
    EventJustified(tm, b);
    var d := tm.log[b];
    assert tm.log[..k][b] == d;
    j :| 0 <= j < b && IsRequest(tm.log[..b][j], d.gen, d.attempt, INVITE, d.ident);
    assert tm.log[..b][j] == tm.log[j];
  }

  // --- CSeq

  // What one transaction sends is one request: each attempt at it has the next
  // CSeq, so no two attempts share one; and copies of one attempt are the same.
  lemma NextCseq(tm: Tm, j: nat, k: nat)
    requires Reached(tm) && j < k < |tm.log| && tm.log[j].Sent? && tm.log[k].Sent?
    requires tm.log[j].gen == tm.log[k].gen
    ensures var d, e := tm.log[j], tm.log[k];
      && d.attempt <= e.attempt && e.verb == d.verb
      && e.ident.callId == d.ident.callId && e.ident.fromTag == d.ident.fromTag
      && (e.attempt == d.attempt ==> e.ident == d.ident)
      && (e.attempt > d.attempt ==>
            e.ident.cseq == (d.ident.cseq + (e.attempt - d.attempt)) % 0x1_0000_0000)
      && ((e.attempt - d.attempt) % 0x1_0000_0000 != 0 ==> e.ident.cseq != d.ident.cseq)
  {
    EventJustified(tm, k);
    var d, e := tm.log[j], tm.log[k];
    assert Compatible(d, e);
    CseqMoves(d.ident.cseq, e.attempt - d.attempt);
  }

  lemma CseqMoves(c: nat, n: nat)
    ensures n % 0x1_0000_0000 != 0 ==> (c + n) % 0x1_0000_0000 != c
  {
    var m := 0x1_0000_0000;
    if (c + n) % m == c {
      assert c < m && c + n == m * ((c + n) / m) + c;
      assert n == m * ((c + n) / m);
    }
  }

  // --- The BYE of an abandoned call that was answered

  // At most one BYE is made for an INVITE, it was not sent before it was
  // made, and when it is sent its ACK was.
  lemma ByeAfterAck(tm: Tm, k: nat)
    requires Reached(tm) && k < |tm.log| && tm.log[k].ByeMade?
    ensures forall j :: 0 <= j < |tm.log| && j != k && tm.log[j].ByeMade? ==>
              tm.log[j].gen != tm.log[k].gen
    ensures forall j :: 0 <= j < |tm.log| && tm.log[j].Sent? && tm.log[j].gen == tm.log[k].byeGen ==>
              k < j && SentBy(tm.log[..j], tm.log[k].ackGen)
  {
    forall j | 0 <= j < |tm.log| && j != k && tm.log[j].ByeMade?
      ensures tm.log[j].gen != tm.log[k].gen
    {
      EventJustified(tm, j);
      EventJustified(tm, k);
      assert j < k ==> Compatible(tm.log[j], tm.log[k]);
      assert k < j ==> Compatible(tm.log[k], tm.log[j]);
    }
    forall j | 0 <= j < |tm.log| && tm.log[j].Sent? && tm.log[j].gen == tm.log[k].byeGen
      ensures k < j && SentBy(tm.log[..j], tm.log[k].ackGen)
    {
      EventJustified(tm, k);
      EventJustified(tm, j);
      assert j < k ==> Compatible(tm.log[j], tm.log[k]);
      if k < j {
        assert tm.log[..j][k] == tm.log[k];
      }
    }
  }

  // Whatever is sent as that BYE carries the call-id and tag of the INVITE that
  // was sent, the CSeq after its own, the branch given, and the Contact of a
  // 2xx heard.
  lemma ByeNamesItsInvite(tm: Tm, b: nat, k: nat) returns (j: nat)
    requires Reached(tm) && b < |tm.log| && k < |tm.log| && tm.log[b].ByeMade?
    requires tm.log[k].Sent? && tm.log[k].gen == tm.log[b].byeGen
    ensures j < b < k && tm.log[j].Sent? && tm.log[j].verb.INVITE?
            && tm.log[j].gen == tm.log[b].gen && tm.log[j].attempt == tm.log[b].attempt
    ensures Heard(tm.log[b].gen, tm.log[b].attempt, 2, tm.log[b].contact) in tm.log[..b]
    ensures var sent, made := tm.log[j].ident, tm.log[k].ident;
      && tm.log[k].verb.BYE? && made.callId == sent.callId && made.fromTag == sent.fromTag
      && made.cseq == (sent.cseq + 1) % 0x1_0000_0000
      && made.uri == tm.log[b].contact && made.branch == tm.log[b].branch
  {
    var d := tm.log[b];
    ByeAfterAck(tm, b);
    EventJustified(tm, k);
    assert Compatible(d, tm.log[k]);
    EventJustified(tm, b);
    j :| 0 <= j < b && IsRequest(tm.log[..b][j], d.gen, d.attempt, INVITE, d.ident);
    assert tm.log[..b][j] == tm.log[j];
  }

  // The ACK of a 2xx to an abandoned INVITE is not armed without its BYE.
  lemma NoAckWithoutBye(tm: Tm, k: nat)
    requires Reached(tm) && k < |tm.log| && tm.log[k].AckArmed?
    requires tm.log[k].abandoned && tm.log[k].sclass == 2
    ensures ByeOnRecord(tm.log[..k], tm.log[k].gen, tm.log[k].ackGen)
  {
    EventJustified(tm, k);
  }

  // --- Links

  // A parent is a live INVITE that has none itself
  lemma ParentsAreInvites(tm: Tm, i: nat)
    requires Reached(tm) && i < |tm.slots| && tm.slots[i].active && tm.slots[i].parent.Some?
    ensures var p := tm.slots[i].parent.value;
      p < |tm.slots| && p != i && LiveClient(tm.slots[p]) && IsInvite(tm.slots[p])
      && tm.slots[p].parent.None?
  {
    ReachedInv(tm);
    OfSlot(tm, i);
  }

  // From any slot, child links end after two steps, at different slots: an
  // INVITE, its ACK, and the BYE behind that
  lemma ChainsAreShort(tm: Tm, i: nat)
    requires Reached(tm) && i < |tm.slots| && tm.slots[i].active && tm.slots[i].child.Some?
    ensures var c := tm.slots[i].child.value;
      && c < |tm.slots| && c != i && tm.slots[c].active
      && (tm.slots[c].child.Some? ==>
            var b := tm.slots[c].child.value;
            && b < |tm.slots| && b != c && b != i && tm.slots[b].active
            && IsInvite(tm.slots[i]) && tm.slots[c].verb.ACK? && tm.slots[b].verb.BYE?
            && tm.slots[b].child.None?)
  {
    ReachedInv(tm);
    OfSlot(tm, i);
    var c := tm.slots[i].child.value;
    OfSlot(tm, c);
    if tm.slots[c].child.Some? {
      OfSlot(tm, tm.slots[c].child.value);
    }
  }

  // Dropping a root leaves no slot naming it, and takes nothing but what
  // names it.
  lemma DropLeavesNothing(tm: Tm, i: nat, j: nat)
    requires Reached(tm) && i < |tm.slots| && j < |tm.slots|
    requires tm.slots[i].active && tm.slots[i].parent.None?
    ensures var t := DropTransaction(tm, i).0;
      && (t.slots[j].active ==> t.slots[j].parent != Some(i) && t.slots[j].child != Some(i))
      && t.slots[j] == (if j == i || (tm.slots[j].active && tm.slots[j].parent == Some(i))
                        then EMPTY else tm.slots[j])
  {
    ReachedInv(tm);
    DropExact(tm, i, j);
  }

  // The count of active transactions is never too low
  lemma NactiveSuffices(tm: Tm)
    requires Reached(tm)
    ensures CountActive(tm.slots) <= tm.nactive
  {
    ReachedInv(tm);
  }

  lemma {:induction false} NoneCounted(slots: seq<Slot>, i: nat)
    requires CountActive(slots) == 0 && i < |slots|
    ensures !slots[i].active
  {
    if i < |slots| - 1 {
      NoneCounted(slots[..|slots| - 1], i);
    }
  }

  lemma {:induction false} ReapFromReaps(tm: Tm, i: nat, j: nat)
    requires Inv(tm) && i <= |tm.slots| && j < |tm.slots|
    ensures var u := ReapFrom(tm, i).slots[j];
      && (u.active && j >= i ==> !u.state.Terminated?)
      && (u == tm.slots[j] || u == EMPTY)
      && (tm.slots[j].active && !tm.slots[j].state.Terminated? && tm.slots[j].parent.None? ==>
            u == tm.slots[j])
    decreases |tm.slots| - i
  {
    hide Inv, Drop;
    if i < |tm.slots| {
      OfSlot(tm, i);
      if tm.slots[i].active && tm.slots[i].state.Terminated? {
        DropInv(tm, i);
        DropExact(tm, i, j) by { GoodOf(tm); }
        ReapFromReaps(Drop(tm, i), i + 1, j);
      } else {
        ReapFromReaps(tm, i + 1, j);
      }
    }
  }

  lemma GoodOf(tm: Tm)
    requires Inv(tm)
    ensures Good(tm)
  {
  }

  // Reaping leaves no terminated transaction, and takes nothing but those
  // and their children.
  lemma ReapTakesTheTerminated(tm: Tm, j: nat)
    requires Reached(tm) && j < |tm.slots|
    ensures var u := Reap(tm).slots[j];
      && (u.active ==> !u.state.Terminated?) && (u == tm.slots[j] || u == EMPTY)
      && (tm.slots[j].active && !tm.slots[j].state.Terminated? && tm.slots[j].parent.None? ==>
            u == tm.slots[j])
  {
    hide Inv;
    ReachedInv(tm);
    if tm.nactive == 0 {
      NactiveSuffices(tm);
      NoneCounted(tm.slots, j);
    } else {
      ReapFromReaps(tm, 0, j);
    }
  }

  // --- Allocation

  // What a new transaction does to the table: it takes slot c and nothing
  // outside the family that was there.
  lemma AllocationExact(tm: Tm, s: Slot, space: Space, j: nat)
    requires Reached(tm) && j < |tm.slots|
    ensures var (t, got) := NewSlot(tm, s, space); var c := AllocIndex(tm.slots);
      && (c.None? ==> t == tm && got.None?)
      && (got.Some? ==> got == c && t.slots[c.value] == Awake(s, tm.gens))
      && (c.Some? && j != c.value ==>
            t.slots[j] == if tm.slots[c.value].active && InFamily(tm.slots, c.value, j)
                          then EMPTY else tm.slots[j])
  {
    hide Inv;
    ReachedInv(tm);
    AllocRight(tm.slots);
    var c := AllocIndex(tm.slots);
    if c.Some? && tm.slots[c.value].active {
      DropExact(tm, c.value, j) by { GoodOf(tm); }
    }
  }

  // Whom an allocation may evict: nobody while a slot is free; never a client
  // transaction without its final response or an INVITE still being cleaned
  // up, and never a server transaction whose final response was not sent or
  // an INVITE that was not ACKed.
  lemma EvictionSpares(tm: Tm, i: nat)
    requires Reached(tm) && AllocIndex(tm.slots) == Some(i) && tm.slots[i].active
    ensures forall j :: 0 <= j < |tm.slots| ==> tm.slots[j].active
    ensures var s := tm.slots[i];
      s.state.Terminated?
      || (s.role.Client? && s.finalReported && !s.flags.abandoned)
      || (s.role.Server? && IsInvite(s) && Acked(s.gen) in tm.log)
      || (s.role.Server? && !IsInvite(s)
          && (FinallyReplied(tm.log, s.gen) || Acked(s.gen) in tm.log))
  {
    hide Inv;
    ReachedInv(tm);
    AllocRight(tm.slots);
    OfSlot(tm, i);
  }

  // Over, or done but for the wait for stray copies; a child goes with its
  // INVITE only
  predicate MayGo(s: Slot) {
    && s.parent == None
    && (|| s.state == Terminated
        || (s.role == Client && s.finalReported && !s.flags.abandoned)
        || (s.role == Server && s.state == Completed && s.timer == TimerJ)
        || (s.role == Server && s.state == Confirmed && s.timer == TimerI)
        || (s.role == Server && s.state == Accepted && s.flags.acked))
  }

  // When it would be gone anyway: at once if it is over, and at the latest
  // time there is if no time is set
  function GoneAt(s: Slot): nat {
    if s.state == Terminated then 0
    else match s.due
      case At(ms) => ms
      case Never => 0xFFFF_FFFF_FFFF_FFFF
  }

  // An allocation fails exactly if no slot is free and none may go; and of
  // those that may it takes the one that would be gone first.
  lemma EvictionExact(tm: Tm)
    requires Reached(tm)
    ensures AllocIndex(tm.slots).None? <==>
              forall j :: 0 <= j < |tm.slots| ==> tm.slots[j].active && !MayGo(tm.slots[j])
    ensures var c := AllocIndex(tm.slots);
      c.Some? && tm.slots[c.value].active ==>
        MayGo(tm.slots[c.value])
        && forall j :: 0 <= j < |tm.slots| && MayGo(tm.slots[j]) ==>
             GoneAt(tm.slots[c.value]) <= GoneAt(tm.slots[j])
  {
    hide Inv, AllocIndex;
    ReachedInv(tm);
    AllocRight(tm.slots);
    forall j | 0 <= j < |tm.slots| && tm.slots[j].active
      ensures Evictable(tm.slots[j]) == MayGo(tm.slots[j])
    {
      OfSlot(tm, j);
    }
  }

  // A transaction never evicts the one it is made for.
  lemma ClonesSpareTheirParent(tm: Tm, i: nat, space: Space)
    requires Inv(tm) && i < |tm.slots| && LiveClient(tm.slots[i]) && tm.slots[i].invite.Some?
    ensures Cancellable(tm, i) ==>
              var u := StartCancel(tm, i, space).0.slots[i]; u.active && u.gen == tm.slots[i].gen
    ensures Answering(tm, i) ==>
              var u := NeedAck(tm, i, space).slots[i]; u.active && u.gen == tm.slots[i].gen
  {
    hide Inv, NeedAck, StartCancel;
    if Cancellable(tm, i) {
      StartCancelInv(tm, i, space);
    }
    if Answering(tm, i) {
      NeedAckInv(tm, i, space);
    }
  }
}
