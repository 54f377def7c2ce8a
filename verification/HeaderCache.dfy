module HeaderCache {
  // Parsing the headers of a message on demand, with a mask of the types that
  // are through (usipy_sip_msg.c). Masks are sets of header types.

  import opened Base
  import opened Strings

  datatype Kind = CSeqHdr | CallIdHdr | ViaHdr | FromHdr | OtherHdr(n: nat)

  // What a header parses to
  datatype Value =
    | Number(val: nat) | Text(text: string) | Params(params: seq<TvPair>) | Something

  // `parsable` is whether the type has a parser at all
  datatype Header = Header(kind: Kind, wire: Value, parsable: bool)

  predicate WellTyped(h: Header) {
    match h.kind
    case CSeqHdr => h.wire.Number?
    case CallIdHdr => h.wire.Text?
    case ViaHdr => h.wire.Params?
    case FromHdr => h.wire.Params?
    case OtherHdr(_) => true
  }

  // How many of the first n headers are of type k
  function Count(hdrs: seq<Header>, k: Kind, n: nat): nat
    requires n <= |hdrs|
  {
    if n == 0 then 0 else Count(hdrs, k, n - 1) + (if hdrs[n - 1].kind == k then 1 else 0)
  }

  predicate IsFirst(hdrs: seq<Header>, i: nat)
    requires i < |hdrs|
  {
    Count(hdrs, hdrs[i].kind, i) == 0
  }

  // Whether header i is asked for: its type is, and if only the top ones are,
  // it is the first of it
  predicate Asked(hdrs: seq<Header>, mask: set<Kind>, top: bool, i: nat)
    requires i < |hdrs|
  {
    hdrs[i].kind in mask && (top ==> IsFirst(hdrs, i))
  }

  function AskedOf(hdrs: seq<Header>, mask: set<Kind>, top: bool, n: nat): seq<nat>
    requires n <= |hdrs|
  {
    if n == 0 then []
    else AskedOf(hdrs, mask, top, n - 1) + (if Asked(hdrs, mask, top, n - 1) then [n - 1] else [])
  }

  // Those are exactly the headers asked for, in message order
  lemma {:induction false} AskedOfRight(hdrs: seq<Header>, mask: set<Kind>, top: bool, n: nat)
    requires n <= |hdrs|
    ensures var a := AskedOf(hdrs, mask, top, n);
      && (forall i: nat :: i in a <==> i < n && Asked(hdrs, mask, top, i))
      && (forall j, k :: 0 <= j < k < |a| ==> a[j] < a[k])
  {
    if n > 0 {
      AskedOfRight(hdrs, mask, top, n - 1);
      var b := AskedOf(hdrs, mask, top, n - 1);
      assert forall j :: 0 <= j < |b| ==> b[j] in b;
    }
  }

  lemma {:induction false} CountSplit(hdrs: seq<Header>, k: Kind, m: nat, n: nat)
    requires m <= n <= |hdrs|
    ensures Count(hdrs, k, m) <= Count(hdrs, k, n)
    ensures (forall i :: m <= i < n ==> hdrs[i].kind != k) <==> Count(hdrs, k, m) == Count(hdrs, k, n)
  {
    if m < n {
      CountSplit(hdrs, k, m, n - 1);
    }
  }

  lemma {:induction false} AskedOfGrows(hdrs: seq<Header>, mask: set<Kind>, top: bool, m: nat, n: nat)
    requires m <= n <= |hdrs|
    ensures |AskedOf(hdrs, mask, top, m)| <= |AskedOf(hdrs, mask, top, n)|
  {
    if m < n {
      AskedOfGrows(hdrs, mask, top, m, n - 1);
    }
  }

  // The masks of a call after i headers: the types still to parse, those of
  // which the only header so far was parsed, and those matched
  ghost predicate MasksAt(hdrs: seq<Header>, mask: set<Kind>, todo: set<Kind>, top: bool, i: nat,
                    left: set<Kind>, topParsed: set<Kind>, seen: set<Kind>)
    requires i <= |hdrs|
  {
    && (forall k :: k in left <==> k in todo && (top ==> Count(hdrs, k, i) == 0))
    && (top ==> forall k :: k in topParsed <==> k in todo && Count(hdrs, k, i) == 1)
    && (top ==> forall k :: k in seen <==> k in mask && Count(hdrs, k, i) > 0)
  }

  function NextLeft(h: Header, top: bool, left: set<Kind>): set<Kind> {
    if top && h.kind in left then left - {h.kind} else left
  }

  function NextTop(h: Header, top: bool, left: set<Kind>, topParsed: set<Kind>): set<Kind> {
    if !top then topParsed
    else if h.kind in left then topParsed + {h.kind} else topParsed - {h.kind}
  }

  function NextSeen(h: Header, mask: set<Kind>, seen: set<Kind>): set<Kind> {
    if h.kind in mask then seen + {h.kind} else seen
  }

  lemma MasksNext(hdrs: seq<Header>, mask: set<Kind>, todo: set<Kind>, top: bool, i: nat,
                  left: set<Kind>, topParsed: set<Kind>, seen: set<Kind>)
    requires i < |hdrs| && MasksAt(hdrs, mask, todo, top, i, left, topParsed, seen)
    ensures hdrs[i].kind in left <==> Asked(hdrs, todo, top, i)
    ensures hdrs[i].kind in mask && (!top || hdrs[i].kind !in seen) <==> Asked(hdrs, mask, top, i)
    ensures var h := hdrs[i];
      MasksAt(hdrs, mask, todo, top, i + 1, NextLeft(h, top, left),
              NextTop(h, top, left, topParsed), NextSeen(h, mask, seen))
  {
    var h := hdrs[i];
    forall k
      ensures Count(hdrs, k, i + 1) == Count(hdrs, k, i) + (if h.kind == k then 1 else 0)
    {
    }
  }

  lemma MasksStart(hdrs: seq<Header>, mask: set<Kind>, todo: set<Kind>, top: bool)
    ensures MasksAt(hdrs, mask, todo, top, 0, todo, {}, {})
  {
  }

  // The only header of its type is the first one
  lemma OnlyIsFirst(hdrs: seq<Header>, i: nat)
    requires i < |hdrs| && Count(hdrs, hdrs[i].kind, |hdrs|) == 1
    ensures IsFirst(hdrs, i)
  {
    CountSplit(hdrs, hdrs[i].kind, 0, i);
    CountSplit(hdrs, hdrs[i].kind, i + 1, |hdrs|);
  }

  // After all headers, the types added to the mask have all of them parsed
  lemma NowParsed(hdrs: seq<Header>, v: seq<Option<Value>>, mask: set<Kind>, todo: set<Kind>,
                  top: bool, left: set<Kind>, topParsed: set<Kind>, seen: set<Kind>)
    requires |v| == |hdrs|
    requires MasksAt(hdrs, mask, todo, top, |hdrs|, left, topParsed, seen)
    requires forall i :: 0 <= i < |hdrs| && Asked(hdrs, todo, top, i) ==> v[i].Some?
    ensures var more := if top then topParsed else left;
      && (forall i :: 0 <= i < |hdrs| && hdrs[i].kind in more ==> v[i].Some?)
      && (forall k :: k in more <==> k in todo && (top ==> Count(hdrs, k, |hdrs|) == 1))
  {
    hide Count, IsFirst;
    var more := if top then topParsed else left;
    forall i | 0 <= i < |hdrs| && hdrs[i].kind in more
      ensures v[i].Some?
    {
      if top {
        OnlyIsFirst(hdrs, i);
      }
      assert Asked(hdrs, todo, top, i);
    }
  }

  // --- The identity of a transaction

  datatype Tid = Tid(cseq: nat, callId: string, branch: string, fromTag: string)

  const TID_KINDS: set<Kind> := {CSeqHdr, CallIdHdr, ViaHdr, FromHdr}

  // The value of the first parameter of that name, unless it is empty
  function ParamFrom(params: seq<TvPair>, name: string, i: nat): Option<string>
    requires i <= |params|
    decreases |params| - i
  {
    if i == |params| then None
    else if params[i].token != name then ParamFrom(params, name, i + 1)
    else if params[i].value == "" then None
    else Some(params[i].value)
  }

  method FindParam(params: seq<TvPair>, name: string) returns (v: Option<string>)
    ensures v == ParamFrom(params, name, 0)
  {
    var j := 0;
    while j < |params|
      invariant j <= |params|
      invariant ParamFrom(params, name, 0) == ParamFrom(params, name, j)
    {
      if params[j].token == name {
        if params[j].value == "" {
          return None;
        }
        return Some(params[j].value);
      }
      j := j + 1;
    }
    return None;
  }

  // The first header of type k
  function FirstOf(hdrs: seq<Header>, k: Kind, i: nat): (j: nat)
    requires i <= |hdrs|
    ensures i <= j <= |hdrs|
    ensures j < |hdrs| ==> hdrs[j].kind == k
    ensures forall m :: i <= m < j ==> hdrs[m].kind != k
    decreases |hdrs| - i
  {
    if i == |hdrs| || hdrs[i].kind == k then i else FirstOf(hdrs, k, i + 1)
  }

  // What a header has to say about the identity
  function Branch(h: Header): Option<string> {
    if h.wire.Params? then ParamFrom(h.wire.params, "branch", 0) else None
  }

  function Tag(h: Header): Option<string> {
    if h.wire.Params? then ParamFrom(h.wire.params, "tag", 0) else None
  }

  function NumberOf(h: Header): nat {
    if h.wire.Number? then h.wire.val else 0
  }

  function TextOf(h: Header): string {
    if h.wire.Text? then h.wire.text else ""
  }

  // The identity a message has: each part from the first header of its type
  function TidOf(hdrs: seq<Header>): Option<Tid> {
    var c, d := FirstOf(hdrs, CSeqHdr, 0), FirstOf(hdrs, CallIdHdr, 0);
    var v, f := FirstOf(hdrs, ViaHdr, 0), FirstOf(hdrs, FromHdr, 0);
    if c == |hdrs| || d == |hdrs| || v == |hdrs| || f == |hdrs| then None
    else if Branch(hdrs[v]).None? || Tag(hdrs[f]).None? then None
    else Some(Tid(NumberOf(hdrs[c]), TextOf(hdrs[d]), Branch(hdrs[v]).value, Tag(hdrs[f]).value))
  }

  // Part k of the identity is as in header h
  predicate PartOf(h: Header, k: Kind, t: Tid) {
    match k
    case CSeqHdr => NumberOf(h) == t.cseq
    case CallIdHdr => TextOf(h) == t.callId
    case ViaHdr => Branch(h) == Some(t.branch)
    case FromHdr => Tag(h) == Some(t.fromTag)
    case _ => true
  }

  // The parts found in the first i headers
  predicate TidSoFar(hdrs: seq<Header>, i: nat, seen: set<Kind>, t: Tid)
    requires i <= |hdrs|
  {
    && seen <= TID_KINDS
    && forall k :: k in TID_KINDS ==>
         var j := FirstOf(hdrs, k, 0);
         (k in seen <==> j < i) && (k in seen ==> PartOf(hdrs[j], k, t))
  }

  // Header i taken: the first of its type, or not needed
  lemma OneTaken(hdrs: seq<Header>, i: nat, seen: set<Kind>, t: Tid, u: Tid)
    requires i < |hdrs| && TidSoFar(hdrs, i, seen, t)
    requires var k := hdrs[i].kind;
      if k in TID_KINDS && k !in seen
      then PartOf(hdrs[i], k, u) && forall j :: j in TID_KINDS && j != k ==> SamePart(j, t, u)
      else u == t
    ensures var k := hdrs[i].kind;
      TidSoFar(hdrs, i + 1, if k in TID_KINDS then seen + {k} else seen, u)
  {
    hide FirstOf, Branch, Tag, NumberOf, TextOf;
    forall k | k in TID_KINDS
      ensures FirstOf(hdrs, k, 0) < i + 1 <==> FirstOf(hdrs, k, 0) < i || hdrs[i].kind == k
      ensures hdrs[i].kind == k && FirstOf(hdrs, k, 0) >= i ==> FirstOf(hdrs, k, 0) == i
    {
      FirstHere(hdrs, i, k);
    }
  }

  predicate SamePart(k: Kind, t: Tid, u: Tid) {
    match k
    case CSeqHdr => t.cseq == u.cseq
    case CallIdHdr => t.callId == u.callId
    case ViaHdr => t.branch == u.branch
    case FromHdr => t.fromTag == u.fromTag
    case _ => true
  }

  // The next header is the first of its type, or of one seen
  lemma FirstHere(hdrs: seq<Header>, i: nat, k: Kind)
    requires i < |hdrs|
    ensures FirstOf(hdrs, k, 0) < i + 1 <==> FirstOf(hdrs, k, 0) < i || hdrs[i].kind == k
    ensures hdrs[i].kind == k && FirstOf(hdrs, k, 0) >= i ==>
              FirstOf(hdrs, k, 0) == i && IsFirst(hdrs, i)
  {
    CountSplit(hdrs, k, 0, i);
  }

  class Message {
    const hdrs: seq<Header>
    const values: array<Option<Value>>
    const present: set<Kind>
    var parsed: set<Kind>

    // The cache is truthful: a type in the mask has all its headers parsed
    ghost predicate Valid()
      reads this, values
    {
      && values.Length == |hdrs|
      && (forall i :: 0 <= i < |hdrs| ==> WellTyped(hdrs[i]))
      && (forall k :: k in present <==> Count(hdrs, k, |hdrs|) > 0)
      && (forall i :: 0 <= i < |hdrs| && values[i].Some? ==> values[i] == Some(hdrs[i].wire))
      && (forall i :: 0 <= i < |hdrs| && hdrs[i].kind in parsed ==> values[i].Some?)
    }

    // The message as read: no header parsed yet, and the types there are
    constructor (hdrs: seq<Header>, present: set<Kind>)
      requires forall i :: 0 <= i < |hdrs| ==> WellTyped(hdrs[i])
      requires forall k :: k in present <==> Count(hdrs, k, |hdrs|) > 0
      ensures Valid() && this.hdrs == hdrs && this.present == present && parsed == {}
      ensures fresh(values)
    {
      this.hdrs, this.present, parsed := hdrs, present, {};
      values := new Option<Value>[|hdrs|](_ => None);
    }

    // The headers of `todo` from 0 to i are parsed, all others as before
    twostate predicate ParsedUpTo(i: nat, todo: set<Kind>, top: bool)
      reads values
      requires i <= |hdrs| == values.Length
    {
      && (forall j :: 0 <= j < i && Asked(hdrs, todo, top, j) ==> values[j] == Some(hdrs[j].wire))
      && (forall j :: 0 <= j < |hdrs| && (j >= i || !Asked(hdrs, todo, top, j)) ==>
            values[j] == old(values[j]))
    }

    // Whether those can be: `fits(i)` tells if there is room for header i
    ghost predicate CanParse(i: nat, todo: set<Kind>, top: bool, fits: nat -> bool)
      requires i <= |hdrs|
    {
      forall j :: 0 <= j < i && Asked(hdrs, todo, top, j) ==> hdrs[j].parsable && fits(j)
    }

    // usipy_sip_msg_parse_hdrs_impl: `room` is that of the match list, if one
    // is wanted
    method ParseHdrs(mask: set<Kind>, top: bool, fits: nat -> bool, room: Option<nat>)
      returns (ok: bool, found: seq<nat>)
      requires Valid()
      modifies this`parsed, values
      ensures Valid()
      ensures ok <==> mask <= present && CanParse(|hdrs|, mask - old(parsed), top, fits)
                      && (room.Some? ==> |AskedOf(hdrs, mask, top, |hdrs|)| <= room.value)
      ensures ok && room.Some? ==> found == AskedOf(hdrs, mask, top, |hdrs|)
      ensures ok ==> ParsedUpTo(|hdrs|, mask - old(parsed), top)
      ensures ok ==> forall i :: 0 <= i < |hdrs| && Asked(hdrs, mask, top, i) ==> values[i].Some?
      ensures parsed == old(parsed) || ok
      ensures ok ==> forall k :: k in parsed <==>
                k in old(parsed) || (k in mask && (top ==> Count(hdrs, k, |hdrs|) == 1))
    {
      hide Count, MasksAt, IsFirst, WellTyped;
      found := [];
      if !(mask <= present) {
        return false, found;
      }
      ghost var todo := mask - parsed;
      ghost var allSeen: set<Kind> := {};
      var left := mask - parsed;
      var seen: set<Kind>, topParsed: set<Kind> := {}, {};
      MasksStart(hdrs, mask, todo, top);
      var i := 0;
      while i < |hdrs|
        invariant i <= |hdrs| && parsed == old(parsed)
        invariant MasksAt(hdrs, mask, todo, top, i, left, topParsed, allSeen)
        invariant room.Some? ==> seen == allSeen
        invariant room.Some? ==> found == AskedOf(hdrs, mask, top, i) && |found| <= room.value
        invariant ParsedUpTo(i, todo, top) && CanParse(i, todo, top, fits)
      {
        MasksNext(hdrs, mask, todo, top, i, left, topParsed, allSeen);
        var h := hdrs[i];
        ghost var l, t := NextLeft(h, top, left), NextTop(h, top, left, topParsed);
        if room.Some? && h.kind in mask && (!top || h.kind !in seen) {
          if |found| >= room.value {
            TooMany(mask, top, i);
            return false, found;
          }
          found, seen := found + [i], seen + {h.kind};
        }
        if h.kind !in left {
          if top && h.kind in topParsed {
            topParsed := topParsed - {h.kind};
          }
        } else {
          if !h.parsable {
            return false, found;
          }
          if !fits(i) {
            values[i] := None;
            return false, found;
          }
          values[i] := Some(h.wire);
          if top {
            left := left - {h.kind};
            topParsed := topParsed + {h.kind};
          }
        }
        allSeen := NextSeen(h, mask, allSeen);
        assert left == l && topParsed == t;
        i := i + 1;
      }
      NowParsed(hdrs, values[..], mask, todo, top, left, topParsed, allSeen);
      var more := if top then topParsed else left;
      forall k ensures k in parsed + more <==>
          k in parsed || (k in mask && (top ==> Count(hdrs, k, |hdrs|) == 1))
      {
        assert k in more <==> k in todo && (top ==> Count(hdrs, k, |hdrs|) == 1);
      }
      parsed := parsed + more;
      ok := true;
    }

    lemma TooMany(mask: set<Kind>, top: bool, i: nat)
      requires i < |hdrs| && Asked(hdrs, mask, top, i)
      ensures |AskedOf(hdrs, mask, top, |hdrs|)| > |AskedOf(hdrs, mask, top, i)|
    {
      AskedOfGrows(hdrs, mask, top, i + 1, |hdrs|);
    }

    // usipy_sip_msg_get_tid: the identity of the transaction, from the first
    // header of each of four types
    method GetTid(fits: nat -> bool) returns (r: Option<Tid>)
      requires Valid()
      modifies this`parsed, values
      ensures Valid()
      ensures r == if TID_KINDS <= present && CanParse(|hdrs|, TID_KINDS - old(parsed), true, fits)
                   then TidOf(hdrs) else None
    {
      hide Count, FirstOf, ParamFrom, TidSoFar, WellTyped;
      var ok, _ := ParseHdrs(TID_KINDS, true, fits, None);
      if !ok {
        return None;
      }
      var seen: set<Kind> := {};
      var t := Tid(0, "", "", "");
      var i := 0;
      NoneTaken(hdrs, t);
      while i < |hdrs|
        modifies {}
        invariant i <= |hdrs| && TidSoFar(hdrs, i, seen, t)
      {
        ghost var was, had := t, seen;
        FirstUnseen(hdrs, i, seen, t);
        if hdrs[i].kind in TID_KINDS && hdrs[i].kind !in seen {
          assert Asked(hdrs, TID_KINDS, true, i);
          var part := TakePart(i, t);
          if part.None? {
            return None;
          }
          t := part.value;
          seen := seen + {hdrs[i].kind};
        }
        OneTaken(hdrs, i, had, was, t);
        assert hdrs[i].kind in had ==> had + {hdrs[i].kind} == had;
        i := i + 1;
      }
      AllTaken(hdrs, seen, t);
      if !(TID_KINDS <= seen) {
        return None;
      }
      r := Some(t);
    }

    // One part of the identity, from a header that is parsed
    method TakePart(i: nat, t: Tid) returns (u: Option<Tid>)
      requires i < |hdrs| && Valid() && values[i].Some? && hdrs[i].kind in TID_KINDS
      ensures u.Some? ==> PartOf(hdrs[i], hdrs[i].kind, u.value)
      ensures u.Some? ==> forall j :: j in TID_KINDS && j != hdrs[i].kind ==> SamePart(j, t, u.value)
      ensures u.None? ==> (hdrs[i].kind.ViaHdr? && Branch(hdrs[i]).None?)
                          || (hdrs[i].kind.FromHdr? && Tag(hdrs[i]).None?)
    {
      hide Count, ParamFrom;
      assert WellTyped(hdrs[i]);
      var v := values[i].value;
      match hdrs[i].kind {
        case CSeqHdr =>
          return Some(t.(cseq := v.val));
        case CallIdHdr =>
          return Some(t.(callId := v.text));
        case ViaHdr =>
          var p := FindParam(v.params, "branch");
          return if p.None? then None else Some(t.(branch := p.value));
        case FromHdr =>
          var p := FindParam(v.params, "tag");
          return if p.None? then None else Some(t.(fromTag := p.value));
        case _ =>
          return Some(t);
      }
    }
  }

  lemma NoneTaken(hdrs: seq<Header>, t: Tid)
    ensures TidSoFar(hdrs, 0, {}, t)
  {
  }

  lemma FirstUnseen(hdrs: seq<Header>, i: nat, seen: set<Kind>, t: Tid)
    requires i < |hdrs| && TidSoFar(hdrs, i, seen, t)
    ensures var k := hdrs[i].kind;
      k in TID_KINDS && k !in seen ==> IsFirst(hdrs, i) && FirstOf(hdrs, k, 0) == i
  {
    hide FirstOf, PartOf;
    FirstHere(hdrs, i, hdrs[i].kind);
  }

  lemma AllTaken(hdrs: seq<Header>, seen: set<Kind>, t: Tid)
    requires TidSoFar(hdrs, |hdrs|, seen, t)
    ensures TidOf(hdrs) == if TID_KINDS <= seen then Some(t) else None
  {
    hide FirstOf, Branch, Tag, NumberOf, TextOf;
    var c, d := FirstOf(hdrs, CSeqHdr, 0), FirstOf(hdrs, CallIdHdr, 0);
    var v, f := FirstOf(hdrs, ViaHdr, 0), FirstOf(hdrs, FromHdr, 0);
    assert CSeqHdr in TID_KINDS && CallIdHdr in TID_KINDS;
    assert ViaHdr in TID_KINDS && FromHdr in TID_KINDS;
  }
}
