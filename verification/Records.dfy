module Records {
  // Records with a growing list of pairs, parsed into a message heap, and the
  // printing of them into a buffer: what URIs and name-addrs have in common.

  import opened Strings
  import opened TvPairs
  import opened MsgHeap

  // How big a record with n pairs is
  datatype Layout = Layout(record: nat, pair: nat)

  function SizeOf(l: Layout, n: nat): nat {
    l.record + l.pair * n
  }

  // Whether a heap used up to `alen` has room for a record with n pairs
  predicate HasRoom(tsize: nat, alen: nat, l: Layout, n: nat) {
    Aligned(alen) + Aligned(SizeOf(l, n)) <= tsize
  }

  lemma SizeGrows(l: Layout, m: nat, n: nat)
    requires m <= n
    ensures SizeOf(l, m) <= SizeOf(l, n) && Aligned(SizeOf(l, m)) <= Aligned(SizeOf(l, n))
  {
    assert l.pair * m <= l.pair * n;
    AlignedFits(SizeOf(l, m), Aligned(SizeOf(l, n)));
  }

  // The record being parsed is the last thing in the heap, and as big as it
  // should be
  ghost predicate Growing(hp: Heap, c: Cnt, l: Layout, n: nat, at: nat)
    reads hp, hp.mem, hp.checkpoints
  {
    hp.Valid() && hp.Owns(c) && c.alen == Aligned(SizeOf(l, n)) && hp.alen - c.alen == at && at % 8 == 0
    && (hp.top > 0 ==> hp.checkpoints[hp.top - 1] <= at)
  }

  lemma RoomAt(tsize: nat, at: nat, l: Layout, n: nat)
    requires at % 8 == 0
    ensures HasRoom(tsize, at, l, n) <==> at + Aligned(SizeOf(l, n)) <= tsize
  {
  }

  lemma PairsStep(s: string, d: char, ws: bool)
    requires s != ""
    ensures var r := SplitElem(s, d, ws);
            Pairs(s, d, ws) == if r.None? then [PairOf(s, ws)]
                               else [PairOf(r.value.0, ws)] + Pairs(r.value.1, d, ws)
    ensures Pairs("", d, ws) == []
  {
  }

  // The element before the delimiter, all there is if there is none, and what
  // is left
  method NextPair(s: string, d: char, ws: bool) returns (p: TvPair, more: string)
    requires s != ""
    ensures Pairs(s, d, ws) == [p] + Pairs(more, d, ws) && |more| < |s|
  {
    hide Pairs, PairOf, SplitElem;
    PairsStep(s, d, ws);
    SplitShrinks(s, d, ws);
    var elem;
    elem, more := s, "";
    var r := SplitElement(s, d, ws);
    if r.Some? {
      elem, more := r.value.0, r.value.1;
    }
    p := ParsePair(elem, ws);
  }

  // One more pair in the record, if there is room for it
  method Grow(hp: Heap, c: Cnt, l: Layout, n: nat, ghost at: nat) returns (ok: bool, e: Cnt)
    requires Growing(hp, c, l, n, at)
    modifies hp`alen, hp`live
    ensures ok <==> HasRoom(hp.tsize, at, l, n + 1)
    ensures Growing(hp, e, l, if ok then n + 1 else n, at)
    ensures hp.live[..|hp.live| - 1] == old(hp.live[..|hp.live| - 1])
  {
    hide HasRoom, SizeOf, Aligned;
    SizeGrows(l, n, n + 1);
    RoomAt(hp.tsize, at, l, n + 1);
    ok, e := hp.Extend(c, SizeOf(l, n + 1));
  }

  // The loop over a list of pairs. `n` pairs are in the record before; the new
  // ones come after those in its storage.
  method ParsePairs(hp: Heap, c: Cnt, l: Layout, n: nat, ghost at: nat, s: string, d: char, ws: bool)
    returns (ok: bool, e: Cnt, ps: seq<TvPair>)
    requires Growing(hp, c, l, n, at)
    modifies hp`alen, hp`live
    ensures Growing(hp, e, l, n + |ps|, at) && |hp.live| > 0 && old(|hp.live|) > 0
    ensures hp.live[..|hp.live| - 1] == old(hp.live[..|hp.live| - 1])
    ensures ok ==> ps == Pairs(s, d, ws)
    ensures ok <==> s == "" || HasRoom(hp.tsize, at, l, n + |Pairs(s, d, ws)|)
  {
    hide HasRoom, SizeOf, Pairs, Heap.Valid, Aligned;
    e, ps := c, [];
    var rest := s;
    PairsStep(" ", d, ws);
    while rest != ""
      invariant Growing(hp, e, l, n + |ps|, at)
      invariant hp.live[..|hp.live| - 1] == old(hp.live[..|hp.live| - 1])
      invariant ps + Pairs(rest, d, ws) == Pairs(s, d, ws)
      invariant rest == s || HasRoom(hp.tsize, at, l, n + |ps|)
      decreases |rest|
    {
      var p, more := NextPair(rest, d, ws);
      ok, e := Grow(hp, e, l, n + |ps|, at);
      if !ok {
        NoRoomLater(hp.tsize, at, l, n + |ps| + 1, n + |Pairs(s, d, ws)|);
        return;
      }
      ps, rest := ps + [p], more;
    }
    ok := true;
  }

  lemma SplitShrinks(s: string, d: char, ws: bool)
    ensures var r := SplitElem(s, d, ws); r.Some? ==> |r.value.1| < |s|
  {
  }

  lemma NoRoomLater(tsize: nat, alen: nat, l: Layout, m: nat, n: nat)
    requires m <= n && !HasRoom(tsize, alen, l, m)
    ensures !HasRoom(tsize, alen, l, n)
  {
    SizeGrows(l, m, n);
  }

  method ParsePair(t: string, ws: bool) returns (p: TvPair)
    ensures p == PairOf(t, ws)
  {
    var r := Split(t, '=');
    if r.None? {
      return TvPair(t, "");
    }
    var a, b := r.value.0, r.value.1;
    if ws {
      a := LtrmE(a);
      b := LtrmB(b);
    }
    return TvPair(a, b);
  }

  // A record begun
  method Begin(hp: Heap, l: Layout) returns (ok: bool, c: Cnt, ghost at: nat)
    requires hp.Valid()
    modifies hp`alen, hp`live
    ensures ok <==> HasRoom(hp.tsize, old(hp.alen), l, 0)
    ensures ok ==>
      && Growing(hp, c, l, 0, at) && at == Aligned(old(hp.alen))
      && |hp.live| > 0 && hp.live[..|hp.live| - 1] == old(hp.live)
    ensures !ok ==> hp.Valid() && hp.alen == old(hp.alen) && hp.live == old(hp.live)
  {
    var p;
    p, c := hp.AllocCnt(SizeOf(l, 0));
    ok := p.Some?;
    at := if ok then p.value else 0;
  }

  // ... and given up
  method GiveUp(hp: Heap, c: Cnt, l: Layout, n: nat, ghost at: nat)
    requires Growing(hp, c, l, n, at)
    modifies hp`alen, hp`live, hp.mem
    ensures hp.Valid() && hp.alen == at
    ensures old(|hp.live|) > 0 && hp.live == old(hp.live[..|hp.live| - 1])
  {
    hp.CntRollback(c);
  }

  // --- Printing into a buffer

  method Append(buf: array<char>, off: nat, s: string) returns (ok: bool, to: nat)
    requires off <= buf.Length
    modifies buf
    ensures ok <==> off + |s| <= buf.Length
    ensures ok ==> to == off + |s| && buf[..to] == old(buf[..off]) + s
  {
    ok, to := off + |s| <= buf.Length, off;
    if !ok {
      return;
    }
    var k := 0;
    while k < |s|
      invariant k <= |s| && to == off + k
      invariant buf[..to] == old(buf[..off]) + s[..k]
    {
      buf[to] := s[k];
      k, to := k + 1, to + 1;
    }
    assert s[..k] == s;
  }

  method AppendPair(buf: array<char>, off: nat, s: string, t: string) returns (ok: bool, to: nat)
    requires off <= buf.Length
    modifies buf
    ensures ok <==> off + |s| + |t| <= buf.Length
    ensures ok ==> to == off + |s| + |t| && buf[..to] == old(buf[..off]) + (s + t)
  {
    ok, to := Append(buf, off, s);
    if ok {
      ok, to := Append(buf, to, t);
    }
  }

  lemma {:induction false} JoinMore(ps: seq<TvPair>, p: TvPair, d: char)
    requires ps != []
    ensures Join(ps + [p], d) == Join(ps, d) + [d] + Print(p)
  {
    if |ps| > 1 {
      assert (ps + [p])[1..] == ps[1..] + [p];
      JoinMore(ps[1..], p, d);
    } else {
      assert (ps + [p])[1..] == [p];
    }
  }

  lemma ListedMore(lead: char, ps: seq<TvPair>, i: nat, d: char)
    requires i < |ps|
    ensures Listed(lead, ps[..i + 1], d) ==
            Listed(lead, ps[..i], d) + [if i == 0 then lead else d] + Print(ps[i])
  {
    assert ps[..i + 1] == ps[..i] + [ps[i]];
    if i > 0 {
      JoinMore(ps[..i], ps[i], d);
    }
  }

  lemma {:induction false} ListedGrows(lead: char, ps: seq<TvPair>, i: nat, d: char)
    requires i <= |ps|
    ensures |Listed(lead, ps[..i], d)| <= |Listed(lead, ps, d)|
    decreases |ps| - i
  {
    if i < |ps| {
      ListedMore(lead, ps, i, d);
      ListedGrows(lead, ps, i + 1, d);
    } else {
      assert ps[..i] == ps;
    }
  }

  // The pairs of a list, each after its delimiter, with '=' if it has a value
  method AppendList(buf: array<char>, off: nat, lead: char, ps: seq<TvPair>, d: char)
    returns (ok: bool, to: nat)
    requires off <= buf.Length
    modifies buf
    ensures ok <==> off + |Listed(lead, ps, d)| <= buf.Length
    ensures ok ==> to == off + |Listed(lead, ps, d)|
                   && buf[..to] == old(buf[..off]) + Listed(lead, ps, d)
  {
    hide Listed;
    ok, to := true, off;
    var i := 0;
    assert Listed(lead, ps[..0], d) == "" by { NoneListed(lead, d); }
    while i < |ps|
      invariant i <= |ps| && to <= buf.Length
      invariant to == off + |Listed(lead, ps[..i], d)|
      invariant buf[..to] == old(buf[..off]) + Listed(lead, ps[..i], d)
    {
      ListedMore(lead, ps, i, d);
      ListedGrows(lead, ps, i + 1, d);
      ok, to := AppendPair(buf, to, [if i == 0 then lead else d], ps[i].token);
      if !ok {
        return;
      }
      if ps[i].value != "" {
        ok, to := AppendPair(buf, to, "=", ps[i].value);
        if !ok {
          return;
        }
      }
      i := i + 1;
    }
    assert ps[..i] == ps;
    ok := true;
  }

  lemma NoneListed(lead: char, d: char)
    ensures Listed(lead, [], d) == ""
  {
  }
}
