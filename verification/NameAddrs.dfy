module NameAddrs {
  // The values of From, To and Contact (usipy_sip_hdr_nameaddr.c): parsing,
  // printing, and exactly which of them come back unchanged.

  import opened Base
  import opened Strings
  import opened TvPairs
  import opened MsgHeap
  import opened Records

  datatype NameAddr = NameAddr(display: string, addr: string, params: seq<TvPair>)

  function Lead(n: NameAddr): string {
    if n.display == "" then "" else n.display + " "
  }

  function BuildNa(n: NameAddr): string {
    Lead(n) + "<" + (n.addr + ">" + Listed(';', n.params, ';'))
  }

  // What is left after '>': nothing, or ';' and parameters
  function ParamSpace(s: string): Option<string> {
    if s == "" then Some("")
    else if |s| == 1 || s[0] != ';' then None
    else Some(s[1..])
  }

  // Display name, address, and the text of the parameters
  function Pieces(s: string): Option<(string, string, string)> {
    match SplitElem(s, '<', true)
    case None =>
      (match SplitElem(s, ';', true)
       case Some((a, rest)) => Some(("", a, rest))
       case None => Some(("", s, "")))
    case Some((d, right)) =>
      match SplitElem(right, '>', true)
      case None => None
      case Some((a, rest)) =>
        var ps := ParamSpace(rest);
        if ps.None? then None else Some((d, a, ps.value))
  }

  function ParseNa(s: string): Option<NameAddr> {
    var p := Pieces(s);
    if p.None? then None
    else Some(NameAddr(p.value.0, p.value.1, Pairs(p.value.2, ';', true)))
  }

  // Those that come back: no delimiter where it would be taken for one, and no
  // whitespace where it would be trimmed
  predicate GoodNa(n: NameAddr) {
    && Free(n.display, '<') && !EndsWs(n.display)
    && Free(n.addr, '>') && !StartsWs(n.addr) && !EndsWs(n.addr)
    && (n.params == [] || Good(n.params, ';', true))
  }

  lemma TrimSpace(s: string)
    ensures TrimEnd(s + " ") == TrimEnd(s)
  {
    assert (s + " ")[..|s|] == s;
  }

  lemma NothingToTrim(s: string)
    ensures !StartsWs(s) ==> TrimStart(s) == s
    ensures !EndsWs(s) ==> TrimEnd(s) == s
  {
  }

  // The part from the address on
  lemma AddrTrips(addr: string, p: string)
    requires Free(addr, '>') && !StartsWs(addr) && !EndsWs(addr)
    requires p != "" ==> p[0] == ';'
    ensures var r := addr + ">" + p;
      TrimStart(r) == r && SplitElem(r, '>', true) == Some((addr, p))
  {
    FindIn(addr, p, '>');
    NothingToTrim(addr + ">" + p);
    NothingToTrim(addr);
    NothingToTrim(p);
  }

  lemma GoodNaTrips(n: NameAddr)
    requires GoodNa(n)
    ensures ParseNa(BuildNa(n)) == Some(n)
  {
    hide SplitElem, Good, Join;
    var p := Listed(';', n.params, ';');
    var r := n.addr + ">" + p;
    AddrTrips(n.addr, p);
    LeadTrips(n, r);
    if n.params != [] {
      GoodTrips(n.params, ';', true);
      GoodNotEmpty(n.params);
      assert p[1..] == Join(n.params, ';');
    }
  }

  lemma GoodNotEmpty(ps: seq<TvPair>)
    requires Good(ps, ';', true)
    ensures Join(ps, ';') != ""
  {
  }

  lemma LeadTrips(n: NameAddr, r: string)
    requires Free(n.display, '<') && !EndsWs(n.display) && TrimStart(r) == r
    ensures SplitElem(Lead(n) + "<" + r, '<', true) == Some((n.display, r))
  {
    FindIn(Lead(n), r, '<');
    TrimSpace(n.display);
    NothingToTrim(n.display);
  }

  // --- ... and no others

  lemma LeadBack(n: NameAddr, r: string)
    requires var e := SplitElem(Lead(n) + "<" + r, '<', true);
             e.Some? && e.value.0 == n.display
    ensures Free(n.display, '<') && !EndsWs(n.display)
    ensures SplitElem(Lead(n) + "<" + r, '<', true) == Some((n.display, TrimStart(r)))
  {
    var d := Lead(n);
    var s := d + "<" + r;
    assert s[|d|] == '<';
    var k := Find(s, '<');
    assert TrimEnd(s[..k]) == n.display;
    if n.display != "" {
      assert s[|n.display|] == ' ';
      assert k == |d| && s[..k] == n.display + " ";
      TrimSpace(n.display);
      assert forall j :: 0 <= j < |n.display| ==> n.display[j] == s[j];
    }
    assert s[..k] == d && s[k + 1..] == r;
  }

  // No longer when printed than it was when parsed
  lemma ParamsShrink(s: string)
    requires ParamSpace(s).Some?
    ensures |Listed(';', Pairs(ParamSpace(s).value, ';', true), ';')| <= |s|
  {
    if s != "" {
      PairsShrink(s[1..], ';', true);
    }
  }

  lemma AddrBack(n: NameAddr)
    requires var p := Listed(';', n.params, ';');
             var e := SplitElem(TrimStart(n.addr + ">" + p), '>', true);
      && e.Some? && e.value.0 == n.addr && ParamSpace(e.value.1).Some?
      && Pairs(ParamSpace(e.value.1).value, ';', true) == n.params
    ensures Free(n.addr, '>') && !StartsWs(n.addr) && !EndsWs(n.addr)
    ensures ParamSpace(Listed(';', n.params, ';')).Some?
    ensures Pairs(ParamSpace(Listed(';', n.params, ';')).value, ';', true) == n.params
  {
    hide Pairs, Join;
    var p := Listed(';', n.params, ';');
    var r := n.addr + ">" + p;
    var right := TrimStart(r);
    var k := Find(right, '>');
    var rest := TrimStart(right[k + 1..]);
    assert TrimEnd(right[..k]) == n.addr;
    ParamsShrink(rest);
    assert |right| == |r| && right == r && |n.addr| == k;
    assert right[..k] == n.addr && right[k + 1..] == p && rest == p;
    if n.addr != "" {
      assert n.addr[0] == r[0];
    }
    assert forall j :: 0 <= j < k ==> n.addr[j] == r[j];
  }

  lemma GoodNaOnly(n: NameAddr)
    requires ParseNa(BuildNa(n)) == Some(n)
    ensures GoodNa(n)
  {
    hide Pairs, Good, Join, SplitElem;
    var p := Listed(';', n.params, ';');
    var r := n.addr + ">" + p;
    SomeLead(n, r);
    LeadBack(n, r);
    AddrBack(n);
    if n.params != [] {
      assert p[1..] == Join(n.params, ';');
      TripsGood(n.params, ';', true);
    }
  }

  lemma SomeLead(n: NameAddr, r: string)
    ensures SplitElem(Lead(n) + "<" + r, '<', true).Some?
  {
    assert (Lead(n) + "<" + r)[|Lead(n)|] == '<';
  }

  // A name-addr survives printing and parsing exactly if it is good
  lemma NaTrips(n: NameAddr)
    ensures ParseNa(BuildNa(n)) == Some(n) <==> GoodNa(n)
  {
    if GoodNa(n) {
      GoodNaTrips(n);
    }
    if ParseNa(BuildNa(n)) == Some(n) {
      GoodNaOnly(n);
    }
  }

  // Space at the end of a display name is lost
  lemma NaLost()
    ensures var n := NameAddr("Bob ", "sip:bob@h", []);
            ParseNa(BuildNa(n)) != Some(n)
  {
    NaTrips(NameAddr("Bob ", "sip:bob@h", []));
  }

  // --- In place

  method TakePieces(s: string) returns (p: Option<(string, string, string)>)
    ensures p == Pieces(s)
  {
    var r := SplitElement(s, '<', true);
    if r.None? {
      r := SplitElement(s, ';', true);
      return Some(if r.Some? then ("", r.value.0, r.value.1) else ("", s, ""));
    }
    var display := r.value.0;
    r := SplitElement(r.value.1, '>', true);
    if r.None? {
      return None;
    }
    var addr, iup := r.value.0, r.value.1;
    if |iup| > 0 {
      if |iup| == 1 || iup[0] != ';' {
        return None;
      }
      return Some((display, addr, iup[1..]));
    }
    return Some((display, addr, ""));
  }

  // usipy_sip_hdr_nameaddr_parse
  method ParseNameAddr(hp: Heap, l: Layout, s: string) returns (r: Option<NameAddr>)
    requires hp.Valid()
    modifies hp`alen, hp`live, hp.mem
    ensures hp.Valid()
    ensures var n := ParseNa(s);
      r == if n.Some? && HasRoom(hp.tsize, old(hp.alen), l, |n.value.params|) then n else None
    ensures r.Some? ==>
      hp.live == old(hp.live)
                 + [Region(Aligned(old(hp.alen)), Aligned(SizeOf(l, |r.value.params|)))]
    ensures r.None? ==>
      hp.live == old(hp.live) && (hp.alen == old(hp.alen) || hp.alen == Aligned(old(hp.alen)))
  {
    hide Pieces, Pairs, HasRoom, SizeOf, Aligned, Heap.Valid;
    var ok, c;
    ghost var at;
    ok, c, at := Begin(hp, l);
    if !ok {
      if ParseNa(s).Some? {
        NoRoomLater(hp.tsize, old(hp.alen), l, 0, |ParseNa(s).value.params|);
      }
      return None;
    }
    var p := TakePieces(s);
    if p.None? {
      GiveUp(hp, c, l, 0, at);
      return None;
    }
    var ps;
    ok, c, ps := ParsePairs(hp, c, l, 0, at, p.value.2, ';', true);
    NoPairs(p.value.2);
    SameRoom(hp.tsize, old(hp.alen), l, |Pairs(p.value.2, ';', true)|);
    if !ok {
      GiveUp(hp, c, l, |ps|, at);
      return None;
    }
    r := Some(NameAddr(p.value.0, p.value.1, ps));
  }

  lemma NoPairs(s: string)
    ensures Pairs(s, ';', true) == [] <==> s == ""
  {
  }

  lemma SameRoom(tsize: nat, alen: nat, l: Layout, n: nat)
    ensures HasRoom(tsize, alen, l, n) <==> HasRoom(tsize, Aligned(alen), l, n)
  {
  }

  // usipy_sip_hdr_nameaddr_build
  method BuildNameAddr(n: NameAddr, buf: array<char>) returns (len: int)
    modifies buf
    ensures len >= 0 <==> |BuildNa(n)| <= buf.Length
    ensures len >= 0 ==> len <= buf.Length && buf[..len] == BuildNa(n)
    ensures len < 0 ==> len == -1
  {
    hide Listed, BuildNa;
    BuildParts(n);
    var ok, off := BuildLead(n, buf);
    if !ok {
      return -1;
    }
    ok, off := AppendPair(buf, off, "<", n.addr);
    if !ok {
      return -1;
    }
    ok, off := Append(buf, off, ">");
    if !ok {
      return -1;
    }
    ok, off := AppendList(buf, off, ';', n.params, ';');
    if !ok {
      return -1;
    }
    len := off;
  }

  lemma BuildParts(n: NameAddr)
    ensures BuildNa(n) == Lead(n) + ("<" + n.addr) + ">" + Listed(';', n.params, ';')
  {
    hide Listed, Lead;
    var p := Listed(';', n.params, ';');
    assert "<" + (n.addr + ">" + p) == "<" + n.addr + ">" + p;
  }

  method BuildLead(n: NameAddr, buf: array<char>) returns (ok: bool, off: nat)
    modifies buf
    ensures ok <==> |Lead(n)| <= buf.Length
    ensures ok ==> off == |Lead(n)| && buf[..off] == Lead(n)
  {
    ok, off := true, 0;
    if n.display != "" {
      ok, off := AppendPair(buf, 0, n.display, " ");
    }
  }

  // The value of the first parameter of that name, empty or not
  function ParamOf(ps: seq<TvPair>, name: string): Option<string> {
    if ps == [] then None
    else if ps[0].token == name then Some(ps[0].value)
    else ParamOf(ps[1..], name)
  }

  // usipy_sip_hdr_nameaddr_get_param
  method GetParam(n: NameAddr, name: string) returns (v: Option<string>)
    ensures v == ParamOf(n.params, name)
  {
    var i := 0;
    while i < |n.params|
      invariant i <= |n.params| && ParamOf(n.params[i..], name) == ParamOf(n.params, name)
    {
      if n.params[i].token == name {
        return Some(n.params[i].value);
      }
      assert n.params[i..][1..] == n.params[i + 1..];
      i := i + 1;
    }
    return None;
  }
}
