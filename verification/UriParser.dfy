module UriParser {
  // SIP URIs parsed into a message heap, and printed into a buffer.

  import opened Base
  import opened Strings
  import opened TvPairs
  import opened MsgHeap
  import opened Records
  import opened Uri

  method TakeUser(u: SipUri, s: string) returns (v: SipUri, more: string)
    ensures (match Split(s, '@')
             case Some((userpass, rest)) => (ParseUser(u, userpass), rest)
             case None => (u, s)) == (v, more)
  {
    v, more := u, s;
    var r := SplitElement(s, '@', false);
    if r.Some? {
      var userpass := r.value.0;
      more := r.value.1;
      var q := Split(userpass, ':');
      if q.Some? {
        v := v.(user := q.value.0, password := q.value.1);
      } else {
        v := v.(user := userpass);
      }
    }
  }

  method TakeParts(s: string) returns (pnum: string, pspace: string, hspace: string)
    ensures (pnum, pspace, hspace) == Parts(s)
  {
    var iup := s;
    var r := SplitElement(iup, ';', false);
    if r.None? {
      pspace := "";
      r := SplitElement(iup, '?', false);
      if r.None? {
        pnum, hspace := iup, "";
      } else {
        pnum, hspace := r.value.0, r.value.1;
      }
    } else {
      pnum, iup := r.value.0, r.value.1;
      r := SplitElement(iup, '?', false);
      if r.None? {
        pspace, hspace := iup, "";
      } else {
        pspace, hspace := r.value.0, r.value.1;
      }
    }
  }

  method TakeHost(pnum: string) returns (r: Option<(string, nat)>)
    ensures r == ParseHost(pnum)
  {
    if pnum == "" {
      return None;
    }
    var q := SplitElement(pnum, ':', false);
    if q.None? {
      return Some((pnum, 0));
    }
    var port := AtouiRange(q.value.1, 1, 65535);
    if port.None? {
      return None;
    }
    return Some((q.value.0, port.value));
  }

  function PairCount(u: SipUri): nat {
    |u.parameters| + |u.headers|
  }

  // A URI but for its lists, and the text of those
  function Scanned(s: string): Option<(SipUri, string, string)> {
    match Split(s, ':')
    case None => None
    case Some((proto, rest)) =>
      var u := NO_URI.(proto := proto);
      var (v, more) := match Split(rest, '@')
                       case Some((userpass, m)) => (ParseUser(u, userpass), m)
                       case None => (u, rest);
      var (pnum, ps, hs) := Parts(more);
      var hp := ParseHost(pnum);
      if hp.None? then None else Some((v.(host := hp.value.0, port := hp.value.1), ps, hs))
  }

  lemma ParseIsScanned(s: string)
    ensures Parse(s) ==
      if Scanned(s).None? then None
      else var (u, ps, hs) := Scanned(s).value;
           Some(u.(parameters := Pairs(ps, ';', false), headers := Pairs(hs, '&', false)))
  {
    hide Parts, ParseHost, Pairs, ParseUser;
  }

  method ScanUri(s: string) returns (r: Option<(SipUri, string, string)>)
    ensures r == Scanned(s)
  {
    hide Parts, ParseHost, ParseUser;
    var q := SplitElement(s, ':', false);
    if q.None? {
      return None;
    }
    var v, more := TakeUser(NO_URI.(proto := q.value.0), q.value.1);
    var pnum, pspace, hspace := TakeParts(more);
    var host := TakeHost(pnum);
    if host.None? {
      return None;
    }
    return Some((v.(host := host.value.0, port := host.value.1), pspace, hspace));
  }

  // usipy_sip_uri_parse: the record grows pair by pair, parameters and then
  // headers in one storage; whatever goes wrong, the heap is rolled back.
  method ParseUri(hp: Heap, l: Layout, s: string) returns (r: Option<SipUri>)
    requires hp.Valid()
    modifies hp`alen, hp`live, hp.mem
    ensures hp.Valid()
    ensures var u := Parse(s);
      r == if u.Some? && HasRoom(hp.tsize, old(hp.alen), l, PairCount(u.value)) then u else None
    ensures r.Some? ==>
      hp.live == old(hp.live)
                 + [Region(Aligned(old(hp.alen)), Aligned(SizeOf(l, PairCount(r.value))))]
    ensures r.None? ==>
      hp.live == old(hp.live) && (hp.alen == old(hp.alen) || hp.alen == Aligned(old(hp.alen)))
  {
    hide Parse, Scanned, Pairs, HasRoom, SizeOf, Aligned, Heap.Valid, Growing;
    ParseIsScanned(s);
    var ok, c;
    ghost var at;
    ok, c, at := Begin(hp, l);
    if !ok {
      if Parse(s).Some? {
        NoRoomLater(hp.tsize, old(hp.alen), l, 0, PairCount(Parse(s).value));
      }
      return None;
    }
    var q := ScanUri(s);
    if q.None? {
      GiveUp(hp, c, l, 0, at);
      return None;
    }
    var (v, pspace, hspace) := q.value;
    var fits, storage, nparams := ParseLists(hp, c, l, at, pspace, hspace);
    AtStart(hp.tsize, old(hp.alen), l, PairCount(Parse(s).value));
    if !fits {
      return None;
    }
    r := Some(v.(parameters := storage[..nparams], headers := storage[nparams..]));
  }

  lemma AtStart(tsize: nat, alen: nat, l: Layout, n: nat)
    ensures HasRoom(tsize, alen, l, n) <==> HasRoom(tsize, Aligned(alen), l, n)
  {
  }

  // The parameters, and the headers after them in the same storage
  method ParseLists(hp: Heap, c: Cnt, l: Layout, ghost at: nat, pspace: string, hspace: string)
    returns (ok: bool, storage: seq<TvPair>, nparams: nat)
    requires Growing(hp, c, l, 0, at)
    modifies hp`alen, hp`live, hp.mem
    ensures hp.Valid() && (ok ==> nparams <= |storage|)
    ensures var ps, hs := Pairs(pspace, ';', false), Pairs(hspace, '&', false);
      && (ok <==> (ps == [] && hs == []) || HasRoom(hp.tsize, at, l, |ps| + |hs|))
      && (ok ==> storage[..nparams] == ps && storage[nparams..] == hs)
    ensures ok ==> hp.live == old(hp.live[..|hp.live| - 1]) + [Region(at, Aligned(SizeOf(l, |storage|)))]
    ensures !ok ==> hp.live == old(hp.live[..|hp.live| - 1]) && hp.alen == at
  {
    hide Pairs, HasRoom, SizeOf;
    PairsNone(pspace, ';');
    PairsNone(hspace, '&');
    var e, ps, hs;
    ok, e, ps := ParsePairs(hp, c, l, 0, at, pspace, ';', false);
    storage, nparams := ps, |ps|;
    if !ok {
      NoRoomLater(hp.tsize, at, l, |Pairs(pspace, ';', false)|,
                  |Pairs(pspace, ';', false)| + |Pairs(hspace, '&', false)|);
      GiveUp(hp, e, l, |ps|, at);
      return;
    }
    ok, e, hs := ParsePairs(hp, e, l, nparams, at, hspace, '&', false);
    if !ok {
      GiveUp(hp, e, l, nparams + |hs|, at);
      return;
    }
    storage := storage + hs;
  }

  lemma PairsNone(s: string, d: char)
    ensures Pairs(s, d, false) == [] <==> s == ""
  {
  }

  // Up to the port, which is printed with a 0 after it
  function UptoPort(u: SipUri): string {
    u.proto + ":" + ((if u.user == "" then "" else UserPass(u) + "@") + HostPort(u.host, u.port))
  }

  lemma BuildSplit(u: SipUri)
    ensures Build(u) == UptoPort(u) + Listed(';', u.parameters, ';') + Listed('?', u.headers, '&')
  {
    hide Listed, HostPort, UserPass;
    var a := if u.user == "" then "" else UserPass(u) + "@";
    var b, c, d := HostPort(u.host, u.port), Listed(';', u.parameters, ';'),
                   Listed('?', u.headers, '&');
    assert a + (b + c + d) == a + b + c + d;
    assert u.proto + ":" + (a + b + c + d) == u.proto + ":" + (a + b) + c + d;
  }

  predicate FitsIn(u: SipUri, len: nat) {
    |Build(u)| <= len && (u.port != 0 ==> |UptoPort(u)| < len)
  }

  // usipy_sip_uri_build: the length printed, -1 if there is not the room
  method BuildUri(u: SipUri, buf: array<char>) returns (n: int)
    modifies buf
    ensures n >= 0 <==> FitsIn(u, buf.Length)
    ensures n >= 0 ==> n <= buf.Length && buf[..n] == Build(u)
    ensures n < 0 ==> n == -1
  {
    hide Listed, UptoPort, Build;
    BuildSplit(u);
    var ok, off := BuildStart(u, buf);
    if !ok {
      return -1;
    }
    ok, off := AppendList(buf, off, ';', u.parameters, ';');
    if !ok {
      return -1;
    }
    ok, off := AppendList(buf, off, '?', u.headers, '&');
    if !ok {
      return -1;
    }
    n := off;
  }

  method BuildStart(u: SipUri, buf: array<char>) returns (ok: bool, off: nat)
    modifies buf
    ensures ok <==> |UptoPort(u)| + (if u.port != 0 then 1 else 0) <= buf.Length
    ensures ok ==> off == |UptoPort(u)| && buf[..off] == UptoPort(u)
  {
    hide Digits;
    ok, off := AppendPair(buf, 0, u.proto, ":");
    if !ok {
      return;
    }
    ok, off := AppendUser(u, buf, off);
    if !ok {
      return;
    }
    ok, off := Append(buf, off, u.host);
    if !ok {
      return;
    }
    if u.port != 0 {
      if |":" + Digits(u.port)| >= buf.Length - off {
        ok := false;
        return;
      }
      ok, off := Append(buf, off, ":" + Digits(u.port));
    }
    assert ok ==> buf[..off] == UptoPort(u);
  }

  method AppendUser(u: SipUri, buf: array<char>, at: nat) returns (ok: bool, off: nat)
    requires at <= buf.Length
    modifies buf
    ensures var a := if u.user == "" then "" else UserPass(u) + "@";
      && (ok <==> at + |a| <= buf.Length)
      && (ok ==> off == at + |a| && buf[..off] == old(buf[..at]) + a)
  {
    ok, off := true, at;
    if u.user != "" {
      ok, off := Append(buf, off, u.user);
      if !ok {
        return;
      }
      if u.password != "" {
        ok, off := AppendPair(buf, off, ":", u.password);
        if !ok {
          return;
        }
      }
      ok, off := Append(buf, off, "@");
    }
  }
}
