module Uri {
  // SIP URIs (usipy_sip_uri.c): parsing, printing, and exactly which of them
  // come back unchanged.

  import opened Base
  import opened Strings
  import opened TvPairs

  datatype SipUri = SipUri(proto: string, user: string, password: string, host: string, port: nat,
                           parameters: seq<TvPair>, headers: seq<TvPair>)

  // --- Printing

  function HostPort(host: string, port: nat): string {
    if port == 0 then host else host + ":" + Digits(port)
  }

  function BuildRest(u: SipUri): string {
    HostPort(u.host, u.port) + Listed(';', u.parameters, ';') + Listed('?', u.headers, '&')
  }

  function UserPass(u: SipUri): string {
    if u.password == "" then u.user else u.user + ":" + u.password
  }

  function Build(u: SipUri): string {
    u.proto + ":" + ((if u.user == "" then "" else UserPass(u) + "@") + BuildRest(u))
  }

  // --- Parsing

  const NO_URI := SipUri("", "", "", "", 0, [], [])

  // What is between '@' and the end: host and port, parameters, headers
  function Parts(s: string): (string, string, string) {
    match Split(s, ';')
    case Some((pnum, rest)) =>
      (match Split(rest, '?')
       case Some((p, h)) => (pnum, p, h)
       case None => (pnum, rest, ""))
    case None =>
      (match Split(s, '?')
       case Some((pnum, h)) => (pnum, "", h)
       case None => (s, "", ""))
  }

  function ParseHost(pnum: string): Option<(string, nat)> {
    if pnum == "" then None
    else
      match Split(pnum, ':')
      case None => Some((pnum, 0))
      case Some((host, digits)) =>
        var port := ReadNumber(digits, 1, 65535);
        if port.None? then None else Some((host, port.value))
  }

  function ParseRest(u: SipUri, s: string): Option<SipUri> {
    var (pnum, ps, hs) := Parts(s);
    var hp := ParseHost(pnum);
    if hp.None? then None
    else Some(u.(host := hp.value.0, port := hp.value.1,
                 parameters := Pairs(ps, ';', false), headers := Pairs(hs, '&', false)))
  }

  function ParseUser(u: SipUri, userpass: string): SipUri {
    match Split(userpass, ':')
    case Some((user, password)) => u.(user := user, password := password)
    case None => u.(user := userpass)
  }

  function Parse(s: string): Option<SipUri> {
    match Split(s, ':')
    case None => None
    case Some((proto, rest)) =>
      var u := NO_URI.(proto := proto);
      match Split(rest, '@')
      case Some((userpass, more)) => ParseRest(ParseUser(u, userpass), more)
      case None => ParseRest(u, rest)
  }

  // A URI printed and parsed again, as for the requests made from another one
  function Reprinted(u: SipUri): Option<SipUri> {
    Parse(Build(u))
  }

  // --- What comes back unchanged

  predicate AllFree(ps: seq<TvPair>, c: char) {
    forall i :: 0 <= i < |ps| ==> Free(ps[i].token, c) && Free(ps[i].value, c)
  }

  // Host, port, parameters and headers: no delimiter where it would be taken
  // for one. '?' in the host and ';' in the headers only do harm if there are
  // no parameters in between.
  predicate GoodRest(u: SipUri) {
    && Free(u.host, ':') && Free(u.host, ';')
    && u.port <= 65535 && (u.host == "" ==> u.port != 0)
    && (u.parameters == [] || (Good(u.parameters, ';', false) && AllFree(u.parameters, '?')))
    && (u.headers == [] || Good(u.headers, '&', false))
    && (u.parameters == [] ==> Free(u.host, '?') && AllFree(u.headers, ';'))
  }

  predicate RestFree(u: SipUri, c: char) {
    Free(u.host, c) && AllFree(u.parameters, c) && AllFree(u.headers, c)
  }

  // ... and the user part: without a user there is no password, and no '@'
  // anywhere after
  predicate GoodUri(u: SipUri) {
    && Free(u.proto, ':') && GoodRest(u)
    && if u.user == "" then u.password == "" && RestFree(u, '@')
       else Free(u.user, ':') && Free(u.user, '@') && Free(u.password, '@')
  }

  // --- Characters of what is printed

  lemma {:induction false} JoinFree(ps: seq<TvPair>, d: char, c: char)
    requires ps != [] && c != d && c != '='
    ensures Free(Join(ps, d), c) <==> AllFree(ps, c)
  {
    var p := ps[0];
    PrintFree(p, c);
    if |ps| > 1 {
      JoinFree(ps[1..], d, c);
      FreeCat(Print(p), [d], c);
      FreeCat(Print(p) + [d], Join(ps[1..], d), c);
      assert AllFree(ps, c) <==> AllFree([p], c) && AllFree(ps[1..], c) by {
        assert ps == [p] + ps[1..];
        if AllFree([p], c) {
          assert Free([p][0].token, c) && Free([p][0].value, c);
        }
      }
    }
  }

  lemma PrintFree(p: TvPair, c: char)
    requires c != '='
    ensures Free(Print(p), c) <==> Free(p.token, c) && Free(p.value, c)
  {
    FreeCat(p.token, "=", c);
    FreeCat(p.token + "=", p.value, c);
  }

  lemma FreeCat(a: string, b: string, c: char)
    ensures Free(a + b, c) <==> Free(a, c) && Free(b, c)
  {
    assert forall k :: 0 <= k < |a| ==> (a + b)[k] == a[k];
    assert forall k :: 0 <= k < |b| ==> (a + b)[|a| + k] == b[k];
  }

  lemma ListedFree(lead: char, ps: seq<TvPair>, d: char, c: char)
    requires c != lead && c != d && c != '='
    ensures Free(Listed(lead, ps, d), c) <==> AllFree(ps, c)
  {
    if ps != [] {
      JoinFree(ps, d, c);
      FreeCat([lead], Join(ps, d), c);
    }
  }

  lemma HostPortFree(host: string, port: nat, c: char)
    requires c != ':' && !IsDigit(c)
    ensures Free(HostPort(host, port), c) <==> Free(host, c)
  {
    if port != 0 {
      DigitsFree(port, c);
      FreeCat(host, ":", c);
      FreeCat(host + ":", Digits(port), c);
    }
  }

  lemma RestFreeRight(u: SipUri, c: char)
    requires c !in {':', ';', '?', '&', '='} && !IsDigit(c)
    ensures Free(BuildRest(u), c) <==> RestFree(u, c)
  {
    var hp := HostPort(u.host, u.port);
    var p, h := Listed(';', u.parameters, ';'), Listed('?', u.headers, '&');
    HostPortFree(u.host, u.port, c);
    ListedFree(';', u.parameters, ';', c);
    ListedFree('?', u.headers, '&', c);
    FreeCat(hp, p, c);
    FreeCat(hp + p, h, c);
  }

  // --- Host and port

  lemma HostTrips(host: string, port: nat)
    requires Free(host, ':') && port <= 65535 && (host == "" ==> port != 0)
    ensures ParseHost(HostPort(host, port)) == Some((host, port))
  {
    FindNone(host, ':');
    if port != 0 {
      FindIn(host, Digits(port), ':');
      DigitsBack(port);
    }
  }

  lemma HostParsed(s: string)
    requires ParseHost(s).Some?
    ensures var (host, port) := ParseHost(s).value;
      && Free(host, ':') && port <= 65535 && (host == "" ==> port != 0)
      && |HostPort(host, port)| <= |s|
  {
    match Split(s, ':')
    case None => FindNone(s, ':');
    case Some((host, digits)) => DigitsShortest(digits);
  }

  // --- The parts

  lemma PartsWithParams(u: SipUri)
    requires GoodRest(u) && u.parameters != []
    ensures Parts(BuildRest(u)) == (HostPort(u.host, u.port), Join(u.parameters, ';'),
                                    if u.headers == [] then "" else Join(u.headers, '&'))
  {
    hide Join, Good, HostPort;
    var hp, p := HostPort(u.host, u.port), Join(u.parameters, ';');
    var h := Listed('?', u.headers, '&');
    HostPortFree(u.host, u.port, ';');
    assert BuildRest(u) == hp + [';'] + (p + h);
    FindIn(hp, p + h, ';');
    JoinFree(u.parameters, ';', '?');
    if u.headers != [] {
      var hs := Join(u.headers, '&');
      assert p + h == p + ['?'] + hs;
      FindIn(p, hs, '?');
    } else {
      assert p + h == p;
      FindNone(p, '?');
    }
  }

  lemma PartsWithout(u: SipUri)
    requires GoodRest(u) && u.parameters == []
    ensures Parts(BuildRest(u)) == (HostPort(u.host, u.port), "",
                                    if u.headers == [] then "" else Join(u.headers, '&'))
  {
    hide Join, Good, HostPort;
    var hp := HostPort(u.host, u.port);
    HostPortFree(u.host, u.port, ';');
    HostPortFree(u.host, u.port, '?');
    if u.headers != [] {
      var hs := Join(u.headers, '&');
      JoinFree(u.headers, '&', ';');
      assert BuildRest(u) == hp + ['?'] + hs;
      FreeCat(hp, "?", ';');
      FreeCat(hp + "?", hs, ';');
      FindNone(BuildRest(u), ';');
      FindIn(hp, hs, '?');
    } else {
      assert BuildRest(u) == hp;
      FindNone(hp, ';');
      FindNone(hp, '?');
    }
  }

  lemma PartsTrip(u: SipUri)
    requires GoodRest(u)
    ensures Parts(BuildRest(u)) == (HostPort(u.host, u.port),
                                    if u.parameters == [] then "" else Join(u.parameters, ';'),
                                    if u.headers == [] then "" else Join(u.headers, '&'))
  {
    hide Parts, BuildRest, GoodRest;
    if u.parameters != [] {
      PartsWithParams(u);
    } else {
      PartsWithout(u);
    }
  }

  lemma RestTrips(u: SipUri, v: SipUri)
    requires GoodRest(u)
    ensures ParseRest(v, BuildRest(u)) ==
            Some(v.(host := u.host, port := u.port, parameters := u.parameters, headers := u.headers))
  {
    PartsTrip(u);
    HostTrips(u.host, u.port);
    if u.parameters != [] {
      GoodTrips(u.parameters, ';', false);
      GoodJoin(u.parameters, ';');
    }
    if u.headers != [] {
      GoodTrips(u.headers, '&', false);
      GoodJoin(u.headers, '&');
    }
  }

  lemma GoodJoin(ps: seq<TvPair>, d: char)
    requires Good(ps, d, false)
    ensures Join(ps, d) != ""
  {
  }

  lemma UserTrips(u: SipUri, v: SipUri)
    requires Free(u.user, ':') && Free(u.user, '@') && Free(u.password, '@') && v.password == ""
    ensures Free(UserPass(u), '@')
    ensures ParseUser(v, UserPass(u)) == v.(user := u.user, password := u.password)
  {
    FreeCat(u.user, ":", '@');
    FreeCat(u.user + ":", u.password, '@');
    if u.password != "" {
      FindIn(u.user, u.password, ':');
    } else {
      FindNone(u.user, ':');
    }
  }

  // Every good URI survives printing and parsing
  lemma GoodUriTrips(u: SipUri)
    requires GoodUri(u)
    ensures Parse(Build(u)) == Some(u)
  {
    hide BuildRest, ParseRest, ParseUser, UserPass, RestFree, GoodRest;
    var r := BuildRest(u);
    var v := NO_URI.(proto := u.proto);
    if u.user == "" {
      assert Build(u) == u.proto + [':'] + r;
      FindIn(u.proto, r, ':');
      RestFreeRight(u, '@');
      FindNone(r, '@');
      RestTrips(u, v);
    } else {
      var up := UserPass(u);
      assert Build(u) == u.proto + [':'] + (up + ['@'] + r);
      FindIn(u.proto, up + ['@'] + r, ':');
      UserTrips(u, v);
      FindIn(up, r, '@');
      RestTrips(u, v.(user := u.user, password := u.password));
    }
  }

  // --- ... and no other

  lemma SplitCover(s: string, c: char)
    ensures match Split(s, c)
      case None => Free(s, c)
      case Some((a, b)) => s == a + [c] + b && Free(a, c)
  {
    FindNone(s, c);
  }

  // The parts add up to the whole, delimiters and all
  lemma PartsCover(s: string) returns (p2: string, h2: string)
    ensures var (n, p, h) := Parts(s);
      && s == n + p2 + h2 && Free(n, ';') && Free(p, '?')
      && ((p2 == "" && p == "" && Free(s, ';') && Free(n, '?')) || p2 == [';'] + p)
      && ((h2 == "" && h == "") || h2 == ['?'] + h)
  {
    hide Find, Free, Split;
    SplitCover(s, ';');
    SplitCover(s, '?');
    var (n, p, h) := Parts(s);
    match Split(s, ';') {
      case None =>
        p2 := "";
        h2 := if Split(s, '?').None? then "" else ['?'] + h;
        assert s == n + h2;
        FreeCat(n, h2, ';');
        assert n + p2 == n;
        NoneAtAll('?');
      case Some((_, r)) =>
        SplitCover(r, '?');
        p2 := [';'] + p;
        h2 := if Split(r, '?').None? then "" else ['?'] + h;
        assert r == p + h2;
        assert n + [';'] + (p + h2) == n + p2 + h2;
    }
  }

  lemma NoneAtAll(c: char)
    ensures Free("", c)
  {
  }

  lemma ThreeEqual(a: string, b: string, c: string, n: string, p: string, h: string)
    requires a + b + c == n + p + h && |a| <= |n| && |b| <= |p| && |c| <= |h|
    ensures a == n && b == p && c == h
  {
    var x := a + b + c;
    assert x[..|a|] == a && x[..|n|] == n;
    assert x[|a|..|a| + |b|] == b && x[|n|..|n| + |p|] == p;
    assert x[|a| + |b|..] == c && x[|n| + |p|..] == h;
  }

  lemma ListShrinks(lead: char, s: string, d: char)
    ensures var ps := Pairs(s, d, false);
      (ps == [] <==> s == "") && |Listed(lead, ps, d)| <= if s == "" then 0 else |s| + 1
  {
    if s != "" {
      PairsShrink(s, d, false);
    }
  }

  // What was parsed prints no longer than it was
  lemma RestShrinks(v: SipUri, s: string)
    requires ParseRest(v, s).Some?
    ensures |BuildRest(ParseRest(v, s).value)| <= |s|
  {
    var (n, p, h) := Parts(s);
    var _, _ := PartsCover(s);
    HostParsed(n);
    ListShrinks(';', p, ';');
    ListShrinks('?', h, '&');
  }

  // What prints as long as it was parsed was parsed part by part
  lemma PartsBack(v: SipUri, u: SipUri)
    requires ParseRest(v, BuildRest(u)) == Some(u)
    ensures var (n, p, h) := Parts(BuildRest(u));
      && n == HostPort(u.host, u.port)
      && (p == "" <==> u.parameters == []) && (p != "" ==> p == Join(u.parameters, ';'))
      && (h == "" <==> u.headers == []) && (h != "" ==> h == Join(u.headers, '&'))
      && (p == "" ==> Free(BuildRest(u), ';') && Free(n, '?')) && Free(n, ';') && Free(p, '?')
  {
    hide Join, Pairs, Parts, ParseHost, HostPort;
    var x := BuildRest(u);
    var (n, p, h) := Parts(x);
    var p2, h2 := PartsCover(x);
    HostParsed(n);
    ListShrinks(';', p, ';');
    ListShrinks('?', h, '&');
    ThreeEqual(HostPort(u.host, u.port), Listed(';', u.parameters, ';'),
               Listed('?', u.headers, '&'), n, p2, h2);
    assert ([';'] + p)[1..] == p && (['?'] + h)[1..] == h;
    if u.parameters != [] {
      assert ([';'] + Join(u.parameters, ';'))[1..] == Join(u.parameters, ';');
    }
    if u.headers != [] {
      assert (['?'] + Join(u.headers, '&'))[1..] == Join(u.headers, '&');
    }
  }

  lemma GoodRestOnly(v: SipUri, u: SipUri)
    requires ParseRest(v, BuildRest(u)) == Some(u)
    ensures GoodRest(u)
  {
    var x := BuildRest(u);
    var (n, p, h) := Parts(x);
    PartsBack(v, u);
    HostParsed(n);
    HostPortFree(u.host, u.port, ';');
    HostPortFree(u.host, u.port, '?');
    if p != "" {
      TripsGood(u.parameters, ';', false);
      JoinFree(u.parameters, ';', '?');
    } else {
      FreeParts(u, ';');
    }
    if h != "" {
      TripsGood(u.headers, '&', false);
    }
  }

  lemma FreeParts(u: SipUri, c: char)
    requires c == ';' && u.parameters == [] && Free(BuildRest(u), c)
    ensures Free(u.host, c) && AllFree(u.headers, c)
  {
    var hp, h := HostPort(u.host, u.port), Listed('?', u.headers, '&');
    assert BuildRest(u) == hp + h;
    FreeCat(hp, h, c);
    HostPortFree(u.host, u.port, c);
    ListedFree('?', u.headers, '&', c);
  }

  lemma UserBack(v: SipUri, u: SipUri, s: string)
    requires v.password == "" && ParseUser(v, s) == v.(user := u.user, password := u.password)
    ensures |UserPass(u)| <= |s| && Free(u.user, ':')
  {
    FindNone(s, ':');
  }

  lemma SplitAt(s: string, c: char, k: nat)
    requires Find(s, c) == k < |s|
    ensures Split(s, c) == Some((s[..k], s[k + 1..])) && Free(s[..k], c)
  {
  }

  lemma GoodUriOnly(u: SipUri)
    requires Parse(Build(u)) == Some(u)
    ensures GoodUri(u)
  {
    hide BuildRest, ParseRest, ParseUser, UserPass, RestFree, GoodRest;
    var s, r := Build(u), BuildRest(u);
    var k := Find(s, ':');
    SplitAt(s, ':', k);
    ParsedProto(s);
    assert k == |u.proto| && s[..k] == u.proto;
    var rest := (if u.user == "" then "" else UserPass(u) + "@") + r;
    assert s[k + 1..] == rest;
    var v := NO_URI.(proto := u.proto);
    if u.user == "" {
      assert rest == r;
      NoUserBack(u, v);
    } else {
      assert rest == UserPass(u) + ['@'] + r;
      SomeUserBack(u, v);
    }
  }

  lemma ParsedRest(v: SipUri, s: string)
    requires ParseRest(v, s).Some?
    ensures var w := ParseRest(v, s).value;
      w.proto == v.proto && w.user == v.user && w.password == v.password
  {
  }

  lemma ParsedProto(s: string)
    requires Parse(s).Some?
    ensures Find(s, ':') < |s| && Parse(s).value.proto == s[..Find(s, ':')]
  {
  }

  lemma NoUserBack(u: SipUri, v: SipUri)
    requires u.user == "" && v == NO_URI.(proto := u.proto)
    requires (match Split(BuildRest(u), '@')
              case Some((userpass, more)) => ParseRest(ParseUser(v, userpass), more)
              case None => ParseRest(v, BuildRest(u))) == Some(u)
    ensures u.password == "" && RestFree(u, '@') && GoodRest(u)
  {
    hide BuildRest, ParseRest, ParseUser, RestFree, GoodRest;
    var r := BuildRest(u);
    match Split(r, '@') {
      case Some((userpass, more)) =>
        RestShrinks(ParseUser(v, userpass), more);
        assert false;
      case None =>
        FindNone(r, '@');
        RestFreeRight(u, '@');
        ParsedRest(v, r);
        GoodRestOnly(v, u);
    }
  }

  lemma SomeUserBack(u: SipUri, v: SipUri)
    requires u.user != "" && v == NO_URI.(proto := u.proto)
    requires (match Split(UserPass(u) + ['@'] + BuildRest(u), '@')
              case Some((userpass, more)) => ParseRest(ParseUser(v, userpass), more)
              case None => ParseRest(v, UserPass(u) + ['@'] + BuildRest(u))) == Some(u)
    ensures Free(u.user, ':') && Free(u.user, '@') && Free(u.password, '@') && GoodRest(u)
  {
    hide BuildRest, ParseRest, RestFree, GoodRest;
    var up, r := UserPass(u), BuildRest(u);
    var rest := up + ['@'] + r;
    assert rest[|up|] == '@';
    var k := Find(rest, '@');
    SplitAt(rest, '@', k);
    var userpass, more := rest[..k], rest[k + 1..];
    var w := ParseUser(v, userpass);
    ParsedRest(w, more);
    UserBack(v, u, userpass);
    assert k == |up| && userpass == up && more == r;
    UserFree(u);
    GoodRestOnly(w, u);
  }

  lemma UserFree(u: SipUri)
    requires Free(UserPass(u), '@')
    ensures Free(u.user, '@') && Free(u.password, '@')
  {
    FreeCat(u.user, ":", '@');
    FreeCat(u.user + ":", u.password, '@');
  }

  // A URI survives printing and parsing exactly if it is good
  lemma UriTrips(u: SipUri)
    ensures Parse(Build(u)) == Some(u) <==> GoodUri(u)
  {
    if GoodUri(u) {
      GoodUriTrips(u);
    }
    if Parse(Build(u)) == Some(u) {
      GoodUriOnly(u);
    }
  }

  // A ';' in a header, with no parameters before it, is taken for theirs
  lemma UriLost()
    ensures var u := SipUri("sip", "", "", "h", 0, [], [TvPair("a", "b;c")]);
            Parse(Build(u)) != Some(u)
  {
    var u := SipUri("sip", "", "", "h", 0, [], [TvPair("a", "b;c")]);
    UriTrips(u);
    assert u.headers[0].value[1] == ';';
  }
}
