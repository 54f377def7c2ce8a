module UriText {
  // The text of a URI through parsing and printing: exactly which texts come
  // back unchanged, and what a URI that was parsed lacks if it does not.

  import opened Base
  import opened Strings
  import opened TvPairs
  import opened Uri

  // --- Texts that come back

  // No '=' with nothing after it
  predicate CleanPair(t: string) {
    match Split(t, '=')
    case None => true
    case Some((a, b)) => b != ""
  }

  // ... nor an empty pair at the end
  predicate CleanList(s: string, d: char)
    decreases |s|
  {
    s != "" &&
    match Split(s, d)
    case None => CleanPair(s)
    case Some((a, b)) => CleanPair(a) && CleanList(b, d)
  }

  // A port without leading zeros
  predicate CleanPort(digits: string) {
    ReadNumber(digits, 1, 65535).Some? && digits != "" && digits[0] != '0'
  }

  predicate CleanHost(n: string) {
    n != "" &&
    match Split(n, ':')
    case None => true
    case Some((h, digits)) => CleanPort(digits)
  }

  predicate CleanRest(s: string) {
    match Split(s, ';')
    case Some((n, rest)) =>
      CleanHost(n) &&
      (match Split(rest, '?')
       case Some((p, h)) => CleanList(p, ';') && CleanList(h, '&')
       case None => CleanList(rest, ';'))
    case None =>
      match Split(s, '?')
      case Some((n, h)) => CleanHost(n) && CleanList(h, '&')
      case None => CleanHost(s)
  }

  predicate CleanUser(a: string) {
    match Split(a, ':')
    case None => a != ""
    case Some((user, password)) => user != "" && password != ""
  }

  predicate CleanUri(x: string) {
    match Split(x, ':')
    case None => false
    case Some((proto, rest)) =>
      match Split(rest, '@')
      case Some((a, more)) => CleanUser(a) && CleanRest(more)
      case None => CleanRest(rest)
  }

  // What is printed of a part of the text: all of it, or less
  predicate Printed(y: string, s: string, clean: bool) {
    if clean then y == s else |y| < |s|
  }

  lemma SplitWhole(s: string, c: char)
    ensures match Split(s, c)
      case None => Free(s, c)
      case Some((a, b)) => s == a + [c] + b && Free(a, c)
  {
    FindNone(s, c);
  }

  lemma PairText(t: string)
    ensures Printed(Print(PairOf(t, false)), t, CleanPair(t))
  {
    SplitWhole(t, '=');
  }

  lemma Both(a: string, x: string, ca: bool, b: string, y: string, cb: bool)
    requires Printed(a, x, ca) && Printed(b, y, cb)
    ensures Printed(a + b, x + y, ca && cb)
  {
  }

  lemma {:induction false} ListText(s: string, d: char)
    requires s != ""
    ensures Pairs(s, d, false) != []
    ensures Printed(Join(Pairs(s, d, false), d), s, CleanList(s, d))
    decreases |s|
  {
    hide CleanPair, Printed, PairOf, Join, Find;
    SplitWhole(s, d);
    match Split(s, d)
    case None =>
      PairText(s);
      JoinSingle(PairOf(s, false), d);
    case Some((a, b)) =>
      if b != "" {
        ListText(b, d);
      }
      ListMore(a, b, d);
  }

  lemma JoinSingle(p: TvPair, d: char)
    ensures Join([p], d) == Print(p)
  {
  }

  // The first of several
  lemma ListMore(a: string, b: string, d: char)
    requires b != "" ==>
               Pairs(b, d, false) != [] && Printed(Join(Pairs(b, d, false), d), b, CleanList(b, d))
    ensures Printed(Join([PairOf(a, false)] + Pairs(b, d, false), d), a + [d] + b,
                    CleanPair(a) && CleanList(b, d))
  {
    hide CleanPair, PairOf, Join, Find, Print;
    var p, ps := PairOf(a, false), Pairs(b, d, false);
    PairText(a);
    if b == "" {
      NoPairs(d);
      JoinSingle(p, d);
      assert [p] + ps == [p];
    } else {
      Both(Print(p), a, CleanPair(a), [d] + Join(ps, d), [d] + b, CleanList(b, d));
      JoinOne(p, ps, d);
      assert a + ([d] + b) == a + [d] + b;
    }
  }

  lemma JoinOne(p: TvPair, ps: seq<TvPair>, d: char)
    requires ps != []
    ensures Join([p] + ps, d) == Print(p) + ([d] + Join(ps, d))
  {
    assert ([p] + ps)[1..] == ps;
  }

  // A list with the delimiter before it, as far as there is one
  lemma ListedText(lead: char, s: string, d: char)
    ensures Printed(Listed(lead, Pairs(s, d, false), d), [lead] + s, CleanList(s, d))
    ensures s == "" ==> Listed(lead, Pairs(s, d, false), d) == ""
  {
    if s != "" {
      ListText(s, d);
    }
  }

  lemma {:induction false} ZeroFirst(s: string)
    requires AllDigits(s) && s != "" && NumberOf(s) == 0
    ensures s[0] == '0'
  {
    if |s| > 1 {
      ZeroFirst(s[..|s| - 1]);
    }
  }

  lemma {:induction false} DigitsText(s: string)
    requires AllDigits(s) && s != "" && NumberOf(s) > 0
    ensures Printed(Digits(NumberOf(s)), s, s[0] != '0')
  {
    var t := s[..|s| - 1];
    if t != "" {
      if NumberOf(t) > 0 {
        DigitsText(t);
        assert NumberOf(s) / 10 == NumberOf(t);
      } else {
        ZeroFirst(t);
      }
    }
  }

  lemma HostText(n: string)
    requires ParseHost(n).Some?
    ensures var (host, port) := ParseHost(n).value; Printed(HostPort(host, port), n, CleanHost(n))
  {
    SplitWhole(n, ':');
    match Split(n, ':')
    case None =>
    case Some((host, digits)) => DigitsText(digits);
  }

  lemma CleanHostParses(n: string)
    requires CleanHost(n)
    ensures ParseHost(n).Some?
  {
  }

  // The host, and one list or none after it
  lemma HostList(n: string, lead: char, p: string, d: char)
    requires ParseHost(n).Some?
    ensures var (host, port) := ParseHost(n).value;
      Printed(HostPort(host, port) + Listed(lead, Pairs(p, d, false), d), n + ([lead] + p),
              CleanHost(n) && CleanList(p, d))
  {
    hide ParseHost, HostPort, Pairs, CleanHost, CleanList, Listed, Printed;
    var (host, port) := ParseHost(n).value;
    HostText(n);
    ListedText(lead, p, d);
    Both(HostPort(host, port), n, CleanHost(n),
         Listed(lead, Pairs(p, d, false), d), [lead] + p, CleanList(p, d));
  }

  lemma RestText(v: SipUri, s: string)
    requires ParseRest(v, s).Some?
    ensures Printed(BuildRest(ParseRest(v, s).value), s, CleanRest(s))
  {
    hide ParseHost, HostPort, Pairs, CleanHost, CleanList, Listed, Printed, Find, Split;
    SplitWhole(s, ';');
    SplitWhole(s, '?');
    var (n, p, h) := Parts(s);
    var (host, port) := ParseHost(n).value;
    var np := HostPort(host, port);
    HostText(n);
    NoList('?', '&');
    NoList(';', ';');
    match Split(s, ';') {
      case Some((_, rest)) =>
        HostList(n, ';', p, ';');
        WithParams(s, n, rest, np + Listed(';', Pairs(p, ';', false), ';'));
      case None =>
        assert np + "" == np;
        if Split(s, '?').Some? {
          HostList(n, '?', h, '&');
          assert n + (['?'] + h) == s;
        } else {
          assert np + "" + "" == np;
        }
    }
  }

  // The headers after the parameters, if there are any
  lemma WithParams(s: string, n: string, rest: string, np: string)
    requires s == n + [';'] + rest
    requires var p := match Split(rest, '?') case Some((a, _)) => a case None => rest;
             Printed(np, n + ([';'] + p), CleanHost(n) && CleanList(p, ';'))
    ensures match Split(rest, '?')
      case Some((p, h)) =>
        Printed(np + Listed('?', Pairs(h, '&', false), '&'), s,
                CleanHost(n) && CleanList(p, ';') && CleanList(h, '&'))
      case None =>
        np + Listed('?', Pairs("", '&', false), '&') == np
        && Printed(np, s, CleanHost(n) && CleanList(rest, ';'))
  {
    hide Pairs, CleanHost, CleanList, Listed, Printed, Find, Split;
    SplitWhole(rest, '?');
    NoList('?', '&');
    match Split(rest, '?') {
      case Some((p, h)) =>
        ListedText('?', h, '&');
        Both(np, n + ([';'] + p), CleanHost(n) && CleanList(p, ';'),
             Listed('?', Pairs(h, '&', false), '&'), ['?'] + h, CleanList(h, '&'));
        assert n + ([';'] + p) + (['?'] + h) == s;
      case None =>
        assert n + ([';'] + rest) == s;
    }
  }

  lemma NoList(lead: char, d: char)
    ensures Listed(lead, Pairs("", d, false), d) == ""
  {
  }

  lemma CleanRestParses(v: SipUri, s: string)
    requires CleanRest(s)
    ensures ParseRest(v, s).Some?
  {
    hide ParseHost, CleanHost, CleanList, Pairs;
    CleanHostParses(Parts(s).0);
  }

  function UserAt(u: SipUri): string {
    if u.user == "" then "" else UserPass(u) + "@"
  }

  lemma UserText(v: SipUri, a: string)
    requires v.user == "" && v.password == ""
    ensures Printed(UserAt(ParseUser(v, a)), a + "@", CleanUser(a))
  {
    SplitWhole(a, ':');
  }

  lemma RestUser(v: SipUri, s: string)
    requires ParseRest(v, s).Some?
    ensures var w := ParseRest(v, s).value;
      w.proto == v.proto && w.user == v.user && w.password == v.password
  {
  }

  // A text comes back from parsing and printing exactly if it is clean
  lemma TextTrips(x: string)
    ensures Parse(x).Some? && Build(Parse(x).value) == x <==> CleanUri(x)
  {
    hide ParseRest, BuildRest, CleanRest, CleanUser, ParseUser, UserPass;
    SplitWhole(x, ':');
    if Split(x, ':').Some? {
      var (proto, rest) := Split(x, ':').value;
      var v := NO_URI.(proto := proto);
      SplitWhole(rest, '@');
      match Split(rest, '@') {
        case Some((a, more)) => UserTextTrips(x, v, a, more);
        case None => NoUserTextTrips(x, v, rest);
      }
    }
  }

  lemma UserTextTrips(x: string, v: SipUri, a: string, more: string)
    requires v == NO_URI.(proto := v.proto) && x == v.proto + [':'] + (a + ['@'] + more)
    ensures var r := ParseRest(ParseUser(v, a), more);
      r.Some? && Build(r.value) == x <==> CleanUser(a) && CleanRest(more)
  {
    hide ParseRest, BuildRest, CleanRest, CleanUser, UserPass, ParseUser;
    var w := ParseUser(v, a);
    if CleanRest(more) {
      CleanRestParses(w, more);
    }
    if ParseRest(w, more).Some? {
      var u := ParseRest(w, more).value;
      RestText(w, more);
      RestUser(w, more);
      UserText(v, a);
      UserProto(v, a);
      SameUser(u, w);
      var y, z := UserAt(u), BuildRest(u);
      assert Build(u) == v.proto + [':'] + (y + z);
      if Build(u) == x {
        assert |y| == |a| + 1 && |z| == |more|;
      }
    }
  }

  lemma UserProto(v: SipUri, a: string)
    ensures ParseUser(v, a).proto == v.proto
  {
  }

  lemma SameUser(u: SipUri, w: SipUri)
    requires u.user == w.user && u.password == w.password
    ensures UserAt(u) == UserAt(w)
  {
  }

  lemma NoUserTextTrips(x: string, v: SipUri, rest: string)
    requires v == NO_URI.(proto := v.proto) && x == v.proto + [':'] + rest
    ensures var r := ParseRest(v, rest);
      r.Some? && Build(r.value) == x <==> CleanRest(rest)
  {
    hide ParseRest, BuildRest, CleanRest, UserPass;
    if CleanRest(rest) {
      CleanRestParses(v, rest);
    }
    if ParseRest(v, rest).Some? {
      var u := ParseRest(v, rest).value;
      RestText(v, rest);
      RestUser(v, rest);
      assert Build(u) == v.proto + [':'] + BuildRest(u);
      if Build(u) == x {
        assert |BuildRest(u)| == |rest|;
      }
    }
  }

  // --- URIs that were parsed

  // No empty pair at the end
  predicate FullLast(ps: seq<TvPair>) {
    ps != [] ==> Print(ps[|ps| - 1]) != ""
  }

  // What may still keep a parsed URI from coming back
  predicate Returns(u: SipUri) {
    && FullLast(u.parameters) && FullLast(u.headers)
    && (u.user == "" ==> u.password == "" && RestFree(u, '@'))
    && (u.parameters == [] ==> Free(u.host, '?') && AllFree(u.headers, ';'))
  }

  lemma PairParsed(t: string, c: char)
    ensures GoodPair(PairOf(t, false), false)
    ensures Free(t, c) ==> Free(Print(PairOf(t, false)), c)
    ensures Free(t, c) ==> Free(PairOf(t, false).token, c) && Free(PairOf(t, false).value, c)
  {
    SplitWhole(t, '=');
  }

  lemma {:induction false} PairsParsed(s: string, d: char)
    requires s != ""
    ensures var ps := Pairs(s, d, false); ps != [] && (Good(ps, d, false) <==> FullLast(ps))
    decreases |s|
  {
    hide GoodPair, PairOf;
    SplitWhole(s, d);
    match Split(s, d)
    case None =>
      PairParsed(s, d);
    case Some((a, b)) =>
      PairParsed(a, d);
      var ps := Pairs(b, d, false);
      assert Pairs(s, d, false) == [PairOf(a, false)] + ps;
      if b != "" {
        PairsParsed(b, d);
        assert ([PairOf(a, false)] + ps)[1..] == ps;
      }
  }

  lemma {:induction false} PairsFree(s: string, d: char, c: char)
    requires Free(s, c)
    ensures AllFree(Pairs(s, d, false), c)
    decreases |s|
  {
    hide PairOf;
    if s != "" {
      SplitWhole(s, d);
      match Split(s, d)
      case None =>
        PairParsed(s, c);
      case Some((a, b)) =>
        PairParsed(a, c);
        PairsFree(b, d, c);
    }
  }

  lemma RestParsed(v: SipUri, s: string)
    requires ParseRest(v, s).Some?
    ensures var u := ParseRest(v, s).value;
      && Free(u.host, ':') && Free(u.host, ';')
      && u.port <= 65535 && (u.host == "" ==> u.port != 0)
      && (u.parameters != [] ==> (Good(u.parameters, ';', false) <==> FullLast(u.parameters)))
      && (u.headers != [] ==> (Good(u.headers, '&', false) <==> FullLast(u.headers)))
      && AllFree(u.parameters, '?')
  {
    hide ParseHost, Pairs, Good, Parts, FullLast;
    var (n, p, h) := Parts(s);
    var _, _ := PartsCover(s);
    HostParsed(n);
    HostWithin(n);
    PairsFree(p, ';', '?');
    NoPairs(';');
    NoPairs('&');
    if p != "" {
      PairsParsed(p, ';');
    }
    if h != "" {
      PairsParsed(h, '&');
    }
  }

  lemma NoPairs(d: char)
    ensures Pairs("", d, false) == []
  {
  }

  lemma HostWithin(n: string)
    requires ParseHost(n).Some? && Free(n, ';')
    ensures Free(ParseHost(n).value.0, ';')
  {
    SplitWhole(n, ':');
  }

  lemma UserParsed(v: SipUri, a: string)
    requires v.user == "" && v.password == "" && Free(a, '@')
    ensures var w := ParseUser(v, a); Free(w.user, ':') && Free(w.user, '@') && Free(w.password, '@')
  {
    SplitWhole(a, ':');
  }

  // A URI that was parsed comes back from printing and parsing exactly if
  // neither of its lists ends in an empty pair, it has a user unless there is
  // no password and no '@' at all, and it has parameters unless no '?' is in
  // its host and no ';' in its headers.
  lemma ParsedTrips(s: string)
    requires Parse(s).Some?
    ensures Reprinted(Parse(s).value) == Parse(s) <==> Returns(Parse(s).value)
  {
    hide ParseRest, Good, FullLast, RestFree;
    var u := Parse(s).value;
    UriTrips(u);
    SplitWhole(s, ':');
    var (proto, rest) := Split(s, ':').value;
    var v := NO_URI.(proto := proto);
    SplitWhole(rest, '@');
    match Split(rest, '@') {
      case Some((a, more)) =>
        UserParsed(v, a);
        UserProto(v, a);
        RestParsed(ParseUser(v, a), more);
        RestUser(ParseUser(v, a), more);
      case None =>
        RestParsed(v, rest);
        RestUser(v, rest);
    }
    Emptied(u.parameters);
    Emptied(u.headers);
  }

  lemma Emptied(ps: seq<TvPair>)
    ensures ps == [] ==> FullLast(ps)
  {
  }

  // --- Two texts that do not come back

  function Plain(parameters: seq<TvPair>): SipUri {
    SipUri("sip", "", "", "h", 0, parameters, [])
  }

  lemma SplitIs(s: string, c: char, a: string, b: string)
    requires s == a + [c] + b && Free(a, c)
    ensures Split(s, c) == Some((a, b))
  {
    FindIn(a, b, c);
  }

  lemma NotSplit(s: string, c: char)
    requires Free(s, c)
    ensures Split(s, c) == None
  {
    FindNone(s, c);
  }

  lemma ParseAfterUser(proto: string, a: string, more: string)
    requires Free(proto, ':') && Free(a, '@')
    ensures Parse(proto + [':'] + (a + ['@'] + more)) ==
            ParseRest(ParseUser(NO_URI.(proto := proto), a), more)
  {
    hide ParseRest, ParseUser, Find;
    SplitIs(proto + [':'] + (a + ['@'] + more), ':', proto, a + ['@'] + more);
    SplitIs(a + ['@'] + more, '@', a, more);
  }

  lemma ParseWithoutUser(proto: string, rest: string)
    requires Free(proto, ':') && Free(rest, '@')
    ensures Parse(proto + [':'] + rest) == ParseRest(NO_URI.(proto := proto), rest)
  {
    hide ParseRest, ParseUser, Find;
    SplitIs(proto + [':'] + rest, ':', proto, rest);
    NotSplit(rest, '@');
  }

  lemma ParseHostParams(v: SipUri, host: string, p: string)
    requires Free(host, ';') && Free(host, ':') && host != "" && Free(p, '?')
    ensures ParseRest(v, host + [';'] + p) ==
            Some(v.(host := host, port := 0, parameters := Pairs(p, ';', false), headers := []))
  {
    hide Pairs, Find;
    NoPairs('&');
    SplitIs(host + [';'] + p, ';', host, p);
    NotSplit(p, '?');
    NotSplit(host, ':');
  }

  lemma ParsePlain(p: string)
    requires Free(p, '@') && Free(p, '?')
    ensures Parse("sip" + [':'] + ("h" + [';'] + p)) == Some(Plain(Pairs(p, ';', false)))
  {
    hide Pairs, Find, Parse, ParseRest;
    ParseWithoutUser("sip", "h" + [';'] + p);
    ParseHostParams(NO_URI.(proto := "sip"), "h", p);
  }

  lemma BuildPlain(ps: seq<TvPair>)
    ensures Build(Plain(ps)) == "sip:" + ("h" + Listed(';', ps, ';'))
  {
    assert Listed('?', [], '&') == "";
  }

  lemma PairsOne()
    ensures Pairs(";", ';', false) == [TvPair("", "")]
    ensures Listed(';', [TvPair("", "")], ';') == ";" && Listed(';', [], ';') == ""
  {
    SplitIs(";", ';', "", "");
    NotSplit("", '=');
    NoPairs(';');
  }

  // An empty parameter is lost each time
  lemma SemicolonsLost()
    ensures Parse("sip:h;;") == Some(Plain([TvPair("", "")]))
    ensures Build(Plain([TvPair("", "")])) == "sip:h;"
    ensures Reprinted(Plain([TvPair("", "")])) == Some(Plain([]))
    ensures Build(Plain([])) == "sip:h"
  {
    hide Parse, Build, Pairs, Listed;
    PairsOne();
    NoPairs(';');
    ParsePlain(";");
    ParsePlain("");
    BuildPlain([TvPair("", "")]);
    BuildPlain([]);
    assert "sip" + [':'] + ("h" + [';'] + ";") == "sip:h;;";
    assert "sip" + [':'] + ("h" + [';'] + "") == "sip:h;";
  }

  // Without a user, an '@' at the end leaves no host
  lemma NoHostLeft()
    ensures Parse("sip:@h;x=y@") == Some(Plain([TvPair("x", "y@")]))
    ensures Reprinted(Plain([TvPair("x", "y@")])) == None
  {
    hide Pairs, Find, Listed, Print, Join, Parse, ParseRest, Build;
    PairAt();
    BuildPlain([TvPair("x", "y@")]);
    ParseAfterUser("sip", "", "h" + [';'] + "x=y@");
    UserNone(NO_URI.(proto := "sip"));
    ParseHostParams(NO_URI.(proto := "sip"), "h", "x=y@");
    assert "sip" + [':'] + ("" + ['@'] + ("h" + [';'] + "x=y@")) == "sip:@h;x=y@";
    ParseAfterUser("sip", "h;x=y", "");
    HostNone(ParseUser(NO_URI.(proto := "sip"), "h;x=y"));
    assert "sip" + [':'] + ("h;x=y" + ['@'] + "") == "sip:" + ("h" + ";x=y@");
  }

  lemma UserNone(v: SipUri)
    requires v.user == ""
    ensures ParseUser(v, "") == v
  {
    NotSplit("", ':');
  }

  lemma HostNone(v: SipUri)
    ensures ParseRest(v, "") == None
  {
    NotSplit("", ';');
    NotSplit("", '?');
  }

  lemma PairAt()
    ensures Pairs("x=y@", ';', false) == [TvPair("x", "y@")]
    ensures Listed(';', [TvPair("x", "y@")], ';') == ";x=y@"
  {
    NotSplit("x=y@", ';');
    SplitIs("x=y@", '=', "x", "y@");
  }
}
