module TvPairs {
  // Lists of token=value pairs as URIs and name-addrs have them: how they are
  // printed and parsed, and exactly which come back from that unchanged.

  import opened Base
  import opened Strings

  // --- One pair

  function Print(p: TvPair): string {
    if p.value == "" then p.token else p.token + "=" + p.value
  }

  function PairOf(t: string, ws: bool): TvPair {
    match Split(t, '=')
    case None => TvPair(t, "")
    case Some((a, b)) => if ws then TvPair(TrimEnd(a), TrimStart(b)) else TvPair(a, b)
  }

  predicate GoodPair(p: TvPair, ws: bool) {
    && Free(p.token, '=')
    && (ws && p.value != "" ==> !EndsWs(p.token) && !StartsWs(p.value))
  }

  lemma PairShrinks(t: string, ws: bool)
    ensures |Print(PairOf(t, ws))| <= |t|
  {
  }

  lemma PairTrip(p: TvPair, ws: bool)
    ensures PairOf(Print(p), ws) == p <==> GoodPair(p, ws)
  {
    var t := Print(p);
    if p.value == "" {
      FindNone(t, '=');
      if !Free(p.token, '=') {
        assert |PairOf(t, ws).token| < |t|;
      }
    } else if Free(p.token, '=') {
      FindIn(p.token, p.value, '=');
    } else {
      assert t[|p.token|] == '=';
      FindNone(p.token, '=');
      var k := Find(p.token, '=');
      assert t[k] == '=' && Find(t, '=') <= k;
      assert |PairOf(t, ws).token| < |p.token|;
    }
  }

  // --- A list of them

  function Join(ps: seq<TvPair>, d: char): string
    requires ps != []
  {
    if |ps| == 1 then Print(ps[0]) else Print(ps[0]) + [d] + Join(ps[1..], d)
  }

  function Pairs(s: string, d: char, ws: bool): seq<TvPair>
    decreases |s|
  {
    if s == "" then []
    else
      match SplitElem(s, d, ws)
      case None => [PairOf(s, ws)]
      case Some((a, b)) => [PairOf(a, ws)] + Pairs(b, d, ws)
  }

  // The lists that survive: no delimiters in the parts, no empty pair at the
  // end, and where whitespace is trimmed, none where it would be
  predicate Good(ps: seq<TvPair>, d: char, ws: bool) {
    ps != [] &&
    var p := ps[0];
    && GoodPair(p, ws) && Free(Print(p), d)
    && if |ps| == 1 then Print(p) != ""
       else (ws ==> !EndsWs(Print(p)) && !StartsWs(Print(ps[1]))) && Good(ps[1..], d, ws)
  }

  lemma {:induction false} PairsShrink(s: string, d: char, ws: bool)
    requires s != ""
    ensures Pairs(s, d, ws) != [] && |Join(Pairs(s, d, ws), d)| <= |s|
    decreases |s|
  {
    match SplitElem(s, d, ws)
    case None =>
      PairShrinks(s, ws);
    case Some((a, b)) =>
      PairShrinks(a, ws);
      if b != "" {
        PairsShrink(b, d, ws);
        assert Pairs(s, d, ws)[1..] == Pairs(b, d, ws);
      }
  }

  lemma JoinStarts(ps: seq<TvPair>, d: char)
    requires ps != [] && !IsLws(d)
    ensures StartsWs(Join(ps, d)) <==> StartsWs(Print(ps[0]))
    ensures Join(ps, d) == "" <==> |ps| == 1 && Print(ps[0]) == ""
  {
  }

  lemma {:induction false} GoodTrips(ps: seq<TvPair>, d: char, ws: bool)
    requires Good(ps, d, ws) && !IsLws(d)
    ensures Pairs(Join(ps, d), d, ws) == ps
  {
    hide PairOf, Print, GoodPair, Find;
    var p := ps[0];
    PairTrip(p, ws);
    if |ps| == 1 {
      FindNone(Print(p), d);
      assert Join(ps, d) == Print(p);
    } else {
      var rest := Join(ps[1..], d);
      GoodTrips(ps[1..], d, ws);
      JoinStarts(ps[1..], d);
      FirstOff(Print(p), rest, d, ws);
      assert Join(ps, d) == Print(p) + [d] + rest;
    }
  }

  lemma FirstOff(a: string, b: string, d: char, ws: bool)
    requires Free(a, d) && (ws ==> !EndsWs(a) && !StartsWs(b))
    ensures SplitElem(a + [d] + b, d, ws) == Some((a, b)) && a + [d] + b != ""
  {
    FindIn(a, b, d);
  }

  lemma {:induction false} TripsGood(ps: seq<TvPair>, d: char, ws: bool)
    requires ps != [] && !IsLws(d) && Pairs(Join(ps, d), d, ws) == ps
    ensures Good(ps, d, ws)
  {
    var x := Join(ps, d);
    var p := ps[0];
    PairTrip(p, ws);
    match SplitElem(x, d, ws)
    case None =>
      FindNone(x, d);
    case Some((a, b)) =>
      var k := Find(x, d);
      PairShrinks(a, ws);
      assert |Print(p)| <= |a| <= k;
      assert |ps| > 1;
      var rest := Join(ps[1..], d);
      assert x[|Print(p)|] == d;
      assert k == |Print(p)| && x[..k] == Print(p) && x[k + 1..] == rest;
      assert Pairs(b, d, ws) == ps[1..];
      PairsShrink(b, d, ws);
      JoinStarts(ps[1..], d);
      TripsGood(ps[1..], d, ws);
  }

  // Printing and parsing gives a list back exactly if it is good
  lemma PairsTrip(ps: seq<TvPair>, d: char, ws: bool)
    requires ps != [] && !IsLws(d)
    ensures Pairs(Join(ps, d), d, ws) == ps <==> Good(ps, d, ws)
  {
    if Good(ps, d, ws) {
      GoodTrips(ps, d, ws);
    } else if Pairs(Join(ps, d), d, ws) == ps {
      TripsGood(ps, d, ws);
    }
  }

  // A list with a character before it, nothing for none
  function Listed(lead: char, ps: seq<TvPair>, d: char): string {
    if ps == [] then "" else [lead] + Join(ps, d)
  }
}
