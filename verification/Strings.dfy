module Strings {
  // Slices of text (usipy_str.c): splitting at a delimiter, trimming, and
  // reading a number.

  import opened Base

  datatype TvPair = TvPair(token: string, value: string)

  // --- Looking for a character

  predicate Free(s: string, c: char) {
    forall k :: 0 <= k < |s| ==> s[k] != c
  }

  // Where c is first, |s| if nowhere
  function Find(s: string, c: char): (k: nat)
    ensures k <= |s| && (k < |s| ==> s[k] == c)
    ensures forall j :: 0 <= j < k ==> s[j] != c
  {
    if s == "" || s[0] == c then 0 else 1 + Find(s[1..], c)
  }

  lemma FindIn(a: string, b: string, c: char)
    requires Free(a, c)
    ensures Find(a, c) == |a|
    ensures Find(a + [c] + b, c) == |a|
    ensures (a + [c] + b)[..|a|] == a && (a + [c] + b)[|a| + 1..] == b
  {
    var s := a + [c] + b;
    assert s[|a|] == c && forall k :: 0 <= k < |a| ==> s[k] == a[k];
  }

  lemma FindNone(s: string, c: char)
    ensures Find(s, c) == |s| <==> Free(s, c)
  {
  }

  // usipy_str_split
  function Split(s: string, c: char): Option<(string, string)> {
    var k := Find(s, c);
    if k == |s| then None else Some((s[..k], s[k + 1..]))
  }

  // --- Trimming

  predicate IsLws(c: char) {
    c == ' ' || c == '\t' || c == '\r' || c == '\n'
  }

  predicate StartsWs(s: string) {
    s != "" && IsLws(s[0])
  }

  predicate EndsWs(s: string) {
    s != "" && IsLws(s[|s| - 1])
  }

  function TrimStart(s: string): (t: string)
    ensures |t| <= |s| && (|t| == |s| ==> t == s)
    ensures t == s <==> !StartsWs(s)
  {
    if StartsWs(s) then TrimStart(s[1..]) else s
  }

  function TrimEnd(s: string): (t: string)
    ensures t <= s && (t == s <==> !EndsWs(s))
  {
    if EndsWs(s) then TrimEnd(s[..|s| - 1]) else s
  }

  method LtrmB(s: string) returns (t: string)
    ensures t == TrimStart(s)
  {
    t := s;
    while |t| > 0 && IsLws(t[0])
      invariant TrimStart(t) == TrimStart(s)
      decreases |t|
    {
      t := t[1..];
    }
  }

  method LtrmE(s: string) returns (t: string)
    ensures t == TrimEnd(s)
  {
    t := s;
    while |t| > 0 && IsLws(t[|t| - 1])
      invariant TrimEnd(t) == TrimEnd(s)
      decreases |t|
    {
      t := t[..|t| - 1];
    }
  }

  // usipy_str_split_elem, and usipy_str_split_elem_nlws where `ws` is false:
  // the element before c, and what is left after it
  function SplitElem(s: string, c: char, ws: bool): Option<(string, string)> {
    var k := Find(s, c);
    if k == |s| then None
    else if ws then Some((TrimEnd(s[..k]), TrimStart(s[k + 1..])))
    else Some((s[..k], s[k + 1..]))
  }

  method SplitElement(s: string, c: char, ws: bool) returns (r: Option<(string, string)>)
    ensures r == SplitElem(s, c, ws)
  {
    var k := Find(s, c);
    if k == |s| {
      return None;
    }
    var left, right := s[..k], s[k + 1..];
    if ws {
      left := LtrmE(left);
      right := LtrmB(right);
    }
    return Some((left, right));
  }

  // --- Numbers

  const UINT_MAX: nat := 0xFFFF_FFFF

  predicate IsDigit(c: char) {
    '0' <= c <= '9'
  }

  predicate AllDigits(s: string) {
    forall k :: 0 <= k < |s| ==> IsDigit(s[k])
  }

  function DigitOf(c: char): nat
    requires IsDigit(c)
  {
    (c - '0') as nat
  }

  function NumberOf(s: string): nat
    requires AllDigits(s)
  {
    if s == "" then 0 else 10 * NumberOf(s[..|s| - 1]) + DigitOf(s[|s| - 1])
  }

  // What reading a number in a range should give; no upper limit if that is
  // below the lower one
  function ReadNumber(s: string, min: nat, max: nat): Option<nat> {
    if !AllDigits(s) || NumberOf(s) > UINT_MAX || NumberOf(s) < min
       || (max >= min && NumberOf(s) > max)
    then None
    else Some(NumberOf(s))
  }

  lemma {:induction false} NumberGrows(s: string, n: nat)
    requires AllDigits(s) && n <= |s|
    ensures NumberOf(s[..n]) <= NumberOf(s)
  {
    if n < |s| {
      assert s[..|s| - 1][..n] == s[..n];
      NumberGrows(s[..|s| - 1], n);
    } else {
      assert s[..n] == s;
    }
  }

  // usipy_str_atoui_range: the test before each step keeps the number within
  // 32 bits, and fails only for a number that is not
  method AtouiRange(s: string, min: nat, max: nat) returns (r: Option<nat>)
    ensures r == ReadNumber(s, min, max)
  {
    var v := 0;
    var k := 0;
    while k < |s|
      invariant k <= |s| && AllDigits(s[..k]) && v == NumberOf(s[..k]) <= UINT_MAX
    {
      if s[k] > '9' || s[k] < '0' {
        return None;
      }
      var d := DigitOf(s[k]);
      assert s[..k + 1][..k] == s[..k];
      if v > (UINT_MAX - d) / 10 {
        if AllDigits(s) {
          NumberGrows(s, k + 1);
        }
        return None;
      }
      v := v * 10 + d;
      k := k + 1;
    }
    assert s[..k] == s;
    if v < min || (max >= min && v > max) {
      return None;
    }
    return Some(v);
  }

  // A number as "%u" prints it
  function Digits(v: nat): (s: string)
    ensures AllDigits(s) && s != ""
  {
    if v < 10 then ['0' + v as char] else Digits(v / 10) + ['0' + (v % 10) as char]
  }

  lemma {:induction false} DigitsBack(v: nat)
    ensures NumberOf(Digits(v)) == v
  {
    if v >= 10 {
      DigitsBack(v / 10);
      var s := Digits(v);
      assert s[..|s| - 1] == Digits(v / 10);
    }
  }

  // No shorter way to write it
  lemma {:induction false} DigitsShortest(s: string)
    requires AllDigits(s) && NumberOf(s) > 0
    ensures |Digits(NumberOf(s))| <= |s|
  {
    var v := NumberOf(s);
    if v >= 10 {
      var t := s[..|s| - 1];
      assert v == 10 * NumberOf(t) + DigitOf(s[|s| - 1]);
      assert v / 10 == NumberOf(t);
      DigitsShortest(t);
    }
  }

  lemma DigitsFree(v: nat, c: char)
    requires !IsDigit(c)
    ensures Free(Digits(v), c)
  {
  }
}
