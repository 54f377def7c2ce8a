module TurboCompare {
  // Comparing byte strings without regard to ASCII case, a word at a time
  // (bits/turbocompare.h).

  import opened Words

  // --- What it means

  function Fold(b: bv8): bv8 {
    if 0x41 <= b <= 0x5A then b | 0x20 else b
  }

  predicate SameFolded(s: seq<bv8>, t: seq<bv8>) {
    |s| == |t| && forall k :: 0 <= k < |s| ==> Fold(s[k]) == Fold(t[k])
  }

  // --- Words of each width made lower case: 0x80 in every byte between 'A'
  // and 'Z', moved to 0x20 and added

  // In every byte, 0x5A or less has bit 7 set, 0x41 or more has, and both
  // together with bit 7 clear before make an upper-case letter
  function AtMostZ(x: bv64): bv64 {
    0xDADA_DADA_DADA_DADA - (x & 0x7F7F_7F7F_7F7F_7F7F)
  }

  function AtLeastA(x: bv64): bv64 {
    (x & 0x7F7F_7F7F_7F7F_7F7F) + 0x3F3F_3F3F_3F3F_3F3F
  }

  function Marked(x: bv64, p: bv64, q: bv64): bv64 {
    p & !x & q
  }

  function Added(x: bv64, m: bv64): bv64 {
    x | ((m & 0x8080_8080_8080_8080) >> 2)
  }

  function Lower64(x: bv64): bv64 {
    Added(x, Marked(x, AtMostZ(x), AtLeastA(x)))
  }

  function Lower32(x: bv32): bv32 {
    x | ((((0xDADA_DADA - (x & 0x7F7F_7F7F)) & !x
           & ((x & 0x7F7F_7F7F) + 0x3F3F_3F3F)) & 0x8080_8080) >> 2)
  }

  function Lower16(x: bv16): bv16 {
    x | ((((0xDADA - (x & 0x7F7F)) & !x & ((x & 0x7F7F) + 0x3F3F)) & 0x8080) >> 2)
  }

  function Lower8(x: bv8): bv8 {
    x | ((((0xDA - (x & 0x7F)) & !x & ((x & 0x7F) + 0x3F)) & 0x80) >> 2)
  }

  function Byte32(w: bv32, n: nat): bv8
    requires n < 4
  {
    (match n
     case 0 => w & 0xFF
     case 1 => (w >> 8) & 0xFF
     case 2 => (w >> 16) & 0xFF
     case _ => w >> 24) as bv8
  }

  function Byte16(w: bv16, n: nat): bv8
    requires n < 2
  {
    (if n == 0 then w & 0xFF else w >> 8) as bv8
  }

  lemma Lower32Byte(x: bv32, n: nat)
    requires n < 4
    ensures Byte32(Lower32(x), n) == Fold(Byte32(x, n))
  {
    match n
    case 0 =>
    case 1 =>
    case 2 =>
    case _ =>
  }

  lemma AtMostZByte(x: bv64, n: nat)
    requires n < 8
    ensures Byte(AtMostZ(x), n) == 0xDA - (Byte(x, n) & 0x7F)
  {
    match n
    case 0 =>
    case 1 =>
    case 2 =>
    case 3 =>
    case 4 =>
    case 5 =>
    case 6 =>
    case _ =>
  }

  lemma AtLeastAByte(x: bv64, n: nat)
    requires n < 8
    ensures Byte(AtLeastA(x), n) == (Byte(x, n) & 0x7F) + 0x3F
  {
    match n
    case 0 =>
    case 1 =>
    case 2 =>
    case 3 =>
    case 4 =>
    case 5 =>
    case 6 =>
    case _ =>
  }

  lemma MarkedByte(x: bv64, p: bv64, q: bv64, n: nat)
    requires n < 8
    ensures Byte(Marked(x, p, q), n) == Byte(p, n) & !Byte(x, n) & Byte(q, n)
  {
    match n
    case 0 =>
    case 1 =>
    case 2 =>
    case 3 =>
    case 4 =>
    case 5 =>
    case 6 =>
    case _ =>
  }

  lemma AddedByte(x: bv64, m: bv64, n: nat)
    requires n < 8
    ensures Byte(Added(x, m), n) == Byte(x, n) | ((Byte(m, n) & 0x80) >> 2)
  {
    match n
    case 0 =>
    case 1 =>
    case 2 =>
    case 3 =>
    case 4 =>
    case 5 =>
    case 6 =>
    case _ =>
  }

  lemma OneByte(b: bv8)
    ensures b | ((((0xDA - (b & 0x7F)) & !b & ((b & 0x7F) + 0x3F)) & 0x80) >> 2) == Fold(b)
  {
  }

  lemma Lower64Byte(x: bv64, n: nat)
    requires n < 8
    ensures Byte(Lower64(x), n) == Fold(Byte(x, n))
  {
    hide Byte, AtMostZ, AtLeastA, Marked, Added;
    AtMostZByte(x, n);
    AtLeastAByte(x, n);
    MarkedByte(x, AtMostZ(x), AtLeastA(x), n);
    AddedByte(x, Marked(x, AtMostZ(x), AtLeastA(x)), n);
    OneByte(Byte(x, n));
  }

  lemma Lower16Byte(x: bv16, n: nat)
    requires n < 2
    ensures Byte16(Lower16(x), n) == Fold(Byte16(x, n))
  {
    match n
    case 0 =>
    case _ =>
  }

  lemma Lower8Byte(x: bv8)
    ensures Lower8(x) == Fold(x)
  {
  }

  // --- Words loaded from memory

  function Pack32(b: seq<bv8>): bv32
    requires |b| == 4
  {
    (b[0] as bv32) | ((b[1] as bv32) << 8) | ((b[2] as bv32) << 16) | ((b[3] as bv32) << 24)
  }

  function Pack16(b: seq<bv8>): bv16
    requires |b| == 2
  {
    (b[0] as bv16) | ((b[1] as bv16) << 8)
  }

  lemma Pack32Byte(b: seq<bv8>, n: nat)
    requires |b| == 4 && n < 4
    ensures Byte32(Pack32(b), n) == b[n]
  {
    match n
    case 0 =>
    case 1 =>
    case 2 =>
    case _ =>
  }

  lemma Pack16Byte(b: seq<bv8>, n: nat)
    requires |b| == 2 && n < 2
    ensures Byte16(Pack16(b), n) == b[n]
  {
    match n
    case 0 =>
    case _ =>
  }

  lemma SameBytes64(w: bv64, x: bv64)
    requires forall n :: 0 <= n < 8 ==> Byte(w, n) == Byte(x, n)
    ensures w == x
  {
    assert Byte(w, 0) == Byte(x, 0) && Byte(w, 1) == Byte(x, 1);
    assert Byte(w, 2) == Byte(x, 2) && Byte(w, 3) == Byte(x, 3);
    assert Byte(w, 4) == Byte(x, 4) && Byte(w, 5) == Byte(x, 5);
    assert Byte(w, 6) == Byte(x, 6) && Byte(w, 7) == Byte(x, 7);
  }

  lemma SameBytes32(w: bv32, x: bv32)
    requires forall n :: 0 <= n < 4 ==> Byte32(w, n) == Byte32(x, n)
    ensures w == x
  {
    assert Byte32(w, 0) == Byte32(x, 0) && Byte32(w, 1) == Byte32(x, 1);
    assert Byte32(w, 2) == Byte32(x, 2) && Byte32(w, 3) == Byte32(x, 3);
  }

  lemma SameBytes16(w: bv16, x: bv16)
    requires forall n :: 0 <= n < 2 ==> Byte16(w, n) == Byte16(x, n)
    ensures w == x
  {
    assert Byte16(w, 0) == Byte16(x, 0) && Byte16(w, 1) == Byte16(x, 1);
  }

  // The words at two places agree once made lower case
  predicate SameWord(width: nat, s: seq<bv8>, t: seq<bv8>)
    requires width in {1, 2, 4, 8} && |s| == width == |t|
  {
    if width == 8 then Lower64(Pack(s)) == Lower64(Pack(t))
    else if width == 4 then Lower32(Pack32(s)) == Lower32(Pack32(t))
    else if width == 2 then Lower16(Pack16(s)) == Lower16(Pack16(t))
    else Lower8(s[0]) == Lower8(t[0])
  }

  lemma SameWord64(s: seq<bv8>, t: seq<bv8>)
    requires |s| == 8 == |t|
    ensures Lower64(Pack(s)) == Lower64(Pack(t)) <==> SameFolded(s, t)
  {
    hide Lower64, Pack, Byte, Fold;
    forall n | 0 <= n < 8
      ensures Byte(Lower64(Pack(s)), n) == Fold(s[n]) && Byte(Lower64(Pack(t)), n) == Fold(t[n])
    {
      Lower64Byte(Pack(s), n);
      Lower64Byte(Pack(t), n);
      PackByte(s, n);
      PackByte(t, n);
    }
    if SameFolded(s, t) {
      SameBytes64(Lower64(Pack(s)), Lower64(Pack(t)));
    }
  }

  lemma SameWord32(s: seq<bv8>, t: seq<bv8>)
    requires |s| == 4 == |t|
    ensures Lower32(Pack32(s)) == Lower32(Pack32(t)) <==> SameFolded(s, t)
  {
    hide Lower32, Pack32, Byte32, Fold;
    forall n | 0 <= n < 4
      ensures Byte32(Lower32(Pack32(s)), n) == Fold(s[n])
      ensures Byte32(Lower32(Pack32(t)), n) == Fold(t[n])
    {
      Lower32Byte(Pack32(s), n);
      Lower32Byte(Pack32(t), n);
      Pack32Byte(s, n);
      Pack32Byte(t, n);
    }
    if SameFolded(s, t) {
      SameBytes32(Lower32(Pack32(s)), Lower32(Pack32(t)));
    }
  }

  lemma SameWord16(s: seq<bv8>, t: seq<bv8>)
    requires |s| == 2 == |t|
    ensures Lower16(Pack16(s)) == Lower16(Pack16(t)) <==> SameFolded(s, t)
  {
    hide Lower16, Pack16, Byte16, Fold;
    forall n | 0 <= n < 2
      ensures Byte16(Lower16(Pack16(s)), n) == Fold(s[n])
      ensures Byte16(Lower16(Pack16(t)), n) == Fold(t[n])
    {
      Lower16Byte(Pack16(s), n);
      Lower16Byte(Pack16(t), n);
      Pack16Byte(s, n);
      Pack16Byte(t, n);
    }
    if SameFolded(s, t) {
      SameBytes16(Lower16(Pack16(s)), Lower16(Pack16(t)));
    }
  }

  // A word at a time is as good as a byte at a time, at every width
  lemma SameWordRight(width: nat, s: seq<bv8>, t: seq<bv8>)
    requires width in {1, 2, 4, 8} && |s| == width == |t|
    ensures SameWord(width, s, t) <==> SameFolded(s, t)
  {
    hide Lower64, Pack, Lower32, Pack32, Lower16, Pack16, Lower8, Fold;
    if width == 8 {
      SameWord64(s, t);
    } else if width == 4 {
      SameWord32(s, t);
    } else if width == 2 {
      SameWord16(s, t);
    } else {
      Lower8Byte(s[0]);
      Lower8Byte(t[0]);
    }
  }

  // --- The loops

  datatype Verdict = Same | Different | Undecided

  // The loop for one width. The last word is read again from further back
  // when less than a word is left; nothing outside the strings is read.
  method CompareBy(width: nat, s: seq<bv8>, t: seq<bv8>) returns (v: Verdict)
    requires width in {1, 2, 4, 8} && |s| == |t|
    ensures v == (if |s| < width then Undecided else if SameFolded(s, t) then Same else Different)
  {
    hide SameWord, Fold;
    var at: int, len: int := 0, |s|;
    while len >= width
      invariant len >= 0 && 0 <= at && at + len == |s|
      invariant len < width ==> at == 0
      invariant forall k :: 0 <= k < at ==> Fold(s[k]) == Fold(t[k])
      decreases len, |s| - at
    {
      var a, b := s[at..at + width], t[at..at + width];
      SameWordRight(width, a, b);
      if !SameWord(width, a, b) {
        assert exists k :: 0 <= k < width && Fold(a[k]) != Fold(b[k]);
        return Different;
      }
      forall k | 0 <= k < at + width ensures Fold(s[k]) == Fold(t[k]) {
        if k >= at { assert Fold(a[k - at]) == Fold(b[k - at]); }
      }
      len := len - width;
      if len == 0 {
        return Same;
      }
      if len < width {
        at := at - (width - len);
        len := width;
      }
      at := at + width;
    }
    v := Undecided;
  }

  // turbo_casebcmp: 0 if the strings agree but for case, 1 if not
  method CaseCompare(s: seq<bv8>, t: seq<bv8>) returns (r: int)
    requires |s| == |t|
    ensures r == 0 || r == 1
    ensures r == 0 <==> SameFolded(s, t)
  {
    hide Fold;
    var v := CompareBy(8, s, t);
    if v.Undecided? {
      v := CompareBy(4, s, t);
    }
    if v.Undecided? {
      v := CompareBy(2, s, t);
    }
    if v.Undecided? {
      v := CompareBy(1, s, t);
    }
    r := if v.Different? then 1 else 0;
  }
}
