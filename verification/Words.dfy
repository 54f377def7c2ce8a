// Machine words, seen as bytes and as bits. Byte 0 is the one at the lowest
// address of a little-endian word.
module Words {

  function Byte(w: bv64, n: nat): bv8
    requires n < 8
  {
    (match n
     case 0 => w & 0xFF
     case 1 => (w >> 8) & 0xFF
     case 2 => (w >> 16) & 0xFF
     case 3 => (w >> 24) & 0xFF
     case 4 => (w >> 32) & 0xFF
     case 5 => (w >> 40) & 0xFF
     case 6 => (w >> 48) & 0xFF
     case _ => w >> 56) as bv8
  }

  // b << (8 * n)
  function AtByte(b: bv8, n: nat): bv64
    requires n < 8
  {
    match n
    case 0 => b as bv64
    case 1 => (b as bv64) << 8
    case 2 => (b as bv64) << 16
    case 3 => (b as bv64) << 24
    case 4 => (b as bv64) << 32
    case 5 => (b as bv64) << 40
    case 6 => (b as bv64) << 48
    case _ => (b as bv64) << 56
  }

  // 1 << k
  function Bit8(k: nat): bv8
    requires k < 8
  {
    match k
    case 0 => 1
    case 1 => 2
    case 2 => 4
    case 3 => 8
    case 4 => 16
    case 5 => 32
    case 6 => 64
    case _ => 128
  }

  predicate Has8(b: bv8, k: nat)
    requires k < 8
  {
    b & Bit8(k) != 0
  }

  predicate Has64(w: bv64, k: nat)
    requires k < 64
  {
    Has8(Byte(w, k / 8), k % 8)
  }

  // A word made of eight bytes
  function Pack(b: seq<bv8>): bv64
    requires |b| == 8
  {
    AtByte(b[0], 0) | AtByte(b[1], 1) | AtByte(b[2], 2) | AtByte(b[3], 3)
    | AtByte(b[4], 4) | AtByte(b[5], 5) | AtByte(b[6], 6) | AtByte(b[7], 7)
  }

  lemma PackByte(b: seq<bv8>, n: nat)
    requires |b| == 8 && n < 8
    ensures Byte(Pack(b), n) == b[n]
  {
    match n
    case 0 =>
    case 1 =>
    case 2 =>
    case 3 =>
    case 4 =>
    case 5 =>
    case 6 =>
    case _ =>
  }

  lemma BitsApart(j: nat, k: nat)
    requires j < 8 && k < 8
    ensures Bit8(j) & Bit8(k) == if j == k then Bit8(k) else 0
  {
    match j
    case 0 =>
    case 1 =>
    case 2 =>
    case 3 =>
    case 4 =>
    case 5 =>
    case 6 =>
    case _ =>
  }

  lemma OneBit(b: bv8, k: nat)
    requires k < 8
    ensures b & Bit8(k) == if Has8(b, k) then Bit8(k) else 0
    ensures Bit8(k) != 0
  {
    match k
    case 0 =>
    case 1 =>
    case 2 =>
    case 3 =>
    case 4 =>
    case 5 =>
    case 6 =>
    case _ =>
  }

  lemma Masked(b: bv8, p: bv8, q: bv8)
    ensures (b ^ p) & q == (b & q) ^ (p & q)
    ensures (b | p) & q == (b & q) | (p & q)
    ensures b ^ 0 == b && b | 0 == b && 0 | b == b && b ^ b == 0 && b | b == b && b & 0 == 0
    ensures 0 ^ b == b && 0 & b == 0
  {
  }

  lemma FlipBit(b: bv8, j: nat, k: nat)
    requires j < 8 && k < 8
    ensures Has8(b ^ Bit8(j), k) == (Has8(b, k) != (j == k))
  {
    hide Bit8;
    BitsApart(j, k);
    OneBit(b, k);
    Masked(b, Bit8(j), Bit8(k));
    Masked(Bit8(k), 0, 0);
  }

  lemma AddBit(b: bv8, j: nat, k: nat)
    requires j < 8 && k < 8
    ensures Has8(b | Bit8(j), k) == (Has8(b, k) || j == k)
    ensures !Has8(0, k)
  {
    hide Bit8;
    BitsApart(j, k);
    OneBit(b, k);
    Masked(b, Bit8(j), Bit8(k));
    Masked(Bit8(k), 0, 0);
  }

  lemma OrBits(b: bv8, c: bv8, k: nat)
    requires k < 8
    ensures Has8(b | c, k) == (Has8(b, k) || Has8(c, k))
  {
    hide Bit8;
    OneBit(b, k);
    OneBit(c, k);
    Masked(b, c, Bit8(k));
    Masked(Bit8(k), 0, 0);
  }

  lemma NoBits(b: bv8)
    ensures (forall k :: 0 <= k < 8 ==> !Has8(b, k)) <==> b == 0
  {
    if forall k :: 0 <= k < 8 ==> !Has8(b, k) {
      assert !Has8(b, 0) && !Has8(b, 1) && !Has8(b, 2) && !Has8(b, 3);
      assert !Has8(b, 4) && !Has8(b, 5) && !Has8(b, 6) && !Has8(b, 7);
    }
  }

  lemma NoBytes(w: bv64)
    ensures (forall n :: 0 <= n < 8 ==> Byte(w, n) == 0) <==> w == 0
  {
    if forall n :: 0 <= n < 8 ==> Byte(w, n) == 0 {
      assert Byte(w, 0) == 0 && Byte(w, 1) == 0 && Byte(w, 2) == 0 && Byte(w, 3) == 0;
      assert Byte(w, 4) == 0 && Byte(w, 5) == 0 && Byte(w, 6) == 0 && Byte(w, 7) == 0;
    }
  }

  // 0x80 in every byte of x that is zero, as long as no zero byte has a 1
  // above it, to which the subtraction could borrow its way up
  function ZeroMarks(x: bv64): bv64 {
    (x - 0x0101_0101_0101_0101) & !x & 0x8080_8080_8080_8080
  }

  predicate NoOneAboveZero(x: bv64) {
    forall n :: 0 <= n < 7 && Byte(x, n) == 0 ==> Byte(x, n + 1) != 1
  }

  lemma ZeroMarksRight(x: bv64, n: nat)
    requires n < 8 && NoOneAboveZero(x)
    ensures Byte(ZeroMarks(x), n) == if Byte(x, n) == 0 then 0x80 else 0
  {
    assert Byte(x, 0) == 0 ==> Byte(x, 0 + 1) != 1;
    assert Byte(x, 1) == 0 ==> Byte(x, 1 + 1) != 1;
    assert Byte(x, 2) == 0 ==> Byte(x, 2 + 1) != 1;
    assert Byte(x, 3) == 0 ==> Byte(x, 3 + 1) != 1;
    assert Byte(x, 4) == 0 ==> Byte(x, 4 + 1) != 1;
    assert Byte(x, 5) == 0 ==> Byte(x, 5 + 1) != 1;
    assert Byte(x, 6) == 0 ==> Byte(x, 6 + 1) != 1;
    match n
    case 0 =>
    case 1 =>
    case 2 =>
    case 3 =>
    case 4 =>
    case 5 =>
    case 6 =>
    case _ =>
  }

  // --- The same about the bits of whole words

  function WithXor(w: bv64, b: bv8, n: nat): bv64
    requires n < 8
  {
    w ^ AtByte(b, n)
  }

  function WithByte(w: bv64, b: bv8, n: nat): bv64
    requires n < 8
  {
    w | AtByte(b, n)
  }

  lemma XorByte(w: bv64, x: bv64, n: nat)
    requires n < 8
    ensures Byte(w ^ x, n) == Byte(w, n) ^ Byte(x, n)
  {
    match n
    case 0 =>
    case 1 =>
    case 2 =>
    case 3 =>
    case 4 =>
    case 5 =>
    case 6 =>
    case _ =>
  }

  lemma OrByte(w: bv64, x: bv64, n: nat)
    requires n < 8
    ensures Byte(w | x, n) == Byte(w, n) | Byte(x, n)
  {
    match n
    case 0 =>
    case 1 =>
    case 2 =>
    case 3 =>
    case 4 =>
    case 5 =>
    case 6 =>
    case _ =>
  }

  lemma AtByteThere(b: bv8, n: nat)
    requires n < 8
    ensures Byte(AtByte(b, n), n) == b
  {
    match n
    case 0 =>
    case 1 =>
    case 2 =>
    case 3 =>
    case 4 =>
    case 5 =>
    case 6 =>
    case _ =>
  }

  lemma AtByteElsewhere(b: bv8, m: nat, n: nat)
    requires m < 8 && n < 8 && m != n
    ensures Byte(AtByte(b, m), n) == 0
  {
    match n
    case 0 =>
    case 1 =>
    case 2 =>
    case 3 =>
    case 4 =>
    case 5 =>
    case 6 =>
    case _ =>
  }

  lemma NoChange(b: bv8)
    ensures b ^ 0 == b && b | 0 == b
  {
  }

  lemma FlipThere(w: bv64, b: bv8, n: nat)
    requires n < 8
    ensures Byte(WithXor(w, b, n), n) == Byte(w, n) ^ b
  {
    hide Byte, AtByte;
    XorByte(w, AtByte(b, n), n);
    AtByteThere(b, n);
  }

  lemma FlipElsewhere(w: bv64, b: bv8, m: nat, n: nat)
    requires m < 8 && n < 8 && m != n
    ensures Byte(WithXor(w, b, m), n) == Byte(w, n)
  {
    hide Byte, AtByte;
    XorByte(w, AtByte(b, m), n);
    AtByteElsewhere(b, m, n);
    NoChange(Byte(w, n));
  }

  lemma FlipByte(w: bv64, b: bv8, m: nat, n: nat)
    requires m < 8 && n < 8
    ensures m == n ==> Byte(WithXor(w, b, m), n) == Byte(w, n) ^ b
    ensures m != n ==> Byte(WithXor(w, b, m), n) == Byte(w, n)
  {
    hide Byte, WithXor;
    if m == n {
      FlipThere(w, b, n);
    } else {
      FlipElsewhere(w, b, m, n);
    }
  }

  lemma MergeThere(w: bv64, b: bv8, n: nat)
    requires n < 8
    ensures Byte(WithByte(w, b, n), n) == Byte(w, n) | b
  {
    hide Byte, AtByte;
    OrByte(w, AtByte(b, n), n);
    AtByteThere(b, n);
  }

  lemma MergeElsewhere(w: bv64, b: bv8, m: nat, n: nat)
    requires m < 8 && n < 8 && m != n
    ensures Byte(WithByte(w, b, m), n) == Byte(w, n)
  {
    hide Byte, AtByte;
    OrByte(w, AtByte(b, m), n);
    AtByteElsewhere(b, m, n);
    NoChange(Byte(w, n));
  }

  lemma MergeByte(w: bv64, b: bv8, m: nat, n: nat)
    requires m < 8 && n < 8
    ensures m == n ==> Byte(WithByte(w, b, m), n) == Byte(w, n) | b
    ensures m != n ==> Byte(WithByte(w, b, m), n) == Byte(w, n)
  {
    hide Byte, WithByte;
    if m == n {
      MergeThere(w, b, n);
    } else {
      MergeElsewhere(w, b, m, n);
    }
  }

  // w with bit k changed
  function Toggled(w: bv64, k: nat): bv64
    requires k < 64
  {
    WithXor(w, Bit8(k % 8), k / 8)
  }

  function WithBit(b: bv8, k: nat): bv8
    requires k < 8
  {
    b | Bit8(k)
  }

  lemma ToggledByte(w: bv64, j: nat, n: nat)
    requires j < 64 && n < 8
    ensures j / 8 == n ==> Byte(Toggled(w, j), n) == Byte(w, n) ^ Bit8(j % 8)
    ensures j / 8 != n ==> Byte(Toggled(w, j), n) == Byte(w, n)
  {
    hide Byte, WithXor, Bit8;
    FlipByte(w, Bit8(j % 8), j / 8, n);
  }

  lemma ToggledBit(w: bv64, j: nat, k: nat)
    requires j < 64 && k < 64
    ensures Has64(Toggled(w, j), k) == (Has64(w, k) != (j == k))
  {
    hide Byte, AtByte, Bit8, Has8, Toggled;
    ToggledByte(w, j, k / 8);
    FlipBit(Byte(w, k / 8), j % 8, k % 8);
  }

  lemma WithByteBit(w: bv64, b: bv8, n: nat, k: nat)
    requires n < 8 && k < 64
    ensures Has64(WithByte(w, b, n), k) == (Has64(w, k) || (k / 8 == n && Has8(b, k % 8)))
  {
    hide Byte, AtByte, Bit8, Has8;
    MergeByte(w, b, n, k / 8);
    OrBits(Byte(w, k / 8), b, k % 8);
  }

  lemma NoBits64(w: bv64)
    ensures (forall k :: 0 <= k < 64 ==> !Has64(w, k)) <==> w == 0
  {
    hide Byte, Bit8, Has8;
    NoBytes(w);
    forall n | 0 <= n < 8
      ensures (forall k :: 0 <= k < 8 ==> !Has8(Byte(w, n), k)) <==> Byte(w, n) == 0
      ensures forall k :: 0 <= k < 8 ==> (Has8(Byte(w, n), k) <==> Has64(w, 8 * n + k))
    {
      NoBits(Byte(w, n));
      forall k | 0 <= k < 8 ensures Has8(Byte(w, n), k) <==> Has64(w, 8 * n + k) {
        assert (8 * n + k) / 8 == n && (8 * n + k) % 8 == k;
      }
    }
    forall k | 0 <= k < 64 ensures Has64(w, k) == Has8(Byte(w, k / 8), k % 8) {
    }
  }

  // ffsl: one more than the lowest bit set, 0 if there is none
  function FfsFrom(w: bv64, k: nat): (f: nat)
    requires k <= 64
    ensures f <= 64
    decreases 64 - k
  {
    if k == 64 then 0 else if Has64(w, k) then k + 1 else FfsFrom(w, k + 1)
  }

  function Ffs(w: bv64): (f: nat)
    ensures f <= 64
  {
    FfsFrom(w, 0)
  }

  predicate Lowest(w: bv64, k: nat, f: nat)
    requires f <= 64
  {
    if f == 0 then forall j :: k <= j < 64 ==> !Has64(w, j)
    else k < f && Has64(w, f - 1) && forall j :: k <= j < f - 1 ==> !Has64(w, j)
  }

  lemma {:induction false} FfsFromRight(w: bv64, k: nat)
    requires k <= 64
    ensures Lowest(w, k, FfsFrom(w, k))
    decreases 64 - k
  {
    hide Has64;
    if k < 64 && !Has64(w, k) {
      FfsFromRight(w, k + 1);
    }
  }

  lemma FfsRight(w: bv64)
    ensures Lowest(w, 0, Ffs(w))
  {
    hide FfsFrom, Has64;
    FfsFromRight(w, 0);
  }
}
