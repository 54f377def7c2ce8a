module CrlfScan {
  // The scanner for line ends (usipy_sip_msg.c): a word at a time, with the
  // hits of eight words kept as the bits of another.

  import opened Words

  const CR: bv8 := 0x0D
  const LF: bv8 := 0x0A
  const ALL_CR: bv64 := 0x0D0D_0D0D_0D0D_0D0D
  const ALL_LF: bv64 := 0x0A0A_0A0A_0A0A_0A0A

  // --- One word

  // The byte before byte n of a word, if only as far as being '\r' goes
  predicate CrBefore(w: bv64, carry: bool, n: nat)
    requires n < 8
  {
    if n == 0 then carry else Byte(w, n - 1) == CR
  }

  predicate Hit(w: bv64, carry: bool, n: nat)
    requires n < 8
  {
    CrBefore(w, carry, n) && Byte(w, n) == LF
  }

  function Shifted(a: bv64): bv64 {
    a << 8
  }

  // Zero exactly where a hit is
  function Compared(w: bv64, carry: bool): bv64 {
    (Shifted(w ^ ALL_CR) | (if carry then 0 else 1)) | (w ^ ALL_LF)
  }

  // What byte n is compared with: the byte before it, or what the carry says
  function Before(w: bv64, carry: bool, n: nat): bv8
    requires n < 8
  {
    if n > 0 then Byte(w, n - 1) ^ CR else if carry then 0 else 1
  }

  lemma ComparedByte(w: bv64, carry: bool, n: nat)
    requires n < 8
    ensures Byte(Compared(w, carry), n) == Before(w, carry, n) | (Byte(w, n) ^ LF)
  {
    match n
    case 0 =>
    case 1 =>
    case 2 =>
    case 3 =>
    case 4 =>
    case 5 =>
    case 6 =>
    case _ =>
  }

  lemma ZeroMeansHit(p: bv8, b: bv8)
    ensures (p ^ CR) | (b ^ LF) == 0 <==> p == CR && b == LF
    ensures 0 | (b ^ LF) == 0 <==> b == LF
    ensures 1 | (b ^ LF) != 0
  {
  }

  // Above a hit there is a byte of at least 0x07
  lemma NoFalseBorrow(w: bv64, carry: bool)
    ensures NoOneAboveZero(Compared(w, carry))
    ensures forall n :: 0 <= n < 8 ==> (Byte(Compared(w, carry), n) == 0 <==> Hit(w, carry, n))
  {
    forall n | 0 <= n < 8
      ensures Byte(Compared(w, carry), n) == 0 <==> Hit(w, carry, n)
    {
      ComparedByte(w, carry, n);
      ZeroMeansHit(if n == 0 then 0 else Byte(w, n - 1), Byte(w, n));
    }
    forall n | 0 <= n < 7 && Byte(Compared(w, carry), n) == 0
      ensures Byte(Compared(w, carry), n + 1) != 1
    {
      ComparedByte(w, carry, n + 1);
      AfterLf(Byte(w, n + 1));
    }
  }

  lemma AfterLf(b: bv8)
    ensures (LF ^ CR) | (b ^ LF) >= 0x07
  {
  }

  // The marks of the hits, one bit each
  function Marks(w: bv64, carry: bool): bv64 {
    ZeroMarks(Compared(w, carry))
  }

  lemma MarksRight(w: bv64, carry: bool, j: nat)
    requires j < 64
    ensures Has64(Marks(w, carry), j) <==> j % 8 == 7 && Hit(w, carry, j / 8)
  {
    hide Byte, Has8, Compared, ZeroMarks, NoOneAboveZero, Hit;
    NoFalseBorrow(w, carry);
    ZeroMarksRight(Compared(w, carry), j / 8);
    OnlyTop(j % 8);
  }

  lemma OnlyTop(k: nat)
    requires k < 8
    ensures Has8(0x80, k) <==> k == 7
    ensures !Has8(0, k)
  {
  }

  lemma HitsApart(w: bv64, carry: bool, m: nat, n: nat)
    requires m < n < 8 && Hit(w, carry, m) && Hit(w, carry, n)
    ensures m + 2 <= n
  {
  }

  lemma TopByteIsCr(w: bv64)
    ensures EndsInCr(w) <==> Byte(w, 7) == CR
  {
  }

  predicate EndsInCr(w: bv64) {
    (w ^ ALL_CR) >> 56 == 0
  }

  // What the flags of one word say about it
  predicate Flags(v: bv8, w: bv64, carry: bool) {
    forall n :: 0 <= n < 8 ==> (Has8(v, n) <==> Hit(w, carry, n))
  }

  // The marks left after i rounds: hits, the lowest of them at byte 2i or above
  predicate Spread(m: bv64, w: bv64, carry: bool, i: nat) {
    forall j :: 0 <= j < 64 && Has64(m, j) ==> j % 8 == 7 && Hit(w, carry, j / 8) && j / 8 >= 2 * i
  }

  // Each hit is flagged or still marked
  predicate Sorted(v: bv8, m: bv64, w: bv64, carry: bool) {
    forall n :: 0 <= n < 8 ==> (Has8(v, n) <==> Hit(w, carry, n) && !Has64(m, 8 * n + 7))
  }

  lemma NothingSorted(w: bv64, carry: bool)
    ensures Spread(Marks(w, carry), w, carry, 0) && Sorted(0, Marks(w, carry), w, carry)
  {
    hide Has64, Has8, Marks, Hit;
    var m := Marks(w, carry);
    forall j | 0 <= j < 64 ensures Has64(m, j) <==> j % 8 == 7 && Hit(w, carry, j / 8) {
      MarksRight(w, carry, j);
    }
    forall n | 0 <= n < 8 ensures !Has8(0, n) && (Has64(m, 8 * n + 7) <==> Hit(w, carry, n)) {
      OnlyTop(n);
    }
  }

  // crlfcompr: the hits of a word as bits of a byte, and whether it ends in
  // '\r'. Four rounds are enough.
  method CompareWord(w: bv64, carry: bool) returns (v: bv8, out: bool)
    ensures Flags(v, w, carry)
    ensures out == (Byte(w, 7) == CR)
  {
    hide Has64, Has8, Marks, Toggled, WithBit, Byte, Ffs, Hit, EndsInCr, Spread, Sorted;
    out := EndsInCr(w);
    TopByteIsCr(w);
    var m := Marks(w, carry);
    v := 0;
    NothingSorted(w, carry);
    var i := 0;
    while i < 4
      invariant i <= 4
      invariant Spread(m, w, carry, i) && Sorted(v, m, w, carry)
    {
      var nbit := Ffs(m);
      FfsRight(m);
      if nbit == 0 {
        break;
      }
      MarkedByte(m, w, carry, i, nbit - 1);
      Cleared(m, w, carry, i, nbit - 1);
      Flagged(v, m, w, carry, i, nbit - 1);
      m := Toggled(m, nbit - 1);
      v := WithBit(v, nbit / 8 - 1);
      i := i + 1;
    }
    AllSorted(v, m, w, carry, i);
  }

  lemma MarkedByte(m: bv64, w: bv64, carry: bool, i: nat, k: nat)
    requires Spread(m, w, carry, i) && k < 64 && Has64(m, k)
    ensures k % 8 == 7
  {
  }

  lemma Cleared(m: bv64, w: bv64, carry: bool, i: nat, k: nat)
    requires Spread(m, w, carry, i) && k < 64 && Has64(m, k)
    requires forall j :: 0 <= j < k ==> !Has64(m, j)
    ensures Spread(Toggled(m, k), w, carry, i + 1)
  {
    hide Has64, Toggled, Hit;
    forall j | 0 <= j < 64 && Has64(Toggled(m, k), j)
      ensures j % 8 == 7 && Hit(w, carry, j / 8) && j / 8 >= 2 * (i + 1)
    {
      ToggledBit(m, k, j);
      assert j > k && j / 8 > k / 8;
      HitsApart(w, carry, k / 8, j / 8);
    }
  }

  lemma Flagged(v: bv8, m: bv64, w: bv64, carry: bool, i: nat, k: nat)
    requires Spread(m, w, carry, i) && Sorted(v, m, w, carry) && k < 64 && Has64(m, k)
    requires k % 8 == 7
    ensures Sorted(WithBit(v, (k + 1) / 8 - 1), Toggled(m, k), w, carry)
  {
    hide Has64, Has8, Toggled, Hit, Bit8;
    forall n | 0 <= n < 8
      ensures Has8(WithBit(v, k / 8), n) <==> Hit(w, carry, n) && !Has64(Toggled(m, k), 8 * n + 7)
    {
      AddBit(v, k / 8, n);
      ToggledBit(m, k, 8 * n + 7);
    }
  }

  lemma AllSorted(v: bv8, m: bv64, w: bv64, carry: bool, i: nat)
    requires Spread(m, w, carry, i) && Sorted(v, m, w, carry)
    requires i >= 4 || forall j :: 0 <= j < 64 ==> !Has64(m, j)
    ensures Flags(v, w, carry)
  {
    hide Has64, Has8, Hit;
  }

  // --- One word of four bytes, as on a 32-bit machine

  function HalfMarks(w: bv32, carry: bool): bv32 {
    var a := w ^ 0x0D0D_0D0D;
    var b := w ^ 0x0A0A_0A0A;
    var x := ((a << 8) | (if carry then 0 else 1)) | b;
    (x - 0x0101_0101) & !x & 0x8080_8080
  }

  // Its marks are those of the word of eight bytes with nothing in the upper
  // four
  lemma HalfIsLow(w: bv32, carry: bool)
    ensures HalfMarks(w, carry) as bv64 == Marks(w as bv64, carry)
  {
  }

  lemma UpperIsEmpty(w: bv32, n: nat)
    requires 4 <= n < 8
    ensures Byte(w as bv64, n) == 0
  {
    match n
    case 4 =>
    case 5 =>
    case 6 =>
    case _ =>
  }

  lemma UpperMisses(w: bv32, carry: bool, n: nat)
    requires 4 <= n < 8
    ensures !Hit(w as bv64, carry, n)
  {
    hide Byte;
    UpperIsEmpty(w, n);
  }

  lemma HalfEndsInCr(w: bv32)
    ensures (w ^ 0x0D0D_0D0D) >> 24 == 0 <==> Byte(w as bv64, 3) == CR
  {
  }

  // crlfcompr with words of four bytes: two rounds are enough.
  method CompareHalf(w: bv32, carry: bool) returns (v: bv8, out: bool)
    ensures forall n :: 0 <= n < 4 ==> (Has8(v, n) <==> Hit(w as bv64, carry, n))
    ensures forall n :: 4 <= n < 8 ==> !Has8(v, n)
    ensures out == (Byte(w as bv64, 3) == CR)
  {
    hide Has64, Has8, Marks, HalfMarks, Toggled, WithBit, Byte, Ffs, Hit, Spread, Sorted;
    out := (w ^ 0x0D0D_0D0D) >> 24 == 0;
    HalfEndsInCr(w);
    HalfIsLow(w, carry);
    ghost var whole := w as bv64;
    var m := HalfMarks(w, carry) as bv64;
    v := 0;
    NothingSorted(whole, carry);
    var i := 0;
    while i < 2
      invariant i <= 2
      invariant Spread(m, whole, carry, i) && Sorted(v, m, whole, carry)
    {
      var nbit := Ffs(m);
      FfsRight(m);
      if nbit == 0 {
        break;
      }
      MarkedByte(m, whole, carry, i, nbit - 1);
      Cleared(m, whole, carry, i, nbit - 1);
      Flagged(v, m, whole, carry, i, nbit - 1);
      m := Toggled(m, nbit - 1);
      v := WithBit(v, nbit / 8 - 1);
      i := i + 1;
    }
    HalfSorted(v, m, w, carry, i);
  }

  lemma HalfSorted(v: bv8, m: bv64, w: bv32, carry: bool, i: nat)
    requires Spread(m, w as bv64, carry, i) && Sorted(v, m, w as bv64, carry)
    requires i >= 2 || forall j :: 0 <= j < 64 ==> !Has64(m, j)
    ensures Flags(v, w as bv64, carry)
    ensures forall n :: 4 <= n < 8 ==> !Has8(v, n)
  {
    hide Has64, Has8, Hit;
    ghost var whole := w as bv64;
    forall n | 4 <= n < 8 ensures !Hit(whole, carry, n) {
      UpperMisses(w, carry, n);
    }
  }

  // --- The whole message

  predicate CrlfAt(s: seq<bv8>, p: int) {
    0 <= p && p + 1 < |s| && s[p] == CR && s[p + 1] == LF
  }

  // The positions of all line ends from p on, in order
  function CrlfFrom(s: seq<bv8>, p: nat): seq<nat>
    decreases |s| - p
  {
    if p + 1 >= |s| then []
    else (if CrlfAt(s, p) then [p] else []) + CrlfFrom(s, p + 1)
  }

  lemma {:induction false} CrlfFromFinds(s: seq<bv8>, p: nat, q: nat)
    ensures q in CrlfFrom(s, p) <==> q >= p && CrlfAt(s, q)
    decreases |s| - p
  {
    if p + 1 < |s| {
      CrlfFromFinds(s, p + 1, q);
    }
  }

  lemma {:induction false} CrlfFromOrder(s: seq<bv8>, p: nat)
    ensures forall j, k :: 0 <= j < k < |CrlfFrom(s, p)| ==> CrlfFrom(s, p)[j] < CrlfFrom(s, p)[k]
    decreases |s| - p
  {
    hide CrlfAt;
    if p + 1 < |s| {
      CrlfFromOrder(s, p + 1);
      var all, rest := CrlfFrom(s, p), CrlfFrom(s, p + 1);
      forall j, k | 0 <= j < k < |all| ensures all[j] < all[k] {
        if CrlfAt(s, p) {
          assert all[k] == rest[k - 1];
          if j == 0 {
            CrlfFromFinds(s, p + 1, all[k]);
          } else {
            assert all[j] == rest[j - 1];
          }
        }
      }
    }
  }

  // Exactly the line ends, in the order of their positions
  lemma CrlfFromRight(s: seq<bv8>)
    ensures forall q: nat :: q in CrlfFrom(s, 0) <==> CrlfAt(s, q)
    ensures forall j, k :: 0 <= j < k < |CrlfFrom(s, 0)| ==> CrlfFrom(s, 0)[j] < CrlfFrom(s, 0)[k]
  {
    hide CrlfAt, CrlfFrom;
    CrlfFromOrder(s, 0);
    forall q: nat ensures q in CrlfFrom(s, 0) <==> CrlfAt(s, q) {
      CrlfFromFinds(s, 0, q);
    }
  }

  lemma {:induction false} CrlfSkip(s: seq<bv8>, p: nat, q: nat)
    requires p <= q && forall k :: p <= k < q ==> !CrlfAt(s, k)
    ensures CrlfFrom(s, p) == CrlfFrom(s, q)
    decreases q - p
  {
    if p < q {
      CrlfSkip(s, p + 1, q);
    }
  }

  lemma CrlfHead(s: seq<bv8>, p: nat, q: nat)
    requires p <= q && CrlfAt(s, q) && forall k :: p <= k < q ==> !CrlfAt(s, k)
    ensures CrlfFrom(s, p) == [q] + CrlfFrom(s, q + 1)
  {
    CrlfSkip(s, p, q);
  }

  lemma OneReturned(s: seq<bv8>, done: seq<nat>, p: nat, q: nat)
    requires p <= q && CrlfAt(s, q) && forall k :: p <= k < q ==> !CrlfAt(s, k)
    ensures (done + [q]) + CrlfFrom(s, q + 1) == done + CrlfFrom(s, p)
  {
    CrlfHead(s, p, q);
  }

  // The word at i, in the order of a little-endian machine, 0 past the end
  function WordAt(s: seq<bv8>, i: nat): bv64 {
    Pack(seq(8, k requires 0 <= k < 8 => if i + k < |s| then s[i + k] else 0))
  }

  lemma WordAtByte(s: seq<bv8>, i: nat, n: nat)
    requires n < 8
    ensures Byte(WordAt(s, i), n) == if i + n < |s| then s[i + n] else 0
  {
    hide Byte, Pack;
    PackByte(seq(8, k requires 0 <= k < 8 => if i + k < |s| then s[i + k] else 0), n);
  }

  // The carry into the word at i
  predicate CarryAt(s: seq<bv8>, i: nat, carry: bool) {
    i < |s| ==> carry == (i > 0 && s[i - 1] == CR)
  }

  lemma HitsAreCrlf(s: seq<bv8>, i: nat, carry: bool, n: nat)
    requires n < 8 && i < |s| && CarryAt(s, i, carry)
    ensures Hit(WordAt(s, i), carry, n) <==> CrlfAt(s, i + n - 1)
  {
    hide Byte, WordAt;
    WordAtByte(s, i, n);
    if n > 0 {
      WordAtByte(s, i, n - 1);
    }
  }

  lemma CarryGoesOn(s: seq<bv8>, i: nat)
    ensures CarryAt(s, i + 8, Byte(WordAt(s, i), 7) == CR)
  {
    hide Byte, WordAt;
    WordAtByte(s, i, 7);
  }

  // The flags in `oword` are the line ends ('\n' at base + j) found in the
  // bytes from base to i and not returned yet, those below `next`; and there
  // are no others before i.
  predicate Pending(s: seq<bv8>, next: nat, base: int, i: nat, oword: bv64) {
    && base <= i && (next < i || (i == 0 && next == 0))
    && (forall j :: 0 <= j < 64 && Has64(oword, j) ==>
          base + j < i && next <= base + j - 1 && CrlfAt(s, base + j - 1))
    && (forall p: nat :: next <= p && p + 1 < i && CrlfAt(s, p) ==>
          0 <= p + 1 - base < 64 && Has64(oword, p + 1 - base))
  }

  lemma OneMoreWord(s: seq<bv8>, next: nat, base: nat, i: nat, oword: bv64, carry: bool, v: bv8)
    requires Pending(s, next, base, i, oword) && i < |s| && CarryAt(s, i, carry)
    requires Flags(v, WordAt(s, i), carry) && i - base < 64 && (i - base) % 8 == 0
    ensures Pending(s, next, base, i + 8, WithByte(oword, v, (i - base) / 8))
  {
    hide Has64, Has8, WithByte, WordAt, Hit, CrlfAt;
    var n := (i - base) / 8;
    var o := WithByte(oword, v, n);
    forall j | 0 <= j < 64 && Has64(o, j)
      ensures base + j < i + 8 && next <= base + j - 1 && CrlfAt(s, base + j - 1)
    {
      WithByteBit(oword, v, n, j);
      if !Has64(oword, j) {
        HitsAreCrlf(s, i, carry, j % 8);
        NotAtStart(s, base + j - 1);
      }
    }
    forall p: nat | next <= p && p + 1 < i + 8 && CrlfAt(s, p)
      ensures 0 <= p + 1 - base < 64 && Has64(o, p + 1 - base)
    {
      if p + 1 >= i {
        HitsAreCrlf(s, i, carry, p + 1 - i);
        WithByteBit(oword, v, n, p + 1 - base);
      } else {
        WithByteBit(oword, v, n, p + 1 - base);
      }
    }
  }

  lemma NotAtStart(s: seq<bv8>, p: int)
    ensures CrlfAt(s, p) ==> p >= 0
  {
  }

  // A flag returned
  lemma OneLess(s: seq<bv8>, next: nat, base: int, i: nat, oword: bv64, k: nat)
    requires Pending(s, next, base, i, oword) && k < 64 && Has64(oword, k)
    requires forall j :: 0 <= j < k ==> !Has64(oword, j)
    ensures var p := base + k - 1;
      && next <= p && CrlfAt(s, p) && Pending(s, p + 1, base, i, Toggled(oword, k))
      && forall q :: next <= q < p ==> !CrlfAt(s, q)
  {
    hide Has64, Toggled, CrlfAt;
    var p := base + k - 1;
    var o := Toggled(oword, k);
    forall j | 0 <= j < 64 && Has64(o, j)
      ensures base + j < i && p + 1 <= base + j - 1 && CrlfAt(s, base + j - 1)
    {
      ToggledBit(oword, k, j);
      Overlap(s, p, base + j - 1);
    }
    forall q: nat | p + 1 <= q && q + 1 < i && CrlfAt(s, q)
      ensures 0 <= q + 1 - base < 64 && Has64(o, q + 1 - base)
    {
      ToggledBit(oword, k, q + 1 - base);
    }
  }

  lemma Overlap(s: seq<bv8>, p: int, q: int)
    requires p < q && CrlfAt(s, p) && CrlfAt(s, q)
    ensures p + 2 <= q
  {
  }

  // The iterator (struct usipy_sip_msg_iterator)
  class LineEnds {
    const msg: seq<bv8>
    const copy: array<bv8>
    var i: nat
    var carry: bool
    var oword: bv64
    var cshift: nat
    ghost var next: nat
    ghost var returned: seq<nat>

    ghost predicate Valid()
      reads this, copy
    {
      && Copied(i)
      && returned + CrlfFrom(msg, next) == CrlfFrom(msg, 0)
      && (if cshift == 0 then
            Pending(msg, next, i - 64, i, oword) && CarryAt(msg, i, carry)
          else
            i >= |msg| && oword == 0 && CrlfFrom(msg, next) == [])
    }

    ghost predicate Copied(n: nat)
      reads copy
    {
      copy.Length == |msg| && forall k :: 0 <= k < n && k < |msg| ==> copy[k] == msg[k]
    }

    constructor (msg: seq<bv8>, copy: array<bv8>)
      requires copy.Length == |msg|
      ensures Valid() && this.msg == msg && this.copy == copy && returned == []
    {
      this.msg, this.copy := msg, copy;
      i, carry, oword, cshift := 0, false, 0, 0;
      next, returned := 0, [];
      new;
      NoBits64(0);
    }

    // The lowest flag, taken off
    method Take() returns (r: int)
      requires Valid() && cshift == 0 && oword != 0
      modifies this`oword, this`next, this`returned
      ensures Valid()
      ensures returned == old(returned) + [r] && r >= 0
    {
      hide Has64, Toggled, Ffs, CrlfFrom, CrlfAt, Pending;
      var f := Ffs(oword);
      FfsRight(oword);
      NoBits64(oword);
      OneLess(msg, next, i - 64, i, oword, f - 1);
      r := i - 64 + (f - 1) - 1;
      OneReturned(msg, returned, next, r);
      oword := Toggled(oword, f - 1);
      next := r + 1;
      returned := returned + [r];
    }

    // The next word copied, its last bytes one by one
    method CopyWord()
      requires Copied(i) && i < |msg|
      modifies copy
      ensures Copied(i + 8)
    {
      var k := i;
      while k < |msg| && k < i + 8
        invariant i <= k <= |msg| && k <= i + 8
        invariant Copied(k)
      {
        copy[k] := msg[k];
        k := k + 1;
      }
    }

    // The word at i: copied, compared, and its hits added to the flags
    method AddWord(c: bool) returns (out: bool)
      requires Copied(i) && i < |msg|
      requires i >= cshift && cshift < 64 && cshift % 8 == 0
      requires Pending(msg, next, i - cshift, i, oword) && CarryAt(msg, i, c)
      modifies this`oword, copy
      ensures Copied(i + 8)
      ensures Pending(msg, next, i - cshift, i + 8, oword) && CarryAt(msg, i + 8, out)
    {
      hide WithByte, WordAt, Byte, Hit, Pending, Flags, CarryAt;
      CopyWord();
      var w := WordAt(msg, i);
      var v;
      v, out := CompareWord(w, c);
      OneMoreWord(msg, next, i - cshift, i, oword, c, v);
      CarryGoesOn(msg, i);
      if v != 0 {
        oword := WithByte(oword, v, cshift / 8);
      } else {
        NothingAdded(oword, cshift / 8);
      }
    }

    // usipy_sip_msg_break_down: the next line end, -1 when there are no more
    method BreakDown() returns (r: int)
      requires Valid()
      modifies this`i, this`carry, this`oword, this`cshift, this`next, this`returned, copy
      ensures Valid()
      ensures returned <= CrlfFrom(msg, 0)
      ensures r >= 0 ==> returned == old(returned) + [r]
      ensures r < 0 ==> r == -1 && returned == old(returned) == CrlfFrom(msg, 0) && copy[..] == msg
    {
      hide CrlfFrom, Pending;
      if cshift == 0 && oword != 0 {
        r := Take();
        return;
      }
      if i < |msg| {
        r := ScanOn();
      } else {
        if cshift == 0 {
          NoneLeft(msg, next, i - 64, i);
        }
        r := -1;
      }
    }

    // Word by word, up to the end of a group with a line end in it, or that of
    // the message
    method ScanOn() returns (r: int)
      requires Valid() && cshift == 0 && oword == 0 && i < |msg|
      modifies this`i, this`carry, this`oword, this`cshift, this`next, this`returned, copy
      ensures Valid()
      ensures r >= 0 ==> returned == old(returned) + [r]
      ensures r < 0 ==> r == -1 && returned == old(returned) == CrlfFrom(msg, 0) && copy[..] == msg
    {
      hide CrlfFrom, Pending;
      Rebased(msg, next, i - 64, i, i);
      var c := carry;
      while i < |msg|
        invariant Copied(i) && returned == old(returned) && next == old(next)
        invariant cshift < 64 && cshift % 8 == 0 && (cshift == 0 ==> oword == 0) && i >= cshift
        invariant Pending(msg, next, i - cshift, i, oword) && CarryAt(msg, i, c)
      {
        c := AddWord(c);
        if cshift == 56 {
          cshift := 0;
          if oword != 0 {
            i := i + 8;
            carry := c;
            r := Take();
            return;
          }
          Rebased(msg, next, i - 56, i + 8, i + 8);
        } else {
          cshift := cshift + 8;
        }
        i := i + 8;
      }
      if cshift != 0 && oword != 0 {
        PastTheEnd(msg, next, i - cshift, i, i + (64 - cshift), oword);
        i := i + (64 - cshift);
        cshift := 0;
        r := Take();
        return;
      }
      NoneLeft(msg, next, i - cshift, i);
      Rebased(msg, next, i - cshift, i, i - 64);
      r := -1;
    }
  }

  // With no flags set, it does not matter where they are counted from
  lemma Rebased(s: seq<bv8>, next: nat, base: int, i: nat, other: int)
    requires Pending(s, next, base, i, 0) && other <= i
    ensures Pending(s, next, other, i, 0)
  {
    NoBits64(0);
  }

  lemma PastTheEnd(s: seq<bv8>, next: nat, base: int, i: nat, j: nat, oword: bv64)
    requires Pending(s, next, base, i, oword) && |s| <= i <= j
    ensures Pending(s, next, base, j, oword)
  {
  }

  lemma NothingAdded(w: bv64, n: nat)
    requires n < 8
    ensures WithByte(w, 0, n) == w
  {
    match n
    case 0 =>
    case 1 =>
    case 2 =>
    case 3 =>
    case 4 =>
    case 5 =>
    case 6 =>
    case _ =>
  }

  lemma NoneLeft(s: seq<bv8>, next: nat, base: int, i: nat)
    requires Pending(s, next, base, i, 0) && i >= |s|
    ensures CrlfFrom(s, next) == []
  {
    NoBits64(0);
    if next < |s| {
      CrlfSkip(s, next, |s|);
    }
  }
}
