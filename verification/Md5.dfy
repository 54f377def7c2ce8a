module Md5 {
  // MD5 as a stream (external/mackron_md5/md5.h), with the compression of one
  // block left abstract, and the digest of parts joined by ':' that
  // authorization headers use (usipy_sip_hdr_authz.c).

  import opened Base

  datatype Regs = Regs(a: nat, b: nat, c: nat, d: nat)

  // One block into the registers
  type Compress = (Regs, seq<Byte>) -> Regs

  const IV := Regs(0x67452301, 0xefcdab89, 0x98badcfe, 0x10325476)

  // --- The digest of a whole message (RFC 1321, section 3)

  // Block by block; what is left at the end does not count
  function Blocks(f: Compress, r: Regs, s: seq<Byte>): Regs
    decreases |s|
  {
    if |s| < 64 then r else Blocks(f, f(r, s[..64]), s[64..])
  }

  // A 32-bit word, its low-order byte first
  function WordBytes(v: nat): (s: seq<Byte>)
    ensures |s| == 4
  {
    [v % 256, v / 256 % 256, v / 256 / 256 % 256, v / 256 / 256 / 256 % 256]
  }

  function Zeros(n: nat): (s: seq<Byte>)
    ensures |s| == n
  {
    seq(n, _ => 0)
  }

  // Section 3.1: a 1 bit, and 0 bits up to 64 short of a block
  function Pad(n: nat): seq<Byte> {
    [0x80] + Zeros((119 - n % 64) % 64)
  }

  // Section 3.2: the length in bits modulo 2^64, as two words, the low-order
  // one first
  function Length(n: nat): seq<Byte> {
    WordBytes(8 * n % 0x1_0000_0000) + WordBytes(8 * n / 0x1_0000_0000 % 0x1_0000_0000)
  }

  function Encoded(r: Regs): seq<Byte> {
    WordBytes(r.a) + WordBytes(r.b) + WordBytes(r.c) + WordBytes(r.d)
  }

  function Digest(f: Compress, msg: seq<Byte>): seq<Byte> {
    Encoded(Blocks(f, IV, msg + Pad(|msg|) + Length(|msg|)))
  }

  // --- The length as the code writes it: each word shifted on its own

  function LengthHalves(n: nat): seq<Byte> {
    WordBytes(8 * (n % 0x1_0000_0000) % 0x1_0000_0000)
    + WordBytes(8 * (n / 0x1_0000_0000) % 0x1_0000_0000)
  }

  lemma WordBytesDiffer(v: nat, w: nat)
    requires v < 0x1_0000_0000 && w < 0x1_0000_0000
    ensures WordBytes(v) == WordBytes(w) <==> v == w
  {
    WordBack(v);
    WordBack(w);
  }

  function WordOf(s: seq<int>): int
    requires |s| == 4
  {
    s[0] + 0x100 * s[1] + 0x1_0000 * s[2] + 0x100_0000 * s[3]
  }

  lemma WordBack(v: nat)
    requires v < 0x1_0000_0000
    ensures WordOf(WordBytes(v)) == v
  {
    var a := v / 256;
    var b := a / 256;
    var c := b / 256;
    assert v == 256 * a + v % 256 && a == 256 * b + a % 256 && b == 256 * c + b % 256;
    assert c < 256 && c % 256 == c;
    assert WordBytes(v) == [v % 256, a % 256, b % 256, c];
  }

  // That is the length unless the low word is 2^29 or more
  lemma LengthRight(n: nat)
    requires n < 0x1_0000_0000_0000_0000
    ensures LengthHalves(n) == Length(n) <==> n % 0x1_0000_0000 < 0x2000_0000
  {
    hide WordBytes;
    var lo, hi := n % 0x1_0000_0000, n / 0x1_0000_0000;
    var x, y := 8 * hi % 0x1_0000_0000, 8 * n / 0x1_0000_0000 % 0x1_0000_0000;
    Halves(n);
    WordBytesDiffer(x, y);
    var a, b := LengthHalves(n), Length(n);
    assert a[4..] == WordBytes(x) && b[4..] == WordBytes(y);
    assert a[..4] == b[..4];
    assert a == a[..4] + a[4..] && b == b[..4] + b[4..];
  }

  lemma Halves(n: nat)
    requires n < 0x1_0000_0000_0000_0000
    ensures 8 * (n % 0x1_0000_0000) % 0x1_0000_0000 == 8 * n % 0x1_0000_0000
    ensures 8 * (n / 0x1_0000_0000) % 0x1_0000_0000 == 8 * n / 0x1_0000_0000 % 0x1_0000_0000
            <==> n % 0x1_0000_0000 < 0x2000_0000
  {
    var lo, hi := n % 0x1_0000_0000, n / 0x1_0000_0000;
    assert n == 0x1_0000_0000 * hi + lo;
    assert 8 * n / 0x1_0000_0000 == 8 * hi + 8 * lo / 0x1_0000_0000;
  }

  // From 2^29 bytes on the code's padding is wrong
  lemma LengthWrong()
    ensures LengthHalves(0x2000_0000) != Length(0x2000_0000)
  {
    LengthRight(0x2000_0000);
  }

  // --- Blocks one after the other

  lemma {:induction false} BlocksThen(f: Compress, r: Regs, s: seq<Byte>, b: seq<Byte>)
    requires |s| % 64 == 0
    ensures Blocks(f, r, s + b) == Blocks(f, Blocks(f, r, s), b)
    decreases |s|
  {
    if s == [] {
      assert s + b == b;
    } else {
      assert (s + b)[..64] == s[..64] && (s + b)[64..] == s[64..] + b;
      BlocksThen(f, f(r, s[..64]), s[64..], b);
    }
  }

  lemma OneBlock(f: Compress, r: Regs, b: seq<Byte>)
    requires |b| == 64
    ensures Blocks(f, r, b) == f(r, b)
  {
    assert b[..64] == b;
  }

  // How far n bytes are past a whole block
  function Over(n: nat): (k: nat)
    ensures k < 64 && k <= n
  {
    n % 64
  }

  lemma OverSum(n: nat, m: nat)
    ensures Over(n) + m < 64 ==> Over(n + m) == Over(n) + m
    ensures Over(n) + m == 64 ==> Over(n + m) == 0
    ensures Over(n - Over(n)) == 0
    ensures n >= 64 ==> Over(n - 64) == Over(n)
    ensures n < 64 ==> Over(n) == n
  {
  }

  // The unprocessed end
  function Rest(s: seq<Byte>): (r: seq<Byte>)
    ensures |r| == Over(|s|)
  {
    s[|s| - Over(|s|)..]
  }

  lemma {:induction false} BlocksOnly(f: Compress, r: Regs, s: seq<Byte>)
    ensures Blocks(f, r, s) == Blocks(f, r, s[..|s| - Over(|s|)])
    decreases |s|
  {
    hide Over;
    OverSum(|s|, 0);
    if |s| >= 64 {
      var n := |s| - Over(|s|);
      assert n >= 64 by {
        assert n > 0;
        OverSum(n, 0);
      }
      BlocksOnly(f, f(r, s[..64]), s[64..]);
      assert s[..n][..64] == s[..64] && s[..n][64..] == s[64..][..n - 64];
    }
  }

  // More data, short of a block
  lemma BlocksMore(f: Compress, r: Regs, s: seq<Byte>, t: seq<Byte>)
    requires Over(|s|) + |t| < 64
    ensures Blocks(f, r, s + t) == Blocks(f, r, s) && Rest(s + t) == Rest(s) + t
  {
    hide Over, Blocks;
    OverSum(|s|, |t|);
    BlocksOnly(f, r, s);
    BlocksOnly(f, r, s + t);
    var n := |s| - Over(|s|);
    assert (s + t)[..n] == s[..n];
  }

  // More data, making a block whole
  lemma BlocksFull(f: Compress, r: Regs, s: seq<Byte>, t: seq<Byte>)
    requires Over(|s|) + |t| == 64
    ensures Blocks(f, r, s + t) == f(Blocks(f, r, s), Rest(s) + t) && Rest(s + t) == []
  {
    hide Blocks, Over;
    var n := |s| - Over(|s|);
    OverSum(|s|, |t|);
    assert s + t == s[..n] + (Rest(s) + t);
    BlocksThen(f, r, s[..n], Rest(s) + t) by { assert Over(|s[..n]|) == 0; OverNone(n); }
    BlocksOnly(f, r, s);
    OneBlock(f, Blocks(f, r, s), Rest(s) + t);
  }

  lemma OverNone(n: nat)
    ensures Over(n) == n % 64
  {
  }

  // --- The context

  // A count of bytes in 64 bits
  function InSz(n: nat): (k: nat)
    ensures k < 0x1_0000_0000_0000_0000
  {
    n % 0x1_0000_0000_0000_0000
  }

  lemma SzSum(m: nat, n: nat)
    ensures InSz(InSz(m) + n) == InSz(m + n)
  {
  }

  class Context {
    const f: Compress
    var regs: Regs
    var sz: nat
    const cache: array<Byte>
    var cacheLen: nat
    ghost var data: seq<Byte>

    // The registers hold the whole blocks of the data so far, the cache the
    // rest of it
    ghost predicate Valid()
      reads this, cache
    {
      && cache.Length == 64 && cacheLen < 64
      && regs == Blocks(f, IV, data) && cache[..cacheLen] == Rest(data)
      && sz == InSz(|data|)
    }

    // md5_init
    constructor (f: Compress)
      ensures Valid() && fresh(cache) && data == [] && this.f == f
    {
      this.f, regs, sz := f, IV, 0;
      cache, cacheLen := new Byte[64], 0;
      data := [];
    }

    // md5_update: a whole block of the source goes straight to the registers
    // if the cache is empty, anything else through the cache
    method Update(src: seq<Byte>)
      requires Valid()
      modifies this, cache
      ensures Valid() && data == old(data) + src
    {
      hide Blocks, Rest, Over, InSz;
      var done := 0;
      ghost var was := data;
      while done < |src|
        invariant done <= |src| && cache.Length == 64 && cacheLen < 64
        invariant data == was + src[..done]
        invariant regs == Blocks(f, IV, data) && cache[..cacheLen] == Rest(data)
        invariant sz == old(sz)
      {
        var left := |src| - done;
        if cacheLen == 0 && left > 64 {
          Bypass(src[done..done + 64]);
          assert src[..done] + src[done..done + 64] == src[..done + 64];
          done := done + 64;
        } else {
          var n := if left > 64 - cacheLen then 64 - cacheLen else left;
          Fill(src[done..done + n]);
          assert src[..done] + src[done..done + n] == src[..done + n];
          done := done + n;
        }
      }
      assert src[..done] == src;
      SzSum(|was|, |src|);
      sz := InSz(sz + |src|);
    }

    // One part of several, after a ':' unless it is the first
    method AddPart(part: seq<Byte>, colon: bool)
      requires Valid()
      modifies this, cache
      ensures Valid() && data == old(data) + (if colon then [COLON] else []) + part
    {
      hide Blocks, Rest;
      if colon {
        Update([COLON]);
      }
      if |part| != 0 {
        Update(part);
      }
    }

    // The fast path
    method Bypass(b: seq<Byte>)
      requires |b| == 64 && cache.Length == 64 && cacheLen == 0
      requires regs == Blocks(f, IV, data) && Rest(data) == []
      modifies this`regs, this`data
      ensures data == old(data) + b && regs == Blocks(f, IV, data) && Rest(data) == []
    {
      BlocksFull(f, IV, data, b);
      assert Rest(data) + b == b;
      regs := f(regs, b);
      data := data + b;
    }

    // The slow path
    method Fill(b: seq<Byte>)
      requires cache.Length == 64 && cacheLen < 64 && |b| <= 64 - cacheLen
      requires regs == Blocks(f, IV, data) && cache[..cacheLen] == Rest(data)
      modifies this`regs, this`cacheLen, this`data, cache
      ensures data == old(data) + b && cacheLen < 64
      ensures regs == Blocks(f, IV, data) && cache[..cacheLen] == Rest(data)
    {
      Copy(b);
      if cacheLen + |b| == 64 {
        BlocksFull(f, IV, data, b);
        assert cache[..cacheLen + |b|] == cache[..];
        regs := f(regs, cache[..]);
        cacheLen := 0;
      } else {
        BlocksMore(f, IV, data, b);
        cacheLen := cacheLen + |b|;
      }
      data := data + b;
    }

    method Copy(b: seq<Byte>)
      requires cache.Length == 64 && cacheLen + |b| <= 64
      modifies cache
      ensures cache[..cacheLen + |b|] == old(cache[..cacheLen]) + b
    {
      var k := 0;
      while k < |b|
        invariant k <= |b|
        invariant forall j :: 0 <= j < 64 ==>
                    cache[j] == if cacheLen <= j < cacheLen + k then b[j - cacheLen] else old(cache[j])
      {
        cache[cacheLen + k] := b[k];
        k := k + 1;
      }
    }

    method ZeroTo(from: nat, to: nat)
      requires from <= to <= cache.Length
      modifies cache
      ensures cache[..] == old(cache[..from]) + Zeros(to - from) + old(cache[to..])
    {
      var k := from;
      while k < to
        invariant from <= k <= to
        invariant forall j :: 0 <= j < cache.Length ==>
                    cache[j] == if from <= j < k then 0 else old(cache[j])
      {
        cache[k] := 0;
        k := k + 1;
      }
    }

    method LengthAtEnd()
      requires cache.Length == 64 && sz < 0x1_0000_0000_0000_0000
      modifies cache
      ensures cache[..] == old(cache[..56]) + LengthHalves(sz)
    {
      hide LengthHalves;
      var l := LengthHalves(sz);
      EightBytes(sz);
      var k := 0;
      while k < 8
        invariant k <= 8
        invariant forall j :: 0 <= j < 64 ==>
                    cache[j] == if 56 <= j < 56 + k then l[j - 56] else old(cache[j])
      {
        cache[56 + k] := l[k];
        k := k + 1;
      }
    }

    // md5_finalize
    method Finalize() returns (digest: seq<Byte>)
      requires Valid()
      modifies this, cache
      ensures digest == Padded(f, old(data), old(sz))
    {
      hide Blocks, Rest, LengthHalves, WordBytes, Zeros, Padded, Over, Encoded, InSz;
      ghost var c, rest := cacheLen, Rest(data);
      cache[cacheLen] := 0x80;
      cacheLen := cacheLen + 1;
      assert cache[..cacheLen] == rest + [0x80];
      if 64 - cacheLen < 8 {
        ZeroTo(cacheLen, 64);
        assert cache[..] == rest + ([0x80] + Zeros(63 - c));
        regs := f(regs, cache[..]);
        cacheLen := 0;
        ZeroTo(0, 56);
        assert cache[..56] == Zeros(56);
        LengthAtEnd();
        LongPad(f, data, sz);
      } else {
        ZeroTo(cacheLen, 56);
        assert cache[..56] == rest + ([0x80] + Zeros(55 - c));
        LengthAtEnd();
        ShortPad(f, data, sz);
      }
      regs := f(regs, cache[..]);
      digest := Encoded(regs);
    }
  }

  lemma PadShort(n: nat)
    requires Over(n) <= 55
    ensures Pad(n) == [0x80] + Zeros(55 - Over(n))
  {
  }

  lemma PadLong(n: nat)
    requires Over(n) > 55
    ensures Pad(n) == [0x80] + Zeros(63 - Over(n)) + Zeros(56)
  {
    var k := 63 - Over(n);
    ZerosAdd(k, 56);
    Regroup([0x80], Zeros(k), Zeros(56));
  }

  lemma Regroup(a: seq<Byte>, b: seq<Byte>, c: seq<Byte>)
    ensures a + b + c == a + (b + c)
  {
  }

  // The length fits the last block
  lemma LastBlock(f: Compress, data: seq<Byte>, p: seq<Byte>, l: seq<Byte>)
    requires Over(|data|) + |p| + |l| == 64
    ensures Blocks(f, IV, data + p + l) == f(Blocks(f, IV, data), Rest(data) + p + l)
  {
    hide Blocks, Rest, Over;
    BlocksFull(f, IV, data, p + l);
    Regroup(data, p, l);
    Regroup(Rest(data), p, l);
  }

  // ... or takes one more
  lemma OneMoreBlock(f: Compress, e: seq<Byte>, q: seq<Byte>, l: seq<Byte>)
    requires Rest(e) == [] && |q| + |l| == 64
    ensures Blocks(f, IV, e + q + l) == f(Blocks(f, IV, e), q + l)
  {
    hide Blocks, Over;
    LastBlock(f, e, q, l);
    assert [] + q == q;
  }

  lemma TwoBlocks(f: Compress, data: seq<Byte>, p: seq<Byte>, q: seq<Byte>, l: seq<Byte>)
    requires Over(|data|) + |p| == 64 && |q| + |l| == 64
    ensures Blocks(f, IV, data + (p + q) + l) ==
            f(f(Blocks(f, IV, data), Rest(data) + p), q + l)
  {
    hide Blocks, Rest, Over;
    BlocksFull(f, IV, data, p);
    OneMoreBlock(f, data + p, q, l);
    Regroup(data, p, q);
  }

  lemma ShortPad(f: Compress, data: seq<Byte>, sz: nat)
    requires Over(|data|) <= 55
    ensures Padded(f, data, sz) ==
      Encoded(f(Blocks(f, IV, data),
                Rest(data) + ([0x80] + Zeros(55 - Over(|data|))) + LengthHalves(sz)))
  {
    hide Blocks, Rest, LengthHalves, Encoded, Zeros, Pad, Over;
    EightBytes(sz);
    PadShort(|data|);
    LastBlock(f, data, Pad(|data|), LengthHalves(sz));
  }

  lemma LongPadIn(f: Compress, data: seq<Byte>, sz: nat, p: seq<Byte>, q: seq<Byte>)
    requires Over(|data|) + |p| == 64 && |q| == 56 && Pad(|data|) == p + q
    ensures Padded(f, data, sz) ==
            Encoded(f(f(Blocks(f, IV, data), Rest(data) + p), q + LengthHalves(sz)))
  {
    hide Blocks, Rest, LengthHalves, Encoded, Zeros, Pad, Over;
    EightBytes(sz);
    TwoBlocks(f, data, p, q, LengthHalves(sz));
  }

  lemma LongPad(f: Compress, data: seq<Byte>, sz: nat)
    requires Over(|data|) > 55
    ensures var r := f(Blocks(f, IV, data), Rest(data) + ([0x80] + Zeros(63 - Over(|data|))));
      Padded(f, data, sz) == Encoded(f(r, Zeros(56) + LengthHalves(sz)))
  {
    hide Blocks, Rest, LengthHalves, Encoded, Zeros, Pad, Over, Padded;
    PadLong(|data|);
    LongPadIn(f, data, sz, [0x80] + Zeros(63 - Over(|data|)), Zeros(56));
  }

  lemma EightBytes(n: nat)
    ensures |LengthHalves(n)| == 8
  {
  }

  lemma ZerosAdd(m: nat, n: nat)
    ensures Zeros(m) + Zeros(n) == Zeros(m + n)
  {
  }

  // What finalizing gives for any length
  function Padded(f: Compress, msg: seq<Byte>, sz: nat): seq<Byte> {
    Encoded(Blocks(f, IV, msg + Pad(|msg|) + LengthHalves(sz)))
  }

  // ... which is the digest for messages of which the low word of the length
  // stays below 2^29
  lemma FinalizeRight(f: Compress, msg: seq<Byte>)
    requires |msg| < 0x1_0000_0000_0000_0000 && |msg| % 0x1_0000_0000 < 0x2000_0000
    ensures Padded(f, msg, |msg|) == Digest(f, msg)
  {
    LengthRight(|msg|);
  }

  // --- The digest of parts (usipy_sip_hdr_authz_md5_hex)

  const COLON: Byte := 0x3A

  function Joined(parts: seq<seq<Byte>>): seq<Byte> {
    if parts == [] then []
    else if |parts| == 1 then parts[0]
    else Joined(parts[..|parts| - 1]) + [COLON] + parts[|parts| - 1]
  }

  function HexDigit(v: nat): char
    requires v < 16
  {
    "0123456789abcdef"[v]
  }

  function Hex(s: seq<Byte>): string {
    if s == [] then "" else [HexDigit(s[0] / 16), HexDigit(s[0] % 16)] + Hex(s[1..])
  }

  method Md5Hex(f: Compress, parts: seq<seq<Byte>>) returns (out: string)
    ensures out == Hex(Padded(f, Joined(parts), InSz(|Joined(parts)|)))
    ensures |Joined(parts)| < 0x1_0000_0000_0000_0000
            && |Joined(parts)| % 0x1_0000_0000 < 0x2000_0000 ==>
      out == Hex(Digest(f, Joined(parts)))
  {
    hide Digest, Padded, Hex, Joined, Blocks, Rest;
    var ctx := new Context(f);
    NoneJoined(parts);
    var i := 0;
    while i < |parts|
      invariant i <= |parts| && ctx.Valid() && ctx.f == f && fresh(ctx) && fresh(ctx.cache)
      invariant ctx.data == Joined(parts[..i])
    {
      ctx.AddPart(parts[i], i != 0);
      JoinedMore(parts, i);
      i := i + 1;
    }
    assert parts[..i] == parts;
    var digest := ctx.Finalize();
    if |Joined(parts)| < 0x1_0000_0000_0000_0000 && |Joined(parts)| % 0x1_0000_0000 < 0x2000_0000 {
      FinalizeRight(f, Joined(parts));
    }
    out := Format(digest);
  }

  lemma NoneJoined(parts: seq<seq<Byte>>)
    ensures Joined(parts[..0]) == []
  {
  }

  lemma JoinedMore(parts: seq<seq<Byte>>, i: nat)
    requires i < |parts|
    ensures Joined(parts[..i + 1]) ==
            Joined(parts[..i]) + (if i == 0 then [] else [COLON]) + parts[i]
  {
    assert parts[..i + 1][..i] == parts[..i];
  }

  method Format(hash: seq<Byte>) returns (out: string)
    ensures out == Hex(hash)
  {
    out := "";
    var i := 0;
    while i < |hash|
      invariant i <= |hash|
      invariant out + Hex(hash[i..]) == Hex(hash)
    {
      assert hash[i..][1..] == hash[i + 1..];
      out := out + [HexDigit(hash[i] / 16), HexDigit(hash[i] % 16)];
      i := i + 1;
    }
  }
}
