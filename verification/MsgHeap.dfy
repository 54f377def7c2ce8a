module MsgHeap {
  // The heap of a message (usipy_msg_heap.c, usipy_msg_heap_inl.h): a bump
  // allocator over one block, with checkpoints and with records for an
  // allocation still being made.

  import opened Base

  // --- Alignment to 8 bytes

  function Realign(n: nat): (r: nat)
    ensures r % 8 == 0 && r <= n < r + 8
  {
    n - n % 8
  }

  function Aligned(n: nat): (r: nat)
    ensures r % 8 == 0 && r - 8 < n <= r
  {
    Realign(n) + (if n % 8 != 0 then 8 else 0)
  }

  // Aligning never passes an aligned limit
  lemma AlignedFits(n: nat, limit: nat)
    requires n <= limit && limit % 8 == 0
    ensures Aligned(n) <= limit
  {
  }

  // --- Regions handed out, in the order of their addresses

  datatype Region = Region(start: nat, len: nat)

  function End(r: Region): nat {
    r.start + r.len
  }

  // Each region ends before the next begins, the last one by n
  predicate Apart(live: seq<Region>, n: nat) {
    && (forall i :: 0 <= i < |live| ==> End(live[i]) <= n)
    && (forall i, j :: 0 <= i < j < |live| ==> End(live[i]) <= live[j].start)
  }

  // Those that end by n
  function Upto(live: seq<Region>, n: nat): seq<Region> {
    if live == [] then []
    else if End(live[|live| - 1]) <= n then live
    else Upto(live[..|live| - 1], n)
  }

  lemma {:induction false} UptoApart(live: seq<Region>, n: nat, m: nat)
    requires Apart(live, n)
    ensures Apart(Upto(live, m), m) && Upto(live, m) <= live
  {
    if live != [] {
      var last := |live| - 1;
      if End(live[last]) <= m {
        forall i | 0 <= i < |live| ensures End(live[i]) <= m {
          if i < last { assert End(live[i]) <= live[last].start; }
        }
      } else {
        UptoApart(live[..last], n, m);
      }
    }
  }

  // The record of the last allocation (struct usipy_msg_heap_cnt)
  datatype Cnt = Cnt(alen: nat, lastalen: nat)

  // What a callback that builds in place does with the space it is given:
  // a negative length for failure, and all it leaves in that space
  datatype Built = Built(len: int, area: seq<Byte>)

  class Heap {
    const base: nat
    const mem: array<Byte>
    const checkpoints: array<nat>
    var first: nat
    var tsize: nat
    var alen: nat
    var top: nat
    ghost var live: seq<Region>
    ghost var saved: seq<seq<Byte>>

    // Everything handed out lies in the block, each region apart from others
    ghost predicate InBounds()
      reads this
    {
      && (base + first) % 8 == 0 && tsize % 8 == 0 && alen <= tsize
      && first + tsize <= mem.Length
      && Apart(live, alen)
    }

    // The lowest bytes are these
    ghost predicate Holds(bytes: seq<Byte>)
      reads this, mem
      requires InBounds()
    {
      |bytes| <= alen && forall k :: 0 <= k < |bytes| ==> mem[first + k] == bytes[k]
    }

    // ... and every checkpoint still stands for what was there when it was taken
    ghost predicate Valid()
      reads this, mem, checkpoints
    {
      && InBounds() && top <= checkpoints.Length && |saved| == top
      && (forall j :: 0 <= j < top ==> |saved[j]| == checkpoints[j] && Holds(saved[j]))
      && (forall i, j :: 0 <= i < j < top ==> checkpoints[i] <= checkpoints[j])
    }

    // What no operation but a rollback may touch: the heap itself, apart from
    // the bytes not in use
    twostate predicate Grown()
      reads this, mem, checkpoints
    {
      && first == old(first) && tsize == old(tsize) && old(alen) <= alen
      && top == old(top) && saved == old(saved) && checkpoints[..] == old(checkpoints[..])
      && (forall k :: 0 <= k < mem.Length && k < first + old(alen) ==> mem[k] == old(mem[k]))
      && (forall k :: 0 <= k < mem.Length && k >= first + tsize ==> mem[k] == old(mem[k]))
    }

    // r was handed out: it was not in use before
    twostate predicate HandedOut(r: Region)
      reads this
    {
      live == old(live) + [r] && old(alen) <= r.start && End(r) <= alen
    }

    // usipy_msg_heap_init: the start moved up to the next aligned address. A
    // block too short for that gives a heap that reaches far outside it.
    constructor (base: nat, mem: array<Byte>, checkpoints: array<nat>)
      requires mem.Length < 0x1_0000_0000_0000_0000
      ensures this.base == base && this.mem == mem && this.checkpoints == checkpoints
      ensures Valid() <==> Aligned(base) - base <= mem.Length
      ensures Valid() ==> alen == 0 && live == [] && top == 0
                          && tsize == Realign(mem.Length - (Aligned(base) - base))
    {
      this.base, this.mem, this.checkpoints := base, mem, checkpoints;
      alen, top := 0, 0;
      var skip := Aligned(base) - base;
      first := skip;
      tsize := Realign((mem.Length - skip) % 0x1_0000_0000_0000_0000);
      live, saved := [], [];
      new;
      assert mem.Length < skip ==>
               (mem.Length - skip) % 0x1_0000_0000_0000_0000
               == mem.Length - skip + 0x1_0000_0000_0000_0000;
    }

    // usipy_msg_heap_reserve
    method Reserve(len: nat, align: bool) returns (p: Option<nat>)
      requires Valid()
      modifies this`alen, this`live
      ensures Valid() && Grown()
      ensures var off := if align then Aligned(old(alen)) else old(alen);
        && (p.Some? <==> off + len <= tsize)
        && (p.Some? ==> p.value == off && alen == off + len && HandedOut(Region(off, len)))
        && (p.None? ==> alen == old(alen) && live == old(live))
    {
      var off := alen;
      if align {
        off := Aligned(off);
      }
      var total := (off - alen) + len;
      if tsize - alen < total {
        return None;
      }
      alen := off + len;
      live := live + [Region(off, len)];
      return Some(off);
    }

    // usipy_msg_heap_alloc: aligned, and a multiple of the alignment long
    method Alloc(len: nat) returns (p: Option<nat>)
      requires Valid()
      modifies this`alen, this`live
      ensures Valid() && Grown()
      ensures p.Some? <==> Aligned(old(alen)) + Aligned(len) <= tsize
      ensures p.Some? ==>
        && p.value == Aligned(old(alen)) && (base + first + p.value) % 8 == 0
        && alen == p.value + Aligned(len) && HandedOut(Region(p.value, Aligned(len)))
      ensures p.None? ==> alen == old(alen) && live == old(live)
    {
      p := Reserve(Aligned(len), true);
    }

    // usipy_msg_heap_checkpoint
    method Checkpoint() returns (c: nat)
      requires Valid() && top < checkpoints.Length
      modifies this`top, this`saved, checkpoints
      ensures Valid() && c == old(top) && top == c + 1
      ensures checkpoints[c] == alen && saved == old(saved) + [mem[first..first + alen]]
      ensures forall j :: 0 <= j < c ==> checkpoints[j] == old(checkpoints[j])
    {
      c := top;
      checkpoints[c] := alen;
      top := top + 1;
      saved := saved + [mem[first..first + alen]];
    }

    // usipy_msg_heap_rollback: only to the latest checkpoint, which stays
    method Rollback(c: nat)
      requires Valid() && top > 0 && c == top - 1
      modifies this`alen, this`live, mem
      ensures Valid() && alen == checkpoints[c] && live == Upto(old(live), alen)
      ensures mem[first..first + alen] == saved[c]
      ensures forall k :: 0 <= k < mem.Length ==>
                mem[k] == if first + alen <= k < first + old(alen) then 0 else old(mem[k])
    {
      var n := checkpoints[c];
      Clear(n, alen);
      UptoApart(live, alen, n);
      alen := n;
      live := Upto(live, n);
    }

    method Clear(from: nat, to: nat)
      requires from <= to && first + to <= mem.Length
      modifies mem
      ensures forall k :: 0 <= k < mem.Length ==>
                mem[k] == if first + from <= k < first + to then 0 else old(mem[k])
    {
      var k := from;
      while k < to
        invariant from <= k <= to
        invariant forall j :: 0 <= j < mem.Length ==>
                    mem[j] == if first + from <= j < first + k then 0 else old(mem[j])
      {
        mem[first + k] := 0;
        k := k + 1;
      }
    }

    method Write(off: nat, s: seq<Byte>)
      requires first + off + |s| <= mem.Length
      modifies mem
      ensures forall k :: 0 <= k < mem.Length ==>
                mem[k] == if first + off <= k < first + off + |s| then s[k - first - off] else old(mem[k])
    {
      var k := 0;
      while k < |s|
        invariant k <= |s|
        invariant forall j :: 0 <= j < mem.Length ==>
                    mem[j] == if first + off <= j < first + off + k then s[j - first - off] else old(mem[j])
      {
        mem[first + off + k] := s[k];
        k := k + 1;
      }
    }

    // usipy_msg_heap_append: a copy, not aligned; an empty string takes nothing
    method Append(src: seq<Byte>) returns (p: Option<Region>)
      requires Valid()
      modifies this`alen, this`live, mem
      ensures Valid() && Grown()
      ensures p.Some? <==> |src| == 0 || old(alen) + |src| <= tsize
      ensures p.Some? && |src| > 0 ==>
        && HandedOut(p.value) && p.value == Region(old(alen), |src|) && alen == End(p.value)
        && mem[first + p.value.start..first + End(p.value)] == src
      ensures p.None? || |src| == 0 ==> alen == old(alen) && live == old(live)
    {
      if |src| == 0 {
        return Some(Region(0, 0));
      }
      var r := Reserve(|src|, false);
      if r.None? {
        return None;
      }
      Write(r.value, src);
      return Some(Region(r.value, |src|));
    }

    // usipy_msg_heap_build: the callback writes into the free space first, and
    // that is reserved once its length is known; the reserving can't fail then
    method Build(cb: nat -> Built) returns (p: Option<Region>)
      requires Valid()
      requires forall n :: |cb(n).area| == n && cb(n).len <= n
      modifies this`alen, this`live, mem
      ensures Valid() && Grown()
      ensures var space := tsize - Aligned(old(alen));
        && (p.Some? <==> space > 0 && cb(space).len >= 0)
        && (p.Some? ==>
              && p.value == Region(Aligned(old(alen)), cb(space).len)
              && (base + first + p.value.start) % 8 == 0
              && HandedOut(Region(p.value.start, Aligned(p.value.len)))
              && mem[first + p.value.start..first + End(p.value)] == cb(space).area[..cb(space).len])
        && (p.None? ==> alen == old(alen) && live == old(live))
    {
      var off := Aligned(alen);
      AlignedFits(alen, tsize);
      var currfree := tsize - off;
      if currfree == 0 {
        return None;
      }
      var b := cb(currfree);
      Write(off, b.area);
      if b.len < 0 {
        return None;
      }
      AlignedFits(b.len, currfree);
      var r := Reserve(Aligned(b.len), true);
      assert r.Some?;
      return Some(Region(r.value, b.len));
    }

    // usipy_msg_heap_sprintf: the text and a 0 after it, or nothing
    method Sprintf(text: seq<Byte>) returns (p: Option<Region>)
      requires Valid()
      modifies this`alen, this`live, mem
      ensures Valid() && Grown()
      ensures p.Some? <==> old(alen) + |text| + 1 <= tsize
      ensures p.Some? ==>
        && HandedOut(Region(p.value.start, |text| + 1))
        && p.value == Region(old(alen), |text|) && alen == End(p.value) + 1
        && mem[first + p.value.start..first + End(p.value)] == text
      ensures p.None? ==> alen == old(alen) && live == old(live)
    {
      var currfree := tsize - alen;
      if currfree == 0 {
        return None;
      }
      if |text| >= currfree {
        Write(alen, text[..currfree - 1] + [0]);
        return None;
      }
      Write(alen, text + [0]);
      var r := Reserve(|text| + 1, false);
      return Some(Region(r.value, |text|));
    }

    // --- Records

    // The record is of the last allocation there is
    ghost predicate Owns(c: Cnt)
      reads this
    {
      && c.lastalen == alen && c.alen <= alen && c.alen % 8 == 0
      && live != [] && live[|live| - 1] == Region(alen - c.alen, c.alen)
    }

    // usipy_msg_heap_alloc_cnt
    method AllocCnt(len: nat) returns (p: Option<nat>, c: Cnt)
      requires Valid()
      modifies this`alen, this`live
      ensures Valid() && Grown()
      ensures p.Some? <==> Aligned(old(alen)) + Aligned(len) <= tsize
      ensures p.Some? ==>
        && Owns(c) && c.alen == Aligned(len) && p.value == alen - c.alen == Aligned(old(alen))
        && HandedOut(Region(p.value, c.alen))
      ensures p.None? ==> alen == old(alen) && live == old(live)
    {
      p := Alloc(len);
      c := Cnt(0, 0);
      if p.Some? {
        c := Cnt(Aligned(len), alen);
      }
    }

    // usipy_msg_heap_aextend: in place, so it starts where it did
    method Extend(c: Cnt, nlen: nat) returns (ok: bool, d: Cnt)
      requires Valid() && Owns(c) && Aligned(nlen) >= c.alen
      modifies this`alen, this`live
      ensures Valid() && Grown() && Owns(d)
      ensures ok <==> old(alen) - c.alen + Aligned(nlen) <= tsize
      ensures alen - d.alen == old(alen) - c.alen
      ensures d.alen == if ok then Aligned(nlen) else c.alen
      ensures live == old(live)[..|old(live)| - 1] + [Region(alen - d.alen, d.alen)]
    {
      var elen := Aligned(nlen) - c.alen;
      assert live == live[..|live| - 1] + [Region(alen - c.alen, c.alen)];
      if elen == 0 {
        return true, c;
      }
      if tsize - alen < elen {
        return false, c;
      }
      alen := alen + elen;
      d := Cnt(Aligned(nlen), alen);
      live := live[..|live| - 1] + [Region(alen - d.alen, d.alen)];
      ok := true;
    }

    // The heap cut back to n, in the middle of its last region
    method CutBack(n: nat, ghost rest: seq<Region>)
      requires Valid() && n <= alen && Apart(rest, n)
      modifies this`alen, this`live, mem
      ensures InBounds() && alen == n && live == rest
      ensures Valid() <==> (top > 0 ==> checkpoints[top - 1] <= n)
      ensures first == old(first) && forall k :: 0 <= k < mem.Length ==>
                mem[k] == if first + n <= k < first + old(alen) then 0 else old(mem[k])
    {
      Clear(n, alen);
      alen := n;
      live := rest;
      if top > 0 && checkpoints[top - 1] > n {
        assert !Holds(saved[top - 1]);
      }
    }

    // usipy_msg_heap_cnt_rollback: back to where the record starts. Checkpoints
    // survive that unless one was taken since.
    method CntRollback(c: Cnt)
      requires Valid() && Owns(c)
      modifies this`alen, this`live, mem
      ensures InBounds() && alen == old(alen) - c.alen
      ensures live == old(live)[..|old(live)| - 1]
      ensures Valid() <==> (top > 0 ==> checkpoints[top - 1] <= alen)
      ensures forall k :: 0 <= k < mem.Length ==>
                mem[k] == if first + alen <= k < first + old(alen) then 0 else old(mem[k])
    {
      CutBack(alen - c.alen, live[..|live| - 1]);
    }

    // usipy_msg_heap_cnt_reclaim: shorter, from where it started
    method Reclaim(c: Cnt, nlen: nat) returns (d: Cnt)
      requires Valid() && Owns(c) && Aligned(nlen) <= c.alen
      modifies this`alen, this`live, mem
      ensures InBounds() && Owns(d) && d.alen == Aligned(nlen)
      ensures alen - d.alen == old(alen) - c.alen
      ensures live == old(live)[..|old(live)| - 1] + [Region(alen - d.alen, d.alen)]
      ensures Valid() <==> (top > 0 ==> checkpoints[top - 1] <= alen)
      ensures forall k :: 0 <= k < mem.Length ==>
                mem[k] == if first + alen <= k < first + old(alen) then 0 else old(mem[k])
    {
      var keep := Aligned(nlen);
      assert live == live[..|live| - 1] + [Region(alen - c.alen, c.alen)];
      if keep == c.alen {
        return c;
      }
      var n := alen - (c.alen - keep);
      CutBack(n, live[..|live| - 1] + [Region(alen - c.alen, keep)]);
      d := Cnt(keep, alen);
    }
  }

  // Three bytes from address 1 on: the gap to address 8 is longer
  method ShortBlock() returns (h: Heap)
    ensures fresh(h) && h.base == 1 && h.mem.Length == 3 && !h.Valid()
  {
    var mem := new Byte[3](_ => 0);
    var checkpoints := new nat[2](_ => 0);
    h := new Heap(1, mem, checkpoints);
  }

  // A checkpoint made since the record began does not survive its rollback
  method LostCheckpoint() returns (h: Heap)
    ensures fresh(h) && h.InBounds() && h.top == 1 && !h.Valid()
  {
    var mem := new Byte[64](_ => 0);
    var checkpoints := new nat[2](_ => 0);
    h := new Heap(0, mem, checkpoints);
    var p, c := h.AllocCnt(8);
    var _ := h.Checkpoint();
    h.CntRollback(c);
  }
}
