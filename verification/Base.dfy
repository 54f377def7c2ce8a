// Definitions shared by every other module of the model.
module Base {

  datatype Option<+T> = None | Some(value: T)

  type Byte = b: int | 0 <= b < 256

  // A point in time, in milliseconds, or no time at all: the C code writes
  // the latter as UINT64_MAX.
  datatype Deadline = Never | At(ms: nat)

  const TIME_NONE: nat := 0xFFFF_FFFF_FFFF_FFFF

  predicate Due(d: Deadline, now: nat) {
    d.At? && d.ms <= now
  }

  function Earliest(a: Deadline, b: Deadline): Deadline {
    if a.Never? || (b.At? && b.ms < a.ms) then b else a
  }

  // "d is no later than t"
  predicate NoLater(d: Deadline, t: nat) {
    d.At? && d.ms <= t
  }

  function Max(a: int, b: int): int {
    if a < b then b else a
  }

  function Min(a: int, b: int): int {
    if a < b then a else b
  }

  function Pow2(n: nat): nat {
    if n == 0 then 1 else 2 * Pow2(n - 1)
  }
}
