/** Go's 64-bit `int`/`int64` arithmetic: sums and differences wrap around. */
module Int64 {

  const MODULUS: int := 0x1_0000_0000_0000_0000
  const MIN_INT64: int := -0x8000_0000_0000_0000
  const MAX_INT64: int := 0x7FFF_FFFF_FFFF_FFFF

  predicate InRange(x: int) {
    MIN_INT64 <= x <= MAX_INT64
  }

  /** The int64 value that an exact result `x` is stored as: the one in range that differs by a multiple of 2^64. */
  function Wrap(x: int): (r: int)
    ensures InRange(r)
    decreases if x < MIN_INT64 then MIN_INT64 - x + MODULUS else x - MIN_INT64
  {
    if x < MIN_INT64 then Wrap(x + MODULUS)
    else if x > MAX_INT64 then Wrap(x - MODULUS)
    else x
  }

  lemma WrapPeriod(x: int)
    ensures Wrap(x + MODULUS) == Wrap(x)
  {
  }

  /** Wrapping an intermediate sum does not change the wrapped end result. */
  lemma {:induction false} WrapAdd(x: int, y: int)
    ensures Wrap(Wrap(x) + y) == Wrap(x + y)
    decreases if x < MIN_INT64 then MIN_INT64 - x + MODULUS else x - MIN_INT64
  {
    if x < MIN_INT64 {
      WrapAdd(x + MODULUS, y);
      WrapPeriod(x + y);
    } else if x > MAX_INT64 {
      WrapAdd(x - MODULUS, y);
      WrapPeriod(x + y - MODULUS);
    }
  }

  lemma WrapCongruence(x: int, y: int, z: int)
    requires Wrap(x) == Wrap(y)
    ensures Wrap(x + z) == Wrap(y + z)
  {
    WrapAdd(x, z);
    WrapAdd(y, z);
  }
}
