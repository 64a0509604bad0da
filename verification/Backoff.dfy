/** Exponential backoff in saturating 64-bit arithmetic (`backoff.rs`). */
module Backoff {
  import opened Common

  function Min(a: nat, b: nat): nat { if a < b then a else b }

  function Pow2(n: nat): nat {
    if n == 0 then 1 else 2 * Pow2(n - 1)
  }

  lemma {:induction false} PowGrows(n: nat, m: nat)
    requires n <= m
    ensures 1 <= Pow2(n) <= Pow2(m)
    decreases m
  {
    if n < m {
      PowGrows(n, m - 1);
    } else if n > 0 {
      PowGrows(n - 1, n - 1);
    }
  }

  lemma PowAdds8(n: nat)
    ensures Pow2(n + 8) == 256 * Pow2(n)
  {
    assert Pow2(n + 2) == 4 * Pow2(n);
    assert Pow2(n + 4) == 4 * Pow2(n + 2);
    assert Pow2(n + 6) == 4 * Pow2(n + 4);
    assert Pow2(n + 8) == 4 * Pow2(n + 6);
  }

  lemma Pow64()
    ensures Pow2(64) == TWO_64
  {
    PowAdds8(0);
    PowAdds8(8);
    PowAdds8(16);
    PowAdds8(24);
    PowAdds8(32);
    PowAdds8(40);
    PowAdds8(48);
    PowAdds8(56);
  }

  lemma PowBelow(n: nat)
    requires n < 64
    ensures Pow2(n) < TWO_64
  {
    Pow64();
    PowGrows(n + 1, 64);
    PowGrows(0, n);
  }

  /** `1u64.checked_shl(attempt).unwrap_or(u64::MAX)`. */
  function Shift(attempt: u32): u64 {
    if attempt < 64 then
      PowBelow(attempt);
      Pow2(attempt)
    else TWO_64 - 1
  }

  function SaturatingMul(a: u64, b: u64): u64 {
    if a * b < TWO_64 then NonNegative(a, b); a * b else TWO_64 - 1
  }

  lemma NonNegative(a: nat, b: nat)
    ensures a * b >= 0
  {
  }

  lemma MulGrows(a: nat, b: nat, c: nat)
    requires b <= c
    ensures a * b <= a * c
  {
  }

  /** The saturating computation equals the one over unbounded integers, for every base and maximum
      and every number of earlier calls, past shifts of 64 and past the saturation of the counter. */
  lemma DelayIsExact(base: u64, max: u64, n: nat)
    ensures Min(SaturatingMul(base, Shift(Min(n, TWO_32 - 1))), max) == Min(base * Pow2(n), max)
  {
    if n < 64 {
      PowBelow(n);
    } else {
      Pow64();
      PowGrows(64, n);
      if base > 0 {
        MulGrows(base, TWO_64, Pow2(n));
        MulGrows(base, TWO_64 - 1, TWO_64);
        if base == 1 {
        } else {
          MulGrows(TWO_64 - 1, 2, base);
        }
      }
    }
  }

  class ExponentialBackoff {
    const baseMs: u64
    const maxMs: u64
    var attempt: u32

    constructor (baseMs: u64, maxMs: u64)
      ensures this.baseMs == baseMs && this.maxMs == maxMs && attempt == 0
    {
      this.baseMs, this.maxMs, attempt := baseMs, maxMs, 0;
    }

    method Reset()
      modifies this
      ensures attempt == 0
    {
      attempt := 0;
    }

    /** The delay of the n-th call since construction or reset, `n` being known to the counter
        until it saturates, is the exact doubling clamped to the maximum. */
    method Next(ghost n: nat) returns (delay: u64)
      requires attempt == Min(n, TWO_32 - 1)
      modifies this
      ensures attempt == Min(n + 1, TWO_32 - 1)
      ensures delay == Min(baseMs * Pow2(n), maxMs)
    {
      delay := Min(SaturatingMul(baseMs, Shift(attempt)), maxMs);
      DelayIsExact(baseMs, maxMs, n);
      attempt := Min(attempt + 1, TWO_32 - 1);
    }
  }
}
