/** Integer widths of the C sources and the C shift `1U << n`. */
module Bits {
  import opened Wrappers

  type U8 = x: nat | x < 0x100
  type U16 = x: nat | x < 0x1_0000
  type U32 = x: nat | x < 0x1_0000_0000

  /** 2 to the power n. */
  function Pow2(n: nat): (r: nat)
    ensures r >= 1
  {
    if n == 0 then 1 else 2 * Pow2(n - 1)
  }

  /**
   * The C expression `1U << n` on a 32-bit unsigned int: 2^n for a shift
   * count below 32; None for a count of 32 or more, which C leaves undefined.
   */
  function CShl1(n: nat): (r: Option<nat>)
    ensures r.Some? <==> n < 32
    ensures r.Some? ==> r.value == Pow2(n)
  {
    if n < 32 then Some(Pow2(n)) else None
  }

  /** A defined `1U << n` fits the 32-bit unsigned int. */
  lemma CShl1Fits(n: nat)
    ensures CShl1(n).Some? ==> CShl1(n).value < 0x1_0000_0000
  {
    if n < 32 {
      Pow2Monotone(n, 32);
      Pow2Of32();
    }
  }

  lemma {:induction false} Pow2Monotone(a: nat, b: nat)
    requires a < b
    ensures Pow2(a) < Pow2(b)
  {
    if b == a + 1 {
    } else {
      Pow2Monotone(a, b - 1);
    }
  }

  /** A power of two always exceeds its exponent. */
  lemma {:induction false} Pow2ExceedsExponent(n: nat)
    ensures Pow2(n) > n
  {
    if n > 0 {
      Pow2ExceedsExponent(n - 1);
    }
  }

  /** Distinct exponents give distinct masks. */
  lemma Pow2Injective(a: nat, b: nat)
    requires Pow2(a) == Pow2(b)
    ensures a == b
  {
    if a < b {
      Pow2Monotone(a, b);
    } else if b < a {
      Pow2Monotone(b, a);
    }
  }

  /** The single-bit masks of pins 0..15 fit the 16-bit pin arguments. */
  lemma Pow2Below16(n: nat)
    requires n < 16
    ensures Pow2(n) < 0x1_0000
  {
    Pow2Monotone(n, 16);
    Pow2Of16();
  }

  lemma {:induction false} Pow2Add(a: nat, b: nat)
    ensures Pow2(a + b) == Pow2(a) * Pow2(b)
  {
    if a > 0 {
      Pow2Add(a - 1, b);
      assert Pow2(a + b) == 2 * Pow2(a - 1 + b);
    }
  }

  lemma Pow2Of16()
    ensures Pow2(16) == 0x1_0000
  {
    assert Pow2(8) == 0x100;
    Pow2Add(8, 8);
  }

  lemma Pow2Of32()
    ensures Pow2(32) == 0x1_0000_0000
  {
    Pow2Of16();
    Pow2Add(16, 16);
  }
}
