// The 32-bit xorshift permutation shared by both firmware variants
// (Marsaglia, "Xorshift RNGs", 2003, shift triple 13, 17, 5).

module Xorshift {

  /** The seed constant `RNG_MAGIC`. */
  const RngMagic: bv32 := 75380540

  /**
   * One xorshift32 step: x ^= x << 13; x ^= x >> 17; x ^= x << 5, in that
   * order, every intermediate truncated to 32 bits.  The step maps 0 to 0
   * (the degenerate seed is a fixed point) and every nonzero word to a
   * nonzero word.
   */
  function Step(x: bv32): (r: bv32)
    ensures r == 0 <==> x == 0
  {
    var x1 := x ^ (x << 13);
    var x2 := x1 ^ (x1 >> 17);
    x2 ^ (x2 << 5)
  }

  /** A nonzero state always changes under the step: zero is its only fixed point. */
  lemma StepMoves(x: bv32)
    requires x != 0
    ensures Step(x) != x
  {
  }

  /** `k` steps applied one after another to `x`. */
  function Iterate(x: bv32, k: nat): (r: bv32)
    ensures r == 0 <==> x == 0
  {
    if k == 0 then x else Step(Iterate(x, k - 1))
  }

  /**
   * From a nonzero seed every step moves the state: the `j + 1`-fold step
   * differs from the `j`-fold step.
   */
  lemma IterateMoves(x: bv32, j: nat)
    requires x != 0
    ensures Iterate(x, j + 1) != Iterate(x, j)
  {
    StepMoves(Iterate(x, j));
  }

  /** Stepping `a` times and then `b` times is stepping `a + b` times. */
  lemma {:induction false} IterateAdd(x: bv32, a: nat, b: nat)
    ensures Iterate(Iterate(x, a), b) == Iterate(x, a + b)
  {
    if b > 0 {
      IterateAdd(x, a, b - 1);
    }
  }

  /** The warm-up seed `RNG_MAGIC - millis()`, a wrapping 32-bit subtraction. */
  function Seed(millis: bv32): (s: bv32)
    ensures s + millis == RngMagic
  {
    RngMagic - millis
  }

  /**
   * Distinct clock readings give distinct seeds.  This stops at the seed: it
   * does not say that distinct seeds give distinct post-warm-up states, which
   * would need the step to be injective.
   */
  lemma SeedInjective(m1: bv32, m2: bv32)
    requires m1 != m2
    ensures Seed(m1) != Seed(m2)
  {
  }
}
