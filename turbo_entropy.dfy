// The turboencabulator entropy source (turboencabulator/entropy.h): the same
// xorshift32 permutation, returning the whole new state on every call.

module TurboEntropy {
  import opened Xorshift

  /** The number of warm-up permutations `init_rng` performs. */
  const WarmupSteps := 100

  /** The state `init_rng` leaves behind for a given `millis()` reading. */
  function InitState(millis: bv32): bv32
  {
    Iterate(Seed(millis), WarmupSteps)
  }

  /** A degenerate zero state stays zero however many steps are taken. */
  lemma ZeroStaysZero(k: nat)
    ensures Iterate(0, k) == 0
  {
  }

  /** The process-wide generator state `_rng_state`. */
  class Entropy {
    var rngState: bv32

    /** Static initialisation: `_rng_state = millis()`. */
    constructor (millis: bv32)
      ensures rngState == millis
    {
      rngState := millis;
    }

    /** `tiny_prng`: store the xorshift32 image of the state and return exactly that value. */
    method TinyPrng() returns (x: bv32)
      modifies this
      ensures rngState == Step(old(rngState))
      ensures x == rngState
    {
      x := Step(rngState);
      rngState := x;
    }

    /**
     * `init_rng`: seed with `75380540 - millis()` and warm up with 100 calls
     * of `tiny_prng`, discarding what they return; after `i` calls the state
     * is the `i`-fold step of the seed.
     */
    method InitRng(millis: bv32)
      modifies this
      ensures rngState == InitState(millis)
    {
      rngState := RngMagic - millis;
      for i := 0 to WarmupSteps
        invariant rngState == Iterate(Seed(millis), i)
      {
        var _ := TinyPrng();
      }
    }
  }
}
