// How the two firmware variants' entropy sources relate.

module EntropyVariants {
  import opened Xorshift
  import InterocitorEntropy
  import TurboEntropy

  /**
   * For the same `millis()` reading, one more permutation of the
   * turboencabulator's post-init state (100 warm-up steps) gives the
   * interocitor's post-init state (101 warm-up steps).
   */
  lemma OneStepApart(millis: bv32)
    ensures Step(TurboEntropy.InitState(millis)) == InterocitorEntropy.InitState(millis)
  {
  }

  /** The same holds after any number of further steps on both sides. */
  lemma {:induction false} StepsApart(millis: bv32, k: nat)
    ensures Iterate(TurboEntropy.InitState(millis), k + 1) == Iterate(InterocitorEntropy.InitState(millis), k)
  {
    IterateAdd(Seed(millis), 100, k + 1);
    IterateAdd(Seed(millis), 101, k);
  }
}
