// The interocitor entropy source (interocitor/entropy.h): a 32-bit xorshift
// state plus a byte-select counter that stretches one permutation across
// four byte draws.

module InterocitorEntropy {
  import opened Util
  import opened Xorshift

  /** The number of warm-up permutations `init_rng` performs. */
  const WarmupSteps := 101

  /** The state `init_rng` leaves behind for a given `millis()` reading. */
  function InitState(millis: bv32): bv32
  {
    Iterate(Seed(millis), WarmupSteps)
  }

  /**
   * Byte `k` of the word `x`, byte 0 being the least significant: the word
   * shifted right by `8 * k` bits and truncated to `uint8_t`.
   */
  function ByteOf(x: bv32, k: nat): bv8
    requires k < 4
  {
    var shifted := if k == 0 then x else if k == 1 then x >> 8 else if k == 2 then x >> 16 else x >> 24;
    (shifted & 0xFF) as bv8
  }

  /** The generator's whole state: `_rng_state` and the counter `increment`. */
  datatype Rng = Rng(state: bv32, increment: uint8)

  /**
   * One call of `random_unit8`: permute when the counter is 0, advance the
   * counter modulo 4, then expose the byte the advanced counter selects.
   */
  function Draw(g: Rng): (Rng, bv8)
  {
    var s := if g.increment == 0 then Step(g.state) else g.state;
    var inc := ((g.increment as int + 1) % 4) as uint8;
    (Rng(s, inc), ByteOf(s, inc as nat))
  }

  /** `n` consecutive draws: the final generator state and the bytes returned, in order. */
  function Draws(g: Rng, n: nat): (r: (Rng, seq<bv8>))
    ensures |r.1| == n
    ensures r.0.increment < 4 || (n == 0 && r.0 == g)
    decreases n
  {
    if n == 0 then (g, [])
    else
      var (g1, b) := Draw(g);
      var (g2, bs) := Draws(g1, n - 1);
      (g2, [b] + bs)
  }

  /** Drawing `a` bytes and then `b` more is drawing `a + b` bytes. */
  lemma {:induction false} DrawsAppend(g: Rng, a: nat, b: nat)
    ensures Draws(g, a + b).0 == Draws(Draws(g, a).0, b).0
    ensures Draws(g, a + b).1 == Draws(g, a).1 + Draws(Draws(g, a).0, b).1
    decreases a
  {
    if a > 0 {
      DrawsAppend(Draw(g).0, a - 1, b);
    }
  }

  /** The counter stays in 0..3 and advances by one, modulo 4, per draw. */
  lemma {:induction false} DrawsCounter(g: Rng, n: nat)
    requires g.increment < 4
    ensures Draws(g, n).0.increment as int == (g.increment as int + n) % 4
    decreases n
  {
    if n > 0 {
      DrawsCounter(Draw(g).0, n - 1);
    }
  }

  /** The four bytes a group of draws exposes: bytes 1, 2, 3 and then 0. */
  function Quad(x: bv32): seq<bv8>
  {
    [ByteOf(x, 1), ByteOf(x, 2), ByteOf(x, 3), ByteOf(x, 0)]
  }

  /**
   * Four draws starting from counter 0 permute exactly once, return bytes
   * 1, 2, 3 and 0 of that one freshly permuted state, and bring the counter
   * back to 0.  Unless the state is zero, it visibly changes.
   */
  lemma FourDraws(s: bv32)
    ensures Draws(Rng(s, 0), 4) == (Rng(Step(s), 0), Quad(Step(s)))
    ensures s != 0 ==> Draws(Rng(s, 0), 4).0.state != s
  {
    if s != 0 {
      StepMoves(s);
    }
    var t := Step(s);
    assert Draw(Rng(s, 0)) == (Rng(t, 1), ByteOf(t, 1));
    assert Draw(Rng(t, 1)) == (Rng(t, 2), ByteOf(t, 2));
    assert Draw(Rng(t, 2)) == (Rng(t, 3), ByteOf(t, 3));
    assert Draw(Rng(t, 3)) == (Rng(t, 0), ByteOf(t, 0));
    assert Draws(Rng(t, 0), 0) == (Rng(t, 0), []);
    assert Draws(Rng(t, 3), 1).1 == [ByteOf(t, 0)];
    assert Draws(Rng(t, 2), 2).1 == [ByteOf(t, 3), ByteOf(t, 0)];
    assert Draws(Rng(t, 1), 3).1 == [ByteOf(t, 2), ByteOf(t, 3), ByteOf(t, 0)];
    assert Draws(Rng(t, 1), 3).0 == Rng(t, 0);
    assert Draws(Rng(s, 0), 4).1 == Quad(t);
  }

  /**
   * `4 * k` draws from counter 0 perform exactly `k` permutations, and group
   * `j` of four bytes covers all four byte positions of the `j + 1`-fold
   * permuted state.
   */
  lemma {:induction false} DrawGroups(s: bv32, k: nat)
    ensures Draws(Rng(s, 0), 4 * k).0 == Rng(Iterate(s, k), 0)
    ensures forall j :: 0 <= j < k ==> Draws(Rng(s, 0), 4 * k).1[4 * j .. 4 * j + 4] == Quad(Iterate(s, j + 1))
  {
    if k > 0 {
      DrawGroups(s, k - 1);
      var g := Rng(s, 0);
      DrawsAppend(g, 4 * (k - 1), 4);
      FourDraws(Iterate(s, k - 1));
      var prefix := Draws(g, 4 * (k - 1)).1;
      var all := Draws(g, 4 * k).1;
      assert 4 * (k - 1) + 4 == 4 * k;
      assert all == prefix + Quad(Iterate(s, k));
      forall j | 0 <= j < k
        ensures all[4 * j .. 4 * j + 4] == Quad(Iterate(s, j + 1))
      {
        if j < k - 1 {
          assert all[4 * j .. 4 * j + 4] == prefix[4 * j .. 4 * j + 4];
        } else {
          assert all[4 * j .. 4 * j + 4] == all[|prefix| ..];
        }
      }
    }
  }

  /** The process-wide generator: `_rng_state` and `increment`. */
  class Entropy {
    var rngState: bv32
    var increment: uint8

    /** Static initialisation: `_rng_state = millis()`, `increment = 0`. */
    constructor (millis: bv32)
      ensures rngState == millis && increment == 0
    {
      rngState := millis;
      increment := 0;
    }

    /** The generator's state as a value. */
    function Value(): Rng
      reads this
    {
      Rng(rngState, increment)
    }

    /** `_permute_rng_state`: one xorshift step of the state; the counter is untouched. */
    method PermuteRngState()
      modifies this`rngState
      ensures rngState == Step(old(rngState))
    {
      rngState := Step(rngState);
    }

    /**
     * `init_rng`: seed with `RNG_MAGIC - millis()` and warm up with 101
     * permutations.  The counter is not reset.
     */
    method InitRng(millis: bv32)
      modifies this`rngState
      ensures rngState == InitState(millis)
      ensures increment == old(increment)
    {
      rngState := RngMagic - millis;
      for i := 0 to WarmupSteps
        invariant rngState == Iterate(Seed(millis), i)
      {
        PermuteRngState();
      }
    }

    /**
     * `random_unit8`: permute only when the counter is 0, advance the counter
     * modulo 4, and return the byte of the state that the advanced counter
     * selects.
     */
    method RandomUint8() returns (b: bv8)
      modifies this
      ensures (Value(), b) == Draw(old(Value()))
      ensures increment < 4 && increment as int == (old(increment) as int + 1) % 4
      ensures rngState == if old(increment) == 0 then Step(old(rngState)) else old(rngState)
      ensures b == ByteOf(rngState, increment as nat)
    {
      if increment == 0 {
        PermuteRngState();
      }
      increment := ((increment as int + 1) % 4) as uint8;
      b := ByteOf(rngState, increment as nat);
    }
  }
}
