/**
 * The linear congruential generator of src/utils/rand_by_seed.rs.
 *
 * The state is a 32-bit unsigned integer.  Each draw replaces it by
 * `state * 1103515245 + 12345` modulo 2^32 and returns bits 16..30 of the
 * new state, a number in 0..32767.
 */
module Rng {

  const MODULUS: nat := 0x1_0000_0000
  const MULTIPLIER: nat := 1103515245
  const INCREMENT: nat := 12345
  /** The largest value a draw can return. */
  const RAND_MAX: nat := 32767

  type u32 = x: int | 0 <= x < 0x1_0000_0000

  /** The state transition: Rust's `wrapping_mul` then `wrapping_add` on u32. */
  function Next(s: u32): u32
  {
    (s * MULTIPLIER + INCREMENT) % MODULUS
  }

  /** The value a draw returns, computed from the state after the transition. */
  function Output(s: u32): (v: nat)
    ensures v <= RAND_MAX
  {
    (s / 65536) % 32768
  }

  /** One draw from state `s`: the value and the next state. */
  function Draw(s: u32): (nat, u32)
  {
    (Output(Next(s)), Next(s))
  }

  /** The state after `n` draws from `s`. */
  function Advance(s: u32, n: nat): u32
    decreases n
  {
    if n == 0 then s else Advance(Next(s), n - 1)
  }

  /** The values of `n` consecutive draws from `s`. */
  function Draws(s: u32, n: nat): (vs: seq<nat>)
    ensures |vs| == n
    decreases n
  {
    if n == 0 then [] else [Output(Next(s))] + Draws(Next(s), n - 1)
  }

  /** Rust's `i32::abs`, which the callers apply to every draw. */
  function Abs(x: int): nat
  {
    if x < 0 then -x else x
  }

  /** Every draw is non-negative, so the callers' `abs()` and `unsigned_abs()` change nothing. */
  lemma AbsOfDraw(s: u32)
    ensures 0 <= Draw(s).0 <= RAND_MAX
    ensures Abs(Draw(s).0) == Draw(s).0
  {
  }

  lemma {:induction false} AdvanceAdd(s: u32, a: nat, b: nat)
    ensures Advance(Advance(s, a), b) == Advance(s, a + b)
    decreases a
  {
    if a > 0 {
      AdvanceAdd(Next(s), a - 1, b);
    }
  }

  lemma {:induction false} AdvanceOne(s: u32)
    ensures Advance(s, 1) == Next(s)
  {
    assert Advance(Next(s), 0) == Next(s);
  }

  /** Drawing `a + b` values is drawing `a` values and then `b` more from where those stopped. */
  lemma {:induction false} DrawsSplit(s: u32, a: nat, b: nat)
    ensures Draws(s, a + b) == Draws(s, a) + Draws(Advance(s, a), b)
    decreases a
  {
    if a > 0 {
      DrawsSplit(Next(s), a - 1, b);
      assert Draws(s, a + b) == [Output(Next(s))] + Draws(Next(s), a - 1 + b);
    }
  }

  /** The values of seed 1 that the source's unit test expects. */
  lemma SeedOneFirstDraws()
    ensures Draws(1, 3) == [16838, 5758, 10113]
  {
    assert Next(1) == 1103527590 && Output(1103527590) == 16838;
    assert Next(1103527590) == 2524885223 && Output(2524885223) == 5758;
    assert Next(2524885223) == 662824084 && Output(662824084) == 10113;
  }

  /** Seed 2 differs from seed 1 in each of the first three draws. */
  lemma SeedTwoDiffersFromSeedOne()
    ensures Draws(2, 3)[0] != 16838 && Draws(2, 3)[1] != 5758 && Draws(2, 3)[2] != 10113
  {
    assert Next(2) == 2207042835 && Output(2207042835) == 908;
    assert Next(2207042835) == 1495354192 && Output(1495354192) == 22817;
    assert Next(1495354192) == 2818548041 && Output(2818548041) == 10239;
  }

  /** Seeds 10 and 20 give different sequences of five draws. */
  lemma SeedsTenAndTwentyDiffer()
    ensures Draws(10, 5) != Draws(20, 5)
  {
    assert Next(10) == 2445230203 && Output(Next(10)) == 4543;
    assert Next(20) == 595480765 && Output(Next(20)) == 9086;
    assert Draws(10, 5)[0] == 4543;
    assert Draws(20, 5)[0] == 9086;
  }

  /** The first draws of seeds 54321 and 98765 differ, as the reseeding test expects. */
  lemma ReseedValuesDiffer()
    ensures Draws(54321, 1)[0] != Draws(98765, 1)[0]
  {
    assert Next(54321) == 3488053014 && Output(3488053014) == 20455;
    assert Next(98765) == 3888048770 && Output(3888048770) == 26558;
  }

  /** `LcgRng`: the generator object whose methods overwrite its state. */
  class LcgRng {
    var next: u32

    /** `LcgRng::new(seed)` */
    constructor (seed: u32)
      ensures next == seed
    {
      next := seed;
    }

    /** `rand`: advances the state and returns the new state's bits 16..30. */
    method Rand() returns (v: int)
      modifies this
      ensures next == Next(old(next))
      ensures v == Output(next) && 0 <= v <= RAND_MAX
      ensures (v, next) == Draw(old(next))
    {
      next := (next * MULTIPLIER + INCREMENT) % MODULUS;
      v := (next / 65536) % 32768;
    }

    /** `srand`: restarts the sequence from `seed`, whatever was drawn before. */
    method Srand(seed: u32)
      modifies this
      ensures next == seed
    {
      next := seed;
    }
  }

  /**
   * The loop of the source's reproducibility tests: push `n` draws into a vector.
   * The values depend on nothing but the state the generator starts from.
   */
  method CollectDraws(rng: LcgRng, n: nat) returns (vs: seq<int>)
    modifies rng
    ensures vs == Draws(old(rng.next), n)
    ensures rng.next == Advance(old(rng.next), n)
  {
    vs := [];
    var k := 0;
    while k < n
      invariant 0 <= k <= n
      invariant Draws(old(rng.next), n) == vs + Draws(rng.next, n - k)
      invariant Advance(old(rng.next), n) == Advance(rng.next, n - k)
    {
      var v := rng.Rand();
      vs := vs + [v];
      k := k + 1;
    }
  }

  /**
   * Two generators built from the same seed produce the same sequence, and a
   * reseeded generator produces the sequence of a fresh one.
   */
  method ReseedReplays(seed: u32, other: u32, n: nat) returns (fresh1: seq<int>, replayed: seq<int>)
    ensures fresh1 == replayed == Draws(seed, n)
  {
    var a := new LcgRng(seed);
    fresh1 := CollectDraws(a, n);
    var b := new LcgRng(other);
    var _ := CollectDraws(b, 2);
    b.Srand(seed);
    replayed := CollectDraws(b, n);
  }
}
