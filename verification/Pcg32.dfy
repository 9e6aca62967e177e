/** The PCG32 generator and the draws the simulation takes from it. */
module Pcg32 {
  import opened SyTypes

  /** `(seed << 1) | 1` on a `u64`. */
  function IncrementOf(seed: RngSeed): u64 {
    seed * 2 % 0x1_0000_0000_0000_0000 + 1
  }

  /** One LCG step: wrapping multiply, wrapping add. */
  function Advance(seed: RngSeed, state: u64): u64 {
    (state * 6364136223846793005 % 0x1_0000_0000_0000_0000 + IncrementOf(seed)) % 0x1_0000_0000_0000_0000
  }

  /** Bitwise exclusive or of two naturals. */
  function Xor(a: nat, b: nat): nat
    decreases a + b
  {
    if a == 0 && b == 0 then 0 else (a % 2 + b % 2) % 2 + 2 * Xor(a / 2, b / 2)
  }

  function Pow2(k: nat): (p: nat)
    ensures p > 0
  {
    if k == 0 then 1 else 2 * Pow2(k - 1)
  }

  lemma Pow2Splits(a: nat, b: nat)
    ensures Pow2(a + b) == Pow2(a) * Pow2(b)
  {
    if a == 0 {
    } else {
      Pow2Splits(a - 1, b);
    }
  }

  lemma Pow2Values()
    ensures Pow2(16) == 0x1_0000 && Pow2(32) == 0x1_0000_0000
  {
    assert Pow2(4) == 16;
    Pow2Splits(4, 4);
    assert Pow2(8) == 256;
    Pow2Splits(8, 8);
    assert Pow2(16) == 0x1_0000;
    Pow2Splits(16, 16);
  }

  lemma Pow2Of32(r: nat)
    requires r <= 32
    ensures Pow2(r) * Pow2(32 - r) == 0x1_0000_0000
  {
    Pow2Splits(r, 32 - r);
    Pow2Values();
  }

  lemma MulMonotone(a: nat, b: nat, c: nat)
    requires a <= b
    ensures a * c <= b * c
  {
  }

  lemma RotationFits(x: nat, low: nat, high: nat)
    requires low > 0 && low * high == 0x1_0000_0000
    requires x < 0x1_0000_0000
    ensures 0 <= x / low + x % low * high < 0x1_0000_0000
  {
    var q, m := x / low, x % low;
    assert x == q * low + m;
    if q >= high {
      MulMonotone(high, q, low);
    }
    assert m * high <= (low - 1) * high;
  }

  /** `u32::rotate_right`. */
  function RotateRight(x: u32, r: nat): u32
    requires r <= 32
  {
    var low, high := Pow2(r), Pow2(32 - r);
    Pow2Of32(r);
    RotationFits(x, low, high);
    x / low + x % low * high
  }

  /** XSH-RR output of a state, taken before the state advances. */
  function Output(state: u64): u32 {
    RotateRight(Xor(state / 0x4_0000, state) / 0x800_0000 % 0x1_0000_0000, state / 0x800_0000_0000_0000)
  }

  /** `next_f32` on an output word: 24 high bits over 2^24, exact in an `f32`. */
  function UnitInterval(word: u32): real {
    (word / 256) as real / 16777216.0
  }

  /** The `f32` constants nearest to 0.01 and 0.005. */
  const ONE_PERCENT: real := 10737418.0 / 1073741824.0
  const HALF_PERCENT: real := 10737418.0 / 2147483648.0

  /** `chance(p)` on the word drawn from `state`. */
  predicate Chance(state: u64, p: real) {
    UnitInterval(Output(state)) < p
  }

  /** The two float thresholds are exactly integer thresholds on the 24 high bits. */
  lemma ChanceThresholds(state: u64)
    ensures Chance(state, ONE_PERCENT) <==> Output(state) / 256 <= 167772
    ensures Chance(state, HALF_PERCENT) <==> Output(state) / 256 <= 83886
  {
    var n := Output(state) / 256;
    assert n as real / 16777216.0 < ONE_PERCENT <==> n as real * 64.0 < 10737418.0;
    assert n as real / 16777216.0 < HALF_PERCENT <==> n as real * 128.0 < 10737418.0;
  }

  /** Seed and state determine the generator: the increment is derived from the seed. */
  datatype RngState = RngState(seed: RngSeed, state: u64)

  class Pcg32Rng {
    var seed: RngSeed
    var state: u64
    var increment: u64

    ghost predicate Valid()
      reads this
    {
      increment == IncrementOf(seed)
    }

    ghost function State(): RngState
      reads this
    {
      RngState(seed, state)
    }

    /** `new`: seeds the state and discards one output. */
    constructor (s: RngSeed)
      ensures Valid() && State() == RngState(s, Advance(s, s))
    {
      seed := s;
      state := 0;
      increment := IncrementOf(s);
      new;
      state := (state + s) % 0x1_0000_0000_0000_0000;
      assert state == s;
      hide Output, Advance;
      var _ := NextU32();
    }

    constructor Uninitialized()
      ensures Valid() && State() == RngState(0, 0)
    {
      seed, state, increment := 0, 0, IncrementOf(0);
    }

    method AdvanceState()
      requires Valid()
      modifies this`state
      ensures Valid() && State() == RngState(old(seed), Advance(old(seed), old(state)))
    {
      state := (state * 6364136223846793005 % 0x1_0000_0000_0000_0000 + increment) % 0x1_0000_0000_0000_0000;
    }

    method RestoreSeeded(s: RngSeed, st: u64)
      modifies this
      ensures Valid() && State() == RngState(s, st)
    {
      seed := s;
      increment := IncrementOf(s);
      state := st;
    }

    method NextU32() returns (word: u32)
      requires Valid()
      modifies this`state
      ensures Valid() && word == Output(old(state))
      ensures State() == RngState(old(seed), Advance(old(seed), old(state)))
    {
      var oldState := state;
      AdvanceState();
      var shifted := Xor(oldState / 0x4_0000, oldState) / 0x800_0000 % 0x1_0000_0000;
      word := RotateRight(shifted, oldState / 0x800_0000_0000_0000);
    }

    method Draw(p: real) returns (hit: bool)
      requires Valid()
      modifies this`state
      ensures Valid() && hit == Chance(old(state), p)
      ensures State() == RngState(old(seed), Advance(old(seed), old(state)))
    {
      var word := NextU32();
      hit := UnitInterval(word) < p;
    }
  }
}
