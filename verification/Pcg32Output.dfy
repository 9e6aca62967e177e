/** What a draw is, bit by bit: the output permutation as a law on bits, and one step of the state
    as a single linear congruence. */
module Pcg32Output {
  import opened SyTypes
  import opened Arithmetic
  import opened Pcg32
  import opened Pcg32Period

  /** `n >> k`. */
  function Shift(n: nat, k: nat): nat {
    QuotientNatural(n, Pow2(k));
    n / Pow2(k)
  }

  lemma QuotientNatural(n: nat, d: nat)
    requires d > 0
    ensures n / d >= 0
  {
  }

  /** Bit `i` of a natural, n / 2^i modulo 2; false above its highest bit. */
  predicate Bit(n: nat, i: nat) {
    Shift(n, i) % 2 == 1
  }

  lemma ShiftTwice(n: nat, k: nat, i: nat)
    ensures Shift(Shift(n, k), i) == Shift(n, i + k)
  {
    hide Pow2;
    var p, q := Pow2(k), Pow2(i);
    DivideTwice(n, p, q);
    Pow2Splits(i, k);
    assert q * p == p * q;
  }

  lemma BitOfShift(n: nat, k: nat, i: nat)
    ensures Bit(Shift(n, k), i) == Bit(n, i + k)
  {
    hide Shift;
    ShiftTwice(n, k, i);
  }

  lemma ShiftByOne(n: nat)
    ensures Shift(n, 0) == n && Shift(n, 1) == n / 2
  {
    assert Pow2(0) == 1 && Pow2(1) == 2;
  }

  lemma BitOfHalf(n: nat, i: nat)
    requires i > 0
    ensures Bit(n, i) == Bit(n / 2, i - 1)
  {
    ShiftByOne(n);
    hide Bit, Shift;
    BitOfShift(n, 1, i - 1);
  }

  lemma {:induction false} XorBits(a: nat, b: nat, i: nat)
    ensures Bit(Xor(a, b), i) == (Bit(a, i) != Bit(b, i))
    decreases i
  {
    XorHalves(a, b);
    hide Xor, Shift;
    if i == 0 {
      ShiftByOne(a);
      ShiftByOne(b);
      ShiftByOne(Xor(a, b));
    } else {
      hide Bit;
      BitOfHalf(Xor(a, b), i);
      BitOfHalf(a, i);
      BitOfHalf(b, i);
      XorBits(a / 2, b / 2, i - 1);
    }
  }

  lemma XorHalves(a: nat, b: nat)
    ensures Xor(a, b) % 2 == (a % 2 + b % 2) % 2
    ensures Xor(a, b) / 2 == Xor(a / 2, b / 2)
  {
    if a == 0 && b == 0 {
    } else {
      var rest := Xor(a / 2, b / 2);
      assert Xor(a, b) == (a % 2 + b % 2) % 2 + 2 * rest;
    }
  }

  lemma TwiceHalf(m: nat, k: nat)
    requires k > 0
    ensures m * Pow2(k - 1) >= 0 && m * Pow2(k) == 2 * (m * Pow2(k - 1))
  {
  }

  /** Adding a multiple of 2^k leaves the bits below `k` alone. */
  lemma {:induction false} LowBitsStay(low: nat, m: nat, k: nat, i: nat)
    requires i < k
    ensures Bit(low + m * Pow2(k), i) == Bit(low, i)
    decreases i
  {
    TwiceHalf(m, k);
    hide Shift, Pow2;
    var half := m * Pow2(k - 1);
    if i == 0 {
      ShiftByOne(low);
      ShiftByOne(low + 2 * half);
    } else {
      hide Bit;
      BitOfHalf(low + 2 * half, i);
      BitOfHalf(low, i);
      assert (low + 2 * half) / 2 == low / 2 + half;
      LowBitsStay(low / 2, m, k - 1, i - 1);
    }
  }

  lemma RemainderBits(n: nat, k: nat, i: nat, r: nat)
    requires i < k && r == n % Pow2(k)
    ensures Bit(r, i) == Bit(n, i)
  {
    hide Bit, Pow2;
    var q := Shift(n, k);
    Euclid(n, Pow2(k));
    LowBitsStay(r, q, k, i);
  }

  lemma Euclid(n: nat, d: nat)
    requires d > 0
    ensures n == n % d + n / d * d
  {
  }

  /** Rotation to the right: bit `i` comes from `r` places higher, cyclically. */
  lemma RotationBits(x: u32, r: nat, i: nat)
    requires r < 32 && i < 32
    ensures Bit(RotateRight(x, r), i) == Bit(x, (i + r) % 32)
  {
    hide Bit, Pow2;
    var q, m := Shift(x, r), x % Pow2(r);
    assert RotateRight(x, r) == q + m * Pow2(32 - r);
    Pow2Of32(r);
    hide RotateRight;
    if i < 32 - r {
      LowBitsStay(q, m, 32 - r, i);
      BitOfShift(x, r, i);
    } else {
      var j := i - (32 - r);
      assert (i + r) % 32 == j;
      BitOfShift(q + m * Pow2(32 - r), 32 - r, j);
      HighPart(x, Pow2(r), Pow2(32 - r));
      RemainderBits(x, r, j, m);
    }
  }

  lemma HighPart(x: nat, low: nat, high: nat)
    requires low > 0 && high > 0 && x < low * high
    ensures (x / low + x % low * high) / high == x % low
  {
    var q, m := x / low, x % low;
    assert low * high == high * low;
    if q >= high {
      MulMonotone(high, q, low);
    }
    QuotientUnique(q + m * high, high, m, q);
  }

  /** A draw: with rot the five high bits of the state, bit `i` of the output is the exclusive or of
      the state bits 27 and 45 places above the rotated position; bits above the 64th are zero. */
  lemma OutputBits(state: u64, i: nat)
    requires i < 32
    ensures var rot := state / 0x800_0000_0000_0000; var j := (i + rot) % 32;
      && Bit(Output(state), i) == (Bit(state, j + 27) != Bit(state, j + 45))
      && (j + 45 >= 64 ==> !Bit(state, j + 45))
  {
    hide Bit, Xor, RotateRight, Pow2;
    var rot := state / 0x800_0000_0000_0000;
    var j := (i + rot) % 32;
    var mixed := Xor(state / 0x4_0000, state);
    ShiftConstants();
    RotationBits(mixed / 0x800_0000 % 0x1_0000_0000, rot, i);
    RemainderBits(mixed / 0x800_0000, 32, j, mixed / 0x800_0000 % 0x1_0000_0000);
    BitOfShift(mixed, 27, j);
    XorBits(state / 0x4_0000, state, j + 27);
    BitOfShift(state, 18, j + 27);
    if j + 45 >= 64 {
      NoHighBits(state, j + 45);
    }
  }

  lemma ShiftConstants()
    ensures Pow2(18) == 0x4_0000 && Pow2(27) == 0x800_0000 && Pow2(32) == 0x1_0000_0000
    ensures Pow2(64) == 0x1_0000_0000_0000_0000
  {
    Pow2Values();
    Pow2Splits(16, 2);
    Pow2Splits(16, 11);
    Pow2Splits(8, 3);
    assert Pow2(2) == 4 && Pow2(3) == 8 && Pow2(8) == 256;
    Pow2Of64();
  }

  lemma NoHighBits(n: u64, i: nat)
    requires i >= 64
    ensures !Bit(n, i)
  {
    hide Pow2;
    ShiftConstants();
    Pow2Splits(64, i - 64);
    ProductAtLeast(0x1_0000_0000_0000_0000, Pow2(i - 64));
    QuotientUnique(n, Pow2(i), 0, n);
  }

  /** One step of the state is s * 6364136223846793005 + 2 * seed + 1, modulo 2^64. */
  lemma AdvanceIsLinear(seed: RngSeed, state: u64)
    ensures Advance(seed, state) == (6364136223846793005 * state + 2 * seed + 1) % 0x1_0000_0000_0000_0000
  {
    var m := 0x1_0000_0000_0000_0000;
    AdvanceIsAffine(seed, state);
    var c, y := IncrementOf(seed), A * state;
    assert state % M == state;
    if 2 * seed >= m {
      assert c == 2 * seed + 1 - m;
      assert y + 2 * seed + 1 == y + c + m;
      RemainderUnique(y + c + m, m, (y + c) / m + 1, (y + c) % m);
    } else {
      assert c == 2 * seed + 1;
    }
  }
}
