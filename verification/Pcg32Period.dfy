/** The period of the generator. For every seed and every start state the orbit of `Advance`
    closes after exactly 2^64 steps and passes through every 64-bit state.

    With a the multiplier and c the increment, n steps move a state x to
    x + Geo(a, n) * ((a - 1) * x + c) modulo 2^64. Since a is 1 modulo 4 and c is odd, the
    second factor is odd, and Geo(a, n) is divisible by 2^k exactly when n is. */
module Pcg32Period {
  import opened SyTypes
  import opened Arithmetic
  import opened Pcg32

  const M: nat := 0x1_0000_0000_0000_0000
  const A: nat := 6364136223846793005

  /** The state after `n` calls of `advance`. */
  function Iterate(n: nat, seed: RngSeed, state: u64): u64 {
    if n == 0 then state else Advance(seed, Iterate(n - 1, seed, state))
  }

  /** 1 + a + ... + a^(n-1). */
  function Geo(a: int, n: nat): int {
    if n == 0 then 0 else a * Geo(a, n - 1) + 1
  }

  /** 2^k divides `x`, read off bit by bit. */
  predicate TwoDivides(k: nat, x: int) {
    k == 0 || (x % 2 == 0 && TwoDivides(k - 1, x / 2))
  }

  lemma {:induction false} TwoDividesIsModulus(k: nat, x: int)
    ensures TwoDivides(k, x) <==> x % Pow2(k) == 0
  {
    if k == 0 {
    } else {
      TwoDividesIsModulus(k - 1, x / 2);
      HalveModulus(x, Pow2(k - 1));
    }
  }

  lemma HalveModulus(x: int, p: nat)
    requires p > 0
    ensures x % (2 * p) == 2 * (x / 2 % p) + x % 2
  {
    var q, r := x / 2 / p, x / 2 % p;
    assert x / 2 == p * q + r;
    assert x == 2 * p * q + (2 * r + x % 2);
    RemainderUnique(x, 2 * p, q, 2 * r + x % 2);
  }

  lemma TimesOdd(x: int, h: int)
    ensures x * (2 * h + 1) % 2 == x % 2
    ensures x % 2 == 0 ==> x * (2 * h + 1) / 2 == x / 2 * (2 * h + 1)
  {
    var y, t := x / 2, x * h;
    assert x * (2 * h + 1) == 2 * t + x;
    if x % 2 == 0 {
      assert t == 2 * (y * h);
      assert y * (2 * h + 1) == 2 * (y * h) + y;
    }
  }

  lemma {:induction false} OddFactorCancels(k: nat, x: int, h: int)
    ensures TwoDivides(k, x * (2 * h + 1)) <==> TwoDivides(k, x)
  {
    if k == 0 {
    } else {
      TimesOdd(x, h);
      OddFactorCancels(k - 1, x / 2, h);
    }
  }

  /** Doubling: Geo(2m) = Geo(m) * (a^m + 1), written with a^m = (a - 1) * Geo(m) + 1. */
  lemma {:induction false} GeoAdds(a: int, m: nat, n: nat)
    ensures Geo(a, m + n) == ((a - 1) * Geo(a, m) + 1) * Geo(a, n) + Geo(a, m)
  {
    if m == 0 {
    } else {
      GeoAdds(a, m - 1, n);
      GeoAddsStep(a, Geo(a, m - 1), Geo(a, n));
    }
  }

  lemma GeoAddsStep(a: int, g: int, h: int)
    ensures a * (((a - 1) * g + 1) * h + g) + 1 == ((a - 1) * (a * g + 1) + 1) * h + (a * g + 1)
  {
    calc {
      a * (((a - 1) * g + 1) * h + g) + 1;
      a * ((a - 1) * g * h + h + g) + 1;
      a * (a - 1) * g * h + a * h + a * g + 1;
      ((a - 1) * (a * g) + a) * h + (a * g + 1);
      ((a - 1) * (a * g + 1) + 1) * h + (a * g + 1);
    }
  }

  lemma GeoAlternates(a: int, h: int, n: nat)
    requires a == 2 * h + 1 && n != 0
    ensures Geo(a, n) == 2 * (h * Geo(a, n - 1)) + Geo(a, n - 1) + 1
  {
    var before := Geo(a, n - 1);
    assert a * before == 2 * (h * before) + before;
  }

  lemma ParityStep(g: int, t: int, n: int)
    requires g % 2 == (n - 1) % 2
    ensures (2 * t + g + 1) % 2 == n % 2
  {
  }

  lemma {:induction false} GeoParity(a: int, h: int, n: nat)
    requires a == 2 * h + 1
    ensures Geo(a, n) % 2 == n % 2
  {
    if n == 0 {
    } else {
      GeoParity(a, h, n - 1);
      GeoAlternates(a, h, n);
      hide Geo;
      ParityStep(Geo(a, n - 1), h * Geo(a, n - 1), n);
    }
  }

  lemma DoubleStep(a: int, g: int, b: int)
    requires a == 4 * b + 1
    ensures ((a - 1) * g + 1) * g + g == 2 * (g * (2 * (b * g) + 1))
  {
    assert (a - 1) * g == 4 * (b * g);
    var t := b * g;
    assert (4 * t + 1) * g + g == 2 * (g * (2 * t + 1));
  }

  lemma GeoDoubles(a: int, m: nat, b: int)
    requires a == 4 * b + 1
    ensures Geo(a, m + m) == 2 * (Geo(a, m) * (2 * (b * Geo(a, m)) + 1))
  {
    GeoAdds(a, m, m);
    DoubleStep(a, Geo(a, m), b);
  }

  lemma TwoDividesStep(k: nat, x: int)
    ensures TwoDivides(k, x) <==> k == 0 || (x % 2 == 0 && TwoDivides(k - 1, x / 2))
  {
  }

  lemma TwoDividesDouble(k: nat, p: int)
    requires k != 0
    ensures TwoDivides(k, 2 * p) <==> TwoDivides(k - 1, p)
  {
    assert 2 * p / 2 == p;
  }

  lemma CancelDoubledOdd(k: nat, g: int, t: int)
    requires k != 0
    ensures TwoDivides(k, 2 * (g * (2 * t + 1))) <==> TwoDivides(k - 1, g)
  {
    TwoDividesDouble(k, g * (2 * t + 1));
    OddFactorCancels(k - 1, g, t);
  }

  lemma GeoHalves(a: int, b: int, k: nat, m: nat)
    requires a == 4 * b + 1 && k != 0
    ensures TwoDivides(k, Geo(a, m + m)) <==> TwoDivides(k - 1, Geo(a, m))
  {
    hide Geo, TwoDivides;
    GeoDoubles(a, m, b);
    var g := Geo(a, m);
    CancelDoubledOdd(k, g, b * g);
  }

  /** For a = 4b + 1, Geo(a, n) is divisible by 2^k exactly when n is. */
  lemma {:induction false} GeoDivisibility(a: int, b: int, k: nat, n: nat)
    requires a == 4 * b + 1
    ensures TwoDivides(k, Geo(a, n)) <==> TwoDivides(k, n)
  {
    hide Geo, TwoDivides;
    TwoDividesStep(k, Geo(a, n));
    TwoDividesStep(k, n);
    if k == 0 {
    } else {
      GeoParity(a, 2 * b, n);
      if n % 2 == 0 {
        var m := n / 2;
        assert n == m + m;
        GeoHalves(a, b, k, m);
        GeoDivisibility(a, b, k - 1, m);
      }
    }
  }

  /** The unreduced displacement after `n` steps. */
  function Displacement(a: int, n: nat, c: int, x: int): int {
    Geo(a, n) * ((a - 1) * x + c)
  }

  lemma NoDisplacement(a: int, c: int, x: int)
    ensures Displacement(a, 0, c, x) == 0
  {
  }

  lemma IterateStep(n: nat, seed: RngSeed, state: u64)
    ensures Iterate(n, seed, state) == if n == 0 then state else Advance(seed, Iterate(n - 1, seed, state))
  {
    hide Advance;
  }

  lemma DisplacementStep(a: int, g: int, c: int, x: int)
    ensures a * (x + g * ((a - 1) * x + c)) + c == x + (a * g + 1) * ((a - 1) * x + c)
  {
    var t := (a - 1) * x + c;
    assert a * (x + g * t) == a * x + a * g * t;
    assert (a * g + 1) * t == a * g * t + t;
  }

  lemma WrapStep(m: nat, a: int, y: int, c: int)
    requires m > 0
    ensures ((y % m) * a % m + c) % m == (a * y + c) % m
  {
    var q, r := y / m, y % m;
    var q', r' := r * a / m, r * a % m;
    assert y == m * q + r && r * a == m * q' + r';
    assert a * y == a * (m * q) + a * r == m * (a * q) + a * r;
    var z := r' + c;
    assert a * y + c == m * (a * q + q') + z;
    assert z == m * (z / m) + z % m;
    assert a * y + c == m * (a * q + q' + z / m) + z % m;
    RemainderUnique(a * y + c, m, a * q + q' + z / m, z % m);
  }

  lemma AdvanceIsAffine(seed: RngSeed, y: int)
    ensures Advance(seed, y % M) == (A * y + IncrementOf(seed)) % M
  {
    WrapStep(M, A, y, IncrementOf(seed));
  }

  lemma DisplacementNext(a: int, n: nat, c: int, x: int)
    requires n > 0
    ensures a * (x + Displacement(a, n - 1, c, x)) + c == x + Displacement(a, n, c, x)
  {
    DisplacementStep(a, Geo(a, n - 1), c, x);
  }

  lemma {:induction false} IterateIsAffine(n: nat, seed: RngSeed, state: u64)
    ensures Iterate(n, seed, state) == (state + Displacement(A, n, IncrementOf(seed), state)) % M
  {
    IterateStep(n, seed, state);
    hide Iterate, Advance, IncrementOf, Displacement;
    var c := IncrementOf(seed);
    if n == 0 {
      NoDisplacement(A, c, state);
    } else {
      IterateIsAffine(n - 1, seed, state);
      AdvanceIsAffine(seed, state + Displacement(A, n - 1, c, state));
      DisplacementNext(A, n, c, state);
    }
  }

  lemma Pow2Of64()
    ensures Pow2(64) == M
  {
    Pow2Splits(32, 32);
    Pow2Values();
  }

  lemma ReturnsIffDivides(m: nat, x: nat, d: int)
    requires x < m
    ensures (x + d) % m == x <==> d % m == 0
  {
    var q := d / m;
    if d % m == 0 {
      RemainderUnique(x + d, m, q, x);
    }
    if (x + d) % m == x {
      RemainderUnique(d, m, (x + d) / m, 0);
    }
  }

  /** The increment is odd. */
  lemma IncrementIsOdd(seed: RngSeed)
    ensures IncrementOf(seed) % 2 == 1
  {
    var doubled := seed * 2;
    assert doubled % 0x1_0000_0000_0000_0000 == doubled
        || doubled % 0x1_0000_0000_0000_0000 == doubled - 0x1_0000_0000_0000_0000;
  }

  /** Main result: the orbit returns to its start after 2^64 steps and never sooner. */
  lemma FullPeriod(n: nat, seed: RngSeed, state: u64)
    ensures Iterate(n, seed, state) == state <==> n % M == 0
  {
    hide Iterate, IncrementOf, Geo, TwoDivides;
    var c := IncrementOf(seed);
    IncrementIsOdd(seed);
    var h := (A - 1) / 2 * state + c / 2;
    assert (A - 1) * state + c == 2 * h + 1;
    IterateIsAffine(n, seed, state);
    ReturnsIffDivides(M, state, Geo(A, n) * (2 * h + 1));
    Pow2Of64();
    TwoDividesIsModulus(64, Geo(A, n) * (2 * h + 1));
    OddFactorCancels(64, Geo(A, n), h);
    GeoDivisibility(A, (A - 1) / 4, 64, n);
    TwoDividesIsModulus(64, n);
  }

  lemma {:induction false} IterateAdds(m: nat, n: nat, seed: RngSeed, state: u64)
    ensures Iterate(m + n, seed, state) == Iterate(m, seed, Iterate(n, seed, state))
  {
    hide Advance;
    if m == 0 {
    } else {
      IterateAdds(m - 1, n, seed, state);
    }
  }

  lemma DistinctWithinPeriod(i: nat, j: nat, seed: RngSeed, state: u64)
    requires i < j < M
    ensures Iterate(i, seed, state) != Iterate(j, seed, state)
  {
    hide Advance;
    IterateAdds(j - i, i, seed, state);
    FullPeriod(j - i, seed, Iterate(i, seed, state));
  }

  ghost function Visited(n: nat, seed: RngSeed, state: u64): set<u64> {
    set i: nat | i < n :: Iterate(i, seed, state)
  }

  lemma VisitedNext(n: nat, seed: RngSeed, state: u64)
    requires n != 0
    ensures Visited(n, seed, state) == Visited(n - 1, seed, state) + {Iterate(n - 1, seed, state)}
  {
    hide Iterate;
  }

  lemma {:induction false} VisitedCount(n: nat, seed: RngSeed, state: u64)
    requires n <= M
    ensures |Visited(n, seed, state)| == n
  {
    hide Iterate;
    if n == 0 {
    } else {
      VisitedCount(n - 1, seed, state);
      var last := Iterate(n - 1, seed, state);
      forall i: nat | i < n - 1
        ensures Iterate(i, seed, state) != last
      {
        DistinctWithinPeriod(i, n - 1, seed, state);
      }
      VisitedNext(n, seed, state);
      assert last !in Visited(n - 1, seed, state);
    }
  }

  lemma {:induction false} BelowCount(n: nat, s: set<int>)
    requires forall x :: x in s <==> 0 <= x < n
    ensures |s| == n
  {
    if n == 0 {
      forall x | x in s
        ensures false
      {
      }
    } else {
      BelowCount(n - 1, s - {n - 1});
    }
  }

  lemma SubsetOfSameSize(a: set<int>, b: set<int>)
    requires a <= b && |a| == |b|
    ensures a == b
  {
    assert b == a + (b - a);
  }

  /** One period visits every 64-bit state. */
  lemma EveryStateVisited(seed: RngSeed, state: u64, target: u64)
    ensures exists i: nat :: i < M && Iterate(i, seed, state) == target
  {
    VisitedCount(M, seed, state);
    var all := set x: u64 {:trigger x in Visited(M, seed, state)} | true;
    BelowCount(M, all);
    SubsetOfSameSize(Visited(M, seed, state), all);
    assert target in Visited(M, seed, state);
  }
}
