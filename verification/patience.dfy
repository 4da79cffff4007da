/** The data-size-adaptive patience heuristic of `get_patience_factor`.

    The source computes `int(37 - math.log(N, 1.5))` for N >= 100. This model
    replaces the floating-point logarithm by the exact real one and states it
    with integers only: "1.5^k <= n" is written `3^k <= n * 2^k`. Rounding in
    `math.log` is not modelled. */
module Patience {

  /** Training sets with fewer rows than this get the fixed patience. */
  const SmallDataLimit: nat := 100

  /** The patience used below `SmallDataLimit`. */
  const SmallDataPatience: int := 30

  /** `b` raised to the power `e`. */
  function Pow(b: nat, e: nat): (r: nat)
    ensures b >= 1 ==> r >= 1
  {
    if e == 0 then 1 else b * Pow(b, e - 1)
  }

  /** n * 2^k, by doubling n k times. */
  function Doubled(n: nat, k: nat): nat {
    if k == 0 then n else 2 * Doubled(n, k - 1)
  }

  /** Doubling k times multiplies by 2^k. */
  lemma {:induction false} DoubledIsProduct(n: nat, k: nat)
    ensures Doubled(n, k) == n * Pow(2, k)
  {
    if k > 0 {
      DoubledIsProduct(n, k - 1);
      assert n * Pow(2, k) == 2 * (n * Pow(2, k - 1));
    }
  }

  /** Doubling keeps the order of its inputs. */
  lemma {:induction false} DoubledMonotone(n1: nat, n2: nat, k: nat)
    requires n1 <= n2
    ensures Doubled(n1, k) <= Doubled(n2, k)
  {
    if k > 0 {
      DoubledMonotone(n1, n2, k - 1);
    }
  }

  /** 1.5^k <= n, cleared of fractions: 3^k <= n * 2^k. */
  predicate PowAtMost(k: nat, n: nat) {
    Pow(3, k) <= Doubled(n, k)
  }

  /** r == int(37 - log_1.5 n) for the real logarithm, unfolded through the
      meaning of Python's `int()` (truncation toward zero):
      when r >= 0 the real 37 - log_1.5 n lies in [r, r + 1), that is
      1.5^(36-r) < n <= 1.5^(37-r); when r <= 0 it lies in (r - 1, r], that is
      1.5^(37-r) <= n < 1.5^(38-r). */
  predicate TruncatedLogPatience(n: nat, r: int) {
    || (0 <= r <= 36
        && Pow(3, 36 - r) < Doubled(n, 36 - r)
        && Doubled(n, 37 - r) <= Pow(3, 37 - r))
    || (r <= 0
        && Pow(3, 37 - r) <= Doubled(n, 37 - r)
        && Doubled(n, 38 - r) < Pow(3, 38 - r))
  }

  /** Bernoulli's inequality for base 1.5: 1.5^k >= 1 + k/2. */
  lemma {:induction false} Bernoulli(k: nat)
    ensures (k + 2) * Pow(2, k) <= 2 * Pow(3, k)
  {
    if k > 0 {
      Bernoulli(k - 1);
      BernoulliStep(k, Pow(2, k - 1), Pow(3, k - 1));
    }
  }

  /** The inductive step of `Bernoulli`, on the powers as plain numbers. */
  lemma BernoulliStep(k: nat, a: nat, b: nat)
    requires k >= 1 && (k + 1) * a <= 2 * b
    ensures (k + 2) * (2 * a) <= 2 * (3 * b)
  {
    assert 2 * a <= (k + 1) * a;
    assert (k + 2) * (2 * a) == 2 * ((k + 1) * a) + 2 * a;
  }

  /** Cancels a positive common factor from an inequality. */
  lemma CancelFactor(x: int, y: int, c: int)
    requires c >= 1 && x * c <= y * c
    ensures x <= y
  {
  }

  /** 1.5^k <= n bounds k linearly by n, which makes the search for the floor
      of the logarithm terminate. */
  lemma PowAtMostBound(k: nat, n: nat)
    requires PowAtMost(k, n)
    ensures k + 2 <= 2 * n
  {
    Bernoulli(k);
    DoubledIsProduct(n, k);
    var a := Pow(2, k);
    assert (k + 2) * a <= 2 * Pow(3, k) <= 2 * (n * a);
    assert 2 * (n * a) == (2 * n) * a;
    CancelFactor(k + 2, 2 * n, a);
  }

  /** 1.5^k grows with k, so 1.5^k <= n also holds for every smaller exponent. */
  lemma {:induction false} PowAtMostDown(j: nat, k: nat, n: nat)
    requires j <= k && PowAtMost(k, n)
    ensures PowAtMost(j, n)
  {
    if j < k {
      assert PowAtMost(k - 1, n);
      PowAtMostDown(j, k - 1, n);
    }
  }

  /** 1.5^k <= n stays true for every larger n. */
  lemma PowAtMostUp(k: nat, n1: nat, n2: nat)
    requires n1 <= n2 && PowAtMost(k, n1)
    ensures PowAtMost(k, n2)
  {
    DoubledMonotone(n1, n2, k);
  }

  /** (3^k - 1) / 2, the witness that 3^k is odd. */
  function HalfBelowPow3(k: nat): nat {
    if k == 0 then 0 else 3 * HalfBelowPow3(k - 1) + 1
  }

  /** 3^k is odd. */
  lemma {:induction false} Pow3Odd(k: nat)
    ensures Pow(3, k) == 2 * HalfBelowPow3(k) + 1
  {
    if k > 0 {
      Pow3Odd(k - 1);
    }
  }

  /** For k >= 1 the power 1.5^k is never a whole number, so log_1.5 n is
      never a whole positive number: 3^k is odd while n * 2^k is even. */
  lemma PowNeverExact(k: nat, n: nat)
    requires k >= 1
    ensures Pow(3, k) != Doubled(n, k)
  {
    Pow3Odd(k);
  }

  /** The floor of log_1.5 n, searched upward from m. */
  function FloorLogFrom(n: nat, m: nat): (r: nat)
    requires PowAtMost(m, n)
    ensures r >= m && PowAtMost(r, n) && !PowAtMost(r + 1, n)
    decreases 2 * n - m
  {
    if PowAtMost(m + 1, n) then
      PowAtMostBound(m + 1, n);
      FloorLogFrom(n, m + 1)
    else
      m
  }

  /** The floor of log_1.5 n: 1.5^r <= n < 1.5^(r+1). */
  function FloorLog(n: nat): (r: nat)
    requires n >= 1
    ensures PowAtMost(r, n) && !PowAtMost(r + 1, n)
  {
    FloorLogFrom(n, 0)
  }

  /** Every exponent k with 1.5^k <= n is at most the floor of log_1.5 n. */
  lemma FloorLogIsLargest(n: nat, k: nat)
    requires n >= 1 && PowAtMost(k, n)
    ensures k <= FloorLog(n)
  {
    var m := FloorLog(n);
    if k > m {
      PowAtMostDown(m + 1, k, n);
    }
  }

  /** Two exponents that both sit at the floor of the logarithm are equal. */
  lemma FloorUnique(n: nat, a: nat, b: nat)
    requires PowAtMost(a, n) && !PowAtMost(a + 1, n)
    requires PowAtMost(b, n) && !PowAtMost(b + 1, n)
    ensures a == b
  {
    if a < b {
      PowAtMostDown(a + 1, b, n);
    } else if b < a {
      PowAtMostDown(b + 1, a, n);
    }
  }

  /** The patience for a training set of n rows (`get_patience_factor`):
      30 below 100 rows, otherwise the truncation toward zero of
      37 - log_1.5 n. */
  function PatienceFactor(n: nat): (r: int)
    ensures n < SmallDataLimit ==> r == SmallDataPatience
    ensures n >= SmallDataLimit ==> TruncatedLogPatience(n, r)
  {
    if n < SmallDataLimit then SmallDataPatience
    else
      var m := FloorLog(n);
      assert PowAtMost(1, n);
      FloorLogIsLargest(n, 1);
      PowNeverExact(m, n);
      PowNeverExact(m + 1, n);
      if m <= 36 then 36 - m else 37 - m
  }

  /** Whatever r satisfies the truncation reading, it is the floor of the
      logarithm seen through the two branches of truncation. */
  lemma TruncatedLogFloor(n: nat, r: int) returns (m: nat)
    requires TruncatedLogPatience(n, r)
    ensures PowAtMost(m, n) && !PowAtMost(m + 1, n)
    ensures (m <= 36 && r == 36 - m) || (m >= 37 && r == 37 - m)
  {
    if 0 <= r <= 36
       && Pow(3, 36 - r) < Doubled(n, 36 - r)
       && Doubled(n, 37 - r) <= Pow(3, 37 - r)
    {
      m := 36 - r;
      PowNeverExact(m + 1, n);
    } else {
      m := 37 - r;
    }
  }

  /** The truncation reading fixes the patience uniquely: from 100 rows on,
      an integer r satisfies it exactly when r is the patience. */
  lemma PatienceFactorCharacterised(n: nat, r: int)
    requires n >= SmallDataLimit
    ensures TruncatedLogPatience(n, r) <==> r == PatienceFactor(n)
  {
    if TruncatedLogPatience(n, r) {
      var m1 := TruncatedLogFloor(n, r);
      var m2 := TruncatedLogFloor(n, PatienceFactor(n));
      FloorUnique(n, m1, m2);
    }
  }

  /** 1.5^11 <= N < 1.5^12 for 100 <= N <= 129, so the patience there,
      at 100 rows in particular, is 37 - 12. */
  lemma PatienceFrom100To129(n: nat)
    requires 100 <= n <= 129
    ensures PatienceFactor(n) == 25
  {
    assert Pow(3, 11) == 177147 && Pow(2, 11) == 2048;
    assert Pow(3, 12) == 531441 && Pow(2, 12) == 4096;
    DoubledIsProduct(n, 11);
    DoubledIsProduct(n, 12);
    assert PowAtMost(11, n) && !PowAtMost(12, n);
    FloorUnique(n, FloorLog(n), 11);
  }

  /** 1.5^17 <= N < 1.5^18 exactly for 986 <= N <= 1477, so the patience
      there, at 1000 rows in particular, is 37 - 18. */
  lemma PatienceFrom986To1477(n: nat)
    requires 986 <= n <= 1477
    ensures PatienceFactor(n) == 19
  {
    PowsAtSeventeen();
    DoubledIsProduct(n, 17);
    DoubledIsProduct(n, 18);
    assert PowAtMost(17, n) && !PowAtMost(18, n);
    FloorUnique(n, FloorLog(n), 17);
  }

  /** The powers of 2 and 3 at 17 and 18. */
  lemma PowsAtSeventeen()
    ensures Pow(3, 17) == 129140163 && Pow(2, 17) == 131072
    ensures Pow(3, 18) == 387420489 && Pow(2, 18) == 262144
  {
    assert Pow(3, 12) == 531441 && Pow(2, 12) == 4096;
  }

  /** Larger training sets never get more patience. */
  lemma PatienceNonIncreasing(n1: nat, n2: nat)
    requires n1 <= n2
    ensures PatienceFactor(n2) <= PatienceFactor(n1)
  {
    if n2 >= SmallDataLimit {
      var m2 := FloorLog(n2);
      if n1 < SmallDataLimit {
        assert Pow(3, 11) == 177147 && Doubled(100, 11) == 204800;
        assert PowAtMost(11, 100);
        PowAtMostUp(11, 100, n2);
        FloorLogIsLargest(n2, 11);
      } else {
        var m1 := FloorLog(n1);
        PowAtMostUp(m1, n1, n2);
        FloorLogIsLargest(n2, m1);
      }
    }
  }
}
