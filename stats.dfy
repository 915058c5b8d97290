/** Exact-arithmetic definitions of the estimators the statistics counters compute,
    and the algebraic facts about them.

    Sums are peeled from the right, so that appending one sample adds one term.
    Element-wise sequences (products, deviations, scalings) are comprehensions whose
    contracts give every element; identities between sums are proved from a few
    linearity lemmas (SumAxpy, SumShift, SumScale, SumMono) and chained with calc. */
module Stats {

  // ---------------------------------------------------------------------------
  // Sums and element-wise sequences
  // ---------------------------------------------------------------------------

  /** Σ s */
  function Sum(s: seq<real>): real
  {
    if |s| == 0 then 0.0 else Sum(s[..|s| - 1]) + s[|s| - 1]
  }

  lemma SumAppend(s: seq<real>, x: real)
    ensures Sum(s + [x]) == Sum(s) + x
  {
    assert (s + [x])[..|s|] == s;
  }

  /** The element-wise products a[i] * b[i]. */
  function Products(a: seq<real>, b: seq<real>): (r: seq<real>)
    requires |a| == |b|
    ensures |r| == |a|
    ensures forall i {:trigger r[i]} :: 0 <= i < |a| ==> r[i] == a[i] * b[i]
  {
    seq(|a|, i requires 0 <= i < |a| => a[i] * b[i])
  }

  /** The deviations s[i] - c. */
  function Deviations(s: seq<real>, c: real): (r: seq<real>)
    ensures |r| == |s|
    ensures forall i {:trigger r[i]} :: 0 <= i < |s| ==> r[i] == s[i] - c
  {
    seq(|s|, i requires 0 <= i < |s| => s[i] - c)
  }

  /** The scaled elements c * s[i]. */
  function Scale(s: seq<real>, c: real): (r: seq<real>)
    ensures |r| == |s|
    ensures forall i {:trigger r[i]} :: 0 <= i < |s| ==> r[i] == c * s[i]
  {
    seq(|s|, i requires 0 <= i < |s| => c * s[i])
  }

  lemma ProductsCommute(a: seq<real>, b: seq<real>)
    requires |a| == |b|
    ensures Products(a, b) == Products(b, a)
  {
    forall i | 0 <= i < |a| ensures Products(a, b)[i] == Products(b, a)[i] {
      MulCommutes(a[i], b[i]);
    }
  }

  lemma MulCommutes(x: real, y: real)
    ensures x * y == y * x
  {}

  lemma ProductsAppend(a: seq<real>, b: seq<real>, x: real, y: real)
    requires |a| == |b|
    ensures Products(a + [x], b + [y]) == Products(a, b) + [x * y]
  {
    forall i | 0 <= i < |a| + 1
      ensures Products(a + [x], b + [y])[i] == (Products(a, b) + [x * y])[i]
    {
      if i < |a| {
        assert (a + [x])[i] == a[i];
        assert (b + [y])[i] == b[i];
      }
    }
  }

  /** Σ (p - a·q) == Σ p - a·Σ q */
  lemma {:induction false} SumAxpy(r: seq<real>, p: seq<real>, q: seq<real>, a: real)
    requires |r| == |p| == |q|
    requires forall i :: 0 <= i < |r| ==> r[i] == p[i] - a * q[i]
    ensures Sum(r) == Sum(p) - a * Sum(q)
  {
    if r != [] {
      SumAxpy(r[..|r| - 1], p[..|p| - 1], q[..|q| - 1], a);
    }
  }

  /** Σ (p - k) == Σ p - n·k */
  lemma {:induction false} SumShift(r: seq<real>, p: seq<real>, k: real)
    requires |r| == |p|
    requires forall i :: 0 <= i < |r| ==> r[i] == p[i] - k
    ensures Sum(r) == Sum(p) - |p| as real * k
  {
    if r != [] {
      SumShift(r[..|r| - 1], p[..|p| - 1], k);
    }
  }

  /** Σ (c·p) == c·Σ p */
  lemma {:induction false} SumScale(r: seq<real>, p: seq<real>, c: real)
    requires |r| == |p|
    requires forall i :: 0 <= i < |r| ==> r[i] == c * p[i]
    ensures Sum(r) == c * Sum(p)
  {
    if r != [] {
      SumScale(r[..|r| - 1], p[..|p| - 1], c);
    }
  }

  /** r is element-wise at most p. */
  predicate PointwiseLe(r: seq<real>, p: seq<real>)
  {
    |r| == |p| && forall i :: 0 <= i < |r| ==> r[i] <= p[i]
  }

  /** Sums are monotone in every element. */
  lemma {:induction false} SumMono(r: seq<real>, p: seq<real>)
    requires PointwiseLe(r, p)
    ensures Sum(r) <= Sum(p)
  {
    if r != [] {
      SumMono(r[..|r| - 1], p[..|p| - 1]);
    }
  }

  /** A sum of non-negative terms is non-negative. */
  lemma {:induction false} SumNonNeg(s: seq<real>)
    requires forall i :: 0 <= i < |s| ==> s[i] >= 0.0
    ensures Sum(s) >= 0.0
  {
    if s != [] {
      SumNonNeg(s[..|s| - 1]);
    }
  }

  /** A sum of non-negative terms one of which is positive is positive. */
  lemma {:induction false} SumPos(s: seq<real>, k: int)
    requires forall i :: 0 <= i < |s| ==> s[i] >= 0.0
    requires 0 <= k < |s| && s[k] > 0.0
    ensures Sum(s) > 0.0
  {
    if k == |s| - 1 {
      SumNonNeg(s[..|s| - 1]);
    } else {
      assert s[..|s| - 1][k] == s[k];
      SumPos(s[..|s| - 1], k);
      assert s[|s| - 1] >= 0.0;
    }
  }

  /** Every element of s equals c. */
  predicate AllEqual(s: seq<real>, c: real)
  {
    forall i :: 0 <= i < |s| ==> s[i] == c
  }

  /** No two elements of s differ. */
  predicate IsConstant(s: seq<real>)
  {
    forall i, j :: 0 <= i < |s| && 0 <= j < |s| ==> s[i] == s[j]
  }

  lemma {:induction false} SumAllEqual(s: seq<real>, c: real)
    requires AllEqual(s, c)
    ensures Sum(s) == |s| as real * c
  {
    if s != [] {
      SumAllEqual(s[..|s| - 1], c);
    }
  }

  lemma {:induction false} SumBounds(s: seq<real>, lo: real, hi: real)
    requires forall i :: 0 <= i < |s| ==> lo <= s[i] <= hi
    ensures |s| as real * lo <= Sum(s) <= |s| as real * hi
  {
    if s != [] {
      SumBounds(s[..|s| - 1], lo, hi);
    }
  }

  // ---------------------------------------------------------------------------
  // Small facts of real arithmetic, stated on exactly the terms their callers use
  // ---------------------------------------------------------------------------

  lemma DistribRight(x: real, d: real, y: real, c: real)
    requires d == y - c
    ensures x * d == x * y - c * x
  {}

  lemma DistribLeft(d: real, x: real, c: real, y: real)
    requires d == x - c
    ensures d * y == x * y - c * y
  {}

  lemma SquareNonNeg(x: real)
    ensures x * x >= 0.0
  {}

  lemma MulPos(x: real, y: real)
    requires x > 0.0 && y > 0.0
    ensures x * y > 0.0
  {}

  lemma MulNeg(x: real, y: real)
    requires x < 0.0 && y < 0.0
    ensures x * y > 0.0
  {
    MulPos(-x, -y);
    assert x * y == (-x) * (-y);
  }

  lemma DivAsMul(x: real, n: real)
    requires n != 0.0
    ensures x / n == 1.0 / n * x
  {}

  lemma ProductOfEqual(x: real, y: real, c: real)
    requires x == c && y == c
    ensures x * y == c * c
  {}

  // ---------------------------------------------------------------------------
  // Mean and the sample (Bessel-corrected) variance
  // ---------------------------------------------------------------------------

  /** The arithmetic mean (numpy.mean). */
  function Mean(s: seq<real>): real
    requires |s| > 0
  {
    Sum(s) / |s| as real
  }

  /** Σ (a[i] - ca) * (b[i] - cb): the centred cross sum. */
  function CrossDev(a: seq<real>, b: seq<real>, ca: real, cb: real): real
    requires |a| == |b|
  {
    Sum(Products(Deviations(a, ca), Deviations(b, cb)))
  }

  /** Σ (x - c)² */
  function SumSqDev(s: seq<real>, c: real): real
  {
    CrossDev(s, s, c, c)
  }

  /** The sample variance with divisor n - 1 (numpy.var with ddof=1). */
  function SampleVar(s: seq<real>): real
    requires |s| >= 2
  {
    SumSqDev(s, Mean(s)) / (|s| - 1) as real
  }

  /** The mean lies between any lower and upper bound of the samples. */
  lemma MeanBounds(s: seq<real>, lo: real, hi: real)
    requires |s| > 0
    requires forall i :: 0 <= i < |s| ==> lo <= s[i] <= hi
    ensures lo <= Mean(s) <= hi
  {
    SumBounds(s, lo, hi);
  }

  lemma MeanAllEqual(s: seq<real>, c: real)
    requires |s| > 0 && AllEqual(s, c)
    ensures Mean(s) == c
  {
    SumAllEqual(s, c);
  }

  lemma DeviationsFromMean(s: seq<real>)
    requires |s| > 0
    ensures Sum(Deviations(s, Mean(s))) == 0.0
  {
    SumShift(Deviations(s, Mean(s)), s, Mean(s));
  }

  lemma CrossDevStep1Pointwise(a: seq<real>, b: seq<real>, cb: real)
    requires |a| == |b|
    ensures forall i :: 0 <= i < |a| ==>
      Products(a, Deviations(b, cb))[i] == Products(a, b)[i] - cb * a[i]
  {
    forall i | 0 <= i < |a|
      ensures Products(a, Deviations(b, cb))[i] == Products(a, b)[i] - cb * a[i]
    {
      DistribRight(a[i], Deviations(b, cb)[i], b[i], cb);
    }
  }

  lemma CrossDevStep1(a: seq<real>, b: seq<real>, cb: real)
    requires |a| == |b|
    ensures Sum(Products(a, Deviations(b, cb))) == Sum(Products(a, b)) - cb * Sum(a)
  {
    CrossDevStep1Pointwise(a, b, cb);
    SumAxpy(Products(a, Deviations(b, cb)), Products(a, b), a, cb);
  }

  lemma CrossDevStep2Pointwise(a: seq<real>, b: seq<real>, ca: real)
    requires |a| == |b|
    ensures forall i :: 0 <= i < |a| ==>
      Products(Deviations(a, ca), b)[i] == Products(a, b)[i] - ca * b[i]
  {
    forall i | 0 <= i < |a|
      ensures Products(Deviations(a, ca), b)[i] == Products(a, b)[i] - ca * b[i]
    {
      DistribLeft(Deviations(a, ca)[i], a[i], ca, b[i]);
    }
  }

  lemma CrossDevStep2(a: seq<real>, b: seq<real>, ca: real)
    requires |a| == |b|
    ensures Sum(Products(Deviations(a, ca), b)) == Sum(Products(a, b)) - ca * Sum(b)
  {
    CrossDevStep2Pointwise(a, b, ca);
    SumAxpy(Products(Deviations(a, ca), b), Products(a, b), b, ca);
  }

  lemma ScaledSumIsMeanProduct(a: seq<real>, b: seq<real>)
    requires |a| == |b| > 0
    ensures Mean(a) * Sum(b) == |a| as real * Mean(a) * Mean(b)
  {}

  /** The centred cross sum at the two means is Σ a·b - n·mean(a)·mean(b). */
  lemma CrossDevAtMeans(a: seq<real>, b: seq<real>)
    requires |a| == |b| > 0
    ensures CrossDev(a, b, Mean(a), Mean(b)) == Sum(Products(a, b)) - |a| as real * Mean(a) * Mean(b)
  {
    calc {
      CrossDev(a, b, Mean(a), Mean(b));
      { DeviationsFromMean(a); CrossDevStep1(Deviations(a, Mean(a)), b, Mean(b)); }
      Sum(Products(Deviations(a, Mean(a)), b));
      { CrossDevStep2(a, b, Mean(a)); }
      Sum(Products(a, b)) - Mean(a) * Sum(b);
      { ScaledSumIsMeanProduct(a, b); }
      Sum(Products(a, b)) - |a| as real * Mean(a) * Mean(b);
    }
  }

  lemma SquaresNonNeg(s: seq<real>, c: real)
    ensures SumSqDev(s, c) >= 0.0
  {
    forall i | 0 <= i < |s|
      ensures Products(Deviations(s, c), Deviations(s, c))[i] >= 0.0
    {
      SquareNonNeg(Deviations(s, c)[i]);
    }
    SumNonNeg(Products(Deviations(s, c), Deviations(s, c)));
  }

  lemma ProductTermPos(a: seq<real>, b: seq<real>, k: int)
    requires |a| == |b| && 0 <= k < |a| && a[k] == b[k] && a[k] != 0.0
    ensures Products(a, b)[k] > 0.0
  {
    if a[k] > 0.0 {
      MulPos(a[k], b[k]);
    } else {
      MulNeg(a[k], b[k]);
    }
  }

  /** The squared deviations from c sum to zero exactly when every sample is c. */
  lemma SquaresZero(s: seq<real>, c: real)
    ensures SumSqDev(s, c) == 0.0 <==> AllEqual(s, c)
  {
    if AllEqual(s, c) {
      forall i | 0 <= i < |s|
        ensures Products(Deviations(s, c), Deviations(s, c))[i] == 0.0
      {
        ProductOfEqual(Deviations(s, c)[i], Deviations(s, c)[i], 0.0);
      }
      SumAllEqual(Products(Deviations(s, c), Deviations(s, c)), 0.0);
    } else {
      var k :| 0 <= k < |s| && s[k] != c;
      forall i | 0 <= i < |s|
        ensures Products(Deviations(s, c), Deviations(s, c))[i] >= 0.0
      {
        SquareNonNeg(Deviations(s, c)[i]);
      }
      ProductTermPos(Deviations(s, c), Deviations(s, c), k);
      SumPos(Products(Deviations(s, c), Deviations(s, c)), k);
    }
  }

  /** The sample variance is never negative. */
  lemma SampleVarNonNeg(s: seq<real>)
    requires |s| >= 2
    ensures SampleVar(s) >= 0.0
  {
    SquaresNonNeg(s, Mean(s));
  }

  /** The sample variance is the computational formula (Σx² - n·mean²) / (n - 1). */
  lemma SampleVarFormula(s: seq<real>)
    requires |s| >= 2
    ensures SampleVar(s) == (Sum(Products(s, s)) - |s| as real * Mean(s) * Mean(s)) / (|s| - 1) as real
  {
    CrossDevAtMeans(s, s);
  }

  /** The sample variance vanishes exactly on constant series. */
  lemma SampleVarZeroIffConstant(s: seq<real>)
    requires |s| >= 2
    ensures SampleVar(s) == 0.0 <==> IsConstant(s)
  {
    SquaresZero(s, Mean(s));
    if IsConstant(s) {
      assert AllEqual(s, s[0]);
      MeanAllEqual(s, s[0]);
    }
  }

  /** Mean 4 and sample variance 4 for the samples 2, 4, 6. */
  lemma MeanVarExample()
    ensures Mean([2.0, 4.0, 6.0]) == 4.0
    ensures SampleVar([2.0, 4.0, 6.0]) == 4.0
  {
    var s := [2.0, 4.0, 6.0];
    assert s[..2] == [2.0, 4.0] && s[..2][..1] == [2.0] && [2.0][..0] == [];
    assert Sum(s) == 12.0;
    SampleVarFormula(s);
    var sq := Products(s, s);
    assert sq == [4.0, 16.0, 36.0];
    assert [4.0, 16.0, 36.0][..2] == [4.0, 16.0] && [4.0, 16.0][..1] == [4.0] && [4.0][..0] == [];
    assert Sum([4.0]) == 4.0;
    assert Sum([4.0, 16.0]) == 20.0;
    assert Sum([4.0, 16.0, 36.0]) == 56.0;
  }

  // ---------------------------------------------------------------------------
  // Cross-covariance
  // ---------------------------------------------------------------------------

  /** The biased (divisor n) covariance, as the centred cross sum over n. */
  function Cov(xs: seq<real>, ys: seq<real>): real
    requires |xs| == |ys| > 0
  {
    CrossDev(xs, ys, Mean(xs), Mean(ys)) / |xs| as real
  }

  /** The raw-sum form the counter evaluates equals the centred biased covariance. */
  lemma CovFromProducts(xs: seq<real>, ys: seq<real>)
    requires |xs| == |ys| > 0
    ensures 1.0 / |xs| as real * (Sum(Products(xs, ys)) - |xs| as real * Mean(xs) * Mean(ys))
            == Cov(xs, ys)
  {
    CrossDevAtMeans(xs, ys);
    DivAsMul(CrossDev(xs, ys, Mean(xs), Mean(ys)), |xs| as real);
  }

  lemma CovSymmetric(xs: seq<real>, ys: seq<real>)
    requires |xs| == |ys| > 0
    ensures Cov(xs, ys) == Cov(ys, xs)
  {
    ProductsCommute(Deviations(xs, Mean(xs)), Deviations(ys, Mean(ys)));
  }

  /** The pairs (1, 2) and (3, 4) have covariance 1. */
  lemma CovExample()
    ensures Cov([1.0, 3.0], [2.0, 4.0]) == 1.0
  {
    var xs, ys := [1.0, 3.0], [2.0, 4.0];
    assert xs[..1] == [1.0] && ys[..1] == [2.0] && [1.0][..0] == [] && [2.0][..0] == [];
    assert Mean(xs) == 2.0 && Mean(ys) == 3.0;
    CovFromProducts(xs, ys);
    var p := Products(xs, ys);
    assert p == [2.0, 12.0];
    assert [2.0, 12.0][..1] == [2.0] && [2.0][..0] == [];
    assert Sum([2.0]) == 2.0;
    assert Sum([2.0, 12.0]) == 14.0;
  }

  // ---------------------------------------------------------------------------
  // Rotation (numpy.roll) and the lagged autocovariance
  // ---------------------------------------------------------------------------

  /** x reduced into [0, n) by adding or subtracting n: the floor modulo Python's
      numpy.roll uses, written so that its definition unfolds one step at a time. */
  function Wrap(x: int, n: int): (r: int)
    requires n > 0
    ensures 0 <= r < n
    decreases if x < 0 then n - x else x
  {
    if x < 0 then Wrap(x + n, n) else if x < n then x else Wrap(x - n, n)
  }

  /** Wrap(x, n) differs from x by a multiple of n. */
  lemma {:induction false} WrapQuotient(x: int, n: int) returns (q: int)
    requires n > 0
    ensures x == n * q + Wrap(x, n)
    decreases if x < 0 then n - x else x
  {
    if x < 0 {
      var q' := WrapQuotient(x + n, n);
      q := q' - 1;
      MulStep(n, q, q');
    } else if x < n {
      q := 0;
    } else {
      var q' := WrapQuotient(x - n, n);
      q := q' + 1;
      MulStep(n, q', q);
    }
  }

  lemma MulStep(n: int, q: int, q': int)
    requires q' == q + 1
    ensures n * q' == n * q + n
  {}

  lemma QuotientGap(n: int, q: int, q0: int)
    requires n > 0 && q > q0
    ensures n * q >= n * q0 + n
  {
    MulAtLeast(n, q - q0);
    assert n * (q - q0) == n * q - n * q0;
  }

  lemma MulAtLeast(n: int, d: int)
    requires n > 0 && d >= 1
    ensures n * d >= n
  {}

  /** The remainder in [0, n) of x by n is unique. */
  lemma ModUnique(x: int, n: int, q: int, r: int)
    requires n > 0 && x == n * q + r && 0 <= r < n
    ensures x % n == r
  {
    var q0 := x / n;
    assert x == n * q0 + x % n;
    if q > q0 {
      QuotientGap(n, q, q0);
    } else if q < q0 {
      QuotientGap(n, q0, q);
    }
  }

  /** Wrap agrees with the (Euclidean) modulo operator. */
  lemma WrapIsMod(x: int, n: int)
    requires n > 0
    ensures Wrap(x, n) == x % n
  {
    var q := WrapQuotient(x, n);
    ModUnique(x, n, q, Wrap(x, n));
  }

  /** numpy.roll(a, k): element i of the result is a[(i - k) mod n]. */
  function Roll(a: seq<real>, k: nat): (r: seq<real>)
    ensures |r| == |a|
    ensures forall i {:trigger r[i]} :: 0 <= i < |a| ==> r[i] == a[Wrap(i - k, |a|)]
  {
    if |a| == 0 then [] else seq(|a|, i requires 0 <= i < |a| => a[Wrap(i - k, |a|)])
  }

  /** The rotation is numpy.roll's: element i is a[(i - k) mod n]. */
  lemma RollIndex(a: seq<real>, k: nat, i: int)
    requires 0 <= i < |a|
    ensures Roll(a, k)[i] == a[(i - k) % |a|]
  {
    WrapIsMod(i - k, |a|);
  }

  /** Rotating by zero changes nothing. */
  lemma RollZero(a: seq<real>)
    ensures Roll(a, 0) == a
  {}

  /** Past the first k positions the rotation by k is a plain shift. */
  lemma RollShift(a: seq<real>, k: nat, i: int)
    requires k <= i < |a|
    ensures Roll(a, k)[i] == a[i - k]
  {}

  /** In the first k positions the rotation by k < n wraps round to the end. */
  lemma RollWrap(a: seq<real>, k: nat, i: int)
    requires 0 <= i < k < |a|
    ensures Roll(a, k)[i] == a[i - k + |a|]
  {
    assert Wrap(i - k + |a|, |a|) == i - k + |a|;
  }

  /** The products Roll(xs, k)[i] * xs[i] for i in [lag, n), in order. */
  function LagProducts(xs: seq<real>, k: nat, lag: nat): (r: seq<real>)
    requires lag <= |xs|
    ensures |r| == |xs| - lag
    ensures forall j {:trigger r[j]} :: 0 <= j < |r| ==> r[j] == Roll(xs, k)[j + lag] * xs[j + lag]
  {
    Products(Roll(xs, k)[lag..], xs[lag..])
  }

  /** The lagged pairs x[i - lag] * x[i] for i in [lag, n), without any rotation. */
  function ShiftedProducts(xs: seq<real>, lag: nat): (r: seq<real>)
    requires lag <= |xs|
    ensures |r| == |xs| - lag
  {
    Products(xs[..|xs| - lag], xs[lag..])
  }

  /** Past the first lag positions, the rotation by lag is the series shifted right by lag. */
  lemma RollTail(xs: seq<real>, lag: nat)
    requires lag <= |xs|
    ensures Roll(xs, lag)[lag..] == xs[..|xs| - lag]
  {
    forall j | 0 <= j < |xs| - lag ensures Roll(xs, lag)[lag..][j] == xs[..|xs| - lag][j] {
      RollShift(xs, lag, j + lag);
    }
  }

  /** When the rotation equals the lag, get_auto_cov pairs every x[i] with x[i - lag]. */
  lemma LagProductsUnrotated(xs: seq<real>, lag: nat)
    requires lag <= |xs|
    ensures LagProducts(xs, lag, lag) == ShiftedProducts(xs, lag)
  {
    RollTail(xs, lag);
  }

  /** Each prefix of the lagged products grows by the next pair, as a loop over the
      rotated series builds it. */
  lemma LagProductsPrefix(xs: seq<real>, rolled: seq<real>, k: nat, lag: nat, i: nat)
    requires rolled == Roll(xs, k) && lag <= i < |xs|
    ensures LagProducts(xs, k, lag)[..i + 1 - lag]
            == LagProducts(xs, k, lag)[..i - lag] + [rolled[i] * xs[i]]
  {
    var r := LagProducts(xs, k, lag);
    assert r[i - lag] == rolled[i] * xs[i] by {
      assert i - lag + lag == i;
    }
    assert r[..i + 1 - lag] == r[..i - lag] + [r[i - lag]];
  }

  /** A lag no larger than the maximum lag is its own residue modulo maxLag + 1, so the
      rotation it selects is the plain lagged pairing. */
  lemma LagProductsWithinMaxLag(xs: seq<real>, lag: nat, maxLag: nat)
    requires lag <= |xs|
    ensures lag <= maxLag ==> LagProducts(xs, Wrap(lag, maxLag + 1), lag) == ShiftedProducts(xs, lag)
  {
    if lag <= maxLag {
      assert Wrap(lag, maxLag + 1) == lag;
      LagProductsUnrotated(xs, lag);
    }
  }

  /** At rotation and lag 0 the lagged products are the squares of the series. */
  lemma LagProductsZero(xs: seq<real>)
    ensures LagProducts(xs, 0, 0) == Products(xs, xs)
  {
    RollZero(xs);
    assert xs[0..] == xs;
  }

  /** The raw-moment form sum/n - mx·my written as the counters evaluate it. */
  function RawCov(sum: real, n: real, mx: real, my: real): real
    requires n != 0.0
  {
    1.0 / n * (sum - n * mx * my)
  }

  /** The autocovariance get_auto_cov computes for rotation k and lag: the raw moment of
      the n - lag lagged products, centred with the mean of the whole series. */
  function AutoCov(xs: seq<real>, k: nat, lag: nat): real
    requires lag < |xs|
  {
    RawCov(Sum(LagProducts(xs, k, lag)), (|xs| - lag) as real, Mean(xs), Mean(xs))
  }

  /** The autocovariance, read off a computed list of lagged products. */
  lemma AutoCovOfProducts(xs: seq<real>, k: nat, lag: nat, ps: seq<real>)
    requires lag < |xs| && ps == LagProducts(xs, k, lag)
    ensures |ps| > 0
    ensures RawCov(Sum(ps), |ps| as real, Mean(xs), Mean(xs)) == AutoCov(xs, k, lag)
  {
  }

  lemma RescaleVariance(a: real, v: real, n: real)
    requires n > 1.0 && v == a / (n - 1.0)
    ensures 1.0 / n * a == (n - 1.0) / n * v
  {
    assert a == (n - 1.0) * v;
  }

  /** The raw second moment about the mean, over n, is the sample variance rescaled by (n - 1) / n. */
  lemma RawCovIsScaledVariance(xs: seq<real>)
    requires |xs| >= 2
    ensures RawCov(Sum(Products(xs, xs)), |xs| as real, Mean(xs), Mean(xs))
            == (|xs| - 1) as real / |xs| as real * SampleVar(xs)
  {
    SampleVarFormula(xs);
    RescaleVariance(Sum(Products(xs, xs)) - |xs| as real * Mean(xs) * Mean(xs), SampleVar(xs), |xs| as real);
  }

  /** At lag 0 the autocovariance is the sample variance rescaled by (n - 1) / n. */
  lemma AutoCovLagZero(xs: seq<real>)
    requires |xs| >= 2
    ensures AutoCov(xs, 0, 0) == (|xs| - 1) as real / |xs| as real * SampleVar(xs)
  {
    calc {
      AutoCov(xs, 0, 0);
      RawCov(Sum(LagProducts(xs, 0, 0)), (|xs| - 0) as real, Mean(xs), Mean(xs));
      { LagProductsZero(xs); }
      RawCov(Sum(Products(xs, xs)), |xs| as real, Mean(xs), Mean(xs));
      { RawCovIsScaledVariance(xs); }
      (|xs| - 1) as real / |xs| as real * SampleVar(xs);
    }
  }

  lemma RatioOfScaled(r: real, v: real)
    requires v != 0.0
    ensures r * v / v == r
  {}

  /** The lag-0 autocorrelation (autocovariance over variance) is (n - 1) / n whenever it
      is defined, which by SampleVarZeroIffConstant is for every non-constant series. */
  lemma AutoCorLagZero(xs: seq<real>)
    requires |xs| >= 2 && SampleVar(xs) != 0.0
    ensures AutoCov(xs, 0, 0) / SampleVar(xs) == (|xs| - 1) as real / |xs| as real
  {
    calc {
      AutoCov(xs, 0, 0) / SampleVar(xs);
      { AutoCovLagZero(xs); }
      (|xs| - 1) as real / |xs| as real * SampleVar(xs) / SampleVar(xs);
      { RatioOfScaled((|xs| - 1) as real / |xs| as real, SampleVar(xs)); }
      (|xs| - 1) as real / |xs| as real;
    }
  }
  /** For every non-constant series the variance is not zero, so the lag-0 autocorrelation
      is defined and is (n - 1) / n. */
  lemma AutoCorLagZeroNonConstant(xs: seq<real>)
    requires |xs| >= 2 && !IsConstant(xs)
    ensures SampleVar(xs) != 0.0
    ensures AutoCov(xs, 0, 0) / SampleVar(xs) == (|xs| - 1) as real / |xs| as real
  {
    SampleVarZeroIffConstant(xs);
    AutoCorLagZero(xs);
  }


  lemma ProductsOfConstant(a: seq<real>, b: seq<real>, c: real)
    requires |a| == |b| && AllEqual(a, c) && AllEqual(b, c)
    ensures AllEqual(Products(a, b), c * c)
  {
    forall i | 0 <= i < |a| ensures Products(a, b)[i] == c * c {
      ProductOfEqual(a[i], b[i], c);
    }
  }

  /** Rotating a constant series gives the same constant series. */
  lemma RollConstant(xs: seq<real>, k: nat, c: real)
    requires AllEqual(xs, c)
    ensures AllEqual(Roll(xs, k), c)
  {}

  lemma RawCovOfConstant(sum: real, len: real, count: real, m: real, c: real)
    requires sum == count * (c * c) && m == c && len == count && len > 0.0
    ensures RawCov(sum, len, m, m) == 0.0
  {
    ProductOfEqual(m, m, c);
  }

  /** The lagged products of a series that is c everywhere are all c². */
  lemma LagProductsConstant(xs: seq<real>, k: nat, lag: nat, c: real)
    requires lag <= |xs| && AllEqual(xs, c)
    ensures AllEqual(LagProducts(xs, k, lag), c * c)
  {
    RollConstant(xs, k, c);
    assert AllEqual(Roll(xs, k)[lag..], c);
    assert AllEqual(xs[lag..], c);
    ProductsOfConstant(Roll(xs, k)[lag..], xs[lag..], c);
  }

  lemma SumLagProductsConstant(xs: seq<real>, k: nat, lag: nat, c: real)
    requires lag <= |xs| && AllEqual(xs, c)
    ensures Sum(LagProducts(xs, k, lag)) == |LagProducts(xs, k, lag)| as real * (c * c)
  {
    LagProductsConstant(xs, k, lag, c);
    SumOfAllEqual(LagProducts(xs, k, lag), c, c * c);
  }

  lemma SumOfAllEqual(s: seq<real>, c: real, cc: real)
    requires AllEqual(s, cc) && cc == c * c
    ensures Sum(s) == |s| as real * (c * c)
  {
    SumAllEqual(s, cc);
  }

  lemma AutoCovOfConstantSum(xs: seq<real>, k: nat, lag: nat, c: real)
    requires lag < |xs| && Mean(xs) == c
    requires Sum(LagProducts(xs, k, lag)) == |LagProducts(xs, k, lag)| as real * (c * c)
    ensures AutoCov(xs, k, lag) == 0.0
  {
    RawCovOfConstant(Sum(LagProducts(xs, k, lag)), (|xs| - lag) as real, |LagProducts(xs, k, lag)| as real, Mean(xs), c);
  }

  lemma ConstantIsAllEqual(xs: seq<real>)
    requires |xs| > 0 && IsConstant(xs)
    ensures AllEqual(xs, xs[0])
  {}

  lemma AutoCovAllEqual(xs: seq<real>, k: nat, lag: nat, c: real)
    requires lag < |xs| && AllEqual(xs, c)
    ensures AutoCov(xs, k, lag) == 0.0
  {
    MeanAllEqual(xs, c);
    SumLagProductsConstant(xs, k, lag, c);
    AutoCovOfConstantSum(xs, k, lag, c);
  }

  /** A constant series has autocovariance 0 for every rotation and every lag. */
  lemma AutoCovConstant(xs: seq<real>, k: nat, lag: nat)
    requires lag < |xs| && IsConstant(xs)
    ensures AutoCov(xs, k, lag) == 0.0
  {
    ConstantIsAllEqual(xs);
    AutoCovAllEqual(xs, k, lag, xs[0]);
  }

  // ---------------------------------------------------------------------------
  // Duration-weighted sums over (duration, value) records
  // ---------------------------------------------------------------------------

  /** The durations of the records, in order. */
  function Durations(vs: seq<(real, real)>): (r: seq<real>)
    ensures |r| == |vs|
    ensures forall i {:trigger r[i]} :: 0 <= i < |vs| ==> r[i] == vs[i].0
  {
    seq(|vs|, i requires 0 <= i < |vs| => vs[i].0)
  }

  /** The values of the records, in order. */
  function Levels(vs: seq<(real, real)>): (r: seq<real>)
    ensures |r| == |vs|
    ensures forall i {:trigger r[i]} :: 0 <= i < |vs| ==> r[i] == vs[i].1
  {
    seq(|vs|, i requires 0 <= i < |vs| => vs[i].1)
  }

  /** Σ d: the total recorded time. */
  function SumDurations(vs: seq<(real, real)>): real
  {
    Sum(Durations(vs))
  }

  /** Σ d·v */
  function WeightedSum(vs: seq<(real, real)>): real
  {
    Sum(Products(Durations(vs), Levels(vs)))
  }

  /** Σ d·v² */
  function WeightedSqSum(vs: seq<(real, real)>): real
  {
    Sum(Products(Durations(vs), Products(Levels(vs), Levels(vs))))
  }

  lemma DurationsAppend(vs: seq<(real, real)>, p: (real, real))
    ensures Durations(vs + [p]) == Durations(vs) + [p.0]
    ensures Levels(vs + [p]) == Levels(vs) + [p.1]
  {
    forall i | 0 <= i < |vs|
      ensures Durations(vs + [p])[i] == (Durations(vs) + [p.0])[i]
      ensures Levels(vs + [p])[i] == (Levels(vs) + [p.1])[i]
    {
      assert (vs + [p])[i] == vs[i];
    }
  }

  /** Appending a record adds its duration to the total time. */
  lemma SumDurationsAppend(vs: seq<(real, real)>, p: (real, real))
    ensures SumDurations(vs + [p]) == SumDurations(vs) + p.0
  {
    DurationsAppend(vs, p);
    SumAppend(Durations(vs), p.0);
  }

  /** Appending a record adds d·v to the weighted sum. */
  lemma WeightedSumAppend(vs: seq<(real, real)>, p: (real, real))
    ensures WeightedSum(vs + [p]) == WeightedSum(vs) + p.0 * p.1
  {
    DurationsAppend(vs, p);
    ProductsAppend(Durations(vs), Levels(vs), p.0, p.1);
    SumAppend(Products(Durations(vs), Levels(vs)), p.0 * p.1);
  }

  /** Appending a record adds d·v² to the weighted sum of squares. */
  lemma WeightedSqSumAppend(vs: seq<(real, real)>, p: (real, real))
    ensures WeightedSqSum(vs + [p]) == WeightedSqSum(vs) + p.0 * (p.1 * p.1)
  {
    DurationsAppend(vs, p);
    ProductsAppend(Levels(vs), Levels(vs), p.1, p.1);
    ProductsAppend(Durations(vs), Products(Levels(vs), Levels(vs)), p.0, p.1 * p.1);
    SumAppend(Products(Durations(vs), Products(Levels(vs), Levels(vs))), p.0 * (p.1 * p.1));
  }

  /** Every recorded duration is non-negative. */
  predicate NonNegDurations(vs: seq<(real, real)>)
  {
    forall i :: 0 <= i < |vs| ==> vs[i].0 >= 0.0
  }

  /** Every recorded value lies in [lo, hi]. */
  predicate LevelsWithin(vs: seq<(real, real)>, lo: real, hi: real)
  {
    forall i :: 0 <= i < |vs| ==> lo <= vs[i].1 <= hi
  }

  lemma MulBounds(d: real, v: real, lo: real, hi: real)
    requires d >= 0.0 && lo <= v <= hi
    ensures lo * d <= d * v <= hi * d
  {}

  lemma WeightedTermsLower(vs: seq<(real, real)>, lo: real, hi: real)
    requires NonNegDurations(vs) && LevelsWithin(vs, lo, hi)
    ensures PointwiseLe(Scale(Durations(vs), lo), Products(Durations(vs), Levels(vs)))
  {
    forall i | 0 <= i < |vs|
      ensures Scale(Durations(vs), lo)[i] <= Products(Durations(vs), Levels(vs))[i]
    {
      MulBounds(Durations(vs)[i], Levels(vs)[i], lo, hi);
    }
  }

  lemma WeightedTermsUpper(vs: seq<(real, real)>, lo: real, hi: real)
    requires NonNegDurations(vs) && LevelsWithin(vs, lo, hi)
    ensures PointwiseLe(Products(Durations(vs), Levels(vs)), Scale(Durations(vs), hi))
  {
    forall i | 0 <= i < |vs|
      ensures Products(Durations(vs), Levels(vs))[i] <= Scale(Durations(vs), hi)[i]
    {
      MulBounds(Durations(vs)[i], Levels(vs)[i], lo, hi);
    }
  }

  lemma ScaledTotal(vs: seq<(real, real)>, c: real)
    ensures Sum(Scale(Durations(vs), c)) == c * SumDurations(vs)
  {
    SumScale(Scale(Durations(vs), c), Durations(vs), c);
  }

  lemma WeightedSumLower(vs: seq<(real, real)>, lo: real, hi: real)
    requires NonNegDurations(vs) && LevelsWithin(vs, lo, hi)
    ensures lo * SumDurations(vs) <= WeightedSum(vs)
  {
    WeightedTermsLower(vs, lo, hi);
    SumMono(Scale(Durations(vs), lo), Products(Durations(vs), Levels(vs)));
    ScaledTotal(vs, lo);
  }

  lemma WeightedSumUpper(vs: seq<(real, real)>, lo: real, hi: real)
    requires NonNegDurations(vs) && LevelsWithin(vs, lo, hi)
    ensures WeightedSum(vs) <= hi * SumDurations(vs)
  {
    WeightedTermsUpper(vs, lo, hi);
    SumMono(Products(Durations(vs), Levels(vs)), Scale(Durations(vs), hi));
    ScaledTotal(vs, hi);
  }

  lemma DivBounds(s: real, w: real, lo: real, hi: real)
    requires w > 0.0 && lo * w <= s <= hi * w
    ensures lo <= s / w <= hi
  {}

  /** With non-negative durations and positive total time, the duration-weighted mean
      lies between any bounds of the recorded values. */
  lemma TimeMeanBounds(vs: seq<(real, real)>, lo: real, hi: real)
    requires NonNegDurations(vs) && SumDurations(vs) > 0.0 && LevelsWithin(vs, lo, hi)
    ensures lo <= WeightedSum(vs) / SumDurations(vs) <= hi
  {
    WeightedSumLower(vs, lo, hi);
    WeightedSumUpper(vs, lo, hi);
    DivBounds(WeightedSum(vs), SumDurations(vs), lo, hi);
  }

  /** The records (1, 5) and (2, 9) over a window of length 3 have weighted mean 23/3. */
  lemma TimeMeanExample()
    ensures WeightedSum([(1.0, 5.0), (2.0, 9.0)]) / 3.0 == 23.0 / 3.0
    ensures SumDurations([(1.0, 5.0), (2.0, 9.0)]) == 3.0
  {
    WeightedSumAppend([(1.0, 5.0)], (2.0, 9.0));
    WeightedSumAppend([], (1.0, 5.0));
    SumDurationsAppend([(1.0, 5.0)], (2.0, 9.0));
    SumDurationsAppend([], (1.0, 5.0));
    assert [(1.0, 5.0)] + [(2.0, 9.0)] == [(1.0, 5.0), (2.0, 9.0)];
    assert [] + [(1.0, 5.0)] == [(1.0, 5.0)];
  }
}
