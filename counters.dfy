/** The statistics counters of the simulator (counter.py).

    Each counter is an object whose list `values` is appended to by `Count`, cleared by
    `Reset`, and summarised by the estimator queries. The estimators are stated against the
    exact-arithmetic definitions of module Stats. The simulation clock is passed in as `now`. */
module Counters {
  import opened Stats

  /** Counts values regardless of how long they were observed. */
  class TimeIndependentCounter {
    var name: string
    var values: seq<real>

    constructor (name: string := "default")
      ensures this.name == name && values == []
    {
      this.name := name;
      values := [];
    }

    /** Appends x to the recorded values. */
    method Count(x: real)
      modifies this
      ensures values == old(values) + [x]
      ensures name == old(name)
    {
      values := values + [x];
    }

    /** Forgets every recorded value. */
    method Reset()
      modifies this
      ensures values == [] && name == old(name)
    {
      values := [];
    }

    /** numpy.mean of the values: the number that, times n, gives their sum. */
    function GetMean(): (m: real)
      reads this
      requires |values| > 0
      ensures m * |values| as real == Sum(values)
    {
      Mean(values)
    }

    /** numpy.var with ddof=1: the sample variance, never negative, and (n - 1) times it
        is the sum of squared deviations from the mean (Stats.SampleVarZeroIffConstant
        adds that it is zero exactly for a constant series). */
    function GetVar(): (v: real)
      reads this
      requires |values| >= 2
      ensures v >= 0.0
      ensures v * (|values| - 1) as real == SumSqDev(values, Mean(values))
    {
      SampleVarNonNeg(values);
      SampleVar(values)
    }

    /** Whether x lies strictly inside the confidence interval mean ± h, where
        h = halfWidth(alpha) is what report_confidence_interval(alpha) returns. With fewer
        than two values the variance, and so h, is not a number and every comparison fails. */
    function IsInConfidenceInterval(x: real, alpha: real, halfWidth: real -> real): (b: bool)
      reads this
      ensures b <==> |values| >= 2
                     && (if x >= GetMean() then x - GetMean() else GetMean() - x) < halfWidth(alpha)
      ensures |values| >= 2 && x == GetMean() && halfWidth(alpha) > 0.0 ==> b
    {
      |values| >= 2 && x < GetMean() + halfWidth(alpha) && x > GetMean() - halfWidth(alpha)
    }
  }

  /** Counts values weighted by how long each was held, over the window
      [firstTimestamp, lastTimestamp]. Each record is (duration, value). */
  class TimeDependentCounter {
    var name: string
    var values: seq<(real, real)>
    var firstTimestamp: real
    var lastTimestamp: real

    /** The recorded durations add up to exactly the observation window. */
    ghost predicate Valid()
      reads this
    {
      SumDurations(values) == lastTimestamp - firstTimestamp
    }

    constructor (name: string := "default")
      ensures Valid()
      ensures this.name == name && values == [] && firstTimestamp == 0.0 && lastTimestamp == 0.0
    {
      this.name := name;
      values := [];
      firstTimestamp := 0.0;
      lastTimestamp := 0.0;
    }

    /** Records value as held since the previous count, and moves the window end to now.
        With a clock that does not go backwards, every duration stays non-negative. */
    method Count(now: real, value: real)
      requires Valid()
      modifies this
      ensures Valid()
      ensures values == old(values) + [(now - old(lastTimestamp), value)]
      ensures lastTimestamp == now
      ensures firstTimestamp == old(firstTimestamp) && name == old(name)
      ensures NonNegDurations(old(values)) && now >= old(lastTimestamp) ==> NonNegDurations(values)
    {
      SumDurationsAppend(values, (now - lastTimestamp, value));
      values := values + [(now - lastTimestamp, value)];
      lastTimestamp := now;
    }

    /** Forgets every record and starts a new, empty window at now. */
    method Reset(now: real)
      modifies this
      ensures Valid()
      ensures values == [] && firstTimestamp == now && lastTimestamp == now
      ensures name == old(name)
    {
      firstTimestamp := now;
      lastTimestamp := now;
      values := [];
    }

    /** The duration-weighted mean Σ d·v over the window length. */
    method GetMean() returns (m: real)
      requires lastTimestamp != firstTimestamp
      ensures m == WeightedSum(values) / (lastTimestamp - firstTimestamp)
    {
      var sum := 0.0;
      for i := 0 to |values|
        invariant sum == WeightedSum(values[..i])
      {
        WeightedSumAppend(values[..i], values[i]);
        assert values[..i + 1] == values[..i] + [values[i]];
        sum := sum + values[i].0 * values[i].1;
      }
      assert values[..|values|] == values;
      m := sum / (lastTimestamp - firstTimestamp);
    }

    /** The duration-weighted variance: Σ d·v² over the window length, minus the square
        of the duration-weighted mean. */
    method GetVar() returns (v: real)
      requires lastTimestamp != firstTimestamp
      ensures v == WeightedSqSum(values) / (lastTimestamp - firstTimestamp)
                   - (WeightedSum(values) / (lastTimestamp - firstTimestamp)) * (WeightedSum(values) / (lastTimestamp - firstTimestamp))
    {
      var sum := 0.0;
      for i := 0 to |values|
        invariant sum == WeightedSqSum(values[..i])
      {
        WeightedSqSumAppend(values[..i], values[i]);
        assert values[..i + 1] == values[..i] + [values[i]];
        sum := sum + values[i].0 * (values[i].1 * values[i].1);
      }
      assert values[..|values|] == values;
      var m := GetMean();
      v := sum / (lastTimestamp - firstTimestamp) - m * m;
    }
  }

  /** Counts pairs (x, y): X and Y hold the two series and values their products. */
  class TimeIndependentCrosscorrelationCounter {
    var name: string
    var values: seq<real>
    const X: TimeIndependentCounter
    const Y: TimeIndependentCounter

    /** The product list stays aligned with the two series. */
    ghost predicate Valid()
      reads this, X, Y
    {
      X != Y && |X.values| == |Y.values| && values == Products(X.values, Y.values)
    }

    constructor (name: string := "default")
      ensures Valid() && fresh(X) && fresh(Y)
      ensures this.name == name && values == [] && X.values == [] && Y.values == []
      ensures X.name == "X" && Y.name == "Y"
    {
      this.name := name;
      values := [];
      X := new TimeIndependentCounter("X");
      Y := new TimeIndependentCounter("Y");
    }

    /** Counts x into X, y into Y and their product into values. */
    method Count(x: real, y: real)
      requires Valid()
      modifies this, X, Y
      ensures Valid()
      ensures X.values == old(X.values) + [x] && Y.values == old(Y.values) + [y]
      ensures values == old(values) + [x * y]
      ensures name == old(name) && X.name == old(X.name) && Y.name == old(Y.name)
    {
      ProductsAppend(X.values, Y.values, x, y);
      X.Count(x);
      Y.Count(y);
      values := values + [x * y];
    }

    /** Empties the product list and both series. */
    method Reset()
      requires Valid()
      modifies this, X, Y
      ensures Valid()
      ensures values == [] && X.values == [] && Y.values == []
      ensures name == old(name) && X.name == old(X.name) && Y.name == old(Y.name)
    {
      values := [];
      X.Reset();
      Y.Reset();
    }

    /** The covariance as the counter evaluates it, (Σ x·y - n·mean X·mean Y) / n, which
        is the centred covariance with divisor n. */
    function GetCov(): (c: real)
      reads this, X, Y
      requires Valid() && |values| > 0
      ensures c == Cov(X.values, Y.values)
    {
      CovFromProducts(X.values, Y.values);
      RawCov(Sum(values), |values| as real, X.GetMean(), Y.GetMean())
    }
  }

  /** Counts one series X and computes its autocovariance for a lag, using a rotation
      of X by lag mod (maxLag + 1). */
  class TimeIndependentAutocorrelationCounter {
    var name: string
    var values: seq<real>
    const X: TimeIndependentCounter
    var maxLag: nat

    constructor (name: string := "default", maxLag: nat := 10)
      ensures fresh(X)
      ensures this.name == name && values == [] && X.values == [] && X.name == "X"
      ensures this.maxLag == maxLag
    {
      this.name := name;
      values := [];
      X := new TimeIndependentCounter("X");
      this.maxLag := maxLag;
    }

    /** Counts x into the series; nothing else changes. */
    method Count(x: real)
      modifies X
      ensures X.values == old(X.values) + [x] && X.name == old(X.name)
    {
      X.Count(x);
    }

    /** Empties the product list and the series. */
    method Reset()
      modifies this, X
      ensures values == [] && X.values == [] && X.name == old(X.name)
      ensures name == old(name) && maxLag == old(maxLag)
    {
      values := [];
      X.Reset();
    }

    /** Changes the maximum lag, and so the rotation cycle length maxLag + 1. */
    method SetMaxLag(maxLag: nat)
      modifies this
      ensures this.maxLag == maxLag
      ensures values == old(values) && name == old(name)
    {
      this.maxLag := maxLag;
    }

    /** Rebuilds values as the products Roll(X, lag mod (maxLag + 1))[i] * X[i] for i in
        [lag, n) and returns their raw moment centred with the mean of X. For lag <= maxLag
        the pairs are exactly X[i - lag] * X[i] (Stats.LagProductsWithinMaxLag). */
    method GetAutoCov(lag: nat) returns (c: real)
      requires lag < |X.values|
      modifies this
      ensures values == LagProducts(X.values, Wrap(lag, maxLag + 1), lag)
      ensures c == AutoCov(X.values, Wrap(lag, maxLag + 1), lag)
      ensures X.values == old(X.values) && maxLag == old(maxLag) && name == old(name)
    {
      var products;
      products, c := LaggedAutoCov(X.values, Wrap(lag, maxLag + 1), lag);
      values := products;
    }

    /** The autocorrelation: the autocovariance over the sample variance of X, which
        sqrt(var) * sqrt(var) equals. At lag 0 it is (n - 1) / n (Stats.AutoCorLagZero). */
    method GetAutoCor(lag: nat) returns (r: real)
      requires lag < |X.values| && |X.values| >= 2 && SampleVar(X.values) != 0.0
      modifies this
      ensures values == LagProducts(X.values, Wrap(lag, maxLag + 1), lag)
      ensures r == AutoCov(X.values, Wrap(lag, maxLag + 1), lag) / SampleVar(X.values)
      ensures X.values == old(X.values) && maxLag == old(maxLag) && name == old(name)
    {
      var c := GetAutoCov(lag);
      var v := SampleVar(X.values);
      r := c / v;
    }
  }

  /** The body of get_auto_cov: the lagged products of the series rotated by k, and their
      raw moment centred with the mean of the whole series. */
  method LaggedAutoCov(xs: seq<real>, k: nat, lag: nat) returns (products: seq<real>, c: real)
    requires lag < |xs|
    ensures products == LagProducts(xs, k, lag)
    ensures c == AutoCov(xs, k, lag)
  {
    products := LaggedProducts(xs, k, lag);
    AutoCovOfProducts(xs, k, lag, products);
    var length := |products| as real;
    c := RawCov(Sum(products), length, Mean(xs), Mean(xs));
  }

  /** The loop of get_auto_cov: rotate the series by k, then collect the pairs
      rotated[i] * xs[i] for i in [lag, n). */
  method LaggedProducts(xs: seq<real>, k: nat, lag: nat) returns (products: seq<real>)
    requires lag <= |xs|
    ensures products == LagProducts(xs, k, lag)
  {
    var xLag := Roll(xs, k);
    ghost var target := LagProducts(xs, k, lag);
    products := [];
    for i := lag to |xs|
      invariant products == target[..i - lag]
    {
      LagProductsPrefix(xs, xLag, k, lag, i);
      products := products + [xLag[i] * xs[i]];
    }
    assert target[..|xs| - lag] == target;
  }

  /** The mean GetMean returns, the weighted sum over the window, lies between any bounds
      of the counted values when no duration is negative and the window is not empty. */
  lemma TimeDependentMeanBounds(t: TimeDependentCounter, lo: real, hi: real)
    requires t.Valid() && NonNegDurations(t.values) && t.lastTimestamp > t.firstTimestamp
    requires LevelsWithin(t.values, lo, hi)
    ensures lo <= WeightedSum(t.values) / (t.lastTimestamp - t.firstTimestamp) <= hi
  {
    TimeMeanBounds(t.values, lo, hi);
  }

  /** After a reset at time 0, counting 5 at time 1 and 9 at time 3 gives the mean 23/3. */
  method TimeDependentExample() returns (m: real)
    ensures m == 23.0 / 3.0
  {
    var tdc := new TimeDependentCounter("example");
    tdc.Reset(0.0);
    tdc.Count(1.0, 5.0);
    tdc.Count(3.0, 9.0);
    assert tdc.values == [(1.0, 5.0), (2.0, 9.0)];
    TimeMeanExample();
    m := tdc.GetMean();
  }

  /** The series 5, 5, 5, 5 has autocovariance 0 at every lag up to the maximum lag 2. */
  method ConstantAutoCovExample() returns (c0: real, c1: real, c2: real)
    ensures c0 == 0.0 && c1 == 0.0 && c2 == 0.0
  {
    var acc := new TimeIndependentAutocorrelationCounter("example", 2);
    acc.Count(5.0);
    acc.Count(5.0);
    acc.Count(5.0);
    acc.Count(5.0);
    assert acc.X.values == [5.0, 5.0, 5.0, 5.0];
    assert IsConstant(acc.X.values);
    AutoCovConstant(acc.X.values, 0, 0);
    AutoCovConstant(acc.X.values, 1, 1);
    AutoCovConstant(acc.X.values, 2, 2);
    c0 := acc.GetAutoCov(0);
    c1 := acc.GetAutoCov(1);
    c2 := acc.GetAutoCov(2);
  }
}
