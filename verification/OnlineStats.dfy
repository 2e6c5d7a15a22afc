/** Running statistics in one pass, against sums over all the values. */
module OnlineStats {
  import opened Wrappers

  function Sum(xs: seq<real>): real {
    if xs == [] then 0.0 else Sum(xs[..|xs| - 1]) + xs[|xs| - 1]
  }

  function Times(a: real, b: real): real {
    a * b
  }

  function SumOfSquares(xs: seq<real>): real {
    if xs == [] then 0.0 else SumOfSquares(xs[..|xs| - 1]) + Times(xs[|xs| - 1], xs[|xs| - 1])
  }

  /** The sum of squared distances from `m`. */
  function Spread(xs: seq<real>, m: real): real {
    if xs == [] then 0.0 else Spread(xs[..|xs| - 1], m) + Times(xs[|xs| - 1] - m, xs[|xs| - 1] - m)
  }

  /** The spread about `m` by the two sums alone. */
  function SpreadOf(n: nat, sum: real, squares: real, m: real): real {
    squares - 2.0 * m * sum + n as real * (m * m)
  }

  lemma {:induction false} SpreadExpanded(xs: seq<real>, m: real)
    ensures Spread(xs, m) == SpreadOf(|xs|, Sum(xs), SumOfSquares(xs), m)
  {
    if xs != [] {
      var init, x := xs[..|xs| - 1], xs[|xs| - 1];
      SpreadExpanded(init, m);
      SpreadGrows(|init|, Sum(init), SumOfSquares(init), x, m);
    }
  }

  lemma SpreadGrows(n: nat, sum: real, squares: real, x: real, m: real)
    ensures SpreadOf(n + 1, sum + x, squares + Times(x, x), m) == SpreadOf(n, sum, squares, m) + Times(x - m, x - m)
  {
    assert (n + 1) as real * (m * m) == n as real * (m * m) + m * m;
    assert 2.0 * m * (sum + x) == 2.0 * m * sum + 2.0 * (m * x);
  }

  function NextMean(mean: real, v: real, n: nat): real
    requires n >= 1
  {
    mean + (v - mean) / n as real
  }

  function NextM2(m2: real, v: real, mean: real, mean': real): real {
    m2 + Times(v - mean, v - mean')
  }

  /** The mean is the n-th part of the sum, and `m2` the second moment about it. */
  predicate Fits(n: nat, sum: real, squares: real, mean: real, m2: real) {
    Times(mean, n as real) == sum && m2 == squares - Times(mean, sum)
  }

  /** The two updates keep the mean and the second moment. */
  lemma UpdateIsExact(n: nat, sum: real, squares: real, mean: real, m2: real, v: real)
    requires Fits(n, sum, squares, mean, m2)
    ensures var mean' := NextMean(mean, v, n + 1);
            Fits(n + 1, sum + v, squares + Times(v, v), mean', NextM2(m2, v, mean, mean'))
  {
    var k := (n + 1) as real;
    var mean' := NextMean(mean, v, n + 1);
    NewMean(mean, v, n, sum);
    Residual(k, sum, mean, mean', v);
    Rearranged(sum, squares, mean, mean', m2, v);
  }

  lemma Rearranged(sum: real, squares: real, mean: real, mean': real, m2: real, v: real)
    requires m2 == squares - Times(mean, sum)
    requires mean * (mean' - v) == mean * sum - mean' * sum
    ensures NextM2(m2, v, mean, mean') == (squares + Times(v, v)) - Times(mean', sum + v)
  {
    assert (v - mean) * (v - mean') == v * v - v * mean' + mean * (mean' - v);
    assert mean' * (sum + v) == mean' * sum + mean' * v;
  }

  lemma NewMean(mean: real, v: real, n: nat, sum: real)
    requires Times(mean, n as real) == sum
    ensures var k := (n + 1) as real;
            NextMean(mean, v, n + 1) * k == sum + v && mean * k == sum + mean
  {
    var k := (n + 1) as real;
    assert ((v - mean) / k) * k == v - mean;
    assert mean * k == mean * (n as real) + mean;
  }

  lemma Residual(k: real, sum: real, mean: real, mean': real, v: real)
    requires k >= 1.0 && mean' * k == sum + v && mean * k == sum + mean
    ensures mean * (mean' - v) == mean * sum - mean' * sum
  {
    assert mean' * k - mean * k == v - mean;
    assert (mean' - mean) * k == v - mean;
    assert sum == mean * k - mean;
    assert (mean - mean') * sum == (mean - mean') * (mean * k) - (mean - mean') * mean;
    assert (mean - mean') * (mean * k) == mean * ((mean - mean') * k);
    assert (mean - mean') * k == mean - v;
    assert mean * (mean - v) - (mean - mean') * mean == mean * (mean' - v);
  }

  ghost predicate Moments(n: nat, mean: real, m2: real, values: seq<real>) {
    n == |values| && Fits(n, Sum(values), SumOfSquares(values), mean, m2)
  }

  ghost predicate Extremes(least: Option<real>, largest: Option<real>, values: seq<real>) {
    && (least.None? <==> values == []) && (largest.None? <==> values == [])
    && (least.Some? ==> least.value in values && (forall x | x in values :: least.value <= x))
    && (largest.Some? ==> largest.value in values && (forall x | x in values :: x <= largest.value))
  }

  ghost predicate Summarises(n: nat, mean: real, m2: real, least: Option<real>, largest: Option<real>, values: seq<real>) {
    Moments(n, mean, m2, values) && Extremes(least, largest, values)
  }

  lemma MomentsExtend(n: nat, mean: real, m2: real, values: seq<real>, v: real)
    requires Moments(n, mean, m2, values)
    ensures var mean' := NextMean(mean, v, n + 1);
            Moments(n + 1, mean', NextM2(m2, v, mean, mean'), values + [v])
  {
  }

  lemma ExtremesExtend(least: Option<real>, largest: Option<real>, values: seq<real>, v: real)
    requires Extremes(least, largest, values)
    ensures Extremes(if least.None? || v < least.value then Some(v) else least,
                     if largest.None? || v > largest.value then Some(v) else largest, values + [v])
  {
  }

  lemma MomentIsSpread(n: nat, mean: real, m2: real, values: seq<real>)
    requires Moments(n, mean, m2, values)
    ensures m2 == Spread(values, mean)
  {
    SpreadExpanded(values, mean);
    FitsCollects(n, Sum(values), SumOfSquares(values), mean, m2);
  }

  lemma FitsCollects(n: nat, sum: real, squares: real, mean: real, m2: real)
    requires Fits(n, sum, squares, mean, m2)
    ensures m2 == SpreadOf(n, sum, squares, mean)
  {
    Collect(squares, mean, sum, n as real);
  }

  lemma Collect(squares: real, m: real, sum: real, k: real)
    requires Times(m, k) == sum
    ensures squares - 2.0 * m * sum + k * (m * m) == squares - Times(m, sum)
  {
    assert k * (m * m) == m * (m * k);
    assert 2.0 * m * sum == 2.0 * (m * sum);
  }

  lemma NothingSummarised(n: nat, mean: real, m2: real, least: Option<real>, largest: Option<real>, values: seq<real>)
    requires n == 0 && mean == 0.0 && m2 == 0.0 && least == None && largest == None && values == []
    ensures Summarises(n, mean, m2, least, largest, values)
  {
  }

  // ---- Which variance is reported ----

  function MeanOf(xs: seq<real>): real
    requires xs != []
  {
    Sum(xs) / |xs| as real
  }

  function PopulationVariance(xs: seq<real>): real
    requires xs != []
  {
    Spread(xs, MeanOf(xs)) / |xs| as real
  }

  /** Squared deviations over n - 1, and 0 for a single value. */
  function SampleVariance(xs: seq<real>): real
    requires xs != []
  {
    if |xs| == 1 then 0.0 else Spread(xs, MeanOf(xs)) / (|xs| - 1) as real
  }

  predicate AllEqual(xs: seq<real>) {
    forall i, j | 0 <= i < |xs| && 0 <= j < |xs| :: xs[i] == xs[j]
  }

  predicate AllAre(xs: seq<real>, c: real) {
    forall i | 0 <= i < |xs| :: xs[i] == c
  }

  lemma Square(a: real)
    ensures Times(a, a) >= 0.0 && (Times(a, a) == 0.0 <==> a == 0.0)
  {
    if a > 0.0 {
      Positive(a, a);
    } else if a < 0.0 {
      Positive(-a, -a);
      assert Times(-a, -a) == Times(a, a);
    }
  }

  lemma Positive(a: real, b: real)
    requires a > 0.0 && b > 0.0
    ensures Times(a, b) > 0.0
  {
  }

  /** There is no spread about `m` exactly when every value is `m`. */
  lemma {:induction false} SpreadIsZeroIff(xs: seq<real>, m: real)
    ensures Spread(xs, m) >= 0.0
    ensures Spread(xs, m) == 0.0 <==> AllAre(xs, m)
  {
    if xs != [] {
      var init, x := xs[..|xs| - 1], xs[|xs| - 1];
      SpreadIsZeroIff(init, m);
      Square(x - m);
      assert AllAre(xs, m) <==> AllAre(init, m) && x == m;
    }
  }

  lemma {:induction false} SumOfEqual(xs: seq<real>, c: real)
    requires AllAre(xs, c)
    ensures Sum(xs) == Times(|xs| as real, c)
  {
    if xs != [] {
      SumOfEqual(xs[..|xs| - 1], c);
      assert |xs| as real == (|xs| - 1) as real + 1.0;
    }
  }

  lemma MeanOfEqual(sum: real, n: real, c: real)
    requires n >= 1.0 && sum == Times(n, c)
    ensures sum / n == c
  {
  }

  /** The spread about the mean vanishes exactly when all values are equal. */
  lemma NoSpreadIff(xs: seq<real>)
    requires xs != []
    ensures Spread(xs, MeanOf(xs)) == 0.0 <==> AllEqual(xs)
  {
    SpreadIsZeroIff(xs, MeanOf(xs));
    if AllEqual(xs) {
      SumOfEqual(xs, xs[0]);
      MeanOfEqual(Sum(xs), |xs| as real, xs[0]);
    }
  }

  lemma MeanIsMean(n: nat, mean: real, m2: real, values: seq<real>)
    requires Moments(n, mean, m2, values) && n >= 1
    ensures mean == MeanOf(values)
  {
    MeanOfEqual(Sum(values), n as real, mean);
  }

  lemma QuotientsDiffer(spread: real, a: real, b: real)
    requires spread >= 0.0 && 1.0 <= a < b
    ensures spread / a == spread / b <==> spread == 0.0
  {
    var x, y := spread / a, spread / b;
    assert x * a == spread && y * b == spread;
    if x == y {
      assert x * (b - a) == 0.0;
    }
  }

  /** The variance reported is the population variance if and only if all values are equal. */
  lemma SampleIsPopulationIff(xs: seq<real>)
    requires xs != []
    ensures SampleVariance(xs) == PopulationVariance(xs) <==> AllEqual(xs)
  {
    SpreadIsZeroIff(xs, MeanOf(xs));
    NoSpreadIff(xs);
    if |xs| >= 2 {
      QuotientsDiffer(Spread(xs, MeanOf(xs)), (|xs| - 1) as real, |xs| as real);
    }
  }

  /** Of 0 and 2 the population variance is 1; what is reported is 2. */
  lemma TwoValuesDiffer()
    ensures PopulationVariance([0.0, 2.0]) == 1.0 && SampleVariance([0.0, 2.0]) == 2.0
  {
    var xs := [0.0, 2.0];
    assert xs[..1] == [0.0] && xs[..1][..0] == [];
    assert Sum(xs[..1]) == 0.0 && Sum(xs) == 2.0 && MeanOf(xs) == 1.0;
    assert Spread(xs[..1], 1.0) == 1.0 && Spread(xs, 1.0) == 2.0;
  }

  class Welford {
    var n: nat
    var mean: real
    var m2: real
    var least: Option<real>
    var largest: Option<real>
    ghost var values: seq<real>

    /** The fields are the count, mean, squared deviation and extremes of all values added, in whatever order. */
    ghost predicate Valid()
      reads this
    {
      Summarises(n, mean, m2, least, largest, values)
    }

    constructor ()
      ensures Valid() && values == []
    {
      n, mean, m2, least, largest, values := 0, 0.0, 0.0, None, None, [];
      new;
      NothingSummarised(n, mean, m2, least, largest, values);
    }

    method Add(v: real)
      requires Valid()
      modifies this
      ensures Valid() && values == old(values) + [v]
    {
      MomentsExtend(n, mean, m2, values, v);
      ExtremesExtend(least, largest, values, v);
      n := n + 1;
      var before := mean;
      mean := NextMean(mean, v, n);
      m2 := NextM2(m2, v, before, mean);
      if least.None? || v < least.value {
        least := Some(v);
      }
      if largest.None? || v > largest.value {
        largest := Some(v);
      }
      values := values + [v];
    }

    /** The squared standard deviation reported: the sample variance, which is the population's only for equal values. */
    method ReportedVariance() returns (variance: Option<real>)
      requires Valid()
      ensures variance == if values == [] then None else Some(SampleVariance(values))
      ensures variance.Some? ==> (variance.value == PopulationVariance(values) <==> AllEqual(values))
    {
      if n == 0 {
        return None;
      }
      MomentIsSpread(n, mean, m2, values);
      MeanIsMean(n, mean, m2, values);
      SampleIsPopulationIff(values);
      if n >= 2 {
        variance := Some(m2 / (n - 1) as real);
      } else {
        variance := Some(0.0);
      }
    }
  }
}
