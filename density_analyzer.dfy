/**
 * The density analyzer stage: a Gaussian kernel density estimate sampled on
 * an evenly spaced grid from the smallest to the largest input value.
 *
 * The kernel, `Math.sqrt`, `Math.pow` and the Silverman bandwidth are floating
 * point and stay abstract: the model keeps the exact mean and variance, the
 * fact that the bandwidth `1.06 * sqrt(variance) * n^(-1/5)` is zero exactly
 * when the variance is, and otherwise treats the estimate as an arbitrary
 * partial function `est` (None standing for a NaN evaluation).
 */
module DensityAnalyzer {
  import opened JsValue

  const InvalidInputMessage := "Invalid input data. Expected a non-empty array."
  const EmptyStdMessage := "Cannot calculate standard deviation of an empty array."
  const NumericalErrorMessage := "Numerical error during density estimation."

  /** `data.reduce((sum, xi) => sum + xi, 0)`, a left fold. */
  function Sum(s: seq<real>): real
  {
    if |s| == 0 then 0.0 else Sum(s[..|s| - 1]) + s[|s| - 1]
  }

  /** `data.reduce((sum, xi) => sum + Math.pow(xi - mean, 2), 0)`. */
  function SumSquaredDeviations(s: seq<real>, mean: real): (r: real)
    ensures r >= 0.0
  {
    if |s| == 0 then 0.0
    else SumSquaredDeviations(s[..|s| - 1], mean) + Square(s[|s| - 1] - mean)
  }

  /** `n * c` as `n` repeated additions of `c`. */
  function Times(n: nat, c: real): real
  {
    if n == 0 then 0.0 else Times(n - 1, c) + c
  }

  lemma {:induction false} TimesIsProduct(n: nat, c: real)
    ensures Times(n, c) == n as real * c
  {
    if n > 0 {
      TimesIsProduct(n - 1, c);
    }
  }

  /** The sum of `n` values between `lo` and `hi` lies between `n * lo` and `n * hi`. */
  lemma {:induction false} SumBounds(s: seq<real>, lo: real, hi: real)
    requires forall i :: 0 <= i < |s| ==> lo <= s[i] <= hi
    ensures Times(|s|, lo) <= Sum(s) <= Times(|s|, hi)
  {
    if |s| > 0 {
      SumBounds(s[..|s| - 1], lo, hi);
    }
  }

  /** Dividing by a positive `n` keeps a value bounded by `n * lo` and `n * hi` between `lo` and `hi`. */
  lemma QuotientBounds(total: real, n: nat, lo: real, hi: real)
    requires n > 0 && Times(n, lo) <= total <= Times(n, hi)
    ensures lo <= total / n as real <= hi
  {
    TimesIsProduct(n, lo);
    TimesIsProduct(n, hi);
    var m := n as real;
    var q := total / m;
    assert total == m * q;
    assert m * (q - lo) >= 0.0;
    assert m * (hi - q) >= 0.0;
  }

  /** `sum / n`: the arithmetic mean, which lies between the smallest and the largest value. */
  function Mean(s: seq<real>): (m: real)
    requires |s| > 0
    ensures Min(s) <= m <= Max(s)
  {
    var lo, hi := Min(s), Max(s);
    SumBounds(s, lo, hi);
    QuotientBounds(Sum(s), |s|, lo, hi);
    Sum(s) / |s| as real
  }

  /** The population variance: the mean of the squared deviations from the mean. */
  function Variance(s: seq<real>): (v: real)
    requires |s| > 0
    ensures v >= 0.0
  {
    SumSquaredDeviations(s, Mean(s)) / |s| as real
  }

  /** All values of the series are equal. */
  ghost predicate Constant(s: seq<real>)
  {
    forall i, j :: 0 <= i < |s| && 0 <= j < |s| ==> s[i] == s[j]
  }

  /**
   * `calculateStd` up to its final `Math.sqrt`: throws on the empty array,
   * otherwise yields the variance, which is never negative and is zero exactly
   * for a constant series.
   */
  function CalculateVariance(data: seq<real>): (r: Result<real>)
    ensures r.Err? <==> |data| == 0
    ensures r.Err? ==> r.error == Error(EmptyStdMessage)
    ensures r.Ok? ==> r.value >= 0.0 && (r.value == 0.0 <==> Constant(data))
  {
    var n := |data|;
    if n == 0 then Err(Error(EmptyStdMessage))
    else
      VarianceZeroIffConstant(data);
      Ok(Variance(data))
  }

  lemma {:induction false} SumOfConstant(s: seq<real>, c: real)
    requires forall i :: 0 <= i < |s| ==> s[i] == c
    ensures Sum(s) == |s| as real * c
  {
    if |s| > 0 {
      SumOfConstant(s[..|s| - 1], c);
    }
  }

  lemma {:induction false} SumSquaredDeviationsZero(s: seq<real>, mean: real)
    ensures SumSquaredDeviations(s, mean) == 0.0 <==> forall i :: 0 <= i < |s| ==> s[i] == mean
  {
    if |s| > 0 {
      var init := s[..|s| - 1];
      SumSquaredDeviationsZero(init, mean);
      assert forall i :: 0 <= i < |init| ==> s[i] == init[i];
    }
  }

  lemma VarianceZeroIffConstant(s: seq<real>)
    requires |s| > 0
    ensures Variance(s) >= 0.0
    ensures Variance(s) == 0.0 <==> Constant(s)
  {
    SumSquaredDeviationsZero(s, Mean(s));
    if Constant(s) {
      SumOfConstant(s, s[0]);
      assert Mean(s) == s[0];
    }
  }

  /** `Math.min(...data)` over a non-empty numeric array. */
  function Min(s: seq<real>): (m: real)
    requires |s| > 0
    ensures m in s
    ensures forall i :: 0 <= i < |s| ==> m <= s[i]
  {
    if |s| == 1 then s[0]
    else
      var rest := Min(s[1..]);
      assert forall i :: 1 <= i < |s| ==> s[i] == s[1..][i - 1];
      if s[0] <= rest then s[0] else rest
  }

  /** `Math.max(...data)` over a non-empty numeric array. */
  function Max(s: seq<real>): (m: real)
    requires |s| > 0
    ensures m in s
    ensures forall i :: 0 <= i < |s| ==> s[i] <= m
  {
    if |s| == 1 then s[0]
    else
      var rest := Max(s[1..]);
      assert forall i :: 1 <= i < |s| ==> s[i] == s[1..][i - 1];
      if s[0] >= rest then s[0] else rest
  }

  /** The numbers held by an array whose elements are all numbers. */
  function Numbers(xs: seq<Value>): (s: seq<real>)
    requires forall i :: 0 <= i < |xs| ==> xs[i].Num?
    ensures |s| == |xs|
    ensures forall i :: 0 <= i < |xs| ==> xs[i] == Num(s[i])
  {
    seq(|xs|, i requires 0 <= i < |xs| => xs[i].n)
  }

  /**
   * `kde(data, bandwidth)`: the density function built from the data. With a
   * zero bandwidth every evaluation is `0/0` or `Infinity * 0`, i.e. NaN; with
   * a positive one it is the abstract estimate `est`.
   */
  function Kde(variance: real, est: real -> Option<real>): (density: real -> Option<real>)
    ensures variance == 0.0 ==> forall x :: density(x).None?
    ensures variance != 0.0 ==> forall x :: density(x) == est(x)
  {
    x => if variance == 0.0 then None else est(x)
  }

  /** `(maxX - minX) / 100`: the grid spacing, a hundredth of the range. */
  function Step(minX: real, maxX: real): (step: real)
    ensures maxX - minX == 100.0 * step
  {
    (maxX - minX) / 100.0
  }

  /** The `k`-th sampling abscissa `minX + k * step` (exact arithmetic). */
  function Grid(lo: real, step: real, k: nat): real
  {
    lo + k as real * step
  }

  /** Some grid point not beyond `hi` evaluates to NaN. */
  ghost predicate NaNOnGrid(d: real -> Option<real>, lo: real, hi: real, step: real)
  {
    exists k: nat :: Grid(lo, step, k) <= hi && d(Grid(lo, step, k)).None?
  }

  /**
   * `points` are the grid points `lo, lo + step, ...` that do not exceed `hi`,
   * in visiting order, each paired with its density.
   */
  ghost predicate SampledGrid(points: seq<Point>, d: real -> Option<real>, lo: real, hi: real, step: real)
  {
    && (forall i: nat :: i < |points| ==>
          points[i].x == Grid(lo, step, i) && Grid(lo, step, i) <= hi && d(Grid(lo, step, i)) == Some(points[i].y))
    && Grid(lo, step, |points|) > hi
  }

  /**
   * What sampling `d` from `lo` towards `hi` by `step` yields: the complete
   * grid when no grid point evaluates to NaN, otherwise the numerical error
   * and no points at all.
   */
  ghost predicate SampleResult(d: real -> Option<real>, lo: real, hi: real, step: real, r: Result<seq<Point>>)
  {
    && (r.Ok? <==> !NaNOnGrid(d, lo, hi, step))
    && (r.Ok? ==> SampledGrid(r.value, d, lo, hi, step))
    && (r.Err? ==> r.error == Error(NumericalErrorMessage))
  }

  /** What the sampling loop of `analyzeAndVisualizeData` yields on a non-empty series. */
  ghost predicate SamplingOutcome(xs: seq<real>, est: real -> Option<real>, r: Result<seq<Point>>)
    requires |xs| > 0
  {
    SampleResult(Kde(Variance(xs), est), Min(xs), Max(xs), Step(Min(xs), Max(xs)), r)
  }

  lemma GridNext(lo: real, step: real, k: nat)
    ensures Grid(lo, step, k + 1) == Grid(lo, step, k) + step
  {
    assert (k + 1) as real * step == k as real * step + step;
  }

  lemma GridMonotone(lo: real, step: real, i: nat, j: nat)
    requires step >= 0.0 && i <= j
    ensures Grid(lo, step, i) <= Grid(lo, step, j)
  {
    assert (j - i) as real * step >= 0.0;
    assert j as real * step == i as real * step + (j - i) as real * step;
  }

  lemma GridStrictlyIncreasing(lo: real, step: real, i: nat, j: nat)
    requires step > 0.0 && i < j
    ensures Grid(lo, step, i) < Grid(lo, step, j)
  {
    assert (j - i) as real * step > 0.0;
    assert j as real * step == i as real * step + (j - i) as real * step;
  }

  /** With `step = (hi - lo) / 100 > 0` at most the indices `0..100` stay within `hi`. */
  lemma GridBound(lo: real, hi: real, step: real, k: nat)
    requires step > 0.0 && hi - lo == 100.0 * step
    requires Grid(lo, step, k) <= hi
    ensures k <= 100
  {
  }

  /** A series whose minimum equals its maximum is constant, so its density is NaN everywhere. */
  lemma EqualBoundsIsNaN(xs: seq<real>, est: real -> Option<real>, x: real)
    requires |xs| > 0 && Min(xs) == Max(xs)
    ensures Kde(Variance(xs), est)(x).None?
  {
    assert Constant(xs);
    VarianceZeroIffConstant(xs);
  }

  /** Sampling the density of `xs` over its own range is the outcome of `xs`. */
  lemma SamplingOutcomeIntro(xs: seq<real>, est: real -> Option<real>, d: real -> Option<real>,
                             lo: real, hi: real, step: real, r: Result<seq<Point>>)
    requires |xs| > 0 && d == Kde(Variance(xs), est)
    requires lo == Min(xs) && hi == Max(xs) && step == Step(lo, hi)
    requires SampleResult(d, lo, hi, step, r)
    ensures SamplingOutcome(xs, est, r)
  {
  }

  /**
   * The loop `for (x = minX; x <= maxX; x += step)` of
   * `analyzeAndVisualizeData`: pushes `{x, y}` for each visited `x` and
   * aborts on the first NaN, discarding the points gathered so far. A zero
   * step only occurs when the first evaluation is already NaN.
   */
  method SampleDensity(densityEstimate: real -> Option<real>, minX: real, maxX: real, step: real)
    returns (r: Result<seq<Point>>)
    requires minX <= maxX && maxX - minX == 100.0 * step
    requires step == 0.0 ==> densityEstimate(minX).None?
    ensures SampleResult(densityEstimate, minX, maxX, step, r)
  {
    var densityData: seq<Point> := [];
    var x := minX;
    ghost var k: nat := 0;
    while x <= maxX
      invariant x == Grid(minX, step, k)
      invariant k <= 101
      invariant step == 0.0 ==> k == 0
      invariant |densityData| == k
      invariant forall i: nat :: i < k ==>
        densityData[i].x == Grid(minX, step, i) && Grid(minX, step, i) <= maxX &&
        densityEstimate(Grid(minX, step, i)) == Some(densityData[i].y)
      decreases 101 - k
    {
      var y := densityEstimate(x);
      if y.None? {
        assert Grid(minX, step, k) <= maxX && densityEstimate(Grid(minX, step, k)).None?;
        r := Err(Error(NumericalErrorMessage));
        return;
      }
      densityData := densityData + [Point(x, y.value)];
      GridBound(minX, maxX, step, k);
      GridNext(minX, step, k);
      x := x + step;
      k := k + 1;
    }
    forall j: nat | Grid(minX, step, j) <= maxX
      ensures densityEstimate(Grid(minX, step, j)).Some?
    {
      if j >= k {
        GridMonotone(minX, step, k, j);
      }
    }
    r := Ok(densityData);
    assert SampledGrid(densityData, densityEstimate, minX, maxX, step);
  }

  /**
   * `DensityAnalyzer.analyzeAndVisualizeData`: the input guard, the variance
   * behind the bandwidth, the density function, the grid bounds and the
   * sampling loop; an error thrown inside is rethrown unchanged.
   */
  method AnalyzeAndVisualizeData(data: Value, est: real -> Option<real>) returns (r: Result<seq<Point>>)
    requires data.Arr? ==> forall i :: 0 <= i < |data.elems| ==> data.elems[i].Num?
    ensures !data.Arr? || |data.elems| == 0 ==> r == Err(Error(InvalidInputMessage))
    ensures data.Arr? && |data.elems| > 0 ==> SamplingOutcome(Numbers(data.elems), est, r)
  {
    if !data.Arr? || |data.elems| == 0 {
      return Err(Error(InvalidInputMessage));
    }
    var xs := Numbers(data.elems);
    // The guard above already rules out the empty array that makes calculateStd throw.
    var std := CalculateVariance(xs);
    var variance := std.value;
    var densityEstimate := Kde(variance, est);
    var minX := Min(xs);
    var maxX := Max(xs);
    var step := Step(minX, maxX);
    if step == 0.0 {
      EqualBoundsIsNaN(xs, est, minX);
    }
    r := SampleDensity(densityEstimate, minX, maxX, step);
    SamplingOutcomeIntro(xs, est, densityEstimate, minX, maxX, step, r);
  }

  /** A constant series has zero bandwidth, so sampling always ends in the numerical error. */
  lemma ConstantInputFails(xs: seq<real>, est: real -> Option<real>, r: Result<seq<Point>>)
    requires |xs| > 0 && Constant(xs)
    requires SamplingOutcome(xs, est, r)
    ensures r == Err(Error(NumericalErrorMessage))
  {
    VarianceZeroIffConstant(xs);
    var lo, hi := Min(xs), Max(xs);
    var step := Step(lo, hi);
    assert Grid(lo, step, 0) == lo <= hi;
  }

  lemma PositiveFactor(n: real, step: real)
    requires n >= 0.0 && n * step > 0.0
    ensures step > 0.0
  {
  }

  /**
   * A grid sampled up to `hi` ends with a point beyond `hi`, so its step,
   * a hundredth of the range, is positive.
   */
  lemma SampledGridNeedsPositiveStep(points: seq<Point>, d: real -> Option<real>, lo: real, hi: real)
    requires lo <= hi
    requires SampledGrid(points, d, lo, hi, Step(lo, hi))
    ensures lo < hi
  {
    var step := Step(lo, hi);
    assert lo <= hi < Grid(lo, step, |points|);
    PositiveFactor(|points| as real, step);
  }

  /** Sampling only succeeds on a series that is not constant. */
  lemma SuccessNeedsPositiveStep(xs: seq<real>, est: real -> Option<real>, r: Result<seq<Point>>)
    requires |xs| > 0 && r.Ok?
    requires SamplingOutcome(xs, est, r)
    ensures Min(xs) < Max(xs)
  {
    SampledGridNeedsPositiveStep(r.value, Kde(Variance(xs), est), Min(xs), Max(xs));
  }

  /**
   * A sampled grid starts at `lo`, advances by exactly the step, strictly
   * increases, and never passes `hi`.
   */
  lemma SampledGridShape(points: seq<Point>, d: real -> Option<real>, lo: real, hi: real)
    requires lo <= hi
    requires SampledGrid(points, d, lo, hi, Step(lo, hi))
    ensures |points| > 0 && points[0].x == lo
    ensures forall i :: 0 <= i < |points| ==> lo <= points[i].x <= hi
    ensures forall i :: 0 <= i < |points| - 1 ==> points[i + 1].x == points[i].x + Step(lo, hi)
    ensures forall i, j :: 0 <= i < j < |points| ==> points[i].x < points[j].x
  {
    var step := Step(lo, hi);
    SampledGridNeedsPositiveStep(points, d, lo, hi);
    assert Grid(lo, step, 0) == lo;
    forall i | 0 <= i < |points|
      ensures lo <= points[i].x
    {
      GridMonotone(lo, step, 0, i);
    }
    forall i | 0 <= i < |points| - 1
      ensures points[i + 1].x == points[i].x + step
    {
      GridNext(lo, step, i);
    }
    forall i, j | 0 <= i < j < |points|
      ensures points[i].x < points[j].x
    {
      GridStrictlyIncreasing(lo, step, i, j);
    }
  }
}
