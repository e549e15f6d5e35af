/** Per-channel statistics of the calibration fitter
    (software/kpixSw_3.00/root/calibrationFitter.cpp, class ChannelData):
    a histogram of baseline ADC values with their minimum and maximum, and
    running means and second moments (Welford's update) for the baseline
    and for each of the 256 calibration DAC levels. Arithmetic is exact
    (real), where the source uses double. */
module ChannelStats {

  // ---------------------------------------------------------------------
  // Two-pass statistics: the reference definitions
  // ---------------------------------------------------------------------

  function Sum(xs: seq<real>): real {
    if xs == [] then 0.0 else Sum(xs[..|xs| - 1]) + xs[|xs| - 1]
  }

  function SumSq(xs: seq<real>): real {
    if xs == [] then 0.0 else SumSq(xs[..|xs| - 1]) + xs[|xs| - 1] * xs[|xs| - 1]
  }

  /** The arithmetic mean (0 for no points). */
  function Mean(xs: seq<real>): real {
    if xs == [] then 0.0 else Sum(xs) / |xs| as real
  }

  /** Sum of squared deviations from `m`. */
  function SqDevFrom(xs: seq<real>, m: real): real {
    if xs == [] then 0.0
    else SqDevFrom(xs[..|xs| - 1], m) + (xs[|xs| - 1] - m) * (xs[|xs| - 1] - m)
  }

  /** Sum of squared deviations from the mean. */
  function SqDev(xs: seq<real>): real {
    SqDevFrom(xs, Mean(xs))
  }

  lemma {:induction false} SqDevFromNonNegative(xs: seq<real>, m: real)
    ensures SqDevFrom(xs, m) >= 0.0
  {
    if xs != [] {
      SqDevFromNonNegative(xs[..|xs| - 1], m);
      var d := xs[|xs| - 1] - m;
      assert d * d >= 0.0;
    }
  }

  /** (x - m)² added to the expanded form of a shorter sum. */
  lemma ExpandStep(q: real, s: real, k: real, m: real, x: real)
    ensures (q - 2.0 * m * s + k * m * m) + (x - m) * (x - m)
            == (q + x * x) - 2.0 * m * (s + x) + (k + 1.0) * m * m
  {
  }

  /** Σ(x - m)² = Σx² - 2mΣx + n·m². */
  lemma {:induction false} SqDevFromExpand(xs: seq<real>, m: real)
    ensures SqDevFrom(xs, m) == SumSq(xs) - 2.0 * m * Sum(xs) + |xs| as real * m * m
  {
    if xs != [] {
      var ys, x := xs[..|xs| - 1], xs[|xs| - 1];
      SqDevFromExpand(ys, m);
      ExpandStep(SumSq(ys), Sum(ys), |ys| as real, m, x);
    }
  }

  /** The mean times the number of points is their sum. */
  lemma MeanTimesCount(xs: seq<real>)
    ensures Mean(xs) * (|xs| as real) == Sum(xs)
  {
    if xs != [] {
      var s, n := Sum(xs), |xs| as real;
      assert Mean(xs) == s / n;
    }
  }

  /** Σ(x - mean)² = Σx² - n·mean². */
  lemma SqDevClosedForm(xs: seq<real>)
    ensures SqDev(xs) == SumSq(xs) - (|xs| as real) * Mean(xs) * Mean(xs)
  {
    var m, s, n := Mean(xs), Sum(xs), |xs| as real;
    MeanTimesCount(xs);
    SqDevFromExpand(xs, m);
    assert 2.0 * m * s == 2.0 * n * m * m;
  }

  // ---------------------------------------------------------------------
  // Welford's running update
  // ---------------------------------------------------------------------

  /** Running count, mean and second moment (sum of squared deviations). */
  datatype Moments = Moments(count: real, mean: real, m2: real)

  /** One point `x` added: count++, mean += (x - mean)/count,
      m2 += (x - old mean)(x - new mean) (lines 78-84 and 88-94). */
  function WelfordStep(m: Moments, x: real): Moments
    requires m.count >= 0.0
  {
    var count := m.count + 1.0;
    var mean := m.mean + (x - m.mean) / count;
    Moments(count, mean, m.m2 + (x - m.mean) * (x - mean))
  }

  /** The moments after adding the points of `xs` in order to a fresh
      accumulator. */
  function Accumulate(xs: seq<real>): (m: Moments)
    ensures m.count == |xs| as real
  {
    if xs == [] then Moments(0.0, 0.0, 0.0)
    else WelfordStep(Accumulate(xs[..|xs| - 1]), xs[|xs| - 1])
  }

  lemma SumAppend(xs: seq<real>, x: real)
    ensures Sum(xs + [x]) == Sum(xs) + x && SumSq(xs + [x]) == SumSq(xs) + x * x
  {
    assert (xs + [x])[..|xs|] == xs;
  }

  /** The algebra of one Welford step: with m' = m + (x - m)/(k + 1),
      (k + 1)m' = km + x, and a second moment in closed form q - km²
      becomes (q + x²) - (k + 1)m'². */
  lemma WelfordAlgebra(k: real, m: real, x: real, q: real)
    requires k >= 0.0
    ensures var m' := m + (x - m) / (k + 1.0);
            && (k + 1.0) * m' == k * m + x
            && (q - k * m * m) + (x - m) * (x - m') == q + x * x - (k + 1.0) * m' * m'
  {
    var c := k + 1.0;
    var d := x - m;
    var m' := m + d / c;
    assert c * (d / c) == d;
    assert c * m' == k * m + x;
    assert x - m' == d - d / c;
    assert c * (x - m') == k * d;
    assert c * ((q - k * m * m) + d * (x - m')) == c * q - c * k * m * m + k * d * d;
    assert c * (q + x * x - c * m' * m') == c * q + c * x * x - (k * m + x) * (k * m + x);
  }

  /** One Welford step from the exact moments of `xs` gives the exact
      moments of xs + [x]. */
  lemma WelfordStepExact(xs: seq<real>, x: real)
    ensures WelfordStep(Moments(|xs| as real, Mean(xs), SqDev(xs)), x)
            == Moments(|xs| as real + 1.0, Mean(xs + [x]), SqDev(xs + [x]))
  {
    var ys := xs + [x];
    var k, m, q := |xs| as real, Mean(xs), SumSq(xs);
    var m' := m + (x - m) / (k + 1.0);
    assert |ys| as real == k + 1.0;
    SumAppend(xs, x);
    MeanTimesCount(xs);
    MeanTimesCount(ys);
    WelfordAlgebra(k, m, x, q);
    assert Mean(ys) * (k + 1.0) == m' * (k + 1.0);
    CancelFactor(Mean(ys), m', k + 1.0);
    SqDevClosedForm(xs);
    SqDevClosedForm(ys);
  }

  /** a c = b c with c > 0 gives a = b. */
  lemma CancelFactor(a: real, b: real, c: real)
    requires c > 0.0 && a * c == b * c
    ensures a == b
  {
    assert (a - b) * c == 0.0;
  }

  /** Welford's identities: after any sequence of points the running mean
      is their arithmetic mean and the second moment is the sum of squared
      deviations from it, which is never negative. */
  lemma {:induction false} AccumulateIsTwoPass(xs: seq<real>)
    ensures Accumulate(xs) == Moments(|xs| as real, Mean(xs), SqDev(xs))
    ensures Accumulate(xs).m2 >= 0.0
  {
    if xs != [] {
      var ys := xs[..|xs| - 1];
      AccumulateIsTwoPass(ys);
      WelfordStepExact(ys, xs[|xs| - 1]);
      assert ys + [xs[|xs| - 1]] == xs;
    }
    SqDevFromNonNegative(xs, Mean(xs));
  }

  // ---------------------------------------------------------------------
  // Histories of points
  // ---------------------------------------------------------------------

  /** ADC values as the doubles the accumulators see. */
  function Values(ps: seq<nat>): (vs: seq<real>)
    ensures |vs| == |ps|
  {
    if ps == [] then [] else Values(ps[..|ps| - 1]) + [ps[|ps| - 1] as real]
  }

  lemma ValuesAppend(ps: seq<nat>, d: nat)
    ensures Values(ps + [d]) == Values(ps) + [d as real]
  {
    assert (ps + [d])[..|ps|] == ps;
  }

  /** How many of the points equal `d`. */
  function Count(ps: seq<nat>, d: nat): nat {
    if ps == [] then 0 else Count(ps[..|ps| - 1], d) + (if ps[|ps| - 1] == d then 1 else 0)
  }

  /** Running minimum, starting from `init`. */
  function MinOr(ps: seq<nat>, init: nat): nat {
    if ps == [] then init
    else var m := MinOr(ps[..|ps| - 1], init); if ps[|ps| - 1] < m then ps[|ps| - 1] else m
  }

  /** Running maximum, starting from `init`. */
  function MaxOr(ps: seq<nat>, init: nat): nat {
    if ps == [] then init
    else var m := MaxOr(ps[..|ps| - 1], init); if ps[|ps| - 1] > m then ps[|ps| - 1] else m
  }

  /** The running minimum and maximum are the least and greatest points
      seen (or the initial values, before any point). */
  lemma {:induction false} MinMaxOfPoints(ps: seq<nat>, lo: nat, hi: nat)
    ensures forall i :: 0 <= i < |ps| ==> MinOr(ps, lo) <= ps[i] <= MaxOr(ps, hi)
    ensures MinOr(ps, lo) <= lo && MaxOr(ps, hi) >= hi
    ensures MinOr(ps, lo) == lo || MinOr(ps, lo) in ps
    ensures MaxOr(ps, hi) == hi || MaxOr(ps, hi) in ps
  {
    if ps != [] {
      MinMaxOfPoints(ps[..|ps| - 1], lo, hi);
    }
  }

  // ---------------------------------------------------------------------
  // ChannelData
  // ---------------------------------------------------------------------

  const BaseBins: nat := 8192
  const DacLevels: nat := 256

  /** The baseline summary of the points `ps`: bin d counts the points equal
      to d, `lo` and `hi` are the running minimum (from 8192) and maximum
      (from 0), and `m` holds the running moments. */
  ghost predicate BaselineOf(hist: seq<nat>, lo: nat, hi: nat, m: Moments, ps: seq<nat>) {
    && |hist| == BaseBins
    && (forall p :: p in ps ==> p < BaseBins)
    && (forall d :: 0 <= d < BaseBins ==> hist[d] == Count(ps, d))
    && lo == MinOr(ps, BaseBins) && hi == MaxOr(ps, 0)
    && m == Accumulate(Values(ps))
  }

  /** addBasePoint's updates keep the baseline summary exact. */
  lemma BaselineStep(hist: seq<nat>, lo: nat, hi: nat, m: Moments, ps: seq<nat>, d: nat)
    requires BaselineOf(hist, lo, hi, m, ps) && d < BaseBins
    ensures BaselineOf(hist[d := hist[d] + 1], if d < lo then d else lo, if d > hi then d else hi,
                       WelfordStep(m, d as real), ps + [d])
  {
    var ps' := ps + [d];
    assert ps'[..|ps'| - 1] == ps;
    ValuesAppend(ps, d);
    assert Values(ps')[..|ps'| - 1] == Values(ps);
  }

  /** The statistics of one (kpix, channel, bucket, range). The ghost
      histories record every point added, so that each field can be stated
      as a function of them. */
  class ChannelData {
    const baseData: array<nat>
    var baseMin: nat
    var baseMax: nat
    var baseCount: real
    var baseMean: real
    var baseSum: real
    var baseRms: real
    const calibCount: array<real>
    const calibMean: array<real>
    const calibSum: array<real>
    const calibRms: array<real>

    ghost var basePoints: seq<nat>
    ghost var calibPoints: seq<seq<real>>

    ghost predicate Valid()
      reads this, baseData, calibCount, calibMean, calibSum, calibRms
    {
      Shapes() && Baseline() && BaseRmsOfEmpty() && CalibMoments() && CalibRmsOfEmpty()
    }

    ghost predicate Shapes()
      reads this`calibPoints
    {
      && baseData.Length == BaseBins && calibCount.Length == DacLevels && calibMean.Length == DacLevels
      && calibSum.Length == DacLevels && calibRms.Length == DacLevels
      && calibCount != calibMean && calibCount != calibSum && calibCount != calibRms
      && calibMean != calibSum && calibMean != calibRms && calibSum != calibRms
      && |calibPoints| == DacLevels
    }

    /** Histogram, extremes and moments of the baseline points. */
    ghost predicate Baseline()
      reads this`basePoints, this`baseMin, this`baseMax, this`baseCount, this`baseMean, this`baseSum, baseData
    {
      BaselineOf(baseData[..], baseMin, baseMax, Moments(baseCount, baseMean, baseSum), basePoints)
    }

    /** The baseline rms is 0 until a point is added. */
    ghost predicate BaseRmsOfEmpty()
      reads this`baseCount, this`baseRms
    {
      baseCount == 0.0 ==> baseRms == 0.0
    }

    /** Running moments of each DAC level. */
    ghost predicate CalibMoments()
      reads this`calibPoints, calibCount, calibMean, calibSum
      requires Shapes()
    {
      forall x :: 0 <= x < DacLevels ==>
        Moments(calibCount[x], calibMean[x], calibSum[x]) == Accumulate(calibPoints[x])
    }

    /** A DAC level without points has rms 0. */
    ghost predicate CalibRmsOfEmpty()
      reads this`calibPoints, calibCount, calibRms
      requires Shapes()
    {
      forall x :: 0 <= x < DacLevels ==> calibCount[x] == 0.0 ==> calibRms[x] == 0.0
    }

    /** The constructor (lines 55-72): empty histogram, baseMin = 8192,
        baseMax = 0, every count, mean, sum and rms 0. */
    constructor ()
      ensures Valid()
      ensures basePoints == [] && calibPoints == seq(DacLevels, _ => [])
      ensures baseData[..] == seq(BaseBins, _ => 0) && baseMin == BaseBins && baseMax == 0
      ensures baseCount == 0.0 && baseMean == 0.0 && baseSum == 0.0 && baseRms == 0.0
      ensures calibCount[..] == seq(DacLevels, _ => 0.0) && calibMean[..] == seq(DacLevels, _ => 0.0)
      ensures calibSum[..] == seq(DacLevels, _ => 0.0) && calibRms[..] == seq(DacLevels, _ => 0.0)
      ensures fresh(baseData) && fresh(calibCount) && fresh(calibMean) && fresh(calibSum) && fresh(calibRms)
    {
      baseData := new nat[BaseBins](_ => 0);
      baseMin := BaseBins;
      baseMax := 0;
      baseCount := 0.0;
      baseMean := 0.0;
      baseSum := 0.0;
      baseRms := 0.0;
      calibCount := new real[DacLevels](_ => 0.0);
      calibMean := new real[DacLevels](_ => 0.0);
      calibSum := new real[DacLevels](_ => 0.0);
      calibRms := new real[DacLevels](_ => 0.0);
      basePoints := [];
      calibPoints := seq(DacLevels, _ => []);
    }

    /** addBasePoint (lines 74-85): one more count in bin `data`, minimum
        and maximum widened to it, and a Welford step of the baseline
        moments. The bin must exist (the source indexes without a check). */
    method AddBasePoint(data: nat)
      requires Valid() && data < BaseBins
      modifies this, baseData
      ensures Valid()
      ensures basePoints == old(basePoints) + [data] && calibPoints == old(calibPoints)
      ensures baseData[..] == old(baseData[..])[data := old(baseData[data]) + 1]
      ensures baseCount == old(baseCount) + 1.0
      ensures baseMin == (if data < old(baseMin) then data else old(baseMin))
      ensures baseMax == (if data > old(baseMax) then data else old(baseMax))
      ensures baseRms == old(baseRms)
    {
      BaselineStep(baseData[..], baseMin, baseMax, Moments(baseCount, baseMean, baseSum), basePoints, data);
      baseData[data] := baseData[data] + 1;
      if data < baseMin { baseMin := data; }
      if data > baseMax { baseMax := data; }
      var next := WelfordStep(Moments(baseCount, baseMean, baseSum), data as real);
      baseCount, baseMean, baseSum := next.count, next.mean, next.m2;
      basePoints := basePoints + [data];
    }

    /** addCalibPoint (lines 87-95): a Welford step of DAC level x's
        moments with the value y; no other level and nothing of the
        baseline changes. The level must exist. */
    method AddCalibPoint(x: nat, y: nat)
      requires Valid() && x < DacLevels
      modifies this, calibCount, calibMean, calibSum
      ensures Valid()
      ensures calibPoints == old(calibPoints)[x := old(calibPoints[x]) + [y as real]]
      ensures basePoints == old(basePoints)
      ensures calibCount[..] == old(calibCount[..])[x := old(calibCount[x]) + 1.0]
      ensures forall z :: 0 <= z < DacLevels && z != x ==>
                calibMean[z] == old(calibMean[z]) && calibSum[z] == old(calibSum[z])
      ensures baseMin == old(baseMin) && baseMax == old(baseMax) && baseCount == old(baseCount)
      ensures baseMean == old(baseMean) && baseSum == old(baseSum) && baseRms == old(baseRms)
    {
      var next := WelfordStep(Moments(calibCount[x], calibMean[x], calibSum[x]), y as real);
      calibCount[x], calibMean[x], calibSum[x] := next.count, next.mean, next.m2;
      calibPoints := calibPoints[x := calibPoints[x] + [y as real]];
      assert calibPoints[x][..|calibPoints[x]| - 1] == old(calibPoints[x]);
    }

    /** compute (lines 97-104): each rms becomes sqrt(sum / count) where
        the count is positive and is left alone (so stays 0) elsewhere;
        nothing is divided by a zero count. `sqrt` is the math library's. */
    method Compute(sqrt: real -> real)
      requires Valid()
      modifies this, calibRms
      ensures Valid()
      ensures basePoints == old(basePoints) && calibPoints == old(calibPoints)
      ensures baseCount == old(baseCount) && baseMean == old(baseMean) && baseSum == old(baseSum)
      ensures baseMin == old(baseMin) && baseMax == old(baseMax)
      ensures baseRms == if baseCount > 0.0 then sqrt(baseSum / baseCount) else old(baseRms)
      ensures forall x :: 0 <= x < DacLevels ==>
                calibRms[x] == if calibCount[x] > 0.0 then sqrt(calibSum[x] / calibCount[x]) else old(calibRms[x])
    {
      if baseCount > 0.0 {
        baseRms := sqrt(baseSum / baseCount);
      }
      for x := 0 to DacLevels
        modifies calibRms
        invariant CalibRmsOfEmpty()
        invariant forall z :: 0 <= z < x ==>
                    calibRms[z] == if calibCount[z] > 0.0 then sqrt(calibSum[z] / calibCount[z]) else old(calibRms[z])
        invariant forall z :: x <= z < DacLevels ==> calibRms[z] == old(calibRms[z])
      {
        if calibCount[x] > 0.0 {
          calibRms[x] := sqrt(calibSum[x] / calibCount[x]);
        }
      }
    }
  }

  /** What the fields of a ChannelData mean: the baseline mean and sum are
      the arithmetic mean and the sum of squared deviations of the points
      added, bin d counts the points equal to d, baseMin and baseMax are the
      least and greatest point, and the same moments hold per DAC level. */
  lemma ChannelDataMeaning(cd: ChannelData, x: nat)
    requires cd.Valid() && x < DacLevels
    ensures cd.baseCount == |cd.basePoints| as real
    ensures cd.baseMean == Mean(Values(cd.basePoints)) && cd.baseSum == SqDev(Values(cd.basePoints))
    ensures cd.baseSum >= 0.0
    ensures forall i :: 0 <= i < |cd.basePoints| ==> cd.baseMin <= cd.basePoints[i] <= cd.baseMax
    ensures cd.basePoints != [] ==> cd.baseMin in cd.basePoints && cd.baseMax in cd.basePoints
    ensures cd.calibCount[x] == |cd.calibPoints[x]| as real
    ensures cd.calibMean[x] == Mean(cd.calibPoints[x]) && cd.calibSum[x] == SqDev(cd.calibPoints[x])
    ensures cd.calibSum[x] >= 0.0
  {
    AccumulateIsTwoPass(Values(cd.basePoints));
    AccumulateIsTwoPass(cd.calibPoints[x]);
    MinMaxOfPoints(cd.basePoints, BaseBins, 0);
    if cd.basePoints != [] {
      var p := cd.basePoints[0];
      assert cd.baseMin <= p < BaseBins;
      assert cd.baseMax >= p >= 0;
      if cd.baseMax == 0 {
        assert p == 0;
      }
    }
  }
}
