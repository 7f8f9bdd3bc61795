/**
 * Asymptotic confidence intervals for aggregated sensitivity indices,
 * built by treating each index as a correlation coefficient and using the
 * Fisher z-transform.
 */
module Fisher {
  import opened Numerics
  import opened Errors

  /** A box: one [lower, upper] range per input. */
  datatype Interval = Interval(lower: seq<real>, upper: seq<real>) {
    function Dimension(): nat { |lower| }

    predicate WellFormed() { |lower| == |upper| }

    predicate Ordered()
    {
      WellFormed() && forall p :: 0 <= p < |lower| ==> lower[p] <= upper[p]
    }

    predicate Contains(x: seq<real>)
    {
      WellFormed() && |x| == |lower| && forall p :: 0 <= p < |x| ==> lower[p] <= x[p] <= upper[p]
    }

    /** Every range of `this` lies inside the matching range of `other`. */
    predicate Inside(other: Interval)
    {
      WellFormed() && other.WellFormed() && |lower| == |other.lower|
      && forall p :: 0 <= p < |lower| ==> other.lower[p] <= lower[p] && upper[p] <= other.upper[p]
    }
  }

  /** The default-constructed interval: nothing computed yet. */
  const Empty := Interval([], [])

  datatype IntervalPair = IntervalPair(first: Interval, total: Interval)

  /** Normal quantile level for a two-sided interval at `confidenceLevel`: 1 - (1 - level) / 2. */
  function QuantileLevel(confidenceLevel: real): real
  {
    0.5 + 0.5 * confidenceLevel
  }

  /** The level the implementation passes to qNormal. */
  function QuantileLevelAsWritten(confidenceLevel: real): real
  {
    1.0 - 0.5 * confidenceLevel
  }

  /** The values a correlation coefficient can take. */
  predicate IsCorrelation(rho: real)
  {
    -1.0 <= rho <= 1.0
  }

  /** The correlation values the Fisher transform is finite for. */
  predicate InFisherDomain(rho: real)
  {
    -1.0 < rho < 1.0
  }

  function FisherZ(m: Functions, rho: real): real
    requires InFisherDomain(rho)
  {
    0.5 * m.log((1.0 + rho) / (1.0 - rho))
  }

  /** Half-width of the interval in z-space: t / sqrt(size - 3). */
  function HalfWidth(m: Functions, t: real, size: nat): real
    requires Sound(m) && size > 3
  {
    SqrtPositive(m, size as real - 3.0);
    t / m.sqrt(size as real - 3.0)
  }

  /*
   * At rho = 1 or rho = -1 the transform is infinite, so z - w and z + w
   * are too and tanh maps both back to rho: the range is the single point
   * rho.
   */

  function FirstOrderLower(m: Functions, rho: real, w: real): real
    requires IsCorrelation(rho)
  {
    if InFisherDomain(rho) then m.tanh(FisherZ(m, rho) - w) else rho
  }

  function FirstOrderUpper(m: Functions, rho: real, w: real): real
    requires IsCorrelation(rho)
  {
    if InFisherDomain(rho) then m.tanh(FisherZ(m, rho) + w) else rho
  }

  /** Total order: the transform of 1 - S_T, mapped back and reflected, so the bounds swap. */
  function TotalOrderLower(m: Functions, total: real, w: real): real
    requires IsCorrelation(1.0 - total)
  {
    if InFisherDomain(1.0 - total) then 1.0 - m.tanh(FisherZ(m, 1.0 - total) + w) else total
  }

  function TotalOrderUpper(m: Functions, total: real, w: real): real
    requires IsCorrelation(1.0 - total)
  {
    if InFisherDomain(1.0 - total) then 1.0 - m.tanh(FisherZ(m, 1.0 - total) - w) else total
  }

  /** Both indices of input `p` can be read as correlations. */
  predicate InputInDomain(first: seq<real>, total: seq<real>, p: nat)
    requires p < |first| == |total|
  {
    IsCorrelation(first[p]) && IsCorrelation(1.0 - total[p])
  }

  /** The first input at or after `from` whose indices leave the Fisher domain, or `|first|`. */
  function FirstOutOfDomain(first: seq<real>, total: seq<real>, from: nat): (k: nat)
    requires |first| == |total| && from <= |first|
    ensures from <= k <= |first|
    ensures forall p :: from <= p < k ==> InputInDomain(first, total, p)
    ensures k < |first| ==> !InputInDomain(first, total, k)
    decreases |first| - from
  {
    if from == |first| then from
    else if !InputInDomain(first, total, from) then from
    else FirstOutOfDomain(first, total, from + 1)
  }

  /** Scanning inputs in order, the first one outside the domain is found. */
  lemma {:induction false} FirstOutOfDomainAt(first: seq<real>, total: seq<real>, from: nat, k: nat)
    requires |first| == |total| && from <= k <= |first|
    requires forall p :: from <= p < k ==> InputInDomain(first, total, p)
    requires k < |first| ==> !InputInDomain(first, total, k)
    ensures FirstOutOfDomain(first, total, from) == k
    decreases k - from
  {
    if from < k {
      FirstOutOfDomainAt(first, total, from + 1, k);
    }
  }

  /** Every input's first-order index mapped to z-space, widened by `w` and mapped back. */
  function FirstOrderBox(m: Functions, first: seq<real>, total: seq<real>, w: real): (r: Interval)
    requires |first| == |total| && forall p :: 0 <= p < |first| ==> InputInDomain(first, total, p)
    ensures |r.lower| == |r.upper| == |first|
    ensures forall p :: 0 <= p < |first| ==>
      InputInDomain(first, total, p) && r.lower[p] == FirstOrderLower(m, first[p], w) && r.upper[p] == FirstOrderUpper(m, first[p], w)
  {
    var d := |first|;
    Interval(seq(d, p requires 0 <= p < d && InputInDomain(first, total, p) => FirstOrderLower(m, first[p], w)),
             seq(d, p requires 0 <= p < d && InputInDomain(first, total, p) => FirstOrderUpper(m, first[p], w)))
  }

  /** The same for one minus every total-order index, reflected back. */
  function TotalOrderBox(m: Functions, first: seq<real>, total: seq<real>, w: real): (r: Interval)
    requires |first| == |total| && forall p :: 0 <= p < |first| ==> InputInDomain(first, total, p)
    ensures |r.lower| == |r.upper| == |first|
    ensures forall p :: 0 <= p < |first| ==>
      InputInDomain(first, total, p) && r.lower[p] == TotalOrderLower(m, total[p], w) && r.upper[p] == TotalOrderUpper(m, total[p], w)
  {
    var d := |first|;
    Interval(seq(d, p requires 0 <= p < d && InputInDomain(first, total, p) => TotalOrderLower(m, total[p], w)),
             seq(d, p requires 0 <= p < d && InputInDomain(first, total, p) => TotalOrderUpper(m, total[p], w)))
  }

  /**
   * The intervals for half-width `w` in z-space, or the first input whose
   * indices cannot be read as correlations.
   */
  function Bounds(m: Functions, first: seq<real>, total: seq<real>, w: real): Result<IntervalPair>
    requires |first| == |total|
  {
    var k := FirstOutOfDomain(first, total, 0);
    if k < |first| then Failure(CorrelationOutOfDomain(k))
    else Success(IntervalPair(FirstOrderBox(m, first, total, w), TotalOrderBox(m, first, total, w)))
  }

  /** The intervals for quantile `t`, or why they cannot be computed. */
  function IntervalsFor(m: Functions, first: seq<real>, total: seq<real>, t: real, size: nat): Result<IntervalPair>
    requires Sound(m) && |first| == |total|
  {
    if size <= 3 then Failure(AsymptoticSampleTooSmall(size))
    else Bounds(m, first, total, HalfWidth(m, t, size))
  }

  /** Asymptotic intervals at `confidenceLevel`, with the two-sided normal quantile. */
  function AsymptoticIntervals(m: Functions, first: seq<real>, total: seq<real>, confidenceLevel: real, size: nat): Result<IntervalPair>
    requires Sound(m) && |first| == |total|
  {
    IntervalsFor(m, first, total, m.qNormal(QuantileLevel(confidenceLevel)), size)
  }

  /** Asymptotic intervals with the quantile level the implementation uses. */
  function AsymptoticIntervalsAsWritten(m: Functions, first: seq<real>, total: seq<real>, confidenceLevel: real, size: nat): Result<IntervalPair>
    requires Sound(m) && |first| == |total|
  {
    IntervalsFor(m, first, total, m.qNormal(QuantileLevelAsWritten(confidenceLevel)), size)
  }

  // -------------------------------------------------------------- lemmas

  /** tanh undoes the Fisher transform. */
  lemma TanhInvertsFisher(m: Functions, rho: real)
    requires Sound(m) && InFisherDomain(rho)
    ensures m.tanh(FisherZ(m, rho)) == rho
  {
    var x := (1.0 + rho) / (1.0 - rho);
    assert 0.0 < x;
    assert m.tanh(0.5 * m.log(x)) == (x - 1.0) / (x + 1.0);
    assert x - 1.0 == 2.0 * rho / (1.0 - rho);
    assert x + 1.0 == 2.0 / (1.0 - rho);
    var a, b := 2.0 * rho, 1.0 - rho;
    assert (a / b) / (2.0 / b) == a / 2.0;
  }

  /** The half-width grows with the quantile and is never negative for t >= 0. */
  lemma HalfWidthMonotone(m: Functions, t1: real, t2: real, size: nat)
    requires Sound(m) && size > 3 && t1 <= t2
    ensures HalfWidth(m, t1, size) <= HalfWidth(m, t2, size)
    ensures 0.0 <= t1 ==> 0.0 <= HalfWidth(m, t1, size)
  {
    SqrtPositive(m, size as real - 3.0);
  }

  /** The intervals fail exactly when the sample is too small or an index cannot be read as a correlation. */
  lemma IntervalsForFailure(m: Functions, first: seq<real>, total: seq<real>, t: real, size: nat)
    requires Sound(m) && |first| == |total|
    ensures IntervalsFor(m, first, total, t, size).Failure?
        <==> size <= 3 || exists p :: 0 <= p < |first| && !InputInDomain(first, total, p)
    ensures size <= 3 ==> IntervalsFor(m, first, total, t, size) == Failure(AsymptoticSampleTooSmall(size))
  {
  }

  /**
   * For a non-negative quantile both intervals have one range per input,
   * each with lower <= upper.
   */
  lemma IntervalsForOrdered(m: Functions, first: seq<real>, total: seq<real>, t: real, size: nat)
    requires Sound(m) && |first| == |total| && 0.0 <= t
    requires IntervalsFor(m, first, total, t, size).Success?
    ensures var pair := IntervalsFor(m, first, total, t, size).value;
      pair.first.Dimension() == |first| && pair.total.Dimension() == |first|
      && pair.first.Ordered() && pair.total.Ordered()
  {
    HalfWidthMonotone(m, t, t, size);
  }

  /** For a non-negative quantile each interval contains its point estimate. */
  lemma IntervalsForContainEstimate(m: Functions, first: seq<real>, total: seq<real>, t: real, size: nat)
    requires Sound(m) && |first| == |total| && 0.0 <= t
    requires IntervalsFor(m, first, total, t, size).Success?
    ensures IntervalsFor(m, first, total, t, size).value.first.Contains(first)
    ensures IntervalsFor(m, first, total, t, size).value.total.Contains(total)
  {
    var w := HalfWidth(m, t, size);
    HalfWidthMonotone(m, t, t, size);
    assert FirstOutOfDomain(first, total, 0) == |first|;
    forall p | 0 <= p < |first|
      ensures FirstOrderLower(m, first[p], w) <= first[p] <= FirstOrderUpper(m, first[p], w)
      ensures TotalOrderLower(m, total[p], w) <= total[p] <= TotalOrderUpper(m, total[p], w)
    {
      assert InputInDomain(first, total, p);
      if InFisherDomain(first[p]) {
        TanhInvertsFisher(m, first[p]);
      }
      if InFisherDomain(1.0 - total[p]) {
        TanhInvertsFisher(m, 1.0 - total[p]);
      }
    }
  }

  /**
   * A first-order index of exactly 1 or -1, or a total-order index of
   * exactly 0 or 2, gives the single point range at that index, whatever
   * the quantile: the intervals are computed, not refused.
   */
  lemma ExactCorrelationGivesPoint(m: Functions, first: seq<real>, total: seq<real>, t: real, size: nat, p: nat)
    requires Sound(m) && |first| == |total| && p < |first|
    requires IntervalsFor(m, first, total, t, size).Success?
    ensures first[p] == 1.0 || first[p] == -1.0 ==>
      var box := IntervalsFor(m, first, total, t, size).value.first;
      box.lower[p] == first[p] && box.upper[p] == first[p]
    ensures total[p] == 0.0 || total[p] == 2.0 ==>
      var box := IntervalsFor(m, first, total, t, size).value.total;
      box.lower[p] == total[p] && box.upper[p] == total[p]
  {
    assert FirstOutOfDomain(first, total, 0) == |first|;
  }

  /** Boundary indices are inside the domain: with four or more points, such inputs never make the intervals fail. */
  lemma ExactCorrelationsAccepted(m: Functions, first: seq<real>, total: seq<real>, t: real, size: nat)
    requires Sound(m) && |first| == |total| && size > 3
    requires forall p :: 0 <= p < |first| ==> (first[p] == 1.0 || first[p] == -1.0) && (total[p] == 0.0 || total[p] == 2.0)
    ensures IntervalsFor(m, first, total, t, size).Success?
  {
    IntervalsForFailure(m, first, total, t, size);
  }

  /** A larger quantile gives intervals that contain those of a smaller one. */
  lemma IntervalsForNested(m: Functions, first: seq<real>, total: seq<real>, t1: real, t2: real, size: nat)
    requires Sound(m) && |first| == |total| && t1 <= t2
    requires IntervalsFor(m, first, total, t1, size).Success?
    ensures IntervalsFor(m, first, total, t2, size).Success?
    ensures IntervalsFor(m, first, total, t1, size).value.first.Inside(IntervalsFor(m, first, total, t2, size).value.first)
    ensures IntervalsFor(m, first, total, t1, size).value.total.Inside(IntervalsFor(m, first, total, t2, size).value.total)
  {
    HalfWidthMonotone(m, t1, t2, size);
  }

  /** With 0 <= level <= 1 the asymptotic intervals are ordered and contain the estimates. */
  lemma AsymptoticIntervalsSound(m: Functions, first: seq<real>, total: seq<real>, confidenceLevel: real, size: nat)
    requires Sound(m) && |first| == |total| && 0.0 <= confidenceLevel <= 1.0
    requires AsymptoticIntervals(m, first, total, confidenceLevel, size).Success?
    ensures var pair := AsymptoticIntervals(m, first, total, confidenceLevel, size).value;
      pair.first.Dimension() == |first| && pair.total.Dimension() == |first|
      && pair.first.Ordered() && pair.total.Ordered()
      && pair.first.Contains(first) && pair.total.Contains(total)
  {
    var t := m.qNormal(QuantileLevel(confidenceLevel));
    assert 0.0 <= t by {
      assert 0.5 <= QuantileLevel(confidenceLevel);
    }
    IntervalsForOrdered(m, first, total, t, size);
    IntervalsForContainEstimate(m, first, total, t, size);
  }

  /** A higher confidence level never gives a narrower interval. */
  lemma WiderAtHigherConfidence(m: Functions, first: seq<real>, total: seq<real>, level1: real, level2: real, size: nat)
    requires Sound(m) && |first| == |total| && level1 <= level2
    requires AsymptoticIntervals(m, first, total, level1, size).Success?
    ensures AsymptoticIntervals(m, first, total, level2, size).Success?
    ensures AsymptoticIntervals(m, first, total, level1, size).value.first.Inside(AsymptoticIntervals(m, first, total, level2, size).value.first)
    ensures AsymptoticIntervals(m, first, total, level1, size).value.total.Inside(AsymptoticIntervals(m, first, total, level2, size).value.total)
  {
    var t1, t2 := m.qNormal(QuantileLevel(level1)), m.qNormal(QuantileLevel(level2));
    assert t1 <= t2 by {
      assert QuantileLevel(level1) <= QuantileLevel(level2);
    }
    IntervalsForNested(m, first, total, t1, t2, size);
  }

  /**
   * As written, the quantile shrinks as the confidence level grows, and at
   * level 1 both intervals collapse onto the point estimates.
   */
  lemma AsWrittenCollapsesAtFullConfidence(m: Functions, first: seq<real>, total: seq<real>, size: nat)
    requires Sound(m) && |first| == |total|
    requires AsymptoticIntervalsAsWritten(m, first, total, 1.0, size).Success?
    ensures var pair := AsymptoticIntervalsAsWritten(m, first, total, 1.0, size).value;
      pair.first == Interval(first, first) && pair.total == Interval(total, total)
  {
    var t := m.qNormal(QuantileLevelAsWritten(1.0));
    assert QuantileLevelAsWritten(1.0) == 0.5;
    assert t == 0.0;
    var w := HalfWidth(m, t, size);
    assert w == 0.0;
    var pair := IntervalsFor(m, first, total, t, size).value;
    assert FirstOutOfDomain(first, total, 0) == |first|;
    forall p | 0 <= p < |first|
      ensures pair.first.lower[p] == first[p] && pair.first.upper[p] == first[p]
      ensures pair.total.lower[p] == total[p] && pair.total.upper[p] == total[p]
    {
      assert InputInDomain(first, total, p);
      if InFisherDomain(first[p]) {
        TanhInvertsFisher(m, first[p]);
      }
      if InFisherDomain(1.0 - total[p]) {
        TanhInvertsFisher(m, 1.0 - total[p]);
      }
    }
  }

  /** As written, a higher confidence level never gives a wider interval. */
  lemma AsWrittenNarrowerAtHigherConfidence(m: Functions, first: seq<real>, total: seq<real>, level1: real, level2: real, size: nat)
    requires Sound(m) && |first| == |total| && level1 <= level2
    requires AsymptoticIntervalsAsWritten(m, first, total, level1, size).Success?
    ensures AsymptoticIntervalsAsWritten(m, first, total, level2, size).Success?
    ensures AsymptoticIntervalsAsWritten(m, first, total, level2, size).value.first.Inside(AsymptoticIntervalsAsWritten(m, first, total, level1, size).value.first)
    ensures AsymptoticIntervalsAsWritten(m, first, total, level2, size).value.total.Inside(AsymptoticIntervalsAsWritten(m, first, total, level1, size).value.total)
  {
    var t1, t2 := m.qNormal(QuantileLevelAsWritten(level1)), m.qNormal(QuantileLevelAsWritten(level2));
    assert t2 <= t1 by {
      assert QuantileLevelAsWritten(level2) <= QuantileLevelAsWritten(level1);
    }
    IntervalsForNested(m, first, total, t2, t1, size);
  }
}
