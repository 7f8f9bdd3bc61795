/**
 * The Martinez estimator on single output columns: the first-order
 * variance and the VTi quantity as functions of the columns of blocks A,
 * B and E_p, and the link from the dot products of centred and
 * standardized blocks to those formulas.
 */
module Estimator {
  import opened Numerics
  import opened Stats
  import opened Samples

  /**
   * First-order variance V_p: the correlation of B with E_p (the first-order
   * index S_p) times the variance of A.
   */
  function FirstOrderVariance(m: Functions, a: seq<real>, b: seq<real>, e: seq<real>): real
    requires |a| == |b| == |e| >= 2 && StdDev(m, b) != 0.0 && StdDev(m, e) != 0.0
  {
    Correlation(m, b, e) * Variance(a)
  }

  /**
   * The VTi quantity: the reference variance minus the covariance of A with
   * E_p over the spread of E_p, times the spread of A.
   */
  function TotalOrderComplement(m: Functions, reference: real, a: seq<real>, e: seq<real>): real
    requires |a| == |e| >= 2 && StdDev(m, e) != 0.0
  {
    reference - Covariance(a, e) / StdDev(m, e) * StdDev(m, a)
  }

  /** When E_p repeats B, S_p is one and V_p is the whole variance of A. */
  lemma FirstOrderOfFrozenCopy(m: Functions, a: seq<real>, b: seq<real>)
    requires Sound(m) && |a| == |b| >= 2 && StdDev(m, b) != 0.0
    ensures FirstOrderVariance(m, a, b, b) == Variance(a)
  {
    SelfCorrelation(m, b);
  }

  /** VTi is the reference variance minus rho(A, E_p) times the variance of A. */
  lemma TotalOrderComplementAsCorrelation(m: Functions, reference: real, a: seq<real>, e: seq<real>)
    requires Sound(m) && |a| == |e| >= 2 && StdDev(m, a) != 0.0 && StdDev(m, e) != 0.0
    ensures TotalOrderComplement(m, reference, a, e) == reference - Correlation(m, a, e) * Variance(a)
  {
    CovarianceOverSpread(m, a, e);
  }

  /** When E_p repeats A, VTi is the reference variance minus the variance of A. */
  lemma TotalOrderOfFrozenCopy(m: Functions, reference: real, a: seq<real>)
    requires Sound(m) && |a| >= 2 && StdDev(m, a) != 0.0
    ensures TotalOrderComplement(m, reference, a, a) == reference - Variance(a)
  {
    TotalOrderComplementAsCorrelation(m, reference, a, a);
    SelfCorrelation(m, a);
  }

  /** The first-order entry as computed from a dot product of standardized columns (lines 116-118). */
  function EntryFirstOrder(dot: real, size: nat, sigma: real): real
    requires size >= 2
  {
    dot / (size as real - 1.0) * sigma * sigma
  }

  /** The VTi entry as computed from a dot product of a standardized and a centred column. */
  function EntryTotalOrder(reference: real, dot: real, size: nat, sigma: real): real
    requires size >= 2
  {
    reference - dot / (size as real - 1.0) * sigma
  }

  lemma FirstOrderFromParts(m: Functions, a: seq<real>, b: seq<real>, e: seq<real>, dot: real, n: nat, sigma: real)
    requires Sound(m) && |a| == |b| == |e| >= 2 && StdDev(m, b) != 0.0 && StdDev(m, e) != 0.0
    requires n == |a| && dot / (n as real - 1.0) == Correlation(m, b, e) && sigma == StdDev(m, a)
    ensures EntryFirstOrder(dot, n, sigma) == FirstOrderVariance(m, a, b, e)
  {
    ScaledBySpreadTwice(m, a, Correlation(m, b, e));
  }

  lemma TotalOrderFromParts(m: Functions, reference: real, a: seq<real>, e: seq<real>, dot: real, n: nat, sigma: real)
    requires |a| == |e| >= 2 && StdDev(m, e) != 0.0
    requires n == |a| && dot / (n as real - 1.0) == Covariance(a, e) / StdDev(m, e) && sigma == StdDev(m, a)
    ensures EntryTotalOrder(reference, dot, n, sigma) == TotalOrderComplement(m, reference, a, e)
  {
  }

  /**
   * For blocks A, B, E_p with B and E_p standardizable, the first-order
   * entry computed from the dot product of standardized B and E_p is V_p.
   */
  lemma FirstOrderEntry(m: Functions, rowsA: Sample, rowsB: Sample, rowsE: Sample, dim: nat, q: nat)
    requires Sound(m) && |rowsA| == |rowsB| == |rowsE| >= 2 && q < dim
    requires IsSample(rowsA, dim) && IsSample(rowsB, dim) && IsSample(rowsE, dim)
    requires 0.0 !in ComputeStandardDeviationPerComponent(m, rowsB, dim)
    requires 0.0 !in ComputeStandardDeviationPerComponent(m, rowsE, dim)
    ensures StdDev(m, Column(rowsB, q)) != 0.0 && StdDev(m, Column(rowsE, q)) != 0.0
    ensures EntryFirstOrder(ComputeSumDotSamples(Standardize(m, rowsE, dim), Standardize(m, rowsB, dim), dim)[q],
                            |rowsA|, ComputeStandardDeviationPerComponent(m, rowsA, dim)[q])
         == FirstOrderVariance(m, Column(rowsA, q), Column(rowsB, q), Column(rowsE, q))
  {
    var colA, colB, colE := Column(rowsA, q), Column(rowsB, q), Column(rowsE, q);
    SumDotOfStandardized(m, rowsE, rowsB, dim, q);
    CorrelationSymmetric(m, colE, colB);
    SpreadOfComponent(m, rowsA, dim, q);
    FirstOrderFromParts(m, colA, colB, colE, ComputeSumDotSamples(Standardize(m, rowsE, dim), Standardize(m, rowsB, dim), dim)[q],
                        |rowsE|, ComputeStandardDeviationPerComponent(m, rowsA, dim)[q]);
  }

  /**
   * For blocks A and E_p with E_p standardizable, the VTi entry computed
   * from the dot product of standardized E_p and centred A is the formula
   * above.
   */
  lemma TotalOrderEntry(m: Functions, reference: real, rowsA: Sample, rowsE: Sample, dim: nat, q: nat)
    requires Sound(m) && |rowsA| == |rowsE| >= 2 && q < dim
    requires IsSample(rowsA, dim) && IsSample(rowsE, dim)
    requires 0.0 !in ComputeStandardDeviationPerComponent(m, rowsE, dim)
    ensures StdDev(m, Column(rowsE, q)) != 0.0
    ensures EntryTotalOrder(reference, ComputeSumDotSamples(Standardize(m, rowsE, dim), Subtract(rowsA, ComputeMean(rowsA, dim)), dim)[q],
                            |rowsA|, ComputeStandardDeviationPerComponent(m, rowsA, dim)[q])
         == TotalOrderComplement(m, reference, Column(rowsA, q), Column(rowsE, q))
  {
    var colA, colE := Column(rowsA, q), Column(rowsE, q);
    SumDotOfStandardizedCentered(m, rowsE, rowsA, dim, q);
    CovarianceSymmetric(colE, colA);
    SpreadOfComponent(m, rowsA, dim, q);
    TotalOrderFromParts(m, reference, colA, colE,
                        ComputeSumDotSamples(Standardize(m, rowsE, dim), Subtract(rowsA, ComputeMean(rowsA, dim)), dim)[q],
                        |rowsE|, ComputeStandardDeviationPerComponent(m, rowsA, dim)[q]);
  }
}
