/**
 * Samples as sequences of points, and the per-component operations the
 * estimator applies to whole blocks: slicing, mean, standard deviation,
 * `-=` and `/=` by a point, and the per-component sum of products.
 */
module Samples {
  import opened Numerics
  import opened Stats

  /** A sample: an ordered sequence of points. */
  type Sample = seq<seq<real>>

  /** Every point of `s` has dimension `dim`. */
  predicate IsSample(s: Sample, dim: nat)
  {
    forall i :: 0 <= i < |s| ==> |s[i]| == dim
  }

  predicate IsMatrix(s: Sample, rows: nat, cols: nat)
  {
    |s| == rows && IsSample(s, cols)
  }

  function Zeros(rows: nat, cols: nat): (r: Sample)
    ensures IsMatrix(r, rows, cols)
  {
    seq(rows, _ => seq(cols, _ => 0.0))
  }

  /** The points of `s` with indices in [first, last), in order. */
  function Slice(s: Sample, first: nat, last: nat): (r: Sample)
    requires first <= last <= |s|
    ensures |r| == last - first
    ensures forall i :: 0 <= i < |r| ==> r[i] == s[first + i]
  {
    s[first..last]
  }

  /** Component `j` of every point. */
  function Column(s: Sample, j: nat): (c: seq<real>)
    requires forall i :: 0 <= i < |s| ==> j < |s[i]|
    ensures |c| == |s|
  {
    seq(|s|, i requires 0 <= i < |s| => s[i][j])
  }

  function ComputeMean(s: Sample, dim: nat): (mu: seq<real>)
    requires |s| > 0 && IsSample(s, dim)
    ensures |mu| == dim
  {
    seq(dim, j requires 0 <= j < dim => Mean(Column(s, j)))
  }

  function ComputeStandardDeviationPerComponent(m: Functions, s: Sample, dim: nat): (sigma: seq<real>)
    requires |s| >= 2 && IsSample(s, dim)
    ensures |sigma| == dim
  {
    seq(dim, j requires 0 <= j < dim => StdDev(m, Column(s, j)))
  }

  /** `s -= mu`: subtracts `mu` from every point. */
  function Subtract(s: Sample, mu: seq<real>): (r: Sample)
    requires IsSample(s, |mu|)
    ensures |r| == |s| && IsSample(r, |mu|)
  {
    seq(|s|, i requires 0 <= i < |s| => seq(|mu|, j requires 0 <= j < |mu| => s[i][j] - mu[j]))
  }

  /** `s /= sigma`: divides every point componentwise by `sigma`. */
  function Divide(s: Sample, sigma: seq<real>): (r: Sample)
    requires IsSample(s, |sigma|) && 0.0 !in sigma
    ensures |r| == |s| && IsSample(r, |sigma|)
  {
    seq(|s|, i requires 0 <= i < |s| => seq(|sigma|, j requires 0 <= j < |sigma| => s[i][j] / sigma[j]))
  }

  /** Per component, the sum over points of the products of `x` and `y`. */
  function ComputeSumDotSamples(x: Sample, y: Sample, dim: nat): (r: seq<real>)
    requires |x| == |y| && IsSample(x, dim) && IsSample(y, dim)
    ensures |r| == dim
  {
    seq(dim, j requires 0 <= j < dim => Dot(Column(x, j), Column(y, j)))
  }

  // ------------------------------------------------------------- columns

  lemma ColumnOfSubtract(s: Sample, mu: seq<real>, j: nat)
    requires IsSample(s, |mu|) && j < |mu|
    ensures Column(Subtract(s, mu), j) == Shift(Column(s, j), mu[j])
  {
  }

  lemma ColumnOfDivide(s: Sample, sigma: seq<real>, j: nat)
    requires IsSample(s, |sigma|) && 0.0 !in sigma && j < |sigma|
    ensures Column(Divide(s, sigma), j) == Scale(Column(s, j), sigma[j])
  {
  }

  /** Column `j` of a centred block is the centred column `j`. */
  lemma ColumnOfCentered(s: Sample, dim: nat, j: nat)
    requires |s| > 0 && IsSample(s, dim) && j < dim
    ensures Column(Subtract(s, ComputeMean(s, dim)), j) == Centered(Column(s, j))
  {
    ColumnOfSubtract(s, ComputeMean(s, dim), j);
  }

  /** Column `j` of a centred-reduced block is the standardized column `j`. */
  lemma ColumnOfStandardized(m: Functions, s: Sample, dim: nat, j: nat)
    requires |s| >= 2 && IsSample(s, dim) && j < dim
    requires 0.0 !in ComputeStandardDeviationPerComponent(m, s, dim)
    ensures Column(Divide(Subtract(s, ComputeMean(s, dim)), ComputeStandardDeviationPerComponent(m, s, dim)), j)
         == Scale(Centered(Column(s, j)), ComputeStandardDeviationPerComponent(m, s, dim)[j])
  {
    var sigma := ComputeStandardDeviationPerComponent(m, s, dim);
    ColumnOfCentered(s, dim, j);
    ColumnOfDivide(Subtract(s, ComputeMean(s, dim)), sigma, j);
  }

  /** After `s -= mean(s)`, every component sums to zero over the block. */
  lemma CenteredColumnsSumToZero(s: Sample, dim: nat)
    requires |s| > 0 && IsSample(s, dim)
    ensures forall j :: 0 <= j < dim ==> Sum(Column(Subtract(s, ComputeMean(s, dim)), j)) == 0.0
  {
    forall j | 0 <= j < dim
      ensures Sum(Column(Subtract(s, ComputeMean(s, dim)), j)) == 0.0
    {
      ColumnOfCentered(s, dim, j);
      CenteredSumsToZero(Column(s, j));
    }
  }

  /** After `s -= mean(s); s /= sigma(s)`, every component still sums to zero. */
  lemma StandardizedColumnsSumToZero(m: Functions, s: Sample, dim: nat)
    requires |s| >= 2 && IsSample(s, dim)
    requires 0.0 !in ComputeStandardDeviationPerComponent(m, s, dim)
    ensures forall j :: 0 <= j < dim ==>
      Sum(Column(Divide(Subtract(s, ComputeMean(s, dim)), ComputeStandardDeviationPerComponent(m, s, dim)), j)) == 0.0
  {
    var sigma := ComputeStandardDeviationPerComponent(m, s, dim);
    forall j | 0 <= j < dim
      ensures Sum(Column(Divide(Subtract(s, ComputeMean(s, dim)), sigma), j)) == 0.0
    {
      ColumnOfStandardized(m, s, dim, j);
      StandardizedSumsToZero(Column(s, j), sigma[j]);
    }
  }

  /** Every component centred and divided by its standard deviation. */
  function Standardize(m: Functions, s: Sample, dim: nat): (r: Sample)
    requires |s| >= 2 && IsSample(s, dim) && 0.0 !in ComputeStandardDeviationPerComponent(m, s, dim)
    ensures |r| == |s| && IsSample(r, dim)
  {
    Divide(Subtract(s, ComputeMean(s, dim)), ComputeStandardDeviationPerComponent(m, s, dim))
  }

  /** A component with a non-zero entry in the standard deviation point has a non-zero spread. */
  lemma SpreadOfComponent(m: Functions, s: Sample, dim: nat, j: nat)
    requires |s| >= 2 && IsSample(s, dim) && j < dim
    ensures ComputeStandardDeviationPerComponent(m, s, dim)[j] == StdDev(m, Column(s, j))
    ensures 0.0 !in ComputeStandardDeviationPerComponent(m, s, dim) ==> StdDev(m, Column(s, j)) != 0.0
  {
  }

  /**
   * Per component, the sum of products of two standardized blocks over
   * `n - 1` is the Pearson correlation of the two columns.
   */
  lemma SumDotOfStandardized(m: Functions, x: Sample, y: Sample, dim: nat, j: nat)
    requires |x| == |y| && |x| >= 2 && IsSample(x, dim) && IsSample(y, dim) && j < dim
    requires 0.0 !in ComputeStandardDeviationPerComponent(m, x, dim)
    requires 0.0 !in ComputeStandardDeviationPerComponent(m, y, dim)
    ensures StdDev(m, Column(x, j)) != 0.0 && StdDev(m, Column(y, j)) != 0.0
    ensures ComputeSumDotSamples(Standardize(m, x, dim), Standardize(m, y, dim), dim)[j] / (|x| as real - 1.0)
         == Correlation(m, Column(x, j), Column(y, j))
  {
    SpreadOfComponent(m, x, dim, j);
    SpreadOfComponent(m, y, dim, j);
    ColumnOfStandardized(m, x, dim, j);
    ColumnOfStandardized(m, y, dim, j);
    StandardizedDotIsCorrelation(m, Column(x, j), Column(y, j));
    assert (|x| - 1) as real == |x| as real - 1.0;
  }

  /**
   * Per component, the sum of products of a standardized block and a
   * centred one over `n - 1` is their covariance over the first spread.
   */
  lemma SumDotOfStandardizedCentered(m: Functions, x: Sample, y: Sample, dim: nat, j: nat)
    requires |x| == |y| && |x| >= 2 && IsSample(x, dim) && IsSample(y, dim) && j < dim
    requires 0.0 !in ComputeStandardDeviationPerComponent(m, x, dim)
    ensures StdDev(m, Column(x, j)) != 0.0
    ensures ComputeSumDotSamples(Standardize(m, x, dim), Subtract(y, ComputeMean(y, dim)), dim)[j] / (|x| as real - 1.0)
         == Covariance(Column(x, j), Column(y, j)) / StdDev(m, Column(x, j))
  {
    SpreadOfComponent(m, x, dim, j);
    ColumnOfStandardized(m, x, dim, j);
    ColumnOfCentered(y, dim, j);
    StandardizedDotCentered(m, Column(x, j), Column(y, j));
    assert (|x| - 1) as real == |x| as real - 1.0;
  }
}
