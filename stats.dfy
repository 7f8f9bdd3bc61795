/**
 * Column statistics over exact reals: sums, means, centring, scaling,
 * dot products, and the Pearson correlation the Martinez estimator reads
 * off standardized blocks.
 */
module Stats {
  import opened Numerics

  function Sum(x: seq<real>): real
  {
    if |x| == 0 then 0.0 else Sum(x[..|x| - 1]) + x[|x| - 1]
  }

  function Mean(x: seq<real>): real
    requires |x| > 0
  {
    Sum(x) / |x| as real
  }

  /** Every entry minus `c`. */
  function Shift(x: seq<real>, c: real): (r: seq<real>)
    ensures |r| == |x|
  {
    seq(|x|, i requires 0 <= i < |x| => x[i] - c)
  }

  /** Every entry divided by `s`. */
  function Scale(x: seq<real>, s: real): (r: seq<real>)
    requires s != 0.0
    ensures |r| == |x|
  {
    seq(|x|, i requires 0 <= i < |x| => x[i] / s)
  }

  function Centered(x: seq<real>): (r: seq<real>)
    requires |x| > 0
    ensures |r| == |x|
  {
    Shift(x, Mean(x))
  }

  function Dot(x: seq<real>, y: seq<real>): real
    requires |x| == |y|
  {
    if |x| == 0 then 0.0 else Dot(x[..|x| - 1], y[..|y| - 1]) + x[|x| - 1] * y[|y| - 1]
  }

  /** Unbiased sample covariance. */
  function Covariance(x: seq<real>, y: seq<real>): real
    requires |x| == |y| && |x| >= 2
  {
    Dot(Centered(x), Centered(y)) / (|x| - 1) as real
  }

  function Variance(x: seq<real>): real
    requires |x| >= 2
  {
    Covariance(x, x)
  }

  function StdDev(m: Functions, x: seq<real>): real
    requires |x| >= 2
  {
    m.sqrt(Variance(x))
  }

  /** Pearson correlation coefficient. */
  function Correlation(m: Functions, x: seq<real>, y: seq<real>): real
    requires |x| == |y| && |x| >= 2
    requires StdDev(m, x) != 0.0 && StdDev(m, y) != 0.0
  {
    Covariance(x, y) / StdDev(m, x) / StdDev(m, y)
  }

  // ---------------------------------------------------------- arithmetic

  /** Dividing twice divides by the product. */
  lemma DivDiv(d: real, a: real, b: real)
    requires a != 0.0 && b != 0.0
    ensures (d / a) / b == d / (a * b)
  {
    var q := (d / a) / b;
    assert q * b == d / a;
    assert (q * b) * a == d;
    assert q * (a * b) == d;
  }

  /** Two successive divisions commute. */
  lemma DivCommute(d: real, a: real, b: real)
    requires a != 0.0 && b != 0.0
    ensures (d / a) / b == (d / b) / a
  {
    DivDiv(d, a, b);
    DivDiv(d, b, a);
    assert a * b == b * a;
  }

  /** Three successive divisions, the first and last swapped. */
  lemma Regroup(d: real, sx: real, sy: real, k: real)
    requires sx != 0.0 && sy != 0.0 && k != 0.0
    ensures ((d / sy) / sx) / k == ((d / k) / sx) / sy
  {
    DivCommute(d / sy, sx, k);
    DivCommute(d, sy, k);
    DivCommute(d / k, sy, sx);
  }

  /** Dividing twice by a square root of `c` gives one. */
  lemma DivByRootTwice(c: real, s: real)
    requires s != 0.0 && s * s == c
    ensures (c / s) / s == 1.0
  {
    var g := c / s;
    assert g * s == s * s;
    assert g == s;
  }

  /** Dividing by `b` and multiplying by `a` is multiplying the two-fold quotient by `a * a`. */
  lemma SpreadRatio(c: real, a: real, b: real)
    requires a != 0.0 && b != 0.0
    ensures c / b * a == ((c / a) / b) * (a * a)
  {
    var g := c / a;
    assert c == g * a;
    assert c / b == (g / b) * a;
  }

  lemma MulAssoc(c: real, a: real, b: real)
    ensures c * a * b == c * (a * b)
  {
  }

  // ---------------------------------------------------------------- sums

  lemma {:induction false} SumShift(x: seq<real>, c: real)
    ensures Sum(Shift(x, c)) == Sum(x) - |x| as real * c
  {
    if |x| > 0 {
      var n := |x|;
      assert Shift(x, c)[..n - 1] == Shift(x[..n - 1], c);
      SumShift(x[..n - 1], c);
    }
  }

  lemma {:induction false} SumScale(x: seq<real>, s: real)
    requires s != 0.0
    ensures Sum(Scale(x, s)) == Sum(x) / s
  {
    if |x| > 0 {
      var n := |x|;
      assert Scale(x, s)[..n - 1] == Scale(x[..n - 1], s);
      SumScale(x[..n - 1], s);
      assert Sum(x[..n - 1]) / s + x[n - 1] / s == (Sum(x[..n - 1]) + x[n - 1]) / s;
    }
  }

  /** Centring removes the mean: a centred column sums to zero. */
  lemma CenteredSumsToZero(x: seq<real>)
    requires |x| > 0
    ensures Sum(Centered(x)) == 0.0
  {
    var n := |x| as real;
    SumShift(x, Mean(x));
    assert n * (Sum(x) / n) == Sum(x);
  }

  /** A centred column still sums to zero after division by its spread. */
  lemma StandardizedSumsToZero(x: seq<real>, s: real)
    requires |x| > 0 && s != 0.0
    ensures Sum(Scale(Centered(x), s)) == 0.0
  {
    CenteredSumsToZero(x);
    SumScale(Centered(x), s);
  }

  // -------------------------------------------------------- dot products

  lemma {:induction false} DotSymmetric(x: seq<real>, y: seq<real>)
    requires |x| == |y|
    ensures Dot(x, y) == Dot(y, x)
  {
    if |x| > 0 {
      DotSymmetric(x[..|x| - 1], y[..|y| - 1]);
    }
  }

  lemma {:induction false} DotScaleLeft(x: seq<real>, y: seq<real>, s: real)
    requires |x| == |y| && s != 0.0
    ensures Dot(Scale(x, s), y) == Dot(x, y) / s
  {
    if |x| > 0 {
      var n := |x|;
      assert Scale(x, s)[..n - 1] == Scale(x[..n - 1], s);
      DotScaleLeft(x[..n - 1], y[..n - 1], s);
      assert (x[n - 1] / s) * y[n - 1] == (x[n - 1] * y[n - 1]) / s;
      assert Dot(x[..n - 1], y[..n - 1]) / s + (x[n - 1] * y[n - 1]) / s
          == (Dot(x[..n - 1], y[..n - 1]) + x[n - 1] * y[n - 1]) / s;
    }
  }

  lemma DotScaleRight(x: seq<real>, y: seq<real>, s: real)
    requires |x| == |y| && s != 0.0
    ensures Dot(x, Scale(y, s)) == Dot(x, y) / s
  {
    DotSymmetric(x, Scale(y, s));
    DotScaleLeft(y, x, s);
    DotSymmetric(x, y);
  }

  lemma {:induction false} DotSelfNonnegative(x: seq<real>)
    ensures Dot(x, x) >= 0.0
  {
    if |x| > 0 {
      DotSelfNonnegative(x[..|x| - 1]);
    }
  }

  // ---------------------------------------------- variance and correlation

  lemma VarianceNonnegative(x: seq<real>)
    requires |x| >= 2
    ensures Variance(x) >= 0.0
  {
    DotSelfNonnegative(Centered(x));
  }

  /** The standard deviation is the square root of the variance. */
  lemma StdDevSquared(m: Functions, x: seq<real>)
    requires Sound(m) && |x| >= 2
    ensures StdDev(m, x) >= 0.0
    ensures StdDev(m, x) * StdDev(m, x) == Variance(x)
  {
    VarianceNonnegative(x);
  }

  lemma CovarianceSymmetric(x: seq<real>, y: seq<real>)
    requires |x| == |y| && |x| >= 2
    ensures Covariance(x, y) == Covariance(y, x)
  {
    DotSymmetric(Centered(x), Centered(y));
  }

  lemma CorrelationSymmetric(m: Functions, x: seq<real>, y: seq<real>)
    requires |x| == |y| && |x| >= 2
    requires StdDev(m, x) != 0.0 && StdDev(m, y) != 0.0
    ensures Correlation(m, x, y) == Correlation(m, y, x)
  {
    CovarianceSymmetric(x, y);
    assert StdDev(m, x) * StdDev(m, y) == StdDev(m, y) * StdDev(m, x);
  }

  /** A column is perfectly correlated with itself. */
  lemma SelfCorrelation(m: Functions, x: seq<real>)
    requires Sound(m) && |x| >= 2 && StdDev(m, x) != 0.0
    ensures Correlation(m, x, x) == 1.0
  {
    StdDevSquared(m, x);
    DivByRootTwice(Covariance(x, x), StdDev(m, x));
  }

  /**
   * The dot product of a standardized column with a centred one, over
   * `n - 1`, is their covariance divided by the first column's spread.
   */
  lemma StandardizedDotCentered(m: Functions, x: seq<real>, y: seq<real>)
    requires |x| == |y| && |x| >= 2 && StdDev(m, x) != 0.0
    ensures Dot(Scale(Centered(x), StdDev(m, x)), Centered(y)) / (|x| - 1) as real
         == Covariance(x, y) / StdDev(m, x)
  {
    var sx, k := StdDev(m, x), (|x| - 1) as real;
    var d := Dot(Centered(x), Centered(y));
    DotScaleLeft(Centered(x), Centered(y), sx);
    DivCommute(d, sx, k);
  }

  /**
   * The dot product of two standardized columns, over `n - 1`, is their
   * Pearson correlation.
   */
  lemma StandardizedDotIsCorrelation(m: Functions, x: seq<real>, y: seq<real>)
    requires |x| == |y| && |x| >= 2
    requires StdDev(m, x) != 0.0 && StdDev(m, y) != 0.0
    ensures Dot(Scale(Centered(x), StdDev(m, x)), Scale(Centered(y), StdDev(m, y))) / (|x| - 1) as real
         == Correlation(m, x, y)
  {
    var sx, sy, k := StdDev(m, x), StdDev(m, y), (|x| - 1) as real;
    var d := Dot(Centered(x), Centered(y));
    DotScaleLeft(Centered(x), Scale(Centered(y), sy), sx);
    DotScaleRight(Centered(x), Centered(y), sy);
    assert Dot(Scale(Centered(x), sx), Scale(Centered(y), sy)) == (d / sy) / sx;
    Regroup(d, sx, sy, k);
    assert Correlation(m, x, y) == ((d / k) / sx) / sy;
  }

  /** Scaling twice by the spread scales by the variance. */
  lemma ScaledBySpreadTwice(m: Functions, x: seq<real>, c: real)
    requires Sound(m) && |x| >= 2
    ensures c * StdDev(m, x) * StdDev(m, x) == c * Variance(x)
  {
    StdDevSquared(m, x);
    MulAssoc(c, StdDev(m, x), StdDev(m, x));
  }

  /**
   * The covariance over the spread of `y`, times the spread of `x`, is the
   * correlation times the variance of `x`.
   */
  lemma CovarianceOverSpread(m: Functions, x: seq<real>, y: seq<real>)
    requires Sound(m) && |x| == |y| && |x| >= 2
    requires StdDev(m, x) != 0.0 && StdDev(m, y) != 0.0
    ensures Covariance(x, y) / StdDev(m, y) * StdDev(m, x) == Correlation(m, x, y) * Variance(x)
  {
    StdDevSquared(m, x);
    SpreadRatio(Covariance(x, y), StdDev(m, x), StdDev(m, y));
  }
}
