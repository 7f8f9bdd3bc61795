/**
 * The Martinez estimator of first- and total-order Sobol' indices: the
 * per-component variances read off a pick-freeze design as Pearson
 * correlations, and the interval accessors with their cache.
 */
module Martinez {
  import opened Errors
  import opened Numerics
  import opened Stats
  import opened Samples
  import opened PickFreeze
  import opened Fisher
  import opened ResultCache
  import opened Estimator

  /** The two [outputDimension x inputDimension] matrices computeIndices yields. */
  datatype Indices = Indices(varianceI: Sample, vti: Sample)

  /** Output component `q` of block `b` of the design, one value per point. */
  function BlockColumn(s: Sample, size: nat, inputDimension: nat, outputDimension: nat, b: Block, q: nat): (c: seq<real>)
    requires IsDesign(s, size, inputDimension, outputDimension) && IsBlockOf(b, inputDimension) && q < outputDimension
    ensures |c| == size
  {
    Column(BlockRows(s, size, inputDimension, b), q)
  }

  /** The standard deviation of every output component over block `b`. */
  function BlockSigma(m: Functions, s: Sample, size: nat, inputDimension: nat, outputDimension: nat, b: Block): (sigma: seq<real>)
    requires IsDesign(s, size, inputDimension, outputDimension) && IsBlockOf(b, inputDimension) && size >= 2
    ensures |sigma| == outputDimension
    ensures forall q :: 0 <= q < outputDimension ==>
      sigma[q] == StdDev(m, BlockColumn(s, size, inputDimension, outputDimension, b, q))
  {
    ComputeStandardDeviationPerComponent(m, BlockRows(s, size, inputDimension, b), outputDimension)
  }

  /** Blocks B and E_p can both be centred and reduced. */
  predicate Standardizable(m: Functions, s: Sample, size: nat, inputDimension: nat, outputDimension: nat, p: nat)
    requires IsDesign(s, size, inputDimension, outputDimension) && p < inputDimension
  {
    size >= 2
    && 0.0 !in BlockSigma(m, s, size, inputDimension, outputDimension, B)
    && 0.0 !in BlockSigma(m, s, size, inputDimension, outputDimension, E(p))
  }

  /**
   * The design has at least one input and cannot be standardized: fewer
   * than two points, or a constant component in B or some E_p. With no
   * input nothing is ever standardized.
   */
  predicate Degenerate(m: Functions, s: Sample, size: nat, inputDimension: nat, outputDimension: nat)
    requires IsDesign(s, size, inputDimension, outputDimension)
  {
    inputDimension > 0
    && (size < 2
        || 0.0 in BlockSigma(m, s, size, inputDimension, outputDimension, B)
        || exists p :: 0 <= p < inputDimension && 0.0 in BlockSigma(m, s, size, inputDimension, outputDimension, E(p)))
  }

  /** V_p for output q, with the columns of A, B and E_p read off the design. */
  function DesignFirstOrderVariance(m: Functions, s: Sample, size: nat, inputDimension: nat, outputDimension: nat, p: nat, q: nat): real
    requires IsDesign(s, size, inputDimension, outputDimension) && p < inputDimension && q < outputDimension
    requires Standardizable(m, s, size, inputDimension, outputDimension, p)
  {
    SpreadOfComponent(m, BlockRows(s, size, inputDimension, B), outputDimension, q);
    SpreadOfComponent(m, BlockRows(s, size, inputDimension, E(p)), outputDimension, q);
    FirstOrderVariance(m, BlockColumn(s, size, inputDimension, outputDimension, A, q),
                       BlockColumn(s, size, inputDimension, outputDimension, B, q),
                       BlockColumn(s, size, inputDimension, outputDimension, E(p), q))
  }

  /** VTi for input p and output q, with the columns of A and E_p read off the design. */
  function DesignTotalOrderComplement(m: Functions, s: Sample, size: nat, inputDimension: nat, outputDimension: nat,
                                      referenceVariance: seq<real>, p: nat, q: nat): real
    requires IsDesign(s, size, inputDimension, outputDimension) && p < inputDimension && q < outputDimension
    requires |referenceVariance| == outputDimension
    requires Standardizable(m, s, size, inputDimension, outputDimension, p)
  {
    SpreadOfComponent(m, BlockRows(s, size, inputDimension, E(p)), outputDimension, q);
    TotalOrderComplement(m, referenceVariance[q], BlockColumn(s, size, inputDimension, outputDimension, A, q),
                         BlockColumn(s, size, inputDimension, outputDimension, E(p), q))
  }

  /**
   * The two entries computeIndices writes for input p and output q, from
   * the centred block A and the standardized blocks B and E_p, are V_p and
   * VTi read off the design.
   */
  lemma DesignEntries(m: Functions, s: Sample, size: nat, inputDimension: nat, outputDimension: nat,
                      referenceVariance: seq<real>, p: nat, q: nat)
    requires Sound(m) && IsDesign(s, size, inputDimension, outputDimension) && |referenceVariance| == outputDimension
    requires p < inputDimension && q < outputDimension
    requires Standardizable(m, s, size, inputDimension, outputDimension, p)
    ensures
      var rowsA := BlockRows(s, size, inputDimension, A);
      var sigmaA := ComputeStandardDeviationPerComponent(m, rowsA, outputDimension);
      var yA := Subtract(rowsA, ComputeMean(rowsA, outputDimension));
      var yB := Standardize(m, BlockRows(s, size, inputDimension, B), outputDimension);
      var yE := Standardize(m, BlockRows(s, size, inputDimension, E(p)), outputDimension);
      && EntryFirstOrder(ComputeSumDotSamples(yE, yB, outputDimension)[q], size, sigmaA[q])
         == DesignFirstOrderVariance(m, s, size, inputDimension, outputDimension, p, q)
      && EntryTotalOrder(referenceVariance[q], ComputeSumDotSamples(yE, yA, outputDimension)[q], size, sigmaA[q])
         == DesignTotalOrderComplement(m, s, size, inputDimension, outputDimension, referenceVariance, p, q)
  {
    var rowsA, rowsB, rowsE := BlockRows(s, size, inputDimension, A), BlockRows(s, size, inputDimension, B), BlockRows(s, size, inputDimension, E(p));
    FirstOrderEntry(m, rowsA, rowsB, rowsE, outputDimension, q);
    TotalOrderEntry(m, referenceVariance[q], rowsA, rowsE, outputDimension, q);
  }

  /** Columns 0 .. done-1 of both matrices hold V_k and VTi for every output. */
  ghost predicate ColumnsDone(m: Functions, s: Sample, size: nat, inputDimension: nat, outputDimension: nat,
                              referenceVariance: seq<real>, varianceI: Sample, vti: Sample, done: nat)
    requires IsDesign(s, size, inputDimension, outputDimension) && |referenceVariance| == outputDimension
    requires done <= inputDimension
  {
    IsMatrix(varianceI, outputDimension, inputDimension) && IsMatrix(vti, outputDimension, inputDimension)
    && (forall k :: 0 <= k < done ==> Standardizable(m, s, size, inputDimension, outputDimension, k))
    && forall q, k :: 0 <= q < outputDimension && 0 <= k < done ==>
         varianceI[q][k] == DesignFirstOrderVariance(m, s, size, inputDimension, outputDimension, k, q)
         && vti[q][k] == DesignTotalOrderComplement(m, s, size, inputDimension, outputDimension, referenceVariance, k, q)
  }

  /**
   * `y -= mean(y); y /= sigma(y)` for block `b`, or nothing when a
   * component of the block is constant.
   */
  method CenterReduce(m: Functions, s: Sample, size: nat, inputDimension: nat, outputDimension: nat, b: Block)
    returns (y: Option<Sample>)
    requires IsDesign(s, size, inputDimension, outputDimension) && IsBlockOf(b, inputDimension) && size >= 2
    ensures y.None? <==> 0.0 in BlockSigma(m, s, size, inputDimension, outputDimension, b)
    ensures y.Some? ==> y.value == Standardize(m, BlockRows(s, size, inputDimension, b), outputDimension)
  {
    var rows := BlockRows(s, size, inputDimension, b);
    var mu := ComputeMean(rows, outputDimension);
    var sigma := ComputeStandardDeviationPerComponent(m, rows, outputDimension);
    rows := Subtract(rows, mu);
    if 0.0 in sigma {
      return None;
    }
    return Some(Divide(rows, sigma));
  }

  /**
   * The inner loop of computeIndices: writes V_p and VTi for every output
   * into column p of both matrices and leaves the other columns alone.
   */
  method WriteColumn(varianceI: Sample, vti: Sample, inputDimension: nat, outputDimension: nat,
                     referenceVariance: seq<real>, yEDotyB: seq<real>, yEDotyA: seq<real>, sigmaA: seq<real>,
                     size: nat, p: nat)
    returns (varianceI': Sample, vti': Sample)
    requires IsMatrix(varianceI, outputDimension, inputDimension) && IsMatrix(vti, outputDimension, inputDimension)
    requires |referenceVariance| == |yEDotyB| == |yEDotyA| == |sigmaA| == outputDimension
    requires size >= 2 && p < inputDimension
    ensures IsMatrix(varianceI', outputDimension, inputDimension) && IsMatrix(vti', outputDimension, inputDimension)
    ensures forall q, k :: 0 <= q < outputDimension && 0 <= k < inputDimension && k != p ==>
      varianceI'[q][k] == varianceI[q][k] && vti'[q][k] == vti[q][k]
    ensures forall q :: 0 <= q < outputDimension ==>
      varianceI'[q][p] == EntryFirstOrder(yEDotyB[q], size, sigmaA[q])
      && vti'[q][p] == EntryTotalOrder(referenceVariance[q], yEDotyA[q], size, sigmaA[q])
  {
    varianceI', vti' := varianceI, vti;
    for q := 0 to outputDimension
      invariant IsMatrix(varianceI', outputDimension, inputDimension) && IsMatrix(vti', outputDimension, inputDimension)
      invariant forall q', k :: 0 <= q' < outputDimension && 0 <= k < inputDimension && k != p ==>
        varianceI'[q'][k] == varianceI[q'][k] && vti'[q'][k] == vti[q'][k]
      invariant forall q' :: 0 <= q' < q ==>
        varianceI'[q'][p] == EntryFirstOrder(yEDotyB[q'], size, sigmaA[q'])
        && vti'[q'][p] == EntryTotalOrder(referenceVariance[q'], yEDotyA[q'], size, sigmaA[q'])
    {
      varianceI' := varianceI'[q := varianceI'[q][p := EntryFirstOrder(yEDotyB[q], size, sigmaA[q])]];
      vti' := vti'[q := vti'[q][p := EntryTotalOrder(referenceVariance[q], yEDotyA[q], size, sigmaA[q])]];
    }
  }

  /** Filling column p from the standardized blocks extends the finished columns by one. */
  lemma ColumnDone(m: Functions, s: Sample, size: nat, inputDimension: nat, outputDimension: nat,
                   referenceVariance: seq<real>, varianceI: Sample, vti: Sample, varianceI': Sample, vti': Sample, p: nat)
    requires Sound(m) && IsDesign(s, size, inputDimension, outputDimension) && |referenceVariance| == outputDimension
    requires p < inputDimension && Standardizable(m, s, size, inputDimension, outputDimension, p)
    requires ColumnsDone(m, s, size, inputDimension, outputDimension, referenceVariance, varianceI, vti, p)
    requires IsMatrix(varianceI', outputDimension, inputDimension) && IsMatrix(vti', outputDimension, inputDimension)
    requires forall q, k :: 0 <= q < outputDimension && 0 <= k < inputDimension && k != p ==>
      varianceI'[q][k] == varianceI[q][k] && vti'[q][k] == vti[q][k]
    requires
      var rowsA := BlockRows(s, size, inputDimension, A);
      var sigmaA := ComputeStandardDeviationPerComponent(m, rowsA, outputDimension);
      var yA := Subtract(rowsA, ComputeMean(rowsA, outputDimension));
      var yB := Standardize(m, BlockRows(s, size, inputDimension, B), outputDimension);
      var yE := Standardize(m, BlockRows(s, size, inputDimension, E(p)), outputDimension);
      forall q :: 0 <= q < outputDimension ==>
        varianceI'[q][p] == EntryFirstOrder(ComputeSumDotSamples(yE, yB, outputDimension)[q], size, sigmaA[q])
        && vti'[q][p] == EntryTotalOrder(referenceVariance[q], ComputeSumDotSamples(yE, yA, outputDimension)[q], size, sigmaA[q])
    ensures ColumnsDone(m, s, size, inputDimension, outputDimension, referenceVariance, varianceI', vti', p + 1)
  {
    forall q | 0 <= q < outputDimension
      ensures varianceI'[q][p] == DesignFirstOrderVariance(m, s, size, inputDimension, outputDimension, p, q)
      ensures vti'[q][p] == DesignTotalOrderComplement(m, s, size, inputDimension, outputDimension, referenceVariance, p, q)
    {
      DesignEntries(m, s, size, inputDimension, outputDimension, referenceVariance, p, q);
    }
  }

  /**
   * One pass of the outer loop of computeIndices: standardizes block E_p
   * and fills column p of both matrices, or reports a constant component
   * of E_p.
   */
  method EstimateInput(m: Functions, s: Sample, size: nat, inputDimension: nat, outputDimension: nat,
                       referenceVariance: seq<real>, yA: Sample, sigmaA: seq<real>, yB: Sample,
                       varianceI: Sample, vti: Sample, p: nat)
    returns (varianceI': Sample, vti': Sample, done: bool)
    requires Sound(m) && IsDesign(s, size, inputDimension, outputDimension) && |referenceVariance| == outputDimension
    requires size >= 2 && p < inputDimension
    requires 0.0 !in BlockSigma(m, s, size, inputDimension, outputDimension, B)
    requires yA == Subtract(BlockRows(s, size, inputDimension, A), ComputeMean(BlockRows(s, size, inputDimension, A), outputDimension))
    requires sigmaA == ComputeStandardDeviationPerComponent(m, BlockRows(s, size, inputDimension, A), outputDimension)
    requires yB == Standardize(m, BlockRows(s, size, inputDimension, B), outputDimension)
    requires ColumnsDone(m, s, size, inputDimension, outputDimension, referenceVariance, varianceI, vti, p)
    ensures done <==> 0.0 !in BlockSigma(m, s, size, inputDimension, outputDimension, E(p))
    ensures done ==> ColumnsDone(m, s, size, inputDimension, outputDimension, referenceVariance, varianceI', vti', p + 1)
  {
    var w := outputDimension;
    var yE := CenterReduce(m, s, size, inputDimension, w, E(p));
    if yE.None? {
      return varianceI, vti, false;
    }
    var yEDotyB := ComputeSumDotSamples(yE.value, yB, w);
    var yEDotyA := ComputeSumDotSamples(yE.value, yA, w);
    varianceI', vti' := WriteColumn(varianceI, vti, inputDimension, outputDimension, referenceVariance, yEDotyB, yEDotyA,
                                    sigmaA, size, p);
    ColumnDone(m, s, size, inputDimension, outputDimension, referenceVariance, varianceI, vti, varianceI', vti', p);
    done := true;
  }

  /** Once every column is done, no block of the design is degenerate. */
  lemma AllStandardizable(m: Functions, s: Sample, size: nat, inputDimension: nat, outputDimension: nat,
                          referenceVariance: seq<real>, varianceI: Sample, vti: Sample)
    requires IsDesign(s, size, inputDimension, outputDimension) && |referenceVariance| == outputDimension
    requires size >= 2 && 0.0 !in BlockSigma(m, s, size, inputDimension, outputDimension, B)
    requires ColumnsDone(m, s, size, inputDimension, outputDimension, referenceVariance, varianceI, vti, inputDimension)
    ensures !Degenerate(m, s, size, inputDimension, outputDimension)
  {
    forall k | 0 <= k < inputDimension
      ensures 0.0 !in BlockSigma(m, s, size, inputDimension, outputDimension, E(k))
    {
      assert Standardizable(m, s, size, inputDimension, outputDimension, k);
    }
  }

  /**
   * The loop of computeAsymptoticInterval: each first-order index, and one
   * minus each total-order index, read as a correlation, mapped to z-space,
   * widened by `w` and mapped back.
   */
  method FisherBounds(m: Functions, first: seq<real>, total: seq<real>, w: real) returns (r: Result<IntervalPair>)
    requires |first| == |total|
    ensures r == Bounds(m, first, total, w)
  {
    var d := |first|;
    var firstLower, firstUpper := seq(d, _ => 0.0), seq(d, _ => 0.0);
    var totalLower, totalUpper := seq(d, _ => 0.0), seq(d, _ => 0.0);
    for p := 0 to d
      invariant |firstLower| == d && |firstUpper| == d && |totalLower| == d && |totalUpper| == d
      invariant forall k :: 0 <= k < p ==> InputInDomain(first, total, k)
      invariant forall k :: 0 <= k < p ==>
        IsCorrelation(first[k]) && IsCorrelation(1.0 - total[k]) &&
        firstLower[k] == FirstOrderLower(m, first[k], w) && firstUpper[k] == FirstOrderUpper(m, first[k], w)
        && totalLower[k] == TotalOrderLower(m, total[k], w) && totalUpper[k] == TotalOrderUpper(m, total[k], w)
    {
      // first order: S_p read as a correlation coefficient
      var rho := first[p];
      if !IsCorrelation(rho) {
        FirstOutOfDomainAt(first, total, 0, p);
        return Failure(CorrelationOutOfDomain(p));
      }
      var zmin, zmax := rho, rho;
      if InFisherDomain(rho) {
        var z := FisherZ(m, rho);
        zmin, zmax := m.tanh(z - w), m.tanh(z + w);
      }
      firstLower := firstLower[p := zmin];
      firstUpper := firstUpper[p := zmax];
      // total order: 1 - ST_p read as a correlation coefficient
      rho := 1.0 - total[p];
      if !IsCorrelation(rho) {
        FirstOutOfDomainAt(first, total, 0, p);
        return Failure(CorrelationOutOfDomain(p));
      }
      zmin, zmax := rho, rho;
      if InFisherDomain(rho) {
        var z := FisherZ(m, rho);
        zmin, zmax := m.tanh(z - w), m.tanh(z + w);
      }
      totalLower := totalLower[p := 1.0 - zmax];
      totalUpper := totalUpper[p := 1.0 - zmin];
    }
    FirstOutOfDomainAt(first, total, 0, d);
    assert Interval(firstLower, firstUpper) == FirstOrderBox(m, first, total, w);
    assert Interval(totalLower, totalUpper) == TotalOrderBox(m, first, total, w);
    return Success(IntervalPair(Interval(firstLower, firstUpper), Interval(totalLower, totalUpper)));
  }

  /** The Martinez estimator with its interval cache. */
  class MartinezSensitivityAlgorithm {
    const inputDimension: nat
    const outputDimension: nat
    const size: nat
    /** The variance of each output over the design, as the base class computes it. */
    const referenceVariance: seq<real>
    const confidenceLevel: real
    /** The aggregated first- and total-order indices, as the base class computes them. */
    const aggregatedFirstOrder: seq<real>
    const aggregatedTotalOrder: seq<real>
    const numerics: Functions

    var useAsymptoticInterval: bool
    var firstOrderIndiceInterval: Interval
    var totalOrderIndiceInterval: Interval
    /** How many times the asymptotic intervals were actually computed. */
    ghost var asymptoticRuns: nat

    /** What the base class guarantees about the inputs. */
    ghost predicate Inputs()
    {
      Sound(numerics)
      && |referenceVariance| == outputDimension
      && |aggregatedFirstOrder| == inputDimension && |aggregatedTotalOrder| == inputDimension
      && 0.0 <= confidenceLevel <= 1.0
    }

    ghost function State(): Cache
      reads this
    {
      Cache(useAsymptoticInterval, firstOrderIndiceInterval, totalOrderIndiceInterval)
    }

    /** The asymptotic intervals this estimator's indices call for. */
    ghost function Asymptotic(): Result<IntervalPair>
      requires Inputs()
    {
      AsymptoticIntervals(numerics, aggregatedFirstOrder, aggregatedTotalOrder, confidenceLevel, size)
    }

    ghost predicate Valid()
      reads this
    {
      Inputs() && Consistent(State(), Asymptotic())
    }

    /** Construction from designs: the flag is read from the configuration, no interval is computed. */
    constructor (inputDimension: nat, outputDimension: nat, size: nat, referenceVariance: seq<real>,
                 confidenceLevel: real, aggregatedFirstOrder: seq<real>, aggregatedTotalOrder: seq<real>,
                 numerics: Functions, configured: bool)
      requires Sound(numerics) && |referenceVariance| == outputDimension
      requires |aggregatedFirstOrder| == inputDimension && |aggregatedTotalOrder| == inputDimension
      requires 0.0 <= confidenceLevel <= 1.0
      ensures Valid()
      ensures this.inputDimension == inputDimension && this.outputDimension == outputDimension && this.size == size
      ensures this.referenceVariance == referenceVariance && this.confidenceLevel == confidenceLevel
      ensures this.aggregatedFirstOrder == aggregatedFirstOrder && this.aggregatedTotalOrder == aggregatedTotalOrder
      ensures this.numerics == numerics
      ensures useAsymptoticInterval == configured
      ensures firstOrderIndiceInterval == Empty && totalOrderIndiceInterval == Empty
      ensures asymptoticRuns == 0
    {
      this.inputDimension := inputDimension;
      this.outputDimension := outputDimension;
      this.size := size;
      this.referenceVariance := referenceVariance;
      this.confidenceLevel := confidenceLevel;
      this.aggregatedFirstOrder := aggregatedFirstOrder;
      this.aggregatedTotalOrder := aggregatedTotalOrder;
      this.numerics := numerics;
      useAsymptoticInterval := configured;
      firstOrderIndiceInterval := Empty;
      totalOrderIndiceInterval := Empty;
      asymptoticRuns := 0;
    }

    /**
     * The first-order variances and the VTi matrix from a pick-freeze
     * design; fails exactly when a block cannot be standardized.
     */
    method ComputeIndices(sample: Sample) returns (r: Result<Indices>)
      requires Inputs() && IsDesign(sample, size, inputDimension, outputDimension)
      ensures r.Failure? <==> Degenerate(numerics, sample, size, inputDimension, outputDimension)
      ensures size < 2 && inputDimension > 0 ==> r == Failure(SampleTooSmall(size))
      ensures r.Success? ==>
        IsMatrix(r.value.varianceI, outputDimension, inputDimension) && IsMatrix(r.value.vti, outputDimension, inputDimension)
      ensures r.Success? ==> forall q, p :: 0 <= q < outputDimension && 0 <= p < inputDimension ==>
        r.value.varianceI[q][p] == DesignFirstOrderVariance(numerics, sample, size, inputDimension, outputDimension, p, q)
        && r.value.vti[q][p] == DesignTotalOrderComplement(numerics, sample, size, inputDimension, outputDimension, referenceVariance, p, q)
    {
      var d, w, n := inputDimension, outputDimension, size;
      if d == 0 {
        // the loop over inputs never runs, so nothing is divided and both matrices are empty
        return Success(Indices(Zeros(w, 0), Zeros(w, 0)));
      }
      if n < 2 {
        return Failure(SampleTooSmall(n));
      }
      var varianceI := Zeros(w, d);
      var vti := Zeros(w, d);
      // reference sample A, centred
      var yA := BlockRows(sample, n, d, A);
      var sigmaA := ComputeStandardDeviationPerComponent(numerics, yA, w);
      yA := Subtract(yA, ComputeMean(yA, w));
      // reference sample B, centred and reduced
      var yB := CenterReduce(numerics, sample, n, d, w, B);
      if yB.None? {
        return Failure(DegenerateBlock);
      }
      for p := 0 to d
        invariant ColumnsDone(numerics, sample, n, d, w, referenceVariance, varianceI, vti, p)
      {
        var done;
        varianceI, vti, done := EstimateInput(numerics, sample, n, d, w, referenceVariance, yA, sigmaA, yB.value,
                                              varianceI, vti, p);
        if !done {
          return Failure(DegenerateBlock);
        }
      }
      AllStandardizable(numerics, sample, n, d, w, referenceVariance, varianceI, vti);
      return Success(Indices(varianceI, vti));
    }

    /**
     * Computes both asymptotic intervals unless the first-order one is
     * already there; on an error nothing is stored.
     */
    method ComputeAsymptoticInterval() returns (error: Option<SensitivityError>)
      requires Valid()
      modifies this`firstOrderIndiceInterval, this`totalOrderIndiceInterval, this`asymptoticRuns
      ensures Valid()
      ensures var step := AsymptoticStep(old(State()), Asymptotic());
        State() == step.cache && error == step.error
        && asymptoticRuns == old(asymptoticRuns) + (if step.ranAsymptotic then 1 else 0)
    {
      if firstOrderIndiceInterval.Dimension() != 0 {
        return None;
      }
      asymptoticRuns := asymptoticRuns + 1;
      var first, total := aggregatedFirstOrder, aggregatedTotalOrder;
      var t := numerics.qNormal(QuantileLevel(confidenceLevel));
      var n := size;
      if n <= 3 {
        return Some(AsymptoticSampleTooSmall(n));
      }
      SqrtPositive(numerics, n as real - 3.0);
      var w := t / numerics.sqrt(n as real - 3.0);
      assert w == HalfWidth(numerics, t, n);
      var bounds := FisherBounds(numerics, first, total, w);
      if bounds.Failure? {
        return Some(bounds.error);
      }
      firstOrderIndiceInterval := bounds.value.first;
      totalOrderIndiceInterval := bounds.value.total;
      return None;
    }

    /** The resampling path: stores the intervals the bootstrap produced. */
    method ComputeIndicesInterval(resampled: IntervalPair)
      requires Valid() && !useAsymptoticInterval
      modifies this`firstOrderIndiceInterval, this`totalOrderIndiceInterval
      ensures Valid()
      ensures firstOrderIndiceInterval == resampled.first && totalOrderIndiceInterval == resampled.total
    {
      firstOrderIndiceInterval := resampled.first;
      totalOrderIndiceInterval := resampled.total;
    }

    /** Brings the cache in line with the configured flag, then fills it by the configured method. */
    method Update(configured: bool, resampled: IntervalPair) returns (error: Option<SensitivityError>)
      requires Valid()
      modifies this`useAsymptoticInterval, this`firstOrderIndiceInterval, this`totalOrderIndiceInterval, this`asymptoticRuns
      ensures Valid()
      ensures var step := Refresh(old(State()), configured, Asymptotic(), resampled);
        State() == step.cache && error == step.error
        && asymptoticRuns == old(asymptoticRuns) + (if step.ranAsymptotic then 1 else 0)
    {
      if useAsymptoticInterval != configured {
        useAsymptoticInterval := configured;
        firstOrderIndiceInterval := Empty;
        totalOrderIndiceInterval := Empty;
      }
      if useAsymptoticInterval {
        error := ComputeAsymptoticInterval();
      } else {
        ComputeIndicesInterval(resampled);
        error := None;
      }
    }

    /**
     * The first-order interval: the asymptotic one (or why it cannot be
     * computed) when the flag is set, the resampled one otherwise.
     */
    method GetFirstOrderIndicesInterval(configured: bool, resampled: IntervalPair) returns (r: Result<Interval>)
      requires Valid()
      modifies this`useAsymptoticInterval, this`firstOrderIndiceInterval, this`totalOrderIndiceInterval, this`asymptoticRuns
      ensures Valid()
      ensures var step := Refresh(old(State()), configured, Asymptotic(), resampled);
        State() == step.cache && asymptoticRuns == old(asymptoticRuns) + (if step.ranAsymptotic then 1 else 0)
      ensures configured ==> r == (match Asymptotic()
                                   case Success(pair) => Success(pair.first)
                                   case Failure(e) => Failure(e))
      ensures !configured ==> r == Success(resampled.first)
    {
      RefreshAnswersFresh(State(), configured, Asymptotic(), resampled);
      var error := Update(configured, resampled);
      if error.Some? {
        return Failure(error.value);
      }
      return Success(firstOrderIndiceInterval);
    }

    /**
     * The total-order interval: the asymptotic one (or why it cannot be
     * computed) when the flag is set, the resampled one otherwise.
     */
    method GetTotalOrderIndicesInterval(configured: bool, resampled: IntervalPair) returns (r: Result<Interval>)
      requires Valid()
      modifies this`useAsymptoticInterval, this`firstOrderIndiceInterval, this`totalOrderIndiceInterval, this`asymptoticRuns
      ensures Valid()
      ensures var step := Refresh(old(State()), configured, Asymptotic(), resampled);
        State() == step.cache && asymptoticRuns == old(asymptoticRuns) + (if step.ranAsymptotic then 1 else 0)
      ensures configured ==> r == (match Asymptotic()
                                   case Success(pair) => Success(pair.total)
                                   case Failure(e) => Failure(e))
      ensures !configured ==> r == Success(resampled.total)
    {
      RefreshAnswersFresh(State(), configured, Asymptotic(), resampled);
      var error := Update(configured, resampled);
      if error.Some? {
        return Failure(error.value);
      }
      return Success(totalOrderIndiceInterval);
    }
  }

  /**
   * Asking for both intervals under the asymptotic flag computes them at
   * most once, when there is at least one input.
   */
  method FirstThenTotal(alg: MartinezSensitivityAlgorithm, configured: bool, resampled: IntervalPair)
    returns (first: Result<Interval>, total: Result<Interval>)
    requires alg.Valid()
    modifies alg
    ensures alg.Valid()
    ensures configured && alg.Asymptotic().Success? ==>
      first == Success(alg.Asymptotic().value.first) && total == Success(alg.Asymptotic().value.total)
    ensures configured && alg.Asymptotic().Success? && alg.inputDimension > 0 ==>
      alg.asymptoticRuns <= old(alg.asymptoticRuns) + 1
  {
    first := alg.GetFirstOrderIndicesInterval(configured, resampled);
    if configured && alg.Asymptotic().Success? && alg.inputDimension > 0 {
      AsymptoticIntervalsSound(alg.numerics, alg.aggregatedFirstOrder, alg.aggregatedTotalOrder, alg.confidenceLevel, alg.size);
    }
    total := alg.GetTotalOrderIndicesInterval(configured, resampled);
  }
}
