/**
 * The interval cache of the estimator as a state machine: the interval
 * method flag last used, and the first- and total-order intervals last
 * computed. Both interval accessors run the same transition.
 */
module ResultCache {
  import opened Errors
  import opened Fisher

  datatype Cache = Cache(useAsymptotic: bool, first: Interval, total: Interval)

  /** The cache after one accessor call, its error if any, and whether the asymptotic computation ran. */
  datatype Step = Step(cache: Cache, error: Option<SensitivityError>, ranAsymptotic: bool)

  /** Store the configured flag; a changed flag discards both intervals. */
  function Invalidate(c: Cache, configured: bool): Cache
  {
    if c.useAsymptotic != configured then Cache(configured, Empty, Empty) else c
  }

  /** computeAsymptoticInterval: keep an interval already computed, otherwise compute both. */
  function AsymptoticStep(c: Cache, asymptotic: Result<IntervalPair>): Step
  {
    if c.first.Dimension() != 0 then Step(c, None, false)
    else
      match asymptotic
      case Success(pair) => Step(Cache(c.useAsymptotic, pair.first, pair.total), None, true)
      case Failure(e) => Step(c, Some(e), true)
  }

  /** One call of either interval accessor. */
  function Refresh(c: Cache, configured: bool, asymptotic: Result<IntervalPair>, resampled: IntervalPair): Step
  {
    var c' := Invalidate(c, configured);
    if configured then AsymptoticStep(c', asymptotic)
    else Step(Cache(false, resampled.first, resampled.total), None, false)
  }

  /** A computed interval stored under the asymptotic flag is the asymptotic result. */
  predicate Consistent(c: Cache, asymptotic: Result<IntervalPair>)
  {
    c.useAsymptotic && c.first.Dimension() != 0 ==> asymptotic == Success(IntervalPair(c.first, c.total))
  }

  /** Every call leaves the configured flag stored and keeps the cache consistent. */
  lemma RefreshKeepsConsistent(c: Cache, configured: bool, asymptotic: Result<IntervalPair>, resampled: IntervalPair)
    requires Consistent(c, asymptotic)
    ensures Refresh(c, configured, asymptotic, resampled).cache.useAsymptotic == configured
    ensures Consistent(Refresh(c, configured, asymptotic, resampled).cache, asymptotic)
  {
  }

  /**
   * The cache never changes an answer: from a consistent cache, a call
   * yields the asymptotic intervals (or their error) when the flag is set
   * and the resampled intervals otherwise, whatever was cached before.
   */
  lemma RefreshAnswersFresh(c: Cache, configured: bool, asymptotic: Result<IntervalPair>, resampled: IntervalPair)
    requires Consistent(c, asymptotic)
    ensures var step := Refresh(c, configured, asymptotic, resampled);
      && (configured && asymptotic.Success? ==>
            step.error.None? && step.cache.first == asymptotic.value.first && step.cache.total == asymptotic.value.total)
      && (configured && asymptotic.Failure? ==> step.error == Some(asymptotic.error))
      && (!configured ==>
            step.error.None? && step.cache.first == resampled.first && step.cache.total == resampled.total)
  {
  }

  /**
   * A flag different from the stored one discards whatever was cached: the
   * call behaves as on an empty cache, and on the asymptotic path it computes.
   */
  lemma FlagChangeDiscardsCache(c: Cache, configured: bool, asymptotic: Result<IntervalPair>, resampled: IntervalPair)
    requires c.useAsymptotic != configured
    ensures Refresh(c, configured, asymptotic, resampled) == Refresh(Cache(c.useAsymptotic, Empty, Empty), configured, asymptotic, resampled)
    ensures configured ==> Refresh(c, configured, asymptotic, resampled).ranAsymptotic
  {
  }

  /** With the stored flag unchanged, invalidation leaves the cache as it is. */
  lemma SameFlagKeepsCache(c: Cache)
    ensures Invalidate(c, c.useAsymptotic) == c
  {
  }

  /**
   * Under the asymptotic flag, calling again changes nothing and gives the
   * same error; after a successful computation with at least one input,
   * the second call does not compute again.
   */
  lemma RefreshIdempotent(c: Cache, asymptotic: Result<IntervalPair>, resampled: IntervalPair)
    ensures var s1 := Refresh(c, true, asymptotic, resampled);
      var s2 := Refresh(s1.cache, true, asymptotic, resampled);
      s2.cache == s1.cache && s2.error == s1.error
      && (asymptotic.Success? && asymptotic.value.first.Dimension() != 0 ==> !s2.ranAsymptotic)
  {
  }

  /**
   * Without the asymptotic flag nothing is cached: every call stores the
   * resampled intervals it is given, whatever the cache held, and never
   * fails or computes the asymptotic intervals.
   */
  lemma ResampledPathStoresEachResult(c: Cache, asymptotic: Result<IntervalPair>, resampled: IntervalPair)
    ensures Refresh(c, false, asymptotic, resampled) == Step(Cache(false, resampled.first, resampled.total), None, false)
  {
  }

  /** So two calls with different resamples end with different caches. */
  lemma ResampledPathNotCached(c: Cache, asymptotic: Result<IntervalPair>, r1: IntervalPair, r2: IntervalPair)
    requires r1 != r2
    ensures var s1 := Refresh(c, false, asymptotic, r1);
      Refresh(s1.cache, false, asymptotic, r2).cache != s1.cache
  {
    ResampledPathStoresEachResult(c, asymptotic, r1);
    ResampledPathStoresEachResult(Refresh(c, false, asymptotic, r1).cache, asymptotic, r2);
  }
}
