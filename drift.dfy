/**
 * Data-drift detection and model-health monitoring.
 *
 * A `DriftDetector` keeps a reference sample (a matrix plus one name per
 * feature) and compares a current sample against it column by column with a
 * two-sample Kolmogorov-Smirnov test. The test itself is numerical library
 * code; here it is a parameter `ks` that maps the two columns to a statistic
 * and a p-value. A `ModelMonitor` keeps an append-only history of metric
 * snapshots and compares a snapshot against two fixed thresholds.
 *
 * Thresholds and p-values are only ever compared, so `real` stands in for
 * the source's floating-point numbers.
 */
module Drift {
  import opened Wrappers
  import opened Seqs
  import opened Ratio

  /** Drift severity, ordered by increasing severity. */
  datatype DriftLevel = NoDrift | Low | Medium | High | Critical
  {
    /** Position in the order none < low < medium < high < critical. */
    function Rank(): nat
    {
      match this
      case NoDrift => 0
      case Low => 1
      case Medium => 2
      case High => 3
      case Critical => 4
    }

    /** The enumeration's string value. */
    function Value(): string
    {
      match this
      case NoDrift => "none"
      case Low => "low"
      case Medium => "medium"
      case High => "high"
      case Critical => "critical"
    }
  }

  /** Per-feature outcome of one drift check. */
  datatype DriftResult = DriftResult(
    featureName: string,
    driftDetected: bool,
    pValue: real,
    statistic: real,
    driftLevel: DriftLevel)

  /** One snapshot of regression metrics; the timestamp is optional. */
  datatype ModelMetrics = ModelMetrics(mae: real, mse: real, rmse: real, r2: real, timestamp: Option<string>)

  /** What the two-sample test reports for one pair of columns. */
  datatype KsOutcome = KsOutcome(statistic: real, pValue: real)

  /** A two-dimensional numeric array: `rows` observations of `width` features each. */
  datatype Matrix = Matrix(rows: seq<seq<real>>, width: nat)
  {
    /** Every row has `width` entries, as for any two-dimensional array. */
    predicate Valid()
    {
      forall r :: r in rows ==> |r| == width
    }

    /** The i-th column, `data[:, i]`. */
    function Column(i: nat): (c: seq<real>)
      requires Valid() && i < width
      ensures |c| == |rows|
      ensures forall k :: 0 <= k < |rows| ==> c[k] == rows[k][i]
    {
      seq(|rows|, k requires 0 <= k < |rows| => rows[k][i])
    }
  }

  /** The stored reference sample: the data and one name per feature. */
  datatype Reference = Reference(data: Matrix, featureNames: seq<string>)

  /** The errors `detect_drift` raises. */
  datatype DriftError =
    | ReferenceNotSet                                  // RuntimeError "Reference data not set"
    | FeatureCountMismatch(reference: nat, current: nat) // ValueError "Feature count mismatch"
    | ColumnOutOfRange(index: nat)                     // IndexError when a feature name has no column

  /** What `detect_drift` returns: the overall flag and the per-feature results. */
  datatype Detection = Detection(overallDrift: bool, results: seq<DriftResult>)

  /** Decimal digits of a natural number. */
  function NatToString(n: nat): (s: string)
    ensures |s| >= 1
    ensures n >= 10 ==> |s| >= 2
  {
    if n < 10 then [('0' as int + n) as char]
    else NatToString(n / 10) + [('0' as int + n % 10) as char]
  }

  lemma {:induction false} NatToStringInjective(n: nat, m: nat)
    requires NatToString(n) == NatToString(m)
    ensures n == m
    decreases n
  {
    var s := NatToString(n);
    if n >= 10 && m >= 10 {
      assert s[..|s| - 1] == NatToString(n / 10);
      assert NatToString(m)[..|s| - 1] == NatToString(m / 10);
      NatToStringInjective(n / 10, m / 10);
      assert s[|s| - 1] == NatToString(m)[|s| - 1];
    } else if n < 10 && m < 10 {
      assert s[0] == NatToString(m)[0];
    }
  }

  /** The names `feature_0 .. feature_{count-1}` used when no names are supplied. */
  function SyntheticNames(count: nat): (names: seq<string>)
    ensures |names| == count
  {
    seq(count, i requires 0 <= i => "feature_" + NatToString(i))
  }

  /** The synthesised names are pairwise different. */
  lemma SyntheticNamesDistinct(count: nat)
    ensures Distinct(SyntheticNames(count))
  {
    var names := SyntheticNames(count);
    forall i, j | 0 <= i < j < count
      ensures names[i] != names[j]
    {
      if names[i] == names[j] {
        assert names[i][8..] == NatToString(i);
        assert names[j][8..] == NatToString(j);
        NatToStringInjective(i, j);
      }
    }
  }

  /** The names `set_reference` stores: the given ones, unless absent or empty (Python's `or`). */
  function ReferenceNames(given: Option<seq<string>>, width: nat): (names: seq<string>)
    ensures given.Some? && given.value != [] ==> names == given.value
    ensures given.None? || given.value == [] ==> names == SyntheticNames(width) && |names| == width
  {
    if given.Some? && given.value != [] then given.value else SyntheticNames(width)
  }

  /**
   * Severity of a p-value by the fixed table, evaluated from the highest
   * threshold down: each level owns one band of p-values.
   */
  function DriftLevelOf(pValue: real): (level: DriftLevel)
    ensures level == NoDrift <==> 0.1 <= pValue
    ensures level == Low <==> 0.05 <= pValue < 0.1
    ensures level == Medium <==> 0.01 <= pValue < 0.05
    ensures level == High <==> 0.001 <= pValue < 0.01
    ensures level == Critical <==> pValue < 0.001
  {
    if pValue >= 0.1 then NoDrift
    else if pValue >= 0.05 then Low
    else if pValue >= 0.01 then Medium
    else if pValue >= 0.001 then High
    else Critical
  }

  /** The severity table's thresholds, from the highest down. */
  const SeverityThresholds: seq<real> := [0.1, 0.05, 0.01, 0.001]

  /** Severity is the number of table thresholds the p-value falls below. */
  lemma DriftLevelCountsThresholds(pValue: real)
    ensures DriftLevelOf(pValue).Rank() == |Filter(SeverityThresholds, t => pValue < t)|
  {
    var p := t => pValue < t;
    assert Filter(SeverityThresholds[3..], p) == (if pValue < 0.001 then [0.001] else []);
    assert Filter(SeverityThresholds[2..], p) == (if pValue < 0.01 then [0.01] else []) + Filter(SeverityThresholds[3..], p);
    assert Filter(SeverityThresholds[1..], p) == (if pValue < 0.05 then [0.05] else []) + Filter(SeverityThresholds[2..], p);
    assert Filter(SeverityThresholds, p) == (if pValue < 0.1 then [0.1] else []) + Filter(SeverityThresholds[1..], p);
  }

  /** A smaller p-value never yields a lower severity. */
  lemma DriftLevelMonotone(p: real, q: real)
    requires p <= q
    ensures DriftLevelOf(q).Rank() <= DriftLevelOf(p).Rank()
  {
  }

  /**
   * The drift flag uses the configurable significance level, the severity the
   * fixed table; at the default level 0.05 a feature is flagged exactly when
   * its severity is medium or worse.
   */
  lemma DefaultSignificanceMatchesMedium(pValue: real)
    ensures (pValue < 0.05) <==> DriftLevelOf(pValue).Rank() >= Medium.Rank()
  {
  }

  /** The highest severity among the results, `none` for an empty list. */
  function MaxSeverity(results: seq<DriftResult>): (m: DriftLevel)
    ensures forall i :: 0 <= i < |results| ==> results[i].driftLevel.Rank() <= m.Rank()
    ensures |results| == 0 ==> m == NoDrift
    ensures |results| > 0 ==> exists i :: 0 <= i < |results| && results[i].driftLevel == m
  {
    if |results| == 0 then NoDrift
    else
      var rest := MaxSeverity(results[1..]);
      if results[0].driftLevel.Rank() >= rest.Rank() then results[0].driftLevel else rest
  }

  /** The names of the flagged results are exactly the flagged features' names. */
  lemma DriftedNamesMembership(results: seq<DriftResult>)
    ensures forall n :: n in Map(Filter(results, IsDrifted), FeatureName) <==>
      exists i :: 0 <= i < |results| && results[i].driftDetected && results[i].featureName == n
  {
    var drifted := Filter(results, IsDrifted);
    var names := Map(drifted, FeatureName);
    forall n | n in names
      ensures exists i :: 0 <= i < |results| && results[i].driftDetected && results[i].featureName == n
    {
      var k :| 0 <= k < |names| && names[k] == n;
      assert drifted[k] in drifted;
      var i :| 0 <= i < |results| && results[i] == drifted[k];
    }
    forall n | exists i :: 0 <= i < |results| && results[i].driftDetected && results[i].featureName == n
      ensures n in names
    {
      var i :| 0 <= i < |results| && results[i].driftDetected && results[i].featureName == n;
      assert results[i] in results;
      assert results[i] in drifted;
      var k :| 0 <= k < |drifted| && drifted[k] == results[i];
      assert names[k] == n;
    }
  }

  /** What the summary needs about the flagged results: order, membership, count extremes, ratio. */
  lemma DriftedFacts(results: seq<DriftResult>)
    ensures var drifted := Filter(results, IsDrifted);
      && SubseqOf(Map(drifted, FeatureName), Map(results, FeatureName))
      && (|drifted| == 0 <==> forall i :: 0 <= i < |results| ==> !results[i].driftDetected)
      && (|drifted| == |results| <==> forall i :: 0 <= i < |results| ==> results[i].driftDetected)
      && (|results| > 0 ==>
            && 0.0 <= |drifted| as real / |results| as real <= 1.0
            && (|drifted| as real / |results| as real) * |results| as real == |drifted| as real
            && (|drifted| as real / |results| as real == 0.0 <==> |drifted| == 0))
  {
    var drifted := Filter(results, IsDrifted);
    FilterIsSubseq(results, IsDrifted);
    MapSubseq(drifted, results, FeatureName);
    if |results| > 0 {
      FractionInUnit(|drifted|, |results|);
    }
    assert |drifted| == 0 <==> forall i :: 0 <= i < |results| ==> !results[i].driftDetected by {
      if |drifted| > 0 {
        assert drifted[0] in drifted;
      }
      forall i | 0 <= i < |results| && results[i].driftDetected ensures |drifted| > 0 {
        assert results[i] in results;
      }
    }
    assert (forall x :: x in results ==> IsDrifted(x)) <==> forall i :: 0 <= i < |results| ==> results[i].driftDetected by {
      if forall i :: 0 <= i < |results| ==> results[i].driftDetected {
        forall x | x in results ensures IsDrifted(x) {
          var i :| 0 <= i < |results| && results[i] == x;
        }
      }
    }
  }

  /** Summary of a list of drift results. */
  datatype DriftSummary = DriftSummary(
    totalFeatures: nat,
    driftedFeatures: nat,
    driftScore: real,
    driftedFeatureNames: seq<string>,
    maxSeverity: DriftLevel)

  predicate IsDrifted(r: DriftResult) { r.driftDetected }

  function FeatureName(r: DriftResult): string { r.featureName }

  /** `get_drift_summary`: counts, the drifted ratio (0 for no results), the drifted names and the worst severity. */
  function GetDriftSummary(results: seq<DriftResult>): (s: DriftSummary)
    ensures s.totalFeatures == |results|
    ensures s.driftedFeatures == |set i | 0 <= i < |results| && results[i].driftDetected|
    ensures s.driftedFeatureNames == Map(Filter(results, IsDrifted), FeatureName)
    ensures s.driftedFeatures == |s.driftedFeatureNames| <= s.totalFeatures
    ensures s.driftedFeatures == 0 <==> forall i :: 0 <= i < |results| ==> !results[i].driftDetected
    ensures s.driftedFeatures == |results| <==> forall i :: 0 <= i < |results| ==> results[i].driftDetected
    ensures forall n :: n in s.driftedFeatureNames <==>
      exists i :: 0 <= i < |results| && results[i].driftDetected && results[i].featureName == n
    ensures SubseqOf(s.driftedFeatureNames, Map(results, FeatureName))
    ensures 0.0 <= s.driftScore <= 1.0
    ensures |results| == 0 ==> s.driftScore == 0.0
    ensures |results| > 0 ==> s.driftScore == s.driftedFeatures as real / s.totalFeatures as real
    ensures s.driftScore == 0.0 <==> s.driftedFeatures == 0
    ensures s.maxSeverity == MaxSeverity(results)
  {
    var drifted := Filter(results, IsDrifted);
    var names := Map(drifted, FeatureName);
    var score := if |results| > 0 then |drifted| as real / |results| as real else 0.0;
    DriftedFacts(results);
    DriftedNamesMembership(results);
    FilterCount(results, IsDrifted);
    assert Positions(results, IsDrifted) == set i | 0 <= i < |results| && results[i].driftDetected;
    DriftSummary(|results|, |drifted|, score, names, MaxSeverity(results))
  }

  /** Holds the reference sample and runs the per-feature drift test against it. */
  class DriftDetector {
    const significanceLevel: real
    const testMethod: string
    var reference: Option<Reference>

    /** The stored reference matrix is rectangular. */
    ghost predicate Valid()
      reads this
    {
      reference.Some? ==> reference.value.data.Valid()
    }

    constructor (significanceLevel: real, testMethod: string)
      ensures Valid()
      ensures this.significanceLevel == significanceLevel && this.testMethod == testMethod
      ensures reference == None
    {
      this.significanceLevel := significanceLevel;
      this.testMethod := testMethod;
      reference := None;
    }

    /** `set_reference`: replaces the reference wholesale; names default to `feature_i`. */
    method SetReference(data: Matrix, featureNames: Option<seq<string>>)
      requires data.Valid()
      modifies this
      ensures Valid()
      ensures reference == Some(Reference(data, ReferenceNames(featureNames, data.width)))
    {
      var names := if featureNames.Some? && featureNames.value != [] then featureNames.value
                   else SyntheticNames(data.width);
      reference := Some(Reference(data, names));
    }

    /**
     * `detect_drift`: one test per feature name, in order. Fails when no
     * reference is set or when the column counts differ; a feature name
     * beyond the reference's columns fails the column lookup.
     */
    method DetectDrift(current: Matrix, ks: (seq<real>, seq<real>) -> KsOutcome)
      returns (r: Result<Detection, DriftError>)
      requires Valid() && current.Valid()
      ensures reference.None? ==> r == Err(ReferenceNotSet)
      ensures reference.Some? && current.width != reference.value.data.width ==>
        r == Err(FeatureCountMismatch(reference.value.data.width, current.width))
      ensures (reference.Some? && current.width == reference.value.data.width &&
               |reference.value.featureNames| > current.width) ==> r == Err(ColumnOutOfRange(current.width))
      ensures (reference.Some? && current.width == reference.value.data.width &&
               |reference.value.featureNames| <= current.width) ==> r.Ok?
      ensures r.Ok? ==>
        var ref := reference.value;
        var results := r.value.results;
        && |results| == |ref.featureNames|
        && (forall i :: 0 <= i < |results| ==>
              && i < ref.data.width
              && results[i].featureName == ref.featureNames[i]
              && results[i].statistic == ks(ref.data.Column(i), current.Column(i)).statistic
              && results[i].pValue == ks(ref.data.Column(i), current.Column(i)).pValue
              && results[i].driftDetected == (results[i].pValue < significanceLevel)
              && results[i].driftLevel == DriftLevelOf(results[i].pValue))
        && (r.value.overallDrift <==> exists i :: 0 <= i < |results| && results[i].driftDetected)
    {
      if reference.None? {
        return Err(ReferenceNotSet);
      }
      var ref := reference.value;
      if current.width != ref.data.width {
        return Err(FeatureCountMismatch(ref.data.width, current.width));
      }
      var results: seq<DriftResult> := [];
      var overallDrift := false;
      var i := 0;
      while i < |ref.featureNames|
        invariant 0 <= i <= |ref.featureNames| && i <= ref.data.width
        invariant |results| == i
        invariant forall k :: 0 <= k < i ==>
              && results[k].featureName == ref.featureNames[k]
              && results[k].statistic == ks(ref.data.Column(k), current.Column(k)).statistic
              && results[k].pValue == ks(ref.data.Column(k), current.Column(k)).pValue
              && results[k].driftDetected == (results[k].pValue < significanceLevel)
              && results[k].driftLevel == DriftLevelOf(results[k].pValue)
        invariant overallDrift <==> exists k :: 0 <= k < i && results[k].driftDetected
      {
        if i >= ref.data.width {
          return Err(ColumnOutOfRange(i));
        }
        var outcome := ks(ref.data.Column(i), current.Column(i));
        var driftDetected := outcome.pValue < significanceLevel;
        var driftLevel := DriftLevelOf(outcome.pValue);
        if driftDetected {
          overallDrift := true;
        }
        results := results + [DriftResult(ref.featureNames[i], driftDetected, outcome.pValue, outcome.statistic, driftLevel)];
        i := i + 1;
      }
      return Ok(Detection(overallDrift, results));
    }
  }

  /** Why a metric snapshot is unhealthy; the source renders each as one warning line. */
  datatype PerformanceWarning =
    | MaeExceedsThreshold(mae: real, threshold: real)
    | R2BelowThreshold(r2: real, threshold: real)

  /** Mean, minimum and maximum of one metric over the history. */
  datatype MetricStats = MetricStats(mean: real, min: real, max: real)

  /** `get_statistics`: a "no metrics recorded" message or the per-metric statistics. */
  datatype Statistics =
    | NoMetricsRecorded
    | Stats(count: nat, mae: MetricStats, r2: MetricStats)

  function Sum(xs: seq<real>): real
  {
    if |xs| == 0 then 0.0 else xs[0] + Sum(xs[1..])
  }

  function Min(xs: seq<real>): (m: real)
    requires |xs| > 0
    ensures m in xs
    ensures forall i :: 0 <= i < |xs| ==> m <= xs[i]
  {
    if |xs| == 1 then xs[0]
    else
      var rest := Min(xs[1..]);
      if xs[0] <= rest then xs[0] else rest
  }

  function Max(xs: seq<real>): (m: real)
    requires |xs| > 0
    ensures m in xs
    ensures forall i :: 0 <= i < |xs| ==> xs[i] <= m
  {
    if |xs| == 1 then xs[0]
    else
      var rest := Max(xs[1..]);
      if xs[0] >= rest then xs[0] else rest
  }

  /** Every value lies between `lo` and `hi`, so the sum lies between n*lo and n*hi. */
  lemma {:induction false} SumBetween(xs: seq<real>, lo: real, hi: real)
    requires forall i :: 0 <= i < |xs| ==> lo <= xs[i] <= hi
    ensures |xs| as real * lo <= Sum(xs) <= |xs| as real * hi
  {
    if |xs| > 0 {
      SumBetween(xs[1..], lo, hi);
    }
  }

  /** A mean of values between `lo` and `hi` lies between them. */
  lemma MeanBetween(total: real, n: nat, lo: real, hi: real)
    requires n > 0
    requires n as real * lo <= total <= n as real * hi
    ensures lo <= total / n as real <= hi
  {
  }

  /** The mean of a non-empty list of values between `lo` and `hi` lies between them. */
  lemma MeanOfBetween(xs: seq<real>, lo: real, hi: real)
    requires |xs| > 0
    requires forall i :: 0 <= i < |xs| ==> lo <= xs[i] <= hi
    ensures lo <= Sum(xs) / |xs| as real <= hi
  {
    SumBetween(xs, lo, hi);
    MeanBetween(Sum(xs), |xs|, lo, hi);
  }

  /** Mean, minimum and maximum of a non-empty list of values. */
  function StatsOf(xs: seq<real>): (s: MetricStats)
    requires |xs| > 0
    ensures s.min <= s.mean <= s.max
    ensures s.mean == Sum(xs) / |xs| as real
    ensures s.min in xs && s.max in xs
    ensures forall i :: 0 <= i < |xs| ==> s.min <= xs[i] <= s.max
  {
    var lo := Min(xs);
    var hi := Max(xs);
    var total := Sum(xs);
    MeanOfBetween(xs, lo, hi);
    var mean := total / |xs| as real;
    MetricStats(mean, lo, hi)
  }

  function MaeOf(m: ModelMetrics): real { m.mae }

  function R2Of(m: ModelMetrics): real { m.r2 }

  /** Tracks metric snapshots and checks one against two fixed thresholds. */
  class ModelMonitor {
    const maeThreshold: real
    const r2Threshold: real
    var metricsHistory: seq<ModelMetrics>

    constructor (maeThreshold: real, r2Threshold: real)
      ensures this.maeThreshold == maeThreshold && this.r2Threshold == r2Threshold
      ensures metricsHistory == []
    {
      this.maeThreshold := maeThreshold;
      this.r2Threshold := r2Threshold;
      metricsHistory := [];
    }

    /** `record_metrics`: appends one snapshot at the end of the history. */
    method RecordMetrics(metrics: ModelMetrics)
      modifies this
      ensures metricsHistory == old(metricsHistory) + [metrics]
    {
      metricsHistory := metricsHistory + [metrics];
    }

    /**
     * `check_performance`: healthy unless the MAE exceeds its threshold or R²
     * falls below its threshold; one warning per violated condition, MAE first.
     */
    method CheckPerformance(metrics: ModelMetrics) returns (isHealthy: bool, warnings: seq<PerformanceWarning>)
      ensures isHealthy <==> metrics.mae <= maeThreshold && metrics.r2 >= r2Threshold
      ensures isHealthy <==> |warnings| == 0
      ensures |warnings| == (if metrics.mae > maeThreshold then 1 else 0) + (if metrics.r2 < r2Threshold then 1 else 0)
      ensures metrics.mae > maeThreshold ==> warnings[0] == MaeExceedsThreshold(metrics.mae, maeThreshold)
      ensures metrics.r2 < r2Threshold ==> warnings[|warnings| - 1] == R2BelowThreshold(metrics.r2, r2Threshold)
    {
      warnings := [];
      isHealthy := true;
      if metrics.mae > maeThreshold {
        warnings := warnings + [MaeExceedsThreshold(metrics.mae, maeThreshold)];
        isHealthy := false;
      }
      if metrics.r2 < r2Threshold {
        warnings := warnings + [R2BelowThreshold(metrics.r2, r2Threshold)];
        isHealthy := false;
      }
    }

    /** `should_retrain`: exactly the negation of the health verdict. */
    method ShouldRetrain(metrics: ModelMetrics) returns (retrain: bool)
      ensures retrain <==> metrics.mae > maeThreshold || metrics.r2 < r2Threshold
    {
      var isHealthy, _ := CheckPerformance(metrics);
      retrain := !isHealthy;
    }

    /** `get_statistics` over the whole recorded history. */
    function GetStatistics(): (s: Statistics)
      reads this
      ensures s.NoMetricsRecorded? <==> |metricsHistory| == 0
      ensures s.Stats? ==> s.count == |metricsHistory|
      ensures s == StatisticsOf(metricsHistory)
    {
      StatisticsOf(metricsHistory)
    }
  }

  /**
   * Statistics of a metrics history: a distinct "no data" value when it is
   * empty, otherwise the count and, per metric, a mean between a minimum and
   * a maximum that bound every recorded value.
   */
  function StatisticsOf(history: seq<ModelMetrics>): (s: Statistics)
    ensures s.NoMetricsRecorded? <==> |history| == 0
    ensures s.Stats? ==> s.mae == StatsOf(Map(history, MaeOf)) && s.r2 == StatsOf(Map(history, R2Of))
    ensures s.Stats? ==>
      && s.mae.min in Map(history, MaeOf) && s.mae.max in Map(history, MaeOf)
      && s.r2.min in Map(history, R2Of) && s.r2.max in Map(history, R2Of)
    ensures s.Stats? ==>
      && s.count == |history|
      && s.mae.min <= s.mae.mean <= s.mae.max
      && s.r2.min <= s.r2.mean <= s.r2.max
      && (forall i :: 0 <= i < |history| ==>
            s.mae.min <= history[i].mae <= s.mae.max &&
            s.r2.min <= history[i].r2 <= s.r2.max)
      && s.mae.mean == Sum(Map(history, MaeOf)) / s.count as real
      && s.r2.mean == Sum(Map(history, R2Of)) / s.count as real
  {
    if |history| == 0 then NoMetricsRecorded
    else
      var maes := Map(history, MaeOf);
      var r2s := Map(history, R2Of);
      Stats(|history|, StatsOf(maes), StatsOf(r2s))
  }

  /** Three recorded MAE values 0.35, 0.38 and 0.40 have mean 1.13 / 3 (about 0.3767). */
  lemma StatisticsExample()
    ensures var s := StatisticsOf([
        ModelMetrics(0.35, 0.0, 0.0, 0.85, None),
        ModelMetrics(0.38, 0.0, 0.0, 0.82, None),
        ModelMetrics(0.40, 0.0, 0.0, 0.80, None)]);
      s.Stats? && s.count == 3 && s.mae.mean == 1.13 / 3.0 && s.mae.min == 0.35 && s.mae.max == 0.40
  {
    var h := [
        ModelMetrics(0.35, 0.0, 0.0, 0.85, None),
        ModelMetrics(0.38, 0.0, 0.0, 0.82, None),
        ModelMetrics(0.40, 0.0, 0.0, 0.80, None)];
    var maes := Map(h, MaeOf);
    assert maes == [0.35, 0.38, 0.40];
    assert maes[1..] == [0.38, 0.40] && maes[1..][1..] == [0.40];
    assert Sum([0.40]) == 0.40 + Sum([]);
    assert Sum([0.38, 0.40]) == 0.38 + Sum([0.40]);
    assert Sum(maes) == 0.35 + Sum([0.38, 0.40]);
    assert Min(maes[1..]) == 0.38 && Max(maes[1..]) == 0.40;
  }

  /** The p-value of each column's test, reference against current. */
  function PValues(reference: Matrix, current: Matrix, ks: (seq<real>, seq<real>) -> KsOutcome): (ps: seq<real>)
    requires reference.Valid() && current.Valid() && current.width == reference.width
    ensures |ps| == reference.width
    ensures forall i :: 0 <= i < |ps| ==> ps[i] == ks(reference.Column(i), current.Column(i)).pValue
  {
    seq(reference.width, i requires 0 <= i < reference.width => ks(reference.Column(i), current.Column(i)).pValue)
  }

  /** The share of the p-values that lie below `level`; 0 when there are none. */
  function ShareBelow(ps: seq<real>, level: real): real
  {
    if |ps| == 0 then 0.0 else |set i | 0 <= i < |ps| && ps[i] < level| as real / |ps| as real
  }

  /** No p-value lies below `level`. */
  predicate NoneBelow(ps: seq<real>, level: real)
  {
    forall i :: 0 <= i < |ps| ==> ps[i] >= level
  }

  /** The share lies in [0, 1] and is 0 exactly when no p-value lies below the level. */
  lemma ShareBelowFacts(ps: seq<real>, level: real)
    ensures 0.0 <= ShareBelow(ps, level) <= 1.0
    ensures ShareBelow(ps, level) == 0.0 <==> NoneBelow(ps, level)
  {
    var below := x => x < level;
    FilterCount(ps, below);
    var positions := Positions(ps, below);
    assert positions == set i | 0 <= i < |ps| && ps[i] < level;
    if |ps| > 0 {
      FractionInUnit(|positions|, |ps|);
      if |positions| == 0 {
        forall i | 0 <= i < |ps| ensures ps[i] >= level {
          assert ps[i] < level ==> i in positions;
        }
      } else {
        var i :| i in positions;
      }
    }
  }

  /** Results flagged exactly where the p-values lie below 0.05 summarise to the share of such p-values. */
  lemma DriftScoreOfResults(results: seq<DriftResult>, ps: seq<real>)
    requires |results| == |ps|
    requires forall i :: 0 <= i < |results| ==> results[i].driftDetected == (ps[i] < 0.05)
    ensures GetDriftSummary(results).driftScore == ShareBelow(ps, 0.05)
  {
    assert (set i | 0 <= i < |results| && results[i].driftDetected) == (set i | 0 <= i < |ps| && ps[i] < 0.05);
  }

  /**
   * `calculate_drift_score`: a default detector (significance 0.05) with the
   * reference under synthesised names, then the summary's drift score.
   */
  method CalculateDriftScore(reference: Matrix, current: Matrix, ks: (seq<real>, seq<real>) -> KsOutcome)
    returns (r: Result<real, DriftError>)
    requires reference.Valid() && current.Valid()
    ensures r.Err? <==> current.width != reference.width
    ensures r.Err? ==> r.error == FeatureCountMismatch(reference.width, current.width)
    ensures r.Ok? ==> r.value == ShareBelow(PValues(reference, current, ks), 0.05)
    ensures r.Ok? ==> 0.0 <= r.value <= 1.0
    ensures r.Ok? ==> (r.value == 0.0 <==> NoneBelow(PValues(reference, current, ks), 0.05))
  {
    var detector := new DriftDetector(0.05, "ks");
    detector.SetReference(reference, None);
    var detection := detector.DetectDrift(current, ks);
    if detection.Err? {
      return Err(detection.error);
    }
    var results := detection.value.results;
    ghost var ps := PValues(reference, current, ks);
    assert forall i :: 0 <= i < |results| ==> results[i].driftDetected == (ps[i] < 0.05);
    DriftScoreOfResults(results, ps);
    ShareBelowFacts(ps, 0.05);
    var summary := GetDriftSummary(results);
    return Ok(summary.driftScore);
  }
}
