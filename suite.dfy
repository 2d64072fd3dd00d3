/** The analysis suite: it runs the quality, latency and adaptation
    analyzers side by side and, every poll, reads back what each has saved,
    fuses their latest results into three scores in [0, 1]-ish ranges, a
    health score and a list of recommendations, and writes a snapshot for
    the dashboard. */
module Suite {
  import opened Wrappers
  import Q = Quality
  import L = Latency
  import A = Adaptation

  // ---------------------------------------------------------------------
  // calculate_overall_metrics
  // ---------------------------------------------------------------------

  const LowQuality: string := "Calidad de video baja - revisar configuración de codificación"
  const HighLatency: string := "Latencia alta - optimizar red o servidor"
  const UnstableAdaptation: string := "Inestabilidad en adaptación - revisar configuración de bitrates"

  datatype OverallMetrics = OverallMetrics(
    healthScore: real,
    qualityScore: real,
    latencyScore: real,
    adaptationScore: real,
    recommendations: seq<string>)

  /** `min(1.0, avg_ssim)` of the latest quality analysis, 0.0 without one.
      A `None` average SSIM makes `min` raise `TypeError`. */
  function QualityScore(quality: seq<Q.QualityAnalysis>): Result<real> {
    if quality == [] then Success(0.0)
    else match quality[|quality| - 1].aggregate.avgSsim
      case None => Failure("TypeError")
      case Some(s) => Success(if s < 1.0 then s else 1.0)
  }

  /** `max(0.0, 1.0 - avg_latency_ms / 1000)` of the latest manifest
      metrics, when they exist and their average is non-zero. */
  function LatencyScore(latency: seq<L.LatencyResult>): real {
    if latency == [] then 0.0
    else match latency[|latency| - 1].manifestMetrics
      case NoMeasurements => 0.0        // `{}` is falsy
      case NoLatency => 0.0             // `avg_latency_ms` is None
      case LatencyStats(avg, _, _, _, _, _, _, _) =>
        if avg == 0.0 then 0.0
        else var s := 1.0 - avg / 1000.0; if s > 0.0 then s else 0.0
  }

  /** The stability score of the latest adaptation aggregate, 0.0 without
      one. */
  function AdaptationScore(adaptation: seq<A.AnalysisResult>): real {
    if adaptation == [] then 0.0
    else match adaptation[|adaptation| - 1].aggregate
      case None => 0.0                  // `{}` is falsy
      case Some(g) => g.stabilityScore
  }

  /** The recommendations whose threshold is hit, in this fixed order. */
  function Recommendations(q: real, l: real, a: real): seq<string> {
    (if q < 0.7 then [LowQuality] else [])
      + (if l < 0.8 then [HighLatency] else [])
      + (if a < 0.6 then [UnstableAdaptation] else [])
  }

  function OverallMetricsOf(quality: seq<Q.QualityAnalysis>, latency: seq<L.LatencyResult>,
                            adaptation: seq<A.AnalysisResult>): Result<OverallMetrics>
  {
    match QualityScore(quality)
    case Failure(e) => Failure(e)
    case Success(q) =>
      var l := LatencyScore(latency);
      var a := AdaptationScore(adaptation);
      Success(OverallMetrics((q + l + a) / 3.0, q, l, a, Recommendations(q, l, a)))
  }

  /** `calculate_overall_metrics`: the dictionary starts with every score
      at 0.0 and no recommendation, and each block overwrites its score. */
  method CalculateOverallMetrics(quality: seq<Q.QualityAnalysis>, latency: seq<L.LatencyResult>,
                                 adaptation: seq<A.AnalysisResult>)
    returns (r: Result<OverallMetrics>)
    ensures r == OverallMetricsOf(quality, latency, adaptation)
  {
    var qualityScore, latencyScore, adaptationScore := 0.0, 0.0, 0.0;
    var recommendations: seq<string> := [];
    if quality != [] {
      var avgSsim := quality[|quality| - 1].aggregate.avgSsim;
      if avgSsim.None? {
        return Failure("TypeError");
      }
      qualityScore := if avgSsim.value < 1.0 then avgSsim.value else 1.0;
    }
    assert QualityScore(quality) == Success(qualityScore);
    if latency != [] {
      var metrics := latency[|latency| - 1].manifestMetrics;
      if metrics.LatencyStats? && metrics.avgLatencyMs != 0.0 {
        var s := 1.0 - metrics.avgLatencyMs / 1000.0;
        latencyScore := if s > 0.0 then s else 0.0;
      }
    }
    assert latencyScore == LatencyScore(latency);
    if adaptation != [] {
      var aggregate := adaptation[|adaptation| - 1].aggregate;
      if aggregate.Some? {
        adaptationScore := aggregate.value.stabilityScore;
      }
    }
    assert adaptationScore == AdaptationScore(adaptation);
    var health := (qualityScore + latencyScore + adaptationScore) / 3.0;
    if qualityScore < 0.7 {
      recommendations := recommendations + [LowQuality];
    }
    assert recommendations == (if qualityScore < 0.7 then [LowQuality] else []);
    ghost var first := recommendations;
    if latencyScore < 0.8 {
      recommendations := recommendations + [HighLatency];
    }
    assert recommendations == first + (if latencyScore < 0.8 then [HighLatency] else []);
    ghost var second := recommendations;
    if adaptationScore < 0.6 {
      recommendations := recommendations + [UnstableAdaptation];
    }
    assert recommendations == second + (if adaptationScore < 0.6 then [UnstableAdaptation] else []);
    assert recommendations == Recommendations(qualityScore, latencyScore, adaptationScore);
    return Success(OverallMetrics(health, qualityScore, latencyScore, adaptationScore, recommendations));
  }

  /** Where a recommendation stands in the fixed order. */
  function Rank(s: string): int {
    if s == LowQuality then 0 else if s == HighLatency then 1 else if s == UnstableAdaptation then 2 else 3
  }

  /** The three recommendation texts differ. */
  lemma RecommendationTextsDiffer()
    ensures LowQuality != HighLatency && HighLatency != UnstableAdaptation && LowQuality != UnstableAdaptation
  {
    assert |LowQuality| == 61 && |HighLatency| == 40 && |UnstableAdaptation| == 63;
  }

  /** A recommendation is given exactly when its threshold is hit, and
      there are at most three. */
  lemma RecommendationsExact(q: real, l: real, a: real)
    ensures var r := Recommendations(q, l, a);
      |r| <= 3 &&
      (LowQuality in r <==> q < 0.7) &&
      (HighLatency in r <==> l < 0.8) &&
      (UnstableAdaptation in r <==> a < 0.6)
  {
    RecommendationTextsDiffer();
  }

  /** The recommendations come in the fixed order, each at most once. */
  lemma RecommendationsOrdered(q: real, l: real, a: real)
    ensures var r := Recommendations(q, l, a);
      (forall i, j :: 0 <= i < j < |r| ==> Rank(r[i]) < Rank(r[j])) &&
      (forall i :: 0 <= i < |r| ==> Rank(r[i]) < 3)
  {
    RecommendationTextsDiffer();
  }

  /** The health score is the mean of the three scores, so it lies between
      the smallest and the largest of them. */
  lemma HealthIsMean(quality: seq<Q.QualityAnalysis>, latency: seq<L.LatencyResult>,
                     adaptation: seq<A.AnalysisResult>)
    requires OverallMetricsOf(quality, latency, adaptation).Success?
    ensures var m := OverallMetricsOf(quality, latency, adaptation).value;
      m.healthScore * 3.0 == m.qualityScore + m.latencyScore + m.adaptationScore &&
      (m.qualityScore <= m.healthScore || m.latencyScore <= m.healthScore || m.adaptationScore <= m.healthScore) &&
      (m.healthScore <= m.qualityScore || m.healthScore <= m.latencyScore || m.healthScore <= m.adaptationScore)
  {
  }

  /** The fusion fails exactly when the latest quality analysis has no
      average SSIM. */
  lemma OverallMetricsFailure(quality: seq<Q.QualityAnalysis>, latency: seq<L.LatencyResult>,
                              adaptation: seq<A.AnalysisResult>)
    ensures OverallMetricsOf(quality, latency, adaptation).Failure? <==>
      quality != [] && quality[|quality| - 1].aggregate.avgSsim.None?
  {
  }

  /** Bounds of the three scores: quality is at most 1 (no lower bound),
      latency lies in [0, 1] for a non-negative average and is 0 exactly
      when there is no average, it is 0, or it is 1000 ms or more. */
  lemma ScoreBounds(quality: seq<Q.QualityAnalysis>, latency: seq<L.LatencyResult>)
    ensures QualityScore(quality).Success? ==> QualityScore(quality).value <= 1.0
    ensures 0.0 <= LatencyScore(latency)
    ensures (latency != [] && latency[|latency| - 1].manifestMetrics.LatencyStats? &&
             latency[|latency| - 1].manifestMetrics.avgLatencyMs >= 0.0) ==> LatencyScore(latency) <= 1.0
    ensures LatencyScore(latency) == 0.0 <==>
      latency == [] || !latency[|latency| - 1].manifestMetrics.LatencyStats? ||
      latency[|latency| - 1].manifestMetrics.avgLatencyMs == 0.0 ||
      latency[|latency| - 1].manifestMetrics.avgLatencyMs >= 1000.0
  {
  }

  /** With no data every score is 0.0 and all three recommendations are
      given. */
  lemma NoDataMetrics()
    ensures OverallMetricsOf([], [], []) ==
      Success(OverallMetrics(0.0, 0.0, 0.0, 0.0, [LowQuality, HighLatency, UnstableAdaptation]))
  {
    assert QualityScore([]) == Success(0.0);
    assert LatencyScore([]) == 0.0 && AdaptationScore([]) == 0.0;
    assert Recommendations(0.0, 0.0, 0.0) == [LowQuality, HighLatency, UnstableAdaptation];
  }

  // ---------------------------------------------------------------------
  // aggregate_results and the dashboard snapshot
  // ---------------------------------------------------------------------

  /** One entry of `suite_data`. */
  datatype SuiteResult = SuiteResult(
    timestamp: string,
    sessionDuration: real,
    qualityTotal: nat,
    latestQuality: Option<Q.QualityAnalysis>,
    latencyTotal: nat,
    latestLatency: Option<L.LatencyResult>,
    adaptationTotal: nat,
    latestAdaptation: Option<A.AnalysisResult>,
    overall: OverallMetrics)

  function LastOf<T>(s: seq<T>): (r: Option<T>)
    ensures r.Some? <==> s != []
    ensures r.Some? ==> r.value == s[|s| - 1]
  {
    if s == [] then None else Some(s[|s| - 1])
  }

  /** `aggregate_results` over what the three analyzers have saved (an
      empty list for a file that does not exist yet); `None` when the
      fusion raises. */
  function AggregateResults(timestamp: string, sessionDuration: real, quality: seq<Q.QualityAnalysis>,
                            latency: seq<L.LatencyResult>, adaptation: seq<A.AnalysisResult>)
    : Option<SuiteResult>
  {
    match OverallMetricsOf(quality, latency, adaptation)
    case Failure(_) => None
    case Success(m) =>
      Some(SuiteResult(timestamp, sessionDuration, |quality|, LastOf(quality), |latency|, LastOf(latency),
                       |adaptation|, LastOf(adaptation), m))
  }

  datatype QualityFields = QualityFields(avgBitrate: real, avgSsim: Option<real>)

  /** `avg_latency_ms`, which is `None` in the metrics of a window without
      any latency. */
  datatype LatencyFields = LatencyFields(avgLatencyMs: Option<real>)

  datatype AdaptationFields = AdaptationFields(stabilityScore: real, switchingEvents: nat)

  /** `dashboard_data.json`; the three optional blocks are the keys added
      only when the latest analysis of that kind has its metrics. */
  datatype DashboardData = DashboardData(
    timestamp: string,
    overallHealth: real,
    qualityScore: real,
    latencyScore: real,
    adaptationScore: real,
    recommendations: seq<string>,
    sessionDuration: real,
    quality: Option<QualityFields>,
    latency: Option<LatencyFields>,
    adaptation: Option<AdaptationFields>)

  function QualityFieldsOf(a: Option<Q.QualityAnalysis>): Option<QualityFields> {
    match a
    case None => None
    case Some(x) => Some(QualityFields(x.aggregate.avgBitrate, x.aggregate.avgSsim))
  }

  function LatencyFieldsOf(a: Option<L.LatencyResult>): Option<LatencyFields> {
    match a
    case None => None
    case Some(x) =>
      match x.manifestMetrics
      case NoMeasurements => None
      case NoLatency => Some(LatencyFields(None))
      case LatencyStats(avg, _, _, _, _, _, _, _) => Some(LatencyFields(Some(avg)))
  }

  function AdaptationFieldsOf(a: Option<A.AnalysisResult>): Option<AdaptationFields> {
    match a
    case None => None
    case Some(x) =>
      match x.aggregate
      case None => None
      case Some(g) => Some(AdaptationFields(g.stabilityScore, g.totalSwitchingEvents))
  }

  /** The snapshot `generate_dashboard_data` shapes from an aggregated result. */
  function Snapshot(r: SuiteResult): DashboardData {
    DashboardData(r.timestamp, r.overall.healthScore, r.overall.qualityScore, r.overall.latencyScore,
                  r.overall.adaptationScore, r.overall.recommendations, r.sessionDuration,
                  QualityFieldsOf(r.latestQuality), LatencyFieldsOf(r.latestLatency),
                  AdaptationFieldsOf(r.latestAdaptation))
  }

  /** The snapshot copies the scores and recommendations unchanged; the
      quality block is there exactly when there is a quality analysis, and
      then its SSIM is never `None` (otherwise the fusion would have
      raised); the latency block exactly when the latest manifest metrics
      are not empty; the adaptation block exactly when the latest
      adaptation aggregate is not empty. */
  lemma SnapshotShape(timestamp: string, sessionDuration: real, quality: seq<Q.QualityAnalysis>,
                      latency: seq<L.LatencyResult>, adaptation: seq<A.AnalysisResult>)
    requires AggregateResults(timestamp, sessionDuration, quality, latency, adaptation).Some?
    ensures var r := AggregateResults(timestamp, sessionDuration, quality, latency, adaptation).value;
      var d := Snapshot(r);
      var m := OverallMetricsOf(quality, latency, adaptation).value;
      d.overallHealth == m.healthScore && d.qualityScore == m.qualityScore &&
      d.latencyScore == m.latencyScore && d.adaptationScore == m.adaptationScore &&
      d.recommendations == m.recommendations &&
      (d.quality.Some? <==> quality != []) &&
      (d.quality.Some? ==> d.quality.value.avgSsim.Some?) &&
      (d.latency.Some? <==> latency != [] && !latency[|latency| - 1].manifestMetrics.NoMeasurements?) &&
      (d.adaptation.Some? <==> adaptation != [] && adaptation[|adaptation| - 1].aggregate.Some?)
  {
  }

  // ---------------------------------------------------------------------
  // The suite
  // ---------------------------------------------------------------------

  /** One call of `aggregate_results`: the clock when it ran and the
      lists the three analyzers had saved by then (an empty list for a
      file that did not exist yet). */
  datatype SuiteRead = SuiteRead(
    timestamp: string,
    sessionDuration: real,
    quality: seq<Q.QualityAnalysis>,
    latency: seq<L.LatencyResult>,
    adaptation: seq<A.AnalysisResult>)

  /** What one pass of `run_suite` sees. The pass reads the analyzers'
      files twice: once for `suite_data` and once more inside
      `generate_dashboard_data`. The analyzer threads keep rewriting those
      files, so the two reads are independent. `None` is a read that
      raised (a file caught half written, say), which `aggregate_results`
      turns into `None`. */
  datatype SuitePoll = SuitePoll(first: Option<SuiteRead>, second: Option<SuiteRead>)

  /** `aggregate_results` for one read. */
  function ReadAggregate(r: Option<SuiteRead>): Option<SuiteResult> {
    match r
    case None => None
    case Some(x) => AggregateResults(x.timestamp, x.sessionDuration, x.quality, x.latency, x.adaptation)
  }

  /** `suite_data` and the last dashboard snapshot written. */
  datatype SuiteState = SuiteState(results: seq<SuiteResult>, dashboard: Option<DashboardData>)

  function SuiteStep(s: SuiteState, p: SuitePoll): SuiteState {
    match ReadAggregate(p.first)
    case None => s
    case Some(r) =>
      match ReadAggregate(p.second)
      case None => SuiteState(s.results + [r], s.dashboard)
      case Some(again) => SuiteState(s.results + [r], Some(Snapshot(again)))
  }

  function SuiteRun(s: SuiteState, polls: seq<SuitePoll>): SuiteState {
    if polls == [] then s else SuiteStep(SuiteRun(s, polls[..|polls| - 1]), polls[|polls| - 1])
  }

  /** A pass records a result exactly when its first read aggregates, and
      then that aggregate. The dashboard file is rewritten exactly when
      the result was recorded and the second read aggregates too. The new
      snapshot comes from the second read; otherwise the old snapshot
      stays. The second read fails exactly when it raised or its latest
      quality analysis has no SSIM. */
  lemma StepWritesSnapshot(s: SuiteState, p: SuitePoll)
    ensures var t := SuiteStep(s, p);
      (|t.results| == |s.results| + 1 <==> ReadAggregate(p.first).Some?) &&
      (ReadAggregate(p.first).None? ==> t == s) &&
      (ReadAggregate(p.first).Some? ==>
        t.results == s.results + [ReadAggregate(p.first).value] &&
        (t.dashboard != s.dashboard ==> ReadAggregate(p.second).Some?) &&
        (ReadAggregate(p.second).Some? ==> t.dashboard == Some(Snapshot(ReadAggregate(p.second).value))))
    ensures ReadAggregate(p.second).None? <==>
      p.second.None? ||
      (p.second.value.quality != [] &&
       p.second.value.quality[|p.second.value.quality| - 1].aggregate.avgSsim.None?)
  {
    if p.second.Some? {
      var x := p.second.value;
      OverallMetricsFailure(x.quality, x.latency, x.adaptation);
    }
  }

  /** When the analyzers saved nothing between the two reads, the snapshot
      shows the scores and recommendations of the result just recorded:
      the second aggregation cannot fail once the first succeeded. */
  lemma SameReadSnapshot(s: SuiteState, p: SuitePoll)
    requires p.first.Some? && p.second.Some?
    requires p.second.value.quality == p.first.value.quality
    requires p.second.value.latency == p.first.value.latency
    requires p.second.value.adaptation == p.first.value.adaptation
    requires ReadAggregate(p.first).Some?
    ensures var t := SuiteStep(s, p);
      var m := t.results[|t.results| - 1].overall;
      |t.results| == |s.results| + 1 && t.dashboard.Some? &&
      t.dashboard.value.overallHealth == m.healthScore &&
      t.dashboard.value.qualityScore == m.qualityScore &&
      t.dashboard.value.latencyScore == m.latencyScore &&
      t.dashboard.value.adaptationScore == m.adaptationScore &&
      t.dashboard.value.recommendations == m.recommendations
  {
  }

  /** A snapshot that is written is never dropped: once the dashboard file
      exists, later passes only replace it. */
  lemma {:induction false} RunKeepsSnapshot(s: SuiteState, polls: seq<SuitePoll>)
    requires s.dashboard.Some?
    ensures SuiteRun(s, polls).dashboard.Some?
    ensures |SuiteRun(s, polls).results| <= |s.results| + |polls|
    decreases |polls|
  {
    if polls != [] {
      RunKeepsSnapshot(s, polls[..|polls| - 1]);
    }
  }

  /** `sub-analyzer intervals`: Python's `//` by a positive divisor floors,
      as Dafny's `/` on `int` does. */
  function LatencyInterval(interval: int): int {
    interval / 6
  }

  function AdaptationInterval(interval: int): int {
    interval / 3
  }

  lemma IntervalsFloor(interval: int)
    ensures LatencyInterval(interval) * 6 <= interval < LatencyInterval(interval) * 6 + 6
    ensures AdaptationInterval(interval) * 3 <= interval < AdaptationInterval(interval) * 3 + 3
  {
  }

  class StreamAnalysisSuite {
    const manifestUrl: string
    const interval: int
    const qualityAnalyzer: Q.StreamQualityAnalyzer
    const latencyAnalyzer: L.LatencyAnalyzer
    const adaptationAnalyzer: A.AdaptationAnalyzer
    var running: bool
    var suiteData: seq<SuiteResult>
    var dashboardData: Option<DashboardData>

    /** `__init__`: latency polls six times and adaptation three times as
        often as quality. */
    constructor (manifestUrl: string, interval: int)
      ensures this.manifestUrl == manifestUrl && this.interval == interval
      ensures fresh(qualityAnalyzer) && fresh(latencyAnalyzer) && fresh(adaptationAnalyzer)
      ensures qualityAnalyzer.manifestUrl == manifestUrl && qualityAnalyzer.interval == interval
      ensures latencyAnalyzer.manifestUrl == manifestUrl && latencyAnalyzer.interval == LatencyInterval(interval)
      ensures adaptationAnalyzer.interval == AdaptationInterval(interval) && adaptationAnalyzer.Valid()
      ensures !qualityAnalyzer.running && !latencyAnalyzer.running && !adaptationAnalyzer.running
      ensures !running && suiteData == [] && dashboardData == None
    {
      this.manifestUrl := manifestUrl;
      this.interval := interval;
      qualityAnalyzer := new Q.StreamQualityAnalyzer(manifestUrl, interval);
      latencyAnalyzer := new L.LatencyAnalyzer(manifestUrl, interval / 6);
      adaptationAnalyzer := new A.AdaptationAnalyzer(interval / 3);
      running := false;
      suiteData := [];
      dashboardData := None;
    }

    /** One pass of `run_suite`. */
    method RunOnce(p: SuitePoll)
      modifies this
      ensures SuiteState(suiteData, dashboardData) == SuiteStep(SuiteState(old(suiteData), old(dashboardData)), p)
      ensures running == old(running)
    {
      var aggregated := ReadAggregate(p.first);
      if aggregated.Some? {
        suiteData := suiteData + [aggregated.value];
        var again := ReadAggregate(p.second);
        if again.Some? {
          dashboardData := Some(Snapshot(again.value));
        }
      }
    }

    /** `run_suite` over a finite run of polls. */
    method RunSuite(polls: seq<SuitePoll>)
      modifies this
      ensures SuiteState(suiteData, dashboardData) == SuiteRun(SuiteState(old(suiteData), old(dashboardData)), polls)
      ensures running == old(running)
    {
      for i := 0 to |polls|
        invariant SuiteState(suiteData, dashboardData) == SuiteRun(SuiteState(old(suiteData), old(dashboardData)), polls[..i])
        invariant running == old(running)
      {
        assert polls[..i + 1][..i] == polls[..i];
        RunOnce(polls[i]);
      }
      assert polls[..|polls|] == polls;
    }

    /** `stop`: the suite and its three analyzers stop; no data changes. */
    method Stop()
      modifies this, qualityAnalyzer, latencyAnalyzer, adaptationAnalyzer
      ensures !running && !qualityAnalyzer.running && !latencyAnalyzer.running && !adaptationAnalyzer.running
      ensures suiteData == old(suiteData) && dashboardData == old(dashboardData)
      ensures qualityAnalyzer.qualityData == old(qualityAnalyzer.qualityData)
      ensures latencyAnalyzer.latencyData == old(latencyAnalyzer.latencyData)
      ensures adaptationAnalyzer.adaptationData == old(adaptationAnalyzer.adaptationData)
    {
      running := false;
      qualityAnalyzer.Stop();
      latencyAnalyzer.Stop();
      adaptationAnalyzer.Stop();
    }
  }

  // ---------------------------------------------------------------------
  // main
  // ---------------------------------------------------------------------

  datatype Mode = QualityOnly | LatencyOnly | AdaptationOnly | FullSuite

  /** The flags are checked in this order and the first one set wins. */
  function ModeOf(qualityOnly: bool, latencyOnly: bool, adaptationOnly: bool): (m: Mode)
    ensures m == QualityOnly <==> qualityOnly
    ensures m == LatencyOnly <==> !qualityOnly && latencyOnly
    ensures m == AdaptationOnly <==> !qualityOnly && !latencyOnly && adaptationOnly
    ensures m == FullSuite <==> !qualityOnly && !latencyOnly && !adaptationOnly
  {
    if qualityOnly then QualityOnly
    else if latencyOnly then LatencyOnly
    else if adaptationOnly then AdaptationOnly
    else FullSuite
  }

  /** The interval the single analyzer of a mode runs with, or the suite's
      own interval. */
  function ModeInterval(m: Mode, interval: int): (r: int)
    ensures m == LatencyOnly ==> r * 6 <= interval < r * 6 + 6
    ensures m == AdaptationOnly ==> r * 3 <= interval < r * 3 + 3
    ensures m == QualityOnly || m == FullSuite ==> r == interval
  {
    match m
    case QualityOnly => interval
    case LatencyOnly => LatencyInterval(interval)
    case AdaptationOnly => AdaptationInterval(interval)
    case FullSuite => interval
  }
}
