/** The dashboard's `/api/metrics` endpoint: it renders the suite's latest
    snapshot when there is one, and otherwise falls back to the latest
    entry of the basic monitor. The page is modelled by what it shows (the
    status band, the values on each card, which cards appear), not by its
    HTML. */
module Dashboard {
  import opened Wrappers
  import Suite
  import Monitor
  import Quality
  import Latency
  import Adaptation

  // ---------------------------------------------------------------------
  // The health band
  // ---------------------------------------------------------------------

  datatype Band = Band(cssClass: string, text: string)

  const Excellent: Band := Band("status-ok", "EXCELENTE")
  const Good: Band := Band("status-ok", "BUENO")
  const Fair: Band := Band("status-warning", "REGULAR")
  const Critical: Band := Band("status-error", "CRÍTICO")

  /** The band of `overall_health`, which counts as 0 when missing. */
  function BandOf(health: Option<real>): (b: Band)
    ensures b == Excellent <==> health.GetOr(0.0) >= 0.8
    ensures b == Good <==> 0.6 <= health.GetOr(0.0) < 0.8
    ensures b == Fair <==> 0.4 <= health.GetOr(0.0) < 0.6
    ensures b == Critical <==> health.GetOr(0.0) < 0.4
  {
    var h := health.GetOr(0.0);
    if h >= 0.8 then Excellent
    else if h >= 0.6 then Good
    else if h >= 0.4 then Fair
    else Critical
  }

  /** How good a band is: CRÍTICO 0 up to EXCELENTE 3. */
  function Rank(b: Band): nat {
    if b == Excellent then 3 else if b == Good then 2 else if b == Fair then 1 else 0
  }

  /** A higher health score never gets a worse band. */
  lemma BandMonotone(h1: real, h2: real)
    requires h1 <= h2
    ensures Rank(BandOf(Some(h1))) <= Rank(BandOf(Some(h2)))
  {
  }

  /** A snapshot without a health score reads as critical. */
  lemma MissingHealthIsCritical()
    ensures BandOf(None) == Critical
  {
  }

  // ---------------------------------------------------------------------
  // The suite view
  // ---------------------------------------------------------------------

  /** What the page shows; `Failed` is the error card the endpoint's
      handler renders when building the page raises. */
  datatype Page =
    | SuitePage(
        band: Band,
        health: real,
        qualityScore: real,
        avgBitrateKbps: real,
        avgSsim: real,
        latencyScore: real,
        avgLatencyMs: real,
        adaptationScore: real,
        stabilityScore: real,
        switchingEvents: nat,
        recommendationLines: seq<string>)
    | WaitingPage
    | NoDataPage
    | MonitorPage(band: Band, manifestCard: bool, bitrateCard: bool)
    | Failed(error: string)

  /** One paragraph per recommendation, in order. */
  function RecommendationLines(recs: seq<string>): (r: seq<string>)
    ensures |r| == |recs|
    ensures forall i :: 0 <= i < |recs| ==> r[i] == "<p>• " + recs[i] + "</p>"
  {
    if recs == [] then [] else RecommendationLines(recs[..|recs| - 1]) + ["<p>• " + recs[|recs| - 1] + "</p>"]
  }

  /** The suite page for a snapshot. Formatting a `None` SSIM or a `None`
      average latency with a float format raises `TypeError`. */
  function SuiteView(d: Suite.DashboardData): Page {
    if d.quality.Some? && d.quality.value.avgSsim.None? then Failed("TypeError")
    else if d.latency.Some? && d.latency.value.avgLatencyMs.None? then Failed("TypeError")
    else
      SuitePage(
        BandOf(Some(d.overallHealth)),
        d.overallHealth,
        d.qualityScore,
        (if d.quality.Some? then d.quality.value.avgBitrate else 0.0) / 1000.0,
        if d.quality.Some? then d.quality.value.avgSsim.value else 0.0,
        d.latencyScore,
        if d.latency.Some? then d.latency.value.avgLatencyMs.value else 0.0,
        d.adaptationScore,
        if d.adaptation.Some? then d.adaptation.value.stabilityScore else 0.0,
        if d.adaptation.Some? then d.adaptation.value.switchingEvents else 0,
        RecommendationLines(d.recommendations))
  }

  /** The suite page shows the snapshot's scores unchanged, the band of its
      health, and the recommendations card (one line per recommendation)
      exactly when there are recommendations; absent blocks show as 0. */
  lemma SuiteViewShows(d: Suite.DashboardData)
    ensures SuiteView(d).Failed? <==>
      (d.quality.Some? && d.quality.value.avgSsim.None?) || (d.latency.Some? && d.latency.value.avgLatencyMs.None?)
    ensures SuiteView(d).SuitePage? ==>
      var p := SuiteView(d);
      p.health == d.overallHealth && p.band == BandOf(Some(d.overallHealth)) &&
      p.qualityScore == d.qualityScore && p.latencyScore == d.latencyScore &&
      p.adaptationScore == d.adaptationScore &&
      (p.recommendationLines == [] <==> d.recommendations == []) &&
      |p.recommendationLines| == |d.recommendations| &&
      (d.adaptation.None? ==> p.stabilityScore == 0.0 && p.switchingEvents == 0)
  {
  }

  /** For a snapshot the suite wrote, the page fails exactly when the
      latest latency window had measurements but no latency: the quality
      SSIM is never `None` there. */
  lemma SuiteSnapshotRenders(timestamp: string, sessionDuration: real, quality: seq<Quality.QualityAnalysis>,
                             latency: seq<Latency.LatencyResult>, adaptation: seq<Adaptation.AnalysisResult>)
    requires Suite.AggregateResults(timestamp, sessionDuration, quality, latency, adaptation).Some?
    ensures var d := Suite.Snapshot(Suite.AggregateResults(timestamp, sessionDuration, quality, latency, adaptation).value);
      SuiteView(d).Failed? <==> latency != [] && latency[|latency| - 1].manifestMetrics.NoLatency?
  {
    Suite.SnapshotShape(timestamp, sessionDuration, quality, latency, adaptation);
  }

  // ---------------------------------------------------------------------
  // The basic-monitor fallback
  // ---------------------------------------------------------------------

  /** An entry of the monitor's file as the dashboard reads it: each key
      may be missing. `network` is `None` without `network_info` and holds
      its `status` otherwise; `bitrateAvg` is `None` without
      `bitrate_stats` and holds its `avg` otherwise. */
  datatype MonitorRecord = MonitorRecord(
    timestamp: Option<string>,
    network: Option<Option<string>>,
    hasManifestInfo: bool,
    bitrateAvg: Option<Option<real>>)

  /** The status band of the fallback: an error exactly when the latest
      entry has `network_info` whose status (`unknown` when missing) is
      not `ok`. */
  function MonitorBand(latest: MonitorRecord): (b: Band)
    ensures b == Band("status-error", "ERROR") <==> latest.network.Some? && latest.network.value.GetOr("unknown") != "ok"
    ensures b == Band("status-ok", "OK") <==> !(latest.network.Some? && latest.network.value.GetOr("unknown") != "ok")
  {
    if latest.network.Some? && latest.network.value.GetOr("unknown") != "ok" then Band("status-error", "ERROR")
    else Band("status-ok", "OK")
  }

  function MonitorView(data: seq<MonitorRecord>): Page {
    if data == [] then NoDataPage
    else
      var latest := data[|data| - 1];
      if latest.bitrateAvg.Some? && latest.bitrateAvg.value.None? then Failed("ValueError")
      else MonitorPage(MonitorBand(latest), latest.hasManifestInfo, latest.bitrateAvg.Some?)
  }

  /** `get_metrics`: the suite snapshot wins; otherwise the monitor's file,
      and a waiting card when neither file exists. */
  function MetricsPage(suiteFile: Option<Suite.DashboardData>, monitorFile: Option<seq<MonitorRecord>>): Page {
    match suiteFile
    case Some(d) => SuiteView(d)
    case None =>
      match monitorFile
      case None => WaitingPage
      case Some(data) => MonitorView(data)
  }

  /** Which page is shown: the suite's whenever its snapshot exists, the
      waiting card when no file exists, "Sin datos" for an empty monitor
      file, and otherwise the latest monitor entry with its cards. */
  lemma MetricsPageChoice(suiteFile: Option<Suite.DashboardData>, monitorFile: Option<seq<MonitorRecord>>)
    ensures suiteFile.Some? ==> MetricsPage(suiteFile, monitorFile) == SuiteView(suiteFile.value)
    ensures suiteFile.None? && monitorFile.None? ==> MetricsPage(suiteFile, monitorFile) == WaitingPage
    ensures suiteFile.None? && monitorFile == Some([]) ==> MetricsPage(suiteFile, monitorFile) == NoDataPage
    ensures suiteFile.None? && monitorFile.Some? && monitorFile.value != [] ==>
      var latest := monitorFile.value[|monitorFile.value| - 1];
      var p := MetricsPage(suiteFile, monitorFile);
      (p.Failed? <==> latest.bitrateAvg == Some(None)) &&
      (p.MonitorPage? ==> p.band == MonitorBand(latest) && p.manifestCard == latest.hasManifestInfo &&
                          p.bitrateCard == latest.bitrateAvg.Some?)
  {
  }

  /** How an entry the monitor collected reads back from its file. */
  function RecordOf(m: Monitor.Metrics): (r: MonitorRecord)
    ensures r.network == Some(Some(m.networkInfo.status))
    ensures r.bitrateAvg.Some? <==> m.bitrateStats.Some?
  {
    MonitorRecord(Some(m.timestamp), Some(Some(m.networkInfo.status)), true,
                  if m.bitrateStats.Some? then Some(Some(m.bitrateStats.value.avg)) else None)
  }

  function RecordsOf(ms: seq<Monitor.Metrics>): (r: seq<MonitorRecord>)
    ensures |r| == |ms|
    ensures ms != [] ==> r[|r| - 1] == RecordOf(ms[|ms| - 1])
  {
    if ms == [] then [] else RecordsOf(ms[..|ms| - 1]) + [RecordOf(ms[|ms| - 1])]
  }

  /** On the monitor's own entries the fallback never fails, always shows
      the manifest card, and is OK exactly when the latest connectivity
      check answered HTTP 200. */
  lemma MonitorEntriesRender(polls: seq<Monitor.MonitorPoll>, manifestUrl: string)
    requires Monitor.MonitorRun(polls, manifestUrl).collected != []
    ensures var ms := Monitor.MonitorRun(polls, manifestUrl).collected;
      var p := MonitorView(RecordsOf(ms));
      p.MonitorPage? && p.manifestCard &&
      (p.band == Band("status-ok", "OK") <==> ms[|ms| - 1].networkInfo.status == "ok") &&
      (p.bitrateCard <==> ms[|ms| - 1].bitrateStats.Some?)
  {
    Monitor.MonitorRunWellFormed(polls, manifestUrl);
  }
}
