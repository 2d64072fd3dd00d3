/** The latency analyzer: every poll times one manifest download and the
    download of up to two video segments, appends the records to two
    histories, and summarises the last 50 records of each. */
module Latency {
  import opened Wrappers
  import opened Seqs
  import opened PyText
  import opened History
  import opened Stats
  import opened Mpd

  /** Metrics look at the last 50 records of each history. */
  const Window: nat := 50

  /** At most two segment URLs are measured per poll. */
  const MaxSegmentUrls: nat := 2

  /** How one timed GET ended, with the time it ended: a response (the
      elapsed milliseconds, HTTP status and body length), a timeout, or
      another request error with its message. */
  datatype FetchOutcome =
    | Fetched(elapsedMs: real, httpStatus: int, contentLength: nat, at: string)
    | TimedOut(at: string)
    | Failed(message: string, at: string)

  /** The `status` field: "success", "timeout" or "error". */
  datatype Status = Ok | Timeout | Error

  /** A latency record; fields a record does not carry are `None`. */
  datatype LatencyRecord = LatencyRecord(
    status: Status,
    latencyMs: Option<real>,
    httpStatus: Option<int>,
    contentLength: Option<nat>,
    error: Option<string>,
    segmentUrl: Option<string>,
    timestamp: string)

  /** The record shapes: only a success carries a latency, the others carry
      an error text instead. */
  predicate WellFormed(r: LatencyRecord) {
    (r.status == Ok <==> r.latencyMs.Some?) &&
    (r.status == Ok <==> r.httpStatus.Some? && r.contentLength.Some?) &&
    (r.status != Ok <==> r.error.Some?)
  }

  function RecordOf(outcome: FetchOutcome, timeoutText: string, segmentUrl: Option<string>): LatencyRecord {
    match outcome
    case Fetched(ms, code, length, at) => LatencyRecord(Ok, Some(ms), Some(code), Some(length), None, segmentUrl, at)
    case TimedOut(at) => LatencyRecord(Timeout, None, None, None, Some(timeoutText), segmentUrl, at)
    case Failed(message, at) => LatencyRecord(Error, None, None, None, Some(message), segmentUrl, at)
  }

  /** `measure_manifest_latency` */
  function ManifestRecord(outcome: FetchOutcome): (r: LatencyRecord)
    ensures WellFormed(r) && r.segmentUrl.None?
    ensures r.status == Ok <==> outcome.Fetched?
    ensures outcome.Fetched? ==> r.latencyMs == Some(outcome.elapsedMs) && r.httpStatus == Some(outcome.httpStatus)
    ensures outcome.TimedOut? ==> r.status == Timeout && r.error == Some("Timeout al obtener manifest")
    ensures outcome.Failed? ==> r.status == Error && r.error == Some(outcome.message)
  {
    RecordOf(outcome, "Timeout al obtener manifest", None)
  }

  /** `measure_segment_download_latency` */
  function SegmentRecord(outcome: FetchOutcome, url: string): (r: LatencyRecord)
    ensures WellFormed(r) && r.segmentUrl == Some(url)
    ensures r.status == Ok <==> outcome.Fetched?
    ensures outcome.Fetched? ==> r.latencyMs == Some(outcome.elapsedMs) && r.httpStatus == Some(outcome.httpStatus)
    ensures outcome.TimedOut? ==> r.status == Timeout && r.error == Some("Timeout al descargar segmento")
    ensures outcome.Failed? ==> r.status == Error && r.error == Some(outcome.message)
  {
    RecordOf(outcome, "Timeout al descargar segmento", Some(url))
  }

  // ---------------------------------------------------------------------
  // Segment URLs
  // ---------------------------------------------------------------------

  /** A representation `get_segment_urls` can use: its template has a child
      element and a non-empty `media`. */
  predicate Usable(rep: Representation) {
    rep.template.Some? && HasChildElement(rep.template.value) && Truthy(rep.template.value.media)
  }

  /** The URL of segment 1 of a usable representation. */
  function SegmentOneUrl(rep: Representation, manifestUrl: string, join: (string, string) -> string): string
    requires Usable(rep)
  {
    join(manifestUrl, ReplaceAll(rep.template.value.media.value, "$Number$", "1"))
  }

  /** The URL of the first usable representation. */
  function FirstMediaUrl(reps: seq<Representation>, manifestUrl: string, join: (string, string) -> string)
    : (r: Option<string>)
    ensures r.Some? <==> exists i :: 0 <= i < |reps| && Usable(reps[i])
    ensures r.Some? ==> exists i :: 0 <= i < |reps| && Usable(reps[i]) && r.value == SegmentOneUrl(reps[i], manifestUrl, join)
                                    && forall j :: 0 <= j < i ==> !Usable(reps[j])
  {
    if reps == [] then None
    else if Usable(reps[0]) then
      Some(SegmentOneUrl(reps[0], manifestUrl, join))
    else
      var r := FirstMediaUrl(reps[1..], manifestUrl, join);
      assert forall i :: 1 <= i < |reps| ==> reps[i] == reps[1..][i - 1];
      if r.Some? then
        var i :| 0 <= i < |reps[1..]| && Usable(reps[1..][i]) && r.value == SegmentOneUrl(reps[1..][i], manifestUrl, join)
                 && forall j :: 0 <= j < i ==> !Usable(reps[1..][j]);
        assert Usable(reps[i + 1]) && r.value == SegmentOneUrl(reps[i + 1], manifestUrl, join);
        assert forall j :: 0 <= j < i + 1 ==> !Usable(reps[j]) by {
          forall j | 0 <= j < i + 1 ensures !Usable(reps[j]) {
            if j > 0 { assert reps[j] == reps[1..][j - 1]; }
          }
        }
        r
      else
        r
  }

  /** One URL per video adaptation set that has a usable template. */
  function MediaUrls(sets: seq<AdaptationSet>, manifestUrl: string, join: (string, string) -> string)
    : (r: seq<string>)
    ensures |r| <= |sets|
  {
    if sets == [] then []
    else
      var a := sets[|sets| - 1];
      var url := if IsVideo(a) then FirstMediaUrl(a.representations, manifestUrl, join) else None;
      MediaUrls(sets[..|sets| - 1], manifestUrl, join) + (if url.Some? then [url.value] else [])
  }

  /** The representation loop: stops at the first usable template. */
  method FirstMediaUrlOf(reps: seq<Representation>, manifestUrl: string, join: (string, string) -> string)
    returns (r: Option<string>)
    ensures r == FirstMediaUrl(reps, manifestUrl, join)
  {
    for j := 0 to |reps|
      invariant FirstMediaUrl(reps, manifestUrl, join) == FirstMediaUrl(reps[j..], manifestUrl, join)
    {
      var rep := reps[j];
      assert reps[j..][1..] == reps[j + 1..];
      if rep.template.Some? && HasChildElement(rep.template.value) && Truthy(rep.template.value.media) {
        return Some(join(manifestUrl, ReplaceAll(rep.template.value.media.value, "$Number$", "1")));
      }
    }
    return None;
  }

  /** `get_segment_urls`; `mpd` is `None` when the download or the parse
      failed. */
  method GetSegmentUrls(mpd: Option<Manifest>, manifestUrl: string, join: (string, string) -> string)
    returns (r: seq<string>)
    ensures mpd.None? ==> r == []
    ensures mpd.Some? ==> r == Take(MediaUrls(AllSets(mpd.value), manifestUrl, join), MaxSegmentUrls)
    ensures |r| <= MaxSegmentUrls
  {
    if mpd.None? {
      return [];
    }
    var sets := AllSets(mpd.value);
    var urls: seq<string> := [];
    for i := 0 to |sets|
      invariant urls == MediaUrls(sets[..i], manifestUrl, join)
    {
      var a := sets[i];
      assert sets[..i + 1][..i] == sets[..i];
      if a.contentType == Some("video") {
        var url := FirstMediaUrlOf(a.representations, manifestUrl, join);
        if url.Some? {
          urls := urls + [url.value];
        }
      }
    }
    assert sets[..|sets|] == sets;
    return Take(urls, MaxSegmentUrls);
  }

  // ---------------------------------------------------------------------
  // Buffering metrics
  // ---------------------------------------------------------------------

  /** `calculate_buffering_metrics`: `{}` for no records; no latency at all
      gives `None` statistics and both rates 1.0; otherwise statistics over
      the records that have a latency. */
  datatype BufferingMetrics =
    | NoMeasurements
    | NoLatency
    | LatencyStats(
        avgLatencyMs: real,
        minLatencyMs: real,
        maxLatencyMs: real,
        latencyVariance: real,
        timeoutRate: real,
        errorRate: real,
        totalMeasurements: nat,
        successfulMeasurements: nat)
  {
    /** `metrics['avg_latency_ms']`, where present. */
    function AvgLatency(): Option<real> {
      if LatencyStats? then Some(avgLatencyMs) else None
    }

    /** `metrics['timeout_rate']`, where present: 1.0 when no record has a
        latency. */
    function TimeoutRate(): Option<real> {
      match this
      case NoMeasurements => None
      case NoLatency => Some(1.0)
      case LatencyStats(_, _, _, _, t, _, _, _) => Some(t)
    }

    /** `metrics['error_rate']`, where present: 1.0 when no record has a
        latency. */
    function ErrorRate(): Option<real> {
      match this
      case NoMeasurements => None
      case NoLatency => Some(1.0)
      case LatencyStats(_, _, _, _, _, e, _, _) => Some(e)
    }
  }

  /** The latencies of the records that have one, in order. */
  function Latencies(records: seq<LatencyRecord>): (r: seq<real>)
    ensures |r| <= |records|
  {
    if records == [] then []
    else
      var rec := records[|records| - 1];
      Latencies(records[..|records| - 1]) + (if rec.latencyMs.Some? then [rec.latencyMs.value] else [])
  }

  function CountStatus(records: seq<LatencyRecord>, s: Status): (n: nat)
    ensures n <= |records|
  {
    if records == [] then 0
    else CountStatus(records[..|records| - 1], s) + (if records[|records| - 1].status == s then 1 else 0)
  }

  function BufferingMetricsOf(records: seq<LatencyRecord>): BufferingMetrics {
    if records == [] then NoMeasurements
    else
      var xs := Latencies(records);
      if xs == [] then NoLatency
      else
        var total := |records|;
        LatencyStats(Mean(xs), Min(xs), Max(xs), Variance(xs),
                     (CountStatus(records, Timeout) as real) / (total as real),
                     (CountStatus(records, Error) as real) / (total as real),
                     total, |xs|)
  }

  lemma {:induction false} LatenciesEmpty(records: seq<LatencyRecord>)
    ensures Latencies(records) == [] <==> forall i :: 0 <= i < |records| ==> records[i].latencyMs.None?
  {
    if records != [] {
      var front := records[..|records| - 1];
      LatenciesEmpty(front);
      assert forall i :: 0 <= i < |front| ==> front[i] == records[i];
    }
  }

  lemma {:induction false} StatusCountsBounded(records: seq<LatencyRecord>)
    ensures CountStatus(records, Timeout) + CountStatus(records, Error) <= |records|
  {
    if records != [] {
      StatusCountsBounded(records[..|records| - 1]);
    }
  }

  /** The rates are fractions of the window whose sum is at most one. */
  lemma RatesBounded(records: seq<LatencyRecord>)
    requires records != []
    ensures var n := |records| as real;
      var t := CountStatus(records, Timeout) as real / n;
      var e := CountStatus(records, Error) as real / n;
      0.0 <= t && 0.0 <= e && t + e <= 1.0
  {
    StatusCountsBounded(records);
    FractionsOfWhole(CountStatus(records, Timeout) as real, CountStatus(records, Error) as real, |records| as real);
  }

  lemma FractionsOfWhole(t: real, e: real, n: real)
    requires n > 0.0 && 0.0 <= t && 0.0 <= e && t + e <= n
    ensures 0.0 <= t / n && 0.0 <= e / n && t / n + e / n <= 1.0
  {
    DivideBounds(t, n, 0.0, 1.0);
    DivideBounds(e, n, 0.0, 1.0);
    DivideBounds(t + e, n, 0.0, 1.0);
    assert t / n + e / n == (t + e) / n;
  }

  /** The window summary: its shape follows the records exactly, and the
      statistics are consistent. */
  lemma BufferingMetricsProperties(records: seq<LatencyRecord>)
    ensures BufferingMetricsOf(records).NoMeasurements? <==> records == []
    ensures BufferingMetricsOf(records).NoLatency? <==>
      records != [] && forall i :: 0 <= i < |records| ==> records[i].latencyMs.None?
    ensures BufferingMetricsOf(records).LatencyStats? ==>
      var m := BufferingMetricsOf(records);
      m.minLatencyMs <= m.avgLatencyMs <= m.maxLatencyMs &&
      m.latencyVariance >= 0.0 &&
      0.0 <= m.timeoutRate && 0.0 <= m.errorRate && m.timeoutRate + m.errorRate <= 1.0 &&
      m.totalMeasurements == |records| &&
      m.successfulMeasurements == |Latencies(records)| <= m.totalMeasurements
  {
    LatenciesEmpty(records);
    var xs := Latencies(records);
    if records != [] && xs != [] {
      MeanBetweenMinMax(xs);
      VarianceNonNegative(xs);
      RatesBounded(records);
    }
  }

  /** When no record has a latency, the statistics are all `None` and both
      rates are 1.0, whatever the records' statuses: a window of errors
      only reports a timeout rate of 1.0 as well. */
  lemma NoLatencyRates(records: seq<LatencyRecord>)
    requires records != [] && forall i :: 0 <= i < |records| ==> records[i].latencyMs.None?
    ensures BufferingMetricsOf(records) == NoLatency
    ensures BufferingMetricsOf(records).AvgLatency() == None
    ensures BufferingMetricsOf(records).TimeoutRate() == Some(1.0)
    ensures BufferingMetricsOf(records).ErrorRate() == Some(1.0)
  {
    LatenciesEmpty(records);
  }

  // ---------------------------------------------------------------------
  // The analyzer
  // ---------------------------------------------------------------------

  /** Everything one pass of the loop observes. */
  datatype Poll = Poll(
    timestamp: string,
    manifestFetch: FetchOutcome,
    mpd: Option<Manifest>,
    segmentFetch: string -> FetchOutcome,
    sessionDuration: real)

  /** One entry of `latency_data` (the float-valued `segment_info` is not
      modelled). */
  datatype LatencyResult = LatencyResult(
    timestamp: string,
    manifestLatency: LatencyRecord,
    segmentLatencies: seq<LatencyRecord>,
    manifestMetrics: BufferingMetrics,
    segmentMetrics: BufferingMetrics,
    sessionDuration: real)

  function SegmentRecords(urls: seq<string>, fetch: string -> FetchOutcome): (r: seq<LatencyRecord>)
    ensures |r| == |urls|
  {
    if urls == [] then []
    else SegmentRecords(urls[..|urls| - 1], fetch) + [SegmentRecord(fetch(urls[|urls| - 1]), urls[|urls| - 1])]
  }

  /** The URLs measured in one poll. */
  function PollUrls(p: Poll, manifestUrl: string, join: (string, string) -> string): seq<string> {
    if p.mpd.None? then [] else Take(MediaUrls(AllSets(p.mpd.value), manifestUrl, join), MaxSegmentUrls)
  }

  function PollSegmentRecords(p: Poll, manifestUrl: string, join: (string, string) -> string): seq<LatencyRecord> {
    SegmentRecords(PollUrls(p, manifestUrl, join), p.segmentFetch)
  }

  /** What `run_analysis` keeps between polls: its two local histories and
      the analyzer's `latency_data`. */
  datatype RunState = RunState(
    manifestHistory: seq<LatencyRecord>,
    segmentHistory: seq<LatencyRecord>,
    results: seq<LatencyResult>)

  /** The result one poll records: it summarises the last 50 records of
      each history, its own records included. */
  function PollResult(s: RunState, p: Poll, manifestUrl: string, join: (string, string) -> string): LatencyResult {
    var segmentResults := PollSegmentRecords(p, manifestUrl, join);
    LatencyResult(p.timestamp, ManifestRecord(p.manifestFetch), segmentResults,
                  BufferingMetricsOf(Last(s.manifestHistory + [ManifestRecord(p.manifestFetch)], Window)),
                  BufferingMetricsOf(Last(s.segmentHistory + segmentResults, Window)),
                  p.sessionDuration)
  }

  /** One poll: the manifest record and the segment records are appended to
      the histories, and the poll's result to the results. */
  function Step(s: RunState, p: Poll, manifestUrl: string, join: (string, string) -> string): RunState {
    RunState(s.manifestHistory + [ManifestRecord(p.manifestFetch)],
             s.segmentHistory + PollSegmentRecords(p, manifestUrl, join),
             s.results + [PollResult(s, p, manifestUrl, join)])
  }

  /** The polls in order. */
  function Run(s: RunState, polls: seq<Poll>, manifestUrl: string, join: (string, string) -> string): RunState {
    if polls == [] then s
    else Step(Run(s, polls[..|polls| - 1], manifestUrl, join), polls[|polls| - 1], manifestUrl, join)
  }

  /** The state a run starts from: empty histories. */
  function Start(latencyData: seq<LatencyResult>): RunState {
    RunState([], [], latencyData)
  }

  /** The segment loop of one poll. */
  method MeasureSegments(urls: seq<string>, fetch: string -> FetchOutcome) returns (r: seq<LatencyRecord>)
    ensures r == SegmentRecords(urls, fetch)
  {
    r := [];
    for k := 0 to |urls|
      invariant r == SegmentRecords(urls[..k], fetch)
    {
      assert urls[..k + 1][..k] == urls[..k];
      r := r + [SegmentRecord(fetch(urls[k]), urls[k])];
    }
    assert urls[..|urls|] == urls;
  }

  /** Each URL gets one record, for that URL. */
  lemma {:induction false} SegmentRecordsPerUrl(urls: seq<string>, fetch: string -> FetchOutcome)
    ensures |SegmentRecords(urls, fetch)| == |urls|
    ensures forall r :: r in SegmentRecords(urls, fetch) ==> WellFormed(r) && r.segmentUrl.Some? && r.segmentUrl.value in urls
  {
    if urls != [] {
      SegmentRecordsPerUrl(urls[..|urls| - 1], fetch);
    }
  }

  /** One pass of the `run_analysis` loop. */
  method PollOnce(s: RunState, p: Poll, manifestUrl: string, join: (string, string) -> string)
    returns (next: RunState)
    ensures next == Step(s, p, manifestUrl, join)
  {
    var manifestResult := ManifestRecord(p.manifestFetch);
    var manifestHistory := s.manifestHistory + [manifestResult];
    var urls := GetSegmentUrls(p.mpd, manifestUrl, join);
    var segmentResults := MeasureSegments(urls, p.segmentFetch);
    var segmentHistory := s.segmentHistory + segmentResults;
    var manifestMetrics := BufferingMetricsOf(Last(manifestHistory, Window));
    var segmentMetrics := BufferingMetricsOf(Last(segmentHistory, Window));
    var result := LatencyResult(p.timestamp, manifestResult, segmentResults, manifestMetrics, segmentMetrics,
                                p.sessionDuration);
    next := RunState(manifestHistory, segmentHistory, s.results + [result]);
  }

  /** The run over one more poll is one more step. */
  lemma RunStep(s: RunState, polls: seq<Poll>, i: nat, manifestUrl: string, join: (string, string) -> string)
    requires i < |polls|
    ensures Run(s, polls[..i + 1], manifestUrl, join) == Step(Run(s, polls[..i], manifestUrl, join), polls[i], manifestUrl, join)
  {
    assert polls[..i + 1][..i] == polls[..i];
  }

  class LatencyAnalyzer {
    const manifestUrl: string
    const interval: int
    var running: bool
    var latencyData: seq<LatencyResult>

    constructor (manifestUrl: string, interval: int)
      ensures this.manifestUrl == manifestUrl && this.interval == interval
      ensures !running && latencyData == []
    {
      this.manifestUrl := manifestUrl;
      this.interval := interval;
      running := false;
      latencyData := [];
    }

    /** `run_analysis` over a finite run of polls: the two histories are
        local and unbounded, and every poll appends one result. */
    method RunAnalysis(polls: seq<Poll>, join: (string, string) -> string)
      modifies this
      ensures latencyData == Run(Start(old(latencyData)), polls, manifestUrl, join).results
      ensures running == old(running)
    {
      var manifestHistory: seq<LatencyRecord> := [];
      var segmentHistory: seq<LatencyRecord> := [];
      for i := 0 to |polls|
        invariant RunState(manifestHistory, segmentHistory, latencyData) ==
          Run(Start(old(latencyData)), polls[..i], manifestUrl, join)
        invariant running == old(running)
      {
        RunStep(Start(old(latencyData)), polls, i, manifestUrl, join);
        var next := PollOnce(RunState(manifestHistory, segmentHistory, latencyData), polls[i], manifestUrl, join);
        manifestHistory, segmentHistory, latencyData := next.manifestHistory, next.segmentHistory, next.results;
      }
      assert polls[..|polls|] == polls;
    }

    /** `stop` */
    method Stop()
      modifies this
      ensures !running && latencyData == old(latencyData)
    {
      running := false;
    }
  }

  /** A result's summaries cover at most 50 records each. */
  predicate ResultBounded(r: LatencyResult) {
    (r.manifestMetrics.LatencyStats? ==> r.manifestMetrics.totalMeasurements <= Window) &&
    (r.segmentMetrics.LatencyStats? ==> r.segmentMetrics.totalMeasurements <= Window)
  }

  predicate WindowsBounded(results: seq<LatencyResult>) {
    forall k :: 0 <= k < |results| ==> ResultBounded(results[k])
  }

  /** A summary of the last 50 records counts at most 50. */
  lemma WindowMetricsBounded(records: seq<LatencyRecord>)
    ensures var m := BufferingMetricsOf(Last(records, Window));
      m.LatencyStats? ==> m.totalMeasurements <= Window
  {
    BufferingMetricsProperties(Last(records, Window));
  }

  lemma PollResultBounded(s: RunState, p: Poll, manifestUrl: string, join: (string, string) -> string)
    ensures ResultBounded(PollResult(s, p, manifestUrl, join))
  {
    WindowMetricsBounded(s.manifestHistory + [ManifestRecord(p.manifestFetch)]);
    WindowMetricsBounded(s.segmentHistory + PollSegmentRecords(p, manifestUrl, join));
  }

  lemma WindowsBoundedAppend(results: seq<LatencyResult>, r: LatencyResult)
    requires WindowsBounded(results) && ResultBounded(r)
    ensures WindowsBounded(results + [r])
  {
    assert forall k :: 0 <= k < |results| ==> (results + [r])[k] == results[k];
  }

  lemma StepKeepsWindowsBounded(s: RunState, p: Poll, manifestUrl: string, join: (string, string) -> string)
    requires WindowsBounded(s.results)
    ensures WindowsBounded(Step(s, p, manifestUrl, join).results)
  {
    PollResultBounded(s, p, manifestUrl, join);
    WindowsBoundedAppend(s.results, PollResult(s, p, manifestUrl, join));
  }

  /** The manifest records of some polls, in order. */
  function ManifestRecords(polls: seq<Poll>): (r: seq<LatencyRecord>)
    ensures |r| == |polls|
  {
    if polls == [] then [] else ManifestRecords(polls[..|polls| - 1]) + [ManifestRecord(polls[|polls| - 1].manifestFetch)]
  }

  /** A run appends exactly one result per poll and keeps what was there. */
  lemma {:induction false} RunAppendsResults(s: RunState, polls: seq<Poll>, manifestUrl: string,
                                             join: (string, string) -> string)
    ensures var t := Run(s, polls, manifestUrl, join);
      |t.results| == |s.results| + |polls| && s.results <= t.results &&
      s.segmentHistory <= t.segmentHistory
  {
    if polls != [] {
      RunAppendsResults(s, polls[..|polls| - 1], manifestUrl, join);
    }
  }

  /** The manifest history grows by each poll's own record, in order. */
  lemma {:induction false} RunManifestHistory(s: RunState, polls: seq<Poll>, manifestUrl: string,
                                              join: (string, string) -> string)
    ensures Run(s, polls, manifestUrl, join).manifestHistory == s.manifestHistory + ManifestRecords(polls)
  {
    if polls != [] {
      var front := polls[..|polls| - 1];
      RunManifestHistory(s, front, manifestUrl, join);
      AppendAssoc(s.manifestHistory, ManifestRecords(front), [ManifestRecord(polls[|polls| - 1].manifestFetch)]);
    }
  }

  /** Every summary a run records covers at most the last 50 records. */
  lemma {:induction false} RunKeepsWindowsBounded(s: RunState, polls: seq<Poll>, manifestUrl: string,
                                                  join: (string, string) -> string)
    requires WindowsBounded(s.results)
    ensures WindowsBounded(Run(s, polls, manifestUrl, join).results)
  {
    if polls != [] {
      var front := polls[..|polls| - 1];
      RunKeepsWindowsBounded(s, front, manifestUrl, join);
      StepKeepsWindowsBounded(Run(s, front, manifestUrl, join), polls[|polls| - 1], manifestUrl, join);
    }
  }

  /** A longer run extends a shorter run's results. */
  lemma {:induction false} RunResultsGrow(s: RunState, polls: seq<Poll>, m: nat, manifestUrl: string,
                                          join: (string, string) -> string)
    requires m <= |polls|
    ensures Run(s, polls[..m], manifestUrl, join).results <= Run(s, polls, manifestUrl, join).results
    decreases |polls|
  {
    if m == |polls| {
      assert polls[..m] == polls;
    } else {
      var front := polls[..|polls| - 1];
      assert front[..m] == polls[..m];
      RunResultsGrow(s, front, m, manifestUrl, join);
      RunAppendsResults(Run(s, front, manifestUrl, join), [polls[|polls| - 1]], manifestUrl, join);
      assert [polls[|polls| - 1]][..0] == [];
    }
  }

  /** Result `n` of a run is what poll `n` records after the polls before it. */
  lemma ResultOfPoll(s: RunState, polls: seq<Poll>, n: nat, manifestUrl: string, join: (string, string) -> string)
    requires n < |polls|
    ensures var t := Run(s, polls, manifestUrl, join).results;
      |t| == |s.results| + |polls| &&
      t[|s.results| + n] == PollResult(Run(s, polls[..n], manifestUrl, join), polls[n], manifestUrl, join)
  {
    RunAppendsResults(s, polls, manifestUrl, join);
    RunResultsGrow(s, polls, n + 1, manifestUrl, join);
    RunStep(s, polls, n, manifestUrl, join);
    RunAppendsResults(s, polls[..n], manifestUrl, join);
  }

  /** The manifest history poll `n` summarises: the records of the polls up
      to and including its own. */
  lemma ManifestHistoryAt(s: RunState, polls: seq<Poll>, n: nat, manifestUrl: string, join: (string, string) -> string)
    requires n < |polls|
    ensures Run(s, polls[..n], manifestUrl, join).manifestHistory + [ManifestRecord(polls[n].manifestFetch)] ==
      s.manifestHistory + ManifestRecords(polls[..n + 1])
  {
    RunManifestHistory(s, polls[..n], manifestUrl, join);
    assert polls[..n + 1][..n] == polls[..n];
    AppendAssoc(s.manifestHistory, ManifestRecords(polls[..n]), [ManifestRecord(polls[n].manifestFetch)]);
  }

  /** The result of poll `n` summarises the last 50 manifest records up to
      and including that poll's own. */
  lemma ResultWindow(s: RunState, polls: seq<Poll>, n: nat, manifestUrl: string, join: (string, string) -> string)
    requires n < |polls|
    ensures var t := Run(s, polls, manifestUrl, join).results;
      |t| == |s.results| + |polls| &&
      t[|s.results| + n].manifestMetrics ==
        BufferingMetricsOf(Last(s.manifestHistory + ManifestRecords(polls[..n + 1]), Window))
  {
    ResultOfPoll(s, polls, n, manifestUrl, join);
    ManifestHistoryAt(s, polls, n, manifestUrl, join);
  }

  /** Every segment record in a history is well formed, and each poll adds at
      most two. */
  lemma {:induction false} SegmentHistoryGrowth(s: RunState, polls: seq<Poll>, manifestUrl: string,
                                                join: (string, string) -> string)
    requires forall r :: r in s.segmentHistory ==> WellFormed(r) && r.segmentUrl.Some?
    ensures var t := Run(s, polls, manifestUrl, join);
      |t.segmentHistory| <= |s.segmentHistory| + MaxSegmentUrls * |polls| &&
      forall r :: r in t.segmentHistory ==> WellFormed(r) && r.segmentUrl.Some?
  {
    if polls != [] {
      SegmentHistoryGrowth(s, polls[..|polls| - 1], manifestUrl, join);
      var p := polls[|polls| - 1];
      SegmentRecordsPerUrl(PollUrls(p, manifestUrl, join), p.segmentFetch);
    }
  }
}
