/** The bitrate-adaptation analyzer: per poll it sorts each video set's
    representations by bandwidth, keeps those whose current segment
    answers a HEAD request, summarises their bitrates, compares the set of
    bitrates with the previous poll to detect switches, and aggregates the
    bounded history into stability metrics. */
module Adaptation {
  import opened Wrappers
  import opened PyText
  import opened History
  import opened Stats

  /** The history keeps the last 100 analyses. */
  const HistoryLimit: nat := 100

  /** What `fetch_manifest_info` keeps of a SegmentTemplate: `media` and
      `startNumber`, empty when absent. */
  datatype TemplateInfo = TemplateInfo(media: string, startNumber: string)

  /** A representation as `fetch_manifest_info` records it; `template` is
      `None` for the empty `segment_template` dictionary. */
  datatype RepInfo = RepInfo(
    id: string,
    bandwidth: int,
    width: int,
    height: int,
    codecs: string,
    template: Option<TemplateInfo>)

  datatype SetInfo = SetInfo(contentType: string, representations: seq<RepInfo>)

  /** The answer to a HEAD request; a request that raises is `None`. */
  datatype HeadResponse = HeadResponse(status: int, contentLength: Option<string>)

  datatype SegmentInfo = SegmentInfo(
    url: string,
    sizeBytes: int,
    bitrate: int,
    resolution: string,
    codec: string)

  /** The `adaptation_metrics` block of one poll. */
  datatype AdaptationMetrics = AdaptationMetrics(
    availableBitrates: seq<int>,
    minBitrate: int,
    maxBitrate: int,
    bitrateRange: int,
    bitrateLevels: nat,
    currentBitrate: int,
    resolutions: set<string>)

  /** One poll; `metrics` is `None` for the empty dictionary. */
  datatype Analysis = Analysis(
    timestamp: string,
    currentSegments: seq<SegmentInfo>,
    metrics: Option<AdaptationMetrics>)

  datatype Direction = Upgrade | Downgrade | Mixed

  /** A `bitrate_switch` event; the bitrate lists are built from sets in no
      particular order, so they are kept as sets. */
  datatype SwitchEvent = SwitchEvent(
    timestamp: string,
    previousBitrates: set<int>,
    currentBitrates: set<int>,
    direction: Direction)

  datatype AdaptationAggregate = AdaptationAggregate(
    avgBitrate: real,
    bitrateVariance: real,
    totalSwitchingEvents: nat,
    upgradeEvents: nat,
    downgradeEvents: nat,
    switchingFrequency: real,
    stabilityScore: real)

  /** One entry of `adaptation_data`; `aggregate` is `None` for `{}`. */
  datatype AnalysisResult = AnalysisResult(
    timestamp: string,
    analysis: Analysis,
    switchingEvents: seq<SwitchEvent>,
    aggregate: Option<AdaptationAggregate>,
    sessionDuration: real)

  // ---------------------------------------------------------------------
  // One poll
  // ---------------------------------------------------------------------

  /** `get_current_segment_info`: the segment named by `startNumber` is
      requested with HEAD; a record exists only for an answer 200 whose
      content-length (0 when absent) is an integer. */
  function CurrentSegmentInfo(rep: RepInfo, manifestUrl: string, join: (string, string) -> string,
                              head: string -> Option<HeadResponse>): (r: Option<SegmentInfo>)
    ensures r.Some? ==> rep.template.Some? && |rep.template.value.media| > 0
    ensures r.Some? ==>
      var url := join(manifestUrl, ReplaceAll(rep.template.value.media, "$Number$", rep.template.value.startNumber));
      r.value.url == url && head(url).Some? && head(url).value.status == 200
    ensures r.Some? ==> r.value.bitrate == rep.bandwidth && r.value.codec == rep.codecs
    ensures r.Some? ==> r.value.resolution == IntToString(rep.width) + "x" + IntToString(rep.height)
  {
    match rep.template
    case None => None
    case Some(t) =>
      if |t.media| == 0 then None
      else
        var url := join(manifestUrl, ReplaceAll(t.media, "$Number$", t.startNumber));
        match head(url)
        case None => None
        case Some(resp) =>
          if resp.status != 200 then None
          else
            var size := match resp.contentLength
              case None => Some(0)
              case Some(text) => ParseInt(text);
            match size
            case None => None
            case Some(n) =>
              Some(SegmentInfo(url, n, rep.bandwidth,
                               IntToString(rep.width) + "x" + IntToString(rep.height), rep.codecs))
  }

  predicate SortedByBandwidth(reps: seq<RepInfo>) {
    forall i, j :: 0 <= i < j < |reps| ==> reps[i].bandwidth <= reps[j].bandwidth
  }

  /** Insert before the first representation of equal or higher bandwidth. */
  function InsertByBandwidth(x: RepInfo, s: seq<RepInfo>): (r: seq<RepInfo>)
    ensures |r| == |s| + 1
  {
    if s == [] then [x]
    else if x.bandwidth <= s[0].bandwidth then [x] + s
    else [s[0]] + InsertByBandwidth(x, s[1..])
  }

  lemma {:induction false} InsertByBandwidthSorted(x: RepInfo, s: seq<RepInfo>)
    requires SortedByBandwidth(s)
    ensures SortedByBandwidth(InsertByBandwidth(x, s))
    ensures InsertByBandwidth(x, s)[0] == x || InsertByBandwidth(x, s)[0] == s[0]
  {
    if s != [] && x.bandwidth > s[0].bandwidth {
      InsertByBandwidthSorted(x, s[1..]);
      var t := InsertByBandwidth(x, s[1..]);
      assert s[0].bandwidth <= t[0].bandwidth;
    }
  }

  lemma {:induction false} InsertByBandwidthPermutes(x: RepInfo, s: seq<RepInfo>)
    ensures multiset(InsertByBandwidth(x, s)) == multiset(s) + multiset{x}
  {
    if s != [] && x.bandwidth > s[0].bandwidth {
      InsertByBandwidthPermutes(x, s[1..]);
      assert s == [s[0]] + s[1..];
    }
  }

  /** `representations.sort(key=lambda x: x['bandwidth'])`: an insertion
      sort, stable like Python's (`SortByBandwidthStable`). */
  function SortByBandwidth(reps: seq<RepInfo>): (r: seq<RepInfo>)
    ensures |r| == |reps|
  {
    if reps == [] then []
    else InsertByBandwidth(reps[0], SortByBandwidth(reps[1..]))
  }

  /** The representations of one bandwidth, in order. */
  function WithBandwidth(reps: seq<RepInfo>, b: int): seq<RepInfo> {
    if reps == [] then []
    else (if reps[0].bandwidth == b then [reps[0]] else []) + WithBandwidth(reps[1..], b)
  }

  /** Insertion puts the new representation before every one of the same
      bandwidth and keeps their order. */
  lemma {:induction false} InsertByBandwidthStable(x: RepInfo, s: seq<RepInfo>, b: int)
    ensures WithBandwidth(InsertByBandwidth(x, s), b) ==
      (if x.bandwidth == b then [x] else []) + WithBandwidth(s, b)
  {
    var r := InsertByBandwidth(x, s);
    if s == [] {
      assert r == [x];
      assert WithBandwidth(r, b) == (if x.bandwidth == b then [x] else []) + WithBandwidth([], b);
    } else if x.bandwidth <= s[0].bandwidth {
      assert r == [x] + s && r[1..] == s;
    } else {
      var t := InsertByBandwidth(x, s[1..]);
      assert r == [s[0]] + t && r[1..] == t;
      InsertByBandwidthStable(x, s[1..], b);
      var mid := WithBandwidth(s[1..], b);
      assert WithBandwidth(r, b) == (if s[0].bandwidth == b then [s[0]] else []) + WithBandwidth(t, b);
      assert WithBandwidth(s, b) == (if s[0].bandwidth == b then [s[0]] else []) + mid;
      if s[0].bandwidth == b {
        assert x.bandwidth != b;
      }
    }
  }

  /** The sort is stable: representations of equal bandwidth keep the
      order they had in the manifest. */
  lemma {:induction false} SortByBandwidthStable(reps: seq<RepInfo>, b: int)
    ensures WithBandwidth(SortByBandwidth(reps), b) == WithBandwidth(reps, b)
  {
    if reps != [] {
      SortByBandwidthStable(reps[1..], b);
      InsertByBandwidthStable(reps[0], SortByBandwidth(reps[1..]), b);
    }
  }

  /** The sorted list is in ascending bandwidth order. */
  lemma {:induction false} SortByBandwidthSorted(reps: seq<RepInfo>)
    ensures SortedByBandwidth(SortByBandwidth(reps))
  {
    if reps != [] {
      SortByBandwidthSorted(reps[1..]);
      InsertByBandwidthSorted(reps[0], SortByBandwidth(reps[1..]));
    }
  }

  /** The sorted list holds the same representations. */
  lemma {:induction false} SortByBandwidthPermutes(reps: seq<RepInfo>)
    ensures multiset(SortByBandwidth(reps)) == multiset(reps)
  {
    if reps != [] {
      SortByBandwidthPermutes(reps[1..]);
      InsertByBandwidthPermutes(reps[0], SortByBandwidth(reps[1..]));
      assert reps == [reps[0]] + reps[1..];
    }
  }

  /** The segment records of the representations that answer, in order. */
  function SegmentsOf(reps: seq<RepInfo>, manifestUrl: string, join: (string, string) -> string,
                      head: string -> Option<HeadResponse>): (r: seq<SegmentInfo>)
    ensures |r| <= |reps|
  {
    if reps == [] then []
    else
      var info := CurrentSegmentInfo(reps[|reps| - 1], manifestUrl, join, head);
      SegmentsOf(reps[..|reps| - 1], manifestUrl, join, head) + (if info.Some? then [info.value] else [])
  }

  function SegmentBitrates(segs: seq<SegmentInfo>): (r: seq<int>)
    ensures |r| == |segs| && forall i :: 0 <= i < |segs| ==> r[i] == segs[i].bitrate
  {
    if segs == [] then [] else SegmentBitrates(segs[..|segs| - 1]) + [segs[|segs| - 1].bitrate]
  }

  /** The `adaptation_metrics` block for a non-empty list of segments. */
  function MetricsOf(segs: seq<SegmentInfo>): (r: AdaptationMetrics)
    requires |segs| > 0
    ensures r.bitrateLevels == |segs| && r.availableBitrates == SegmentBitrates(segs)
    ensures r.minBitrate <= r.maxBitrate && r.bitrateRange == r.maxBitrate - r.minBitrate
    ensures forall i :: 0 <= i < |segs| ==> r.minBitrate <= segs[i].bitrate <= r.maxBitrate
    ensures r.minBitrate in r.availableBitrates && r.maxBitrate in r.availableBitrates
    ensures forall x :: x in r.resolutions <==> exists i :: 0 <= i < |segs| && segs[i].resolution == x
  {
    var b := SegmentBitrates(segs);
    AdaptationMetrics(b, IntMin(b), IntMax(b), IntMax(b) - IntMin(b), |b|, b[0],
                      set i | 0 <= i < |segs| :: segs[i].resolution)
  }

  /** The segments of one video set, taken after sorting. */
  function VideoSegments(a: SetInfo, manifestUrl: string, join: (string, string) -> string,
                         head: string -> Option<HeadResponse>): seq<SegmentInfo>
  {
    SegmentsOf(SortByBandwidth(a.representations), manifestUrl, join, head)
  }

  /** What `analyze_adaptation_behavior` returns for the adaptation sets of
      a manifest: `current_segments` is overwritten by every video set,
      `adaptation_metrics` only by a video set with some segment. */
  function AnalysisOf(sets: seq<SetInfo>, timestamp: string, manifestUrl: string,
                      join: (string, string) -> string, head: string -> Option<HeadResponse>): Analysis
  {
    if sets == [] then Analysis(timestamp, [], None)
    else
      var prev := AnalysisOf(sets[..|sets| - 1], timestamp, manifestUrl, join, head);
      var a := sets[|sets| - 1];
      if a.contentType != "video" then prev
      else
        var segs := VideoSegments(a, manifestUrl, join, head);
        Analysis(timestamp, segs, if |segs| > 0 then Some(MetricsOf(segs)) else prev.metrics)
  }

  /** `analyze_adaptation_behavior`; `manifest` is what
      `fetch_manifest_info` returned (`None` when it failed). */
  method AnalyzeAdaptationBehavior(manifest: Option<seq<SetInfo>>, timestamp: string, manifestUrl: string,
                                   join: (string, string) -> string, head: string -> Option<HeadResponse>)
    returns (r: Option<Analysis>)
    ensures r.None? <==> manifest.None?
    ensures r.Some? ==> r.value == AnalysisOf(manifest.value, timestamp, manifestUrl, join, head)
  {
    if manifest.None? {
      return None;
    }
    var sets := manifest.value;
    var analysis := Analysis(timestamp, [], None);
    for i := 0 to |sets|
      invariant analysis == AnalysisOf(sets[..i], timestamp, manifestUrl, join, head)
    {
      var a := sets[i];
      assert sets[..i + 1][..i] == sets[..i];
      if a.contentType == "video" {
        var reps := SortByBandwidth(a.representations);
        var segs: seq<SegmentInfo> := [];
        for j := 0 to |reps|
          invariant segs == SegmentsOf(reps[..j], manifestUrl, join, head)
        {
          assert reps[..j + 1][..j] == reps[..j];
          var info := CurrentSegmentInfo(reps[j], manifestUrl, join, head);
          if info.Some? {
            segs := segs + [info.value];
          }
        }
        assert reps[..|reps|] == reps;
        var metrics := analysis.metrics;
        if |segs| > 0 {
          metrics := Some(MetricsOf(segs));
        }
        analysis := Analysis(timestamp, segs, metrics);
      }
    }
    assert sets[..|sets|] == sets;
    return Some(analysis);
  }

  /** Filtering keeps the representations' order, so sorted representations
      give sorted bitrates. */
  lemma {:induction false} SegmentsOfSorted(reps: seq<RepInfo>, manifestUrl: string,
                                            join: (string, string) -> string, head: string -> Option<HeadResponse>)
    requires SortedByBandwidth(reps)
    ensures forall i, j :: 0 <= i < j < |SegmentsOf(reps, manifestUrl, join, head)| ==>
      SegmentsOf(reps, manifestUrl, join, head)[i].bitrate <= SegmentsOf(reps, manifestUrl, join, head)[j].bitrate
    ensures reps != [] ==> forall i :: 0 <= i < |SegmentsOf(reps, manifestUrl, join, head)| ==>
      SegmentsOf(reps, manifestUrl, join, head)[i].bitrate <= reps[|reps| - 1].bandwidth
  {
    if reps != [] {
      var front := reps[..|reps| - 1];
      var last := reps[|reps| - 1];
      SegmentsOfSorted(front, manifestUrl, join, head);
      var sf := SegmentsOf(front, manifestUrl, join, head);
      var info := CurrentSegmentInfo(last, manifestUrl, join, head);
      assert forall i :: 0 <= i < |sf| ==> sf[i].bitrate <= last.bandwidth by {
        if front != [] {
          assert front[|front| - 1].bandwidth <= last.bandwidth;
        }
      }
      if info.Some? {
        assert SegmentsOf(reps, manifestUrl, join, head) == sf + [info.value];
      } else {
        assert SegmentsOf(reps, manifestUrl, join, head) == sf;
      }
    }
  }

  /** The `current_bitrate` of a poll is its lowest bitrate, because the
      representations are sorted first. */
  lemma {:induction false} CurrentIsMinimum(sets: seq<SetInfo>, timestamp: string, manifestUrl: string,
                                            join: (string, string) -> string, head: string -> Option<HeadResponse>)
    ensures var a := AnalysisOf(sets, timestamp, manifestUrl, join, head);
      a.metrics.Some? ==> a.metrics.value.currentBitrate == a.metrics.value.minBitrate
  {
    if sets != [] {
      CurrentIsMinimum(sets[..|sets| - 1], timestamp, manifestUrl, join, head);
      var a := sets[|sets| - 1];
      if a.contentType == "video" {
        var reps := SortByBandwidth(a.representations);
        var segs := SegmentsOf(reps, manifestUrl, join, head);
        if |segs| > 0 {
          SortByBandwidthSorted(a.representations);
          SegmentsOfSorted(reps, manifestUrl, join, head);
          var m := MetricsOf(segs);
          var b := SegmentBitrates(segs);
          assert m.currentBitrate == b[0];
          assert forall i :: 0 <= i < |b| ==> b[0] <= b[i] by {
            forall i | 0 < i < |b| ensures b[0] <= b[i] {
              assert b[0] == segs[0].bitrate && b[i] == segs[i].bitrate;
            }
          }
        }
      }
    }
  }

  /** A video set with at least one representation that answers. */
  predicate HasReachableSegment(a: SetInfo, manifestUrl: string, join: (string, string) -> string,
                                head: string -> Option<HeadResponse>)
  {
    a.contentType == "video" && |VideoSegments(a, manifestUrl, join, head)| > 0
  }

  /** A metrics block comes from a video set with a reachable segment. */
  lemma {:induction false} MetricsNeedReachable(sets: seq<SetInfo>, timestamp: string, manifestUrl: string,
                                                join: (string, string) -> string, head: string -> Option<HeadResponse>)
    returns (i: nat)
    requires AnalysisOf(sets, timestamp, manifestUrl, join, head).metrics.Some?
    ensures i < |sets| && HasReachableSegment(sets[i], manifestUrl, join, head)
  {
    var front := sets[..|sets| - 1];
    var last := sets[|sets| - 1];
    if HasReachableSegment(last, manifestUrl, join, head) {
      i := |sets| - 1;
    } else {
      i := MetricsNeedReachable(front, timestamp, manifestUrl, join, head);
      assert sets[i] == front[i];
    }
  }

  /** A video set with a reachable segment yields a metrics block, whatever
      the sets after it hold. */
  lemma {:induction false} ReachableGivesMetrics(sets: seq<SetInfo>, i: nat, timestamp: string, manifestUrl: string,
                                                 join: (string, string) -> string, head: string -> Option<HeadResponse>)
    requires i < |sets| && HasReachableSegment(sets[i], manifestUrl, join, head)
    ensures AnalysisOf(sets, timestamp, manifestUrl, join, head).metrics.Some?
  {
    if i < |sets| - 1 {
      var front := sets[..|sets| - 1];
      assert front[i] == sets[i];
      ReachableGivesMetrics(front, i, timestamp, manifestUrl, join, head);
    }
  }

  // ---------------------------------------------------------------------
  // Switch detection
  // ---------------------------------------------------------------------

  /** The set of bitrates of a poll's current segments. */
  function BitrateSet(a: Analysis): set<int> {
    set i | 0 <= i < |a.currentSegments| :: a.currentSegments[i].bitrate
  }

  /** The max test first, then the min test. */
  function DirectionOf(current: seq<int>, previous: seq<int>): Direction
    requires |current| > 0 && |previous| > 0
  {
    if IntMax(current) > IntMax(previous) then Upgrade
    else if IntMin(current) < IntMin(previous) then Downgrade
    else Mixed
  }

  /** An upgrade is a poll with a bitrate above every previous one; a
      downgrade, failing that, one with a bitrate below every previous one. */
  lemma DirectionMeaning(current: seq<int>, previous: seq<int>)
    requires |current| > 0 && |previous| > 0
    ensures DirectionOf(current, previous) == Upgrade <==>
      exists x :: x in current && forall y :: y in previous ==> y < x
    ensures DirectionOf(current, previous) == Downgrade <==>
      (forall x :: x in current ==> exists y :: y in previous && x <= y) &&
      (exists x :: x in current && forall y :: y in previous ==> x < y)
  {
    var hi, lo := IntMax(current), IntMin(current);
    var phi, plo := IntMax(previous), IntMin(previous);
    if exists x :: x in current && forall y :: y in previous ==> y < x {
      var x :| x in current && forall y :: y in previous ==> y < x;
      assert phi < x <= hi;
    }
    if hi > phi {
      assert forall y :: y in previous ==> y < hi;
    } else {
      assert forall x :: x in current ==> phi in previous && x <= phi;
    }
    if exists x :: x in current && forall y :: y in previous ==> x < y {
      var x :| x in current && forall y :: y in previous ==> x < y;
      assert lo <= x < plo;
    }
    if lo < plo {
      assert forall y :: y in previous ==> lo < y;
    }
  }

  function SegmentBitrateList(a: Analysis): seq<int> {
    SegmentBitrates(a.currentSegments)
  }

  lemma BitrateSetIsList(a: Analysis)
    ensures forall x :: x in BitrateSet(a) <==> x in SegmentBitrateList(a)
  {
    var b := SegmentBitrateList(a);
    forall x | x in b ensures x in BitrateSet(a) {
      var i :| 0 <= i < |b| && b[i] == x;
      assert a.currentSegments[i].bitrate == x;
    }
  }

  /** `detect_switching_events` as a value: the events it returns, or the
      `ValueError` that `max`/`min` raise on an empty set. */
  function Detect(history: seq<Analysis>, current: Analysis): Result<seq<SwitchEvent>> {
    if history == [] then Success([])
    else
      var previous := history[|history| - 1];
      var cur, prev := SegmentBitrateList(current), SegmentBitrateList(previous);
      if BitrateSet(current) == BitrateSet(previous) then Success([])
      else if |cur| == 0 || |prev| == 0 then Failure("ValueError")
      else Success([SwitchEvent(current.timestamp, BitrateSet(previous), BitrateSet(current),
                                DirectionOf(cur, prev))])
  }

  /** An event is reported exactly when the bitrate sets differ, never more
      than one, and it carries both sets. */
  lemma DetectReportsChange(history: seq<Analysis>, current: Analysis)
    requires history != [] && Detect(history, current).Success?
    ensures |Detect(history, current).value| <= 1
    ensures |Detect(history, current).value| == 1 <==>
      BitrateSet(current) != BitrateSet(history[|history| - 1])
    ensures forall e :: e in Detect(history, current).value ==>
      e.previousBitrates == BitrateSet(history[|history| - 1]) && e.currentBitrates == BitrateSet(current)
  {
  }

  /** Detection fails exactly when the sets differ and one of them is
      empty. */
  lemma DetectFailure(history: seq<Analysis>, current: Analysis)
    ensures Detect(history, current).Failure? <==>
      history != [] && BitrateSet(current) != BitrateSet(history[|history| - 1]) &&
      (BitrateSet(current) == {} || BitrateSet(history[|history| - 1]) == {})
  {
    if history != [] {
      var previous := history[|history| - 1];
      BitrateSetIsList(current);
      BitrateSetIsList(previous);
      var cur, prev := SegmentBitrateList(current), SegmentBitrateList(previous);
      if |cur| > 0 {
        assert cur[0] in BitrateSet(current);
      }
      if |prev| > 0 {
        assert prev[0] in BitrateSet(previous);
      }
    }
  }

  /** Once the last stored poll has no reachable segment, a poll with one
      makes detection fail, so nothing is stored: every later poll is
      compared with the same empty entry. */
  lemma StuckAfterEmptyPoll(history: seq<Analysis>, current: Analysis)
    requires history != [] && BitrateSet(history[|history| - 1]) == {}
    requires BitrateSet(current) != {}
    ensures Detect(history, current).Failure?
  {
    DetectFailure(history, current);
  }

  // ---------------------------------------------------------------------
  // Aggregate metrics
  // ---------------------------------------------------------------------

  /** The `current_bitrate` of every stored poll with a metrics block. */
  function CurrentBitrates(history: seq<Analysis>): (r: seq<int>)
    ensures |r| <= |history|
  {
    if history == [] then []
    else
      var a := history[|history| - 1];
      CurrentBitrates(history[..|history| - 1]) + (if a.metrics.Some? then [a.metrics.value.currentBitrate] else [])
  }

  function CountDirection(events: seq<SwitchEvent>, d: Direction): (n: nat)
    ensures n <= |events|
  {
    if events == [] then 0
    else CountDirection(events[..|events| - 1], d) + (if events[|events| - 1].direction == d then 1 else 0)
  }

  /** `1 / (1 + variance / mean²)` for a positive mean, else 0. */
  function Stability(xs: seq<real>): (r: real)
    requires |xs| > 0
    ensures 0.0 <= r <= 1.0
    ensures Mean(xs) > 0.0 ==> r > 0.0 && (r == 1.0 <==> Variance(xs) == 0.0)
    ensures Mean(xs) <= 0.0 ==> r == 0.0
  {
    var avg := Mean(xs);
    if avg > 0.0 then
      VarianceNonNegative(xs);
      NonZeroSquare(avg);
      var q := Variance(xs) / Square(avg);
      assert q >= 0.0 && (q == 0.0 <==> Variance(xs) == 0.0);
      1.0 / (1.0 + q)
    else 0.0
  }

  /** What `calculate_adaptation_metrics` returns; `None` for `{}`. */
  function AggregateOf(history: seq<Analysis>, events: seq<SwitchEvent>): Option<AdaptationAggregate> {
    var b := CurrentBitrates(history);
    if |b| == 0 then None
    else
      var xs := Reals(b);
      Some(AdaptationAggregate(
        Mean(xs), Variance(xs), |events|,
        CountDirection(events, Upgrade), CountDirection(events, Downgrade),
        (|events| as real) / (if |history| > 1 then |history| else 1) as real,
        Stability(xs)))
  }

  lemma {:induction false} DirectionCountsBounded(events: seq<SwitchEvent>)
    ensures CountDirection(events, Upgrade) + CountDirection(events, Downgrade) <= |events|
  {
    if events != [] {
      DirectionCountsBounded(events[..|events| - 1]);
    }
  }

  lemma {:induction false} CurrentBitratesEmpty(history: seq<Analysis>)
    ensures CurrentBitrates(history) == [] <==> forall i :: 0 <= i < |history| ==> history[i].metrics.None?
  {
    if history != [] {
      var front := history[..|history| - 1];
      CurrentBitratesEmpty(front);
      assert forall i :: 0 <= i < |front| ==> front[i] == history[i];
    }
  }

  /** The aggregate is absent exactly when no stored poll has a metrics
      block; otherwise the counts and the frequency are consistent, the
      stability lies in [0, 1], and for a positive mean it is 1 exactly
      when every recorded current bitrate is the same. */
  lemma AggregateProperties(history: seq<Analysis>, events: seq<SwitchEvent>)
    ensures AggregateOf(history, events).None? <==>
      forall i :: 0 <= i < |history| ==> history[i].metrics.None?
    ensures AggregateOf(history, events).Some? ==>
      var g := AggregateOf(history, events).value;
      g.upgradeEvents + g.downgradeEvents <= g.totalSwitchingEvents == |events| &&
      g.switchingFrequency == (|events| as real) / (|history| as real) &&
      g.switchingFrequency >= 0.0 && g.bitrateVariance >= 0.0 &&
      0.0 <= g.stabilityScore <= 1.0
    ensures AggregateOf(history, events).Some? && AggregateOf(history, events).value.avgBitrate > 0.0 ==>
      var b := CurrentBitrates(history);
      (AggregateOf(history, events).value.stabilityScore == 1.0 <==>
        forall i, j :: 0 <= i < |b| && 0 <= j < |b| ==> b[i] == b[j])
  {
    CurrentBitratesEmpty(history);
    DirectionCountsBounded(events);
    var b := CurrentBitrates(history);
    if |b| > 0 {
      var xs := Reals(b);
      var n := |history| as real;
      assert n >= 1.0;
      assert (|events| as real) / n >= 0.0;
      VarianceNonNegative(xs);
      VarianceZeroIffConstant(xs);
      assert (forall i, j :: 0 <= i < |xs| && 0 <= j < |xs| ==> xs[i] == xs[j]) <==>
        (forall i, j :: 0 <= i < |b| && 0 <= j < |b| ==> b[i] == b[j]);
    }
  }

  // ---------------------------------------------------------------------
  // The analyzer
  // ---------------------------------------------------------------------

  class AdaptationAnalyzer {
    const interval: int
    var running: bool
    /** The last `HistoryLimit` analyses, oldest first. */
    var bitrateHistory: seq<Analysis>
    /** Every switching event so far; never trimmed. */
    var switchingEvents: seq<SwitchEvent>
    var adaptationData: seq<AnalysisResult>

    ghost predicate Valid()
      reads this
    {
      |bitrateHistory| <= HistoryLimit
    }

    constructor (interval: int)
      ensures Valid()
      ensures this.interval == interval && !running
      ensures bitrateHistory == [] && switchingEvents == [] && adaptationData == []
    {
      this.interval := interval;
      running := false;
      bitrateHistory := [];
      switchingEvents := [];
      adaptationData := [];
    }

    /** `detect_switching_events`: on success the poll is appended to the
        bounded history and any event to the switching log; on failure
        nothing changes. */
    method DetectSwitchingEvents(current: Analysis) returns (r: Result<seq<SwitchEvent>>)
      requires Valid()
      modifies this
      ensures Valid()
      ensures r == Detect(old(bitrateHistory), current)
      ensures r.Success? ==> bitrateHistory == Push(old(bitrateHistory), current, HistoryLimit)
      ensures r.Success? ==> switchingEvents == old(switchingEvents) + r.value
      ensures r.Failure? ==> bitrateHistory == old(bitrateHistory) && switchingEvents == old(switchingEvents)
      ensures adaptationData == old(adaptationData) && running == old(running)
    {
      if bitrateHistory == [] {
        bitrateHistory := bitrateHistory + [current];
        return Success([]);
      }
      ghost var expected := Detect(bitrateHistory, current);
      var previous := bitrateHistory[|bitrateHistory| - 1];
      var events: seq<SwitchEvent> := [];
      var cur, prev := SegmentBitrateList(current), SegmentBitrateList(previous);
      if BitrateSet(current) != BitrateSet(previous) {
        if |cur| == 0 || |prev| == 0 {
          return Failure("ValueError");
        }
        var event := SwitchEvent(current.timestamp, BitrateSet(previous), BitrateSet(current),
                                 DirectionOf(cur, prev));
        events := [event];
        switchingEvents := switchingEvents + [event];
      }
      assert expected == Success(events);
      bitrateHistory := bitrateHistory + [current];
      if |bitrateHistory| > HistoryLimit {
        bitrateHistory := bitrateHistory[|bitrateHistory| - HistoryLimit..];
      }
      return Success(events);
    }

    /** `calculate_adaptation_metrics` */
    method CalculateAdaptationMetrics() returns (r: Option<AdaptationAggregate>)
      ensures r == AggregateOf(bitrateHistory, switchingEvents)
    {
      if bitrateHistory == [] {
        return None;
      }
      var bitrates: seq<int> := [];
      for i := 0 to |bitrateHistory|
        invariant bitrates == CurrentBitrates(bitrateHistory[..i])
      {
        assert bitrateHistory[..i + 1][..i] == bitrateHistory[..i];
        var analysis := bitrateHistory[i];
        if analysis.metrics.Some? {
          bitrates := bitrates + [analysis.metrics.value.currentBitrate];
        }
      }
      assert bitrateHistory[..|bitrateHistory|] == bitrateHistory;
      if bitrates == [] {
        return None;
      }
      var xs := Reals(bitrates);
      var n := |bitrateHistory|;
      return Some(AdaptationAggregate(
        Mean(xs), Variance(xs), |switchingEvents|,
        CountDirection(switchingEvents, Upgrade), CountDirection(switchingEvents, Downgrade),
        (|switchingEvents| as real) / (if n > 1 then n else 1) as real,
        Stability(xs)));
    }

    /** One pass of the `run_analysis` loop: analyse, detect, aggregate and
        record. A failed analysis or a failed detection records nothing. */
    method AnalyzeOnce(manifest: Option<seq<SetInfo>>, timestamp: string, analysisTime: string,
                       manifestUrl: string, join: (string, string) -> string,
                       head: string -> Option<HeadResponse>, sessionDuration: real)
      requires Valid()
      modifies this
      ensures Valid()
      ensures running == old(running)
      ensures manifest.None? ||
        Detect(old(bitrateHistory), AnalysisOf(manifest.value, analysisTime, manifestUrl, join, head)).Failure?
        ==> bitrateHistory == old(bitrateHistory) && switchingEvents == old(switchingEvents) &&
            adaptationData == old(adaptationData)
      ensures manifest.Some? ==>
        var a := AnalysisOf(manifest.value, analysisTime, manifestUrl, join, head);
        var d := Detect(old(bitrateHistory), a);
        (d.Success? ==>
          bitrateHistory == Push(old(bitrateHistory), a, HistoryLimit) &&
          switchingEvents == old(switchingEvents) + d.value &&
          adaptationData == old(adaptationData) +
            [AnalysisResult(timestamp, a, d.value, AggregateOf(bitrateHistory, switchingEvents), sessionDuration)])
    {
      var analysis := AnalyzeAdaptationBehavior(manifest, analysisTime, manifestUrl, join, head);
      if analysis.None? {
        return;
      }
      var events := DetectSwitchingEvents(analysis.value);
      if events.Failure? {
        return;
      }
      var aggregate := CalculateAdaptationMetrics();
      adaptationData := adaptationData + [AnalysisResult(timestamp, analysis.value, events.value, aggregate, sessionDuration)];
    }

    /** `stop` */
    method Stop()
      modifies this
      ensures !running
      ensures bitrateHistory == old(bitrateHistory) && switchingEvents == old(switchingEvents)
      ensures adaptationData == old(adaptationData)
    {
      running := false;
    }
  }

  /** After any run of successful detections from an empty analyzer, the
      history holds exactly the last `HistoryLimit` polls in order. */
  lemma HistoryIsLastPolls(polls: seq<Analysis>)
    ensures PushAll([], polls, HistoryLimit) == Last(polls, HistoryLimit)
    ensures |PushAll([], polls, HistoryLimit)| <= HistoryLimit
  {
    PushAllKeepsLast([], polls, HistoryLimit);
    assert [] + polls == polls;
  }
}
