/** The stream quality analyzer: every poll summarises the manifest,
    picks at most five init/media URL pairs from the first video
    adaptation set, probes the downloaded segments and, when at least one
    probe succeeded, records the average bitrate and the SSIM between the
    first and the last downloaded segment. */
module Quality {
  import opened Wrappers
  import opened Seqs
  import opened PyText
  import opened History
  import opened Stats
  import opened Mpd
  import opened AnalysisCommon

  /** `segment_info_list[:5]`, and the count at which the timeline walk stops. */
  const MaxPairs: nat := 5

  // ---------------------------------------------------------------------
  // fetch_manifest
  // ---------------------------------------------------------------------

  /** `fetch_manifest`: the summary of the first Period, or `None` when the
      manifest could not be fetched or parsed (`manifest == None`) or a
      bandwidth is not an integer. */
  function ManifestSummary(manifest: Option<Manifest>): Option<ManifestInfo> {
    match manifest
    case None => None
    case Some(m) =>
      match ManifestInfoOf(FirstPeriodSets(m))
      case Failure(_) => None
      case Success(info) => Some(info)
  }

  method FetchManifest(manifest: Option<Manifest>) returns (r: Option<ManifestInfo>)
    ensures r == ManifestSummary(manifest)
  {
    if manifest.None? {
      return None;
    }
    var info := ExtractManifestInfo(manifest.value);
    if info.Failure? {
      return None;
    }
    return Some(info.value);
  }

  /** One stream is counted per adaptation set of its type, not per
      representation; other types count only as adaptation sets. */
  lemma ManifestSummaryCounts(manifest: Option<Manifest>)
    requires ManifestSummary(manifest).Some?
    ensures var info := ManifestSummary(manifest).value;
      var sets := FirstPeriodSets(manifest.value);
      info.adaptationSets == |sets| &&
      info.videoStreams == CountType(sets, "video") &&
      info.audioStreams == CountType(sets, "audio") &&
      info.subtitleStreams == CountType(sets, "text") &&
      info.videoStreams + info.audioStreams + info.subtitleStreams <= info.adaptationSets
  {
    StreamCountsBounded(FirstPeriodSets(manifest.value));
  }

  // ---------------------------------------------------------------------
  // Segment numbers
  // ---------------------------------------------------------------------

  /** `int(s.get('r', '0'))`: `None` when the text is not an integer. */
  function RepeatCount(e: TimelineEntry): Option<int> {
    match e.r
    case None => Some(0)
    case Some(text) => ParseInt(text)
  }

  /** `int(s.get('r', '0'))` of every `S`, in order. */
  function RepeatCounts(entries: seq<TimelineEntry>): (r: seq<Option<int>>)
    ensures |r| == |entries|
  {
    if entries == [] then [] else [RepeatCount(entries[0])] + RepeatCounts(entries[1..])
  }

  lemma {:induction false} RepeatCountsAt(entries: seq<TimelineEntry>, i: nat)
    requires i < |entries|
    ensures RepeatCounts(entries)[i] == RepeatCount(entries[i])
  {
    if i > 0 {
      RepeatCountsAt(entries[1..], i - 1);
    }
  }

  /** How many numbers the timeline walk has gathered once it has gone
      through the `S` elements whose converted `r` are `repeats`, having
      `have` already: each adds `r + 1` numbers (none when `r + 1 <= 0`),
      and the walk stops at five, before converting any further `r`.
      `None` when an `r` it converts is not an integer. */
  function Gathered(repeats: seq<Option<int>>, have: nat): Option<nat>
    decreases |repeats|
  {
    if repeats == [] || have >= MaxPairs then Some(have)
    else match repeats[0]
      case None => None
      case Some(r) =>
        var total := have + RangeLength(r + 1);
        Gathered(repeats[1..], if total < MaxPairs then total else MaxPairs)
  }

  /** `r + 1` numbers per `S`, as far as the total goes. */
  function TimelineLength(repeats: seq<Option<int>>): nat
    requires forall i :: 0 <= i < |repeats| ==> repeats[i].Some?
  {
    if repeats == [] then 0
    else RangeLength(repeats[0].value + 1) + TimelineLength(repeats[1..])
  }

  /** When every `r` is an integer, the walk gathers the smaller of five
      and the sum of the `r + 1` that are positive. */
  lemma {:induction false} GatheredIsCappedLength(repeats: seq<Option<int>>, have: nat)
    requires have <= MaxPairs
    requires forall i :: 0 <= i < |repeats| ==> repeats[i].Some?
    ensures var total := have + TimelineLength(repeats);
      Gathered(repeats, have) == Some(if total < MaxPairs then total else MaxPairs)
  {
    if repeats != [] && have < MaxPairs {
      var total := have + RangeLength(repeats[0].value + 1);
      GatheredIsCappedLength(repeats[1..], if total < MaxPairs then total else MaxPairs);
    } else if repeats != [] {
      assert have == MaxPairs;
    }
  }

  /** Once five numbers are gathered, the `S` elements that follow are not
      read at all, whatever their `r`. */
  lemma {:induction false} GatheredIgnoresRest(repeats: seq<Option<int>>, rest: seq<Option<int>>, have: nat)
    requires Gathered(repeats, have) == Some(MaxPairs)
    ensures Gathered(repeats + rest, have) == Some(MaxPairs)
    decreases |repeats|
  {
    if have < MaxPairs {
      assert repeats != [];
      assert (repeats + rest)[0] == repeats[0];
      assert (repeats + rest)[1..] == repeats[1..] + rest;
      var total := have + RangeLength(repeats[0].value + 1);
      GatheredIgnoresRest(repeats[1..], rest, if total < MaxPairs then total else MaxPairs);
    }
  }

  /** The numbers `start`, `start + 1`, …: `count` of them. */
  function Consecutive(start: int, count: nat): (r: seq<int>)
    ensures |r| == count
  {
    if count == 0 then [] else Consecutive(start, count - 1) + [start + count - 1]
  }

  lemma {:induction false} ConsecutiveAt(start: int, count: nat)
    ensures forall i :: 0 <= i < count ==> Consecutive(start, count)[i] == start + i
  {
    if count > 0 {
      ConsecutiveAt(start, count - 1);
    }
  }

  /** How many segment numbers a template yields from `startNumber`: two
      without a SegmentTimeline, otherwise what the walk gathers. */
  function NumberCount(t: SegmentTemplate): Option<nat> {
    match t.timeline
    case None => Some(2)
    case Some(entries) => Gathered(RepeatCounts(entries), 0)
  }

  /** The timeline walk: `current_number` counts up from `start`, and both
      loops leave as soon as five numbers are gathered. `None` stands for
      the `ValueError` of an `r` that is not an integer. */
  method TimelineNumbers(entries: seq<TimelineEntry>, start: int) returns (r: Option<seq<int>>)
    ensures Gathered(RepeatCounts(entries), 0).None? ==> r.None?
    ensures Gathered(RepeatCounts(entries), 0).Some? ==>
      r == Some(Consecutive(start, Gathered(RepeatCounts(entries), 0).value))
  {
    ghost var repeats := RepeatCounts(entries);
    var numbers: seq<int> := [];
    var current := start;
    var i := 0;
    while i < |entries|
      invariant 0 <= i <= |entries|
      invariant |numbers| < MaxPairs
      invariant current == start + |numbers|
      invariant numbers == Consecutive(start, |numbers|)
      invariant Gathered(repeats, 0) == Gathered(repeats[i..], |numbers|)
    {
      var repeat := ConvertRepeat(entries, i);
      assert repeats[i..][0] == repeat;
      if repeat.None? {
        return None;
      }
      GatheredStep(repeats[i..], |numbers|);
      assert repeats[i..][1..] == repeats[i + 1..];
      numbers, current := CountUp(numbers, current, start, repeat.value + 1);
      if |numbers| >= MaxPairs {
        assert Gathered(repeats[i + 1..], |numbers|) == Some(|numbers|);
        return Some(numbers);
      }
      i := i + 1;
    }
    assert repeats[i..] == [];
    return Some(numbers);
  }

  /** `int(s.get('r', '0'))` of the `i`-th `S`. */
  method ConvertRepeat(entries: seq<TimelineEntry>, i: nat) returns (r: Option<int>)
    requires i < |entries|
    ensures r == RepeatCounts(entries)[i]
  {
    RepeatCountsAt(entries, i);
    r := RepeatCount(entries[i]);
  }

  /** One `S` of the walk. */
  lemma GatheredStep(repeats: seq<Option<int>>, have: nat)
    requires repeats != [] && have < MaxPairs && repeats[0].Some?
    ensures var total := have + RangeLength(repeats[0].value + 1);
      Gathered(repeats, have) == Gathered(repeats[1..], if total < MaxPairs then total else MaxPairs)
  {
  }

  /** The inner loop of the timeline walk: `count` more numbers, or as
      many as reach five. */
  method CountUp(numbers: seq<int>, current: int, ghost start: int, count: int)
    returns (numbers': seq<int>, current': int)
    requires |numbers| < MaxPairs && numbers == Consecutive(start, |numbers|)
    requires current == start + |numbers|
    ensures var total := |numbers| + RangeLength(count);
      |numbers'| == if total < MaxPairs then total else MaxPairs
    ensures numbers' == Consecutive(start, |numbers'|) && current' == start + |numbers'|
  {
    numbers', current' := numbers, current;
    var k := 0;
    while k < count
      invariant 0 <= k <= RangeLength(count)
      invariant |numbers'| == |numbers| + k < MaxPairs
      invariant current' == start + |numbers'|
      invariant numbers' == Consecutive(start, |numbers'|)
    {
      numbers' := numbers' + [current'];
      current' := current' + 1;
      if |numbers'| >= MaxPairs {
        break;
      }
      k := k + 1;
    }
  }

  /** The segment numbers of a template: `TimelineNumbers`, or
      `[start_number, start_number + 1]` without a timeline. */
  method SegmentNumbers(t: SegmentTemplate, start: int) returns (r: Option<seq<int>>)
    ensures NumberCount(t).None? ==> r.None?
    ensures NumberCount(t).Some? ==> r == Some(Consecutive(start, NumberCount(t).value))
  {
    if t.timeline.Some? {
      r := TimelineNumbers(t.timeline.value, start);
    } else {
      r := Some([start, start + 1]);
      assert Consecutive(start, 2) == [start, start + 1];
    }
  }

  /** Without a timeline the numbers are exactly `start` and the next one;
      with one they are consecutive from `start` and never more than five. */
  lemma SegmentNumbersShape(t: SegmentTemplate, start: int)
    requires NumberCount(t).Some?
    ensures t.timeline.None? ==> Consecutive(start, NumberCount(t).value) == [start, start + 1]
    ensures NumberCount(t).value <= MaxPairs
  {
    if t.timeline.Some? {
      GatheredAtMostFive(RepeatCounts(t.timeline.value), 0);
    }
  }

  lemma {:induction false} GatheredAtMostFive(repeats: seq<Option<int>>, have: nat)
    requires have <= MaxPairs
    requires Gathered(repeats, have).Some?
    ensures Gathered(repeats, have).value <= MaxPairs
    decreases |repeats|
  {
    if repeats != [] && have < MaxPairs {
      var total := have + RangeLength(repeats[0].value + 1);
      GatheredAtMostFive(repeats[1..], if total < MaxPairs then total else MaxPairs);
    }
  }

  // ---------------------------------------------------------------------
  // get_segment_urls
  // ---------------------------------------------------------------------

  /** What one representation of the video set yields. */
  datatype RepOutcome =
    | Skipped                          // no template, or media/initialization missing
    | Raised                           // `int()` of startNumber or of an `r` raised
    | Pairs(pairs: seq<SegmentPair>)   // the pairs of its segment numbers

  /** One representation: `startNumber` is converted before media and
      initialization are looked at, so a bad one raises even when the
      representation would have been skipped. */
  function RepPairs(rep: Representation, base: string, join: (string, string) -> string): RepOutcome {
    match rep.template
    case None => Skipped
    case Some(t) =>
      match StartNumber(t)
      case None => Raised
      case Some(start) =>
        if !(Truthy(t.media) && Truthy(t.initialization)) then Skipped
        else match NumberCount(t)
          case None => Raised
          case Some(n) =>
            Pairs(NumberedPairs(join(base, t.initialization.value), base, t.media.value, start, n, join))
  }

  /** The representation loop: the first one that yields pairs ends it;
      `None` when a representation before it raised. */
  function RepsPairs(reps: seq<Representation>, base: string, join: (string, string) -> string)
    : Option<seq<SegmentPair>>
    decreases |reps|
  {
    if reps == [] then Some([])
    else match RepPairs(reps[0], base, join)
      case Raised => None
      case Pairs(p) => Some(p)
      case Skipped => RepsPairs(reps[1..], base, join)
  }

  /** The first video adaptation set of the document, if any. */
  function FirstVideoSet(sets: seq<AdaptationSet>): (r: Option<AdaptationSet>)
    ensures r.Some? ==> r.value in sets && IsVideo(r.value)
    ensures r.None? ==> forall i :: 0 <= i < |sets| ==> !IsVideo(sets[i])
    decreases |sets|
  {
    if sets == [] then None
    else if IsVideo(sets[0]) then Some(sets[0])
    else FirstVideoSet(sets[1..])
  }

  /** `get_segment_urls`: the pairs of the first video set, or none when
      the manifest could not be had (`manifest == None`) or something
      raised. */
  function SegmentUrlsOf(manifest: Option<Manifest>, base: string, join: (string, string) -> string)
    : seq<SegmentPair>
  {
    match manifest
    case None => []
    case Some(m) =>
      match FirstVideoSet(AllSets(m))
      case None => []
      case Some(a) =>
        match RepsPairs(a.representations, base, join)
        case None => []
        case Some(p) => Take(p, MaxPairs)
  }

  /** The representation that yields the pairs, when there are any. */
  lemma {:induction false} RepsPairsSource(reps: seq<Representation>, base: string, join: (string, string) -> string)
    requires RepsPairs(reps, base, join).Some? && RepsPairs(reps, base, join).value != []
    ensures exists k :: 0 <= k < |reps| && RepPairs(reps[k], base, join) == Pairs(RepsPairs(reps, base, join).value)
    decreases |reps|
  {
    if RepPairs(reps[0], base, join).Skipped? {
      RepsPairsSource(reps[1..], base, join);
      var k :| 0 <= k < |reps[1..]| && RepPairs(reps[1..][k], base, join) == Pairs(RepsPairs(reps, base, join).value);
      assert reps[1..][k] == reps[k + 1];
    } else {
      assert RepPairs(reps[0], base, join) == Pairs(RepsPairs(reps, base, join).value);
    }
  }

  /** A representation that yields pairs has a template with media and
      initialization and a valid startNumber; its pairs, at most five,
      share the init URL and number their media URLs from startNumber. */
  lemma RepPairsShape(rep: Representation, base: string, join: (string, string) -> string)
    requires RepPairs(rep, base, join).Pairs?
    ensures rep.template.Some? && StartNumber(rep.template.value).Some?
    ensures Truthy(rep.template.value.media) && Truthy(rep.template.value.initialization)
    ensures var t := rep.template.value;
      var p := RepPairs(rep, base, join).pairs;
      |p| <= MaxPairs &&
      forall i :: 0 <= i < |p| ==>
        p[i] == SegmentPair(join(base, t.initialization.value),
                            NumberedUrl(base, t.media.value, StartNumber(t).value + i, join))
  {
    var t := rep.template.value;
    SegmentNumbersShape(t, StartNumber(t).value);
  }

  /** At most five pairs, all from one representation of the first video
      set: they share its init URL, and their media URLs carry
      consecutive segment numbers from its startNumber. */
  lemma SegmentUrlsShape(manifest: Option<Manifest>, base: string, join: (string, string) -> string)
    ensures var r := SegmentUrlsOf(manifest, base, join);
      |r| <= MaxPairs &&
      (r != [] ==>
        manifest.Some? && FirstVideoSet(AllSets(manifest.value)).Some? &&
        exists rep :: rep in FirstVideoSet(AllSets(manifest.value)).value.representations &&
          RepPairs(rep, base, join).Pairs? && r == RepPairs(rep, base, join).pairs)
  {
    var r := SegmentUrlsOf(manifest, base, join);
    if r != [] {
      var a := FirstVideoSet(AllSets(manifest.value)).value;
      var p := RepsPairs(a.representations, base, join).value;
      RepsPairsSource(a.representations, base, join);
      var k :| 0 <= k < |a.representations| && RepPairs(a.representations[k], base, join) == Pairs(p);
      RepPairsShape(a.representations[k], base, join);
      assert r == p;
    }
  }

  /** The pairs loop of `get_segment_urls` over the numbers. */
  method PairsOf(initUrl: string, base: string, media: string, numbers: seq<int>, ghost start: int,
                 join: (string, string) -> string)
    returns (r: seq<SegmentPair>)
    requires numbers == Consecutive(start, |numbers|)
    ensures r == NumberedPairs(initUrl, base, media, start, |numbers|, join)
  {
    ConsecutiveAt(start, |numbers|);
    r := [];
    for i := 0 to |numbers|
      invariant r == NumberedPairs(initUrl, base, media, start, i, join)
    {
      r := r + [SegmentPair(initUrl, NumberedUrl(base, media, numbers[i], join))];
    }
  }

  /** One representation, as the body of the representation loop. */
  method RepresentationPairs(rep: Representation, base: string, join: (string, string) -> string)
    returns (r: RepOutcome)
    ensures r == RepPairs(rep, base, join)
  {
    if rep.template.None? {
      return Skipped;
    }
    var t := rep.template.value;
    var start := StartNumber(t);
    if start.None? {
      return Raised;
    }
    if !(Truthy(t.media) && Truthy(t.initialization)) {
      return Skipped;
    }
    var numbers := SegmentNumbers(t, start.value);
    if numbers.None? {
      return Raised;
    }
    var pairs := PairsOf(join(base, t.initialization.value), base, t.media.value, numbers.value, start.value, join);
    return Pairs(pairs);
  }

  /** `get_segment_urls`: both loops leave after the first video set and
      after its first representation that yields pairs. */
  method GetSegmentUrls(manifest: Option<Manifest>, manifestUrl: string, join: (string, string) -> string)
    returns (r: seq<SegmentPair>)
    ensures r == SegmentUrlsOf(manifest, manifestUrl, join)
  {
    if manifest.None? {
      return [];
    }
    var sets := AllSets(manifest.value);
    var list: seq<SegmentPair> := [];
    var i := 0;
    while i < |sets|
      invariant 0 <= i <= |sets|
      invariant FirstVideoSet(sets) == FirstVideoSet(sets[i..])
    {
      assert sets[i..][1..] == sets[i + 1..];
      if sets[i].contentType == Some("video") {
        var reps := sets[i].representations;
        var j := 0;
        while j < |reps|
          invariant 0 <= j <= |reps|
          invariant RepsPairs(reps, manifestUrl, join) == RepsPairs(reps[j..], manifestUrl, join)
        {
          assert reps[j..][1..] == reps[j + 1..];
          var outcome := RepresentationPairs(reps[j], manifestUrl, join);
          if outcome.Raised? {
            return [];
          } else if outcome.Pairs? {
            list := outcome.pairs;
            break;
          }
          j := j + 1;
        }
        return Take(list, MaxPairs);
      }
      i := i + 1;
    }
    return [];
  }

  // ---------------------------------------------------------------------
  // The aggregate block of run_analysis
  // ---------------------------------------------------------------------

  /** What happens to one pair: whether both the init and the media
      segment were downloaded, and the bitrate `analyze_segment_quality`
      reports for the concatenated file (`None` when ffprobe failed). */
  datatype SegmentProbe = SegmentProbe(downloaded: bool, bitrate: Option<int>)

  /** One entry of `segment_analysis` (only the fields that are aggregated). */
  datatype SegmentQuality = SegmentQuality(bitrate: int, ssim: Option<real>)

  /** The state of the segment loop: the successful probes, the number of
      concatenated files, and whether the last of them was probed. */
  datatype ProbeState = ProbeState(results: seq<SegmentQuality>, concatenated: nat, lastProbed: bool)

  function ProbeStep(s: ProbeState, p: SegmentProbe): ProbeState {
    if !p.downloaded then s
    else match p.bitrate
      case None => ProbeState(s.results, s.concatenated + 1, false)
      case Some(b) => ProbeState(s.results + [SegmentQuality(b, None)], s.concatenated + 1, true)
  }

  function Probes(probes: seq<SegmentProbe>): (s: ProbeState)
    ensures s.lastProbed ==> |s.results| > 0
    ensures |s.results| <= s.concatenated <= |probes|
  {
    if probes == [] then ProbeState([], 0, false)
    else ProbeStep(Probes(probes[..|probes| - 1]), probes[|probes| - 1])
  }

  /** The segment results after the SSIM step, and `ssim_between`. When two
      or more files were concatenated, SSIM is stored on the dictionary of
      the last one, which must exist: otherwise Python raises `TypeError`. */
  function WithSsim(probes: seq<SegmentProbe>, ssim: Option<real>)
    : Result<(seq<SegmentQuality>, Option<real>)>
  {
    var s := Probes(probes);
    if s.concatenated < 2 then Success((s.results, None))
    else if !s.lastProbed then Failure("TypeError")
    else
      var n := |s.results|;
      Success((s.results[..n - 1] + [s.results[n - 1].(ssim := ssim)], ssim))
  }

  /** The bitrates of the results, in order. */
  function BitratesOf(results: seq<SegmentQuality>): (r: seq<int>)
    ensures |r| == |results| && forall i :: 0 <= i < |r| ==> r[i] == results[i].bitrate
  {
    if results == [] then [] else BitratesOf(results[..|results| - 1]) + [results[|results| - 1].bitrate]
  }

  /** The `ssim` values that are not `None`, in order. */
  function PresentSsims(results: seq<SegmentQuality>): (r: seq<real>)
    ensures |r| <= |results|
  {
    if results == [] then []
    else
      var last := results[|results| - 1];
      PresentSsims(results[..|results| - 1]) + (if last.ssim.Some? then [last.ssim.value] else [])
  }

  datatype AggregateMetrics = AggregateMetrics(
    avgBitrate: real,
    avgSsim: Option<real>,
    ssimBetween: Option<real>,
    segmentsAnalyzed: nat)

  /** The aggregate metrics of a non-empty list of segment results. */
  function Aggregate(results: seq<SegmentQuality>, ssimBetween: Option<real>): AggregateMetrics
    requires |results| > 0
  {
    var ssims := PresentSsims(results);
    AggregateMetrics(
      Mean(Reals(BitratesOf(results))),
      if ssims == [] then None else Some(Mean(ssims)),
      ssimBetween,
      |results|)
  }

  /** The recorded analysis of one poll. */
  datatype QualityAnalysis = QualityAnalysis(
    timestamp: string,
    manifestInfo: ManifestInfo,
    segmentAnalysis: seq<SegmentQuality>,
    aggregate: AggregateMetrics)

  /** What the outside world does during one poll: the two manifest
      downloads (`None` when one fails), what happens to each pair, and
      what `analyze_ssim_between_segments` returns. */
  datatype QualityPoll = QualityPoll(
    timestamp: string,
    manifest: Option<Manifest>,
    segmentManifest: Option<Manifest>,
    probe: SegmentPair -> SegmentProbe,
    ssim: Option<real>)

  function ProbesOf(pairs: seq<SegmentPair>, probe: SegmentPair -> SegmentProbe): (r: seq<SegmentProbe>)
    ensures |r| == |pairs|
  {
    if pairs == [] then [] else ProbesOf(pairs[..|pairs| - 1], probe) + [probe(pairs[|pairs| - 1])]
  }

  /** One pass of the `while self.running` loop: `None` when nothing is
      recorded (no manifest summary, no pairs, the `TypeError`, or no
      successful probe). */
  function PollAnalysis(p: QualityPoll, manifestUrl: string, join: (string, string) -> string)
    : Option<QualityAnalysis>
  {
    match ManifestSummary(p.manifest)
    case None => None
    case Some(info) =>
      var pairs := SegmentUrlsOf(p.segmentManifest, manifestUrl, join);
      if pairs == [] then None
      else match WithSsim(ProbesOf(pairs, p.probe), p.ssim)
        case Failure(_) => None
        case Success(rs) =>
          if rs.0 == [] then None
          else Some(QualityAnalysis(p.timestamp, info, rs.0, Aggregate(rs.0, rs.1)))
  }

  lemma ProbesStep(pairs: seq<SegmentPair>, i: nat, probe: SegmentPair -> SegmentProbe)
    requires i < |pairs|
    ensures Probes(ProbesOf(pairs[..i + 1], probe)) == ProbeStep(Probes(ProbesOf(pairs[..i], probe)), probe(pairs[i]))
  {
    assert pairs[..i + 1][..i] == pairs[..i];
    assert ProbesOf(pairs[..i + 1], probe)[..i] == ProbesOf(pairs[..i], probe);
  }

  /** The segment loop of `run_analysis` and the SSIM step after it. */
  method AnalyzeSegments(pairs: seq<SegmentPair>, probe: SegmentPair -> SegmentProbe, ssimTool: Option<real>)
    returns (r: Result<(seq<SegmentQuality>, Option<real>)>)
    ensures r == WithSsim(ProbesOf(pairs, probe), ssimTool)
  {
    var results: seq<SegmentQuality> := [];
    var concatenated := 0;
    var lastProbed := false;
    for i := 0 to |pairs|
      invariant ProbeState(results, concatenated, lastProbed) == Probes(ProbesOf(pairs[..i], probe))
    {
      ProbesStep(pairs, i, probe);
      var outcome := probe(pairs[i]);
      if outcome.downloaded {
        if outcome.bitrate.Some? {
          results := results + [SegmentQuality(outcome.bitrate.value, None)];
          lastProbed := true;
        } else {
          lastProbed := false;
        }
        concatenated := concatenated + 1;
      }
    }
    assert pairs[..|pairs|] == pairs;
    var ssimBetween: Option<real> := None;
    if concatenated >= 2 {
      ssimBetween := ssimTool;
      if !lastProbed {
        return Failure("TypeError");
      }
      var n := |results|;
      results := results[..n - 1] + [results[n - 1].(ssim := ssimBetween)];
    }
    return Success((results, ssimBetween));
  }

  /** One pass of the polling loop. */
  method PollOnce(p: QualityPoll, manifestUrl: string, join: (string, string) -> string)
    returns (r: Option<QualityAnalysis>)
    ensures r == PollAnalysis(p, manifestUrl, join)
  {
    var info := FetchManifest(p.manifest);
    if info.None? {
      return None;
    }
    var pairs := GetSegmentUrls(p.segmentManifest, manifestUrl, join);
    if pairs == [] {
      return None;
    }
    var analyzed := AnalyzeSegments(pairs, p.probe, p.ssim);
    if analyzed.Failure? || analyzed.value.0 == [] {
      return None;
    }
    var results := analyzed.value.0;
    return Some(QualityAnalysis(p.timestamp, info.value, results, Aggregate(results, analyzed.value.1)));
  }

  // ---------------------------------------------------------------------
  // Properties of one analysis
  // ---------------------------------------------------------------------

  lemma {:induction false} PresentSsimsNone(results: seq<SegmentQuality>)
    requires forall i :: 0 <= i < |results| ==> results[i].ssim.None?
    ensures PresentSsims(results) == []
  {
    if results != [] {
      PresentSsimsNone(results[..|results| - 1]);
    }
  }

  /** Before the SSIM step no result carries an SSIM value. */
  lemma {:induction false} ProbesCarryNoSsim(probes: seq<SegmentProbe>)
    ensures forall i :: 0 <= i < |Probes(probes).results| ==> Probes(probes).results[i].ssim.None?
  {
    if probes != [] {
      ProbesCarryNoSsim(probes[..|probes| - 1]);
    }
  }

  /** `avg_ssim` is the mean of the one SSIM value there can be: it is
      `ssim_between_segments`, and both are `None` unless two or more
      segments were downloaded. */
  lemma AverageSsimIsPairSsim(probes: seq<SegmentProbe>, ssim: Option<real>)
    requires WithSsim(probes, ssim).Success?
    requires WithSsim(probes, ssim).value.0 != []
    ensures var rs := WithSsim(probes, ssim).value;
      Aggregate(rs.0, rs.1).avgSsim == rs.1 &&
      (rs.1.Some? ==> Probes(probes).concatenated >= 2 && rs.1 == ssim)
  {
    var s := Probes(probes);
    var rs := WithSsim(probes, ssim).value;
    ProbesCarryNoSsim(probes);
    if s.concatenated < 2 {
      PresentSsimsNone(rs.0);
    } else {
      var n := |s.results|;
      var front := s.results[..n - 1];
      assert rs.0 == front + [s.results[n - 1].(ssim := ssim)];
      assert rs.0[..n - 1] == front;
      PresentSsimsNone(front);
      if ssim.Some? {
        assert PresentSsims(rs.0) == [ssim.value];
        assert Sum([ssim.value]) == ssim.value;
      } else {
        assert PresentSsims(rs.0) == [];
      }
    }
  }

  /** `segments_analyzed` counts the successful probes: at least one, at
      most one per pair, and `avg_bitrate` lies between the smallest and
      the largest of their bitrates. */
  lemma AggregateBounds(probes: seq<SegmentProbe>, ssim: Option<real>)
    requires WithSsim(probes, ssim).Success?
    requires WithSsim(probes, ssim).value.0 != []
    ensures var rs := WithSsim(probes, ssim).value;
      var bitrates := BitratesOf(rs.0);
      var agg := Aggregate(rs.0, rs.1);
      1 <= agg.segmentsAnalyzed == |Probes(probes).results| <= |probes| &&
      bitrates == BitratesOf(Probes(probes).results) &&
      IntMin(bitrates) as real <= agg.avgBitrate <= IntMax(bitrates) as real
  {
    var rs := WithSsim(probes, ssim).value;
    var s := Probes(probes);
    var bitrates := BitratesOf(rs.0);
    assert |rs.0| == |s.results|;
    assert forall i :: 0 <= i < |rs.0| ==> rs.0[i].bitrate == s.results[i].bitrate;
    assert bitrates == BitratesOf(s.results);
    var xs := Reals(bitrates);
    MeanBetween(xs, IntMin(bitrates) as real, IntMax(bitrates) as real);
  }

  /** A recorded analysis covers between one and five segments. */
  lemma PollAnalysisBounds(p: QualityPoll, manifestUrl: string, join: (string, string) -> string)
    requires PollAnalysis(p, manifestUrl, join).Some?
    ensures var a := PollAnalysis(p, manifestUrl, join).value;
      1 <= a.aggregate.segmentsAnalyzed == |a.segmentAnalysis| <= MaxPairs &&
      a.aggregate.avgSsim == a.aggregate.ssimBetween &&
      a.timestamp == p.timestamp && Some(a.manifestInfo) == ManifestSummary(p.manifest)
  {
    var pairs := SegmentUrlsOf(p.segmentManifest, manifestUrl, join);
    SegmentUrlsShape(p.segmentManifest, manifestUrl, join);
    var probes := ProbesOf(pairs, p.probe);
    AggregateBounds(probes, p.ssim);
    AverageSsimIsPairSsim(probes, p.ssim);
  }

  // ---------------------------------------------------------------------
  // The analyzer
  // ---------------------------------------------------------------------

  /** The analyses a run of polls records, in order. */
  function Analyses(polls: seq<QualityPoll>, manifestUrl: string, join: (string, string) -> string)
    : (r: seq<QualityAnalysis>)
    ensures |r| <= |polls|
  {
    if polls == [] then []
    else
      var last := PollAnalysis(polls[|polls| - 1], manifestUrl, join);
      Analyses(polls[..|polls| - 1], manifestUrl, join) + (if last.Some? then [last.value] else [])
  }

  lemma AnalysesStep(polls: seq<QualityPoll>, i: nat, manifestUrl: string, join: (string, string) -> string)
    requires i < |polls|
    ensures var a := PollAnalysis(polls[i], manifestUrl, join);
      Analyses(polls[..i + 1], manifestUrl, join) ==
        Analyses(polls[..i], manifestUrl, join) + (if a.Some? then [a.value] else [])
  {
    assert polls[..i + 1][..i] == polls[..i];
  }

  /** Every recorded analysis covers one to five segments. */
  lemma {:induction false} AnalysesBounded(polls: seq<QualityPoll>, manifestUrl: string, join: (string, string) -> string)
    ensures forall a :: a in Analyses(polls, manifestUrl, join) ==> 1 <= a.aggregate.segmentsAnalyzed <= MaxPairs
  {
    if polls != [] {
      AnalysesBounded(polls[..|polls| - 1], manifestUrl, join);
      var last := PollAnalysis(polls[|polls| - 1], manifestUrl, join);
      if last.Some? {
        PollAnalysisBounds(polls[|polls| - 1], manifestUrl, join);
      }
    }
  }

  /** The timestamps of the polls, in order. */
  function Timestamps(polls: seq<QualityPoll>): (r: seq<string>)
    ensures |r| == |polls| && forall i :: 0 <= i < |polls| ==> r[i] == polls[i].timestamp
  {
    if polls == [] then [] else Timestamps(polls[..|polls| - 1]) + [polls[|polls| - 1].timestamp]
  }

  /** Every recorded analysis carries the timestamp of one of the polls. */
  lemma {:induction false} AnalysesFromPolls(polls: seq<QualityPoll>, manifestUrl: string, join: (string, string) -> string)
    ensures forall a :: a in Analyses(polls, manifestUrl, join) ==> a.timestamp in Timestamps(polls)
  {
    if polls != [] {
      AnalysesFromPolls(polls[..|polls| - 1], manifestUrl, join);
      var last := PollAnalysis(polls[|polls| - 1], manifestUrl, join);
      if last.Some? {
        PollAnalysisBounds(polls[|polls| - 1], manifestUrl, join);
      }
    }
  }

  class StreamQualityAnalyzer {
    const manifestUrl: string
    const interval: int
    var running: bool
    var qualityData: seq<QualityAnalysis>

    constructor (manifestUrl: string, interval: int)
      ensures this.manifestUrl == manifestUrl && this.interval == interval
      ensures !running && qualityData == []
    {
      this.manifestUrl := manifestUrl;
      this.interval := interval;
      running := false;
      qualityData := [];
    }

    /** `run_analysis` over a finite run of polls: each one appends its
        analysis, if it has one. */
    method RunAnalysis(polls: seq<QualityPoll>, join: (string, string) -> string)
      modifies this
      ensures qualityData == old(qualityData) + Analyses(polls, manifestUrl, join)
      ensures running == old(running)
    {
      for i := 0 to |polls|
        invariant qualityData == old(qualityData) + Analyses(polls[..i], manifestUrl, join)
        invariant running == old(running)
      {
        var analysis := PollOnce(polls[i], manifestUrl, join);
        AnalysesStep(polls, i, manifestUrl, join);
        if analysis.Some? {
          AppendAssoc(old(qualityData), Analyses(polls[..i], manifestUrl, join), [analysis.value]);
          qualityData := qualityData + [analysis.value];
        }
      }
      assert polls[..|polls|] == polls;
    }

    /** `stop` */
    method Stop()
      modifies this
      ensures !running && qualityData == old(qualityData)
    {
      running := false;
    }
  }
}
