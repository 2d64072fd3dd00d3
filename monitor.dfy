/** The basic stream monitor: every poll it downloads the manifest, reads
    a DASH or HLS summary out of it, checks that the manifest URL answers,
    and appends the resulting metrics; at the end it writes a report of
    the network success rate and the bitrate range. The same monitor ships
    twice in the repository (`stream_monitor.py` and
    `src/monitor/stream_monitor.py`, byte for byte the same), and this
    module models both. */
module Monitor {
  import opened Wrappers
  import opened Seqs
  import opened PyText
  import opened History
  import opened Stats
  import opened Mpd
  import C = AnalysisCommon

  // ---------------------------------------------------------------------
  // Splitting the playlist into lines
  // ---------------------------------------------------------------------

  /** `text.split('\n')`: the pieces between newlines, an empty piece
      wherever two newlines meet or the text starts or ends with one. */
  function SplitLines(s: string): (r: seq<string>)
    ensures |r| >= 1
  {
    if s == [] then [""]
    else
      var r := SplitLines(s[..|s| - 1]);
      var c := s[|s| - 1];
      if c == '\n' then r + [""] else r[..|r| - 1] + [r[|r| - 1] + [c]]
  }

  /** `'\n'.join(lines)` */
  function JoinLines(lines: seq<string>): string
    requires |lines| >= 1
  {
    if |lines| == 1 then lines[0] else JoinLines(lines[..|lines| - 1]) + "\n" + lines[|lines| - 1]
  }

  /** A new empty piece adds a newline to the joined text. */
  lemma JoinLinesNewPiece(r: seq<string>)
    requires |r| >= 1
    ensures JoinLines(r + [""]) == JoinLines(r) + "\n"
  {
    assert (r + [""])[..|r|] == r;
  }

  /** A character added to the last piece ends the joined text. */
  lemma JoinLinesExtendLast(r: seq<string>, c: char)
    requires |r| >= 1
    ensures JoinLines(r[..|r| - 1] + [r[|r| - 1] + [c]]) == JoinLines(r) + [c]
  {
    var k := |r| - 1;
    var r' := r[..k] + [r[k] + [c]];
    if k > 0 {
      assert r'[..k] == r[..k];
      assert r[..k] == r[..|r| - 1];
      AppendAssoc(JoinLines(r[..k]) + "\n", r[k], [c]);
    }
  }

  /** Joining the pieces back gives the text. */
  lemma {:induction false} SplitLinesJoin(s: string)
    ensures JoinLines(SplitLines(s)) == s
  {
    if s != [] {
      var front := s[..|s| - 1];
      var c := s[|s| - 1];
      SplitLinesJoin(front);
      assert s == front + [c];
      if c == '\n' {
        JoinLinesNewPiece(SplitLines(front));
      } else {
        JoinLinesExtendLast(SplitLines(front), c);
      }
    }
  }

  /** No piece holds a newline. */
  lemma {:induction false} SplitLinesNoNewline(s: string)
    ensures forall i :: 0 <= i < |SplitLines(s)| ==> '\n' !in SplitLines(s)[i]
  {
    if s != [] {
      var front := s[..|s| - 1];
      var c := s[|s| - 1];
      var r := SplitLines(front);
      SplitLinesNoNewline(front);
      if c != '\n' {
        var k := |r| - 1;
        var r' := r[..k] + [r[k] + [c]];
        forall i | 0 <= i < |r'| ensures '\n' !in r'[i] {
          if i < k {
            assert r'[i] == r[i];
          } else {
            assert r'[i] == r[k] + [c];
          }
        }
      }
    }
  }

  // ---------------------------------------------------------------------
  // analyze_hls_manifest
  // ---------------------------------------------------------------------

  const StreamInf: string := "#EXT-X-STREAM-INF"

  /** What the monitor reads from an HLS master playlist. */
  datatype HlsInfo = HlsInfo(variants: nat, bitrates: seq<int>, resolutions: seq<string>, codecs: seq<string>)

  /** `line.split(attr)[1].split(',')[0]`: the text after the first
      occurrence of `attr`, cut at the next `attr` and then at the next
      comma. */
  function AttributeValue(line: string, attr: string): (r: string)
    requires Contains(line, attr)
    ensures !Contains(r, ",")
  {
    Before(SplitSecond(line, attr), ",")
  }

  /** How one playlist line reads once stripped: not a variant tag, or a
      variant tag with its three optional attributes. `bandwidth` is
      `None` without `BANDWIDTH=` and `Some(None)` when its value is not
      an integer. */
  datatype VariantTag =
    | NotVariant
    | Variant(bandwidth: Option<Option<int>>, resolution: Option<string>, codecs: Option<string>)

  function TagOf(raw: string): (t: VariantTag)
    ensures t.Variant? <==> StartsWith(Strip(raw), StreamInf)
  {
    var line := Strip(raw);
    if !StartsWith(line, StreamInf) then NotVariant
    else
      Variant(
        if Contains(line, "BANDWIDTH=") then Some(ParseInt(AttributeValue(line, "BANDWIDTH="))) else None,
        if Contains(line, "RESOLUTION=") then Some(AttributeValue(line, "RESOLUTION=")) else None,
        if Contains(line, "CODECS=") then Some(CodecsValue(line)) else None)
  }

  /** `line.split('CODECS=')[1].split(',')[0].strip('"')` */
  function CodecsValue(line: string): (r: string)
    requires Contains(line, "CODECS=")
    ensures r == [] || (r[0] != '"' && r[|r| - 1] != '"')
  {
    StripQuotesEnds(AttributeValue(line, "CODECS="));
    StripQuotes(AttributeValue(line, "CODECS="))
  }

  /** A stripped codec neither starts nor ends with a double quote. */
  lemma StripQuotesEnds(s: string)
    ensures var r := StripQuotes(s); r == [] || (r[0] != '"' && r[|r| - 1] != '"')
  {
    var t := TrimStart(s, IsQuote);
    var r := TrimEnd(t, IsQuote);
    TrimEndCuts(t, IsQuote);
    if r != [] {
      assert r[0] == t[0];
    }
  }

  /** A variant tag whose `BANDWIDTH=` value is not an integer. */
  predicate BadBandwidth(t: VariantTag) {
    t.Variant? && t.bandwidth == Some(None)
  }

  /** What one line adds; a bandwidth that `int()` rejects raises. */
  function HlsLine(info: HlsInfo, t: VariantTag): Result<HlsInfo> {
    match t
    case NotVariant => Success(info)
    case Variant(bandwidth, resolution, codecs) =>
      var resolutions := if resolution.Some? then info.resolutions + [resolution.value] else info.resolutions;
      var codecs := if codecs.Some? then info.codecs + [codecs.value] else info.codecs;
      match bandwidth
      case None => Success(HlsInfo(info.variants + 1, info.bitrates, resolutions, codecs))
      case Some(None) => Failure("ValueError")
      case Some(Some(b)) => Success(HlsInfo(info.variants + 1, info.bitrates + [b], resolutions, codecs))
  }

  function HlsScan(tags: seq<VariantTag>): Result<HlsInfo> {
    if tags == [] then Success(HlsInfo(0, [], [], []))
    else match HlsScan(tags[..|tags| - 1])
      case Failure(e) => Failure(e)
      case Success(info) => HlsLine(info, tags[|tags| - 1])
  }

  /** The reading of every line. */
  function TagsOf(lines: seq<string>): (r: seq<VariantTag>)
    ensures |r| == |lines|
  {
    if lines == [] then [] else TagsOf(lines[..|lines| - 1]) + [TagOf(lines[|lines| - 1])]
  }

  lemma {:induction false} TagsOfAt(lines: seq<string>, i: nat)
    requires i < |lines|
    ensures TagsOf(lines)[i] == TagOf(lines[i])
  {
    if i < |lines| - 1 {
      TagsOfAt(lines[..|lines| - 1], i);
    }
  }

  /** What `analyze_hls_manifest` returns for a playlist text. */
  function HlsInfoOf(text: string): Result<HlsInfo> {
    HlsScan(TagsOf(SplitLines(text)))
  }

  /** The number of variant tags. */
  function VariantLines(tags: seq<VariantTag>): nat {
    if tags == [] then 0
    else VariantLines(tags[..|tags| - 1]) + (if tags[|tags| - 1].Variant? then 1 else 0)
  }

  lemma {:induction false} HlsFailureSticks(tags: seq<VariantTag>, i: nat)
    requires i <= |tags| && HlsScan(tags[..i]).Failure?
    ensures HlsScan(tags) == HlsScan(tags[..i])
    decreases |tags| - i
  {
    if i < |tags| {
      assert tags[..i + 1][..i] == tags[..i];
      HlsFailureSticks(tags, i + 1);
    } else {
      assert tags[..i] == tags;
    }
  }

  /** The body of the line loop of `analyze_hls_manifest`, on the line's
      reading: a variant tag increments `variants` and appends what its
      attributes give. */
  method AddLine(info: HlsInfo, tag: VariantTag) returns (r: Result<HlsInfo>)
    ensures r == HlsLine(info, tag)
  {
    var variants, bitrates, resolutions, codecs := info.variants, info.bitrates, info.resolutions, info.codecs;
    if tag.Variant? {
      variants := variants + 1;
      if tag.bandwidth.Some? {
        if tag.bandwidth.value.None? {
          return Failure("ValueError");
        }
        bitrates := bitrates + [tag.bandwidth.value.value];
      }
      if tag.resolution.Some? {
        resolutions := resolutions + [tag.resolution.value];
      }
      if tag.codecs.Some? {
        codecs := codecs + [tag.codecs.value];
      }
    }
    return Success(HlsInfo(variants, bitrates, resolutions, codecs));
  }

  /** `analyze_hls_manifest`: one pass over the lines, counting variant
      tags and collecting their attributes. */
  method AnalyzeHlsManifest(text: string) returns (r: Result<HlsInfo>)
    ensures r == HlsInfoOf(text)
  {
    var tags := TagsOf(SplitLines(text));
    var info := HlsInfo(0, [], [], []);
    for i := 0 to |tags|
      invariant HlsScan(tags[..i]) == Success(info)
    {
      assert tags[..i + 1][..i] == tags[..i];
      var next := AddLine(info, tags[i]);
      if next.Failure? {
        HlsFailureSticks(tags, i + 1);
        return next;
      }
      info := next.value;
    }
    assert tags[..|tags|] == tags;
    return Success(info);
  }

  /** `variants` counts exactly the variant tags, and each of them adds
      at most one bitrate, one resolution and one codec. */
  lemma {:induction false} HlsCounts(tags: seq<VariantTag>)
    requires HlsScan(tags).Success?
    ensures var info := HlsScan(tags).value;
      info.variants == VariantLines(tags) && info.variants <= |tags| &&
      |info.bitrates| <= info.variants && |info.resolutions| <= info.variants &&
      |info.codecs| <= info.variants
  {
    if tags != [] {
      HlsCounts(tags[..|tags| - 1]);
    }
  }

  /** The scan raises exactly when some variant tag carries a bandwidth
      that is not an integer. */
  lemma {:induction false} HlsFailsOnBadBandwidth(tags: seq<VariantTag>)
    ensures HlsScan(tags).Failure? <==> exists i :: 0 <= i < |tags| && BadBandwidth(tags[i])
  {
    if tags != [] {
      var front := tags[..|tags| - 1];
      HlsFailsOnBadBandwidth(front);
      if exists i :: 0 <= i < |front| && BadBandwidth(front[i]) {
        var i :| 0 <= i < |front| && BadBandwidth(front[i]);
        assert tags[i] == front[i];
      }
      if exists i :: 0 <= i < |tags| && BadBandwidth(tags[i]) {
        var i :| 0 <= i < |tags| && BadBandwidth(tags[i]);
        if i < |front| {
          assert front[i] == tags[i];
        }
      }
    }
  }

  /** Lines that are not variant tags change nothing. */
  lemma {:induction false} HlsIgnoresOtherLines(tags: seq<VariantTag>, extra: seq<VariantTag>)
    requires forall i :: 0 <= i < |extra| ==> extra[i] == NotVariant
    ensures HlsScan(tags + extra) == HlsScan(tags)
    decreases |extra|
  {
    if extra == [] {
      assert tags + extra == tags;
    } else {
      var front := extra[..|extra| - 1];
      assert (tags + extra)[..|tags + extra| - 1] == tags + front;
      assert (tags + extra)[|tags + extra| - 1] == extra[|extra| - 1];
      HlsIgnoresOtherLines(tags, front);
    }
  }

  // ---------------------------------------------------------------------
  // analyze_dash_manifest
  // ---------------------------------------------------------------------

  /** What the monitor reads from a DASH manifest. */
  datatype DashInfo = DashInfo(
    adaptationSets: nat,
    videoStreams: nat,
    audioStreams: nat,
    subtitleStreams: nat,
    bitrates: seq<int>,
    resolutions: seq<string>,
    codecs: seq<string>)

  predicate OfType(a: AdaptationSet, t: string) {
    a.contentType == Some(t)
  }

  /** The number of representations of the last set of type `t`, 0 when
      there is none. */
  function LastCount(sets: seq<AdaptationSet>, t: string): nat {
    if sets == [] then 0
    else if OfType(sets[|sets| - 1], t) then |sets[|sets| - 1].representations|
    else LastCount(sets[..|sets| - 1], t)
  }

  /** What `analyze_dash_manifest` computes from the adaptation sets of
      the first Period. */
  function DashInfoOf(sets: seq<AdaptationSet>): Result<DashInfo> {
    var reps := VideoReps(sets);
    match C.Bitrates(reps)
    case None => Failure("ValueError")
    case Some(b) =>
      Success(DashInfo(|sets|, LastCount(sets, "video"), LastCount(sets, "audio"), LastCount(sets, "text"),
                       b, C.Resolutions(reps), C.Codecs(reps)))
  }

  lemma VideoRepsStep(sets: seq<AdaptationSet>, i: nat)
    requires i < |sets|
    ensures VideoReps(sets[..i + 1]) ==
      if IsVideo(sets[i]) then VideoReps(sets[..i]) + sets[i].representations else VideoReps(sets[..i])
  {
    assert sets[..i + 1][..i] == sets[..i];
    assert VideoReps(sets[..i]) + [] == VideoReps(sets[..i]);
  }

  lemma LastCountStep(sets: seq<AdaptationSet>, i: nat, t: string)
    requires i < |sets|
    ensures LastCount(sets[..i + 1], t) == if OfType(sets[i], t) then |sets[i].representations| else LastCount(sets[..i], t)
  {
    assert sets[..i + 1][..i] == sets[..i];
  }

  lemma VideoRepsSplit(sets: seq<AdaptationSet>, k: nat)
    requires k <= |sets|
    ensures VideoReps(sets) == VideoReps(sets[..k]) + VideoReps(sets[k..])
  {
    var front, back := sets[..k], sets[k..];
    assert front + back == sets;
    VideoRepsAppend(front, back);
  }

  /** A bandwidth that does not parse in a video set leaves no bitrate
      list, whatever comes after. */
  lemma BitratesFailure(sets: seq<AdaptationSet>, i: nat)
    requires i < |sets| && IsVideo(sets[i])
    requires C.Bitrates(VideoReps(sets[..i]) + sets[i].representations).None?
    ensures C.Bitrates(VideoReps(sets)).None?
  {
    VideoRepsStep(sets, i);
    VideoRepsSplit(sets, i + 1);
    C.BitratesFailureSticks(VideoReps(sets[..i + 1]), VideoReps(sets[i + 1..]));
  }

  /** `analyze_dash_manifest` after parsing: each set of a known type
      overwrites its count, and video sets add their attributes. */
  method AnalyzeDashManifest(m: Manifest) returns (r: Result<DashInfo>)
    ensures r == DashInfoOf(FirstPeriodSets(m))
  {
    var sets := FirstPeriodSets(m);
    var video, audio, text := 0, 0, 0;
    var bitrates: seq<int> := [];
    var resolutions: seq<string> := [];
    var codecs: seq<string> := [];
    for i := 0 to |sets|
      invariant video == LastCount(sets[..i], "video")
      invariant audio == LastCount(sets[..i], "audio")
      invariant text == LastCount(sets[..i], "text")
      invariant C.Bitrates(VideoReps(sets[..i])) == Some(bitrates)
      invariant resolutions == C.Resolutions(VideoReps(sets[..i]))
      invariant codecs == C.Codecs(VideoReps(sets[..i]))
    {
      var a := sets[i];
      assert sets[..i + 1][..i] == sets[..i];
      VideoRepsStep(sets, i);
      LastCountStep(sets, i, "video");
      LastCountStep(sets, i, "audio");
      LastCountStep(sets, i, "text");
      if OfType(a, "video") {
        video := |a.representations|;
        var collected := C.CollectRepresentations(VideoReps(sets[..i]), a.representations, bitrates, resolutions, codecs);
        if collected.None? {
          BitratesFailure(sets, i);
          return Failure("ValueError");
        }
        bitrates, resolutions, codecs := collected.value.0, collected.value.1, collected.value.2;
      } else if OfType(a, "audio") {
        audio := |a.representations|;
      } else if OfType(a, "text") {
        text := |a.representations|;
      }
    }
    assert sets[..|sets|] == sets;
    return Success(DashInfo(|sets|, video, audio, text, bitrates, resolutions, codecs));
  }

  /** Without a set of the type its count is 0. */
  lemma {:induction false} LastCountAbsent(sets: seq<AdaptationSet>, t: string)
    requires forall i :: 0 <= i < |sets| ==> !OfType(sets[i], t)
    ensures LastCount(sets, t) == 0
  {
    if sets != [] {
      var front := sets[..|sets| - 1];
      assert forall i :: 0 <= i < |front| ==> front[i] == sets[i];
      LastCountAbsent(front, t);
    }
  }

  /** The count of a type is the representation count of the last set of
      that type, not a sum over sets. */
  lemma {:induction false} LastCountIsLastSet(sets: seq<AdaptationSet>, t: string, k: nat)
    requires k < |sets| && OfType(sets[k], t)
    requires forall j :: k < j < |sets| ==> !OfType(sets[j], t)
    ensures LastCount(sets, t) == |sets[k].representations|
  {
    var n := |sets| - 1;
    if k < n {
      var front := sets[..n];
      assert forall j :: k < j < |front| ==> front[j] == sets[j];
      assert front[k] == sets[k];
      LastCountIsLastSet(front, t, k);
    }
  }

  // ---------------------------------------------------------------------
  // analyze_manifest
  // ---------------------------------------------------------------------

  datatype StreamInfo = Dash(dash: DashInfo) | Hls(hls: HlsInfo) {
    function Bitrates(): seq<int> {
      match this
      case Dash(d) => d.bitrates
      case Hls(h) => h.bitrates
    }
  }

  /** The manifest download: no response at all, or a response with its
      status, its `content-type` header (empty when absent), its text and
      what the XML parser makes of that text (`None` on a parse error). */
  datatype ManifestFetch =
    | FetchFailed
    | Fetched(status: int, contentType: string, text: string, xml: Option<Manifest>)

  predicate EndsWith(s: string, suffix: string) {
    |suffix| <= |s| && s[|s| - |suffix|..] == suffix
  }

  /** `raise_for_status` raises for client and server errors. */
  predicate HttpError(status: int) {
    400 <= status < 600
  }

  predicate IsDashSource(contentType: string, manifestUrl: string) {
    Contains(contentType, "mpd") || EndsWith(manifestUrl, ".mpd")
  }

  predicate IsHlsSource(contentType: string, manifestUrl: string) {
    Contains(contentType, "m3u8") || EndsWith(manifestUrl, ".m3u8")
  }

  /** What `analyze_manifest` returns: `None` for a failed or erroneous
      download, an unknown type or XML that does not parse; a `Failure`
      for the `ValueError` of a non-integer bandwidth, which nothing on the
      way up catches. */
  function ManifestAnalysis(f: ManifestFetch, manifestUrl: string): Result<Option<StreamInfo>> {
    match f
    case FetchFailed => Success(None)
    case Fetched(status, contentType, text, xml) =>
      if HttpError(status) then Success(None)
      else if IsDashSource(contentType, manifestUrl) then
        match xml
        case None => Success(None)
        case Some(m) =>
          match DashInfoOf(FirstPeriodSets(m))
          case Failure(e) => Failure(e)
          case Success(d) => Success(Some(Dash(d)))
      else if IsHlsSource(contentType, manifestUrl) then
        match HlsInfoOf(text)
        case Failure(e) => Failure(e)
        case Success(h) => Success(Some(Hls(h)))
      else Success(None)
  }

  method AnalyzeManifest(f: ManifestFetch, manifestUrl: string) returns (r: Result<Option<StreamInfo>>)
    ensures r == ManifestAnalysis(f, manifestUrl)
  {
    if f.FetchFailed? || HttpError(f.status) {
      return Success(None);
    }
    if IsDashSource(f.contentType, manifestUrl) {
      if f.xml.None? {
        return Success(None);
      }
      var d := AnalyzeDashManifest(f.xml.value);
      if d.Failure? {
        return Failure(d.error);
      }
      return Success(Some(Dash(d.value)));
    } else if IsHlsSource(f.contentType, manifestUrl) {
      var h := AnalyzeHlsManifest(f.text);
      if h.Failure? {
        return Failure(h.error);
      }
      return Success(Some(Hls(h.value)));
    }
    return Success(None);
  }

  /** The manifest type is decided by the header first and the URL second;
      a manifest that is neither, or a download that fails, gives no
      summary. */
  lemma ManifestAnalysisKinds(f: ManifestFetch, manifestUrl: string)
    ensures ManifestAnalysis(f, manifestUrl).Success? && ManifestAnalysis(f, manifestUrl).value.Some? ==>
      f.Fetched? && !HttpError(f.status) &&
      (ManifestAnalysis(f, manifestUrl).value.value.Dash? <==> IsDashSource(f.contentType, manifestUrl))
    ensures ManifestAnalysis(f, manifestUrl).Failure? ==> f.Fetched? && !HttpError(f.status)
    ensures (f.Fetched? && !HttpError(f.status) && !IsDashSource(f.contentType, manifestUrl) &&
             !IsHlsSource(f.contentType, manifestUrl)) ==> ManifestAnalysis(f, manifestUrl) == Success(None)
  {
  }

  // ---------------------------------------------------------------------
  // check_segment_accessibility
  // ---------------------------------------------------------------------

  /** A HEAD request: a response with its status and elapsed seconds, or
      the text of the exception raised. */
  datatype HeadOutcome = HeadResponse(status: int, elapsed: real) | HeadFailed(message: string)

  datatype Accessibility = Accessibility(
    accessible: nat,
    failed: nat,
    responseTimes: seq<real>,
    errors: seq<string>,
    avgResponseTime: Option<real>)

  function CheckOne(a: Accessibility, url: string, o: HeadOutcome): Accessibility {
    match o
    case HeadResponse(status, elapsed) =>
      if status == 200 then a.(accessible := a.accessible + 1, responseTimes := a.responseTimes + [elapsed])
      else a.(failed := a.failed + 1, errors := a.errors + ["HTTP " + IntToString(status) + ": " + url])
    case HeadFailed(message) => a.(failed := a.failed + 1, errors := a.errors + ["Error: " + message])
  }

  /** The counters after checking `urls` in order; `head(i, url)` is what
      the `i`-th request returns. */
  function Checks(urls: seq<string>, head: (nat, string) -> HeadOutcome): Accessibility {
    if urls == [] then Accessibility(0, 0, [], [], None)
    else CheckOne(Checks(urls[..|urls| - 1], head), urls[|urls| - 1], head(|urls| - 1, urls[|urls| - 1]))
  }

  /** What `check_segment_accessibility` returns. */
  function AccessibilityOf(urls: seq<string>, maxChecks: int, head: (nat, string) -> HeadOutcome): Accessibility {
    var a := Checks(Take(urls, maxChecks), head);
    a.(avgResponseTime := if a.responseTimes == [] then None else Some(Mean(a.responseTimes)))
  }

  method CheckSegmentAccessibility(urls: seq<string>, maxChecks: int, head: (nat, string) -> HeadOutcome)
    returns (r: Accessibility)
    ensures r == AccessibilityOf(urls, maxChecks, head)
  {
    var checked := Take(urls, maxChecks);
    var accessible, failed := 0, 0;
    var responseTimes: seq<real> := [];
    var errors: seq<string> := [];
    for i := 0 to |checked|
      invariant Checks(checked[..i], head) == Accessibility(accessible, failed, responseTimes, errors, None)
    {
      assert checked[..i + 1][..i] == checked[..i];
      var url := checked[i];
      var outcome := head(i, url);
      if outcome.HeadResponse? {
        if outcome.status == 200 {
          accessible := accessible + 1;
          responseTimes := responseTimes + [outcome.elapsed];
        } else {
          failed := failed + 1;
          errors := errors + ["HTTP " + IntToString(outcome.status) + ": " + url];
        }
      } else {
        failed := failed + 1;
        errors := errors + ["Error: " + outcome.message];
      }
    }
    assert checked[..|checked|] == checked;
    var avg: Option<real> := None;
    if responseTimes != [] {
      avg := Some(Sum(responseTimes) / |responseTimes| as real);
    }
    return Accessibility(accessible, failed, responseTimes, errors, avg);
  }

  lemma {:induction false} ChecksCounts(urls: seq<string>, head: (nat, string) -> HeadOutcome)
    ensures var a := Checks(urls, head);
      a.accessible + a.failed == |urls| && |a.responseTimes| == a.accessible && |a.errors| == a.failed
  {
    if urls != [] {
      ChecksCounts(urls[..|urls| - 1], head);
    }
  }

  /** At most `max_checks` URLs are checked, from the front; each is
      either accessible, with its response time recorded, or failed, with
      its error recorded; the average response time exists exactly when
      some URL was accessible, and lies between the fastest and the
      slowest. */
  lemma AccessibilityCounts(urls: seq<string>, maxChecks: int, head: (nat, string) -> HeadOutcome)
    ensures var a := AccessibilityOf(urls, maxChecks, head);
      a.accessible + a.failed == |Take(urls, maxChecks)| <= |urls| &&
      (0 <= maxChecks ==> a.accessible + a.failed <= maxChecks) &&
      |a.responseTimes| == a.accessible && |a.errors| == a.failed &&
      (a.avgResponseTime.Some? <==> a.accessible > 0) &&
      (a.avgResponseTime.Some? ==> Min(a.responseTimes) <= a.avgResponseTime.value <= Max(a.responseTimes))
  {
    var a := AccessibilityOf(urls, maxChecks, head);
    ChecksCounts(Take(urls, maxChecks), head);
    if a.responseTimes != [] {
      MeanBetweenMinMax(a.responseTimes);
    }
  }

  // ---------------------------------------------------------------------
  // collect_metrics
  // ---------------------------------------------------------------------

  /** The connectivity GET: a response with its status and elapsed
      seconds, or the text of the exception raised. */
  datatype NetworkCheck = NetResponse(status: int, elapsed: real) | NetFailed(message: string)

  datatype NetworkInfo = NetworkInfo(
    status: string,
    responseTime: Option<real>,
    error: Option<string>,
    httpStatus: Option<int>)

  datatype BitrateStats = BitrateStats(min: int, max: int, avg: real, count: nat)

  datatype Metrics = Metrics(
    timestamp: string,
    manifestUrl: string,
    manifestInfo: StreamInfo,
    networkInfo: NetworkInfo,
    bitrateStats: Option<BitrateStats>)

  /** What one poll of the monitor sees. */
  datatype MonitorPoll = MonitorPoll(timestamp: string, manifest: ManifestFetch, network: NetworkCheck)

  /** `network_info`: the status starts as `unknown` and is always
      overwritten, with `ok` exactly for an HTTP 200. */
  function NetworkInfoOf(c: NetworkCheck): (r: NetworkInfo)
    ensures r.status == "ok" || r.status == "error"
    ensures r.status == "ok" <==> c.NetResponse? && c.status == 200
    ensures r.responseTime.Some? <==> c.NetResponse?
    ensures r.error.Some? <==> c.NetFailed?
  {
    match c
    case NetResponse(status, elapsed) =>
      NetworkInfo(if status == 200 then "ok" else "error", Some(elapsed), None, Some(status))
    case NetFailed(message) => NetworkInfo("error", None, Some(message), None)
  }

  /** `bitrate_stats`, present only for a non-empty bitrate list. */
  function BitrateStatsOf(b: seq<int>): (r: Option<BitrateStats>)
    ensures r.Some? <==> b != []
  {
    if b == [] then None else Some(BitrateStats(IntMin(b), IntMax(b), Mean(Reals(b)), |b|))
  }

  /** The smallest and the largest bitrate are in the list, every bitrate
      lies between them, the average too, and the count is the length. */
  lemma BitrateStatsBounds(b: seq<int>)
    requires b != []
    ensures var st := BitrateStatsOf(b).value;
      st.min in b && st.max in b && st.count == |b| &&
      (forall i :: 0 <= i < |b| ==> st.min <= b[i] <= st.max) &&
      st.min as real <= st.avg <= st.max as real
  {
    var xs := Reals(b);
    MeanBetween(xs, IntMin(b) as real, IntMax(b) as real);
  }

  /** What `collect_metrics` returns: `None` without a manifest summary. */
  function MetricsOf(p: MonitorPoll, manifestUrl: string): Result<Option<Metrics>> {
    match ManifestAnalysis(p.manifest, manifestUrl)
    case Failure(e) => Failure(e)
    case Success(None) => Success(None)
    case Success(Some(info)) =>
      Success(Some(Metrics(p.timestamp, manifestUrl, info, NetworkInfoOf(p.network), BitrateStatsOf(info.Bitrates()))))
  }

  method CollectMetrics(p: MonitorPoll, manifestUrl: string) returns (r: Result<Option<Metrics>>)
    ensures r == MetricsOf(p, manifestUrl)
  {
    var analysis := AnalyzeManifest(p.manifest, manifestUrl);
    if analysis.Failure? {
      return Failure(analysis.error);
    }
    if analysis.value.None? {
      return Success(None);
    }
    var info := analysis.value.value;
    var network := NetworkInfo("unknown", None, None, None);
    match p.network {
      case NetResponse(status, elapsed) =>
        network := network.(status := if status == 200 then "ok" else "error", responseTime := Some(elapsed),
                            httpStatus := Some(status));
      case NetFailed(message) =>
        network := network.(status := "error", error := Some(message));
    }
    var stats: Option<BitrateStats> := None;
    var bitrates := info.Bitrates();
    if bitrates != [] {
      stats := Some(BitrateStats(IntMin(bitrates), IntMax(bitrates), Sum(Reals(bitrates)) / |bitrates| as real,
                                 |bitrates|));
    }
    return Success(Some(Metrics(p.timestamp, manifestUrl, info, network, stats)));
  }

  /** What every collected entry satisfies. */
  predicate WellFormed(m: Metrics) {
    (m.networkInfo.status == "ok" || m.networkInfo.status == "error") &&
    (m.bitrateStats.Some? ==>
      m.bitrateStats.value.count > 0 &&
      m.bitrateStats.value.min as real <= m.bitrateStats.value.avg <= m.bitrateStats.value.max as real)
  }

  lemma MetricsWellFormed(p: MonitorPoll, manifestUrl: string)
    requires MetricsOf(p, manifestUrl).Success? && MetricsOf(p, manifestUrl).value.Some?
    ensures WellFormed(MetricsOf(p, manifestUrl).value.value)
  {
    var m := MetricsOf(p, manifestUrl).value.value;
    if m.bitrateStats.Some? {
      BitrateStatsBounds(m.manifestInfo.Bitrates());
    }
  }

  // ---------------------------------------------------------------------
  // generate_final_report
  // ---------------------------------------------------------------------

  datatype BitrateSummary = BitrateSummary(min: real, max: real, avg: real)

  datatype Report = Report(
    totalChecks: nat,
    startTime: string,
    endTime: string,
    manifestUrl: string,
    successRate: real,
    totalErrors: nat,
    bitrate: Option<BitrateSummary>)

  function CountStatus(ms: seq<Metrics>, status: string): (n: nat)
    ensures n <= |ms|
  {
    if ms == [] then 0
    else CountStatus(ms[..|ms| - 1], status) + (if ms[|ms| - 1].networkInfo.status == status then 1 else 0)
  }

  /** `[stats['min'], stats['max'], stats['avg']]` of every entry that has
      bitrate statistics, in order. */
  function AllBitrates(ms: seq<Metrics>): (r: seq<real>)
    ensures |r| % 3 == 0
  {
    if ms == [] then []
    else
      var st := ms[|ms| - 1].bitrateStats;
      AllBitrates(ms[..|ms| - 1]) + (if st.Some? then [st.value.min as real, st.value.max as real, st.value.avg] else [])
  }

  function FinalReport(ms: seq<Metrics>, manifestUrl: string): Option<Report> {
    if ms == [] then None
    else
      var all := AllBitrates(ms);
      Some(Report(|ms|, ms[0].timestamp, ms[|ms| - 1].timestamp, manifestUrl,
                  SuccessRate(CountStatus(ms, "ok"), |ms|),
                  CountStatus(ms, "error"),
                  if all == [] then None else Some(BitrateSummary(Min(all), Max(all), Mean(all)))))
  }

  /** `count('ok') / len * 100` */
  function SuccessRate(ok: nat, n: nat): real
    requires n > 0
  {
    ok as real / n as real * 100.0
  }

  /** The rate is the percentage of `ok` checks: at most 100, and it
      gives back the count. */
  lemma Percentage(ok: nat, n: nat)
    requires ok <= n && 0 < n
    ensures 0.0 <= SuccessRate(ok, n) <= 100.0
    ensures SuccessRate(ok, n) * n as real == 100.0 * ok as real
  {
    DivideBounds(ok as real, n as real, 0.0, 1.0);
  }

  lemma {:induction false} StatusesPartition(ms: seq<Metrics>)
    requires forall i :: 0 <= i < |ms| ==> WellFormed(ms[i])
    ensures CountStatus(ms, "ok") + CountStatus(ms, "error") == |ms|
  {
    if ms != [] {
      StatusesPartition(ms[..|ms| - 1]);
    }
  }

  /** There is a report exactly when something was collected; it spans the
      first to the last entry, its success rate is the percentage of `ok`
      checks, and every check that was not `ok` is an error. */
  lemma ReportRates(ms: seq<Metrics>, manifestUrl: string)
    requires forall i :: 0 <= i < |ms| ==> WellFormed(ms[i])
    ensures FinalReport(ms, manifestUrl).Some? <==> ms != []
    ensures ms != [] ==> var r := FinalReport(ms, manifestUrl).value;
      r.totalChecks == |ms| && r.startTime == ms[0].timestamp && r.endTime == ms[|ms| - 1].timestamp &&
      0.0 <= r.successRate <= 100.0 &&
      r.totalErrors == |ms| - CountStatus(ms, "ok") &&
      r.successRate == SuccessRate(CountStatus(ms, "ok"), |ms|)
  {
    if ms != [] {
      StatusesPartition(ms);
      Percentage(CountStatus(ms, "ok"), |ms|);
    }
  }

  lemma {:induction false} AllBitratesHas(ms: seq<Metrics>, i: nat)
    requires i < |ms| && ms[i].bitrateStats.Some?
    ensures ms[i].bitrateStats.value.min as real in AllBitrates(ms)
    ensures ms[i].bitrateStats.value.max as real in AllBitrates(ms)
  {
    if i < |ms| - 1 {
      AllBitratesHas(ms[..|ms| - 1], i);
    }
  }

  lemma {:induction false} AllBitratesEmpty(ms: seq<Metrics>)
    ensures AllBitrates(ms) == [] <==> forall i :: 0 <= i < |ms| ==> ms[i].bitrateStats.None?
  {
    if ms != [] {
      AllBitratesEmpty(ms[..|ms| - 1]);
      assert forall i :: 0 <= i < |ms| - 1 ==> ms[..|ms| - 1][i] == ms[i];
    }
  }

  /** The bitrate block exists exactly when some entry had bitrate
      statistics; its range covers every entry's range, and its average
      lies within it. */
  lemma ReportBitrates(ms: seq<Metrics>, manifestUrl: string)
    requires ms != []
    ensures var r := FinalReport(ms, manifestUrl).value;
      (r.bitrate.Some? <==> exists i :: 0 <= i < |ms| && ms[i].bitrateStats.Some?) &&
      (r.bitrate.Some? ==> r.bitrate.value.min <= r.bitrate.value.avg <= r.bitrate.value.max) &&
      (r.bitrate.Some? ==> forall i :: 0 <= i < |ms| && ms[i].bitrateStats.Some? ==>
         r.bitrate.value.min <= ms[i].bitrateStats.value.min as real &&
         ms[i].bitrateStats.value.max as real <= r.bitrate.value.max)
  {
    var all := AllBitrates(ms);
    AllBitratesEmpty(ms);
    if all != [] {
      MeanBetweenMinMax(all);
      forall i | 0 <= i < |ms| && ms[i].bitrateStats.Some?
        ensures Min(all) <= ms[i].bitrateStats.value.min as real && ms[i].bitrateStats.value.max as real <= Max(all)
      {
        AllBitratesHas(ms, i);
      }
    }
  }

  // ---------------------------------------------------------------------
  // The monitor
  // ---------------------------------------------------------------------

  /** The entries collected over a run of polls, and the exception that
      ended it early, if one did. */
  datatype MonitorState = MonitorState(collected: seq<Metrics>, error: Option<string>)

  /** One poll's effect: nothing after an exception; otherwise the
      exception, the new entry, or nothing when there was no summary. */
  function MonitorStep(s: MonitorState, m: Result<Option<Metrics>>): MonitorState {
    if s.error.Some? then s
    else match m
      case Failure(e) => MonitorState(s.collected, Some(e))
      case Success(None) => s
      case Success(Some(x)) => MonitorState(s.collected + [x], None)
  }

  function MonitorRun(polls: seq<MonitorPoll>, manifestUrl: string): MonitorState {
    if polls == [] then MonitorState([], None)
    else MonitorStep(MonitorRun(polls[..|polls| - 1], manifestUrl), MetricsOf(polls[|polls| - 1], manifestUrl))
  }

  lemma MonitorRunStep(polls: seq<MonitorPoll>, i: nat, manifestUrl: string)
    requires i < |polls|
    ensures MonitorRun(polls[..i + 1], manifestUrl) ==
      MonitorStep(MonitorRun(polls[..i], manifestUrl), MetricsOf(polls[i], manifestUrl))
  {
    assert polls[..i + 1][..i] == polls[..i];
  }

  lemma {:induction false} MonitorRunStops(polls: seq<MonitorPoll>, manifestUrl: string, i: nat)
    requires i <= |polls| && MonitorRun(polls[..i], manifestUrl).error.Some?
    ensures MonitorRun(polls, manifestUrl) == MonitorRun(polls[..i], manifestUrl)
    decreases |polls| - i
  {
    if i < |polls| {
      assert polls[..i + 1][..i] == polls[..i];
      MonitorRunStops(polls, manifestUrl, i + 1);
    } else {
      assert polls[..i] == polls;
    }
  }

  /** Every collected entry has a status of `ok` or `error` and coherent
      bitrate statistics. */
  lemma {:induction false} MonitorRunWellFormed(polls: seq<MonitorPoll>, manifestUrl: string)
    ensures var c := MonitorRun(polls, manifestUrl).collected;
      |c| <= |polls| && forall i :: 0 <= i < |c| ==> WellFormed(c[i])
  {
    if polls != [] {
      var p := polls[|polls| - 1];
      var prev := MonitorRun(polls[..|polls| - 1], manifestUrl);
      MonitorRunWellFormed(polls[..|polls| - 1], manifestUrl);
      var m := MetricsOf(p, manifestUrl);
      if prev.error.None? && m.Success? && m.value.Some? {
        MetricsWellFormed(p, manifestUrl);
        AllWellFormedAppend(prev.collected, m.value.value);
      }
    }
  }

  /** Appending a well-formed entry keeps every entry well formed. */
  lemma AllWellFormedAppend(ms: seq<Metrics>, m: Metrics)
    requires (forall i :: 0 <= i < |ms| ==> WellFormed(ms[i])) && WellFormed(m)
    ensures forall i :: 0 <= i < |ms + [m]| ==> WellFormed((ms + [m])[i])
  {
  }

  class StreamMonitor {
    const manifestUrl: string
    var metrics: seq<Metrics>

    ghost predicate Valid()
      reads this
    {
      forall i :: 0 <= i < |metrics| ==> WellFormed(metrics[i])
    }

    constructor (manifestUrl: string)
      ensures Valid() && this.manifestUrl == manifestUrl && metrics == []
    {
      this.manifestUrl := manifestUrl;
      metrics := [];
    }

    /** `monitor_stream` over a finite run of polls, then
        `generate_final_report`; an exception out of `collect_metrics` ends
        the run without a report. */
    method MonitorStream(polls: seq<MonitorPoll>) returns (r: Result<Option<Report>>)
      requires Valid()
      modifies this
      ensures Valid()
      ensures var s := MonitorRun(polls, manifestUrl);
        metrics == old(metrics) + s.collected &&
        r == if s.error.Some? then Failure(s.error.value) else Success(FinalReport(metrics, manifestUrl))
    {
      for i := 0 to |polls|
        invariant Valid()
        invariant MonitorRun(polls[..i], manifestUrl).error.None?
        invariant metrics == old(metrics) + MonitorRun(polls[..i], manifestUrl).collected
      {
        MonitorRunStep(polls, i, manifestUrl);
        var m := CollectMetrics(polls[i], manifestUrl);
        if m.Failure? {
          MonitorRunStops(polls, manifestUrl, i + 1);
          return Failure(m.error);
        }
        if m.value.Some? {
          MetricsWellFormed(polls[i], manifestUrl);
          AllWellFormedAppend(metrics, m.value.value);
          AppendAssoc(old(metrics), MonitorRun(polls[..i], manifestUrl).collected, [m.value.value]);
          metrics := metrics + [m.value.value];
        }
      }
      assert polls[..|polls|] == polls;
      return Success(FinalReport(metrics, manifestUrl));
    }
  }
}
