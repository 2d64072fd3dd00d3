/** The helpers the three analyzers share: the manifest summary, the
    init/media URL pairs of a manifest, and the flattening of result
    records into CSV rows. */
module AnalysisCommon {
  import opened Wrappers
  import opened Seqs
  import opened PyText
  import opened History
  import opened Mpd

  // ---------------------------------------------------------------------
  // Manifest summary
  // ---------------------------------------------------------------------

  /** The summary dictionary of a DASH manifest (its `type` is always
      `DASH` and is not stored). */
  datatype ManifestInfo = ManifestInfo(
    adaptationSets: nat,
    videoStreams: nat,
    audioStreams: nat,
    subtitleStreams: nat,
    bitrates: seq<int>,
    resolutions: seq<string>,
    codecs: seq<string>)

  /** `int(bandwidth)` of every representation whose bandwidth is
      non-empty, in order; `None` when one of them is not an integer
      (Python raises `ValueError`). */
  function Bitrates(reps: seq<Representation>): Option<seq<int>> {
    if reps == [] then Some([])
    else
      var rep := reps[|reps| - 1];
      match Bitrates(reps[..|reps| - 1])
      case None => None
      case Some(b) =>
        if !Truthy(rep.bandwidth) then Some(b)
        else match ParseInt(rep.bandwidth.value)
          case None => None
          case Some(v) => Some(b + [v])
  }

  /** `"{width}x{height}"` of every representation that has both. */
  function Resolutions(reps: seq<Representation>): seq<string> {
    if reps == [] then []
    else
      var rep := reps[|reps| - 1];
      Resolutions(reps[..|reps| - 1])
        + (if Truthy(rep.width) && Truthy(rep.height) then [rep.width.value + "x" + rep.height.value] else [])
  }

  /** The `codecs` text of every representation that has one. */
  function Codecs(reps: seq<Representation>): seq<string> {
    if reps == [] then []
    else
      var rep := reps[|reps| - 1];
      Codecs(reps[..|reps| - 1]) + (if Truthy(rep.codecs) then [rep.codecs.value] else [])
  }

  /** What `extract_manifest_info` computes from the adaptation sets of the
      first Period. */
  function ManifestInfoOf(sets: seq<AdaptationSet>): Result<ManifestInfo> {
    var reps := VideoReps(sets);
    match Bitrates(reps)
    case None => Failure("ValueError")
    case Some(b) =>
      Success(ManifestInfo(|sets|, CountType(sets, "video"), CountType(sets, "audio"),
                           CountType(sets, "text"), b, Resolutions(reps), Codecs(reps)))
  }

  /** The non-empty bandwidth texts, in order. */
  function BandwidthTexts(reps: seq<Representation>): (r: seq<string>)
    ensures |r| <= |reps|
  {
    if reps == [] then []
    else
      var rep := reps[|reps| - 1];
      BandwidthTexts(reps[..|reps| - 1]) + (if Truthy(rep.bandwidth) then [rep.bandwidth.value] else [])
  }

  /** Once a bandwidth fails to parse, later representations do not help. */
  lemma {:induction false} BitratesFailureSticks(xs: seq<Representation>, ys: seq<Representation>)
    requires Bitrates(xs) == None
    ensures Bitrates(xs + ys) == None
    decreases |ys|
  {
    if ys == [] {
      assert xs + ys == xs;
    } else {
      var front := ys[..|ys| - 1];
      assert (xs + ys)[..|xs + ys| - 1] == xs + front;
      BitratesFailureSticks(xs, front);
    }
  }

  /** Every text is an integer literal `int()` accepts. */
  predicate AllParse(ts: seq<string>) {
    forall i :: 0 <= i < |ts| ==> ParseInt(ts[i]).Some?
  }

  /** The bitrate list is exactly the parsed non-empty bandwidths, and it
      exists exactly when each of them parses. */
  lemma {:induction false} BitratesAreParsedBandwidths(reps: seq<Representation>)
    ensures Bitrates(reps).Some? <==> AllParse(BandwidthTexts(reps))
    ensures Bitrates(reps).Some? ==>
      |Bitrates(reps).value| == |BandwidthTexts(reps)| &&
      forall i :: 0 <= i < |BandwidthTexts(reps)| ==>
        Some(Bitrates(reps).value[i]) == ParseInt(BandwidthTexts(reps)[i])
  {
    if reps != [] {
      var front := reps[..|reps| - 1];
      BitratesAreParsedBandwidths(front);
      var rep := reps[|reps| - 1];
      var t, tf := BandwidthTexts(reps), BandwidthTexts(front);
      if Truthy(rep.bandwidth) {
        var x := rep.bandwidth.value;
        assert t == tf + [x];
        assert AllParse(t) <==> AllParse(tf) && ParseInt(x).Some? by {
          if AllParse(tf) && ParseInt(x).Some? {
            forall i | 0 <= i < |t| ensures ParseInt(t[i]).Some? {
              if i < |tf| {
                assert t[i] == tf[i];
              }
            }
          }
          if AllParse(t) {
            assert t[|tf|] == x;
            forall i | 0 <= i < |tf| ensures ParseInt(tf[i]).Some? {
              assert t[i] == tf[i];
            }
          }
        }
        if Bitrates(front).Some? && ParseInt(x).Some? {
          assert Bitrates(reps).value == Bitrates(front).value + [ParseInt(x).value];
        }
      } else {
        assert t == tf;
      }
    }
  }

  /** The three lists after one more representation. */
  lemma ExtendByOne(xs: seq<Representation>, rep: Representation)
    ensures Resolutions(xs + [rep]) == Resolutions(xs)
      + (if Truthy(rep.width) && Truthy(rep.height) then [rep.width.value + "x" + rep.height.value] else [])
    ensures Codecs(xs + [rep]) == Codecs(xs) + (if Truthy(rep.codecs) then [rep.codecs.value] else [])
    ensures Bitrates(xs).None? ==> Bitrates(xs + [rep]).None?
    ensures Bitrates(xs).Some? && !Truthy(rep.bandwidth) ==> Bitrates(xs + [rep]) == Bitrates(xs)
    ensures Bitrates(xs).Some? && Truthy(rep.bandwidth) ==>
      Bitrates(xs + [rep]) == match ParseInt(rep.bandwidth.value)
        case None => None
        case Some(v) => Some(Bitrates(xs).value + [v])
  {
    assert (xs + [rep])[..|xs|] == xs;
  }

  lemma FailureInsideSet(prefix: seq<Representation>, reps: seq<Representation>, j: nat)
    requires j < |reps| && Bitrates(prefix + reps[..j + 1]) == None
    ensures Bitrates(prefix + reps) == None
  {
    BitratesFailureSticks(prefix + reps[..j + 1], reps[j + 1..]);
    SplitAfter(prefix, reps, j);
  }

  /** One iteration of the inner loop of `extract_manifest_info`: adds
      what representation `rep` contributes to the lists built for `seen`;
      `None` when `int()` raises on its bandwidth. */
  method AddRepresentation(ghost seen: seq<Representation>, rep: Representation,
                           bitrates: seq<int>, resolutions: seq<string>, codecs: seq<string>)
    returns (r: Option<(seq<int>, seq<string>, seq<string>)>)
    requires Bitrates(seen) == Some(bitrates)
    requires resolutions == Resolutions(seen) && codecs == Codecs(seen)
    ensures r.None? <==> Bitrates(seen + [rep]).None?
    ensures r.Some? ==>
      r.value == (Bitrates(seen + [rep]).value, Resolutions(seen + [rep]), Codecs(seen + [rep]))
  {
    ExtendByOne(seen, rep);
    var b := bitrates;
    if Truthy(rep.bandwidth) {
      var v := ParseInt(rep.bandwidth.value);
      if v.None? {
        return None;
      }
      b := b + [v.value];
    }
    var res := resolutions;
    if Truthy(rep.width) && Truthy(rep.height) {
      res := res + [rep.width.value + "x" + rep.height.value];
    }
    var c := codecs;
    if Truthy(rep.codecs) {
      c := c + [rep.codecs.value];
    }
    assert Bitrates(seen + [rep]) == Some(b);
    assert Resolutions(seen + [rep]) == res;
    assert Codecs(seen + [rep]) == c;
    return Some((b, res, c));
  }

  /** The inner loop of `extract_manifest_info` over one video set's
      representations, continuing the lists built so far for the
      representations `prefix`; `None` when `int()` raises. */
  method CollectRepresentations(ghost prefix: seq<Representation>, reps: seq<Representation>,
                                bitrates0: seq<int>, resolutions0: seq<string>, codecs0: seq<string>)
    returns (r: Option<(seq<int>, seq<string>, seq<string>)>)
    requires Bitrates(prefix) == Some(bitrates0)
    requires resolutions0 == Resolutions(prefix) && codecs0 == Codecs(prefix)
    ensures r.None? <==> Bitrates(prefix + reps).None?
    ensures r.Some? ==>
      r.value == (Bitrates(prefix + reps).value, Resolutions(prefix + reps), Codecs(prefix + reps))
  {
    var bitrates, resolutions, codecs := bitrates0, resolutions0, codecs0;
    assert prefix + reps[..0] == prefix;
    for j := 0 to |reps|
      invariant Bitrates(prefix + reps[..j]) == Some(bitrates)
      invariant resolutions == Resolutions(prefix + reps[..j]) && codecs == Codecs(prefix + reps[..j])
    {
      PrefixStep(prefix, reps, j);
      var step := AddRepresentation(prefix + reps[..j], reps[j], bitrates, resolutions, codecs);
      if step.None? {
        FailureInsideSet(prefix, reps, j);
        return None;
      }
      bitrates, resolutions, codecs := step.value.0, step.value.1, step.value.2;
    }
    assert prefix + reps[..|reps|] == prefix + reps;
    return Some((bitrates, resolutions, codecs));
  }

  /** The video representations after one more set. */
  lemma VideoSetStep(sets: seq<AdaptationSet>, i: nat)
    requires i < |sets|
    ensures VideoReps(sets[..i + 1]) ==
      if IsVideo(sets[i]) then VideoReps(sets[..i]) + sets[i].representations else VideoReps(sets[..i])
  {
    assert sets[..i + 1][..i] == sets[..i];
    if !IsVideo(sets[i]) {
      assert VideoReps(sets[..i]) + [] == VideoReps(sets[..i]);
    }
  }

  /** A count after one more set. */
  lemma CountSetStep(sets: seq<AdaptationSet>, i: nat, t: string)
    requires i < |sets|
    ensures CountType(sets[..i + 1], t) == CountType(sets[..i], t) + (if sets[i].contentType == Some(t) then 1 else 0)
  {
    assert sets[..i + 1][..i] == sets[..i];
  }

  /** A bandwidth that fails inside set `i` fails the whole manifest. */
  lemma FailureAtSet(sets: seq<AdaptationSet>, i: nat)
    requires i < |sets| && Bitrates(VideoReps(sets[..i + 1])) == None
    ensures Bitrates(VideoReps(sets)) == None
  {
    BitratesFailureSticks(VideoReps(sets[..i + 1]), VideoReps(sets[i + 1..]));
    VideoRepsAround(sets, i);
  }

  lemma VideoRepsAround(sets: seq<AdaptationSet>, i: nat)
    requires i < |sets|
    ensures VideoReps(sets) == VideoReps(sets[..i + 1]) + VideoReps(sets[i + 1..])
  {
    assert sets == sets[..i + 1] + sets[i + 1..];
    VideoRepsAppend(sets[..i + 1], sets[i + 1..]);
  }

  /** `extract_manifest_info`: a loop over the first Period's adaptation
      sets that counts them by content type and collects the video
      representations' bitrates, resolutions and codecs. */
  method ExtractManifestInfo(m: Manifest) returns (r: Result<ManifestInfo>)
    ensures r == ManifestInfoOf(FirstPeriodSets(m))
  {
    var sets := FirstPeriodSets(m);
    var video, audio, text := 0, 0, 0;
    var bitrates: seq<int> := [];
    var resolutions: seq<string> := [];
    var codecs: seq<string> := [];
    for i := 0 to |sets|
      invariant video == CountType(sets[..i], "video")
      invariant audio == CountType(sets[..i], "audio")
      invariant text == CountType(sets[..i], "text")
      invariant Bitrates(VideoReps(sets[..i])) == Some(bitrates)
      invariant resolutions == Resolutions(VideoReps(sets[..i]))
      invariant codecs == Codecs(VideoReps(sets[..i]))
    {
      var a := sets[i];
      VideoSetStep(sets, i);
      CountSetStep(sets, i, "video");
      CountSetStep(sets, i, "audio");
      CountSetStep(sets, i, "text");
      var ctype := a.contentType.GetOr("");
      if ctype == "video" {
        video := video + 1;
        var collected := CollectRepresentations(VideoReps(sets[..i]), a.representations, bitrates, resolutions, codecs);
        if collected.None? {
          FailureAtSet(sets, i);
          return Failure("ValueError");
        }
        bitrates, resolutions, codecs := collected.value.0, collected.value.1, collected.value.2;
      } else if ctype == "audio" {
        audio := audio + 1;
      } else if ctype == "text" {
        text := text + 1;
      }
    }
    assert sets[..|sets|] == sets;
    return Success(ManifestInfo(|sets|, video, audio, text, bitrates, resolutions, codecs));
  }

  /** Every stream counted belongs to a distinct adaptation set. */
  lemma StreamCountsBounded(sets: seq<AdaptationSet>)
    requires ManifestInfoOf(sets).Success?
    ensures var info := ManifestInfoOf(sets).value;
      info.videoStreams + info.audioStreams + info.subtitleStreams <= info.adaptationSets
  {
    CountTypesDisjoint(sets, "video", "audio", "text");
  }

  // ---------------------------------------------------------------------
  // Init and media URL pairs
  // ---------------------------------------------------------------------

  datatype SegmentPair = SegmentPair(init: string, media: string)

  /** `int(startNumber)`, where an absent attribute means 1. */
  function StartNumber(t: SegmentTemplate): Option<int> {
    match t.startNumber
    case None => Some(1)
    case Some(text) => ParseInt(text)
  }

  /** A template attribute (empty when absent) with `$RepresentationID$`
      replaced by the representation's id (section 5.3.9.4.4 of
      ISO/IEC 23009-1). */
  function WithRepresentationId(attr: Option<string>, id: Option<string>): string {
    ReplaceAll(attr.GetOr(""), "$RepresentationID$", id.GetOr(""))
  }

  /** The media URL of segment `n`: `$Number$` replaced by `str(n)`. */
  function NumberedUrl(base: string, media: string, n: int, join: (string, string) -> string): string {
    join(base, ReplaceAll(media, "$Number$", IntToString(n)))
  }

  /** The number of iterations of `range(n)`. */
  function RangeLength(n: int): nat {
    if n > 0 then n else 0
  }

  /** The pairs one representation's template yields: segment numbers
      `start`, `start + 1`, … , `count` of them, all with one init URL. */
  function NumberedPairs(initUrl: string, base: string, media: string, start: int, count: nat,
                         join: (string, string) -> string): (r: seq<SegmentPair>)
    ensures |r| == count
    ensures forall i :: 0 <= i < count ==>
      r[i] == SegmentPair(initUrl, NumberedUrl(base, media, start + i, join))
  {
    if count == 0 then []
    else NumberedPairs(initUrl, base, media, start, count - 1, join)
           + [SegmentPair(initUrl, NumberedUrl(base, media, start + count - 1, join))]
  }

  /** What one adaptation set contributes: only a video set's FIRST
      representation is looked at, whether or not it has a template.
      `None` stands for the `ValueError` of a bad startNumber. */
  function SetPairs(a: AdaptationSet, base: string, join: (string, string) -> string, maxSegments: int)
    : Option<seq<SegmentPair>>
  {
    if !IsVideo(a) || |a.representations| == 0 then Some([])
    else
      var rep := a.representations[0];
      match rep.template
      case None => Some([])
      case Some(t) =>
        match StartNumber(t)
        case None => None
        case Some(start) =>
          var initUrl := join(base, WithRepresentationId(t.initialization, rep.id));
          Some(NumberedPairs(initUrl, base, WithRepresentationId(t.media, rep.id), start,
                             RangeLength(maxSegments), join))
  }

  function AllPairs(sets: seq<AdaptationSet>, base: string, join: (string, string) -> string, maxSegments: int)
    : Option<seq<SegmentPair>>
  {
    if sets == [] then Some([])
    else match AllPairs(sets[..|sets| - 1], base, join, maxSegments)
      case None => None
      case Some(p) =>
        match SetPairs(sets[|sets| - 1], base, join, maxSegments)
        case None => None
        case Some(q) => Some(p + q)
  }

  lemma {:induction false} AllPairsFailureSticks(sets: seq<AdaptationSet>, i: nat, base: string,
                                                 join: (string, string) -> string, maxSegments: int)
    requires i <= |sets|
    requires AllPairs(sets[..i], base, join, maxSegments) == None
    ensures AllPairs(sets, base, join, maxSegments) == None
    decreases |sets| - i
  {
    if i < |sets| {
      assert sets[..i + 1][..i] == sets[..i];
      AllPairsFailureSticks(sets, i + 1, base, join, maxSegments);
    } else {
      assert sets[..i] == sets;
    }
  }

  /** With no iterations of `range(max_segments)` nothing is produced. */
  lemma {:induction false} AllPairsEmpty(sets: seq<AdaptationSet>, base: string,
                                         join: (string, string) -> string, maxSegments: int)
    requires maxSegments <= 0
    requires AllPairs(sets, base, join, maxSegments).Some?
    ensures AllPairs(sets, base, join, maxSegments) == Some([])
  {
    if sets != [] {
      var front := sets[..|sets| - 1];
      assert AllPairs(front, base, join, maxSegments).Some?;
      AllPairsEmpty(front, base, join, maxSegments);
      var a := sets[|sets| - 1];
      assert SetPairs(a, base, join, maxSegments).Some?;
      assert SetPairs(a, base, join, maxSegments) == Some([]);
      assert AllPairs(sets, base, join, maxSegments)
          == Some(AllPairs(front, base, join, maxSegments).value + SetPairs(a, base, join, maxSegments).value);
      assert AllPairs(front, base, join, maxSegments).value + SetPairs(a, base, join, maxSegments).value == [];
    }
  }

  /** The inner `for i in range(max_segments)` loop: appends the numbered
      pairs of one template to `list`. */
  method AppendNumbered(list: seq<SegmentPair>, initUrl: string, base: string, media: string, start: int,
                        maxSegments: int, join: (string, string) -> string)
    returns (r: seq<SegmentPair>)
    ensures r == list + NumberedPairs(initUrl, base, media, start, RangeLength(maxSegments), join)
  {
    r := list;
    var k := 0;
    while k < maxSegments
      invariant 0 <= k <= RangeLength(maxSegments)
      invariant r == list + NumberedPairs(initUrl, base, media, start, k, join)
    {
      var pair := SegmentPair(initUrl, NumberedUrl(base, media, start + k, join));
      assert NumberedPairs(initUrl, base, media, start, k + 1, join)
          == NumberedPairs(initUrl, base, media, start, k, join) + [pair];
      assert (list + NumberedPairs(initUrl, base, media, start, k, join)) + [pair]
          == list + (NumberedPairs(initUrl, base, media, start, k, join) + [pair]);
      r := r + [pair];
      k := k + 1;
    }
  }

  /** The pairs after one more adaptation set. */
  lemma AllPairsStep(sets: seq<AdaptationSet>, i: nat, list: seq<SegmentPair>, base: string,
                     join: (string, string) -> string, maxSegments: int)
    requires i < |sets| && AllPairs(sets[..i], base, join, maxSegments) == Some(list)
    ensures AllPairs(sets[..i + 1], base, join, maxSegments) ==
      match SetPairs(sets[i], base, join, maxSegments)
      case None => None
      case Some(q) => Some(list + q)
  {
    assert sets[..i + 1][..i] == sets[..i];
  }

  /** One iteration of the loop over the adaptation sets: the inner loop
      over the representations always leaves after the first one. */
  method AddSetPairs(a: AdaptationSet, list: seq<SegmentPair>, manifestUrl: string,
                     join: (string, string) -> string, maxSegments: int)
    returns (r: Option<seq<SegmentPair>>)
    ensures r == match SetPairs(a, manifestUrl, join, maxSegments)
      case None => None
      case Some(q) => Some(list + q)
  {
    if a.contentType == Some("video") && |a.representations| > 0 && a.representations[0].template.Some? {
      var rep := a.representations[0];
      var t := rep.template.value;
      var start := StartNumber(t);
      if start.None? {
        return None;
      }
      var initUrl := join(manifestUrl, WithRepresentationId(t.initialization, rep.id));
      var extended := AppendNumbered(list, initUrl, manifestUrl, WithRepresentationId(t.media, rep.id),
                                     start.value, maxSegments, join);
      return Some(extended);
    }
    assert list + [] == list;
    return Some(list);
  }

  /** `get_segment_urls_from_mpd`: the pairs of every video set of the
      document, cut to `max_segments`. */
  method SegmentUrlsFromMpd(m: Manifest, manifestUrl: string, join: (string, string) -> string,
                            maxSegments: int)
    returns (r: Result<seq<SegmentPair>>)
    ensures r.Success? <==> AllPairs(AllSets(m), manifestUrl, join, maxSegments).Some?
    ensures r.Success? ==>
      r.value == Take(AllPairs(AllSets(m), manifestUrl, join, maxSegments).value, maxSegments)
    ensures r.Success? ==> |r.value| <= RangeLength(maxSegments)
  {
    var sets := AllSets(m);
    var list: seq<SegmentPair> := [];
    for i := 0 to |sets|
      invariant AllPairs(sets[..i], manifestUrl, join, maxSegments) == Some(list)
    {
      AllPairsStep(sets, i, list, manifestUrl, join, maxSegments);
      var step := AddSetPairs(sets[i], list, manifestUrl, join, maxSegments);
      if step.None? {
        AllPairsFailureSticks(sets, i + 1, manifestUrl, join, maxSegments);
        return Failure("ValueError");
      }
      list := step.value;
    }
    assert sets[..|sets|] == sets;
    if maxSegments <= 0 {
      AllPairsEmpty(sets, manifestUrl, join, maxSegments);
    }
    return Success(Take(list, maxSegments));
  }

  // ---------------------------------------------------------------------
  // Flattening records for CSV
  // ---------------------------------------------------------------------

  /** A JSON-like value: what the analyzers store in their records. */
  datatype Json =
    | JNull
    | JBool(b: bool)
    | JInt(i: int)
    | JReal(x: real)
    | JStr(s: string)
    | JList(items: seq<Json>)
    | JObject(members: seq<Member>)

  /** One key of a dictionary, in insertion order. */
  datatype Member = Member(key: string, value: Json)

  /** A flattened value: a scalar kept as it is, or a list that is written
      out as `str(list)`. */
  datatype Cell = Scalar(value: Json) | Listed(items: seq<Json>)

  predicate IsScalar(v: Json) {
    !v.JObject? && !v.JList?
  }

  /** No flattened value is a dictionary, nor a list left unconverted. */
  predicate FlatCell(c: Cell) {
    c.Scalar? ==> IsScalar(c.value)
  }

  /** `f"{parent}.{k}" if parent else k` */
  function JoinKey(parent: string, k: string): string {
    if parent != "" then parent + "." + k else k
  }

  lemma PrefixOfPrefix(s: string, p: string, q: string)
    requires StartsWith(s, p) && StartsWith(p, q)
    ensures StartsWith(s, q)
  {
    assert s[..|q|] == s[..|p|][..|q|];
  }

  /** The `(key, value)` items `flatten_dict(d, parent)` collects, in
      order, before `dict(items)` keeps the last value of each key. */
  function FlattenItems(ms: seq<Member>, parent: string): (r: seq<(string, Cell)>)
    ensures forall i :: 0 <= i < |r| ==> FlatCell(r[i].1)
    ensures parent != "" ==> forall i :: 0 <= i < |r| ==> StartsWith(r[i].0, parent + ".")
    decreases ms
  {
    if ms == [] then []
    else
      var m := ms[0];
      var key := JoinKey(parent, m.key);
      assert parent != "" ==> StartsWith(key, parent + ".") by {
        if parent != "" {
          assert key[..|parent + "."|] == parent + ".";
        }
      }
      var head := match m.value
        case JObject(sub) =>
          var h := FlattenItems(sub, key);
          assert parent != "" ==> forall i :: 0 <= i < |h| ==> StartsWith(h[i].0, parent + ".") by {
            if parent != "" {
              forall i | 0 <= i < |h| ensures StartsWith(h[i].0, parent + ".") {
                PrefixOfPrefix(h[i].0, key + ".", key);
                PrefixOfPrefix(h[i].0, key, parent + ".");
              }
            }
          }
          h
        case JList(xs) => [(key, Listed(xs))]
        case _ => [(key, Scalar(m.value))];
      head + FlattenItems(ms[1..], parent)
  }

  /** `dict(items)`: the last value given for a key wins. */
  function ToMap(items: seq<(string, Cell)>): map<string, Cell> {
    if items == [] then map[]
    else ToMap(items[..|items| - 1])[items[|items| - 1].0 := items[|items| - 1].1]
  }

  function Keys(items: seq<(string, Cell)>): (r: seq<string>)
    ensures |r| == |items| && forall i :: 0 <= i < |items| ==> r[i] == items[i].0
  {
    if items == [] then [] else Keys(items[..|items| - 1]) + [items[|items| - 1].0]
  }

  /** `flatten_dict(d)` */
  function FlattenDict(d: seq<Member>): map<string, Cell> {
    ToMap(FlattenItems(d, ""))
  }

  /** The keys of `dict(items)` are the keys listed. */
  lemma {:induction false} ToMapKeys(items: seq<(string, Cell)>)
    ensures forall k :: k in ToMap(items) <==> k in Keys(items)
  {
    if items != [] {
      var front := items[..|items| - 1];
      ToMapKeys(front);
      assert Keys(items) == Keys(front) + [items[|items| - 1].0];
    }
  }

  /** A key maps to the value of its last occurrence. */
  lemma {:induction false} ToMapLastWins(items: seq<(string, Cell)>, i: nat)
    requires i < |items|
    requires forall j :: i < j < |items| ==> items[j].0 != items[i].0
    ensures items[i].0 in ToMap(items) && ToMap(items)[items[i].0] == items[i].1
  {
    if i < |items| - 1 {
      var front := items[..|items| - 1];
      ToMapLastWins(front, i);
    }
  }

  /** A dictionary with no dictionary or list values flattens to itself. */
  lemma {:induction false} FlattenKeepsScalars(ms: seq<Member>)
    requires forall i :: 0 <= i < |ms| ==> IsScalar(ms[i].value)
    ensures |FlattenItems(ms, "")| == |ms|
    ensures forall i :: 0 <= i < |ms| ==> FlattenItems(ms, "")[i] == (ms[i].key, Scalar(ms[i].value))
  {
    if ms != [] {
      FlattenKeepsScalars(ms[1..]);
    }
  }

  /** The value a leaf is written as: a list becomes its text, anything
      else is kept. */
  function CellOf(v: Json): Cell {
    if v.JList? then Listed(v.items) else Scalar(v)
  }

  /** `path` leads through nested dictionaries to a value that is not a
      dictionary, whose cell is `c`: the leaves of a nested dictionary,
      independently of how `flatten_dict` walks it. */
  predicate LeafIn(ms: seq<Member>, path: seq<string>, c: Cell)
    decreases |path|, 1
  {
    exists i :: 0 <= i < |ms| && LeafOf(ms[i], path, c)
  }

  predicate LeafOf(m: Member, path: seq<string>, c: Cell)
    decreases |path|, 0
  {
    |path| >= 1 && m.key == path[0] &&
    if |path| == 1 then !m.value.JObject? && c == CellOf(m.value)
    else m.value.JObject? && LeafIn(m.value.members, path[1..], c)
  }

  /** The key a path is written under: `new_key` applied key by key. */
  function PathKey(parent: string, path: seq<string>): string
    decreases |path|
  {
    if path == [] then parent else PathKey(JoinKey(parent, path[0]), path[1..])
  }

  /** The keys of a path joined by dots. */
  function DotJoin(path: seq<string>): string
    requires path != []
    decreases |path|
  {
    if |path| == 1 then path[0] else path[0] + "." + DotJoin(path[1..])
  }

  /** Every flattened item is a leaf of the dictionary, written under its
      path's key with its own cell. */
  lemma {:induction false} FlattenItemsSound(ms: seq<Member>, parent: string, k: string, c: Cell)
    returns (path: seq<string>)
    requires (k, c) in FlattenItems(ms, parent)
    ensures LeafIn(ms, path, c) && k == PathKey(parent, path)
    decreases ms
  {
    var m := ms[0];
    var key := JoinKey(parent, m.key);
    var tail := FlattenItems(ms[1..], parent);
    if (k, c) in tail {
      path := FlattenItemsSound(ms[1..], parent, k, c);
      var j :| 0 <= j < |ms[1..]| && LeafOf(ms[1..][j], path, c);
      assert LeafOf(ms[j + 1], path, c);
    } else if m.value.JObject? {
      var sub := m.value.members;
      assert FlattenItems(ms, parent) == FlattenItems(sub, key) + tail;
      var rest := FlattenItemsSound(sub, key, k, c);
      path := [m.key] + rest;
      assert path[1..] == rest;
      assert LeafOf(ms[0], path, c);
    } else {
      assert FlattenItems(ms, parent) == [(key, CellOf(m.value))] + tail;
      path := [m.key];
      assert LeafOf(ms[0], path, c);
    }
  }

  /** Every leaf of the dictionary is a flattened item, under its path's
      key and with its own cell. */
  lemma {:induction false} FlattenItemsComplete(ms: seq<Member>, parent: string, path: seq<string>, c: Cell)
    requires LeafIn(ms, path, c)
    ensures (PathKey(parent, path), c) in FlattenItems(ms, parent)
    decreases ms
  {
    var i :| 0 <= i < |ms| && LeafOf(ms[i], path, c);
    var m := ms[0];
    var key := JoinKey(parent, m.key);
    var tail := FlattenItems(ms[1..], parent);
    if i > 0 {
      assert LeafOf(ms[1..][i - 1], path, c);
      FlattenItemsComplete(ms[1..], parent, path, c);
    } else if |path| == 1 {
      assert FlattenItems(ms, parent) == [(key, CellOf(m.value))] + tail;
    } else {
      var sub := m.value.members;
      assert FlattenItems(ms, parent) == FlattenItems(sub, key) + tail;
      FlattenItemsComplete(sub, key, path[1..], c);
    }
  }

  /** `dict(items)` takes its values from the items. */
  lemma {:induction false} ToMapValueListed(items: seq<(string, Cell)>, k: string)
    requires k in ToMap(items)
    ensures (k, ToMap(items)[k]) in items
    decreases |items|
  {
    var last := items[|items| - 1];
    if k != last.0 {
      ToMapValueListed(items[..|items| - 1], k);
    }
  }

  /** The keys of `flatten_dict(d)` are exactly the keys of its leaves, and
      each key holds the cell of a leaf written under it. */
  lemma FlattenDictLeaves(d: seq<Member>, k: string) returns (path: seq<string>)
    requires k in FlattenDict(d)
    ensures LeafIn(d, path, FlattenDict(d)[k]) && k == PathKey("", path)
  {
    ToMapValueListed(FlattenItems(d, ""), k);
    path := FlattenItemsSound(d, "", k, FlattenDict(d)[k]);
  }

  lemma FlattenDictHasLeaf(d: seq<Member>, path: seq<string>, c: Cell)
    requires LeafIn(d, path, c)
    ensures PathKey("", path) in FlattenDict(d)
  {
    FlattenItemsComplete(d, "", path, c);
    var items := FlattenItems(d, "");
    var i :| 0 <= i < |items| && items[i] == (PathKey("", path), c);
    ToMapKeys(items);
    assert Keys(items)[i] == PathKey("", path);
  }

  /** A leaf whose key no other leaf shares keeps its own cell. */
  lemma FlattenDictUniqueLeaf(d: seq<Member>, path: seq<string>, c: Cell)
    requires LeafIn(d, path, c)
    requires forall q, e :: LeafIn(d, q, e) && PathKey("", q) == PathKey("", path) ==> e == c
    ensures PathKey("", path) in FlattenDict(d) && FlattenDict(d)[PathKey("", path)] == c
  {
    FlattenDictHasLeaf(d, path, c);
    var q := FlattenDictLeaves(d, PathKey("", path));
  }

  /** Keys are the path joined by dots under a parent, and at the top
      level too when the first key is not empty (`if parent_key` treats an
      empty key as no parent). */
  lemma {:induction false} PathKeyDots(parent: string, path: seq<string>)
    requires path != []
    ensures parent != "" ==> PathKey(parent, path) == parent + "." + DotJoin(path)
    ensures parent == "" && path[0] != "" ==> PathKey(parent, path) == DotJoin(path)
    decreases |path|
  {
    var key := JoinKey(parent, path[0]);
    if |path| > 1 && (parent != "" || path[0] != "") {
      PathKeyDots(key, path[1..]);
      if parent != "" {
        assert key + "." + DotJoin(path[1..]) == parent + "." + (path[0] + "." + DotJoin(path[1..]));
      }
    }
  }

  /** One level down: a scalar `c` inside the dictionary under a
      non-empty key `k` is written as `k.c`. */
  lemma NestedScalarKey(d: seq<Member>, i: nat, j: nat)
    requires i < |d| && d[i].key != "" && d[i].value.JObject?
    requires j < |d[i].value.members| && IsScalar(d[i].value.members[j].value)
    ensures var inner := d[i].value.members[j];
      (d[i].key + "." + inner.key, Scalar(inner.value)) in FlattenItems(d, "")
  {
    var inner := d[i].value.members[j];
    var path := [d[i].key, inner.key];
    assert path[1..] == [inner.key];
    assert LeafOf(inner, [inner.key], Scalar(inner.value));
    assert LeafOf(d[i], path, Scalar(inner.value));
    FlattenItemsComplete(d, "", path, Scalar(inner.value));
    PathKeyDots("", path);
    assert path[1..][1..] == [];
  }

  /** A nested empty dictionary contributes no key at all. */
  lemma EmptyNestedDictVanishes(k: string, rest: seq<Member>, parent: string)
    ensures FlattenItems([Member(k, JObject([]))] + rest, parent) == FlattenItems(rest, parent)
  {
    assert ([Member(k, JObject([]))] + rest)[1..] == rest;
  }

  // ---------------------------------------------------------------------
  // CSV header
  // ---------------------------------------------------------------------

  /** Python's `<` on `str`: code point by code point, a proper prefix
      first. */
  predicate Below(a: string, b: string)
    decreases |a|
  {
    if a == [] then b != []
    else if b == [] then false
    else if a[0] != b[0] then a[0] < b[0]
    else Below(a[1..], b[1..])
  }

  lemma {:induction false} BelowIrreflexive(a: string)
    ensures !Below(a, a)
    decreases |a|
  {
    if a != [] {
      BelowIrreflexive(a[1..]);
    }
  }

  lemma {:induction false} BelowTransitive(a: string, b: string, c: string)
    requires Below(a, b) && Below(b, c)
    ensures Below(a, c)
    decreases |a|
  {
    if a != [] && b != [] && c != [] && a[0] == b[0] && b[0] == c[0] {
      BelowTransitive(a[1..], b[1..], c[1..]);
    }
  }

  lemma {:induction false} BelowTotal(a: string, b: string)
    requires a != b
    ensures Below(a, b) || Below(b, a)
    decreases |a|
  {
    if a != [] && b != [] && a[0] == b[0] {
      assert a == [a[0]] + a[1..] && b == [b[0]] + b[1..];
      BelowTotal(a[1..], b[1..]);
    }
  }

  lemma {:induction false} BelowAsymmetric(a: string, b: string)
    requires Below(a, b)
    ensures !Below(b, a)
  {
    if Below(b, a) {
      BelowTransitive(a, b, a);
      BelowIrreflexive(a);
    }
  }

  predicate StrictlySorted(s: seq<string>) {
    forall i, j :: 0 <= i < j < |s| ==> Below(s[i], s[j])
  }

  /** Insert one key into a strictly sorted list, unless it is there. */
  function Insert(s: seq<string>, x: string): seq<string> {
    if s == [] then [x]
    else if x == s[0] then s
    else if Below(x, s[0]) then [x] + s
    else [s[0]] + Insert(s[1..], x)
  }

  lemma {:induction false} InsertKeepsSorted(s: seq<string>, x: string)
    requires StrictlySorted(s)
    ensures StrictlySorted(Insert(s, x))
    ensures forall k :: k in Insert(s, x) <==> k in s || k == x
  {
    if s == [] {
    } else if x == s[0] {
    } else if Below(x, s[0]) {
      var r := [x] + s;
      forall i, j | 0 <= i < j < |r| ensures Below(r[i], r[j]) {
        if i == 0 && j > 1 {
          BelowTransitive(x, s[0], s[j - 1]);
        }
      }
    } else {
      InsertKeepsSorted(s[1..], x);
      BelowTotal(x, s[0]);
      var t := Insert(s[1..], x);
      var r := [s[0]] + t;
      forall i, j | 0 <= i < j < |r| ensures Below(r[i], r[j]) {
        if i == 0 {
          assert r[j] in t;
          assert r[j] in s[1..] || r[j] == x;
          if r[j] in s[1..] {
            var k :| 1 <= k < |s| && s[k] == r[j];
          }
        }
      }
    }
  }

  /** `sorted(set(keys))` */
  function SortedKeys(keys: seq<string>): (r: seq<string>)
    ensures StrictlySorted(r)
    ensures forall k :: k in r <==> k in keys
  {
    if keys == [] then []
    else
      var front := SortedKeys(keys[..|keys| - 1]);
      InsertKeepsSorted(front, keys[|keys| - 1]);
      assert forall k :: k in keys <==> k in keys[..|keys| - 1] || k == keys[|keys| - 1] by {
        assert keys == keys[..|keys| - 1] + [keys[|keys| - 1]];
      }
      Insert(front, keys[|keys| - 1])
  }

  lemma HeadIsLeast(a: seq<string>, k: string)
    requires StrictlySorted(a) && k in a && k != a[0]
    ensures Below(a[0], k)
  {
    var i :| 0 <= i < |a| && a[i] == k;
  }

  lemma NotBelowBothWays(a: string, b: string)
    ensures !(Below(a, b) && Below(b, a))
  {
    if Below(a, b) {
      BelowAsymmetric(a, b);
    }
  }

  /** Two strictly sorted lists with the same elements start alike. */
  lemma SameHead(a: seq<string>, b: seq<string>)
    requires StrictlySorted(a) && StrictlySorted(b) && a != [] && b != []
    requires forall k :: k in a <==> k in b
    ensures a[0] == b[0]
  {
    if a[0] != b[0] {
      NotBelowBothWays(a[0], b[0]);
      HeadIsLeast(a, b[0]);
      HeadIsLeast(b, a[0]);
    }
  }

  lemma SameElementsBothEmpty(a: seq<string>, b: seq<string>)
    requires forall k :: k in a <==> k in b
    ensures a == [] <==> b == []
  {
    if a != [] {
      assert a[0] in b;
    }
    if b != [] {
      assert b[0] in a;
    }
  }

  /** A strictly sorted list is determined by its elements, so the header
      does not depend on the order in which keys were met. */
  lemma {:induction false} SortedIsUnique(a: seq<string>, b: seq<string>)
    requires StrictlySorted(a) && StrictlySorted(b)
    requires forall k :: k in a <==> k in b
    ensures a == b
    decreases |a|
  {
    SameElementsBothEmpty(a, b);
    if a != [] {
      SameHead(a, b);
      BelowIrreflexive(a[0]);
      forall k ensures k in a[1..] <==> k in b[1..] {
        if k in a[1..] {
          var i :| 1 <= i < |a| && a[i] == k;
          assert k in b && k != b[0];
        }
        if k in b[1..] {
          var i :| 1 <= i < |b| && b[i] == k;
          assert k in a && k != a[0];
        }
      }
      SortedIsUnique(a[1..], b[1..]);
      assert a == [a[0]] + a[1..] && b == [b[0]] + b[1..];
    }
  }

  function EntryKeys(entry: seq<Member>): seq<string> {
    Keys(FlattenItems(entry, ""))
  }

  function MapSeq<A, B>(s: seq<A>, f: A -> B): (r: seq<B>)
    ensures |r| == |s| && forall i :: 0 <= i < |s| ==> r[i] == f(s[i])
  {
    if s == [] then [] else MapSeq(s[..|s| - 1], f) + [f(s[|s| - 1])]
  }

  /** The keys of each flattened entry, in order. */
  function KeyLists(data: seq<seq<Member>>): seq<seq<string>> {
    MapSeq(data, EntryKeys)
  }

  function Concat<T>(ls: seq<seq<T>>): seq<T> {
    if ls == [] then [] else Concat(ls[..|ls| - 1]) + ls[|ls| - 1]
  }

  /** Every key of every flattened entry, entry by entry. */
  function AllKeys(data: seq<seq<Member>>): seq<string> {
    Concat(KeyLists(data))
  }

  lemma {:induction false} InConcatPart<T>(ls: seq<seq<T>>, k: T, i: nat)
    requires i < |ls| && k in ls[i]
    ensures k in Concat(ls)
  {
    var front := ls[..|ls| - 1];
    if i < |front| {
      assert front[i] == ls[i];
      InConcatPart(front, k, i);
    }
  }

  lemma {:induction false} PartOfConcat<T>(ls: seq<seq<T>>, k: T) returns (i: nat)
    requires k in Concat(ls)
    ensures i < |ls| && k in ls[i]
  {
    var front := ls[..|ls| - 1];
    if k in Concat(front) {
      i := PartOfConcat(front, k);
      assert ls[i] == front[i];
    } else {
      i := |ls| - 1;
    }
  }

  lemma KeyInSomeEntry(data: seq<seq<Member>>, k: string)
    ensures k in AllKeys(data) <==> exists i :: 0 <= i < |data| && k in FlattenDict(data[i])
  {
    var ls := KeyLists(data);
    if k in Concat(ls) {
      var i := PartOfConcat(ls, k);
    }
    if exists i :: 0 <= i < |ls| && k in ls[i] {
      var i :| 0 <= i < |ls| && k in ls[i];
      InConcatPart(ls, k, i);
    }
    forall i | 0 <= i < |data| ensures k in ls[i] <==> k in FlattenDict(data[i]) {
      assert ls[i] == EntryKeys(data[i]);
      ToMapKeys(FlattenItems(data[i], ""));
    }
  }

  lemma AllKeysAreFlattenedKeys(data: seq<seq<Member>>)
    ensures forall k :: k in AllKeys(data) <==> exists i :: 0 <= i < |data| && k in FlattenDict(data[i])
  {
    forall k ensures k in AllKeys(data) <==> exists i :: 0 <= i < |data| && k in FlattenDict(data[i]) {
      KeyInSomeEntry(data, k);
    }
  }

  /** The CSV header of `save_tabular_log`: nothing is written for an
      empty list; otherwise the keys of all flattened entries, each once,
      in sorted order. */
  function CsvHeader(data: seq<seq<Member>>): (r: Option<seq<string>>)
    ensures r.None? <==> data == []
    ensures r.Some? ==> StrictlySorted(r.value)
    ensures r.Some? ==> forall k :: k in r.value <==>
      exists i :: 0 <= i < |data| && k in FlattenDict(data[i])
  {
    if data == [] then None
    else
      AllKeysAreFlattenedKeys(data);
      Some(SortedKeys(AllKeys(data)))
  }

  // ---------------------------------------------------------------------
  // CSV path
  // ---------------------------------------------------------------------

  /** `path.replace('.json', '.csv')` */
  function CsvPath(path: string): string {
    ReplaceAll(path, ".json", ".csv")
  }

  /** A path whose only `.json` is its extension gets the `.csv`
      extension and keeps its stem. */
  lemma CsvPathOfJson(stem: string)
    requires !Contains(stem, ".json")
    ensures CsvPath(stem + ".json") == stem + ".csv"
  {
    var s := stem + ".json";
    var pat := ".json";
    assert OccursAt(s, pat, |stem|) by {
      assert s[|stem|..|stem| + |pat|] == pat;
    }
    forall j | 0 <= j < |stem| ensures !OccursAt(s, pat, j) {
      if j + |pat| <= |stem| {
        assert s[j..j + |pat|] == stem[j..j + |pat|];
        assert !OccursAt(stem, pat, j);
      } else {
        assert s[j..j + |pat|][|stem| - j] == '.';
      }
    }
    ReplaceAtFirst(s, pat, ".csv", |stem|);
    assert s[..|stem|] == stem;
    assert ReplaceFrom(s, pat, ".csv", |s|) == [];
  }
}
