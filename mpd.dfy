/** The parts of a DASH media presentation description (ISO/IEC 23009-1)
    that the analyzers read, as a value. Attributes are kept as the raw
    text the XML parser hands back (`None` when the attribute is absent);
    turning them into numbers is the analyzers' business, because each of
    them does it differently and each can fail. */
module Mpd {
  import opened Wrappers
  import opened Seqs

  /** An `S` element of a SegmentTimeline; only its repeat count `@r`
      (section 5.3.9.6) is read. */
  datatype TimelineEntry = S(r: Option<string>)

  /** A SegmentTemplate (section 5.3.9.4) found inside a Representation.
      `timeline` is `None` when the template has no SegmentTimeline child. */
  datatype SegmentTemplate = SegmentTemplate(
    media: Option<string>,
    initialization: Option<string>,
    startNumber: Option<string>,
    timeline: Option<seq<TimelineEntry>>)

  datatype Representation = Representation(
    id: Option<string>,
    bandwidth: Option<string>,
    width: Option<string>,
    height: Option<string>,
    codecs: Option<string>,
    template: Option<SegmentTemplate>)

  datatype AdaptationSet = AdaptationSet(
    contentType: Option<string>,
    id: Option<string>,
    representations: seq<Representation>)

  datatype Period = Period(adaptationSets: seq<AdaptationSet>)

  datatype Manifest = Manifest(periods: seq<Period>)

  /** Python truthiness of an optional attribute: present and non-empty. */
  predicate Truthy(a: Option<string>) {
    a.Some? && |a.value| > 0
  }

  /** ElementTree's truth value of a SegmentTemplate element: true when it
      has a child element. SegmentTimeline is the only child modelled. */
  predicate HasChildElement(t: SegmentTemplate) {
    t.timeline.Some?
  }

  predicate IsVideo(a: AdaptationSet) {
    a.contentType == Some("video")
  }

  /** The adaptation sets of the first Period, or none without a Period. */
  function FirstPeriodSets(m: Manifest): seq<AdaptationSet> {
    if |m.periods| == 0 then [] else m.periods[0].adaptationSets
  }

  /** Every adaptation set of the document, in document order. */
  function AllSets(m: Manifest): seq<AdaptationSet> {
    SetsOf(m.periods)
  }

  function SetsOf(ps: seq<Period>): seq<AdaptationSet> {
    if ps == [] then [] else ps[0].adaptationSets + SetsOf(ps[1..])
  }

  /** The representations of the video sets, in document order. */
  function VideoReps(sets: seq<AdaptationSet>): seq<Representation> {
    if sets == [] then []
    else
      var last := sets[|sets| - 1];
      VideoReps(sets[..|sets| - 1]) + (if IsVideo(last) then last.representations else [])
  }

  /** How many sets have the given `contentType`. */
  function CountType(sets: seq<AdaptationSet>, t: string): (n: nat)
    ensures n <= |sets|
  {
    if sets == [] then 0
    else CountType(sets[..|sets| - 1], t) + (if sets[|sets| - 1].contentType == Some(t) then 1 else 0)
  }

  lemma {:induction false} VideoRepsAppend(a: seq<AdaptationSet>, b: seq<AdaptationSet>)
    ensures VideoReps(a + b) == VideoReps(a) + VideoReps(b)
    decreases |b|
  {
    if b == [] {
      assert a + b == a;
    } else {
      var front := b[..|b| - 1];
      var last := b[|b| - 1];
      assert (a + b)[..|a + b| - 1] == a + front;
      assert (a + b)[|a + b| - 1] == last;
      VideoRepsAppend(a, front);
      AppendAssoc(VideoReps(a), VideoReps(front), if IsVideo(last) then last.representations else []);
    }
  }

  /** Sets of three different types are counted at most once each. */
  lemma {:induction false} CountTypesDisjoint(sets: seq<AdaptationSet>, t1: string, t2: string, t3: string)
    requires t1 != t2 && t2 != t3 && t1 != t3
    ensures CountType(sets, t1) + CountType(sets, t2) + CountType(sets, t3) <= |sets|
  {
    if sets != [] {
      CountTypesDisjoint(sets[..|sets| - 1], t1, t2, t3);
    }
  }
}
