# Stream analysis of live_video_lab, modelled in Dafny

live_video_lab watches a live DASH or HLS stream and scores its health.
The pieces modelled here are the following.

- **Basic monitor** (`src/monitor/stream_monitor.py`; the top-level `stream_monitor.py` is an identical copy, and one module serves both):
  - polls the manifest;
  - counts the variants of an HLS master playlist, or the streams of a DASH MPD;
  - checks connectivity;
  - keeps a list of metrics;
  - writes a final report.
- **Three analyzers, run side by side by the analysis suite:**
  - the *quality analyzer* derives up to five segment URLs from the MPD's SegmentTemplate/SegmentTimeline, probes the segments and averages their bitrate and SSIM;
  - the *latency analyzer* times manifest and segment downloads and summarises the last 50 records of each history;
  - the *adaptation analyzer* polls the bitrates of the reachable video representations, keeps the last 100 polls, logs bitrate switches with their direction, and computes a stability score.
- **Analysis suite:** fuses the latest result of each analyzer into three scores, a health score and threshold-driven recommendations. It writes a snapshot for the dashboard.
- **Helpers** (`stream_analisys_common.py`): manifest counting, segment-URL expansion, flattening of nested dictionaries for CSV, the CSV header and the CSV file name.
- **Dashboard:** renders the suite's snapshot as a health band and cards. When there is no snapshot, it falls back to the basic monitor's latest entry.

## How the model is built

The model takes the world's answers as inputs:

- the parsed manifest is a datatype (`Mpd`), with attributes as raw optional text;
- HTTP responses, timeouts, ffprobe and SSIM outcomes, and clock readings are values, or functions from URL to outcome;
- `urljoin` is an uninterpreted function parameter.

Python's own operations that can raise are modelled where the code depends on them: `int()` on attribute text, `min`/`max` of an empty set, `None` in arithmetic. They appear as `Result`/`Option` failures, with the branch the source takes when it catches them.

Averages and ratios are exact `real`s. Bandwidths are `int`s.

Modules:

| module | models |
|---|---|
| `Wrappers`, `Seqs` | `Option`/`Result`; sequence-append facts used by the proofs |
| `PyText` | `str.strip`, `in`, `split(sep)[0]`/`[1]`, `replace`, `int(str)`, `str(int)` |
| `History` | the slices `[-n:]` and `[:n]`, and a history bounded by appending and trimming |
| `Stats` | `min`, `max`, the mean and the population variance |
| `Mpd` | the manifest elements the analyzers read |
| `AnalysisCommon` | `src/monitor/stream_analisys_common.py` (and the suite's identical `flatten_dict`) |
| `Adaptation`, `Latency`, `Quality`, `Suite`, `Monitor`, `Dashboard` | one module per source file |

The analyzers keep state, so each is a class:

- `Adaptation.AdaptationAnalyzer`, `Latency.LatencyAnalyzer`, `Quality.StreamQualityAnalyzer`, `Suite.StreamAnalysisSuite` and `Monitor.StreamMonitor` are classes whose `seq` fields the methods reassign.
- A polling loop becomes a method over a finite sequence of poll inputs. It is proved equal to a fold (`Run`, `Analyses`, `MonitorRun`, `SuiteRun`) about which the lemmas speak.

## Model

| member | source | states |
|---|---|---|
| PyText.TrimStart | src/monitor/stream_monitor.py:121 | the stripped text does not start with a dropped character (the full characterisation is `TrimStartCuts`) |
| PyText.TrimEnd | src/monitor/stream_monitor.py:134 | the stripped text does not end with a dropped character (the full characterisation is `TrimEndCuts`) |
| PyText.TrimStartCuts | src/monitor/stream_monitor.py:121 | `lstrip` leaves the suffix of the text after a run of characters that are all dropped |
| PyText.TrimEndCuts | src/monitor/stream_monitor.py:134 | `rstrip` leaves the prefix of the text before a run of characters that are all dropped |
| PyText.StripKeepsUnpadded | src/monitor/stream_monitor.py:121 | `strip()` leaves a line without surrounding whitespace unchanged |
| PyText.IndexFrom | src/monitor/stream_monitor.py:125-126 | the first occurrence of the pattern at or after a position, or none at all |
| PyText.IndexOf | src/monitor/stream_monitor.py:125-126 | `in` and the first split point: the first occurrence of the pattern, or `None` exactly when it does not occur |
| PyText.IndexOfIsFirst | src/monitor/stream_monitor.py:125-126 | the split point is the first occurrence: a first occurrence at `k` makes `IndexOf` answer `k` |
| PyText.Before | src/monitor/stream_monitor.py:126 | `split(sep)[0]` is a prefix of the text that does not contain the separator |
| PyText.After | src/monitor/stream_monitor.py:126 | `split(sep)[1]`, taken after the first separator, is a suffix of the text |
| PyText.ReplaceAbsent | src/monitor/stream_analisys_common.py:62-63 | `replace` leaves a text without the pattern unchanged |
| PyText.ReplaceAtFirst | src/monitor/stream_analisys_common.py:67 | `replace` puts the replacement at the first occurrence and continues after it |
| PyText.ReplaceFromFirst | src/monitor/stream_analisys_common.py:67 | `replace` keeps the text before the first occurrence, puts the replacement there and replaces the rest after it |
| PyText.DigitChar | src/monitor/stream_analisys_common.py:67 | a digit value is written as an ASCII digit that reads back as that value |
| PyText.NatToDigits | src/monitor/stream_analisys_common.py:67 | `str` of a natural number is a non-empty run of digits |
| PyText.NatToDigitsValue | src/monitor/stream_analisys_common.py:67 | the digits of `str(n)` denote `n` |
| PyText.ParseIntOfIntToString | src/monitor/stream_analisys_common.py:64-67 | `int(str(n)) == n` for every integer, negative ones included |
| History.Last | src/monitor/stream_adaptation_analyzer.py:224 | `s[-n:]` has `min(n, len(s))` elements |
| History.LastIsSuffix | src/monitor/stream_latency_analyzer.py:264-265 | `s[-n:]` is the suffix of `s` of that length, element by element |
| History.Take | src/monitor/stream_analisys_common.py:70 | `s[:n]` has `min(n, len(s))` elements, and for negative `n` it drops `-n` from the end |
| History.TakeIsPrefix | src/monitor/stream_quality_analyzer.py:251 | `s[:n]` is a prefix of `s` |
| History.LastOfLast | src/monitor/stream_adaptation_analyzer.py:220-224 | trimming to the last `n` before appending more and trimming again equals trimming once at the end |
| History.PushAllKeepsLast | src/monitor/stream_adaptation_analyzer.py:220-224 | appending polls one by one, trimming to 100 after each, leaves the last 100 of everything appended |
| History.OverfullHistory | src/monitor/stream_adaptation_analyzer.py:223-224 | once more than 100 polls were appended, exactly the latest 100 remain, in order |
| Stats.Min | src/monitor/stream_latency_analyzer.py:196 | `min` of a non-empty list is one of its elements and below every element |
| Stats.Max | src/monitor/stream_latency_analyzer.py:197 | `max` of a non-empty list is one of its elements and above every element |
| Stats.IntMin | src/monitor/stream_adaptation_analyzer.py:171 | the same for integer bitrates |
| Stats.IntMax | src/monitor/stream_adaptation_analyzer.py:172 | the same for integer bitrates |
| Stats.IntMinMaxAreMinMax | src/monitor/stream_adaptation_analyzer.py:171-172 | integer `min`/`max` of the bitrates agree with `min`/`max` of the same values as reals |
| Stats.Reals | src/monitor/stream_adaptation_analyzer.py:246 | integer bitrates used in real division, element by element |
| Stats.MeanBetween | src/monitor/stream_latency_analyzer.py:195 | the mean of values within bounds is within the same bounds |
| Stats.MeanBetweenMinMax | src/monitor/stream_latency_analyzer.py:195-197 | `min <= sum/len <= max` |
| Stats.VarianceNonNegative | src/monitor/stream_latency_analyzer.py:200 | the population variance is never negative |
| Stats.VarianceZeroIffConstant | src/monitor/stream_adaptation_analyzer.py:247 | the population variance is 0 exactly when all values are equal |
| Mpd.CountType | src/monitor/stream_quality_analyzer.py:61-84 | the number of sets of one content type is at most the number of sets |
| Mpd.CountTypesDisjoint | src/monitor/stream_quality_analyzer.py:61-84 | counts of three different content types add up to at most the number of sets |
| AnalysisCommon.BitratesFailureSticks | src/monitor/stream_analisys_common.py:41 | once `int(bandwidth)` has raised, later representations cannot undo it |
| AnalysisCommon.BitratesAreParsedBandwidths | src/monitor/stream_analisys_common.py:40-41 | the bitrate list exists exactly when every non-empty bandwidth parses; it is those bandwidths parsed, in order |
| AnalysisCommon.ExtendByOne | src/monitor/stream_analisys_common.py:40-45 | one representation adds a bitrate only for a non-empty bandwidth, `WxH` only when width and height are both non-empty, and a codec only when non-empty |
| AnalysisCommon.AddRepresentation | src/monitor/stream_analisys_common.py:40-45 | the loop body over one representation extends the three lists as the specification functions say, or fails as `int()` does |
| AnalysisCommon.CollectRepresentations | src/monitor/stream_analisys_common.py:39-45 | the representation loop of one video set yields the lists of all representations seen so far, or the `int()` failure |
| AnalysisCommon.ExtractManifestInfo | src/monitor/stream_analisys_common.py:21-50 | `extract_manifest_info` returns the counts and lists of the first Period's sets, as the specification function defines them |
| AnalysisCommon.StreamCountsBounded | src/monitor/stream_analisys_common.py:27-49 | `video_streams + audio_streams + subtitle_streams <= adaptation_sets` |
| AnalysisCommon.NumberedPairs | src/monitor/stream_analisys_common.py:66-68 | `max_segments` pairs; pair `i` is the init URL with the media URL for `$Number$ = startNumber + i` |
| AnalysisCommon.AllPairsFailureSticks | src/monitor/stream_analisys_common.py:64 | an `int(startNumber)` failure in one video set makes the whole call fail |
| AnalysisCommon.AllPairsEmpty | src/monitor/stream_analisys_common.py:66 | with `max_segments <= 0`, `range` is empty and no pair is produced |
| AnalysisCommon.AppendNumbered | src/monitor/stream_analisys_common.py:66-68 | the `range(max_segments)` loop appends exactly the numbered pairs |
| AnalysisCommon.AddSetPairs | src/monitor/stream_analisys_common.py:57-69 | one adaptation set contributes the pairs of its first representation only, whether or not it has a template |
| AnalysisCommon.SegmentUrlsFromMpd | src/monitor/stream_analisys_common.py:52-70 | the result is the first `max_segments` of the pairs of all video sets; it fails exactly when some `startNumber` does not parse; it has at most `max_segments` pairs |
| AnalysisCommon.FlattenItems | src/monitor/stream_analisys_common.py:72-83 | no flattened value is a dictionary, and under a non-empty parent every key starts with `parent.` (what the keys are exactly is `FlattenItemsSound`/`FlattenItemsComplete`) |
| AnalysisCommon.FlattenItemsSound | src/monitor/stream_analisys_common.py:72-83 | every flattened item is a leaf of the nested dictionary (a path of keys through nested dictionaries ending at a non-dictionary value), written under the key `new_key` builds from that path, with the leaf's value (`str(list)` for a list) |
| AnalysisCommon.FlattenItemsComplete | src/monitor/stream_analisys_common.py:72-83 | every leaf of the nested dictionary is a flattened item, under its path's key and with its value |
| AnalysisCommon.PathKeyDots | src/monitor/stream_analisys_common.py:76 | the key of a path is its keys joined by `.`, behind `parent.` under a parent; at the top level an empty first key adds no dot |
| AnalysisCommon.NestedScalarKey | src/monitor/stream_analisys_common.py:75-82 | a scalar `c` inside the dictionary under a non-empty key `k` is written as `k.c` with its value |
| AnalysisCommon.Keys | src/monitor/stream_analisys_common.py:83 | the keys of the items, in order |
| AnalysisCommon.ToMapKeys | src/monitor/stream_analisys_common.py:83 | `dict(items)` has exactly the items' keys |
| AnalysisCommon.ToMapLastWins | src/monitor/stream_analisys_common.py:83 | in `dict(items)` a key maps to the value of its last item |
| AnalysisCommon.ToMapValueListed | src/monitor/stream_analisys_common.py:83 | every value of `dict(items)` is the value of one of its items |
| AnalysisCommon.FlattenDictLeaves | src/monitor/stream_analisys_common.py:72-83 | every key of `flatten_dict(d)` is the key of a leaf of `d`, and holds the value of a leaf written under it |
| AnalysisCommon.FlattenDictHasLeaf | src/monitor/stream_analisys_common.py:72-83 | the key of every leaf of `d` is in `flatten_dict(d)` |
| AnalysisCommon.FlattenDictUniqueLeaf | src/monitor/stream_analisys_common.py:72-83 | a leaf whose key no other leaf with a different value shares keeps its value in `flatten_dict(d)` |
| AnalysisCommon.FlattenKeepsScalars | src/monitor/stream_analysis_suite.py:298-308 | a dictionary without nested dictionaries or lists flattens to itself |
| AnalysisCommon.EmptyNestedDictVanishes | src/monitor/stream_analisys_common.py:77-78 | an empty nested dictionary contributes no key |
| AnalysisCommon.BelowIrreflexive | src/monitor/stream_analisys_common.py:90 | Python's string order is irreflexive |
| AnalysisCommon.BelowTransitive | src/monitor/stream_analisys_common.py:90 | it is transitive |
| AnalysisCommon.BelowTotal | src/monitor/stream_analisys_common.py:90 | it is total on distinct strings |
| AnalysisCommon.BelowAsymmetric | src/monitor/stream_analisys_common.py:90 | it is asymmetric |
| AnalysisCommon.InsertKeepsSorted | src/monitor/stream_analisys_common.py:90 | inserting into a strictly sorted key list keeps it strictly sorted and adds exactly the key |
| AnalysisCommon.SortedKeys | src/monitor/stream_analisys_common.py:90 | `sorted(set)` is strictly ascending and holds exactly the given keys |
| AnalysisCommon.SortedIsUnique | src/monitor/stream_analisys_common.py:90 | two strictly sorted lists with the same elements are equal, so the header does not depend on the order the keys were met |
| AnalysisCommon.MapSeq | src/monitor/stream_analisys_common.py:89 | `[flatten_dict(entry) for entry in data]`, element by element |
| AnalysisCommon.KeyInSomeEntry | src/monitor/stream_analisys_common.py:89-90 | a key is in the union exactly when some flattened entry has it |
| AnalysisCommon.AllKeysAreFlattenedKeys | src/monitor/stream_analisys_common.py:89-90 | the same, for all keys at once |
| AnalysisCommon.CsvHeader | src/monitor/stream_analisys_common.py:85-93 | no header (nothing written) exactly for empty data; otherwise a strictly sorted list of exactly the keys of the flattened entries |
| AnalysisCommon.CsvPathOfJson | src/monitor/stream_analisys_common.py:105 | `path.replace('.json', '.csv')` turns `stem.json` into `stem.csv` |
| Adaptation.CurrentSegmentInfo | src/monitor/stream_adaptation_analyzer.py:107-134 | a segment record exists only for a template with non-empty media whose URL (`$Number$` replaced by `startNumber`) answered 200; it carries the representation's bandwidth, codec and `WxH` |
| Adaptation.InsertByBandwidth | src/monitor/stream_adaptation_analyzer.py:155 | inserting one representation lengthens the list by one |
| Adaptation.InsertByBandwidthSorted | src/monitor/stream_adaptation_analyzer.py:155 | insertion keeps the list ascending by bandwidth |
| Adaptation.InsertByBandwidthPermutes | src/monitor/stream_adaptation_analyzer.py:155 | insertion adds exactly the one representation |
| Adaptation.SortByBandwidth | src/monitor/stream_adaptation_analyzer.py:155 | the sort keeps the number of representations |
| Adaptation.SortByBandwidthSorted | src/monitor/stream_adaptation_analyzer.py:155 | `representations.sort(key=bandwidth)` is ascending by bandwidth |
| Adaptation.SortByBandwidthPermutes | src/monitor/stream_adaptation_analyzer.py:155 | the sort is a permutation of the representations |
| Adaptation.InsertByBandwidthStable | src/monitor/stream_adaptation_analyzer.py:155 | insertion puts the new representation before all others of its bandwidth and keeps their order |
| Adaptation.SortByBandwidthStable | src/monitor/stream_adaptation_analyzer.py:155 | the sort is stable: for every bandwidth, the representations of that bandwidth keep their manifest order |
| Adaptation.SegmentsOf | src/monitor/stream_adaptation_analyzer.py:158-162 | at most one segment record per representation |
| Adaptation.SegmentBitrates | src/monitor/stream_adaptation_analyzer.py:168 | `[seg['bitrate'] for seg in current_segments]`, element by element |
| Adaptation.MetricsOf | src/monitor/stream_adaptation_analyzer.py:167-177 | `bitrate_levels` is the number of segments; min and max bound every bitrate and are among them; `bitrate_range = max - min`; the resolutions are exactly those of the segments |
| Adaptation.AnalyzeAdaptationBehavior | src/monitor/stream_adaptation_analyzer.py:136-179 | no analysis exactly when the manifest could not be read; otherwise the analysis of its sets |
| Adaptation.SegmentsOfSorted | src/monitor/stream_adaptation_analyzer.py:155-162 | the reachable segments of sorted representations are in ascending bitrate order |
| Adaptation.CurrentIsMinimum | src/monitor/stream_adaptation_analyzer.py:155-175 | `current_bitrate` is always `min_bitrate` |
| Adaptation.MetricsNeedReachable | src/monitor/stream_adaptation_analyzer.py:150-167 | a metrics block comes from a video set with a reachable representation |
| Adaptation.ReachableGivesMetrics | src/monitor/stream_adaptation_analyzer.py:150-167 | a video set with a reachable representation always yields a metrics block |
| Adaptation.DirectionMeaning | src/monitor/stream_adaptation_analyzer.py:209-215 | `upgrade` exactly when a current bitrate exceeds every previous one; `downgrade` exactly when it is not an upgrade and a current bitrate is below every previous one |
| Adaptation.BitrateSetIsList | src/monitor/stream_adaptation_analyzer.py:194-198 | the set of bitrates holds exactly the bitrates of the current segments |
| Adaptation.DetectReportsChange | src/monitor/stream_adaptation_analyzer.py:190-218 | with a history, at most one event; an event exactly when the bitrate sets differ, carrying the previous and current sets |
| Adaptation.DetectFailure | src/monitor/stream_adaptation_analyzer.py:201-215 | detection raises exactly when the sets differ and one of them is empty |
| Adaptation.StuckAfterEmptyPoll | src/monitor/stream_adaptation_analyzer.py:201-220 | after a stored poll without segments, any poll with segments raises |
| Adaptation.CurrentBitrates | src/monitor/stream_adaptation_analyzer.py:237-240 | at most one `current_bitrate` per stored poll |
| Adaptation.CountDirection | src/monitor/stream_adaptation_analyzer.py:250-251 | a direction count is at most the number of events |
| Adaptation.Stability | src/monitor/stream_adaptation_analyzer.py:260 | the stability score is in [0, 1]; 0 for a mean of at most 0; otherwise positive, and 1 exactly when the variance is 0 |
| Adaptation.DirectionCountsBounded | src/monitor/stream_adaptation_analyzer.py:250-251 | `upgrade_events + downgrade_events <= len(events)` |
| Adaptation.CurrentBitratesEmpty | src/monitor/stream_adaptation_analyzer.py:237-243 | no current bitrate exactly when no stored poll has a metrics block |
| Adaptation.AggregateProperties | src/monitor/stream_adaptation_analyzer.py:228-261 | `{}` exactly when no stored poll has metrics; otherwise `upgrade + downgrade <= total == len(events)`, `switching_frequency = total / len(history)` (the history is not empty here, so `max(1, ...)` is that length), variance >= 0 and stability in [0, 1]; for a positive mean bitrate, stability is 1 exactly when all recorded current bitrates are equal |
| Adaptation.AdaptationAnalyzer.constructor | src/monitor/stream_adaptation_analyzer.py:21-41 | a stopped analyzer with empty history, switching log and data |
| Adaptation.AdaptationAnalyzer.DetectSwitchingEvents | src/monitor/stream_adaptation_analyzer.py:181-226 | on success the poll is appended to the history trimmed to 100 and the event to the never-trimmed log; on failure neither changes; the result is `Detect` |
| Adaptation.AdaptationAnalyzer.CalculateAdaptationMetrics | src/monitor/stream_adaptation_analyzer.py:228-261 | the aggregate of the current history and switching log |
| Adaptation.AdaptationAnalyzer.AnalyzeOnce | src/monitor/stream_adaptation_analyzer.py:324-377 | one loop pass: without a manifest, or when detection raises, nothing changes; otherwise the history, log and data grow by this poll, its events and its result |
| Adaptation.AdaptationAnalyzer.Stop | src/monitor/stream_adaptation_analyzer.py:438-440 | clears `running` and nothing else |
| Adaptation.HistoryIsLastPolls | src/monitor/stream_adaptation_analyzer.py:220-224 | from an empty history, the history after any run of polls is the last 100 of them, in order |
| Latency.ManifestRecord | src/monitor/stream_latency_analyzer.py:37-66 | a success record exactly for a response, with its latency and HTTP status; a timeout or error record carries no latency and the error text |
| Latency.SegmentRecord | src/monitor/stream_latency_analyzer.py:111-143 | the same shapes for a segment, each carrying its URL |
| Latency.FirstMediaUrl | src/monitor/stream_latency_analyzer.py:160-170 | a URL exactly when some representation has a template with media; it is the first such one, with `$Number$` replaced by `1` |
| Latency.MediaUrls | src/monitor/stream_latency_analyzer.py:157-170 | at most one URL per adaptation set |
| Latency.FirstMediaUrlOf | src/monitor/stream_latency_analyzer.py:161-170 | the representation loop with its `break` finds that first URL |
| Latency.GetSegmentUrls | src/monitor/stream_latency_analyzer.py:145-176 | no URL when the manifest cannot be read; otherwise the first 2 of one URL per video set |
| Latency.Latencies | src/monitor/stream_latency_analyzer.py:183 | at most one latency per record |
| Latency.CountStatus | src/monitor/stream_latency_analyzer.py:203-204 | a status count is at most the number of records |
| Latency.LatenciesEmpty | src/monitor/stream_latency_analyzer.py:183-185 | no successful latency exactly when every record's latency is `None` |
| Latency.StatusCountsBounded | src/monitor/stream_latency_analyzer.py:203-205 | `timeouts + errors <= total` |
| Latency.RatesBounded | src/monitor/stream_latency_analyzer.py:207-208 | both rates are >= 0 and add up to at most 1 |
| Latency.BufferingMetricsProperties | src/monitor/stream_latency_analyzer.py:178-219 | `{}` exactly for an empty window; the all-`None` block exactly when no record has a latency; otherwise `min <= avg <= max`, variance >= 0, rates in [0, 1] with sum <= 1, `total_measurements = len(window)` and `successful_measurements <= total` |
| Latency.NoLatencyRates | src/monitor/stream_latency_analyzer.py:185-193 | without any latency the metrics are the all-`None` block, with `timeout_rate` and `error_rate` both 1.0, whatever the statuses |
| Latency.SegmentRecords | src/monitor/stream_latency_analyzer.py:253-256 | one record per segment URL |
| Latency.MeasureSegments | src/monitor/stream_latency_analyzer.py:251-261 | the segment loop produces those records in order |
| Latency.SegmentRecordsPerUrl | src/monitor/stream_latency_analyzer.py:253-256 | every segment record is well formed and names one of the URLs |
| Latency.PollOnce | src/monitor/stream_latency_analyzer.py:234-279 | one loop pass appends the manifest record, the segment records and the poll's result |
| Latency.LatencyAnalyzer.constructor | src/monitor/stream_latency_analyzer.py:20-35 | a stopped analyzer with no data |
| Latency.LatencyAnalyzer.RunAnalysis | src/monitor/stream_latency_analyzer.py:221-296 | after the loop, `latency_data` is the old data followed by one result per poll, computed from fresh local histories |
| Latency.LatencyAnalyzer.Stop | src/monitor/stream_latency_analyzer.py:382-384 | clears `running` and nothing else |
| Latency.WindowMetricsBounded | src/monitor/stream_latency_analyzer.py:264-265 | a summary of the window counts at most 50 records |
| Latency.PollResultBounded | src/monitor/stream_latency_analyzer.py:264-265 | the result of any poll summarises at most 50 manifest and 50 segment records |
| Latency.StepKeepsWindowsBounded | src/monitor/stream_latency_analyzer.py:264-279 | one pass keeps every recorded summary within 50 records |
| Latency.ManifestRecords | src/monitor/stream_latency_analyzer.py:238-239 | one manifest record per poll |
| Latency.RunAppendsResults | src/monitor/stream_latency_analyzer.py:229-279 | the run appends one result per poll and only appends to the histories |
| Latency.RunManifestHistory | src/monitor/stream_latency_analyzer.py:229-239 | the manifest history is the start history followed by one record per poll |
| Latency.ManifestHistoryAt | src/monitor/stream_latency_analyzer.py:239 | the history seen by poll `n` is the start history with the records of polls 0 to `n` |
| Latency.RunKeepsWindowsBounded | src/monitor/stream_latency_analyzer.py:229-279 | every summary of a run covers at most 50 records |
| Latency.RunResultsGrow | src/monitor/stream_latency_analyzer.py:279 | results of an earlier point of the run are a prefix of the later ones |
| Latency.ResultOfPoll | src/monitor/stream_latency_analyzer.py:264-279 | the `n`th result is computed from the state after the first `n` polls |
| Latency.ResultWindow | src/monitor/stream_latency_analyzer.py:264 | the `n`th result's manifest metrics summarise the last 50 manifest records up to and including poll `n` |
| Latency.SegmentHistoryGrowth | src/monitor/stream_latency_analyzer.py:250-256 | each poll adds at most 2 well-formed segment records |
| Quality.FetchManifest | src/monitor/stream_quality_analyzer.py:40-90 | the manifest summary, or `None` when the manifest or an `int(bandwidth)` fails |
| Quality.ManifestSummaryCounts | src/monitor/stream_quality_analyzer.py:61-84 | one `video_streams` per video set, not per representation, and likewise for audio and text; their sum is at most `adaptation_sets` |
| Quality.RepeatCounts | src/monitor/stream_quality_analyzer.py:231-232 | one parsed `r` per `S` element |
| Quality.GatheredIsCappedLength | src/monitor/stream_quality_analyzer.py:229-240 | with every `r` parsed, the count collected is `min(5, sum of max(0, r + 1))` |
| Quality.GatheredIgnoresRest | src/monitor/stream_quality_analyzer.py:237-240 | once 5 numbers are gathered, later `S` elements are never read |
| Quality.Consecutive | src/monitor/stream_quality_analyzer.py:230-236 | a run of `count` numbers |
| Quality.ConsecutiveAt | src/monitor/stream_quality_analyzer.py:230-236 | number `i` of the run is `start + i` |
| Quality.TimelineNumbers | src/monitor/stream_quality_analyzer.py:229-240 | the timeline loop yields consecutive numbers from `startNumber`, as many as gathered, or fails on an unparsable `r` |
| Quality.ConvertRepeat | src/monitor/stream_quality_analyzer.py:232 | `int(s.get('r', '0'))` for one `S` element |
| Quality.CountUp | src/monitor/stream_quality_analyzer.py:233-238 | the inner loop adds `max(0, r + 1)` consecutive numbers, stopping at 5 |
| Quality.SegmentNumbers | src/monitor/stream_quality_analyzer.py:227-243 | the numbers are consecutive from `startNumber`, as many as the timeline gives, or two without a timeline |
| Quality.SegmentNumbersShape | src/monitor/stream_quality_analyzer.py:241-243 | without a timeline the numbers are exactly `[startNumber, startNumber + 1]`; there are never more than 5 |
| Quality.GatheredAtMostFive | src/monitor/stream_quality_analyzer.py:237-240 | never more than 5 numbers are gathered |
| Quality.FirstVideoSet | src/monitor/stream_quality_analyzer.py:215-217 | the set examined is a video set of the manifest; none exactly when no set is video |
| Quality.RepsPairsSource | src/monitor/stream_quality_analyzer.py:218-249 | a non-empty result comes from a single representation |
| Quality.RepPairsShape | src/monitor/stream_quality_analyzer.py:220-248 | pairs exist only for a template with media and initialization and a parsable `startNumber`; at most 5, all sharing one init URL, pair `i` numbered `startNumber + i` |
| Quality.SegmentUrlsShape | src/monitor/stream_quality_analyzer.py:203-255 | at most 5 pairs, all from one representation of the first video set |
| Quality.PairsOf | src/monitor/stream_quality_analyzer.py:245-248 | the URL loop builds one pair per segment number |
| Quality.RepresentationPairs | src/monitor/stream_quality_analyzer.py:220-249 | the loop body over one representation, as its specification function says |
| Quality.GetSegmentUrls | src/monitor/stream_quality_analyzer.py:203-255 | the nested loops with their `break`s compute the specified list |
| Quality.Probes | src/monitor/stream_quality_analyzer.py:287-308 | at most one result per concatenated file and one file per pair; "last file probed" implies a result exists |
| Quality.BitratesOf | src/monitor/stream_quality_analyzer.py:321 | the bitrates of the results, in order |
| Quality.PresentSsims | src/monitor/stream_quality_analyzer.py:322 | at most one SSIM per result |
| Quality.ProbesOf | src/monitor/stream_quality_analyzer.py:287 | one probe outcome per pair |
| Quality.AnalyzeSegments | src/monitor/stream_quality_analyzer.py:285-317 | the segment loop and the SSIM step: SSIM goes on the last concatenated file's result; if that file's probe failed, Python raises |
| Quality.PollOnce | src/monitor/stream_quality_analyzer.py:265-343 | one pass records an analysis as the specification function says |
| Quality.PresentSsimsNone | src/monitor/stream_quality_analyzer.py:322-326 | no SSIM values when no result has one |
| Quality.ProbesCarryNoSsim | src/monitor/stream_quality_analyzer.py:301-303 | probing alone never sets an SSIM |
| Quality.AverageSsimIsPairSsim | src/monitor/stream_quality_analyzer.py:309-326 | `avg_ssim` equals `ssim_between_segments`, which is present only when two or more files were concatenated |
| Quality.AggregateBounds | src/monitor/stream_quality_analyzer.py:320-337 | `segments_analyzed` is the number of successful probes, at least 1; `avg_bitrate` lies between their lowest and highest bitrate |
| Quality.PollAnalysisBounds | src/monitor/stream_quality_analyzer.py:320-341 | a recorded analysis has 1 to 5 segments, `avg_ssim == ssim_between_segments`, the poll's timestamp and its manifest summary |
| Quality.Analyses | src/monitor/stream_quality_analyzer.py:265-343 | at most one analysis per poll |
| Quality.AnalysesBounded | src/monitor/stream_quality_analyzer.py:336 | every recorded analysis covers 1 to 5 segments |
| Quality.Timestamps | src/monitor/stream_quality_analyzer.py:267 | the polls' timestamps, in order |
| Quality.AnalysesFromPolls | src/monitor/stream_quality_analyzer.py:267-329 | every recorded analysis carries the timestamp of one of the polls |
| Quality.StreamQualityAnalyzer.constructor | src/monitor/stream_quality_analyzer.py:23-38 | a stopped analyzer with no data |
| Quality.StreamQualityAnalyzer.RunAnalysis | src/monitor/stream_quality_analyzer.py:257-361 | `quality_data` grows by exactly the analyses of the polls, in order |
| Quality.StreamQualityAnalyzer.Stop | src/monitor/stream_quality_analyzer.py:421-423 | clears `running` and nothing else |
| Suite.CalculateOverallMetrics | src/monitor/stream_analysis_suite.py:152-207 | the field-by-field assignments compute the specified overall metrics, or the `TypeError` of `min(1.0, None)` |
| Suite.RecommendationTextsDiffer | src/monitor/stream_analysis_suite.py:198-205 | the three recommendation texts are different |
| Suite.RecommendationsExact | src/monitor/stream_analysis_suite.py:198-205 | at most 3 recommendations; each appears exactly when its threshold is hit (quality < 0.7, latency < 0.8, adaptation < 0.6) |
| Suite.RecommendationsOrdered | src/monitor/stream_analysis_suite.py:198-205 | the recommendations appear in the fixed order quality, latency, adaptation |
| Suite.HealthIsMean | src/monitor/stream_analysis_suite.py:190-195 | the health score is the mean of the three scores, with missing ones as 0, so it lies between the lowest and highest of them |
| Suite.OverallMetricsFailure | src/monitor/stream_analysis_suite.py:163-171 | the computation fails exactly when the latest quality analysis has `avg_ssim = None` |
| Suite.ScoreBounds | src/monitor/stream_analysis_suite.py:163-187 | the quality score `min(1.0, avg_ssim)` is at most 1; the latency score is >= 0, at most 1 for a non-negative average, and 0 exactly when there is no data, no latency block, a zero average, or an average of at least 1000 ms |
| Suite.NoDataMetrics | src/monitor/stream_analysis_suite.py:154-205 | with no data every score is 0.0 and all three recommendations are emitted |
| Suite.LastOf | src/monitor/stream_analysis_suite.py:127 | `data[-1] if data else None` |
| Suite.SnapshotShape | src/monitor/stream_analysis_suite.py:209-242 | the snapshot copies the health, the three scores and the recommendations unchanged; the quality block appears exactly when there is quality data (and then has an SSIM), the latency block exactly when the latest window had measurements, the adaptation block exactly when the latest adaptation result has metrics |
| Suite.StepWritesSnapshot | src/monitor/stream_analysis_suite.py:209-286 | a pass records a result exactly when its first `aggregate_results` succeeds, and records that aggregate; the dashboard file changes only when the second read (inside `generate_dashboard_data`) aggregates too, and then holds the snapshot of that second read; the second read fails exactly when it raised or its latest quality analysis has no SSIM |
| Suite.SameReadSnapshot | src/monitor/stream_analysis_suite.py:209-273 | when the analyzers saved nothing between the two reads, the snapshot is written and shows the scores and recommendations of the result just recorded |
| Suite.RunKeepsSnapshot | src/monitor/stream_analysis_suite.py:262-286 | once a snapshot exists, later passes only replace it, and each pass records at most one result |
| Suite.IntervalsFloor | src/monitor/stream_analysis_suite.py:48-50 | the latency interval is `interval // 6` and the adaptation interval `interval // 3`, floor division included |
| Suite.StreamAnalysisSuite.constructor | src/monitor/stream_analysis_suite.py:23-54 | three fresh stopped analyzers with intervals `interval`, `interval // 6`, `interval // 3`; no data and no snapshot |
| Suite.StreamAnalysisSuite.RunOnce | src/monitor/stream_analysis_suite.py:263-286 | one pass: the first read's aggregate is appended to `suite_data`, and the dashboard snapshot is rewritten from the second, independent read, as the step function says |
| Suite.StreamAnalysisSuite.RunSuite | src/monitor/stream_analysis_suite.py:250-296 | the loop's results and snapshot are those of the fold over the passes |
| Suite.StreamAnalysisSuite.Stop | src/monitor/stream_analysis_suite.py:366-369 | the suite and its three analyzers stop; no data of any of them changes |
| Suite.ModeOf | src/monitor/stream_analysis_suite.py:386-407 | `--quality-only` wins, then `--latency-only`, then `--adaptation-only`; the full suite runs when none is given |
| Suite.ModeInterval | src/monitor/stream_analysis_suite.py:388-402 | the single-analyzer modes use `interval`, `interval // 6` and `interval // 3` |
| Monitor.SplitLines | src/monitor/stream_monitor.py:111 | `split('\n')` yields at least one piece |
| Monitor.SplitLinesJoin | src/monitor/stream_monitor.py:111 | joining the pieces with newlines gives back the text |
| Monitor.SplitLinesNoNewline | src/monitor/stream_monitor.py:111 | no piece contains a newline |
| Monitor.AttributeValue | src/monitor/stream_monitor.py:126 | `line.split('X=')[1].split(',')[0]` contains no comma |
| Monitor.TagOf | src/monitor/stream_monitor.py:121-122 | a line is a variant line exactly when, stripped, it starts with `#EXT-X-STREAM-INF` |
| Monitor.CodecsValue | src/monitor/stream_monitor.py:133-134 | the CODECS value neither starts nor ends with `"` |
| Monitor.StripQuotesEnds | src/monitor/stream_monitor.py:134 | `strip('"')` leaves no quote at either end |
| Monitor.TagsOf | src/monitor/stream_monitor.py:120-121 | one classified line per line |
| Monitor.TagsOfAt | src/monitor/stream_monitor.py:120-121 | line `i` is classified on its own |
| Monitor.HlsFailureSticks | src/monitor/stream_monitor.py:127 | once `int(bandwidth)` raises, the rest of the playlist does not matter |
| Monitor.AddLine | src/monitor/stream_monitor.py:122-135 | the loop body over one line, as its specification function says |
| Monitor.AnalyzeHlsManifest | src/monitor/stream_monitor.py:109-137 | the line loop computes the specified playlist summary |
| Monitor.HlsCounts | src/monitor/stream_monitor.py:120-135 | `variants` is the number of variant lines, and each list has at most `variants` entries |
| Monitor.HlsFailsOnBadBandwidth | src/monitor/stream_monitor.py:125-127 | the parse raises exactly when some variant line's BANDWIDTH value is not an integer |
| Monitor.HlsIgnoresOtherLines | src/monitor/stream_monitor.py:120-122 | lines that are not variant lines change nothing |
| Monitor.BitratesFailure | src/monitor/stream_monitor.py:81-84 | an `int(bandwidth)` failure in one video set makes the whole DASH analysis fail |
| Monitor.AnalyzeDashManifest | src/monitor/stream_monitor.py:54-107 | the set loop computes the specified DASH summary |
| Monitor.LastCountAbsent | src/monitor/stream_monitor.py:67-69 | a type without any set keeps the count 0 |
| Monitor.LastCountIsLastSet | src/monitor/stream_monitor.py:75-101 | a per-type count is assigned, not summed: it is the representation count of the last set of that type |
| Monitor.AnalyzeManifest | src/monitor/stream_monitor.py:34-52 | dispatch on content type or URL suffix, as the specification function says |
| Monitor.ManifestAnalysisKinds | src/monitor/stream_monitor.py:40-48 | a summary only after a successful fetch; DASH exactly for an `mpd` content type or `.mpd` URL; nothing for an unrecognised type |
| Monitor.CheckSegmentAccessibility | src/monitor/stream_monitor.py:139-168 | the check loop computes the specified counters |
| Monitor.ChecksCounts | src/monitor/stream_monitor.py:148-163 | accessible + failed = number checked; one response time per accessible segment and one error per failed one |
| Monitor.AccessibilityCounts | src/monitor/stream_monitor.py:139-168 | at most `max_checks` URLs are checked, with the counters above; an average response time exactly when some segment was accessible, and it lies between the lowest and highest time |
| Monitor.NetworkInfoOf | src/monitor/stream_monitor.py:185-204 | the status is `ok` exactly for an HTTP 200 answer and `error` otherwise; a response time exactly for an answer; an error text exactly for a request failure |
| Monitor.BitrateStatsOf | src/monitor/stream_monitor.py:207-213 | `bitrate_stats` exists exactly when there are bitrates |
| Monitor.BitrateStatsBounds | src/monitor/stream_monitor.py:207-213 | min and max are bitrates bounding all of them, `count = len`, and `min <= avg <= max` |
| Monitor.CollectMetrics | src/monitor/stream_monitor.py:170-215 | one collection as the specification function says |
| Monitor.MetricsWellFormed | src/monitor/stream_monitor.py:181-213 | a collected entry is well formed (status `ok` or `error`, statistics consistent) |
| Monitor.CountStatus | src/monitor/stream_monitor.py:289-292 | `statuses.count(x)` is at most the number of entries |
| Monitor.AllBitrates | src/monitor/stream_monitor.py:296-300 | min, avg and max of every entry with statistics, so a multiple of three values |
| Monitor.Percentage | src/monitor/stream_monitor.py:291 | `count('ok') / n * 100` is in [0, 100] and equals 100·ok/n |
| Monitor.StatusesPartition | src/monitor/stream_monitor.py:289-292 | every entry is `ok` or `error`, so the two counts add up to the number of entries |
| Monitor.ReportRates | src/monitor/stream_monitor.py:273-293 | no report exactly for no metrics; otherwise the total, first and last timestamps, `success_rate = 100·#ok/n` in [0, 100] and `total_errors = n − #ok` |
| Monitor.AllBitratesHas | src/monitor/stream_monitor.py:296-300 | each entry's min and max are among the collected values |
| Monitor.AllBitratesEmpty | src/monitor/stream_monitor.py:296-297 | no collected values exactly when no entry has statistics |
| Monitor.ReportBitrates | src/monitor/stream_monitor.py:295-306 | bitrate statistics exactly when some entry has them; `min <= avg <= max`, and they bound every entry's min and max |
| Monitor.MonitorRunStops | src/monitor/stream_monitor.py:228-252 | an exception other than a request error ends the loop; later polls are never made |
| Monitor.MonitorRunWellFormed | src/monitor/stream_monitor.py:232-234 | at most one entry per poll, each well formed |
| Monitor.StreamMonitor.constructor | src/monitor/stream_monitor.py:17-21 | a monitor for the URL with no metrics |
| Monitor.StreamMonitor.MonitorStream | src/monitor/stream_monitor.py:217-255 | the metrics grow by the entries collected; the result is the final report of all metrics, or the exception that ended the loop |
| Dashboard.BandOf | src/dashboard/dashboard.py:57-69 | EXCELENTE/status-ok exactly for health >= 0.8, BUENO/status-ok for [0.6, 0.8), REGULAR/status-warning for [0.4, 0.6), CRÍTICO/status-error below 0.4; a missing health counts as 0 |
| Dashboard.BandMonotone | src/dashboard/dashboard.py:58-69 | a higher health score never gets a worse band |
| Dashboard.MissingHealthIsCritical | src/dashboard/dashboard.py:57 | a snapshot without `overall_health` shows CRÍTICO |
| Dashboard.RecommendationLines | src/dashboard/dashboard.py:121-132 | one `<p>• rec</p>` line per recommendation, in order |
| Dashboard.SuiteViewShows | src/dashboard/dashboard.py:56-132 | the page fails exactly on a `None` SSIM or latency; otherwise it shows the snapshot's scores unchanged and the band of its health; the recommendations card is empty exactly when there are none; missing adaptation fields show 0 |
| Dashboard.SuiteSnapshotRenders | src/dashboard/dashboard.py:83-102 | for a snapshot the suite wrote, the page fails exactly when the latest latency window had records but no latency |
| Dashboard.MonitorBand | src/dashboard/dashboard.py:185-192 | ERROR/status-error exactly when `network_info` exists and its status (`unknown` when missing) is not `ok`; OK otherwise |
| Dashboard.MetricsPageChoice | src/dashboard/dashboard.py:52-192 | the suite snapshot wins; otherwise the waiting card without a file and "Sin datos" for an empty list; for the latest monitor entry the page fails exactly when its `bitrate_stats` has no `avg`, and otherwise shows that entry's band, the manifest card when it has manifest info and the bitrate card when it has statistics |
| Dashboard.RecordOf | src/dashboard/dashboard.py:188-214 | how a monitor entry reads back: it has `network_info`, and `bitrate_stats` exactly when the entry had statistics |
| Dashboard.RecordsOf | src/dashboard/dashboard.py:167-182 | one record per entry; the last record is that of the last entry |
| Dashboard.MonitorEntriesRender | src/dashboard/dashboard.py:182-223 | on the monitor's own entries the fallback never fails, shows the manifest card, and is OK exactly when the latest connectivity check answered 200 |

## Left out

- Network I/O: `requests`, `fetch_mpd_root`, `download_segment` and the wall-clock timing of requests. Their outcomes are inputs.
- External tools: the ffprobe and ffmpeg subprocesses (`analyze_segment_quality`, `analyze_ssim`, `analyze_ssim_between_segments`), including the `eval` of `r_frame_rate`. A probe's bitrate and the SSIM value are inputs.
- XML parsing. The manifest is given as a datatype.
- ElementTree's truth value of elements. `if segment_template:` is read as "a SegmentTimeline child is present" (`Mpd.HasChildElement`); elements other than SegmentTimeline are not represented. `if period:` is read as "a Period exists".
- `urljoin`: an uninterpreted function parameter.
- Threads and loop control: `start_analyzers`, the joins in `stop_analyzers`, `time.sleep` and KeyboardInterrupt. The polling loops run over a finite sequence of poll inputs instead of `while self.running`.
- Clock values: `datetime.now()`, `session_duration` and the ISO timestamps. They are inputs.
- Output and persistence:
  - the JSON dump and load of result files;
  - the CSV rows (the header and the file name are modelled);
  - text reports (`generate_report`, `generate_comprehensive_report`, `generate_final_report`'s file and prints);
  - `print_summary`, logging and the matplotlib charts (`generate_charts`, `adaptation_plot`);
  - the suite reads the analyzers' data from their JSON files; the model passes the analyzers' data lists directly.
- Floating point: exact `real` arithmetic replaces IEEE doubles.
- `int()` accepts ASCII digits only. Python also accepts other Unicode decimal digits.
- `fetch_manifest_info` in the adaptation analyzer: its XML-to-record conversion (`int(bandwidth)`, `width`, `height`) and its call to `extract_manifest_info` are not modelled. Its result, or its failure, is an input of `Adaptation.AdaptationAnalyzer.AnalyzeOnce`.
- `analyze_segment_availability` in the latency analyzer: its `segment_info` holds floats computed from `duration/timescale` and is only stored, so the record leaves it out.
- The latency loop's printing at src/monitor/stream_latency_analyzer.py:283-286. It raises `KeyError` when the segment window is empty. This happens after the result has already been appended, so the recorded data is not affected.
- The suite's `flatten_dict` and `save_tabular_log` (src/monitor/stream_analysis_suite.py:298-320) are identical to the common ones, and the same members model them.
- The Flask routes and HTML strings. A page is modelled by what it shows: its band, its values and which cards appear.
- The dashboard's handling of a JSON file that fails to parse is not modelled.
- The suite's reads of the analyzers' files are inputs of each pass, two per pass. A read that raises is one outcome (`None`); why it raised (a missing key, a file caught half written) is not modelled.
- The `manifest_info` entry of each adaptation analysis, which holds the representations as sorted in place, is not kept in `Adaptation.Analysis`. The sort itself is modelled (`Adaptation.SortByBandwidth`, stable), and so is its effect on the segment records.
- `monitor/dashboard.py` and `src/monitor/test_tools.py` are not part of this model: the first only renders the last entry, and the second checks the environment.
- `main` of each analyzer, other than the suite's mode dispatch: argument parsing and process start.
- Monitor.HlsCounts: the HLS parser splits attribute lists at every comma, so a quoted CODECS list such as `"avc1,mp4a"` is cut at its first comma. The model reproduces this cut exactly as the code does; it does not model the quoted-string attribute syntax of section 4.2 of RFC 8216.
