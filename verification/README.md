# EduVision engagement tracker — Dafny model

EduVision is a single-page classroom engagement tracker. While tracking is
on, a timer fires every two seconds and the simulated classifier makes one
sample: an emotion label picked by weighted random draw, a confidence in
[0.7, 1.0), the engagement status derived from the label, and a timestamp.
Every sample is appended to the page's shared history, and the single
tracked student caches the latest one. Several panels are derived from that
history:

- three metric tiles: the attentive, distracted and drowsy shares, each rounded half up;
- a timeline of the last 20 samples;
- an insights panel: the unrounded attentive share, the per-emotion tally and its most common label, the session length and a three-band suggestion.

The model is written in pure Dafny functions over immutable datatypes. The
few loops of the source are methods with loop invariants. Its modules are:

| file | module | models |
|---|---|---|
| `wrappers.dfy` | `Wrappers` | `Option` |
| `emotion.dfy` | `Emotion` | the label and status enums, the records, the status/colour/emoji tables (`src/types/emotion.ts`) |
| `history.dfy` | `History` | per-status and per-label counts over a history, and how they partition it |
| `metrics.dfy` | `Metrics` | the three rounded tiles (`src/components/EngagementMetrics.tsx`) |
| `insights.dfy` | `Insights` | the insights panel (`src/components/InsightsPanel.tsx`) |
| `chart.dfy` | `Chart` | the timeline's data (`src/components/EngagementChart.tsx`) |
| `detector.dfy` | `Detector` | the bucket pick, the emitted sample, the arming guard and the interval cleanup (`src/components/EmotionDetector.tsx`) |
| `session.dfy` | `Session` | the page state, its two handlers, the section visibility, one timer firing (`src/pages/Index.tsx`) |
| `scenarios.dfy` | `Scenarios` | concrete walkthroughs of the whole page |

Modelling decisions:

- **Random draws and the clock are parameters.** The two `Math.random()` draws are `r` (the label) and `u` (the confidence). `Date.now()` is `now`.
- **The bucket pick uses exact reals.** The weights and the subtraction loop are written over `real`.
- **`Math.round` is modelled as half-up rounding of the exact ratio.** A rounded share `p` of `count` out of `total` is characterised by `2·total·p <= 200·count + total < 2·total·p + 2·total`.
- **The insights share is an exact fraction.** It is `Fraction(100·c, n)`, and the suggestion thresholds are compared against it without rounding.
- **The sort is an insertion sort.** JavaScript's `Array.prototype.sort` is stable, so `Object.entries(...).sort((a, b) => b - a)` is modelled as a stable insertion sort by descending count. Entries keep the order in which their keys were inserted, which is declaration order.

Three behaviours of the code, stated precisely:

- **Confidence range:** `0.7 + Math.random() * 0.3` is at least 0.7 and strictly below 1.0, so the range is the half-open [0.7, 1.0) (`Detector.Confidence`).
- **Most common emotion:** the tally always has seven keys, so the sorted entries are never empty. The "Not enough data" fallback can therefore never show (`Insights.MostCommonLabel`). An empty history reports `happy` with count 0 (`Insights.MostCommonOfEmpty`). The page hides the panel until there are six samples.
- **Tie-break:** on a tie, the most common label is the first one in declaration order, because the sort is stable (`Insights.MostCommonEntry`).

## Model

| member | source | states |
|---|---|---|
| Emotion.Rank | src/types/emotion.ts:1 | each label sits at its own position in the declaration order happy … disgust |
| Emotion.NameOf | src/types/emotion.ts:1 | no contract: spells each label of the union; that the spellings are distinct is `Emotion.NamesInjective` |
| Emotion.NamesInjective | src/types/emotion.ts:1 | two labels have the same name only if they are equal |
| Emotion.EngagementOf | src/types/emotion.ts:21-25 | Attentive exactly for happy/neutral, Distracted exactly for sad/angry/disgust, Drowsy exactly for surprised/fearful |
| Emotion.EngagementPartition | src/types/emotion.ts:21-25 | the three preimages are non-empty, pairwise disjoint, cover every label, and are exactly the listed sets |
| Emotion.ColorOf | src/types/emotion.ts:27-31 | each status maps to one of success, warning, danger |
| Emotion.ColorsInjective | src/types/emotion.ts:27-31 | two statuses share a colour only if they are equal |
| Emotion.EmojiOf | src/types/emotion.ts:33-41 | each label maps to a single code point |
| Emotion.EmojisInjective | src/types/emotion.ts:33-41 | two labels share an emoji only if they are equal |
| History.CountStatus | src/components/EngagementMetrics.tsx:10-12 | `data.filter(d => d.engagement === s).length`, defined by recursion on the last sample; never more than the history length |
| History.CountEmotion | src/components/InsightsPanel.tsx:23-25 | the number of samples with a given label, defined by recursion on the last sample; never more than the history length |
| History.StatusCountsPartition | src/components/EngagementMetrics.tsx:10-12 | the attentive, distracted and drowsy counts add up to the history length |
| History.EmotionCountsPartition | src/components/InsightsPanel.tsx:13-25 | the seven per-label counts add up to the history length |
| History.UniformStatusCounts | src/components/EngagementMetrics.tsx:10-12 | a history with a single status counts every sample under it and none under the others |
| History.StatusCountFromEmotions | src/components/InsightsPanel.tsx:10-25 | for samples whose status comes from their label, each status count is the sum of the counts of its labels |
| History.AppendCounts | src/pages/Index.tsx:24 | appending a sample raises exactly its own status count and its own label count by one |
| Metrics.Denominator | src/components/EngagementMetrics.tsx:14 | the divisor is the history length, or 1 for an empty history |
| Metrics.RoundHalfUp | src/components/EngagementMetrics.tsx:15-17 | the result is within one half of num/den, with halves rounding up |
| Metrics.Percent | src/components/EngagementMetrics.tsx:15-17 | a rounded share lies in [0, 100], is 0 for count 0 and 100 for the full count |
| Metrics.RoundedShareBounds | src/components/EngagementMetrics.tsx:15-17 | any half-up rounded share of count ≤ total lies in [0, 100], with both extremes exact |
| Metrics.EngagementTiles | src/components/EngagementMetrics.tsx:9-17 | each tile is its status's share rounded half up; an empty history shows 0/0/0; otherwise the tiles sum to 99, 100 or 101 |
| Metrics.RoundedSharesSum | src/components/EngagementMetrics.tsx:15-17 | three half-up rounded shares of a partition of n > 0 sum to between 99 and 101 |
| Metrics.UniformHistoryTiles | src/components/EngagementMetrics.tsx:10-17 | a non-empty history with a single status shows 100 for it and 0 for the other two |
| Insights.EngagementPercentage | src/components/InsightsPanel.tsx:10-11 | the share equals 100·attentive/n for a non-empty history, is 0 for an empty one, and never exceeds 100 |
| Insights.TallyEmotions | src/components/InsightsPanel.tsx:13-25 | the tally has all seven keys, and each holds the number of samples with that label |
| Insights.Entries | src/components/InsightsPanel.tsx:27 | `Object.entries(emotionCounts)`: seven entries; the entry at a label's declaration position carries that label and its count |
| Insights.InsertByCount | src/components/InsightsPanel.tsx:27-28 | one stable-sort step: the result is the input plus the inserted entry, as a multiset |
| Insights.InsertKeepsSorted | src/components/InsightsPanel.tsx:27-28 | inserting into a sequence sorted by descending count keeps it sorted |
| Insights.InsertKeepsBound | src/components/InsightsPanel.tsx:27-28 | a bound on the inserted count and on every existing count bounds every count after the insertion |
| Insights.SortByCount | src/components/InsightsPanel.tsx:27-28 | the sort returns a permutation of its input, of the same length |
| Insights.SortByCountSorted | src/components/InsightsPanel.tsx:27-28 | the sort's output has non-increasing counts |
| Insights.SortHeadIsFirstMax | src/components/InsightsPanel.tsx:27-28 | the sorted head is the first entry holding the largest count |
| Insights.MostCommonIsFirstMax | src/components/InsightsPanel.tsx:13-28 | the sorted head carries its label's real count, no label has more, and every earlier-declared label has strictly fewer |
| Insights.MostCommonEntry | src/components/InsightsPanel.tsx:27-28 | an entry always exists, its label has the maximal count, and ties go to the earliest-declared label |
| Insights.MostCommonStrictMax | src/components/InsightsPanel.tsx:13-28 | a label whose count beats every other label's is the most common entry, with its count |
| Insights.MostCommonLabel | src/components/InsightsPanel.tsx:64 | the "Not enough data" fallback is never shown |
| Insights.MostCommonOfEmpty | src/components/InsightsPanel.tsx:13-28 | with no samples the most common entry is happy with count 0 |
| Insights.TotalMinutes | src/components/InsightsPanel.tsx:30 | the minute count m satisfies 30m ≤ n < 30m + 30 for n samples |
| Insights.TotalMinutesMonotone | src/components/InsightsPanel.tsx:30 | more samples never give fewer minutes, and the count depends only on the number of samples |
| Insights.MinuteUnit | src/components/InsightsPanel.tsx:54 | the unit is "minute" exactly when the count is 1, and "minutes" otherwise |
| Insights.SingularMinuteExactly | src/components/InsightsPanel.tsx:30-54 | the singular unit shows exactly for histories of 30 to 59 samples |
| Insights.SuggestionText | src/components/InsightsPanel.tsx:32-39 | no contract: the text shown for each band; `Insights.SuggestionTextsDistinct` states that the texts differ |
| Insights.SuggestionTextsDistinct | src/components/InsightsPanel.tsx:32-39 | the three bands show three different texts |
| Insights.SuggestionFor | src/components/InsightsPanel.tsx:32-39 | below 60 increase interaction, in [60, 80) vary methods, from 80 excellent, each as an iff |
| Insights.SuggestionFromCounts | src/components/InsightsPanel.tsx:10-39 | with c of n samples attentive: band 1 iff n = 0 or 5c < 3n; band 2 iff 3n ≤ 5c < 4n; band 3 iff 4n ≤ 5c |
| Chart.Level | src/components/EngagementChart.tsx:12 | 100 exactly for Attentive, 50 exactly for Distracted, 0 exactly for Drowsy |
| Chart.SliceFrom | src/components/EngagementChart.tsx:10 | `slice(begin)` returns the suffix of the clamped length |
| Chart.ChartData | src/components/EngagementChart.tsx:10-13 | there are min(20, n) points; point i has time i and the level of the i-th of the last min(20, n) samples |
| Chart.ChartAxes | src/components/EngagementChart.tsx:10-12 | times strictly increase, and every level is 0, 50 or 100 |
| Chart.ShortHistoryPlottedWhole | src/components/EngagementChart.tsx:10 | a history of up to 20 samples is plotted whole and in order |
| Chart.ChartAfterAppend | src/components/EngagementChart.tsx:10-13 | a new sample adds its level at the right end; once the window is full, the oldest level drops off the left |
| Detector.CumulativeEdges | src/components/EmotionDetector.tsx:89 | the cumulative weight edges are 0, .4, .7, .8, .85, .9, .95, 1 |
| Detector.BucketOfInterval | src/components/EmotionDetector.tsx:88-99 | a draw inside bucket i's half-open interval gets label i |
| Detector.PickEmotion | src/components/EmotionDetector.tsx:88-99 | the subtract-and-compare loop picks the same label as the interval table for every draw, and neutral for draws of 1 or more |
| Detector.UnitDrawHitsBucket | src/components/EmotionDetector.tsx:91-99 | every draw in [0, 1) lies in exactly one bucket and gets that bucket's label |
| Detector.BucketWidths | src/components/EmotionDetector.tsx:89 | each bucket is as wide as its weight, and the weights sum to 1 |
| Detector.Confidence | src/components/EmotionDetector.tsx:101 | a draw in [0, 1) gives a confidence in [0.7, 1.0) |
| Detector.ConfidenceInjective | src/components/EmotionDetector.tsx:101 | distinct draws give distinct confidences, so the confidence determines the draw |
| Detector.SampleOf | src/components/EmotionDetector.tsx:101-109 | the sample carries the picked label, that label's status, a confidence in [0.7, 1.0) and the given time |
| Detector.DetectEmotion | src/components/EmotionDetector.tsx:75-110 | a sample is emitted exactly when video, canvas and 2-D context are all present, and it is the sample for the draws |
| Detector.FinishLoad | src/components/EmotionDetector.tsx:38-56 | success and failure both end loading; the model counts as loaded exactly on success |
| Detector.ShouldArm | src/components/EmotionDetector.tsx:73 | the effect goes past its early return exactly when tracking is on, loading is over, and the video and canvas references exist |
| Detector.ClearCurrent | src/components/EmotionDetector.tsx:66-68 | a cleanup removes at most the interval the ref names, and removes it when the ref holds a truthy id; the ref, id source and pending flag are untouched (the unmount cleanup at lines 61-69 and the effect cleanup at lines 114-118 share this test) |
| Detector.MountIsTidy | src/components/EmotionDetector.tsx:17 | no interval is live and no cleanup is pending at mount |
| Detector.RunArmingEffect | src/components/EmotionDetector.tsx:72-119 | a run keeps the timer invariant, and afterwards an interval is live exactly when the guard holds |
| Detector.Unmount | src/components/EmotionDetector.tsx:61-69 | unmounting from a tidy state leaves no interval live |
| Detector.RunAll | src/components/EmotionDetector.tsx:72-119 | the arming effect re-run for each change of its inputs; from a tidy state, the state stays tidy and at most one interval is live |
| Detector.TimersStayTidy | src/components/EmotionDetector.tsx:61-119 | over any sequence of input changes: at most one interval is live, it is live exactly when the latest inputs pass the guard, and unmounting clears it |
| Session.InitialState | src/pages/Index.tsx:12-21 | the `Initial` state has tracking off, no samples and the demo student's defaults; it satisfies the page invariant and shows only the welcome text |
| Session.HandleEmotionDetected | src/pages/Index.tsx:23-32 | both histories gain the sample at the end; the student caches its label, status and confidence; identity and tracking flag are unchanged |
| Session.ToggleTracking | src/pages/Index.tsx:34-36 | the flag flips and nothing else changes |
| Session.ToggleTwice | src/pages/Index.tsx:34-36 | two clicks restore the state |
| Session.RunKeepsInvariant | src/pages/Index.tsx:12-36 | from the initial state, after any events: the student mirrors the shared history and caches the latest sample; the history is exactly the detected samples in order; tracking is on iff the click count is odd |
| Session.RunConsistent | src/pages/Index.tsx:12-36 | by induction over the events: the page invariant holds after any events |
| Session.RunHistory | src/pages/Index.tsx:13-24 | by induction over the events: the shared history is the detected samples in arrival order |
| Session.RunFlag | src/pages/Index.tsx:12-36 | by induction over the events: tracking is on iff the number of clicks is odd |
| Session.StepKeepsInvariant | src/pages/Index.tsx:23-36 | either handler preserves the page invariant |
| Session.Visible | src/pages/Index.tsx:86-125 | metrics and status show iff there is a sample; chart and insights iff there are more than five; the welcome text iff there is none |
| Session.Tick | src/components/EmotionDetector.tsx:72-112 | a timer firing changes nothing while tracking is off, and it appends exactly one sample iff tracking is on, loading is over and video, canvas and context are all present |
| Session.TickKeepsInvariant | src/pages/Index.tsx:23-32 | a firing keeps the page invariant, and every sample in the history carries its label's status |
| Scenarios.FreshPage | src/pages/Index.tsx:12-21 | the initial page shows only the welcome text, and its tiles read 0/0/0 |
| Scenarios.OneHappySample | src/pages/Index.tsx:23-110 | after a click and one happy sample, the student is attentive with the happy emoji, and metrics and status show while chart and insights do not |
| Scenarios.SixSamplesCounts | src/components/InsightsPanel.tsx:13-25 | for happy, happy, sad, neutral, angry, happy the tally is 3/1/1/1/0/0/0 and 4 samples are attentive |
| Scenarios.SixSamplesMostCommon | src/components/InsightsPanel.tsx:27-28 | for the same history the most common entry is happy with 3 |
| Scenarios.SixSamplesPanels | src/components/EngagementMetrics.tsx:15 | for the same history: the attentive tile reads 67, the suggestion is the middle band, chart and insights are shown, and the chart plots 6 points |

## Left out

- **Rendering:** the JSX markup, icons, class names and the Recharts line chart are not modelled. The chart is modelled only through the data it is given.
- **Student card:** `StudentCard.tsx` is not part of this model. It only displays the cached student fields, and those are modelled.
- **Camera:** camera acquisition (`getUserMedia`), stopping the stream tracks on unmount, and drawing the frame onto the canvas are browser I/O. They are left out. The model keeps only whether the video, canvas and context are present.
- **Classifier load:** the `pipeline` load is a foreign call. Only its two outcomes, success and failure, are modelled, as `Detector.FinishLoad`. The toasts and console output are left out. The loaded classifier is never used to classify, so its value is not modelled.
- **Random draws and clock:** `Math.random()` and `Date.now()` are parameters. Their distribution is not modelled, only the range of the draws.
- **Floating point:** IEEE-754 rounding is not modelled.
  - The weight subtraction uses exact reals, so draws within one ulp of a bucket edge may differ from the browser's result.
  - `Math.round` is applied to the exact ratio, so a share that lands within one ulp of .5 in floating point may round the other way.
  - The insights share is an exact fraction.
- **Timer scheduling:** the real-time behaviour of `setInterval` (the 2000 ms period, drift, ordering against React commits) is left out. `Session.Tick` models one firing. `Detector.RunAll` models the arming effect's re-runs for any sequence of input changes. The source also re-runs that effect after every sample, because the handler is re-created on each render; that is one such sequence.
- **React batching and closures:** each event is modelled as a whole state transition. `toggleTracking` negates the `isActive` of the render it was created in. The model assumes one re-render between clicks, so two clicks batched into one render are not modelled.
- **Label capitalisation:** the panel capitalises the most common label through CSS. The model keeps the lower-case name.
- **Confidence formatting:** how the confidence is formatted for display belongs to `StudentCard.tsx` and is left out.
- Insights.TotalMinutes: the duration is computed from the sample count alone, as in the source. The timestamps are never consulted, so a paused session's gaps are not measured.
