/** The insights panel: the unrounded attentive share, the per-emotion
    tally and its most common label, the session duration derived from the
    sample count, and the three-band suggestion (src/components/InsightsPanel.tsx). */
module Insights {
  import opened Emotion
  import opened History
  import opened Wrappers

  /** An exact non-negative fraction `num / den`; the source's floating
      point division is modelled without rounding. */
  datatype Fraction = Fraction(num: nat, den: nat)

  /** `engagementPercentage`: `(attentive / n) * 100` as an exact fraction
      when the history is non-empty, 0 otherwise. */
  function EngagementPercentage(data: seq<EmotionData>): (p: Fraction)
    ensures p.den > 0
    ensures p.num <= 100 * p.den
    ensures |data| == 0 ==> p.num == 0
    ensures |data| > 0 ==> p.num * |data| == 100 * CountStatus(data, Attentive) * p.den
  {
    var n, c := |data|, CountStatus(data, Attentive);
    if n > 0 then Fraction(100 * c, n) else Fraction(0, 1)
  }

  /** The `emotionCounts` record: seven zeroed keys, then one increment per
      sample in history order. */
  method TallyEmotions(data: seq<EmotionData>) returns (counts: map<EmotionType, nat>)
    ensures forall e: EmotionType :: e in counts && counts[e] == CountEmotion(data, e)
  {
    counts := map[Happy := 0, Neutral := 0, Sad := 0, Angry := 0, Surprised := 0, Fearful := 0, Disgust := 0];
    forall e: EmotionType ensures e in counts && counts[e] == CountEmotion(data[..0], e) {
      match e
      case Happy =>
      case Neutral =>
      case Sad =>
      case Angry =>
      case Surprised =>
      case Fearful =>
      case Disgust =>
    }
    var i := 0;
    while i < |data|
      invariant 0 <= i <= |data|
      invariant forall e: EmotionType :: e in counts && counts[e] == CountEmotion(data[..i], e)
    {
      assert data[..i + 1][..i] == data[..i];
      counts := counts[data[i].emotion := counts[data[i].emotion] + 1];
      i := i + 1;
    }
    assert data[..|data|] == data;
  }

  /** One `[label, count]` pair of `Object.entries(emotionCounts)`. */
  datatype Entry = Entry(emotion: EmotionType, count: nat)

  /** `Object.entries(emotionCounts)`: the pairs in key insertion order,
      which is declaration order. */
  function Entries(data: seq<EmotionData>): (es: seq<Entry>)
    ensures |es| == |AllEmotions|
    ensures forall e: EmotionType :: es[Rank(e)] == Entry(e, CountEmotion(data, e))
  {
    seq(|AllEmotions|, i requires 0 <= i < |AllEmotions| => Entry(AllEmotions[i], CountEmotion(data, AllEmotions[i])))
  }

  /** One step of a stable sort under the comparator `(a, b) => b - a` on
      counts: `x`, which preceded every element of `s`, goes in front of the
      first element whose count does not exceed its own. */
  function InsertByCount(x: Entry, s: seq<Entry>): (r: seq<Entry>)
    ensures multiset(r) == multiset(s) + multiset{x}
    ensures |r| == |s| + 1
  {
    if |s| == 0 || x.count >= s[0].count then [x] + s
    else
      assert s == [s[0]] + s[1..];
      [s[0]] + InsertByCount(x, s[1..])
  }

  /** The head after one insertion step. */
  lemma InsertHead(x: Entry, s: seq<Entry>)
    ensures InsertByCount(x, s)[0] == (if |s| == 0 || x.count >= s[0].count then x else s[0])
  {
  }

  /** Inserting into a sorted sequence keeps it sorted. */
  lemma {:induction false} InsertKeepsSorted(x: Entry, s: seq<Entry>)
    requires SortedByCount(s)
    ensures SortedByCount(InsertByCount(x, s))
  {
    if |s| > 0 && x.count < s[0].count {
      var tail := s[1..];
      InsertKeepsSorted(x, tail);
      InsertKeepsBound(x, tail, s[0].count);
      assert InsertByCount(x, s) == [s[0]] + InsertByCount(x, tail);
    }
  }

  /** A bound on every count, the inserted entry's included, bounds every
      count after the insertion. */
  lemma {:induction false} InsertKeepsBound(x: Entry, s: seq<Entry>, bound: nat)
    requires x.count <= bound
    requires forall i :: 0 <= i < |s| ==> s[i].count <= bound
    ensures forall j :: 0 <= j < |InsertByCount(x, s)| ==> InsertByCount(x, s)[j].count <= bound
  {
    if |s| > 0 && x.count < s[0].count {
      InsertKeepsBound(x, s[1..], bound);
      assert InsertByCount(x, s) == [s[0]] + InsertByCount(x, s[1..]);
    }
  }

  /** Non-increasing counts. */
  ghost predicate SortedByCount(s: seq<Entry>)
  {
    forall i, j :: 0 <= i < j < |s| ==> s[i].count >= s[j].count
  }

  /** The stable sort by descending count, as an insertion sort: a
      permutation of its input (sorted by `SortByCountSorted`). */
  function SortByCount(s: seq<Entry>): (r: seq<Entry>)
    ensures multiset(r) == multiset(s)
    ensures |r| == |s|
  {
    if |s| == 0 then []
    else
      assert s == [s[0]] + s[1..];
      InsertByCount(s[0], SortByCount(s[1..]))
  }

  /** The sort's output has non-increasing counts. */
  lemma {:induction false} SortByCountSorted(s: seq<Entry>)
    ensures SortedByCount(SortByCount(s))
  {
    if |s| > 0 {
      SortByCountSorted(s[1..]);
      InsertKeepsSorted(s[0], SortByCount(s[1..]));
    }
  }

  /** `k` is the first position holding the largest count of `s`. */
  ghost predicate IsFirstMax(s: seq<Entry>, k: int)
  {
    && 0 <= k < |s|
    && (forall j :: 0 <= j < |s| ==> s[j].count <= s[k].count)
    && (forall j :: 0 <= j < k ==> s[j].count < s[k].count)
  }

  /** The head of the stable descending sort is the first entry with the
      largest count: ties go to the entry that came first. */
  lemma {:induction false} SortHeadIsFirstMax(s: seq<Entry>) returns (k: nat)
    requires |s| > 0
    ensures IsFirstMax(s, k) && SortByCount(s)[0] == s[k]
  {
    if |s| == 1 {
      k := 0;
    } else {
      var tail := s[1..];
      var kt := SortHeadIsFirstMax(tail);
      var t := SortByCount(tail);
      assert s == [s[0]] + tail;
      assert SortByCount(s) == InsertByCount(s[0], t);
      InsertHead(s[0], t);
      FirstMaxCons(s[0], tail, kt);
      if s[0].count >= tail[kt].count {
        k := 0;
      } else {
        k := kt + 1;
        assert s[k] == tail[kt];
      }
    }
  }

  /** Putting `x` in front of a sequence whose first maximum is at `k`:
      `x` becomes the first maximum when its count is at least as large. */
  lemma FirstMaxCons(x: Entry, tail: seq<Entry>, k: int)
    requires IsFirstMax(tail, k)
    ensures x.count >= tail[k].count ==> IsFirstMax([x] + tail, 0)
    ensures x.count < tail[k].count ==> IsFirstMax([x] + tail, k + 1)
  {
    var s := [x] + tail;
    assert forall j :: 1 <= j < |s| ==> s[j] == tail[j - 1];
  }

  /** `mostCommon`: the head of the sorted entries, if there is one. It
      always exists, and its label has the largest count, with ties going to
      the label declared first. */
  function MostCommonEntry(data: seq<EmotionData>): (m: Option<Entry>)
    ensures m.Some?
    ensures m.Some? ==> m.value.count == CountEmotion(data, m.value.emotion)
    ensures m.Some? ==> forall e :: CountEmotion(data, e) <= m.value.count
    ensures m.Some? ==> forall e :: Rank(e) < Rank(m.value.emotion) ==> CountEmotion(data, e) < m.value.count
  {
    var entries := Entries(data);
    var sorted := SortByCount(entries);
    if |sorted| > 0 then
      MostCommonIsFirstMax(data);
      Some(sorted[0])
    else
      None
  }

  lemma MostCommonIsFirstMax(data: seq<EmotionData>)
    ensures var m := SortByCount(Entries(data))[0];
            && m.count == CountEmotion(data, m.emotion)
            && (forall e :: CountEmotion(data, e) <= m.count)
            && (forall e :: Rank(e) < Rank(m.emotion) ==> CountEmotion(data, e) < m.count)
  {
    var entries := Entries(data);
    var k := SortHeadIsFirstMax(entries);
    assert Rank(entries[k].emotion) == k;
    forall e ensures CountEmotion(data, e) <= entries[k].count {
      assert entries[Rank(e)].count == CountEmotion(data, e);
    }
    forall e | Rank(e) < k ensures CountEmotion(data, e) < entries[k].count {
      assert entries[Rank(e)].count == CountEmotion(data, e);
    }
  }

  /** A label whose count beats every other label's is the most common,
      whatever its position. */
  lemma MostCommonStrictMax(data: seq<EmotionData>, e: EmotionType)
    requires forall other :: other != e ==> CountEmotion(data, other) < CountEmotion(data, e)
    ensures MostCommonEntry(data) == Some(Entry(e, CountEmotion(data, e)))
  {
    var m := MostCommonEntry(data).value;
    assert CountEmotion(data, e) <= m.count == CountEmotion(data, m.emotion);
  }

  /** The most-common line of the panel: the label, or the fallback text
      when there is no entry. */
  function MostCommonLabel(data: seq<EmotionData>): (s: string)
    ensures s != "Not enough data"
  {
    match MostCommonEntry(data)
    case Some(m) => NameOf(m.emotion)
    case None => "Not enough data"
  }

  /** With no samples every count is 0 and the tie-break picks happy. */
  lemma MostCommonOfEmpty()
    ensures MostCommonEntry([]) == Some(Entry(Happy, 0))
  {
  }

  /** `totalMinutes`: floor(2n / 60), from the sample count alone. */
  function TotalMinutes(data: seq<EmotionData>): (m: nat)
    ensures 30 * m <= |data| < 30 * m + 30
  {
    (|data| * 2) / 60
  }

  /** Duration is monotone in the number of samples and blind to their
      contents, timestamps included. */
  lemma TotalMinutesMonotone(d1: seq<EmotionData>, d2: seq<EmotionData>)
    requires |d1| <= |d2|
    ensures TotalMinutes(d1) <= TotalMinutes(d2)
    ensures |d1| == |d2| ==> TotalMinutes(d1) == TotalMinutes(d2)
  {
  }

  /** The unit after the minute count: `minute` plus `s` unless the count
      is exactly 1. */
  function MinuteUnit(m: nat): (u: string)
    ensures u == "minute" <==> m == 1
    ensures u == "minute" || u == "minutes"
  {
    "minute" + (if m != 1 then "s" else "")
  }

  /** The singular unit shows exactly for 30 to 59 samples. */
  lemma SingularMinuteExactly(data: seq<EmotionData>)
    ensures MinuteUnit(TotalMinutes(data)) == "minute" <==> 30 <= |data| < 60
  {
    var m := TotalMinutes(data);
    if 30 <= |data| < 60 {
      assert m == 1;
    }
  }

  /** The three suggestion bands. */
  datatype Suggestion = IncreaseInteraction | VaryMethods | Excellent

  /** `p < bound` for the fraction p. */
  predicate Below(p: Fraction, bound: nat)
    requires p.den > 0
  {
    p.num < bound * p.den
  }

  /** `getSuggestion`: below 60, below 80, otherwise. */
  function SuggestionFor(p: Fraction): (s: Suggestion)
    requires p.den > 0
    ensures s == IncreaseInteraction <==> Below(p, 60)
    ensures s == VaryMethods <==> !Below(p, 60) && Below(p, 80)
    ensures s == Excellent <==> !Below(p, 80)
  {
    if Below(p, 60) then IncreaseInteraction
    else if Below(p, 80) then VaryMethods
    else Excellent
  }

  function SuggestionText(s: Suggestion): string
  {
    match s
    case IncreaseInteraction => "Consider increasing class interaction or taking a short break."
    case VaryMethods => "Good engagement! Try varying teaching methods to maintain interest."
    case Excellent => "Excellent engagement! Students are highly focused."
  }

  /** The three bands show three different texts. */
  lemma SuggestionTextsDistinct(s1: Suggestion, s2: Suggestion)
    ensures SuggestionText(s1) == SuggestionText(s2) <==> s1 == s2
  {
    var low, mid, high := SuggestionText(IncreaseInteraction), SuggestionText(VaryMethods), SuggestionText(Excellent);
    assert low != mid;
    assert low != high;
    assert mid != high;
  }

  /** The suggestion for a history, stated on its integer counts: with n
      samples of which c are attentive, the bands are 5c < 3n,
      3n <= 5c < 4n and 4n <= 5c; an empty history gets the first band. */
  lemma SuggestionFromCounts(data: seq<EmotionData>)
    ensures var n, c := |data|, CountStatus(data, Attentive);
            var s := SuggestionFor(EngagementPercentage(data));
            && (s == IncreaseInteraction <==> n == 0 || 5 * c < 3 * n)
            && (s == VaryMethods <==> n > 0 && 3 * n <= 5 * c < 4 * n)
            && (s == Excellent <==> n > 0 && 4 * n <= 5 * c)
  {
  }
}
