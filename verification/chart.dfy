/** The timeline chart's data: the most recent samples, re-indexed from 0
    and mapped to a plotted engagement level (src/components/EngagementChart.tsx). */
module Chart {
  import opened Emotion

  /** How many trailing samples the chart plots. */
  const Window: nat := 20

  /** One plotted point: its position in the window and its level. */
  datatype ChartPoint = ChartPoint(time: nat, engagement: nat)

  function Min(a: int, b: int): int
  {
    if a <= b then a else b
  }

  /** The plotted level of a status. */
  function Level(s: EngagementStatus): (v: nat)
    ensures v in {0, 50, 100}
    ensures v == 100 <==> s == Attentive
    ensures v == 50 <==> s == Distracted
    ensures v == 0 <==> s == Drowsy
  {
    if s == Attentive then 100
    else if s == Distracted then 50
    else assert s.Drowsy?; 0
  }

  /** `s.slice(begin)`: a negative `begin` counts back from the end and is
      clamped at the start; a non-negative one is clamped at the end. The
      result is always a suffix of `s`. */
  function SliceFrom<T>(s: seq<T>, begin: int): (r: seq<T>)
    ensures begin < 0 ==> |r| == Min(-begin, |s|)
    ensures begin >= 0 ==> |r| == |s| - Min(begin, |s|)
    ensures forall i :: 0 <= i < |r| ==> r[i] == s[|s| - |r| + i]
  {
    var start :=
      if begin < 0 then (if |s| + begin > 0 then |s| + begin else 0)
      else (if begin < |s| then begin else |s|);
    s[start..]
  }

  /** `chartData`: the last `min(20, n)` samples in their original order,
      point i at time i with the level of its sample. */
  function ChartData(data: seq<EmotionData>): (points: seq<ChartPoint>)
    ensures |points| == Min(Window, |data|)
    ensures forall i :: 0 <= i < |points| ==> points[i].time == i
    ensures forall i :: 0 <= i < |points| ==>
              points[i].engagement == Level(data[|data| - |points| + i].engagement)
  {
    var recent := SliceFrom(data, -(Window as int));
    seq(|recent|, i requires 0 <= i < |recent| => ChartPoint(i, Level(recent[i].engagement)))
  }

  /** The plotted levels, left to right. */
  function Levels(points: seq<ChartPoint>): (vs: seq<nat>)
    ensures |vs| == |points|
  {
    seq(|points|, i requires 0 <= i < |points| => points[i].engagement)
  }

  /** Times run 0, 1, ..., k-1 and strictly increase; every level is 0, 50
      or 100. */
  lemma ChartAxes(data: seq<EmotionData>)
    ensures forall i, j :: 0 <= i < j < |ChartData(data)| ==> ChartData(data)[i].time < ChartData(data)[j].time
    ensures forall i :: 0 <= i < |ChartData(data)| ==> ChartData(data)[i].engagement in {0, 50, 100}
  {
  }

  /** Up to 20 samples are plotted whole and in order. */
  lemma ShortHistoryPlottedWhole(data: seq<EmotionData>)
    requires |data| <= Window
    ensures |ChartData(data)| == |data|
    ensures forall i :: 0 <= i < |data| ==> ChartData(data)[i].engagement == Level(data[i].engagement)
  {
  }

  /** Appending a sample adds its level at the right end; once the window
      is full, the oldest level drops off the left end. */
  lemma ChartAfterAppend(data: seq<EmotionData>, x: EmotionData)
    ensures |data| < Window ==>
              Levels(ChartData(data + [x])) == Levels(ChartData(data)) + [Level(x.engagement)]
    ensures |data| >= Window ==>
              Levels(ChartData(data + [x])) == Levels(ChartData(data))[1..] + [Level(x.engagement)]
  {
    var d' := data + [x];
    var p, p' := ChartData(data), ChartData(d');
    var before, after := Levels(p), Levels(p');
    var shift := if |data| < Window then 0 else 1;
    var expected := before[shift..] + [Level(x.engagement)];
    assert |after| == |expected|;
    forall i | 0 <= i < |after| ensures after[i] == expected[i] {
      if i < |after| - 1 {
        assert after[i] == Level(d'[|d'| - |p'| + i].engagement);
        assert before[i + shift] == Level(data[|data| - |p| + i + shift].engagement);
      }
    }
    assert after == expected;
  }
}
