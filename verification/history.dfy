/** Counting over a session history, shared by the metric tiles and the
    insights panel: the length of `data.filter(pred)` for a status or an
    emotion predicate. */
module History {
  import opened Emotion

  /** Number of samples whose engagement is `s`. Defined from the last
      sample backwards, so that appending a sample unfolds it at once. */
  function CountStatus(data: seq<EmotionData>, s: EngagementStatus): (c: nat)
    ensures c <= |data|
  {
    if |data| == 0 then 0
    else CountStatus(data[..|data| - 1], s) + (if data[|data| - 1].engagement == s then 1 else 0)
  }

  /** Number of samples whose emotion is `e`. */
  function CountEmotion(data: seq<EmotionData>, e: EmotionType): (c: nat)
    ensures c <= |data|
  {
    if |data| == 0 then 0
    else CountEmotion(data[..|data| - 1], e) + (if data[|data| - 1].emotion == e then 1 else 0)
  }

  /** Each sample has exactly one status, so the three status counts
      partition the history. */
  lemma {:induction false} StatusCountsPartition(data: seq<EmotionData>)
    ensures CountStatus(data, Attentive) + CountStatus(data, Distracted) + CountStatus(data, Drowsy) == |data|
  {
    if |data| > 0 {
      StatusCountsPartition(data[..|data| - 1]);
    }
  }

  /** Sum of the emotion counts over the seven labels. */
  function SumEmotionCounts(data: seq<EmotionData>, labels: seq<EmotionType>): nat
  {
    if |labels| == 0 then 0
    else CountEmotion(data, labels[0]) + SumEmotionCounts(data, labels[1..])
  }

  /** Dropping the last sample lowers the sum over `labels` by the number
      of times its emotion occurs in `labels`. */
  lemma {:induction false} SumEmotionCountsStep(data: seq<EmotionData>, labels: seq<EmotionType>)
    requires |data| > 0
    ensures SumEmotionCounts(data, labels)
         == SumEmotionCounts(data[..|data| - 1], labels) + multiset(labels)[data[|data| - 1].emotion]
  {
    if |labels| > 0 {
      SumEmotionCountsStep(data, labels[1..]);
      assert labels == [labels[0]] + labels[1..];
    }
  }

  /** Over an empty history every label counts zero. */
  lemma {:induction false} SumEmotionCountsEmpty(labels: seq<EmotionType>)
    ensures SumEmotionCounts([], labels) == 0
  {
    if |labels| > 0 {
      SumEmotionCountsEmpty(labels[1..]);
    }
  }

  /** Each sample has exactly one emotion, so the seven emotion counts
      partition the history. */
  lemma {:induction false} EmotionCountsPartition(data: seq<EmotionData>)
    ensures SumEmotionCounts(data, AllEmotions) == |data|
  {
    if |data| > 0 {
      EmotionCountsPartition(data[..|data| - 1]);
      SumEmotionCountsStep(data, AllEmotions);
      var e := data[|data| - 1].emotion;
      assert multiset(AllEmotions)[e] == 1 by {
        match e
        case Happy =>
        case Neutral =>
        case Sad =>
        case Angry =>
        case Surprised =>
        case Fearful =>
        case Disgust =>
      }
    } else {
      SumEmotionCountsEmpty(AllEmotions);
    }
  }

  /** When every sample has status `s`, that status counts the whole
      history and the other two count nothing. */
  lemma {:induction false} UniformStatusCounts(data: seq<EmotionData>, s: EngagementStatus)
    requires forall i :: 0 <= i < |data| ==> data[i].engagement == s
    ensures CountStatus(data, s) == |data|
    ensures forall t :: t != s ==> CountStatus(data, t) == 0
  {
    if |data| > 0 {
      UniformStatusCounts(data[..|data| - 1], s);
    }
  }

  /** For samples built by the detector, the attentive count is the number
      of happy plus neutral samples (and likewise for the other statuses). */
  lemma {:induction false} StatusCountFromEmotions(data: seq<EmotionData>)
    requires forall i :: 0 <= i < |data| ==> WellFormed(data[i])
    ensures CountStatus(data, Attentive) == CountEmotion(data, Happy) + CountEmotion(data, Neutral)
    ensures CountStatus(data, Distracted)
         == CountEmotion(data, Sad) + CountEmotion(data, Angry) + CountEmotion(data, Disgust)
    ensures CountStatus(data, Drowsy) == CountEmotion(data, Surprised) + CountEmotion(data, Fearful)
  {
    if |data| > 0 {
      StatusCountFromEmotions(data[..|data| - 1]);
    }
  }

  /** Appending a sample raises exactly the counts of its own status and
      its own emotion, by one. */
  lemma AppendCounts(data: seq<EmotionData>, x: EmotionData)
    ensures forall s :: CountStatus(data + [x], s) == CountStatus(data, s) + (if x.engagement == s then 1 else 0)
    ensures forall e :: CountEmotion(data + [x], e) == CountEmotion(data, e) + (if x.emotion == e then 1 else 0)
  {
    assert (data + [x])[..|data|] == data;
  }
}
