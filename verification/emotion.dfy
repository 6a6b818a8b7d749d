/** Vocabulary of the dashboard: the seven emotion labels, the three
    engagement statuses, the sample and student records, and the three
    lookup tables keyed by them (src/types/emotion.ts). */
module Emotion {

  /** The closed set of emotion labels, in declaration order. */
  datatype EmotionType = Happy | Neutral | Sad | Angry | Surprised | Fearful | Disgust

  /** The closed set of engagement statuses, in declaration order. */
  datatype EngagementStatus = Attentive | Distracted | Drowsy

  /** Every emotion once, in declaration order. This is also the key order
      of every record literal keyed by emotion, hence the order in which
      such a record's entries are enumerated. */
  const AllEmotions: seq<EmotionType> := [Happy, Neutral, Sad, Angry, Surprised, Fearful, Disgust]

  /** One observation: confidence is a real number, timestamp epoch milliseconds. */
  datatype EmotionData = EmotionData(
    emotion: EmotionType,
    confidence: real,
    engagement: EngagementStatus,
    timestamp: int)

  /** The tracked subject with a cached projection of its latest sample. */
  datatype StudentData = StudentData(
    id: string,
    name: string,
    currentEmotion: EmotionType,
    engagement: EngagementStatus,
    confidence: real,
    history: seq<EmotionData>)

  /** The label's spelling in the source's string union. */
  function NameOf(e: EmotionType): string
  {
    match e
    case Happy => "happy"
    case Neutral => "neutral"
    case Sad => "sad"
    case Angry => "angry"
    case Surprised => "surprised"
    case Fearful => "fearful"
    case Disgust => "disgust"
  }

  /** Distinct labels are spelled differently, so the shown name
      determines the label. */
  lemma NamesInjective(e1: EmotionType, e2: EmotionType)
    ensures NameOf(e1) == NameOf(e2) <==> e1 == e2
  {
    if e1 != e2 {
      assert NameOf(e1)[0] != NameOf(e2)[0] || |NameOf(e1)| != |NameOf(e2)|;
    }
  }

  /** Position of an emotion in declaration order; used for tie-breaks. */
  function Rank(e: EmotionType): (k: nat)
    ensures k < |AllEmotions| && AllEmotions[k] == e
  {
    match e
    case Happy => 0
    case Neutral => 1
    case Sad => 2
    case Angry => 3
    case Surprised => 4
    case Fearful => 5
    case Disgust => 6
  }

  /** The emotion-to-engagement table: the first two tests of the source,
      falling through to Drowsy for the remaining labels. */
  function EngagementOf(e: EmotionType): (s: EngagementStatus)
    ensures s == Attentive <==> e in {Happy, Neutral}
    ensures s == Distracted <==> e in {Sad, Angry, Disgust}
    ensures s == Drowsy <==> e in {Surprised, Fearful}
  {
    if e == Happy || e == Neutral then Attentive
    else if e == Sad || e == Angry || e == Disgust then Distracted
    else
      // only the two startled labels are left
      assert e.Surprised? || e.Fearful?;
      Drowsy
  }

  /** The emotions that map to a given status. */
  function Preimage(s: EngagementStatus): set<EmotionType>
  {
    set e | e in AllEmotions && EngagementOf(e) == s
  }

  /** The three preimages are non-empty, pairwise disjoint and together
      cover every emotion: the table is a partition of the labels. */
  lemma EngagementPartition()
    ensures forall s: EngagementStatus :: Preimage(s) != {}
    ensures Preimage(Attentive) == {Happy, Neutral}
    ensures Preimage(Distracted) == {Sad, Angry, Disgust}
    ensures Preimage(Drowsy) == {Surprised, Fearful}
    ensures Preimage(Attentive) !! Preimage(Distracted)
    ensures Preimage(Attentive) !! Preimage(Drowsy)
    ensures Preimage(Distracted) !! Preimage(Drowsy)
    ensures forall e: EmotionType :: e in Preimage(EngagementOf(e))
  {
    forall e: EmotionType ensures e in AllEmotions {
      assert AllEmotions[Rank(e)] == e;
    }
    assert Happy in Preimage(Attentive);
    assert Sad in Preimage(Distracted);
    assert Surprised in Preimage(Drowsy);
  }

  /** Badge colour name per status. */
  function ColorOf(s: EngagementStatus): (c: string)
    ensures c in {"success", "warning", "danger"}
  {
    match s
    case Attentive => "success"
    case Distracted => "warning"
    case Drowsy => "danger"
  }

  /** Distinct statuses get distinct colours. */
  lemma ColorsInjective(s1: EngagementStatus, s2: EngagementStatus)
    ensures ColorOf(s1) == ColorOf(s2) <==> s1 == s2
  {
    if s1 != s2 {
      assert ColorOf(s1)[0] != ColorOf(s2)[0];
    }
  }

  /** Emoji per emotion: one Unicode code point each. */
  function EmojiOf(e: EmotionType): (s: string)
    ensures |s| == 1
  {
    match e
    case Happy => "\U{1F60A}"
    case Neutral => "\U{1F610}"
    case Sad => "\U{1F622}"
    case Angry => "\U{1F620}"
    case Surprised => "\U{1F632}"
    case Fearful => "\U{1F628}"
    case Disgust => "\U{1F922}"
  }

  /** The seven emojis are pairwise distinct. */
  lemma EmojisInjective(e1: EmotionType, e2: EmotionType)
    ensures EmojiOf(e1) == EmojiOf(e2) <==> e1 == e2
  {
    if e1 != e2 {
      assert EmojiOf(e1)[0] != EmojiOf(e2)[0];
    }
  }

  /** A sample built by the detector carries the engagement of its emotion. */
  ghost predicate WellFormed(d: EmotionData)
  {
    d.engagement == EngagementOf(d.emotion)
  }
}
