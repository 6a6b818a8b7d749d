/** Whole-page walkthroughs: the page state after concrete event
    sequences, and what the metric tiles, chart and insights panel show for
    it. */
module Scenarios {
  import opened Emotion
  import opened History
  import opened Wrappers
  import Session
  import Metrics
  import Insights
  import Chart

  /** A sample as the detector builds it. */
  function Sample(e: EmotionType, at: int): (d: EmotionData)
    ensures WellFormed(d)
  {
    EmotionData(e, 0.9, EngagementOf(e), at)
  }

  /** Before any sample only the welcome text is shown. */
  lemma FreshPage()
    ensures Session.Visible(Session.Initial) == Session.Sections(false, false, false, true)
    ensures Metrics.EngagementTiles(Session.Initial.emotionHistory) == Metrics.Tiles(0, 0, 0)
  {
  }

  /** One happy sample: the student is attentive with the happy emoji,
      metrics and status are shown, chart and insights are not. */
  lemma OneHappySample()
    ensures var s := Session.Run([Session.Toggle, Session.Detected(Sample(Happy, 0))]);
            && s.student.engagement == Attentive
            && EmojiOf(s.student.currentEmotion) == EmojiOf(Happy)
            && Session.Visible(s) == Session.Sections(true, true, false, false)
  {
    var evs := [Session.Toggle, Session.Detected(Sample(Happy, 0))];
    assert evs[..1] == [Session.Toggle];
    assert [Session.Toggle][..0] == [];
  }

  /** Six samples: happy, happy, sad, neutral, angry, happy, two seconds apart. */
  function SixSamples(): (h: seq<EmotionData>)
    ensures |h| == 6
  {
    [Sample(Happy, 0), Sample(Happy, 2000), Sample(Sad, 4000),
     Sample(Neutral, 6000), Sample(Angry, 8000), Sample(Happy, 10000)]
  }

  /** Their tallies: happy 3, neutral, sad and angry 1 each; 4 attentive. */
  lemma SixSamplesCounts()
    ensures CountEmotion(SixSamples(), Happy) == 3
    ensures CountEmotion(SixSamples(), Neutral) == 1
    ensures CountEmotion(SixSamples(), Sad) == 1
    ensures CountEmotion(SixSamples(), Angry) == 1
    ensures CountEmotion(SixSamples(), Surprised) == 0
    ensures CountEmotion(SixSamples(), Fearful) == 0
    ensures CountEmotion(SixSamples(), Disgust) == 0
    ensures CountStatus(SixSamples(), Attentive) == 4
  {
    var h1 := [Sample(Happy, 0)];
    assert h1 == [] + h1;
    AppendCounts([], Sample(Happy, 0));
    var h2 := h1 + [Sample(Happy, 2000)];
    AppendCounts(h1, Sample(Happy, 2000));
    var h3 := h2 + [Sample(Sad, 4000)];
    AppendCounts(h2, Sample(Sad, 4000));
    var h4 := h3 + [Sample(Neutral, 6000)];
    AppendCounts(h3, Sample(Neutral, 6000));
    var h5 := h4 + [Sample(Angry, 8000)];
    AppendCounts(h4, Sample(Angry, 8000));
    AppendCounts(h5, Sample(Happy, 10000));
    assert SixSamples() == h5 + [Sample(Happy, 10000)];
  }

  /** Happy is most common with 3. */
  lemma SixSamplesMostCommon()
    ensures Insights.MostCommonEntry(SixSamples()) == Some(Insights.Entry(Happy, 3))
  {
    SixSamplesCounts();
    forall other | other != Happy ensures CountEmotion(SixSamples(), other) < 3 {
      match other
      case Neutral =>
      case Sad =>
      case Angry =>
      case Surprised =>
      case Fearful =>
      case Disgust =>
    }
    Insights.MostCommonStrictMax(SixSamples(), Happy);
  }

  /** 4 of 6 attentive shows as 67% and falls in the middle suggestion
      band; with more than five samples the chart and insights are shown,
      the chart plotting all six. */
  lemma SixSamplesPanels()
    ensures Metrics.EngagementTiles(SixSamples()).attentive == 67
    ensures Insights.SuggestionFor(Insights.EngagementPercentage(SixSamples())) == Insights.VaryMethods
    ensures Session.Visible(Session.PageState(true, SixSamples(), Session.InitialStudent)).chartAndInsights
    ensures |Chart.ChartData(SixSamples())| == 6
  {
    SixSamplesCounts();
  }
}
