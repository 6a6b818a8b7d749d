/** The page's state: the tracking flag, the shared history, and the one
    tracked student with its cached projection; the two handlers that
    change it; and which sections are shown (src/pages/Index.tsx). */
module Session {
  import opened Emotion
  import Detector

  /** The page's three pieces of state. */
  datatype PageState = PageState(isActive: bool, emotionHistory: seq<EmotionData>, student: StudentData)

  const InitialStudent: StudentData := StudentData("1", "Demo Student", Neutral, Attentive, 0.0, [])

  /** Tracking off, no samples, the demo student at its defaults. */
  const Initial: PageState := PageState(false, [], InitialStudent)

  /** The student's cached fields are those of sample `d`. */
  predicate Projects(st: StudentData, d: EmotionData)
  {
    st.currentEmotion == d.emotion && st.engagement == d.engagement && st.confidence == d.confidence
  }

  /** `handleEmotionDetected`: both histories grow by the sample at the
      end and the student's cached fields are taken from it; nothing else
      changes. */
  function HandleEmotionDetected(s: PageState, data: EmotionData): (s': PageState)
    ensures |s'.emotionHistory| == |s.emotionHistory| + 1
    ensures s'.emotionHistory[..|s.emotionHistory|] == s.emotionHistory
    ensures s'.emotionHistory[|s.emotionHistory|] == data
    ensures |s'.student.history| == |s.student.history| + 1
    ensures s'.student.history[..|s.student.history|] == s.student.history
    ensures s'.student.history[|s.student.history|] == data
    ensures Projects(s'.student, data)
    ensures s'.student.id == s.student.id && s'.student.name == s.student.name
    ensures s'.isActive == s.isActive
  {
    var student' := s.student.(
      currentEmotion := data.emotion,
      engagement := data.engagement,
      confidence := data.confidence,
      history := s.student.history + [data]);
    PageState(s.isActive, s.emotionHistory + [data], student')
  }

  /** `toggleTracking`: flips the flag and touches nothing else. */
  function ToggleTracking(s: PageState): (s': PageState)
    ensures s'.isActive != s.isActive
    ensures s'.emotionHistory == s.emotionHistory && s'.student == s.student
  {
    s.(isActive := !s.isActive)
  }

  lemma ToggleTwice(s: PageState)
    ensures ToggleTracking(ToggleTracking(s)) == s
  {
  }

  /** The page invariant: the student's history mirrors the shared one,
      its identity is the demo student's, and its cached fields are the
      defaults before any sample and the latest sample's afterwards. */
  ghost predicate Consistent(s: PageState)
  {
    && s.student.history == s.emotionHistory
    && s.student.id == InitialStudent.id
    && s.student.name == InitialStudent.name
    && (|s.emotionHistory| == 0 ==> s.student == InitialStudent)
    && (|s.emotionHistory| > 0 ==> Projects(s.student, s.emotionHistory[|s.emotionHistory| - 1]))
  }

  /** The page starts with tracking off and no samples, shows only the
      welcome text, and already satisfies the page invariant. */
  lemma InitialState()
    ensures !Initial.isActive && Initial.emotionHistory == []
    ensures Initial.student.history == [] && Initial.student.confidence == 0.0
    ensures Initial.student.currentEmotion == Neutral && Initial.student.engagement == Attentive
    ensures Consistent(Initial)
    ensures Visible(Initial) == Sections(false, false, false, true)
  {
  }

  /** What can happen to the page: a detected sample or a click on the
      tracking button. */
  datatype Event = Detected(data: EmotionData) | Toggle

  function Step(s: PageState, ev: Event): PageState
  {
    match ev
    case Detected(d) => HandleEmotionDetected(s, d)
    case Toggle => ToggleTracking(s)
  }

  /** The state after the events, in order, starting from `Initial`. */
  function Run(evs: seq<Event>): PageState
  {
    if |evs| == 0 then Initial else Step(Run(evs[..|evs| - 1]), evs[|evs| - 1])
  }

  /** The samples among the events, in order. */
  function DetectedSamples(evs: seq<Event>): seq<EmotionData>
  {
    if |evs| == 0 then []
    else
      var last := evs[|evs| - 1];
      DetectedSamples(evs[..|evs| - 1]) + (if last.Detected? then [last.data] else [])
  }

  /** Number of clicks on the tracking button among the events. */
  function Toggles(evs: seq<Event>): nat
  {
    if |evs| == 0 then 0 else Toggles(evs[..|evs| - 1]) + (if evs[|evs| - 1].Toggle? then 1 else 0)
  }

  /** Whatever the events, the page invariant holds, the history is
      exactly the detected samples in arrival order, and tracking is on
      exactly after an odd number of clicks. */
  lemma RunKeepsInvariant(evs: seq<Event>)
    ensures Consistent(Run(evs))
    ensures Run(evs).emotionHistory == DetectedSamples(evs)
    ensures Run(evs).isActive <==> Toggles(evs) % 2 == 1
  {
    RunConsistent(evs);
    RunHistory(evs);
    RunFlag(evs);
  }

  lemma {:induction false} RunConsistent(evs: seq<Event>)
    ensures Consistent(Run(evs))
  {
    if |evs| > 0 {
      RunConsistent(evs[..|evs| - 1]);
      StepKeepsInvariant(Run(evs[..|evs| - 1]), evs[|evs| - 1]);
    }
  }

  lemma {:induction false} RunHistory(evs: seq<Event>)
    ensures Run(evs).emotionHistory == DetectedSamples(evs)
  {
    if |evs| > 0 {
      RunHistory(evs[..|evs| - 1]);
    }
  }

  lemma {:induction false} RunFlag(evs: seq<Event>)
    ensures Run(evs).isActive <==> Toggles(evs) % 2 == 1
  {
    if |evs| > 0 {
      RunFlag(evs[..|evs| - 1]);
    }
  }

  /** Either handler keeps the page invariant. */
  lemma StepKeepsInvariant(s: PageState, ev: Event)
    requires Consistent(s)
    ensures Consistent(Step(s, ev))
  {
  }

  /** The sections of the page that are shown. */
  datatype Sections = Sections(metrics: bool, status: bool, chartAndInsights: bool, welcome: bool)

  /** Visibility depends only on the history length: metrics and status
      once there is a sample, chart and insights after more than five, the
      welcome text only before the first. */
  function Visible(s: PageState): (v: Sections)
    ensures v.metrics <==> |s.emotionHistory| > 0
    ensures v.chartAndInsights <==> |s.emotionHistory| > 5
    ensures v.status == v.metrics
    ensures v.welcome <==> !v.metrics
    ensures v.chartAndInsights ==> v.metrics
  {
    var n := |s.emotionHistory|;
    Sections(n > 0, n > 0, n > 5, n == 0)
  }

  /** One firing of the sampling timer. An interval exists only while the
      arming guard holds, and a firing appends a sample only when the 2-D
      context is available as well. */
  function Tick(s: PageState, model: Detector.ModelLoad, surfaces: Detector.Surfaces, r: real, u: real, now: int): (s': PageState)
    ensures !s.isActive ==> s' == s
    ensures s'.isActive == s.isActive
    ensures s'.emotionHistory == s.emotionHistory || s'.emotionHistory == s.emotionHistory + [Detector.SampleOf(r, u, now)]
    ensures (s.isActive && model != Detector.Loading && surfaces.hasVideo && surfaces.hasCanvas && surfaces.hasContext)
              <==> |s'.emotionHistory| == |s.emotionHistory| + 1
  {
    var env := Detector.Env(s.isActive, model, surfaces.hasVideo, surfaces.hasCanvas);
    if Detector.ShouldArm(env) && surfaces.hasContext then
      var s' := HandleEmotionDetected(s, Detector.SampleOf(r, u, now));
      assert s'.emotionHistory == s.emotionHistory + [Detector.SampleOf(r, u, now)];
      s'
    else
      s
  }

  /** A tick keeps the page invariant, and every sample it appends carries
      the engagement of its emotion. */
  lemma TickKeepsInvariant(s: PageState, model: Detector.ModelLoad, surfaces: Detector.Surfaces, r: real, u: real, now: int)
    requires Consistent(s)
    requires forall i :: 0 <= i < |s.emotionHistory| ==> WellFormed(s.emotionHistory[i])
    ensures Consistent(Tick(s, model, surfaces, r, u, now))
    ensures var h := Tick(s, model, surfaces, r, u, now).emotionHistory;
            forall i :: 0 <= i < |h| ==> WellFormed(h[i])
  {
  }
}
