/** The sampler: the simulated classifier's weighted bucket pick, the
    sample it emits on each tick, and the guard and cleanup that decide
    when the periodic timer is live (src/components/EmotionDetector.tsx).
    The random draws and the clock are parameters. */
module Detector {
  import opened Emotion
  import opened Wrappers

  /** The simulated classifier's weights, index for index with the labels
      in declaration order (`AllEmotions`). */
  const Weights: seq<real> := [0.4, 0.3, 0.1, 0.05, 0.05, 0.05, 0.05]

  /** Sum of the first i weights: the lower edge of bucket i. */
  function Cumulative(i: nat): real
    requires i <= |Weights|
  {
    if i == 0 then 0.0 else Cumulative(i - 1) + Weights[i - 1]
  }

  /** The cumulative edges 0, .4, .7, .8, .85, .9, .95 and 1. */
  lemma CumulativeEdges()
    ensures Cumulative(0) == 0.0 && Cumulative(1) == 0.4 && Cumulative(2) == 0.7
    ensures Cumulative(3) == 0.8 && Cumulative(4) == 0.85 && Cumulative(5) == 0.9
    ensures Cumulative(6) == 0.95 && Cumulative(7) == 1.0
  {
    assert Cumulative(1) == 0.4;
    assert Cumulative(2) == 0.7;
    assert Cumulative(3) == 0.8;
    assert Cumulative(4) == 0.85;
    assert Cumulative(5) == 0.9;
    assert Cumulative(6) == 0.95;
  }

  /** The bucket table as half-open intervals of the draw; a draw at or
      beyond 1 hits no bucket and keeps the default, neutral. */
  function BucketOf(r: real): EmotionType
  {
    if r < 0.4 then Happy
    else if r < 0.7 then Neutral
    else if r < 0.8 then Sad
    else if r < 0.85 then Angry
    else if r < 0.9 then Surprised
    else if r < 0.95 then Fearful
    else if r < 1.0 then Disgust
    else Neutral
  }

  /** A draw that lies below the upper edge of bucket i and (past the first
      bucket) at or above its lower edge gets label i. */
  lemma BucketOfInterval(i: nat, r: real)
    requires i < |AllEmotions|
    requires i == 0 || Cumulative(i) <= r
    requires r < Cumulative(i + 1)
    ensures BucketOf(r) == AllEmotions[i]
  {
    CumulativeEdges();
  }

  /** The `detectEmotion` loop: walk the weights, subtracting each from
      the residual draw, and stop at the first weight the residual is
      below; neutral when no weight is hit. It agrees with the bucket table
      on every draw. */
  method PickEmotion(r: real) returns (emotion: EmotionType)
    ensures emotion == BucketOf(r)
  {
    var random := r;
    emotion := Neutral;
    var i := 0;
    while i < |Weights|
      invariant 0 <= i <= |Weights|
      invariant random == r - Cumulative(i)
      invariant i > 0 ==> Cumulative(i) <= r
      invariant emotion == Neutral
    {
      if random < Weights[i] {
        BucketOfInterval(i, r);
        emotion := AllEmotions[i];
        break;
      }
      random := random - Weights[i];
      i := i + 1;
    }
    if i == |Weights| {
      CumulativeEdges();
    }
  }

  /** Every draw in [0, 1) falls in exactly the bucket whose interval
      contains it, so the neutral default is never taken for such draws. */
  lemma UnitDrawHitsBucket(r: real) returns (i: nat)
    requires 0.0 <= r < 1.0
    ensures i < |AllEmotions| && Cumulative(i) <= r < Cumulative(i + 1)
    ensures BucketOf(r) == AllEmotions[i]
  {
    CumulativeEdges();
    i := if r < 0.4 then 0
      else if r < 0.7 then 1
      else if r < 0.8 then 2
      else if r < 0.85 then 3
      else if r < 0.9 then 4
      else if r < 0.95 then 5
      else 6;
    BucketOfInterval(i, r);
  }

  /** Each bucket is as wide as its weight, and the weights sum to 1. */
  lemma BucketWidths()
    ensures forall i :: 0 <= i < |Weights| ==> Cumulative(i + 1) - Cumulative(i) == Weights[i]
    ensures Cumulative(|Weights|) == 1.0
  {
    CumulativeEdges();
  }

  /** `0.7 + u * 0.3`: a uniform draw in [0, 1) lands in [0.7, 1.0). */
  function Confidence(u: real): (c: real)
    ensures 0.0 <= u < 1.0 ==> 0.7 <= c < 1.0
  {
    0.7 + u * 0.3
  }

  /** Distinct draws give distinct confidences, so the draw is determined
      by the confidence it produced. */
  lemma ConfidenceInjective(u1: real, u2: real)
    ensures Confidence(u1) == Confidence(u2) ==> u1 == u2
  {
  }

  /** The sample emitted for draws r (label) and u (confidence) at time `now`. */
  function SampleOf(r: real, u: real, now: int): (d: EmotionData)
    ensures d.emotion == BucketOf(r)
    ensures d.engagement == EngagementOf(d.emotion)
    ensures 0.0 <= u < 1.0 ==> 0.7 <= d.confidence < 1.0
    ensures d.timestamp == now
  {
    var emotion := BucketOf(r);
    EmotionData(emotion, Confidence(u), EngagementOf(emotion), now)
  }

  /** Which of the references a tick reads are present. */
  datatype Surfaces = Surfaces(hasVideo: bool, hasCanvas: bool, hasContext: bool)

  /** One firing of `detectEmotion`: it returns early, emitting nothing,
      unless the video, the canvas and its 2-D context are all present;
      otherwise it emits the sample for its draws. */
  method DetectEmotion(surfaces: Surfaces, r: real, u: real, now: int) returns (out: Option<EmotionData>)
    ensures out.Some? <==> surfaces.hasVideo && surfaces.hasCanvas && surfaces.hasContext
    ensures out.Some? ==> out.value == SampleOf(r, u, now)
  {
    if !surfaces.hasVideo || !surfaces.hasCanvas {
      return None;
    }
    if !surfaces.hasContext {
      return None;
    }
    var emotion := PickEmotion(r);
    var confidence := Confidence(u);
    var engagement := EngagementOf(emotion);
    out := Some(EmotionData(emotion, confidence, engagement, now));
  }

  /** Progress of the classifier load started on mount. */
  datatype ModelLoad = Loading | Loaded | FellBack

  /** Either outcome of the load attempt ends the loading phase. */
  function FinishLoad(succeeded: bool): (m: ModelLoad)
    ensures m != Loading
    ensures m == Loaded <==> succeeded
  {
    if succeeded then Loaded else FellBack
  }

  /** What the arming effect reads. */
  datatype Env = Env(isActive: bool, model: ModelLoad, hasVideo: bool, hasCanvas: bool)

  /** The effect's early return, negated: it arms the interval exactly when
      tracking is on, the model is no longer loading, and both the video and
      canvas references exist. */
  function ShouldArm(env: Env): (armed: bool)
    ensures armed <==> env.isActive && env.model != Loading && env.hasVideo && env.hasCanvas
  {
    !(!env.isActive || env.model == Loading || !env.hasVideo || !env.hasCanvas)
  }

  /** The live intervals, the id source, `intervalRef.current`, and whether
      the last run of the arming effect returned a cleanup. Browser
      interval ids are positive, so `nextId` starts at 1; this matters
      because the cleanups test `intervalRef.current` for truthiness. */
  datatype Timers = Timers(live: set<nat>, nextId: nat, intervalRef: Option<nat>, pendingCleanup: bool)

  const NoTimers: Timers := Timers({}, 1, None, false)

  lemma MountIsTidy()
    ensures Tidy(NoTimers)
  {
  }

  /** Shared body of both cleanups: clear the interval the ref names, but
      only when the ref holds a truthy id; an unset ref and the id 0 clear
      nothing. */
  function ClearCurrent(t: Timers): (t': Timers)
    ensures t'.live <= t.live
    ensures t.intervalRef.Some? ==> t.live - t'.live <= {t.intervalRef.value}
    ensures t.intervalRef.None? ==> t'.live == t.live
    ensures t.intervalRef.Some? && t.intervalRef.value > 0 ==> t.intervalRef.value !in t'.live
    ensures t'.nextId == t.nextId && t'.intervalRef == t.intervalRef && t'.pendingCleanup == t.pendingCleanup
  {
    match t.intervalRef
    case Some(id) => if id != 0 then t.(live := t.live - {id}) else t
    case None => t
  }

  /** One run of the arming effect after its inputs change: the previous
      run's cleanup (if it returned one) clears the interval, then a new
      interval is set when the guard holds. */
  function RunArmingEffect(t: Timers, env: Env): (t': Timers)
    ensures Tidy(t) ==> Tidy(t')
    ensures Tidy(t) ==> (t'.live != {} <==> ShouldArm(env))
  {
    var cleaned := if t.pendingCleanup then ClearCurrent(t) else t;
    if ShouldArm(env) then
      Timers(cleaned.live + {t.nextId}, t.nextId + 1, Some(t.nextId), true)
    else
      cleaned.(pendingCleanup := false)
  }

  /** Unmounting runs both cleanups, the mount effect's and the arming
      effect's pending one; each clears `intervalRef.current`, so their
      order does not matter and clearing twice changes nothing. */
  function Unmount(t: Timers): (t': Timers)
    ensures Tidy(t) ==> t'.live == {}
  {
    var afterArming := if t.pendingCleanup then ClearCurrent(t) else t;
    ClearCurrent(afterArming)
  }

  /** At most the one interval `intervalRef` names is live, and it is live
      exactly while the last effect run is waiting to clean it up. */
  ghost predicate Tidy(t: Timers)
  {
    && t.nextId > 0
    && (t.intervalRef.Some? ==> t.intervalRef.value > 0)
    && (t.live != {} <==> t.pendingCleanup)
    && (t.pendingCleanup ==> t.intervalRef.Some? && t.live == {t.intervalRef.value})
  }

  /** The arming effect run once per change of its inputs: from a tidy
      state, at most one interval is ever live. */
  function RunAll(t: Timers, envs: seq<Env>): (t': Timers)
    ensures Tidy(t) ==> Tidy(t') && |t'.live| <= 1
    ensures |envs| == 0 ==> t' == t
    decreases |envs|
  {
    if |envs| == 0 then t else RunAll(RunArmingEffect(t, envs[0]), envs[1..])
  }

  /** From mount onwards, however the inputs change, at most one interval
      is live; one is live exactly when the latest inputs pass the guard;
      and unmounting leaves none. */
  lemma {:induction false} TimersStayTidy(t: Timers, envs: seq<Env>)
    requires Tidy(t)
    ensures Tidy(RunAll(t, envs))
    ensures |RunAll(t, envs).live| <= 1
    ensures |envs| > 0 ==> (RunAll(t, envs).live != {} <==> ShouldArm(envs[|envs| - 1]))
    ensures Unmount(RunAll(t, envs)).live == {}
    decreases |envs|
  {
    if |envs| > 0 {
      var t1 := RunArmingEffect(t, envs[0]);
      TimersStayTidy(t1, envs[1..]);
      if |envs| > 1 {
        assert envs[1..][|envs[1..]| - 1] == envs[|envs| - 1];
      }
    }
  }
}
