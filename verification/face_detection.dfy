/**
 * The expression and head-gesture classifier of src/hooks/useFaceDetection.ts: `detectEmotion`,
 * `detectHeadGesture` and `clearHeadGesture` with the `headPosHistory` buffer. The hook's
 * closure state (previous confidence, the clock) becomes explicit parameters.
 */
module FaceDetection {
  import opened Wrappers
  import opened Seqs
  import opened GameData

  // ----- Emotion -----

  /** One blendshape category reported by the face tracker. */
  datatype Category = Category(categoryName: string, score: real)

  /** The detector's answer for one frame (the source's `FaceDetectionResult`). */
  datatype Detection = Detection(emotion: Emotion, confidence: real, blendShapes: map<string, real>)

  function RealMax(a: real, b: real): real { if a >= b then a else b }

  function RealMin(a: real, b: real): real { if a <= b then a else b }

  /**
   * The channel map built by `forEach`: every reported name is a key, and a later category of
   * the same name overwrites an earlier one (see `ShapesOfLastWins`).
   */
  function ShapesOf(categories: seq<Category>): (m: map<string, real>)
    ensures m.Keys == set i | 0 <= i < |categories| :: categories[i].categoryName
    decreases |categories|
  {
    if |categories| == 0 then map[]
    else
      var n := |categories| - 1;
      var front := categories[..n];
      assert forall i :: 0 <= i < n ==> front[i] == categories[i];
      ShapesOf(front)[categories[n].categoryName := categories[n].score]
  }

  /** The value kept for a name is the score of the last category carrying it. */
  lemma {:induction false} ShapesOfLastWins(categories: seq<Category>, i: nat)
    requires i < |categories|
    requires forall j :: i < j < |categories| ==> categories[j].categoryName != categories[i].categoryName
    ensures ShapesOf(categories)[categories[i].categoryName] == categories[i].score
    decreases |categories|
  {
    var n := |categories| - 1;
    var front := categories[..n];
    var last := categories[n];
    assert ShapesOf(categories) == ShapesOf(front)[last.categoryName := last.score];
    if i < n {
      assert front[i] == categories[i];
      forall j | i < j < |front| ensures front[j].categoryName != front[i].categoryName {
        assert front[j] == categories[j];
      }
      ShapesOfLastWins(front, i);
      assert last.categoryName != categories[i].categoryName;
    }
  }

  /** `shapes[name] || 0`: a missing channel reads as 0. */
  function Channel(shapes: map<string, real>, name: string): real {
    if name in shapes then shapes[name] else 0.0
  }

  /** The five weighted expression scores. */
  datatype Scores = Scores(happy: real, sad: real, angry: real, disgusted: real, surprised: real)

  function RawScores(shapes: map<string, real>): Scores {
    Scores(
      (Channel(shapes, "mouthSmileLeft") + Channel(shapes, "mouthSmileRight")) / 2.0,
      (Channel(shapes, "mouthFrownLeft") + Channel(shapes, "mouthFrownRight")) / 2.0
        + Channel(shapes, "browInnerUp") * 0.3,
      (Channel(shapes, "browDownLeft") + Channel(shapes, "browDownRight")) / 2.0
        + Channel(shapes, "mouthShrugUpper") * 0.2 + Channel(shapes, "jawForward") * 0.2,
      (Channel(shapes, "noseSneerLeft") + Channel(shapes, "noseSneerRight")) / 2.0
        + Channel(shapes, "mouthUpperUpLeft") * 0.3,
      (Channel(shapes, "eyeWideLeft") + Channel(shapes, "eyeWideRight")) / 2.0
        + (Channel(shapes, "browOuterUpLeft") + Channel(shapes, "browOuterUpRight")) / 4.0
        + Channel(shapes, "jawOpen") * 0.3)
  }

  function MaxNonNeutral(sc: Scores): real {
    RealMax(RealMax(RealMax(RealMax(sc.happy, sc.sad), sc.angry), sc.disgusted), sc.surprised)
  }

  /** `max(0, 0.5 - maxNonNeutral)`: neutral is strong only when no expression is. */
  function NeutralScore(sc: Scores): real {
    RealMax(0.0, 0.5 - MaxNonNeutral(sc))
  }

  /** The score of one category. */
  function ScoreOf(sc: Scores, e: Emotion): real {
    match e
    case Happy => sc.happy
    case Sad => sc.sad
    case Angry => sc.angry
    case Disgusted => sc.disgusted
    case Surprised => sc.surprised
    case Neutral => NeutralScore(sc)
  }

  /** The categories in `Object.entries` order. */
  const Order: seq<Emotion> := [Happy, Sad, Angry, Disgusted, Surprised, Emotion.Neutral]

  function Entries(sc: Scores): seq<(Emotion, real)> {
    [(Happy, sc.happy), (Sad, sc.sad), (Angry, sc.angry), (Disgusted, sc.disgusted),
     (Surprised, sc.surprised), (Emotion.Neutral, NeutralScore(sc))]
  }

  /**
   * The winner loop: scanning `entries`, an entry replaces the current best only when its score
   * is strictly greater. The result is the first entry of maximal score if that score beats the
   * starting one, and the starting pair otherwise.
   */
  function ArgMax(entries: seq<(Emotion, real)>, best: Emotion, bestScore: real): (r: (Emotion, real))
    ensures r.1 >= bestScore
    ensures forall i :: 0 <= i < |entries| ==> entries[i].1 <= r.1
    ensures (forall i :: 0 <= i < |entries| ==> entries[i].1 <= bestScore) ==> r == (best, bestScore)
    ensures (exists i :: 0 <= i < |entries| && entries[i].1 > bestScore) ==>
      exists k :: 0 <= k < |entries| && r == entries[k] && forall j :: 0 <= j < k ==> entries[j].1 < r.1
    decreases |entries|
  {
    if |entries| == 0 then (best, bestScore)
    else
      var tail := entries[1..];
      assert forall i :: 1 <= i < |entries| ==> entries[i] == tail[i - 1];
      if entries[0].1 > bestScore then ArgMax(tail, entries[0].0, entries[0].1)
      else ArgMax(tail, best, bestScore)
  }

  /** The winner before the confidence floor is applied. */
  function Ranked(sc: Scores): (Emotion, real) {
    ArgMax(Entries(sc), Emotion.Neutral, 0.0)
  }

  /**
   * `detectEmotion` on a frame with a face: the winner, with the 0.1 floor forcing a weak
   * expression to neutral, and confidence `min(2 * (0.4 * prev + 0.6 * best), 1)`.
   */
  function ClassifyEmotion(shapes: map<string, real>, prevConfidence: real): (d: Detection)
    ensures d.emotion == Emotion.Neutral <==> MaxNonNeutral(RawScores(shapes)) < 0.25
    ensures d.emotion != Emotion.Neutral ==>
      ScoreOf(RawScores(shapes), d.emotion) == MaxNonNeutral(RawScores(shapes)) >= 0.25
    ensures d.confidence ==
      RealMin((prevConfidence * 0.4 + ScoreOf(RawScores(shapes), d.emotion) * 0.6) * 2.0, 1.0)
    ensures prevConfidence >= 0.0 ==> 0.0 <= d.confidence <= 1.0
    ensures d.blendShapes == shapes
  {
    var sc := RawScores(shapes);
    var (e, s) := Ranked(sc);
    RankedWinner(sc);
    var (e', s') := if e != Emotion.Neutral && s < 0.1 then (Emotion.Neutral, NeutralScore(sc)) else (e, s);
    var smoothed := prevConfidence * 0.4 + s' * 0.6;
    Detection(e', RealMin(smoothed * 2.0, 1.0), shapes)
  }

  /** The strongest expression score is one of the five and bounds all of them. */
  lemma MaxNonNeutralBounds(sc: Scores)
    ensures var m := MaxNonNeutral(sc);
      m >= sc.happy && m >= sc.sad && m >= sc.angry && m >= sc.disgusted && m >= sc.surprised
    ensures MaxNonNeutral(sc) in {sc.happy, sc.sad, sc.angry, sc.disgusted, sc.surprised}
  {
  }

  /**
   * What the winner loop yields on the six entries: neutral exactly when every expression
   * scores below 0.25, and otherwise an expression of maximal score.
   */
  lemma RankedWinner(sc: Scores)
    ensures Ranked(sc).1 == ScoreOf(sc, Ranked(sc).0) >= 0.0
    ensures Ranked(sc).0 == Emotion.Neutral <==> MaxNonNeutral(sc) < 0.25
    ensures Ranked(sc).0 != Emotion.Neutral ==> Ranked(sc).1 == MaxNonNeutral(sc) >= 0.25
  {
    var es := Entries(sc);
    var r := Ranked(sc);
    var m := MaxNonNeutral(sc);
    var n := NeutralScore(sc);
    MaxNonNeutralBounds(sc);
    assert es[0].1 == sc.happy && es[1].1 == sc.sad && es[2].1 == sc.angry;
    assert es[3].1 == sc.disgusted && es[4].1 == sc.surprised && es[5].1 == n;
    if m <= 0.0 {
      assert es[5].1 > 0.0;
    } else {
      assert es[0].1 > 0.0 || es[1].1 > 0.0 || es[2].1 > 0.0 || es[3].1 > 0.0 || es[4].1 > 0.0;
    }
    var k :| 0 <= k < |es| && r == es[k] && forall j :: 0 <= j < k ==> es[j].1 < r.1;
    assert k in {0, 1, 2, 3, 4, 5};
    if k == 5 {
      assert m < n;
    } else {
      assert r.1 == m;
    }
  }

  /** The 0.1 floor never fires: a non-neutral winner already scores at least 0.25. */
  lemma ConfidenceFloorUnreachable(sc: Scores)
    ensures !(Ranked(sc).0 != Emotion.Neutral && Ranked(sc).1 < 0.1)
  {
    RankedWinner(sc);
  }

  /**
   * `detectEmotion`: a missing or empty blendshape list gives neutral with confidence 0;
   * otherwise the first face's channels are classified.
   */
  function DetectEmotion(blendShapes: seq<seq<Category>>, prevConfidence: real): (d: Detection)
    ensures |blendShapes| == 0 ==> d == Detection(Emotion.Neutral, 0.0, map[])
    ensures |blendShapes| > 0 ==> d == ClassifyEmotion(ShapesOf(blendShapes[0]), prevConfidence)
    ensures prevConfidence >= 0.0 ==> 0.0 <= d.confidence <= 1.0
  {
    if |blendShapes| == 0 then Detection(Emotion.Neutral, 0.0, map[])
    else ClassifyEmotion(ShapesOf(blendShapes[0]), prevConfidence)
  }

  /** A frame whose channels are all zero (or absent) classifies as neutral. */
  lemma SilentFaceIsNeutral(shapes: map<string, real>, prevConfidence: real)
    requires forall k :: k in shapes ==> shapes[k] == 0.0
    ensures ClassifyEmotion(shapes, prevConfidence).emotion == Emotion.Neutral
  {
    var sc := RawScores(shapes);
    assert sc == Scores(0.0, 0.0, 0.0, 0.0, 0.0);
  }

  /** With non-negative channels every expression score is non-negative, hence so is confidence. */
  lemma ScoresNonNegative(shapes: map<string, real>)
    requires forall k :: k in shapes ==> shapes[k] >= 0.0
    ensures var sc := RawScores(shapes);
      sc.happy >= 0.0 && sc.sad >= 0.0 && sc.angry >= 0.0 && sc.disgusted >= 0.0 && sc.surprised >= 0.0
  {
  }

  // ----- Head gesture -----

  datatype Point = Point(x: real, y: real)

  /** One entry of `headPosHistory`: nose-tip position and `Date.now()` in milliseconds. */
  datatype Sample = Sample(x: real, y: real, t: int)

  /** The classifier's gesture state: the position buffer and the sticky last gesture. */
  datatype GestureState = GestureState(history: seq<Sample>, lastHeadGesture: Option<HeadGesture>)

  /** Samples are kept while `now - t < 600` (the source's comment says 500 ms; the code keeps 600). */
  const WindowMs: int := 600

  const MinSamples: nat := 5

  const RangeThreshold: real := 0.035

  const Dominance: real := 1.4

  /** Index of the nose tip in a landmark list. */
  const NoseTip: nat := 1

  function Xs(h: seq<Sample>): (r: seq<real>)
    ensures |r| == |h| && forall i :: 0 <= i < |h| ==> r[i] == h[i].x
  {
    if |h| == 0 then [] else [h[0].x] + Xs(h[1..])
  }

  function Ys(h: seq<Sample>): (r: seq<real>)
    ensures |r| == |h| && forall i :: 0 <= i < |h| ==> r[i] == h[i].y
  {
    if |h| == 0 then [] else [h[0].y] + Ys(h[1..])
  }

  function XRange(h: seq<Sample>): real
    requires |h| > 0
  {
    MaxOf(Xs(h)) - MinOf(Xs(h))
  }

  function YRange(h: seq<Sample>): real
    requires |h| > 0
  {
    MaxOf(Ys(h)) - MinOf(Ys(h))
  }

  predicate IsNod(h: seq<Sample>)
    requires |h| > 0
  {
    YRange(h) > RangeThreshold && YRange(h) > XRange(h) * Dominance
  }

  predicate IsShake(h: seq<Sample>)
    requires |h| > 0
  {
    XRange(h) > RangeThreshold && XRange(h) > YRange(h) * Dominance
  }

  /** Ranges are never negative. */
  lemma RangesNonNegative(h: seq<Sample>)
    requires |h| > 0
    ensures XRange(h) >= 0.0 && YRange(h) >= 0.0
  {
    assert MinOf(Xs(h)) <= Xs(h)[0] <= MaxOf(Xs(h));
    assert MinOf(Ys(h)) <= Ys(h)[0] <= MaxOf(Ys(h));
  }

  /** No window is both a nod and a shake, so the order of the two tests does not matter. */
  lemma NodAndShakeExclusive(h: seq<Sample>)
    requires |h| > 0
    ensures !(IsNod(h) && IsShake(h))
  {
    RangesNonNegative(h);
  }

  predicate Recent(p: Sample, now: int) {
    now - p.t < WindowMs
  }

  /** `Recent` at time `now`, as the filter's predicate. */
  function RecentAt(now: int): Sample -> bool {
    q => Recent(q, now)
  }

  /**
   * The buffer after pushing `p` and dropping every sample outside the window: each recent sample
   * is kept as often as it occurred, in the order of arrival, with a recent `p` last.
   */
  function Window(history: seq<Sample>, p: Sample, now: int): (w: seq<Sample>)
    ensures forall q :: q in w <==> q in history + [p] && Recent(q, now)
    ensures forall q :: multiset(w)[q] == if Recent(q, now) then multiset(history + [p])[q] else 0
    ensures w == Filter(history, RecentAt(now)) + (if Recent(p, now) then [p] else [])
    ensures Recent(p, now) ==> |w| > 0 && w[|w| - 1] == p
  {
    WindowCounts(history + [p], now);
    WindowOrder(history, p, now);
    Filter(history + [p], RecentAt(now))
  }

  /** When every buffered sample is still recent, the new one is simply appended. */
  lemma RecentBufferGrows(history: seq<Sample>, p: Sample, now: int)
    requires forall i :: 0 <= i < |history| ==> Recent(history[i], now)
    requires Recent(p, now)
    ensures Window(history, p, now) == history + [p]
  {
    assert forall i :: 0 <= i < |history + [p]| ==> Recent((history + [p])[i], now);
    WindowAllRecent(history + [p], now);
  }

  /** The filtered buffer counts each recent sample as often as the pushed buffer does. */
  lemma WindowCounts(h: seq<Sample>, now: int)
    ensures forall q :: multiset(Filter(h, RecentAt(now)))[q] == if Recent(q, now) then multiset(h)[q] else 0
  {
    FilterCounts(h, RecentAt(now));
  }

  /** The filtered buffer keeps the order of arrival, so a recent new sample comes last. */
  lemma WindowOrder(history: seq<Sample>, p: Sample, now: int)
    ensures Filter(history + [p], RecentAt(now)) ==
      Filter(history, RecentAt(now)) + (if Recent(p, now) then [p] else [])
  {
    FilterAppend(history, [p], RecentAt(now));
    assert [p][1..] == [];
  }

  /** A buffer of recent samples loses nothing to the filter. */
  lemma WindowAllRecent(h: seq<Sample>, now: int)
    requires forall i :: 0 <= i < |h| ==> Recent(h[i], now)
    ensures Filter(h, RecentAt(now)) == h
  {
    assert forall i :: 0 <= i < |h| ==> RecentAt(now)(h[i]);
    FilterKeepsAll(h, RecentAt(now));
  }

  /** Four recent samples and a fifth make a full window: the gate counts every sample. */
  lemma FullWindowOfFive(q: Sample, now: int)
    requires Recent(q, now)
    ensures |Window([q, q, q, q], q, now)| == MinSamples
  {
    RecentBufferGrows([q, q, q, q], q, now);
  }

  /**
   * `detectHeadGesture` at time `now`: a frame without a face or a nose tip changes nothing;
   * otherwise the nose tip joins the buffer, old samples drop out, and with at least five
   * samples a nod or a shake is recorded. Neither condition leaves the last gesture as it was.
   */
  function DetectHeadGesture(g: GestureState, landmarks: seq<seq<Point>>, now: int): (g': GestureState)
    ensures (|landmarks| == 0 || |landmarks[0]| <= NoseTip) ==> g' == g
    ensures |landmarks| > 0 && |landmarks[0]| > NoseTip ==>
      var nose := landmarks[0][NoseTip];
      var p := Sample(nose.x, nose.y, now);
      && g'.history == Window(g.history, p, now)
      && p in g'.history
      && (forall q :: q in g'.history ==> Recent(q, now))
      && (|g'.history| < MinSamples ==> g'.lastHeadGesture == g.lastHeadGesture)
      && (|g'.history| >= MinSamples ==>
            if IsNod(g'.history) then g'.lastHeadGesture == Some(Nod)
            else if IsShake(g'.history) then g'.lastHeadGesture == Some(Shake)
            else g'.lastHeadGesture == g.lastHeadGesture)
  {
    if |landmarks| == 0 || |landmarks[0]| <= NoseTip then g
    else
      var nose := landmarks[0][NoseTip];
      var h := Window(g.history, Sample(nose.x, nose.y, now), now);
      if |h| < MinSamples then GestureState(h, g.lastHeadGesture)
      else if IsNod(h) then GestureState(h, Some(Nod))
      else if IsShake(h) then GestureState(h, Some(Shake))
      else GestureState(h, g.lastHeadGesture)
  }

  /** A gesture is only ever recorded from a window of at least five recent samples. */
  lemma GestureNeedsFullWindow(g: GestureState, landmarks: seq<seq<Point>>, now: int)
    requires DetectHeadGesture(g, landmarks, now).lastHeadGesture != g.lastHeadGesture
    ensures |DetectHeadGesture(g, landmarks, now).history| >= MinSamples
  {
  }

  /** `clearHeadGesture`: no gesture and an empty buffer. */
  function ClearHeadGesture(): (g: GestureState)
    ensures g.lastHeadGesture.None? && |g.history| == 0
  {
    GestureState([], None)
  }
}
