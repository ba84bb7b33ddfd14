/**
 * The gameplay screen's glue (src/components/game/GameplayScreen.tsx): the face-check hold
 * integrator run once per animation frame, the reset outside the hold phases, and the
 * head-gesture completion. Frame times and the detected emotion are inputs.
 */
module Gameplay {
  import opened Wrappers
  import opened GameData
  import Engine
  import FaceDetection

  // ----- The hold integrator -----

  /** Drain rate of the hold while the face does not match, per second. */
  const Decay: real := 0.6

  /** Below this progress a non-matching face shows the warning. */
  const WarningBelow: real := 0.35

  /** `state.faceCheckRequired || "neutral"`. */
  function RequiredEmotion(s: Engine.GameState): Emotion {
    s.faceCheckRequired.GetOr(Emotion.Neutral)
  }

  /** `state.faceCheckDuration || 2.5`: a zero duration falls back to 2.5 s. */
  function HoldSeconds(s: Engine.GameState): (d: real)
    ensures d != 0.0
    ensures s.faceCheckDuration == 0.0 ==> d == 2.5
    ensures s.faceCheckDuration != 0.0 ==> d == s.faceCheckDuration
  {
    if s.faceCheckDuration != 0.0 then s.faceCheckDuration else 2.5
  }

  /** The match test as written: a neutral target and any other target are both compared by equality. */
  function IsMatch(required: Emotion, current: Emotion): bool {
    if required == Emotion.Neutral then current == Emotion.Neutral else current == required
  }

  /** The two branches of the match test agree: it is plain equality. */
  lemma IsMatchIsEquality(required: Emotion, current: Emotion)
    ensures IsMatch(required, current) <==> current == required
  {
  }

  /** `Math.ceil` on a real. */
  function Ceil(x: real): (c: int)
    ensures c as real >= x && (c as real) - 1.0 < x
  {
    -((-x).Floor)
  }

  /** Which completion callback a finished hold issues. */
  datatype Completion = CompleteFaceCheck | CompleteWrongActionPenalty

  /** What one frame reports: the new progress, the warning and countdown, and a completion if any. */
  datatype Tick = Tick(progress: real, warning: bool, countdown: int, completion: Option<Completion>)

  /**
   * One frame of `tick`: matching adds `dt / duration` up to 1, not matching drains `0.6 * dt`
   * down to 0; the warning shows for a non-matching face below 0.35; the countdown is the whole
   * seconds still to hold; a hold that reaches 1 completes the penalty or the face check.
   */
  function TickStep(p: real, isMatch: bool, dt: real, duration: real, penalty: bool): (t: Tick)
    requires duration != 0.0
    ensures 0.0 <= p <= 1.0 && dt >= 0.0 && duration > 0.0 ==> 0.0 <= t.progress <= 1.0
    ensures isMatch && p <= 1.0 && dt >= 0.0 && duration > 0.0 ==> t.progress >= p
    ensures !isMatch && dt >= 0.0 ==> t.progress <= p || t.progress == 0.0
    ensures !isMatch ==> t.progress >= p - Decay * dt
    ensures isMatch ==> t.progress <= p + dt / duration
    ensures isMatch && p + dt / duration <= 1.0 ==> t.progress == p + dt / duration
    ensures isMatch && p + dt / duration >= 1.0 ==> t.progress == 1.0
    ensures !isMatch && p >= Decay * dt ==> t.progress == p - Decay * dt
    ensures !isMatch && p <= Decay * dt ==> t.progress == 0.0
    ensures t.warning <==> !isMatch && t.progress < WarningBelow
    ensures t.countdown >= 0 && t.countdown as real >= (1.0 - t.progress) * duration
    ensures t.countdown > 0 ==> (t.countdown as real) - 1.0 < (1.0 - t.progress) * duration
    ensures t.completion.Some? <==> t.progress >= 1.0
    ensures t.completion.Some? ==> t.completion.value == (if penalty then CompleteWrongActionPenalty else CompleteFaceCheck)
  {
    var p' := if isMatch then FaceDetection.RealMin(1.0, p + dt / duration) else FaceDetection.RealMax(0.0, p - dt * Decay);
    var countdown := if Ceil((1.0 - p') * duration) > 0 then Ceil((1.0 - p') * duration) else 0;
    var done := if p' >= 1.0 then Some(if penalty then CompleteWrongActionPenalty else CompleteFaceCheck) else None;
    Tick(p', !isMatch && p' < WarningBelow, countdown, done)
  }

  /** The loop's result: final progress, the completion issued (if any), and the frames it ran. */
  datatype HoldOutcome = HoldOutcome(progress: real, completion: Option<Completion>, frames: nat)

  /**
   * The `requestAnimationFrame` loop of one effect run, with the emotion captured when the effect
   * started: it ticks once per frame time in `dts` and stops at the first completion, so at most
   * one completion is issued and no frame after it is consumed.
   */
  function HoldLoop(p: real, dts: seq<real>, isMatch: bool, duration: real, penalty: bool): (o: HoldOutcome)
    requires duration != 0.0
    ensures o.frames <= |dts|
    ensures o.completion.None? ==> o.frames == |dts|
    ensures o.completion.Some? ==>
      && o.frames >= 1 && o.progress >= 1.0
      && o.completion.value == (if penalty then CompleteWrongActionPenalty else CompleteFaceCheck)
    ensures 0.0 <= p <= 1.0 && duration > 0.0 && (forall i :: 0 <= i < |dts| ==> dts[i] >= 0.0) ==>
      0.0 <= o.progress <= 1.0
    decreases |dts|
  {
    if |dts| == 0 then HoldOutcome(p, None, 0)
    else
      var t := TickStep(p, isMatch, dts[0], duration, penalty);
      if t.completion.Some? then HoldOutcome(t.progress, t.completion, 1)
      else
        assert forall i :: 1 <= i < |dts| ==> dts[1..][i - 1] == dts[i];
        var o := HoldLoop(t.progress, dts[1..], isMatch, duration, penalty);
        HoldOutcome(o.progress, o.completion, o.frames + 1)
  }

  function Sum(dts: seq<real>): real {
    if |dts| == 0 then 0.0 else dts[0] + Sum(dts[1..])
  }

  /** A face that matches for at least the hold duration in total completes the hold. */
  lemma {:induction false} HoldCompletesWhenHeldLongEnough(p: real, dts: seq<real>, duration: real, penalty: bool)
    requires 0.0 <= p <= 1.0 && duration > 0.0
    requires forall i :: 0 <= i < |dts| ==> dts[i] >= 0.0
    requires p + Sum(dts) / duration >= 1.0
    requires p < 1.0
    ensures HoldLoop(p, dts, true, duration, penalty).completion.Some?
    decreases |dts|
  {
    if |dts| > 0 {
      var t := TickStep(p, true, dts[0], duration, penalty);
      if t.completion.None? {
        var rest := dts[1..];
        assert forall i :: 0 <= i < |rest| ==> rest[i] == dts[i + 1];
        assert t.progress == p + dts[0] / duration;
        assert Sum(dts) / duration == dts[0] / duration + Sum(rest) / duration;
        HoldCompletesWhenHeldLongEnough(t.progress, rest, duration, penalty);
      }
    }
  }

  /**
   * Conversely, a hold that completes has been matched long enough: the frames it consumed add
   * up to at least what was missing of the duration.
   */
  lemma {:induction false} HoldCompletionNeedsEnoughTime(p: real, dts: seq<real>, duration: real, penalty: bool)
    requires duration != 0.0
    ensures var o := HoldLoop(p, dts, true, duration, penalty);
      o.completion.Some? ==> p + Sum(dts[..o.frames]) / duration >= 1.0
    decreases |dts|
  {
    var o := HoldLoop(p, dts, true, duration, penalty);
    if |dts| > 0 && o.completion.Some? {
      var t := TickStep(p, true, dts[0], duration, penalty);
      SumPrefix(dts, o.frames);
      if t.completion.None? {
        var rest := dts[1..];
        var o' := HoldLoop(t.progress, rest, true, duration, penalty);
        HoldCompletionNeedsEnoughTime(t.progress, rest, duration, penalty);
        assert o.frames == o'.frames + 1;
        DivSplit(dts[0], Sum(rest[..o'.frames]), duration);
      } else {
        DivSplit(dts[0], 0.0, duration);
      }
    }
  }

  /** The frame times of a non-empty prefix are its first one plus those of the rest. */
  lemma SumPrefix(dts: seq<real>, k: nat)
    requires 1 <= k <= |dts|
    ensures Sum(dts[..k]) == dts[0] + Sum(dts[1..][..k - 1])
  {
    assert dts[..k][1..] == dts[1..][..k - 1];
  }

  lemma DivSplit(a: real, b: real, d: real)
    requires d != 0.0
    ensures (a + b) / d == a / d + b / d
  {
  }

  /** A face that never matches cannot complete a hold that has not already completed. */
  lemma {:induction false} MismatchNeverCompletes(p: real, dts: seq<real>, duration: real, penalty: bool)
    requires duration != 0.0 && p < 1.0
    requires forall i :: 0 <= i < |dts| ==> dts[i] >= 0.0
    ensures HoldLoop(p, dts, false, duration, penalty).completion.None?
    decreases |dts|
  {
    if |dts| > 0 {
      var t := TickStep(p, false, dts[0], duration, penalty);
      var rest := dts[1..];
      assert forall i :: 0 <= i < |rest| ==> rest[i] == dts[i + 1];
      MismatchNeverCompletes(t.progress, rest, duration, penalty);
    }
  }

  /**
   * One frame for state `s`, holding progress `p`, with `current` the detected emotion: the
   * target and duration come from the state with their defaults, and a finished hold completes
   * the penalty exactly in the penalty phase.
   */
  function FrameTick(s: Engine.GameState, p: real, current: Emotion, dt: real): (t: Tick)
    ensures t.warning <==> current != RequiredEmotion(s) && t.progress < WarningBelow
    ensures t.completion.Some? ==>
      (t.completion.value == CompleteWrongActionPenalty <==> s.phase == Engine.WrongActionPenalty)
    ensures 0.0 <= p <= 1.0 && dt >= 0.0 && HoldSeconds(s) > 0.0 ==> 0.0 <= t.progress <= 1.0
  {
    IsMatchIsEquality(RequiredEmotion(s), current);
    TickStep(p, IsMatch(RequiredEmotion(s), current), dt, HoldSeconds(s), s.phase == Engine.WrongActionPenalty)
  }

  /** A frame's report written to the game: `updateFaceProgress`, then `setFaceWarning`. */
  function ApplyTick(s: Engine.GameState, t: Tick): (r: Engine.GameState)
    ensures r.faceCheckProgress == t.progress && r.faceCheckWarning == t.warning
    ensures r.faceCheckWarningCountdown == t.countdown
    ensures r == s.(faceCheckProgress := t.progress, faceCheckWarning := t.warning,
                    faceCheckWarningCountdown := t.countdown)
  {
    Engine.SetFaceWarning(Engine.UpdateFaceProgress(s, t.progress), t.warning, t.countdown)
  }

  /** The completion callback run on the game: both end in `advanceLine`, the penalty hiding Mom first. */
  function IssueCompletion(s: Engine.GameState, c: Completion, order: seq<nat>): (r: Engine.GameState)
    ensures c == CompleteFaceCheck ==> r == Engine.AdvanceLine(s, order)
    ensures c == CompleteWrongActionPenalty ==> r == Engine.CompleteWrongActionPenalty(s, order)
    ensures r.lives == s.lives
  {
    match c
    case CompleteFaceCheck => Engine.AdvanceLine(s, order)
    case CompleteWrongActionPenalty => Engine.CompleteWrongActionPenalty(s, order)
  }

  /**
   * The effect (re)started for state `s`: outside the face-check and penalty phases progress,
   * warning and countdown are cleared; inside them progress starts again from 0.
   */
  function EffectStart(s: Engine.GameState): (r: Engine.GameState)
    ensures r.faceCheckProgress == 0.0
    ensures s.phase != Engine.FaceCheck && s.phase != Engine.WrongActionPenalty ==>
      !r.faceCheckWarning && r.faceCheckWarningCountdown == 0
    ensures r.phase == s.phase && r.lives == s.lives && r.score == s.score && r.currentLine == s.currentLine
  {
    if s.phase != Engine.FaceCheck && s.phase != Engine.WrongActionPenalty then
      Engine.SetFaceWarning(Engine.UpdateFaceProgress(s, 0.0), false, 0)
    else
      Engine.UpdateFaceProgress(s, 0.0)
  }

  /** The effect's cleanup: the loop is cancelled and progress, warning and countdown cleared. */
  function EffectCleanup(s: Engine.GameState): (r: Engine.GameState)
    ensures r.faceCheckProgress == 0.0 && !r.faceCheckWarning && r.faceCheckWarningCountdown == 0
    ensures r.phase == s.phase && r.lives == s.lives && r.score == s.score
  {
    Engine.SetFaceWarning(Engine.UpdateFaceProgress(s, 0.0), false, 0)
  }

  /**
   * As written, the detected emotion is a dependency of the effect: a change of expression
   * cleans the effect up and starts it again, discarding the hold built so far.
   */
  function EmotionChangeAsWritten(s: Engine.GameState): (r: Engine.GameState)
    ensures r.faceCheckProgress == 0.0
    ensures r.phase == s.phase
  {
    EffectStart(EffectCleanup(s))
  }

  /**
   * As written a one-frame flicker of expression during a hold at 0.8 throws the whole hold
   * away, and the drain branch only ever starts from 0, so it never lowers a positive hold.
   */
  lemma FlickerDiscardsHoldAsWritten(s: Engine.GameState, dts: seq<real>, duration: real)
    requires duration != 0.0
    requires s.phase == Engine.FaceCheck && s.faceCheckProgress == 0.8
    requires forall i :: 0 <= i < |dts| ==> dts[i] >= 0.0
    ensures EmotionChangeAsWritten(s).faceCheckProgress == 0.0
    ensures HoldLoop(EmotionChangeAsWritten(s).faceCheckProgress, dts, false, duration, false).progress == 0.0
  {
    DrainFromZeroStaysZero(dts, duration);
  }

  lemma {:induction false} DrainFromZeroStaysZero(dts: seq<real>, duration: real)
    requires duration != 0.0
    requires forall i :: 0 <= i < |dts| ==> dts[i] >= 0.0
    ensures HoldLoop(0.0, dts, false, duration, false).progress == 0.0
    decreases |dts|
  {
    if |dts| > 0 {
      var rest := dts[1..];
      assert forall i :: 0 <= i < |rest| ==> rest[i] == dts[i + 1];
      DrainFromZeroStaysZero(rest, duration);
    }
  }

  /** One animation frame seen by a loop that reads the current emotion: its length and that emotion. */
  datatype Frame = Frame(dt: real, emotion: Emotion)

  /**
   * The hold loop reading the detected emotion on every frame instead of restarting on each
   * change: a non-matching frame drains the hold as the decay rate intends.
   */
  function HoldLoopLive(p: real, frames: seq<Frame>, required: Emotion, duration: real, penalty: bool): (o: HoldOutcome)
    requires duration != 0.0
    ensures o.frames <= |frames|
    ensures o.completion.None? ==> o.frames == |frames|
    ensures o.completion.Some? ==> o.frames >= 1 && o.progress >= 1.0
    ensures 0.0 <= p <= 1.0 && duration > 0.0 && (forall i :: 0 <= i < |frames| ==> frames[i].dt >= 0.0) ==>
      0.0 <= o.progress <= 1.0
    decreases |frames|
  {
    if |frames| == 0 then HoldOutcome(p, None, 0)
    else
      var t := TickStep(p, IsMatch(required, frames[0].emotion), frames[0].dt, duration, penalty);
      if t.completion.Some? then HoldOutcome(t.progress, t.completion, 1)
      else
        assert forall i :: 1 <= i < |frames| ==> frames[1..][i - 1] == frames[i];
        var o := HoldLoopLive(t.progress, frames[1..], required, duration, penalty);
        HoldOutcome(o.progress, o.completion, o.frames + 1)
  }

  /**
   * In the live loop a flicker costs at most `0.6 * dt`: a non-matching frame of a hold at `p`
   * leaves at least `p - 0.6 * dt`, so a hold above that survives the flicker.
   */
  lemma FlickerCostsAtMostDecay(p: real, f: Frame, required: Emotion, duration: real, penalty: bool)
    requires duration != 0.0
    requires f.emotion != required && p < 1.0 && f.dt >= 0.0
    ensures HoldLoopLive(p, [f], required, duration, penalty).completion.None?
    ensures HoldLoopLive(p, [f], required, duration, penalty).progress >= p - Decay * f.dt
    ensures p > Decay * f.dt ==> HoldLoopLive(p, [f], required, duration, penalty).progress > 0.0
  {
    IsMatchIsEquality(required, f.emotion);
    var t := TickStep(p, false, f.dt, duration, penalty);
    assert [f][1..] == [];
    assert HoldLoopLive(t.progress, [], required, duration, penalty).progress == t.progress;
  }

  // ----- Head-gesture completion -----

  /** The gesture effect's condition: the gesture phase, a required gesture, and that gesture detected. */
  predicate GestureReady(s: Engine.GameState, last: Option<HeadGesture>) {
    s.phase == Engine.HeadGestureCheck && s.headGestureRequired.Some? && last == s.headGestureRequired
  }

  /**
   * The timer the gesture effect sets, 250 ms later: `completeHeadGesture` (an `advanceLine`)
   * and then `clearHeadGesture`. A dependency change in between cancels it, so it fires only if
   * the condition still holds.
   */
  function GestureTimer(s: Engine.GameState, g: FaceDetection.GestureState, order: seq<nat>)
    : (r: (Engine.GameState, FaceDetection.GestureState))
    ensures GestureReady(s, g.lastHeadGesture) ==>
      r.0 == Engine.AdvanceLine(s, order) && r.1.lastHeadGesture.None? && |r.1.history| == 0
    ensures !GestureReady(s, g.lastHeadGesture) ==> r == (s, g)
  {
    if GestureReady(s, g.lastHeadGesture) then (Engine.AdvanceLine(s, order), FaceDetection.ClearHeadGesture())
    else (s, g)
  }

  /** After the gesture completes the detector is cleared, so the same nod cannot complete the next line. */
  lemma GestureCompletesOnce(s: Engine.GameState, g: FaceDetection.GestureState, order: seq<nat>, order': seq<nat>)
    requires GestureReady(s, g.lastHeadGesture)
    ensures var r := GestureTimer(s, g, order);
      !GestureReady(r.0, r.1.lastHeadGesture) && GestureTimer(r.0, r.1, order') == r
  {
  }
}
