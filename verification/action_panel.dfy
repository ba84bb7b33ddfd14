/**
 * The action panel (src/components/game/ActionPanel.tsx): in minigame mode the player first
 * picks an action, then plays that action's minigame; its outcome and the pick decide whether the
 * panel reports a correct or a wrong action. Without minigames a click decides directly.
 */
module ActionPanel {
  import opened Wrappers
  import opened GameData
  import Engine
  import Minigames

  /** The callback the panel invokes on the game. */
  datatype Verdict = OnCorrect | OnWrong | NoVerdict

  /** The panel's only state: the action picked, if any. */
  datatype Panel = Panel(selected: Option<ActionType>)

  /** The effect on a new line or new choices: the pick is cleared. */
  function Reset(): (p: Panel)
    ensures p.selected.None?
  {
    Panel(None)
  }

  /** An action button of the chooser, shown only while nothing is picked. */
  function Select(p: Panel, a: ActionType): (r: Panel)
    ensures p.selected.None? ==> r.selected == Some(a)
    ensures p.selected.Some? ==> r == p
  {
    if p.selected.None? then Panel(Some(a)) else p
  }

  /**
   * `handleMinigameComplete`: the pick is cleared and exactly one callback runs, the correct
   * one exactly when the picked action is the line's action.
   */
  function MinigameComplete(p: Panel, correct: ActionType): (r: (Panel, Verdict))
    requires p.selected.Some?
    ensures r.0.selected.None?
    ensures r.1 == OnCorrect <==> p.selected.value == correct
    ensures r.1 != NoVerdict
  {
    (Panel(None), if p.selected.value == correct then OnCorrect else OnWrong)
  }

  /**
   * The minigame's `onFail`: a wrong pick is reported as wrong, failing the right minigame costs
   * nothing, and the pick is cleared either way.
   */
  function MinigameFail(p: Panel, correct: ActionType): (r: (Panel, Verdict))
    requires p.selected.Some?
    ensures r.0.selected.None?
    ensures r.1 == OnWrong <==> p.selected.value != correct
    ensures r.1 != OnCorrect
  {
    (Panel(None), if p.selected.value != correct then OnWrong else NoVerdict)
  }

  /** Plain-button mode: correct exactly when the clicked action is the line's action. */
  function ButtonClick(a: ActionType, correct: ActionType): (v: Verdict)
    ensures v == OnCorrect <==> a == correct
    ensures v != NoVerdict
  {
    if a == correct then OnCorrect else OnWrong
  }

  /**
   * A minigame signal as the panel sees it: a completion runs `handleMinigameComplete`, a
   * failure runs `onFail`, anything else leaves the panel alone.
   */
  function OnSignal(p: Panel, correct: ActionType, g: Minigames.Signal): (r: (Panel, Verdict))
    requires p.selected.Some?
    ensures Minigames.Completes(g) ==> r == MinigameComplete(p, correct)
    ensures (g == Minigames.Fail || g == Minigames.FailAfter500) ==> r == MinigameFail(p, correct)
    ensures g == Minigames.Silent ==> r == (p, NoVerdict)
  {
    if Minigames.Completes(g) then MinigameComplete(p, correct)
    else if g == Minigames.Fail || g == Minigames.FailAfter500 then MinigameFail(p, correct)
    else (p, NoVerdict)
  }

  /** The panel's callbacks as the gameplay screen binds them: `completeAction` and `handleWrongAction`. */
  function Dispatch(s: Engine.GameState, v: Verdict, order: seq<nat>): (r: Engine.GameState)
    ensures v == OnCorrect ==> r == Engine.AdvanceLine(s, order)
    ensures v == OnWrong ==> r == Engine.HandleWrongAction(s)
    ensures v == NoVerdict ==> r == s
  {
    match v
    case OnCorrect => Engine.AdvanceLine(s, order)
    case OnWrong => Engine.HandleWrongAction(s)
    case NoVerdict => s
  }

  /**
   * Picking the line's action and failing its minigame leaves the game untouched (the player may
   * pick again); picking another action costs a life whether its minigame completes or fails.
   */
  lemma MinigameOutcomes(s: Engine.GameState, a: ActionType, correct: ActionType, order: seq<nat>)
    ensures a == correct ==> Dispatch(s, MinigameFail(Panel(Some(a)), correct).1, order) == s
    ensures a == correct ==> Dispatch(s, MinigameComplete(Panel(Some(a)), correct).1, order) == Engine.AdvanceLine(s, order)
    ensures a != correct && s.lives >= 1 ==>
      Dispatch(s, MinigameComplete(Panel(Some(a)), correct).1, order).lives == s.lives - 1
    ensures a != correct && s.lives >= 1 ==>
      Dispatch(s, MinigameFail(Panel(Some(a)), correct).1, order).lives == s.lives - 1
  {
  }

  /**
   * As written, a Pack pick taped and then finished within 400 ms is judged twice: the finish
   * button and the tape's timer each run the completion handler, and both copies hold the pick.
   * A wrong pick therefore ends the game from two lives; the right pick advances two lines.
   */
  lemma PackDoubleVerdictAsWritten(s: Engine.GameState, correct: ActionType, o1: seq<nat>, o2: seq<nat>)
    requires s.lives == 2
    ensures var pick := Panel(Some(Pack));
      var (box, later) := Minigames.Tape(Minigames.Pack(3, 3, false, false));
      var now := Minigames.Finish(box);
      var r := Dispatch(Dispatch(s, OnSignal(pick, correct, now).1, o1), OnSignal(pick, correct, later).1, o2);
      && (correct != Pack ==> r.phase == Engine.GameOver && r.lives == 0)
      && (correct == Pack ==> r == Engine.AdvanceLine(Engine.AdvanceLine(s, o1), o2))
  {
  }

  /**
   * With the packing game completing at most once, the same taps give one verdict: a wrong pick
   * costs one life and starts the penalty, the right pick advances one line.
   */
  lemma PackSingleVerdictOnce(s: Engine.GameState, correct: ActionType, o1: seq<nat>, o2: seq<nat>)
    requires s.lives == 2
    ensures var pick := Panel(Some(Pack));
      var (box, later) := Minigames.PackStepOnce(Minigames.PackOnce(Minigames.Pack(3, 3, false, false), false), Minigames.ClickTape);
      var now := Minigames.PackStepOnce(box, Minigames.ClickFinish).1;
      var r := Dispatch(Dispatch(s, OnSignal(pick, correct, now).1, o1), OnSignal(pick, correct, later).1, o2);
      && (correct != Pack ==> r.phase == Engine.WrongActionPenalty && r.lives == 1)
      && (correct == Pack ==> r == Engine.AdvanceLine(s, o2))
  {
    var sealed := Minigames.PackOnce(Minigames.Pack(3, 3, true, false), true);
    assert Minigames.PackStepOnce(Minigames.PackOnce(Minigames.Pack(3, 3, false, false), false), Minigames.ClickTape)
      == (sealed, Minigames.CompleteAfter400);
    assert Minigames.PackStepOnce(sealed, Minigames.ClickFinish).1 == Minigames.Silent;
    assert Dispatch(s, OnSignal(Panel(Some(Pack)), correct, Minigames.Silent).1, o1) == s;
  }

  /**
   * Exactly one of the buttons offered on a well-formed action line is judged correct: the
   * line's action is offered, and it is offered once.
   */
  lemma OfferedChoicesJudged(line: DialogLine, order: seq<nat>)
    requires LineWellFormed(line) && line.action.Some?
    ensures var cs := Engine.BuildActionChoices(line, order);
      exists i :: 0 <= i < |cs| && ButtonClick(cs[i], line.action.value) == OnCorrect
    ensures var cs := Engine.BuildActionChoices(line, order);
      forall i, j ::
        (0 <= i < |cs| && 0 <= j < |cs| && ButtonClick(cs[i], line.action.value) == OnCorrect
         && ButtonClick(cs[j], line.action.value) == OnCorrect) ==> i == j
  {
    var cs := Engine.BuildActionChoices(line, order);
    Engine.CorrectActionOfferedOnce(line, order);
    assert line.action.value in multiset(cs);
    var k :| 0 <= k < |cs| && cs[k] == line.action.value;
    assert ButtonClick(cs[k], line.action.value) == OnCorrect;
  }
}
