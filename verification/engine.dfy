/**
 * The game-progression engine of src/hooks/useGameState.ts. Every callback of the hook is a
 * `setState(s => ...)` updater and is modelled as a pure function from state to state. Random
 * choices arrive as oracle arguments and Mom's messages as the reaction list they are drawn from.
 */
module Engine {
  import opened Wrappers
  import opened Seqs
  import opened GameData

  /**
   * The phases of play. `Splash` is the initial phase although the source's phase union does
   * not list it; `Playing` and `SequenceEnd` are listed but no callback enters them.
   */
  datatype GamePhase =
    | Splash | Intro | Tutorial | Playing | SequenceIntro | Dialog | FaceCheck | Action
    | HeadGestureCheck | WrongActionPenalty | SequenceEnd | LevelComplete | GameOver | Victory

  /** The phases named by the source's `GamePhase` type. */
  predicate Declared(p: GamePhase) {
    p != Splash
  }

  /** Mom's bubble, reduced to the list of reactions (or the customer's greetings) it came from. */
  datatype MomMessage =
    | NoMessage | Greeting(customer: CustomerId) | SuccessReaction | FailReaction
    | GameOverReaction | WrongActionReaction | VictoryReaction

  datatype GameState = GameState(
    phase: GamePhase,
    currentLevel: nat,
    lives: int,
    customer: Option<CustomerData>,
    levelData: Option<LevelData>,
    sequences: seq<ConversationSequence>,
    currentSequenceIndex: nat,
    currentLineIndex: nat,
    currentLine: Option<DialogLine>,
    momMessage: MomMessage,
    showMom: bool,
    faceCheckProgress: real,
    faceCheckRequired: Option<Emotion>,
    faceCheckDuration: real,
    faceCheckWarning: bool,
    faceCheckWarningCountdown: int,
    headGestureRequired: Option<HeadGesture>,
    score: int,
    usedCustomerIds: seq<CustomerId>,
    actionChoices: seq<ActionType>,
    correctAction: Option<ActionType>)

  /** The random draws a level set-up consumes: one for the customer, a shuffle oracle for the scripts. */
  datatype Dice = Dice(customerDraw: Draw, order: seq<nat>)

  /** `INITIAL_STATE`: two lives, level 0, nothing chosen yet, in a phase outside the declared union. */
  function InitialState(): (s: GameState)
    ensures s.phase == Splash && !Declared(s.phase)
    ensures s.lives == 2 && s.currentLevel == 0 && s.score == 0
    ensures s.customer.None? && s.levelData.None? && |s.sequences| == 0 && s.currentLine.None?
    ensures |s.usedCustomerIds| == 0 && |s.actionChoices| == 0
  {
    GameState(Splash, 0, 2, None, None, [], 0, 0, None, NoMessage, false,
      0.0, None, 0.0, false, 0, None, 0, [], [], None)
  }

  /** The fields that describe the round in play; the per-line and per-message fields are the rest. */
  predicate SameRound(a: GameState, b: GameState) {
    && a.currentLevel == b.currentLevel
    && a.customer == b.customer
    && a.levelData == b.levelData
    && a.sequences == b.sequences
    && a.usedCustomerIds == b.usedCustomerIds
  }

  // ----- Per-line helpers -----

  /**
   * `getPhaseForLine`: the first gate present, in the order required emotion, head gesture,
   * action; a line without any is plain dialog.
   */
  function PhaseForLine(line: DialogLine): (p: GamePhase)
    ensures p in {FaceCheck, HeadGestureCheck, Action, Dialog}
    ensures p == FaceCheck <==> line.requiredEmotion.Some?
    ensures p == HeadGestureCheck <==> line.requiredEmotion.None? && line.headGesture.Some?
    ensures p == Action <==> line.requiredEmotion.None? && line.headGesture.None? && line.action.Some?
  {
    if line.requiredEmotion.Some? then FaceCheck
    else if line.headGesture.Some? then HeadGestureCheck
    else if line.action.Some? then Action
    else Dialog
  }

  /** On a well-formed line the phase is simply the one gate the line carries. */
  lemma PhaseOfWellFormedLine(line: DialogLine)
    requires LineWellFormed(line)
    ensures PhaseForLine(line) == FaceCheck <==> line.requiredEmotion.Some?
    ensures PhaseForLine(line) == HeadGestureCheck <==> line.headGesture.Some?
    ensures PhaseForLine(line) == Action <==> line.action.Some?
    ensures PhaseForLine(line) == Dialog <==>
      line.requiredEmotion.None? && line.headGesture.None? && line.action.None?
  {
  }

  /** The options an action line offers: the correct action followed by the wrong ones. */
  function ActionOptions(line: DialogLine): seq<ActionType> {
    if line.action.None? then [] else [line.action.value] + line.wrongActions.GetOr([])
  }

  /** `buildActionChoices`: no buttons for a line without action, else some ordering of its options. */
  function BuildActionChoices(line: DialogLine, order: seq<nat>): (choices: seq<ActionType>)
    ensures line.action.None? ==> choices == []
    ensures multiset(choices) == multiset(ActionOptions(line))
  {
    if line.action.None? then [] else Shuffle(ActionOptions(line), order)
  }

  /** Every ordering of the options is produced by some shuffle oracle. */
  lemma ActionChoicesReachEveryOrder(line: DialogLine, choices: seq<ActionType>) returns (order: seq<nat>)
    requires line.action.Some?
    requires multiset(choices) == multiset(ActionOptions(line))
    ensures BuildActionChoices(line, order) == choices
  {
    order := ShuffleReachesEveryPermutation(ActionOptions(line), choices);
  }

  /** On a well-formed action line the correct action is offered exactly once and no option repeats. */
  lemma CorrectActionOfferedOnce(line: DialogLine, order: seq<nat>)
    requires LineWellFormed(line) && line.action.Some?
    ensures multiset(BuildActionChoices(line, order))[line.action.value] == 1
    ensures NoDups(BuildActionChoices(line, order))
  {
    var opts := ActionOptions(line);
    var wrong := line.wrongActions.value;
    assert opts == [line.action.value] + wrong;
    assert NoDups(opts) by {
      forall i, j | 0 <= i < j < |opts| ensures opts[i] != opts[j] {
        if i == 0 {
          assert opts[j] == wrong[j - 1];
        } else {
          assert opts[i] == wrong[i - 1] && opts[j] == wrong[j - 1];
        }
      }
    }
    assert multiset(opts)[line.action.value] == 1 by {
      assert multiset(opts) == multiset{line.action.value} + multiset(wrong);
    }
    PermutationKeepsNoDups(opts, BuildActionChoices(line, order));
  }

  /** JavaScript's `x || d` on a number: a missing or zero value gives the default. */
  function NumberOr(x: Option<real>, d: real): real {
    if x.Some? && x.value != 0.0 then x.value else d
  }

  /** `(holdDuration || 3) * (levelData?.holdDurationMultiplier || 1)`. */
  function HoldDuration(line: DialogLine, levelData: Option<LevelData>): real {
    NumberOr(line.holdDuration, 3.0)
      * NumberOr(if levelData.Some? then Some(levelData.value.holdDurationMultiplier) else None, 1.0)
  }

  /**
   * For a well-formed line and a level of `LEVELS` (or none) the hold is positive: the scripted
   * hold times the level's multiplier on face-check lines, and the multiplier times 3 elsewhere.
   */
  lemma HoldDurationPositive(line: DialogLine, levelData: Option<LevelData>)
    requires LineWellFormed(line)
    requires levelData.Some? ==> levelData.value in Levels
    ensures HoldDuration(line, levelData) > 0.0
    ensures levelData.Some? && line.holdDuration.Some? ==>
      HoldDuration(line, levelData) == line.holdDuration.value * levelData.value.holdDurationMultiplier
    ensures levelData.None? && line.holdDuration.Some? ==> HoldDuration(line, levelData) == line.holdDuration.value
  {
    LevelsWellFormed();
    if levelData.Some? {
      var i :| 0 <= i < |Levels| && Levels[i] == levelData.value;
      assert Levels[i].holdDurationMultiplier >= 1.0;
    }
  }

  /** The per-line working state a freshly entered `line` at position `index` must have. */
  predicate OnLine(r: GameState, s: GameState, index: nat, line: DialogLine) {
    && r.phase == PhaseForLine(line)
    && r.currentLineIndex == index
    && r.currentLine == Some(line)
    && r.faceCheckProgress == 0.0
    && r.faceCheckRequired == line.requiredEmotion
    && r.faceCheckDuration == HoldDuration(line, s.levelData)
    && !r.faceCheckWarning && r.faceCheckWarningCountdown == 0
    && r.headGestureRequired == line.headGesture
    && !r.showMom
    && multiset(r.actionChoices) == multiset(ActionOptions(line))
    && r.correctAction == line.action
    && r.lives == s.lives && r.score == s.score && r.momMessage == s.momMessage
    && r.currentSequenceIndex == s.currentSequenceIndex
    && SameRound(r, s)
  }

  /** Entering a line: the shared body of `startSequence` and the in-sequence `advanceLine`. */
  function EnterLine(s: GameState, index: nat, line: DialogLine, order: seq<nat>): (r: GameState)
    ensures OnLine(r, s, index, line)
  {
    s.(phase := PhaseForLine(line), currentLineIndex := index, currentLine := Some(line),
       faceCheckProgress := 0.0, faceCheckRequired := line.requiredEmotion,
       faceCheckDuration := HoldDuration(line, s.levelData),
       faceCheckWarning := false, faceCheckWarningCountdown := 0,
       headGestureRequired := line.headGesture, showMom := false,
       actionChoices := BuildActionChoices(line, order), correctAction := line.action)
  }

  // ----- Callbacks -----

  /** `beginIntro`: to the intro with two lives, level 0, no score and no customers served. */
  function BeginIntro(s: GameState): (r: GameState)
    ensures r.phase == Intro && r.lives == 2 && r.currentLevel == 0 && r.score == 0 && r.usedCustomerIds == []
    ensures r.sequences == s.sequences && r.customer == s.customer && r.currentLine == s.currentLine
  {
    s.(phase := Intro, lives := 2, currentLevel := 0, score := 0, usedCustomerIds := [])
  }

  /**
   * `startGame` (also bound as `skipTutorial`): level 1 with a tier-1 customer, that customer's
   * scripts, the cursors at the start and the customer recorded as served. Lives and score are
   * left as they are.
   */
  function StartGame(s: GameState, dice: Dice): (r: GameState)
    ensures r.phase == SequenceIntro && r.currentLevel == 1 && r.levelData == Some(Levels[0])
    ensures r.customer.Some? && r.customer.value in Customers && r.customer.value.difficulty == 1
    ensures r.usedCustomerIds == [r.customer.value.id]
    ensures |r.sequences| >= 1 && forall q :: q in r.sequences ==> q in Sequences && InBand(q, r.customer.value)
    ensures r.currentSequenceIndex == 0 && r.currentLineIndex == 0 && r.currentLine.None?
    ensures r.momMessage == Greeting(r.customer.value.id) && !r.showMom
    ensures r.lives == s.lives && r.score == s.score
  {
    var levelData := Levels[0];
    var customer := GetCustomerForLevel(1, [], dice.customerDraw);
    var sequences := GetSequencesForLevel(levelData, customer, dice.order);
    SequencesForLevelNonEmpty(levelData, customer, dice.order);
    s.(phase := SequenceIntro, currentLevel := 1, levelData := Some(levelData), customer := Some(customer),
       sequences := sequences, currentSequenceIndex := 0, currentLineIndex := 0, currentLine := None,
       momMessage := Greeting(customer.id), showMom := false, usedCustomerIds := [customer.id])
  }

  /** What `startSequence` needs to run without a fault: the script at the cursor has a first line. */
  predicate CursorScriptNonEmpty(s: GameState) {
    s.currentSequenceIndex < |s.sequences| ==> |s.sequences[s.currentSequenceIndex].lines| > 0
  }

  /** `startSequence`: no effect without a script at the cursor, else the script's first line is entered. */
  function StartSequence(s: GameState, order: seq<nat>): (r: GameState)
    requires CursorScriptNonEmpty(s)
    ensures s.currentSequenceIndex >= |s.sequences| ==> r == s
    ensures s.currentSequenceIndex < |s.sequences| ==>
      OnLine(r, s, 0, s.sequences[s.currentSequenceIndex].lines[0])
  {
    if s.currentSequenceIndex >= |s.sequences| then s
    else EnterLine(s, 0, s.sequences[s.currentSequenceIndex].lines[0], order)
  }

  /** The cursor is on the last line of its script. */
  predicate AtScriptEnd(s: GameState)
    requires s.currentSequenceIndex < |s.sequences|
  {
    s.currentLineIndex + 1 >= |s.sequences[s.currentSequenceIndex].lines|
  }

  /**
   * `advanceLine`: within a script the next line is entered; after a script's last line the next
   * script is announced; after the last script the level is complete and earns `level * 100`.
   */
  function AdvanceLine(s: GameState, order: seq<nat>): (r: GameState)
    ensures s.currentSequenceIndex >= |s.sequences| ==> r == s
    ensures s.currentSequenceIndex < |s.sequences| && !AtScriptEnd(s) ==>
      OnLine(r, s, s.currentLineIndex + 1, s.sequences[s.currentSequenceIndex].lines[s.currentLineIndex + 1])
    ensures s.currentSequenceIndex + 1 < |s.sequences| && AtScriptEnd(s) ==>
      && r.phase == SequenceIntro && r.currentSequenceIndex == s.currentSequenceIndex + 1
      && r.currentLineIndex == 0 && r.currentLine.None?
      && r.showMom && r.momMessage == SuccessReaction
      && r.score == s.score && r.lives == s.lives && SameRound(r, s)
    ensures s.currentSequenceIndex + 1 == |s.sequences| && AtScriptEnd(s) ==>
      && r.phase == LevelComplete && r.score == s.score + s.currentLevel * 100
      && r.showMom && r.momMessage == SuccessReaction
      && r.currentSequenceIndex == s.currentSequenceIndex && r.currentLineIndex == s.currentLineIndex
      && r.lives == s.lives && SameRound(r, s)
  {
    if s.currentSequenceIndex >= |s.sequences| then s
    else
      var script := s.sequences[s.currentSequenceIndex];
      var next := s.currentLineIndex + 1;
      if next >= |script.lines| then
        if s.currentSequenceIndex + 1 >= |s.sequences| then
          s.(phase := LevelComplete, showMom := true, momMessage := SuccessReaction,
             score := s.score + s.currentLevel * 100)
        else
          s.(phase := SequenceIntro, currentSequenceIndex := s.currentSequenceIndex + 1,
             currentLineIndex := 0, currentLine := None, showMom := true, momMessage := SuccessReaction)
      else EnterLine(s, next, script.lines[next], order)
  }

  /**
   * No callback checks the phase: once the level is complete another `advanceLine` awards the
   * level bonus again.
   */
  lemma AdvanceLineRepeatsLevelBonus(s: GameState, order: seq<nat>, order': seq<nat>)
    requires s.currentSequenceIndex + 1 == |s.sequences| && AtScriptEnd(s)
    ensures var t := AdvanceLine(s, order);
      t.phase == LevelComplete && AdvanceLine(t, order').score == s.score + 2 * (s.currentLevel * 100)
  {
  }

  /** `setFaceWarning`: only the warning flag and countdown change. */
  function SetFaceWarning(s: GameState, warning: bool, countdown: int): (r: GameState)
    ensures r.faceCheckWarning == warning && r.faceCheckWarningCountdown == countdown
    ensures r.(faceCheckWarning := s.faceCheckWarning, faceCheckWarningCountdown := s.faceCheckWarningCountdown) == s
  {
    s.(faceCheckWarning := warning, faceCheckWarningCountdown := countdown)
  }

  /** `updateFaceProgress`: only the hold progress changes. */
  function UpdateFaceProgress(s: GameState, progress: real): (r: GameState)
    ensures r.faceCheckProgress == progress
    ensures r.(faceCheckProgress := s.faceCheckProgress) == s
  {
    s.(faceCheckProgress := progress)
  }

  /** Losing a life: at one life or fewer the game is over with no lives left. */
  predicate LostLastLife(r: GameState, s: GameState) {
    && s.lives <= 1
    && r.lives == 0 && r.phase == GameOver && r.showMom && r.momMessage == GameOverReaction
    && r.currentSequenceIndex == s.currentSequenceIndex && r.currentLineIndex == s.currentLineIndex
    && r.currentLine == s.currentLine
    && r.score == s.score && SameRound(r, s)
  }

  /**
   * `failFaceCheck`, the immediate part: one life less with a failure reaction, or game over
   * when that was the last life. The phase is otherwise kept.
   */
  function FailFaceCheck(s: GameState): (r: GameState)
    ensures s.lives <= 1 ==> LostLastLife(r, s)
    ensures s.lives <= 1 ==> r.(lives := s.lives, phase := s.phase, showMom := s.showMom, momMessage := s.momMessage) == s
    ensures s.lives >= 2 ==>
      && r.lives == s.lives - 1 && r.phase == s.phase && r.showMom && r.momMessage == FailReaction
      && r.currentLine == s.currentLine && r.currentLineIndex == s.currentLineIndex
      && r.currentSequenceIndex == s.currentSequenceIndex
      && r.score == s.score && SameRound(r, s)
    ensures s.lives >= 2 ==> r.(lives := s.lives, showMom := s.showMom, momMessage := s.momMessage) == s
  {
    if s.lives - 1 <= 0 then
      s.(lives := 0, phase := GameOver, showMom := true, momMessage := GameOverReaction)
    else
      s.(lives := s.lives - 1, showMom := true, momMessage := FailReaction)
  }

  /** From full lives two failed face checks end the game. */
  lemma TwoFailedChecksEndTheGame(s: GameState)
    requires s.lives == 2
    ensures FailFaceCheck(s).lives == 1 && FailFaceCheck(s).phase == s.phase
    ensures FailFaceCheck(FailFaceCheck(s)).phase == GameOver
    ensures FailFaceCheck(FailFaceCheck(s)).lives == 0
  {
  }

  /**
   * The continuation `failFaceCheck` schedules for 2 s later, as written: Mom is hidden unless
   * the game is over, and then `advanceLine` runs in every case.
   */
  function FailFaceCheckTimerAsWritten(s: GameState, order: seq<nat>): (r: GameState)
    ensures s.phase != GameOver ==> r == AdvanceLine(s.(showMom := false), order)
    ensures s.phase == GameOver ==> r == AdvanceLine(s, order)
  {
    var hidden := if s.phase == GameOver then s else s.(showMom := false);
    AdvanceLine(hidden, order)
  }

  /**
   * The as-written continuation leaves `game_over`: when the failed check cost the last life and
   * the script has another line, play resumes on that line with no lives.
   */
  lemma FailFaceCheckResumesAfterGameOver(s: GameState, order: seq<nat>)
    requires s.lives <= 1
    requires s.currentSequenceIndex < |s.sequences| && !AtScriptEnd(s)
    ensures FailFaceCheck(s).phase == GameOver
    ensures var r := FailFaceCheckTimerAsWritten(FailFaceCheck(s), order);
      r.phase != GameOver && r.lives == 0
  {
  }

  /** The continuation with the game-over check covering the advance as well: game over is final. */
  function FailFaceCheckTimer(s: GameState, order: seq<nat>): (r: GameState)
    ensures s.phase == GameOver ==> r == s
    ensures s.phase != GameOver ==> r == AdvanceLine(s.(showMom := false), order)
  {
    if s.phase == GameOver then s else AdvanceLine(s.(showMom := false), order)
  }

  /** With the guarded continuation a failed check on the last life stays game over. */
  lemma FailFaceCheckTimerKeepsGameOver(s: GameState, order: seq<nat>)
    requires s.lives <= 1
    ensures FailFaceCheckTimer(FailFaceCheck(s), order).phase == GameOver
    ensures FailFaceCheckTimer(FailFaceCheck(s), order).lives == 0
  {
  }

  /**
   * `handleWrongAction`: one life less and a two-second sad-face penalty, or game over on the last
   * life. The line cursors stay where they are.
   */
  function HandleWrongAction(s: GameState): (r: GameState)
    ensures s.lives <= 1 ==> LostLastLife(r, s)
    ensures s.lives <= 1 ==> r.(lives := s.lives, phase := s.phase, showMom := s.showMom, momMessage := s.momMessage) == s
    ensures s.lives >= 2 ==>
      && r.lives == s.lives - 1 && r.phase == WrongActionPenalty
      && r.showMom && r.momMessage == WrongActionReaction
      && r.faceCheckRequired == Some(Sad) && r.faceCheckProgress == 0.0
      && r.faceCheckDuration == 2.0 && !r.faceCheckWarning
      && r.currentLine == s.currentLine && r.currentLineIndex == s.currentLineIndex
      && r.currentSequenceIndex == s.currentSequenceIndex
      && r.score == s.score && SameRound(r, s)
  {
    if s.lives - 1 <= 0 then
      s.(lives := 0, phase := GameOver, showMom := true, momMessage := GameOverReaction)
    else
      s.(lives := s.lives - 1, phase := WrongActionPenalty, showMom := true,
         momMessage := WrongActionReaction, faceCheckRequired := Some(Sad),
         faceCheckProgress := 0.0, faceCheckDuration := 2.0, faceCheckWarning := false)
  }

  /** From full lives two wrong actions end the game. */
  lemma TwoWrongActionsEndTheGame(s: GameState)
    requires s.lives == 2
    ensures HandleWrongAction(s).phase == WrongActionPenalty
    ensures HandleWrongAction(HandleWrongAction(s)).phase == GameOver
    ensures HandleWrongAction(HandleWrongAction(s)).lives == 0
  {
  }

  /** `completeWrongActionPenalty`: Mom is hidden, then the line advances. */
  function CompleteWrongActionPenalty(s: GameState, order: seq<nat>): (r: GameState)
    ensures r == AdvanceLine(s.(showMom := false), order)
    ensures r.lives == s.lives && r.score >= s.score
    ensures s.currentSequenceIndex < |s.sequences| && !AtScriptEnd(s) ==>
      OnLine(r, s.(showMom := false), s.currentLineIndex + 1,
        s.sequences[s.currentSequenceIndex].lines[s.currentLineIndex + 1])
  {
    AdvanceLine(s.(showMom := false), order)
  }

  /**
   * `nextLevel`: past level 6 the game is won with level and score kept; otherwise the next
   * level is set up with a customer of its tier, served for the first time whenever the tier
   * still has one, and that customer's id appended to the served list.
   */
  function NextLevel(s: GameState, dice: Dice): (r: GameState)
    ensures s.currentLevel + 1 > |Levels| ==>
      && r.phase == Victory && r.showMom && r.momMessage == VictoryReaction
      && r.lives == s.lives && r.score == s.score && SameRound(r, s)
    ensures s.currentLevel + 1 <= |Levels| ==>
      && r.phase == SequenceIntro
      && r.currentLevel == s.currentLevel + 1
      && r.levelData == Some(Levels[s.currentLevel])
      && r.currentSequenceIndex == 0 && r.currentLineIndex == 0 && r.currentLine.None?
      && !r.showMom
      && r.customer.Some? && r.customer.value in Customers && InTier(r.customer.value, r.currentLevel)
      && r.usedCustomerIds == s.usedCustomerIds + [r.customer.value.id]
      && ((exists d :: d in Customers && InTier(d, r.currentLevel) && d.id !in s.usedCustomerIds) ==>
            r.customer.value.id !in s.usedCustomerIds)
      && |r.sequences| >= 1
      && (forall q :: q in r.sequences ==> q in Sequences && InBand(q, r.customer.value))
      && r.lives == s.lives && r.score == s.score
  {
    var n := s.currentLevel + 1;
    if n > |Levels| then
      s.(phase := Victory, showMom := true, momMessage := VictoryReaction)
    else
      var levelData := Levels[n - 1];
      LevelsWellFormed();
      var customer := GetCustomerForLevel(n, s.usedCustomerIds, dice.customerDraw);
      var sequences := GetSequencesForLevel(levelData, customer, dice.order);
      SequencesForLevelNonEmpty(levelData, customer, dice.order);
      s.(phase := SequenceIntro, currentLevel := n, levelData := Some(levelData), customer := Some(customer),
         sequences := sequences, currentSequenceIndex := 0, currentLineIndex := 0, currentLine := None,
         showMom := false, usedCustomerIds := s.usedCustomerIds + [customer.id])
  }

  /** After the sixth level the next step is victory. */
  lemma SixthLevelLeadsToVictory(s: GameState, dice: Dice)
    requires s.currentLevel == 6
    ensures NextLevel(s, dice).phase == Victory && NextLevel(s, dice).currentLevel == 6
  {
    LevelsWellFormed();
  }
}
