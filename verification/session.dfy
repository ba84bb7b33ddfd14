/**
 * Sequences of hook callbacks: every callback the hook returns is one `Call`, carrying the random
 * draws it consumes, and `Run` applies a list of them in order. The invariants here are the
 * bookkeeping facts every reachable state keeps.
 */
module Session {
  import opened Wrappers
  import opened GameData
  import Engine

  /** One invocation of a callback of the hook; `restartGame` (a page reload) is not one. */
  datatype Call =
    | BeginIntro
    | StartGame(dice: Engine.Dice)
    | StartSequence(order: seq<nat>)
    | AdvanceLine(order: seq<nat>)
    | SetFaceWarning(warning: bool, countdown: int)
    | FailFaceCheck
    | FailFaceCheckTimer(order: seq<nat>)
    | CompleteFaceCheck(order: seq<nat>)
    | CompleteAction(order: seq<nat>)
    | HandleWrongAction
    | CompleteWrongActionPenalty(order: seq<nat>)
    | CompleteHeadGesture(order: seq<nat>)
    | NextLevel(dice: Engine.Dice)
    | UpdateFaceProgress(progress: real)

  /**
   * The state facts every callback keeps: at most two lives, a level of the table, a score that
   * never went negative, scripts that are well formed, and one served customer per level reached,
   * the last of them being the current customer.
   */
  predicate Valid(s: Engine.GameState) {
    && 0 <= s.lives <= 2
    && s.currentLevel <= |Levels|
    && s.score >= 0
    && (forall q :: q in s.sequences ==> ScriptWellFormed(q))
    && (s.levelData.Some? ==> s.levelData.value in Levels)
    && |s.usedCustomerIds| == s.currentLevel
    && (s.currentLevel >= 1 ==>
          && s.levelData == Some(Levels[s.currentLevel - 1])
          && s.customer.Some? && s.customer.value in Customers
          && InTier(s.customer.value, s.currentLevel)
          && s.usedCustomerIds[s.currentLevel - 1] == s.customer.value.id)
  }

  /** The initial state satisfies the invariant. */
  lemma InitialStateValid()
    ensures Valid(Engine.InitialState())
  {
  }

  /** Every script in a valid state has a first line, so `startSequence` never faults. */
  lemma ValidCursorScriptNonEmpty(s: Engine.GameState)
    requires Valid(s)
    ensures Engine.CursorScriptNonEmpty(s)
  {
    if s.currentSequenceIndex < |s.sequences| {
      assert s.sequences[s.currentSequenceIndex] in s.sequences;
    }
  }

  /** Whether a call can award the level bonus, i.e. runs `advanceLine`. */
  predicate Advances(c: Call) {
    c.AdvanceLine? || c.FailFaceCheckTimer? || c.CompleteFaceCheck? || c.CompleteAction?
      || c.CompleteWrongActionPenalty? || c.CompleteHeadGesture?
  }

  /**
   * One callback. The `complete*` callbacks are `advanceLine`; the continuation of
   * `failFaceCheck` is the one as written, whose game-over check covers only hiding Mom.
   */
  function Apply(s: Engine.GameState, c: Call): Engine.GameState
    requires Valid(s)
  {
    match c
    case BeginIntro => Engine.BeginIntro(s)
    case StartGame(dice) => Engine.StartGame(s, dice)
    case StartSequence(order) => ValidCursorScriptNonEmpty(s); Engine.StartSequence(s, order)
    case AdvanceLine(order) => Engine.AdvanceLine(s, order)
    case SetFaceWarning(w, n) => Engine.SetFaceWarning(s, w, n)
    case FailFaceCheck => Engine.FailFaceCheck(s)
    case FailFaceCheckTimer(order) => Engine.FailFaceCheckTimerAsWritten(s, order)
    case CompleteFaceCheck(order) => Engine.AdvanceLine(s, order)
    case CompleteAction(order) => Engine.AdvanceLine(s, order)
    case HandleWrongAction => Engine.HandleWrongAction(s)
    case CompleteWrongActionPenalty(order) => Engine.CompleteWrongActionPenalty(s, order)
    case CompleteHeadGesture(order) => Engine.AdvanceLine(s, order)
    case NextLevel(dice) => Engine.NextLevel(s, dice)
    case UpdateFaceProgress(p) => Engine.UpdateFaceProgress(s, p)
  }

  /** The phases no callback enters: the screen's `sequence_end` effect therefore never runs. */
  predicate Unentered(p: Engine.GamePhase) {
    p.Splash? || p.Tutorial? || p.Playing? || p.SequenceEnd?
  }

  /** What one step may do to lives, score and phase. */
  predicate StepFacts(s: Engine.GameState, c: Call, r: Engine.GameState) {
    && Valid(r)
    && (Unentered(r.phase) ==> r.phase == s.phase)
    && (!c.BeginIntro? ==> s.lives - 1 <= r.lives <= s.lives)
    && (r.score != s.score ==>
          (c.BeginIntro? && r.score == 0)
          || (Advances(c) && r.phase == Engine.LevelComplete && r.score == s.score + s.currentLevel * 100))
  }

  /** `advanceLine` stays in the round, keeps lives, and changes the score only when it completes the level. */
  lemma AdvanceLineStaysInRound(s: Engine.GameState, order: seq<nat>)
    ensures var r := Engine.AdvanceLine(s, order);
      && Engine.SameRound(r, s) && r.lives == s.lives && r.score >= s.score
      && (Unentered(r.phase) ==> r.phase == s.phase)
      && (r.score != s.score ==> r.phase == Engine.LevelComplete && r.score == s.score + s.currentLevel * 100)
  {
    var r := Engine.AdvanceLine(s, order);
    if s.currentSequenceIndex < |s.sequences| && !Engine.AtScriptEnd(s) {
      var line := s.sequences[s.currentSequenceIndex].lines[s.currentLineIndex + 1];
      assert r.phase == Engine.PhaseForLine(line);
    }
  }

  /** `advanceLine` keeps the invariant and changes the score only when it completes the level. */
  lemma AdvanceLineKeepsValid(s: Engine.GameState, order: seq<nat>)
    requires Valid(s)
    ensures var r := Engine.AdvanceLine(s, order);
      && Valid(r) && r.lives == s.lives && (Unentered(r.phase) ==> r.phase == s.phase)
      && (r.score != s.score ==> r.phase == Engine.LevelComplete && r.score == s.score + s.currentLevel * 100)
  {
    AdvanceLineStaysInRound(s, order);
    SameRoundValid(s, Engine.AdvanceLine(s, order));
  }

  /** A script of the content is well formed. */
  lemma ContentScriptWellFormed(q: ConversationSequence)
    requires q in Sequences
    ensures ScriptWellFormed(q)
  {
    ScriptsWellFormed();
  }

  /** The facts `nextLevel` establishes about a new level are enough for the invariant. */
  lemma SetUpLevelValid(s: Engine.GameState, r: Engine.GameState)
    requires Valid(s)
    requires r.currentLevel == s.currentLevel + 1 <= |Levels|
    requires r.levelData == Some(Levels[s.currentLevel])
    requires r.customer.Some? && r.customer.value in Customers && InTier(r.customer.value, r.currentLevel)
    requires r.usedCustomerIds == s.usedCustomerIds + [r.customer.value.id]
    requires forall q :: q in r.sequences ==> q in Sequences
    requires r.lives == s.lives && r.score == s.score
    ensures Valid(r)
  {
    forall q | q in r.sequences ensures ScriptWellFormed(q) {
      ContentScriptWellFormed(q);
    }
  }

  /** `nextLevel` keeps the invariant: the new level's entry, customer and served list line up. */
  lemma NextLevelKeepsValid(s: Engine.GameState, dice: Engine.Dice)
    requires Valid(s)
    ensures var r := Engine.NextLevel(s, dice);
      Valid(r) && r.lives == s.lives && r.score == s.score && (r.phase.SequenceIntro? || r.phase.Victory?)
  {
    var r := Engine.NextLevel(s, dice);
    if s.currentLevel + 1 <= |Levels| {
      SetUpLevelValid(s, r);
    }
  }

  /** `startGame` keeps the invariant. */
  lemma StartGameKeepsValid(s: Engine.GameState, dice: Engine.Dice)
    requires Valid(s)
    ensures var r := Engine.StartGame(s, dice); Valid(r) && r.lives == s.lives && r.score == s.score
  {
    LevelsWellFormed();
    var r := Engine.StartGame(s, dice);
    assert InTier(r.customer.value, 1);
    forall q | q in r.sequences ensures ScriptWellFormed(q) {
      ContentScriptWellFormed(q);
    }
  }

  lemma ApplyStartGame(s: Engine.GameState, dice: Engine.Dice)
    requires Valid(s)
    ensures StepFacts(s, StartGame(dice), Engine.StartGame(s, dice))
  {
    StartGameKeepsValid(s, dice);
  }

  lemma ApplyNextLevel(s: Engine.GameState, dice: Engine.Dice)
    requires Valid(s)
    ensures StepFacts(s, NextLevel(dice), Engine.NextLevel(s, dice))
  {
    NextLevelKeepsValid(s, dice);
  }

  lemma ApplyStartSequence(s: Engine.GameState, order: seq<nat>)
    requires Valid(s)
    ensures Engine.CursorScriptNonEmpty(s)
    ensures StepFacts(s, StartSequence(order), Engine.StartSequence(s, order))
  {
    ValidCursorScriptNonEmpty(s);
    var r := Engine.StartSequence(s, order);
    if s.currentSequenceIndex < |s.sequences| {
      assert r.phase == Engine.PhaseForLine(s.sequences[s.currentSequenceIndex].lines[0]);
    }
    assert Engine.SameRound(r, s) && r.lives == s.lives && r.score == s.score;
    SameRoundValid(s, r);
  }

  /** The calls that run `advanceLine` directly. */
  lemma ApplyAdvancing(s: Engine.GameState, c: Call, order: seq<nat>)
    requires Valid(s) && Advances(c)
    ensures StepFacts(s, c, Engine.AdvanceLine(s, order))
  {
    AdvanceLineKeepsValid(s, order);
  }

  /** `completeWrongActionPenalty` hides Mom, then runs `advanceLine`. */
  lemma ApplyPenaltyDone(s: Engine.GameState, order: seq<nat>)
    requires Valid(s)
    ensures StepFacts(s, CompleteWrongActionPenalty(order), Engine.CompleteWrongActionPenalty(s, order))
  {
    var h := s.(showMom := false);
    HiddenAdvanceFacts(s, h, CompleteWrongActionPenalty(order), order);
  }

  /** Hiding Mom and then advancing meets the step facts of a call that advances. */
  lemma HiddenAdvanceFacts(s: Engine.GameState, h: Engine.GameState, c: Call, order: seq<nat>)
    requires Valid(s) && Advances(c) && h == s.(showMom := false)
    ensures StepFacts(s, c, Engine.AdvanceLine(h, order))
  {
    SameRoundValid(s, h);
    AdvanceLineKeepsValid(h, order);
  }

  /**
   * The continuation of `failFaceCheck`, as written (an advance even out of game over) and with
   * the guard covering the advance, both keep the step facts.
   */
  lemma ApplyFailTimer(s: Engine.GameState, order: seq<nat>)
    requires Valid(s)
    ensures StepFacts(s, FailFaceCheckTimer(order), Engine.FailFaceCheckTimerAsWritten(s, order))
    ensures StepFacts(s, FailFaceCheckTimer(order), Engine.FailFaceCheckTimer(s, order))
  {
    if s.phase != Engine.GameOver {
      HiddenAdvanceFacts(s, s.(showMom := false), FailFaceCheckTimer(order), order);
    } else {
      AdvanceLineKeepsValid(s, order);
    }
  }

  /** A state of the same round, with lives in range and the score kept or cleared, is valid. */
  lemma SameRoundValid(s: Engine.GameState, r: Engine.GameState)
    requires Valid(s) && Engine.SameRound(r, s)
    requires 0 <= r.lives <= 2 && r.score >= 0
    ensures Valid(r)
  {
  }

  lemma ApplyBeginIntro(s: Engine.GameState)
    requires Valid(s)
    ensures StepFacts(s, BeginIntro, Engine.BeginIntro(s))
  {
    var r := Engine.BeginIntro(s);
    assert r.levelData.Some? ==> r.levelData.value in Levels;
  }

  lemma ApplyLifeLoss(s: Engine.GameState)
    requires Valid(s)
    ensures StepFacts(s, FailFaceCheck, Engine.FailFaceCheck(s))
    ensures StepFacts(s, HandleWrongAction, Engine.HandleWrongAction(s))
  {
    SameRoundValid(s, Engine.FailFaceCheck(s));
    SameRoundValid(s, Engine.HandleWrongAction(s));
  }

  lemma ApplyFaceFields(s: Engine.GameState, warning: bool, countdown: int, progress: real)
    requires Valid(s)
    ensures StepFacts(s, SetFaceWarning(warning, countdown), Engine.SetFaceWarning(s, warning, countdown))
    ensures StepFacts(s, UpdateFaceProgress(progress), Engine.UpdateFaceProgress(s, progress))
  {
    SameRoundValid(s, Engine.SetFaceWarning(s, warning, countdown));
    SameRoundValid(s, Engine.UpdateFaceProgress(s, progress));
  }

  /**
   * Every callback keeps the invariant; lives only fall, by at most one, except on `beginIntro`;
   * the score changes only when `beginIntro` clears it or a level completes with its bonus; and
   * no callback enters `splash`, `tutorial`, `playing` or `sequence_end`.
   */
  lemma ApplyKeepsValid(s: Engine.GameState, c: Call)
    requires Valid(s)
    ensures StepFacts(s, c, Apply(s, c))
  {
    match c
    case BeginIntro => ApplyBeginIntro(s);
    case StartGame(dice) => ApplyStartGame(s, dice);
    case StartSequence(order) => ApplyStartSequence(s, order);
    case AdvanceLine(order) => ApplyAdvancing(s, c, order);
    case SetFaceWarning(w, n) => ApplyFaceFields(s, w, n, 0.0);
    case FailFaceCheck => ApplyLifeLoss(s);
    case FailFaceCheckTimer(order) => ApplyFailTimer(s, order);
    case CompleteFaceCheck(order) => ApplyAdvancing(s, c, order);
    case CompleteAction(order) => ApplyAdvancing(s, c, order);
    case HandleWrongAction => ApplyLifeLoss(s);
    case CompleteWrongActionPenalty(order) => ApplyPenaltyDone(s, order);
    case CompleteHeadGesture(order) => ApplyAdvancing(s, c, order);
    case NextLevel(dice) => ApplyNextLevel(s, dice);
    case UpdateFaceProgress(p) => ApplyFaceFields(s, false, 0, p);
  }

  /**
   * A list of callbacks in order. The invariant holds throughout; without `beginIntro` lives
   * never rise and the score never falls.
   */
  function Run(s: Engine.GameState, calls: seq<Call>): (r: Engine.GameState)
    requires Valid(s)
    ensures Valid(r)
    ensures (forall i :: 0 <= i < |calls| ==> !calls[i].BeginIntro?) ==> r.lives <= s.lives && r.score >= s.score
    decreases |calls|
  {
    if |calls| == 0 then s
    else
      ApplyKeepsValid(s, calls[0]);
      var t := Apply(s, calls[0]);
      assert forall i :: 1 <= i < |calls| ==> calls[1..][i - 1] == calls[i];
      Run(t, calls[1..])
  }

  /** A new game from any valid state: full lives, no score, level 1 with a tier-1 customer. */
  lemma StartGameAfterIntro(s: Engine.GameState, dice: Engine.Dice)
    requires Valid(s)
    ensures var r := Run(s, [BeginIntro, StartGame(dice)]);
      && r.lives == 2 && r.score == 0 && r.currentLevel == 1
      && r.customer.Some? && r.customer.value.difficulty == 1
      && r.usedCustomerIds == [r.customer.value.id]
  {
    ApplyKeepsValid(s, BeginIntro);
    var t := Apply(s, BeginIntro);
    assert Run(s, [BeginIntro, StartGame(dice)]) == Run(t, [StartGame(dice)]);
    assert Run(t, [StartGame(dice)]) == Run(Apply(t, StartGame(dice)), []);
  }
}
