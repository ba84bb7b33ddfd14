# Emotion-trainer game: a verified model of its core

The game is a webcam-driven shop-counter trainer. Customers arrive level by level and run through
scripted conversations. Each line either plays as dialog, asks the player to hold a facial
expression for some seconds, asks for a nod or a shake, or asks for the right shop action (take,
chop, pack, weigh, bag), which in minigame mode is played out as a small minigame. A wrong action
costs one of two lives and forces a short sad-face penalty; completing the last conversation of a
level earns `level × 100`; after level 6 the game is won.

This project models that core as pure Dafny functions and proves properties of them:

- `GameData` (`game_data.dfy`) holds the content tables: the 18 customers, the 20 scripts with every
  line's gates, and the 6 levels. It also holds `pickRandom`, customer selection by difficulty tier,
  and script selection by band and tag. Lemmas prove the facts the engine relies on: every tier and
  band is staffed, every script is non-empty, and every action line's wrong options exclude the
  right one.
- `FaceDetection` (`face_detection.dfy`) is the expression classifier over blendshape channels and
  the nod/shake detector over a 600 ms window of nose-tip samples.
- `Engine` (`engine.dfy`) holds the game state record and every callback of the game-state hook,
  each as a function from state to state.
- `Session` (`session.dfy`) dispatches the callbacks and proves the invariant that every callback
  keeps.
- `Gameplay` (`gameplay.dfy`) is the per-frame hold integrator of the face check and the gesture
  completion.
- `ActionPanel` (`action_panel.dfy`) and `Minigames` (`minigames.dfy`) are the action buttons and
  the pack, bag and take minigames.
- `Seqs` and `Wrappers` are generic helpers: filter, shuffle, duplicate-freedom, extrema, `Option`.

Randomness is an argument:

- a `Math.random()` draw is a real in [0, 1);
- a shuffle is an oracle list of picks (a selection shuffle); every oracle yields a permutation, and
  every permutation is reachable;
- Mom's messages are reduced to the list they are drawn from;
- frame times (`dt`), the clock (`now`) and the detected emotion or gesture are inputs;
- each `setTimeout` continuation is an explicit later step.

Behaviour of the code that the model makes visible:

- The initial phase `"splash"` is not a member of the declared phase union, which in turn lists
  `"playing"`. No callback enters `playing`, `sequence_end`, `tutorial` or `splash`
  (`Session.ApplyKeepsValid`). The gameplay screen's `sequence_end` effect therefore never runs.
- No callback checks the phase. A second `advanceLine` in `level_complete` pays the level bonus
  again (`Engine.AdvanceLineRepeatsLevelBonus`).
- `failFaceCheck` is not bound by the gameplay screen. A failed hold therefore never costs a life,
  although the tutorial says it does. Its delayed continuation is listed under Findings.
  `Session` dispatches that continuation as written, so `Session.Run` covers the program as it
  stands: the invariant survives even play resumed with no lives. The guarded continuation is
  proved to keep the step facts too (`Session.ApplyFailTimer`).
- The classifier's 0.1 confidence floor can never fire: a non-neutral winner always scores at least
  0.25 (`FaceDetection.ConfidenceFloorUnreachable`).
- Two conditionals are redundant: the match test compares by equality in both branches, and so
  does the smoothing of the emotion (`Gameplay.IsMatchIsEquality`).
- The gesture window keeps samples for 600 ms, although the comment next to it says 500.
- `startGame` does not reset lives or score; only `beginIntro` does.
- In the bag and take minigames the complete button is disabled below the requirement, so their failure path is unreachable through the screen (`Minigames.FinishEnabledIffCompletes`).
- In the pack minigame the tape is only on screen at the last step, so taping never fails through
  the screen. At that step the finish button completes without taping. Pressing it within 400 ms
  after taping, or tapping the sealed tape again, completes the minigame a second time
  (`Minigames.PackCompletesTwice`). Each completion judges the same pick, so one wrong Pack pick
  costs two lives and ends the game. This is listed under Findings.

## Model

| member | source | states |
|---|---|---|
| Seqs.Shuffle | src/data/gameData.ts:710 | the shuffled list has the same length and the same multiset of elements as the pool |
| Seqs.ShuffleReachesEveryPermutation | src/data/gameData.ts:710 | every permutation of the list is produced by some oracle, so the model claims nothing about which order comes out |
| GameData.PickRandom | src/data/gameData.ts:663-665 | an element exists exactly for a non-empty list, and it is an element of that list |
| GameData.PickRandomReachesEveryElement | src/data/gameData.ts:663-665 | every element of a non-empty list is the pick of some draw |
| GameData.TierRange | src/data/gameData.ts:669-675 | level 1 gives [1,1]; levels 2–6 give [level−1, level]; every other level gives [5,6]; each range lies within 1..6 and has width at most 1 |
| GameData.TierStaffed | src/data/gameData.ts:681-687 | every level's range, including the catch-all, holds a customer of the roster, so the fallback never picks from an empty list |
| GameData.GetCustomerForLevel | src/data/gameData.ts:668-689 | the customer is in the roster and in the level's range, and is not among the used ids whenever an unused in-range customer exists |
| GameData.SequencePool | src/data/gameData.ts:691-708 | the pool has no duplicates; it holds exactly the in-band scripts, restricted to those tagged with the customer's temperament or age group when at least `sequenceCount` of them exist |
| GameData.GetSequencesForLevel | src/data/gameData.ts:691-711 | the length is min(pool size, max(1, sequenceCount)); no script repeats; every script is in band; all are tagged when enough tagged scripts exist |
| GameData.BandStaffed | src/data/gameData.ts:693-696 | every customer's band holds at least one script |
| GameData.SequencesForLevelNonEmpty | src/data/gameData.ts:711 | a level with a positive sequence count always gets at least one script |
| GameData.SequencesDistinct | src/data/gameData.ts:280-621 | no script occurs twice in the content |
| GameData.Easy1WellFormed | src/data/gameData.ts:282-294 | script easy_1 is non-empty and each line has at most one gate, a positive hold exactly on face lines, and wrong options that exclude the action and do not repeat |
| GameData.Easy2WellFormed | src/data/gameData.ts:295-307 | the same for easy_2 |
| GameData.Easy3WellFormed | src/data/gameData.ts:308-319 | the same for easy_3 |
| GameData.Easy4WellFormed | src/data/gameData.ts:320-332 | the same for easy_4 |
| GameData.Easy5WellFormed | src/data/gameData.ts:333-345 | the same for easy_5 |
| GameData.Easy6WellFormed | src/data/gameData.ts:346-359 | the same for easy_6 |
| GameData.Med1WellFormed | src/data/gameData.ts:361-375 | the same for med_1 |
| GameData.Med2WellFormed | src/data/gameData.ts:376-390 | the same for med_2 |
| GameData.Med3WellFormed | src/data/gameData.ts:391-405 | the same for med_3 |
| GameData.Med4WellFormed | src/data/gameData.ts:406-420 | the same for med_4 |
| GameData.Med5WellFormed | src/data/gameData.ts:421-436 | the same for med_5 |
| GameData.Med6WellFormed | src/data/gameData.ts:437-452 | the same for med_6 |
| GameData.Hard1WellFormed | src/data/gameData.ts:454-471 | the same for hard_1 |
| GameData.Hard2WellFormed | src/data/gameData.ts:472-490 | the same for hard_2 |
| GameData.Hard3WellFormed | src/data/gameData.ts:491-511 | the same for hard_3 |
| GameData.Hard4WellFormed | src/data/gameData.ts:512-531 | the same for hard_4 |
| GameData.Hard5WellFormed | src/data/gameData.ts:532-551 | the same for hard_5 |
| GameData.Extreme1WellFormed | src/data/gameData.ts:553-575 | the same for extreme_1 |
| GameData.Extreme2WellFormed | src/data/gameData.ts:576-597 | the same for extreme_2 |
| GameData.Extreme3WellFormed | src/data/gameData.ts:598-620 | the same for extreme_3 |
| GameData.ScriptsWellFormed | src/data/gameData.ts:280-621 | every script of the content is non-empty and all its lines are well formed |
| GameData.LevelsWellFormed | src/data/gameData.ts:624-631 | there are 6 levels; entry i−1 is level i with at least one sequence and a multiplier of at least 1 |
| GameData.CustomersWellFormed | src/data/gameData.ts:47-270 | every customer's difficulty is a tier from 1 to 6 |
| FaceDetection.ShapesOf | src/hooks/useFaceDetection.ts:37-40 | the channel map's keys are exactly the reported category names |
| FaceDetection.ShapesOfLastWins | src/hooks/useFaceDetection.ts:38-40 | a name's value is the score of the last category carrying that name |
| FaceDetection.ArgMax | src/hooks/useFaceDetection.ts:54-61 | the winner loop returns a pair bounding every entry; it keeps the start pair when no entry beats it, and otherwise returns an entry with every earlier entry strictly smaller (first maximum wins) |
| FaceDetection.MaxNonNeutralBounds | src/hooks/useFaceDetection.ts:51 | the strongest expression score bounds all five scores and is one of them |
| FaceDetection.RankedWinner | src/hooks/useFaceDetection.ts:51-61 | the winner's score is its category's score; neutral wins exactly when every expression scores below 0.25; otherwise the winner scores the maximum, which is at least 0.25 |
| FaceDetection.ConfidenceFloorUnreachable | src/hooks/useFaceDetection.ts:63-66 | a non-neutral winner never scores below 0.1, so the forced-neutral floor never applies |
| FaceDetection.ClassifyEmotion | src/hooks/useFaceDetection.ts:42-72 | neutral exactly when all expressions score below 0.25; otherwise the emotion has the maximal score; confidence is min(2·(0.4·prev + 0.6·winner score), 1) and lies in [0,1] for non-negative prev |
| FaceDetection.DetectEmotion | src/hooks/useFaceDetection.ts:32-72 | no blendshapes gives neutral with confidence 0 and no channels; otherwise the first face's channels are classified; for a non-negative previous confidence the confidence lies in [0,1] |
| FaceDetection.SilentFaceIsNeutral | src/hooks/useFaceDetection.ts:42-52 | a frame whose channels are all zero or absent classifies as neutral |
| FaceDetection.ScoresNonNegative | src/hooks/useFaceDetection.ts:42-47 | non-negative channels give non-negative expression scores |
| FaceDetection.RangesNonNegative | src/hooks/useFaceDetection.ts:88-89 | the x and y ranges of a non-empty window are non-negative |
| FaceDetection.NodAndShakeExclusive | src/hooks/useFaceDetection.ts:92-96 | no window satisfies both the nod and the shake condition |
| FaceDetection.Window | src/hooks/useFaceDetection.ts:81-83 | after the push and the filter, the buffer holds exactly those old samples and the new one with `now − t < 600`, each recent one as often as before, in arrival order, the new sample last when it is recent |
| FaceDetection.WindowCounts | src/hooks/useFaceDetection.ts:83 | the filter keeps each recent sample exactly as often as the pushed buffer holds it and drops the rest |
| FaceDetection.WindowOrder | src/hooks/useFaceDetection.ts:81-83 | the window is the filtered old buffer followed by the new sample if it is recent |
| FaceDetection.WindowAllRecent | src/hooks/useFaceDetection.ts:83 | a buffer of recent samples loses nothing to the filter |
| FaceDetection.RecentBufferGrows | src/hooks/useFaceDetection.ts:81-83 | when every buffered sample is still recent, the push grows the buffer by exactly the new sample |
| FaceDetection.FullWindowOfFive | src/hooks/useFaceDetection.ts:81-85 | four recent samples and a fifth give a window of exactly 5, which passes the 5-sample gate |
| Seqs.FilterCounts | src/hooks/useFaceDetection.ts:83 | filtering keeps each satisfying element as often as it occurs and no other element |
| Seqs.FilterAppend | src/hooks/useFaceDetection.ts:83 | filtering keeps the order: the filter of a concatenation is the concatenation of the filters |
| Seqs.FilterKeepsAll | src/hooks/useFaceDetection.ts:83 | filtering a list whose every element passes leaves it unchanged |
| FaceDetection.DetectHeadGesture | src/hooks/useFaceDetection.ts:75-97 | a frame without a face or nose tip changes nothing; otherwise the window contains the new sample and only recent ones; below 5 samples the gesture is kept; otherwise nod when its condition holds, else shake when its condition holds, else the gesture is kept |
| FaceDetection.GestureNeedsFullWindow | src/hooks/useFaceDetection.ts:85 | the gesture only changes from a window of at least 5 samples |
| FaceDetection.ClearHeadGesture | src/hooks/useFaceDetection.ts:99-102 | no gesture and an empty buffer |
| Engine.InitialState | src/hooks/useGameState.ts:58-80 | phase splash, outside the declared phase union; two lives; level 0; score 0; nothing chosen or served |
| Engine.PhaseForLine | src/hooks/useGameState.ts:120-125 | face check exactly for a required emotion; head gesture exactly for a gesture without emotion; action exactly for an action without either; dialog otherwise |
| Engine.PhaseOfWellFormedLine | src/hooks/useGameState.ts:120-125 | on a well-formed line each phase corresponds to exactly the gate the line carries |
| Engine.BuildActionChoices | src/hooks/useGameState.ts:113-118 | no choices for a line without action; otherwise a permutation of the action followed by the wrong options |
| Engine.ActionChoicesReachEveryOrder | src/hooks/useGameState.ts:117 | every ordering of the options is the result for some shuffle oracle |
| Engine.CorrectActionOfferedOnce | src/hooks/useGameState.ts:113-118 | on a well-formed action line the right action is offered exactly once and no choice repeats |
| Engine.HoldDurationPositive | src/hooks/useGameState.ts:139 | for content lines and levels the hold is positive and equals the hold times the level multiplier on face lines |
| Engine.EnterLine | src/hooks/useGameState.ts:178-193 | entering a line sets its phase, index and line, resets progress, warning and countdown, takes emotion, gesture and action from the line, hides Mom, offers a permutation of the options, and keeps lives, score and round |
| Engine.BeginIntro | src/hooks/useGameState.ts:86-88 | intro phase with two lives, level 0, score 0 and no customers served; scripts, customer and line kept |
| Engine.StartGame | src/hooks/useGameState.ts:90-109 | level 1 with a difficulty-1 customer greeting, non-empty in-band scripts from the content, cursors at the start, the customer as the only one served; lives and score kept |
| Engine.StartSequence | src/hooks/useGameState.ts:127-148 | no change without a script at the cursor; otherwise the script's first line is entered with all per-line state reset |
| Engine.AdvanceLine | src/hooks/useGameState.ts:150-195 | no change without a script at the cursor; within a script the next line is entered with per-line state reset; after a non-last script, the next script is announced with score kept; after the last script, the level is complete and the score rises by exactly level×100 |
| Engine.AdvanceLineRepeatsLevelBonus | src/hooks/useGameState.ts:156-166 | a second advance in level_complete pays the bonus again: two advances add 2×level×100 |
| Engine.SetFaceWarning | src/hooks/useGameState.ts:197-199 | sets the warning and countdown and changes nothing else |
| Engine.UpdateFaceProgress | src/hooks/useGameState.ts:306-308 | sets the progress and changes nothing else |
| Engine.FailFaceCheck | src/hooks/useGameState.ts:201-219 | at one life or fewer, lives 0 and game over with Mom's game-over message and every other field kept; otherwise one life less with a fail message and every other field, phase, cursors and line included, kept |
| Engine.TwoFailedChecksEndTheGame | src/hooks/useGameState.ts:201-219 | from two lives, two failed checks reach game over with no lives |
| Engine.FailFaceCheckTimerAsWritten | src/hooks/useGameState.ts:221-227 | the delayed step hides Mom unless the game is over and then advances the line in every case |
| Engine.FailFaceCheckResumesAfterGameOver | src/hooks/useGameState.ts:221-227 | when the last life is lost mid-script, the as-written delayed step leaves game over and resumes play with no lives |
| Engine.FailFaceCheckTimer | src/hooks/useGameState.ts:223 | the delayed step with the game-over guard covering the advance: game over is kept unchanged |
| Engine.FailFaceCheckTimerKeepsGameOver | src/hooks/useGameState.ts:221-227 | with the guard, a failed check on the last life stays game over with no lives |
| Engine.HandleWrongAction | src/hooks/useGameState.ts:238-263 | at one life or fewer, lives 0 and game over with Mom's game-over message and every other field kept; otherwise one life less, the wrong-action penalty phase requiring sad for 2 s from progress 0 without warning, with cursors, line, score and round kept |
| Engine.TwoWrongActionsEndTheGame | src/hooks/useGameState.ts:238-263 | from two lives, a wrong action gives the penalty and a second ends the game with no lives |
| Engine.CompleteWrongActionPenalty | src/hooks/useGameState.ts:265-268 | the line advances with Mom hidden first: mid-script the next line is entered with Mom hidden and the per-line state reset; lives are kept and the score does not fall |
| Engine.NextLevel | src/hooks/useGameState.ts:274-304 | past level 6, victory with level, score, lives and round kept; otherwise level+1 with its table entry, cursors at the start, an in-tier customer that is new whenever the tier has one left, its id appended to the served list, and non-empty in-band scripts |
| Engine.SixthLevelLeadsToVictory | src/hooks/useGameState.ts:276-284 | after level 6 the next level call wins the game and stays at level 6 |
| Session.InitialStateValid | src/hooks/useGameState.ts:58-80 | the initial state satisfies the invariant |
| Session.ValidCursorScriptNonEmpty | src/hooks/useGameState.ts:129-131 | in every valid state the script at the cursor has a first line, so starting a sequence never reads past the end |
| Session.AdvanceLineStaysInRound | src/hooks/useGameState.ts:150-195 | advancing keeps the level, customer, scripts and served list, keeps lives, never lowers the score, enters no unused phase, and changes the score only on level completion by level×100 |
| Session.AdvanceLineKeepsValid | src/hooks/useGameState.ts:150-195 | advancing keeps the invariant and lives, enters no unused phase, and changes the score only on level completion by level×100 |
| Session.ContentScriptWellFormed | src/data/gameData.ts:280-621 | every script of the content is well formed |
| Session.SetUpLevelValid | src/hooks/useGameState.ts:286-302 | a new level set up from the table, with an in-tier customer appended to the served list and content scripts, satisfies the invariant |
| Session.NextLevelKeepsValid | src/hooks/useGameState.ts:274-304 | the next-level call keeps the invariant, lives and score |
| Session.StartGameKeepsValid | src/hooks/useGameState.ts:90-109 | starting the game keeps the invariant, lives and score |
| Session.ApplyStartGame | src/hooks/useGameState.ts:90-109 | one step of startGame meets the step facts |
| Session.ApplyNextLevel | src/hooks/useGameState.ts:274-304 | one step of nextLevel meets the step facts |
| Session.ApplyStartSequence | src/hooks/useGameState.ts:127-148 | in a valid state startSequence is defined and meets the step facts |
| Session.ApplyAdvancing | src/hooks/useGameState.ts:230-236 | the calls that run advanceLine directly (advanceLine, completeFaceCheck, completeAction, completeHeadGesture) meet the step facts |
| Session.HiddenAdvanceFacts | src/hooks/useGameState.ts:265-268 | hiding Mom and then advancing meets the step facts of an advancing call |
| Session.ApplyPenaltyDone | src/hooks/useGameState.ts:265-268 | completeWrongActionPenalty meets the step facts |
| Session.ApplyFailTimer | src/hooks/useGameState.ts:221-227 | the continuation of failFaceCheck as written meets the step facts, even when it advances out of game over; so does the guarded one |
| Session.SameRoundValid | src/hooks/useGameState.ts:197-263 | a state of the same round with lives in range and a non-negative score is valid |
| Session.ApplyBeginIntro | src/hooks/useGameState.ts:86-88 | beginIntro meets the step facts, clearing the score |
| Session.ApplyLifeLoss | src/hooks/useGameState.ts:201-263 | failFaceCheck and handleWrongAction meet the step facts: at most one life lost, invariant kept |
| Session.ApplyFaceFields | src/hooks/useGameState.ts:197-308 | setFaceWarning and updateFaceProgress meet the step facts, keeping lives and score |
| Session.ApplyKeepsValid | src/hooks/useGameState.ts:86-308 | every callback keeps lives in {0,1,2}, the level within the table, one served customer per level (the last being the current one), and the scripts well formed; lives fall by at most one except on beginIntro; the score changes only when beginIntro clears it or a level completes with level×100; no callback enters an unused phase; the failFaceCheck continuation is the one as written |
| Session.Run | src/hooks/useGameState.ts:82-331 | any sequence of callbacks, with the failFaceCheck continuation as written, keeps the invariant; without beginIntro lives never rise and the score never falls |
| Session.StartGameAfterIntro | src/hooks/useGameState.ts:86-109 | intro then start from any valid state gives two lives, score 0, level 1 and a difficulty-1 customer as the only one served |
| Gameplay.HoldSeconds | src/components/game/GameplayScreen.tsx:105 | a zero duration falls back to 2.5 s; any other duration, negative ones included, is kept; so the hold time is never zero |
| Gameplay.IsMatchIsEquality | src/components/game/GameplayScreen.tsx:112 | the match test is plain equality of the detected and required emotions |
| Gameplay.Ceil | src/components/game/GameplayScreen.tsx:122 | the least integer at or above its argument |
| Gameplay.TickStep | src/components/game/GameplayScreen.tsx:109-131 | while matching, progress becomes p + dt/duration, capped at 1; while not, p − 0.6·dt, floored at 0; progress stays in [0,1]; warning exactly for a non-match below 0.35; countdown is the whole seconds left, never negative; a completion exactly when progress reaches 1, the penalty one in the penalty phase |
| Gameplay.HoldLoop | src/components/game/GameplayScreen.tsx:109-136 | the frame loop issues at most one completion, only at progress 1, consumes no frame after it, and keeps progress in [0,1] |
| Gameplay.HoldCompletesWhenHeldLongEnough | src/components/game/GameplayScreen.tsx:115-131 | a face matched for at least the remaining hold time in total completes the hold |
| Gameplay.HoldCompletionNeedsEnoughTime | src/components/game/GameplayScreen.tsx:115-131 | conversely, a matched hold that completes has consumed frames adding up to at least the remaining hold time |
| Gameplay.MismatchNeverCompletes | src/components/game/GameplayScreen.tsx:117-131 | a face that never matches cannot complete a hold that started below 1 |
| Gameplay.FrameTick | src/components/game/GameplayScreen.tsx:104-125 | a frame warns exactly for a face other than the required one (neutral by default) below 0.35, and completes the penalty exactly in the penalty phase |
| Gameplay.ApplyTick | src/components/game/GameplayScreen.tsx:121-122 | the frame's progress, warning and countdown are written to the game and nothing else changes |
| Gameplay.IssueCompletion | src/components/game/GameplayScreen.tsx:124-129 | a finished hold advances the line, hiding Mom first after a penalty; lives are kept |
| Gameplay.EffectStart | src/components/game/GameplayScreen.tsx:94-103 | progress restarts at 0; outside the face-check and penalty phases warning and countdown are cleared too |
| Gameplay.EffectCleanup | src/components/game/GameplayScreen.tsx:137-142 | progress, warning and countdown are cleared |
| Gameplay.EmotionChangeAsWritten | src/components/game/GameplayScreen.tsx:143 | a change of detected emotion restarts the effect and drops the progress to 0 |
| Gameplay.FlickerDiscardsHoldAsWritten | src/components/game/GameplayScreen.tsx:113-119 | as written, a hold at 0.8 falls to 0 on a change of expression and the decay then never moves it |
| Gameplay.DrainFromZeroStaysZero | src/components/game/GameplayScreen.tsx:117-119 | a non-matching loop started at 0 stays at 0 |
| Gameplay.HoldLoopLive | src/components/game/GameplayScreen.tsx:109-136 | the frame loop reading the emotion per frame issues at most one completion, only at progress 1, and keeps progress in [0,1] |
| Gameplay.FlickerCostsAtMostDecay | src/components/game/GameplayScreen.tsx:117-119 | in the live loop a non-matching frame costs at most 0.6·dt, so a hold above that survives it |
| Gameplay.GestureTimer | src/components/game/GameplayScreen.tsx:145-153 | in the gesture phase, with a required gesture equal to the detected one, the line advances and the detector is cleared; otherwise nothing changes |
| Gameplay.GestureCompletesOnce | src/components/game/GameplayScreen.tsx:145-153 | after a gesture completes, the cleared detector cannot complete the next line |
| ActionPanel.Reset | src/components/game/ActionPanel.tsx:40-42 | a new line or new choices clear the pick |
| ActionPanel.Select | src/components/game/ActionPanel.tsx:45-68 | a chooser button picks its action while nothing is picked |
| ActionPanel.MinigameComplete | src/components/game/ActionPanel.tsx:91-98 | the pick is cleared and exactly one callback runs, correct exactly when the pick is the right action |
| ActionPanel.MinigameFail | src/components/game/ActionPanel.tsx:105-110 | the pick is cleared; wrong exactly when the pick was wrong; never correct |
| ActionPanel.ButtonClick | src/components/game/ActionPanel.tsx:140 | a plain button is correct exactly for the right action and wrong otherwise |
| ActionPanel.OnSignal | src/components/game/ActionPanel.tsx:103-111 | a minigame completion runs the completion handler, a failure the failure handler, silence nothing |
| ActionPanel.Dispatch | src/components/game/GameplayScreen.tsx:318-323 | correct runs completeAction (an advance), wrong runs handleWrongAction, no verdict changes nothing |
| ActionPanel.MinigameOutcomes | src/components/game/ActionPanel.tsx:91-110 | failing the right minigame leaves the game untouched and completing it advances; the wrong pick costs a life whether completed or failed |
| ActionPanel.OfferedChoicesJudged | src/components/game/ActionPanel.tsx:128-140 | on a well-formed action line exactly one of the offered buttons is judged correct |
| Minigames.AdvanceStep | src/components/game/minigames/PackMinigame.tsx:23-29 | below the last step the step rises by one silently; at the last step it completes |
| Minigames.BoxClick | src/components/game/minigames/PackMinigame.tsx:31-33 | the box moves step 0 to 1 and does nothing at any other step |
| Minigames.Padding | src/components/game/minigames/PackMinigame.tsx:35-37 | the padding moves step 1 to 2 and does nothing at any other step |
| Minigames.DropItem | src/components/game/minigames/PackMinigame.tsx:39-46 | drops count only at step 2, one each, and the third moves on to step 3 |
| Minigames.Tape | src/components/game/minigames/PackMinigame.tsx:48-56 | at step 3 the box is sealed and completes after 400 ms; elsewhere it is marked failed and fails after 500 ms |
| Minigames.Finish | src/components/game/minigames/PackMinigame.tsx:154 | completes exactly when taped or at the last step, and fails otherwise |
| Minigames.PackClickKeepsValid | src/components/game/minigames/PackMinigame.tsx:23-56 | through the screen every click keeps the step in 0..3 with the item count in step, moves the step by at most one, never fails the tape, and only tape and finish complete |
| Minigames.PackRun | src/components/game/minigames/PackMinigame.tsx:17-56 | any sequence of enabled clicks keeps the invariant and never lowers the step |
| Minigames.PackHonestPlayCompletes | src/components/game/minigames/PackMinigame.tsx:23-56 | box, padding, three drops and tape are all enabled in turn, end sealed at step 3 and complete once |
| Minigames.PackCompletesTwice | src/components/game/minigames/PackMinigame.tsx:48-56 | from the last step, tape then finish, and tape then tape, are both playable and complete twice |
| Minigames.PackStepOnce | src/components/game/minigames/PackMinigame.tsx:23-56 | the guarded game moves the pack as the original does, signals as the original until a completion, and silences every completion after the first |
| Minigames.PackRunOnce | src/components/game/minigames/PackMinigame.tsx:17-56 | any click sequence of the guarded game signals at most one completion, none once a completion was issued, and records whether it did |
| Minigames.PackOnceCompletesOnce | src/components/game/minigames/PackMinigame.tsx:48-56 | in the guarded game taping completes, and tape then finish or tape then tape complete exactly once |
| ActionPanel.PackDoubleVerdictAsWritten | src/components/game/ActionPanel.tsx:91-98 | a Pack pick taped and finished within 400 ms is judged twice: from two lives a wrong pick ends the game with no lives, and the right pick advances two lines |
| ActionPanel.PackSingleVerdictOnce | src/components/game/ActionPanel.tsx:91-98 | with the guarded game the same taps give one verdict: a wrong pick costs one life and starts the penalty, and the right pick advances one line |
| Minigames.PackFinishAfterTapeCompletesTwice | src/components/game/minigames/PackMinigame.tsx:154 | at the last step finish completes without taping, and after taping, while the tape's completion is pending, it completes again |
| Minigames.CountClick | src/components/game/minigames/BagMinigame.tsx:15-17 | a click adds exactly one |
| Minigames.CounterFinish | src/components/game/minigames/BagMinigame.tsx:19-26 | completes exactly when the count reaches the requirement; below it, marks failed and fails after 500 ms |
| Minigames.BagItemsEnabledIff | src/components/game/minigames/BagMinigame.tsx:43-47 | some item button is enabled exactly while fewer than 4 are bagged |
| Minigames.BagClickBounded | src/components/game/minigames/BagMinigame.tsx:43-47 | clicking an enabled item keeps the count at most 4 |
| Minigames.TakeClickBounded | src/components/game/minigames/TakeMinigame.tsx:49 | clicking the enabled take button keeps the count at most 2 |
| Minigames.FinishEnabledIffCompletes | src/components/game/minigames/BagMinigame.tsx:92-94 | the complete button is enabled exactly when pressing it completes |
| Minigames.RemainingLabel | src/components/game/minigames/BagMinigame.tsx:103 | the done label exactly at the requirement; otherwise a positive number that makes up the difference |
| Minigames.ClicksToComplete | src/components/game/minigames/TakeMinigame.tsx:15-21 | k clicks add k, and finishing then completes exactly when the count reaches the requirement |

## Left out

- Camera and model lifecycle (`initFaceLandmarker`, `startWebcam`, `startDetection`, `stopDetection`, `stopWebcam`, their effects): foreign calls into the tracker and the browser. The hook's own `confidence` and `currentEmotion` state, which the detection loop feeds back, is the `prevConfidence` argument and the emotion input of the gameplay model.
- `restartGame`: a page reload. Its result is `Engine.InitialState`.
- Timing: `requestAnimationFrame` and the 250 ms, 400 ms, 500 ms and 2 s timers are not timed. Each delayed continuation is its own step (`FailFaceCheckTimer`, `GestureTimer`, the `…After400`/`…After500` signals). The model does not interleave other callbacks into those delays, except that the gesture timer fires only while its condition still holds.
- ChopMinigame and WeighMinigame: drag geometry, hold meters timed by animation frames, and a random target band.
- Randomness quality: `sort(() => Math.random() - 0.5)` is modelled by every permutation being reachable, with no claim about uniformity.
- Text and presentation: dialog text, greetings (a greeting is `Greeting(customer id)`), Mom's reaction strings, names, sprites, descriptions, genders, items, `LevelData.customerId` and `description`, and every screen and widget.
- HeadGesturePanel: its 500 ms completion duplicates the screen's gesture effect, and its clear-on-mount is `FaceDetection.ClearHeadGesture`.
- JavaScript number edge cases: NaN and infinities are not modelled. `x || d` is modelled as "missing or zero gives d". `Gameplay.TickStep` requires a non-zero duration; the screen's `|| 2.5` guarantees one, where JavaScript would otherwise divide by zero into infinity.
- Engine.StartSequence: requires the script at the cursor to have a first line (the source would fail reading `lines[0]`). `Session.ValidCursorScriptNonEmpty` shows every valid state meets this.
- React's double invocation of state updaters in development mode is not modelled; it would matter for `DropItem`, which calls `advanceStep` inside an updater.
- FaceDetection.ClassifyEmotion: states that the winner has the maximal score, but not which of several tied expressions wins. `FaceDetection.ArgMax` states the first-wins rule.
- Minigames.PackRun: counts completions but states no bound on them, because the double completion is possible (`Minigames.PackCompletesTwice`); the bound of one holds for the guarded `Minigames.PackRunOnce`.
- Unmounting of a finished minigame: after the first completion the panel clears its pick and unmounts the minigame, so later clicks cannot happen; the model does not remove them from click sequences, and the 400 ms timer, which does survive the unmount, is the case that matters.

## Findings

| source | as written | input that shows it | evidently intended | confidence | as-written member | corrected member |
|---|---|---|---|---|---|---|
| src/hooks/useGameState.ts:221-227 | the delayed continuation of `failFaceCheck` guards only hiding Mom, then calls `advanceLine` even in `game_over` | lives 1 on a face-check line that is not the last of its script: `failFaceCheck` gives `game_over` with 0 lives, and 2 s later play resumes on the next line with 0 lives | game over is final; the continuation does nothing once the game is over | medium (latent: the gameplay screen does not bind `failFaceCheck`); not executed | Engine.FailFaceCheckResumesAfterGameOver | Engine.FailFaceCheckTimerKeepsGameOver |
| src/components/game/GameplayScreen.tsx:143 | the detected emotion is a dependency of the hold effect, so every change of expression cleans up and restarts the loop with progress 0; the decay at lines 117-119 only ever starts from 0 | face check at progress 0.8, one frame with another expression: progress becomes 0 | a non-matching face drains progress at 0.6 per second (with a warning below 0.35), so a brief flicker costs little | medium; not executed | Gameplay.FlickerDiscardsHoldAsWritten | Gameplay.FlickerCostsAtMostDecay |
| src/components/game/minigames/PackMinigame.tsx:48-56 | each tap of the tape at the last step sets its own uncancelled 400 ms completion, and the finish button completes too; every completion runs the panel's handler with the same pick | two lives, a wrong Pack pick, all items dropped; tap the tape and press finish within 400 ms: `handleWrongAction` runs twice and the game is over | one verdict per pick: once the box is sealed or finished, further completions are ignored | high; not executed | ActionPanel.PackDoubleVerdictAsWritten | ActionPanel.PackSingleVerdictOnce |
