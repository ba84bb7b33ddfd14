/**
 * The discrete minigames behind the action buttons: the four-step packing game
 * (src/components/game/minigames/PackMinigame.tsx) and the two counting games, bagging
 * (BagMinigame.tsx) and taking (TakeMinigame.tsx). Each handler returns the new state and the
 * callback it invokes; the ones delayed by a timer are named by their delay.
 */
module Minigames {
  import opened Wrappers

  /** The callback a handler invokes, now or from a timer. */
  datatype Signal = Silent | Complete | CompleteAfter400 | FailAfter500 | Fail

  predicate Completes(g: Signal) {
    g == Complete || g == CompleteAfter400
  }

  // ----- Pack -----

  /** Fold the box, add padding, drop the items, seal with tape. */
  const PackSteps: nat := 4

  /** The number of items to drop in step 2. */
  const PackItems: nat := 3

  datatype Pack = Pack(step: nat, itemsPlaced: nat, taped: bool, failed: bool)

  const PackStart: Pack := Pack(0, 0, false, false)

  /** `advanceStep`: the next step, or completion from the last one. */
  function AdvanceStep(p: Pack): (r: (Pack, Signal))
    ensures p.step < PackSteps - 1 ==> r == (p.(step := p.step + 1), Silent)
    ensures p.step >= PackSteps - 1 ==> r == (p, Complete)
  {
    if p.step < PackSteps - 1 then (p.(step := p.step + 1), Silent) else (p, Complete)
  }

  /** `handleBoxClick`: folds the box at step 0 and does nothing elsewhere. */
  function BoxClick(p: Pack): (r: (Pack, Signal))
    ensures p.step == 0 ==> r == (p.(step := 1), Silent)
    ensures p.step != 0 ==> r == (p, Silent)
  {
    if p.step == 0 then AdvanceStep(p) else (p, Silent)
  }

  /** `handlePadding`: lays the padding at step 1 and does nothing elsewhere. */
  function Padding(p: Pack): (r: (Pack, Signal))
    ensures p.step == 1 ==> r == (p.(step := 2), Silent)
    ensures p.step != 1 ==> r == (p, Silent)
  {
    if p.step == 1 then AdvanceStep(p) else (p, Silent)
  }

  /** `handleDropItem`: counts an item at step 2 only; the third item moves on to taping. */
  function DropItem(p: Pack): (r: (Pack, Signal))
    ensures p.step != 2 ==> r == (p, Silent)
    ensures p.step == 2 ==> r.0.itemsPlaced == p.itemsPlaced + 1 && r.1 == Silent
    ensures p.step == 2 ==> r.0.step == (if p.itemsPlaced + 1 >= PackItems then 3 else 2)
    ensures r.0.taped == p.taped && r.0.failed == p.failed
  {
    if p.step != 2 then (p, Silent)
    else
      var next := p.itemsPlaced + 1;
      var q := p.(itemsPlaced := next);
      if next >= PackItems then AdvanceStep(q) else (q, Silent)
  }

  /** `handleTape`: at step 3 the box is sealed and completes after 400 ms; elsewhere it fails after 500 ms. */
  function Tape(p: Pack): (r: (Pack, Signal))
    ensures p.step == 3 ==> r == (p.(taped := true), CompleteAfter400)
    ensures p.step != 3 ==> r == (p.(failed := true), FailAfter500)
  {
    if p.step == 3 then (p.(taped := true), CompleteAfter400) else (p.(failed := true), FailAfter500)
  }

  /** The finish button: completes once taped or at the last step, fails otherwise. */
  function Finish(p: Pack): (g: Signal)
    ensures g == Complete <==> p.taped || p.step == PackSteps - 1
    ensures g != Complete ==> g == Fail
  {
    if p.taped || p.step == PackSteps - 1 then Complete else Fail
  }

  /** The clickable elements of the packing game. */
  datatype PackEvent = ClickBox | ClickPadding | ClickDrop(slot: nat) | ClickTape | ClickFinish

  /**
   * Which elements are on screen and enabled: the padding from step 1, the three drop slots from
   * step 2 with slot i disabled once `i < itemsPlaced`, the tape only at step 3.
   */
  predicate PackEnabled(p: Pack, e: PackEvent) {
    match e
    case ClickBox => true
    case ClickPadding => p.step >= 1
    case ClickDrop(i) => p.step >= 2 && i < PackItems && !(i < p.itemsPlaced)
    case ClickTape => p.step == 3
    case ClickFinish => true
  }

  function PackStep(p: Pack, e: PackEvent): (Pack, Signal) {
    match e
    case ClickBox => BoxClick(p)
    case ClickPadding => Padding(p)
    case ClickDrop(_) => DropItem(p)
    case ClickTape => Tape(p)
    case ClickFinish => (p, Finish(p))
  }

  /**
   * What the screen keeps true: the step is one of the four, items are dropped only in step 2
   * (all three of them before taping), a sealed box is at the last step, and nothing failed.
   */
  predicate PackValid(p: Pack) {
    && p.step < PackSteps
    && (p.step < 2 ==> p.itemsPlaced == 0)
    && (p.step == 2 ==> p.itemsPlaced < PackItems)
    && (p.step == 3 ==> p.itemsPlaced == PackItems)
    && (p.taped ==> p.step == 3)
    && !p.failed
  }

  /**
   * Through the screen, every click keeps the invariant, the step only ever moves on by one,
   * the tape never fails, and `advanceStep` never completes (only the tape and finish button do).
   */
  lemma PackClickKeepsValid(p: Pack, e: PackEvent)
    requires PackValid(p) && PackEnabled(p, e)
    ensures PackValid(PackStep(p, e).0)
    ensures PackStep(p, e).0.step == p.step || PackStep(p, e).0.step == p.step + 1
    ensures PackStep(p, e).1 != FailAfter500
    ensures Completes(PackStep(p, e).1) ==> e == ClickTape || e == ClickFinish
  {
  }

  /** A sequence of enabled clicks from the start. */
  predicate PackPlayable(p: Pack, es: seq<PackEvent>)
    decreases |es|
  {
    |es| == 0 || (PackEnabled(p, es[0]) && PackPlayable(PackStep(p, es[0]).0, es[1..]))
  }

  /** The state after a sequence of clicks, and how many of them completed the game. */
  function PackRun(p: Pack, es: seq<PackEvent>): (r: (Pack, nat))
    requires PackValid(p) && PackPlayable(p, es)
    ensures PackValid(r.0) && r.0.step >= p.step
    decreases |es|
  {
    if |es| == 0 then (p, 0)
    else
      PackClickKeepsValid(p, es[0]);
      var (q, g) := PackStep(p, es[0]);
      var (r, n) := PackRun(q, es[1..]);
      (r, n + if Completes(g) then 1 else 0)
  }

  /** The shortest honest play: fold, pad, three drops, tape. */
  lemma PackHonestPlayCompletes()
    ensures var es := [ClickBox, ClickPadding, ClickDrop(0), ClickDrop(1), ClickDrop(2), ClickTape];
      PackPlayable(PackStart, es) && PackRun(PackStart, es).0 == Pack(3, 3, true, false)
      && PackRun(PackStart, es).1 == 1
  {
    var es := [ClickBox, ClickPadding, ClickDrop(0), ClickDrop(1), ClickDrop(2), ClickTape];
    var p1 := Pack(1, 0, false, false);
    var p2 := Pack(2, 0, false, false);
    var p3 := Pack(2, 1, false, false);
    var p4 := Pack(2, 2, false, false);
    var p5 := Pack(3, 3, false, false);
    assert PackStep(PackStart, ClickBox).0 == p1;
    assert PackStep(p1, ClickPadding).0 == p2;
    assert PackStep(p2, ClickDrop(0)).0 == p3;
    assert PackStep(p3, ClickDrop(1)).0 == p4;
    assert PackStep(p4, ClickDrop(2)).0 == p5;
    assert es[1..] == [ClickPadding, ClickDrop(0), ClickDrop(1), ClickDrop(2), ClickTape];
    assert es[2..] == [ClickDrop(0), ClickDrop(1), ClickDrop(2), ClickTape];
    assert es[3..] == [ClickDrop(1), ClickDrop(2), ClickTape];
    assert es[4..] == [ClickDrop(2), ClickTape];
    assert es[5..] == [ClickTape];
    assert es[1..][1..] == es[2..] && es[2..][1..] == es[3..] && es[3..][1..] == es[4..];
    assert es[4..][1..] == es[5..] && es[5..][1..] == [];
  }

  /**
   * At the last step the finish button completes even without taping, and after taping it
   * completes again while the tape's own completion is still pending: two completions.
   */
  lemma PackFinishAfterTapeCompletesTwice(p: Pack)
    requires PackValid(p) && p.step == 3
    ensures Finish(p) == Complete
    ensures var (q, g) := Tape(p); g == CompleteAfter400 && Finish(q) == Complete
  {
  }

  /**
   * Taping and then pressing finish before the tape's 400 ms timer fires completes twice, and so
   * does taping twice: the tape stays clickable once sealed, and each click sets its own timer.
   */
  lemma PackCompletesTwice()
    ensures PackPlayable(Pack(3, 3, false, false), [ClickTape, ClickFinish])
    ensures PackRun(Pack(3, 3, false, false), [ClickTape, ClickFinish]).1 == 2
    ensures PackPlayable(Pack(3, 3, false, false), [ClickTape, ClickTape])
    ensures PackRun(Pack(3, 3, false, false), [ClickTape, ClickTape]).1 == 2
  {
    var p := Pack(3, 3, false, false);
    var q := Pack(3, 3, true, false);
    assert PackStep(p, ClickTape) == (q, CompleteAfter400);
    assert [ClickTape, ClickFinish][1..] == [ClickFinish] && [ClickFinish][1..] == [];
    assert [ClickTape, ClickTape][1..] == [ClickTape] && [ClickTape][1..] == [];
    assert PackRun(q, [ClickFinish]) == (q, 1);
    assert PackRun(q, [ClickTape]) == (q, 1);
  }

  /**
   * The packing game with a completion issued at most once: `completed` records that a
   * completion was issued or is pending, and any later completion is silenced.
   */
  datatype PackOnce = PackOnce(pack: Pack, completed: bool)

  /** One click of the guarded game: the pack moves as before; only the first completion is signalled. */
  function PackStepOnce(q: PackOnce, e: PackEvent): (r: (PackOnce, Signal))
    ensures r.0.pack == PackStep(q.pack, e).0
    ensures r.0.completed <==> q.completed || Completes(PackStep(q.pack, e).1)
    ensures !q.completed ==> r.1 == PackStep(q.pack, e).1
    ensures q.completed && Completes(PackStep(q.pack, e).1) ==> r.1 == Silent
    ensures Completes(r.1) ==> !q.completed
  {
    var (p, g) := PackStep(q.pack, e);
    if Completes(g) && q.completed then (PackOnce(p, true), Silent)
    else (PackOnce(p, q.completed || Completes(g)), g)
  }

  /** A sequence of clicks of the guarded game and how many completions it signalled. */
  function PackRunOnce(q: PackOnce, es: seq<PackEvent>): (r: (PackOnce, nat))
    ensures r.1 <= 1
    ensures q.completed ==> r.1 == 0
    ensures r.0.completed <==> q.completed || r.1 == 1
    decreases |es|
  {
    if |es| == 0 then (q, 0)
    else
      var (q', g) := PackStepOnce(q, es[0]);
      var (r, n) := PackRunOnce(q', es[1..]);
      (r, n + if Completes(g) then 1 else 0)
  }

  /** The guarded game still completes on honest play, and the two double completions signal once. */
  lemma PackOnceCompletesOnce()
    ensures PackRunOnce(PackOnce(Pack(3, 3, false, false), false), [ClickTape, ClickFinish]).1 == 1
    ensures PackRunOnce(PackOnce(Pack(3, 3, false, false), false), [ClickTape, ClickTape]).1 == 1
    ensures PackRunOnce(PackOnce(Pack(3, 3, false, false), false), [ClickTape]).1 == 1
  {
    var q := PackOnce(Pack(3, 3, true, false), true);
    assert [ClickTape, ClickFinish][1..] == [ClickFinish] && [ClickFinish][1..] == [];
    assert [ClickTape, ClickTape][1..] == [ClickTape] && [ClickTape][1..] == [];
    assert PackStepOnce(PackOnce(Pack(3, 3, false, false), false), ClickTape) == (q, CompleteAfter400);
    assert PackRunOnce(q, []) == (q, 0);
  }

  // ----- Counting games -----

  /** Items to bag before the bag game can complete. */
  const BagRequired: nat := 4

  /** Taps needed before the take game can complete. */
  const TakeRequired: nat := 2

  /** A counting game: clicks so far and whether a premature finish was shown. */
  datatype Counter = Counter(count: nat, failed: bool)

  const CounterStart: Counter := Counter(0, false)

  /** `handleItemClick` / `handleTake`: one more, with no bound of its own. */
  function CountClick(c: Counter): (r: Counter)
    ensures r.count == c.count + 1 && r.failed == c.failed
  {
    c.(count := c.count + 1)
  }

  /** `handleComplete`: completes once enough were counted, else shows the failure and fails after 500 ms. */
  function CounterFinish(c: Counter, required: nat): (r: (Counter, Signal))
    ensures c.count >= required ==> r == (c, Complete)
    ensures c.count < required ==> r.0 == c.(failed := true) && r.1 == FailAfter500
    ensures r.1 == Complete <==> c.count >= required
  {
    if c.count >= required then (c, Complete) else (c.(failed := true), FailAfter500)
  }

  /** Bag item button i is shown for i below 4 and disabled once `i < baggedItems`. */
  predicate BagItemEnabled(c: Counter, i: nat) {
    i < BagRequired && !(i < c.count)
  }

  /** The take button is disabled once `taps >= 2`. */
  predicate TakeEnabled(c: Counter) {
    c.count < TakeRequired
  }

  /** Some bag item is clickable exactly while fewer than four are bagged. */
  lemma BagItemsEnabledIff(c: Counter)
    ensures (exists i: nat :: BagItemEnabled(c, i)) <==> c.count < BagRequired
  {
    if c.count < BagRequired {
      assert BagItemEnabled(c, c.count);
    }
  }

  /** Clicking an enabled bag item keeps the count at most 4. */
  lemma BagClickBounded(c: Counter, i: nat)
    requires c.count <= BagRequired && BagItemEnabled(c, i)
    ensures CountClick(c).count <= BagRequired
  {
  }

  /** Clicking the enabled take button keeps the count at most 2. */
  lemma TakeClickBounded(c: Counter)
    requires c.count <= TakeRequired && TakeEnabled(c)
    ensures CountClick(c).count <= TakeRequired
  {
  }

  /** The complete button is enabled exactly when finishing would complete. */
  predicate FinishEnabled(c: Counter, required: nat) {
    !(c.count < required)
  }

  lemma FinishEnabledIffCompletes(c: Counter, required: nat)
    ensures FinishEnabled(c, required) <==> CounterFinish(c, required).1 == Complete
  {
  }

  /** The button label: `None` for the done label, otherwise the number still missing. */
  function RemainingLabel(c: Counter, required: nat): (n: Option<nat>)
    ensures n.None? <==> c.count >= required
    ensures n.Some? ==> n.value > 0 && c.count + n.value == required
  {
    if c.count >= required then None else Some(required - c.count)
  }

  /** From the start, exactly `required` clicks make finishing complete, and fewer do not. */
  lemma {:induction false} ClicksToComplete(c: Counter, k: nat, required: nat)
    ensures Clicks(c, k).count == c.count + k
    ensures CounterFinish(Clicks(c, k), required).1 == Complete <==> c.count + k >= required
    decreases k
  {
    if k > 0 {
      ClicksToComplete(c, k - 1, required);
    }
  }

  function Clicks(c: Counter, k: nat): Counter
    decreases k
  {
    if k == 0 then c else CountClick(Clicks(c, k - 1))
  }
}
