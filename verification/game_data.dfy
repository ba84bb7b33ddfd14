/**
 * The game's static content and the two selection functions that draw from it
 * (src/data/gameData.ts). Display text (dialog lines, greetings, sprites, names) is
 * abstracted away; what is kept is everything the engine branches on.
 */
module GameData {
  import opened Wrappers
  import opened Seqs

  datatype Emotion = Happy | Sad | Angry | Disgusted | Surprised | Neutral

  datatype HeadGesture = Nod | Shake

  datatype ActionType = Take | Chop | Pack | Weigh | Bag

  datatype Speaker = Customer | Mom | Narrator

  /**
   * One scripted line. The optional fields are kept as in the source: a face-check line has
   * `requiredEmotion` (and `holdDuration`), an action line has `action` and `wrongActions`,
   * a gesture line has `headGesture`, a plain dialog line has none of them.
   */
  datatype DialogLine = DialogLine(
    speaker: Speaker,
    requiredEmotion: Option<Emotion>,
    holdDuration: Option<real>,
    action: Option<ActionType>,
    wrongActions: Option<seq<ActionType>>,
    headGesture: Option<HeadGesture>)

  function Say(speaker: Speaker): DialogLine {
    DialogLine(speaker, None, None, None, None, None)
  }

  function Face(speaker: Speaker, e: Emotion, holdDuration: real): DialogLine {
    DialogLine(speaker, Some(e), Some(holdDuration), None, None, None)
  }

  function Act(speaker: Speaker, a: ActionType, wrong: seq<ActionType>): DialogLine {
    DialogLine(speaker, None, None, Some(a), Some(wrong), None)
  }

  function Gesture(speaker: Speaker, g: HeadGesture): DialogLine {
    DialogLine(speaker, None, None, None, None, Some(g))
  }

  /** Narrative difficulty of a conversation sequence. */
  datatype Band = Easy | Medium | Hard | Extreme

  datatype Temperament = Friendly | Neutral | Impatient | Demanding | Chatty

  datatype AgeGroup = Child | Teen | Adult | Elder

  /** A sequence tag: in the source a string equal to some temperament or age-group name. */
  datatype Tag = TempTag(temperament: Temperament) | AgeTag(ageGroup: AgeGroup)

  datatype SequenceId =
    | Easy1 | Easy2 | Easy3 | Easy4 | Easy5 | Easy6
    | Med1 | Med2 | Med3 | Med4 | Med5 | Med6
    | Hard1 | Hard2 | Hard3 | Hard4 | Hard5
    | Extreme1 | Extreme2 | Extreme3

  datatype ConversationSequence = ConversationSequence(
    id: SequenceId,
    difficulty: Band,
    tags: seq<Tag>,
    lines: seq<DialogLine>)

  datatype CustomerId =
    | Lola | Kid | MangPedro | Student | Worker | AteJoy | Tita | Lolo | NanayLinda
    | Rider | Teen | KuyaMark | Businessman | Pregnant | ProfGarcia | TitaCora | Mayor | Influencer

  datatype CustomerData = CustomerData(
    id: CustomerId,
    difficulty: int,
    temperament: Temperament,
    ageGroup: AgeGroup)

  datatype LevelData = LevelData(
    level: int,
    sequenceCount: int,
    holdDurationMultiplier: real)

  /** One draw of `Math.random()`: a real in [0, 1). */
  type Draw = r: real | 0.0 <= r < 1.0 witness 0.0

  const Customers: seq<CustomerData> := [
    CustomerData(Lola, 1, Friendly, Elder),
    CustomerData(Kid, 1, Friendly, Child),
    CustomerData(MangPedro, 1, Friendly, Elder),
    CustomerData(Student, 2, Temperament.Neutral, AgeGroup.Teen),
    CustomerData(Worker, 2, Temperament.Neutral, Adult),
    CustomerData(AteJoy, 2, Friendly, Adult),
    CustomerData(Tita, 3, Chatty, Adult),
    CustomerData(Lolo, 3, Chatty, Elder),
    CustomerData(NanayLinda, 3, Temperament.Neutral, Adult),
    CustomerData(Rider, 4, Impatient, Adult),
    CustomerData(CustomerId.Teen, 4, Temperament.Neutral, AgeGroup.Teen),
    CustomerData(KuyaMark, 4, Demanding, Adult),
    CustomerData(Businessman, 5, Demanding, Adult),
    CustomerData(Pregnant, 5, Chatty, Adult),
    CustomerData(ProfGarcia, 5, Demanding, Adult),
    CustomerData(TitaCora, 6, Demanding, Adult),
    CustomerData(Mayor, 6, Demanding, Elder),
    CustomerData(Influencer, 6, Chatty, AgeGroup.Teen)
  ]

  // ----- CONVERSATION_SEQUENCES, one constant per script -----

  const Easy1Script: ConversationSequence :=
    ConversationSequence(Easy1, Easy, [TempTag(Friendly), AgeTag(Elder), AgeTag(Child)], [
      Say(Customer),
      Face(Narrator, Happy, 3.0),
      Say(Customer),
      Act(Narrator, Take, [Chop, Weigh]),
      Say(Customer),
      Face(Narrator, Happy, 2.0)
    ])

  const Easy2Script: ConversationSequence :=
    ConversationSequence(Easy2, Easy, [TempTag(Friendly), AgeTag(Elder)], [
      Say(Customer),
      Face(Narrator, Emotion.Neutral, 3.0),
      Say(Customer),
      Act(Narrator, Take, [Chop, Bag]),
      Act(Narrator, Pack, [Chop, Weigh]),
      Say(Customer)
    ])

  const Easy3Script: ConversationSequence :=
    ConversationSequence(Easy3, Easy, [TempTag(Friendly), AgeTag(Child)], [
      Say(Customer),
      Face(Narrator, Emotion.Neutral, 2.5),
      Say(Customer),
      Act(Narrator, Take, [Weigh, Chop]),
      Say(Customer)
    ])

  const Easy4Script: ConversationSequence :=
    ConversationSequence(Easy4, Easy, [TempTag(Friendly), AgeTag(Adult)], [
      Say(Customer),
      Face(Narrator, Happy, 3.0),
      Say(Customer),
      Act(Narrator, Take, [Chop, Weigh]),
      Act(Narrator, Bag, [Chop, Pack]),
      Say(Customer)
    ])

  const Easy5Script: ConversationSequence :=
    ConversationSequence(Easy5, Easy, [TempTag(Friendly), TempTag(Temperament.Neutral)], [
      Say(Customer),
      Face(Narrator, Emotion.Neutral, 3.0),
      Say(Customer),
      Act(Narrator, Take, [Chop, Weigh]),
      Say(Customer),
      Face(Narrator, Happy, 2.0)
    ])

  const Easy6Script: ConversationSequence :=
    ConversationSequence(Easy6, Easy, [TempTag(Friendly), AgeTag(Elder)], [
      Say(Customer),
      Gesture(Narrator, Nod),
      Say(Customer),
      Act(Narrator, Weigh, [Chop, Take]),
      Act(Narrator, Bag, [Chop, Pack]),
      Say(Customer),
      Face(Narrator, Happy, 2.0)
    ])

  const Med1Script: ConversationSequence :=
    ConversationSequence(Med1, Medium, [TempTag(Temperament.Neutral), TempTag(Chatty), AgeTag(Adult)], [
      Say(Customer),
      Face(Narrator, Sad, 3.0),
      Say(Customer),
      Act(Narrator, Chop, [Take, Bag]),
      Act(Narrator, Pack, [Weigh, Chop]),
      Say(Customer),
      Face(Narrator, Surprised, 3.0),
      Say(Customer)
    ])

  const Med2Script: ConversationSequence :=
    ConversationSequence(Med2, Medium, [TempTag(Chatty), AgeTag(Elder)], [
      Say(Customer),
      Face(Narrator, Surprised, 4.0),
      Say(Customer),
      Act(Narrator, Weigh, [Chop, Take]),
      Act(Narrator, Bag, [Chop, Weigh]),
      Say(Customer),
      Face(Narrator, Sad, 3.0),
      Say(Customer)
    ])

  const Med3Script: ConversationSequence :=
    ConversationSequence(Med3, Medium, [TempTag(Impatient), AgeTag(Adult)], [
      Say(Customer),
      Face(Narrator, Emotion.Neutral, 3.0),
      Say(Customer),
      Act(Narrator, Take, [Chop, Weigh]),
      Act(Narrator, Take, [Chop, Bag]),
      Act(Narrator, Bag, [Weigh, Chop]),
      Say(Customer),
      Face(Narrator, Happy, 2.0)
    ])

  const Med4Script: ConversationSequence :=
    ConversationSequence(Med4, Medium, [TempTag(Temperament.Neutral), AgeTag(AgeGroup.Teen)], [
      Say(Customer),
      Face(Narrator, Emotion.Neutral, 3.0),
      Say(Customer),
      Act(Narrator, Take, [Chop, Weigh]),
      Act(Narrator, Take, [Chop, Bag]),
      Act(Narrator, Take, [Weigh, Chop]),
      Act(Narrator, Pack, [Chop, Weigh]),
      Say(Customer)
    ])

  const Med5Script: ConversationSequence :=
    ConversationSequence(Med5, Medium, [TempTag(Chatty), AgeTag(Adult)], [
      Say(Customer),
      Face(Narrator, Surprised, 3.0),
      Say(Customer),
      Face(Narrator, Surprised, 3.0),
      Say(Customer),
      Act(Narrator, Take, [Chop, Weigh]),
      Act(Narrator, Take, [Chop, Bag]),
      Say(Customer),
      Face(Narrator, Happy, 2.0)
    ])

  const Med6Script: ConversationSequence :=
    ConversationSequence(Med6, Medium, [TempTag(Temperament.Neutral), AgeTag(Adult)], [
      Say(Customer),
      Gesture(Narrator, Shake),
      Say(Customer),
      Act(Narrator, Take, [Chop, Weigh]),
      Act(Narrator, Take, [Chop, Bag]),
      Say(Customer),
      Gesture(Narrator, Nod),
      Act(Narrator, Pack, [Chop, Weigh]),
      Say(Customer)
    ])

  const Hard1Script: ConversationSequence :=
    ConversationSequence(Hard1, Hard, [TempTag(Demanding), AgeTag(Adult)], [
      Say(Customer),
      Face(Narrator, Emotion.Neutral, 4.0),
      Say(Customer),
      Face(Narrator, Emotion.Neutral, 4.0),
      Say(Customer),
      Act(Narrator, Take, [Chop, Weigh, Bag]),
      Say(Customer),
      Act(Narrator, Weigh, [Take, Chop, Bag]),
      Act(Narrator, Pack, [Chop, Weigh, Bag]),
      Say(Customer),
      Face(Narrator, Happy, 3.0)
    ])

  const Hard2Script: ConversationSequence :=
    ConversationSequence(Hard2, Hard, [TempTag(Chatty), AgeTag(Adult), TempTag(Friendly)], [
      Say(Customer),
      Face(Narrator, Happy, 3.0),
      Say(Customer),
      Face(Narrator, Emotion.Neutral, 3.0),
      Say(Customer),
      Gesture(Narrator, Nod),
      Say(Customer),
      Act(Narrator, Take, [Chop, Weigh, Bag]),
      Act(Narrator, Take, [Chop, Weigh, Pack]),
      Act(Narrator, Pack, [Chop, Weigh, Bag]),
      Say(Customer),
      Face(Narrator, Happy, 2.0)
    ])

  const Hard3Script: ConversationSequence :=
    ConversationSequence(Hard3, Hard, [TempTag(Demanding), AgeTag(Adult)], [
      Say(Customer),
      Face(Narrator, Sad, 4.0),
      Say(Customer),
      Act(Narrator, Take, [Chop, Weigh, Bag]),
      Act(Narrator, Take, [Chop, Weigh, Pack]),
      Act(Narrator, Take, [Chop, Bag, Pack]),
      Say(Customer),
      Act(Narrator, Weigh, [Take, Chop, Bag]),
      Face(Narrator, Emotion.Neutral, 3.0),
      Say(Customer),
      Act(Narrator, Pack, [Chop, Weigh, Take]),
      Act(Narrator, Bag, [Chop, Weigh, Take]),
      Say(Customer),
      Face(Narrator, Happy, 2.0)
    ])

  const Hard4Script: ConversationSequence :=
    ConversationSequence(Hard4, Hard, [TempTag(Friendly), AgeTag(Adult)], [
      Say(Customer),
      Face(Narrator, Sad, 3.0),
      Say(Customer),
      Act(Narrator, Take, [Chop, Weigh, Bag]),
      Say(Customer),
      Face(Narrator, Surprised, 3.0),
      Say(Customer),
      Gesture(Narrator, Nod),
      Act(Narrator, Take, [Chop, Weigh, Bag]),
      Act(Narrator, Pack, [Chop, Weigh, Take]),
      Act(Narrator, Bag, [Chop, Weigh, Take]),
      Say(Customer),
      Face(Narrator, Happy, 2.0)
    ])

  const Hard5Script: ConversationSequence :=
    ConversationSequence(Hard5, Hard, [TempTag(Chatty), AgeTag(Elder)], [
      Say(Customer),
      Face(Narrator, Surprised, 3.0),
      Say(Customer),
      Face(Narrator, Sad, 4.0),
      Say(Customer),
      Face(Narrator, Happy, 3.0),
      Say(Customer),
      Act(Narrator, Take, [Chop, Weigh, Bag]),
      Say(Customer),
      Act(Narrator, Take, [Chop, Weigh, Pack]),
      Act(Narrator, Bag, [Chop, Weigh, Take]),
      Say(Customer),
      Face(Narrator, Happy, 2.0)
    ])

  const Extreme1Script: ConversationSequence :=
    ConversationSequence(Extreme1, Extreme, [TempTag(Demanding), AgeTag(Adult)], [
      Say(Customer),
      Face(Narrator, Happy, 4.0),
      Say(Customer),
      Face(Narrator, Surprised, 4.0),
      Say(Customer),
      Face(Narrator, Sad, 3.0),
      Say(Customer),
      Act(Narrator, Take, [Chop, Weigh, Bag]),
      Act(Narrator, Take, [Chop, Weigh, Pack]),
      Say(Customer),
      Face(Narrator, Disgusted, 3.0),
      Say(Customer),
      Act(Narrator, Pack, [Chop, Weigh, Take]),
      Act(Narrator, Bag, [Chop, Weigh, Take]),
      Say(Customer),
      Face(Narrator, Happy, 3.0)
    ])

  const Extreme2Script: ConversationSequence :=
    ConversationSequence(Extreme2, Extreme, [TempTag(Demanding), AgeTag(Elder)], [
      Say(Customer),
      Face(Narrator, Emotion.Neutral, 4.0),
      Say(Customer),
      Act(Narrator, Weigh, [Take, Chop, Bag]),
      Say(Customer),
      Face(Narrator, Emotion.Neutral, 3.0),
      Say(Customer),
      Act(Narrator, Take, [Chop, Weigh, Bag]),
      Say(Customer),
      Gesture(Narrator, Nod),
      Say(Customer),
      Act(Narrator, Pack, [Chop, Weigh, Take]),
      Act(Narrator, Bag, [Chop, Weigh, Take]),
      Say(Customer),
      Face(Narrator, Happy, 2.0)
    ])

  const Extreme3Script: ConversationSequence :=
    ConversationSequence(Extreme3, Extreme, [TempTag(Demanding), AgeTag(Adult)], [
      Say(Customer),
      Face(Narrator, Surprised, 3.0),
      Say(Customer),
      Face(Narrator, Happy, 3.0),
      Say(Customer),
      Act(Narrator, Weigh, [Take, Chop, Bag]),
      Say(Customer),
      Act(Narrator, Take, [Chop, Weigh, Bag]),
      Say(Customer),
      Gesture(Narrator, Nod),
      Say(Customer),
      Face(Narrator, Emotion.Neutral, 3.0),
      Act(Narrator, Pack, [Chop, Weigh, Take]),
      Act(Narrator, Bag, [Chop, Weigh, Take]),
      Say(Customer),
      Face(Narrator, Happy, 2.0)
    ])

  /** `CONVERSATION_SEQUENCES`, in source order. */
  const Sequences: seq<ConversationSequence> := [
    Easy1Script, Easy2Script, Easy3Script, Easy4Script, Easy5Script,
    Easy6Script, Med1Script, Med2Script, Med3Script, Med4Script,
    Med5Script, Med6Script, Hard1Script, Hard2Script, Hard3Script,
    Hard4Script, Hard5Script, Extreme1Script, Extreme2Script, Extreme3Script
  ]

  const Levels: seq<LevelData> := [
    LevelData(1, 1, 1.0),
    LevelData(2, 1, 1.0),
    LevelData(3, 2, 1.2),
    LevelData(4, 2, 1.3),
    LevelData(5, 2, 1.5),
    LevelData(6, 3, 1.8)
  ]


  /**
   * `pickRandom`: the element at `Math.floor(r * arr.length)`. On an empty array the source
   * yields `undefined`, here `None`.
   */
  function PickRandom<T>(arr: seq<T>, r: Draw): (x: Option<T>)
    ensures x.Some? <==> |arr| > 0
    ensures x.Some? ==> x.value in arr
  {
    if |arr| == 0 then None
    else
      var n := |arr| as real;
      assert r * n < n by { assert n - r * n == n * (1.0 - r); }
      Some(arr[(r * n).Floor])
  }

  /** Every element of a non-empty array is the pick of some draw. */
  lemma PickRandomReachesEveryElement<T>(arr: seq<T>, k: nat) returns (r: Draw)
    requires k < |arr|
    ensures PickRandom(arr, r) == Some(arr[k])
  {
    var n := |arr| as real;
    r := k as real / n;
    assert r * n == k as real;
  }

  // ----- Customer selection -----

  /** The inclusive range of customer difficulties a level draws from. */
  function TierRange(level: int): (range: (int, int))
    ensures 1 <= range.0 <= range.1 <= 6 && range.1 - range.0 <= 1
    ensures level == 1 ==> range == (1, 1)
    ensures 2 <= level <= 6 ==> range == (level - 1, level)
    ensures (level < 1 || level > 6) ==> range == (5, 6)
  {
    if level == 1 then (1, 1)
    else if level == 2 then (1, 2)
    else if level == 3 then (2, 3)
    else if level == 4 then (3, 4)
    else if level == 5 then (4, 5)
    else (5, 6)
  }

  predicate InTier(c: CustomerData, level: int) {
    TierRange(level).0 <= c.difficulty <= TierRange(level).1
  }

  /** Customers of the level's range not yet served (the source's `pool`). */
  function FreshPool(level: int, usedIds: seq<CustomerId>): seq<CustomerData> {
    Filter(Customers, c => InTier(c, level) && c.id !in usedIds)
  }

  /** All customers of the level's range (the source's `fallback`). */
  function TierPool(level: int): seq<CustomerData> {
    Filter(Customers, c => InTier(c, level))
  }

  /** Every level's range, including the catch-all [5, 6], holds at least one customer of the roster. */
  lemma TierStaffed(level: int)
    ensures exists c :: c in Customers && InTier(c, level)
  {
    var (lo, hi) := TierRange(level);
    var w :=
      if lo == 1 then Customers[0]
      else if lo == 2 then Customers[3]
      else if lo == 3 then Customers[6]
      else if lo == 4 then Customers[9]
      else Customers[12];
    assert w in Customers && InTier(w, level);
  }

  /**
   * `getCustomerForLevel`: a customer of the level's range that is not in `usedIds` whenever
   * one exists, and otherwise (reuse) still one of the level's range.
   */
  function GetCustomerForLevel(level: int, usedIds: seq<CustomerId>, r: Draw): (c: CustomerData)
    ensures c in Customers && InTier(c, level)
    ensures (exists d :: d in Customers && InTier(d, level) && d.id !in usedIds) ==> c.id !in usedIds
  {
    var pool := FreshPool(level, usedIds);
    if |pool| == 0 then
      TierStaffed(level);
      var fallback := TierPool(level);
      PickRandom(fallback, r).value
    else
      PickRandom(pool, r).value
  }

  // ----- Sequence selection -----

  /** The narrative band that matches a customer's difficulty. */
  predicate InBand(s: ConversationSequence, c: CustomerData) {
    if c.difficulty <= 2 then s.difficulty == Easy
    else if c.difficulty <= 4 then s.difficulty == Medium
    else s.difficulty == Hard || s.difficulty == Extreme
  }

  /** Some tag of `s` names the customer's temperament or age group. */
  predicate MatchesCustomer(s: ConversationSequence, c: CustomerData) {
    TempTag(c.temperament) in s.tags || AgeTag(c.ageGroup) in s.tags
  }

  function TaggedPool(c: CustomerData): seq<ConversationSequence> {
    Filter(Sequences, s => InBand(s, c) && MatchesCustomer(s, c))
  }

  /**
   * The candidate pool: the tagged in-band sequences when there are at least `sequenceCount`
   * of them, otherwise every in-band sequence (tagged ones first).
   */
  function SequencePool(level: LevelData, c: CustomerData): (pool: seq<ConversationSequence>)
    ensures NoDups(pool)
    ensures forall s :: s in pool <==>
      s in Sequences && InBand(s, c) && (|TaggedPool(c)| >= level.sequenceCount ==> MatchesCustomer(s, c))
  {
    SequencesDistinct();
    var tagged := TaggedPool(c);
    if |tagged| >= level.sequenceCount then tagged
    else
      var rest := Filter(Sequences, s => InBand(s, c) && s !in tagged);
      DisjointConcatNoDups(tagged, rest);
      tagged + rest
  }

  lemma DisjointConcatNoDups<T>(a: seq<T>, b: seq<T>)
    requires NoDups(a) && NoDups(b)
    requires forall x :: x in a ==> x !in b
    ensures NoDups(a + b)
  {
    forall i, j | 0 <= i < j < |a + b|
      ensures (a + b)[i] != (a + b)[j]
    {
      if i < |a| && j >= |a| {
        assert (a + b)[i] in a && (a + b)[j] in b;
      }
    }
  }

  /**
   * `getSequencesForLevel`: a shuffle of the pool cut to `max(1, sequenceCount)`; every result is
   * an in-band script, none repeats, and when enough tagged scripts exist all results are tagged.
   */
  function GetSequencesForLevel(level: LevelData, c: CustomerData, order: seq<nat>): (r: seq<ConversationSequence>)
    ensures |r| == Min(|SequencePool(level, c)|, Max(1, level.sequenceCount))
    ensures NoDups(r)
    ensures forall s :: s in r ==> s in Sequences && InBand(s, c)
    ensures |TaggedPool(c)| >= level.sequenceCount ==> forall s :: s in r ==> MatchesCustomer(s, c)
  {
    var pool := SequencePool(level, c);
    var shuffled := Shuffle(pool, order);
    PermutationKeepsNoDups(pool, shuffled);
    var n := Min(|shuffled|, Max(1, level.sequenceCount));
    PrefixKeepsNoDups(shuffled, n);
    assert forall s :: s in shuffled[..n] ==> s in multiset(pool);
    shuffled[..n]
  }

  /** Every customer's band holds at least one script. */
  lemma BandStaffed(c: CustomerData)
    ensures exists s :: s in Sequences && InBand(s, c)
  {
    var w := if c.difficulty <= 2 then Sequences[0] else if c.difficulty <= 4 then Sequences[6] else Sequences[12];
    assert w in Sequences && InBand(w, c);
  }

  /** With a positive `sequenceCount` (true of every entry of `Levels`) a level always gets a script. */
  lemma SequencesForLevelNonEmpty(level: LevelData, c: CustomerData, order: seq<nat>)
    requires level.sequenceCount >= 1
    ensures |GetSequencesForLevel(level, c, order)| >= 1
  {
    BandStaffed(c);
    var s :| s in Sequences && InBand(s, c);
    var pool := SequencePool(level, c);
    if |TaggedPool(c)| < level.sequenceCount {
      assert s in pool;
    } else {
      assert TaggedPool(c)[0] in pool;
    }
  }

  // ----- Facts about the tables -----

  /** Position of each script in `Sequences`. */
  function SequenceIndex(id: SequenceId): nat {
    match id
    case Easy1 => 0 case Easy2 => 1 case Easy3 => 2 case Easy4 => 3 case Easy5 => 4 case Easy6 => 5
    case Med1 => 6 case Med2 => 7 case Med3 => 8 case Med4 => 9 case Med5 => 10 case Med6 => 11
    case Hard1 => 12 case Hard2 => 13 case Hard3 => 14 case Hard4 => 15 case Hard5 => 16
    case Extreme1 => 17 case Extreme2 => 18 case Extreme3 => 19
  }

  /** No script occurs twice in `Sequences`. */
  lemma SequencesDistinct()
    ensures NoDups(Sequences)
  {
    assert |Sequences| == 20;
    forall i | 0 <= i < |Sequences|
      ensures SequenceIndex(Sequences[i].id) == i
    {
      assert i in {0, 1, 2, 3, 4, 5, 6, 7, 8, 9, 10, 11, 12, 13, 14, 15, 16, 17, 18, 19};
    }
  }

  /**
   * What the engine relies on for a line: at most one of requiredEmotion / headGesture / action;
   * a hold duration exactly on face-check lines, and positive; wrong options exactly on action
   * lines, without the correct action and without repeats.
   */
  predicate LineWellFormed(l: DialogLine) {
    && (l.requiredEmotion.Some? ==> l.headGesture.None? && l.action.None?)
    && (l.headGesture.Some? ==> l.action.None?)
    && (l.requiredEmotion.Some? <==> l.holdDuration.Some?)
    && (l.holdDuration.Some? ==> l.holdDuration.value > 0.0)
    && (l.action.Some? <==> l.wrongActions.Some?)
    && (l.action.Some? ==> l.action.value !in l.wrongActions.value && NoDups(l.wrongActions.value))
  }

  /** A script with at least one line, all of them well formed. */
  predicate ScriptWellFormed(s: ConversationSequence) {
    |s.lines| > 0 && forall i | 0 <= i < |s.lines| :: LineWellFormed(s.lines[i])
  }

  lemma Easy1WellFormed()
    ensures ScriptWellFormed(Easy1Script)
  {
    forall i | 0 <= i < |Easy1Script.lines|
      ensures LineWellFormed(Easy1Script.lines[i])
    {
      assert i in {0, 1, 2, 3, 4, 5};
    }
  }

  lemma Easy2WellFormed()
    ensures ScriptWellFormed(Easy2Script)
  {
    forall i | 0 <= i < |Easy2Script.lines|
      ensures LineWellFormed(Easy2Script.lines[i])
    {
      assert i in {0, 1, 2, 3, 4, 5};
    }
  }

  lemma Easy3WellFormed()
    ensures ScriptWellFormed(Easy3Script)
  {
    forall i | 0 <= i < |Easy3Script.lines|
      ensures LineWellFormed(Easy3Script.lines[i])
    {
      assert i in {0, 1, 2, 3, 4};
    }
  }

  lemma Easy4WellFormed()
    ensures ScriptWellFormed(Easy4Script)
  {
    forall i | 0 <= i < |Easy4Script.lines|
      ensures LineWellFormed(Easy4Script.lines[i])
    {
      assert i in {0, 1, 2, 3, 4, 5};
    }
  }

  lemma Easy5WellFormed()
    ensures ScriptWellFormed(Easy5Script)
  {
    forall i | 0 <= i < |Easy5Script.lines|
      ensures LineWellFormed(Easy5Script.lines[i])
    {
      assert i in {0, 1, 2, 3, 4, 5};
    }
  }

  lemma Easy6WellFormed()
    ensures ScriptWellFormed(Easy6Script)
  {
    forall i | 0 <= i < |Easy6Script.lines|
      ensures LineWellFormed(Easy6Script.lines[i])
    {
      assert i in {0, 1, 2, 3, 4, 5, 6};
    }
  }

  lemma Med1WellFormed()
    ensures ScriptWellFormed(Med1Script)
  {
    forall i | 0 <= i < |Med1Script.lines|
      ensures LineWellFormed(Med1Script.lines[i])
    {
      assert i in {0, 1, 2, 3, 4, 5, 6, 7};
    }
  }

  lemma Med2WellFormed()
    ensures ScriptWellFormed(Med2Script)
  {
    forall i | 0 <= i < |Med2Script.lines|
      ensures LineWellFormed(Med2Script.lines[i])
    {
      assert i in {0, 1, 2, 3, 4, 5, 6, 7};
    }
  }

  lemma Med3WellFormed()
    ensures ScriptWellFormed(Med3Script)
  {
    forall i | 0 <= i < |Med3Script.lines|
      ensures LineWellFormed(Med3Script.lines[i])
    {
      assert i in {0, 1, 2, 3, 4, 5, 6, 7};
    }
  }

  lemma Med4WellFormed()
    ensures ScriptWellFormed(Med4Script)
  {
    forall i | 0 <= i < |Med4Script.lines|
      ensures LineWellFormed(Med4Script.lines[i])
    {
      assert i in {0, 1, 2, 3, 4, 5, 6, 7};
    }
  }

  lemma Med5WellFormed()
    ensures ScriptWellFormed(Med5Script)
  {
    forall i | 0 <= i < |Med5Script.lines|
      ensures LineWellFormed(Med5Script.lines[i])
    {
      assert i in {0, 1, 2, 3, 4, 5, 6, 7, 8};
    }
  }

  lemma Med6WellFormed()
    ensures ScriptWellFormed(Med6Script)
  {
    forall i | 0 <= i < |Med6Script.lines|
      ensures LineWellFormed(Med6Script.lines[i])
    {
      assert i in {0, 1, 2, 3, 4, 5, 6, 7, 8};
    }
  }

  lemma Hard1WellFormed()
    ensures ScriptWellFormed(Hard1Script)
  {
    forall i | 0 <= i < |Hard1Script.lines|
      ensures LineWellFormed(Hard1Script.lines[i])
    {
      assert i in {0, 1, 2, 3, 4, 5, 6, 7, 8, 9, 10};
    }
  }

  lemma Hard2WellFormed()
    ensures ScriptWellFormed(Hard2Script)
  {
    forall i | 0 <= i < |Hard2Script.lines|
      ensures LineWellFormed(Hard2Script.lines[i])
    {
      assert i in {0, 1, 2, 3, 4, 5, 6, 7, 8, 9, 10, 11};
    }
  }

  lemma Hard3WellFormed()
    ensures ScriptWellFormed(Hard3Script)
  {
    forall i | 0 <= i < |Hard3Script.lines|
      ensures LineWellFormed(Hard3Script.lines[i])
    {
      assert i in {0, 1, 2, 3, 4, 5, 6, 7, 8, 9, 10, 11, 12, 13};
    }
  }

  lemma Hard4WellFormed()
    ensures ScriptWellFormed(Hard4Script)
  {
    forall i | 0 <= i < |Hard4Script.lines|
      ensures LineWellFormed(Hard4Script.lines[i])
    {
      assert i in {0, 1, 2, 3, 4, 5, 6, 7, 8, 9, 10, 11, 12};
    }
  }

  lemma Hard5WellFormed()
    ensures ScriptWellFormed(Hard5Script)
  {
    forall i | 0 <= i < |Hard5Script.lines|
      ensures LineWellFormed(Hard5Script.lines[i])
    {
      assert i in {0, 1, 2, 3, 4, 5, 6, 7, 8, 9, 10, 11, 12};
    }
  }

  lemma Extreme1WellFormed()
    ensures ScriptWellFormed(Extreme1Script)
  {
    forall i | 0 <= i < |Extreme1Script.lines|
      ensures LineWellFormed(Extreme1Script.lines[i])
    {
      assert i in {0, 1, 2, 3, 4, 5, 6, 7, 8, 9, 10, 11, 12, 13, 14, 15};
    }
  }

  lemma Extreme2WellFormed()
    ensures ScriptWellFormed(Extreme2Script)
  {
    forall i | 0 <= i < |Extreme2Script.lines|
      ensures LineWellFormed(Extreme2Script.lines[i])
    {
      assert i in {0, 1, 2, 3, 4, 5, 6, 7, 8, 9, 10, 11, 12, 13, 14};
    }
  }

  lemma Extreme3WellFormed()
    ensures ScriptWellFormed(Extreme3Script)
  {
    forall i | 0 <= i < |Extreme3Script.lines|
      ensures LineWellFormed(Extreme3Script.lines[i])
    {
      assert i in {0, 1, 2, 3, 4, 5, 6, 7, 8, 9, 10, 11, 12, 13, 14, 15};
    }
  }

  /** Every script is non-empty and every one of its lines is well formed. */
  lemma ScriptsWellFormed()
    ensures forall s | s in Sequences :: ScriptWellFormed(s)
  {
    Easy1WellFormed();
    Easy2WellFormed();
    Easy3WellFormed();
    Easy4WellFormed();
    Easy5WellFormed();
    Easy6WellFormed();
    Med1WellFormed();
    Med2WellFormed();
    Med3WellFormed();
    Med4WellFormed();
    Med5WellFormed();
    Med6WellFormed();
    Hard1WellFormed();
    Hard2WellFormed();
    Hard3WellFormed();
    Hard4WellFormed();
    Hard5WellFormed();
    Extreme1WellFormed();
    Extreme2WellFormed();
    Extreme3WellFormed();
  }

  /** `LEVELS`: six entries, entry i - 1 is level i with at least one sequence and a multiplier of at least 1. */
  lemma LevelsWellFormed()
    ensures |Levels| == 6
    ensures forall i | 0 <= i < |Levels| ::
      Levels[i].level == i + 1 && Levels[i].sequenceCount >= 1 && Levels[i].holdDurationMultiplier >= 1.0
  {
    forall i | 0 <= i < |Levels|
      ensures Levels[i].level == i + 1 && Levels[i].sequenceCount >= 1 && Levels[i].holdDurationMultiplier >= 1.0
    {
      assert i in {0, 1, 2, 3, 4, 5};
    }
  }

  /** Every customer's difficulty is a tier from 1 to 6. */
  lemma CustomersWellFormed()
    ensures forall c | c in Customers :: 1 <= c.difficulty <= 6
  {
  }
}
