/** The game state as a value, and each store action as a function from the state before to
    the state after. The mutable store in module Store is proved to follow these functions;
    module Runs proves what they promise over sequences of actions. */
module Actions {
  import opened Types

  /** One snapshot of every field of the store. */
  datatype State = State(
    status: GameStatus,
    score: int,
    lives: int,
    maxLives: int,
    speed: real,
    collectedLetters: seq<int>,
    level: int,
    levelProgress: real,
    laneCount: int,
    gemsCollected: int,
    distance: real,
    selectedCharacter: CharacterId,
    hasDoubleJump: bool,
    hasImmortality: bool,
    isImmortalityActive: bool)

  /** The items the shop sells. */
  datatype ShopItem = DoubleJump | MaxLife | Heal | Immortal

  /** Score for each newly collected letter. */
  const LETTER_BONUS: int := 1000
  /** Extra score for completing the level's target word. */
  const WORD_BONUS: int := 5000
  /** Speed added, for good, by each newly collected letter. */
  const LETTER_SPEED_INCREASE: real := RUN_SPEED_BASE * 0.10
  /** Lanes added on each level advance, and the widest the track gets. */
  const LANE_GROWTH: int := 2
  const MAX_LANES: int := 9
  /** Lives and maximum lives at the start of every run. */
  const START_LIVES: int := 3

  function Min(a: int, b: int): int {
    if a <= b then a else b
  }

  /** The store's invariant: lives within bounds, an odd lane count in [3, 9], a real level,
      no letter index collected twice and a gem count that never goes negative. */
  predicate Valid(s: State) {
    && 0 <= s.lives <= s.maxLives
    && 1 <= s.maxLives
    && 3 <= s.laneCount <= MAX_LANES && s.laneCount % 2 == 1
    && 1 <= s.level <= MAX_LEVEL
    && Distinct(s.collectedLetters)
    && 0 <= s.gemsCollected
  }

  /** The state the store is created with. */
  function Initial(): State {
    State(
      status := Splash, score := 0, lives := START_LIVES, maxLives := START_LIVES, speed := 0.0,
      collectedLetters := [], level := 1, levelProgress := 0.0, laneCount := 3,
      gemsCollected := 0, distance := 0.0, selectedCharacter := CHARACTERS[0],
      hasDoubleJump := false, hasImmortality := false, isImmortalityActive := false)
  }

  /** Begin a run: every run field back to its session default, the character kept. */
  function StartGame(s: State): (r: State)
    ensures Valid(r)
  {
    s.(status := Playing, score := 0, lives := START_LIVES, maxLives := START_LIVES,
       speed := RUN_SPEED_BASE, collectedLetters := [], level := 1, levelProgress := 0.0,
       laneCount := 3, gemsCollected := 0, distance := 0.0, hasDoubleJump := false,
       hasImmortality := false, isImmortalityActive := false)
  }

  /** Restart a run; the store spells out the same assignments as StartGame a second time. */
  function RestartGame(s: State): (r: State)
    ensures Valid(r)
  {
    s.(status := Playing, score := 0, lives := START_LIVES, maxLives := START_LIVES,
       speed := RUN_SPEED_BASE, collectedLetters := [], level := 1, levelProgress := 0.0,
       laneCount := 3, gemsCollected := 0, distance := 0.0, hasDoubleJump := false,
       hasImmortality := false, isImmortalityActive := false)
  }

  function GoHome(s: State): State {
    s.(status := Menu)
  }

  /** Toggle between playing and paused; any other status is left alone. */
  function PauseGame(s: State): State {
    if s.status == Playing then s.(status := Paused)
    else if s.status == Paused then s.(status := Playing)
    else s
  }

  /** A hit: absorbed while immortal, otherwise one life lost, and losing the last life
      (or being hit at zero lives) ends the game and stops the runner. */
  function TakeDamage(s: State): (r: State)
    ensures Valid(s) ==> Valid(r)
  {
    if s.isImmortalityActive then s
    else if s.lives > 1 then s.(lives := s.lives - 1)
    else s.(lives := 0, status := GameOver, speed := 0.0)
  }

  function AddScore(s: State, amount: int): State {
    s.(score := s.score + amount)
  }

  function CollectGem(s: State, value: int): State {
    s.(score := s.score + value, gemsCollected := s.gemsCollected + 1)
  }

  function SetDistance(s: State, distance: real): State {
    s.(distance := distance)
  }

  /** The first of collectLetter's two updates: record the letter, award the letter bonus
      and speed the runner up. */
  function AddLetter(s: State, index: int): State {
    s.(collectedLetters := s.collectedLetters + [index],
       speed := s.speed + LETTER_SPEED_INCREASE,
       score := s.score + LETTER_BONUS)
  }

  /** Collect the letter at `index` of the target word: nothing happens if it is already
      collected; otherwise AddLetter, and then, when the list has reached the length of the
      word of the level read before the first update, the word bonus and an empty list. */
  function CollectLetter(s: State, index: int): State {
    if index in s.collectedLetters then s
    else
      var first := AddLetter(s, index);
      if |first.collectedLetters| == |TargetWord(s.level)| then
        first.(score := first.score + WORD_BONUS, collectedLetters := [])
      else first
  }

  function IncreaseSpeed(s: State, amount: real): State {
    s.(speed := s.speed + amount)
  }

  /** Go to the next level, unless already at the last one: more lanes (at most nine),
      playing again, the speed reset to the new level's value, progress back to zero.
      The collected letters are kept. */
  function AdvanceLevel(s: State): (r: State)
    requires 0 <= s.level
    ensures Valid(s) ==> Valid(r)
  {
    if s.level >= MAX_LEVEL then s
    else
      var next := s.level + 1;
      s.(level := next, laneCount := Min(s.laneCount + LANE_GROWTH, MAX_LANES), status := Playing,
         speed := RUN_SPEED_BASE * SpeedMultiplier(next), levelProgress := 0.0)
  }

  function SetLevelProgress(s: State, progress: real): State {
    s.(levelProgress := progress)
  }

  function OpenShop(s: State): State {
    s.(status := Shop)
  }

  function CloseShop(s: State): State {
    s.(status := Playing)
  }

  /** Whether buyItem succeeds: the score covers the cost. */
  function Affordable(s: State, cost: int): bool {
    s.score >= cost
  }

  /** The effect of an item, applied after its cost has been paid. */
  function ApplyItem(s: State, item: ShopItem): State {
    match item
    case DoubleJump => s.(hasDoubleJump := true)
    case MaxLife => s.(maxLives := s.maxLives + 1, lives := s.lives + 1)
    case Heal => s.(lives := Min(s.lives + 1, s.maxLives))
    case Immortal => s.(hasImmortality := true)
  }

  /** The state after buyItem: unchanged when the item is not affordable, otherwise the cost
      is spent first and the item's effect applied second. */
  function BuyItem(s: State, item: ShopItem, cost: int): (r: State)
    ensures Valid(s) ==> Valid(r)
  {
    if Affordable(s, cost) then ApplyItem(s.(score := s.score - cost), item) else s
  }

  /** Switch immortality on, only when it is owned and not already on. */
  function ActivateImmortality(s: State): State {
    if s.hasImmortality && !s.isImmortalityActive then s.(isImmortalityActive := true) else s
  }

  /** The deferred callback that ends immortality; it clears the flag unconditionally. */
  function ExpireImmortality(s: State): State {
    s.(isImmortalityActive := false)
  }

  function SetStatus(s: State, status: GameStatus): State {
    s.(status := status)
  }

  function SelectCharacter(s: State, id: CharacterId): State {
    s.(selectedCharacter := id)
  }
}
