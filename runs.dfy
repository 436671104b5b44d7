/** What the store's actions promise over sequences of calls: the invariant holds in every
    reachable state, repeated hits count lives down to a game over, collecting a whole word
    pays 1000 per letter plus 5000, level advances grow the track up to nine lanes, and the
    toggles and resets behave as their names say. */
module Runs {
  import opened Types
  import opened Actions

  /** One call into the store, with its argument. */
  datatype Action =
    | StartGameCall
    | RestartGameCall
    | GoHomeCall
    | PauseGameCall
    | TakeDamageCall
    | AddScoreCall(amount: int)
    | CollectGemCall(value: int)
    | SetDistanceCall(distance: real)
    | CollectLetterCall(index: int)
    | IncreaseSpeedCall(delta: real)
    | AdvanceLevelCall
    | SetLevelProgressCall(progress: real)
    | OpenShopCall
    | CloseShopCall
    | BuyItemCall(item: ShopItem, cost: int)
    | ActivateImmortalityCall
    | ExpireImmortalityCall
    | SetStatusCall(status: GameStatus)
    | SelectCharacterCall(id: CharacterId)

  /** The state after one call. */
  function Step(s: State, a: Action): State
    requires 0 <= s.level
  {
    match a
    case StartGameCall => StartGame(s)
    case RestartGameCall => RestartGame(s)
    case GoHomeCall => GoHome(s)
    case PauseGameCall => PauseGame(s)
    case TakeDamageCall => TakeDamage(s)
    case AddScoreCall(amount) => AddScore(s, amount)
    case CollectGemCall(value) => CollectGem(s, value)
    case SetDistanceCall(d) => SetDistance(s, d)
    case CollectLetterCall(index) => CollectLetter(s, index)
    case IncreaseSpeedCall(delta) => IncreaseSpeed(s, delta)
    case AdvanceLevelCall => AdvanceLevel(s)
    case SetLevelProgressCall(p) => SetLevelProgress(s, p)
    case OpenShopCall => OpenShop(s)
    case CloseShopCall => CloseShop(s)
    case BuyItemCall(item, cost) => BuyItem(s, item, cost)
    case ActivateImmortalityCall => ActivateImmortality(s)
    case ExpireImmortalityCall => ExpireImmortality(s)
    case SetStatusCall(st) => SetStatus(s, st)
    case SelectCharacterCall(id) => SelectCharacter(s, id)
  }

  /** Every action keeps lives in [0, maxLives], an odd lane count in [3, 9] and the level
      in [1, 6]. */
  lemma StepPreservesValid(s: State, a: Action)
    requires Valid(s)
    ensures Valid(Step(s, a))
  {
  }

  /** The state after a sequence of calls, applied in order; from a valid state no call
      looks up a level the table lacks. */
  function Run(s: State, calls: seq<Action>): State
    requires Valid(s)
    ensures Valid(Run(s, calls))
    decreases |calls|
  {
    if calls == [] then s
    else
      StepPreservesValid(s, calls[0]);
      Run(Step(s, calls[0]), calls[1..])
  }

  /** Running two sequences one after the other is running their concatenation. */
  lemma {:induction false} RunAppend(s: State, xs: seq<Action>, ys: seq<Action>)
    requires Valid(s)
    ensures Run(Run(s, xs), ys) == Run(s, xs + ys)
    decreases |xs|
  {
    if xs == [] {
      assert xs + ys == ys;
    } else {
      StepPreservesValid(s, xs[0]);
      assert (xs + ys)[0] == xs[0] && (xs + ys)[1..] == xs[1..] + ys;
      RunAppend(Step(s, xs[0]), xs[1..], ys);
    }
  }

  /** Every state the game can reach from its initial state keeps the invariant. */
  lemma ReachableStatesValid(calls: seq<Action>)
    ensures Valid(Run(Initial(), calls))
  {
  }

  // ---------------------------------------------------------------- damage

  /** `n` hits in a row. */
  function Hits(s: State, n: nat): State
    decreases n
  {
    if n == 0 then s else Hits(TakeDamage(s), n - 1)
  }

  /** While immortality is active, any number of hits changes nothing. */
  lemma {:induction false} HitsAbsorbed(s: State, n: nat)
    requires s.isImmortalityActive
    ensures Hits(s, n) == s
    decreases n
  {
    if n > 0 {
      HitsAbsorbed(TakeDamage(s), n - 1);
    }
  }

  /** Fewer hits than lives cost exactly one life each and change nothing else. */
  lemma {:induction false} HitsCountDown(s: State, n: nat)
    requires !s.isImmortalityActive && n < s.lives
    ensures Hits(s, n) == s.(lives := s.lives - n)
    decreases n
  {
    if n > 0 {
      HitsCountDown(TakeDamage(s), n - 1);
    }
  }

  /** Once the hits reach the number of lives, the game is over: no lives, GAME_OVER, speed 0,
      everything else as before; further hits change nothing more. */
  lemma {:induction false} HitsToDeath(s: State, n: nat)
    requires !s.isImmortalityActive && 1 <= n && s.lives <= n
    ensures Hits(s, n) == s.(lives := 0, status := GameOver, speed := 0.0)
    decreases n
  {
    if s.lives > 1 {
      HitsToDeath(TakeDamage(s), n - 1);
    } else {
      var dead := TakeDamage(s);
      assert dead == s.(lives := 0, status := GameOver, speed := 0.0);
      GameOverIsStable(dead, n - 1);
    }
  }

  /** A hit on a game that is already over is a no-op. */
  lemma {:induction false} GameOverIsStable(s: State, n: nat)
    requires !s.isImmortalityActive && s.lives == 0 && s.status == GameOver && s.speed == 0.0
    ensures Hits(s, n) == s
    decreases n
  {
    if n > 0 {
      assert TakeDamage(s) == s;
      GameOverIsStable(s, n - 1);
    }
  }

  /** From three of three lives, three hits give 2, 1 and then 0 with the game over. */
  lemma ThreeHits(s: State)
    requires s.lives == 3 && s.maxLives == 3 && !s.isImmortalityActive
    ensures Hits(s, 1).lives == 2 && Hits(s, 1).status == s.status
    ensures Hits(s, 2).lives == 1 && Hits(s, 2).status == s.status
    ensures Hits(s, 3).lives == 0 && Hits(s, 3).status == GameOver && Hits(s, 3).speed == 0.0
  {
    HitsCountDown(s, 1);
    HitsCountDown(s, 2);
    HitsToDeath(s, 3);
  }

  // ---------------------------------------------------------------- letters

  /** Collect the letters at `indices`, in order. */
  function CollectAll(s: State, indices: seq<int>): State
    decreases |indices|
  {
    if indices == [] then s
    else CollectLetter(CollectAll(s, indices[..|indices| - 1]), indices[|indices| - 1])
  }

  /** Collecting an index that is already collected changes nothing. */
  lemma CollectLetterIdempotent(s: State, index: int)
    requires index in s.collectedLetters
    ensures CollectLetter(s, index) == s
  {
  }

  /** Collecting the same index twice is collecting it once, provided the first call does
      not complete the word. The condition is needed: the completing call empties the list,
      so a second call finds the index missing and adds it again. */
  lemma CollectTwiceOnce(s: State, index: int)
    requires index in s.collectedLetters || |s.collectedLetters| + 1 != |TargetWord(s.level)|
    ensures CollectLetter(CollectLetter(s, index), index) == CollectLetter(s, index)
  {
  }

  /** Without that condition twice is not once: the letter that completes SPEED empties the
      list, and collecting it again starts the next word with it. */
  lemma CompletingLetterCollectedAgain()
    ensures var s := Initial().(collectedLetters := [0, 1, 2, 3]);
      && CollectLetter(s, 4).collectedLetters == []
      && CollectLetter(CollectLetter(s, 4), 4).collectedLetters == [4]
  {
    var s := Initial().(collectedLetters := [0, 1, 2, 3]);
    assert |TargetWord(s.level)| == 5;
    assert 4 !in s.collectedLetters;
  }

  /** A duplicate-free list shorter than the target word stays duplicate-free and shorter
      than the target word after any collection. */
  lemma LetterBoundPreserved(s: State, index: int)
    requires Distinct(s.collectedLetters) && |s.collectedLetters| < |TargetWord(s.level)|
    ensures Distinct(CollectLetter(s, index).collectedLetters)
    ensures |CollectLetter(s, index).collectedLetters| < |TargetWord(s.level)|
  {
    var c := s.collectedLetters;
    if index !in c {
      assert forall i :: 0 <= i < |c| ==> (c + [index])[i] == c[i];
    }
  }

  /** A new letter that leaves the word incomplete is only the first update. */
  lemma NewLetter(s: State, i: int)
    requires i !in s.collectedLetters && |s.collectedLetters| + 1 != |TargetWord(s.level)|
    ensures CollectLetter(s, i) == AddLetter(s, i)
  {
  }

  /** The letter that completes the word earns both bonuses and empties the list; its speed
      boost stays. */
  lemma LastLetter(s: State, i: int)
    requires i !in s.collectedLetters && |s.collectedLetters| + 1 == |TargetWord(s.level)|
    ensures CollectLetter(s, i)
         == s.(collectedLetters := [], score := s.score + LETTER_BONUS + WORD_BONUS,
               speed := s.speed + LETTER_SPEED_INCREASE)
  {
  }

  /** The state after collecting the distinct letters `p` from an empty list without
      completing the word: `p` is the list, with one letter bonus and one speed boost each. */
  function Collected(s: State, p: seq<int>): State {
    s.(collectedLetters := p,
       score := s.score + LETTER_BONUS * |p|,
       speed := s.speed + 2.25 * |p| as real)
  }

  /** One more new letter extends Collected by one letter. */
  lemma CollectedStep(s: State, p: seq<int>, i: int)
    ensures AddLetter(Collected(s, p), i) == Collected(s, p + [i])
  {
    assert LETTER_BONUS * |p| + LETTER_BONUS == LETTER_BONUS * |p + [i]|;
    assert LETTER_SPEED_INCREASE == 2.25;
  }

  /** Dropping the last entry of a duplicate-free list keeps it duplicate-free, and the
      dropped entry is not among the others. */
  lemma DistinctInit(p: seq<int>)
    requires Distinct(p) && p != []
    ensures Distinct(p[..|p| - 1]) && p[|p| - 1] !in p[..|p| - 1]
    ensures p[..|p| - 1] + [p[|p| - 1]] == p
  {
    var q := p[..|p| - 1];
    assert forall j :: 0 <= j < |q| ==> q[j] == p[j];
  }

  /** Starting from an empty list, collecting fewer distinct letters than the target word has
      gives Collected: all of them in the list, in order, with their bonuses and boosts,
      and nothing else changed. */
  lemma {:induction false} CollectPartialWord(s: State, p: seq<int>)
    requires s.collectedLetters == [] && Distinct(p) && |p| < |TargetWord(s.level)|
    ensures CollectAll(s, p) == Collected(s, p)
    decreases |p|
  {
    if p == [] {
      assert Collected(s, p) == s;
    } else {
      var q := p[..|p| - 1];
      var i := p[|p| - 1];
      DistinctInit(p);
      CollectPartialWord(s, q);
      NewLetter(Collected(s, q), i);
      CollectedStep(s, q, i);
    }
  }

  /** Collecting a whole word of L distinct letters from an empty list pays 1000 * L + 5000,
      adds 2.25 * L speed and leaves the list empty; nothing else changes. */
  lemma {:induction false} CollectWholeWord(s: State, w: seq<int>)
    requires s.collectedLetters == [] && Distinct(w)
    requires |w| == |TargetWord(s.level)|
    ensures CollectAll(s, w)
         == s.(score := s.score + 1000 * |w| + 5000, speed := s.speed + 2.25 * |w| as real)
  {
    var n := |w|;
    var q := w[..n - 1];
    DistinctInit(w);
    CollectPartialWord(s, q);
    assert CollectAll(s, w) == CollectLetter(Collected(s, q), w[n - 1]);
    LastLetter(Collected(s, q), w[n - 1]);
    assert LETTER_SPEED_INCREASE == 2.25;
  }

  /** The letter list is not bounded by the target word in general: advancing from ULTRA to
      MEGA keeps four collected letters, as many as MEGA has, so the next new letter makes the
      list longer than the word and it can no longer complete. */
  lemma LetterBoundNotGlobal()
    ensures exists s: State ::
      && Valid(s) && Distinct(s.collectedLetters)
      && |s.collectedLetters| < |TargetWord(s.level)|
      && |AdvanceLevel(s).collectedLetters| >= |TargetWord(AdvanceLevel(s).level)|
  {
    var s := Initial().(level := 3, collectedLetters := [0, 1, 2, 3]);
    assert |TargetWord(3)| == 5 && |TargetWord(4)| == 4;
    assert AdvanceLevel(s).level == 4;
  }

  // ---------------------------------------------------------------- levels

  /** `k` level advances in a row. */
  function Advances(s: State, k: nat): State
    requires 0 <= s.level
    decreases k
  {
    if k == 0 then s
    else
      var next := AdvanceLevel(s);
      Advances(next, k - 1)
  }

  /** Advancing `k` times below the last level: the level goes up by `k`, the lanes by two
      per advance up to nine, the state is PLAYING with the new level's speed and zero
      progress, and nothing else changes. */
  lemma {:induction false} AdvancesBelowMax(s: State, k: nat)
    requires Valid(s) && 1 <= k && s.level + k <= MAX_LEVEL
    ensures Advances(s, k)
         == s.(level := s.level + k,
               laneCount := Min(s.laneCount + LANE_GROWTH * k, MAX_LANES),
               status := Playing,
               speed := RUN_SPEED_BASE * SpeedMultiplier(s.level + k),
               levelProgress := 0.0)
    decreases k
  {
    var next := AdvanceLevel(s);
    if k > 1 {
      AdvancesBelowMax(next, k - 1);
    }
  }

  /** Advancing at the last level changes nothing, however often. */
  lemma {:induction false} AdvancesAtMax(s: State, k: nat)
    requires s.level >= MAX_LEVEL
    ensures Advances(s, k) == s
    decreases k
  {
    if k > 0 {
      AdvancesAtMax(AdvanceLevel(s), k - 1);
    }
  }

  /** From the start of a run, `k` advances (up to five) reach level 1 + k with 3 + 2k lanes
      capped at nine, and the speed of that level. */
  lemma AdvancesFromStart(s: State, k: nat)
    requires 1 <= k < MAX_LEVEL
    ensures Advances(StartGame(s), k).level == 1 + k
    ensures Advances(StartGame(s), k).laneCount == Min(3 + 2 * k, 9)
    ensures Advances(StartGame(s), k).speed == RUN_SPEED_BASE * (1.0 + 0.2 * k as real)
  {
    AdvancesBelowMax(StartGame(s), k);
  }

  /** advanceLevel has no status guard: from a game over with no lives it resumes PLAYING
      at the next level, still with no lives. */
  lemma AdvanceRevivesGameOver()
    ensures var s := AdvanceLevel(Initial().(status := GameOver, lives := 0));
      s.status == Playing && s.lives == 0 && s.level == 2
  {
  }

  /** The first advance of a run: level 2, five lanes, speed 27. */
  lemma FirstAdvance(s: State)
    requires s.level == 1 && s.laneCount == 3
    ensures AdvanceLevel(s).level == 2 && AdvanceLevel(s).laneCount == 5
    ensures AdvanceLevel(s).speed == 27.0 && AdvanceLevel(s).status == Playing
    ensures AdvanceLevel(s).levelProgress == 0.0
  {
  }

  // ---------------------------------------------------------------- status toggles, resets

  /** Pausing twice restores the status; outside PLAYING and PAUSED pausing does nothing. */
  lemma PauseIsInvolution(s: State)
    ensures PauseGame(PauseGame(s)) == s
    ensures s.status != Playing && s.status != Paused ==> PauseGame(s) == s
  {
  }

  /** Both resets give the same state: the initial one, but playing at base speed with the
      selected character kept. */
  lemma ResetsAgree(s: State)
    ensures StartGame(s) == RestartGame(s)
    ensures StartGame(s)
         == Initial().(status := Playing, speed := RUN_SPEED_BASE,
                       selectedCharacter := s.selectedCharacter)
  {
  }

  /** Buying an extra life with exactly the score it costs leaves a score of zero and one more
      life and maximum life. */
  lemma BuyMaxLifeExactly(s: State)
    ensures BuyItem(s, MaxLife, s.score).score == 0
    ensures BuyItem(s, MaxLife, s.score).maxLives == s.maxLives + 1
    ensures BuyItem(s, MaxLife, s.score).lives == s.lives + 1
  {
  }

  /** An affordable purchase spends the cost and then: DOUBLE_JUMP and IMMORTAL set their
      ability flag, MAX_LIFE adds one maximum life and one life, HEAL adds one life but never
      beyond the maximum; nothing else changes. */
  lemma BuyItemEffects(s: State, item: ShopItem, cost: int)
    requires s.score >= cost
    ensures item == DoubleJump ==>
      BuyItem(s, item, cost) == s.(score := s.score - cost, hasDoubleJump := true)
    ensures item == MaxLife ==>
      BuyItem(s, item, cost)
        == s.(score := s.score - cost, maxLives := s.maxLives + 1, lives := s.lives + 1)
    ensures item == Heal ==>
      BuyItem(s, item, cost) == s.(score := s.score - cost, lives := Min(s.lives + 1, s.maxLives))
    ensures item == Heal && Valid(s) ==> BuyItem(s, item, cost).lives <= s.maxLives
    ensures item == Immortal ==>
      BuyItem(s, item, cost) == s.(score := s.score - cost, hasImmortality := true)
  {
  }

  /** An unaffordable purchase changes nothing. */
  lemma BuyUnaffordable(s: State, item: ShopItem, cost: int)
    requires s.score < cost
    ensures BuyItem(s, item, cost) == s
  {
  }

  /** Activating immortality and letting it expire restores the state. */
  lemma ExpiryUndoesActivation(s: State)
    requires s.hasImmortality && !s.isImmortalityActive
    ensures ActivateImmortality(s).isImmortalityActive
    ensures ExpireImmortality(ActivateImmortality(s)) == s
  {
  }

  /** The expiry carries no session. Immortality is activated in one run, whose expiry is
      then pending, and the run restarts; the new run buys and activates immortality again.
      One expiry after that ends the new immortality, whichever activation scheduled it: the
      callback clears the flag in every state, so the model cannot tell a stale expiry from
      a fresh one. */
  lemma StaleExpiryEndsNewImmortality(s: State, cost: int)
    requires Valid(s) && s.hasImmortality && !s.isImmortalityActive
    ensures
      var calls := [ActivateImmortalityCall, RestartGameCall, AddScoreCall(cost),
                    BuyItemCall(Immortal, cost), ActivateImmortalityCall];
      && Run(s, calls).isImmortalityActive
      && !Run(s, calls + [ExpireImmortalityCall]).isImmortalityActive
  {
    var calls := [ActivateImmortalityCall, RestartGameCall, AddScoreCall(cost),
                  BuyItemCall(Immortal, cost), ActivateImmortalityCall];
    var s1 := ActivateImmortality(s);
    assert s1.isImmortalityActive;
    var s2 := RestartGame(s1);
    var s3 := AddScore(s2, cost);
    var s4 := BuyItem(s3, Immortal, cost);
    var s5 := ActivateImmortality(s4);
    assert s5.isImmortalityActive;
    assert Run(s4, calls[4..]) == s5;
    assert Run(s3, calls[3..]) == s5;
    assert Run(s2, calls[2..]) == s5;
    assert Run(s1, calls[1..]) == s5;
    assert Run(s, calls) == s5;
    RunAppend(s, calls, [ExpireImmortalityCall]);
  }
}
