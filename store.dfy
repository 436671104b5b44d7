/** The game-state store: one long-lived mutable record whose actions read the current fields
    and overwrite some of them. Each method states exactly which fields change and to what,
    and that the new state is the one the matching function of module Actions computes. */
module Store {
  import opened Types
  import A = Actions

  class GameStore {
    var status: GameStatus
    var score: int
    var lives: int
    var maxLives: int
    var speed: real
    var collectedLetters: seq<int>
    var level: int
    var levelProgress: real
    var laneCount: int
    var gemsCollected: int
    var distance: real
    var selectedCharacter: CharacterId
    var hasDoubleJump: bool
    var hasImmortality: bool
    var isImmortalityActive: bool

    /** All fields as one value. */
    function State(): A.State
      reads this
    {
      A.State(status, score, lives, maxLives, speed, collectedLetters, level, levelProgress,
              laneCount, gemsCollected, distance, selectedCharacter, hasDoubleJump,
              hasImmortality, isImmortalityActive)
    }

    /** The object invariant. */
    ghost predicate Valid()
      reads this
    {
      A.Valid(State())
    }

    /** The store as the game creates it: on the splash screen, with the first character. */
    constructor ()
      ensures Valid()
      ensures State() == A.Initial()
      ensures status == Splash && selectedCharacter == NeonBlaze && speed == 0.0
    {
      status := Splash;
      selectedCharacter := CHARACTERS[0];
      score := 0;
      lives := 3;
      maxLives := 3;
      speed := 0.0;
      collectedLetters := [];
      level := 1;
      levelProgress := 0.0;
      laneCount := 3;
      gemsCollected := 0;
      distance := 0.0;
      hasDoubleJump := false;
      hasImmortality := false;
      isImmortalityActive := false;
    }

    /** The reset writes fourteen fields in one update; it is split in two here, the
        counters of the run and its course, abilities included. */
    method ResetCounters()
      modifies this`score, this`lives, this`maxLives, this`gemsCollected, this`distance
      ensures score == 0 && lives == A.START_LIVES && maxLives == A.START_LIVES
      ensures gemsCollected == 0 && distance == 0.0
    {
      score := 0;
      lives := A.START_LIVES;
      maxLives := A.START_LIVES;
      gemsCollected := 0;
      distance := 0.0;
    }

    method ResetCourse()
      modifies this`status, this`speed, this`collectedLetters, this`level, this`levelProgress,
               this`laneCount, this`hasDoubleJump, this`hasImmortality, this`isImmortalityActive
      ensures status == Playing && speed == RUN_SPEED_BASE && collectedLetters == []
      ensures level == 1 && levelProgress == 0.0 && laneCount == 3
      ensures !hasDoubleJump && !hasImmortality && !isImmortalityActive
    {
      status := Playing;
      speed := RUN_SPEED_BASE;
      collectedLetters := [];
      level := 1;
      levelProgress := 0.0;
      laneCount := 3;
      hasDoubleJump := false;
      hasImmortality := false;
      isImmortalityActive := false;
    }

    /** Reset every run field and start playing; only the selected character survives. */
    method StartGame()
      requires Valid()
      modifies this
      ensures Valid()
      ensures State() == A.Initial().(status := Playing, speed := RUN_SPEED_BASE,
                                      selectedCharacter := old(selectedCharacter))
      ensures State() == A.StartGame(old(State()))
    {
      ResetCounters();
      ResetCourse();
    }

    /** The same reset as StartGame, which the store writes out a second time. */
    method RestartGame()
      requires Valid()
      modifies this
      ensures Valid()
      ensures State() == A.Initial().(status := Playing, speed := RUN_SPEED_BASE,
                                      selectedCharacter := old(selectedCharacter))
      ensures State() == A.RestartGame(old(State()))
    {
      ResetCounters();
      ResetCourse();
    }

    /** Back to the menu from any status; nothing else changes. */
    method GoHome()
      requires Valid()
      modifies this
      ensures Valid()
      ensures State() == old(State()).(status := Menu)
      ensures State() == A.GoHome(old(State()))
    {
      status := Menu;
    }

    /** PLAYING and PAUSED swap; in any other status nothing changes. */
    method PauseGame()
      requires Valid()
      modifies this
      ensures Valid()
      ensures old(status) == Playing ==> State() == old(State()).(status := Paused)
      ensures old(status) == Paused ==> State() == old(State()).(status := Playing)
      ensures old(status) != Playing && old(status) != Paused ==> State() == old(State())
      ensures State() == A.PauseGame(old(State()))
    {
      var current := status;
      if current == Playing {
        status := Paused;
      } else if current == Paused {
        status := Playing;
      }
    }

    /** A hit. Absorbed while immortality is active; above one life only `lives` drops by one;
        otherwise lives, status and speed become 0, GAME_OVER and 0 together. */
    method TakeDamage()
      requires Valid()
      modifies this
      ensures Valid()
      ensures old(isImmortalityActive) ==> State() == old(State())
      ensures !old(isImmortalityActive) && old(lives) > 1 ==>
        State() == old(State()).(lives := old(lives) - 1)
      ensures !old(isImmortalityActive) && old(lives) <= 1 ==>
        State() == old(State()).(lives := 0, status := GameOver, speed := 0.0)
      ensures State() == A.TakeDamage(old(State()))
    {
      var currentLives, immortal := lives, isImmortalityActive;
      if immortal {
        return;
      }
      if currentLives > 1 {
        lives := currentLives - 1;
      } else {
        lives, status, speed := 0, GameOver, 0.0;
      }
    }

    /** Add any amount, negative included, to the score. */
    method AddScore(amount: int)
      requires Valid()
      modifies this
      ensures Valid()
      ensures State() == old(State()).(score := old(score) + amount)
      ensures State() == A.AddScore(old(State()), amount)
    {
      score := score + amount;
    }

    /** A gem adds its value to the score and one to the gem count, in one update. */
    method CollectGem(value: int)
      requires Valid()
      modifies this
      ensures Valid()
      ensures State() == old(State()).(score := old(score) + value,
                                       gemsCollected := old(gemsCollected) + 1)
      ensures State() == A.CollectGem(old(State()), value)
    {
      score, gemsCollected := score + value, gemsCollected + 1;
    }

    /** Overwrite the distance with whatever the caller computed. */
    method SetDistance(dist: real)
      requires Valid()
      modifies this
      ensures Valid()
      ensures State() == old(State()).(distance := dist)
      ensures State() == A.SetDistance(old(State()), dist)
    {
      distance := dist;
    }

    /** Collect the letter at `index` of the target word. An index already collected changes
        nothing. A new one is appended, earns 1000 points and 2.25 speed; if the list then has
        the target word's length, a second update adds 5000 points and empties the list. */
    method CollectLetter(index: int)
      requires Valid()
      modifies this
      ensures Valid()
      ensures index in old(collectedLetters) ==> State() == old(State())
      ensures index !in old(collectedLetters) && |old(collectedLetters)| + 1 != |TargetWord(old(level))| ==>
        State() == old(State()).(collectedLetters := old(collectedLetters) + [index],
                                 score := old(score) + 1000, speed := old(speed) + 2.25)
      ensures index !in old(collectedLetters) && |old(collectedLetters)| + 1 == |TargetWord(old(level))| ==>
        State() == old(State()).(collectedLetters := [], score := old(score) + 1000 + 5000,
                                 speed := old(speed) + 2.25)
      ensures State() == A.CollectLetter(old(State()), index)
    {
      var letters, currentLevel, currentSpeed := collectedLetters, level, speed;
      var targetLength := |TargetWord(currentLevel)|;
      if index !in letters {
        var newLetters := letters + [index];
        var nextSpeed := currentSpeed + A.LETTER_SPEED_INCREASE;
        collectedLetters, speed, score := newLetters, nextSpeed, score + A.LETTER_BONUS;
        if |newLetters| == targetLength {
          score, collectedLetters := score + A.WORD_BONUS, [];
        }
      }
    }

    /** Add any amount to the speed. */
    method IncreaseSpeed(amount: real)
      requires Valid()
      modifies this
      ensures Valid()
      ensures State() == old(State()).(speed := old(speed) + amount)
      ensures State() == A.IncreaseSpeed(old(State()), amount)
    {
      speed := speed + amount;
    }

    /** At the last level nothing changes. Otherwise the next level, two more lanes (at most
        nine), PLAYING, the next level's speed (replacing the current one) and zero progress;
        the collected letters and everything else stay. */
    method AdvanceLevel()
      requires Valid()
      modifies this
      ensures Valid()
      ensures old(level) >= MAX_LEVEL ==> State() == old(State())
      ensures old(level) < MAX_LEVEL ==>
        State() == old(State()).(level := old(level) + 1,
                                 laneCount := A.Min(old(laneCount) + 2, 9),
                                 status := Playing,
                                 speed := RUN_SPEED_BASE * SpeedMultiplier(old(level) + 1),
                                 levelProgress := 0.0)
      ensures State() == A.AdvanceLevel(old(State()))
    {
      var currentLevel, currentLanes := level, laneCount;
      if currentLevel >= MAX_LEVEL {
        return;
      }
      var nextLevel := currentLevel + 1;
      var config := LEVEL_CONFIG[nextLevel];
      level := nextLevel;
      laneCount := A.Min(currentLanes + A.LANE_GROWTH, A.MAX_LANES);
      status := Playing;
      speed := RUN_SPEED_BASE * config.speedMultiplier;
      levelProgress := 0.0;
    }

    /** Overwrite the level progress, unclamped. */
    method SetLevelProgress(progress: real)
      requires Valid()
      modifies this
      ensures Valid()
      ensures State() == old(State()).(levelProgress := progress)
      ensures State() == A.SetLevelProgress(old(State()), progress)
    {
      levelProgress := progress;
    }

    method OpenShop()
      requires Valid()
      modifies this
      ensures Valid()
      ensures State() == old(State()).(status := Shop)
      ensures State() == A.OpenShop(old(State()))
    {
      status := Shop;
    }

    method CloseShop()
      requires Valid()
      modifies this
      ensures Valid()
      ensures State() == old(State()).(status := Playing)
      ensures State() == A.CloseShop(old(State()))
    {
      status := Playing;
    }

    /** Buy `item` for `cost`. Below the cost: false and no change. Otherwise true, the cost
        is spent (a negative cost raises the score) and then the item takes effect. */
    method BuyItem(item: A.ShopItem, cost: int) returns (ok: bool)
      requires Valid()
      modifies this`score, this`maxLives, this`lives, this`hasDoubleJump, this`hasImmortality
      ensures Valid()
      ensures ok == (old(score) >= cost)
      ensures !ok ==> State() == old(State())
      ensures ok ==> State() == A.ApplyItem(old(State()).(score := old(score) - cost), item)
      ensures State() == A.BuyItem(old(State()), item, cost)
    {
      var currentScore := score;
      if currentScore >= cost {
        score := currentScore - cost;
        ApplyItem(item);
        return true;
      }
      return false;
    }

    /** The effect of a paid-for item on the abilities and lives; the score is not touched. */
    method ApplyItem(item: A.ShopItem)
      requires Valid()
      modifies this`maxLives, this`lives, this`hasDoubleJump, this`hasImmortality
      ensures Valid()
      ensures State() == A.ApplyItem(old(State()), item)
    {
      var currentMax, currentLives := maxLives, lives;
      match item {
        case DoubleJump =>
          hasDoubleJump := true;
        case MaxLife =>
          maxLives, lives := currentMax + 1, currentLives + 1;
        case Heal =>
          lives := A.Min(currentLives + 1, currentMax);
        case Immortal =>
          hasImmortality := true;
      }
    }

    /** Switch immortality on when it is owned and not already on; otherwise nothing. */
    method ActivateImmortality()
      requires Valid()
      modifies this
      ensures Valid()
      ensures old(hasImmortality) && !old(isImmortalityActive) ==>
        State() == old(State()).(isImmortalityActive := true)
      ensures !(old(hasImmortality) && !old(isImmortalityActive)) ==> State() == old(State())
      ensures State() == A.ActivateImmortality(old(State()))
    {
      var owned, active := hasImmortality, isImmortalityActive;
      if owned && !active {
        isImmortalityActive := true;
      }
    }

    /** The timer callback scheduled by ActivateImmortality: it clears the flag, whatever has
        happened since, and touches nothing else. */
    method ExpireImmortality()
      requires Valid()
      modifies this
      ensures Valid()
      ensures State() == old(State()).(isImmortalityActive := false)
      ensures State() == A.ExpireImmortality(old(State()))
    {
      isImmortalityActive := false;
    }

    /** Put the store in any status; nothing else changes. */
    method SetStatus(newStatus: GameStatus)
      requires Valid()
      modifies this
      ensures Valid()
      ensures State() == old(State()).(status := newStatus)
      ensures State() == A.SetStatus(old(State()), newStatus)
    {
      status := newStatus;
    }

    method SelectCharacter(id: CharacterId)
      requires Valid()
      modifies this
      ensures Valid()
      ensures State() == old(State()).(selectedCharacter := id)
      ensures State() == A.SelectCharacter(old(State()), id)
    {
      selectedCharacter := id;
    }
  }
}
