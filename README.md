# Runner game state store, modelled in Dafny

This project models the state core of a casual endless-runner game.

- **The store** (`store.ts`) is one long-lived mutable record: status, score, lives, speed, collected letters, level, lanes and abilities. It has named actions that the render loop, the pickup handlers and the menus call. Each action reads the current fields and overwrites some of them.
- **The constant tables** (`types.ts`) are read by those actions: game statuses, the character roster, the level table and the per-level target words.

The model has four modules:

- `Types` (`types.dfy`) holds the tables as constants and datatypes: `GameStatus`, `CharacterId`, `LEVEL_WORDS`, and `LEVEL_CONFIG` with a `Finite(seconds) | Endless` duration. It also has lemmas about their shape.
- `Actions` (`actions.dfy`) has a value snapshot `State` of the fifteen fields and one function per action. Each function gives the state after the action from the state before it. It also defines the invariant `Valid`: lives in `[0, maxLives]`, `maxLives >= 1`, the lane count odd and in `[3, 9]`, the level in `[1, 6]`, no letter index collected twice, and a gem count of at least 0. `Runs.ReachableStatesValid` proves all of these for every state reachable from the initial store.
- `Store` (`store.dfy`) has the class `GameStore` with the store's fifteen fields. Each action is a method that keeps `Valid()` and says exactly which fields change and to what. Each method also says that its new state is what the matching `Actions` function computes.
- `Runs` (`runs.dfy`) proves what the actions give over sequences of calls:
  - the invariant holds in every reachable state;
  - hits count lives down to a game over;
  - a whole word pays `1000 * L + 5000`;
  - level advances grow the track to at most nine lanes;
  - the reset, pause, shop and immortality rules hold.

Score, costs, amounts and lives are unbounded integers. Speed, distance, level progress and the speed multipliers are reals.

The code promises less than one might expect, and the model follows the code:

- The score can go negative. `addScore` and `collectGem` take any amount, so score `>= 0` is not an invariant of the model. A purchase cannot make the score negative, since it runs only when the score covers the cost, but a negative `cost` makes `buyItem` raise the score.
- `increaseSpeed` adds any amount, so speed `>= 0` is not an invariant either.
- `setDistance` and `setLevelProgress` overwrite without checks, so the distance need not grow and the progress need not stay in `[0, 1]`.
- Status changes are not restricted to a set of allowed edges. `setStatus`, `openShop`, `closeShop`, `goHome`, `startGame`, `restartGame`, `takeDamage` and `advanceLevel` apply in every status. In particular `advanceLevel` on a GAME_OVER state with no lives gives PLAYING with no lives (`Runs.AdvanceRevivesGameOver`).
- The collected-letter list is duplicate-free and shorter than the target word after every collection as long as it was before (`Runs.LetterBoundPreserved`). It is not bounded in general, though. `advanceLevel` keeps the letters while the target word can get shorter (ULTRA to MEGA), and then the list can outgrow the word and never complete (`Runs.LetterBoundNotGlobal`).
- The immortality expiry is not tied to a session. An expiry scheduled before a restart still clears the flag of an immortality bought and activated after it (`Runs.StaleExpiryEndsNewImmortality`).

## Model

| member | source | states |
|---|---|---|
| Types.StatusIndex | types.ts:7-16 | every status has a position in the list of all statuses, so the list covers the enumeration |
| Types.StatusesEnumerated | types.ts:7-16 | there are exactly eight statuses, pairwise distinct, and position and status round-trip |
| Types.CharacterIndex | types.ts:94 | every character id has an entry in the roster, so the roster covers the id union |
| Types.RosterShape | types.ts:105-127 | the roster has three distinct entries and the first is NEON_BLAZE, the store's initial character |
| Types.TablesCoverLevels | types.ts:48-55 | both the level table and the word table have an entry for exactly the levels 1..6 |
| Types.SpeedMultiplier | types.ts:63-72 | the speed multiplier of level l is 1 + 0.2 (l - 1) |
| Types.SpeedMultipliersIncrease | types.ts:65-72 | a later level always has a strictly larger speed multiplier |
| Types.DurationsOrdered | types.ts:65-72 | levels 1..5 last a finite, non-decreasing number of seconds; level 6 is endless |
| Types.TargetWord | store.ts:144 | the word read for a level is the table's word for levels 1..6 and SPEED otherwise, and always has 4 or 5 letters |
| Types.TargetLengths | types.ts:48-55 | the target words of levels 1..6 have 5, 5, 5, 4, 4 and 5 letters |
| Actions.StartGame | store.ts:75-90 | starting a game always gives a state that satisfies the invariant |
| Actions.RestartGame | store.ts:92-107 | restarting always gives a state that satisfies the invariant |
| Actions.TakeDamage | store.ts:122-131 | a hit keeps lives between 0 and maxLives |
| Actions.AdvanceLevel | store.ts:170-187 | an advance keeps the lane count odd and within 3..9 and the level within 1..6 |
| Actions.BuyItem | store.ts:195-218 | no purchase breaks the invariant, so HEAL never raises lives above maxLives |
| Actions.Initial | store.ts:57-73 | the initial store values; it has no contract of its own, and it is the state that `Store.GameStore.constructor`'s `ensures State() == A.Initial()` names |
| Actions.GoHome | store.ts:109-111 | the state after `goHome`; it has no contract of its own, and it is the state that `Store.GameStore.GoHome`'s `ensures State() == A.GoHome(old(State()))` names |
| Actions.PauseGame | store.ts:113-120 | the state after `pauseGame`; it has no contract of its own, and it is the state that `Store.GameStore.PauseGame`'s `ensures State() == A.PauseGame(old(State()))` names |
| Actions.AddScore | store.ts:133 | the state after `addScore`; it has no contract of its own, and it is the state that `Store.GameStore.AddScore`'s `ensures State() == A.AddScore(old(State()), ...)` names |
| Actions.CollectGem | store.ts:135-138 | the state after `collectGem`; it has no contract of its own, and it is the state that `Store.GameStore.CollectGem`'s `ensures State() == A.CollectGem(old(State()), ...)` names |
| Actions.SetDistance | store.ts:140 | the state after `setDistance`; it has no contract of its own, and it is the state that `Store.GameStore.SetDistance`'s `ensures State() == A.SetDistance(old(State()), ...)` names |
| Actions.AddLetter | store.ts:148-156 | the first update of `collectLetter`; it has no contract of its own, and it is used in the state that `Store.GameStore.CollectLetter`'s `ensures State() == A.CollectLetter(...)` names |
| Actions.CollectLetter | store.ts:142-166 | the state after `collectLetter`; it has no contract of its own, and it is the state that `Store.GameStore.CollectLetter`'s `ensures State() == A.CollectLetter(old(State()), ...)` names |
| Actions.IncreaseSpeed | store.ts:168 | the state after `increaseSpeed`; it has no contract of its own, and it is the state that `Store.GameStore.IncreaseSpeed`'s `ensures State() == A.IncreaseSpeed(old(State()), ...)` names |
| Actions.SetLevelProgress | store.ts:189 | the state after `setLevelProgress`; it has no contract of its own, and it is the state that `Store.GameStore.SetLevelProgress`'s `ensures State() == A.SetLevelProgress(old(State()), ...)` names |
| Actions.OpenShop | store.ts:191 | the state after `openShop`; it has no contract of its own, and it is the state that `Store.GameStore.OpenShop`'s `ensures State() == A.OpenShop(old(State()))` names |
| Actions.CloseShop | store.ts:193 | the state after `closeShop`; it has no contract of its own, and it is the state that `Store.GameStore.CloseShop`'s `ensures State() == A.CloseShop(old(State()))` names |
| Actions.Affordable | store.ts:198 | whether `buyItem` succeeds; it has no contract of its own, and it is used in the state that `Store.GameStore.BuyItem`'s `ensures State() == A.BuyItem(...)` names |
| Actions.ApplyItem | store.ts:201-214 | the item effect of `buyItem`; it has no contract of its own, and it is the state that `Store.GameStore.ApplyItem`'s `ensures State() == A.ApplyItem(old(State()), item)` names |
| Actions.ActivateImmortality | store.ts:220-224 | the state after `activateImmortality`; it has no contract of its own, and it is the state that `Store.GameStore.ActivateImmortality`'s `ensures State() == A.ActivateImmortality(old(State()))` names |
| Actions.ExpireImmortality | store.ts:226-228 | the state after the deferred expiry callback; it has no contract of its own, and it is the state that `Store.GameStore.ExpireImmortality`'s `ensures State() == A.ExpireImmortality(old(State()))` names |
| Actions.SetStatus | store.ts:232 | the state after `setStatus`; it has no contract of its own, and it is the state that `Store.GameStore.SetStatus`'s `ensures State() == A.SetStatus(old(State()), ...)` names |
| Actions.SelectCharacter | store.ts:233 | the state after `selectCharacter`; it has no contract of its own, and it is the state that `Store.GameStore.SelectCharacter`'s `ensures State() == A.SelectCharacter(old(State()), ...)` names |
| Store.GameStore.constructor | store.ts:57-73 | a new store is on the splash screen with the first character, three of three lives, speed 0, level 1 and three lanes |
| Store.GameStore.ResetCounters | store.ts:75-90 | sets score, gems and distance to 0 and lives and maxLives to 3 |
| Store.GameStore.ResetCourse | store.ts:75-90 | sets PLAYING at base speed, no letters, level 1 with zero progress, three lanes and no abilities |
| Store.GameStore.StartGame | store.ts:75-90 | the new state is the initial one except PLAYING at base speed, with the selected character kept |
| Store.GameStore.RestartGame | store.ts:92-107 | the same reset as starting a game |
| Store.GameStore.GoHome | store.ts:109-111 | only the status changes, to MENU, from any status |
| Store.GameStore.PauseGame | store.ts:113-120 | PLAYING becomes PAUSED and PAUSED becomes PLAYING; in every other status nothing changes |
| Store.GameStore.TakeDamage | store.ts:122-131 | while immortal nothing changes; above one life only lives drops by one; otherwise lives 0, GAME_OVER and speed 0 together |
| Store.GameStore.AddScore | store.ts:133 | only the score changes, by any amount |
| Store.GameStore.CollectGem | store.ts:135-138 | the score rises by the gem's value and the gem count by one; nothing else changes |
| Store.GameStore.SetDistance | store.ts:140 | only the distance changes, to the given value |
| Store.GameStore.CollectLetter | store.ts:142-166 | a known index changes nothing; a new one is appended with +1000 score and +2.25 speed; when the list reaches the length of the level's word, another +5000 and the list is emptied |
| Store.GameStore.IncreaseSpeed | store.ts:168 | only the speed changes, by any amount |
| Store.GameStore.AdvanceLevel | store.ts:170-187 | at level 6 nothing changes; otherwise the next level, two more lanes up to nine, PLAYING, the new level's speed and zero progress, with letters and everything else kept |
| Store.GameStore.SetLevelProgress | store.ts:189 | only the level progress changes, unclamped |
| Store.GameStore.OpenShop | store.ts:191 | only the status changes, to SHOP |
| Store.GameStore.CloseShop | store.ts:193 | only the status changes, to PLAYING |
| Store.GameStore.BuyItem | store.ts:195-218 | the result is true exactly when the score covers the cost; when it does not, nothing changes; when it does, the cost is paid and the item takes effect |
| Store.GameStore.ApplyItem | store.ts:201-214 | the item's effect on abilities and lives, as the model's pure item function gives it |
| Store.GameStore.ActivateImmortality | store.ts:220-224 | the active flag is set only when immortality is owned and not already active; otherwise nothing changes |
| Store.GameStore.ExpireImmortality | store.ts:226-228 | the deferred callback clears the active flag unconditionally and touches nothing else |
| Store.GameStore.SetStatus | store.ts:232 | only the status changes, to any value |
| Store.GameStore.SelectCharacter | store.ts:233 | only the selected character changes |
| Runs.StepPreservesValid | store.ts:75-233 | every action keeps the invariant |
| Runs.Run | store.ts:57-233 | any sequence of actions from a valid state ends in a valid state |
| Runs.RunAppend | store.ts:57-233 | running two sequences one after the other is the same as running their concatenation |
| Runs.ReachableStatesValid | store.ts:57-73 | every state reachable from the initial store satisfies the invariant |
| Runs.HitsAbsorbed | store.ts:124 | while immortality is active, any number of hits changes nothing |
| Runs.HitsCountDown | store.ts:126-127 | fewer hits than lives cost exactly one life each and change nothing else |
| Runs.HitsToDeath | store.ts:128-130 | once the hits reach the lives, lives are 0, the game is over and the speed is 0, and further hits change nothing |
| Runs.GameOverIsStable | store.ts:128-130 | hits on a game-over state with no lives and speed 0 change nothing |
| Runs.ThreeHits | store.ts:122-131 | from three of three lives, three hits give 2, 1 and then 0 with GAME_OVER and speed 0 |
| Runs.CollectLetterIdempotent | store.ts:147 | collecting an index that is already collected changes nothing |
| Runs.CollectTwiceOnce | store.ts:142-166 | collecting the same index twice is collecting it once, whenever the first call does not complete the word |
| Runs.CompletingLetterCollectedAgain | store.ts:159-163 | when the first call completes the word it empties the list, so a second call with the same index adds it again |
| Runs.LetterBoundPreserved | store.ts:147-164 | a duplicate-free list shorter than the target word stays duplicate-free and shorter after any collection |
| Runs.NewLetter | store.ts:147-156 | a new letter that does not complete the word is only the first update |
| Runs.LastLetter | store.ts:147-164 | the completing letter gives both bonuses and empties the list, and its speed boost stays |
| Runs.CollectedStep | store.ts:148-156 | one more new letter adds one letter, 1000 points and 2.25 speed to the running totals |
| Runs.CollectPartialWord | store.ts:142-166 | from an empty list, fewer distinct letters than the word has are all kept in order, with 1000 points and 2.25 speed each |
| Runs.CollectWholeWord | store.ts:142-166 | from an empty list, a whole word of L distinct letters gives 1000 L + 5000 points and 2.25 L speed and leaves the list empty; nothing else changes |
| Runs.LetterBoundNotGlobal | store.ts:170-187 | a valid state whose letter list is shorter than its word can advance to a level whose word is no longer than the list |
| Runs.AdvancesBelowMax | store.ts:170-187 | k advances below level 6 raise the level by k and the lanes by 2k up to nine, with PLAYING, that level's speed and zero progress |
| Runs.AdvancesAtMax | store.ts:173-175 | at level 6 any number of advances changes nothing |
| Runs.AdvancesFromStart | store.ts:170-187 | k advances from a fresh run reach level 1 + k, min(3 + 2k, 9) lanes and speed 22.5 (1 + 0.2 k) |
| Runs.AdvanceRevivesGameOver | store.ts:170-187 | advancing from a game over with no lives gives PLAYING at level 2 with still no lives |
| Runs.FirstAdvance | store.ts:170-187 | from level 1 with three lanes, one advance gives level 2, five lanes, speed 27, PLAYING and zero progress |
| Runs.PauseIsInvolution | store.ts:113-120 | pausing twice restores the state, and outside PLAYING and PAUSED pausing does nothing |
| Runs.ResetsAgree | store.ts:75-107 | starting and restarting give the same state, the initial one but PLAYING at base speed with the character kept |
| Runs.BuyMaxLifeExactly | store.ts:198-207 | buying MAX_LIFE for exactly the score leaves score 0 and one more life and maximum life |
| Runs.BuyItemEffects | store.ts:198-214 | an affordable purchase pays the cost, then DOUBLE_JUMP and IMMORTAL set their flag, MAX_LIFE adds a life and a maximum life, and HEAL adds a life capped at the maximum |
| Runs.BuyUnaffordable | store.ts:198-217 | a purchase the score does not cover changes nothing |
| Runs.ExpiryUndoesActivation | store.ts:220-228 | activating an owned, inactive immortality and letting it expire restores the state |
| Runs.StaleExpiryEndsNewImmortality | store.ts:220-228 | activate, restart, then buy and activate again: the immortality is active, and one expiry, whichever activation scheduled it, ends it |

## Left out

- The zustand store machinery (`create`, `set`, `get`, subscriptions, re-rendering) is not modelled. Each `set` is a field assignment in a sequential method; the two-step updates of `collectLetter` and `buyItem` are consecutive assignments.
- Real time and `setTimeout` are left out. The 5-second immortality expiry is the explicit method `Store.GameStore.ExpireImmortality`, which any caller may invoke at any time; the model has no clock, and no order is fixed between the expiry and other actions.
- JavaScript `number` is modelled as unbounded `int` for score, costs, lives, lanes and levels, and as `real` for speed, distance, progress and multipliers. There are no claims about IEEE-754 rounding, NaN or infinities. A fractional score or cost, which JavaScript would accept, cannot be expressed.
- The duration `Infinity` of level 6 is the constructor `Endless`; numeric comparisons with it are not modelled.
- Data used only by rendering and physics is left out: `ObjectType`, `GameObject`, `LANE_WIDTH`, the jump, spawn and remove distances, `LETTER_COLORS`, the shop item's display interface, character names, descriptions and colours, and `obstacleDensity`.
- `vite.config.ts` and `capacitor.config.ts` are not part of this model; they hold build and packaging settings, not game logic.
- The single fourteen-field update of `startGame` and `restartGame` is done by two helper methods, `ResetCounters` and `ResetCourse`. No state is observable between them, because the model has no readers that run concurrently.
- The item effect of `buyItem` is the helper method `ApplyItem`, called after the score is paid; the source inlines it as a switch.
