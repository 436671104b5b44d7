/** The runner game's constant tables: game statuses, characters, level table and target words.
    Nothing here is ever mutated; the store only reads it. */
module Types {

  /** The eight top-level modes of the game. */
  datatype GameStatus = Splash | CharacterSelect | Menu | Playing | Shop | Paused | GameOver | Victory

  /** Every status, in declaration order. */
  const ALL_STATUSES: seq<GameStatus> :=
    [Splash, CharacterSelect, Menu, Playing, Shop, Paused, GameOver, Victory]

  /** No entry of `s` occurs twice. */
  predicate Distinct<T(==)>(s: seq<T>) {
    forall i, j :: 0 <= i < j < |s| ==> s[i] != s[j]
  }

  /** The position of a status in ALL_STATUSES: the enumeration lists every status. */
  function StatusIndex(st: GameStatus): (k: nat)
    ensures k < |ALL_STATUSES| && ALL_STATUSES[k] == st
  {
    match st
    case Splash => 0
    case CharacterSelect => 1
    case Menu => 2
    case Playing => 3
    case Shop => 4
    case Paused => 5
    case GameOver => 6
    case Victory => 7
  }

  /** There are exactly eight statuses and they are pairwise different. */
  lemma StatusesEnumerated()
    ensures |ALL_STATUSES| == 8 && Distinct(ALL_STATUSES)
    ensures forall k :: 0 <= k < |ALL_STATUSES| ==> StatusIndex(ALL_STATUSES[k]) == k
  {
  }

  /** The three playable characters (the union type of character ids). */
  datatype CharacterId = NeonBlaze | CrimsonRogers | GoldenGlider

  /** The character roster, by id; names, descriptions and colours are display data. */
  const CHARACTERS: seq<CharacterId> := [NeonBlaze, CrimsonRogers, GoldenGlider]

  /** The roster entry of a character id: the roster covers the whole id union. */
  function CharacterIndex(id: CharacterId): (k: nat)
    ensures k < |CHARACTERS| && CHARACTERS[k] == id
  {
    match id
    case NeonBlaze => 0
    case CrimsonRogers => 1
    case GoldenGlider => 2
  }

  /** The roster has exactly three distinct entries and starts with NEON_BLAZE. */
  lemma RosterShape()
    ensures |CHARACTERS| == 3 && Distinct(CHARACTERS)
    ensures CHARACTERS[0] == NeonBlaze
  {
  }

  /** The base forward speed of the runner. */
  const RUN_SPEED_BASE: real := 22.5

  /** The last level; level numbers run from 1 to MAX_LEVEL. */
  const MAX_LEVEL: int := 6

  /** The word whose letters are collected in each level. */
  const LEVEL_WORDS: map<int, string> :=
    map[1 := "SPEED", 2 := "HYPER", 3 := "ULTRA", 4 := "MEGA", 5 := "GIGA", 6 := "OMEGA"]

  /** How long a level lasts: a number of seconds, or forever for the last level. */
  datatype Duration = Finite(seconds: nat) | Endless

  /** Per-level parameters read by the store. */
  datatype LevelConfig = LevelConfig(duration: Duration, speedMultiplier: real)

  const LEVEL_CONFIG: map<int, LevelConfig> :=
    map[
      1 := LevelConfig(Finite(30), 1.0),
      2 := LevelConfig(Finite(30), 1.2),
      3 := LevelConfig(Finite(35), 1.4),
      4 := LevelConfig(Finite(40), 1.6),
      5 := LevelConfig(Finite(45), 1.8),
      6 := LevelConfig(Endless, 2.0)
    ]

  /** Both tables are keyed by exactly the levels 1..MAX_LEVEL. */
  lemma TablesCoverLevels()
    ensures forall l :: l in LEVEL_CONFIG <==> 1 <= l <= MAX_LEVEL
    ensures forall l :: l in LEVEL_WORDS <==> 1 <= l <= MAX_LEVEL
  {
  }

  /** A level's speed multiplier grows by 0.2 per level, starting from 1.0. */
  function SpeedMultiplier(level: int): (m: real)
    requires 1 <= level <= MAX_LEVEL
    ensures m == 1.0 + 0.2 * (level - 1) as real
  {
    LEVEL_CONFIG[level].speedMultiplier
  }

  /** Later levels are strictly faster. */
  lemma SpeedMultipliersIncrease(l1: int, l2: int)
    requires 1 <= l1 < l2 <= MAX_LEVEL
    ensures SpeedMultiplier(l1) < SpeedMultiplier(l2)
  {
  }

  /** Levels 1..5 last a finite, non-decreasing number of seconds; the last level is endless. */
  lemma DurationsOrdered()
    ensures forall l :: 1 <= l < MAX_LEVEL ==> LEVEL_CONFIG[l].duration.Finite?
    ensures forall l :: 1 <= l < MAX_LEVEL - 1 ==>
      LEVEL_CONFIG[l].duration.seconds <= LEVEL_CONFIG[l + 1].duration.seconds
    ensures LEVEL_CONFIG[MAX_LEVEL].duration == Endless
  {
    forall l | 1 <= l < MAX_LEVEL
      ensures LEVEL_CONFIG[l].duration.Finite?
    {
      assert l == 1 || l == 2 || l == 3 || l == 4 || l == 5;
    }
  }

  /** The word the store reads for `level`, falling back to "SPEED" when the table has no
      entry or an empty one (the fallback of a falsy lookup). For every real level the table
      entry is used, and every target word has four or five letters. */
  function TargetWord(level: int): (w: string)
    ensures 4 <= |w| <= 5
    ensures 1 <= level <= MAX_LEVEL ==> w == LEVEL_WORDS[level]
    ensures !(1 <= level <= MAX_LEVEL) ==> w == "SPEED"
  {
    if level in LEVEL_WORDS && LEVEL_WORDS[level] != "" then LEVEL_WORDS[level] else "SPEED"
  }

  /** The target-word lengths of levels 1..6 are 5, 5, 5, 4, 4, 5. */
  lemma TargetLengths()
    ensures |TargetWord(1)| == 5 && |TargetWord(2)| == 5 && |TargetWord(3)| == 5
    ensures |TargetWord(4)| == 4 && |TargetWord(5)| == 4 && |TargetWord(6)| == 5
  {
  }
}
