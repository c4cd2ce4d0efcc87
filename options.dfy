/** The game options: game type, difficulty, and the flags for ball-ball
    collisions and bonuses, with the tables of difficulty-dependent
    parameters. */
module GameOptions {

  // Values of the multiple-choice options.
  const TIME := 0
  const COINS := 1
  const EASY := 0
  const MEDIUM := 1
  const HARD := 2

  // Parameters that depend on the difficulty, indexed by EASY, MEDIUM, HARD.
  const INTERVAL_ADD_ENEMY: seq<int> := [20, 15, 10]
  const ENEMY_SPEED: seq<int> := [200, 300, 400]
  const COINS_ADD_ENEMY: seq<int> := [8, 6, 4]

  /** Python indexing of a three-element tuple: negative indexes count from
      the end, anything outside -3..2 raises IndexError. */
  predicate IsTableIndex(i: int) {
    -3 <= i < 3
  }

  function TableAt(table: seq<int>, i: int): int
    requires |table| == 3 && IsTableIndex(i)
  {
    if i < 0 then table[i + 3] else table[i]
  }

  datatype Options = Options(gameType: int, difficulty: int, ballsCollide: bool, bonuses: bool)
  {
    predicate IsTime() { gameType == TIME }
    predicate IsCoins() { gameType == COINS }
    predicate IsEasy() { difficulty == EASY }
    predicate IsMedium() { difficulty == MEDIUM }
    predicate IsHard() { difficulty == HARD }

    /** Seconds between two enemy additions in a time game. */
    function IntervalAddEnemy(): (r: int)
      requires IsTableIndex(difficulty)
      ensures IsEasy() ==> r == 20
      ensures IsMedium() ==> r == 15
      ensures IsHard() ==> r == 10
      ensures r > 0
    {
      TableAt(INTERVAL_ADD_ENEMY, difficulty)
    }

    /** Initial speed of a new enemy ball. */
    function EnemySpeed(): (r: int)
      requires IsTableIndex(difficulty)
      ensures IsEasy() ==> r == 200
      ensures IsMedium() ==> r == 300
      ensures IsHard() ==> r == 400
      ensures r > 0
    {
      TableAt(ENEMY_SPEED, difficulty)
    }

    /** Number of coins to collect before a new enemy ball is added. */
    function CoinsAddEnemy(): (r: int)
      requires IsTableIndex(difficulty)
      ensures IsEasy() ==> r == 8
      ensures IsMedium() ==> r == 6
      ensures IsHard() ==> r == 4
      ensures r > 0
    {
      TableAt(COINS_ADD_ENEMY, difficulty)
    }
  }

  /** The options of a fresh Options object. */
  function Default(): (o: Options)
    ensures o.IsTime() && !o.IsCoins()
    ensures o.IsMedium() && !o.IsEasy() && !o.IsHard()
    ensures o.ballsCollide && o.bonuses
  {
    Options(TIME, MEDIUM, true, true)
  }

  /** For a game type that is one of the two known values, exactly one of the
      type tests holds. */
  lemma TypeIsExclusive(o: Options)
    requires o.gameType == TIME || o.gameType == COINS
    ensures o.IsTime() <==> !o.IsCoins()
  {
  }

  /** For a difficulty that is one of the three known values, exactly one of
      the difficulty tests holds. */
  lemma DifficultyIsExclusive(o: Options)
    requires EASY <= o.difficulty <= HARD
    ensures (o.IsEasy() && !o.IsMedium() && !o.IsHard())
         || (!o.IsEasy() && o.IsMedium() && !o.IsHard())
         || (!o.IsEasy() && !o.IsMedium() && o.IsHard())
  {
  }

  /** A harder game adds enemies more often, makes them faster and needs fewer
      coins per new enemy. */
  lemma HarderIsHarder(easier: Options, harder: Options)
    requires EASY <= easier.difficulty < harder.difficulty <= HARD
    ensures harder.IntervalAddEnemy() < easier.IntervalAddEnemy()
    ensures harder.EnemySpeed() > easier.EnemySpeed()
    ensures harder.CoinsAddEnemy() < easier.CoinsAddEnemy()
  {
  }
}
