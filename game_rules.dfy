/** What one frame of a game does to the state of the session, as functions
    on values: GameLayer.update is proved to compute Step, and the lemmas
    here say what Step, and a run of frames, does and does not do.

    Randomness (the positions drawn for a new ball, the bonus chosen, the
    next time the bonus shows) is an input of the frame, the Rolls. */
module GameRules {
  import opened Vectors
  import opened Balls
  import opened GameOptions
  import Timers

  /** What stays fixed during a session: the options, the window size and
      the radius of each kind of ball (half the width of its image). */
  datatype Setting = Setting(options: Options, size: Size, playerRadius: int, enemyRadius: int,
                             coinRadius: int, bonusRadius: int)
  {
    /** The difficulty indexes the parameter tables and every ball fits in
        the window. */
    predicate Playable() {
      && IsTableIndex(options.difficulty)
      && Fits(playerRadius, size) && Fits(enemyRadius, size)
      && Fits(coinRadius, size) && Fits(bonusRadius, size)
    }
  }

  datatype CoinState = CoinState(position: Vec, enabled: bool, enablePending: bool)
  datatype BonusState = BonusState(position: Vec, enabled: bool)

  /** What a game that has no coin, or no bonus, holds in their place. */
  const NO_COIN := CoinState(ZERO, false, false)
  const NO_BONUS := BonusState(ZERO, false)

  /** Everything GameLayer.update reads or writes. The time left in a timer
      the options do not create is 0. */
  datatype World = World(playerPosition: Vec, playerFrozen: bool, keys: set<Key>, mouseDelta: Vec,
                         enemies: seq<EnemyState>, coin: CoinState, bonus: BonusState,
                         addEnemyTime: real, showBonusTime: real, speedDownTime: real, speedUpTime: real,
                         coins: int, isGameOver: bool)

  /** The random results one frame may use: the retry draws of the coin and
      of the enemy a coin adds, the bonus picked (random.randint(0, 1) == 0
      picks the slow-down), the draws of the enemy the add-enemy timer adds,
      the next delay of the bonus and the draws that place it. */
  datatype Rolls = Rolls(coinDraws: seq<Draw>, coinEnemyDraws: seq<Draw>, speedDownChosen: bool,
                         timerEnemyDraws: seq<Draw>, showBonusTime: int, bonusDraws: seq<Draw>)

  /** Seconds between two showings of the bonus: random.randint(3, 10). */
  const SHOW_BONUS_MIN := 3
  const SHOW_BONUS_MAX := 10
  /** How long a caught bonus slows the enemies down, or speeds them up. */
  const SPEED_DOWN_TIME := 6.0
  const SPEED_UP_TIME := 3.0

  /** The rolls are results the random calls of the game can return. */
  predicate RollsFit(s: Setting, r: Rolls) {
    && DrawsInRange(r.coinDraws, s.coinRadius, s.size)
    && DrawsInRange(r.coinEnemyDraws, s.enemyRadius, s.size)
    && DrawsInRange(r.timerEnemyDraws, s.enemyRadius, s.size)
    && DrawsInRange(r.bonusDraws, s.bonusRadius, s.size)
    && SHOW_BONUS_MIN <= r.showBonusTime <= SHOW_BONUS_MAX
  }

  /** Every enemy has Enemy.MASS and the radius of the enemy image. */
  predicate AllEnemies(es: seq<EnemyState>, radius: int) {
    forall k :: 0 <= k < |es| ==> es[k].mass == ENEMY_MASS && es[k].radius == radius
  }

  // ---------------------------------------------------------------------
  // The session at its start

  /** The enemies successive calls of addEnemy create, one per list of
      draws, with the player at the given position. */
  function Spawned(s: Setting, player: Vec, draws: seq<seq<Draw>>): (r: seq<EnemyState>)
    requires IsTableIndex(s.options.difficulty)
    ensures |r| == |draws| && AllEnemies(r, s.enemyRadius)
    ensures forall k :: 0 <= k < |draws| ==>
              r[k] == SpawnedEnemy(player, s.options.EnemySpeed() as real, s.enemyRadius, draws[k])
  {
    seq(|draws|, k requires 0 <= k < |draws| =>
                   SpawnedEnemy(player, s.options.EnemySpeed() as real, s.enemyRadius, draws[k]))
  }

  /** The state GameLayer.__init__ builds before its three enemies: the
      player at the centre of the window, the coin of a coins game, the
      hidden bonus and the timers the options ask for. */
  function Start(s: Setting, coinDraws: seq<Draw>, showBonusTime: int): (w: World)
    requires IsTableIndex(s.options.difficulty)
    ensures w.playerPosition == Vec((s.size.width / 2) as real, (s.size.height / 2) as real)
    ensures w.enemies == [] && w.coins == 0 && !w.isGameOver && !w.playerFrozen && w.mouseDelta == ZERO
    ensures w.addEnemyTime == if s.options.IsTime() then s.options.IntervalAddEnemy() as real else 0.0
    ensures w.speedDownTime == 0.0 && w.speedUpTime == 0.0 && !w.bonus.enabled
  {
    var centre := Vec((s.size.width / 2) as real, (s.size.height / 2) as real);
    World(centre, false, {}, ZERO, [],
          if s.options.IsCoins()
          then CoinState(Relocated(ZERO, coinDraws, centre, COIN_PLAYER_DISTANCE), false, true)
          else NO_COIN,
          NO_BONUS,
          if s.options.IsTime() then s.options.IntervalAddEnemy() as real else 0.0,
          if s.options.bonuses then showBonusTime as real else 0.0,
          0.0, 0.0, 0, false)
  }

  /** The state GameLayer.__init__ builds: the start state and three new
      enemies around the player. */
  function Initial(s: Setting, enemyDraws: seq<seq<Draw>>, coinDraws: seq<Draw>, showBonusTime: int): (w: World)
    requires IsTableIndex(s.options.difficulty) && |enemyDraws| == 3
    ensures w.playerPosition == Vec((s.size.width / 2) as real, (s.size.height / 2) as real)
    ensures |w.enemies| == 3 && AllEnemies(w.enemies, s.enemyRadius)
    ensures forall k :: 0 <= k < 3 ==> !w.enemies[k].enabled && w.enemies[k].speed == ZERO
    ensures w.coins == 0 && !w.isGameOver && !w.playerFrozen && w.mouseDelta == ZERO
    ensures w.addEnemyTime == if s.options.IsTime() then s.options.IntervalAddEnemy() as real else 0.0
    ensures w.speedDownTime == 0.0 && w.speedUpTime == 0.0 && !w.bonus.enabled
  {
    var w0 := Start(s, coinDraws, showBonusTime);
    w0.(enemies := Spawned(s, w0.playerPosition, enemyDraws))
  }

  /** One more call of addEnemy adds the next spawned enemy. */
  lemma SpawnedGrows(s: Setting, player: Vec, draws: seq<seq<Draw>>, n: nat)
    requires IsTableIndex(s.options.difficulty) && n < |draws|
    ensures Spawned(s, player, draws[..n + 1])
            == Spawned(s, player, draws[..n]) + [SpawnedEnemy(player, s.options.EnemySpeed() as real, s.enemyRadius, draws[n])]
  {
    var l, r := Spawned(s, player, draws[..n + 1]),
                Spawned(s, player, draws[..n]) + [SpawnedEnemy(player, s.options.EnemySpeed() as real, s.enemyRadius, draws[n])];
    assert forall k :: 0 <= k < n + 1 ==> l[k] == r[k];
  }


  // ---------------------------------------------------------------------
  // The stages of a frame, in the order update runs them

  /** Player.update, then the mouse movement is used up. */
  function MovePlayer(s: Setting, w: World, dt: real): (r: World)
    ensures r == w.(playerPosition := r.playerPosition, mouseDelta := ZERO)
    ensures w.playerFrozen ==> r.playerPosition == w.playerPosition
    ensures !w.playerFrozen && Fits(s.playerRadius, s.size) ==> Inside(r.playerPosition, s.playerRadius, s.size)
  {
    w.(playerPosition := PlayerStep(w.playerPosition, s.playerRadius, w.playerFrozen, dt, w.mouseDelta, w.keys, s.size),
       mouseDelta := ZERO)
  }

  /** isSpeedDown and isSpeedUp: a bonus effect is on while its timer is
      armed, and only in a game with bonuses. */
  predicate SpeedDown(s: Setting, w: World) {
    s.options.bonuses && w.speedDownTime > 0.0
  }

  predicate SpeedUp(s: Setting, w: World) {
    s.options.bonuses && w.speedUpTime > 0.0
  }

  /** The factor applied to the enemies' speed: the slow-down wins over the
      speed-up. */
  function SpeedFactor(s: Setting, w: World): (f: real)
    ensures f == 0.5 <==> SpeedDown(s, w)
    ensures f == 1.5 <==> !SpeedDown(s, w) && SpeedUp(s, w)
    ensures f == 1.0 <==> !SpeedDown(s, w) && !SpeedUp(s, w)
    ensures !s.options.bonuses ==> f == 1.0
  {
    if SpeedDown(s, w) then 0.5 else if SpeedUp(s, w) then 1.5 else 1.0
  }

  /** Enemy.update on every enemy, at the speed factor of the frame. */
  function MoveEnemies(s: Setting, w: World, dt: real): (r: World)
    ensures r == w.(enemies := r.enemies) && |r.enemies| == |w.enemies|
    ensures forall k :: 0 <= k < |w.enemies| && !w.enemies[k].enabled ==> r.enemies[k] == w.enemies[k]
    ensures AllEnemies(w.enemies, s.enemyRadius) ==> AllEnemies(r.enemies, s.enemyRadius)
    ensures AllEnemies(w.enemies, s.enemyRadius) && Fits(s.enemyRadius, s.size) ==>
              forall k :: 0 <= k < |r.enemies| && r.enemies[k].enabled ==> Inside(r.enemies[k].position, s.enemyRadius, s.size)
  {
    var factor := SpeedFactor(s, w);
    w.(enemies := seq(|w.enemies|, k requires 0 <= k < |w.enemies| => EnemyMove(w.enemies[k], dt, factor, s.size)))
  }

  /** addEnemy: a new enemy, placed away from the player, is appended. */
  function AddEnemy(s: Setting, w: World, draws: seq<Draw>): (r: World)
    requires IsTableIndex(s.options.difficulty)
    ensures r == w.(enemies := r.enemies)
    ensures |r.enemies| == |w.enemies| + 1 && w.enemies <= r.enemies
    ensures !r.enemies[|w.enemies|].enabled
    ensures AllEnemies(w.enemies, s.enemyRadius) ==> AllEnemies(r.enemies, s.enemyRadius)
  {
    w.(enemies := w.enemies + [SpawnedEnemy(w.playerPosition, s.options.EnemySpeed() as real, s.enemyRadius, draws)])
  }

  /** The player touches the coin of a coins game while it can be caught. */
  predicate CoinCaught(s: Setting, w: World) {
    s.options.IsCoins() && w.coin.enabled && Collide(w.playerPosition, s.playerRadius, w.coin.position, s.coinRadius)
  }

  /** A caught coin counts one, moves elsewhere, and every
      getCoinsAddEnemy-th coin adds an enemy. */
  function CatchCoin(s: Setting, w: World, rolls: Rolls): (r: World)
    requires IsTableIndex(s.options.difficulty)
    ensures r == w.(coins := r.coins, coin := r.coin, enemies := r.enemies)
    ensures !CoinCaught(s, w) ==> r == w
    ensures CoinCaught(s, w) ==> r.coins == w.coins + 1 && r.coin.enabled
    ensures |r.enemies| == |w.enemies| + 1 <==> CoinCaught(s, w) && (w.coins + 1) % s.options.CoinsAddEnemy() == 0
    ensures w.enemies <= r.enemies && |r.enemies| <= |w.enemies| + 1
    ensures AllEnemies(w.enemies, s.enemyRadius) ==> AllEnemies(r.enemies, s.enemyRadius)
  {
    if CoinCaught(s, w) then
      var moved := w.(coins := w.coins + 1,
                      coin := w.coin.(position := Relocated(w.coin.position, rolls.coinDraws, w.playerPosition, COIN_PLAYER_DISTANCE)));
      if moved.coins % s.options.CoinsAddEnemy() == 0 then AddEnemy(s, moved, rolls.coinEnemyDraws) else moved
    else w
  }

  /** giveBonus: the bonus is hidden and exactly one effect is armed, the
      other cancelled. */
  function GiveBonus(w: World, speedDownChosen: bool): (r: World)
    ensures r == w.(bonus := r.bonus, speedDownTime := r.speedDownTime, speedUpTime := r.speedUpTime)
    ensures r.bonus == w.bonus.(enabled := false)
    ensures speedDownChosen ==> r.speedDownTime == SPEED_DOWN_TIME && r.speedUpTime == 0.0
    ensures !speedDownChosen ==> r.speedUpTime == SPEED_UP_TIME && r.speedDownTime == 0.0
  {
    if speedDownChosen then
      w.(bonus := w.bonus.(enabled := false), speedUpTime := 0.0, speedDownTime := SPEED_DOWN_TIME)
    else
      w.(bonus := w.bonus.(enabled := false), speedDownTime := 0.0, speedUpTime := SPEED_UP_TIME)
  }

  /** After giveBonus exactly one of the two effects is on. */
  lemma GiveBonusArmsOne(s: Setting, w: World, speedDownChosen: bool)
    requires s.options.bonuses
    ensures var r := GiveBonus(w, speedDownChosen);
      (SpeedDown(s, r) <==> speedDownChosen) && (SpeedUp(s, r) <==> !speedDownChosen)
      && SpeedFactor(s, r) == (if speedDownChosen then 0.5 else 1.5)
  {
  }

  predicate BonusCaught(s: Setting, w: World) {
    s.options.bonuses && w.bonus.enabled && Collide(w.playerPosition, s.playerRadius, w.bonus.position, s.bonusRadius)
  }

  /** A shown bonus the player touches is given. */
  function CatchBonus(s: Setting, w: World, rolls: Rolls): (r: World)
    ensures !BonusCaught(s, w) ==> r == w
    ensures BonusCaught(s, w) ==> !r.bonus.enabled && (SpeedDown(s, r) <==> !SpeedUp(s, r))
    ensures r == w.(bonus := r.bonus, speedDownTime := r.speedDownTime, speedUpTime := r.speedUpTime)
  {
    if BonusCaught(s, w) then GiveBonus(w, rolls.speedDownChosen) else w
  }

  /** An enabled enemy touches the player. */
  predicate HitsPlayer(s: Setting, w: World, e: EnemyState) {
    e.enabled && Collide(w.playerPosition, s.playerRadius, e.position, e.radius)
  }

  /** gameOver: the latch is set and every enemy's pending fade-in is
      stopped. */
  function EndGame(w: World): (r: World)
    ensures r.isGameOver
    ensures r == w.(isGameOver := true, enemies := r.enemies) && |r.enemies| == |w.enemies|
    ensures forall k :: 0 <= k < |w.enemies| ==> r.enemies[k] == w.enemies[k].(enablePending := false)
  {
    w.(isGameOver := true,
       enemies := seq(|w.enemies|, k requires 0 <= k < |w.enemies| => w.enemies[k].(enablePending := false)))
  }

  /** The check of every enemy against the player: the game is over exactly
      when an enabled enemy touches the player. */
  function CheckHits(s: Setting, w: World): (r: World)
    ensures r.isGameOver <==> w.isGameOver || exists k :: 0 <= k < |w.enemies| && HitsPlayer(s, w, w.enemies[k])
    ensures (forall k :: 0 <= k < |w.enemies| ==> !HitsPlayer(s, w, w.enemies[k])) ==> r == w
    ensures r == w || r == EndGame(w)
    ensures AllEnemies(w.enemies, s.enemyRadius) ==> AllEnemies(r.enemies, s.enemyRadius)
  {
    if exists k :: 0 <= k < |w.enemies| && HitsPlayer(s, w, w.enemies[k]) then EndGame(w) else w
  }

  /** Whether the scan bounces enemies i and j: i before j, both enabled,
      and touching. */
  predicate BouncePair(es: seq<EnemyState>, i: nat, j: nat)
    requires i < |es| && j < |es|
  {
    j > i && es[i].enabled && es[j].enabled && Collide(es[i].position, es[i].radius, es[j].position, es[j].radius)
  }

  /** One pair of the scan: the enemies after pair (i, j) is looked at. */
  function PairStep(es: seq<EnemyState>, i: nat, j: nat, radius: int, size: Size, sqrt: real -> real): (r: seq<EnemyState>)
    requires AllEnemies(es, radius) && i < |es| && j < |es|
    ensures |r| == |es| && AllEnemies(r, radius)
    ensures PairScan(es, i, j, radius, size, sqrt) == PairScan(r, i, j + 1, radius, size, sqrt)
    ensures !BouncePair(es, i, j) ==> r == es
  {
    if BouncePair(es, i, j) then
      EnemiesCanBounce(es[i], es[j], sqrt);
      var r := Bounce(es[i], es[j], size, sqrt);
      es[i := r.0][j := r.1]
    else es
  }

  /** The nested scan over the pairs (i, j) of enemies, from pair (i, j) on
      in the order of the two loops: each pair that BouncePair picks is
      bounced, with the states the earlier bounces left. */
  function PairScan(es: seq<EnemyState>, i: nat, j: nat, radius: int, size: Size, sqrt: real -> real): (r: seq<EnemyState>)
    requires AllEnemies(es, radius)
    ensures |r| == |es| && AllEnemies(r, radius)
    decreases |es| - i, |es| - j
  {
    if i >= |es| then es
    else if j >= |es| then PairScan(es, i + 1, 0, radius, size, sqrt)
    else if BouncePair(es, i, j) then
      EnemiesCanBounce(es[i], es[j], sqrt);
      var r := Bounce(es[i], es[j], size, sqrt);
      PairScan(es[i := r.0][j := r.1], i, j + 1, radius, size, sqrt)
    else PairScan(es, i, j + 1, radius, size, sqrt)
  }

  /** The enemy-enemy collisions, which only a game with ballsCollide has. */
  function BounceEnemies(s: Setting, w: World, sqrt: real -> real): (r: World)
    requires AllEnemies(w.enemies, s.enemyRadius)
    ensures r == w.(enemies := r.enemies) && |r.enemies| == |w.enemies|
    ensures AllEnemies(r.enemies, s.enemyRadius)
    ensures !s.options.ballsCollide ==> r == w
  {
    if s.options.ballsCollide then w.(enemies := PairScan(w.enemies, 0, 0, s.enemyRadius, s.size, sqrt)) else w
  }

  /** The add-enemy timer of a time game: when it runs out, onAddEnemyTimer
      adds the difficulty's interval to it and adds an enemy. */
  function AddEnemyTimer(s: Setting, w: World, dt: real, rolls: Rolls): (r: World)
    requires IsTableIndex(s.options.difficulty)
    ensures r == w.(addEnemyTime := r.addEnemyTime, enemies := r.enemies)
    ensures var fired := Timers.Fires(w.addEnemyTime, dt, true, false, true);
      && (fired ==> r.addEnemyTime == w.addEnemyTime - dt + s.options.IntervalAddEnemy() as real
                    && |r.enemies| == |w.enemies| + 1)
      && (!fired ==> r.addEnemyTime == Timers.Tick(w.addEnemyTime, dt, false, true) && r.enemies == w.enemies)
    ensures w.enemies <= r.enemies
    ensures AllEnemies(w.enemies, s.enemyRadius) ==> AllEnemies(r.enemies, s.enemyRadius)
  {
    var t := Timers.Tick(w.addEnemyTime, dt, false, true);
    if Timers.Fires(w.addEnemyTime, dt, true, false, true) then
      AddEnemy(s, w.(addEnemyTime := t + s.options.IntervalAddEnemy() as real), rolls.timerEnemyDraws)
    else w.(addEnemyTime := t)
  }

  /** Bonus.show for the bonus state. */
  function ShownBonus(b: BonusState, player: Vec, draws: seq<Draw>): (r: BonusState)
    ensures r.enabled
    ensures b.enabled ==> r == b
  {
    if b.enabled then b else BonusState(Relocated(b.position, draws, player, BONUS_PLAYER_DISTANCE), true)
  }

  /** The show-bonus timer counts only while the bonus is hidden; when it
      runs out, onShowBonusTimer re-arms it with a random delay and shows
      the bonus. */
  function ShowBonusTimer(w: World, dt: real, rolls: Rolls): (r: World)
    ensures r == w.(showBonusTime := r.showBonusTime, bonus := r.bonus)
    ensures w.bonus.enabled ==> r == w
    ensures Timers.Fires(w.showBonusTime, dt, true, true, !w.bonus.enabled) ==>
              r.showBonusTime == rolls.showBonusTime as real && r.bonus.enabled
    ensures !Timers.Fires(w.showBonusTime, dt, true, true, !w.bonus.enabled) ==>
              r.showBonusTime == Timers.Tick(w.showBonusTime, dt, true, !w.bonus.enabled) && r.bonus == w.bonus
  {
    var hidden := !w.bonus.enabled;
    var t := Timers.Tick(w.showBonusTime, dt, true, hidden);
    if Timers.Fires(w.showBonusTime, dt, true, true, hidden) then
      w.(showBonusTime := rolls.showBonusTime as real, bonus := ShownBonus(w.bonus, w.playerPosition, rolls.bonusDraws))
    else w.(showBonusTime := t)
  }

  /** Every timer, in the order they were created: add-enemy (time game),
      then show-bonus, slow-down and speed-up (game with bonuses). */
  function TickTimers(s: Setting, w: World, dt: real, rolls: Rolls): (r: World)
    requires IsTableIndex(s.options.difficulty)
    ensures r == w.(addEnemyTime := r.addEnemyTime, enemies := r.enemies, showBonusTime := r.showBonusTime,
                    bonus := r.bonus, speedDownTime := r.speedDownTime, speedUpTime := r.speedUpTime)
    ensures w.enemies <= r.enemies && |r.enemies| <= |w.enemies| + 1
    ensures !s.options.IsTime() ==> r.enemies == w.enemies && r.addEnemyTime == w.addEnemyTime
    ensures !s.options.bonuses ==> r.bonus == w.bonus && r.showBonusTime == w.showBonusTime
    ensures r.speedDownTime == if s.options.bonuses then Timers.Tick(w.speedDownTime, dt, false, true) else w.speedDownTime
    ensures r.speedUpTime == if s.options.bonuses then Timers.Tick(w.speedUpTime, dt, false, true) else w.speedUpTime
    ensures AllEnemies(w.enemies, s.enemyRadius) ==> AllEnemies(r.enemies, s.enemyRadius)
  {
    var w1 := if s.options.IsTime() then AddEnemyTimer(s, w, dt, rolls) else w;
    if s.options.bonuses then
      ShowBonusTimer(w1, dt, rolls).(speedDownTime := Timers.Tick(w1.speedDownTime, dt, false, true),
                                     speedUpTime := Timers.Tick(w1.speedUpTime, dt, false, true))
    else w1
  }

  // ---------------------------------------------------------------------
  // A whole frame

  /** GameLayer.update: nothing at all once the game is over. */
  function Step(s: Setting, w: World, dt: real, rolls: Rolls, sqrt: real -> real): (r: World)
    requires IsTableIndex(s.options.difficulty) && AllEnemies(w.enemies, s.enemyRadius)
    ensures AllEnemies(r.enemies, s.enemyRadius)
    ensures w.isGameOver ==> r == w
    ensures !w.isGameOver ==> r.mouseDelta == ZERO
    ensures |w.enemies| <= |r.enemies| <= |w.enemies| + 1
    ensures r.coins == w.coins || (s.options.IsCoins() && r.coins == w.coins + 1)
    ensures r.keys == w.keys && r.playerFrozen == w.playerFrozen
  {
    if w.isGameOver then w
    else
      var w1 := MovePlayer(s, w, dt);
      var w2 := MoveEnemies(s, w1, dt);
      var w3 := CatchCoin(s, w2, rolls);
      var w4 := CatchBonus(s, w3, rolls);
      var w5 := CheckHits(s, w4);
      var w6 := BounceEnemies(s, w5, sqrt);
      TickTimers(s, w6, dt, rolls)
  }

  /** One frame: its duration and its random results. */
  datatype Frame = Frame(dt: real, rolls: Rolls)

  /** The state after the frames, one Step each. */
  function Run(s: Setting, w: World, frames: seq<Frame>, sqrt: real -> real): (r: World)
    requires IsTableIndex(s.options.difficulty) && AllEnemies(w.enemies, s.enemyRadius)
    decreases |frames|
  {
    if frames == [] then w
    else Run(s, Step(s, w, frames[0].dt, frames[0].rolls, sqrt), frames[1..], sqrt)
  }

  /** Once the game is over no frame changes anything. */
  lemma {:induction false} OverIsOver(s: Setting, w: World, frames: seq<Frame>, sqrt: real -> real)
    requires IsTableIndex(s.options.difficulty) && AllEnemies(w.enemies, s.enemyRadius)
    requires w.isGameOver
    ensures Run(s, w, frames, sqrt) == w
    decreases |frames|
  {
    if frames != [] {
      OverIsOver(s, w, frames[1..], sqrt);
    }
  }

  /** Enemies are never removed, and at most one is added per frame. */
  lemma {:induction false} EnemiesOnlyGrow(s: Setting, w: World, frames: seq<Frame>, sqrt: real -> real)
    requires IsTableIndex(s.options.difficulty) && AllEnemies(w.enemies, s.enemyRadius)
    ensures |w.enemies| <= |Run(s, w, frames, sqrt).enemies| <= |w.enemies| + |frames|
    decreases |frames|
  {
    if frames != [] {
      EnemiesOnlyGrow(s, Step(s, w, frames[0].dt, frames[0].rolls, sqrt), frames[1..], sqrt);
    }
  }

  /** The latch is never cleared: a game that is over at some point of a run
      is over at its end. */
  lemma {:induction false} OverStaysOver(s: Setting, w: World, frames: seq<Frame>, sqrt: real -> real)
    requires IsTableIndex(s.options.difficulty) && AllEnemies(w.enemies, s.enemyRadius)
    ensures w.isGameOver ==> Run(s, w, frames, sqrt).isGameOver
    ensures forall n :: 0 <= n <= |frames| && Run(s, w, frames[..n], sqrt).isGameOver ==> Run(s, w, frames, sqrt).isGameOver
    decreases |frames|
  {
    if w.isGameOver {
      OverIsOver(s, w, frames, sqrt);
    }
    forall n | 0 <= n <= |frames| && Run(s, w, frames[..n], sqrt).isGameOver
      ensures Run(s, w, frames, sqrt).isGameOver
    {
      RunSplits(s, w, frames, n, sqrt);
      OverIsOver(s, Run(s, w, frames[..n], sqrt), frames[n..], sqrt);
    }
  }

  /** Running the frames is running a prefix and then the rest. */
  lemma {:induction false} RunSplits(s: Setting, w: World, frames: seq<Frame>, n: nat, sqrt: real -> real)
    requires IsTableIndex(s.options.difficulty) && AllEnemies(w.enemies, s.enemyRadius)
    requires n <= |frames|
    ensures AllEnemies(Run(s, w, frames[..n], sqrt).enemies, s.enemyRadius)
    ensures Run(s, w, frames, sqrt) == Run(s, Run(s, w, frames[..n], sqrt), frames[n..], sqrt)
    decreases n
  {
    RunKeepsEnemies(s, w, frames[..n], sqrt);
    if n > 0 {
      var w1 := Step(s, w, frames[0].dt, frames[0].rolls, sqrt);
      assert frames[..n][1..] == frames[1..][..n - 1];
      assert frames[1..][n - 1..] == frames[n..];
      RunSplits(s, w1, frames[1..], n - 1, sqrt);
    }
  }

  /** Every state of a run has unit-mass enemies of the enemy radius. */
  lemma {:induction false} RunKeepsEnemies(s: Setting, w: World, frames: seq<Frame>, sqrt: real -> real)
    requires IsTableIndex(s.options.difficulty) && AllEnemies(w.enemies, s.enemyRadius)
    ensures AllEnemies(Run(s, w, frames, sqrt).enemies, s.enemyRadius)
    decreases |frames|
  {
    if frames != [] {
      RunKeepsEnemies(s, Step(s, w, frames[0].dt, frames[0].rolls, sqrt), frames[1..], sqrt);
    }
  }

  // ---------------------------------------------------------------------
  // The pair scan

  /** The sum of the enemies' speeds: their total momentum, every enemy
      having unit mass. */
  function TotalSpeed(es: seq<EnemyState>): Vec
    decreases |es|
  {
    if es == [] then ZERO else es[0].speed.Plus(TotalSpeed(es[1..]))
  }

  /** Replacing one enemy's speed changes the total by the difference. */
  lemma {:induction false} TotalSpeedUpdate(es: seq<EnemyState>, i: nat, e: EnemyState)
    requires i < |es|
    ensures TotalSpeed(es[i := e]) == TotalSpeed(es).Minus(es[i].speed).Plus(e.speed)
    decreases |es|
  {
    if i > 0 {
      assert es[i := e][1..] == es[1..][i - 1 := e];
      TotalSpeedUpdate(es[1..], i - 1, e);
    }
  }

  /** Bouncing two unit-mass enemies keeps the sum of their speeds. */
  lemma BounceKeepsSpeedSum(a: EnemyState, b: EnemyState, size: Size, sqrt: real -> real)
    requires a.mass == ENEMY_MASS && b.mass == ENEMY_MASS && a.radius == b.radius
    ensures CanBounce(a, b, sqrt)
    ensures var r := Bounce(a, b, size, sqrt); r.0.speed.Plus(r.1.speed) == a.speed.Plus(b.speed)
  {
    EnemiesCanBounce(a, b, sqrt);
    ImpulseConservesMomentum(a.speed, b.speed, 1.0, 1.0, Normalized(Mtd(a, b, sqrt), sqrt));
  }

  /** The pair scan conserves the total momentum of the enemies. */
  lemma {:induction false} PairScanConservesMomentum(es: seq<EnemyState>, i: nat, j: nat, radius: int, size: Size,
                                                     sqrt: real -> real)
    requires AllEnemies(es, radius)
    ensures TotalSpeed(PairScan(es, i, j, radius, size, sqrt)) == TotalSpeed(es)
    decreases |es| - i, |es| - j
  {
    if i >= |es| {
    } else if j >= |es| {
      PairScanConservesMomentum(es, i + 1, 0, radius, size, sqrt);
    } else if BouncePair(es, i, j) {
      BounceKeepsSpeedSum(es[i], es[j], size, sqrt);
      var r := Bounce(es[i], es[j], size, sqrt);
      var es1 := es[i := r.0];
      TotalSpeedUpdate(es, i, r.0);
      TotalSpeedUpdate(es1, j, r.1);
      assert es1[j] == es[j];
      PairScanConservesMomentum(es1[j := r.1], i, j + 1, radius, size, sqrt);
    } else {
      PairScanConservesMomentum(es, i, j + 1, radius, size, sqrt);
    }
  }

  /** The pair scan leaves every disabled enemy exactly as it was. */
  lemma {:induction false} PairScanSkipsDisabled(es: seq<EnemyState>, i: nat, j: nat, radius: int, size: Size,
                                                 sqrt: real -> real, k: nat)
    requires AllEnemies(es, radius)
    requires k < |es| && !es[k].enabled
    ensures PairScan(es, i, j, radius, size, sqrt)[k] == es[k]
    decreases |es| - i, |es| - j
  {
    if i >= |es| {
    } else if j >= |es| {
      PairScanSkipsDisabled(es, i + 1, 0, radius, size, sqrt, k);
    } else if BouncePair(es, i, j) {
      EnemiesCanBounce(es[i], es[j], sqrt);
      var r := Bounce(es[i], es[j], size, sqrt);
      PairScanSkipsDisabled(es[i := r.0][j := r.1], i, j + 1, radius, size, sqrt, k);
    } else {
      PairScanSkipsDisabled(es, i, j + 1, radius, size, sqrt, k);
    }
  }

  /** With no pair of enabled enemies touching, the scan changes nothing. */
  lemma {:induction false} PairScanWithoutContact(es: seq<EnemyState>, i: nat, j: nat, radius: int, size: Size,
                                                  sqrt: real -> real)
    requires AllEnemies(es, radius)
    requires forall a, b :: 0 <= a < |es| && 0 <= b < |es| ==> !BouncePair(es, a, b)
    ensures PairScan(es, i, j, radius, size, sqrt) == es
    decreases |es| - i, |es| - j
  {
    if i >= |es| {
    } else if j >= |es| {
      PairScanWithoutContact(es, i + 1, 0, radius, size, sqrt);
    } else {
      PairScanWithoutContact(es, i, j + 1, radius, size, sqrt);
    }
  }

  /** A disabled enemy goes through a whole frame unmoved and with its speed
      unchanged; only its pending fade-in may be stopped by the game's end. */
  lemma DisabledEnemyUnchanged(s: Setting, w: World, dt: real, rolls: Rolls, sqrt: real -> real, k: nat)
    requires IsTableIndex(s.options.difficulty) && AllEnemies(w.enemies, s.enemyRadius)
    requires k < |w.enemies| && !w.enemies[k].enabled
    ensures var r := Step(s, w, dt, rolls, sqrt);
      r.enemies[k] == w.enemies[k] || r.enemies[k] == w.enemies[k].(enablePending := false)
  {
    if !w.isGameOver {
      var w1 := MovePlayer(s, w, dt);
      var w2 := MoveEnemies(s, w1, dt);
      var w3 := CatchCoin(s, w2, rolls);
      var w4 := CatchBonus(s, w3, rolls);
      var w5 := CheckHits(s, w4);
      var w6 := BounceEnemies(s, w5, sqrt);
      assert w2.enemies[k] == w.enemies[k];
      assert w4.enemies[k] == w.enemies[k] by {
        assert w2.enemies <= w3.enemies;
      }
      assert w5.enemies[k] == w4.enemies[k] || w5.enemies[k] == w4.enemies[k].(enablePending := false);
      assert w6.enemies[k] == w5.enemies[k] by {
        if s.options.ballsCollide {
          PairScanSkipsDisabled(w5.enemies, 0, 0, s.enemyRadius, s.size, sqrt, k);
        }
      }
      assert TickTimers(s, w6, dt, rolls).enemies[k] == w6.enemies[k] by {
        assert w6.enemies <= TickTimers(s, w6, dt, rolls).enemies;
      }
    }
  }
}
