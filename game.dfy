/** GameLayer, the layer that runs a game: it owns the player, the enemies,
    the coin or the bonus and the timers, and updates them once per frame.
    Each stage of the frame is a method proved to compute the stage of the
    same name in GameRules, on the state Model() reads off the objects. */
module Game {
  import opened Vectors
  import opened Balls
  import opened GameOptions
  import opened Timers
  import opened GameRules

  /** The states of the enemies, in list order. */
  function States(es: seq<Enemy>): (r: seq<EnemyState>)
    reads es
    ensures |r| == |es| && forall k :: 0 <= k < |es| ==> r[k] == es[k].State()
  {
    seq(|es|, k requires 0 <= k < |es| reads es => es[k].State())
  }

  /** No enemy appears twice in the list. */
  predicate Distinct(es: seq<Enemy>) {
    forall i, j :: 0 <= i < j < |es| ==> es[i] != es[j]
  }

  /** The enemies are distinct balls of unit mass and the given radius. */
  predicate EnemyList(es: seq<Enemy>, radius: int) {
    && Distinct(es)
    && forall k :: 0 <= k < |es| ==> es[k].radius == radius && es[k].mass == ENEMY_MASS
  }

  /** The time left in a timer, 0 for a timer the options do not create. */
  function TimeOf(t: Timer?): real
    reads t
  {
    if t == null then 0.0 else t.time
  }

  /** Calling gameOver again leaves the same game state (the fade-out and
      scene pop it schedules each time are not part of the state). */
  lemma EndGameTwiceIsOnce(w: World)
    ensures EndGame(EndGame(w)) == EndGame(w)
  {
    var once, twice := EndGame(w), EndGame(EndGame(w));
    assert twice.enemies == once.enemies;
  }

  class GameLayer {
    const options: Options
    /** The window size and the radii of the balls other than the player. */
    const size: Size
    const enemyRadius: int
    const coinRadius: int
    const bonusRadius: int

    const player: Player
    /** The coin of a coins game. */
    const coin: Coin?
    /** The bonus of a game with bonuses. */
    const bonus: Bonus?
    /** The timers: add-enemy in a time game, the other three in a game with
        bonuses. */
    const addEnemyTimer: Timer?
    const showBonusTimer: Timer?
    const speedDownTimer: Timer?
    const speedUpTimer: Timer?

    var keysPressed: set<Key>
    var enemies: seq<Enemy>
    var isGameOver: bool
    var coins: int
    var mouseDelta: Vec

    function Setup(): Setting {
      Setting(options, size, player.radius, enemyRadius, coinRadius, bonusRadius)
    }

    /** The objects the options call for exist and each timer is built as
        __init__ builds it. Only constant fields are involved, so no update
        can break it. */
    predicate Wired() {
      && Setup().Playable()
      && (coin != null <==> options.IsCoins()) && (coin != null ==> coin.radius == coinRadius)
      && (bonus != null <==> options.bonuses) && (bonus != null ==> bonus.radius == bonusRadius)
      && (addEnemyTimer != null <==> options.IsTime())
      && (addEnemyTimer != null ==> addEnemyTimer.hasCallback && !addEnemyTimer.hasCond)
      && (showBonusTimer != null <==> options.bonuses)
      && (showBonusTimer != null ==>
            showBonusTimer.hasCallback && showBonusTimer.hasCond
            && showBonusTimer.args == [SHOW_BONUS_MIN, SHOW_BONUS_MAX])
      && (speedDownTimer != null <==> options.bonuses)
      && (speedDownTimer != null ==> !speedDownTimer.hasCallback && !speedDownTimer.hasCond)
      && (speedUpTimer != null <==> options.bonuses)
      && (speedUpTimer != null ==> !speedUpTimer.hasCallback && !speedUpTimer.hasCond)
      && (options.bonuses ==>
            showBonusTimer != speedDownTimer && showBonusTimer != speedUpTimer && speedDownTimer != speedUpTimer)
      && (options.IsTime() && options.bonuses ==>
            addEnemyTimer != showBonusTimer && addEnemyTimer != speedDownTimer && addEnemyTimer != speedUpTimer)
    }

    /** The layer is wired and its enemies are distinct unit-mass balls of
        the enemy radius. */
    ghost predicate Valid()
      reads this`enemies
    {
      Wired() && EnemyList(enemies, enemyRadius)
    }

    /** The state of the session, read off the objects. */
    function Model(): World
      reads this, player, enemies, coin, bonus, addEnemyTimer, showBonusTimer, speedDownTimer, speedUpTimer
    {
      World(player.position, player.frozen, keysPressed, mouseDelta, States(enemies),
            if coin == null then NO_COIN else CoinState(coin.position, coin.enabled, coin.enablePending),
            if bonus == null then NO_BONUS else BonusState(bonus.position, bonus.enabled),
            TimeOf(addEnemyTimer), TimeOf(showBonusTimer), TimeOf(speedDownTimer), TimeOf(speedUpTimer),
            coins, isGameOver)
    }

    /** The layer of a new game. The random results it needs are given: the
        draws of the three enemies and of the coin, and the first delay of
        the bonus. */
    constructor (options: Options, size: Size, playerRadius: int, enemyRadius: int, coinRadius: int,
                 bonusRadius: int, enemyDraws: seq<seq<Draw>>, coinDraws: seq<Draw>, showBonusTime: int)
      requires Setting(options, size, playerRadius, enemyRadius, coinRadius, bonusRadius).Playable()
      requires |enemyDraws| == 3 && forall k :: 0 <= k < 3 ==> DrawsInRange(enemyDraws[k], enemyRadius, size)
      requires DrawsInRange(coinDraws, coinRadius, size)
      requires SHOW_BONUS_MIN <= showBonusTime <= SHOW_BONUS_MAX
      ensures Valid()
      ensures Model() == Initial(Setup(), enemyDraws, coinDraws, showBonusTime)
    {
      this.options := options;
      this.size := size;
      this.enemyRadius := enemyRadius;
      this.coinRadius := coinRadius;
      this.bonusRadius := bonusRadius;
      keysPressed := {};
      enemies := [];
      isGameOver := false;
      coins := 0;
      mouseDelta := ZERO;
      // The timers.
      var addEnemy: Timer? := null;
      if options.IsTime() {
        addEnemy := new Timer(options.IntervalAddEnemy() as real, true, false, []);
      }
      addEnemyTimer := addEnemy;
      var showBonus: Timer?, speedDown: Timer?, speedUp: Timer? := null, null, null;
      if options.bonuses {
        showBonus := new Timer(showBonusTime as real, true, true, [SHOW_BONUS_MIN, SHOW_BONUS_MAX]);
        speedDown := new Timer(0.0, false, false, []);
        speedUp := new Timer(0.0, false, false, []);
      }
      showBonusTimer, speedDownTimer, speedUpTimer := showBonus, speedDown, speedUp;
      // The player at the centre of the window.
      var centre := Vec((size.width / 2) as real, (size.height / 2) as real);
      player := new Player(centre, playerRadius);
      // The coin and the bonus.
      var c: Coin? := null;
      if options.IsCoins() {
        c := new Coin(centre, coinRadius, size, coinDraws);
      }
      coin := c;
      var b: Bonus? := null;
      if options.bonuses {
        b := new Bonus(bonusRadius);
      }
      bonus := b;
      new;
      // The three first enemies.
      SpawnEnemies(enemyDraws);
    }

    /** The enemies __init__ adds with addEnemy, one per list of draws. */
    method SpawnEnemies(draws: seq<seq<Draw>>)
      requires Valid() && forall k :: 0 <= k < |draws| ==> DrawsInRange(draws[k], enemyRadius, size)
      modifies this`enemies
      ensures Valid()
      ensures Model() == old(Model()).(enemies := old(Model()).enemies + Spawned(Setup(), player.position, draws))
    {
      ghost var w0 := Model();
      ghost var s := Setup();
      for x := 0 to |draws|
        invariant Valid()
        invariant Model() == w0.(enemies := w0.enemies + Spawned(s, w0.playerPosition, draws[..x]))
      {
        var _ := AddEnemy(draws[x]);
        SpawnedGrows(s, w0.playerPosition, draws, x);
      }
      assert draws[..|draws|] == draws;
    }

    /** addEnemy: a new enemy, away from the player, joins the list. */
    method AddEnemy(draws: seq<Draw>) returns (enemy: Enemy)
      requires Valid() && DrawsInRange(draws, enemyRadius, size)
      modifies this`enemies
      ensures Valid() && fresh(enemy) && enemies == old(enemies) + [enemy]
      ensures Model() == GameRules.AddEnemy(Setup(), old(Model()), draws)
    {
      enemy := new Enemy(player.position, options.EnemySpeed() as real, enemyRadius, size, draws);
      enemies := enemies + [enemy];
      assert States(enemies) == old(States(enemies)) + [enemy.State()];
    }

    /** gameOver: the latch is set and every enemy's pending fade-in is
        stopped. */
    method GameOver()
      requires Valid()
      modifies this`isGameOver, enemies
      ensures Valid() && enemies == old(enemies)
      ensures Model() == EndGame(old(Model()))
    {
      ghost var before := States(enemies);
      isGameOver := true;
      for k := 0 to |enemies|
        invariant isGameOver
        invariant forall m :: 0 <= m < k ==> enemies[m].State() == before[m].(enablePending := false)
        invariant forall m :: k <= m < |enemies| ==> enemies[m].State() == before[m]
      {
        enemies[k].Stop();
      }
      assert States(enemies) == EndGame(old(Model())).enemies;
    }

    /** isSpeedDown: the slow-down bonus is on. */
    predicate IsSpeedDown()
      requires Valid()
      reads this, speedDownTimer
      ensures IsSpeedDown() == SpeedDown(Setup(), Model())
    {
      options.bonuses && speedDownTimer.time > 0.0
    }

    /** isSpeedUp: the speed-up bonus is on. */
    predicate IsSpeedUp()
      requires Valid()
      reads this, speedUpTimer
      ensures IsSpeedUp() == SpeedUp(Setup(), Model())
    {
      options.bonuses && speedUpTimer.time > 0.0
    }

    /** giveBonus: the bonus is hidden and one of the two effects armed;
        speedDownChosen is random.randint(0, 1) == 0. */
    method GiveBonus(speedDownChosen: bool)
      requires Valid() && options.bonuses
      modifies bonus, speedDownTimer, speedUpTimer
      ensures Model() == GameRules.GiveBonus(old(Model()), speedDownChosen)
    {
      bonus.Hide();
      if speedDownChosen {
        speedUpTimer.time := 0.0;
        speedDownTimer.time := SPEED_DOWN_TIME;
      } else {
        speedDownTimer.time := 0.0;
        speedUpTimer.time := SPEED_UP_TIME;
      }
    }

    /** onAddEnemyTimer: the timer is re-armed by one interval and an enemy
        is added. */
    method OnAddEnemyTimer(timer: Timer, draws: seq<Draw>)
      requires Valid() && timer == addEnemyTimer && DrawsInRange(draws, enemyRadius, size)
      modifies timer, this`enemies
      ensures Valid() && |enemies| == |old(enemies)| + 1 && old(enemies) <= enemies && fresh(enemies[|old(enemies)|])
      ensures Model() == GameRules.AddEnemy(Setup(), old(Model()).(addEnemyTime := old(Model()).addEnemyTime + options.IntervalAddEnemy() as real), draws)
    {
      timer.time := timer.time + options.IntervalAddEnemy() as real;
      var _ := AddEnemy(draws);
    }

    /** onShowBonusTimer: the timer is re-armed with a delay between its
        two extra arguments (next stands for random.randint(min, max)) and
        the bonus is shown. */
    method OnShowBonusTimer(timer: Timer, min: int, max: int, next: int, draws: seq<Draw>)
      requires Valid() && options.bonuses && timer == showBonusTimer
      requires min <= next <= max && DrawsInRange(draws, bonusRadius, size)
      modifies timer, bonus
      ensures Model() == old(Model()).(showBonusTime := next as real,
                                       bonus := ShownBonus(old(Model()).bonus, player.position, draws))
    {
      timer.time := next as real;
      bonus.Show(player.position, size, draws);
    }

    /** The player moves, and the mouse movement is used up. */
    method UpdatePlayer(dt: real)
      requires Valid()
      modifies player`position, this`mouseDelta
      ensures Model() == MovePlayer(Setup(), old(Model()), dt)
    {
      player.Update(dt, mouseDelta, keysPressed, size);
      mouseDelta := ZERO;
    }

    /** Every enemy moves at the speed factor of the frame. */
    method UpdateEnemies(dt: real)
      requires Valid()
      modifies enemies
      ensures Model() == MoveEnemies(Setup(), old(Model()), dt)
    {
      var factor := if IsSpeedDown() then 0.5 else if IsSpeedUp() then 1.5 else 1.0;
      assert factor == SpeedFactor(Setup(), Model());
      for k := 0 to |enemies|
        invariant forall m :: 0 <= m < k ==> enemies[m].State() == EnemyMove(old(enemies[m].State()), dt, factor, size)
        invariant forall m :: k <= m < |enemies| ==> enemies[m].State() == old(enemies[m].State())
      {
        enemies[k].Update(dt, factor, size);
      }
      assert States(enemies) == MoveEnemies(Setup(), old(Model()), dt).enemies;
    }

    /** The coin of a coins game is caught when the player touches it. */
    method CheckCoin(rolls: Rolls)
      requires Valid() && RollsFit(Setup(), rolls)
      modifies this`coins, coin, this`enemies
      ensures Valid() && old(enemies) <= enemies
      ensures forall k :: |old(enemies)| <= k < |enemies| ==> fresh(enemies[k])
      ensures Model() == CatchCoin(Setup(), old(Model()), rolls)
    {
      ghost var w := Model();
      if options.IsCoins() && coin.enabled {
        if Collide(player.position, player.radius, coin.position, coin.radius) {
          assert CoinCaught(Setup(), w);
          coins := coins + 1;
          coin.SetRandomPosition(player.position, COIN_PLAYER_DISTANCE, size, rolls.coinDraws);
          ghost var moved := w.(coins := w.coins + 1,
                                coin := w.coin.(position := Relocated(w.coin.position, rolls.coinDraws, w.playerPosition, COIN_PLAYER_DISTANCE)));
          assert Model() == moved;
          if coins % options.CoinsAddEnemy() == 0 {
            var _ := AddEnemy(rolls.coinEnemyDraws);
          }
        }
      }
    }

    /** The bonus of a game with bonuses is given when the player touches it. */
    method CheckBonus(rolls: Rolls)
      requires Valid()
      modifies bonus, speedDownTimer, speedUpTimer
      ensures Model() == CatchBonus(Setup(), old(Model()), rolls)
    {
      if options.bonuses && bonus.enabled {
        if Collide(player.position, player.radius, bonus.position, bonus.radius) {
          GiveBonus(rolls.speedDownChosen);
        }
      }
    }

    /** Every enabled enemy touching the player ends the game. */
    method CheckHits()
      requires Valid()
      modifies this`isGameOver, enemies
      ensures Valid() && enemies == old(enemies)
      ensures Model() == GameRules.CheckHits(Setup(), old(Model()))
    {
      ghost var w := Model();
      for k := 0 to |enemies|
        invariant Model() == if exists m :: 0 <= m < k && HitsPlayer(Setup(), w, w.enemies[m]) then EndGame(w) else w
      {
        var enemy := enemies[k];
        if enemy.enabled && Collide(player.position, player.radius, enemy.position, enemy.radius) {
          assert HitsPlayer(Setup(), w, w.enemies[k]);
          GameOver();
          EndGameTwiceIsOnce(w);
        }
      }
    }

    /** Valid enemies are balls the pair scan can bounce. */
    lemma EnemyStates()
      requires Valid()
      ensures AllEnemies(States(enemies), enemyRadius)
    {
    }

    /** The body of the two nested loops over the enemies: pair (i, j) is
        bounced when j > i and both are enabled and touch. */
    method BounceIfTouching(i: nat, j: nat, sqrt: real -> real)
      requires Valid() && i < |enemies| && j < |enemies|
      modifies enemies[i], enemies[j]
      ensures AllEnemies(old(States(enemies)), enemyRadius)
      ensures States(enemies) == PairStep(old(States(enemies)), i, j, enemyRadius, size, sqrt)
    {
      EnemyStates();
      ghost var before := States(enemies);
      if j > i && enemies[i].enabled && enemies[j].enabled
         && Collide(enemies[i].position, enemies[i].radius, enemies[j].position, enemies[j].radius) {
        EnemiesCanBounce(enemies[i].State(), enemies[j].State(), sqrt);
        Enemy.BounceBalls(enemies[i], enemies[j], size, sqrt);
        ghost var r := Bounce(before[i], before[j], size, sqrt);
        assert States(enemies) == before[i := r.0][j := r.1];
      } else {
        assert States(enemies) == before;
      }
    }

    /** The two nested loops over the enemies, in the order of PairScan. */
    method ScanPairs(sqrt: real -> real)
      requires Valid()
      modifies enemies
      ensures AllEnemies(old(States(enemies)), enemyRadius)
      ensures States(enemies) == PairScan(old(States(enemies)), 0, 0, enemyRadius, size, sqrt)
    {
      EnemyStates();
      ghost var target := PairScan(States(enemies), 0, 0, enemyRadius, size, sqrt);
      for i := 0 to |enemies|
        invariant AllEnemies(States(enemies), enemyRadius)
        invariant PairScan(States(enemies), i, 0, enemyRadius, size, sqrt) == target
      {
        for j := 0 to |enemies|
          invariant AllEnemies(States(enemies), enemyRadius)
          invariant PairScan(States(enemies), i, j, enemyRadius, size, sqrt) == target
        {
          BounceIfTouching(i, j, sqrt);
        }
      }
    }

    /** The enemy-enemy collisions of a game with ballsCollide. */
    method CheckEnemyPairs(sqrt: real -> real)
      requires Valid()
      modifies enemies
      ensures Model() == BounceEnemies(Setup(), old(Model()), sqrt)
    {
      if options.ballsCollide {
        ScanPairs(sqrt);
      }
    }

    /** The add-enemy timer of a time game. */
    method UpdateAddEnemyTimer(dt: real, rolls: Rolls)
      requires Valid() && RollsFit(Setup(), rolls)
      modifies this`enemies, addEnemyTimer
      ensures Valid() && old(enemies) <= enemies
      ensures forall k :: |old(enemies)| <= k < |enemies| ==> fresh(enemies[k])
      ensures Model() == if options.IsTime() then AddEnemyTimer(Setup(), old(Model()), dt, rolls) else old(Model())
    {
      if addEnemyTimer != null {
        var fired := addEnemyTimer.Update(dt, true);
        if fired {
          OnAddEnemyTimer(addEnemyTimer, rolls.timerEnemyDraws);
        }
      }
    }

    /** The show-bonus timer of a game with bonuses. */
    method UpdateShowBonusTimer(dt: real, rolls: Rolls)
      requires Valid() && RollsFit(Setup(), rolls)
      modifies bonus, showBonusTimer
      ensures Model() == if options.bonuses then ShowBonusTimer(old(Model()), dt, rolls) else old(Model())
    {
      if showBonusTimer != null {
        var fired := showBonusTimer.Update(dt, !bonus.enabled);
        if fired {
          OnShowBonusTimer(showBonusTimer, showBonusTimer.args[0], showBonusTimer.args[1],
                           rolls.showBonusTime, rolls.bonusDraws);
        }
      }
    }

    /** The slow-down and speed-up timers of a game with bonuses. */
    method UpdateSpeedTimers(dt: real)
      requires Valid()
      modifies speedDownTimer, speedUpTimer
      ensures Model() == if options.bonuses
                         then old(Model()).(speedDownTime := Timers.Tick(old(Model()).speedDownTime, dt, false, true),
                                            speedUpTime := Timers.Tick(old(Model()).speedUpTime, dt, false, true))
                         else old(Model())
    {
      if speedDownTimer != null {
        var _ := speedDownTimer.Update(dt, true);
      }
      if speedUpTimer != null {
        var _ := speedUpTimer.Update(dt, true);
      }
    }

    /** Every timer of the game, in the order they were created. */
    method UpdateTimers(dt: real, rolls: Rolls)
      requires Valid() && RollsFit(Setup(), rolls)
      modifies this`enemies, bonus, addEnemyTimer, showBonusTimer, speedDownTimer, speedUpTimer
      ensures Valid() && old(enemies) <= enemies
      ensures forall k :: |old(enemies)| <= k < |enemies| ==> fresh(enemies[k])
      ensures Model() == TickTimers(Setup(), old(Model()), dt, rolls)
    {
      UpdateAddEnemyTimer(dt, rolls);
      UpdateShowBonusTimer(dt, rolls);
      UpdateSpeedTimers(dt);
    }

    /** The first stages of update: the player, then the enemies, move. */
    method MoveBalls(dt: real)
      requires Valid()
      modifies player`position, this`mouseDelta, enemies
      ensures Model() == MoveEnemies(Setup(), MovePlayer(Setup(), old(Model()), dt), dt)
    {
      UpdatePlayer(dt);
      UpdateEnemies(dt);
    }

    /** The coin, then the bonus, is checked against the player. */
    method CatchItems(rolls: Rolls)
      requires Valid() && RollsFit(Setup(), rolls)
      modifies this`coins, coin, this`enemies, bonus, speedDownTimer, speedUpTimer
      ensures Valid() && old(enemies) <= enemies
      ensures forall k :: |old(enemies)| <= k < |enemies| ==> fresh(enemies[k])
      ensures Model() == CatchBonus(Setup(), CatchCoin(Setup(), old(Model()), rolls), rolls)
    {
      CheckCoin(rolls);
      CheckBonus(rolls);
    }

    /** The enemies are checked against the player, then against each other. */
    method CheckCollisions(sqrt: real -> real)
      requires Valid()
      modifies this`isGameOver, enemies
      ensures Valid() && enemies == old(enemies)
      ensures Model() == BounceEnemies(Setup(), GameRules.CheckHits(Setup(), old(Model())), sqrt)
    {
      CheckHits();
      CheckEnemyPairs(sqrt);
    }

    /** update: one frame of the game, unless it is over. */
    method Update(dt: real, rolls: Rolls, sqrt: real -> real)
      requires Valid() && RollsFit(Setup(), rolls)
      modifies this, player`position, enemies, coin, bonus, addEnemyTimer, showBonusTimer, speedDownTimer, speedUpTimer
      ensures Valid() && old(enemies) <= enemies
      ensures Model() == Step(Setup(), old(Model()), dt, rolls, sqrt)
      ensures player.invulnerable == old(player.invulnerable) && player.vulnerablePending == old(player.vulnerablePending)
    {
      if !isGameOver {
        ghost var w0 := Model();
        MoveBalls(dt);
        ghost var w2 := Model();
        assert w2 == MoveEnemies(Setup(), MovePlayer(Setup(), w0, dt), dt);
        CatchItems(rolls);
        EnemyStates();
        ghost var w4 := Model();
        assert w4 == CatchBonus(Setup(), CatchCoin(Setup(), w2, rolls), rolls);
        CheckCollisions(sqrt);
        ghost var w6 := Model();
        assert w6 == BounceEnemies(Setup(), GameRules.CheckHits(Setup(), w4), sqrt);
        UpdateTimers(dt, rolls);
      }
    }
  }
}
