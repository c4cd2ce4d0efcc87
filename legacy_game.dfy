/** The game of the first revision (game.py at the top of the repository):
    its own player and enemy classes, with fixed radius and speeds, and a
    game layer that adds an enemy every ten seconds and ends the game by
    disabling every ball. The bounce between enemies of this revision is
    not modelled: the frame reports the pairs it would be called on. */
module LegacyGame {
  import opened Vectors
  import opened Balls
  import Timers

  /** Player.RADIUS and Enemy.RADIUS. */
  const RADIUS := 16
  /** Enemy.SAFE_DISTANCE: how far from the player a new enemy appears. */
  const SAFE_DISTANCE := 100.0
  /** Enemy.SPEED. */
  const ENEMY_SPEED := 300.0
  /** Seconds of play between two new enemies. */
  const SPAWN_INTERVAL := 10.0
  /** The value game_over gives the new-enemy timer. */
  const GAME_OVER_TIME := -500.0

  // ---------------------------------------------------------------------
  // Player

  /** The border check of Player.update on one coordinate: below lo it is
      set to lo, otherwise above hi it is set to hi. */
  function BorderCheck(v: real, lo: real, hi: real): (r: real)
    ensures r == v || r == lo || r == hi
    ensures lo <= hi ==> lo <= r <= hi
    ensures lo <= v <= hi ==> r == v
  {
    if v < lo then lo else if v > hi then hi else v
  }

  /** When the window fits the ball, the if/elif border check is the clamp
      of the later revision; in a window too small for the ball, the lower
      bound wins where the clamp lets the upper one win. */
  lemma BorderCheckIsClamp(v: real, lo: real, hi: real)
    ensures lo <= hi ==> BorderCheck(v, lo, hi) == Clamp(v, lo, hi)
    ensures hi < v < lo ==> BorderCheck(v, lo, hi) == lo && Clamp(v, lo, hi) == hi
  {
  }

  /** Where the mouse movement and the arrow keys take the player before
      the border check: each key held moves it by PLAYER_SPEED * dt along
      its axis. */
  function KeysMoved(p: Vec, dt: real, mouseDelta: Vec, keys: set<Key>): Vec {
    var step := PLAYER_SPEED * dt;
    Vec(p.x + mouseDelta.x - (if Left in keys then step else 0.0) + (if Right in keys then step else 0.0),
        p.y + mouseDelta.y + (if Up in keys then step else 0.0) - (if Down in keys then step else 0.0))
  }

  /** Key by key, the player goes where the later revision's keyboard
      direction takes it: opposite keys cancel. */
  lemma KeysMovedIsPlayerMoved(p: Vec, dt: real, mouseDelta: Vec, keys: set<Key>)
    ensures KeysMoved(p, dt, mouseDelta, keys) == PlayerMoved(p, dt, mouseDelta, keys)
  {
    var d := KeyboardDelta(keys);
    var step := PLAYER_SPEED * dt;
    assert d.x * PLAYER_SPEED * dt == d.x * step;
    assert d.y * PLAYER_SPEED * dt == d.y * step;
  }

  /** Player.update on the position: nothing while the player is disabled. */
  function PlayerUpdate(p: Vec, enabled: bool, dt: real, mouseDelta: Vec, keys: set<Key>, size: Size): (q: Vec)
    ensures !enabled ==> q == p
    ensures enabled && Fits(RADIUS, size) ==> Inside(q, RADIUS, size)
  {
    if !enabled then p
    else
      var m := KeysMoved(p, dt, mouseDelta, keys);
      Vec(BorderCheck(m.x, RADIUS as real, (size.width - RADIUS) as real),
          BorderCheck(m.y, RADIUS as real, (size.height - RADIUS) as real))
  }

  /** In a window that fits the ball, an enabled player of this revision
      moves as an unfrozen player of the later one. */
  lemma PlayerStepAgrees(p: Vec, dt: real, mouseDelta: Vec, keys: set<Key>, size: Size)
    requires Fits(RADIUS, size)
    ensures PlayerUpdate(p, true, dt, mouseDelta, keys, size) == Balls.PlayerStep(p, RADIUS, false, dt, mouseDelta, keys, size)
  {
    KeysMovedIsPlayerMoved(p, dt, mouseDelta, keys);
    var m := KeysMoved(p, dt, mouseDelta, keys);
    var lo, hx, hy := RADIUS as real, (size.width - RADIUS) as real, (size.height - RADIUS) as real;
    BorderCheckIsClamp(m.x, lo, hx);
    BorderCheckIsClamp(m.y, lo, hy);
    calc {
      PlayerUpdate(p, true, dt, mouseDelta, keys, size);
      Vec(BorderCheck(m.x, lo, hx), BorderCheck(m.y, lo, hy));
      Vec(Clamp(m.x, lo, hx), Clamp(m.y, lo, hy));
      WithinBorders(m, RADIUS, size);
      { assert m == PlayerMoved(p, dt, mouseDelta, keys); }
      Balls.PlayerStep(p, RADIUS, false, dt, mouseDelta, keys, size);
    }
  }

  class Player {
    var position: Vec
    /** Whether the player moves; game_over clears it. */
    var enabled: bool

    constructor (position: Vec)
      ensures this.position == position && enabled
    {
      this.position := position;
      enabled := true;
    }

    method Update(dt: real, mouseDelta: Vec, keys: set<Key>, size: Size)
      modifies this`position
      ensures position == PlayerUpdate(old(position), enabled, dt, mouseDelta, keys, size)
    {
      if enabled {
        var x := position.x + mouseDelta.x;
        var y := position.y + mouseDelta.y;
        if Left in keys {
          x := x - PLAYER_SPEED * dt;
        }
        if Right in keys {
          x := x + PLAYER_SPEED * dt;
        }
        if Up in keys {
          y := y + PLAYER_SPEED * dt;
        }
        if Down in keys {
          y := y - PLAYER_SPEED * dt;
        }
        if x < RADIUS as real {
          x := RADIUS as real;
        } else if x > (size.width - RADIUS) as real {
          x := (size.width - RADIUS) as real;
        }
        if y < RADIUS as real {
          y := RADIUS as real;
        } else if y > (size.height - RADIUS) as real {
          y := (size.height - RADIUS) as real;
        }
        position := Vec(x, y);
      }
    }
  }

  // ---------------------------------------------------------------------
  // Enemies

  datatype EnemyBall = EnemyBall(position: Vec, speed: Vec, enabled: bool, enablePending: bool)

  /** One coordinate of Enemy.update and its speed: the coordinate moves by
      v * dt; when that leaves [lo, hi] the speed is reversed and the
      coordinate steps by the reversed speed. */
  function AxisStep(c: real, v: real, dt: real, lo: real, hi: real): (r: (real, real))
    ensures r.1 == v || r.1 == -v
  {
    var moved := c + v * dt;
    if moved < lo || moved > hi then (moved + (-v) * dt, -v) else (moved, v)
  }

  /** The step back undoes the move: a coordinate that left the range is
      back where it started, and one that stayed in is where the speed took
      it. So a coordinate that starts in the range stays in it. */
  lemma AxisStepBack(c: real, v: real, dt: real, lo: real, hi: real)
    ensures var moved := c + v * dt;
      && (moved < lo || moved > hi ==> AxisStep(c, v, dt, lo, hi) == (c, -v))
      && (lo <= moved <= hi ==> AxisStep(c, v, dt, lo, hi) == (moved, v))
      && (lo <= c <= hi ==> lo <= AxisStep(c, v, dt, lo, hi).0 <= hi)
  {
    assert c + v * dt + (-v) * dt == c;
  }

  /** Enemy.update: nothing while the enemy is disabled. */
  function EnemyStep(e: EnemyBall, dt: real, size: Size): (r: EnemyBall)
    ensures !e.enabled ==> r == e
    ensures r.enabled == e.enabled && r.enablePending == e.enablePending
    ensures r.speed == e.speed || r.speed.x == -e.speed.x || r.speed.y == -e.speed.y
  {
    if !e.enabled then e
    else
      var (x, vx) := AxisStep(e.position.x, e.speed.x, dt, RADIUS as real, (size.width - RADIUS) as real);
      var (y, vy) := AxisStep(e.position.y, e.speed.y, dt, RADIUS as real, (size.height - RADIUS) as real);
      e.(position := Vec(x, y), speed := Vec(vx, vy))
  }

  /** A reflection changes the direction of an enemy, never its speed. */
  lemma EnemySpeedKept(e: EnemyBall, dt: real, size: Size)
    ensures EnemyStep(e, dt, size).speed.NormSquared() == e.speed.NormSquared()
  {
    var r := EnemyStep(e, dt, size);
    assert r.speed.x * r.speed.x == e.speed.x * e.speed.x;
    assert r.speed.y * r.speed.y == e.speed.y * e.speed.y;
  }

  /** Without a clamp, an enemy still never leaves the window once inside:
      on each axis it either stays in range or goes back where it was. */
  lemma EnemyStaysInside(e: EnemyBall, dt: real, size: Size)
    requires Inside(e.position, RADIUS, size)
    ensures Inside(EnemyStep(e, dt, size).position, RADIUS, size)
  {
    AxisStepBack(e.position.x, e.speed.x, dt, RADIUS as real, (size.width - RADIUS) as real);
    AxisStepBack(e.position.y, e.speed.y, dt, RADIUS as real, (size.height - RADIUS) as real);
  }

  /** Where _set_random_position leaves an enemy, given its draws: the first
      draw at least SAFE_DISTANCE from the player; with no such draw, the
      last draw tried (none: where it was). */
  function Placement(current: Vec, player: Vec, draws: seq<Draw>): Vec {
    var k := FirstFar(draws, player, SAFE_DISTANCE);
    if k < |draws| then PointOf(draws[k])
    else if draws == [] then current
    else PointOf(draws[|draws| - 1])
  }

  class Enemy {
    var position: Vec
    var speed: Vec
    /** Whether the enemy moves and collides. */
    var enabled: bool
    /** The fade-in that ends in _enable is still running. */
    var enablePending: bool

    function State(): EnemyBall
      reads this
    {
      EnemyBall(position, speed, enabled, enablePending)
    }

    /** A new enemy: placed by _set_random_position, at rest, disabled and
        fading in. */
    constructor (player: Vec, size: Size, draws: seq<Draw>)
      requires DrawsInRange(draws, RADIUS, size)
      ensures position == Placement(ZERO, player, draws)
      ensures (exists k :: 0 <= k < |draws| && FarFrom(PointOf(draws[k]), player, SAFE_DISTANCE)) ==>
                FarFrom(position, player, SAFE_DISTANCE) && Inside(position, RADIUS, size)
      ensures speed == ZERO && !enabled && enablePending
    {
      position := ZERO;
      speed := ZERO;
      enabled := false;
      enablePending := true;
      new;
      var _ := SetRandomPosition(player, size, draws);
    }

    /** _set_random_position: draws positions until one is far enough from
        the player. The draws stand for the random.randint results; found
        says that one of them was far enough. */
    method SetRandomPosition(player: Vec, size: Size, draws: seq<Draw>) returns (found: bool)
      requires DrawsInRange(draws, RADIUS, size)
      modifies this`position
      ensures found <==> exists k :: 0 <= k < |draws| && FarFrom(PointOf(draws[k]), player, SAFE_DISTANCE)
      ensures position == Placement(old(position), player, draws)
      ensures found ==> FarFrom(position, player, SAFE_DISTANCE) && Inside(position, RADIUS, size)
    {
      found := false;
      var i := 0;
      while i < |draws| && !found
        invariant 0 <= i <= |draws|
        invariant found ==> 0 < i && position == PointOf(draws[i - 1])
                            && FarFrom(position, player, SAFE_DISTANCE)
                            && FirstFar(draws, player, SAFE_DISTANCE) == i - 1
        invariant !found ==> forall j :: 0 <= j < i ==> !FarFrom(PointOf(draws[j]), player, SAFE_DISTANCE)
        invariant !found ==> position == if i == 0 then old(position) else PointOf(draws[i - 1])
      {
        position := PointOf(draws[i]);
        found := FarFrom(position, player, SAFE_DISTANCE);
        if found {
          FirstFarIsFirst(draws, player, SAFE_DISTANCE, i);
        }
        i := i + 1;
      }
    }

    /** _enable: ENEMY_SPEED in the random direction (the cosine and sine of
        a random angle), and the enemy starts moving. */
    method Enable(direction: Vec)
      requires direction.NormSquared() == 1.0
      modifies this`speed, this`enabled, this`enablePending
      ensures speed == direction.Times(ENEMY_SPEED)
      ensures speed.NormSquared() == ENEMY_SPEED * ENEMY_SPEED
      ensures enabled && !enablePending
    {
      speed := direction.Times(ENEMY_SPEED);
      ScaledNormSquared(direction, ENEMY_SPEED);
      enabled := true;
      enablePending := false;
    }

    method Update(dt: real, size: Size)
      modifies this`position, this`speed
      ensures State() == EnemyStep(old(State()), dt, size)
    {
      if enabled {
        var lo, hx, hy := RADIUS as real, (size.width - RADIUS) as real, (size.height - RADIUS) as real;
        var x, vx := position.x + speed.x * dt, speed.x;
        var y, vy := position.y + speed.y * dt, speed.y;
        if x < lo || x > hx {
          vx := -vx;
          x := x + vx * dt;
        }
        if y < lo || y > hy {
          vy := -vy;
          y := y + vy * dt;
        }
        position, speed := Vec(x, y), Vec(vx, vy);
      }
    }
  }

  // ---------------------------------------------------------------------
  // The game layer

  // Distinct and States have the same shape as their namesakes in module
  // Game, but range over this revision's Enemy class and EnemyBall state.

  /** No enemy appears twice in the list. */
  predicate Distinct(es: seq<Enemy>) {
    forall i, j :: 0 <= i < j < |es| ==> es[i] != es[j]
  }

  /** The states of the enemies, in list order. */
  function States(es: seq<Enemy>): (r: seq<EnemyBall>)
    reads set e | e in es
    ensures |r| == |es| && forall k :: 0 <= k < |es| ==> r[k] == es[k].State()
  {
    seq(|es|, k requires 0 <= k < |es| reads es => es[k].State())
  }

  /** Every enemy after its update. */
  function MoveAll(es: seq<EnemyBall>, dt: real, size: Size): (r: seq<EnemyBall>)
    ensures |r| == |es| && forall k :: 0 <= k < |es| ==> r[k] == EnemyStep(es[k], dt, size)
  {
    seq(|es|, k requires 0 <= k < |es| => EnemyStep(es[k], dt, size))
  }

  /** An enabled enemy touches the player. */
  predicate Hit(player: Vec, es: seq<EnemyBall>) {
    exists k :: 0 <= k < |es| && es[k].enabled && Collide(player, RADIUS, es[k].position, RADIUS)
  }

  /** The enemies after game_over: disabled, their fade-in stopped. */
  function DisableAll(es: seq<EnemyBall>): (r: seq<EnemyBall>)
    ensures |r| == |es|
    ensures forall k :: 0 <= k < |es| ==> r[k] == es[k].(enabled := false, enablePending := false)
  {
    seq(|es|, k requires 0 <= k < |es| => es[k].(enabled := false, enablePending := false))
  }

  /** One frame on the enemies, given where the player has moved to:
      whether an enabled enemy, once moved, touches the player, and the
      enemies after the frame, all disabled if one does. */
  function Frame(player: Vec, es: seq<EnemyBall>, dt: real, size: Size): (bool, seq<EnemyBall>) {
    var moved := MoveAll(es, dt, size);
    if Hit(player, moved) then (true, DisableAll(moved)) else (false, moved)
  }

  /** The pair (i, j) the scan of update picks: j after i, both enabled,
      touching. */
  predicate Touching(es: seq<EnemyBall>, i: int, j: int)
    requires 0 <= i < |es| && 0 <= j < |es|
  {
    j > i && es[i].enabled && es[j].enabled && Collide(es[i].position, RADIUS, es[j].position, RADIUS)
  }

  /** The touching pairs, as a set. */
  function Picks(es: seq<EnemyBall>): set<(int, int)> {
    set a, b | 0 <= a < |es| && 0 <= b < |es| && Touching(es, a, b) :: (a, b)
  }

  /** The pairs of picked that two nested loops over 0 .. n - 1 meet, from
      pair (i, j) on, in the order the loops meet them. */
  function PairsFrom(n: nat, picked: set<(int, int)>, i: nat, j: nat): seq<(int, int)>
    decreases n - i, n - j
  {
    if i >= n then []
    else if j >= n then PairsFrom(n, picked, i + 1, 0)
    else (if (i, j) in picked then [(i, j)] else []) + PairsFrom(n, picked, i, j + 1)
  }

  /** The pairs bounce_balls is called on in one frame. */
  function Pairs(es: seq<EnemyBall>): seq<(int, int)> {
    PairsFrom(|es|, Picks(es), 0, 0)
  }

  /** The scan from (i, j) on finds exactly the picked pairs at or after
      (i, j) in loop order. */
  lemma {:induction false} PairsFromComplete(n: nat, picked: set<(int, int)>, i: nat, j: nat, p: (int, int))
    ensures p in PairsFrom(n, picked, i, j) <==>
              0 <= p.0 < n && 0 <= p.1 < n && p in picked && (p.0 > i || (p.0 == i && p.1 >= j))
    decreases n - i, n - j
  {
    if i >= n {
    } else if j >= n {
      PairsFromComplete(n, picked, i + 1, 0, p);
    } else {
      var rest := PairsFrom(n, picked, i, j + 1);
      var here := if (i, j) in picked then [(i, j)] else [];
      PairsFromComplete(n, picked, i, j + 1, p);
      assert PairsFrom(n, picked, i, j) == here + rest;
      assert p in here + rest <==> p in here || p in rest;
      assert p in here <==> p == (i, j) && (i, j) in picked;
    }
  }

  /** A pair is reported exactly when it is two enabled enemies, the
      second after the first, that touch. */
  lemma PairsComplete(es: seq<EnemyBall>, p: (int, int))
    ensures p in Pairs(es) <==>
              && 0 <= p.0 < p.1 < |es| && es[p.0].enabled && es[p.1].enabled
              && Collide(es[p.0].position, RADIUS, es[p.1].position, RADIUS)
  {
    PairsFromComplete(|es|, Picks(es), 0, 0, p);
  }

  /** The new-enemy timer after dt more seconds, and whether an enemy is
      added: at SPAWN_INTERVAL or more, one interval is taken off. */
  function Accumulate(t: real, dt: real): (real, bool) {
    if t + dt >= SPAWN_INTERVAL then (t + dt - SPAWN_INTERVAL, true) else (t + dt, false)
  }

  /** The timer and the number of enemies added over a run of frames. */
  function AccumulateRun(t: real, dts: seq<real>): (r: (real, nat))
    decreases |dts|
  {
    if dts == [] then (t, 0)
    else
      var (t1, added) := Accumulate(t, dts[0]);
      var (t2, n) := AccumulateRun(t1, dts[1..]);
      (t2, n + if added then 1 else 0)
  }

  /** One enemy per ten seconds: over a run of frames the timer has gained
      the time played less ten seconds per enemy added, and, with frames
      shorter than ten seconds, it stays in [0, 10) once it is there. */
  lemma {:induction false} AccumulateRunCounts(t: real, dts: seq<real>)
    ensures AccumulateRun(t, dts).0 == t + Timers.Sum(dts) - SPAWN_INTERVAL * AccumulateRun(t, dts).1 as real
    ensures (0.0 <= t < SPAWN_INTERVAL && forall k :: 0 <= k < |dts| ==> 0.0 <= dts[k] < SPAWN_INTERVAL) ==>
              0.0 <= AccumulateRun(t, dts).0 < SPAWN_INTERVAL
    decreases |dts|
  {
    if dts != [] {
      var (t1, added) := Accumulate(t, dts[0]);
      AccumulateRunCounts(t1, dts[1..]);
      if 0.0 <= t < SPAWN_INTERVAL && forall k :: 0 <= k < |dts| ==> 0.0 <= dts[k] < SPAWN_INTERVAL {
        assert forall k :: 0 <= k < |dts[1..]| ==> dts[1..][k] == dts[k + 1];
      }
    }
  }

  class GameLayer {
    const size: Size
    const player: Player
    var enemies: seq<Enemy>
    var keys: set<Key>
    var mouseDelta: Vec
    var newEnemyTimer: real

    ghost predicate Valid()
      reads this`enemies
    {
      Distinct(enemies)
    }

    /** A new game: the player at the centre of the window and three
        enemies placed by their draws. */
    constructor (size: Size, draws: seq<seq<Draw>>)
      requires |draws| == 3 && forall k :: 0 <= k < 3 ==> DrawsInRange(draws[k], RADIUS, size)
      ensures Valid() && |enemies| == 3
      ensures player.position == Vec((size.width / 2) as real, (size.height / 2) as real) && player.enabled
      ensures forall k :: 0 <= k < 3 ==>
                enemies[k].State() == EnemyBall(Placement(ZERO, player.position, draws[k]), ZERO, false, true)
      ensures newEnemyTimer == 0.0 && keys == {} && mouseDelta == ZERO
    {
      this.size := size;
      keys := {};
      mouseDelta := ZERO;
      newEnemyTimer := 0.0;
      var p := new Player(Vec((size.width / 2) as real, (size.height / 2) as real));
      player := p;
      var es: seq<Enemy> := [];
      for x := 0 to 3
        invariant p.position == Vec((size.width / 2) as real, (size.height / 2) as real) && p.enabled
        invariant |es| == x && Distinct(es)
        invariant forall k :: 0 <= k < x ==>
                    es[k].State() == EnemyBall(Placement(ZERO, p.position, draws[k]), ZERO, false, true)
      {
        var e := new Enemy(p.position, size, draws[x]);
        es := es + [e];
      }
      enemies := es;
    }

    /** game_over: the player and every enemy are disabled, the enemies'
        fade-in is stopped, and the timer is set far back. */
    method GameOver()
      requires Valid()
      modifies player`enabled, this`newEnemyTimer, set e | e in enemies
      ensures !player.enabled && newEnemyTimer == GAME_OVER_TIME
      ensures States(enemies) == DisableAll(old(States(enemies)))
    {
      player.enabled := false;
      newEnemyTimer := GAME_OVER_TIME;
      ghost var before := States(enemies);
      for k := 0 to |enemies|
        invariant !player.enabled && newEnemyTimer == GAME_OVER_TIME
        invariant forall m :: 0 <= m < k ==> enemies[m].State() == before[m].(enabled := false, enablePending := false)
        invariant forall m :: k <= m < |enemies| ==> enemies[m].State() == before[m]
      {
        enemies[k].enabled := false;
        enemies[k].enablePending := false;
      }
      assert States(enemies) == DisableAll(before);
    }

    /** The player moves, and the mouse movement is used up. */
    method MovePlayer(dt: real)
      modifies player`position, this`mouseDelta
      ensures player.position == PlayerUpdate(old(player.position), player.enabled, dt, old(mouseDelta), keys, size)
      ensures mouseDelta == ZERO
    {
      player.Update(dt, mouseDelta, keys, size);
      mouseDelta := ZERO;
    }

    /** Every enemy moves. */
    method MoveEnemies(dt: real)
      requires Valid()
      modifies set e | e in enemies
      ensures States(enemies) == MoveAll(old(States(enemies)), dt, size)
    {
      ghost var before := States(enemies);
      for k := 0 to |enemies|
        invariant forall m :: 0 <= m < k ==> enemies[m].State() == EnemyStep(before[m], dt, size)
        invariant forall m :: k <= m < |enemies| ==> enemies[m].State() == before[m]
      {
        enemies[k].Update(dt, size);
      }
      assert States(enemies) == MoveAll(before, dt, size);
    }

    /** Every enabled enemy that touches the player ends the game. */
    method CheckHits()
      requires Valid()
      modifies player`enabled, this`newEnemyTimer, set e | e in enemies
      ensures Hit(player.position, old(States(enemies))) ==>
                !player.enabled && newEnemyTimer == GAME_OVER_TIME
                && States(enemies) == DisableAll(old(States(enemies)))
      ensures !Hit(player.position, old(States(enemies))) ==>
                player.enabled == old(player.enabled) && newEnemyTimer == old(newEnemyTimer)
                && States(enemies) == old(States(enemies))
    {
      ghost var before := States(enemies);
      ghost var hit := false;
      for k := 0 to |enemies|
        invariant hit <==> exists m :: 0 <= m < k && before[m].enabled
                                         && Collide(player.position, RADIUS, before[m].position, RADIUS)
        invariant hit ==> !player.enabled && newEnemyTimer == GAME_OVER_TIME && States(enemies) == DisableAll(before)
        invariant !hit ==> player.enabled == old(player.enabled) && newEnemyTimer == old(newEnemyTimer)
                           && States(enemies) == before
      {
        var enemy := enemies[k];
        if enemy.enabled && Collide(player.position, RADIUS, enemy.position, RADIUS) {
          GameOver();
          assert DisableAll(DisableAll(before)) == DisableAll(before);
          hit := true;
        }
      }
    }

    /** The test of the enemy-enemy check on pair (i, j). */
    method Touches(i: nat, j: nat) returns (touching: bool)
      requires i < |enemies| && j < |enemies|
      ensures touching <==> (i, j) in Picks(States(enemies))
    {
      touching := j > i && enemies[i].enabled && enemies[j].enabled
                  && Collide(enemies[i].position, RADIUS, enemies[j].position, RADIUS);
      assert touching == Touching(States(enemies), i, j);
    }

    /** The enemy-enemy check: the pairs (i, j) with j > i of enabled enemies
        that touch, in the order of the two loops, which are the pairs
        bounce_balls is called on. */
    method CheckEnemyPairs() returns (pairs: seq<(int, int)>)
      ensures pairs == Pairs(States(enemies))
    {
      ghost var es := States(enemies);
      ghost var picked := Picks(es);
      ghost var n := |es|;
      pairs := [];
      for i := 0 to |enemies|
        invariant pairs + PairsFrom(n, picked, i, 0) == Pairs(es)
      {
        for j := 0 to |enemies|
          invariant pairs + PairsFrom(n, picked, i, j) == Pairs(es)
        {
          var touching := Touches(i, j);
          ghost var rest := PairsFrom(n, picked, i, j + 1);
          if touching {
            assert PairsFrom(n, picked, i, j) == [(i, j)] + rest;
            assert pairs + ([(i, j)] + rest) == (pairs + [(i, j)]) + rest;
            pairs := pairs + [(i, j)];
          } else {
            assert PairsFrom(n, picked, i, j) == rest;
          }
        }
        assert PairsFrom(n, picked, i, n) == PairsFrom(n, picked, i + 1, 0);
      }
    }

    /** The new-enemy timer: at ten seconds or more, ten are taken off and an
        enemy is appended, placed by its draws. */
    method SpawnEnemy(dt: real, draws: seq<Draw>)
      requires Valid() && DrawsInRange(draws, RADIUS, size)
      modifies this`newEnemyTimer, this`enemies
      ensures Valid()
      ensures newEnemyTimer == Accumulate(old(newEnemyTimer), dt).0
      ensures if Accumulate(old(newEnemyTimer), dt).1
              then |enemies| == |old(enemies)| + 1 && enemies[..|old(enemies)|] == old(enemies)
                   && fresh(enemies[|old(enemies)|])
                   && enemies[|old(enemies)|].State() == EnemyBall(Placement(ZERO, player.position, draws), ZERO, false, true)
              else enemies == old(enemies)
    {
      newEnemyTimer := newEnemyTimer + dt;
      if newEnemyTimer >= SPAWN_INTERVAL {
        newEnemyTimer := newEnemyTimer - SPAWN_INTERVAL;
        var enemy := new Enemy(player.position, size, draws);
        enemies := enemies + [enemy];
      }
    }

    /** The moving part of update: the player and the enemies move, then
        any enabled enemy touching the player ends the game. */
    method MoveAndCheck(dt: real)
      requires Valid()
      modifies player`position, player`enabled, this`mouseDelta, this`newEnemyTimer, set e | e in enemies
      ensures mouseDelta == ZERO
      ensures player.position == PlayerUpdate(old(player.position), old(player.enabled), dt, old(mouseDelta), keys, size)
      ensures var (over, after) := Frame(player.position, old(States(enemies)), dt, size);
        && player.enabled == (old(player.enabled) && !over)
        && newEnemyTimer == (if over then GAME_OVER_TIME else old(newEnemyTimer))
        && States(enemies) == after
    {
      ghost var es0 := States(enemies);
      MovePlayer(dt);
      MoveEnemies(dt);
      ghost var moved := States(enemies);
      assert moved == MoveAll(es0, dt, size);
      CheckHits();
    }

    /** update: one frame. The pairs are those bounce_balls is called on. */
    method Update(dt: real, draws: seq<Draw>) returns (pairs: seq<(int, int)>)
      requires Valid() && DrawsInRange(draws, RADIUS, size)
      modifies this, player, set e | e in enemies
      ensures Valid() && mouseDelta == ZERO && keys == old(keys)
      ensures player.position == PlayerUpdate(old(player.position), old(player.enabled), dt, old(mouseDelta), keys, size)
      ensures var (over, after) := Frame(player.position, old(States(enemies)), dt, size);
        var (timer, added) := Accumulate(if over then GAME_OVER_TIME else old(newEnemyTimer), dt);
        && player.enabled == (old(player.enabled) && !over)
        && pairs == Pairs(after)
        && newEnemyTimer == timer
        && |enemies| == |old(enemies)| + (if added then 1 else 0)
        && States(enemies)[..|old(enemies)|] == after
        && (added ==> fresh(enemies[|old(enemies)|])
                      && States(enemies)[|old(enemies)|] == EnemyBall(Placement(ZERO, player.position, draws), ZERO, false, true))
    {
      MoveAndCheck(dt);
      pairs := CheckEnemyPairs();
      ghost var n := |enemies|;
      ghost var after := States(enemies);
      SpawnEnemy(dt, draws);
      assert States(enemies)[..n] == after;
    }
  }
}
