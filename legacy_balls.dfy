/** The balls of the first revision of the game (balls.py at the top of the
    repository). The border check and the random placement are those of the
    later revision, which module Balls models; the differences are a player
    that cannot be frozen, enemies without a speed factor, and a bounce
    between balls of unit inverse mass. */
module LegacyBalls {
  import opened Vectors
  import opened Balls

  class Player {
    var position: Vec
    const radius: int

    constructor (position: Vec, radius: int)
      ensures this.position == position && this.radius == radius
    {
      this.position := position;
      this.radius := radius;
    }

    /** Player.update: the mouse movement, then the arrow keys at
        PLAYER_SPEED, then the border check. With no frozen state, this is
        the later revision's step of a player that is not frozen. */
    method Update(dt: real, mouseDelta: Vec, keys: set<Key>, size: Size)
      modifies this`position
      ensures position == PlayerStep(old(position), radius, false, dt, mouseDelta, keys, size)
      ensures Fits(radius, size) ==> Inside(position, radius, size)
    {
      position := position.Plus(mouseDelta);
      position := position.Plus(KeyboardDelta(keys).Times(PLAYER_SPEED).Times(dt));
      position := WithinBorders(position, radius, size);
    }
  }

  class Enemy {
    var position: Vec
    var speed: Vec
    const radius: int
    const initialSpeed: real
    /** Whether the enemy moves and collides. */
    var enabled: bool
    /** The fade-in that ends in _enable is still running. */
    var enablePending: bool

    /** The enemy as a ball of the later revision, of unit mass. */
    function State(): EnemyState
      reads this
    {
      EnemyState(position, speed, radius, ENEMY_MASS, initialSpeed, enabled, enablePending)
    }

    /** A new enemy: placed at least ENEMY_PLAYER_DISTANCE from the player by
        the retry loop over draws, at rest, disabled and fading in. */
    constructor (player: Vec, initialSpeed: real, radius: int, size: Size, draws: seq<Draw>)
      requires DrawsInRange(draws, radius, size)
      ensures State() == SpawnedEnemy(player, initialSpeed, radius, draws)
    {
      this.radius := radius;
      this.initialSpeed := initialSpeed;
      var found, p := DrawPosition(draws, player, ENEMY_PLAYER_DISTANCE);
      position := if found then p else ZERO;
      speed := ZERO;
      enabled := false;
      enablePending := true;
    }

    /** Enemy.update: the later revision's move at speed factor 1. */
    method Update(dt: real, size: Size)
      modifies this`position, this`speed
      ensures State() == EnemyMove(old(State()), dt, 1.0, size)
    {
      if enabled {
        position := position.Plus(speed.Times(dt));
        if position.x < radius as real || position.x > (size.width - radius) as real {
          speed := speed.(x := -speed.x);
        }
        if position.y < radius as real || position.y > (size.height - radius) as real {
          speed := speed.(y := -speed.y);
        }
        position := WithinBorders(position, radius, size);
      }
    }

    /** _enable: a speed of the initial magnitude in the random direction,
        and the enemy starts moving. */
    method Enable(direction: Vec)
      requires direction.NormSquared() == 1.0
      modifies this`speed, this`enabled, this`enablePending
      ensures speed == direction.Times(initialSpeed)
      ensures speed.NormSquared() == initialSpeed * initialSpeed
      ensures enabled && !enablePending
    {
      speed := direction.Times(initialSpeed);
      ScaledNormSquared(direction, initialSpeed);
      enabled := true;
      enablePending := false;
    }

    /** Enemy.bounceBalls with both inverse masses 1: each ball is pushed by
        half the mtd, both are put back inside the window, and the impulse
        is exchanged unless the balls already move apart. */
    static method BounceBalls(b1: Enemy, b2: Enemy, size: Size, sqrt: real -> real)
      requires b1 != b2
      modifies b1`position, b1`speed, b2`position, b2`speed
      ensures (b1.State(), b2.State()) == UnitBounce(old(b1.State()), old(b2.State()), size, sqrt)
    {
      ghost var a, b := b1.State(), b2.State();
      var delta := b1.position.Minus(b2.position);
      var dist := Magnitude(delta, sqrt);
      if dist == 0.0 {
        dist := (b1.radius * 2 - 1) as real;
        delta := Vec((b1.radius * 2) as real, 0.0);
      }
      assert (delta, dist) == UnitSeparation(a, b, sqrt);
      var mtd := delta.Times(((b1.radius * 2) as real - dist) / dist);
      assert mtd == UnitMtd(a, b, sqrt);
      b1.position := WithinBorders(b1.position.Plus(mtd.Times(0.5)), b1.radius, size);
      b2.position := WithinBorders(b2.position.Minus(mtd.Times(0.5)), b2.radius, size);
      var n := Normalized(mtd, sqrt);
      var (s1, s2) := Impulse(b1.speed, b2.speed, 1.0, 1.0, n);
      b1.speed := s1;
      b2.speed := s2;
    }
  }

  /** The vector between the centres that bounceBalls works with, and its
      length: twice the first radius along x, at distance one less, when the
      centres coincide. */
  function UnitSeparation(a: EnemyState, b: EnemyState, sqrt: real -> real): (r: (Vec, real))
    ensures r.1 != 0.0
  {
    var delta := a.position.Minus(b.position);
    var dist := Magnitude(delta, sqrt);
    if dist == 0.0 then (Vec((a.radius * 2) as real, 0.0), (a.radius * 2 - 1) as real) else (delta, dist)
  }

  /** The minimum translation distance of two balls of the first ball's
      radius. */
  function UnitMtd(a: EnemyState, b: EnemyState, sqrt: real -> real): Vec {
    var (delta, dist) := UnitSeparation(a, b, sqrt);
    delta.Times(((a.radius * 2) as real - dist) / dist)
  }

  /** The relative speed of the two balls along the unit mtd. */
  function ApproachSpeed(a: EnemyState, b: EnemyState, sqrt: real -> real): real {
    a.speed.Minus(b.speed).Dot(Normalized(UnitMtd(a, b, sqrt), sqrt))
  }

  /** bounceBalls on the two states: the balls are pushed apart and put back
      inside the window; the speeds change only when the balls approach
      each other, and then by opposite amounts, so their sum is kept. */
  function UnitBounce(a: EnemyState, b: EnemyState, size: Size, sqrt: real -> real): (r: (EnemyState, EnemyState))
    ensures r.0 == a.(position := r.0.position, speed := r.0.speed)
    ensures r.1 == b.(position := r.1.position, speed := r.1.speed)
    ensures Fits(a.radius, size) ==> Inside(r.0.position, a.radius, size)
    ensures Fits(b.radius, size) ==> Inside(r.1.position, b.radius, size)
    ensures ApproachSpeed(a, b, sqrt) > 0.0 ==> r.0.speed == a.speed && r.1.speed == b.speed
    ensures r.0.speed.Plus(r.1.speed) == a.speed.Plus(b.speed)
  {
    var mtd := UnitMtd(a, b, sqrt);
    var p1 := WithinBorders(a.position.Plus(mtd.Times(0.5)), a.radius, size);
    var p2 := WithinBorders(b.position.Minus(mtd.Times(0.5)), b.radius, size);
    var (s1, s2) := Impulse(a.speed, b.speed, 1.0, 1.0, Normalized(mtd, sqrt));
    SpeedSumKept(a.speed, b.speed, Normalized(mtd, sqrt));
    (a.(position := p1, speed := s1), b.(position := p2, speed := s2))
  }

  /** The impulse between balls of unit inverse mass takes from one ball's
      speed what it adds to the other's. */
  lemma SpeedSumKept(v1: Vec, v2: Vec, n: Vec)
    ensures var (w1, w2) := Impulse(v1, v2, 1.0, 1.0, n);
      w1.Plus(w2) == v1.Plus(v2)
  {
  }

  /** For two enemies of one radius and unit mass, the first revision's
      bounce is the later revision's. */
  lemma UnitBounceIsBounce(a: EnemyState, b: EnemyState, size: Size, sqrt: real -> real)
    requires a.mass == ENEMY_MASS && b.mass == ENEMY_MASS && a.radius == b.radius
    ensures CanBounce(a, b, sqrt)
    ensures UnitBounce(a, b, size, sqrt) == Bounce(a, b, size, sqrt)
  {
    EnemiesCanBounce(a, b, sqrt);
    assert Separation(a, b, sqrt) == UnitSeparation(a, b, sqrt);
    assert Mtd(a, b, sqrt) == UnitMtd(a, b, sqrt);
    var mtd := UnitMtd(a, b, sqrt);
    assert PushApart(a, b, sqrt) == (a.position.Plus(mtd.Times(0.5)), b.position.Minus(mtd.Times(0.5)));
    assert 1.0 / a.mass == 1.0;
  }

  class Coin {
    var position: Vec
    const radius: int
    /** Whether the coin can be caught. */
    var enabled: bool
    var enablePending: bool

    /** A new coin, placed at least COIN_PLAYER_DISTANCE from the player,
        disabled until its fade-in ends. */
    constructor (player: Vec, radius: int, size: Size, draws: seq<Draw>)
      requires DrawsInRange(draws, radius, size)
      ensures position == Relocated(ZERO, draws, player, COIN_PLAYER_DISTANCE)
      ensures this.radius == radius && !enabled && enablePending
    {
      this.radius := radius;
      var found, p := DrawPosition(draws, player, COIN_PLAYER_DISTANCE);
      position := if found then p else ZERO;
      enabled := false;
      enablePending := true;
    }

    /** _enable, the end of the fade-in. */
    method Enable()
      modifies this`enabled, this`enablePending
      ensures enabled && !enablePending
    {
      enabled := true;
      enablePending := false;
    }
  }
}
