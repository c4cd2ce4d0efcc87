/** The balls of the game: the player, the enemies, the coin, the bonus and
    the homing missile. Each is a class whose fields the game updates in
    place; the arithmetic of a move or a bounce is a function on values that
    the methods are proved against.

    The window size, the random draws and the square root are parameters.
    A scheduled animation that ends in a call (a fade-in followed by
    `_enable`, the blinking that ends in `_makeVulnerable`) is a boolean
    "pending" field: the call itself is a method the animation system runs,
    and `stop()` clears the flag. */
module Balls {
  import opened Vectors

  /** The window size in pixels, as director.get_window_size() reports it. */
  datatype Size = Size(width: int, height: int)

  /** One pair of random.randint results: a candidate position. */
  datatype Draw = Draw(x: int, y: int)

  // ---------------------------------------------------------------------
  // Borders

  function Min(a: real, b: real): real { if b < a then b else a }
  function Max(a: real, b: real): real { if b > a then b else a }

  /** min(max(v, lo), hi): v moved into [lo, hi]; when the range is empty
      the upper bound wins. */
  function Clamp(v: real, lo: real, hi: real): (r: real)
    ensures r <= hi
    ensures r == v || r == lo || r == hi
    ensures lo <= hi ==> lo <= r
    ensures lo <= v <= hi ==> r == v
  {
    Min(Max(v, lo), hi)
  }

  /** A ball of this radius fits in the window (random.randint(radius,
      width - radius) has a non-empty range on both axes). */
  predicate Fits(radius: int, size: Size) {
    2 * radius <= size.width && 2 * radius <= size.height
  }

  /** The centre keeps the whole ball inside the window. */
  predicate Inside(p: Vec, radius: int, size: Size) {
    && radius as real <= p.x <= (size.width - radius) as real
    && radius as real <= p.y <= (size.height - radius) as real
  }

  /** ensureWithinBorders: each coordinate clamped to [radius, side - radius]. */
  function WithinBorders(p: Vec, radius: int, size: Size): (q: Vec)
    ensures Fits(radius, size) ==> Inside(q, radius, size)
    ensures Inside(p, radius, size) ==> q == p
    ensures q.x <= (size.width - radius) as real && q.y <= (size.height - radius) as real
    ensures q.x == p.x || q.x == radius as real || q.x == (size.width - radius) as real
    ensures q.y == p.y || q.y == radius as real || q.y == (size.height - radius) as real
  {
    Vec(Clamp(p.x, radius as real, (size.width - radius) as real),
        Clamp(p.y, radius as real, (size.height - radius) as real))
  }

  /** Clamping twice is clamping once, when the ball fits. */
  lemma WithinBordersIdempotent(p: Vec, radius: int, size: Size)
    requires Fits(radius, size)
    ensures WithinBorders(WithinBorders(p, radius, size), radius, size) == WithinBorders(p, radius, size)
  {
    var q := WithinBorders(p, radius, size);
    assert Inside(q, radius, size);
  }

  /** Two discs overlap (CircleShape.overlaps): the squared distance between
      the centres is below the squared sum of the radii. */
  predicate Collide(p1: Vec, r1: int, p2: Vec, r2: int) {
    p1.Minus(p2).NormSquared() < ((r1 + r2) * (r1 + r2)) as real
  }

  lemma CollideIsSymmetric(p1: Vec, r1: int, p2: Vec, r2: int)
    ensures Collide(p1, r1, p2, r2) <==> Collide(p2, r2, p1, r1)
  {
    var d, e := p1.Minus(p2), p2.Minus(p1);
    assert e.x * e.x == d.x * d.x && e.y * e.y == d.y * d.y;
  }

  // ---------------------------------------------------------------------
  // Random placement

  /** util.distance(p, player) >= minDistance, compared through squares. */
  predicate FarFrom(p: Vec, player: Vec, minDistance: real) {
    minDistance <= 0.0 || p.Minus(player).NormSquared() >= minDistance * minDistance
  }

  /** With a true square root, the squared comparison is the distance test. */
  lemma FarFromIsDistance(p: Vec, player: Vec, minDistance: real, sqrt: real -> real)
    requires IsSqrt(sqrt)
    ensures FarFrom(p, player, minDistance) <==> Magnitude(p.Minus(player), sqrt) >= minDistance
  {
    var v := p.Minus(player);
    SquareNonNegative(v.x);
    SquareNonNegative(v.y);
    var d := Magnitude(v, sqrt);
    assert d >= 0.0 && d * d == v.NormSquared();
    if minDistance > 0.0 {
      if d >= minDistance {
        SquareMonotonic(minDistance, d);
      } else {
        SquareMonotonic(d, minDistance);
        assert d * d < minDistance * minDistance by {
          StrictSquareMonotonic(d, minDistance);
        }
      }
    }
  }

  lemma SquareMonotonic(a: real, b: real)
    requires 0.0 <= a <= b
    ensures a * a <= b * b
  {
    assert a * a <= a * b;
    assert a * b <= b * b;
  }

  lemma StrictSquareMonotonic(a: real, b: real)
    requires 0.0 <= a < b
    ensures a * a < b * b
  {
    ProductPositive(b - a, b + a);
    assert b * b - a * a == (b - a) * (b + a);
  }

  lemma ProductPositive(x: real, y: real)
    requires x > 0.0 && y > 0.0
    ensures x * y > 0.0
  {
  }

  /** Every draw is a possible result of the two randint calls. */
  predicate DrawsInRange(draws: seq<Draw>, radius: int, size: Size) {
    forall k :: 0 <= k < |draws| ==>
      && radius <= draws[k].x <= size.width - radius
      && radius <= draws[k].y <= size.height - radius
  }

  function PointOf(d: Draw): Vec {
    Vec(d.x as real, d.y as real)
  }

  /** Index of the first draw far enough from the player, or |draws| when
      there is none. */
  function FirstFar(draws: seq<Draw>, player: Vec, minDistance: real): (k: nat)
    ensures k <= |draws|
    ensures forall j :: 0 <= j < k ==> !FarFrom(PointOf(draws[j]), player, minDistance)
    ensures k < |draws| ==> FarFrom(PointOf(draws[k]), player, minDistance)
    decreases |draws|
  {
    if draws == [] then 0
    else if FarFrom(PointOf(draws[0]), player, minDistance) then 0
    else 1 + FirstFar(draws[1..], player, minDistance)
  }

  /** The position setRandomPosition leaves behind, given its draws: the
      first acceptable one, or the current position if the draws run out. */
  function Relocated(current: Vec, draws: seq<Draw>, player: Vec, minDistance: real): Vec {
    var k := FirstFar(draws, player, minDistance);
    if k < |draws| then PointOf(draws[k]) else current
  }

  /** A relocation that found an acceptable draw puts the ball inside the
      window and far enough from the player; otherwise nothing moves. */
  lemma RelocatedIsSafe(current: Vec, draws: seq<Draw>, player: Vec, minDistance: real, radius: int, size: Size)
    requires DrawsInRange(draws, radius, size)
    ensures var p := Relocated(current, draws, player, minDistance);
      if exists k :: 0 <= k < |draws| && FarFrom(PointOf(draws[k]), player, minDistance)
      then Inside(p, radius, size) && FarFrom(p, player, minDistance)
      else p == current
  {
    var k := FirstFar(draws, player, minDistance);
    if k < |draws| {
      assert FarFrom(PointOf(draws[k]), player, minDistance);
    }
  }

  /** The retry loop of setRandomPosition, run over the given draws: the
      first draw at least minDistance away from the player. */
  method DrawPosition(draws: seq<Draw>, player: Vec, minDistance: real) returns (found: bool, p: Vec)
    ensures found <==> exists k :: 0 <= k < |draws| && FarFrom(PointOf(draws[k]), player, minDistance)
    ensures found ==> FarFrom(p, player, minDistance)
    ensures found ==> p == Relocated(p, draws, player, minDistance)
    ensures found ==> exists k :: 0 <= k < |draws| && p == PointOf(draws[k])
  {
    var i := 0;
    while i < |draws| && !FarFrom(PointOf(draws[i]), player, minDistance)
      invariant 0 <= i <= |draws|
      invariant forall j :: 0 <= j < i ==> !FarFrom(PointOf(draws[j]), player, minDistance)
    {
      i := i + 1;
    }
    found := i < |draws|;
    p := ZERO;
    if found {
      p := PointOf(draws[i]);
      FirstFarIsFirst(draws, player, minDistance, i);
    }
  }

  /** FirstFar is the index of the first acceptable draw. */
  lemma FirstFarIsFirst(draws: seq<Draw>, player: Vec, minDistance: real, i: nat)
    requires i < |draws| && FarFrom(PointOf(draws[i]), player, minDistance)
    requires forall j :: 0 <= j < i ==> !FarFrom(PointOf(draws[j]), player, minDistance)
    ensures FirstFar(draws, player, minDistance) == i
  {
  }

  // ---------------------------------------------------------------------
  // Player

  const PLAYER_SPEED := 400.0

  /** An arrow key, or any other key held down. */
  datatype Key = Left | Right | Up | Down | OtherKey(code: int)

  /** _keyboardDelta: the direction the arrow keys point to. */
  function KeyboardDelta(keys: set<Key>): (d: Vec)
    ensures d.x == -1.0 || d.x == 0.0 || d.x == 1.0
    ensures d.y == -1.0 || d.y == 0.0 || d.y == 1.0
    ensures d.x < 0.0 <==> Left in keys && Right !in keys
    ensures d.x > 0.0 <==> Right in keys && Left !in keys
    ensures d.y > 0.0 <==> Up in keys && Down !in keys
    ensures d.y < 0.0 <==> Down in keys && Up !in keys
  {
    Vec((if Right in keys then 1.0 else 0.0) - (if Left in keys then 1.0 else 0.0),
        (if Up in keys then 1.0 else 0.0) - (if Down in keys then 1.0 else 0.0))
  }

  /** Where a player that is not frozen goes before the border check: the
      mouse movement, then the arrow keys at PLAYER_SPEED for dt seconds. */
  function PlayerMoved(position: Vec, dt: real, mouseDelta: Vec, keys: set<Key>): Vec {
    position.Plus(mouseDelta).Plus(KeyboardDelta(keys).Times(PLAYER_SPEED).Times(dt))
  }

  /** Player.update on the position. */
  function PlayerStep(position: Vec, radius: int, frozen: bool, dt: real, mouseDelta: Vec,
                      keys: set<Key>, size: Size): (p: Vec)
    ensures frozen ==> p == position
    ensures !frozen && Fits(radius, size) ==> Inside(p, radius, size)
    ensures !frozen && Inside(PlayerMoved(position, dt, mouseDelta, keys), radius, size) ==>
              p == PlayerMoved(position, dt, mouseDelta, keys)
  {
    if frozen then position
    else WithinBorders(PlayerMoved(position, dt, mouseDelta, keys), radius, size)
  }

  /** With the mouse still and no arrow key held, an unfrozen player inside
      the window stays where it is. */
  lemma IdlePlayerStays(position: Vec, radius: int, dt: real, keys: set<Key>, size: Size)
    requires Inside(position, radius, size)
    requires Left !in keys && Right !in keys && Up !in keys && Down !in keys
    ensures PlayerStep(position, radius, false, dt, ZERO, keys, size) == position
  {
    assert KeyboardDelta(keys) == ZERO;
    assert PlayerMoved(position, dt, ZERO, keys) == position;
  }

  class Player {
    var position: Vec
    const radius: int
    var frozen: bool
    var invulnerable: bool
    /** The blinking started by MakeVulnerable has not reached its end. */
    var vulnerablePending: bool

    /** Only an invulnerable player can be on its way to vulnerability. */
    ghost predicate Valid()
      reads this
    {
      vulnerablePending ==> invulnerable
    }

    constructor (position: Vec, radius: int)
      ensures this.position == position && this.radius == radius
      ensures !frozen && !invulnerable && !vulnerablePending
      ensures Valid()
    {
      this.position := position;
      this.radius := radius;
      frozen := false;
      invulnerable := false;
      vulnerablePending := false;
    }

    method Freeze()
      modifies this`frozen
      ensures frozen
    {
      frozen := true;
    }

    method Unfreeze()
      modifies this`frozen
      ensures !frozen
    {
      frozen := false;
    }

    /** Cancels a pending return to vulnerability and makes the player
        invulnerable. */
    method MakeInvulnerable()
      modifies this`invulnerable, this`vulnerablePending
      ensures invulnerable && !vulnerablePending
      ensures Valid()
    {
      vulnerablePending := false;
      invulnerable := true;
    }

    /** Starts the blinking that ends the invulnerability; does nothing to a
        vulnerable player. */
    method MakeVulnerable()
      requires Valid()
      modifies this`vulnerablePending
      ensures vulnerablePending == invulnerable
      ensures Valid()
    {
      if invulnerable {
        vulnerablePending := true;
      }
    }

    /** _makeVulnerable, the last step of the blinking. */
    method FinishVulnerable()
      modifies this`invulnerable, this`vulnerablePending
      ensures !invulnerable && !vulnerablePending
      ensures Valid()
    {
      invulnerable := false;
      vulnerablePending := false;
    }

    /** Moves the player by the mouse and the arrow keys, unless frozen. */
    method Update(dt: real, mouseDelta: Vec, keys: set<Key>, size: Size)
      modifies this`position
      ensures position == PlayerStep(old(position), radius, frozen, dt, mouseDelta, keys, size)
    {
      if !frozen {
        position := WithinBorders(PlayerMoved(position, dt, mouseDelta, keys), radius, size);
      }
    }
  }

  // ---------------------------------------------------------------------
  // Enemies

  const ENEMY_PLAYER_DISTANCE := 100.0
  const ENEMY_MASS := 1.0
  const RESTITUTION := 1.0

  datatype EnemyState = EnemyState(position: Vec, speed: Vec, radius: int, mass: real,
                                   initialSpeed: real, enabled: bool, enablePending: bool)

  /** A new enemy: placed away from the player, at rest, disabled, and
      fading in towards its _enable. */
  function SpawnedEnemy(player: Vec, initialSpeed: real, radius: int, draws: seq<Draw>): (e: EnemyState)
    ensures !e.enabled && e.enablePending && e.speed == ZERO && e.mass == ENEMY_MASS
    ensures e.radius == radius && e.initialSpeed == initialSpeed
    ensures (exists k :: 0 <= k < |draws| && FarFrom(PointOf(draws[k]), player, ENEMY_PLAYER_DISTANCE)) ==>
              FarFrom(e.position, player, ENEMY_PLAYER_DISTANCE)
  {
    EnemyState(Relocated(ZERO, draws, player, ENEMY_PLAYER_DISTANCE), ZERO, radius, ENEMY_MASS,
               initialSpeed, false, true)
  }

  /** The centre of an enabled enemy after dt seconds at factor times its
      speed, before the border check. */
  function EnemyMoved(e: EnemyState, dt: real, factor: real): Vec {
    e.position.Plus(e.speed.Times(dt).Times(factor))
  }

  /** Enemy.update: move, reverse each speed component whose coordinate left
      the window, then clamp back inside. A disabled enemy does not move. */
  function EnemyMove(e: EnemyState, dt: real, factor: real, size: Size): (r: EnemyState)
    ensures !e.enabled ==> r == e
    ensures r.radius == e.radius && r.mass == e.mass && r.initialSpeed == e.initialSpeed
    ensures r.enabled == e.enabled && r.enablePending == e.enablePending
    ensures e.enabled && Fits(e.radius, size) ==> Inside(r.position, e.radius, size)
  {
    if !e.enabled then e
    else
      var moved := EnemyMoved(e, dt, factor);
      var lo := e.radius as real;
      var vx := if moved.x < lo || moved.x > (size.width - e.radius) as real then -e.speed.x else e.speed.x;
      var vy := if moved.y < lo || moved.y > (size.height - e.radius) as real then -e.speed.y else e.speed.y;
      e.(position := WithinBorders(moved, e.radius, size), speed := Vec(vx, vy))
  }

  /** An enemy that stays inside the window keeps its speed and goes exactly
      where its speed takes it. */
  lemma EnemyMoveInside(e: EnemyState, dt: real, factor: real, size: Size)
    requires e.enabled && Inside(EnemyMoved(e, dt, factor), e.radius, size)
    ensures EnemyMove(e, dt, factor, size).position == EnemyMoved(e, dt, factor)
    ensures EnemyMove(e, dt, factor, size).speed == e.speed
  {
  }

  /** Bouncing off a border reverses components only: the speed's magnitude
      is unchanged. */
  lemma EnemyMoveKeepsSpeed(e: EnemyState, dt: real, factor: real, size: Size)
    ensures EnemyMove(e, dt, factor, size).speed.NormSquared() == e.speed.NormSquared()
  {
    var s := e.speed;
    assert (-s.x) * (-s.x) == s.x * s.x;
    assert (-s.y) * (-s.y) == s.y * s.y;
  }

  /** Moving forward in time (dt * factor > 0), each coordinate of the step
      has the sign of the speed's. */
  lemma StepSign(v: Vec, dt: real, factor: real)
    requires dt * factor > 0.0
    ensures v.Times(dt).Times(factor).x < 0.0 ==> v.x < 0.0
    ensures v.Times(dt).Times(factor).x > 0.0 ==> v.x > 0.0
    ensures v.Times(dt).Times(factor).y < 0.0 ==> v.y < 0.0
    ensures v.Times(dt).Times(factor).y > 0.0 ==> v.y > 0.0
  {
    ProductSign(v.x, dt, factor);
    ProductSign(v.y, dt, factor);
  }

  lemma ProductSign(v: real, dt: real, factor: real)
    requires dt * factor > 0.0
    ensures v * dt * factor < 0.0 ==> v < 0.0
    ensures v * dt * factor > 0.0 ==> v > 0.0
  {
    assert v * dt * factor == v * (dt * factor);
    if v >= 0.0 {
      assert v * (dt * factor) >= 0.0;
    }
    if v <= 0.0 {
      assert v * (dt * factor) <= 0.0;
    }
  }

  /** An enemy that starts inside the window and moves forward in time
      leaves it only in the direction it was heading, so the reversed
      component points back into the window. */
  lemma EnemyBouncesInward(e: EnemyState, dt: real, factor: real, size: Size)
    requires e.enabled && Inside(e.position, e.radius, size)
    requires dt * factor > 0.0
    ensures var moved, r := EnemyMoved(e, dt, factor), EnemyMove(e, dt, factor, size);
      && (moved.x < e.radius as real ==> r.speed.x > 0.0)
      && (moved.x > (size.width - e.radius) as real ==> r.speed.x < 0.0)
      && (moved.y < e.radius as real ==> r.speed.y > 0.0)
      && (moved.y > (size.height - e.radius) as real ==> r.speed.y < 0.0)
  {
    StepSign(e.speed, dt, factor);
  }

  // ---------------------------------------------------------------------
  // Bouncing two enemies off one another

  /** The vector from the second centre to the first and its length, or the
      substitutes used when the centres coincide. */
  function Separation(a: EnemyState, b: EnemyState, sqrt: real -> real): (Vec, real) {
    var delta := a.position.Minus(b.position);
    var dist := Magnitude(delta, sqrt);
    var sum := (a.radius + b.radius) as real;
    if dist == 0.0 then (Vec(sum, 0.0), sum - 1.0) else (delta, dist)
  }

  /** Every division bounceBalls performs is defined. */
  predicate CanBounce(a: EnemyState, b: EnemyState, sqrt: real -> real) {
    && a.mass != 0.0 && b.mass != 0.0
    && 1.0 / a.mass + 1.0 / b.mass != 0.0
    && Separation(a, b, sqrt).1 != 0.0
  }

  /** The minimum translation distance: the vector that pushes the balls
      apart until they just touch. */
  function Mtd(a: EnemyState, b: EnemyState, sqrt: real -> real): Vec
    requires CanBounce(a, b, sqrt)
  {
    var (delta, dist) := Separation(a, b, sqrt);
    delta.Times(((a.radius + b.radius) as real - dist) / dist)
  }

  /** The two centres pushed apart along the mtd, each by a share inverse to
      its mass, before the border check. */
  function PushApart(a: EnemyState, b: EnemyState, sqrt: real -> real): (Vec, Vec)
    requires CanBounce(a, b, sqrt)
  {
    var mtd := Mtd(a, b, sqrt);
    var im1, im2 := 1.0 / a.mass, 1.0 / b.mass;
    (a.position.Plus(mtd.Times(im1 / (im1 + im2))), b.position.Minus(mtd.Times(im2 / (im1 + im2))))
  }

  /** The speeds after the collision impulse along the unit normal n;
      unchanged when the balls already move apart. The impulse is n times
      i, and each ball takes its share i * im of it. */
  function Impulse(v1: Vec, v2: Vec, im1: real, im2: real, n: Vec): (Vec, Vec)
    requires im1 + im2 != 0.0
  {
    var vn := v1.Minus(v2).Dot(n);
    if vn > 0.0 then (v1, v2)
    else
      var i := (-(1.0 + RESTITUTION) * vn) / (im1 + im2);
      (v1.Plus(n.Times(i * im1)), v2.Minus(n.Times(i * im2)))
  }

  /** Enemy.bounceBalls: push apart, clamp both inside the window, then
      exchange momentum along the normalised mtd. */
  function Bounce(a: EnemyState, b: EnemyState, size: Size, sqrt: real -> real): (r: (EnemyState, EnemyState))
    requires CanBounce(a, b, sqrt)
    ensures r.0 == a.(position := r.0.position, speed := r.0.speed)
    ensures r.1 == b.(position := r.1.position, speed := r.1.speed)
    ensures Fits(a.radius, size) ==> Inside(r.0.position, a.radius, size)
    ensures Fits(b.radius, size) ==> Inside(r.1.position, b.radius, size)
    ensures a.speed.Minus(b.speed).Dot(Normalized(Mtd(a, b, sqrt), sqrt)) > 0.0 ==>
              r.0.speed == a.speed && r.1.speed == b.speed
    ensures r.0.speed.Times(a.mass).Plus(r.1.speed.Times(b.mass)) == a.speed.Times(a.mass).Plus(b.speed.Times(b.mass))
  {
    ImpulseConservesMomentum(a.speed, b.speed, a.mass, b.mass, Normalized(Mtd(a, b, sqrt), sqrt));
    var (p1, p2) := PushApart(a, b, sqrt);
    var (s1, s2) := Impulse(a.speed, b.speed, 1.0 / a.mass, 1.0 / b.mass, Normalized(Mtd(a, b, sqrt), sqrt));
    (a.(position := WithinBorders(p1, a.radius, size), speed := s1),
     b.(position := WithinBorders(p2, b.radius, size), speed := s2))
  }

  /** Two enemies of the game (unit mass, one radius) can always bounce. */
  lemma EnemiesCanBounce(a: EnemyState, b: EnemyState, sqrt: real -> real)
    requires a.mass == ENEMY_MASS && b.mass == ENEMY_MASS && a.radius == b.radius
    ensures CanBounce(a, b, sqrt)
  {
    assert a.radius + b.radius != 1;
  }

  /** The impulse conserves momentum: m1 * v1 + m2 * v2 is the same after. */
  lemma ImpulseConservesMomentum(v1: Vec, v2: Vec, m1: real, m2: real, n: Vec)
    requires m1 != 0.0 && m2 != 0.0 && 1.0 / m1 + 1.0 / m2 != 0.0
    ensures var (w1, w2) := Impulse(v1, v2, 1.0 / m1, 1.0 / m2, n);
      w1.Times(m1).Plus(w2.Times(m2)) == v1.Times(m1).Plus(v2.Times(m2))
  {
    var vn := v1.Minus(v2).Dot(n);
    if vn <= 0.0 {
      var i := (-(1.0 + RESTITUTION) * vn) / (1.0 / m1 + 1.0 / m2);
      ShareTimesMass(i, m1);
      ShareTimesMass(i, m2);
      MomentumOfShares(v1, v2, n, i * (1.0 / m1), i * (1.0 / m2), m1, m2);
    }
  }

  /** The share i / m of an impulse i, times the mass m, is the impulse. */
  lemma ShareTimesMass(i: real, m: real)
    requires m != 0.0
    ensures i * (1.0 / m) * m == i
  {
  }

  /** Opposite changes of speed that carry the same momentum leave the total
      momentum unchanged. */
  lemma MomentumOfShares(v1: Vec, v2: Vec, n: Vec, c1: real, c2: real, m1: real, m2: real)
    requires c1 * m1 == c2 * m2
    ensures v1.Plus(n.Times(c1)).Times(m1).Plus(v2.Minus(n.Times(c2)).Times(m2)) == v1.Times(m1).Plus(v2.Times(m2))
  {
    assert (v1.x + n.x * c1) * m1 + (v2.x - n.x * c2) * m2 == v1.x * m1 + v2.x * m2 + n.x * (c1 * m1 - c2 * m2);
    assert (v1.y + n.y * c1) * m1 + (v2.y - n.y * c2) * m2 == v1.y * m1 + v2.y * m2 + n.y * (c1 * m1 - c2 * m2);
  }

  /** After the impulse the balls no longer approach each other: the
      relative speed along the unit normal is reversed. */
  lemma ImpulseSeparates(v1: Vec, v2: Vec, im1: real, im2: real, n: Vec)
    requires im1 + im2 != 0.0
    requires n.NormSquared() == 1.0
    ensures var (w1, w2) := Impulse(v1, v2, im1, im2, n);
      var vn := v1.Minus(v2).Dot(n);
      w1.Minus(w2).Dot(n) == if vn > 0.0 then vn else -vn
  {
    if v1.Minus(v2).Dot(n) <= 0.0 {
      ImpulseReflects(v1, v2, im1, im2, n);
      DotAlongUnit(v1.Minus(v2), n, -2.0 * v1.Minus(v2).Dot(n));
    }
  }

  /** When the balls approach, the impulse adds -2 vn times the normal to
      their relative speed. */
  lemma ImpulseReflects(v1: Vec, v2: Vec, im1: real, im2: real, n: Vec)
    requires im1 + im2 != 0.0 && v1.Minus(v2).Dot(n) <= 0.0
    ensures Impulse(v1, v2, im1, im2, n).0.Minus(Impulse(v1, v2, im1, im2, n).1)
         == v1.Minus(v2).Plus(n.Times(-2.0 * v1.Minus(v2).Dot(n)))
  {
    var vn := v1.Minus(v2).Dot(n);
    var i := (-(1.0 + RESTITUTION) * vn) / (im1 + im2);
    RelativeAfterImpulse(v1, v2, n, i * im1, i * im2);
    ImpulseTotal(vn, im1, im2);
  }

  /** The two shares of the impulse, applied in opposite directions, add up
      in the relative speed. */
  lemma RelativeAfterImpulse(v1: Vec, v2: Vec, n: Vec, c1: real, c2: real)
    ensures v1.Plus(n.Times(c1)).Minus(v2.Minus(n.Times(c2))) == v1.Minus(v2).Plus(n.Times(c1 + c2))
  {
    assert n.x * c1 + n.x * c2 == n.x * (c1 + c2);
    assert n.y * c1 + n.y * c2 == n.y * (c1 + c2);
  }

  /** Adding c times a unit vector n adds c to the component along n. */
  lemma DotAlongUnit(v: Vec, n: Vec, c: real)
    requires n.NormSquared() == 1.0
    ensures v.Plus(n.Times(c)).Dot(n) == v.Dot(n) + c
  {
    assert (v.x + n.x * c) * n.x + (v.y + n.y * c) * n.y
        == v.x * n.x + v.y * n.y + c * (n.x * n.x + n.y * n.y);
  }

  /** The two shares of the impulse together are -2 vn. */
  lemma ImpulseTotal(vn: real, im1: real, im2: real)
    requires im1 + im2 != 0.0
    ensures var i := (-(1.0 + RESTITUTION) * vn) / (im1 + im2);
      i * im1 + i * im2 == -2.0 * vn
  {
    var i := (-(1.0 + RESTITUTION) * vn) / (im1 + im2);
    assert i * im1 + i * im2 == i * (im1 + im2);
  }

  lemma Shares(im1: real, im2: real)
    requires im1 + im2 != 0.0
    ensures im1 / (im1 + im2) + im2 / (im1 + im2) == 1.0
  {
  }

  /** Moving p1 by a share a of m and p2 back by the share b = 1 - a widens
      their gap by m. */
  lemma PushGap(p1: Vec, p2: Vec, m: Vec, a: real, b: real)
    requires a + b == 1.0
    ensures p1.Plus(m.Times(a)).Minus(p2.Minus(m.Times(b))) == p1.Minus(p2).Plus(m)
  {
    assert m.x * a + m.x * b == m.x * (a + b);
    assert m.y * a + m.y * b == m.y * (a + b);
  }

  /** Pushing apart keeps the centre of mass where it was. */
  lemma PushApartKeepsCentreOfMass(a: EnemyState, b: EnemyState, sqrt: real -> real)
    requires CanBounce(a, b, sqrt)
    ensures var (p1, p2) := PushApart(a, b, sqrt);
      p1.Times(a.mass).Plus(p2.Times(b.mass)) == a.position.Times(a.mass).Plus(b.position.Times(b.mass))
  {
    EqualShares(a.mass, b.mass);
    MomentumOfShares(a.position, b.position, Mtd(a, b, sqrt),
      (1.0 / a.mass) / (1.0 / a.mass + 1.0 / b.mass), (1.0 / b.mass) / (1.0 / a.mass + 1.0 / b.mass), a.mass, b.mass);
  }

  /** Shares inverse to the masses move equal momenta. */
  lemma EqualShares(m1: real, m2: real)
    requires m1 != 0.0 && m2 != 0.0 && 1.0 / m1 + 1.0 / m2 != 0.0
    ensures (1.0 / m1) / (1.0 / m1 + 1.0 / m2) * m1 == (1.0 / m2) / (1.0 / m1 + 1.0 / m2) * m2
  {
    var s := 1.0 / m1 + 1.0 / m2;
    assert (1.0 / m1) / s * m1 == 1.0 / s;
    assert (1.0 / m2) / s * m2 == 1.0 / s;
  }

  /** When the centres are at distance zero, bounceBalls separates the balls
      along the x axis, as if they were sum apart at distance sum - 1 (sum
      being the sum of their radii). */
  lemma SameCentreSeparation(a: EnemyState, b: EnemyState, sqrt: real -> real)
    requires Magnitude(a.position.Minus(b.position), sqrt) == 0.0
    ensures var sum := (a.radius + b.radius) as real;
      Separation(a, b, sqrt) == (Vec(sum, 0.0), sum - 1.0)
  {
  }

  /** Two balls at the same place are at distance zero (for a square root
      that maps zero to zero). */
  lemma SamePlaceHasNoDistance(p: Vec, q: Vec, sqrt: real -> real)
    requires sqrt(0.0) == 0.0 && p == q
    ensures Magnitude(p.Minus(q), sqrt) == 0.0
  {
    assert p.Minus(q).NormSquared() == 0.0;
  }

  /** Pushing apart widens the gap between the centres by exactly the mtd,
      whatever the masses. */
  lemma PushApartGap(a: EnemyState, b: EnemyState, sqrt: real -> real)
    requires CanBounce(a, b, sqrt)
    ensures var (p1, p2) := PushApart(a, b, sqrt);
      p1.Minus(p2) == a.position.Minus(b.position).Plus(Mtd(a, b, sqrt))
  {
    var im1, im2 := 1.0 / a.mass, 1.0 / b.mass;
    Shares(im1, im2);
    PushGap(a.position, b.position, Mtd(a, b, sqrt), im1 / (im1 + im2), im2 / (im1 + im2));
  }

  class Enemy {
    var position: Vec
    var speed: Vec
    const radius: int
    const mass: real
    const initialSpeed: real
    /** Whether the enemy moves and collides. */
    var enabled: bool
    /** The fade-in that ends in _enable is still running. */
    var enablePending: bool

    function State(): EnemyState
      reads this
    {
      EnemyState(position, speed, radius, mass, initialSpeed, enabled, enablePending)
    }

    /** A new enemy, placed by the retry loop over draws. */
    constructor (player: Vec, initialSpeed: real, radius: int, size: Size, draws: seq<Draw>)
      requires Fits(radius, size) && DrawsInRange(draws, radius, size)
      ensures State() == SpawnedEnemy(player, initialSpeed, radius, draws)
    {
      this.radius := radius;
      this.initialSpeed := initialSpeed;
      var found, p := DrawPosition(draws, player, ENEMY_PLAYER_DISTANCE);
      position := if found then p else ZERO;
      speed := ZERO;
      mass := ENEMY_MASS;
      enabled := false;
      enablePending := true;
    }

    method Update(dt: real, factor: real, size: Size)
      modifies this`position, this`speed
      ensures State() == EnemyMove(old(State()), dt, factor, size)
    {
      if enabled {
        position := position.Plus(speed.Times(dt).Times(factor));
        if position.x < radius as real || position.x > (size.width - radius) as real {
          speed := speed.(x := -speed.x);
        }
        if position.y < radius as real || position.y > (size.height - radius) as real {
          speed := speed.(y := -speed.y);
        }
        position := WithinBorders(position, radius, size);
      }
    }

    /** _enable, the end of the fade-in: a speed of the initial magnitude in
        the random direction (the cosine and sine of a random angle), and the
        enemy starts moving. */
    method Enable(direction: Vec)
      requires direction.NormSquared() == 1.0
      modifies this`speed, this`enabled, this`enablePending
      ensures speed == direction.Times(initialSpeed)
      ensures speed.NormSquared() == initialSpeed * initialSpeed
      ensures enabled && !enablePending
    {
      speed := direction.Times(initialSpeed);
      ScaledNormSquared(direction, initialSpeed);
      enabled := true;
      enablePending := false;
    }

    /** stop(): cancels the fade-in, so a disabled enemy stays disabled. */
    method Stop()
      modifies this`enablePending
      ensures !enablePending
    {
      enablePending := false;
    }

    static method BounceBalls(b1: Enemy, b2: Enemy, size: Size, sqrt: real -> real)
      requires b1 != b2
      requires CanBounce(b1.State(), b2.State(), sqrt)
      modifies b1`position, b1`speed, b2`position, b2`speed
      ensures (b1.State(), b2.State()) == Bounce(old(b1.State()), old(b2.State()), size, sqrt)
    {
      var (p1, p2) := PushApart(b1.State(), b2.State(), sqrt);
      var n := Normalized(Mtd(b1.State(), b2.State(), sqrt), sqrt);
      var (s1, s2) := Impulse(b1.speed, b2.speed, 1.0 / b1.mass, 1.0 / b2.mass, n);
      b1.position := WithinBorders(p1, b1.radius, size);
      b2.position := WithinBorders(p2, b2.radius, size);
      b1.speed := s1;
      b2.speed := s2;
    }
  }

  // ---------------------------------------------------------------------
  // Coin, bonus and missile

  const COIN_PLAYER_DISTANCE := 200.0
  const BONUS_PLAYER_DISTANCE := 200.0
  const MISSILE_PLAYER_DISTANCE := 200.0
  const MISSILE_SPEED := 200.0

  class Coin {
    var position: Vec
    const radius: int
    /** Whether the coin can be caught. */
    var enabled: bool
    var enablePending: bool

    constructor (player: Vec, radius: int, size: Size, draws: seq<Draw>)
      requires Fits(radius, size) && DrawsInRange(draws, radius, size)
      ensures position == Relocated(ZERO, draws, player, COIN_PLAYER_DISTANCE)
      ensures this.radius == radius && !enabled && enablePending
    {
      this.radius := radius;
      var found, p := DrawPosition(draws, player, COIN_PLAYER_DISTANCE);
      position := if found then p else ZERO;
      enabled := false;
      enablePending := true;
    }

    method SetRandomPosition(player: Vec, minDistance: real, size: Size, draws: seq<Draw>)
      requires Fits(radius, size) && DrawsInRange(draws, radius, size)
      modifies this`position
      ensures position == Relocated(old(position), draws, player, minDistance)
    {
      var found, p := DrawPosition(draws, player, minDistance);
      if found {
        position := p;
      }
    }

    /** _enable, the end of the fade-in. */
    method Enable()
      modifies this`enabled, this`enablePending
      ensures enabled && !enablePending
    {
      enabled := true;
      enablePending := false;
    }
  }

  class Bonus {
    var position: Vec
    const radius: int
    /** Whether the bonus can be caught. */
    var enabled: bool

    constructor (radius: int)
      ensures position == ZERO && this.radius == radius && !enabled
    {
      this.radius := radius;
      position := ZERO;
      enabled := false;
    }

    /** Places a hidden bonus away from the player and enables it; a bonus
        already shown stays where it is. */
    method Show(player: Vec, size: Size, draws: seq<Draw>)
      requires Fits(radius, size) && DrawsInRange(draws, radius, size)
      modifies this`position, this`enabled
      ensures enabled
      ensures position == if old(enabled) then old(position)
                          else Relocated(old(position), draws, player, BONUS_PLAYER_DISTANCE)
    {
      if !enabled {
        var found, p := DrawPosition(draws, player, BONUS_PLAYER_DISTANCE);
        if found {
          position := p;
        }
        enabled := true;
      }
    }

    method Hide()
      modifies this`enabled
      ensures !enabled
    {
      enabled := false;
    }
  }

  /** The step of a homing missile for dt seconds: MISSILE_SPEED * dt along
      the angle atan2 gives towards the player (angle 0 when the player is
      at the missile's centre). */
  function HomingStep(position: Vec, player: Vec, dt: real, sqrt: real -> real): Vec {
    var d := player.Minus(position);
    var u := if Magnitude(d, sqrt) == 0.0 then Vec(1.0, 0.0) else Normalized(d, sqrt);
    u.Times(MISSILE_SPEED * dt)
  }

  class Missile {
    var position: Vec
    const radius: int
    /** Whether the missile moves and collides. */
    var enabled: bool
    var enablePending: bool

    constructor (radius: int)
      ensures position == ZERO && this.radius == radius && !enabled && !enablePending
    {
      this.radius := radius;
      position := ZERO;
      enabled := false;
      enablePending := false;
    }

    /** Places a hidden missile away from the player and starts its fade-in;
        it is enabled only when the fade-in ends. */
    method Show(player: Vec, size: Size, draws: seq<Draw>)
      requires Fits(radius, size) && DrawsInRange(draws, radius, size)
      modifies this`position, this`enablePending
      ensures enablePending == (old(enablePending) || !enabled)
      ensures position == if enabled then old(position)
                          else Relocated(old(position), draws, player, MISSILE_PLAYER_DISTANCE)
    {
      if !enabled {
        var found, p := DrawPosition(draws, player, MISSILE_PLAYER_DISTANCE);
        if found {
          position := p;
        }
        enablePending := true;
      }
    }

    method Hide()
      modifies this`enabled, this`enablePending
      ensures !enabled && !enablePending
    {
      enabled := false;
      enablePending := false;
    }

    /** Moves an enabled missile towards the player. */
    method Update(dt: real, player: Vec, sqrt: real -> real)
      modifies this`position
      ensures position == if enabled then old(position).Plus(HomingStep(old(position), player, dt, sqrt))
                          else old(position)
    {
      if enabled {
        position := position.Plus(HomingStep(position, player, dt, sqrt));
      }
    }

    /** _enable, the end of the fade-in. */
    method Enable()
      modifies this`enabled, this`enablePending
      ensures enabled && !enablePending
    {
      enabled := true;
      enablePending := false;
    }
  }
}
