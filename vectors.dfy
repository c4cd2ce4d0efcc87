/** Two-dimensional vectors over the reals, with the few operations the balls
    use. The square root is not part of the model: where the game needs a
    magnitude, the caller supplies a square-root function. */
module Vectors {

  datatype Vec = Vec(x: real, y: real)
  {
    function Plus(o: Vec): Vec { Vec(x + o.x, y + o.y) }
    function Minus(o: Vec): Vec { Vec(x - o.x, y - o.y) }
    function Times(k: real): Vec { Vec(x * k, y * k) }
    function Dot(o: Vec): real { x * o.x + y * o.y }
    function NormSquared(): real { x * x + y * y }
  }

  const ZERO := Vec(0.0, 0.0)

  /** sqrt returns the non-negative square root of every non-negative real. */
  ghost predicate IsSqrt(sqrt: real -> real) {
    forall v :: v >= 0.0 ==> sqrt(v) >= 0.0 && sqrt(v) * sqrt(v) == v
  }

  /** Euclidean length, given a square-root function. */
  function Magnitude(v: Vec, sqrt: real -> real): real {
    sqrt(v.NormSquared())
  }

  /** Vector2.normalize(): v divided by its length, or v itself when the
      length is zero. */
  function Normalized(v: Vec, sqrt: real -> real): Vec {
    var d := Magnitude(v, sqrt);
    if d != 0.0 then Vec(v.x / d, v.y / d) else v
  }

  lemma SquareNonNegative(a: real)
    ensures a * a >= 0.0
  {
    if a < 0.0 {
      assert a * a == (-a) * (-a);
    }
  }

  /** Scaling a vector by k scales its squared length by k * k. */
  lemma ScaledNormSquared(v: Vec, k: real)
    ensures v.Times(k).NormSquared() == k * k * v.NormSquared()
  {
    assert (v.x * k) * (v.x * k) == k * k * (v.x * v.x);
    assert (v.y * k) * (v.y * k) == k * k * (v.y * v.y);
  }
}
