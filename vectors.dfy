/** Plane vectors and the inputs the simulation cannot compute itself:
    the values of `Math.random()` and the heading vector `(cos a, sin a)`. */
module Vectors {

  /** A point or a displacement in the play field (`Vector2D`), used as a value. */
  datatype Vec = Vec(x: real, y: real)

  /** Componentwise sum (`Vector2D.add`). */
  function Add(a: Vec, b: Vec): Vec
  {
    Vec(a.x + b.x, a.y + b.y)
  }

  /** Componentwise product with a scalar (`Vector2D.multiply`). */
  function Scale(v: Vec, k: real): Vec
  {
    Vec(v.x * k, v.y * k)
  }

  /** Squared Euclidean distance; comparing it with a squared radius replaces `Math.sqrt`. */
  function DistSq(a: Vec, b: Vec): (r: real)
    ensures 0.0 <= r
  {
    var dx := a.x - b.x;
    var dy := a.y - b.y;
    dx * dx + dy * dy
  }

  /** A square below `r * r` has its root strictly between `-r` and `r`. */
  lemma RootBelow(d: real, r: real)
    requires 0.0 < r
    ensures d * d < r * r ==> -r < d < r
  {
    if d >= r {
      assert d * d >= r * d;
    } else if d <= -r {
      assert d * d >= -r * d;
    }
  }

  /** Points closer than `r` differ by less than `r` along each axis. */
  lemma NearOnAxes(a: Vec, b: Vec, r: real)
    requires 0.0 < r && DistSq(a, b) < r * r
    ensures -r < a.x - b.x < r && -r < a.y - b.y < r
  {
    var dx, dy := a.x - b.x, a.y - b.y;
    assert DistSq(a, b) == dx * dx + dy * dy;
    assert dx * dx < r * r && dy * dy < r * r;
    RootBelow(dx, r);
    RootBelow(dy, r);
  }

  /** `Math.PI` as the double the program uses. */
  const PI: real := 3.141592653589793

  /** One value of `Math.random()`. */
  type Draw = r: real | 0.0 <= r < 1.0

  /** The successive values of `Math.random()`: the k-th call returns `rand(k)`. */
  type Draws = nat -> Draw

  /** The stream that is left after `offset` values have been consumed. */
  function Shifted(rand: Draws, offset: nat): Draws
  {
    k => rand(offset + k)
  }

  /** `(Math.cos(a), Math.sin(a))` for an angle `a`; supplied by the caller. */
  type Heading = real -> Vec
}
