/** `Vector2` with real components. Positions and velocities are only
    compared, scaled and negated; lengths and normalised directions need a
    square root and are supplied by the caller as per-frame inputs. */
module Vectors {

  datatype Vec2 = Vec2(x: real, y: real) {

    function Neg(): Vec2 { Vec2(-x, -y) }

    function Scale(k: real): Vec2 { Vec2(k * x, k * y) }

    function Minus(o: Vec2): Vec2 { Vec2(x - o.x, y - o.y) }

    function Dot(o: Vec2): real { x * o.x + y * o.y }
  }

  const Zero: Vec2 := Vec2(0.0, 0.0)
  const Left: Vec2 := Vec2(-1.0, 0.0)
  const Right: Vec2 := Vec2(1.0, 0.0)

  /** `d` is `Vector2.Distance(a, b)`. */
  predicate IsDistance(d: real, a: Vec2, b: Vec2)
  {
    var v := a.Minus(b);
    d >= 0.0 && d * d == v.Dot(v)
  }

  /** `u` is `(to - from).normalized`, where `d` is the distance between
      the two points: zero for coincident points. */
  predicate IsDirection(u: Vec2, from: Vec2, to: Vec2, d: real)
  {
    IsDistance(d, to, from)
    && (d > 0.0 ==> u.Scale(d) == to.Minus(from))
    && (d == 0.0 ==> u == Zero)
  }

  /** A horizontal unit direction: the only values a walking or hanging enemy's
      `moveDirection` takes. */
  predicate Horizontal(d: Vec2)
  {
    d == Left || d == Right
  }

  /** `v.normalized` for a vector on the x axis. */
  function NormalizedHorizontal(v: Vec2): (r: Vec2)
    requires v.y == 0.0
    ensures v.x > 0.0 ==> r == Right
    ensures v.x < 0.0 ==> r == Left
    ensures v.x == 0.0 ==> r == Zero
  {
    if v.x > 0.0 then Right else if v.x < 0.0 then Left else Zero
  }
}
