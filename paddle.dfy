/** A paddle (src/paddle.rs): a rectangle that moves vertically at velocity
    `dy` and is clamped into the playfield after every move. Positions and
    velocities are mathematical reals; the f32/f64 conversions of the
    original are not modelled. */
module Paddles {

  /** Which side of the court a paddle defends; the ball's collision rule
      nudges the ball away from the paddle according to this side. */
  datatype Side = Left | Right

  /** Distance between two reals. */
  function Dist(a: real, b: real): real
  {
    if a < b then b - a else a - b
  }

  /** The clamp applied by `update`: a value below 0 becomes 0, otherwise a
      value above `hi` becomes `hi`; a value in range is kept. */
  function Clamp(v: real, hi: real): (r: real)
    ensures 0.0 <= hi ==> 0.0 <= r <= hi
    ensures 0.0 <= v <= hi ==> r == v
    ensures r == v || r == 0.0 || r == hi
  {
    if v < 0.0 then 0.0 else if v > hi then hi else v
  }

  /** When the interval is not empty, the clamp returns the point of [0, hi]
      nearest to `v`, and clamping twice is the same as clamping once. */
  lemma ClampIsNearestPoint(v: real, hi: real)
    requires 0.0 <= hi
    ensures forall z :: 0.0 <= z <= hi ==> Dist(Clamp(v, hi), v) <= Dist(z, v)
    ensures Clamp(Clamp(v, hi), hi) == Clamp(v, hi)
  {
  }

  class Paddle {
    var x: real
    var y: real
    var width: real
    var height: real
    var dy: real
    const maxX: real
    const maxY: real
    const side: Side

    /** The playfield bound every `Update` re-establishes when the paddle
        fits in the playfield. */
    ghost predicate InBounds()
      reads this
    {
      0.0 <= y <= maxY - height
    }

    /** `Paddle::new`: stores the geometry as given, at rest. Nothing is
        validated, so a paddle may start out of bounds. */
    constructor (x: real, y: real, width: real, height: real, maxX: real, maxY: real, side: Side)
      ensures this.x == x && this.y == y && this.width == width && this.height == height
      ensures this.maxX == maxX && this.maxY == maxY && this.side == side
      ensures dy == 0.0
    {
      this.x := x;
      this.y := y;
      this.width := width;
      this.height := height;
      this.dy := 0.0;
      this.maxX := maxX;
      this.maxY := maxY;
      this.side := side;
    }

    /** `update(dt)`: move by `dy * dt`, then clamp into [0, maxY - height].
        Only `y` changes. */
    method Update(dt: real)
      modifies this`y
      ensures y == Clamp(old(y) + dy * dt, maxY - height)
      ensures height <= maxY ==> InBounds()
      ensures 0.0 <= old(y) + dy * dt <= maxY - height ==> y == old(y) + dy * dt
      ensures dy == 0.0 && old(InBounds()) ==> y == old(y)
    {
      y := y + dy * dt;
      if y < 0.0 {
        y := 0.0;
      } else if y > maxY - height {
        y := maxY - height;
      }
    }

    /** `set_dy(v)`: overwrite the velocity and nothing else. */
    method SetDy(v: real)
      modifies this`dy
      ensures dy == v
    {
      dy := v;
    }
  }
}
