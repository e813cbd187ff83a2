/** The ball (src/ball.rs): position, size and velocity, with the serve,
    motion, wall-bounce, paddle-collision and out-of-bounds rules. Every
    random draw of the original is a parameter whose precondition is the
    range it is drawn from. */
module Balls {
  import Paddles

  /** Which side, if any, the ball has left the court by. */
  datatype BallOutDirection = Left | Right | None

  /** An axis-aligned box: top-left corner and size. */
  datatype Rect = Rect(x: real, y: real, width: real, height: real)

  /** Horizontal serve speed. */
  const BaseSpeed: real := 100.0
  /** Multiplier applied to the vertical serve draw. */
  const DyScale: real := 1.5
  /** Factor by which a paddle hit amplifies the horizontal speed. */
  const Amplification: real := 1.03
  /** Multiple of the paddle's width by which a hit pushes the ball away. */
  const NudgeFactor: real := 1.3
  /** The vertical serve draw lies in [ServeDrawLow, ServeDrawHigh). */
  const ServeDrawLow: real := -50.0
  const ServeDrawHigh: real := 50.0
  /** The vertical speed after a hit is drawn from [HitDrawLow, HitDrawHigh). */
  const HitDrawLow: real := 10.0
  const HitDrawHigh: real := 150.0

  function Abs(r: real): real
  {
    if r < 0.0 then -r else r
  }

  /** The inclusive box-overlap test of `collides`. */
  predicate Overlap(ball: Rect, paddle: Rect)
  {
    ball.x <= paddle.x + paddle.width
    && ball.x + ball.width >= paddle.x
    && ball.y <= paddle.y + paddle.height
    && ball.y + ball.height >= paddle.y
  }

  /** The point (px, py) lies in the closed box `r`. */
  predicate Contains(r: Rect, px: real, py: real)
  {
    r.x <= px <= r.x + r.width && r.y <= py <= r.y + r.height
  }

  /** For boxes of non-negative size, the overlap test holds exactly when the
      two closed boxes share a point: touching edges count as a hit. */
  lemma OverlapIffCommonPoint(ball: Rect, paddle: Rect)
    requires ball.width >= 0.0 && ball.height >= 0.0
    requires paddle.width >= 0.0 && paddle.height >= 0.0
    ensures Overlap(ball, paddle) <==> exists px, py :: Contains(ball, px, py) && Contains(paddle, px, py)
  {
    if Overlap(ball, paddle) {
      var px := if ball.x < paddle.x then paddle.x else ball.x;
      var py := if ball.y < paddle.y then paddle.y else ball.y;
      assert Contains(ball, px, py) && Contains(paddle, px, py);
    }
  }

  /** The box a paddle occupies. */
  function PaddleRect(p: Paddles.Paddle): Rect
    reads p
  {
    Rect(p.x, p.y, p.width, p.height)
  }

  /** The random horizontal serve: `coin` is whether `gen_range(0, 2)`
      returned 1. */
  function CoinDx(coin: bool): (r: real)
    ensures Abs(r) == BaseSpeed
    ensures r > 0.0 <==> coin
  {
    if coin then BaseSpeed else -BaseSpeed
  }

  /** The horizontal serve of `reset`: toward the side the ball left by, and
      random only when it left by neither. */
  function ServeDx(direction: BallOutDirection, coin: bool): (r: real)
    ensures Abs(r) == BaseSpeed
    ensures direction == Left ==> r < 0.0
    ensures direction == Right ==> r > 0.0
    ensures direction == None ==> (r > 0.0 <==> coin)
  {
    if direction == None then
      CoinDx(coin)
    else
      match direction
      case Left => -BaseSpeed
      case _ => BaseSpeed
  }

  /** The vertical serve: a draw from [-50, 50) widened by 1.5. */
  function ServeDy(draw: real): (r: real)
    requires ServeDrawLow <= draw < ServeDrawHigh
    ensures r == DyScale * draw
    ensures -75.0 <= r < 75.0
    ensures (r < 0.0 <==> draw < 0.0) && (r == 0.0 <==> draw == 0.0)
  {
    draw * DyScale
  }

  /** The horizontal velocity after a paddle hit: reversed and amplified. */
  function Rebound(dx: real): (r: real)
    ensures Abs(r) == Amplification * Abs(dx)
    ensures dx != 0.0 ==> (r < 0.0 <==> dx > 0.0) && Abs(r) > Abs(dx)
    ensures dx == 0.0 ==> r == 0.0
  {
    -dx * Amplification
  }

  /** The vertical velocity after a paddle hit: a fresh size drawn from
      [10, 150), negative exactly when the old velocity was. */
  function HitDy(dy: real, draw: real): (r: real)
    requires HitDrawLow <= draw < HitDrawHigh
    ensures Abs(r) == draw
    ensures HitDrawLow <= Abs(r) < HitDrawHigh
    ensures r < 0.0 <==> dy < 0.0
  {
    if dy < 0.0 then -1.0 * draw else draw
  }

  /** The ball is at or beyond the top or bottom wall. */
  predicate AtWall(y: real, maxY: real)
  {
    y <= 0.0 || y >= maxY
  }

  /** The horizontal velocity after `n` consecutive paddle hits. */
  function Rally(dx: real, n: nat): real
  {
    if n == 0 then dx else Rebound(Rally(dx, n - 1))
  }

  /** Amplification raised to the power `n`. */
  function Gain(n: nat): real
  {
    if n == 0 then 1.0 else Amplification * Gain(n - 1)
  }

  /** Over a rally the horizontal speed grows by the amplification factor
      on every hit, so it strictly increases, and the direction alternates. */
  lemma {:induction false} RallyEscalates(dx: real, n: nat)
    ensures Gain(n) >= 1.0
    ensures Abs(Rally(dx, n)) == Gain(n) * Abs(dx)
    ensures n > 0 && dx != 0.0 ==> Abs(Rally(dx, n)) > Abs(dx)
    ensures dx != 0.0 ==> (Rally(dx, n) > 0.0 <==> (dx > 0.0 <==> n % 2 == 0))
  {
    if n > 0 {
      RallyEscalates(dx, n - 1);
      var g := Gain(n - 1);
      assert Gain(n) == Amplification * g;
      assert Abs(Rally(dx, n)) == Amplification * (g * Abs(dx));
      assert Amplification * (g * Abs(dx)) == (Amplification * g) * Abs(dx);
      if dx != 0.0 {
        assert Abs(dx) > 0.0;
        assert Gain(n) * Abs(dx) > Abs(dx);
      }
    }
  }

  class Ball {
    var x: real
    var y: real
    var width: real
    var height: real
    var dx: real
    var dy: real

    /** The box the ball occupies. */
    function Bounds(): Rect
      reads this
    {
      Rect(x, y, width, height)
    }

    /** `Ball::new`: placed as given, with a random serve. */
    constructor (x: real, y: real, width: real, height: real, coin: bool, draw: real)
      requires ServeDrawLow <= draw < ServeDrawHigh
      ensures this.x == x && this.y == y && this.width == width && this.height == height
      ensures dx == CoinDx(coin) && dy == ServeDy(draw)
      ensures Abs(dx) == BaseSpeed && -75.0 <= dy < 75.0
    {
      this.x := x;
      this.y := y;
      this.width := width;
      this.height := height;
      this.dx := CoinDx(coin);
      this.dy := ServeDy(draw);
    }

    /** `reset`: re-centre the ball on the screen and serve again, toward the
        side it left by (randomly when it left by neither). */
    method Reset(screenWidth: real, screenHeight: real, direction: BallOutDirection, coin: bool, draw: real)
      requires ServeDrawLow <= draw < ServeDrawHigh
      modifies this`x, this`y, this`dx, this`dy
      ensures x == (screenWidth - width) / 2.0 && y == (screenHeight - height) / 2.0
      ensures dx == ServeDx(direction, coin) && dy == ServeDy(draw)
      ensures direction == Left ==> dx == -BaseSpeed
      ensures direction == Right ==> dx == BaseSpeed
      ensures direction == None ==> dx == BaseSpeed || dx == -BaseSpeed
      ensures -75.0 <= dy < 75.0
    {
      x := (screenWidth - width) / 2.0;
      y := (screenHeight - height) / 2.0;
      var newDx := ServeDx(direction, coin);
      var newDy := ServeDy(draw);
      dx := newDx;
      dy := newDy;
    }

    /** `update(dt)`: move by the velocity for `dt` seconds. */
    method Update(dt: real)
      modifies this`x, this`y
      ensures x == old(x) + dx * dt && y == old(y) + dy * dt
      ensures dt == 0.0 ==> x == old(x) && y == old(y)
    {
      x := x + dx * dt;
      y := y + dy * dt;
    }

    /** `bounce(max_y)`: reverse the vertical velocity at the top or bottom
        wall, and do nothing elsewhere. */
    method Bounce(maxY: real)
      modifies this`dy
      ensures AtWall(y, maxY) ==> dy == -old(dy)
      ensures !AtWall(y, maxY) ==> dy == old(dy)
    {
      if y <= 0.0 || y >= maxY {
        dy := dy * -1.0;
      }
    }

    /** `collides(paddle)`: on an inclusive overlap with the paddle, reverse
        and amplify `dx`, push the ball off the paddle's face and redraw the
        size of `dy` keeping its sign; without overlap nothing changes. */
    method Collides(paddle: Paddles.Paddle, draw: real)
      requires HitDrawLow <= draw < HitDrawHigh
      modifies this`x, this`dx, this`dy
      ensures old(Overlap(Bounds(), PaddleRect(paddle))) ==>
        && dx == Rebound(old(dx))
        && dy == HitDy(old(dy), draw)
        && x == (if paddle.side == Paddles.Left then old(x) + paddle.width * NudgeFactor
                 else old(x) - paddle.width * NudgeFactor)
      ensures !old(Overlap(Bounds(), PaddleRect(paddle))) ==>
        x == old(x) && dx == old(dx) && dy == old(dy)
    {
      if x <= paddle.x + paddle.width
        && x + width >= paddle.x
        && y <= paddle.y + paddle.height
        && y + height >= paddle.y
      {
        dx := -dx * Amplification;
        if paddle.side == Paddles.Left {
          x := x + paddle.width * NudgeFactor;
        }
        if paddle.side == Paddles.Right {
          x := x - paddle.width * NudgeFactor;
        }
        if dy < 0.0 {
          dy := -1.0 * draw;
        } else {
          dy := draw;
        }
      }
    }

    /** `check_out(max_x)`: LEFT once the ball is wholly past the left edge,
        otherwise RIGHT once it is past `max_x`, otherwise NONE. */
    function CheckOut(maxX: real): (r: BallOutDirection)
      reads this
      ensures r == Left <==> x <= -width
      ensures r == Right <==> -width < x && maxX < x
      ensures r == None <==> -width < x <= maxX
    {
      if x <= -width then Left
      else if x > maxX then Right
      else None
    }
  }

  /** Two bounces with no motion in between restore the vertical velocity,
      whatever the position and the wall height. */
  method BounceTwiceRestoresDy(ball: Ball, maxY: real)
    modifies ball
    ensures ball.dy == old(ball.dy)
    ensures ball.x == old(ball.x) && ball.y == old(ball.y) && ball.dx == old(ball.dx)
    ensures ball.width == old(ball.width) && ball.height == old(ball.height)
  {
    ball.Bounce(maxY);
    ball.Bounce(maxY);
  }
}
