# Pong simulation rules, modelled in Dafny

This project models the simulation rules of a small Pong game written in Rust
on the ggez engine. There are three parts:

- **Paddles** (`paddle.dfy`, from `src/paddle.rs`). A paddle moves vertically
  at velocity `dy`. After every move its `y` is clamped into
  `[0, max_y - height]`.
- **Balls** (`ball.dfy`, from `src/ball.rs`). These are the ball's rules:
  - the serve and the re-serve after the ball leaves the court, biased toward
    the side it left by;
  - motion by `velocity * dt`;
  - the vertical reversal at the top and bottom walls;
  - the inclusive box-overlap collision with a paddle, which reverses and
    amplifies `dx`, pushes the ball off the paddle and redraws the size of
    `dy` while keeping its sign;
  - the three-way out-of-bounds classification.
- **MainGame** (`main.dfy`, from `src/bin/main.rs`). This is a
  self-contained version of the game with its own fields. It keeps integer
  paddle positions that are clamped with `max`/`min`, and the ball's position
  and velocity as plain fields. The ball moves only in the "play" state, and the Return key toggles
  between "start" and "play". It does not use the `Ball` or `Paddle` types, so
  it is modelled separately. Its serve draw is the same as the ball's, so it
  reuses `Balls.CoinDx` and `Balls.ServeDy`.

Each record that the source updates in place is a class with the same fields.
Each state-changing method states the new state exactly.

- Pure rules are functions. The clamp, the serve velocities, the rebound and
  `check_out` are functions whose contracts say what they mean. The overlap
  test `Overlap` and the wall test `AtWall` are predicates. The lemma
  `OverlapIffCommonPoint` states what `Overlap` means.
- The single-file game has a value `Snapshot`, and the class's methods are
  proved equal to the functions `Frame` and `KeyDown` on that value.
- Lemmas over arbitrary sequences of frames and key presses state what the
  game keeps. These are the scores, the ball's velocity, the paddles staying
  on the court, the state parity of Return presses, and a ball frozen in
  "start".

Positions and velocities are mathematical reals. Every random draw is a
parameter whose precondition is the range it is drawn from:

- `coin` is whether `gen_range(0, 2)` returned 1;
- the serve draw is in `[-50, 50)`;
- the hit draw is in `[10, 150)`.

`src/ball.rs` reads `paddle.direction` of type `PaddleDirection`, but the
`Paddle` of `src/paddle.rs` has no such field. The model therefore gives the
paddle a constant `side: Side` (`Left | Right`) for the collision rule to read.

Three facts about the source shape the model:

- `gen_range(10., 150.)` draws from the half-open range `[10, 150)`, so a hit
  redraws the size of `dy` from `[10, 150)` (src/ball.rs:103-107).
- In the single-file game, the four key rules are separate `if` blocks
  (src/bin/main.rs:79-99). Up and Down held together both apply, Up first,
  and the same holds for W and S.
- None of src/ball.rs, src/paddle.rs or src/bin/main.rs increments a score
  or calls `check_out`/`reset`, so no scoring step is modelled.

## Model

| member | source | states |
|---|---|---|
| Paddles.Clamp | src/paddle.rs:30-34 | when `0 <= hi` the result lies in `[0, hi]`; a value already in range is kept; otherwise the result is one of the two bounds |
| Paddles.ClampIsNearestPoint | src/paddle.rs:29-34 | for a non-empty range the clamp gives the point of `[0, hi]` nearest to the moved position, and clamping is idempotent |
| Paddles.Paddle.constructor | src/paddle.rs:16-26 | every geometry field is stored as given and `dy = 0` |
| Paddles.Paddle.Update | src/paddle.rs:28-35 | `y` becomes the clamp of `y + dy*dt`; if `max_y >= height` the paddle is in `[0, max_y - height]` for any old `y`, `dy` or `dt`; an in-range move is taken exactly; at rest and in range `y` is unchanged; only `y` changes |
| Paddles.Paddle.SetDy | src/paddle.rs:37-39 | `dy` becomes the given value and nothing else changes |
| Balls.OverlapIffCommonPoint | src/ball.rs:86-89 | for boxes of non-negative size, the collision test holds exactly when the two closed boxes share a point, so touching edges count |
| Balls.CoinDx | src/ball.rs:24-27 | the random serve has speed 100 and is rightward exactly when the coin draw is 1 |
| Balls.ServeDx | src/ball.rs:44-54 | the re-serve has speed 100; it goes left (`dx < 0`) after LEFT and right after RIGHT; it is random only after NONE |
| Balls.ServeDy | src/ball.rs:56 | the vertical serve is exactly 1.5 times a draw in `[-50, 50)`, so `-75 <= dy < 75`, with the draw's sign |
| Balls.Rebound | src/ball.rs:92 | a hit multiplies `|dx|` by 1.03; a non-zero `dx` flips sign and strictly grows in size; zero stays zero |
| Balls.HitDy | src/ball.rs:103-107 | after a hit `|dy|` equals the draw, so it lies in `[10, 150)`, and `dy` is negative exactly when the old `dy` was, so a zero `dy` becomes positive |
| Balls.RallyEscalates | src/ball.rs:92 | after `n` consecutive hits `|dx|` is `1.03^n` times its start, so it strictly grows, and the sign alternates with each hit |
| Balls.Ball.constructor | src/ball.rs:22-38 | the ball is placed as given, with `|dx| = 100` from the coin and `dy = 1.5*draw` in `[-75, 75)` |
| Balls.Ball.Reset | src/ball.rs:40-60 | the ball is re-centred at `((w - width)/2, (h - height)/2)`; `dx = -100` after LEFT, `100` after RIGHT and `±100` after NONE; `dy` is in `[-75, 75)`; the size is unchanged |
| Balls.Ball.Update | src/ball.rs:62-65 | the position advances by `velocity*dt` and the velocity and size are unchanged; with `dt = 0` the position is unchanged |
| Balls.Ball.Bounce | src/ball.rs:79-83 | `dy` is negated exactly when `y <= 0` or `y >= max_y` (the predicate `AtWall`), and nothing else changes |
| Balls.BounceTwiceRestoresDy | src/ball.rs:79-83 | two bounces without motion restore `dy` and leave the position, `dx` and the size unchanged |
| Balls.Ball.Collides | src/ball.rs:85-109 | on an inclusive overlap (the predicate `Overlap` of the ball's and the paddle's boxes) `dx` rebounds, `x` moves `1.3*paddle.width` away from a LEFT paddle or toward the left from a RIGHT paddle, and `dy` is redrawn keeping its sign; without overlap `x`, `dx` and `dy` are unchanged; `y` and the size never change |
| Balls.Ball.CheckOut | src/ball.rs:111-119 | LEFT iff `x <= -width`; RIGHT iff `x > max_x` and not LEFT; NONE iff `-width < x <= max_x`; the three cases cover every `x` and nothing changes |
| MainGame.MoveUp | src/bin/main.rs:79-81 | moving up never leaves the court and never goes below 0; a step that fits is taken exactly, and one that overshoots stops at exactly 0 |
| MainGame.MoveDown | src/bin/main.rs:83-88 | moving down never leaves the court and never goes past 220; a step that fits is taken exactly, and one that overshoots stops at exactly 220 |
| MainGame.Toggle | src/bin/main.rs:189-193 | Return always changes the state, so "start" becomes "play" and "play" becomes "start" |
| MainGame.KeyDown | src/bin/main.rs:177-195 | a key changes nothing but the game state, and changes it exactly when the key is Return |
| MainGame.Frame | src/bin/main.rs:75-107 | a frame keeps the scores, the ball's velocity and the state; paddles on the court stay on it; W/S move only the left paddle and Up/Down only the right one; a single held key applies its own move; both keys held apply in sequence, up first; the ball moves by `velocity*dt` in play and not at all in start |
| MainGame.RunKeepsScoresAndVelocity | src/bin/main.rs:75-107 | no sequence of frames and key presses changes either score or the ball's velocity |
| MainGame.RunKeepsPaddlesOnCourt | src/bin/main.rs:79-99 | paddles that start in `[0, 220]` stay there through any sequence of frames and key presses |
| MainGame.RunStateFollowsReturns | src/bin/main.rs:188-194 | after any sequence of events the state is the old one after an even number of Return presses and the other one after an odd number |
| MainGame.StartFreezesBall | src/bin/main.rs:101-104 | in "start", with no Return press, the ball stays put through any number of frames of any length |
| MainGame.MainState.constructor | src/bin/main.rs:39-71 | both scores are 0, the paddles are at 30 and 190, the ball is at (204, 118) with `dx = ±100` and `dy` in `[-75, 75)`, and the state is "start" |
| MainGame.MainState.Update | src/bin/main.rs:75-107 | the new state is `Frame` of the old one for the held keys, the step and `dt` |
| MainGame.MainState.KeyDownEvent | src/bin/main.rs:177-195 | the new state is `KeyDown` of the old one, so Return toggles start and play and nothing else changes |

## Left out

- Rendering and windowing are not modelled because they are graphics calls into ggez. This covers `render` of the ball and the paddle, `draw`, the `message` text field, font loading and `main`.
- Random number generation is not modelled. Each draw is a parameter that is required to lie in its range.
- Floating-point rounding is not modelled. The `f32`/`f64` conversions are replaced by exact real arithmetic, and no claim is made about IEEE rounding.
- Frame timing and keyboard polling are not modelled. `timer::delta` becomes the `dt` parameter, `(PADDLE_SPEED as f64 * dt) as i32` becomes the non-negative integer `step`, and `is_key_pressed` becomes the booleans of `Held`.
- MainGame.MainState.Update: does not model `i32` overflow of `player_y + step`, because `step` is an unbounded integer. In the source that sum can overflow only for a frame longer than about ten million seconds.
- Quitting on Escape or Q is not modelled because it is a side effect on the event loop. Those keys change no game state in the model.
- Scoring and the re-serve after the ball leaves the court are not modelled. None of src/ball.rs, src/paddle.rs or src/bin/main.rs increments a score or calls `check_out`/`reset`.
