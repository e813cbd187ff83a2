/** The single-file game of src/bin/main.rs: a self-contained version
    that uses neither `Ball` nor `Paddle`. It keeps integer paddle positions
    and the ball's position and velocity directly in its state, and gates ball motion on a start/play
    state toggled by the Return key. The per-frame paddle step (the
    truncated `PADDLE_SPEED * dt`), the held keys and the random serve draws
    are parameters. */
module MainGame {
  import Balls

  const ScreenWidth: real := 412.0
  const ScreenHeight: real := 240.0
  /** Lowest paddle position: `(SCREEN_HEIGHT - 20.) as i32`. */
  const PaddleLimit: int := (ScreenHeight - 20.0).Floor

  /** The game state, "start" or "play" in the original. */
  datatype GameState = Start | Play

  /** The keys the game reacts to; every other key is `Other`. */
  datatype Key = Return | Escape | Q | Up | Down | W | S | Other

  /** Which movement keys are held during a frame. */
  datatype Held = Held(up: bool, down: bool, w: bool, s: bool)

  /** The whole game state as a value. */
  datatype Snapshot = Snapshot(
    score1: nat, score2: nat,
    y1: int, y2: int,
    ballX: real, ballY: real, ballDx: real, ballDy: real,
    state: GameState)

  /** One thing that happens to the game: a frame, or a key going down. */
  datatype Event = Tick(held: Held, step: nat, dt: real) | Press(key: Key)

  function Max(a: int, b: int): int { if a < b then b else a }
  function Min(a: int, b: int): int { if a < b then a else b }

  /** A paddle position on the court. */
  predicate OnCourt(y: int)
  {
    0 <= y <= PaddleLimit
  }

  /** Moving a paddle up by `step`, stopped at the top. */
  function MoveUp(y: int, step: nat): (r: int)
    ensures OnCourt(y) ==> OnCourt(r)
    ensures 0 <= r && (0 <= y ==> r <= y)
    ensures y - step >= 0 ==> r == y - step
    ensures y - step < 0 ==> r == 0
  {
    Max(0, y - step)
  }

  /** Moving a paddle down by `step`, stopped at the bottom. */
  function MoveDown(y: int, step: nat): (r: int)
    ensures OnCourt(y) ==> OnCourt(r)
    ensures y <= PaddleLimit ==> y <= r
    ensures y + step <= PaddleLimit ==> r == y + step
    ensures y + step > PaddleLimit ==> r == PaddleLimit
  {
    Min(PaddleLimit, y + step)
  }

  /** The Return key: "start" becomes "play", anything else "start". */
  function Toggle(g: GameState): (r: GameState)
    ensures r != g
  {
    if g == Start then Play else Start
  }

  /** `key_down_event`: only Return has an effect on the state, and it
      changes only the game state. */
  function KeyDown(s: Snapshot, key: Key): (r: Snapshot)
    ensures r.(state := s.state) == s
    ensures r.state != s.state <==> key == Return
  {
    if key == Return then s.(state := Toggle(s.state)) else s
  }

  /** `update`: Up then Down move the right paddle, W then S the left one,
      each as a separate rule, and the ball moves only in play. */
  function Frame(s: Snapshot, held: Held, step: nat, dt: real): (r: Snapshot)
    ensures r.score1 == s.score1 && r.score2 == s.score2
    ensures r.ballDx == s.ballDx && r.ballDy == s.ballDy && r.state == s.state
    ensures OnCourt(s.y1) ==> OnCourt(r.y1)
    ensures OnCourt(s.y2) ==> OnCourt(r.y2)
    ensures !held.w && !held.s ==> r.y1 == s.y1
    ensures !held.up && !held.down ==> r.y2 == s.y2
    ensures held.up && !held.down ==> r.y2 == MoveUp(s.y2, step)
    ensures !held.up && held.down ==> r.y2 == MoveDown(s.y2, step)
    ensures held.up && held.down ==> r.y2 == MoveDown(MoveUp(s.y2, step), step)
    ensures held.w && !held.s ==> r.y1 == MoveUp(s.y1, step)
    ensures !held.w && held.s ==> r.y1 == MoveDown(s.y1, step)
    ensures held.w && held.s ==> r.y1 == MoveDown(MoveUp(s.y1, step), step)
    ensures s.state == Start ==> r.ballX == s.ballX && r.ballY == s.ballY
    ensures s.state == Play ==> r.ballX == s.ballX + s.ballDx * dt && r.ballY == s.ballY + s.ballDy * dt
  {
    var y2 := if held.up then MoveUp(s.y2, step) else s.y2;
    var y2 := if held.down then MoveDown(y2, step) else y2;
    var y1 := if held.w then MoveUp(s.y1, step) else s.y1;
    var y1 := if held.s then MoveDown(y1, step) else y1;
    if s.state == Play then
      s.(y1 := y1, y2 := y2, ballX := s.ballX + s.ballDx * dt, ballY := s.ballY + s.ballDy * dt)
    else
      s.(y1 := y1, y2 := y2)
  }

  /** The effect of one event. */
  function Apply(s: Snapshot, e: Event): Snapshot
  {
    match e
    case Tick(held, step, dt) => Frame(s, held, step, dt)
    case Press(key) => KeyDown(s, key)
  }

  /** The effect of a sequence of events, in order. */
  function Run(s: Snapshot, events: seq<Event>): Snapshot
    decreases |events|
  {
    if events == [] then s else Run(Apply(s, events[0]), events[1..])
  }

  /** How many times Return goes down in `events`. */
  function Returns(events: seq<Event>): nat
    decreases |events|
  {
    if events == [] then 0
    else (if events[0] == Press(Return) then 1 else 0) + Returns(events[1..])
  }

  /** No sequence of frames and key presses changes the scores or the ball's
      velocity. */
  lemma {:induction false} RunKeepsScoresAndVelocity(s: Snapshot, events: seq<Event>)
    ensures Run(s, events).score1 == s.score1 && Run(s, events).score2 == s.score2
    ensures Run(s, events).ballDx == s.ballDx && Run(s, events).ballDy == s.ballDy
    decreases |events|
  {
    if events != [] {
      RunKeepsScoresAndVelocity(Apply(s, events[0]), events[1..]);
    }
  }

  /** Paddles that start on the court stay on it, whatever the keys, steps
      and state changes. */
  lemma {:induction false} RunKeepsPaddlesOnCourt(s: Snapshot, events: seq<Event>)
    requires OnCourt(s.y1) && OnCourt(s.y2)
    ensures OnCourt(Run(s, events).y1) && OnCourt(Run(s, events).y2)
    decreases |events|
  {
    if events != [] {
      RunKeepsPaddlesOnCourt(Apply(s, events[0]), events[1..]);
    }
  }

  /** The game state after a sequence of events is decided by the parity of
      the Return presses: an even number leaves it as it was. */
  lemma {:induction false} RunStateFollowsReturns(s: Snapshot, events: seq<Event>)
    ensures Run(s, events).state == (if Returns(events) % 2 == 0 then s.state else Toggle(s.state))
    decreases |events|
  {
    if events != [] {
      RunStateFollowsReturns(Apply(s, events[0]), events[1..]);
    }
  }

  /** In the start state, without a Return press, the ball does not move,
      however many frames pass and however long they are. */
  lemma {:induction false} StartFreezesBall(s: Snapshot, events: seq<Event>)
    requires s.state == Start
    requires Returns(events) == 0
    ensures Run(s, events).state == Start
    ensures Run(s, events).ballX == s.ballX && Run(s, events).ballY == s.ballY
    decreases |events|
  {
    if events != [] {
      StartFreezesBall(Apply(s, events[0]), events[1..]);
    }
  }

  class MainState {
    var playerScore1: nat
    var playerScore2: nat
    var playerY1: int
    var playerY2: int
    var ballX: real
    var ballY: real
    var ballDx: real
    var ballDy: real
    var gameState: GameState

    /** The current state as a value. */
    function Snap(): Snapshot
      reads this
    {
      Snapshot(playerScore1, playerScore2, playerY1, playerY2, ballX, ballY, ballDx, ballDy, gameState)
    }

    /** `MainState::new`: scores 0, paddles at 30 and 190, the ball at the
        centre with a random serve, in the start state. */
    constructor (coin: bool, draw: real)
      requires Balls.ServeDrawLow <= draw < Balls.ServeDrawHigh
      ensures playerScore1 == 0 && playerScore2 == 0
      ensures playerY1 == 30 && playerY2 == 190
      ensures OnCourt(playerY1) && OnCourt(playerY2)
      ensures ballX == 204.0 && ballY == 118.0
      ensures ballDx == Balls.CoinDx(coin) && ballDy == Balls.ServeDy(draw)
      ensures ballDx == 100.0 || ballDx == -100.0
      ensures gameState == Start
    {
      playerScore1 := 0;
      playerScore2 := 0;
      playerY1 := 30;
      playerY2 := ScreenHeight.Floor - 50;
      ballX := ScreenWidth / 2.0 - 2.0;
      ballY := ScreenHeight / 2.0 - 2.0;
      ballDx := Balls.CoinDx(coin);
      ballDy := Balls.ServeDy(draw);
      gameState := Start;
    }

    /** `update`: one frame with the given held keys, paddle step and
        elapsed time. */
    method Update(held: Held, step: nat, dt: real)
      modifies this
      ensures Snap() == Frame(old(Snap()), held, step, dt)
    {
      if held.up {
        playerY2 := Max(0, playerY2 - step);
      }
      if held.down {
        playerY2 := Min(PaddleLimit, playerY2 + step);
      }
      if held.w {
        playerY1 := Max(0, playerY1 - step);
      }
      if held.s {
        playerY1 := Min(PaddleLimit, playerY1 + step);
      }
      if gameState == Play {
        ballX := ballX + ballDx * dt;
        ballY := ballY + ballDy * dt;
      }
    }

    /** `key_down_event`: Return toggles the game state. */
    method KeyDownEvent(key: Key)
      modifies this`gameState
      ensures Snap() == KeyDown(old(Snap()), key)
      ensures key == Return && old(gameState) == Start ==> gameState == Play
      ensures key == Return && old(gameState) == Play ==> gameState == Start
    {
      if key == Return {
        if gameState == Start {
          gameState := Play;
        } else {
          gameState := Start;
        }
      }
    }
  }
}
