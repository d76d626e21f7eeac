/** The court, the paddles and the ball shared by every variant of the game:
    the constants each script defines at its top, the guarded paddle moves
    and the one-tick ball physics (move, bounce off the walls, bounce off a
    paddle, reset when it leaves the court sideways). */
module Pong {

  const SCREEN_WIDTH: int := 800
  const SCREEN_HEIGHT: int := 600
  const PADDLE_WIDTH: int := 10
  const PADDLE_HEIGHT: int := 100
  const BALL_SIZE: int := 20
  const PADDLE_SPEED: int := 5
  const BALL_SPEED: int := 3

  /** Left edge of the left and of the right paddle. */
  const PADDLE1_X: int := 50
  const PADDLE2_X: int := SCREEN_WIDTH - 50 - PADDLE_WIDTH

  /** Both paddles start vertically centred: (600 - 100) // 2 = 250. */
  const PADDLE_START: int := (SCREEN_HEIGHT - PADDLE_HEIGHT) / 2
  /** The lowest top edge a paddle may be moved down from. */
  const PADDLE_MAX: int := SCREEN_HEIGHT - PADDLE_HEIGHT
  /** The ball bounces once its top edge reaches this value. */
  const BALL_MAX_Y: int := SCREEN_HEIGHT - BALL_SIZE

  const CENTER_X: int := SCREEN_WIDTH / 2
  const CENTER_Y: int := SCREEN_HEIGHT / 2

  /** Position (top-left corner) and velocity of the ball. */
  datatype Ball = Ball(x: int, y: int, vx: int, vy: int)

  const START_BALL: Ball := Ball(CENTER_X, CENTER_Y, BALL_SPEED, BALL_SPEED)

  /** Both paddles and the ball: the state of the local game and of the server. */
  datatype Court = Court(paddle1: int, paddle2: int, ball: Ball)

  const START_COURT: Court := Court(PADDLE_START, PADDLE_START, START_BALL)

  // ---------------------------------------------------------------- paddles

  /** Every top edge a paddle can reach from PADDLE_START in steps of PADDLE_SPEED. */
  predicate PaddleOk(y: int) {
    0 <= y <= PADDLE_MAX && y % PADDLE_SPEED == 0
  }

  /** Moving up (W, UP arrow or the "UP" command) is refused at the top edge. */
  function PaddleUp(y: int): (r: int)
    ensures r == y || r == y - PADDLE_SPEED
    ensures r < y <==> y > 0
    ensures PaddleOk(y) ==> PaddleOk(r)
  {
    if y > 0 then y - PADDLE_SPEED else y
  }

  /** Moving down (S, DOWN arrow or the "DOWN" command) is refused once the
      paddle's bottom touches the bottom of the screen. */
  function PaddleDown(y: int): (r: int)
    ensures r == y || r == y + PADDLE_SPEED
    ensures r > y <==> y < PADDLE_MAX
    ensures PaddleOk(y) ==> PaddleOk(r)
  {
    if y < PADDLE_MAX then y + PADDLE_SPEED else y
  }

  /** One tick of keyboard input on one paddle: the up key is tested first and
      the down key second, each against the paddle's position at that moment. */
  function PaddleInput(y: int, up: bool, down: bool): (r: int)
    ensures !up && !down ==> r == y
    ensures up && !down ==> r == PaddleUp(y)
    ensures down && !up ==> r == PaddleDown(y)
    ensures up && down && PaddleOk(y) ==> r == (if y == 0 then PADDLE_SPEED else y)
    ensures PaddleOk(y) ==> PaddleOk(r)
  {
    var afterUp := if up then PaddleUp(y) else y;
    if down then PaddleDown(afterUp) else afterUp
  }

  // ------------------------------------------------------------------- ball

  /** |vx| and |vy| are the starting speed: they are only ever negated. */
  predicate SpeedOk(b: Ball) {
    (b.vx == BALL_SPEED || b.vx == -BALL_SPEED) &&
    (b.vy == BALL_SPEED || b.vy == -BALL_SPEED)
  }

  /** What holds of the ball in every reachable state: it is strictly inside
      the court horizontally, at most one step past a wall vertically, and a
      ball at or past a wall is already moving away from it. */
  predicate BallOk(b: Ball) {
    SpeedOk(b) &&
    0 < b.x < SCREEN_WIDTH &&
    -BALL_SPEED < b.y < BALL_MAX_Y + BALL_SPEED &&
    (b.y <= 0 ==> b.vy > 0) &&
    (b.y >= BALL_MAX_Y ==> b.vy < 0)
  }

  predicate CourtOk(c: Court) {
    PaddleOk(c.paddle1) && PaddleOk(c.paddle2) && BallOk(c.ball)
  }

  predicate HitsWall(y: int) {
    y <= 0 || y >= BALL_MAX_Y
  }

  predicate OutOfBounds(x: int) {
    x <= 0 || x >= SCREEN_WIDTH
  }

  /** y lies strictly between the top and the bottom of a paddle whose top is `top`. */
  predicate InPaddleSpan(top: int, y: int) {
    top < y < top + PADDLE_HEIGHT
  }

  /** The ball touches a paddle: the left test is made on the ball's x, the
      right test on x + reach (reach is 0 in the local and peer games and
      BALL_SIZE on the server, which tests the ball's right edge). */
  predicate PaddleContact(x: int, y: int, left: int, right: int, reach: int) {
    (PADDLE1_X < x < PADDLE1_X + PADDLE_WIDTH && InPaddleSpan(left, y)) ||
    (PADDLE2_X < x + reach < PADDLE2_X + PADDLE_WIDTH && InPaddleSpan(right, y))
  }

  /** One tick of ball physics against paddles whose tops are `left` and `right`. */
  function BallStep(b: Ball, left: int, right: int, reach: int): (r: Ball)
    requires 0 <= reach <= BALL_SIZE
    ensures OutOfBounds(b.x + b.vx) ==> r.x == CENTER_X && r.y == CENTER_Y
    ensures !OutOfBounds(b.x + b.vx) ==> r.x == b.x + b.vx && r.y == b.y + b.vy
    ensures r.vy == if HitsWall(b.y + b.vy) then -b.vy else b.vy
    // the paddle bands and the side-out region are disjoint, so vx flips at most once
    ensures r.vx == if PaddleContact(b.x + b.vx, b.y + b.vy, left, right, reach) || OutOfBounds(b.x + b.vx)
                    then -b.vx else b.vx
    ensures 0 < r.x < SCREEN_WIDTH
    ensures SpeedOk(b) ==> SpeedOk(r)
    ensures BallOk(b) ==> BallOk(r)
  {
    var x, y := b.x + b.vx, b.y + b.vy;
    var vy := if HitsWall(y) then -b.vy else b.vy;
    var vx := if PaddleContact(x, y, left, right, reach) then -b.vx else b.vx;
    if OutOfBounds(x) then Ball(CENTER_X, CENTER_Y, -vx, vy) else Ball(x, y, vx, vy)
  }
}
