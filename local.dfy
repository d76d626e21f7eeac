/** The single-machine game: both players share one keyboard, W/S drive the
    left paddle and the arrow keys the right one, and every frame moves the
    paddles first and then the ball. */
module Local {
  import opened Pong

  /** The keys held down during one frame. */
  datatype Keys = Keys(w: bool, s: bool, up: bool, down: bool)

  /** One frame: paddle input, then ball physics against the moved paddles. */
  function Next(c: Court, k: Keys): (r: Court)
    ensures !k.w && !k.s ==> r.paddle1 == c.paddle1
    ensures !k.up && !k.down ==> r.paddle2 == c.paddle2
    ensures r.paddle1 == PaddleInput(c.paddle1, k.w, k.s)
    ensures r.paddle2 == PaddleInput(c.paddle2, k.up, k.down)
    ensures r.ball == BallStep(c.ball, r.paddle1, r.paddle2, 0)
    ensures CourtOk(c) ==> CourtOk(r)
  {
    var p1 := PaddleInput(c.paddle1, k.w, k.s);
    var p2 := PaddleInput(c.paddle2, k.up, k.down);
    Court(p1, p2, BallStep(c.ball, p1, p2, 0))
  }

  /** The court after the frames `ks`, oldest first. */
  function Run(c: Court, ks: seq<Keys>): Court
    decreases |ks|
  {
    if ks == [] then c else Next(Run(c, ks[..|ks| - 1]), ks[|ks| - 1])
  }

  lemma {:induction false} RunKeepsCourtOk(c: Court, ks: seq<Keys>)
    requires CourtOk(c)
    ensures CourtOk(Run(c, ks))
    decreases |ks|
  {
    if ks != [] {
      RunKeepsCourtOk(c, ks[..|ks| - 1]);
    }
  }

  /** Whatever keys are pressed, from the opening position both paddles stay
      in [0, 500], both ball speeds stay at magnitude 3 and the ball stays on
      the court. */
  lemma {:induction false} Reachable(ks: seq<Keys>)
    ensures var c := Run(START_COURT, ks);
      0 <= c.paddle1 <= PADDLE_MAX && 0 <= c.paddle2 <= PADDLE_MAX &&
      (c.ball.vx == 3 || c.ball.vx == -3) && (c.ball.vy == 3 || c.ball.vy == -3) &&
      0 < c.ball.x < SCREEN_WIDTH
  {
    RunKeepsCourtOk(START_COURT, ks);
  }

  /** The module globals of the script: paddles and ball. */
  class Game {
    var paddle1Y: int
    var paddle2Y: int
    var ballX: int
    var ballY: int
    var ballSpeedX: int
    var ballSpeedY: int

    function Model(): Court
      reads this
    {
      Court(paddle1Y, paddle2Y, Ball(ballX, ballY, ballSpeedX, ballSpeedY))
    }

    constructor ()
      ensures Model() == START_COURT
    {
      paddle1Y, paddle2Y := PADDLE_START, PADDLE_START;
      ballX, ballY := CENTER_X, CENTER_Y;
      ballSpeedX, ballSpeedY := BALL_SPEED, BALL_SPEED;
    }

    /** The body of the frame loop, without the drawing. */
    method Tick(k: Keys)
      modifies this
      ensures Model() == Next(old(Model()), k)
    {
      HandleKeys(k);
      MoveBall();
    }

    /** Key press handling: each paddle moves at most one step per key. */
    method HandleKeys(k: Keys)
      modifies this
      ensures paddle1Y == PaddleInput(old(paddle1Y), k.w, k.s)
      ensures paddle2Y == PaddleInput(old(paddle2Y), k.up, k.down)
      ensures Model().ball == old(Model()).ball
    {
      if k.w && paddle1Y > 0 {
        paddle1Y := paddle1Y - PADDLE_SPEED;
      }
      if k.s && paddle1Y < SCREEN_HEIGHT - PADDLE_HEIGHT {
        paddle1Y := paddle1Y + PADDLE_SPEED;
      }
      if k.up && paddle2Y > 0 {
        paddle2Y := paddle2Y - PADDLE_SPEED;
      }
      if k.down && paddle2Y < SCREEN_HEIGHT - PADDLE_HEIGHT {
        paddle2Y := paddle2Y + PADDLE_SPEED;
      }
    }

    /** Ball movement, wall and paddle collisions, and the reset on a side-out. */
    method MoveBall()
      modifies this
      ensures Model() == old(Model()).(ball := BallStep(old(Model()).ball, paddle1Y, paddle2Y, 0))
    {
      ballX := ballX + ballSpeedX;
      ballY := ballY + ballSpeedY;

      if ballY <= 0 || ballY >= SCREEN_HEIGHT - BALL_SIZE {
        ballSpeedY := -ballSpeedY;
      }

      if (PADDLE1_X < ballX < PADDLE1_X + PADDLE_WIDTH && paddle1Y < ballY < paddle1Y + PADDLE_HEIGHT) ||
         (PADDLE2_X < ballX < PADDLE2_X + PADDLE_WIDTH && paddle2Y < ballY < paddle2Y + PADDLE_HEIGHT)
      {
        ballSpeedX := -ballSpeedX;
      }

      if ballX <= 0 || ballX >= SCREEN_WIDTH {
        ballX := CENTER_X;
        ballY := CENTER_Y;
        ballSpeedX := -ballSpeedX;
      }
    }

    /** The frame loop, one element of `ks` per frame. */
    method Play(ks: seq<Keys>)
      modifies this
      ensures Model() == Run(old(Model()), ks)
      ensures CourtOk(old(Model())) ==> CourtOk(Model())
    {
      var i := 0;
      while i < |ks|
        invariant 0 <= i <= |ks|
        invariant Model() == Run(old(Model()), ks[..i])
      {
        assert ks[..i + 1][..i] == ks[..i];
        Tick(ks[i]);
        i := i + 1;
      }
      assert ks[..|ks|] == ks;
      if CourtOk(old(Model())) {
        RunKeepsCourtOk(old(Model()), ks);
      }
    }
  }
}
