/** The authoritative server: a physics loop that moves the ball and
    broadcasts a snapshot every frame, and one handler per connected player
    that moves that player's paddle on each "UP" or "DOWN" it receives. Both
    run under one lock, so each frame and each command is one atomic step. */
module Server {
  import opened Pong

  /** What the server sends every frame, in this order. */
  datatype Snapshot = Snapshot(paddle1: int, paddle2: int, ballX: int, ballY: int)

  /** One atomic step of the server: a physics frame or one received command. */
  datatype Event = Frame | Command(player: int, message: string)

  const UP: string := "UP"
  const DOWN: string := "DOWN"
  const QUIT: string := "QUIT"

  /** The paddle a player's commands move: player 1 owns the left one and
      every other player number the right one. */
  function Own(c: Court, player: int): int {
    if player == 1 then c.paddle1 else c.paddle2
  }

  function Opponent(c: Court, player: int): int {
    if player == 1 then c.paddle2 else c.paddle1
  }

  /** The tuple the physics loop broadcasts after a frame. */
  function SnapshotOf(c: Court): Snapshot {
    Snapshot(c.paddle1, c.paddle2, c.ball.x, c.ball.y)
  }

  /** One frame of the physics loop. The right-paddle test is made on the
      ball's right edge, which puts the right band at 720 < x < 730. */
  function NextFrame(c: Court): (r: Court)
    ensures r.paddle1 == c.paddle1 && r.paddle2 == c.paddle2
    ensures var x, y := c.ball.x + c.ball.vx, c.ball.y + c.ball.vy;
      r.ball.vx == if (50 < x < 60 && c.paddle1 < y < c.paddle1 + 100) ||
                      (720 < x < 730 && c.paddle2 < y < c.paddle2 + 100) ||
                      x <= 0 || x >= 800
                   then -c.ball.vx else c.ball.vx
    ensures r.ball == BallStep(c.ball, c.paddle1, c.paddle2, BALL_SIZE)
    ensures CourtOk(c) ==> CourtOk(r)
  {
    c.(ball := BallStep(c.ball, c.paddle1, c.paddle2, BALL_SIZE))
  }

  /** The effect of one received message on the court. */
  function ApplyMessage(c: Court, player: int, message: string): (r: Court)
    ensures r.ball == c.ball
    ensures Opponent(r, player) == Opponent(c, player)
    ensures Own(r, player) < Own(c, player) <==> message == UP && Own(c, player) > 0
    ensures Own(r, player) > Own(c, player) <==> message == DOWN && Own(c, player) < PADDLE_MAX
    ensures Own(r, player) == Own(c, player) ||
            Own(r, player) == Own(c, player) - PADDLE_SPEED ||
            Own(r, player) == Own(c, player) + PADDLE_SPEED
    ensures message == UP ==> Own(r, player) == PaddleUp(Own(c, player))
    ensures message == DOWN ==> Own(r, player) == PaddleDown(Own(c, player))
    ensures message != UP && message != DOWN ==> r == c
    ensures CourtOk(c) ==> CourtOk(r)
  {
    if player == 1 then
      if message == UP then c.(paddle1 := PaddleUp(c.paddle1))
      else if message == DOWN then c.(paddle1 := PaddleDown(c.paddle1))
      else c
    else
      if message == UP then c.(paddle2 := PaddleUp(c.paddle2))
      else if message == DOWN then c.(paddle2 := PaddleDown(c.paddle2))
      else c
  }

  function Apply(c: Court, e: Event): Court {
    match e
    case Frame => NextFrame(c)
    case Command(player, message) => ApplyMessage(c, player, message)
  }

  /** The court after the events `es`, oldest first, in whatever order the
      lock let the physics loop and the two handlers through. */
  function Replay(c: Court, es: seq<Event>): Court
    decreases |es|
  {
    if es == [] then c else Apply(Replay(c, es[..|es| - 1]), es[|es| - 1])
  }

  /** The messages of one player as events. */
  function Session(player: int, messages: seq<string>): (es: seq<Event>)
    ensures |es| == |messages|
    ensures forall i :: 0 <= i < |es| ==> es[i] == Command(player, messages[i])
    decreases |messages|
  {
    if messages == [] then []
    else Session(player, messages[..|messages| - 1]) + [Command(player, messages[|messages| - 1])]
  }

  lemma {:induction false} ReplayKeepsCourtOk(c: Court, es: seq<Event>)
    requires CourtOk(c)
    ensures CourtOk(Replay(c, es))
    decreases |es|
  {
    if es != [] {
      ReplayKeepsCourtOk(c, es[..|es| - 1]);
    }
  }

  /** Starting from the opening position, under any interleaving of frames
      and commands from any players, both paddles stay in [0, 500] and the
      ball keeps speed 3 on both axes. */
  lemma {:induction false} Reachable(es: seq<Event>)
    ensures var c := Replay(START_COURT, es);
      0 <= c.paddle1 <= PADDLE_MAX && 0 <= c.paddle2 <= PADDLE_MAX &&
      (c.ball.vx == 3 || c.ball.vx == -3) && (c.ball.vy == 3 || c.ball.vy == -3)
  {
    ReplayKeepsCourtOk(START_COURT, es);
  }

  /** Commands never touch the ball, and only frames move it: a run of one
      player's messages changes nothing but that player's paddle. */
  lemma {:induction false} SessionTouchesOwnPaddleOnly(c: Court, player: int, messages: seq<string>)
    ensures var r := Replay(c, Session(player, messages));
      r.ball == c.ball && Opponent(r, player) == Opponent(c, player)
    decreases |messages|
  {
    if messages != [] {
      var prefix := messages[..|messages| - 1];
      var es := Session(player, messages);
      assert es[..|es| - 1] == Session(player, prefix);
      SessionTouchesOwnPaddleOnly(c, player, prefix);
    }
  }

  /** The globals of the server script that the physics loop and the client
      handlers share. The list of client connections is left out. */
  class GameServer {
    var ballX: int
    var ballY: int
    var ballSpeedX: int
    var ballSpeedY: int
    var paddle1Y: int
    var paddle2Y: int

    function Model(): Court
      reads this
    {
      Court(paddle1Y, paddle2Y, Ball(ballX, ballY, ballSpeedX, ballSpeedY))
    }

    constructor ()
      ensures Model() == START_COURT
    {
      ballX, ballY := CENTER_X, CENTER_Y;
      ballSpeedX, ballSpeedY := BALL_SPEED, BALL_SPEED;
      paddle1Y, paddle2Y := PADDLE_START, PADDLE_START;
    }

    /** The locked body of the physics loop; returns the snapshot it broadcasts. */
    method Step() returns (snapshot: Snapshot)
      modifies this
      ensures Model() == NextFrame(old(Model()))
      ensures snapshot == SnapshotOf(Model())
    {
      ballX := ballX + ballSpeedX;
      ballY := ballY + ballSpeedY;

      if ballY <= 0 || ballY >= SCREEN_HEIGHT - BALL_SIZE {
        ballSpeedY := -ballSpeedY;
      }

      if (PADDLE1_X < ballX < PADDLE1_X + PADDLE_WIDTH && paddle1Y < ballY < paddle1Y + PADDLE_HEIGHT) ||
         (PADDLE2_X < ballX + BALL_SIZE < PADDLE2_X + PADDLE_WIDTH && paddle2Y < ballY < paddle2Y + PADDLE_HEIGHT)
      {
        ballSpeedX := -ballSpeedX;
      }

      if ballX <= 0 || ballX >= SCREEN_WIDTH {
        ballX := CENTER_X;
        ballY := CENTER_Y;
        ballSpeedX := -ballSpeedX;
      }

      snapshot := Snapshot(paddle1Y, paddle2Y, ballX, ballY);
    }

    /** The locked body of a client handler for one received message; `quit`
        tells the handler to stop. */
    method ApplyCommand(player: int, message: string) returns (quit: bool)
      modifies this
      ensures Model() == ApplyMessage(old(Model()), player, message)
      ensures quit <==> message == QUIT
    {
      if player == 1 {
        if message == UP && paddle1Y > 0 {
          paddle1Y := paddle1Y - PADDLE_SPEED;
        } else if message == DOWN && paddle1Y < SCREEN_HEIGHT - PADDLE_HEIGHT {
          paddle1Y := paddle1Y + PADDLE_SPEED;
        }
      } else {
        if message == UP && paddle2Y > 0 {
          paddle2Y := paddle2Y - PADDLE_SPEED;
        } else if message == DOWN && paddle2Y < SCREEN_HEIGHT - PADDLE_HEIGHT {
          paddle2Y := paddle2Y + PADDLE_SPEED;
        }
      }
      quit := message == QUIT;
    }

    /** A client handler's receive loop over the messages that arrive on its
        connection: an empty message means the peer closed the connection
        and ends the loop unapplied; "QUIT" is applied (to no effect) and
        then ends it. Returns how many messages were consumed. */
    method HandleClient(player: int, received: seq<string>) returns (consumed: nat)
      modifies this
      ensures consumed <= |received|
      ensures Model() == Replay(old(Model()), Session(player, received[..consumed]))
      ensures forall i :: 0 <= i < consumed ==> received[i] != ""
      ensures forall i :: 0 <= i < consumed - 1 ==> received[i] != QUIT
      ensures consumed < |received| ==>
                received[consumed] == "" || (0 < consumed && received[consumed - 1] == QUIT)
    {
      consumed := 0;
      var quit := false;
      while consumed < |received| && !quit
        invariant 0 <= consumed <= |received|
        invariant Model() == Replay(old(Model()), Session(player, received[..consumed]))
        invariant forall i :: 0 <= i < consumed ==> received[i] != ""
        invariant forall i :: 0 <= i < consumed - 1 ==> received[i] != QUIT
        invariant quit <==> 0 < consumed && received[consumed - 1] == QUIT
      {
        var message := received[consumed];
        if message == "" {
          break;
        }
        ghost var before := received[..consumed];
        assert received[..consumed + 1] == before + [message];
        assert Session(player, before + [message]) == Session(player, before) + [Command(player, message)];
        quit := ApplyCommand(player, message);
        consumed := consumed + 1;
      }
    }
  }
}
