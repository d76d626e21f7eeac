/** The thin client of the server game: it never moves a paddle itself. It
    sends one command per pressed key and shows whatever the server's latest
    snapshot says, with its own paddle picked out by its player number. */
module Client {
  import opened Pong
  import Server

  /** The keys held down during one frame. */
  datatype Keys = Keys(w: bool, s: bool, escape: bool)

  /** What the client draws: its own paddle, the opponent's and the ball. */
  datatype View = View(own: int, opponent: int, ballX: int, ballY: int)

  /** Position of a command in the order the frame sends them. */
  function Rank(command: string): int {
    if command == Server.UP then 0 else if command == Server.DOWN then 1 else 2
  }

  /** The messages one frame sends, in sending order. */
  function KeyCommands(k: Keys): (commands: seq<string>)
    ensures |commands| == (if k.w then 1 else 0) + (if k.s then 1 else 0) + (if k.escape then 1 else 0)
    ensures Server.UP in commands <==> k.w
    ensures Server.DOWN in commands <==> k.s
    ensures Server.QUIT in commands <==> k.escape
    ensures forall c :: c in commands ==> c == Server.UP || c == Server.DOWN || c == Server.QUIT
    ensures forall i, j :: 0 <= i < j < |commands| ==> Rank(commands[i]) < Rank(commands[j])
  {
    (if k.w then [Server.UP] else []) +
    (if k.s then [Server.DOWN] else []) +
    (if k.escape then [Server.QUIT] else [])
  }

  /** The view a snapshot gives a player: player 1 owns the first paddle of
      the snapshot and every other player number the second. */
  function ViewOf(player: int, snapshot: Server.Snapshot): (v: View)
    ensures v.ballX == snapshot.ballX && v.ballY == snapshot.ballY
    ensures player == 1 ==> v.own == snapshot.paddle1 && v.opponent == snapshot.paddle2
    ensures player != 1 ==> v.own == snapshot.paddle2 && v.opponent == snapshot.paddle1
  {
    if player == 1 then View(snapshot.paddle1, snapshot.paddle2, snapshot.ballX, snapshot.ballY)
    else View(snapshot.paddle2, snapshot.paddle1, snapshot.ballX, snapshot.ballY)
  }

  /** The client and the server agree on which paddle is whose: the own
      paddle the client draws is the one its commands move on the server. */
  lemma ViewMatchesServer(c: Court, player: int)
    ensures ViewOf(player, Server.SnapshotOf(c)) ==
            View(Server.Own(c, player), Server.Opponent(c, player), c.ball.x, c.ball.y)
  {
  }

  /** One frame of keys, sent and applied by the server for this player, moves
      the player's paddle exactly as the same keys move a paddle in the local
      game (up tested first, then down); the opponent and the ball stay put. */
  lemma KeysOnServer(c: Court, player: int, k: Keys)
    ensures var r := Server.Replay(c, Server.Session(player, KeyCommands(k)));
      Server.Own(r, player) == PaddleInput(Server.Own(c, player), k.w, k.s) &&
      Server.Opponent(r, player) == Server.Opponent(c, player) &&
      r.ball == c.ball
  {
    var up: seq<string> := if k.w then [Server.UP] else [];
    var down: seq<string> := if k.s then [Server.DOWN] else [];
    var quit: seq<string> := if k.escape then [Server.QUIT] else [];
    assert KeyCommands(k) == up + down + quit;
    var c2 := ReplayUpDown(c, player, k.w, k.s);
    ReplayQuit(c, player, up + down, k.escape);
  }

  /** The up and the down command of a frame, replayed; returns the court after them. */
  lemma ReplayUpDown(c: Court, player: int, w: bool, s: bool) returns (r: Court)
    ensures var up: seq<string> := if w then [Server.UP] else [];
      var down: seq<string> := if s then [Server.DOWN] else [];
      r == Server.Replay(c, Server.Session(player, up + down))
    ensures Server.Own(r, player) == PaddleInput(Server.Own(c, player), w, s)
    ensures Server.Opponent(r, player) == Server.Opponent(c, player) && r.ball == c.ball
  {
    var up: seq<string> := if w then [Server.UP] else [];
    var down: seq<string> := if s then [Server.DOWN] else [];
    var c1 := if w then Server.ApplyMessage(c, player, Server.UP) else c;
    assert Server.Replay(c, Server.Session(player, up)) == c1 by {
      if w {
        ReplayOneMore(c, player, [], Server.UP);
        assert [] + [Server.UP] == up;
      }
    }
    r := if s then Server.ApplyMessage(c1, player, Server.DOWN) else c1;
    if s {
      ReplayOneMore(c, player, up, Server.DOWN);
    } else {
      assert up + down == up;
    }
  }

  /** A trailing "QUIT" changes nothing on the server. */
  lemma ReplayQuit(c: Court, player: int, before: seq<string>, escape: bool)
    ensures var quit: seq<string> := if escape then [Server.QUIT] else [];
      Server.Replay(c, Server.Session(player, before + quit)) == Server.Replay(c, Server.Session(player, before))
  {
    if escape {
      ReplayOneMore(c, player, before, Server.QUIT);
      assert Server.QUIT[0] != Server.UP[0] && Server.QUIT[0] != Server.DOWN[0];
    } else {
      assert before + [] == before;
    }
  }

  /** Replaying one more message of a session is one more ApplyMessage. */
  lemma ReplayOneMore(c: Court, player: int, before: seq<string>, message: string)
    ensures Server.Replay(c, Server.Session(player, before + [message])) ==
            Server.ApplyMessage(Server.Replay(c, Server.Session(player, before)), player, message)
  {
    var all := before + [message];
    assert all[..|all| - 1] == before;
    var es := Server.Session(player, all);
    assert es[..|es| - 1] == Server.Session(player, before);
  }

  /** The client's globals: the paddles and the ball as last received. */
  class ClientView {
    const player: int
    var paddleY: int
    var opponentPaddleY: int
    var ballX: int
    var ballY: int

    function Current(): View
      reads this
    {
      View(paddleY, opponentPaddleY, ballX, ballY)
    }

    /** Connecting: the player number comes from the server; both paddles and
        the ball start where the server's do. */
    constructor (playerNumber: int)
      ensures player == playerNumber
      ensures Current() == View(PADDLE_START, PADDLE_START, CENTER_X, CENTER_Y)
    {
      player := playerNumber;
      paddleY := PADDLE_START;
      opponentPaddleY := PADDLE_START;
      ballX := CENTER_X;
      ballY := CENTER_Y;
    }

    /** One iteration of the receive loop: overwrite the view from a snapshot. */
    method Receive(snapshot: Server.Snapshot)
      modifies this
      ensures Current() == ViewOf(player, snapshot)
    {
      ballX := snapshot.ballX;
      ballY := snapshot.ballY;
      if player == 1 {
        paddleY := snapshot.paddle1;
        opponentPaddleY := snapshot.paddle2;
      } else {
        paddleY := snapshot.paddle2;
        opponentPaddleY := snapshot.paddle1;
      }
    }

    /** The key handling of one frame: the messages sent, in order. It
        modifies nothing: the own paddle moves only when a snapshot says so. */
    method SendKeys(k: Keys) returns (sent: seq<string>)
      ensures sent == KeyCommands(k)
    {
      sent := [];
      if k.w {
        sent := sent + [Server.UP];
      }
      if k.s {
        sent := sent + [Server.DOWN];
      }
      if k.escape {
        sent := sent + [Server.QUIT];
      }
    }
  }
}
