/** The peer-to-peer game: each of two peers moves its own paddle, only the
    host runs the ball physics, and every frame each peer sends the other a
    datagram holding its paddle and its copy of the ball. A received datagram
    overwrites the opponent's paddle and all four ball fields, on the host as
    well as on the other peer. The host plays the left paddle. */
module Peer {
  import opened Pong

  /** The keys held down during one frame. */
  datatype Keys = Keys(w: bool, s: bool)

  /** The datagram sent every frame, in this order. */
  datatype Packet = Packet(paddle: int, ballX: int, ballY: int, ballSpeedX: int, ballSpeedY: int)

  /** The globals of one peer. */
  datatype PeerState = PeerState(isHost: bool, paddle: int, opponent: int, ball: Ball)

  function Start(isHost: bool): PeerState {
    PeerState(isHost, PADDLE_START, PADDLE_START, START_BALL)
  }

  predicate PeerOk(st: PeerState) {
    PaddleOk(st.paddle) && PaddleOk(st.opponent) && BallOk(st.ball)
  }

  predicate PacketOk(p: Packet) {
    PaddleOk(p.paddle) && BallOk(BallOf(p))
  }

  function BallOf(p: Packet): Ball {
    Ball(p.ballX, p.ballY, p.ballSpeedX, p.ballSpeedY)
  }

  /** One frame of a peer: its own paddle moves on W and S; the host then
      advances the ball against its own paddle on the left and the opponent's
      on the right; the other peer leaves the ball alone. */
  function Next(st: PeerState, k: Keys): (r: PeerState)
    ensures r.isHost == st.isHost && r.opponent == st.opponent
    ensures r.paddle == PaddleInput(st.paddle, k.w, k.s)
    ensures !st.isHost ==> r.ball == st.ball
    ensures st.isHost ==> r.ball == BallStep(st.ball, r.paddle, st.opponent, 0)
    ensures PeerOk(st) ==> PeerOk(r)
  {
    var paddle := PaddleInput(st.paddle, k.w, k.s);
    var ball := if st.isHost then BallStep(st.ball, paddle, st.opponent, 0) else st.ball;
    st.(paddle := paddle, ball := ball)
  }

  /** The datagram a peer sends at the end of a frame. */
  function PacketOf(st: PeerState): (p: Packet)
    ensures p.paddle == st.paddle && BallOf(p) == st.ball
    ensures PeerOk(st) ==> PacketOk(p)
  {
    Packet(st.paddle, st.ball.x, st.ball.y, st.ball.vx, st.ball.vy)
  }

  /** A received datagram, applied whatever the receiver's role. */
  function ApplyPacket(st: PeerState, p: Packet): (r: PeerState)
    ensures r.isHost == st.isHost && r.paddle == st.paddle
    ensures r.opponent == p.paddle && r.ball == BallOf(p)
    ensures PeerOk(st) && PacketOk(p) ==> PeerOk(r)
  {
    st.(opponent := p.paddle, ball := BallOf(p))
  }

  /** Applying a peer's datagram copies that peer's paddle into the
      receiver's opponent paddle and the peer's whole ball state into the
      receiver's, and leaves the receiver's own paddle and role alone. */
  lemma PacketRoundTrip(sender: PeerState, receiver: PeerState)
    ensures ApplyPacket(receiver, PacketOf(sender)) ==
            PeerState(receiver.isHost, receiver.paddle, sender.paddle, sender.ball)
  {
  }

  /** Because the host also applies the other peer's datagrams, and those
      carry the other peer's copy of the ball, a datagram sent before the
      host's latest frame arrived puts the host's ball back where it was
      before that frame. */
  lemma HostRewind(host: PeerState, guest: PeerState, hostKeys: Keys, guestKeys: Keys)
    requires host.isHost && !guest.isHost && PeerOk(host)
    ensures var guest1 := Next(ApplyPacket(guest, PacketOf(host)), guestKeys);
            var host1 := Next(host, hostKeys);
            var host2 := ApplyPacket(host1, PacketOf(guest1));
            host1.ball != host.ball && host2.ball == host.ball
  {
  }

  // ------------------------------------------------------------ two peers

  /** The two peers and every datagram sent so far in each direction. The
      network may drop, repeat or reorder datagrams, so any datagram ever
      sent may be the next one delivered. */
  datatype Link = Link(host: PeerState, guest: PeerState, toGuest: seq<Packet>, toHost: seq<Packet>)

  datatype LinkEvent =
    | HostFrame(hostKeys: Keys)
    | GuestFrame(guestKeys: Keys)
    | DeliverToGuest(index: nat)
    | DeliverToHost(index: nat)

  const START_LINK: Link := Link(Start(true), Start(false), [], [])

  predicate LinkOk(l: Link) {
    l.host.isHost && !l.guest.isHost &&
    PeerOk(l.host) && PeerOk(l.guest) &&
    (forall p :: p in l.toGuest ==> PacketOk(p)) &&
    (forall p :: p in l.toHost ==> PacketOk(p))
  }

  /** A frame runs and ends with a send; a delivery of an index never sent is lost. */
  function LinkStep(l: Link, e: LinkEvent): Link {
    match e
    case HostFrame(k) =>
      var h := Next(l.host, k);
      l.(host := h, toGuest := l.toGuest + [PacketOf(h)])
    case GuestFrame(k) =>
      var g := Next(l.guest, k);
      l.(guest := g, toHost := l.toHost + [PacketOf(g)])
    case DeliverToGuest(i) =>
      if i < |l.toGuest| then l.(guest := ApplyPacket(l.guest, l.toGuest[i])) else l
    case DeliverToHost(i) =>
      if i < |l.toHost| then l.(host := ApplyPacket(l.host, l.toHost[i])) else l
  }

  function LinkRun(l: Link, es: seq<LinkEvent>): Link
    decreases |es|
  {
    if es == [] then l else LinkStep(LinkRun(l, es[..|es| - 1]), es[|es| - 1])
  }

  lemma LinkStepKeepsOk(l: Link, e: LinkEvent)
    requires LinkOk(l)
    ensures LinkOk(LinkStep(l, e))
  {
    match e
    case HostFrame(k) =>
    case GuestFrame(k) =>
    case DeliverToGuest(i) =>
      if i < |l.toGuest| {
        assert l.toGuest[i] in l.toGuest;
      }
    case DeliverToHost(i) =>
      if i < |l.toHost| {
        assert l.toHost[i] in l.toHost;
      }
  }

  lemma {:induction false} LinkRunKeepsOk(l: Link, es: seq<LinkEvent>)
    requires LinkOk(l)
    ensures LinkOk(LinkRun(l, es))
    decreases |es|
  {
    if es != [] {
      LinkRunKeepsOk(l, es[..|es| - 1]);
      LinkStepKeepsOk(LinkRun(l, es[..|es| - 1]), es[|es| - 1]);
    }
  }

  /** However the network drops, repeats or reorders datagrams, on both peers
      both paddles stay in [0, 500] and the ball keeps speed 3 on both axes
      and stays on the court. */
  lemma {:induction false} Reachable(es: seq<LinkEvent>)
    ensures var l := LinkRun(START_LINK, es);
      0 <= l.host.paddle <= PADDLE_MAX && 0 <= l.host.opponent <= PADDLE_MAX &&
      0 <= l.guest.paddle <= PADDLE_MAX && 0 <= l.guest.opponent <= PADDLE_MAX &&
      SpeedOk(l.host.ball) && SpeedOk(l.guest.ball) &&
      0 < l.host.ball.x < SCREEN_WIDTH && 0 < l.guest.ball.x < SCREEN_WIDTH
  {
    LinkRunKeepsOk(START_LINK, es);
  }

  /** The globals of the peer script. */
  class PeerGame {
    const isHost: bool
    var paddleY: int
    var opponentPaddleY: int
    var ballX: int
    var ballY: int
    var ballSpeedX: int
    var ballSpeedY: int

    function Model(): PeerState
      reads this
    {
      PeerState(isHost, paddleY, opponentPaddleY, Ball(ballX, ballY, ballSpeedX, ballSpeedY))
    }

    constructor (hosting: bool)
      ensures Model() == Start(hosting)
    {
      isHost := hosting;
      paddleY := PADDLE_START;
      opponentPaddleY := PADDLE_START;
      ballX, ballY := CENTER_X, CENTER_Y;
      ballSpeedX, ballSpeedY := BALL_SPEED, BALL_SPEED;
    }

    /** One frame of the main loop, without the drawing: returns the datagram sent. */
    method Tick(k: Keys) returns (sent: Packet)
      modifies this
      ensures Model() == Next(old(Model()), k)
      ensures sent == PacketOf(Model())
    {
      HandleKeys(k);
      if isHost {
        MoveBall();
      }
      sent := Packet(paddleY, ballX, ballY, ballSpeedX, ballSpeedY);
    }

    method HandleKeys(k: Keys)
      modifies this
      ensures paddleY == PaddleInput(old(paddleY), k.w, k.s)
      ensures Model() == old(Model()).(paddle := paddleY)
    {
      if k.w && paddleY > 0 {
        paddleY := paddleY - 5;
      }
      if k.s && paddleY < SCREEN_HEIGHT - PADDLE_HEIGHT {
        paddleY := paddleY + 5;
      }
    }

    /** The host's ball physics; the host's paddle is the left one. */
    method MoveBall()
      modifies this
      ensures Model() == old(Model()).(ball := BallStep(old(Model()).ball, paddleY, opponentPaddleY, 0))
    {
      ballX := ballX + ballSpeedX;
      ballY := ballY + ballSpeedY;

      if ballY <= 0 || ballY >= SCREEN_HEIGHT - BALL_SIZE {
        ballSpeedY := -ballSpeedY;
      }

      if (50 < ballX < 60 && paddleY < ballY < paddleY + PADDLE_HEIGHT) ||
         (SCREEN_WIDTH - 60 < ballX < SCREEN_WIDTH - 50 && opponentPaddleY < ballY < opponentPaddleY + PADDLE_HEIGHT)
      {
        ballSpeedX := -ballSpeedX;
      }

      if ballX <= 0 || ballX >= SCREEN_WIDTH {
        ballX, ballY := CENTER_X, CENTER_Y;
        ballSpeedX := -ballSpeedX;
      }
    }

    /** One iteration of the receive loop. */
    method Receive(p: Packet)
      modifies this
      ensures Model() == ApplyPacket(old(Model()), p)
    {
      ballX, ballY, ballSpeedX, ballSpeedY := p.ballX, p.ballY, p.ballSpeedX, p.ballSpeedY;
      opponentPaddleY := p.paddle;
    }
  }
}
