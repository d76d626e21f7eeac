# Pong over sockets — a Dafny model of the game tick

The repository is a two-player Pong written as four pygame scripts:

- a single-machine game (`src/main.py`);
- an authoritative TCP server (`src/server.py`) that runs the ball and applies
  "UP"/"DOWN"/"QUIT" commands from two clients;
- the thin client for that server (`src/client.py`);
- a peer-to-peer UDP variant (`src/p2p.py`) in which only the host moves the
  ball.

All four share one integer game: a 800×600 court, 10×100 paddles that move 5
pixels per key and stop at the top edge (0) and the bottom (500), and a ball
that moves 3 pixels per axis per frame. The ball bounces off the top and the
bottom, bounces off a paddle it is inside of, and is put back at (400, 300)
with its horizontal direction flipped when it leaves the court sideways.

The model keeps each script's state as a class whose fields are the script's
globals. Its methods are the bodies of the script's loops, and each one is
proved equal to a pure function of the old state. The properties are proved
about those functions:

- `Pong`: the shared constants, the guarded paddle moves and the one-frame
  ball step.
- `Local`: the single-machine frame.
- `Server`: the physics frame, the command handler and its receive loop. Any
  interleaving of frames and commands is also modelled, because the lock makes
  each of them atomic.
- `Client`: the snapshot-to-view mapping and the key-to-command mapping, with
  lemmas that connect them to the server.
- `Peer`: the peer frame and the datagram it builds and applies. Two peers
  are also modelled over a network that may drop, repeat or reorder
  datagrams.

Facts worth knowing that the proofs brought out:

- The paddle bound [0, 500] needs the position to stay a multiple of 5. It
  does from the start value 250. A paddle at 2 would go to −3 on "up".
- When both keys of a paddle are held, the net move is zero except at the top
  (0). There the up key is refused, the down key is not, and the paddle ends
  at 5.
- The ball's horizontal speed flips at most once per frame. The paddle bands
  (50 < x < 60, and 740 < x < 750 or, on the server, 720 < x < 730) never
  meet the side-out region (x ≤ 0 or x ≥ 800).
- The ball's top edge never goes more than 2 pixels past a wall.
- In the peer game the host also applies the other peer's datagrams. Those
  carry that peer's echo of an older host ball, so one stale datagram puts
  the host's ball back where it was before the host's last frame
  (`Peer.HostRewind`). The model keeps this behaviour as written. It needs
  the host's receive loop to be running. That happens only when the other
  peer's opening "HELLO" datagram was lost, for instance because that peer
  started before the host had bound its socket. Otherwise "HELLO" is the
  first datagram the host reads. Unpickling it raises, and the bare
  `except: break` ends the host's only receive loop. From then on the host
  applies no datagram: its opponent paddle stays at 250 and no rewind can
  happen. `Peer.LinkRun` covers that run as one in which every datagram to
  the host is lost, so the properties proved about it still hold.

## Model

| member | source | states |
|---|---|---|
| `Pong.PaddleUp` | src/main.py:50-51 | the paddle moves up by exactly 5 iff it is below the top (y > 0), otherwise stays; a reachable position stays reachable |
| `Pong.PaddleDown` | src/main.py:52-53 | the paddle moves down by exactly 5 iff y < 500, otherwise stays; a reachable position stays reachable |
| `Pong.PaddleInput` | src/p2p.py:58-62 | up is tested before down, each against the current position: no key leaves the paddle alone, one key is one guarded step, both keys net zero except at y = 0 where the paddle ends at 5; the bound [0, 500] is kept |
| `Pong.BallStep` | src/main.py:59-78 | the ball moves by its velocity unless it leaves the court sideways, in which case it is reset to (400, 300); vy is negated exactly when the moved y is ≤ 0 or ≥ 580; vx is negated exactly once on a paddle hit or a side-out; x ends strictly inside the court; speeds of magnitude 3 and the on-court ball invariant are preserved |
| `Local.Next` | src/main.py:49-78 | W/S move only the left paddle and UP/DOWN only the right one, each by the guarded steps; the ball then steps against the moved paddles with both paddle tests on the ball's x; the court invariant is preserved |
| `Local.RunKeepsCourtOk` | src/main.py:43-78 | any sequence of frames from a valid court keeps paddles in [0, 500] on multiples of 5, both speeds at magnitude 3 and the ball on the court |
| `Local.Reachable` | src/main.py:26-78 | from the opening position, under any keys, both paddles stay in [0, 500], both ball speeds stay ±3 and 0 < ball x < 800 |
| `Local.Game.constructor` | src/main.py:26-36 | paddles start at 250, the ball at (400, 300) with velocity (3, 3) |
| `Local.Game.Tick` | src/main.py:49-78 | one frame changes the globals exactly as `Local.Next` says |
| `Local.Game.HandleKeys` | src/main.py:49-57 | the key block leaves the ball alone and moves each paddle by its own keys only |
| `Local.Game.MoveBall` | src/main.py:59-78 | the ball block leaves the paddles alone and moves the ball by `Pong.BallStep` against the current paddles |
| `Local.Game.Play` | src/main.py:43-78 | the frame loop over a sequence of key states ends in the state `Local.Run` gives, and keeps the court invariant |
| `Server.NextFrame` | src/server.py:42-56 | a physics frame never moves a paddle; vx flips exactly on a left hit (50 < x < 60), a right hit tested on the ball's right edge (720 < x < 730) or a side-out; the ball otherwise moves as `Pong.BallStep`; the court invariant is preserved |
| `Server.ApplyMessage` | src/server.py:73-83 | a message never touches the ball or the other player's paddle; the own paddle (paddle 1 for player 1, paddle 2 for any other number) goes up iff the message is "UP" and it is below the top, down iff "DOWN" and it is below 500 (y < 500), by exactly one step; any other message, "QUIT" included, changes nothing |
| `Server.Session` | src/server.py:67-85 | the messages of one connection become commands of that player, one per message, in order |
| `Server.ReplayKeepsCourtOk` | src/server.py:41-83 | any interleaving of frames and commands from any players keeps the court invariant |
| `Server.Reachable` | src/server.py:20-83 | from the opening position, under any interleaving, both paddles stay in [0, 500] and both speeds stay ±3 |
| `Server.SessionTouchesOwnPaddleOnly` | src/server.py:73-83 | any run of one player's messages leaves the ball and the other paddle unchanged |
| `Server.GameServer.constructor` | src/server.py:20-30 | the ball starts at (400, 300) with velocity (3, 3), both paddles at 250 |
| `Server.GameServer.Step` | src/server.py:41-58 | the locked loop body changes the globals as `Server.NextFrame` says and broadcasts `Server.SnapshotOf` the new state: (paddle1, paddle2, ball x, ball y), in that order |
| `Server.GameServer.ApplyCommand` | src/server.py:73-85 | one received message changes the globals as `Server.ApplyMessage` says and asks the handler to stop iff it is "QUIT" |
| `Server.GameServer.HandleClient` | src/server.py:67-85 | the handler applies messages in order until the connection closes (an empty message, not applied) or a "QUIT" (applied, then stop); the state is the replay of exactly the consumed messages |
| `Client.KeyCommands` | src/client.py:63-69 | one message per pressed key, "UP" iff W, "DOWN" iff S, "QUIT" iff ESC, nothing else, and always in the order UP, DOWN, QUIT |
| `Client.ViewOf` | src/client.py:45-52 | the ball is copied from the snapshot; player 1 owns the first paddle and sees the second as the opponent, every other player number the reverse |
| `Client.ViewMatchesServer` | src/client.py:45-52 | the paddle a client draws as its own is the one the server moves for that player's commands, and the opponent is the other one |
| `Client.KeysOnServer` | src/client.py:63-69 | the commands of one frame, applied by the server, move the player's paddle exactly as the same keys move a local paddle and change neither the opponent nor the ball |
| `Client.ReplayUpDown` | src/client.py:64-67 | the "UP" then "DOWN" messages of a frame, replayed on the server, give the guarded up-then-down move of the own paddle |
| `Client.ReplayQuit` | src/server.py:84-85 | a trailing "QUIT" message changes nothing on the server |
| `Client.ClientView.constructor` | src/client.py:28-33 | the player number is the one received; both paddles start at 250 and the ball at (400, 300) |
| `Client.ClientView.Receive` | src/client.py:45-52 | applying a snapshot sets the view to `Client.ViewOf` of the player number and the snapshot |
| `Client.ClientView.SendKeys` | src/client.py:63-69 | the key handling sends `Client.KeyCommands` and changes no field: the client never moves its own paddle locally |
| `Peer.Next` | src/p2p.py:58-78 | a frame moves only the own paddle with W/S; a non-host never changes the ball; the host steps the ball against its own paddle on the left and the opponent's on the right; the peer invariant is preserved |
| `Peer.PacketOf` | src/p2p.py:81 | the datagram carries the own paddle and the full ball state (x, y, vx, vy); a valid peer sends a valid datagram |
| `Peer.ApplyPacket` | src/p2p.py:44-46 | a received datagram sets the opponent paddle and overwrites all four ball fields, whatever the receiver's role, and leaves the own paddle alone |
| `Peer.PacketRoundTrip` | src/p2p.py:45-46 | applying a peer's datagram gives the receiver exactly the sender's paddle as opponent and the sender's ball |
| `Peer.HostRewind` | src/p2p.py:44-81 | a host frame always moves the ball, and the other peer's datagram built from the ball it received before that frame puts the host's ball back |
| `Peer.LinkStepKeepsOk` | src/p2p.py:44-82 | a frame or the delivery of any datagram ever sent keeps both peers and all datagrams valid |
| `Peer.LinkRunKeepsOk` | src/p2p.py:44-82 | any sequence of frames and deliveries, with loss, repetition and reordering, keeps both peers and all datagrams valid |
| `Peer.Reachable` | src/p2p.py:32-82 | from the opening position, on both peers, all paddles stay in [0, 500], speeds stay ±3 and the ball stays on the court, however datagrams are delivered |
| `Peer.PeerGame.constructor` | src/p2p.py:32-36 | the role is the one chosen; paddles start at 250, the ball at (400, 300) with velocity (3, 3) |
| `Peer.PeerGame.Tick` | src/p2p.py:58-82 | one frame changes the globals as `Peer.Next` says and sends `Peer.PacketOf` of the new state |
| `Peer.PeerGame.HandleKeys` | src/p2p.py:58-62 | the key block changes only the own paddle, by `Pong.PaddleInput` |
| `Peer.PeerGame.MoveBall` | src/p2p.py:65-78 | the host's ball block changes only the ball, by `Pong.BallStep` against the own paddle and the opponent's |
| `Peer.PeerGame.Receive` | src/p2p.py:44-46 | one received datagram changes the globals as `Peer.ApplyPacket` says |

## Left out

- Drawing, the pygame event loop, the window-close event, the 60 Hz frame
  limiter and the `input()` prompts are user interface. Keys held in a frame
  are a parameter of each frame.
- Sockets are network I/O and are left out: connect, accept, send, receive,
  the server's accept loop and its list of client connections, and the "HELLO"
  datagram that starts the peer game. The server's broadcast is the snapshot
  its `Step` returns. A received message or datagram is a parameter.
- `pickle` serialisation is a foreign serialiser. Snapshots and datagrams are
  datatypes with their fields in the wire order.
- Threads and the server's lock are left out; the concurrency is not the
  point. Each frame, command and received datagram is one atomic step.
  Interleavings are modelled as sequences of such steps (`Server.Replay`,
  `Peer.LinkRun`). A datagram that the peer's receive thread applies in the
  middle of a frame is not modelled.
- TCP framing is left out. One `recv` may hold two commands run together
  ("UPDOWN") or part of one. The model treats each received string as one
  message, so such a string is an unrecognised message with no effect, as it
  is for the server. Snapshots that TCP merges or splits are not modelled.
  When two snapshots arrive in one chunk, `pickle.loads` reads only the
  first and ignores the rest. The client then shows the older snapshot and
  drops the newer one. When a snapshot arrives split across chunks,
  `pickle.loads` raises. The bare `except: break` then ends the client's
  receive loop for good, and the view freezes.
- The bare `except: break` handlers are left out. Each one ends its I/O loop
  for good. On the peer host this includes the "HELLO" case described above.
- The client's receive loop is modelled by its body (`ClientView.Receive`),
  one snapshot at a time.
