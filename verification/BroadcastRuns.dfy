/**
 In every run without lag, a joined channel is sent the broadcasts on its topic (src/rust/socket/listener.rs).
 */
module BroadcastRuns {
  import opened Messages
  import opened World
  import opened Agreement
  import Timers = SocketTimers
  import S = SocketProtocol
  import C = ChannelProtocol

  /** What every connection of the socket alone keeps, the socket with its channels keeps too. */
  lemma {:induction false} RunKeepsConnection(strategy: bool, moves: seq<Move>)
    requires IsRun(strategy, moves)
    ensures Timers.StateInvariant(At(strategy, moves).socket)
  {
    hide Enabled, Next, Timers.StateInvariant;
    if |moves| == 0 {
      NeverConnectedKeeps();
    } else {
      RunKeepsConnection(strategy, moves[..|moves| - 1]);
      MoveKeepsConnection(At(strategy, moves[..|moves| - 1]), moves[|moves| - 1]);
    }
  }

  lemma NeverConnectedKeeps()
    ensures Timers.StateInvariant(S.NeverConnected)
  {
  }

  lemma MoveKeepsConnection(w: World, move: Move)
    requires Enabled(w, move) && Timers.StateInvariant(w.socket)
    ensures Timers.StateInvariant(Next(w, move).socket)
  {
    hide S.Iterate, S.Enabled, C.Iterate, Timers.StateInvariant;
    if move.SocketStep? {
      Timers.StepKeepsInvariant(w.strategy, w.socket, move.step);
    }
  }

  /** A joined channel with nothing unread has its topic among those that are broadcast: the next message that is a
      broadcast on it is relayed to it, and to nothing else. */
  lemma BroadcastIsRelayed(strategy: bool, moves: seq<Move>, id: nat, m: Message)
    requires IsRun(strategy, moves) && IsCalmRun(strategy, moves)
    ensures var w := At(strategy, moves);
            && !w.socket.Failed? && w.outbox == []
            && id in w.channels && w.channels[id].state.Joined? && w.channels[id].unread.None?
            && m.BroadcastMessage? && m.topic == w.channels[id].key.0 ==>
              && w.socket.Connected?
              && S.HandleMessage(w.socket.connection, m) == (w.socket.connection, [S.RelayBroadcast(m)])
  {
    hide IsRun, IsCalmRun;
    CalmRunKeepsInvariant(strategy, moves);
    RunKeepsConnection(strategy, moves);
  }
}
