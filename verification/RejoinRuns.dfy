/**
 In every run of the socket with any channels, lagging or not: a channel that does not mean to be joined asks for no
 join before it takes an explicit one, and a requested disconnect that it hears takes its intent away unless it is
 misled (src/rust/channel/listener.rs).
 */
module RejoinRuns {
  import opened World
  import opened Agreement
  import opened LagRuns
  import ChannelRuns
  import S = SocketProtocol
  import C = ChannelProtocol

  /** The channel is neither joined nor joining and will not join on its own: it has left, or is leaving, was told of a
      requested disconnect, was never joined, or is shutting down. */
  ghost predicate StaysOut(w: World, id: nat) {
    id in w.channels && C.Intent(w.channels[id].state).None?
  }

  lemma OnlyExplicitJoinsEnter(w: World, move: Move, id: nat)
    requires Enabled(w, move) && StaysOut(w, id)
    requires !(move.ChannelStep? && move.id == id && move.input.TakeJoin?)
    ensures StaysOut(Next(w, move), id) && !AsksToJoin(w, move, id)
  {
    hide S.Iterate, C.Iterate, AsksToJoin, Requested;
    if move.ChannelStep? && move.id == id {
      ChannelRuns.IntentFollowsInputs(w.channels[id].state, move.input);
      if AsksToJoin(w, move, id) {
        OnlyJoinsAsk(w, move, id);
      }
    } else {
      StrangersDoNotAsk(w, move, id);
    }
  }

  lemma StrangersDoNotAsk(w: World, move: Move, id: nat)
    requires Enabled(w, move) && !(move.ChannelStep? && move.id == id)
    ensures !AsksToJoin(w, move, id)
  {
  }

  /**
   No unwanted rejoin, in every run: from the moment a channel does not mean to be joined, as when it has left, it
   never asks the socket to join before it has taken an explicit join, however it lags.
   */
  lemma {:induction false} NoJoinWithoutIntent(strategy: bool, moves: seq<Move>, from: nat, id: nat, move: Move)
    requires IsRun(strategy, moves) && from <= |moves|
    ensures var w, now := Then(strategy, moves, from), At(strategy, moves);
            StaysOut(w, id) && NoJoinTaken(moves, from, id) ==>
              && StaysOut(now, id)
              && (Enabled(now, move) && !(move.ChannelStep? && move.id == id && move.input.TakeJoin?) ==>
                    !AsksToJoin(now, move, id))
  {
    hide Enabled, Next, AsksToJoin, StaysOut;
    var w, now := Then(strategy, moves, from), At(strategy, moves);
    if StaysOut(w, id) && NoJoinTaken(moves, from, id) {
      if from == |moves| {
        assert moves[..from] == moves;
      } else {
        var before, last := moves[..|moves| - 1], moves[|moves| - 1];
        assert before[..from] == moves[..from];
        assert NoJoinTaken(before, from, id);
        NoJoinWithoutIntent(strategy, before, from, id, last);
        OnlyExplicitJoinsEnter(At(strategy, before), last, id);
      }
      if Enabled(now, move) && !(move.ChannelStep? && move.id == id && move.input.TakeJoin?) {
        OnlyExplicitJoinsEnter(now, move, id);
      }
    }
  }

  /** In every run, hearing that the socket was disconnected on request leaves the channel without intent exactly
      when it was not misled, or had none. */
  lemma DisconnectEndsIntentExactly(strategy: bool, moves: seq<Move>, id: nat)
    requires IsRun(strategy, moves)
    ensures var w, hear := At(strategy, moves), ChannelStep(id, C.Hear(S.Down(S.Disconnect)));
            !w.socket.Failed? && Enabled(w, hear) ==>
              (StaysOut(Next(w, hear), id) <==> !Misled(strategy, moves, id) || StaysOut(w, id))
  {
    hide IsRun, Misled, C.Iterate;
    RunTracks(strategy, moves);
    var w, hear := At(strategy, moves), ChannelStep(id, C.Hear(S.Down(S.Disconnect)));
    if Enabled(w, hear) {
      ChannelRuns.IntentFollowsInputs(w.channels[id].state, hear.input);
    }
  }
}
