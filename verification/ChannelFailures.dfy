/**
 How a channel task can end with an error while the socket task goes on: exactly by a join whose write failed
 (src/rust/socket/listener.rs, src/rust/channel/listener.rs).
 */
module ChannelFailures {
  import opened Messages
  import Backoff
  import opened World
  import opened Routing
  import opened Scenarios
  import Answers = SocketAnswers
  import S = SocketProtocol
  import C = ChannelProtocol

  /** While the socket goes on, no join was dropped for its having failed. */
  ghost predicate NoneDroppedByFailure(w: World) {
    !Exited(w.socket) ==> forall j: S.SenderId :: !HasFate(w, j, S.JoinDropped(S.SocketFailed))
  }

  lemma SocketStepDropsNone(w: World, step: S.Step, j: S.SenderId)
    requires NoneDroppedByFailure(w) && Enabled(w, SocketStep(step)) && !Exited(AfterSocket(w, step).socket)
    ensures !HasFate(AfterSocket(w, step), j, S.JoinDropped(S.SocketFailed))
  {
    hide S.Iterate;
    assert !Exited(w.socket);
    assert !HasFate(w, j, S.JoinDropped(S.SocketFailed));
    var dropped := S.EndJoin(j, S.JoinDropped(S.SocketFailed));
    if dropped in S.Iterate(w.strategy, w.socket, step).outputs {
      Answers.JoinEndsHaveCauses(w.strategy, w.socket, step, dropped);
    }
  }

  lemma MoveDropsNone(w: World, move: Move)
    requires NoneDroppedByFailure(w) && Enabled(w, move)
    ensures NoneDroppedByFailure(Next(w, move))
  {
    hide S.Iterate, S.Enabled, C.Iterate;
    var next := Next(w, move);
    forall j: S.SenderId | !Exited(next.socket) ensures !HasFate(next, j, S.JoinDropped(S.SocketFailed)) {
      match move
      case SocketStep(step) => SocketStepDropsNone(w, step, j);
      case Deliver => DeliveryMovesFate(w, j, S.JoinDropped(S.SocketFailed));
      case _ =>
        assert next.joinFates == w.joinFates && next.outbox == w.outbox;
        assert !HasFate(w, j, S.JoinDropped(S.SocketFailed));
    }
  }

  lemma {:induction false} RunDropsNone(strategy: bool, moves: seq<Move>)
    requires IsRun(strategy, moves)
    ensures NoneDroppedByFailure(At(strategy, moves))
  {
    hide Enabled, Next;
    if |moves| == 0 {
    } else {
      RunDropsNone(strategy, moves[..|moves| - 1]);
      MoveDropsNone(At(strategy, moves[..|moves| - 1]), moves[|moves| - 1]);
    }
  }

  lemma FailsByDropOrSocket(w: World, id: nat, input: C.Input)
    requires Enabled(w, ChannelStep(id, input)) && !Exited(w.socket)
    ensures C.Iterate(w.channels[id].state, input).state.Failed?
            <==> input.JoinEnds? && input.fate.JoinDropped?
  {
    hide C.ReplyJoins, C.ReplyLeaves;
  }

  lemma EndIsAFate(w: World, id: nat, fate: S.JoinFate)
    requires Enabled(w, ChannelStep(id, C.JoinEnds(fate)))
    ensures w.channels[id].state.Joining? && HasFate(w, w.channels[id].state.join, fate)
  {
  }

  lemma IsStepping(w: World, id: nat, input: C.Input)
    requires Enabled(w, ChannelStep(id, input))
    ensures id in w.channels
  {
  }

  lemma DropIsAFailedSend(w: World, id: nat, fate: S.JoinFate)
    requires id in w.channels && ChannelInvariant(w, w.channels[id]) && NoneDroppedByFailure(w) && !Exited(w.socket)
    requires Enabled(w, ChannelStep(id, C.JoinEnds(fate))) && fate.JoinDropped?
    ensures fate == S.JoinDropped(S.SendFailed)
  {
    hide HasFate, Enabled;
    EndIsAFate(w, id, fate);
    var j := w.channels[id].state.join;
    assert !HasFate(w, j, S.JoinDropped(S.Overwritten)) && !HasFate(w, j, S.JoinDropped(S.SocketFailed));
    match fate.reason
    case Overwritten =>
    case SocketFailed =>
    case SendFailed =>
  }

  /**
   In every run, while the socket task goes on, a channel step ends the channel task with an error if and only if it
   takes the end of its own join, dropped because the write of that join failed.
   */
  lemma FailsExactlyByFailedSend(strategy: bool, moves: seq<Move>, id: nat, input: C.Input)
    requires IsRun(strategy, moves)
    ensures var w := At(strategy, moves);
            !Exited(w.socket) && Enabled(w, ChannelStep(id, input)) ==>
              (C.Iterate(w.channels[id].state, input).state.Failed?
               <==> input == C.JoinEnds(S.JoinDropped(S.SendFailed)))
  {
    hide IsRun, C.Iterate, Enabled, ChannelInvariant, NoneDroppedByFailure;
    RunKeepsRouting(strategy, moves);
    RunDropsNone(strategy, moves);
    var w := At(strategy, moves);
    if !Exited(w.socket) && Enabled(w, ChannelStep(id, input)) {
      FailsByDropOrSocket(w, id, input);
      if input.JoinEnds? && input.fate.JoinDropped? {
        assert id in w.channels by { IsStepping(w, id, input); }
        assert ChannelInvariant(w, w.channels[id]);
        DropIsAFailedSend(w, id, input.fate);
      }
    }
  }

  // ---------------------------------------------------------------------------------- it happens

  lemma SendFails(key: S.JoinKey, payload: Payload, r: Reference)
    ensures var step := S.Step(S.TakeJoin(Asked(key, payload), r, false), IDLE);
            && S.Enabled(S.Connected(S.EmptyConnection(10)), step)
            && var next := S.Iterate(false, S.Connected(S.EmptyConnection(10)), step);
               && next.state == S.Wait(Backoff.Retry(10, 0))
               && |next.outputs| == 3 && next.outputs[0].Transmit?
               && next.outputs[1..] == [S.Announce(S.Down(S.Reconnect)), S.EndJoin(0, S.JoinDropped(S.SendFailed))]
  {
  }

  /** The write of a channel's join fails: the socket waits to reconnect, and the drop reaches the channel. */
  lemma SendingInVain(key: S.JoinKey, payload: Payload, r: Reference) returns (moves: seq<Move>)
    ensures IsRun(false, moves)
    ensures var w := At(false, moves);
            && w.socket == S.Wait(Backoff.Retry(10, 0)) && w.outbox == [] && !w.strategy
            && w.joinFates == map[0 := S.JoinDropped(S.SendFailed)]
            && w.channels.Keys == {0} && w.channels[0].state == C.Joining(0, [0], Backoff.Retry(10, 0))
            && !w.channels[0].shutdownRequested
  {
    hide IsRun, S.Iterate, S.Enabled, S.EmptyConnection, S.Wait;
    moves := Asking(key, payload);
    SendFails(key, payload, r);
    WaitGoesOn(Backoff.Retry(10, 0));
    moves := Go(moves, SocketStep(S.Step(S.TakeJoin(Asked(key, payload), r, false), IDLE)));
    moves := Go(moves, Deliver);
    moves := Go(moves, Deliver);
    assert At(false, moves).outbox == [S.EndJoin(0, S.JoinDropped(S.SendFailed))];
    moves := Go(moves, Deliver);
    assert At(false, moves).outbox == [];
  }

  /** The channel task has ended with an error, and the socket reconnects without it. */
  lemma ReconnectsWithoutChannel(key: S.JoinKey, payload: Payload, r: Reference) returns (moves: seq<Move>)
    ensures IsRun(false, moves)
    ensures var w := At(false, moves);
            w.socket.Connected? && w.channels.Keys == {0} && w.channels[0].state.Failed?
  {
    hide IsRun, S.Iterate, S.Enabled, S.Wait;
    moves := SendingInVain(key, payload, r);
    moves := Go(moves, ChannelStep(0, C.JoinEnds(S.JoinDropped(S.SendFailed))));
    ConnectionBack(10);
    moves := Go(moves, SocketStep(S.Step(S.ReconnectDue(true, 0), IDLE)));
  }
}
