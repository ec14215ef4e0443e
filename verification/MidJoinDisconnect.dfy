/**
 The hard case behind NoUnwantedRejoin does come up: a run without lag in which a channel is joining when the
 socket is disconnected on request, so that the failed join and the announcement reach it together.
 */
module MidJoinDisconnect {
  import opened Messages
  import opened World
  import opened Agreement
  import opened Scenarios
  import S = SocketProtocol
  import C = ChannelProtocol

  /** The socket is disconnected on request; announcing it, at move `silenced`, is what silences the channel, and
      then the failed join is ready for it. */
  lemma DisconnectedWhileJoining(key: S.JoinKey, payload: Payload, r: Reference)
    returns (moves: seq<Move>, silenced: nat)
    ensures IsRun(false, moves) && IsCalmRun(false, moves) && silenced < |moves|
    ensures IsRun(false, moves[..silenced]) && Enabled(At(false, moves[..silenced]), moves[silenced])
    ensures !At(false, moves[..silenced]).socket.Failed?
    ensures Silences(At(false, moves[..silenced]), moves[silenced], 0) && NoJoinTaken(moves, silenced + 1, 0)
    ensures !At(false, moves).socket.Failed?
    ensures Enabled(At(false, moves), ChannelStep(0, C.JoinEnds(S.JoinDisconnected)))
  {
    moves := Sending(key, payload, r);
    var w := At(false, moves);
    var order := S.DrainOrder([key], []);
    var disconnect := SocketStep(S.Step(S.TakeDisconnect(0), order));
    assert S.Drains(order, w.socket.connection);
    Extend(moves, disconnect);
    moves := moves + [disconnect];
    assert [key][..0] == [];
    assert S.EndJoins(w.socket.connection.joins, [key], S.JoinDisconnected) == [S.EndJoin(0, S.JoinDisconnected)];
    assert At(false, moves).outbox
        == [S.Announce(S.Down(S.Disconnect)), S.EndJoin(0, S.JoinDisconnected), S.EndDisconnect(0)];
    silenced := |moves|;
    ghost var before := moves;
    Extend(moves, Deliver);
    moves := moves + [Deliver];
    assert At(false, moves).outbox == [S.EndJoin(0, S.JoinDisconnected), S.EndDisconnect(0)];
    Extend(moves, Deliver);
    moves := moves + [Deliver];
    assert At(false, moves).joinFates == map[0 := S.JoinDisconnected];
    assert moves[..silenced] == before;
  }
}
