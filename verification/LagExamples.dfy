/**
 The cases that LagRuns speaks of do come up: runs in which a lagging channel is stuck, or comes to wait for a
 socket that is connected, and what a requested disconnect then does.
 */
module LagExamples {
  import opened Wrappers
  import opened Messages
  import Backoff
  import opened World
  import opened LagRuns
  import opened Scenarios
  import S = SocketProtocol
  import C = ChannelProtocol

  ghost predicate IsIdle(s: S.State) {
    s.Connected? && s.connection.joins == map[] && s.connection.calls == map[]
  }

  /** The channel waits for the socket, with nothing to read, while the socket is connected and has nothing on
      its way. */
  ghost predicate WaitsInVain(w: World) {
    && IsIdle(w.socket) && w.outbox == [] && !w.strategy
    && 0 in w.channels && w.channels.Keys == {0}
    && w.channels[0].state == C.WaitingForSocketToConnect(Some(Backoff.Retry(10, 0))) && w.channels[0].unread.None?
    && !w.channels[0].shutdownRequested
  }

  lemma WaitingInVainIsMisled(moves: seq<Move>)
    requires IsRun(false, moves) && WaitsInVain(At(false, moves))
    ensures Misled(false, moves, 0)
  {
    hide Misled, IsRun;
    WrongExactlyWhenMisled(false, moves, 0);
  }

  /** A channel spawned before the socket ever connected. */
  lemma SpawningEarly(channel: Channel) returns (moves: seq<Move>)
    requires channel == Channel(channel.key, channel.payload, C.WaitingForSocketToConnect(None), None, false)
    ensures IsRun(false, moves) && At(false, moves) == Initial(false).(channels := map[0 := channel])
  {
    hide IsRun;
    Nothing();
    moves := Go([], Spawn(0, channel.key, channel.payload));
  }

  /** The socket connects, which the channel has yet to read. */
  lemma ConnectingUnread(channel: Channel) returns (moves: seq<Move>)
    requires channel == Channel(channel.key, channel.payload, C.WaitingForSocketToConnect(None), None, false)
    ensures IsRun(false, moves)
    ensures At(false, moves)
            == Initial(false).(socket := S.Connected(S.EmptyConnection(10)),
                               channels := map[0 := channel.(unread := Some(Unread(S.Up, false)))])
  {
    hide IsRun, S.Iterate, S.Enabled, S.EmptyConnection, C.Iterate, C.Enabled, Ready, Requested;
    moves := SpawningEarly(channel);
    Opening();
    moves := Go(moves, SocketStep(S.Step(S.TakeConnect(0, 10, true, 0), IDLE)));
    moves := Go(moves, Deliver);
    assert At(false, moves).outbox == [S.EndConnect(0, S.ConnectOk)];
    assert At(false, moves).channels == map[0 := channel.(unread := Some(Unread(S.Up, false)))];
    moves := Go(moves, Deliver);
    assert At(false, moves).outbox == [];
  }

  /** A channel that was waiting for the socket when the connection flapped is stuck, although the socket is
      connected. */
  lemma StuckWhileConnected(key: S.JoinKey, payload: Payload) returns (moves: seq<Move>)
    ensures IsRun(false, moves) && At(false, moves).socket.Connected? && Stuck(At(false, moves), 0)
    ensures !At(false, moves).channels[0].shutdownRequested
  {
    hide IsRun, Overwrites;
    var channel := Channel(key, payload, C.WaitingForSocketToConnect(None), None, false);
    moves := ConnectingUnread(channel);
    moves := Flapping(moves, S.EmptyConnection(10), channel.(unread := Some(Unread(S.Up, false))));
  }

  lemma Opening()
    ensures var step := S.Step(S.TakeConnect(0, 10, true, 0), IDLE);
            && S.Enabled(S.NeverConnected, step)
            && S.Iterate(false, S.NeverConnected, step)
               == S.Outcome(S.Connected(S.EmptyConnection(10)), [S.Announce(S.Up), S.EndConnect(0, S.ConnectOk)])
  {
  }

  lemma Nothing()
    ensures IsRun(false, []) && At(false, []) == Initial(false)
  {
  }

  function Attempting(joined: bool, p: Payload): C.State {
    if joined then C.Joined(0, p, 10) else C.Joining(0, [0], Backoff.Retry(10, 0))
  }

  /** The world of one channel whose join was accepted. */
  ghost predicate IsAccepted(w: World, c: S.Connection, key: S.JoinKey, payload: Payload, p: Payload, joined: bool) {
    && w.socket == S.Connected(c) && w.outbox == [] && !w.strategy && w.lefts == {}
    && w.joinFates == map[0 := S.JoinOk(p)] && w.leaveFates == map[] && w.nextSender == 1
    && w.channels == Member(key, payload, Attempting(joined, p))
  }

  lemma BeingAccepted(key: S.JoinKey, payload: Payload, r: Reference, p: Payload)
    returns (moves: seq<Move>, c: S.Connection)
    ensures IsRun(false, moves)
    ensures c.joins == map[] && c.calls == map[] && c.connectTimeout == 10
    ensures IsAccepted(At(false, moves), c, key, payload, p, false)
  {
    hide IsRun;
    moves := Sending(key, payload, r);
    c := Answered(Pending(key, payload), Asked(key, payload), StatusOk);
    AnsweredIsIdle(key, payload);
    moves := Answering(moves, Pending(key, payload), Asked(key, payload), r, StatusOk, p);
  }

  /** The channel's join was accepted; the channel has taken note of it, or not yet. */
  lemma Accepting(key: S.JoinKey, payload: Payload, r: Reference, p: Payload, joined: bool)
    returns (moves: seq<Move>, c: S.Connection)
    ensures IsRun(false, moves)
    ensures c.joins == map[] && c.calls == map[] && c.connectTimeout == 10
    ensures IsAccepted(At(false, moves), c, key, payload, p, joined)
  {
    hide IsRun, C.Iterate, Requested;
    moves, c := BeingAccepted(key, payload, r, p);
    if joined {
      AcceptedJoins(key, payload, p, None);
      moves := Stepping(moves, Channel(key, payload, Attempting(false, p), None, false), C.JoinEnds(S.JoinOk(p)),
                        Attempting(true, p), []);
    }
  }

  /** A joined channel that still has Up to hear: it clears the lag with another command first, if it lags, and
      then waits in vain. */
  lemma Misleading(moves: seq<Move>, channel: Channel) returns (longer: seq<Move>)
    requires IsRun(false, moves)
    requires var w := At(false, moves);
             && IsIdle(w.socket) && w.outbox == [] && !w.strategy && w.lefts == {} && w.channels == map[0 := channel]
    requires channel.state.Joined? && channel.state.joinTimeout == 10 && !channel.shutdownRequested
    requires channel.unread.Some? && channel.unread.value.event.Up?
    ensures moves <= longer && IsRun(false, longer) && WaitsInVain(At(false, longer))
  {
    hide IsRun;
    longer := moves;
    if channel.unread.value.lagged {
      longer := Go(longer, ChannelStep(0, C.TakeSend(EventPayload(User([]), Value(Null)), None, true)));
    }
    longer := Go(longer, ChannelStep(0, C.Hear(S.Up)));
  }

  /** A channel that was joined, or joining with an accepted join, when the connection flapped. */
  lemma MisledWhenOvertaken(key: S.JoinKey, payload: Payload, r: Reference, p: Payload, joined: bool)
    returns (moves: seq<Move>, overtaken: nat)
    ensures IsRun(false, moves) && overtaken < |moves| && IsRun(false, moves[..overtaken])
    ensures moves[overtaken] == Deliver && Overwrites(At(false, moves[..overtaken]), 0, S.Up)
    ensures if joined then At(false, moves[..overtaken]).channels[0].state.Joined?
            else At(false, moves[..overtaken]).channels[0].state.Joining?
    ensures WaitsInVain(At(false, moves)) && Misled(false, moves, 0)
  {
    hide IsRun, Misled, WaitsInVain, Overwrites;
    var c;
    moves, c := Accepting(key, payload, r, p, joined);
    var channel := Channel(key, payload, Attempting(joined, p), None, false);
    overtaken := |moves| + 3;
    moves := Flapping(moves, c, channel);
    ghost var before := moves;
    var late := channel.(unread := Some(Unread(S.Up, true)));
    if !joined {
      moves := Go(moves, ChannelStep(0, C.JoinEnds(S.JoinOk(p))));
      late := late.(state := Attempting(true, p));
      assert At(false, moves).channels == map[0 := late];
    }
    moves := Misleading(moves, late);
    assert moves[..overtaken] == before[..overtaken];
    WaitingInVainIsMisled(moves);
  }

  lemma AcceptedJoins(key: S.JoinKey, payload: Payload, p: Payload, unread: Option<Unread>)
    ensures var c := Channel(key, payload, C.Joining(0, [0], Backoff.Retry(10, 0)), unread, false);
            var next := C.Iterate(c.state, C.JoinEnds(S.JoinOk(p)));
            next.state == C.Joined(0, p, 10) && Requested(c, next.outputs) == []
  {
    assert |C.ReplyJoins([0], C.JoinedWith(p))| == 1;
  }

  lemma AnsweredIsIdle(key: S.JoinKey, payload: Payload)
    ensures S.KeyOf(Asked(key, payload)) == key && OnlyPending(Pending(key, payload), Asked(key, payload))
    ensures IsIdle(S.Connected(Answered(Pending(key, payload), Asked(key, payload), StatusOk)))
  {
  }

  /** A channel with an unread event asks to join, and the socket sends the join. */
  lemma JoiningUnread(moves: seq<Move>, key: S.JoinKey, payload: Payload, r: Reference) returns (longer: seq<Move>)
    requires IsRun(false, moves)
    requires At(false, moves) == Settled(S.EmptyConnection(10), Unaware(key, payload, C.WaitingToJoin, true), [], 0, 0)
    ensures moves <= longer && IsRun(false, longer)
    ensures At(false, longer)
            == Settled(Pending(key, payload),
                       Unaware(key, payload, C.Joining(0, [0], Backoff.Retry(10, 0)), false), [], 1, 1)
  {
    hide IsRun, S.Iterate, S.Enabled, S.EmptyConnection, Pending;
    longer := Go(moves, ChannelStep(0, C.TakeJoin(0, 0, 10, 0, true, 0)));
    assert At(false, longer).queue == [JoinCommand(Asked(key, payload))];
    assert At(false, longer).channels == Unaware(key, payload, C.Joining(0, [0], Backoff.Retry(10, 0)), false);
    JoinSent(key, payload, r);
    longer := Go(longer, SocketStep(TakeAsked(key, payload, r)));
    assert At(false, longer).queue == [];
    longer := Go(longer, Deliver);
    assert At(false, longer).outbox == [];
  }

  /** The only channel, which has not read that the socket is connected again. */
  function Unaware(key: S.JoinKey, payload: Payload, state: C.State, lagged: bool): map<nat, Channel> {
    map[0 := Channel(key, payload, state, Some(Unread(S.Up, lagged)), false)]
  }

  /** A channel that was waiting to join when the connection flapped, and joined before it read of it. */
  lemma MisledAfterJoining(key: S.JoinKey, payload: Payload, r: Reference, p: Payload)
    returns (moves: seq<Move>, overtaken: nat)
    ensures IsRun(false, moves) && overtaken < |moves| && IsRun(false, moves[..overtaken])
    ensures moves[overtaken] == Deliver && Overwrites(At(false, moves[..overtaken]), 0, S.Up)
    ensures At(false, moves[..overtaken]).channels[0].state.WaitingToJoin?
    ensures WaitsInVain(At(false, moves)) && Misled(false, moves, 0)
  {
    hide IsRun, Misled, WaitsInVain, Overwrites, C.Iterate, Requested, Pending, Answered;
    moves := Spawning(key, payload);
    var channel := Channel(key, payload, C.WaitingToJoin, None, false);
    overtaken := |moves| + 3;
    moves := Flapping(moves, S.EmptyConnection(10), channel);
    ghost var before := moves;
    moves := JoiningUnread(moves, key, payload, r);
    AnsweredIsIdle(key, payload);
    moves := Answering(moves, Pending(key, payload), Asked(key, payload), r, StatusOk, p);
    AcceptedJoins(key, payload, p, Some(Unread(S.Up, false)));
    var joining := Channel(key, payload, C.Joining(0, [0], Backoff.Retry(10, 0)), Some(Unread(S.Up, false)), false);
    moves := Stepping(moves, joining, C.JoinEnds(S.JoinOk(p)), C.Joined(0, p, 10), []);
    moves := Misleading(moves, joining.(state := C.Joined(0, p, 10)));
    assert moves[..overtaken] == before[..overtaken];
    WaitingInVainIsMisled(moves);
  }

  lemma IdleDisconnects(c: S.Connection)
    requires c.joins == map[] && c.calls == map[]
    ensures var step := S.Step(S.TakeDisconnect(0), IDLE);
            && S.Enabled(S.Connected(c), step)
            && S.Iterate(false, S.Connected(c), step)
               == S.Outcome(S.Disconnected, [S.Announce(S.Down(S.Disconnect)), S.EndDisconnect(0)])
  {
  }

  /** The socket is disconnected on request, and the announcement reaches the channel. */
  lemma Disconnecting(moves: seq<Move>, channel: Channel) returns (longer: seq<Move>)
    requires IsRun(false, moves) && WaitsInVain(At(false, moves)) && At(false, moves).channels == map[0 := channel]
    ensures IsRun(false, longer)
    ensures At(false, longer).socket == S.Disconnected
    ensures At(false, longer).channels == map[0 := channel.(unread := Some(Unread(S.Down(S.Disconnect), false)))]
  {
    hide IsRun, S.Iterate, S.Enabled;
    IdleDisconnects(At(false, moves).socket.connection);
    longer := Go(moves, SocketStep(S.Step(S.TakeDisconnect(0), IDLE)));
    assert At(false, longer).channels == map[0 := channel];
    longer := Go(longer, Deliver);
    assert At(false, longer).outbox == [S.EndDisconnect(0)];
    assert At(false, longer).channels == map[0 := channel.(unread := Some(Unread(S.Down(S.Disconnect), false)))];
    longer := Go(longer, Deliver);
  }

  lemma HearingKeepsIntent(w: World, channel: Channel)
    requires w.channels == map[0 := channel] && !channel.shutdownRequested
    requires channel.state == C.WaitingForSocketToConnect(Some(Backoff.Retry(10, 0)))
    requires channel.unread == Some(Unread(S.Down(S.Disconnect), false))
    ensures var hear := ChannelStep(0, C.Hear(S.Down(S.Disconnect)));
            && Enabled(w, hear) && 0 in Next(w, hear).channels
            && C.Intent(Next(w, hear).channels[0].state) == C.Intent(channel.state) == Some(Backoff.Retry(10, 0))
  {
  }

  /** A channel that waits in vain keeps its intent to rejoin when the socket is then disconnected on request. */
  lemma MisledKeepsIntent(key: S.JoinKey, payload: Payload, r: Reference, p: Payload)
    returns (moves: seq<Move>)
    ensures IsRun(false, moves)
    ensures var w, hear := At(false, moves), ChannelStep(0, C.Hear(S.Down(S.Disconnect)));
            && w.socket.Disconnected? && w.channels.Keys == {0} && w.channels[0].state.WaitingForSocketToConnect?
            && Enabled(w, hear) && 0 in Next(w, hear).channels
            && C.Intent(Next(w, hear).channels[0].state) == C.Intent(w.channels[0].state) == Some(Backoff.Retry(10, 0))
  {
    hide IsRun, Misled, Overwrites, Next, Enabled;
    var overtaken;
    moves, overtaken := MisledWhenOvertaken(key, payload, r, p, true);
    var channel := At(false, moves).channels[0];
    assert At(false, moves).channels == map[0 := channel];
    moves := Disconnecting(moves, channel);
    HearingKeepsIntent(At(false, moves), channel.(unread := Some(Unread(S.Down(S.Disconnect), false))));
  }
}
