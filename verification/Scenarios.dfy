/**
 The first moves of the runs that the examples below are made of: a socket connects, and a channel asks it to join.
 */
module Scenarios {
  import opened Wrappers
  import opened Messages
  import Backoff
  import opened World
  import opened Agreement
  import S = SocketProtocol
  import C = ChannelProtocol

  lemma Extend(moves: seq<Move>, move: Move)
    requires IsRun(false, moves) && IsCalmRun(false, moves)
    requires Enabled(At(false, moves), move) && NoLag(At(false, moves), move)
    ensures IsRun(false, moves + [move]) && IsCalmRun(false, moves + [move])
    ensures At(false, moves + [move]) == Next(At(false, moves), move)
  {
    hide Enabled, NoLag, Next;
    ExtendRun(false, moves, move);
    assert (moves + [move])[..|moves + [move]| - 1] == moves;
  }

  function Asked(key: S.JoinKey, payload: Payload): S.PendingJoin {
    S.PendingJoin(0, key.0, key.1, payload, 10)
  }

  function Member(key: S.JoinKey, payload: Payload, state: C.State): map<nat, Channel> {
    map[0 := Channel(key, payload, state, None, false)]
  }

  /** A connected socket with nothing on its way. */
  function Settled(connection: S.Connection, channels: map<nat, Channel>, queue: seq<Command>, taken: nat, asked: nat)
    : World
  {
    World(false, S.Connected(connection), [], queue, channels, map[], map[], {}, taken, asked)
  }

  /** The socket connects, with no channels yet. */
  lemma Connecting() returns (moves: seq<Move>)
    ensures IsRun(false, moves) && IsCalmRun(false, moves)
    ensures At(false, moves) == Settled(S.EmptyConnection(10), map[], [], 0, 0)
  {
    moves := [];
    var connect := SocketStep(S.Step(S.TakeConnect(0, 10, true, 0), S.DrainOrder([], [])));
    Extend(moves, connect);
    moves := moves + [connect];
    Extend(moves, Deliver);
    moves := moves + [Deliver];
    assert At(false, moves).channels == map[];
    Extend(moves, Deliver);
    moves := moves + [Deliver];
    assert At(false, moves).outbox == [];
  }

  /** A channel is spawned. */
  lemma Spawning(key: S.JoinKey, payload: Payload) returns (moves: seq<Move>)
    ensures IsRun(false, moves) && IsCalmRun(false, moves)
    ensures At(false, moves) == Settled(S.EmptyConnection(10), Member(key, payload, C.WaitingToJoin), [], 0, 0)
  {
    moves := Connecting();
    var spawn := Spawn(0, key, payload);
    Extend(moves, spawn);
    moves := moves + [spawn];
  }

  /** It asks to join. */
  lemma Asking(key: S.JoinKey, payload: Payload) returns (moves: seq<Move>)
    ensures IsRun(false, moves) && IsCalmRun(false, moves)
    ensures At(false, moves)
            == Settled(S.EmptyConnection(10), Member(key, payload, C.Joining(0, [0], Backoff.Retry(10, 0))),
                       [JoinCommand(Asked(key, payload))], 0, 1)
  {
    moves := Spawning(key, payload);
    var join := ChannelStep(0, C.TakeJoin(0, 0, 10, 0, true, 0));
    Extend(moves, join);
    moves := moves + [join];
    assert At(false, moves).queue == [JoinCommand(Asked(key, payload))];
    assert At(false, moves).channels == Member(key, payload, C.Joining(0, [0], Backoff.Retry(10, 0)));
  }

  function Pending(key: S.JoinKey, payload: Payload): S.Connection {
    S.EmptyConnection(10).(joins := map[key := Asked(key, payload)], timers := multiset{S.Timer(key, 10)})
  }

  function TakeAsked(key: S.JoinKey, payload: Payload, r: Reference): S.Step {
    S.Step(S.TakeJoin(Asked(key, payload), r, true), S.DrainOrder([], []))
  }

  lemma JoinSent(key: S.JoinKey, payload: Payload, r: Reference)
    ensures S.Enabled(S.Connected(S.EmptyConnection(10)), TakeAsked(key, payload, r))
    ensures var next := S.Iterate(false, S.Connected(S.EmptyConnection(10)), TakeAsked(key, payload, r));
            next.state == S.Connected(Pending(key, payload)) && |next.outputs| == 1 && next.outputs[0].Transmit?
  {
    assert S.KeyOf(Asked(key, payload)) == key;
  }

  /** The socket takes the join and sends it. */
  lemma Sending(key: S.JoinKey, payload: Payload, r: Reference) returns (moves: seq<Move>)
    ensures IsRun(false, moves) && IsCalmRun(false, moves)
    ensures At(false, moves)
            == Settled(Pending(key, payload), Member(key, payload, C.Joining(0, [0], Backoff.Retry(10, 0))), [], 1, 1)
  {
    hide S.Iterate, S.Enabled, IsRun, IsCalmRun, S.EmptyConnection, Pending;
    moves := Asking(key, payload);
    var take := SocketStep(TakeAsked(key, payload, r));
    JoinSent(key, payload, r);
    Extend(moves, take);
    moves := moves + [take];
    assert At(false, moves).queue == [];
    Extend(moves, Deliver);
    moves := moves + [Deliver];
    assert At(false, moves).outbox == [];
  }

  // ---------------------------------------------------------------------------------- runs that may lag

  lemma Go(moves: seq<Move>, move: Move) returns (longer: seq<Move>)
    requires IsRun(false, moves) && Enabled(At(false, moves), move)
    ensures longer == moves + [move] && IsRun(false, longer) && At(false, longer) == Next(At(false, moves), move)
  {
    hide Enabled, Next;
    ExtendRun(false, moves, move);
    longer := moves + [move];
  }

  /** A step of the only channel. */
  lemma Stepping(moves: seq<Move>, channel: Channel, input: C.Input, next: C.State, commands: seq<Command>)
    returns (longer: seq<Move>)
    requires IsRun(false, moves) && At(false, moves).channels == map[0 := channel]
    requires C.Enabled(channel.state, input) && Ready(At(false, moves), channel, input) && Asks(At(false, moves), input)
    requires C.Iterate(channel.state, input).state == next
    requires Requested(channel, C.Iterate(channel.state, input).outputs) == commands
    ensures longer == moves + [ChannelStep(0, input)] && IsRun(false, longer)
    ensures At(false, longer) == At(false, moves).(
              channels := map[0 := channel.(state := next, unread := AfterReading(channel, input))],
              queue := At(false, moves).queue + commands,
              nextSender := At(false, moves).nextSender + |commands|)
  {
    hide IsRun, C.Iterate, C.Enabled, Ready, Requested, AfterReading, S.Enabled;
    longer := Go(moves, ChannelStep(0, input));
    assert At(false, longer).channels == map[0 := channel.(state := next, unread := AfterReading(channel, input))];
  }

  /** One join is pending on the connection, and nothing else. */
  ghost predicate OnlyPending(c: S.Connection, join: S.PendingJoin) {
    c.joins == map[S.KeyOf(join) := join] && c.calls == map[]
  }

  function Answer(join: S.PendingJoin, r: Reference, status: ReplyStatus, p: Payload): Message {
    ReplyMessage(join.topic, Phoenix(PhoenixEvent.Reply), p, join.joinReference, r, status)
  }

  function Answered(c: S.Connection, join: S.PendingJoin, status: ReplyStatus): S.Connection {
    if status.StatusOk? then
      c.(joins := map[], broadcasters := c.broadcasters + {join.topic},
         joined := c.joined[S.KeyOf(join) := join.sender])
    else c.(joins := map[])
  }

  function Fate(status: ReplyStatus, p: Payload): S.JoinFate {
    if status.StatusOk? then S.JoinOk(p) else S.JoinRejected(p)
  }

  lemma AnswerEnds(c: S.Connection, join: S.PendingJoin, r: Reference, status: ReplyStatus, p: Payload)
    requires OnlyPending(c, join)
    ensures S.HandleMessage(c, Answer(join, r, status, p))
            == (Answered(c, join, status), [S.EndJoin(join.sender, Fate(status, p))])
  {
    assert c.joins - {S.KeyOf(join)} == map[];
  }

  /** The server answers the pending join, and the answer is on its way to the channel. */
  lemma Answering(moves: seq<Move>, c: S.Connection, join: S.PendingJoin, r: Reference, status: ReplyStatus, p: Payload)
    returns (longer: seq<Move>)
    requires IsRun(false, moves)
    requires At(false, moves).socket == S.Connected(c) && At(false, moves).outbox == [] && OnlyPending(c, join)
    ensures moves <= longer && IsRun(false, longer)
    ensures At(false, longer) == At(false, moves).(
              socket := S.Connected(Answered(c, join, status)),
              joinFates := At(false, moves).joinFates[join.sender := Fate(status, p)])
  {
    hide IsRun, S.HandleMessage, Answered, Fate, Answer;
    var receive := SocketStep(S.Step(S.ReceiveMessage(Answer(join, r, status, p)), S.DrainOrder([S.KeyOf(join)], [])));
    assert S.Drains(receive.step.order, c);
    AnswerEnds(c, join, r, status, p);
    longer := Go(moves, receive);
    longer := Go(longer, Deliver);
    assert At(false, longer).outbox == [];
  }

  const IDLE: S.DrainOrder := S.DrainOrder([], [])

  lemma ConnectionLost(c: S.Connection)
    requires c.joins == map[] && c.calls == map[]
    ensures var step := S.Step(S.ReceiveClose, IDLE);
            && S.Enabled(S.Connected(c), step)
            && S.Iterate(false, S.Connected(c), step)
               == S.Outcome(S.Wait(Backoff.Retry(c.connectTimeout, 0)), [S.Announce(S.Down(S.Reconnect))])
  {
  }

  lemma ConnectionBack(timeout: nat)
    ensures var step := S.Step(S.ReconnectDue(true, 0), IDLE);
            && S.Enabled(S.Wait(Backoff.Retry(timeout, 0)), step)
            && S.Iterate(false, S.Wait(Backoff.Retry(timeout, 0)), step)
               == S.Outcome(S.Connected(S.EmptyConnection(timeout)), [S.Announce(S.Up)])
  {
  }

  /** An iteration of the socket that only announces, and the delivery of that announcement to the only channel. */
  lemma Announcing(moves: seq<Move>, step: S.Step, next: S.State, event: S.Connectivity, channel: Channel)
    returns (longer: seq<Move>)
    requires IsRun(false, moves) && At(false, moves).outbox == [] && !At(false, moves).strategy
    requires S.Enabled(At(false, moves).socket, step) && !TakesCommand(step.input) && !Exited(next)
    requires S.Iterate(false, At(false, moves).socket, step) == S.Outcome(next, [S.Announce(event)])
    requires At(false, moves).channels == map[0 := channel]
    ensures moves <= longer && |longer| == |moves| + 2 && longer[|moves| + 1] == Deliver && IsRun(false, longer)
    ensures At(false, longer) == At(false, moves).(socket := next, channels := map[0 := Hears(channel, event)])
    ensures IsRun(false, longer[..|moves| + 1])
    ensures At(false, longer[..|moves| + 1]) == At(false, moves).(socket := next, outbox := [S.Announce(event)])
  {
    hide IsRun, S.Iterate, S.Enabled, Hears;
    longer := Go(moves, SocketStep(step));
    ghost var before := longer;
    longer := Go(longer, Deliver);
    assert longer[..|moves| + 1] == before;
    assert At(false, longer).outbox == [];
    assert At(false, longer).channels == map[0 := Hears(channel, event)];
  }

  /** The connection is lost and opened again before the channel has read that it was lost. */
  lemma Flapping(moves: seq<Move>, c: S.Connection, channel: Channel) returns (longer: seq<Move>)
    requires IsRun(false, moves) && !At(false, moves).strategy
    requires At(false, moves).socket == S.Connected(c) && At(false, moves).outbox == []
    requires c.joins == map[] && c.calls == map[]
    requires At(false, moves).channels == map[0 := channel] && C.Live(channel.state)
    ensures moves <= longer && |longer| == |moves| + 4 && IsRun(false, longer)
    ensures At(false, longer) == At(false, moves).(
              socket := S.Connected(S.EmptyConnection(c.connectTimeout)),
              channels := map[0 := channel.(unread := Some(Unread(S.Up, true)))])
    ensures IsRun(false, longer[..|moves| + 3]) && longer[|moves| + 3] == Deliver
    ensures Overwrites(At(false, longer[..|moves| + 3]), 0, S.Up)
    ensures At(false, longer[..|moves| + 3]).channels[0].state == channel.state
  {
    hide IsRun, S.Iterate, S.Enabled, S.Wait, S.EmptyConnection;
    ConnectionLost(c);
    ConnectionBack(c.connectTimeout);
    var waiting := S.Wait(Backoff.Retry(c.connectTimeout, 0));
    assert !Exited(waiting) by { WaitGoesOn(Backoff.Retry(c.connectTimeout, 0)); }
    var down := Hears(channel, S.Down(S.Reconnect));
    longer := Announcing(moves, S.Step(S.ReceiveClose, IDLE), waiting, S.Down(S.Reconnect), channel);
    longer := Announcing(longer, S.Step(S.ReconnectDue(true, 0), IDLE),
                         S.Connected(S.EmptyConnection(c.connectTimeout)), S.Up, down);
  }

  lemma WaitGoesOn(r: Backoff.Retry)
    ensures !Exited(S.Wait(r))
  {
  }

  /** The next announcement overwrites one that the channel has not read. */
  ghost predicate Overwrites(w: World, id: nat, event: S.Connectivity) {
    && w.outbox != [] && w.outbox[0] == S.Announce(event)
    && id in w.channels && C.Live(w.channels[id].state) && w.channels[id].unread.Some?
  }
}
