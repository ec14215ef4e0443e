/**
 An early timeout as a channel can bring it about: the server rejects a join, the channel rejoins on its own, and
 the timer of the rejected join ends the new one before its deadline (src/rust/socket/listener.rs,
 src/rust/channel/listener.rs).
 */
module StaleTimer {
  import opened Wrappers
  import opened Messages
  import Backoff
  import opened World
  import opened Scenarios
  import S = SocketProtocol
  import C = ChannelProtocol

  function Again(key: S.JoinKey, payload: Payload): S.PendingJoin {
    S.PendingJoin(1, key.0, key.1, payload, 15)
  }

  function PendingAgain(key: S.JoinKey, payload: Payload): S.Connection {
    S.EmptyConnection(10).(joins := map[key := Again(key, payload)],
                           timers := multiset{S.Timer(key, 10), S.Timer(key, 15)})
  }

  /** The server rejects the join; its timer stays. */
  lemma Rejecting(key: S.JoinKey, payload: Payload, r: Reference, p: Payload) returns (moves: seq<Move>)
    ensures IsRun(false, moves)
    ensures At(false, moves)
            == Settled(Pending(key, payload).(joins := map[]),
                       Member(key, payload, C.Joining(0, [0], Backoff.Retry(10, 0))), [], 1, 1)
               .(joinFates := map[0 := S.JoinRejected(p)])
  {
    hide IsRun;
    moves := Sending(key, payload, r);
    assert S.KeyOf(Asked(key, payload)) == key;
    moves := Answering(moves, Pending(key, payload), Asked(key, payload), r, StatusError, p);
  }

  lemma RejectedWaits(key: S.JoinKey, payload: Payload, p: Payload)
    ensures var c := Channel(key, payload, C.Joining(0, [0], Backoff.Retry(10, 0)), None, false);
            var next := C.Iterate(c.state, C.JoinEnds(S.JoinRejected(p)));
            next.state == C.WaitingToRejoin(0, Backoff.Retry(10, 1)) && Requested(c, next.outputs) == []
  {
    assert |C.ReplyJoins([0], C.JoinRefused(C.Rejected(p)))| == 1;
  }

  lemma RejoinAsks(key: S.JoinKey, payload: Payload)
    ensures var c := Channel(key, payload, C.WaitingToRejoin(0, Backoff.Retry(10, 1)), None, false);
            var next := C.Iterate(c.state, C.RejoinDue(5, true, 1));
            && next.state == C.Joining(1, [], Backoff.Retry(10, 1))
            && Requested(c, next.outputs) == [JoinCommand(Again(key, payload))]
  {
  }

  /** The channel hears of it, waits for no time at all, and asks again at time 5. */
  lemma Rejoining(key: S.JoinKey, payload: Payload, r: Reference, p: Payload) returns (moves: seq<Move>)
    ensures IsRun(false, moves)
    ensures At(false, moves)
            == Settled(Pending(key, payload).(joins := map[]),
                       Member(key, payload, C.Joining(1, [], Backoff.Retry(10, 1))),
                       [JoinCommand(Again(key, payload))], 1, 2)
               .(joinFates := map[0 := S.JoinRejected(p)])
  {
    hide IsRun, Pending, C.Iterate, Requested;
    moves := Rejecting(key, payload, r, p);
    var first, idle, second := C.Joining(0, [0], Backoff.Retry(10, 0)), C.WaitingToRejoin(0, Backoff.Retry(10, 1)),
                               C.Joining(1, [], Backoff.Retry(10, 1));
    RejectedWaits(key, payload, p);
    moves := Stepping(moves, Channel(key, payload, first, None, false), C.JoinEnds(S.JoinRejected(p)), idle, []);
    RejoinAsks(key, payload);
    moves := Stepping(moves, Channel(key, payload, idle, None, false), C.RejoinDue(5, true, 1), second,
                      [JoinCommand(Again(key, payload))]);
  }

  lemma SentAgain(key: S.JoinKey, payload: Payload, r: Reference)
    ensures var c := Pending(key, payload).(joins := map[]);
            var step := S.Step(S.TakeJoin(Again(key, payload), r, true), IDLE);
            && S.Enabled(S.Connected(c), step)
            && var next := S.Iterate(false, S.Connected(c), step);
               next.state == S.Connected(PendingAgain(key, payload)) && |next.outputs| == 1 && next.outputs[0].Transmit?
  {
    assert S.KeyOf(Again(key, payload)) == key;
  }

  lemma FirstTimerEndsSecondJoin(key: S.JoinKey, payload: Payload)
    ensures var fire := S.Step(S.JoinTimerFires(S.Timer(key, 10)), S.DrainOrder([key], []));
            && S.Enabled(S.Connected(PendingAgain(key, payload)), fire)
            && var next := S.Iterate(false, S.Connected(PendingAgain(key, payload)), fire);
               next.state.Connected? && next.outputs == [S.EndJoin(1, S.JoinTimedOut)]
  {
    assert S.Timer(key, 10) in PendingAgain(key, payload).timers;
  }

  /** The second join is pending, with five more to go, when the first one's timer fires and ends it. */
  lemma RejoinTimesOutEarly(key: S.JoinKey, payload: Payload, r: Reference, p: Payload) returns (moves: seq<Move>)
    ensures IsRun(false, moves)
    ensures var w, fire := At(false, moves), S.Step(S.JoinTimerFires(S.Timer(key, 10)), S.DrainOrder([key], []));
            && w.socket == S.Connected(PendingAgain(key, payload))
            && w.channels == Member(key, payload, C.Joining(1, [], Backoff.Retry(10, 1)))
            && Enabled(w, SocketStep(fire))
            && Next(w, SocketStep(fire)).outbox == [S.EndJoin(1, S.JoinTimedOut)]
            && Again(key, payload).deadline == 15
  {
    hide IsRun, PendingAgain, S.Iterate, S.Enabled;
    moves := Rejoining(key, payload, r, p);
    moves := Taking(moves, key, payload, r, p);
    FirstTimerEndsSecondJoin(key, payload);
  }

  lemma Taking(moves: seq<Move>, key: S.JoinKey, payload: Payload, r: Reference, p: Payload) returns (longer: seq<Move>)
    requires IsRun(false, moves)
    requires At(false, moves)
             == Settled(Pending(key, payload).(joins := map[]),
                        Member(key, payload, C.Joining(1, [], Backoff.Retry(10, 1))),
                        [JoinCommand(Again(key, payload))], 1, 2)
                .(joinFates := map[0 := S.JoinRejected(p)])
    ensures IsRun(false, longer)
    ensures At(false, longer)
            == Settled(PendingAgain(key, payload),
                       Member(key, payload, C.Joining(1, [], Backoff.Retry(10, 1))), [], 2, 2)
               .(joinFates := map[0 := S.JoinRejected(p)])
  {
    hide IsRun, S.Iterate, S.Enabled, Pending, PendingAgain;
    SentAgain(key, payload, r);
    longer := Go(moves, SocketStep(S.Step(S.TakeJoin(Again(key, payload), r, true), IDLE)));
    assert At(false, longer).queue == [];
    longer := Go(longer, Deliver);
    assert At(false, longer).outbox == [];
  }
}
