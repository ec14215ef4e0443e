/**
 The exception in who is answered does come up: a channel is joined, a caller waits for it to leave, and a join that has
 already expired is taken before the leave is done (src/rust/channel/listener.rs).
 */
module ExpiredJoin {
  import opened Wrappers
  import opened Messages
  import Backoff
  import opened World
  import opened Scenarios
  import opened LagExamples
  import ChannelRuns
  import S = SocketProtocol
  import C = ChannelProtocol

  /** The parked leaver 7 and the expired joiner 8 both go unanswered. */
  lemma ExpiredJoinWhileLeaving(key: S.JoinKey, payload: Payload, r: Reference, p: Payload) returns (moves: seq<Move>)
    ensures IsRun(false, moves)
    ensures var w, join := At(false, moves), C.TakeJoin(8, 0, 10, 11, true, 2);
            && Enabled(w, ChannelStep(0, join)) && C.Expired(join)
            && w.channels[0].state == C.Leaving(1, [7])
            && C.Iterate(w.channels[0].state, join) == C.Outcome(C.WaitingToRejoin(0, Backoff.Retry(10, 1)), [])
            && ChannelRuns.ParkedLeaves(w.channels[0].state, 7) == 1
            && ChannelRuns.LostLeaves(w.channels[0].state, join, 7) == 1
            && ChannelRuns.LostJoins(w.channels[0].state, join, 8) == 1
  {
    hide IsRun, C.Iterate, C.Enabled, Requested;
    hide ChannelRuns.ParkedLeaves, ChannelRuns.LostLeaves, ChannelRuns.LostJoins;
    var c;
    moves, c := Accepting(key, payload, r, p, true);
    var channel := Channel(key, payload, C.Joined(0, p, 10), None, false);
    Leaves(channel, p);
    moves := Stepping(moves, channel, C.TakeLeave(7, true, 1), C.Leaving(1, [7]), [LeaveCommand(key, 1)]);
    ExpiredJoinAnswersNobody();
  }

  lemma Leaves(channel: Channel, p: Payload)
    requires channel.state == C.Joined(0, p, 10)
    ensures var next := C.Iterate(channel.state, C.TakeLeave(7, true, 1));
            && C.Enabled(channel.state, C.TakeLeave(7, true, 1))
            && next.state == C.Leaving(1, [7]) && Requested(channel, next.outputs) == [LeaveCommand(channel.key, 1)]
  {
  }

  lemma ExpiredJoinAnswersNobody()
    ensures var s, join := C.Leaving(1, [7]), C.TakeJoin(8, 0, 10, 11, true, 2);
            && C.Enabled(s, join) && C.Expired(join)
            && C.Iterate(s, join) == C.Outcome(C.WaitingToRejoin(0, Backoff.Retry(10, 1)), [])
            && ChannelRuns.ParkedLeaves(s, 7) == 1 && ChannelRuns.LostLeaves(s, join, 7) == 1
            && ChannelRuns.LostJoins(s, join, 8) == 1
  {
  }
}
