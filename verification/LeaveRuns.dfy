/**
 In every run of the socket with any channels: the answer that a channel gets to its leave is what became of the
 write of that very leave (src/rust/socket/listener.rs, src/rust/channel/listener.rs).
 */
module LeaveRuns {
  import opened Wrappers
  import opened Messages
  import opened World
  import opened Routing
  import Steps = SocketSteps
  import S = SocketProtocol
  import C = ChannelProtocol

  /** The socket took this leave command, and its write came out like this. */
  ghost predicate WritesLeave(move: Move, key: S.JoinKey, x: S.SenderId, sent: bool) {
    && move.SocketStep? && move.step.input.TakeLeave? && move.step.input.sender == x && move.step.input.sent == sent
    && (move.step.input.topic, move.step.input.joinReference) == key
  }

  /** The socket took a leave command with this one-shot. */
  ghost predicate TakesLeaveOf(move: Move, x: S.SenderId) {
    move.SocketStep? && move.step.input.TakeLeave? && move.step.input.sender == x
  }

  ghost predicate HasLeaveFate(w: World, x: S.SenderId, sent: bool) {
    (x in w.leaveFates && w.leaveFates[x] == sent) || S.EndLeave(x, sent) in w.outbox
  }

  /** Every answer to a leave, delivered or not, comes from the socket taking it. */
  ghost predicate FatesAreWritten(w: World, moves: seq<Move>) {
    forall x: S.SenderId, sent: bool | HasLeaveFate(w, x, sent) ::
      exists i, key :: 0 <= i < |moves| && WritesLeave(moves[i], key, x, sent)
  }

  /** Leaves that were taken have left the queue for good. */
  ghost predicate TakenAreOld(w: World, moves: seq<Move>) {
    forall i | 0 <= i < |moves| :: moves[i].SocketStep? && moves[i].step.input.TakeLeave? ==>
      moves[i].step.input.sender < w.frontier
  }

  /** The one-shot that a leaving channel waits for belongs to its own leave, in the queue and when it was taken. */
  ghost predicate LeaveIsOwn(w: World, moves: seq<Move>, c: Channel) {
    c.state.Leaving? ==>
      && c.state.leave < w.nextSender
      && (forall i | 0 <= i < |w.queue| && SenderOf(w.queue[i]) == c.state.leave ::
            w.queue[i] == LeaveCommand(c.key, c.state.leave))
      && (forall i | 0 <= i < |moves| && TakesLeaveOf(moves[i], c.state.leave) ::
            (moves[i].step.input.topic, moves[i].step.input.joinReference) == c.key)
  }

  ghost predicate LeaveInvariant(w: World, moves: seq<Move>) {
    && FatesAreWritten(w, moves) && TakenAreOld(w, moves)
    && forall id | id in w.channels :: LeaveIsOwn(w, moves, w.channels[id])
  }

  // ---------------------------------------------------------------------------------- moves

  lemma MoveWritesFates(w: World, moves: seq<Move>, move: Move)
    requires FatesAreWritten(w, moves) && Enabled(w, move)
    ensures FatesAreWritten(Next(w, move), moves + [move])
  {
    hide S.Iterate, C.Iterate, WritesLeave;
    var next, longer := Next(w, move), moves + [move];
    forall x: S.SenderId, sent: bool | HasLeaveFate(next, x, sent)
      ensures exists i, key :: 0 <= i < |longer| && WritesLeave(longer[i], key, x, sent)
    {
      if HasLeaveFate(w, x, sent) {
        var i, key :| 0 <= i < |moves| && WritesLeave(moves[i], key, x, sent);
        assert longer[i] == moves[i];
      } else {
        NewFateIsWritten(w, move, x, sent);
        assert longer[|moves|] == move;
      }
    }
  }

  lemma NewFateIsWritten(w: World, move: Move, x: S.SenderId, sent: bool)
    requires Enabled(w, move) && HasLeaveFate(Next(w, move), x, sent) && !HasLeaveFate(w, x, sent)
    ensures exists key :: WritesLeave(move, key, x, sent)
  {
    hide S.Iterate, C.Iterate;
    match move
    case SocketStep(step) =>
      Steps.EffectsExactly(w.strategy, w.socket, step, S.EndLeave(x, sent));
      assert WritesLeave(move, (step.input.topic, step.input.joinReference), x, sent);
    case Deliver => HeadOrRest(w.outbox, S.EndLeave(x, sent));
    case _ =>
  }

  lemma SocketTakesFromFront(w: World, step: S.Step)
    requires RoutingInvariant(w) && Enabled(w, SocketStep(step))
    ensures var next := AfterSocket(w, step);
            && w.frontier <= next.frontier && next.nextSender == w.nextSender && next.channels == w.channels
            && (TakesCommand(step.input) ==> SenderOf(w.queue[0]) < next.frontier)
            && (forall i | 0 <= i < |next.queue| :: next.queue[i] in w.queue)
  {
    hide S.Iterate;
  }

  lemma SocketKeepsOwn(w: World, moves: seq<Move>, step: S.Step, c: Channel)
    requires RoutingInvariant(w) && Enabled(w, SocketStep(step)) && LeaveIsOwn(w, moves, c)
    ensures LeaveIsOwn(AfterSocket(w, step), moves + [SocketStep(step)], c)
  {
    hide S.Iterate, RoutingInvariant;
    SocketTakesFromFront(w, step);
    var next, longer := AfterSocket(w, step), moves + [SocketStep(step)];
    if c.state.Leaving? {
      forall i | 0 <= i < |next.queue| && SenderOf(next.queue[i]) == c.state.leave
        ensures next.queue[i] == LeaveCommand(c.key, c.state.leave)
      {
        assert next.queue[i] in w.queue;
      }
      forall i | 0 <= i < |longer| && TakesLeaveOf(longer[i], c.state.leave)
        ensures (longer[i].step.input.topic, longer[i].step.input.joinReference) == c.key
      {
        if i < |moves| {
          assert longer[i] == moves[i];
        }
      }
    }
  }

  lemma ChannelKeepsOwn(w: World, moves: seq<Move>, id: nat, input: C.Input)
    requires RoutingInvariant(w) && LeaveInvariant(w, moves) && Enabled(w, ChannelStep(id, input))
    ensures LeaveIsOwn(AfterChannel(w, id, input), moves + [ChannelStep(id, input)],
                       AfterChannel(w, id, input).channels[id])
  {
    hide C.ReplyJoins, C.ReplyLeaves, TakesLeaveOf, FatesAreWritten;
    var c, next := w.channels[id], AfterChannel(w, id, input);
    var longer := moves + [ChannelStep(id, input)];
    FanOutsAskNothing(c);
    RequestsAreFresh(w, id, input);
    LeavingHasAsked(w, id, input);
    NothingTaken(moves, ChannelStep(id, input));
    TakenAreNotNew(w, moves);
  }

  lemma OthersKeepOwn(w: World, moves: seq<Move>, id: nat, input: C.Input, other: nat)
    requires RoutingInvariant(w) && LeaveInvariant(w, moves) && Enabled(w, ChannelStep(id, input))
    requires other in w.channels && other != id
    ensures LeaveIsOwn(AfterChannel(w, id, input), moves + [ChannelStep(id, input)], w.channels[other])
  {
    hide C.Iterate, Requested, TakesLeaveOf, FatesAreWritten;
    RequestsAreFresh(w, id, input);
    NothingTaken(moves, ChannelStep(id, input));
  }

  /** What was taken is older than what is asked for next. */
  lemma TakenAreNotNew(w: World, moves: seq<Move>)
    requires RoutingInvariant(w) && TakenAreOld(w, moves)
    ensures forall i | 0 <= i < |moves| :: !TakesLeaveOf(moves[i], w.nextSender)
  {
  }

  /** A channel that starts leaving asks for it under its own key and the next one-shot. */
  lemma LeavingHasAsked(w: World, id: nat, input: C.Input)
    requires Enabled(w, ChannelStep(id, input))
    ensures var c := w.channels[id];
            var next := C.Iterate(c.state, input);
            next.state.Leaving? && !(c.state.Leaving? && c.state.leave == next.state.leave) ==>
              next.state.leave == w.nextSender && Requested(c, next.outputs) == [LeaveCommand(c.key, w.nextSender)]
  {
    hide C.ReplyJoins, C.ReplyLeaves;
  }

  lemma MoveKeepsLeaves(w: World, moves: seq<Move>, move: Move)
    requires RoutingInvariant(w) && LeaveInvariant(w, moves) && Enabled(w, move)
    ensures LeaveInvariant(Next(w, move), moves + [move])
  {
    hide S.Iterate, C.Iterate, LeaveIsOwn, FatesAreWritten, RoutingInvariant;
    var next, longer := Next(w, move), moves + [move];
    MoveWritesFates(w, moves, move);
    if move.SocketStep? {
      SocketTakesFromFront(w, move.step);
    }
    assert w.frontier <= next.frontier;
    assert TakenAreOld(next, longer);
    forall id | id in next.channels ensures LeaveIsOwn(next, longer, next.channels[id]) {
      match move
      case SocketStep(step) => SocketKeepsOwn(w, moves, step, w.channels[id]);
      case ChannelStep(stepper, input) =>
        if stepper == id {
          ChannelKeepsOwn(w, moves, id, input);
        } else {
          OthersKeepOwn(w, moves, stepper, input, id);
        }
      case _ => BystandersKeepOwn(w, moves, move, id);
    }
  }

  lemma NothingTaken(moves: seq<Move>, move: Move)
    requires !move.SocketStep?
    ensures var longer := moves + [move];
            forall i, x: S.SenderId | 0 <= i < |longer| && TakesLeaveOf(longer[i], x) ::
              i < |moves| && longer[i] == moves[i]
  {
  }

  lemma BystandersKeepOwn(w: World, moves: seq<Move>, move: Move, id: nat)
    requires Enabled(w, move) && !move.SocketStep? && !move.ChannelStep? && id in Next(w, move).channels
    requires id in w.channels ==> LeaveIsOwn(w, moves, w.channels[id])
    ensures LeaveIsOwn(Next(w, move), moves + [move], Next(w, move).channels[id])
  {
    hide S.Iterate, C.Iterate, TakesLeaveOf, WritesLeave;
    NothingTaken(moves, move);
  }

  lemma {:induction false} RunKeepsLeaves(strategy: bool, moves: seq<Move>)
    requires IsRun(strategy, moves)
    ensures LeaveInvariant(At(strategy, moves), moves)
  {
    hide Enabled, Next;
    if |moves| == 0 {
    } else {
      var before, move := moves[..|moves| - 1], moves[|moves| - 1];
      RunKeepsLeaves(strategy, before);
      RunKeepsRouting(strategy, before);
      MoveKeepsLeaves(At(strategy, before), before, move);
      assert before + [move] == moves;
    }
  }

  /**
   A channel learns of its own leave what became of it: when it takes the end of a leave, the socket took that leave
   command, for this channel's topic and join reference, at an earlier move, and its write came out as the channel now
   hears.
   */
  lemma LeaveEndsAsWritten(strategy: bool, moves: seq<Move>, id: nat, sent: bool) returns (i: nat)
    requires IsRun(strategy, moves) && Enabled(At(strategy, moves), ChannelStep(id, C.LeaveEnds(sent)))
    ensures var c := At(strategy, moves).channels[id];
            c.state.Leaving? && i < |moves| && WritesLeave(moves[i], c.key, c.state.leave, sent)
  {
    hide IsRun;
    RunKeepsLeaves(strategy, moves);
    var w := At(strategy, moves);
    var x := w.channels[id].state.leave;
    assert HasLeaveFate(w, x, sent);
    var j, key :| 0 <= j < |moves| && WritesLeave(moves[j], key, x, sent);
    assert LeaveIsOwn(w, moves, w.channels[id]);
    assert TakesLeaveOf(moves[j], x);
    i := j;
  }
}
