/**
 The channel listener as the code keeps it: an object whose state is taken out, turned into the next one and
 put back by each iteration of its loop, with the parked callers answered by draining them one by one
 (src/rust/channel/listener.rs). Every method is tied to the function of ChannelProtocol that says what it does.
 */
module ChannelListener {
  import opened Wrappers
  import opened Messages
  import opened Backoff
  import opened ChannelProtocol
  import opened ChannelRuns
  import Socket = SocketProtocol

  /** Answers the callers parked for a join, first come first served. */
  method SendJoinPayloadToChannelTxs(waiters: seq<WaiterId>, reply: JoinReply) returns (outputs: seq<Output>)
    ensures outputs == ReplyJoins(waiters, reply)
  {
    var remaining := waiters;
    outputs := [];
    while remaining != []
      invariant |remaining| <= |waiters| && remaining == waiters[|waiters| - |remaining|..]
      invariant outputs == ReplyJoins(waiters[..|waiters| - |remaining|], reply)
    {
      ghost var done := waiters[..|waiters| - |remaining| + 1];
      assert done[..|done| - 1] == waiters[..|waiters| - |remaining|];
      outputs := outputs + [ReplyJoin(remaining[0], reply)];
      remaining := remaining[1..];
    }
    assert waiters[..|waiters|] == waiters;
  }

  method SendToChannelTxs(waiters: seq<WaiterId>, reply: LeaveReply) returns (outputs: seq<Output>)
    ensures outputs == ReplyLeaves(waiters, reply)
  {
    var remaining := waiters;
    outputs := [];
    while remaining != []
      invariant |remaining| <= |waiters| && remaining == waiters[|waiters| - |remaining|..]
      invariant outputs == ReplyLeaves(waiters[..|waiters| - |remaining|], reply)
    {
      ghost var done := waiters[..|waiters| - |remaining| + 1];
      assert done[..|done| - 1] == waiters[..|waiters| - |remaining|];
      outputs := outputs + [ReplyLeave(remaining[0], reply)];
      remaining := remaining[1..];
    }
    assert waiters[..|waiters|] == waiters;
  }

  // ---------------------------------------------------------------------------------- transitions

  /** The state parks nobody and has no join attempt: whatever was waited for is over. */
  predicate Settled(s: State) {
    !s.Joining? && !s.Joined? && !s.Leaving?
  }

  /** Waiting to rejoin with a retry, from now. */
  predicate StartsWaiting(s: State, r: Retry) {
    s.WaitingToRejoin? && s.sleep == SleepDuration(r) && Intent(s) == Some(Next(r))
  }

  /** Hearing of a change of connectivity ends whatever was under way: every parked caller is told, and the
      channel comes to believe what it heard, unless it was joined or joining and heard Up. */
  method HearConnectivity(state: State, event: Socket.Connectivity) returns (next: State, outputs: seq<Output>)
    ensures !Live(state) ==> next == state && outputs == []
    ensures Live(state) ==>
              && (Live(next) <==> event != Socket.Down(Socket.Shutdown))
              && (next.ShuttingDown? <==> event == Socket.Down(Socket.Shutdown))
              && (Believes(next) <==> event.Up? && Attempt(state).None?)
              && Settled(next) && (next.Left? <==> event.Up? && (state.Left? || state.Leaving?))
              && outputs == ReplyJoins(JoinCallers(state), JoinRefused(
                                         if next.ShuttingDown? then BeingShutDown else SocketDisconnected))
                            + ReplyLeaves(LeaveCallers(state), LeaveDone)
    ensures Live(state) && event != Socket.Down(Socket.Shutdown) ==>
              if event.Up? && state.WaitingForSocketToConnect? && Intent(state).Some? then
                StartsWaiting(next, Intent(state).value)
              else if event == Socket.Down(Socket.Disconnect) && Believes(state) then Intent(next) == None
              else Intent(next) == Intent(state)
    ensures event.Up? && state.WaitingToRejoin? ==> next == state
  {
    outputs := [];
    match state {
      case WaitingForSocketToConnect(intent) =>
        next := state;
        if event.Up? {
          next := match intent case None => WaitingToJoin case Some(rejoin) => Wait(rejoin);
        } else if event.cause.Shutdown? {
          next := ShuttingDown;
        }
      case WaitingToJoin | Left =>
        next := if event.Up? then state
                else if event.cause.Shutdown? then ShuttingDown
                else WaitingForSocketToConnect(None);
      case Joining(_, waiters, rejoin) =>
        if event.Up? || event.cause.Reconnect? {
          outputs := SendJoinPayloadToChannelTxs(waiters, JoinRefused(SocketDisconnected));
          next := WaitingForSocketToConnect(Some(rejoin));
        } else if event.cause.Disconnect? {
          outputs := SendJoinPayloadToChannelTxs(waiters, JoinRefused(SocketDisconnected));
          next := WaitingForSocketToConnect(None);
        } else {
          outputs := SendJoinPayloadToChannelTxs(waiters, JoinRefused(BeingShutDown));
          next := ShuttingDown;
        }
      case WaitingToRejoin(_, rejoin) =>
        next := if event.Up? then state
                else if event.cause.Disconnect? then WaitingForSocketToConnect(None)
                else if event.cause.Shutdown? then ShuttingDown
                else WaitingForSocketToConnect(Some(rejoin));
      case Joined(_, _, joinTimeout) =>
        next := if event.Up? || event.cause.Reconnect? then WaitingForSocketToConnect(Some(Retry(joinTimeout, 0)))
                else if event.cause.Disconnect? then WaitingForSocketToConnect(None)
                else ShuttingDown;
      case Leaving(_, waiters) =>
        outputs := SendToChannelTxs(waiters, LeaveDone);
        next := if event.Up? then Left
                else if event.cause.Shutdown? then ShuttingDown
                else WaitingForSocketToConnect(None);
      case ShuttingDown | ShutDown | Failed =>
        next := state;
    }
  }

  /** Whoever is parked, for a join or for a leave, is told that the channel is shutting down. */
  method Shutdown(state: State) returns (next: State, outputs: seq<Output>)
    ensures next == ShuttingDown
    ensures outputs == ReplyJoins(JoinCallers(state), JoinRefused(BeingShutDown))
                       + ReplyLeaves(LeaveCallers(state), LeaveRefused(LeaveBeingShutDown))
  {
    next, outputs := ShuttingDown, [];
    if state.Joining? {
      outputs := SendJoinPayloadToChannelTxs(state.joinWaiters, JoinRefused(BeingShutDown));
    } else if state.Leaving? {
      outputs := SendToChannelTxs(state.leaveWaiters, LeaveRefused(LeaveBeingShutDown));
    }
  }

  /** Whoever is parked is told that the socket is gone, and the loop ends with an error. */
  method SocketShutdown(state: State) returns (next: State, outputs: seq<Output>)
    ensures next == Failed
    ensures outputs == ReplyJoins(JoinCallers(state), JoinRefused(SocketShutDown))
                       + ReplyLeaves(LeaveCallers(state), LeaveRefused(LeaveSocketShutDown))
  {
    next, outputs := Failed, [];
    if state.Joining? {
      outputs := SendJoinPayloadToChannelTxs(state.joinWaiters, JoinRefused(SocketShutDown));
    } else if state.Leaving? {
      outputs := SendToChannelTxs(state.leaveWaiters, LeaveRefused(LeaveSocketShutDown));
    }
  }

  /** Asks the socket to join. The request goes out first; only once it was accepted do leavers that were still
      waiting hear that a join came first, and the given callers are parked with the given retry. */
  method RequestSocketJoin(state: State, createdAt: nat, rejoin: Retry, waiters: seq<WaiterId>, isOpen: bool,
                           sender: Socket.SenderId) returns (next: State, outputs: seq<Output>)
    ensures if isOpen then next.Joining? else next.Failed?
    ensures isOpen ==>
              && Attempt(next) == Some(sender) && Intent(next) == Some(rejoin) && JoinCallers(next) == waiters
              && outputs == [RequestJoin(sender, createdAt + rejoin.timeout)]
                            + ReplyLeaves(LeaveCallers(state), LeaveRefused(JoinBeforeLeft))
    ensures !isOpen ==>
              outputs == ReplyJoins(JoinCallers(state), JoinRefused(SocketShutDown))
                         + ReplyLeaves(LeaveCallers(state), LeaveRefused(LeaveSocketShutDown))
  {
    if !isOpen {
      next, outputs := SocketShutdown(state);
      return;
    }
    outputs := [RequestJoin(sender, createdAt + rejoin.timeout)];
    if state.Leaving? {
      var answers := SendToChannelTxs(state.leaveWaiters, LeaveRefused(JoinBeforeLeft));
      outputs := outputs + answers;
    }
    next := Joining(sender, waiters, rejoin);
  }

  /** A join command. A channel that means to be joined never starts another attempt: it parks the caller while
      joining and answers it otherwise. One that does not asks the socket, unless the command has expired, and
      then the caller and all parked leavers go unanswered. The code treats a join taken while waiting for the
      socket as unreachable, and the select of that state indeed takes no commands. */
  method JoinChannel(state: State, input: Input) returns (next: State, outputs: seq<Output>)
    requires input.TakeJoin? && Enabled(state, input)
    ensures Intent(state).Some? ==>
              && Intent(next) == Intent(state) && Attempt(next) == Attempt(state)
              && JoinCallers(next) == JoinCallers(state) + (if state.Joining? then [input.waiter] else [])
              && (if state.Joining? then outputs == []
                  else next == state && |outputs| == 1 && outputs[0].ReplyJoin? && outputs[0].waiter == input.waiter)
    ensures state.Joined? ==> outputs[0].joinReply == JoinedWith(state.payload)
    ensures state.WaitingToRejoin? ==> outputs[0].joinReply == JoinRefused(StillWaiting(state.sleep))
    ensures Intent(state).None? && Expired(input) ==>
              StartsWaiting(next, Retry(input.timeout, 0)) && outputs == []
    ensures Intent(state).None? && !Expired(input) ==> AsksNow(state, input, next, outputs)
  {
    match state {
      case WaitingToJoin | Leaving(_, _) | Left =>
        next, outputs := SocketJoinIfNotTimedOut(state, input);
      case Joining(join, waiters, rejoin) =>
        next, outputs := state.(joinWaiters := waiters + [input.waiter]), [];
      case WaitingToRejoin(sleep, _) =>
        next, outputs := state, [ReplyJoin(input.waiter, JoinRefused(StillWaiting(sleep)))];
      case Joined(_, payload, _) =>
        next, outputs := state, [ReplyJoin(input.waiter, JoinedWith(payload))];
    }
  }

  /** The attempt is under the sender the command brought, with the command's own deadline and a fresh retry, and
      its caller is the only one parked. Without a socket the caller is lost with the channel. */
  ghost predicate AsksNow(state: State, input: Input, next: State, outputs: seq<Output>)
    requires input.TakeJoin?
  {
    if input.isOpen then
      && next.Joining? && Attempt(next) == Some(input.sender) && JoinCallers(next) == [input.waiter]
      && Intent(next) == Some(Retry(input.timeout, 0))
      && outputs == [RequestJoin(input.sender, input.createdAt + input.timeout)]
                    + ReplyLeaves(LeaveCallers(state), LeaveRefused(JoinBeforeLeft))
    else
      && next.Failed?
      && outputs == ReplyLeaves(LeaveCallers(state), LeaveRefused(LeaveSocketShutDown))
  }

  /** Only a command taken by its deadline reaches the socket; a later one starts a rejoin that is due at once. */
  method SocketJoinIfNotTimedOut(state: State, input: Input) returns (next: State, outputs: seq<Output>)
    requires input.TakeJoin? && (state.WaitingToJoin? || state.Leaving? || state.Left?)
    ensures Expired(input) ==> StartsWaiting(next, Retry(input.timeout, 0)) && next.sleep == 0 && outputs == []
    ensures !Expired(input) ==> AsksNow(state, input, next, outputs)
  {
    var deadline := input.createdAt + input.timeout;
    var rejoin := Retry(input.timeout, 0);
    if input.now <= deadline {
      next, outputs := RequestSocketJoin(state, input.createdAt, rejoin, [input.waiter], input.isOpen, input.sender);
    } else {
      next, outputs := Wait(rejoin), [];
    }
  }

  /** The end of the attempt answers everyone parked for it, all alike. Only an accepted one joins, with the
      timeout it was asked with; a refusal waits, and the end of the socket ends the channel. */
  method JoinedResultReceived(state: State, fate: Socket.JoinFate)
    returns (next: State, outputs: seq<Output>, ghost reply: JoinReply)
    requires state.Joining?
    ensures outputs == ReplyJoins(JoinCallers(state), reply) && Tells(reply, fate)
    ensures next.Joined? <==> fate.JoinOk?
    ensures fate.JoinOk? ==> Attempt(next) == Attempt(state) && next.payload == fate.payload
                             && Intent(next) == Some(Retry(Intent(state).value.timeout, 0))
    ensures next.Failed? <==> fate.JoinDropped?
    ensures next.ShuttingDown? <==> fate.JoinShutdown?
    ensures Live(next) <==> !next.Failed? && !next.ShuttingDown?
    ensures Live(next) && !next.Joined? ==> StartsWaiting(next, Intent(state).value)
  {
    var answer: JoinReply;
    match fate {
      case JoinOk(payload) =>
        answer, next := JoinedWith(payload), Joined(state.join, payload, state.rejoin.timeout);
      case JoinShutdown => answer, next := JoinRefused(SocketShutDown), ShuttingDown;
      case JoinRejected(payload) => answer, next := JoinRefused(Rejected(payload)), Wait(state.rejoin);
      case JoinDisconnected => answer, next := JoinRefused(SocketDisconnected), Wait(state.rejoin);
      case JoinTimedOut => answer, next := JoinRefused(TimedOut), Wait(state.rejoin);
      case JoinDropped(_) =>
        next, outputs := SocketShutdown(state);
        reply := JoinRefused(SocketShutDown);
        assert outputs == ReplyJoins(JoinCallers(state), reply);
        return;
    }
    outputs := SendJoinPayloadToChannelTxs(state.joinWaiters, answer);
    reply := answer;
  }

  /** The reply says what became of the attempt; a caller cannot tell a dropped attempt from a socket shutdown. */
  ghost predicate Tells(reply: JoinReply, fate: Socket.JoinFate) {
    && (forall p :: reply == JoinedWith(p) <==> fate == Socket.JoinOk(p))
    && (forall p :: reply == JoinRefused(Rejected(p)) <==> fate == Socket.JoinRejected(p))
    && (reply == JoinRefused(SocketDisconnected) <==> fate.JoinDisconnected?)
    && (reply == JoinRefused(TimedOut) <==> fate.JoinTimedOut?)
    && (reply == JoinRefused(SocketShutDown) <==> fate.JoinShutdown? || fate.JoinDropped?)
  }

  /** A leave command. It asks the socket exactly when there is an attempt to leave; whoever was parked to join is
      told only once the socket took the request. Without an attempt it is done at once. */
  method LeaveChannel(state: State, input: Input) returns (next: State, outputs: seq<Output>)
    requires input.TakeLeave?
    ensures Attempt(state).Some? && input.isOpen ==>
              && next.Leaving? && next.leave == input.sender && LeaveCallers(next) == [input.waiter]
              && outputs == [RequestLeave(input.sender)]
                            + ReplyJoins(JoinCallers(state), JoinRefused(LeavingWhileJoining))
    ensures Attempt(state).Some? && !input.isOpen ==>
              next == state && outputs == [ReplyLeave(input.waiter, LeaveRefused(LeaveSocketShutDown))]
    ensures state.Leaving? ==>
              && outputs == [] && next.Leaving? && next.leave == state.leave
              && LeaveCallers(next) == LeaveCallers(state) + [input.waiter]
    ensures Settled(state) ==>
              && outputs == [ReplyLeave(input.waiter, LeaveDone)]
              && next == if state.WaitingToRejoin? then Left else state
  {
    match state {
      case WaitingForSocketToConnect(_) | WaitingToJoin | Left | ShuttingDown | ShutDown | Failed =>
        next, outputs := state, [ReplyLeave(input.waiter, LeaveDone)];
      case Joining(_, waiters, _) =>
        if input.isOpen {
          var answers := SendJoinPayloadToChannelTxs(waiters, JoinRefused(LeavingWhileJoining));
          next, outputs := Leaving(input.sender, [input.waiter]), [RequestLeave(input.sender)] + answers;
        } else {
          next, outputs := state, [ReplyLeave(input.waiter, LeaveRefused(LeaveSocketShutDown))];
        }
      case Joined(_, _, _) =>
        if input.isOpen {
          next, outputs := Leaving(input.sender, [input.waiter]), [RequestLeave(input.sender)];
        } else {
          next, outputs := state, [ReplyLeave(input.waiter, LeaveRefused(LeaveSocketShutDown))];
        }
      case WaitingToRejoin(_, _) =>
        next, outputs := Left, [ReplyLeave(input.waiter, LeaveDone)];
      case Leaving(_, waiters) =>
        next, outputs := state.(leaveWaiters := waiters + [input.waiter]), [];
    }
  }

  /** Every push is published; the channel stays joined exactly unless the server closes it, and then a rejoin is
      due at once, with the timeout the join had. */
  method ReceivePushed(state: State, ep: EventPayload) returns (next: State, outputs: seq<Output>)
    requires state.Joined?
    ensures outputs == [Publish(ep)]
    ensures next == state <==> ep.event != Phoenix(PhoenixEvent.Close)
    ensures next != state ==> StartsWaiting(next, Intent(state).value) && next.sleep == 0
  {
    outputs := [Publish(ep)];
    next := state;
    if ep.event == Phoenix(PhoenixEvent.Close) {
      next := Wait(Retry(state.joinTimeout, 0));
    }
  }

  /** The end of the leave is passed on: everyone parked for it, in order, hears whether the socket wrote it, and the
      channel has left either way. */
  method LeaveEnded(state: State, sent: bool) returns (next: State, outputs: seq<Output>)
    requires state.Leaving?
    ensures next == Left && |outputs| == |LeaveCallers(state)|
    ensures forall i | 0 <= i < |outputs| ::
              outputs[i] == ReplyLeave(LeaveCallers(state)[i],
                                       if sent then LeaveDone else LeaveRefused(LeaveWebSocketError))
  {
    var result := if sent then LeaveDone else LeaveRefused(LeaveWebSocketError);
    outputs := SendToChannelTxs(state.leaveWaiters, result);
    FanOutInOrder(state.leaveWaiters, JoinRefused(TimedOut), result);
    next := Left;
  }

  /** Answers told one by one are the fan-out. */
  lemma ToldOneByOne(waiters: seq<WaiterId>, reply: LeaveReply, outputs: seq<Output>)
    requires |outputs| == |waiters| && forall i | 0 <= i < |outputs| :: outputs[i] == ReplyLeave(waiters[i], reply)
    ensures outputs == ReplyLeaves(waiters, reply)
  {
    FanOutInOrder(waiters, JoinRefused(TimedOut), reply);
  }

  lemma NobodyToAnswer()
    ensures forall reply :: ReplyJoins([], reply) == []
    ensures forall reply :: ReplyLeaves([], reply) == []
    ensures forall outputs: seq<Output> :: outputs + [] == outputs && [] + outputs == outputs
  {
  }

  // ---------------------------------------------------------------------------------- the listener

  class Listener {
    var state: State

    constructor (start: State)
      ensures state == start
    {
      state := start;
    }

    /** A command of the channel's users; what the two handlers promise is all there is to it. */
    static method UpdateState(state: State, input: Input) returns (next: State, outputs: seq<Output>)
      requires Enabled(state, input) && (input.TakeJoin? || input.TakeLeave?)
      ensures Outcome(next, outputs) == ChannelProtocol.Iterate(state, input)
    {
      hide ReplyJoins, ReplyLeaves;
      NobodyToAnswer();
      if input.TakeJoin? {
        next, outputs := JoinChannel(state, input);
      } else {
        next, outputs := LeaveChannel(state, input);
      }
    }

    /** One iteration of the loop. */
    method Iterate(input: Input) returns (outputs: seq<Output>)
      requires Enabled(state, input)
      modifies this
      ensures Outcome(state, outputs) == ChannelProtocol.Iterate(old(state), input)
    {
      hide ReplyJoins, ReplyLeaves, JoinNow, LeaveNow;
      NobodyToAnswer();
      var next := state;
      outputs := [];
      match input {
        case RequestShutdown => next, outputs := Shutdown(state);
        case Hear(event) => next, outputs := HearConnectivity(state, event);
        case JoinEnds(fate) =>
          ghost var reply;
          next, outputs, reply := JoinedResultReceived(state, fate);
        case TakeJoin(_, _, _, _, _, _) => next, outputs := UpdateState(state, input);
        case TakeLeave(_, _, _) => next, outputs := UpdateState(state, input);
        case RejoinDue(now, isOpen, sender) =>
          next, outputs := RequestSocketJoin(state, now, state.rejoin, [], isOpen, sender);
        case HearLeft => next := Left;
        case LeaveEnds(sent) =>
          next, outputs := LeaveEnded(state, sent);
          ToldOneByOne(state.leaveWaiters, if sent then LeaveDone else LeaveRefused(LeaveWebSocketError), outputs);
        case TakeSend(ep, caller, isOpen) =>
          if isOpen {
            outputs := [RequestSend(ep, caller)];
          } else {
            next := ShuttingDown;
          }
        case ReceivePush(ep) => next, outputs := ReceivePushed(state, ep);
        case ReceiveBroadcast(ep) => outputs := [Publish(ep)];
        case Exit => next := ShutDown;
      }
      state := next;
    }

    /** Runs the loop over whatever arrives; what the current state has no arm for is left alone. Everything
        that is true of runs of the protocol is thereby true of this object. */
    method Listen(arrivals: seq<Input>) returns (trace: seq<Output>, ghost inputs: seq<Input>)
      requires state == WaitingForSocketToConnect(None) || state.WaitingToJoin?
      modifies this
      ensures IsRun(old(state), inputs) && state == Final(old(state), inputs) && trace == Trace(old(state), inputs)
    {
      hide ChannelProtocol.Iterate, Enabled;
      trace, inputs := [], [];
      for i := 0 to |arrivals|
        invariant IsRun(old(state), inputs) && state == Final(old(state), inputs) && trace == Trace(old(state), inputs)
      {
        if Enabled(state, arrivals[i]) {
          var outputs := Iterate(arrivals[i]);
          ghost var longer := inputs + [arrivals[i]];
          assert longer[..|longer| - 1] == inputs;
          trace, inputs := trace + outputs, longer;
        }
      }
    }
  }
}
