/**
 Theorems about every run of a channel listener: what happens to the callers that wait for a join or a
 leave, when the channel means to rejoin, and how long it backs off (src/rust/channel/listener.rs).
 */
module ChannelRuns {
  import opened Wrappers
  import opened Messages
  import opened Backoff
  import opened ChannelProtocol
  import Socket = SocketProtocol

  ghost predicate IsRun(start: State, inputs: seq<Input>)
    decreases |inputs|, 0
  {
    && (start == WaitingForSocketToConnect(None) || start.WaitingToJoin?)
    && (|inputs| > 0 ==>
          && IsRun(start, inputs[..|inputs| - 1])
          && Enabled(Final(start, inputs[..|inputs| - 1]), inputs[|inputs| - 1]))
  }

  ghost function Final(start: State, inputs: seq<Input>): State
    requires IsRun(start, inputs)
    decreases |inputs|, 1
  {
    if |inputs| == 0 then start
    else Iterate(Final(start, inputs[..|inputs| - 1]), inputs[|inputs| - 1]).state
  }

  ghost function Trace(start: State, inputs: seq<Input>): seq<Output>
    requires IsRun(start, inputs)
  {
    if |inputs| == 0 then []
    else
      var last := |inputs| - 1;
      Trace(start, inputs[..last]) + Iterate(Final(start, inputs[..last]), inputs[last]).outputs
  }

  // ---------------------------------------------------------------------------------- waiters

  ghost function JoinReplies(outputs: seq<Output>, w: WaiterId): nat {
    if |outputs| == 0 then 0
    else
      var last := outputs[|outputs| - 1];
      JoinReplies(outputs[..|outputs| - 1], w) + (if last.ReplyJoin? && last.waiter == w then 1 else 0)
  }

  ghost function LeaveReplies(outputs: seq<Output>, w: WaiterId): nat {
    if |outputs| == 0 then 0
    else
      var last := outputs[|outputs| - 1];
      LeaveReplies(outputs[..|outputs| - 1], w) + (if last.ReplyLeave? && last.waiter == w then 1 else 0)
  }

  lemma {:induction false} RepliesConcat(a: seq<Output>, b: seq<Output>, w: WaiterId)
    ensures JoinReplies(a + b, w) == JoinReplies(a, w) + JoinReplies(b, w)
    ensures LeaveReplies(a + b, w) == LeaveReplies(a, w) + LeaveReplies(b, w)
  {
    if |b| == 0 {
      assert a + b == a;
    } else {
      assert (a + b)[..|a + b| - 1] == a + b[..|b| - 1];
      RepliesConcat(a, b[..|b| - 1], w);
    }
  }

  lemma ReplyOfOne(o: Output, w: WaiterId)
    ensures JoinReplies([o], w) == if o.ReplyJoin? && o.waiter == w then 1 else 0
    ensures LeaveReplies([o], w) == if o.ReplyLeave? && o.waiter == w then 1 else 0
  {}

  lemma RepliesOfNone(w: WaiterId)
    ensures JoinReplies([], w) == 0 && LeaveReplies([], w) == 0
  {}

  /** A fan-out answers its waiters in the order in which they were parked, all alike. */
  lemma {:induction false} FanOutInOrder(waiters: seq<WaiterId>, j: JoinReply, l: LeaveReply)
    ensures |ReplyJoins(waiters, j)| == |ReplyLeaves(waiters, l)| == |waiters|
    ensures forall i | 0 <= i < |waiters| :: ReplyJoins(waiters, j)[i] == ReplyJoin(waiters[i], j)
    ensures forall i | 0 <= i < |waiters| :: ReplyLeaves(waiters, l)[i] == ReplyLeave(waiters[i], l)
  {
    if |waiters| == 0 {
    } else {
      FanOutInOrder(waiters[..|waiters| - 1], j, l);
    }
  }

  /** A fan-out answers every waiter it is given exactly as often as it was parked. */
  lemma {:induction false} FanOutRepliesOnce(waiters: seq<WaiterId>, j: JoinReply, l: LeaveReply, w: WaiterId)
    ensures JoinReplies(ReplyJoins(waiters, j), w) == multiset(waiters)[w]
    ensures LeaveReplies(ReplyJoins(waiters, j), w) == 0
    ensures LeaveReplies(ReplyLeaves(waiters, l), w) == multiset(waiters)[w]
    ensures JoinReplies(ReplyLeaves(waiters, l), w) == 0
  {
    if |waiters| == 0 {
    } else {
      var last := |waiters| - 1;
      FanOutRepliesOnce(waiters[..last], j, l, w);
      assert waiters == waiters[..last] + [waiters[last]];
      ReplyOfOne(ReplyJoin(waiters[last], j), w);
      ReplyOfOne(ReplyLeave(waiters[last], l), w);
      RepliesConcat(ReplyJoins(waiters[..last], j), [ReplyJoin(waiters[last], j)], w);
      RepliesConcat(ReplyLeaves(waiters[..last], l), [ReplyLeave(waiters[last], l)], w);
    }
  }

  ghost function ParkedJoins(s: State, w: WaiterId): nat {
    multiset(JoinCallers(s))[w]
  }

  ghost function ParkedLeaves(s: State, w: WaiterId): nat {
    multiset(LeaveCallers(s))[w]
  }

  ghost function TakesJoin(input: Input, w: WaiterId): nat {
    if input.TakeJoin? && input.waiter == w then 1 else 0
  }

  ghost function TakesLeave(input: Input, w: WaiterId): nat {
    if input.TakeLeave? && input.waiter == w then 1 else 0
  }

  /** A new join's own caller goes unanswered when the join is already expired or the socket is gone. */
  ghost function LostJoins(s: State, input: Input, w: WaiterId): nat {
    if (s.WaitingToJoin? || s.Leaving? || s.Left?) && input.TakeJoin? && input.waiter == w
       && (Expired(input) || !input.isOpen) then 1 else 0
  }

  /** Parked leave waiters go unanswered in one case only: an expired join taken while leaving. */
  ghost function LostLeaves(s: State, input: Input, w: WaiterId): nat {
    if s.Leaving? && Expired(input) then ParkedLeaves(s, w) else 0
  }

  ghost predicate Conserves(s: State, input: Input, next: Outcome, w: WaiterId) {
    && ParkedJoins(s, w) + TakesJoin(input, w)
       == ParkedJoins(next.state, w) + JoinReplies(next.outputs, w) + LostJoins(s, input, w)
    && ParkedLeaves(s, w) + TakesLeave(input, w)
       == ParkedLeaves(next.state, w) + LeaveReplies(next.outputs, w) + LostLeaves(s, input, w)
  }

  /** The waiters of a state that leaves it with the given replies. */
  lemma ParkedAreReplied(s: State, j: JoinReply, l: LeaveReply, w: WaiterId)
    ensures s.Joining? ==>
              && JoinReplies(ReplyJoins(s.joinWaiters, j), w) == ParkedJoins(s, w)
              && LeaveReplies(ReplyJoins(s.joinWaiters, j), w) == 0
    ensures s.Leaving? ==>
              && LeaveReplies(ReplyLeaves(s.leaveWaiters, l), w) == ParkedLeaves(s, w)
              && JoinReplies(ReplyLeaves(s.leaveWaiters, l), w) == 0
  {
    if s.Joining? {
      FanOutRepliesOnce(s.joinWaiters, j, l, w);
    } else if s.Leaving? {
      FanOutRepliesOnce(s.leaveWaiters, j, l, w);
    }
  }

  lemma HearConserves(s: State, event: Socket.Connectivity, w: WaiterId)
    requires Enabled(s, Hear(event))
    ensures Conserves(s, Hear(event), ConnectivityChanged(s, event), w)
  {
    ParkedAreReplied(s, JoinRefused(SocketDisconnected), LeaveDone, w);
  }

  /** The end of a join answers all its parked callers alike and parks nobody. */
  lemma JoinEndAnswersAll(s: State, fate: Socket.JoinFate, w: WaiterId) returns (reply: JoinReply)
    requires s.Joining?
    ensures var next := JoinEnded(s, fate);
            && next.outputs == ReplyJoins(s.joinWaiters, reply)
            && ParkedJoins(next.state, w) == 0 && ParkedLeaves(next.state, w) == 0
  {
    hide ReplyJoins, ReplyLeaves;
    reply := match fate
      case JoinOk(payload) => JoinedWith(payload)
      case JoinRejected(payload) => JoinRefused(Rejected(payload))
      case JoinDisconnected => JoinRefused(SocketDisconnected)
      case JoinTimedOut => JoinRefused(TimedOut)
      case _ => JoinRefused(SocketShutDown);
  }

  lemma JoinEndConserves(s: State, fate: Socket.JoinFate, w: WaiterId)
    requires s.Joining?
    ensures Conserves(s, JoinEnds(fate), JoinEnded(s, fate), w)
  {
    hide JoinReplies, LeaveReplies, ReplyJoins, ReplyLeaves, JoinEnded;
    var reply := JoinEndAnswersAll(s, fate, w);
    ParkedAreReplied(s, reply, LeaveDone, w);
  }

  lemma ShutdownConserves(s: State, w: WaiterId)
    ensures Conserves(s, RequestShutdown, BeginShutdown(s), w)
  {
    ParkedAreReplied(s, JoinRefused(BeingShutDown), LeaveRefused(LeaveBeingShutDown), w);
  }

  lemma LeaveEndConserves(s: State, sent: bool, w: WaiterId)
    requires s.Leaving?
    ensures Conserves(s, LeaveEnds(sent), Iterate(s, LeaveEnds(sent)), w)
  {
    ParkedAreReplied(s, JoinRefused(BeingShutDown),
                     if sent then LeaveDone else LeaveRefused(LeaveWebSocketError), w);
  }

  lemma TakeJoinConserves(s: State, input: Input, w: WaiterId)
    requires Enabled(s, input) && input.TakeJoin?
    ensures Conserves(s, input, JoinNow(s, input), w)
  {
    var next := JoinNow(s, input);
    if s.WaitingToRejoin? || s.Joined? {
      ReplyOfOne(next.outputs[0], w);
    } else if !s.Joining? && !Expired(input) && input.isOpen {
      var request := next.outputs[0];
      ReplyOfOne(request, w);
      if s.Leaving? {
        ParkedAreReplied(s, JoinRefused(SocketShutDown), LeaveRefused(JoinBeforeLeft), w);
        RepliesConcat([request], ReplyLeaves(s.leaveWaiters, LeaveRefused(JoinBeforeLeft)), w);
      }
    } else {
      ParkedAreReplied(s, JoinRefused(SocketShutDown), LeaveRefused(LeaveSocketShutDown), w);
    }
  }

  lemma LeaveWhileJoiningConserves(s: State, input: Input, w: WaiterId)
    requires s.Joining? && input.TakeLeave? && input.isOpen
    ensures Conserves(s, input, LeaveNow(s, input), w)
  {
    hide ReplyJoins, ReplyLeaves, JoinReplies, LeaveReplies;
    var request, refused := RequestLeave(input.sender), JoinRefused(LeavingWhileJoining);
    ReplyOfOne(request, w);
    ParkedAreReplied(s, refused, LeaveDone, w);
    RepliesConcat([request], ReplyJoins(s.joinWaiters, refused), w);
  }

  lemma TakeLeaveConserves(s: State, input: Input, w: WaiterId)
    requires Enabled(s, input) && input.TakeLeave?
    ensures Conserves(s, input, LeaveNow(s, input), w)
  {
    hide ReplyJoins, ReplyLeaves, JoinReplies, LeaveReplies;
    if s.Joining? && input.isOpen {
      LeaveWhileJoiningConserves(s, input, w);
    } else {
      var next := LeaveNow(s, input);
      RepliesOfNone(w);
      if next.outputs != [] {
        assert next.outputs == [next.outputs[0]];
        ReplyOfOne(next.outputs[0], w);
      }
    }
  }

  lemma StepConserves(s: State, input: Input, w: WaiterId)
    requires Enabled(s, input)
    ensures Conserves(s, input, Iterate(s, input), w)
  {
    hide ReplyJoins, ReplyLeaves, JoinReplies, LeaveReplies;
    RepliesOfNone(w);
    if input.Hear? {
      HearConserves(s, input.event, w);
    } else if input.TakeJoin? {
      TakeJoinConserves(s, input, w);
    } else if input.TakeLeave? {
      TakeLeaveConserves(s, input, w);
    } else if input.JoinEnds? {
      JoinEndConserves(s, input.fate, w);
    } else if input.RequestShutdown? {
      ShutdownConserves(s, w);
    } else if input.LeaveEnds? {
      LeaveEndConserves(s, input.sent, w);
    } else {
      var next := Iterate(s, input);
      if next.outputs != [] {
        assert next.outputs == [next.outputs[0]];
        ReplyOfOne(next.outputs[0], w);
      }
    }
  }

  ghost function Taken(inputs: seq<Input>, w: WaiterId): (nat, nat) {
    if |inputs| == 0 then (0, 0)
    else
      var (joins, leaves) := Taken(inputs[..|inputs| - 1], w);
      (joins + TakesJoin(inputs[|inputs| - 1], w), leaves + TakesLeave(inputs[|inputs| - 1], w))
  }

  ghost function Lost(start: State, inputs: seq<Input>, w: WaiterId): (nat, nat)
    requires IsRun(start, inputs)
  {
    if |inputs| == 0 then (0, 0)
    else
      var last := |inputs| - 1;
      var (joins, leaves) := Lost(start, inputs[..last], w);
      (joins + LostJoins(Final(start, inputs[..last]), inputs[last], w),
       leaves + LostLeaves(Final(start, inputs[..last]), inputs[last], w))
  }

  /**
   Over every run, every caller of join and of leave is parked, answered, or lost, exactly once for each
   command taken; the only losses are those of LostJoins and LostLeaves.
   */
  lemma {:induction false} WaiterConservation(start: State, inputs: seq<Input>, w: WaiterId)
    requires IsRun(start, inputs)
    ensures Taken(inputs, w).0
            == ParkedJoins(Final(start, inputs), w) + JoinReplies(Trace(start, inputs), w)
               + Lost(start, inputs, w).0
    ensures Taken(inputs, w).1
            == ParkedLeaves(Final(start, inputs), w) + LeaveReplies(Trace(start, inputs), w)
               + Lost(start, inputs, w).1
  {
    if |inputs| == 0 {
    } else {
      var last := |inputs| - 1;
      WaiterConservation(start, inputs[..last], w);
      StepConserves(Final(start, inputs[..last]), inputs[last], w);
      RepliesConcat(Trace(start, inputs[..last]),
                    Iterate(Final(start, inputs[..last]), inputs[last]).outputs, w);
    }
  }

  /** The step that leaves Joining answers all that was parked there, and so does the step that leaves
      Leaving, exactly when it is not an expired join that is taken while leaving. */
  lemma LeavingAWaitingStateAnswersAll(s: State, input: Input, w: WaiterId)
    requires Enabled(s, input)
    ensures s.Joining? && !Iterate(s, input).state.Joining? ==>
              JoinReplies(Iterate(s, input).outputs, w) == ParkedJoins(s, w)
    ensures s.Leaving? && !Iterate(s, input).state.Leaving? ==>
              (LeaveReplies(Iterate(s, input).outputs, w) == ParkedLeaves(s, w)
               <==> !Expired(input) || ParkedLeaves(s, w) == 0)
  {
    StepConserves(s, input, w);
  }

  /** A caller of leave hears that it is done exactly if it was parked and the socket wrote the leave, and of a web
      socket error exactly if it was parked and the socket did not; the channel has left in both cases. */
  lemma LeaveEndsAreTold(s: State, sent: bool, w: WaiterId)
    requires s.Leaving?
    ensures var next := Iterate(s, LeaveEnds(sent));
            && next.state == Left
            && (ReplyLeave(w, LeaveDone) in next.outputs <==> w in s.leaveWaiters && sent)
            && (ReplyLeave(w, LeaveRefused(LeaveWebSocketError)) in next.outputs <==> w in s.leaveWaiters && !sent)
            && (forall o | o in next.outputs :: o.ReplyLeave?)
  {
    var outputs := Iterate(s, LeaveEnds(sent)).outputs;
    FanOutInOrder(s.leaveWaiters, JoinRefused(TimedOut), if sent then LeaveDone else LeaveRefused(LeaveWebSocketError));
    if w in s.leaveWaiters {
      var i :| 0 <= i < |s.leaveWaiters| && s.leaveWaiters[i] == w;
      assert outputs[i].ReplyLeave? && outputs[i].waiter == w;
    }
  }

  /** What passes through a channel, in any step: the socket is asked to send exactly the command that was taken, once
      and with its caller, if it still listens; and exactly what the server pushed or broadcast is published, once. */
  lemma PassesThroughExactly(s: State, input: Input, ep: EventPayload, caller: Option<Socket.SenderId>)
    requires Enabled(s, input)
    ensures var next := Iterate(s, input);
            && (RequestSend(ep, caller) in next.outputs <==> input == TakeSend(ep, caller, true))
            && (Publish(ep) in next.outputs <==> input == ReceivePush(ep) || input == ReceiveBroadcast(ep))
            && (input.TakeSend? || input.ReceivePush? || input.ReceiveBroadcast? ==> |next.outputs| <= 1)
            && (input.TakeSend? ==> next.state == if input.isOpen then s else ShuttingDown)
            && (input.ReceiveBroadcast? ==> next.state == s)
            && (input.HearLeft? ==> next == Outcome(Left, []))
            && (input.Exit? ==> next == Outcome(ShutDown, []))
  {
    hide ReplyJoins, ReplyLeaves;
    if !input.TakeSend? && !input.ReceivePush? && !input.ReceiveBroadcast? {
      OthersPassNothing(s, input);
    }
  }

  ghost predicate PassesNothing(outputs: seq<Output>) {
    forall i | 0 <= i < |outputs| :: !outputs[i].RequestSend? && !outputs[i].Publish?
  }

  lemma OthersPassNothing(s: State, input: Input)
    requires Enabled(s, input) && !input.TakeSend? && !input.ReceivePush? && !input.ReceiveBroadcast?
    ensures PassesNothing(Iterate(s, input).outputs)
  {
    hide ReplyJoins, ReplyLeaves;
    FanOutsPassNothing();
  }

  lemma FanOutsPassNothing()
    ensures forall waiters, reply :: PassesNothing(ReplyJoins(waiters, reply))
    ensures forall waiters, reply :: PassesNothing(ReplyLeaves(waiters, reply))
  {
    forall waiters, reply ensures PassesNothing(ReplyJoins(waiters, reply)) {
      FanOutInOrder(waiters, reply, LeaveDone);
    }
    forall waiters, reply ensures PassesNothing(ReplyLeaves(waiters, reply)) {
      FanOutInOrder(waiters, JoinRefused(TimedOut), reply);
    }
  }

  // ---------------------------------------------------------------------------------- intent

  /** Exactly what starts, stops and changes the intent to be joined, and with which retry: nothing but the
      listed inputs does. A Disconnect heard while already waiting for the socket leaves the intent as it was. */
  lemma IntentFollowsInputs(s: State, input: Input)
    requires Enabled(s, input)
    ensures Intent(Iterate(s, input).state) ==
              match input
              case TakeJoin(_, _, timeout, _, isOpen, _) =>
                if Intent(s).Some? then Intent(s)
                else if Expired(input) then Some(Next(Retry(timeout, 0)))
                else if isOpen then Some(Retry(timeout, 0))
                else None
              case TakeLeave(_, isOpen, _) => if Attempt(s).Some? && !isOpen then Intent(s) else None
              case Hear(Up) =>
                if s.WaitingForSocketToConnect? && Intent(s).Some? then Some(Next(Intent(s).value)) else Intent(s)
              case Hear(Down(Disconnect)) => if s.WaitingForSocketToConnect? then Intent(s) else None
              case Hear(Down(Shutdown)) => None
              case RejoinDue(_, isOpen, _) => if isOpen then Intent(s) else None
              case JoinEnds(JoinOk(_)) => Some(Retry(Intent(s).value.timeout, 0))
              case JoinEnds(JoinShutdown) => None
              case JoinEnds(JoinDropped(_)) => None
              case JoinEnds(_) => Some(Next(Intent(s).value))
              case TakeSend(_, _, isOpen) => if isOpen then Intent(s) else None
              case ReceivePush(ep) =>
                if ep.event == Phoenix(PhoenixEvent.Close) then Some(Next(Intent(s).value)) else Intent(s)
              case RequestShutdown => None
              case HearLeft => None
              case _ => Intent(s)
  {
    hide ReplyJoins, ReplyLeaves;
  }

  // ---------------------------------------------------------------------------------- backoff

  /** Waits begun, and time slept in them, since the last success or accepted explicit join. */
  datatype Tally = Tally(timeout: nat, waits: nat, slept: nat)

  ghost function NextTally(t: Tally, s: State, input: Input, s': State): Tally {
    if input.TakeJoin? && (s.WaitingToJoin? || s.Leaving? || s.Left?) then
      if s'.WaitingToRejoin? then Tally(input.timeout, 1, s'.sleep) else Tally(input.timeout, 0, 0)
    else if s'.Joined? && s.Joining? then Tally(t.timeout, 0, 0)
    else if s'.WaitingToRejoin? && !s.WaitingToRejoin? then
      Tally(t.timeout, t.waits + 1, t.slept + s'.sleep)
    else t
  }

  ghost function TallyOf(start: State, inputs: seq<Input>): Tally
    requires IsRun(start, inputs)
  {
    if |inputs| == 0 then Tally(0, 0, 0)
    else
      var last := |inputs| - 1;
      NextTally(TallyOf(start, inputs[..last]), Final(start, inputs[..last]), inputs[last],
                Final(start, inputs))
  }

  ghost predicate RetryAgrees(r: Retry, t: Tally) {
    && r == Retry(t.timeout, Min(t.waits, MAX_ATTEMPTS))
    && t.slept == TotalSleep(t.timeout, t.waits)
  }

  ghost predicate TallyAgrees(s: State, t: Tally) {
    match s
    case WaitingForSocketToConnect(intent) => intent.Some? ==> RetryAgrees(intent.value, t)
    case Joining(_, _, rejoin) => RetryAgrees(rejoin, t)
    case WaitingToRejoin(_, rejoin) => t.waits > 0 && RetryAgrees(rejoin, t)
    case Joined(_, _, joinTimeout) => t == Tally(joinTimeout, 0, 0)
    case _ => true
  }

  lemma WaitAgrees(r: Retry, t: Tally)
    requires RetryAgrees(r, t)
    ensures RetryAgrees(Next(r), Tally(t.timeout, t.waits + 1, t.slept + SleepDuration(r)))
  {
    OneMoreWait(t.timeout, t.waits);
  }

  lemma FreshAgrees(timeout: nat)
    ensures RetryAgrees(Retry(timeout, 0), Tally(timeout, 0, 0))
  {}

  lemma StepKeepsTally(s: State, input: Input, t: Tally)
    requires Enabled(s, input) && TallyAgrees(s, t)
    ensures var s' := Iterate(s, input).state;
            TallyAgrees(s', NextTally(t, s, input, s'))
  {
    if input.TakeJoin? {
      FreshAgrees(input.timeout);
      WaitAgrees(Retry(input.timeout, 0), Tally(input.timeout, 0, 0));
    }
    match s {
      case WaitingForSocketToConnect(Some(r)) => WaitAgrees(r, t);
      case Joining(_, _, r) =>
        WaitAgrees(r, t);
        FreshAgrees(t.timeout);
      case Joined(_, _, timeout) =>
        FreshAgrees(timeout);
        WaitAgrees(Retry(timeout, 0), t);
      case _ =>
    }
    hide ReplyJoins, ReplyLeaves, RetryAgrees, SleepDuration, Next;
  }

  /**
   After n waits in a row the stored attempts are min(n, 65535), the timeout is still that of the last
   explicit join, and the time slept is the closed form; a success or an accepted join starts over.
   */
  lemma {:induction false} RejoinBackoff(start: State, inputs: seq<Input>)
    requires IsRun(start, inputs)
    ensures TallyAgrees(Final(start, inputs), TallyOf(start, inputs))
  {
    if |inputs| == 0 {
    } else {
      var last := |inputs| - 1;
      RejoinBackoff(start, inputs[..last]);
      StepKeepsTally(Final(start, inputs[..last]), inputs[last], TallyOf(start, inputs[..last]));
    }
  }

  /** An automatic rejoin gives the server as long as the last explicit join did. */
  lemma RejoinKeepsTimeout(start: State, inputs: seq<Input>)
    requires IsRun(start, inputs) && |inputs| > 0
    requires inputs[|inputs| - 1].RejoinDue? && inputs[|inputs| - 1].isOpen
    ensures var due := inputs[|inputs| - 1];
            Iterate(Final(start, inputs[..|inputs| - 1]), due).outputs
            == [RequestJoin(due.sender, due.now + TallyOf(start, inputs).timeout)]
  {
    RejoinBackoff(start, inputs[..|inputs| - 1]);
  }
}
