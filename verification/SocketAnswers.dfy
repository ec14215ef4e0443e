/**
 Why a join or a call ends the way it does, and which replies answer it (src/rust/socket/listener.rs).
 */
module SocketAnswers {
  import opened Messages
  import opened SocketProtocol
  import opened SocketRuns
  import opened SocketSteps
  import opened SocketLedger

  /** Why a join may end in a step: each fate has exactly the cause the code gives it. */
  ghost predicate JoinEndExplained(s: State, input: Input, s': State, o: Output)
    requires o.EndJoin? && s.Connected?
  {
    var c := s.connection;
    match o.joinFate
    case JoinOk(p) =>
      && input.ReceiveMessage? && input.message.ReplyMessage? && input.message.status.StatusOk?
      && input.message.payload == p
      && HeldJoin(c, (input.message.topic, input.message.joinReference), o.sender)
    case JoinRejected(p) =>
      && input.ReceiveMessage? && input.message.ReplyMessage? && input.message.status.StatusError?
      && input.message.payload == p
      && HeldJoin(c, (input.message.topic, input.message.joinReference), o.sender)
    case JoinTimedOut => input.JoinTimerFires? && HeldJoin(c, input.timer.key, o.sender)
    case JoinDisconnected =>
      && (s'.Disconnected? || s'.ShuttingDown? || s'.WaitingToReconnect?)
      && exists k :: HeldJoin(c, k, o.sender)
    case JoinDropped(Overwritten) =>
      input.TakeJoin? && input.sent && HeldJoin(c, KeyOf(input.join), o.sender)
    case JoinDropped(SendFailed) => input.TakeJoin? && !input.sent && input.join.sender == o.sender
    case JoinDropped(SocketFailed) => s'.Failed? && exists k :: HeldJoin(c, k, o.sender)
    case JoinShutdown => false
  }

  ghost predicate HeldJoin(c: Connection, key: JoinKey, x: SenderId) {
    key in c.joins && c.joins[key].sender == x
  }

  ghost predicate HeldCall(c: Connection, key: CallKey, x: SenderId) {
    key in c.calls && c.calls[key] == x
  }

  lemma DrainedJoinsHaveCauses(c: Connection, order: DrainOrder, o: Output)
    requires Drains(order, c) && o.EndJoin?
    ensures forall cause :: o in SendDisconnected(c, cause, order) ==>
              o.joinFate.JoinDisconnected? && exists k :: HeldJoin(c, k, o.sender)
    ensures o in FailFatally(c, order).outputs ==>
              o.joinFate == JoinDropped(SocketFailed) && exists k :: HeldJoin(c, k, o.sender)
  {
    forall cause | o in SendDisconnected(c, cause, order)
      ensures o.joinFate.JoinDisconnected? && exists k :: HeldJoin(c, k, o.sender)
    {
      DrainContents(c, cause, order, o);
      var k :| k in c.joins && o == EndJoin(c.joins[k].sender, JoinDisconnected);
      assert HeldJoin(c, k, o.sender);
    }
    if o in FailFatally(c, order).outputs {
      DrainContents(c, Reconnect, order, o);
      var k :| k in c.joins && o == EndJoin(c.joins[k].sender, JoinDropped(SocketFailed));
      assert HeldJoin(c, k, o.sender);
    }
  }

  /** What a handler that gives the connection up adds to the drain. */
  ghost predicate OwnOutput(input: Input, o: Output) {
    || o.Transmit? || o.EndDisconnect? || o.EndLeave?
    || (input.TakeJoin? && !input.sent && o == EndJoin(input.join.sender, JoinDropped(SendFailed)))
    || (input.TakeCall? && !input.sent && o == EndCall(input.sender, CallWebSocketError))
  }

  lemma LostConnectionOutputs(c: Connection, step: Step, o: Output)
    requires Enabled(Connected(c), step) && !StepConnected(c, step).state.Connected?
    requires o in StepConnected(c, step).outputs
    ensures || OwnOutput(step.input, o)
            || (StepConnected(c, step).state.Failed? && o in FailFatally(c, step.order).outputs)
            || (!StepConnected(c, step).state.Failed? && exists cause :: o in SendDisconnected(c, cause, step.order))
  {
    hide SendDisconnected, EndJoins, EndCalls;
  }

  lemma KeptJoinEndsHaveCauses(c: Connection, step: Step, o: Output)
    requires Enabled(Connected(c), step) && StepConnected(c, step).state.Connected?
    requires o in StepConnected(c, step).outputs && o.EndJoin?
    ensures JoinEndExplained(Connected(c), step.input, StepConnected(c, step).state, o)
  {
    hide SendDisconnected, EndJoins, EndCalls;
    if step.input.TakeJoin? {
    } else if step.input.ReceiveMessage? {
    } else if step.input.TakeLeave? {
    } else {
    }
  }

  /** A drop happens only by overwriting, by the join's own failed send, or by a fatal socket error. */
  lemma JoinEndsHaveCauses(strategy: bool, s: State, step: Step, o: Output)
    requires Enabled(s, step)
    requires o in Iterate(strategy, s, step).outputs && o.EndJoin?
    ensures s.Connected? && JoinEndExplained(s, step.input, Iterate(strategy, s, step).state, o)
  {
    if s.Connected? {
      if StepConnected(s.connection, step).state.Connected? {
        KeptJoinEndsHaveCauses(s.connection, step, o);
      } else {
        LostConnectionOutputs(s.connection, step, o);
        DrainedJoinsHaveCauses(s.connection, step.order, o);
        LostStates(s.connection, step);
      }
    }
    hide StepConnected, SendDisconnected, FailFatally;
  }

  lemma LostStates(c: Connection, step: Step)
    requires Enabled(Connected(c), step)
    ensures var s' := StepConnected(c, step).state;
            s'.Connected? || s'.Failed? || s'.Disconnected? || s'.ShuttingDown? || s'.WaitingToReconnect?
  {
    hide SendDisconnected, EndJoins, EndCalls, HandleMessage;
  }

  ghost predicate CallEndExplained(s: State, input: Input, s': State, o: Output)
    requires o.EndCall?
  {
    match o.callFate
    case CallOk(p) => AnswersCall(s, input, p, StatusOk, o.sender)
    case CallRefused(p) => AnswersCall(s, input, p, StatusError, o.sender)
    case CallWebSocketError => input.TakeCall? && !input.sent && input.sender == o.sender
    case CallDisconnected =>
      && s.Connected? && (s'.Disconnected? || s'.ShuttingDown? || s'.WaitingToReconnect?)
      && exists k :: HeldCall(s.connection, k, o.sender)
    case CallDropped => s.Connected? && s'.Failed? && exists k :: HeldCall(s.connection, k, o.sender)
  }

  /** A reply whose three references are exactly those of the call, with no join pending. */
  ghost predicate AnswersCall(s: State, input: Input, p: Payload, status: ReplyStatus, x: SenderId) {
    && s.Connected? && input.ReceiveMessage? && input.message.ReplyMessage?
    && input.message.payload == p && input.message.status == status
    && (input.message.topic, input.message.joinReference) !in s.connection.joins
    && HeldCall(s.connection, (input.message.topic, input.message.joinReference, input.message.reference), x)
  }

  lemma DrainedCallsHaveCauses(c: Connection, order: DrainOrder, o: Output)
    requires Drains(order, c) && o.EndCall?
    ensures forall cause :: o in SendDisconnected(c, cause, order) ==>
              o.callFate.CallDisconnected? && exists k :: HeldCall(c, k, o.sender)
    ensures o in FailFatally(c, order).outputs ==>
              o.callFate.CallDropped? && exists k :: HeldCall(c, k, o.sender)
  {
    forall cause | o in SendDisconnected(c, cause, order)
      ensures o.callFate.CallDisconnected? && exists k :: HeldCall(c, k, o.sender)
    {
      DrainContents(c, cause, order, o);
      var k :| k in c.calls && o == EndCall(c.calls[k], CallDisconnected);
      assert HeldCall(c, k, o.sender);
    }
    if o in FailFatally(c, order).outputs {
      DrainContents(c, Reconnect, order, o);
      var k :| k in c.calls && o == EndCall(c.calls[k], CallDropped);
      assert HeldCall(c, k, o.sender);
    }
  }

  lemma KeptCallEndsHaveCauses(c: Connection, step: Step, o: Output)
    requires Enabled(Connected(c), step) && StepConnected(c, step).state.Connected?
    requires o in StepConnected(c, step).outputs && o.EndCall?
    ensures CallEndExplained(Connected(c), step.input, StepConnected(c, step).state, o)
  {
    hide SendDisconnected, EndJoins, EndCalls;
    if step.input.TakeLeave? {
    } else if step.input.ReceiveMessage? {
    } else {
    }
  }

  /** An answer to a call is a matching reply's, or says how the call or its connection was lost. */
  lemma CallEndsHaveCauses(strategy: bool, s: State, step: Step, o: Output)
    requires Enabled(s, step)
    requires o in Iterate(strategy, s, step).outputs && o.EndCall?
    ensures CallEndExplained(s, step.input, Iterate(strategy, s, step).state, o)
  {
    if s.Connected? {
      if StepConnected(s.connection, step).state.Connected? {
        KeptCallEndsHaveCauses(s.connection, step, o);
      } else {
        LostConnectionOutputs(s.connection, step, o);
        DrainedCallsHaveCauses(s.connection, step.order, o);
        LostStates(s.connection, step);
      }
    }
    hide StepConnected, SendDisconnected, FailFatally;
  }

  function CallResult(status: ReplyStatus, p: Payload): CallFate {
    if status.StatusOk? then CallOk(p) else CallRefused(p)
  }

  function JoinResult(status: ReplyStatus, p: Payload): JoinFate {
    if status.StatusOk? then JoinOk(p) else JoinRejected(p)
  }

  /** A pending call is answered by its own reply and by nothing else, unless a join pending under the same
      topic and join reference takes that reply for itself; replies to heartbeats answer nobody. */
  lemma RepliesAnswerExactly(strategy: bool, s: State, step: Step, status: ReplyStatus, p: Payload, x: SenderId)
    requires Enabled(s, step)
    ensures var answered := step.input.ReceiveMessage? && step.input.message.ReplyMessage?
                            && step.input.message.event != Phoenix(PhoenixEvent.Heartbeat);
            var outputs := Iterate(strategy, s, step).outputs;
            && (EndCall(x, CallResult(status, p)) in outputs <==> answered && AnswersCall(s, step.input, p, status, x))
            && (EndJoin(x, JoinResult(status, p)) in outputs <==>
                  && answered && s.Connected? && step.input.message.payload == p && step.input.message.status == status
                  && HeldJoin(s.connection, (step.input.message.topic, step.input.message.joinReference), x))
  {
    var outputs := Iterate(strategy, s, step).outputs;
    if EndCall(x, CallResult(status, p)) in outputs {
      CallEndsHaveCauses(strategy, s, step, EndCall(x, CallResult(status, p)));
    }
    if EndJoin(x, JoinResult(status, p)) in outputs {
      JoinEndsHaveCauses(strategy, s, step, EndJoin(x, JoinResult(status, p)));
    }
    hide SendDisconnected, EndJoins, EndCalls, StartJoin, StartLeave, StartCall, Write, LoseConnection, FailFatally,
         JoinTimedOutAt;
    if s.Connected? && step.input.ReceiveMessage? && step.input.message.ReplyMessage? {
      assert outputs == HandleMessage(s.connection, step.input.message).1;
    }
  }

  /** A server payload reaches a call only through a reply that repeats the topic, join reference and
      reference of the frame in which that very call was sent earlier in the run. */
  lemma ServerPayloadReachesItsOwnCall(strategy: bool, steps: seq<Step>, o: Output)
    returns (i: nat, frame: Message)
    requires IsRun(strategy, steps) && |steps| > 0
    requires o in LastOutputs(strategy, steps) && o.EndCall? && (o.callFate.CallOk? || o.callFate.CallRefused?)
    ensures var reply := steps[|steps| - 1].input;
            && reply.ReceiveMessage? && reply.message.ReplyMessage?
            && i < |steps| - 1 && Final(strategy, steps[..|steps| - 1]).Connected?
            && SendsCall(steps[i].input,
                         (reply.message.topic, reply.message.joinReference, reply.message.reference),
                         o.sender)
            && Transmit(frame) in OutputsAt(strategy, steps, i)
            && IsPush(frame, reply.message.topic, reply.message.joinReference, steps[i].input.eventPayload.event,
                      steps[i].input.eventPayload.payload, reply.message.reference)
            && (reply.message.topic, reply.message.joinReference)
               !in Final(strategy, steps[..|steps| - 1]).connection.joins
            && reply.message.payload == o.callFate.payload
            && (reply.message.status.StatusOk? <==> o.callFate.CallOk?)
  {
    var last := |steps| - 1;
    CallEndsHaveCauses(strategy, Final(strategy, steps[..last]), steps[last], o);
    var m := steps[last].input.message;
    i, frame := PendingCallWasSent(strategy, steps[..last], (m.topic, m.joinReference, m.reference));
    assert steps[..last][..i] == steps[..i];
  }

  /** Giving up a connection without failing answers every pending call and join once, as disconnected. */
  lemma LeavingConnectedAnswersEverything(strategy: bool, s: State, step: Step, x: SenderId)
    requires s.Connected? && Enabled(s, step)
    requires var s' := Iterate(strategy, s, step).state; !s'.Connected? && !s'.Failed?
    ensures var outputs := Iterate(strategy, s, step).outputs;
            && (x in s.connection.calls.Values ==> EndCall(x, CallDisconnected) in outputs)
            && (forall k | k in s.connection.joins ::
                  EndJoin(s.connection.joins[k].sender, JoinDisconnected) in outputs)
  {
    hide EndJoins, EndCalls;
    var c := s.connection;
    var outputs := Iterate(strategy, s, step).outputs;
    var cause := match Iterate(strategy, s, step).state
      case Disconnected => Disconnect
      case ShuttingDown => Shutdown
      case _ => Reconnect;
    assert forall o | o in SendDisconnected(c, cause, step.order) :: o in outputs;
    hide SendDisconnected;
    DrainContents(c, cause, step.order, EndCall(x, CallDisconnected));
    if x in c.calls.Values {
      var k :| k in c.calls && c.calls[k] == x;
      assert EndCall(x, CallDisconnected) == EndCall(c.calls[k], CallDisconnected);
    }
    forall k | k in c.joins ensures EndJoin(c.joins[k].sender, JoinDisconnected) in outputs {
      DrainContents(c, cause, step.order, EndJoin(c.joins[k].sender, JoinDisconnected));
    }
  }
}
