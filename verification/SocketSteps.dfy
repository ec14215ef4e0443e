/**
 What one iteration of the socket listener sends, relays and answers, told from its state and input alone: which
 frame it hands to the web socket, who is relayed a message, who is answered what, and where it goes on
 (src/rust/socket/listener.rs). What becomes of joins and calls is in SocketAnswers.dfy.
 */
module SocketSteps {
  import opened Wrappers
  import opened Messages
  import opened Backoff
  import opened SocketProtocol

  // ---------------------------------------------------------------------------------- drains

  lemma {:induction false} EndJoinsContents(
      joins: map<JoinKey, PendingJoin>, keys: seq<JoinKey>, fate: JoinFate, o: Output)
    requires forall k | k in keys :: k in joins
    ensures o in EndJoins(joins, keys, fate)
            <==> exists k :: k in keys && o == EndJoin(joins[k].sender, fate)
  {
    if |keys| == 0 {
    } else {
      var last := |keys| - 1;
      EndJoinsContents(joins, keys[..last], fate, o);
      assert keys == keys[..last] + [keys[last]];
    }
  }

  lemma {:induction false} EndCallsContents(
      calls: map<CallKey, SenderId>, keys: seq<CallKey>, fate: CallFate, o: Output)
    requires forall k | k in keys :: k in calls
    ensures o in EndCalls(calls, keys, fate)
            <==> exists k :: k in keys && o == EndCall(calls[k], fate)
  {
    if |keys| == 0 {
    } else {
      var last := |keys| - 1;
      EndCallsContents(calls, keys[..last], fate, o);
      assert keys == keys[..last] + [keys[last]];
    }
  }

  /** What a drain contains, whatever order it ran in. */
  lemma DrainContents(c: Connection, cause: Cause, order: DrainOrder, o: Output)
    requires Drains(order, c)
    ensures o in SendDisconnected(c, cause, order)
            <==> || o == Announce(Down(cause))
                 || (exists k :: k in c.joins && o == EndJoin(c.joins[k].sender, JoinDisconnected))
                 || (exists k :: k in c.calls && o == EndCall(c.calls[k], CallDisconnected))
    ensures o in FailFatally(c, order).outputs
            <==> || (exists k :: k in c.joins && o == EndJoin(c.joins[k].sender, JoinDropped(SocketFailed)))
                 || (exists k :: k in c.calls && o == EndCall(c.calls[k], CallDropped))
  {
    EndJoinsContents(c.joins, order.joins, JoinDisconnected, o);
    EndCallsContents(c.calls, order.calls, CallDisconnected, o);
    EndJoinsContents(c.joins, order.joins, JoinDropped(SocketFailed), o);
    EndCallsContents(c.calls, order.calls, CallDropped, o);
  }

  /** A drain does nothing but announce and end. */
  lemma DrainsOnlyEnd(c: Connection, order: DrainOrder)
    requires Drains(order, c)
    ensures forall cause, o | o in SendDisconnected(c, cause, order) :: o.Announce? || o.EndJoin? || o.EndCall?
    ensures forall o | o in FailFatally(c, order).outputs :: o.EndJoin? || o.EndCall?
  {
    forall cause, o | o in SendDisconnected(c, cause, order) ensures o.Announce? || o.EndJoin? || o.EndCall? {
      DrainContents(c, cause, order, o);
    }
    forall o | o in FailFatally(c, order).outputs ensures o.EndJoin? || o.EndCall? {
      DrainContents(c, Reconnect, order, o);
    }
  }

  // ---------------------------------------------------------------------------------- effects

  /** The message is a push with exactly these parts, and asks for a reply under the reference. */
  ghost predicate IsPush(m: Message, topic: Topic, joinReference: JoinReference, event: Event, payload: Payload,
                         reference: Reference) {
    && m.PushMessage? && m.topic == topic && m.joinReference == joinReference
    && m.eventPayload.event == event && m.eventPayload.payload == payload
    && m.pushReference == Some(reference)
  }

  /** The frame that an input makes a connected socket hand to the web socket. */
  ghost predicate Frames(c: Connection, input: Input, m: Message) {
    match input
    case TakeJoin(join, reference, _) =>
      IsPush(m, join.topic, join.joinReference, Phoenix(PhoenixEvent.Join), join.payload, reference)
    case TakeLeave(topic, joinReference, _, reference, _) =>
      IsPush(m, topic, joinReference, Phoenix(PhoenixEvent.Leave), Value(Null), reference)
    case TakeCall(topic, joinReference, ep, _, reference, _) =>
      IsPush(m, topic, joinReference, ep.event, ep.payload, reference)
    case TakeCast(topic, joinReference, ep, reference, _) =>
      IsPush(m, topic, joinReference, ep.event, ep.payload, reference)
    case HeartbeatTick(reference, _) =>
      && c.heartbeat.None?
      && m.ControlMessage? && m.event == Phoenix(PhoenixEvent.Heartbeat) && m.payload == Value(Null)
      && m.controlReference == Some(reference)
    case _ => false
  }

  ghost predicate JoinedAs(c: Connection, topic: Topic, joinReference: JoinReference, join: SenderId) {
    (topic, joinReference) in c.joined && c.joined[(topic, joinReference)] == join
  }

  /** How a connect is answered: only an attempt that was made can fail, and none is made while there is a connection
      or while the socket waits to reconnect. */
  ghost predicate ConnectIsAnswered(s: State, isOpen: bool, fate: ConnectFate) {
    match fate
    case ConnectOk => s.Connected? || (!s.WaitingToReconnect? && isOpen)
    case ConnectFailed => !s.Connected? && !s.WaitingToReconnect? && !isOpen
    case ConnectWaiting(sleep) => s.WaitingToReconnect? && s.sleep == sleep
  }

  /** The input makes this happen; announcements and the ends of joins and calls are spoken of elsewhere. */
  ghost predicate Causes(s: State, input: Input, o: Output) {
    match o
    case Transmit(m) => s.Connected? && Frames(s.connection, input, m)
    case NotifyLeft(join) =>
      s.Connected? && input.TakeLeave? && input.sent && JoinedAs(s.connection, input.topic, input.joinReference, join)
    case RelayPush(join, m) =>
      && s.Connected? && input == ReceiveMessage(m) && m.PushMessage?
      && JoinedAs(s.connection, m.topic, m.joinReference, join)
    case RelayBroadcast(m) =>
      s.Connected? && input == ReceiveMessage(m) && m.BroadcastMessage? && m.topic in s.connection.broadcasters
    case EndLeave(sender, sent) => s.Connected? && input.TakeLeave? && input.sender == sender && input.sent == sent
    case EndConnect(sender, fate) =>
      input.TakeConnect? && input.sender == sender && ConnectIsAnswered(s, input.isOpen, fate)
    case EndDisconnect(sender) => input.TakeDisconnect? && input.sender == sender
    case _ => true
  }

  predicate IsEffect(o: Output) {
    !o.Announce? && !o.EndJoin? && !o.EndCall?
  }

  lemma KeptConnectionEffects(c: Connection, step: Step, o: Output)
    requires Enabled(Connected(c), step) && StepConnected(c, step).state.Connected? && IsEffect(o)
    ensures o in StepConnected(c, step).outputs <==> Causes(Connected(c), step.input, o)
  {
    hide SendDisconnected, EndJoins, EndCalls, Drains;
    match step.input
    case ReceiveMessage(m) => MessageEffects(c, m, o);
    case TakeLeave(topic, joinReference, _, _, _) =>
    case JoinTimerFires(_) =>
    case _ =>
  }

  lemma MessageEffects(c: Connection, m: Message, o: Output)
    requires IsEffect(o)
    ensures o in HandleMessage(c, m).1 <==> Causes(Connected(c), ReceiveMessage(m), o)
  {
  }

  lemma GiveUpEffects(c: Connection, before: seq<Output>, after: seq<Output>, order: DrainOrder, o: Output)
    requires Drains(order, c) && IsEffect(o)
    ensures o in GiveUp(c, before, after, order).outputs <==> o in before || o in after
  {
    hide SendDisconnected;
    DrainsOnlyEnd(c, order);
  }

  lemma LostConnectionEffects(c: Connection, step: Step, o: Output)
    requires Enabled(Connected(c), step) && !StepConnected(c, step).state.Connected? && IsEffect(o)
    ensures o in StepConnected(c, step).outputs <==> Causes(Connected(c), step.input, o)
  {
    hide SendDisconnected, EndJoins, EndCalls, GiveUp, Drains;
    var order := step.order;
    DrainsOnlyEnd(c, order);
    match step.input
    case TakeJoin(join, reference, _) =>
      var push := ClientPush(join.topic, join.joinReference,
                             EventPayload(Phoenix(PhoenixEvent.Join), join.payload), reference);
      GiveUpEffects(c, [Transmit(push)], [EndJoin(join.sender, JoinDropped(SendFailed))], order, o);
    case TakeLeave(topic, joinReference, sender, reference, _) =>
      var push := ClientPush(topic, joinReference, EventPayload(Phoenix(PhoenixEvent.Leave), Value(Null)), reference);
      GiveUpEffects(c, [Transmit(push)], [EndLeave(sender, false)], order, o);
    case TakeCall(topic, joinReference, ep, sender, reference, _) =>
      var push := ClientPush(topic, joinReference, ep, reference);
      GiveUpEffects(c, [Transmit(push), EndCall(sender, CallWebSocketError)], [], order, o);
    case TakeCast(topic, joinReference, ep, reference, _) =>
      GiveUpEffects(c, [Transmit(ClientPush(topic, joinReference, ep, reference))], [], order, o);
    case HeartbeatTick(reference, _) =>
      GiveUpEffects(c, [Transmit(HeartbeatMessage(reference))], [], order, o);
    case TakeDisconnect(_) =>
    case TakeShutdown =>
    case ReceiveError(Fatal) =>
    case _ => GiveUpEffects(c, [], [], order, o);
  }

  /** In any step, each frame, relay and answer happens if and only if the state and the input call for it. */
  lemma EffectsExactly(strategy: bool, s: State, step: Step, o: Output)
    requires Enabled(s, step) && IsEffect(o)
    ensures o in Iterate(strategy, s, step).outputs <==> Causes(s, step.input, o)
  {
    hide StepConnected, SendDisconnected;
    if s.Connected? {
      if StepConnected(s.connection, step).state.Connected? {
        KeptConnectionEffects(s.connection, step, o);
      } else {
        LostConnectionEffects(s.connection, step, o);
      }
    }
  }

  ghost predicate FrameFirst(outputs: seq<Output>) {
    forall i | 0 <= i < |outputs| && outputs[i].Transmit? :: i == 0
  }

  lemma FramesAround(before: seq<Output>, middle: seq<Output>, after: seq<Output>)
    requires FrameFirst(before)
    requires (forall o | o in middle :: !o.Transmit?) && (forall o | o in after :: !o.Transmit?)
    ensures FrameFirst(before + middle + after)
  {
    var all := before + middle + after;
    assert forall i | |before| <= i < |before| + |middle| :: all[i] in middle;
    assert forall i | |before| + |middle| <= i < |all| :: all[i] in after;
    assert forall i | 0 <= i < |before| :: all[i] == before[i];
  }

  lemma NoFrameInDrain(c: Connection, cause: Cause, order: DrainOrder)
    requires Drains(order, c)
    ensures forall o | o in SendDisconnected(c, cause, order) :: !o.Transmit?
    ensures forall o | o in FailFatally(c, order).outputs :: !o.Transmit?
  {
    hide SendDisconnected, FailFatally;
    forall o: Output
      ensures o in SendDisconnected(c, cause, order) || o in FailFatally(c, order).outputs ==> !o.Transmit?
    {
      DrainContents(c, cause, order, o);
    }
  }

  lemma GiveUpFrames(c: Connection, before: seq<Output>, after: seq<Output>, order: DrainOrder)
    requires Drains(order, c)
    requires FrameFirst(before) && forall o | o in after :: !o.Transmit?
    ensures FrameFirst(GiveUp(c, before, after, order).outputs)
  {
    hide SendDisconnected, FrameFirst;
    NoFrameInDrain(c, Reconnect, order);
    FramesAround(before, SendDisconnected(c, Reconnect, order), after);
  }

  lemma LostConnectionFrames(c: Connection, step: Step)
    requires Enabled(Connected(c), step) && !StepConnected(c, step).state.Connected?
    ensures FrameFirst(StepConnected(c, step).outputs)
  {
    hide SendDisconnected, EndJoins, EndCalls, Drains, GiveUp, FailFatally;
    var order := step.order;
    match step.input
    case TakeJoin(join, reference, _) =>
      var push := ClientPush(join.topic, join.joinReference,
                             EventPayload(Phoenix(PhoenixEvent.Join), join.payload), reference);
      GiveUpFrames(c, [Transmit(push)], [EndJoin(join.sender, JoinDropped(SendFailed))], order);
    case TakeLeave(topic, joinReference, sender, reference, _) =>
      var push := ClientPush(topic, joinReference, EventPayload(Phoenix(PhoenixEvent.Leave), Value(Null)), reference);
      GiveUpFrames(c, [Transmit(push)], [EndLeave(sender, false)], order);
    case TakeCall(topic, joinReference, ep, sender, reference, _) =>
      var push := ClientPush(topic, joinReference, ep, reference);
      GiveUpFrames(c, [Transmit(push), EndCall(sender, CallWebSocketError)], [], order);
    case TakeCast(topic, joinReference, ep, reference, _) =>
      GiveUpFrames(c, [Transmit(ClientPush(topic, joinReference, ep, reference))], [], order);
    case HeartbeatTick(reference, _) => GiveUpFrames(c, [Transmit(HeartbeatMessage(reference))], [], order);
    case TakeDisconnect(sender) =>
      NoFrameInDrain(c, Disconnect, order);
      FramesAround([], SendDisconnected(c, Disconnect, order), [EndDisconnect(sender)]);
      assert [] + SendDisconnected(c, Disconnect, order) == SendDisconnected(c, Disconnect, order);
    case TakeShutdown => NoFrameInDrain(c, Shutdown, order);
    case ReceiveError(Fatal) => NoFrameInDrain(c, Shutdown, order);
    case _ => GiveUpFrames(c, [], [], order);
  }

  lemma KeptConnectionFrames(c: Connection, step: Step)
    requires Enabled(Connected(c), step) && StepConnected(c, step).state.Connected?
    ensures FrameFirst(StepConnected(c, step).outputs)
  {
    hide SendDisconnected, EndJoins, EndCalls, Drains;
    match step.input
    case ReceiveMessage(m) => NoFrameForMessage(c, m);
    case TakeLeave(_, _, _, _, _) =>
    case _ =>
  }

  /** A step hands at most one frame to the web socket, before anything else it does. */
  lemma TransmitsFirst(strategy: bool, s: State, step: Step)
    requires Enabled(s, step)
    ensures FrameFirst(Iterate(strategy, s, step).outputs)
  {
    hide StepConnected;
    if s.Connected? {
      if StepConnected(s.connection, step).state.Connected? {
        KeptConnectionFrames(s.connection, step);
      } else {
        LostConnectionFrames(s.connection, step);
      }
    }
  }

  lemma NoFrameForMessage(c: Connection, m: Message)
    ensures forall o | o in HandleMessage(c, m).1 :: !o.Transmit?
  {
  }

  // ---------------------------------------------------------------------------------- where it goes on

  /** A write that the input asks for has failed. */
  ghost predicate WriteFails(c: Connection, input: Input) {
    || (input.TakeJoin? && !input.sent) || (input.TakeLeave? && !input.sent)
    || (input.TakeCall? && !input.sent) || (input.TakeCast? && !input.sent)
    || (input.HeartbeatTick? && c.heartbeat.None? && !input.sent) || (input.ReceivePing? && !input.sent)
  }

  /** What a connected socket goes on as: it waits to reconnect exactly after a failed write, a close or a retryable
      error, with its own timeout and no sleep at first. */
  lemma ConnectedGoesOnExactly(strategy: bool, s: State, step: Step)
    requires Enabled(s, step) && s.Connected?
    ensures var s', input := Iterate(strategy, s, step).state, step.input;
            && (s'.WaitingToReconnect? <==>
                  WriteFails(s.connection, input) || input.ReceiveClose? || input == ReceiveError(Retryable))
            && (s'.WaitingToReconnect? ==> s' == WaitingToReconnect(0, Retry(s.connection.connectTimeout, 1)))
            && (s'.Failed? <==> input == ReceiveError(Fatal))
            && (s'.Disconnected? <==> input.TakeDisconnect?)
            && (s'.ShuttingDown? <==> input.TakeShutdown?)
            && !s'.ShutDown? && !s'.NeverConnected?
  {
    hide SendDisconnected, EndJoins, EndCalls, Drains;
  }

  /** An attempt to connect is made on an explicit connect, unless the socket waits to reconnect, or when that wait is
      over. */
  ghost predicate Attempts(s: State, input: Input) {
    (input.TakeConnect? && !s.WaitingToReconnect?) || input.ReconnectDue?
  }

  ghost function AttemptTimeout(s: State, input: Input): nat
    requires Attempts(s, input) && (input.ReconnectDue? ==> s.WaitingToReconnect?)
  {
    if input.TakeConnect? then input.timeout else s.reconnect.timeout
  }

  /** What a socket without a connection goes on as. An attempt leads to an empty connection or to a counted wait, as
      long as the user's strategy says where there is one; nothing else changes it but a shutdown and the end. */
  lemma UnconnectedGoesOnExactly(strategy: bool, s: State, step: Step)
    requires Enabled(s, step) && !s.Connected?
    ensures var s', input := Iterate(strategy, s, step).state, step.input;
            && (s'.Connected? <==> Attempts(s, input) && input.isOpen)
            && (s'.Connected? ==> s'.connection == EmptyConnection(AttemptTimeout(s, input)))
            && (Attempts(s, input) && !input.isOpen ==>
                  && s'.WaitingToReconnect? && s'.reconnect.timeout == AttemptTimeout(s, input)
                  && (strategy ==> s'.sleep == input.strategyDelay))
            && (s'.ShuttingDown? <==> input.TakeShutdown?)
            && (s'.ShutDown? <==> input.Exit?)
            && (!Attempts(s, input) && !input.TakeShutdown? && !input.Exit? ==> s' == s)
  {
  }

  // ---------------------------------------------------------------------------------- what a connection remembers

  /** The message is the control reply to the heartbeat that is outstanding. */
  ghost predicate RepliesToHeartbeat(c: Connection, input: Input) {
    && input.ReceiveMessage? && input.message.ControlMessage?
    && input.message.event == Phoenix(PhoenixEvent.Reply) && input.message.controlReference == c.heartbeat
  }

  /** A heartbeat is remembered under the reference it was sent with, and forgotten exactly by the control reply to
      it. */
  lemma HeartbeatRememberedExactly(strategy: bool, s: State, step: Step, r: Reference)
    requires Enabled(s, step) && s.Connected? && Iterate(strategy, s, step).state.Connected?
    ensures var c, c', input := s.connection, Iterate(strategy, s, step).state.connection, step.input;
            c'.heartbeat == Some(r) <==>
              || (c.heartbeat == Some(r) && !RepliesToHeartbeat(c, input))
              || (c.heartbeat.None? && input.HeartbeatTick? && input.reference == r)
  {
    hide SendDisconnected, EndJoins, EndCalls, Drains;
    if step.input.ReceiveMessage? {
    } else {
    }
  }

  /** Timers come with sent joins and go by firing, and the timeout stays. */
  lemma TimersKeptExactly(strategy: bool, s: State, step: Step)
    requires Enabled(s, step) && s.Connected? && Iterate(strategy, s, step).state.Connected?
    ensures var c, c', input := s.connection, Iterate(strategy, s, step).state.connection, step.input;
            && c'.timers == (if input.TakeJoin? then c.timers + multiset{Timer(KeyOf(input.join), input.join.deadline)}
                             else if input.JoinTimerFires? then c.timers - multiset{input.timer}
                             else c.timers)
            && c'.connectTimeout == c.connectTimeout
  {
    hide SendDisconnected, EndJoins, EndCalls, Drains;
    if step.input.ReceiveMessage? {
    } else {
    }
  }

  /** A topic gets a broadcaster exactly when a join of it is accepted, and keeps it. */
  lemma BroadcastersKeptExactly(strategy: bool, s: State, step: Step, topic: Topic)
    requires Enabled(s, step) && s.Connected? && Iterate(strategy, s, step).state.Connected?
    ensures topic in Iterate(strategy, s, step).state.connection.broadcasters
            <==> topic in s.connection.broadcasters || AcceptsJoinOf(s.connection, step.input, topic)
  {
    hide SendDisconnected, EndJoins, EndCalls, Drains;
    if step.input.ReceiveMessage? {
    } else {
    }
  }

  /** The message is an ok reply to a join pending under its topic and join reference, for this topic. */
  ghost predicate AcceptsJoinOf(c: Connection, input: Input, topic: Topic) {
    && input.ReceiveMessage? && input.message.ReplyMessage? && input.message.status.StatusOk?
    && input.message.event != Phoenix(PhoenixEvent.Heartbeat)
    && (input.message.topic, input.message.joinReference) in c.joins
    && c.joins[(input.message.topic, input.message.joinReference)].topic == topic
  }

  // ---------------------------------------------------------------------------------- order

  ghost predicate JoinsBeforeCalls(outputs: seq<Output>) {
    forall i, j | 0 <= i < |outputs| && 0 <= j < |outputs|
                  && outputs[i].EndJoin? && outputs[i].joinFate == JoinDisconnected
                  && outputs[j].EndCall? && outputs[j].callFate == CallDisconnected :: i < j
  }

  ghost predicate AnswersLast(outputs: seq<Output>) {
    forall i | 0 <= i < |outputs| && (outputs[i].EndDisconnect? || outputs[i].EndLeave?) :: i == |outputs| - 1
  }

  lemma DrainInOrder(c: Connection, cause: Cause, order: DrainOrder, before: seq<Output>, after: seq<Output>)
    requires Drains(order, c)
    requires forall o | o in before || o in after ::
               !(o.EndJoin? && o.joinFate == JoinDisconnected) && !(o.EndCall? && o.callFate == CallDisconnected)
    requires |after| <= 1 && forall o | o in before :: !o.EndDisconnect? && !o.EndLeave?
    ensures JoinsBeforeCalls(before + SendDisconnected(c, cause, order) + after)
    ensures AnswersLast(before + SendDisconnected(c, cause, order) + after)
  {
    hide EndJoins, EndCalls;
    var joins := EndJoins(c.joins, order.joins, JoinDisconnected);
    var calls := EndCalls(c.calls, order.calls, CallDisconnected);
    forall o: Output ensures o in joins ==> o.EndJoin? {
      EndJoinsContents(c.joins, order.joins, JoinDisconnected, o);
    }
    forall o: Output ensures o in calls ==> o.EndCall? {
      EndCallsContents(c.calls, order.calls, CallDisconnected, o);
    }
    var all := before + SendDisconnected(c, cause, order) + after;
    assert all == before + [Announce(Down(cause))] + joins + calls + after;
    var start := |before| + 1;
    assert forall i | start <= i < start + |joins| :: all[i] in joins;
    assert forall i | start + |joins| <= i < start + |joins| + |calls| :: all[i] in calls;
    assert forall i | start + |joins| + |calls| <= i < |all| :: all[i] in after;
    assert forall i | 0 <= i < |before| :: all[i] in before;
  }

  lemma LostInOrder(c: Connection, step: Step)
    requires Enabled(Connected(c), step) && !StepConnected(c, step).state.Connected?
    ensures JoinsBeforeCalls(StepConnected(c, step).outputs) && AnswersLast(StepConnected(c, step).outputs)
  {
    hide SendDisconnected, EndJoins, EndCalls, JoinsBeforeCalls, AnswersLast, Drains;
    var order, outputs := step.order, StepConnected(c, step).outputs;
    match step.input
    case TakeDisconnect(sender) =>
      DrainInOrder(c, Disconnect, order, [], [EndDisconnect(sender)]);
      assert outputs == [] + SendDisconnected(c, Disconnect, order) + [EndDisconnect(sender)];
    case TakeShutdown =>
      DrainInOrder(c, Shutdown, order, [], []);
      assert outputs == [] + SendDisconnected(c, Shutdown, order) + [];
    case TakeJoin(join, _, _) =>
      DrainInOrder(c, Reconnect, order, [outputs[0]], [EndJoin(join.sender, JoinDropped(SendFailed))]);
    case TakeLeave(_, _, sender, _, _) =>
      DrainInOrder(c, Reconnect, order, [outputs[0]], [EndLeave(sender, false)]);
    case TakeCall(_, _, _, sender, _, _) =>
      DrainInOrder(c, Reconnect, order, [outputs[0], EndCall(sender, CallWebSocketError)], []);
    case TakeCast(_, _, _, _, _) => DrainInOrder(c, Reconnect, order, [outputs[0]], []);
    case HeartbeatTick(_, _) => DrainInOrder(c, Reconnect, order, [outputs[0]], []);
    case ReceiveError(Fatal) => FailureInOrder(c, order);
    case _ => DrainInOrder(c, Reconnect, order, [], []);
  }

  lemma FailureInOrder(c: Connection, order: DrainOrder)
    requires Drains(order, c)
    ensures JoinsBeforeCalls(FailFatally(c, order).outputs) && AnswersLast(FailFatally(c, order).outputs)
  {
    forall o | o in FailFatally(c, order).outputs ensures !o.EndDisconnect? && !o.EndLeave?
                                                          && !(o.EndJoin? && o.joinFate == JoinDisconnected) {
      DrainContents(c, Reconnect, order, o);
    }
    hide EndJoins, EndCalls;
  }

  lemma KeptInOrder(c: Connection, step: Step)
    requires Enabled(Connected(c), step) && StepConnected(c, step).state.Connected?
    ensures JoinsBeforeCalls(StepConnected(c, step).outputs) && AnswersLast(StepConnected(c, step).outputs)
  {
    hide SendDisconnected, EndJoins, EndCalls, Drains;
    match step.input
    case ReceiveMessage(_) =>
    case TakeLeave(_, _, _, _, _) =>
    case _ =>
  }

  /** In any step, every join that is disconnected ends before any call that is, and the answer to a disconnect or a
      leave comes after everything else. */
  lemma DisconnectsInOrder(strategy: bool, s: State, step: Step)
    requires Enabled(s, step)
    ensures JoinsBeforeCalls(Iterate(strategy, s, step).outputs) && AnswersLast(Iterate(strategy, s, step).outputs)
  {
    hide StepConnected;
    if s.Connected? {
      if StepConnected(s.connection, step).state.Connected? {
        KeptInOrder(s.connection, step);
      } else {
        LostInOrder(s.connection, step);
      }
    }
  }
}
