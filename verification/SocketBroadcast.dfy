/**
 What the socket listener broadcasts about its connectivity, over every run (src/rust/socket/listener.rs).
 */
module SocketBroadcast {
  import opened Wrappers
  import opened Messages
  import opened SocketProtocol
  import opened SocketRuns
  import opened SocketSteps
  import opened SocketAnswers

  ghost function Announcements(outputs: seq<Output>): seq<Connectivity> {
    if |outputs| == 0 then []
    else
      var last := outputs[|outputs| - 1];
      Announcements(outputs[..|outputs| - 1]) + (if last.Announce? then [last.event] else [])
  }

  lemma {:induction false} AnnouncementsConcat(a: seq<Output>, b: seq<Output>)
    ensures Announcements(a + b) == Announcements(a) + Announcements(b)
  {
    if |b| == 0 {
      assert a + b == a;
    } else {
      assert (a + b)[..|a + b| - 1] == a + b[..|b| - 1];
      AnnouncementsConcat(a, b[..|b| - 1]);
    }
  }

  lemma {:induction false} NoAnnouncements(outputs: seq<Output>)
    requires forall o | o in outputs :: !o.Announce?
    ensures Announcements(outputs) == []
  {
    if |outputs| == 0 {
    } else {
      NoAnnouncements(outputs[..|outputs| - 1]);
      assert outputs[|outputs| - 1] in outputs;
    }
  }

  lemma DrainedEndsSayNothing(c: Connection, order: DrainOrder, join: JoinFate, call: CallFate)
    requires Drains(order, c)
    ensures forall o | o in EndJoins(c.joins, order.joins, join) + EndCalls(c.calls, order.calls, call) ::
              !o.Announce?
  {
    var joins, calls := EndJoins(c.joins, order.joins, join), EndCalls(c.calls, order.calls, call);
    forall o: Output | o in joins + calls ensures !o.Announce? {
      EndJoinsContents(c.joins, order.joins, join, o);
      EndCallsContents(c.calls, order.calls, call, o);
    }
  }

  lemma DrainAnnouncesOnce(c: Connection, cause: Cause, order: DrainOrder)
    requires Drains(order, c)
    ensures Announcements(SendDisconnected(c, cause, order)) == [Down(cause)]
    ensures Announcements(FailFatally(c, order).outputs) == []
  {
    var drained := EndJoins(c.joins, order.joins, JoinDisconnected)
                   + EndCalls(c.calls, order.calls, CallDisconnected);
    DrainedEndsSayNothing(c, order, JoinDisconnected, CallDisconnected);
    DrainedEndsSayNothing(c, order, JoinDropped(SocketFailed), CallDropped);
    NoAnnouncements(FailFatally(c, order).outputs);
    assert SendDisconnected(c, cause, order) == [Announce(Down(cause))] + drained;
    AnnouncementFirst(Down(cause), drained);
    hide EndJoins, EndCalls, Announcements;
  }

  /** What a step must broadcast, told from the states around it alone. */
  ghost function Announced(s: State, s': State): seq<Connectivity> {
    if !s.Connected? && s'.Connected? then [Up]
    else if s.Connected? then
      match s'
      case Disconnected => [Down(Disconnect)]
      case ShuttingDown => [Down(Shutdown)]
      case WaitingToReconnect(_, _) => [Down(Reconnect)]
      case _ => []
    else []
  }

  lemma AnnouncementsAround(before: seq<Output>, middle: seq<Output>, after: seq<Output>)
    requires forall o | o in before || o in after :: !o.Announce?
    ensures Announcements(before + middle + after) == Announcements(middle)
  {
    NoAnnouncements(before);
    NoAnnouncements(after);
    AnnouncementsConcat(before + middle, after);
    AnnouncementsConcat(before, middle);
  }

  lemma GiveUpAnnounces(c: Connection, before: seq<Output>, after: seq<Output>, order: DrainOrder)
    requires Drains(order, c) && forall o | o in before || o in after :: !o.Announce?
    ensures Announcements(GiveUp(c, before, after, order).outputs) == [Down(Reconnect)]
  {
    DrainAnnouncesOnce(c, Reconnect, order);
    AnnouncementsAround(before, SendDisconnected(c, Reconnect, order), after);
  }

  lemma FailedJoinAnnounces(c: Connection, join: PendingJoin, reference: Reference, order: DrainOrder)
    requires Drains(order, c)
    ensures Announcements(StartJoin(c, join, reference, false, order).outputs) == [Down(Reconnect)]
  {
    var push := ClientPush(join.topic, join.joinReference,
                           EventPayload(Phoenix(PhoenixEvent.Join), join.payload), reference);
    GiveUpAnnounces(c, [Transmit(push)], [EndJoin(join.sender, JoinDropped(SendFailed))], order);
  }

  lemma FailedLeaveAnnounces(c: Connection, key: JoinKey, sender: SenderId, reference: Reference,
                             order: DrainOrder)
    requires Drains(order, c)
    ensures Announcements(StartLeave(c, key, sender, reference, false, order).outputs) == [Down(Reconnect)]
  {
    var push := ClientPush(key.0, key.1, EventPayload(Phoenix(PhoenixEvent.Leave), Value(Null)), reference);
    GiveUpAnnounces(c, [Transmit(push)], [EndLeave(sender, false)], order);
  }

  lemma FailedCallAnnounces(c: Connection, key: CallKey, ep: EventPayload, sender: SenderId,
                            order: DrainOrder)
    requires Drains(order, c)
    ensures Announcements(StartCall(c, key, ep, sender, false, order).outputs) == [Down(Reconnect)]
  {
    var push := ClientPush(key.0, key.1, ep, key.2);
    GiveUpAnnounces(c, [Transmit(push), EndCall(sender, CallWebSocketError)], [], order);
  }

  lemma FailedWriteAnnounces(c: Connection, kept: Connection, m: Message, order: DrainOrder)
    requires Drains(order, c)
    ensures Announcements(Write(c, kept, m, false, order).outputs) == [Down(Reconnect)]
  {
    GiveUpAnnounces(c, [Transmit(m)], [], order);
  }

  lemma DisconnectAnnounces(c: Connection, sender: SenderId, order: DrainOrder)
    requires Drains(order, c)
    ensures Announcements(SendDisconnected(c, Disconnect, order) + [EndDisconnect(sender)])
            == [Down(Disconnect)]
  {
    DrainAnnouncesOnce(c, Disconnect, order);
    AnnouncementsConcat(SendDisconnected(c, Disconnect, order), [EndDisconnect(sender)]);
    NoAnnouncements([EndDisconnect(sender)]);
  }

  /** Whatever made the code give the connection up, its drain is all that is announced. */
  lemma LostConnectionAnnounces(c: Connection, step: Step)
    requires Enabled(Connected(c), step) && !StepConnected(c, step).state.Connected?
    ensures var next := StepConnected(c, step);
            Announcements(next.outputs) == Announced(Connected(c), next.state)
  {
    var order := step.order;
    hide Announcements, HandleMessage, JoinTimedOutAt, SendDisconnected;
    match step.input
    case TakeDisconnect(sender) => DisconnectAnnounces(c, sender, order);
    case TakeShutdown => DrainAnnouncesOnce(c, Shutdown, order);
    case TakeJoin(join, reference, _) => FailedJoinAnnounces(c, join, reference, order);
    case TakeLeave(topic, joinReference, sender, reference, _) =>
      FailedLeaveAnnounces(c, (topic, joinReference), sender, reference, order);
    case TakeCall(topic, joinReference, ep, sender, reference, _) =>
      FailedCallAnnounces(c, (topic, joinReference, reference), ep, sender, order);
    case TakeCast(topic, joinReference, ep, reference, _) =>
      FailedWriteAnnounces(c, c, ClientPush(topic, joinReference, ep, reference), order);
    case HeartbeatTick(reference, _) =>
      FailedWriteAnnounces(c, c.(heartbeat := Some(reference)), HeartbeatMessage(reference), order);
    case ReceiveError(Fatal) => DrainAnnouncesOnce(c, Reconnect, order);
    case _ => GiveUpAnnounces(c, [], [], order);
  }

  lemma KeptConnectionSaysNothing(c: Connection, step: Step)
    requires Enabled(Connected(c), step) && StepConnected(c, step).state.Connected?
    ensures forall o | o in StepConnected(c, step).outputs :: !o.Announce?
  {
    hide SendDisconnected, EndJoins, EndCalls;
    forall o | o in StepConnected(c, step).outputs ensures !o.Announce? {
      if step.input.ReceiveMessage? {
      } else if step.input.TakeLeave? {
      } else {
      }
    }
  }

  lemma AnnouncementFirst(event: Connectivity, rest: seq<Output>)
    requires forall o | o in rest :: !o.Announce?
    ensures Announcements([Announce(event)] + rest) == [event]
  {
    AnnouncementsConcat([Announce(event)], rest);
    NoAnnouncements(rest);
  }

  lemma UnconnectedAnnounces(strategy: bool, s: State, step: Step)
    requires Enabled(s, step) && !s.Connected?
    ensures var next := StepUnconnected(strategy, s, step.input);
            Announcements(next.outputs) == Announced(s, next.state)
  {
    hide Announcements;
    var outputs := StepUnconnected(strategy, s, step.input).outputs;
    if outputs != [] && outputs[0].Announce? {
      assert outputs == [Announce(Up)] + outputs[1..];
      AnnouncementFirst(Up, outputs[1..]);
    } else {
      NoAnnouncements(outputs);
    }
  }

  lemma StepAnnounces(strategy: bool, s: State, step: Step)
    requires Enabled(s, step)
    ensures Announcements(Iterate(strategy, s, step).outputs)
            == Announced(s, Iterate(strategy, s, step).state)
  {
    if !s.Connected? {
      UnconnectedAnnounces(strategy, s, step);
    } else if StepConnected(s.connection, step).state.Connected? {
      KeptConnectionSaysNothing(s.connection, step);
      NoAnnouncements(StepConnected(s.connection, step).outputs);
    } else {
      LostConnectionAnnounces(s.connection, step);
    }
    hide StepConnected, StepUnconnected, Announcements;
  }

  ghost predicate Alternates(events: seq<Connectivity>, s: State) {
    && (forall i | 0 <= i < |events| :: events[i].Up? <==> i % 2 == 0)
    && (|events| % 2 == 1 <==> s.Connected? || s.Failed?)
    && (forall i | 0 <= i < |events| && events[i] == Down(Shutdown) ::
          i == |events| - 1 && (s.ShuttingDown? || s.ShutDown?))
  }

  lemma AlternationExtends(events: seq<Connectivity>, s: State, s': State)
    requires Alternates(events, s) && Follows(s, s')
    ensures Alternates(events + Announced(s, s'), s')
  {
    var more := events + Announced(s, s');
    forall i | 0 <= i < |more| ensures more[i].Up? <==> i % 2 == 0 {
      if i == |events| {
      }
    }
  }

  /**
   Over every run the broadcast alternates, starting with Up; its last event is Up exactly while the
   socket is connected (or after it failed while connected); nothing follows Down(Shutdown).
   */
  lemma {:induction false} BroadcastAlternates(strategy: bool, steps: seq<Step>)
    requires IsRun(strategy, steps)
    ensures Alternates(Announcements(Trace(strategy, steps)), Final(strategy, steps))
  {
    if |steps| == 0 {
    } else {
      var last := |steps| - 1;
      BroadcastAlternates(strategy, steps[..last]);
      StepAnnounces(strategy, Final(strategy, steps[..last]), steps[last]);
      AnnouncementsConcat(Trace(strategy, steps[..last]), LastOutputs(strategy, steps));
      StatesFollow(strategy, Final(strategy, steps[..last]), steps[last]);
      AlternationExtends(Announcements(Trace(strategy, steps[..last])),
                         Final(strategy, steps[..last]), Final(strategy, steps));
    }
  }

  /** Which states can follow which. */
  ghost predicate Follows(s: State, s': State) {
    && !s.ShutDown? && !s.Failed?
    && (s'.Failed? ==> s.Connected?)
    && (s'.NeverConnected? ==> s.NeverConnected?)
    && (s.ShuttingDown? ==> s'.ShutDown?)
    && (s'.ShutDown? ==> s.NeverConnected? || s.Disconnected? || s.ShuttingDown?)
  }

  lemma StatesFollow(strategy: bool, s: State, step: Step)
    requires Enabled(s, step)
    ensures Follows(s, Iterate(strategy, s, step).state)
  {
    hide SendDisconnected, EndJoins, EndCalls, HandleMessage;
  }
}
