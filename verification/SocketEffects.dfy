/**
 What one socket iteration does to the entry of one channel key, and which effect it announces first:
 the facts about the socket that the composition with channels rests on.
 */
module SocketEffects {
  import opened Messages
  import opened SocketProtocol
  import opened SocketSteps
  import opened SocketAnswers
  import opened SocketBroadcast

  ghost predicate EndedIn(outputs: seq<Output>, x: SenderId) {
    exists fate :: EndJoin(x, fate) in outputs
  }

  ghost predicate OwnKeys(c: Connection) {
    forall k | k in c.joins :: KeyOf(c.joins[k]) == k
  }

  lemma DrainEndsJoin(c: Connection, order: DrainOrder, key: JoinKey)
    requires Drains(order, c) && key in c.joins
    ensures forall cause :: EndJoin(c.joins[key].sender, JoinDisconnected) in SendDisconnected(c, cause, order)
    ensures EndJoin(c.joins[key].sender, JoinDropped(SocketFailed)) in FailFatally(c, order).outputs
  {
    DrainContents(c, Reconnect, order, EndJoin(c.joins[key].sender, JoinDropped(SocketFailed)));
    forall cause ensures EndJoin(c.joins[key].sender, JoinDisconnected) in SendDisconnected(c, cause, order) {
      DrainContents(c, cause, order, EndJoin(c.joins[key].sender, JoinDisconnected));
    }
  }

  /** A pending join stays under its key, or is ended by this step and gone from its key, unless the
      step itself registers another join there. */
  lemma PendingJoinStaysOrEnds(c: Connection, step: Step, key: JoinKey)
    requires Enabled(Connected(c), step) && key in c.joins
    ensures var next := StepConnected(c, step);
            || (&& next.state.Connected? && key in next.state.connection.joins
                && next.state.connection.joins[key] == c.joins[key]
                && (step.input.TakeJoin? ==> KeyOf(step.input.join) != key || step.input.join == c.joins[key]))
            || (&& EndedIn(next.outputs, c.joins[key].sender)
                && (next.state.Connected? ==>
                      || key !in next.state.connection.joins
                      || (step.input.TakeJoin? && KeyOf(step.input.join) == key)))
  {
    DrainEndsJoin(c, step.order, key);
    var next, x := StepConnected(c, step), c.joins[key].sender;
    hide SendDisconnected, FailFatally;
    if step.input.TakeJoin? {
      if step.input.sent && KeyOf(step.input.join) == key {
        assert EndJoin(x, JoinDropped(Overwritten)) in next.outputs;
      } else if !step.input.sent {
        assert EndJoin(x, JoinDisconnected) in next.outputs;
      }
    } else if step.input.ReceiveMessage? {
      MessageEndsOrKeeps(c, step.input.message, key);
      hide HandleMessage;
    } else if step.input.JoinTimerFires? {
      if step.input.timer.key == key {
        assert EndJoin(x, JoinTimedOut) in next.outputs;
      }
    } else if !next.state.Connected? {
      if next.state.Failed? {
        assert EndJoin(x, JoinDropped(SocketFailed)) in next.outputs;
      } else {
        assert EndJoin(x, JoinDisconnected) in next.outputs;
      }
    }
  }

  lemma MessageEndsOrKeeps(c: Connection, m: Message, key: JoinKey)
    requires key in c.joins
    ensures var (c', outputs) := HandleMessage(c, m);
            || (key in c'.joins && c'.joins[key] == c.joins[key])
            || (key !in c'.joins && EndedIn(outputs, c.joins[key].sender))
  {
    var (c', outputs) := HandleMessage(c, m);
    if key !in c'.joins {
      if m.status.StatusOk? {
        assert EndJoin(c.joins[key].sender, JoinOk(m.payload)) in outputs;
      } else {
        assert EndJoin(c.joins[key].sender, JoinRejected(m.payload)) in outputs;
      }
    }
  }

  /** A join taken from the queue is pending under its own key afterwards, or was dropped unsent. */
  lemma TakenJoinIsPendingOrEnds(c: Connection, step: Step)
    requires Enabled(Connected(c), step) && step.input.TakeJoin?
    ensures var next, join := StepConnected(c, step), step.input.join;
            if next.state.Connected? then
              && KeyOf(join) in next.state.connection.joins
              && next.state.connection.joins[KeyOf(join)] == join
            else EndJoin(join.sender, JoinDropped(SendFailed)) in next.outputs
  {
    hide SendDisconnected;
  }

  /** Where the entries of the next connection come from. */
  lemma EntriesHaveCauses(c: Connection, step: Step, key: JoinKey)
    requires Enabled(Connected(c), step) && StepConnected(c, step).state.Connected? && OwnKeys(c)
    ensures var next := StepConnected(c, step);
            var c' := next.state.connection;
            && (key in c'.joins ==>
                  || (key in c.joins && c'.joins[key] == c.joins[key])
                  || (step.input.TakeJoin? && KeyOf(step.input.join) == key && c'.joins[key] == step.input.join))
            && (key in c'.joined ==>
                  || (&& key in c.joined && c'.joined[key] == c.joined[key]
                      && !(step.input.TakeLeave? && (step.input.topic, step.input.joinReference) == key))
                  || (key in c.joins && key !in c'.joins && c'.joined[key] == c.joins[key].sender))
            && (key in c.joined ==>
                  || (key in c'.joined && c'.joined[key] == c.joined[key])
                  || (key in c.joins && key !in c'.joins)
                  || (step.input.TakeLeave? && (step.input.topic, step.input.joinReference) == key))
  {
    hide SendDisconnected, EndJoins, EndCalls;
    if step.input.ReceiveMessage? && step.input.message.ReplyMessage? {
    } else if step.input.ReceiveMessage? {
    } else if step.input.TakeJoin? {
    } else {
    }
  }

  /** An accepted join is registered under its own key by the very step that answers it. */
  lemma AcceptedJoinIsRegistered(c: Connection, step: Step, x: SenderId, p: Payload)
    requires Enabled(Connected(c), step) && OwnKeys(c)
    requires EndJoin(x, JoinOk(p)) in StepConnected(c, step).outputs
    ensures var next := StepConnected(c, step);
            && step.input.ReceiveMessage? && step.input.message.ReplyMessage?
            && next.state.Connected?
            && var key := (step.input.message.topic, step.input.message.joinReference);
            && key in c.joins && c.joins[key].sender == x
            && key !in next.state.connection.joins
            && key in next.state.connection.joined && next.state.connection.joined[key] == x
  {
    JoinEndsHaveCauses(false, Connected(c), step, EndJoin(x, JoinOk(p)));
    hide SendDisconnected, FailFatally, JoinTimedOutAt, StartJoin, StartLeave, StartCall;
  }

  lemma LeftNoticeHasCause(c: Connection, step: Step, x: SenderId)
    requires Enabled(Connected(c), step)
    requires NotifyLeft(x) in StepConnected(c, step).outputs
    ensures step.input.TakeLeave?
    ensures var key := (step.input.topic, step.input.joinReference); key in c.joined && c.joined[key] == x
  {
    if StepConnected(c, step).state.Connected? {
      KeptLeftNoticeHasCause(c, step, x);
    } else {
      LostConnectionOutputs(c, step, NotifyLeft(x));
      forall cause ensures NotifyLeft(x) !in SendDisconnected(c, cause, step.order) {
        DrainContents(c, cause, step.order, NotifyLeft(x));
      }
      DrainContents(c, Reconnect, step.order, NotifyLeft(x));
    }
    hide StepConnected;
  }

  lemma KeptLeftNoticeHasCause(c: Connection, step: Step, x: SenderId)
    requires Enabled(Connected(c), step) && StepConnected(c, step).state.Connected?
    requires NotifyLeft(x) in StepConnected(c, step).outputs
    ensures step.input.TakeLeave?
    ensures var key := (step.input.topic, step.input.joinReference); key in c.joined && c.joined[key] == x
  {
    hide SendDisconnected, EndJoins, EndCalls;
    if step.input.TakeLeave? {
    } else if step.input.ReceiveMessage? {
    } else {
    }
  }

  /** The outputs of a socket that is not connected end no join and notify nobody. */
  lemma UnconnectedEndsNothing(strategy: bool, s: State, step: Step, o: Output)
    requires Enabled(s, step) && !s.Connected? && o in Iterate(strategy, s, step).outputs
    ensures !o.EndJoin? && !o.NotifyLeft?
  {}

  /** A join ended while the connection is kept was held under a key that it leaves. */
  lemma EndedJoinLeavesItsKey(c: Connection, step: Step, x: SenderId, fate: JoinFate)
    returns (key: JoinKey)
    requires Enabled(Connected(c), step) && StepConnected(c, step).state.Connected?
    requires EndJoin(x, fate) in StepConnected(c, step).outputs
    ensures HeldJoin(c, key, x)
    ensures || key !in StepConnected(c, step).state.connection.joins
            || (step.input.TakeJoin? && KeyOf(step.input.join) == key)
  {
    JoinEndsHaveCauses(false, Connected(c), step, EndJoin(x, fate));
    hide SendDisconnected, EndJoins, EndCalls;
    if step.input.ReceiveMessage? {
      key := (step.input.message.topic, step.input.message.joinReference);
    } else if step.input.JoinTimerFires? {
      key := step.input.timer.key;
    } else {
      key := KeyOf(step.input.join);
    }
  }

  // ---------------------------------------------------------------------------------- order

  ghost predicate SaysDisconnected(o: Output) {
    o.EndJoin? && o.joinFate.JoinDisconnected?
  }

  /** No announcement follows a join failed by a disconnect, and none but Down goes with it. */
  ghost predicate AnnouncedFirst(outputs: seq<Output>) {
    && (forall a, b | 0 <= a < b < |outputs| :: !(SaysDisconnected(outputs[a]) && outputs[b].Announce?))
    && (forall a, b | 0 <= a < |outputs| && 0 <= b < |outputs| ::
          SaysDisconnected(outputs[a]) && outputs[b].Announce? ==> outputs[b].event.Down?)
  }

  lemma AnnouncedFirstAround(before: seq<Output>, event: Connectivity, after: seq<Output>)
    requires forall o | o in before :: !o.Announce? && !SaysDisconnected(o)
    requires forall o | o in after :: !o.Announce?
    requires event.Down?
    ensures AnnouncedFirst(before + [Announce(event)] + after)
  {
    var all := before + [Announce(event)] + after;
    forall a | 0 <= a < |all|
      ensures all[a].Announce? ==> a == |before|
      ensures SaysDisconnected(all[a]) ==> a > |before|
    {
      assert a < |before| ==> all[a] in before;
      assert a > |before| ==> all[a] == after[a - |before| - 1];
    }
  }

  lemma DrainAnnouncesFirst(c: Connection, cause: Cause, order: DrainOrder, before: seq<Output>,
                            after: seq<Output>)
    requires Drains(order, c)
    requires forall o | o in before || o in after :: !o.Announce? && !SaysDisconnected(o)
    ensures AnnouncedFirst(before + SendDisconnected(c, cause, order) + after)
  {
    var joins := EndJoins(c.joins, order.joins, JoinDisconnected);
    var calls := EndCalls(c.calls, order.calls, CallDisconnected);
    forall o: Output | o in joins + calls + after ensures !o.Announce? {
      EndJoinsContents(c.joins, order.joins, JoinDisconnected, o);
      EndCallsContents(c.calls, order.calls, CallDisconnected, o);
    }
    AnnouncedFirstAround(before, Down(cause), joins + calls + after);
    assert before + SendDisconnected(c, cause, order) + after
        == before + [Announce(Down(cause))] + (joins + calls + after);
  }

  lemma LostConnectionAnnouncesFirst(c: Connection, step: Step)
    requires Enabled(Connected(c), step) && !StepConnected(c, step).state.Connected?
    ensures AnnouncedFirst(StepConnected(c, step).outputs)
  {
    var order := step.order;
    var outputs := StepConnected(c, step).outputs;
    hide SendDisconnected, EndJoins, EndCalls, AnnouncedFirst, HandleMessage, JoinTimedOutAt;
    match step.input
    case TakeDisconnect(sender) =>
      DrainAnnouncesFirst(c, Disconnect, order, [], [EndDisconnect(sender)]);
      assert outputs == [] + SendDisconnected(c, Disconnect, order) + [EndDisconnect(sender)];
    case TakeShutdown =>
      DrainAnnouncesFirst(c, Shutdown, order, [], []);
      assert outputs == [] + SendDisconnected(c, Shutdown, order) + [];
    case TakeJoin(join, _, _) =>
      DrainAnnouncesFirst(c, Reconnect, order, [outputs[0]], [EndJoin(join.sender, JoinDropped(SendFailed))]);
    case TakeLeave(_, _, sender, _, _) =>
      DrainAnnouncesFirst(c, Reconnect, order, [outputs[0]], [EndLeave(sender, false)]);
    case TakeCall(_, _, _, sender, _, _) =>
      DrainAnnouncesFirst(c, Reconnect, order, [outputs[0], EndCall(sender, CallWebSocketError)], []);
    case TakeCast(_, _, _, _, _) => DrainAnnouncesFirst(c, Reconnect, order, [outputs[0]], []);
    case HeartbeatTick(_, _) => DrainAnnouncesFirst(c, Reconnect, order, [outputs[0]], []);
    case ReceiveError(Fatal) =>
      forall o | o in outputs ensures !o.Announce? {
        DrainContents(c, Reconnect, order, o);
      }
      NothingAnnounced(outputs);
    case _ => DrainAnnouncesFirst(c, Reconnect, order, [], []);
  }

  lemma NothingAnnounced(outputs: seq<Output>)
    requires forall o | o in outputs :: !o.Announce?
    ensures AnnouncedFirst(outputs)
  {}

  /** In every iteration the broadcast goes out before any join is failed as disconnected. */
  lemma StepAnnouncesFirst(strategy: bool, s: State, step: Step)
    requires Enabled(s, step)
    ensures AnnouncedFirst(Iterate(strategy, s, step).outputs)
  {
    if s.Connected? {
      if StepConnected(s.connection, step).state.Connected? {
        KeptConnectionSaysNothing(s.connection, step);
        NothingAnnounced(StepConnected(s.connection, step).outputs);
      } else {
        LostConnectionAnnouncesFirst(s.connection, step);
      }
    }
    hide StepConnected;
  }
}
