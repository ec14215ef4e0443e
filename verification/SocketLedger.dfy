/**
 Over every run of the socket listener, each join and each call that it took is pending or ended, in exactly
 one place (src/rust/socket/listener.rs).
 */
module SocketLedger {
  import opened Wrappers
  import opened Messages
  import opened Backoff
  import opened Counting
  import opened SocketProtocol
  import opened SocketRuns
  import opened SocketSteps

  // ---------------------------------------------------------------------------------- counting

  ghost function JoinEnds(outputs: seq<Output>, x: SenderId): nat {
    if |outputs| == 0 then 0
    else
      var last := outputs[|outputs| - 1];
      JoinEnds(outputs[..|outputs| - 1], x) + (if last.EndJoin? && last.sender == x then 1 else 0)
  }

  ghost function CallEnds(outputs: seq<Output>, x: SenderId): nat {
    if |outputs| == 0 then 0
    else
      var last := outputs[|outputs| - 1];
      CallEnds(outputs[..|outputs| - 1], x) + (if last.EndCall? && last.sender == x then 1 else 0)
  }

  lemma {:induction false} EndsConcat(a: seq<Output>, b: seq<Output>, x: SenderId)
    ensures JoinEnds(a + b, x) == JoinEnds(a, x) + JoinEnds(b, x)
    ensures CallEnds(a + b, x) == CallEnds(a, x) + CallEnds(b, x)
  {
    if |b| == 0 {
      assert a + b == a;
    } else {
      assert (a + b)[..|a + b| - 1] == a + b[..|b| - 1];
      EndsConcat(a, b[..|b| - 1], x);
    }
  }

  ghost function Senders(joins: map<JoinKey, PendingJoin>): map<JoinKey, SenderId> {
    map k | k in joins :: joins[k].sender
  }

  ghost function PendingJoins(s: State, x: SenderId): nat {
    if s.Connected? then Holders(Senders(s.connection.joins), x) else 0
  }

  ghost function PendingCalls(s: State, x: SenderId): nat {
    if s.Connected? then Holders(s.connection.calls, x) else 0
  }

  lemma EndsOfOne(o: Output, x: SenderId)
    ensures JoinEnds([o], x) == if o.EndJoin? && o.sender == x then 1 else 0
    ensures CallEnds([o], x) == if o.EndCall? && o.sender == x then 1 else 0
  {}

  lemma {:induction false} NothingEnds(outputs: seq<Output>, x: SenderId)
    requires forall o | o in outputs :: !o.EndJoin? && !o.EndCall?
    ensures JoinEnds(outputs, x) == 0 && CallEnds(outputs, x) == 0
  {
    if |outputs| == 0 {
    } else {
      NothingEnds(outputs[..|outputs| - 1], x);
      assert outputs[|outputs| - 1] in outputs;
    }
  }

  lemma SendersRemove(joins: map<JoinKey, PendingJoin>, key: JoinKey, x: SenderId)
    requires key in joins
    ensures Holders(Senders(joins), x)
            == Holders(Senders(joins - {key}), x) + (if joins[key].sender == x then 1 else 0)
  {
    HoldersRemove(Senders(joins), key, x);
    assert Senders(joins - {key}) == Senders(joins) - {key};
  }

  /** Draining answers each pending join once: as often as it is pending. */
  lemma {:induction false} DrainedJoinsEndOnce(
      joins: map<JoinKey, PendingJoin>, keys: seq<JoinKey>, fate: JoinFate, x: SenderId)
    requires Enumerates(keys, joins.Keys)
    ensures JoinEnds(EndJoins(joins, keys, fate), x) == Holders(Senders(joins), x)
    ensures CallEnds(EndJoins(joins, keys, fate), x) == 0
  {
    hide JoinEnds, CallEnds;
    if |keys| == 0 {
      HoldersEmpty(Senders(joins), x);
      NothingEnds([], x);
    } else {
      var last, rest := keys[|keys| - 1], joins - {keys[|keys| - 1]};
      assert Enumerates(keys[..|keys| - 1], rest.Keys);
      DrainedJoinsEndOnce(rest, keys[..|keys| - 1], fate, x);
      SameEndJoins(joins, rest, keys[..|keys| - 1], fate);
      SendersRemove(joins, last, x);
      EndsOfOne(EndJoin(joins[last].sender, fate), x);
      EndsConcat(EndJoins(joins, keys[..|keys| - 1], fate), [EndJoin(joins[last].sender, fate)], x);
    }
  }

  lemma {:induction false} SameEndJoins(
      a: map<JoinKey, PendingJoin>, b: map<JoinKey, PendingJoin>, keys: seq<JoinKey>, fate: JoinFate)
    requires forall k | k in keys :: k in a && k in b && a[k] == b[k]
    ensures EndJoins(a, keys, fate) == EndJoins(b, keys, fate)
  {
    if |keys| == 0 {
    } else {
      SameEndJoins(a, b, keys[..|keys| - 1], fate);
      assert keys[|keys| - 1] in keys;
    }
  }

  lemma {:induction false} DrainedCallsEndOnce(
      calls: map<CallKey, SenderId>, keys: seq<CallKey>, fate: CallFate, x: SenderId)
    requires Enumerates(keys, calls.Keys)
    ensures CallEnds(EndCalls(calls, keys, fate), x) == Holders(calls, x)
    ensures JoinEnds(EndCalls(calls, keys, fate), x) == 0
  {
    hide JoinEnds, CallEnds;
    if |keys| == 0 {
      HoldersEmpty(calls, x);
      NothingEnds([], x);
    } else {
      var last, rest := keys[|keys| - 1], calls - {keys[|keys| - 1]};
      assert Enumerates(keys[..|keys| - 1], rest.Keys);
      DrainedCallsEndOnce(rest, keys[..|keys| - 1], fate, x);
      SameEndCalls(calls, rest, keys[..|keys| - 1], fate);
      HoldersRemove(calls, last, x);
      EndsOfOne(EndCall(calls[last], fate), x);
      EndsConcat(EndCalls(calls, keys[..|keys| - 1], fate), [EndCall(calls[last], fate)], x);
    }
  }

  lemma {:induction false} SameEndCalls(
      a: map<CallKey, SenderId>, b: map<CallKey, SenderId>, keys: seq<CallKey>, fate: CallFate)
    requires forall k | k in keys :: k in a && k in b && a[k] == b[k]
    ensures EndCalls(a, keys, fate) == EndCalls(b, keys, fate)
  {
    if |keys| == 0 {
    } else {
      SameEndCalls(a, b, keys[..|keys| - 1], fate);
      assert keys[|keys| - 1] in keys;
    }
  }

  lemma SendDisconnectedEndsAll(c: Connection, cause: Cause, order: DrainOrder, x: SenderId)
    requires Drains(order, c)
    ensures JoinEnds(SendDisconnected(c, cause, order), x) == Holders(Senders(c.joins), x)
    ensures CallEnds(SendDisconnected(c, cause, order), x) == Holders(c.calls, x)
  {
    var joins := EndJoins(c.joins, order.joins, JoinDisconnected);
    var calls := EndCalls(c.calls, order.calls, CallDisconnected);
    DrainedJoinsEndOnce(c.joins, order.joins, JoinDisconnected, x);
    DrainedCallsEndOnce(c.calls, order.calls, CallDisconnected, x);
    EndsConcat([Announce(Down(cause))] + joins, calls, x);
    EndsConcat([Announce(Down(cause))], joins, x);
  }

  lemma FailFatallyEndsAll(c: Connection, order: DrainOrder, x: SenderId)
    requires Drains(order, c)
    ensures JoinEnds(FailFatally(c, order).outputs, x) == Holders(Senders(c.joins), x)
    ensures CallEnds(FailFatally(c, order).outputs, x) == Holders(c.calls, x)
  {
    DrainedJoinsEndOnce(c.joins, order.joins, JoinDropped(SocketFailed), x);
    DrainedCallsEndOnce(c.calls, order.calls, CallDropped, x);
    EndsConcat(EndJoins(c.joins, order.joins, JoinDropped(SocketFailed)),
               EndCalls(c.calls, order.calls, CallDropped), x);
  }

  // ---------------------------------------------------------------------------------- one step

  ghost function TakesJoin(input: Input, x: SenderId): nat {
    if input.TakeJoin? && input.join.sender == x then 1 else 0
  }

  ghost function TakesCall(input: Input, x: SenderId): nat {
    if input.TakeCall? && input.sender == x then 1 else 0
  }

  /** The reference of a call is not already in use: true of freshly generated ones. */
  ghost predicate FreshCall(s: State, input: Input) {
    input.TakeCall? && s.Connected? ==>
      (input.topic, input.joinReference, input.reference) !in s.connection.calls
  }

  /** Outputs in front of a drain that end no join and no call of x. */
  lemma EndsAround(before: seq<Output>, middle: seq<Output>, after: seq<Output>, x: SenderId)
    ensures JoinEnds(before + middle + after, x)
            == JoinEnds(before, x) + JoinEnds(middle, x) + JoinEnds(after, x)
    ensures CallEnds(before + middle + after, x)
            == CallEnds(before, x) + CallEnds(middle, x) + CallEnds(after, x)
  {
    EndsConcat(before + middle, after, x);
    EndsConcat(before, middle, x);
  }

  /** What was pending before, and what the step takes, is afterwards pending or ended. */
  ghost predicate Conserves(s: State, input: Input, next: Outcome, x: SenderId) {
    && PendingJoins(s, x) + TakesJoin(input, x) == PendingJoins(next.state, x) + JoinEnds(next.outputs, x)
    && PendingCalls(s, x) + TakesCall(input, x) == PendingCalls(next.state, x) + CallEnds(next.outputs, x)
  }

  lemma SentJoinConserves(c: Connection, join: PendingJoin, transmit: Output, x: SenderId)
    requires transmit.Transmit?
    ensures var key := KeyOf(join);
            var replaced := if key in c.joins then [EndJoin(c.joins[key].sender, JoinDropped(Overwritten))]
                            else [];
            && Holders(Senders(c.joins), x) + (if join.sender == x then 1 else 0)
               == Holders(Senders(c.joins[key := join]), x) + JoinEnds([transmit] + replaced, x)
            && CallEnds([transmit] + replaced, x) == 0
  {
    var key := KeyOf(join);
    EndsOfOne(transmit, x);
    assert Senders(c.joins[key := join]) == Senders(c.joins)[key := join.sender];
    if key in c.joins {
      var replaced := EndJoin(c.joins[key].sender, JoinDropped(Overwritten));
      HoldersOverwrite(Senders(c.joins), key, join.sender, x);
      EndsOfOne(replaced, x);
      EndsConcat([transmit], [replaced], x);
    } else {
      HoldersInsert(Senders(c.joins), key, join.sender, x);
      EndsConcat([transmit], [], x);
    }
  }

  /** Giving the connection up ends everything pending, plus what the handler itself ends. */
  lemma GiveUpEnds(c: Connection, before: seq<Output>, after: seq<Output>, order: DrainOrder, x: SenderId)
    requires Drains(order, c)
    ensures var outputs := GiveUp(c, before, after, order).outputs;
            && JoinEnds(outputs, x)
               == Holders(Senders(c.joins), x) + JoinEnds(before, x) + JoinEnds(after, x)
            && CallEnds(outputs, x) == Holders(c.calls, x) + CallEnds(before, x) + CallEnds(after, x)
  {
    SendDisconnectedEndsAll(c, Reconnect, order, x);
    EndsAround(before, SendDisconnected(c, Reconnect, order), after, x);
  }

  lemma StartJoinConserves(c: Connection, input: Input, order: DrainOrder, x: SenderId)
    requires Drains(order, c) && input.TakeJoin?
    ensures Conserves(Connected(c), input,
                      StartJoin(c, input.join, input.reference, input.sent, order), x)
  {
    hide JoinEnds, CallEnds, SendDisconnected, Drains, Holders, Senders;
    var transmit := StartJoin(c, input.join, input.reference, input.sent, order).outputs[0];
    if input.sent {
      SentJoinConserves(c, input.join, transmit, x);
    } else {
      var dropped := EndJoin(input.join.sender, JoinDropped(SendFailed));
      EndsOfOne(transmit, x);
      EndsOfOne(dropped, x);
      GiveUpEnds(c, [transmit], [dropped], order, x);
      NothingPending(Retry(c.connectTimeout, 0), x);
    }
  }

  lemma NothingPending(r: Retry, x: SenderId)
    ensures PendingJoins(Wait(r), x) == PendingCalls(Wait(r), x) == 0
  {
  }

  lemma LeaveConserves(c: Connection, input: Input, order: DrainOrder, x: SenderId)
    requires Drains(order, c) && input.TakeLeave?
    ensures Conserves(Connected(c), input,
                      StartLeave(c, (input.topic, input.joinReference), input.sender, input.reference,
                                 input.sent, order), x)
  {
    hide JoinEnds, CallEnds, SendDisconnected, Drains, Holders, Senders;
    var key := (input.topic, input.joinReference);
    var next := StartLeave(c, key, input.sender, input.reference, input.sent, order);
    EndsOfOne(next.outputs[0], x);
    EndsOfOne(EndLeave(input.sender, input.sent), x);
    if input.sent {
      var middle := if key in c.joined then [NotifyLeft(c.joined[key])] else [];
      NothingEnds(middle, x);
      EndsAround([next.outputs[0]], middle, [EndLeave(input.sender, true)], x);
    } else {
      GiveUpEnds(c, [next.outputs[0]], [EndLeave(input.sender, false)], order, x);
      NothingPending(Retry(c.connectTimeout, 0), x);
    }
  }

  lemma CallConserves(c: Connection, input: Input, order: DrainOrder, x: SenderId)
    requires Drains(order, c) && input.TakeCall? && FreshCall(Connected(c), input)
    ensures Conserves(Connected(c), input,
                      StartCall(c, (input.topic, input.joinReference, input.reference),
                                input.eventPayload, input.sender, input.sent, order), x)
  {
    hide JoinEnds, CallEnds, SendDisconnected, Drains, Holders, Senders;
    var key := (input.topic, input.joinReference, input.reference);
    var next := StartCall(c, key, input.eventPayload, input.sender, input.sent, order);
    EndsOfOne(next.outputs[0], x);
    if input.sent {
      HoldersInsert(c.calls, key, input.sender, x);
      assert next.outputs == [next.outputs[0]];
    } else {
      var refused := EndCall(input.sender, CallWebSocketError);
      EndsOfOne(refused, x);
      EndsConcat([next.outputs[0]], [refused], x);
      assert [next.outputs[0], refused] == [next.outputs[0]] + [refused];
      GiveUpEnds(c, [next.outputs[0], refused], [], order, x);
      NothingEnds([], x);
      NothingPending(Retry(c.connectTimeout, 0), x);
    }
  }

  lemma WriteConserves(c: Connection, kept: Connection, m: Message, input: Input, order: DrainOrder,
                       x: SenderId)
    requires Drains(order, c) && (input.TakeCast? || input.HeartbeatTick?)
    requires kept.joins == c.joins && kept.calls == c.calls
    ensures Conserves(Connected(c), input, Write(c, kept, m, input.sent, order), x)
  {
    EndsOfOne(Transmit(m), x);
    GiveUpEnds(c, [Transmit(m)], [], order, x);
  }

  lemma MessageConserves(c: Connection, m: Message, x: SenderId)
    ensures var (c', outputs) := HandleMessage(c, m);
            Conserves(Connected(c), ReceiveMessage(m), Outcome(Connected(c'), outputs), x)
  {
    var (c', outputs) := HandleMessage(c, m);
    if |outputs| == 0 {
    } else {
      assert outputs == [outputs[0]];
      EndsOfOne(outputs[0], x);
    }
    if m.ReplyMessage? {
      var key := (m.topic, m.joinReference);
      var callKey := (m.topic, m.joinReference, m.reference);
      if key in c.joins {
        SendersRemove(c.joins, key, x);
      } else if callKey in c.calls {
        HoldersRemove(c.calls, callKey, x);
      }
    }
  }

  lemma TimerConserves(c: Connection, timer: Timer, x: SenderId)
    ensures var (c', outputs) := JoinTimedOutAt(c, timer);
            Conserves(Connected(c), JoinTimerFires(timer), Outcome(Connected(c'), outputs), x)
  {
    if timer.key in c.joins {
      SendersRemove(c.joins, timer.key, x);
      EndsOfOne(EndJoin(c.joins[timer.key].sender, JoinTimedOut), x);
    }
  }

  lemma OtherInputConserves(c: Connection, input: Input, order: DrainOrder, x: SenderId)
    requires Drains(order, c) && !input.TakeJoin? && !input.TakeCall?
    ensures Conserves(Connected(c), input, Outcome(Connected(c), []), x)
    ensures input.TakeConnect? ==>
              Conserves(Connected(c), input, Outcome(Connected(c), [EndConnect(input.sender, ConnectOk)]), x)
    ensures Conserves(Connected(c), input, LoseConnection(c, order), x)
    ensures Conserves(Connected(c), input, FailFatally(c, order), x)
    ensures Conserves(Connected(c), input,
                      Outcome(ShuttingDown, SendDisconnected(c, Shutdown, order)), x)
    ensures input.TakeDisconnect? ==>
              Conserves(Connected(c), input,
                        Outcome(Disconnected,
                                SendDisconnected(c, Disconnect, order) + [EndDisconnect(input.sender)]), x)
  {
    GiveUpEnds(c, [], [], order, x);
    SendDisconnectedEndsAll(c, Shutdown, order, x);
    FailFatallyEndsAll(c, order, x);
    if input.TakeDisconnect? {
      SendDisconnectedEndsAll(c, Disconnect, order, x);
      EndsOfOne(EndDisconnect(input.sender), x);
      EndsConcat(SendDisconnected(c, Disconnect, order), [EndDisconnect(input.sender)], x);
    }
  }

  lemma UnconnectedConserves(strategy: bool, s: State, input: Input, x: SenderId)
    requires !s.Connected? && !s.ShutDown? && !s.Failed?
    requires input.TakeConnect? ==> !s.ShuttingDown?
    requires input.ReconnectDue? ==> s.WaitingToReconnect?
    requires !input.TakeJoin? && !input.TakeCall?
    ensures Conserves(s, input, StepUnconnected(strategy, s, input), x)
  {
    var next := StepUnconnected(strategy, s, input);
    NothingEnds(next.outputs, x);
    if next.state.Connected? {
      HoldersEmpty(Senders(next.state.connection.joins), x);
      HoldersEmpty(next.state.connection.calls, x);
    }
    hide JoinEnds, CallEnds, Holders;
  }

  /** Conservation: every join and call is, after any step, in exactly one place. */
  lemma StepConserves(strategy: bool, s: State, step: Step, x: SenderId)
    requires Enabled(s, step) && FreshCall(s, step.input)
    ensures Conserves(s, step.input, Iterate(strategy, s, step), x)
  {
    hide Conserves;
    if s.Connected? {
      var c, input, order := s.connection, step.input, step.order;
      match input
      case TakeJoin(_, _, _) => StartJoinConserves(c, input, order, x);
      case TakeLeave(_, _, _, _, _) => LeaveConserves(c, input, order, x);
      case TakeCall(_, _, _, _, _, _) => CallConserves(c, input, order, x);
      case TakeCast(topic, joinReference, ep, reference, _) =>
        WriteConserves(c, c, ClientPush(topic, joinReference, ep, reference), input, order, x);
      case HeartbeatTick(reference, _) =>
        WriteConserves(c, c.(heartbeat := Some(reference)), HeartbeatMessage(reference), input, order, x);
        OtherInputConserves(c, input, order, x);
      case ReceiveMessage(m) => MessageConserves(c, m, x);
      case JoinTimerFires(timer) => TimerConserves(c, timer, x);
      case _ => OtherInputConserves(c, input, order, x);
    } else {
      UnconnectedConserves(strategy, s, step.input, x);
    }
  }

  // ---------------------------------------------------------------------------------- ledgers

  ghost function TakenJoins(steps: seq<Step>, x: SenderId): nat {
    if |steps| == 0 then 0
    else TakenJoins(steps[..|steps| - 1], x) + TakesJoin(steps[|steps| - 1].input, x)
  }

  ghost function TakenCalls(steps: seq<Step>, x: SenderId): nat {
    if |steps| == 0 then 0
    else TakenCalls(steps[..|steps| - 1], x) + TakesCall(steps[|steps| - 1].input, x)
  }

  /** No two calls of the run were given the same generated reference. */
  ghost predicate FreshReferences(steps: seq<Step>) {
    forall i, j | 0 <= i < j < |steps| && steps[i].input.TakeCall? && steps[j].input.TakeCall? ::
      steps[i].input.reference != steps[j].input.reference
  }

  ghost predicate SendsCall(input: Input, key: CallKey, x: SenderId) {
    && input.TakeCall? && input.sent && input.sender == x
    && (input.topic, input.joinReference, input.reference) == key
  }

  lemma StepKeepsCalls(strategy: bool, s: State, step: Step, key: CallKey)
    requires Enabled(s, step)
    ensures var s' := Iterate(strategy, s, step).state;
            s'.Connected? && key in s'.connection.calls ==>
              || SendsCall(step.input, key, s'.connection.calls[key])
              || (&& s.Connected? && key in s.connection.calls
                  && s.connection.calls[key] == s'.connection.calls[key])
  {
    hide EndJoins, EndCalls, SendDisconnected, ClientPush;
  }

  /** A pending call was sent: an earlier step handed a frame to the web socket that carries exactly the call's topic,
      join reference, event and payload, and asks for a reply under exactly its reference. */
  lemma {:induction false} PendingCallWasSent(strategy: bool, steps: seq<Step>, key: CallKey)
    returns (i: nat, frame: Message)
    requires IsRun(strategy, steps)
    requires Final(strategy, steps).Connected? && key in Final(strategy, steps).connection.calls
    ensures i < |steps| && SendsCall(steps[i].input, key, Final(strategy, steps).connection.calls[key])
    ensures Transmit(frame) in OutputsAt(strategy, steps, i)
    ensures var ep := steps[i].input.eventPayload; IsPush(frame, key.0, key.1, ep.event, ep.payload, key.2)
  {
    hide Iterate, Enabled;
    var last := |steps| - 1;
    var s, input := Final(strategy, steps[..last]), steps[last].input;
    StepKeepsCalls(strategy, s, steps[last], key);
    StepByStep(strategy, steps, last);
    if SendsCall(input, key, Final(strategy, steps).connection.calls[key]) {
      i := last;
      frame := PushMessage(key.0, input.eventPayload, key.1, Some(key.2));
      OnlyConnectedTakesCalls(strategy, s, steps[last]);
      EffectsExactly(strategy, s, steps[last], Transmit(frame));
    } else {
      i, frame := PendingCallWasSent(strategy, steps[..last], key);
      assert steps[..last][..i] == steps[..i];
    }
  }

  lemma OnlyConnectedTakesCalls(strategy: bool, s: State, step: Step)
    requires Enabled(s, step) && step.input.TakeCall?
    ensures s.Connected?
  {
  }

  lemma FreshReferencesGiveFreshCall(strategy: bool, steps: seq<Step>)
    requires IsRun(strategy, steps) && |steps| > 0 && FreshReferences(steps)
    ensures FreshCall(Final(strategy, steps[..|steps| - 1]), steps[|steps| - 1].input)
  {
    var last := |steps| - 1;
    var s, input := Final(strategy, steps[..last]), steps[last].input;
    if input.TakeCall? && s.Connected? {
      var key := (input.topic, input.joinReference, input.reference);
      if key in s.connection.calls {
        var i, frame := PendingCallWasSent(strategy, steps[..last], key);
      }
    }
  }

  /**
   Every call and every join taken by the socket is, at every moment of every run, either pending or
   ended (answered or dropped), and never both, more than once, or neither.
   */
  lemma {:induction false} Ledger(strategy: bool, steps: seq<Step>, x: SenderId)
    requires IsRun(strategy, steps) && FreshReferences(steps)
    ensures TakenCalls(steps, x)
            == PendingCalls(Final(strategy, steps), x) + CallEnds(Trace(strategy, steps), x)
    ensures TakenJoins(steps, x)
            == PendingJoins(Final(strategy, steps), x) + JoinEnds(Trace(strategy, steps), x)
  {
    if |steps| == 0 {
    } else {
      var last := |steps| - 1;
      Ledger(strategy, steps[..last], x);
      FreshReferencesGiveFreshCall(strategy, steps);
      StepConserves(strategy, Final(strategy, steps[..last]), steps[last], x);
      EndsConcat(Trace(strategy, steps[..last]), LastOutputs(strategy, steps), x);
    }
  }
}
