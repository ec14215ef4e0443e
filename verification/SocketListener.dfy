/**
 The socket listener as the code keeps it: an object whose state is replaced by each iteration of its
 loop, and a connection whose nested hash maps are inserted into, removed from and drained in place
 (src/rust/socket/listener.rs). Every method is tied to the function of SocketProtocol that says what it does.
 */
module SocketListener {
  import opened Wrappers
  import opened Messages
  import opened Backoff
  import opened NestedMaps
  import opened SocketProtocol
  import opened SocketRuns

  type JoinMap = Nested<Topic, JoinReference, PendingJoin>

  type ReplyMap = Nested3<Topic, JoinReference, Reference, SenderId>

  // ---------------------------------------------------------------------------------- draining

  lemma OneMore<K(!new)>(keys: seq<K>, all: set<K>, rest: set<K>, k: K)
    requires Enumerates(keys, all - rest) && k in rest && rest <= all
    ensures Enumerates(keys + [k], all - (rest - {k}))
  {
    assert (keys + [k])[|keys|] == k;
  }

  /** Drains the joins topic by topic, each in an arbitrary order, ending every one the same way. */
  method DrainJoins(m: JoinMap, fate: JoinFate) returns (outputs: seq<Output>, ghost keys: seq<JoinKey>)
    ensures Enumerates(keys, Flat(m).Keys)
    ensures outputs == EndJoins(Flat(m), keys, fate)
  {
    hide Flat;
    ghost var joins := Flat(m);
    var topics := m;
    outputs, keys := [], [];
    while topics != map[]
      invariant Flat(topics).Keys <= joins.Keys && forall k | k in Flat(topics) :: Flat(topics)[k] == joins[k]
      invariant Enumerates(keys, joins.Keys - Flat(topics).Keys)
      invariant outputs == EndJoins(joins, keys, fate)
      decreases topics.Keys
    {
      var topic :| topic in topics;
      var byJoinReference := topics[topic];
      ghost var rest := topics;
      topics := topics - {topic};
      assert topics[topic := byJoinReference] == rest;
      while byJoinReference != map[]
        invariant rest == topics[topic := byJoinReference]
        invariant Flat(rest).Keys <= joins.Keys && forall k | k in Flat(rest) :: Flat(rest)[k] == joins[k]
        invariant Enumerates(keys, joins.Keys - Flat(rest).Keys)
        invariant outputs == EndJoins(joins, keys, fate)
        decreases byJoinReference.Keys
      {
        var joinReference :| joinReference in byJoinReference;
        ghost var key := (topic, joinReference);
        FlatHas(rest, key);
        TakingIsFlat(rest, topic, joinReference);
        OneMore(keys, joins.Keys, Flat(rest).Keys, key);
        outputs := outputs + [EndJoin(byJoinReference[joinReference].sender, fate)];
        assert (keys + [key])[..|keys|] == keys;
        keys := keys + [key];
        byJoinReference := byJoinReference - {joinReference};
        rest := rest[topic := byJoinReference];
      }
      EmptyInnerIsFlat(topics, topic);
    }
    assert Flat(topics) == map[] by { EmptyIsFlat<Topic, JoinReference, PendingJoin>(); }
    assert joins.Keys - Flat(topics).Keys == joins.Keys;
  }

  /** Drains the replies in the same way, three levels deep. */
  method DrainCalls(m: ReplyMap, fate: CallFate) returns (outputs: seq<Output>, ghost keys: seq<CallKey>)
    ensures Enumerates(keys, Flat3(m).Keys)
    ensures outputs == EndCalls(Flat3(m), keys, fate)
  {
    hide Flat3;
    ghost var calls := Flat3(m);
    var topics := m;
    outputs, keys := [], [];
    while topics != map[]
      invariant CallsDrained(calls, topics, keys, outputs, fate)
      decreases topics.Keys
    {
      var topic :| topic in topics;
      var byJoinReference := topics[topic];
      ghost var rest := topics;
      topics := topics - {topic};
      assert topics[topic := byJoinReference] == rest;
      while byJoinReference != map[]
        invariant rest == topics[topic := byJoinReference]
        invariant CallsDrained(calls, rest, keys, outputs, fate)
        decreases byJoinReference.Keys
      {
        var joinReference :| joinReference in byJoinReference;
        var byReference := byJoinReference[joinReference];
        byJoinReference := byJoinReference - {joinReference};
        assert byJoinReference[joinReference := byReference] == rest[topic];
        assert rest == rest[topic := byJoinReference[joinReference := byReference]];
        while byReference != map[]
          invariant rest == topics[topic := byJoinReference[joinReference := byReference]]
          invariant CallsDrained(calls, rest, keys, outputs, fate)
          decreases byReference.Keys
        {
          var reference :| reference in byReference;
          CallDrained(calls, rest, keys, outputs, fate, (topic, joinReference, reference));
          outputs := outputs + [EndCall(byReference[reference], fate)];
          keys := keys + [(topic, joinReference, reference)];
          byReference := byReference - {reference};
          assert rest[topic][joinReference := byReference] == byJoinReference[joinReference := byReference];
          rest := rest[topic := rest[topic][joinReference := byReference]];
        }
        EmptyInner3IsFlat(topics[topic := byJoinReference], topic, joinReference);
        assert rest == topics[topic := byJoinReference][topic := byJoinReference[joinReference := map[]]];
        rest := topics[topic := byJoinReference];
      }
      EmptyInner3IsFlat(topics, topic, JoinReference([]));
    }
    assert Flat3(topics) == map[] by { Empty3IsFlat<Topic, JoinReference, Reference, SenderId>(); }
    assert calls.Keys - Flat3(topics).Keys == calls.Keys;
  }

  /** How far the drain has come: what is left is untouched, and everything else has been ended. */
  ghost predicate CallsDrained(calls: map<CallKey, SenderId>, left: ReplyMap, keys: seq<CallKey>,
                               outputs: seq<Output>, fate: CallFate) {
    && Flat3(left).Keys <= calls.Keys
    && (forall k | k in Flat3(left) :: Flat3(left)[k] == calls[k])
    && Enumerates(keys, calls.Keys - Flat3(left).Keys)
    && outputs == EndCalls(calls, keys, fate)
  }

  lemma CallDrained(calls: map<CallKey, SenderId>, left: ReplyMap, keys: seq<CallKey>,
                    outputs: seq<Output>, fate: CallFate, key: CallKey)
    requires CallsDrained(calls, left, keys, outputs, fate)
    requires key.0 in left && key.1 in left[key.0] && key.2 in left[key.0][key.1]
    ensures CallsDrained(calls, left[key.0 := left[key.0][key.1 := left[key.0][key.1] - {key.2}]], keys + [key],
                         outputs + [EndCall(left[key.0][key.1][key.2], fate)], fate)
  {
    hide Flat3;
    assert key == (key.0, key.1, key.2);
    Flat3Has(left, key);
    Taking3IsFlat(left, key.0, key.1, key.2);
    OneMore(keys, calls.Keys, Flat3(left).Keys, key);
    assert (keys + [key])[..|keys|] == keys;
  }

  // ---------------------------------------------------------------------------------- the connection

  class Connected {
    var joinByReferenceByTopic: JoinMap
    var joinTimeouts: multiset<Timer>
    var broadcastByTopic: set<Topic>
    var joinedByReferenceByTopic: Nested<Topic, JoinReference, SenderId>
    var replyTxByReferenceByJoinReferenceByTopic: ReplyMap
    var sentHeartbeatReference: Option<Reference>
    const connectTimeout: nat

    /** No map ever holds an empty inner map. */
    ghost predicate Valid()
      reads this
    {
      && NoEmpty(joinByReferenceByTopic)
      && NoEmpty(joinedByReferenceByTopic)
      && NoEmpty3(replyTxByReferenceByJoinReferenceByTopic)
    }

    ghost function View(): Connection
      reads this
    {
      Connection(Flat(joinByReferenceByTopic), joinTimeouts, Flat(joinedByReferenceByTopic), broadcastByTopic,
                 Flat3(replyTxByReferenceByJoinReferenceByTopic), sentHeartbeatReference, connectTimeout)
    }

    constructor (connectTimeout: nat)
      ensures Valid() && View() == EmptyConnection(connectTimeout)
    {
      this.connectTimeout := connectTimeout;
      joinByReferenceByTopic, joinTimeouts, broadcastByTopic := map[], multiset{}, {};
      joinedByReferenceByTopic, replyTxByReferenceByJoinReferenceByTopic := map[], map[];
      sentHeartbeatReference := None;
      new;
      EmptyIsFlat<Topic, JoinReference, PendingJoin>();
      EmptyIsFlat<Topic, JoinReference, SenderId>();
      Empty3IsFlat<Topic, JoinReference, Reference, SenderId>();
    }

    method HandleReply(reply: Message) returns (outputs: seq<Output>)
      requires Valid() && reply.ReplyMessage?
      modifies this
      ensures Valid() && (View(), outputs) == SocketProtocol.HandleReply(old(View()), reply)
    {
      hide Flat, Flat3, NoEmpty, NoEmpty3;
      var join;
      join, joinByReferenceByTopic :=
        RemoveByReferenceByTopic(joinByReferenceByTopic, reply.topic, reply.joinReference);
      if join.Some? {
        outputs := FinishJoin(reply, join.value);
        return;
      }
      assert View() == old(View()) by { assert View().joins == old(View()).joins; }
      var replyTx;
      replyTx, replyTxByReferenceByJoinReferenceByTopic :=
        RemoveReplyTx(replyTxByReferenceByJoinReferenceByTopic, reply.topic, reply.joinReference, reply.reference);
      if replyTx.Some? {
        var result := if reply.status.StatusOk? then CallOk(reply.payload) else CallRefused(reply.payload);
        outputs := [EndCall(replyTx.value, result)];
      } else {
        outputs := [];
        assert View().calls == old(View()).calls;
      }
    }

    method FinishJoin(reply: Message, join: PendingJoin) returns (outputs: seq<Output>)
      requires Valid() && reply.ReplyMessage?
      modifies this
      ensures Valid() && (View(), outputs) == SocketProtocol.FinishJoin(old(View()), reply, join)
    {
      hide Flat, Flat3, NoEmpty, NoEmpty3, Insert;
      var result: JoinFate;
      match reply.status {
        case StatusError => result := JoinRejected(reply.payload);
        case StatusOk =>
          if join.topic !in broadcastByTopic {
            broadcastByTopic := broadcastByTopic + {join.topic};
          }
          assert broadcastByTopic == old(broadcastByTopic) + {join.topic};
          InsertIsFlat(joinedByReferenceByTopic, join.topic, reply.joinReference, join.sender);
          joinedByReferenceByTopic := Insert(joinedByReferenceByTopic, join.topic, reply.joinReference, join.sender);
          result := JoinOk(reply.payload);
      }
      outputs := [EndJoin(join.sender, result)];
    }

    method HandlePush(push: Message) returns (outputs: seq<Output>)
      requires push.PushMessage?
      ensures (View(), outputs) == SocketProtocol.HandleMessage(View(), push)
    {
      hide Flat, Flat3;
      FlatHas(joinedByReferenceByTopic, (push.topic, push.joinReference));
      outputs := [];
      if push.topic in joinedByReferenceByTopic {
        var byJoinReference := joinedByReferenceByTopic[push.topic];
        if push.joinReference in byJoinReference {
          outputs := [RelayPush(byJoinReference[push.joinReference], push)];
        }
      }
    }

    method HandleBroadcast(broadcast: Message) returns (outputs: seq<Output>)
      requires broadcast.BroadcastMessage?
      ensures (View(), outputs) == SocketProtocol.HandleMessage(View(), broadcast)
      ensures RelayBroadcast(broadcast) in outputs <==> broadcast.topic in broadcastByTopic
      ensures |outputs| <= 1 && forall o | o in outputs :: o == RelayBroadcast(broadcast)
    {
      hide Flat, Flat3;
      outputs := if broadcast.topic in broadcastByTopic then [RelayBroadcast(broadcast)] else [];
    }

    method JoinTimedOut(timer: Timer) returns (outputs: seq<Output>)
      requires Valid()
      modifies this
      ensures Valid() && (View(), outputs) == JoinTimedOutAt(old(View()), timer)
    {
      hide Flat, Flat3, NoEmpty, NoEmpty3;
      joinTimeouts := joinTimeouts - multiset{timer};
      var join;
      join, joinByReferenceByTopic := RemoveByReferenceByTopic(joinByReferenceByTopic, timer.key.0, timer.key.1);
      assert timer.key == (timer.key.0, timer.key.1);
      outputs := [];
      if join.Some? {
        outputs := [EndJoin(join.value.sender, JoinFate.JoinTimedOut)];
      } else {
        assert View() == old(View()).(timers := joinTimeouts);
      }
    }

    method RegisterJoin(join: PendingJoin) returns (outputs: seq<Output>)
      requires Valid()
      modifies this
      ensures Valid()
      ensures View() == old(View()).(joins := old(View()).joins[KeyOf(join) := join],
                                     timers := old(View()).timers + multiset{Timer(KeyOf(join), join.deadline)})
      ensures outputs == if KeyOf(join) in old(View()).joins
                         then [EndJoin(old(View()).joins[KeyOf(join)].sender, JoinDropped(Overwritten))] else []
    {
      hide Flat, Flat3, NoEmpty, NoEmpty3, Insert;
      FlatHas(joinByReferenceByTopic, KeyOf(join));
      outputs := [];
      if join.topic in joinByReferenceByTopic {
        if join.joinReference in joinByReferenceByTopic[join.topic] {
          var overwritten := joinByReferenceByTopic[join.topic][join.joinReference];
          outputs := [EndJoin(overwritten.sender, JoinDropped(Overwritten))];
        }
      }
      InsertIsFlat(joinByReferenceByTopic, join.topic, join.joinReference, join);
      joinByReferenceByTopic := Insert(joinByReferenceByTopic, join.topic, join.joinReference, join);
      joinTimeouts := joinTimeouts + multiset{Timer(KeyOf(join), join.deadline)};
    }

    /** Forgets a joined channel and tells it, if it was there. */
    method RemoveJoined(key: JoinKey) returns (outputs: seq<Output>)
      requires Valid()
      modifies this
      ensures Valid() && View() == old(View()).(joined := old(View()).joined - {key})
      ensures outputs == if key in old(View()).joined then [NotifyLeft(old(View()).joined[key])] else []
    {
      hide Flat, Flat3, NoEmpty, NoEmpty3;
      var senders;
      senders, joinedByReferenceByTopic := RemoveByReferenceByTopic(joinedByReferenceByTopic, key.0, key.1);
      assert key == (key.0, key.1);
      outputs := if senders.Some? then [NotifyLeft(senders.value)] else [];
    }

    method RegisterCall(key: CallKey, sender: SenderId)
      requires Valid()
      modifies this
      ensures Valid() && View() == old(View()).(calls := old(View()).calls[key := sender])
    {
      hide Flat, Flat3, NoEmpty, NoEmpty3, Insert3;
      assert key == (key.0, key.1, key.2);
      Insert3IsFlat(replyTxByReferenceByJoinReferenceByTopic, key.0, key.1, key.2, sender);
      replyTxByReferenceByJoinReferenceByTopic :=
        Insert3(replyTxByReferenceByJoinReferenceByTopic, key.0, key.1, key.2, sender);
    }

    /** Ends every pending join and call; the joined channels are forgotten without being told. */
    method DrainAll(join: JoinFate, call: CallFate) returns (outputs: seq<Output>, ghost order: DrainOrder)
      requires Valid()
      modifies this
      ensures Valid() && View() == old(View()).(joins := map[], joined := map[], calls := map[])
      ensures Drains(order, old(View()))
      ensures outputs == EndJoins(old(View()).joins, order.joins, join) + EndCalls(old(View()).calls, order.calls, call)
    {
      hide EndJoins, EndCalls, Enumerates, Flat, Flat3;
      var joins, joinKeys := DrainJoins(joinByReferenceByTopic, join);
      joinByReferenceByTopic := map[];
      joinedByReferenceByTopic := map[];
      var calls, callKeys := DrainCalls(replyTxByReferenceByJoinReferenceByTopic, call);
      replyTxByReferenceByJoinReferenceByTopic := map[];
      outputs, order := joins + calls, DrainOrder(joinKeys, callKeys);
      EmptyIsFlat<Topic, JoinReference, PendingJoin>();
      EmptyIsFlat<Topic, JoinReference, SenderId>();
      Empty3IsFlat<Topic, JoinReference, Reference, SenderId>();
    }
  }

  // ---------------------------------------------------------------------------------- the listener

  datatype Phase =
    | NeverConnected
    | Connected(connected: Connected)
    | WaitingToReconnect(sleep: nat, reconnect: Retry)
    | Disconnected
    | ShuttingDown
    | ShutDown
    | Failed

  ghost function ViewOf(p: Phase): State
    reads if p.Connected? then {p.connected} else {}
  {
    match p
    case NeverConnected => State.NeverConnected
    case Connected(connected) => State.Connected(connected.View())
    case WaitingToReconnect(sleep, reconnect) => State.WaitingToReconnect(sleep, reconnect)
    case Disconnected => State.Disconnected
    case ShuttingDown => State.ShuttingDown
    case ShutDown => State.ShutDown
    case Failed => State.Failed
  }

  /** Whether the select of a state has an arm for the input: Enabled, without the drain order. */
  predicate Takes(p: Phase, input: Input)
    reads if p.Connected? then {p.connected} else {}
  {
    match p
    case NeverConnected | Disconnected =>
      input.TakeConnect? || input.TakeDisconnect? || input.TakeShutdown? || input.Exit?
    case WaitingToReconnect(_, _) =>
      input.TakeConnect? || input.TakeDisconnect? || input.TakeShutdown? || input.ReconnectDue?
    case Connected(c) =>
      !input.ReconnectDue? && !input.Exit? && (input.JoinTimerFires? ==> input.timer in c.joinTimeouts)
    case ShuttingDown => input.Exit?
    case ShutDown | Failed => false
  }

  predicate FromWebSocket(input: Input) {
    || input.ReceiveMessage? || input.ReceiveInvalid? || input.ReceivePing? || input.ReceivePong?
    || input.ReceiveClose? || input.ReceiveError?
  }

  class Listener {
    var state: Phase
    const strategy: bool

    ghost predicate Valid()
      reads this, if state.Connected? then {state.connected} else {}
    {
      state.Connected? ==> state.connected.Valid()
    }

    ghost function View(): State
      reads this, if state.Connected? then {state.connected} else {}
    {
      ViewOf(state)
    }

    constructor (strategy: bool)
      ensures Valid() && View() == State.NeverConnected && this.strategy == strategy
    {
      this.strategy := strategy;
      state := Phase.NeverConnected;
    }

    static method SendDisconnected(connected: Connected, cause: Cause)
      returns (outputs: seq<Output>, ghost order: DrainOrder)
      requires connected.Valid()
      modifies connected
      ensures Drains(order, old(connected.View()))
      ensures outputs == SocketProtocol.SendDisconnected(old(connected.View()), cause, order)
    {
      hide EndJoins, EndCalls, Enumerates, Flat, Flat3, NoEmpty, NoEmpty3;
      outputs, order := connected.DrainAll(JoinDisconnected, CallDisconnected);
      outputs := [Announce(Down(cause))] + outputs;
    }

    static method WaitToReconnect(connected: Connected)
      returns (next: Phase, outputs: seq<Output>, ghost order: DrainOrder)
      requires connected.Valid()
      modifies connected
      ensures !next.Connected? && Drains(order, old(connected.View()))
      ensures Outcome(ViewOf(next), outputs) == LoseConnection(old(connected.View()), order)
    {
      hide EndJoins, EndCalls, Enumerates, Flat, Flat3, NoEmpty, NoEmpty3;
      outputs, order := SendDisconnected(connected, Cause.Reconnect);
      next := WaitAfter(Retry(connected.connectTimeout, 0));
    }

    static function WaitAfter(r: Retry): (p: Phase) {
      Phase.WaitingToReconnect(SleepDuration(r), Next(r))
    }

    /** One attempt to connect, and where it leads. */
    method SocketConnect(r: Retry, isOpen: bool, strategyDelay: nat) returns (next: Phase)
      ensures next.Connected? ==> fresh(next.connected) && next.connected.Valid()
      ensures ViewOf(next) == SocketProtocol.Connect(r, isOpen, strategy, strategyDelay)
    {
      if isOpen {
        var connected := new Connected(r.timeout);
        next := Phase.Connected(connected);
      } else if strategy {
        next := Phase.WaitingToReconnect(strategyDelay, Next(r));
      } else {
        next := WaitAfter(r);
      }
    }

    static method StartJoin(connected: Connected, join: PendingJoin, reference: Reference, sent: bool)
      returns (next: Phase, outputs: seq<Output>, ghost order: DrainOrder)
      requires connected.Valid()
      modifies connected
      ensures Drains(order, old(connected.View()))
      ensures next.Connected? ==> next.connected == connected && connected.Valid()
      ensures Outcome(ViewOf(next), outputs)
              == SocketProtocol.StartJoin(old(connected.View()), join, reference, sent, order)
    {
      hide Drains, SocketProtocol.SendDisconnected, Flat, Flat3, NoEmpty, NoEmpty3;
      var message := ClientPush(join.topic, join.joinReference,
                                EventPayload(Phoenix(PhoenixEvent.Join), join.payload), reference);
      if sent {
        order := SomeOrder(connected.View());
        outputs := connected.RegisterJoin(join);
        outputs := [Transmit(message)] + outputs;
        next := Phase.Connected(connected);
      } else {
        next, outputs, order := WaitToReconnect(connected);
        outputs := [Transmit(message)] + outputs + [EndJoin(join.sender, JoinDropped(SendFailed))];
      }
    }

    static method Leave(connected: Connected, key: JoinKey, sender: SenderId, reference: Reference, sent: bool)
      returns (next: Phase, outputs: seq<Output>, ghost order: DrainOrder)
      requires connected.Valid()
      modifies connected
      ensures Drains(order, old(connected.View()))
      ensures next.Connected? ==> next.connected == connected && connected.Valid()
      ensures Outcome(ViewOf(next), outputs)
              == StartLeave(old(connected.View()), key, sender, reference, sent, order)
    {
      hide Drains, SocketProtocol.SendDisconnected, Flat, Flat3, NoEmpty, NoEmpty3;
      var message := ClientPush(key.0, key.1, EventPayload(Phoenix(PhoenixEvent.Leave), Value(Null)), reference);
      if sent {
        order := SomeOrder(connected.View());
        outputs := connected.RemoveJoined(key);
        outputs := [Transmit(message)] + outputs + [EndLeave(sender, true)];
        next := Phase.Connected(connected);
      } else {
        next, outputs, order := WaitToReconnect(connected);
        outputs := [Transmit(message)] + outputs + [EndLeave(sender, false)];
      }
    }

    static method Call(connected: Connected, key: CallKey, ep: EventPayload, sender: SenderId, sent: bool)
      returns (next: Phase, outputs: seq<Output>, ghost order: DrainOrder)
      requires connected.Valid()
      modifies connected
      ensures Drains(order, old(connected.View()))
      ensures next.Connected? ==> next.connected == connected && connected.Valid()
      ensures Outcome(ViewOf(next), outputs) == StartCall(old(connected.View()), key, ep, sender, sent, order)
      ensures outputs != [] && outputs[0] == Transmit(PushMessage(key.0, ep, key.1, Some(key.2)))
    {
      hide Drains, SocketProtocol.SendDisconnected, Flat, Flat3, NoEmpty, NoEmpty3;
      var message := ClientPush(key.0, key.1, ep, key.2);
      if sent {
        order := SomeOrder(connected.View());
        connected.RegisterCall(key, sender);
        outputs := [Transmit(message)];
        next := Phase.Connected(connected);
      } else {
        next, outputs, order := WaitToReconnect(connected);
        outputs := [Transmit(message), EndCall(sender, CallWebSocketError)] + outputs;
      }
    }

    static method Cast(connected: Connected, message: Message, sent: bool)
      returns (next: Phase, outputs: seq<Output>, ghost order: DrainOrder)
      requires connected.Valid()
      modifies connected
      ensures Drains(order, old(connected.View()))
      ensures next.Connected? ==> next.connected == connected && connected.Valid()
      ensures Outcome(ViewOf(next), outputs)
              == Write(old(connected.View()), old(connected.View()), message, sent, order)
    {
      hide Drains, SocketProtocol.SendDisconnected, Flat, Flat3, NoEmpty, NoEmpty3;
      if sent {
        order := SomeOrder(connected.View());
        next, outputs := Phase.Connected(connected), [Transmit(message)];
      } else {
        next, outputs, order := WaitToReconnect(connected);
        outputs := [Transmit(message)] + outputs;
      }
    }

    static method Heartbeat(connected: Connected, reference: Reference, sent: bool)
      returns (next: Phase, outputs: seq<Output>, ghost order: DrainOrder)
      requires connected.Valid()
      modifies connected
      ensures Drains(order, old(connected.View()))
      ensures next.Connected? ==> next.connected == connected && connected.Valid()
      ensures Outcome(ViewOf(next), outputs)
              == StepConnected(old(connected.View()), Step(HeartbeatTick(reference, sent), order))
    {
      hide Drains, SocketProtocol.SendDisconnected, Flat, Flat3, NoEmpty, NoEmpty3;
      if connected.sentHeartbeatReference.Some? || sent {
        order := SomeOrder(connected.View());
      }
      if connected.sentHeartbeatReference.Some? {
        next, outputs := Phase.Connected(connected), [];
      } else if sent {
        connected.sentHeartbeatReference := Some(reference);
        next, outputs := Phase.Connected(connected), [Transmit(HeartbeatMessage(reference))];
      } else {
        next, outputs, order := WaitToReconnect(connected);
        outputs := [Transmit(HeartbeatMessage(reference))] + outputs;
      }
    }

    static method HandleMessage(connected: Connected, m: Message) returns (outputs: seq<Output>)
      requires connected.Valid()
      modifies connected
      ensures connected.Valid() && (connected.View(), outputs) == SocketProtocol.HandleMessage(old(connected.View()), m)
    {
      hide Flat, Flat3, NoEmpty, NoEmpty3;
      outputs := [];
      match m {
        case ControlMessage(event, _, reference) =>
          if event == Phoenix(PhoenixEvent.Reply) && reference == connected.sentHeartbeatReference {
            connected.sentHeartbeatReference := None;
          }
        case ReplyMessage(_, event, _, _, _, _) =>
          if event != Phoenix(PhoenixEvent.Heartbeat) {
            outputs := connected.HandleReply(m);
          }
        case PushMessage(_, _, _, _) => outputs := connected.HandlePush(m);
        case BroadcastMessage(_, _) => outputs := connected.HandleBroadcast(m);
      }
    }

    /** What came in on the web socket: a message, a control frame or an error. */
    static method HandleSocketResult(connected: Connected, input: Input)
      returns (next: Phase, outputs: seq<Output>, ghost order: DrainOrder)
      requires connected.Valid() && FromWebSocket(input)
      modifies connected
      ensures Drains(order, old(connected.View()))
      ensures next.Connected? ==> next.connected == connected && connected.Valid()
      ensures Outcome(ViewOf(next), outputs) == StepConnected(old(connected.View()), Step(input, order))
    {
      hide Drains, SocketProtocol.SendDisconnected, SocketProtocol.HandleMessage, Flat, Flat3, NoEmpty, NoEmpty3;
      if input.ReceiveError? && input.severity.Fatal? {
        outputs, order := connected.DrainAll(JoinDropped(SocketFailed), CallDropped);
        next := Phase.Failed;
        return;
      }
      if input.ReceiveClose? || (input.ReceivePing? && !input.sent)
         || (input.ReceiveError? && input.severity.Retryable?)
      {
        next, outputs, order := WaitToReconnect(connected);
        return;
      }
      order := SomeOrder(connected.View());
      next, outputs := Phase.Connected(connected), [];
      if input.ReceiveMessage? {
        outputs := HandleMessage(connected, input.message);
      }
    }

    static method Disconnect(connected: Connected, sender: SenderId)
      returns (next: Phase, outputs: seq<Output>, ghost order: DrainOrder)
      requires connected.Valid()
      modifies connected
      ensures !next.Connected? && Drains(order, old(connected.View()))
      ensures Outcome(ViewOf(next), outputs)
              == StepConnected(old(connected.View()), Step(TakeDisconnect(sender), order))
    {
      hide Drains, SocketProtocol.SendDisconnected, Flat, Flat3, NoEmpty, NoEmpty3;
      outputs, order := SendDisconnected(connected, Cause.Disconnect);
      next, outputs := Phase.Disconnected, outputs + [EndDisconnect(sender)];
    }

    static method Shutdown(connected: Connected)
      returns (next: Phase, outputs: seq<Output>, ghost order: DrainOrder)
      requires connected.Valid()
      modifies connected
      ensures !next.Connected? && Drains(order, old(connected.View()))
      ensures Outcome(ViewOf(next), outputs)
              == StepConnected(old(connected.View()), Step(Input.TakeShutdown, order))
    {
      hide Drains, SocketProtocol.SendDisconnected, Flat, Flat3, NoEmpty, NoEmpty3;
      outputs, order := SendDisconnected(connected, Cause.Shutdown);
      next := Phase.ShuttingDown;
    }

    static method IterateConnected(connected: Connected, input: Input)
      returns (next: Phase, outputs: seq<Output>, ghost order: DrainOrder)
      requires connected.Valid() && Takes(Phase.Connected(connected), input)
      modifies connected
      ensures Drains(order, old(connected.View()))
      ensures next.Connected? ==> next.connected == connected && connected.Valid()
      ensures Outcome(ViewOf(next), outputs) == StepConnected(old(connected.View()), Step(input, order))
    {
      hide Drains, SocketProtocol.SendDisconnected, SocketProtocol.StartJoin, StartLeave, StartCall,
           SocketProtocol.HandleMessage, JoinTimedOutAt, GiveUp, Flat, Flat3, NoEmpty, NoEmpty3;
      if FromWebSocket(input) {
        next, outputs, order := HandleSocketResult(connected, input);
        return;
      }
      match input {
        case TakeConnect(sender, _, _, _) =>
          order := SomeOrder(connected.View());
          next, outputs := Phase.Connected(connected), [EndConnect(sender, ConnectOk)];
        case TakeDisconnect(sender) => next, outputs, order := Disconnect(connected, sender);
        case TakeShutdown => next, outputs, order := Shutdown(connected);
        case TakeJoin(join, reference, sent) => next, outputs, order := StartJoin(connected, join, reference, sent);
        case TakeLeave(topic, joinReference, sender, reference, sent) =>
          next, outputs, order := Leave(connected, (topic, joinReference), sender, reference, sent);
        case TakeCall(topic, joinReference, ep, sender, reference, sent) =>
          next, outputs, order := Call(connected, (topic, joinReference, reference), ep, sender, sent);
        case TakeCast(topic, joinReference, ep, reference, sent) =>
          next, outputs, order := Cast(connected, ClientPush(topic, joinReference, ep, reference), sent);
        case JoinTimerFires(timer) =>
          order := SomeOrder(connected.View());
          outputs := connected.JoinTimedOut(timer);
          next := Phase.Connected(connected);
        case HeartbeatTick(reference, sent) => next, outputs, order := Heartbeat(connected, reference, sent);
      }
    }

    method IterateUnconnected(input: Input) returns (next: Phase, outputs: seq<Output>)
      requires !state.Connected? && Takes(state, input)
      ensures next.Connected? ==> fresh(next.connected) && next.connected.Valid()
      ensures Outcome(ViewOf(next), outputs) == StepUnconnected(strategy, View(), input)
    {
      next, outputs := state, [];
      if input.TakeConnect? {
        if state.WaitingToReconnect? {
          outputs := [EndConnect(input.sender, ConnectWaiting(state.sleep))];
        } else {
          next := SocketConnect(Retry(input.timeout, 0), input.isOpen, input.strategyDelay);
          outputs := if input.isOpen then [Announce(Up), EndConnect(input.sender, ConnectOk)]
                     else [EndConnect(input.sender, ConnectFailed)];
        }
      } else if input.ReconnectDue? {
        next := SocketConnect(state.reconnect, input.isOpen, input.strategyDelay);
        outputs := if input.isOpen then [Announce(Up)] else [];
      } else if input.TakeDisconnect? {
        outputs := [EndDisconnect(input.sender)];
      } else if input.TakeShutdown? {
        next := Phase.ShuttingDown;
      } else {
        next := Phase.ShutDown;
      }
    }

    /** One iteration of the loop. */
    method Iterate(input: Input) returns (outputs: seq<Output>, ghost order: DrainOrder)
      requires Valid() && Takes(state, input)
      modifies this, if state.Connected? then {state.connected} else {}
      ensures Valid()
      ensures state.Connected? ==> fresh(state.connected) || (old(state).Connected? && state == old(state))
      ensures Enabled(old(View()), Step(input, order))
      ensures Outcome(View(), outputs) == SocketProtocol.Iterate(strategy, old(View()), Step(input, order))
    {
      hide Drains, StepConnected, StepUnconnected, Flat, Flat3, NoEmpty, NoEmpty3;
      if state.Connected? {
        var next;
        next, outputs, order := IterateConnected(state.connected, input);
        state := next;
      } else {
        order := DrainOrder([], []);
        var next;
        next, outputs := IterateUnconnected(input);
        state := next;
      }
    }

    /** Runs the loop over whatever arrives; what the current state has no arm for is left alone. Everything
        that is true of runs of the protocol is thereby true of this object. */
    method Listen(arrivals: seq<Input>) returns (trace: seq<Output>, ghost steps: seq<Step>)
      requires Valid() && View() == State.NeverConnected
      modifies this
      ensures Valid() && IsRun(strategy, steps) && View() == Final(strategy, steps) && trace == Trace(strategy, steps)
    {
      hide SocketProtocol.Iterate, Enabled;
      trace, steps := [], [];
      state := Phase.NeverConnected;
      for i := 0 to |arrivals|
        invariant Valid() && (state.Connected? ==> fresh(state.connected))
        invariant IsRun(strategy, steps) && View() == Final(strategy, steps) && trace == Trace(strategy, steps)
      {
        if Takes(state, arrivals[i]) {
          var outputs, order := Iterate(arrivals[i]);
          ghost var longer := steps + [Step(arrivals[i], order)];
          assert longer[..|longer| - 1] == steps;
          trace, steps := trace + outputs, longer;
        }
      }
    }
  }
}
