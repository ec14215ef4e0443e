/**
 What one iteration of the socket listener's loop does, as a function of its state and of the input
 that the loop's select took (src/rust/socket/listener.rs). The nested hash maps of a connection are
 seen here as flat maps keyed by the full tuple; SocketListener.dfy ties the in-place code to this.

 The effects that other tasks can see are listed in the order in which the code performs them.
 Dropping the sender of a one-shot answer is such an effect: the waiting side sees an error.
 */
module SocketProtocol {
  import opened Wrappers
  import opened Messages
  import opened Backoff

  type SenderId = nat

  type JoinKey = (Topic, JoinReference)

  type CallKey = (Topic, JoinReference, Reference)

  datatype Cause = Disconnect | Shutdown | Reconnect

  /** The connectivity broadcast: Up is Connected, Down(cause) is Disconnected(cause). */
  datatype Connectivity = Up | Down(cause: Cause)

  datatype PendingJoin = PendingJoin(
    sender: SenderId, topic: Topic, joinReference: JoinReference, payload: Payload, deadline: nat)

  datatype Timer = Timer(key: JoinKey, deadline: nat)

  datatype Connection = Connection(
    joins: map<JoinKey, PendingJoin>,
    timers: multiset<Timer>,
    joined: map<JoinKey, SenderId>,
    broadcasters: set<Topic>,
    calls: map<CallKey, SenderId>,
    heartbeat: Option<Reference>,
    connectTimeout: nat)

  /** Failed is the task having left its loop with an error, before the final ShutDown status. */
  datatype State =
    | NeverConnected
    | Connected(connection: Connection)
    | WaitingToReconnect(sleep: nat, reconnect: Retry)
    | Disconnected
    | ShuttingDown
    | ShutDown
    | Failed

  datatype DropReason = Overwritten | SendFailed | SocketFailed

  datatype JoinFate =
    | JoinOk(payload: Payload)
    | JoinRejected(payload: Payload)
    | JoinDisconnected
    | JoinTimedOut
    | JoinShutdown
    | JoinDropped(reason: DropReason)

  datatype CallFate =
    | CallOk(payload: Payload)
    | CallRefused(payload: Payload)
    | CallWebSocketError
    | CallDisconnected
    | CallDropped

  datatype ConnectFate = ConnectOk | ConnectFailed | ConnectWaiting(sleep: nat)

  datatype Output =
    | Announce(event: Connectivity)
    | Transmit(message: Message)
    | EndJoin(sender: SenderId, joinFate: JoinFate)
    | EndCall(sender: SenderId, callFate: CallFate)
    | EndLeave(sender: SenderId, sent: bool)
    | NotifyLeft(join: SenderId)
    | RelayPush(join: SenderId, message: Message)
    | RelayBroadcast(message: Message)
    | EndConnect(sender: SenderId, connectFate: ConnectFate)
    | EndDisconnect(sender: SenderId)

  datatype Severity = Retryable | Ignorable | Fatal

  /** `sent` says whether the write to the web socket succeeded, `isOpen` whether a connection
      attempt did, and `strategyDelay` what a user's reconnect strategy would answer. */
  datatype Input =
    | TakeConnect(sender: SenderId, timeout: nat, isOpen: bool, strategyDelay: nat)
    | TakeDisconnect(sender: SenderId)
    | TakeShutdown
    | ReconnectDue(isOpen: bool, strategyDelay: nat)
    | ReceiveMessage(message: Message)
    | ReceiveInvalid
    | ReceivePing(sent: bool)
    | ReceivePong
    | ReceiveClose
    | ReceiveError(severity: Severity)
    | TakeJoin(join: PendingJoin, reference: Reference, sent: bool)
    | TakeLeave(topic: Topic, joinReference: JoinReference, sender: SenderId, reference: Reference,
                sent: bool)
    | TakeCall(topic: Topic, joinReference: JoinReference, eventPayload: EventPayload,
               sender: SenderId, reference: Reference, sent: bool)
    | TakeCast(topic: Topic, joinReference: JoinReference, eventPayload: EventPayload,
               reference: Reference, sent: bool)
    | JoinTimerFires(timer: Timer)
    | HeartbeatTick(reference: Reference, sent: bool)
    | Exit

  /** The order in which a drain happened to visit the pending joins and calls. */
  datatype DrainOrder = DrainOrder(joins: seq<JoinKey>, calls: seq<CallKey>)

  datatype Step = Step(input: Input, order: DrainOrder)

  datatype Outcome = Outcome(state: State, outputs: seq<Output>)

  ghost predicate Enumerates<K(!new)>(keys: seq<K>, all: set<K>) {
    && (forall i, j | 0 <= i < j < |keys| :: keys[i] != keys[j])
    && (forall k :: k in keys <==> k in all)
  }

  ghost predicate Drains(order: DrainOrder, c: Connection) {
    Enumerates(order.joins, c.joins.Keys) && Enumerates(order.calls, c.calls.Keys)
  }

  function KeyOf(j: PendingJoin): JoinKey {
    (j.topic, j.joinReference)
  }

  function EmptyConnection(timeout: nat): Connection {
    Connection(map[], multiset{}, map[], {}, map[], None, timeout)
  }

  function Wait(r: Retry): State {
    WaitingToReconnect(SleepDuration(r), Next(r))
  }

  function EndJoins(joins: map<JoinKey, PendingJoin>, keys: seq<JoinKey>, fate: JoinFate): seq<Output>
    requires forall k | k in keys :: k in joins
  {
    if |keys| == 0 then []
    else
      var last := |keys| - 1;
      EndJoins(joins, keys[..last], fate) + [EndJoin(joins[keys[last]].sender, fate)]
  }

  function EndCalls(calls: map<CallKey, SenderId>, keys: seq<CallKey>, fate: CallFate): seq<Output>
    requires forall k | k in keys :: k in calls
  {
    if |keys| == 0 then []
    else
      var last := |keys| - 1;
      EndCalls(calls, keys[..last], fate) + [EndCall(calls[keys[last]], fate)]
  }

  /** The broadcast goes out first, then the joins fail, then the calls. */
  function SendDisconnected(c: Connection, cause: Cause, order: DrainOrder): seq<Output>
    requires Drains(order, c)
  {
    [Announce(Down(cause))]
    + EndJoins(c.joins, order.joins, JoinDisconnected)
    + EndCalls(c.calls, order.calls, CallDisconnected)
  }

  /** Gives the connection up to wait for a reconnect, between other effects of the same handler. */
  function GiveUp(c: Connection, before: seq<Output>, after: seq<Output>, order: DrainOrder): Outcome
    requires Drains(order, c)
  {
    Outcome(Wait(Retry(c.connectTimeout, 0)), before + SendDisconnected(c, Reconnect, order) + after)
  }

  function LoseConnection(c: Connection, order: DrainOrder): Outcome
    requires Drains(order, c)
  {
    GiveUp(c, [], [], order)
  }

  function FailFatally(c: Connection, order: DrainOrder): Outcome
    requires Drains(order, c)
  {
    Outcome(Failed,
            EndJoins(c.joins, order.joins, JoinDropped(SocketFailed))
            + EndCalls(c.calls, order.calls, CallDropped))
  }

  function Connect(r: Retry, isOpen: bool, strategy: bool, delay: nat): State {
    if isOpen then Connected(EmptyConnection(r.timeout))
    else if strategy then WaitingToReconnect(delay, Next(r))
    else Wait(r)
  }

  function ClientPush(topic: Topic, joinReference: JoinReference, ep: EventPayload, reference: Reference)
    : Message
  {
    PushMessage(topic, ep, joinReference, Some(reference))
  }

  function FinishJoin(c: Connection, reply: Message, join: PendingJoin): (Connection, seq<Output>)
    requires reply.ReplyMessage?
  {
    match reply.status
    case StatusError => (c, [EndJoin(join.sender, JoinRejected(reply.payload))])
    case StatusOk =>
      (c.(broadcasters := c.broadcasters + {join.topic},
          joined := c.joined[(join.topic, reply.joinReference) := join.sender]),
       [EndJoin(join.sender, JoinOk(reply.payload))])
  }

  function HandleReply(c: Connection, reply: Message): (Connection, seq<Output>)
    requires reply.ReplyMessage?
  {
    var key := (reply.topic, reply.joinReference);
    var callKey := (reply.topic, reply.joinReference, reply.reference);
    if key in c.joins then
      FinishJoin(c.(joins := c.joins - {key}), reply, c.joins[key])
    else if callKey in c.calls then
      (c.(calls := c.calls - {callKey}),
       [EndCall(c.calls[callKey],
                if reply.status.StatusOk? then CallOk(reply.payload) else CallRefused(reply.payload))])
    else
      (c, [])
  }

  function HandleMessage(c: Connection, m: Message): (Connection, seq<Output>) {
    match m
    case ControlMessage(event, _, reference) =>
      (if event == Phoenix(PhoenixEvent.Reply) && reference == c.heartbeat then c.(heartbeat := None)
       else c, [])
    case ReplyMessage(_, event, _, _, _, _) =>
      if event == Phoenix(PhoenixEvent.Heartbeat) then (c, []) else HandleReply(c, m)
    case PushMessage(topic, _, joinReference, _) =>
      (c, if (topic, joinReference) in c.joined then [RelayPush(c.joined[(topic, joinReference)], m)]
          else [])
    case BroadcastMessage(topic, _) =>
      (c, if topic in c.broadcasters then [RelayBroadcast(m)] else [])
  }

  /** Sends the join; only a join that was sent is registered, with a timer of its own. */
  function StartJoin(c: Connection, join: PendingJoin, reference: Reference, sent: bool, order: DrainOrder)
    : Outcome
    requires Drains(order, c)
  {
    var key := KeyOf(join);
    var push := ClientPush(join.topic, join.joinReference,
                           EventPayload(Phoenix(PhoenixEvent.Join), join.payload), reference);
    if sent then
      Outcome(Connected(c.(joins := c.joins[key := join],
                           timers := c.timers + multiset{Timer(key, join.deadline)})),
              [Transmit(push)]
              + (if key in c.joins then [EndJoin(c.joins[key].sender, JoinDropped(Overwritten))] else []))
    else
      GiveUp(c, [Transmit(push)], [EndJoin(join.sender, JoinDropped(SendFailed))], order)
  }

  function StartLeave(c: Connection, key: JoinKey, sender: SenderId, reference: Reference, sent: bool,
                 order: DrainOrder): Outcome
    requires Drains(order, c)
  {
    var push := ClientPush(key.0, key.1, EventPayload(Phoenix(PhoenixEvent.Leave), Value(Null)), reference);
    if sent then
      Outcome(Connected(c.(joined := c.joined - {key})),
              [Transmit(push)] + (if key in c.joined then [NotifyLeft(c.joined[key])] else [])
              + [EndLeave(sender, true)])
    else
      GiveUp(c, [Transmit(push)], [EndLeave(sender, false)], order)
  }

  function StartCall(c: Connection, key: CallKey, ep: EventPayload, sender: SenderId, sent: bool,
                order: DrainOrder): Outcome
    requires Drains(order, c)
  {
    var push := ClientPush(key.0, key.1, ep, key.2);
    if sent then
      Outcome(Connected(c.(calls := c.calls[key := sender])), [Transmit(push)])
    else
      GiveUp(c, [Transmit(push), EndCall(sender, CallWebSocketError)], [], order)
  }

  /** A write whose only lasting effect is what happens when it fails. */
  function Write(c: Connection, kept: Connection, message: Message, sent: bool, order: DrainOrder): Outcome
    requires Drains(order, c)
  {
    if sent then Outcome(Connected(kept), [Transmit(message)])
    else
      GiveUp(c, [Transmit(message)], [], order)
  }

  function HeartbeatMessage(reference: Reference): Message {
    ControlMessage(Phoenix(PhoenixEvent.Heartbeat), Value(Null), Some(reference))
  }

  /** A fired timer times out whatever join is pending under its key. */
  function JoinTimedOutAt(c: Connection, timer: Timer): (Connection, seq<Output>) {
    var rest := c.(timers := c.timers - multiset{timer});
    if timer.key in c.joins then
      (rest.(joins := c.joins - {timer.key}), [EndJoin(c.joins[timer.key].sender, JoinTimedOut)])
    else
      (rest, [])
  }

  /** Which inputs the select of each state can take. */
  ghost predicate Enabled(s: State, step: Step) {
    var input := step.input;
    match s
    case NeverConnected | Disconnected =>
      input.TakeConnect? || input.TakeDisconnect? || input.TakeShutdown? || input.Exit?
    case WaitingToReconnect(_, _) =>
      input.TakeConnect? || input.TakeDisconnect? || input.TakeShutdown? || input.ReconnectDue?
    case Connected(c) =>
      && Drains(step.order, c)
      && !input.ReconnectDue? && !input.Exit?
      && (input.JoinTimerFires? ==> input.timer in c.timers)
    case ShuttingDown => input.Exit?
    case ShutDown | Failed => false
  }

  function StepConnected(c: Connection, step: Step): Outcome
    requires Enabled(Connected(c), step)
  {
    var order := step.order;
    match step.input
    case TakeConnect(sender, _, _, _) => Outcome(Connected(c), [EndConnect(sender, ConnectOk)])
    case TakeDisconnect(sender) =>
      Outcome(Disconnected, SendDisconnected(c, Disconnect, order) + [EndDisconnect(sender)])
    case TakeShutdown => Outcome(ShuttingDown, SendDisconnected(c, Shutdown, order))
    case ReceiveMessage(m) =>
      var (c', outputs) := HandleMessage(c, m);
      Outcome(Connected(c'), outputs)
    case ReceiveInvalid => Outcome(Connected(c), [])
    case ReceivePong => Outcome(Connected(c), [])
    case ReceivePing(sent) => if sent then Outcome(Connected(c), []) else LoseConnection(c, order)
    case ReceiveClose => LoseConnection(c, order)
    case ReceiveError(Ignorable) => Outcome(Connected(c), [])
    case ReceiveError(Retryable) => LoseConnection(c, order)
    case ReceiveError(Fatal) => FailFatally(c, order)
    case TakeJoin(join, reference, sent) => StartJoin(c, join, reference, sent, order)
    case TakeLeave(topic, joinReference, sender, reference, sent) =>
      StartLeave(c, (topic, joinReference), sender, reference, sent, order)
    case TakeCall(topic, joinReference, ep, sender, reference, sent) =>
      StartCall(c, (topic, joinReference, reference), ep, sender, sent, order)
    case TakeCast(topic, joinReference, ep, reference, sent) =>
      Write(c, c, ClientPush(topic, joinReference, ep, reference), sent, order)
    case JoinTimerFires(timer) =>
      var (c', outputs) := JoinTimedOutAt(c, timer);
      Outcome(Connected(c'), outputs)
    case HeartbeatTick(reference, sent) =>
      if c.heartbeat.Some? then Outcome(Connected(c), [])
      else Write(c, c.(heartbeat := Some(reference)), HeartbeatMessage(reference), sent, order)
  }

  function StepUnconnected(strategy: bool, s: State, input: Input): Outcome
    requires !s.Connected? && !s.ShutDown? && !s.Failed?
    requires input.TakeConnect? ==> !s.ShuttingDown?
    requires input.ReconnectDue? ==> s.WaitingToReconnect?
  {
    if input.TakeConnect? then
      if s.WaitingToReconnect? then Outcome(s, [EndConnect(input.sender, ConnectWaiting(s.sleep))])
      else
        Outcome(Connect(Retry(input.timeout, 0), input.isOpen, strategy, input.strategyDelay),
                if input.isOpen then [Announce(Up), EndConnect(input.sender, ConnectOk)]
                else [EndConnect(input.sender, ConnectFailed)])
    else if input.ReconnectDue? then
      Outcome(Connect(s.reconnect, input.isOpen, strategy, input.strategyDelay),
              if input.isOpen then [Announce(Up)] else [])
    else if input.TakeDisconnect? then Outcome(s, [EndDisconnect(input.sender)])
    else if input.TakeShutdown? then Outcome(ShuttingDown, [])
    else Outcome(ShutDown, [])
  }

  /** One iteration of the loop; `strategy` says whether the user supplied a reconnect strategy. */
  function Iterate(strategy: bool, s: State, step: Step): Outcome
    requires Enabled(s, step)
  {
    if s.Connected? then StepConnected(s.connection, step) else StepUnconnected(strategy, s, step.input)
  }
}
