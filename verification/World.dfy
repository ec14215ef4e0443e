/**
 The socket task and its channel tasks together: the command queue from channels to the socket, the
 one-shot answers and the connectivity broadcast back (src/rust/socket/listener.rs,
 src/rust/channel/listener.rs, src/rust/socket.rs).

 One iteration of a loop is one step, but what a socket iteration makes visible reaches the channels one
 effect at a time, in the order of the code, with channel steps in between: it sits in `outbox`, and
 the socket cannot go on before that is empty.
 */
module World {
  import opened Wrappers
  import opened Messages
  import S = SocketProtocol
  import C = ChannelProtocol

  /** The one message a capacity-1 broadcast still holds for a receiver. When an unread message was
      overwritten the next receive reports the lag first, which disables the arm for one select. */
  datatype Unread = Unread(event: S.Connectivity, lagged: bool)

  datatype Channel = Channel(
    key: S.JoinKey, payload: Payload, state: C.State, unread: Option<Unread>, shutdownRequested: bool)

  datatype Command =
    | JoinCommand(join: S.PendingJoin)
    | LeaveCommand(key: S.JoinKey, leaveSender: S.SenderId)

  /** Commands before `frontier` have left the queue; `nextSender` names the next one-shot answer. */
  datatype World = World(
    strategy: bool,
    socket: S.State,
    outbox: seq<S.Output>,
    queue: seq<Command>,
    channels: map<nat, Channel>,
    joinFates: map<S.SenderId, S.JoinFate>,
    leaveFates: map<S.SenderId, bool>,
    lefts: set<S.SenderId>,
    frontier: nat,
    nextSender: nat)

  datatype Move =
    | SocketStep(step: S.Step)
    | Deliver
    | Spawn(id: nat, key: S.JoinKey, payload: Payload)
    | AskShutdown(id: nat)
    | ChannelStep(id: nat, input: C.Input)

  function Initial(strategy: bool): World {
    World(strategy, S.NeverConnected, [], [], map[], map[], map[], {}, 0, 0)
  }

  function SenderOf(command: Command): S.SenderId {
    match command
    case JoinCommand(join) => join.sender
    case LeaveCommand(_, sender) => sender
  }

  function CommandKey(command: Command): S.JoinKey {
    match command
    case JoinCommand(join) => S.KeyOf(join)
    case LeaveCommand(key, _) => key
  }

  predicate Exited(s: S.State) {
    s.ShutDown? || s.Failed?
  }

  predicate TakesCommand(input: S.Input) {
    input.TakeJoin? || input.TakeLeave?
  }

  predicate IsHead(queue: seq<Command>, input: S.Input) {
    && |queue| > 0
    && (input.TakeJoin? ==> queue[0] == JoinCommand(input.join))
    && (input.TakeLeave? ==> queue[0] == LeaveCommand((input.topic, input.joinReference), input.sender))
  }

  /** Which arms are ready, and, as the selects are biased, that no earlier arm is. */
  predicate Ready(w: World, c: Channel, input: C.Input) {
    if c.shutdownRequested && C.Live(c.state) then input.RequestShutdown?
    else if c.state.Joining? then
      if c.state.join in w.joinFates then input == C.JoinEnds(w.joinFates[c.state.join])
      else !input.RequestShutdown? && !input.JoinEnds?
    else if c.unread.Some? && !c.unread.value.lagged && C.Live(c.state) then input == C.Hear(c.unread.value.event)
    else
      && !input.RequestShutdown? && !input.Hear?
      && (c.state.Joined? ==> (input.HearLeft? <==> c.state.join in w.lefts))
      && (c.state.Leaving? ==>
            if c.state.leave in w.leaveFates then input == C.LeaveEnds(w.leaveFates[c.state.leave])
            else !input.LeaveEnds?)
  }

  /** What a request to the socket finds: whether the socket still listens, and a fresh one-shot. */
  predicate Asks(w: World, input: C.Input) {
    match input
    case TakeJoin(_, _, _, _, isOpen, sender) => isOpen == !Exited(w.socket) && sender == w.nextSender
    case TakeLeave(_, isOpen, sender) => isOpen == !Exited(w.socket) && sender == w.nextSender
    case RejoinDue(_, isOpen, sender) => isOpen == !Exited(w.socket) && sender == w.nextSender
    case TakeSend(_, _, isOpen) => isOpen == !Exited(w.socket)
    case _ => true
  }

  ghost predicate Enabled(w: World, move: Move) {
    match move
    case SocketStep(step) =>
      && w.outbox == [] && S.Enabled(w.socket, step)
      && (TakesCommand(step.input) ==> IsHead(w.queue, step.input))
    case Deliver => w.outbox != []
    case Spawn(id, key, _) =>
      && w.outbox == []
      && (w.socket.NeverConnected? || w.socket.Disconnected? || w.socket.Connected?
          || w.socket.WaitingToReconnect?)
      && id !in w.channels
      && (forall other | other in w.channels :: w.channels[other].key != key)
    case AskShutdown(id) => id in w.channels
    case ChannelStep(id, input) =>
      && id in w.channels && C.Enabled(w.channels[id].state, input)
      && Ready(w, w.channels[id], input) && Asks(w, input)
  }

  function Hears(c: Channel, event: S.Connectivity): Channel {
    if C.Live(c.state) then c.(unread := Some(Unread(event, c.unread.Some?))) else c
  }

  /** One effect of the socket's last iteration reaches the channels. */
  function Delivered(w: World): World
    requires w.outbox != []
  {
    var rest := w.(outbox := w.outbox[1..]);
    match w.outbox[0]
    case Announce(event) => rest.(channels := map id | id in w.channels :: Hears(w.channels[id], event))
    case EndJoin(sender, fate) => rest.(joinFates := w.joinFates[sender := fate])
    case EndLeave(sender, sent) => rest.(leaveFates := w.leaveFates[sender := sent])
    case NotifyLeft(join) => rest.(lefts := w.lefts + {join})
    case _ => rest
  }

  /** The joins still queued when the socket task ends lose the sender of their answer. */
  function DroppedWithQueue(queue: seq<Command>): set<S.SenderId> {
    set i | 0 <= i < |queue| && queue[i].JoinCommand? :: queue[i].join.sender
  }

  function AfterSocket(w: World, step: S.Step): World
    requires S.Enabled(w.socket, step) && (TakesCommand(step.input) ==> IsHead(w.queue, step.input))
  {
    var next := S.Iterate(w.strategy, w.socket, step);
    var queue := if TakesCommand(step.input) then w.queue[1..] else w.queue;
    var frontier := if TakesCommand(step.input) then SenderOf(w.queue[0]) + 1 else w.frontier;
    var moved := w.(socket := next.state, outbox := next.outputs);
    if Exited(next.state) then
      moved.(queue := [], frontier := w.nextSender,
             joinFates := map x | x in w.joinFates.Keys + DroppedWithQueue(queue) ::
                            if x in w.joinFates then w.joinFates[x] else S.JoinDropped(S.SocketFailed))
    else
      moved.(queue := queue, frontier := frontier)
  }

  /** What a channel step asks of the socket, as the command it puts on the queue. */
  function Requested(c: Channel, outputs: seq<C.Output>): seq<Command> {
    if |outputs| > 0 && outputs[0].RequestJoin? then
      [JoinCommand(S.PendingJoin(outputs[0].join, c.key.0, c.key.1, c.payload, outputs[0].deadline))]
    else if |outputs| > 0 && outputs[0].RequestLeave? then
      [LeaveCommand(c.key, outputs[0].leave)]
    else []
  }

  /** Only a joining channel's select leaves the broadcast alone. */
  function AfterReading(c: Channel, input: C.Input): Option<Unread> {
    if input.Hear? then None
    else if c.state.Joining? then c.unread
    else if c.unread.Some? then Some(c.unread.value.(lagged := false))
    else None
  }

  function AfterChannel(w: World, id: nat, input: C.Input): World
    requires id in w.channels && C.Enabled(w.channels[id].state, input)
  {
    var c := w.channels[id];
    var next := C.Iterate(c.state, input);
    var commands := Requested(c, next.outputs);
    w.(channels := w.channels[id := c.(state := next.state, unread := AfterReading(c, input))],
       queue := w.queue + commands,
       nextSender := w.nextSender + |commands|)
  }

  function SpawnState(s: S.State): C.State {
    if s.Connected? then C.WaitingToJoin else C.WaitingForSocketToConnect(None)
  }

  function Next(w: World, move: Move): World
    requires Enabled(w, move)
  {
    match move
    case SocketStep(step) => AfterSocket(w, step)
    case Deliver => Delivered(w)
    case Spawn(id, key, payload) =>
      w.(channels := w.channels[id := Channel(key, payload, SpawnState(w.socket), None, false)])
    case AskShutdown(id) =>
      w.(channels := w.channels[id := w.channels[id].(shutdownRequested := true)])
    case ChannelStep(id, input) => AfterChannel(w, id, input)
  }

  ghost predicate IsRun(strategy: bool, moves: seq<Move>)
    decreases |moves|, 0
  {
    |moves| > 0 ==>
      && IsRun(strategy, moves[..|moves| - 1])
      && Enabled(At(strategy, moves[..|moves| - 1]), moves[|moves| - 1])
  }

  /** The world after a run. */
  ghost function At(strategy: bool, moves: seq<Move>): World
    requires IsRun(strategy, moves)
    decreases |moves|, 1
  {
    if |moves| == 0 then Initial(strategy)
    else Next(At(strategy, moves[..|moves| - 1]), moves[|moves| - 1])
  }

  lemma {:induction false} PrefixIsRun(strategy: bool, moves: seq<Move>, n: nat)
    requires IsRun(strategy, moves) && n <= |moves|
    ensures IsRun(strategy, moves[..n])
    ensures n < |moves| ==> Enabled(At(strategy, moves[..n]), moves[n])
    ensures n < |moves| ==> IsRun(strategy, moves[..n + 1])
    ensures n < |moves| ==> At(strategy, moves[..n + 1]) == Next(At(strategy, moves[..n]), moves[n])
  {
    if n < |moves| {
      var shorter := moves[..|moves| - 1];
      assert moves[..n + 1][..n] == moves[..n];
      if n < |moves| - 1 {
        PrefixIsRun(strategy, shorter, n);
        assert shorter[..n] == moves[..n] && shorter[..n + 1] == moves[..n + 1];
      } else {
        assert moves[..n + 1] == moves;
      }
    } else {
      assert moves[..n] == moves;
    }
  }

  lemma ExtendRun(strategy: bool, moves: seq<Move>, move: Move)
    requires IsRun(strategy, moves) && Enabled(At(strategy, moves), move)
    ensures IsRun(strategy, moves + [move])
    ensures At(strategy, moves + [move]) == Next(At(strategy, moves), move)
  {
    hide Enabled, Next;
    assert (moves + [move])[..|moves + [move]| - 1] == moves;
  }

  /** The world after the first n moves of a run. */
  ghost function Then(strategy: bool, moves: seq<Move>, n: nat): World
    requires IsRun(strategy, moves) && n <= |moves|
  {
    PrefixIsRun(strategy, moves, n);
    At(strategy, moves[..n])
  }

  lemma MoveByMove(strategy: bool, moves: seq<Move>, n: nat)
    requires IsRun(strategy, moves) && n < |moves|
    ensures Enabled(Then(strategy, moves, n), moves[n])
    ensures Then(strategy, moves, n + 1) == Next(Then(strategy, moves, n), moves[n])
  {
    hide Enabled, Next;
    PrefixIsRun(strategy, moves, n);
  }
}
