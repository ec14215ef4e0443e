/**
 What one iteration of a channel listener's loop does, as a function of its state and of the input
 that the loop's biased select took (src/rust/channel/listener.rs). ChannelListener.dfy ties the
 in-place code to this. The effects that other tasks can see are listed in order.
 */
module ChannelProtocol {
  import opened Wrappers
  import opened Messages
  import opened Backoff
  import Socket = SocketProtocol

  type WaiterId = nat

  /** Failed is the task having left its loop with an error, before the final ShutDown status. */
  datatype State =
    | WaitingForSocketToConnect(intent: Option<Retry>)
    | WaitingToJoin
    | Joining(join: Socket.SenderId, joinWaiters: seq<WaiterId>, rejoin: Retry)
    | WaitingToRejoin(sleep: nat, rejoin: Retry)
    | Joined(join: Socket.SenderId, payload: Payload, joinTimeout: nat)
    | Leaving(leave: Socket.SenderId, leaveWaiters: seq<WaiterId>)
    | Left
    | ShuttingDown
    | ShutDown
    | Failed

  datatype JoinError =
    | TimedOut
    | BeingShutDown
    | SocketShutDown
    | SocketDisconnected
    | LeavingWhileJoining
    | StillWaiting(sleep: nat)
    | Rejected(payload: Payload)

  datatype LeaveError = LeaveBeingShutDown | LeaveSocketShutDown | LeaveWebSocketError | JoinBeforeLeft

  datatype JoinReply = JoinedWith(payload: Payload) | JoinRefused(error: JoinError)

  datatype LeaveReply = LeaveDone | LeaveRefused(leaveError: LeaveError)

  datatype Output =
    | ReplyJoin(waiter: WaiterId, joinReply: JoinReply)
    | ReplyLeave(waiter: WaiterId, leaveReply: LeaveReply)
    | RequestJoin(join: Socket.SenderId, deadline: nat)
    | RequestLeave(leave: Socket.SenderId)
    | RequestSend(eventPayload: EventPayload, caller: Option<Socket.SenderId>)
    | Publish(eventPayload: EventPayload)

  /** A command to send is a call, which names the one-shot of its caller, or a cast, which does not.
      `isOpen` says whether the socket task still takes commands; `sender` names the one-shot answer
      that a request to the socket carries. */
  datatype Input =
    | RequestShutdown
    | Hear(event: Socket.Connectivity)
    | JoinEnds(fate: Socket.JoinFate)
    | TakeJoin(waiter: WaiterId, createdAt: nat, timeout: nat, now: nat, isOpen: bool,
               sender: Socket.SenderId)
    | TakeLeave(waiter: WaiterId, isOpen: bool, sender: Socket.SenderId)
    | RejoinDue(now: nat, isOpen: bool, sender: Socket.SenderId)
    | HearLeft
    | LeaveEnds(sent: bool)
    | TakeSend(eventPayload: EventPayload, caller: Option<Socket.SenderId>, isOpen: bool)
    | ReceivePush(eventPayload: EventPayload)
    | ReceiveBroadcast(eventPayload: EventPayload)
    | Exit

  datatype Outcome = Outcome(state: State, outputs: seq<Output>)

  predicate Live(s: State) {
    !s.ShuttingDown? && !s.ShutDown? && !s.Failed?
  }

  /** What a channel in this state takes the socket's connectivity to be. */
  predicate Believes(s: State) {
    Live(s) && !s.WaitingForSocketToConnect?
  }

  /** The retry with which the channel would ask to join next time, if it means to be joined at all. */
  function Intent(s: State): Option<Retry> {
    match s
    case WaitingForSocketToConnect(intent) => intent
    case Joining(_, _, rejoin) => Some(rejoin)
    case WaitingToRejoin(_, rejoin) => Some(rejoin)
    case Joined(_, _, joinTimeout) => Some(Retry(joinTimeout, 0))
    case _ => None
  }

  /** The one-shot of the attempt a channel is joining or joined by. */
  function Attempt(s: State): Option<Socket.SenderId> {
    match s
    case Joining(join, _, _) => Some(join)
    case Joined(join, _, _) => Some(join)
    case _ => None
  }

  /** The callers parked for a join and for a leave. */
  function JoinCallers(s: State): seq<WaiterId> {
    if s.Joining? then s.joinWaiters else []
  }

  function LeaveCallers(s: State): seq<WaiterId> {
    if s.Leaving? then s.leaveWaiters else []
  }

  /** The join command's own deadline has passed when it is taken. */
  predicate Expired(input: Input) {
    input.TakeJoin? && input.now > input.createdAt + input.timeout
  }

  function Wait(r: Retry): State {
    WaitingToRejoin(SleepDuration(r), Next(r))
  }

  function ReplyJoins(waiters: seq<WaiterId>, reply: JoinReply): seq<Output> {
    if |waiters| == 0 then []
    else ReplyJoins(waiters[..|waiters| - 1], reply) + [ReplyJoin(waiters[|waiters| - 1], reply)]
  }

  function ReplyLeaves(waiters: seq<WaiterId>, reply: LeaveReply): seq<Output> {
    if |waiters| == 0 then []
    else ReplyLeaves(waiters[..|waiters| - 1], reply) + [ReplyLeave(waiters[|waiters| - 1], reply)]
  }

  function ConnectivityChanged(s: State, event: Socket.Connectivity): Outcome {
    match s
    case WaitingForSocketToConnect(intent) =>
      (match event
       case Up => Outcome(if intent.Some? then Wait(intent.value) else WaitingToJoin, [])
       case Down(Shutdown) => Outcome(ShuttingDown, [])
       case Down(_) => Outcome(s, []))
    case WaitingToJoin | Left =>
      (match event
       case Up => Outcome(s, [])
       case Down(Shutdown) => Outcome(ShuttingDown, [])
       case Down(_) => Outcome(WaitingForSocketToConnect(None), []))
    case Joining(_, waiters, rejoin) =>
      (match event
       case Up | Down(Reconnect) =>
         Outcome(WaitingForSocketToConnect(Some(rejoin)),
                 ReplyJoins(waiters, JoinRefused(SocketDisconnected)))
       case Down(Disconnect) =>
         Outcome(WaitingForSocketToConnect(None), ReplyJoins(waiters, JoinRefused(SocketDisconnected)))
       case Down(Shutdown) => Outcome(ShuttingDown, ReplyJoins(waiters, JoinRefused(BeingShutDown))))
    case WaitingToRejoin(_, rejoin) =>
      (match event
       case Up => Outcome(s, [])
       case Down(Disconnect) => Outcome(WaitingForSocketToConnect(None), [])
       case Down(Shutdown) => Outcome(ShuttingDown, [])
       case Down(Reconnect) => Outcome(WaitingForSocketToConnect(Some(rejoin)), []))
    case Joined(_, _, joinTimeout) =>
      (match event
       case Up | Down(Reconnect) => Outcome(WaitingForSocketToConnect(Some(Retry(joinTimeout, 0))), [])
       case Down(Disconnect) => Outcome(WaitingForSocketToConnect(None), [])
       case Down(Shutdown) => Outcome(ShuttingDown, []))
    case Leaving(_, waiters) =>
      Outcome(match event
              case Up => Left
              case Down(Shutdown) => ShuttingDown
              case Down(_) => WaitingForSocketToConnect(None),
              ReplyLeaves(waiters, LeaveDone))
    case _ => Outcome(s, [])
  }

  function BeginShutdown(s: State): Outcome {
    Outcome(ShuttingDown,
            match s
            case Joining(_, waiters, _) => ReplyJoins(waiters, JoinRefused(BeingShutDown))
            case Leaving(_, waiters) => ReplyLeaves(waiters, LeaveRefused(LeaveBeingShutDown))
            case _ => [])
  }

  /** The task ends with an error because the socket task is gone. */
  function SocketGone(s: State): Outcome {
    Outcome(Failed,
            match s
            case Joining(_, waiters, _) => ReplyJoins(waiters, JoinRefused(SocketShutDown))
            case Leaving(_, waiters) => ReplyLeaves(waiters, LeaveRefused(LeaveSocketShutDown))
            case _ => [])
  }

  function SocketJoin(s: State, createdAt: nat, rejoin: Retry, waiters: seq<WaiterId>, isOpen: bool,
                      sender: Socket.SenderId): Outcome
  {
    if isOpen then
      Outcome(Joining(sender, waiters, rejoin),
              [RequestJoin(sender, createdAt + rejoin.timeout)]
              + (if s.Leaving? then ReplyLeaves(s.leaveWaiters, LeaveRefused(JoinBeforeLeft)) else []))
    else
      SocketGone(s)
  }

  function JoinNow(s: State, input: Input): Outcome
    requires input.TakeJoin?
  {
    match s
    case Joining(join, waiters, rejoin) => Outcome(Joining(join, waiters + [input.waiter], rejoin), [])
    case WaitingToRejoin(sleep, _) => Outcome(s, [ReplyJoin(input.waiter, JoinRefused(StillWaiting(sleep)))])
    case Joined(_, payload, _) => Outcome(s, [ReplyJoin(input.waiter, JoinedWith(payload))])
    case _ =>
      if input.now <= input.createdAt + input.timeout then
        SocketJoin(s, input.createdAt, Retry(input.timeout, 0), [input.waiter], input.isOpen, input.sender)
      else
        Outcome(Wait(Retry(input.timeout, 0)), [])
  }

  function JoinEnded(s: State, fate: Socket.JoinFate): Outcome
    requires s.Joining?
  {
    match fate
    case JoinOk(payload) =>
      Outcome(Joined(s.join, payload, s.rejoin.timeout), ReplyJoins(s.joinWaiters, JoinedWith(payload)))
    case JoinRejected(payload) =>
      Outcome(Wait(s.rejoin), ReplyJoins(s.joinWaiters, JoinRefused(Rejected(payload))))
    case JoinDisconnected => Outcome(Wait(s.rejoin), ReplyJoins(s.joinWaiters, JoinRefused(SocketDisconnected)))
    case JoinTimedOut => Outcome(Wait(s.rejoin), ReplyJoins(s.joinWaiters, JoinRefused(TimedOut)))
    case JoinShutdown => Outcome(ShuttingDown, ReplyJoins(s.joinWaiters, JoinRefused(SocketShutDown)))
    case JoinDropped(_) => SocketGone(s)
  }

  function LeaveNow(s: State, input: Input): Outcome
    requires input.TakeLeave?
  {
    match s
    case Joining(_, waiters, _) =>
      if input.isOpen then
        Outcome(Leaving(input.sender, [input.waiter]),
                [RequestLeave(input.sender)] + ReplyJoins(waiters, JoinRefused(LeavingWhileJoining)))
      else
        Outcome(s, [ReplyLeave(input.waiter, LeaveRefused(LeaveSocketShutDown))])
    case Joined(_, _, _) =>
      if input.isOpen then Outcome(Leaving(input.sender, [input.waiter]), [RequestLeave(input.sender)])
      else Outcome(s, [ReplyLeave(input.waiter, LeaveRefused(LeaveSocketShutDown))])
    case WaitingToRejoin(_, _) => Outcome(Left, [ReplyLeave(input.waiter, LeaveDone)])
    case Leaving(leave, waiters) => Outcome(Leaving(leave, waiters + [input.waiter]), [])
    case _ => Outcome(s, [ReplyLeave(input.waiter, LeaveDone)])
  }

  function PushReceived(s: State, ep: EventPayload): Outcome
    requires s.Joined?
  {
    Outcome(if ep.event == Phoenix(PhoenixEvent.Close) then Wait(Retry(s.joinTimeout, 0)) else s,
            [Publish(ep)])
  }

  /** Which inputs the select of each state can take. */
  predicate Enabled(s: State, input: Input) {
    match s
    case WaitingForSocketToConnect(_) => input.RequestShutdown? || input.Hear?
    case WaitingToJoin | Left =>
      input.RequestShutdown? || input.Hear? || input.TakeJoin? || input.TakeLeave?
    case Joining(_, _, _) =>
      input.RequestShutdown? || input.JoinEnds? || input.TakeJoin? || input.TakeLeave?
    case WaitingToRejoin(_, _) =>
      input.RequestShutdown? || input.Hear? || input.RejoinDue? || input.TakeJoin? || input.TakeLeave?
    case Joined(_, _, _) =>
      || input.RequestShutdown? || input.Hear? || input.HearLeft? || input.TakeJoin? || input.TakeLeave?
      || input.TakeSend? || input.ReceivePush? || input.ReceiveBroadcast?
    case Leaving(_, _) =>
      input.RequestShutdown? || input.Hear? || input.LeaveEnds? || input.TakeJoin? || input.TakeLeave?
    case ShuttingDown => input.Exit?
    case ShutDown | Failed => false
  }

  function Iterate(s: State, input: Input): Outcome
    requires Enabled(s, input)
  {
    match input
    case RequestShutdown => BeginShutdown(s)
    case Hear(event) => ConnectivityChanged(s, event)
    case JoinEnds(fate) => JoinEnded(s, fate)
    case TakeJoin(_, _, _, _, _, _) => JoinNow(s, input)
    case TakeLeave(_, _, _) => LeaveNow(s, input)
    case RejoinDue(now, isOpen, sender) => SocketJoin(s, now, s.rejoin, [], isOpen, sender)
    case HearLeft => Outcome(Left, [])
    case LeaveEnds(sent) =>
      Outcome(Left, ReplyLeaves(s.leaveWaiters,
                                if sent then LeaveDone else LeaveRefused(LeaveWebSocketError)))
    case TakeSend(ep, caller, isOpen) =>
      if isOpen then Outcome(s, [RequestSend(ep, caller)]) else Outcome(ShuttingDown, [])
    case ReceivePush(ep) => PushReceived(s, ep)
    case ReceiveBroadcast(ep) => Outcome(s, [Publish(ep)])
    case Exit => Outcome(ShutDown, [])
  }
}
