/**
 In every run of the socket with any channels, lagging or not: where a channel's current join attempt is,
 and which answers can and cannot reach it. The argument rests on the queue being first-in first-out
 and on join references being unique per channel.
 */
module Routing {
  import opened Messages
  import opened SocketEffects
  import Answers = SocketAnswers
  import opened World
  import S = SocketProtocol
  import C = ChannelProtocol
  import ChannelRuns

  ghost predicate Resolved(w: World, j: S.SenderId) {
    j in w.joinFates || EndedIn(w.outbox, j)
  }

  ghost predicate HasFate(w: World, j: S.SenderId, fate: S.JoinFate) {
    (j in w.joinFates && w.joinFates[j] == fate) || S.EndJoin(j, fate) in w.outbox
  }

  ghost predicate QueueInvariant(w: World) {
    && w.frontier <= w.nextSender
    && (forall i | 0 <= i < |w.queue| :: w.frontier <= SenderOf(w.queue[i]) < w.nextSender)
    && (forall i, j | 0 <= i < j < |w.queue| :: SenderOf(w.queue[i]) < SenderOf(w.queue[j]))
    && (Exited(w.socket) ==> w.queue == [])
  }

  /** Everything the socket knows of was taken from the queue before. */
  ghost predicate SocketInvariant(w: World) {
    && (w.socket.Connected? ==>
          && OwnKeys(w.socket.connection)
          && (forall k | k in w.socket.connection.joins :: w.socket.connection.joins[k].sender < w.frontier)
          && (forall k | k in w.socket.connection.joined :: w.socket.connection.joined[k] < w.frontier))
    && (forall j: S.SenderId | Resolved(w, j) :: j < w.frontier)
    && (forall j: S.SenderId | j in w.lefts || S.NotifyLeft(j) in w.outbox :: j < w.frontier)
  }

  /** No command queued for the channel is newer than its attempt. */
  ghost predicate AttemptIsLatest(w: World, c: Channel, j: S.SenderId) {
    && j < w.nextSender
    && (c.state.Joined? ==> j < w.frontier)
    && (forall i | 0 <= i < |w.queue| && CommandKey(w.queue[i]) == c.key :: SenderOf(w.queue[i]) <= j)
    && (forall i | 0 <= i < |w.queue| && SenderOf(w.queue[i]) == j ::
          w.queue[i].JoinCommand? && CommandKey(w.queue[i]) == c.key)
  }

  /** The socket knows the attempt only under the channel's own key. */
  ghost predicate AttemptIsKeyed(w: World, c: Channel, j: S.SenderId) {
    w.socket.Connected? ==>
      && (forall k | k in w.socket.connection.joins && w.socket.connection.joins[k].sender == j :: k == c.key)
      && (forall k | k in w.socket.connection.joined && w.socket.connection.joined[k] == j :: k == c.key)
  }

  /** A joining channel's attempt is queued, pending, or resolved; once resolved, nothing is pending. */
  ghost predicate AttemptIsPlaced(w: World, c: Channel, j: S.SenderId) {
    && (c.state.Joining? && j >= w.frontier ==> exists i :: 0 <= i < |w.queue| && SenderOf(w.queue[i]) == j)
    && (c.state.Joining? && j < w.frontier ==>
          || Resolved(w, j)
          || (w.socket.Connected? && Answers.HeldJoin(w.socket.connection, c.key, j)))
    && (c.state.Joined? || Resolved(w, j) ==> w.socket.Connected? ==> c.key !in w.socket.connection.joins)
  }

  /** Neither the left notice of the attempt nor its being overwritten ever comes about. */
  ghost predicate AttemptIsClean(w: World, j: S.SenderId) {
    && j !in w.lefts && S.NotifyLeft(j) !in w.outbox
    && !HasFate(w, j, S.JoinDropped(S.Overwritten))
  }

  ghost predicate AttemptInvariant(w: World, c: Channel, j: S.SenderId) {
    AttemptIsLatest(w, c, j) && AttemptIsKeyed(w, c, j) && AttemptIsPlaced(w, c, j) && AttemptIsClean(w, j)
  }

  ghost predicate ChannelInvariant(w: World, c: Channel) {
    C.Attempt(c.state).Some? ==> AttemptInvariant(w, c, C.Attempt(c.state).value)
  }

  ghost predicate RoutingInvariant(w: World) {
    && QueueInvariant(w) && SocketInvariant(w)
    && (forall a, b | a in w.channels && b in w.channels && a != b :: w.channels[a].key != w.channels[b].key)
    && (forall id | id in w.channels :: ChannelInvariant(w, w.channels[id]))
  }

  // ---------------------------------------------------------------------------------- channel moves

  lemma ChannelKeepsQueue(w: World, id: nat, input: C.Input)
    requires RoutingInvariant(w) && Enabled(w, ChannelStep(id, input))
    ensures QueueInvariant(AfterChannel(w, id, input)) && SocketInvariant(AfterChannel(w, id, input))
  {
    var next := AfterChannel(w, id, input);
    RequestsAreFresh(w, id, input);
    assert forall j: S.SenderId :: Resolved(next, j) <==> Resolved(w, j);
  }

  lemma FanOutsAskNothing(c: Channel)
    ensures forall ws, reply :: Requested(c, C.ReplyJoins(ws, reply)) == []
    ensures forall ws, reply :: Requested(c, C.ReplyLeaves(ws, reply)) == []
  {
    forall ws, reply ensures Requested(c, C.ReplyJoins(ws, reply)) == [] {
      ChannelRuns.FanOutInOrder(ws, reply, C.LeaveDone);
    }
    forall ws, reply ensures Requested(c, C.ReplyLeaves(ws, reply)) == [] {
      ChannelRuns.FanOutInOrder(ws, C.JoinRefused(C.TimedOut), reply);
    }
  }

  /** A channel step asks at most one thing, under the next sender name, of a socket that listens; a
      join is asked for exactly when the channel starts a new attempt. */
  lemma RequestsAreFresh(w: World, id: nat, input: C.Input)
    requires Enabled(w, ChannelStep(id, input))
    ensures var c := w.channels[id];
            var next := C.Iterate(c.state, input);
            var commands := Requested(c, next.outputs);
            && |commands| <= 1
            && (|commands| == 1 ==>
                  && SenderOf(commands[0]) == w.nextSender && CommandKey(commands[0]) == c.key
                  && !Exited(w.socket))
            && (C.Attempt(next.state).Some? && C.Attempt(next.state) != C.Attempt(c.state) ==>
                  && next.state.Joining? && |commands| == 1 && commands[0].JoinCommand?
                  && C.Attempt(next.state).value == w.nextSender)
            && (C.Attempt(next.state).Some? && C.Attempt(next.state) == C.Attempt(c.state) ==>
                  && (next.state.Joining? ==> c.state.Joining?)
                  && (next.state.Joined? && c.state.Joining? ==> C.Attempt(c.state).value in w.joinFates)
                  && |commands| == 0)
  {
    hide C.ReplyJoins, C.ReplyLeaves;
    var c := w.channels[id];
    FanOutsAskNothing(c);
  }

  lemma NewAttemptIsClean(w: World, key: S.JoinKey, j: S.SenderId)
    requires RoutingInvariant(w) && j == w.nextSender
    ensures !Resolved(w, j) && j !in w.lefts && S.NotifyLeft(j) !in w.outbox
    ensures forall fate :: !HasFate(w, j, fate)
  {
    forall fate ensures !HasFate(w, j, fate) {
      FateResolves(w, j, fate);
    }
  }

  lemma FateResolves(w: World, j: S.SenderId, fate: S.JoinFate)
    ensures HasFate(w, j, fate) ==> Resolved(w, j)
  {
  }

  /** The part of a channel step that the invariants look at: what it put on the queue. */
  ghost predicate Enqueues(w: World, next: World, commands: seq<Command>) {
    && next.socket == w.socket && next.outbox == w.outbox && next.frontier == w.frontier
    && next.joinFates == w.joinFates && next.lefts == w.lefts
    && next.queue == w.queue + commands && next.nextSender == w.nextSender + |commands|
    && (commands == [] || (|commands| == 1 && SenderOf(commands[0]) == w.nextSender))
  }

  lemma NewAttemptHolds(w: World, next: World, commands: seq<Command>, c: Channel)
    requires RoutingInvariant(w) && Enqueues(w, next, commands)
    requires |commands| == 1 && commands[0].JoinCommand? && CommandKey(commands[0]) == c.key
    requires c.state.Joining? && c.state.join == w.nextSender
    ensures ChannelInvariant(next, c)
  {
    var j := w.nextSender;
    NewAttemptIsClean(w, c.key, j);
    assert Resolved(next, j) <==> Resolved(w, j);
    assert SenderOf(next.queue[|w.queue|]) == j;
    hide Resolved;
  }

  lemma OldAttemptHolds(w: World, next: World, commands: seq<Command>, c: Channel, c': Channel)
    requires RoutingInvariant(w) && Enqueues(w, next, commands) && ChannelInvariant(w, c)
    requires commands != [] ==> CommandKey(commands[0]) != c.key
    requires c'.key == c.key && C.Attempt(c'.state) == C.Attempt(c.state)
    requires c.state.Joined? ==> c'.state.Joined?
    requires c'.state.Joined? && c.state.Joining? ==> C.Attempt(c.state).value in w.joinFates
    ensures ChannelInvariant(next, c')
  {
    if C.Attempt(c.state).Some? {
      var j := C.Attempt(c.state).value;
      assert forall fate :: HasFate(next, j, fate) <==> HasFate(w, j, fate);
      assert Resolved(next, j) <==> Resolved(w, j);
      if c.state.Joining? && j >= w.frontier {
        var i :| 0 <= i < |w.queue| && SenderOf(w.queue[i]) == j;
        assert next.queue[i] == w.queue[i];
      }
      assert j in w.joinFates ==> Resolved(w, j);
      hide Resolved, HasFate;
    }
  }

  lemma StepperKeepsAttempt(w: World, id: nat, input: C.Input)
    requires RoutingInvariant(w) && Enabled(w, ChannelStep(id, input))
    ensures var next := AfterChannel(w, id, input); ChannelInvariant(next, next.channels[id])
  {
    RequestsAreFresh(w, id, input);
    var next := AfterChannel(w, id, input);
    var c, c' := w.channels[id], next.channels[id];
    var commands := Requested(c, C.Iterate(c.state, input).outputs);
    if C.Attempt(c'.state).Some? {
      if C.Attempt(c'.state) != C.Attempt(c.state) {
        NewAttemptHolds(w, next, commands, c');
      } else {
        OldAttemptHolds(w, next, commands, c, c');
      }
    }
    hide C.Iterate, C.Enabled, Requested, Ready, AttemptInvariant;
  }

  lemma BystanderKeepsAttempt(w: World, id: nat, input: C.Input, other: nat)
    requires RoutingInvariant(w) && Enabled(w, ChannelStep(id, input))
    requires other in w.channels && other != id
    ensures ChannelInvariant(AfterChannel(w, id, input), w.channels[other])
  {
    RequestsAreFresh(w, id, input);
    var c := w.channels[id];
    OldAttemptHolds(w, AfterChannel(w, id, input), Requested(c, C.Iterate(c.state, input).outputs),
                    w.channels[other], w.channels[other]);
    hide C.Iterate, C.Enabled, Requested, Ready, AttemptInvariant;
  }

  lemma ChannelStepKeepsRouting(w: World, id: nat, input: C.Input)
    requires RoutingInvariant(w) && Enabled(w, ChannelStep(id, input))
    ensures RoutingInvariant(AfterChannel(w, id, input))
  {
    ChannelKeepsQueue(w, id, input);
    StepperKeepsAttempt(w, id, input);
    var next := AfterChannel(w, id, input);
    forall other | other in next.channels ensures ChannelInvariant(next, next.channels[other]) {
      if other != id {
        BystanderKeepsAttempt(w, id, input, other);
      }
    }
  }

  lemma HeadOrRest<T>(xs: seq<T>, x: T)
    requires xs != []
    ensures x in xs <==> x == xs[0] || x in xs[1..]
  {
    assert xs == [xs[0]] + xs[1..];
  }

  lemma DeliveryMovesFate(w: World, j: S.SenderId, fate: S.JoinFate)
    requires w.outbox != []
    ensures HasFate(Delivered(w), j, fate) ==> HasFate(w, j, fate)
    ensures S.EndJoin(j, fate) in w.outbox ==> Resolved(Delivered(w), j)
  {
    HeadOrRest(w.outbox, S.EndJoin(j, fate));
    hide Hears;
  }

  lemma DeliveryMovesFates(w: World, j: S.SenderId)
    requires w.outbox != []
    ensures Resolved(w, j) <==> Resolved(Delivered(w), j)
    ensures j in w.lefts || S.NotifyLeft(j) in w.outbox
            <==> j in Delivered(w).lefts || S.NotifyLeft(j) in Delivered(w).outbox
    ensures forall fate :: HasFate(Delivered(w), j, fate) ==> HasFate(w, j, fate)
  {
    HeadOrRest(w.outbox, S.NotifyLeft(j));
    forall fate
      ensures HasFate(Delivered(w), j, fate) ==> HasFate(w, j, fate)
      ensures S.EndJoin(j, fate) in w.outbox ==> Resolved(Delivered(w), j)
      ensures S.EndJoin(j, fate) in Delivered(w).outbox ==> S.EndJoin(j, fate) in w.outbox
    {
      DeliveryMovesFate(w, j, fate);
      HeadOrRest(w.outbox, S.EndJoin(j, fate));
    }
    if j in Delivered(w).joinFates && j !in w.joinFates {
      assert HasFate(Delivered(w), j, Delivered(w).joinFates[j]);
    }
    hide Hears;
  }

  lemma DeliverKeepsChannel(w: World, c: Channel)
    requires w.outbox != [] && ChannelInvariant(w, c)
    ensures ChannelInvariant(Delivered(w), c)
  {
    hide HasFate, Resolved, Delivered;
    DeliveryKeeps(w);
    if C.Attempt(c.state).Some? {
      DeliveryMovesFates(w, C.Attempt(c.state).value);
    }
  }

  lemma DeliveryKeeps(w: World)
    requires w.outbox != []
    ensures var next := Delivered(w);
            && next.socket == w.socket && next.queue == w.queue
            && next.frontier == w.frontier && next.nextSender == w.nextSender
            && next.channels.Keys == w.channels.Keys
            && (forall id | id in w.channels ::
                  && next.channels[id].key == w.channels[id].key
                  && next.channels[id].state == w.channels[id].state)
  {}

  lemma DeliverKeepsItsOwn(w: World)
    requires RoutingInvariant(w) && w.outbox != []
    ensures QueueInvariant(Delivered(w)) && SocketInvariant(Delivered(w))
  {
    hide ChannelInvariant, Resolved, Delivered;
    var next := Delivered(w);
    DeliveryKeeps(w);
    forall j: S.SenderId
      ensures Resolved(next, j) ==> Resolved(w, j)
      ensures j in next.lefts || S.NotifyLeft(j) in next.outbox ==> j in w.lefts || S.NotifyLeft(j) in w.outbox
    {
      DeliveryMovesFates(w, j);
    }
  }

  lemma DeliverKeepsRouting(w: World)
    requires RoutingInvariant(w) && w.outbox != []
    ensures RoutingInvariant(Delivered(w))
  {
    hide ChannelInvariant, QueueInvariant, SocketInvariant, Delivered;
    var next := Delivered(w);
    DeliveryKeeps(w);
    DeliverKeepsItsOwn(w);
    forall id | id in next.channels ensures ChannelInvariant(next, next.channels[id]) {
      DeliverKeepsChannel(w, w.channels[id]);
      SameAttempt(next, w.channels[id], next.channels[id]);
    }
  }

  lemma SameAttempt(w: World, c: Channel, c': Channel)
    requires ChannelInvariant(w, c) && c'.state == c.state && c'.key == c.key
    ensures ChannelInvariant(w, c')
  {}

  // ---------------------------------------------------------------------------------- socket moves

  /** What the socket resolves in an iteration had been taken before, or is the join just taken, or is
      still queued when the socket ends. */
  lemma ResolvedWasTaken(w: World, step: S.Step, j: S.SenderId)
    requires RoutingInvariant(w) && Enabled(w, SocketStep(step)) && Resolved(AfterSocket(w, step), j)
    ensures j < AfterSocket(w, step).frontier
  {
    var next := AfterSocket(w, step);
    var outputs := S.Iterate(w.strategy, w.socket, step).outputs;
    if EndedIn(outputs, j) {
      var fate :| S.EndJoin(j, fate) in outputs;
      EndedWasTaken(w, step, j, fate);
    } else if j in w.joinFates {
      assert Resolved(w, j);
    }
    hide S.Iterate, S.Enabled;
  }

  lemma EndedWasTaken(w: World, step: S.Step, j: S.SenderId, fate: S.JoinFate)
    requires RoutingInvariant(w) && Enabled(w, SocketStep(step))
    requires S.EndJoin(j, fate) in S.Iterate(w.strategy, w.socket, step).outputs
    ensures j < w.frontier || (step.input.TakeJoin? && step.input.join.sender == j)
    ensures j < AfterSocket(w, step).frontier
  {
    Answers.JoinEndsHaveCauses(w.strategy, w.socket, step, S.EndJoin(j, fate));
    hide S.Iterate, S.Enabled;
    if fate != S.JoinDropped(S.SendFailed) {
      var k :| Answers.HeldJoin(w.socket.connection, k, j);
    }
  }

  lemma SocketKeepsQueue(w: World, step: S.Step)
    requires RoutingInvariant(w) && Enabled(w, SocketStep(step))
    ensures QueueInvariant(AfterSocket(w, step))
  {
    hide S.Iterate, S.Enabled;
    var next := AfterSocket(w, step);
    if TakesCommand(step.input) && !Exited(next.socket) {
      assert next.queue == w.queue[1..];
      forall i | 0 <= i < |next.queue| ensures next.frontier <= SenderOf(next.queue[i]) {
        assert SenderOf(w.queue[0]) < SenderOf(w.queue[i + 1]);
      }
    }
  }

  lemma SocketKeepsConnection(w: World, step: S.Step)
    requires RoutingInvariant(w) && Enabled(w, SocketStep(step))
    requires w.socket.Connected? && AfterSocket(w, step).socket.Connected?
    ensures var next := AfterSocket(w, step);
            && OwnKeys(next.socket.connection)
            && (forall k | k in next.socket.connection.joins ::
                  next.socket.connection.joins[k].sender < next.frontier)
            && (forall k | k in next.socket.connection.joined :: next.socket.connection.joined[k] < next.frontier)
  {
    var next := AfterSocket(w, step);
    var c, c' := w.socket.connection, next.socket.connection;
    forall k
      ensures k in c'.joins ==> S.KeyOf(c'.joins[k]) == k && c'.joins[k].sender < next.frontier
      ensures k in c'.joined ==> c'.joined[k] < next.frontier
    {
      EntriesHaveCauses(c, step, k);
    }
    hide S.StepConnected;
  }

  lemma SocketKeepsItsOwn(w: World, step: S.Step)
    requires RoutingInvariant(w) && Enabled(w, SocketStep(step))
    ensures SocketInvariant(AfterSocket(w, step))
  {
    var next := AfterSocket(w, step);
    forall j: S.SenderId | Resolved(next, j) ensures j < next.frontier {
      ResolvedWasTaken(w, step, j);
    }
    forall j: S.SenderId | S.NotifyLeft(j) in next.outbox ensures j < next.frontier {
      if w.socket.Connected? {
        LeftNoticeHasCause(w.socket.connection, step, j);
      } else {
        UnconnectedEndsNothing(w.strategy, w.socket, step, S.NotifyLeft(j));
      }
    }
    if next.socket.Connected? && w.socket.Connected? {
      SocketKeepsConnection(w, step);
    }
    hide S.StepConnected, Resolved;
  }

  /** A command taken for the channel's own key is never newer than its attempt, so it cannot meet an
      attempt that was taken before. */
  lemma OwnCommandIsNotLater(w: World, step: S.Step, c: Channel, j: S.SenderId)
    requires RoutingInvariant(w) && Enabled(w, SocketStep(step)) && AttemptInvariant(w, c, j)
    requires TakesCommand(step.input)
    ensures CommandKey(w.queue[0]) == c.key ==> w.frontier <= SenderOf(w.queue[0]) <= j
    ensures SenderOf(w.queue[0]) == j ==>
              step.input.TakeJoin? && step.input.join.sender == j && S.KeyOf(step.input.join) == c.key
  {}

  lemma SocketKeepsLatest(w: World, step: S.Step, c: Channel, j: S.SenderId)
    requires RoutingInvariant(w) && Enabled(w, SocketStep(step)) && AttemptInvariant(w, c, j)
    requires c.state.Joined? ==> j < w.frontier
    ensures AttemptIsLatest(AfterSocket(w, step), c, j)
  {
    hide S.Iterate, S.Enabled;
    var next := AfterSocket(w, step);
    if TakesCommand(step.input) && !Exited(next.socket) {
      assert forall i | 0 <= i < |next.queue| :: next.queue[i] == w.queue[i + 1];
    }
  }

  lemma SocketKeepsKeyed(w: World, step: S.Step, c: Channel, j: S.SenderId)
    requires RoutingInvariant(w) && Enabled(w, SocketStep(step)) && AttemptInvariant(w, c, j)
    ensures AttemptIsKeyed(AfterSocket(w, step), c, j)
  {
    var next := AfterSocket(w, step);
    if w.socket.Connected? && next.socket.Connected? {
      if TakesCommand(step.input) {
        OwnCommandIsNotLater(w, step, c, j);
      }
      forall k
        ensures k in next.socket.connection.joins && next.socket.connection.joins[k].sender == j ==> k == c.key
        ensures k in next.socket.connection.joined && next.socket.connection.joined[k] == j ==> k == c.key
      {
        EntriesHaveCauses(w.socket.connection, step, k);
      }
      hide S.StepConnected, S.Enabled;
    }
  }

  lemma NoLeftNotice(w: World, step: S.Step, c: Channel, j: S.SenderId)
    requires RoutingInvariant(w) && Enabled(w, SocketStep(step)) && AttemptInvariant(w, c, j)
    ensures S.NotifyLeft(j) !in AfterSocket(w, step).outbox
  {
    hide S.Iterate, S.StepConnected;
    if S.NotifyLeft(j) in S.Iterate(w.strategy, w.socket, step).outputs {
      if w.socket.Connected? {
        assert S.NotifyLeft(j) in S.StepConnected(w.socket.connection, step).outputs by {
          IterateConnected(w.strategy, w.socket.connection, step);
        }
        LeftNoticeHasCause(w.socket.connection, step, j);
        OwnCommandIsNotLater(w, step, c, j);
      } else {
        UnconnectedEndsNothing(w.strategy, w.socket, step, S.NotifyLeft(j));
      }
    }
  }

  lemma IterateConnected(strategy: bool, c: S.Connection, step: S.Step)
    requires S.Enabled(S.Connected(c), step)
    ensures S.Iterate(strategy, S.Connected(c), step) == S.StepConnected(c, step)
  {
  }

  lemma NotOverwritten(w: World, step: S.Step, c: Channel, j: S.SenderId)
    requires RoutingInvariant(w) && Enabled(w, SocketStep(step)) && AttemptInvariant(w, c, j)
    ensures S.EndJoin(j, S.JoinDropped(S.Overwritten)) !in AfterSocket(w, step).outbox
  {
    hide S.Iterate, S.StepConnected;
    var overwritten := S.EndJoin(j, S.JoinDropped(S.Overwritten));
    if overwritten in S.Iterate(w.strategy, w.socket, step).outputs {
      Answers.JoinEndsHaveCauses(w.strategy, w.socket, step, overwritten);
      OwnCommandIsNotLater(w, step, c, j);
    }
  }

  lemma SocketKeepsClean(w: World, step: S.Step, c: Channel, j: S.SenderId)
    requires RoutingInvariant(w) && Enabled(w, SocketStep(step)) && AttemptInvariant(w, c, j)
    ensures AttemptIsClean(AfterSocket(w, step), j)
  {
    NoLeftNotice(w, step, c, j);
    NotOverwritten(w, step, c, j);
    hide S.Iterate, S.Enabled, RoutingInvariant;
  }

  /** A joining attempt that had been taken stays pending under the channel's key, or is resolved. */
  lemma TakenAttemptStaysPlaced(w: World, step: S.Step, c: Channel, j: S.SenderId)
    requires RoutingInvariant(w) && Enabled(w, SocketStep(step)) && AttemptInvariant(w, c, j)
    requires c.state.Joining? && j < w.frontier
    ensures var next := AfterSocket(w, step);
            || Resolved(next, j)
            || (next.socket.Connected? && Answers.HeldJoin(next.socket.connection, c.key, j))
  {
    if j !in w.joinFates {
      assert !EndedIn(w.outbox, j);
      PendingJoinStaysOrEnds(w.socket.connection, step, c.key);
    }
    hide S.StepConnected, S.StepUnconnected;
  }

  /** A joining attempt that was still queued is still queued, or is pending or resolved. */
  lemma QueuedAttemptStaysPlaced(w: World, step: S.Step, c: Channel, j: S.SenderId)
    requires RoutingInvariant(w) && Enabled(w, SocketStep(step)) && AttemptInvariant(w, c, j)
    requires c.state.Joining? && j >= w.frontier
    ensures var next := AfterSocket(w, step);
            if j < next.frontier then
              || Resolved(next, j)
              || (next.socket.Connected? && Answers.HeldJoin(next.socket.connection, c.key, j))
            else exists i :: 0 <= i < |next.queue| && SenderOf(next.queue[i]) == j
  {
    var next := AfterSocket(w, step);
    var i :| 0 <= i < |w.queue| && SenderOf(w.queue[i]) == j;
    if TakesCommand(step.input) && i == 0 {
      OwnCommandIsNotLater(w, step, c, j);
      TakenJoinIsPendingOrEnds(w.socket.connection, step);
    } else {
      var k := if TakesCommand(step.input) then i - 1 else i;
      var rest := if TakesCommand(step.input) then w.queue[1..] else w.queue;
      assert rest[k] == w.queue[i];
      if Exited(next.socket) {
        assert rest[k].JoinCommand? && rest[k].join.sender in DroppedWithQueue(rest);
      }
    }
    hide S.StepConnected, S.StepUnconnected;
  }

  /** Nothing new is registered under the key of an attempt that was taken before. */
  lemma NothingNewUnderOwnKey(w: World, step: S.Step, c: Channel, j: S.SenderId)
    requires RoutingInvariant(w) && Enabled(w, SocketStep(step)) && AttemptInvariant(w, c, j)
    requires j < w.frontier && AfterSocket(w, step).socket.Connected?
    ensures c.key in AfterSocket(w, step).socket.connection.joins ==>
              && w.socket.Connected? && c.key in w.socket.connection.joins
              && !(step.input.TakeJoin? && S.KeyOf(step.input.join) == c.key)
  {
    if TakesCommand(step.input) {
      OwnCommandIsNotLater(w, step, c, j);
    }
    if w.socket.Connected? {
      EntriesHaveCauses(w.socket.connection, step, c.key);
    }
    hide S.StepConnected;
  }

  lemma EndedAttemptLeavesKey(w: World, step: S.Step, c: Channel, j: S.SenderId, fate: S.JoinFate)
    requires RoutingInvariant(w) && Enabled(w, SocketStep(step)) && AttemptInvariant(w, c, j)
    requires w.socket.Connected? && AfterSocket(w, step).socket.Connected?
    requires S.EndJoin(j, fate) in AfterSocket(w, step).outbox
    ensures j < w.frontier && c.key !in AfterSocket(w, step).socket.connection.joins
  {
    var key := EndedJoinLeavesItsKey(w.socket.connection, step, j, fate);
    NothingNewUnderOwnKey(w, step, c, j);
    hide S.StepConnected;
  }

  lemma SocketKeepsDone(w: World, step: S.Step, c: Channel, j: S.SenderId)
    requires RoutingInvariant(w) && Enabled(w, SocketStep(step)) && AttemptInvariant(w, c, j)
    requires c.state.Joined? || Resolved(AfterSocket(w, step), j)
    requires AfterSocket(w, step).socket.Connected?
    ensures c.key !in AfterSocket(w, step).socket.connection.joins
  {
    var next := AfterSocket(w, step);
    if EndedIn(next.outbox, j) && w.socket.Connected? {
      var fate :| S.EndJoin(j, fate) in next.outbox;
      EndedAttemptLeavesKey(w, step, c, j, fate);
    } else if EndedIn(next.outbox, j) {
      var fate :| S.EndJoin(j, fate) in next.outbox;
      UnconnectedEndsNothing(w.strategy, w.socket, step, S.EndJoin(j, fate));
    } else {
      assert c.state.Joined? || Resolved(w, j);
      NothingNewUnderOwnKey(w, step, c, j);
    }
    hide S.StepConnected, S.StepUnconnected;
  }

  lemma SocketKeepsChannel(w: World, step: S.Step, c: Channel)
    requires RoutingInvariant(w) && Enabled(w, SocketStep(step)) && ChannelInvariant(w, c)
    ensures ChannelInvariant(AfterSocket(w, step), c)
  {
    if C.Attempt(c.state).Some? {
      var j := C.Attempt(c.state).value;
      SocketKeepsLatest(w, step, c, j);
      SocketKeepsKeyed(w, step, c, j);
      SocketKeepsClean(w, step, c, j);
      if c.state.Joining? {
        if j < w.frontier {
          TakenAttemptStaysPlaced(w, step, c, j);
        } else {
          QueuedAttemptStaysPlaced(w, step, c, j);
        }
      }
      var next := AfterSocket(w, step);
      if (c.state.Joined? || Resolved(next, j)) && next.socket.Connected? {
        SocketKeepsDone(w, step, c, j);
      }
      FrontierGrows(w, step);
      hide S.Iterate, S.Enabled, Resolved, AttemptIsLatest, AttemptIsKeyed, AttemptIsClean;
    }
  }

  lemma FrontierGrows(w: World, step: S.Step)
    requires RoutingInvariant(w) && Enabled(w, SocketStep(step))
    ensures w.frontier <= AfterSocket(w, step).frontier
  {
    hide S.Iterate, S.Enabled;
  }

  lemma SocketStepKeepsRouting(w: World, step: S.Step)
    requires RoutingInvariant(w) && Enabled(w, SocketStep(step))
    ensures RoutingInvariant(AfterSocket(w, step))
  {
    SocketKeepsQueue(w, step);
    SocketKeepsItsOwn(w, step);
    var next := AfterSocket(w, step);
    forall id | id in next.channels ensures ChannelInvariant(next, next.channels[id]) {
      SocketKeepsChannel(w, step, w.channels[id]);
    }
    hide S.Iterate, S.Enabled, QueueInvariant, SocketInvariant, ChannelInvariant;
  }

  // ---------------------------------------------------------------------------------- runs

  lemma SpawnKeepsRouting(w: World, id: nat, key: S.JoinKey, payload: Payload)
    requires RoutingInvariant(w) && Enabled(w, Spawn(id, key, payload))
    ensures RoutingInvariant(Next(w, Spawn(id, key, payload)))
  {
    var next := Next(w, Spawn(id, key, payload));
    SameForOthers(w, next);
    forall other | other in next.channels ensures ChannelInvariant(next, next.channels[other]) {
      if other != id {
        assert ChannelInvariant(w, w.channels[other]);
      }
    }
  }

  lemma AskShutdownKeepsRouting(w: World, id: nat)
    requires RoutingInvariant(w) && id in w.channels
    ensures RoutingInvariant(Next(w, AskShutdown(id)))
  {
    var next := Next(w, AskShutdown(id));
    SameForOthers(w, next);
    forall other | other in next.channels ensures ChannelInvariant(next, next.channels[other]) {
      assert ChannelInvariant(w, w.channels[other]);
      SameAttempt(next, w.channels[other], next.channels[other]);
    }
  }

  /** The invariants do not look at the other channels. */
  lemma SameForOthers(w: World, next: World)
    requires next == w.(channels := next.channels)
    ensures QueueInvariant(next) == QueueInvariant(w) && SocketInvariant(next) == SocketInvariant(w)
    ensures forall c :: ChannelInvariant(next, c) == ChannelInvariant(w, c)
  {
    forall j: S.SenderId
      ensures Resolved(next, j) == Resolved(w, j)
      ensures forall fate :: HasFate(next, j, fate) == HasFate(w, j, fate)
    {}
  }

  lemma {:induction false} RunKeepsRouting(strategy: bool, moves: seq<Move>)
    requires IsRun(strategy, moves)
    ensures RoutingInvariant(At(strategy, moves))
  {
    if |moves| == 0 {
    } else {
      var before, move := At(strategy, moves[..|moves| - 1]), moves[|moves| - 1];
      RunKeepsRouting(strategy, moves[..|moves| - 1]);
      match move
      case SocketStep(step) => SocketStepKeepsRouting(before, step);
      case Deliver => DeliverKeepsRouting(before);
      case Spawn(id, key, payload) => SpawnKeepsRouting(before, id, key, payload);
      case AskShutdown(id) => AskShutdownKeepsRouting(before, id);
      case ChannelStep(id, input) => ChannelStepKeepsRouting(before, id, input);
    }
    hide RoutingInvariant;
  }

  /**
   In every run, the join a channel is waiting for is never lost: it is in the queue, or pending at the
   socket under the channel's own key, or its fate is on its way or already there; and that fate is never
   that another join took its place.
   */
  lemma JoiningIsNeverOrphaned(strategy: bool, moves: seq<Move>, id: nat)
    requires IsRun(strategy, moves)
    requires var w := At(strategy, moves); id in w.channels && w.channels[id].state.Joining?
    ensures var w := At(strategy, moves);
            var c, j := w.channels[id], w.channels[id].state.join;
            && (|| (exists i :: 0 <= i < |w.queue| && w.queue[i].JoinCommand? && w.queue[i].join.sender == j
                                && CommandKey(w.queue[i]) == c.key)
                || (w.socket.Connected? && Answers.HeldJoin(w.socket.connection, c.key, j))
                || Resolved(w, j))
            && !HasFate(w, j, S.JoinDropped(S.Overwritten))
  {
    RunKeepsRouting(strategy, moves);
    var w := At(strategy, moves);
    var c, j := w.channels[id], w.channels[id].state.join;
    assert AttemptInvariant(w, c, j);
    if j >= w.frontier {
      var i :| 0 <= i < |w.queue| && SenderOf(w.queue[i]) == j;
      assert w.queue[i].JoinCommand? && w.queue[i].join.sender == j && CommandKey(w.queue[i]) == c.key;
    }
  }

  /** In no run is the left arm of a joined channel ever ready: the notice that would make it so is sent
      only for the channel's own leave, which moves it out of Joined first. */
  lemma JoinedNeverHearsLeft(strategy: bool, moves: seq<Move>, id: nat)
    requires IsRun(strategy, moves)
    ensures !Enabled(At(strategy, moves), ChannelStep(id, C.HearLeft))
  {
    RunKeepsRouting(strategy, moves);
    var w := At(strategy, moves);
    if id in w.channels && w.channels[id].state.Joined? {
      assert ChannelInvariant(w, w.channels[id]);
    }
    hide QueueInvariant, SocketInvariant, AttemptIsLatest, AttemptIsKeyed, AttemptIsPlaced;
  }
}
