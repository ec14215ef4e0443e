/**
 Runs of the socket with any channels in which no channel lags: an announcement is delivered only when
 no live channel has an unread one. In these runs channels and socket agree about connectivity, a joined
 channel is the one the socket routes to, and nothing rejoins unasked.
 */
module Agreement {
  import opened Wrappers
  import opened Messages
  import opened SocketEffects
  import opened World
  import opened Routing
  import Answers = SocketAnswers
  import Broadcasts = SocketBroadcast
  import S = SocketProtocol
  import C = ChannelProtocol

  // ---------------------------------------------------------------------------------- definitions

  /** What it will believe after reading what is unread. */
  ghost predicate WillBelieve(c: Channel) {
    if c.unread.Some? then c.unread.value.event.Up? else C.Believes(c.state)
  }

  ghost function Undelivered(w: World): seq<S.Connectivity> {
    Broadcasts.Announcements(w.outbox)
  }

  ghost predicate NoLag(w: World, move: Move) {
    move.Deliver? && w.outbox != [] && w.outbox[0].Announce? ==>
      forall id | id in w.channels && C.Live(w.channels[id].state) :: w.channels[id].unread.None?
  }

  ghost predicate IsCalmRun(strategy: bool, moves: seq<Move>)
    requires IsRun(strategy, moves)
  {
    |moves| > 0 ==>
      && IsCalmRun(strategy, moves[..|moves| - 1])
      && NoLag(At(strategy, moves[..|moves| - 1]), moves[|moves| - 1])
  }

  /** Unread and undelivered announcements lead from the channel's belief to the socket's real state,
      each changing it. */
  ghost predicate Agrees(w: World, c: Channel) {
    && (c.unread.Some? ==> !c.unread.value.lagged && c.unread.value.event.Up? != C.Believes(c.state))
    && |Undelivered(w)| <= 1
    && (Undelivered(w) == [] ==> WillBelieve(c) == w.socket.Connected?)
    && (Undelivered(w) != [] ==>
          Undelivered(w)[0].Up? != WillBelieve(c) && Undelivered(w)[0].Up? == w.socket.Connected?)
  }

  /** A join failed by a disconnect reaches its channel only once that channel has the announcement. */
  ghost predicate HearsBeforeFailing(w: World, c: Channel) {
    c.state.Joining? ==>
      && (c.state.join in w.joinFates && w.joinFates[c.state.join] == S.JoinDisconnected ==>
            c.unread.Some? && c.unread.value.event.Down?)
      && (S.EndJoin(c.state.join, S.JoinDisconnected) in w.outbox && Undelivered(w) == [] ==>
            c.unread.Some? && c.unread.value.event.Down?)
  }

  /** A channel with nothing unread that is joined, or about to find out that it is, is where the socket
      sends the pushes for its topic and join reference. */
  ghost predicate IsRouted(w: World, c: Channel) {
    c.unread.None? && Undelivered(w) == [] && Accepted(w, c) ==>
      w.socket.Connected? && RoutesTo(w.socket.connection, c.key, C.Attempt(c.state).value)
  }

  ghost predicate Accepted(w: World, c: Channel) {
    c.state.Joined? || (c.state.Joining? && exists p :: HasFate(w, c.state.join, S.JoinOk(p)))
  }

  ghost predicate RoutesTo(conn: S.Connection, key: S.JoinKey, j: S.SenderId) {
    key in conn.joined && conn.joined[key] == j
  }

  ghost predicate CalmChannel(w: World, c: Channel) {
    C.Live(c.state) ==> Agrees(w, c) && HearsBeforeFailing(w, c) && IsRouted(w, c)
  }

  ghost predicate CalmInvariant(w: World) {
    && AnnouncedFirst(w.outbox)
    && (!w.socket.Failed? ==> forall id | id in w.channels :: CalmChannel(w, w.channels[id]))
  }

  // ---------------------------------------------------------------------------------- channel moves

  lemma StepperAgrees(w: World, id: nat, input: C.Input)
    requires Enabled(w, ChannelStep(id, input)) && Agrees(w, w.channels[id])
    requires C.Live(AfterChannel(w, id, input).channels[id].state)
    ensures C.Live(w.channels[id].state)
    ensures Agrees(AfterChannel(w, id, input), AfterChannel(w, id, input).channels[id])
  {
    hide C.ReplyJoins, C.ReplyLeaves, Broadcasts.Announcements;
  }

  lemma StepperHearsBeforeFailing(w: World, id: nat, input: C.Input)
    requires Enabled(w, ChannelStep(id, input)) && RoutingInvariant(w)
    requires C.Live(w.channels[id].state) && HearsBeforeFailing(w, w.channels[id])
    requires Agrees(w, w.channels[id])
    ensures HearsBeforeFailing(AfterChannel(w, id, input), AfterChannel(w, id, input).channels[id])
  {
    var next := AfterChannel(w, id, input);
    var c, c' := w.channels[id], next.channels[id];
    RequestsAreFresh(w, id, input);
    if c'.state.Joining? {
      if C.Attempt(c'.state) != C.Attempt(c.state) {
        NewAttemptIsClean(w, c.key, c'.state.join);
        assert !HasFate(w, c'.state.join, S.JoinDisconnected);
      } else {
        assert !input.Hear?;
      }
    }
    hide C.Iterate, Broadcasts.Announcements, Requested;
  }

  lemma StepperIsRouted(w: World, id: nat, input: C.Input)
    requires Enabled(w, ChannelStep(id, input)) && RoutingInvariant(w)
    requires C.Live(w.channels[id].state) && CalmChannel(w, w.channels[id])
    ensures IsRouted(AfterChannel(w, id, input), AfterChannel(w, id, input).channels[id])
  {
    var next := AfterChannel(w, id, input);
    var c, c' := w.channels[id], next.channels[id];
    RequestsAreFresh(w, id, input);
    if Accepted(next, c') && c'.unread.None? && Undelivered(w) == [] {
      if C.Attempt(c'.state) != C.Attempt(c.state) {
        NewAttemptIsClean(w, c.key, c'.state.join);
      } else {
        JoinedWasAccepted(w, id, input);
        if input.Hear? {
          HearingEndsAttempt(w, id, input);
        }
      }
    }
    hide C.Iterate, Broadcasts.Announcements, Requested;
  }

  lemma HearingEndsAttempt(w: World, id: nat, input: C.Input)
    requires Enabled(w, ChannelStep(id, input)) && input.Hear?
    ensures C.Attempt(AfterChannel(w, id, input).channels[id].state).None?
  {
    hide C.ReplyJoins, C.ReplyLeaves;
  }

  lemma JoinedWasAccepted(w: World, id: nat, input: C.Input)
    requires Enabled(w, ChannelStep(id, input))
    requires var c' := AfterChannel(w, id, input).channels[id];
             Accepted(AfterChannel(w, id, input), c') && C.Attempt(c'.state) == C.Attempt(w.channels[id].state)
    ensures Accepted(w, w.channels[id])
  {
    var next := AfterChannel(w, id, input);
    var c, c' := w.channels[id], next.channels[id];
    RequestsAreFresh(w, id, input);
    if c'.state.Joined? && c.state.Joining? {
      assert input.JoinEnds? && input.fate.JoinOk? by { hide C.ReplyJoins, C.ReplyLeaves; }
      assert HasFate(w, c.state.join, S.JoinOk(input.fate.payload));
    } else if c'.state.Joining? {
      var p :| HasFate(next, c'.state.join, S.JoinOk(p));
      assert HasFate(w, c.state.join, S.JoinOk(p));
    }
    hide C.Iterate, Requested;
  }

  lemma OthersStayCalm(w: World, next: World, c: Channel)
    requires next.socket == w.socket && next.outbox == w.outbox && next.joinFates == w.joinFates
    requires CalmChannel(w, c)
    ensures CalmChannel(next, c)
  {
    if c.state.Joining? {
      assert forall p :: HasFate(next, c.state.join, S.JoinOk(p)) <==> HasFate(w, c.state.join, S.JoinOk(p));
    }
    hide HasFate, Broadcasts.Announcements;
  }

  lemma ChannelStepStaysCalm(w: World, id: nat, input: C.Input)
    requires RoutingInvariant(w) && CalmInvariant(w) && Enabled(w, ChannelStep(id, input))
    ensures CalmInvariant(AfterChannel(w, id, input))
  {
    var next := AfterChannel(w, id, input);
    if !w.socket.Failed? {
      forall other | other in next.channels ensures CalmChannel(next, next.channels[other]) {
        if other != id {
          OthersStayCalm(w, next, w.channels[other]);
        } else if C.Live(next.channels[id].state) {
          DeadStaysDead(w, id, input);
          StepperAgrees(w, id, input);
          StepperHearsBeforeFailing(w, id, input);
          StepperIsRouted(w, id, input);
        }
      }
    }
    hide C.Iterate, Agrees, HearsBeforeFailing, IsRouted, AnnouncedFirst;
  }

  lemma DeadStaysDead(w: World, id: nat, input: C.Input)
    requires Enabled(w, ChannelStep(id, input)) && C.Live(AfterChannel(w, id, input).channels[id].state)
    ensures C.Live(w.channels[id].state)
  {
    hide C.ReplyJoins, C.ReplyLeaves;
  }

  // ---------------------------------------------------------------------------------- deliveries

  lemma HeadAnnounces(outputs: seq<S.Output>)
    requires outputs != []
    ensures Broadcasts.Announcements(outputs)
            == (if outputs[0].Announce? then [outputs[0].event] else []) + Broadcasts.Announcements(outputs[1..])
  {
    assert outputs == [outputs[0]] + outputs[1..];
    Broadcasts.AnnouncementsConcat([outputs[0]], outputs[1..]);
    assert Broadcasts.Announcements([outputs[0]]) == if outputs[0].Announce? then [outputs[0].event] else [];
  }

  lemma {:induction false} AnnouncedIsListed(outputs: seq<S.Output>, event: S.Connectivity)
    requires S.Announce(event) in outputs
    ensures event in Broadcasts.Announcements(outputs)
  {
    var last := |outputs| - 1;
    if outputs[last] != S.Announce(event) {
      assert outputs == outputs[..last] + [outputs[last]];
      AnnouncedIsListed(outputs[..last], event);
    }
  }

  lemma AnnouncementDelivered(w: World, c: Channel)
    requires w.outbox != [] && w.outbox[0].Announce? && AnnouncedFirst(w.outbox)
    requires C.Live(c.state) && CalmChannel(w, c) && c.unread.None?
    ensures CalmChannel(Delivered(w), Hears(c, w.outbox[0].event))
  {
    var next, c' := Delivered(w), Hears(c, w.outbox[0].event);
    HeadAnnounces(w.outbox);
    if c.state.Joining? && S.EndJoin(c.state.join, S.JoinDisconnected) in next.outbox {
      var b :| 0 <= b < |next.outbox| && next.outbox[b] == S.EndJoin(c.state.join, S.JoinDisconnected);
      assert w.outbox[b + 1] == next.outbox[b];
    }
    hide Broadcasts.Announcements, HasFate;
  }

  lemma OtherDeliveredKeeps(w: World)
    requires w.outbox != [] && !w.outbox[0].Announce?
    ensures var next := Delivered(w);
            && next.socket == w.socket && next.channels == w.channels && next.outbox == w.outbox[1..]
            && Undelivered(next) == Undelivered(w)
  {
    hide Broadcasts.Announcements;
    var rest: seq<S.Connectivity> := Broadcasts.Announcements(w.outbox[1..]);
    HeadAnnounces(w.outbox);
    assert [] + rest == rest;
  }

  lemma OtherDeliveredHears(w: World, c: Channel)
    requires w.outbox != [] && !w.outbox[0].Announce? && AnnouncedFirst(w.outbox)
    requires HearsBeforeFailing(w, c)
    ensures HearsBeforeFailing(Delivered(w), c)
  {
    OtherDeliveredKeeps(w);
    if c.state.Joining? {
      HeadOrRest(w.outbox, S.EndJoin(c.state.join, S.JoinDisconnected));
      if w.outbox[0] == S.EndJoin(c.state.join, S.JoinDisconnected) {
        NothingUndelivered(w);
      }
    }
    hide Broadcasts.Announcements, Hears, AnnouncedFirst;
  }

  lemma OtherDeliveredRouted(w: World, c: Channel)
    requires w.outbox != [] && !w.outbox[0].Announce? && IsRouted(w, c)
    ensures IsRouted(Delivered(w), c)
  {
    OtherDeliveredKeeps(w);
    if c.state.Joining? {
      forall p ensures HasFate(Delivered(w), c.state.join, S.JoinOk(p)) ==> HasFate(w, c.state.join, S.JoinOk(p)) {
        DeliveryMovesFate(w, c.state.join, S.JoinOk(p));
      }
    }
    hide Broadcasts.Announcements, HasFate, Delivered;
  }

  lemma OtherDelivered(w: World, c: Channel)
    requires w.outbox != [] && !w.outbox[0].Announce? && AnnouncedFirst(w.outbox)
    requires C.Live(c.state) && CalmChannel(w, c)
    ensures CalmChannel(Delivered(w), c)
  {
    OtherDeliveredKeeps(w);
    OtherDeliveredHears(w, c);
    OtherDeliveredRouted(w, c);
    hide Broadcasts.Announcements, Delivered, HearsBeforeFailing, IsRouted;
  }

  /** Once a join failed by a disconnect is next to be delivered, the announcement has been. */
  lemma NothingUndelivered(w: World)
    requires w.outbox != [] && SaysDisconnected(w.outbox[0]) && AnnouncedFirst(w.outbox)
    ensures Undelivered(w) == []
  {
    forall o | o in w.outbox ensures !o.Announce? {
      var b :| 0 <= b < |w.outbox| && w.outbox[b] == o;
    }
    Broadcasts.NoAnnouncements(w.outbox);
  }

  lemma DeliverStaysCalm(w: World)
    requires CalmInvariant(w) && w.outbox != [] && NoLag(w, Deliver)
    ensures CalmInvariant(Delivered(w))
  {
    var next := Delivered(w);
    assert AnnouncedFirst(next.outbox) by {
      assert forall i | 0 <= i < |next.outbox| :: next.outbox[i] == w.outbox[i + 1];
    }
    if !w.socket.Failed? {
      forall id | id in next.channels ensures CalmChannel(next, next.channels[id]) {
        var c := w.channels[id];
        if C.Live(c.state) {
          assert CalmChannel(w, c);
          if w.outbox[0].Announce? {
            AnnouncementDelivered(w, c);
          } else {
            OtherDelivered(w, c);
          }
        }
      }
    }
    hide Agrees, HearsBeforeFailing, IsRouted, AnnouncedFirst;
  }

  lemma SpawnStaysCalm(w: World, id: nat, key: S.JoinKey, payload: Payload)
    requires CalmInvariant(w) && Enabled(w, Spawn(id, key, payload))
    ensures CalmInvariant(Next(w, Spawn(id, key, payload)))
  {
    var next := Next(w, Spawn(id, key, payload));
    if !w.socket.Failed? {
      forall other | other in next.channels ensures CalmChannel(next, next.channels[other]) {
        if other != id {
          OthersStayCalm(w, next, w.channels[other]);
        }
      }
    }
  }

  lemma AskShutdownStaysCalm(w: World, id: nat)
    requires CalmInvariant(w) && id in w.channels
    ensures CalmInvariant(Next(w, AskShutdown(id)))
  {
    var next := Next(w, AskShutdown(id));
    if !w.socket.Failed? {
      forall other | other in next.channels ensures CalmChannel(next, next.channels[other]) {
        var c, c' := w.channels[other], next.channels[other];
        OthersStayCalm(w, next, c);
        assert c'.state == c.state && c'.unread == c.unread && c'.key == c.key;
      }
    }
    hide Broadcasts.Announcements, HasFate;
  }

  // ---------------------------------------------------------------------------------- socket moves

  lemma SocketStepAgrees(w: World, step: S.Step, c: Channel)
    requires Enabled(w, SocketStep(step)) && Agrees(w, c) && !AfterSocket(w, step).socket.Failed?
    ensures Agrees(AfterSocket(w, step), c)
  {
    hide S.Iterate, S.Enabled, WillBelieve, C.Believes;
    Broadcasts.StepAnnounces(w.strategy, w.socket, step);
    Broadcasts.StatesFollow(w.strategy, w.socket, step);
    assert Undelivered(w) == [];
    hide Broadcasts.Announcements;
  }

  lemma SocketStepHearsBeforeFailing(w: World, step: S.Step, c: Channel)
    requires Enabled(w, SocketStep(step)) && HearsBeforeFailing(w, c)
    ensures HearsBeforeFailing(AfterSocket(w, step), c)
  {
    hide S.Iterate, S.Enabled, Broadcasts.Announcements;
    if c.state.Joining? {
      FailedJoinsAreAnnounced(w.strategy, w.socket, step, c.state.join);
    }
  }

  lemma FailedJoinsAreAnnounced(strategy: bool, s: S.State, step: S.Step, j: S.SenderId)
    requires S.Enabled(s, step)
    ensures var outputs := S.Iterate(strategy, s, step).outputs;
            S.EndJoin(j, S.JoinDisconnected) in outputs ==> Broadcasts.Announcements(outputs) != []
  {
    hide S.Iterate, S.Enabled, Broadcasts.Announcements;
    if S.EndJoin(j, S.JoinDisconnected) in S.Iterate(strategy, s, step).outputs {
      Answers.JoinEndsHaveCauses(strategy, s, step, S.EndJoin(j, S.JoinDisconnected));
      Broadcasts.StepAnnounces(strategy, s, step);
    }
  }

  lemma SocketStepIsRouted(w: World, step: S.Step, c: Channel)
    requires Enabled(w, SocketStep(step)) && RoutingInvariant(w) && ChannelInvariant(w, c)
    requires C.Live(c.state) && CalmChannel(w, c) && !AfterSocket(w, step).socket.Failed?
    ensures IsRouted(AfterSocket(w, step), c)
  {
    var next := AfterSocket(w, step);
    SocketStepAgrees(w, step, c);
    assert Undelivered(w) == [];
    if c.unread.None? && Undelivered(next) == [] && Accepted(next, c) {
      var j := C.Attempt(c.state).value;
      Broadcasts.StepAnnounces(w.strategy, w.socket, step);
      assert w.socket.Connected? && next.socket.Connected?;
      if Accepted(w, c) {
        RouteIsKept(w, step, c, j);
      } else {
        var p :| HasFate(next, j, S.JoinOk(p));
        NewRoute(w, step, c, j, p);
      }
    }
    hide S.Iterate, S.Enabled, Broadcasts.Announcements;
  }

  lemma RouteIsKept(w: World, step: S.Step, c: Channel, j: S.SenderId)
    requires Enabled(w, SocketStep(step)) && RoutingInvariant(w) && AttemptInvariant(w, c, j)
    requires w.socket.Connected? && AfterSocket(w, step).socket.Connected?
    requires RoutesTo(w.socket.connection, c.key, j) && (c.state.Joined? || Resolved(w, j))
    ensures RoutesTo(AfterSocket(w, step).socket.connection, c.key, j)
  {
    EntriesHaveCauses(w.socket.connection, step, c.key);
    if TakesCommand(step.input) {
      OwnCommandIsNotLater(w, step, c, j);
    }
    assert j < w.frontier;
    hide S.StepConnected;
  }

  lemma NewRoute(w: World, step: S.Step, c: Channel, j: S.SenderId, p: Payload)
    requires Enabled(w, SocketStep(step)) && RoutingInvariant(w) && AttemptInvariant(w, c, j)
    requires w.socket.Connected? && AfterSocket(w, step).socket.Connected?
    requires HasFate(AfterSocket(w, step), j, S.JoinOk(p)) && !HasFate(w, j, S.JoinOk(p))
    ensures RoutesTo(AfterSocket(w, step).socket.connection, c.key, j)
  {
    AcceptedJoinIsRegistered(w.socket.connection, step, j, p);
    hide S.StepConnected;
  }

  lemma SocketStepStaysCalm(w: World, step: S.Step)
    requires RoutingInvariant(w) && CalmInvariant(w) && Enabled(w, SocketStep(step))
    ensures CalmInvariant(AfterSocket(w, step))
  {
    var next := AfterSocket(w, step);
    StepAnnouncesFirst(w.strategy, w.socket, step);
    Broadcasts.StatesFollow(w.strategy, w.socket, step);
    if !next.socket.Failed? {
      forall id | id in next.channels ensures CalmChannel(next, next.channels[id]) {
        var c := w.channels[id];
        if C.Live(c.state) {
          SocketStepAgrees(w, step, c);
          SocketStepHearsBeforeFailing(w, step, c);
          SocketStepIsRouted(w, step, c);
        }
      }
    }
    hide S.Iterate, S.Enabled, Agrees, HearsBeforeFailing, IsRouted, AnnouncedFirst;
  }

  // ---------------------------------------------------------------------------------- runs

  lemma {:induction false} CalmRunKeepsInvariant(strategy: bool, moves: seq<Move>)
    requires IsRun(strategy, moves) && IsCalmRun(strategy, moves)
    ensures CalmInvariant(At(strategy, moves))
  {
    if |moves| == 0 {
    } else {
      var before, move := At(strategy, moves[..|moves| - 1]), moves[|moves| - 1];
      CalmRunKeepsInvariant(strategy, moves[..|moves| - 1]);
      RunKeepsRouting(strategy, moves[..|moves| - 1]);
      match move
      case SocketStep(step) => SocketStepStaysCalm(before, step);
      case Deliver => DeliverStaysCalm(before);
      case Spawn(id, key, payload) => SpawnStaysCalm(before, id, key, payload);
      case AskShutdown(id) => AskShutdownStaysCalm(before, id);
      case ChannelStep(id, input) => ChannelStepStaysCalm(before, id, input);
    }
    hide CalmInvariant, RoutingInvariant;
  }

  /**
   Connectivity agreement. Between socket iterations, what a live channel believes, updated by the event
   it has not read yet, is what the socket is; with nothing unread it waits for the socket exactly when
   the socket is not connected.
   */
  lemma ChannelsAgreeWithSocket(strategy: bool, moves: seq<Move>, id: nat)
    requires IsRun(strategy, moves) && IsCalmRun(strategy, moves)
    ensures var w := At(strategy, moves);
            !w.socket.Failed? && w.outbox == [] && id in w.channels && C.Live(w.channels[id].state) ==>
              var c := w.channels[id];
              && WillBelieve(c) == w.socket.Connected?
              && (c.unread.None? ==> (c.state.WaitingForSocketToConnect? <==> !w.socket.Connected?))
  {
    CalmRunKeepsInvariant(strategy, moves);
    hide IsRun, IsCalmRun, RoutingInvariant;
  }

  /** A channel hears Up only while waiting for the socket and Down only otherwise, so the arms that
      expect Up in any other state, Joined and Leaving among them, are never taken. */
  lemma UpIsHeardOnlyWhileWaiting(strategy: bool, moves: seq<Move>, id: nat, event: S.Connectivity)
    requires IsRun(strategy, moves) && IsCalmRun(strategy, moves)
    ensures var w := At(strategy, moves);
            !w.socket.Failed? && Enabled(w, ChannelStep(id, C.Hear(event))) ==>
              (event.Up? <==> w.channels[id].state.WaitingForSocketToConnect?)
  {
    CalmRunKeepsInvariant(strategy, moves);
    hide IsRun, IsCalmRun, RoutingInvariant;
  }

  /** A joined channel with nothing unread gets the pushes for its topic and join reference. */
  lemma JoinedIsRouted(strategy: bool, moves: seq<Move>, id: nat, push: Message)
    requires IsRun(strategy, moves) && IsCalmRun(strategy, moves)
    ensures var w := At(strategy, moves);
            && !w.socket.Failed? && w.outbox == []
            && id in w.channels && w.channels[id].state.Joined? && w.channels[id].unread.None?
            && push.PushMessage? && (push.topic, push.joinReference) == w.channels[id].key ==>
              && w.socket.Connected?
              && S.HandleMessage(w.socket.connection, push).1
                 == [S.RelayPush(w.channels[id].state.join, push)]
  {
    CalmRunKeepsInvariant(strategy, moves);
    hide IsRun, IsCalmRun, RoutingInvariant;
  }

  /** A channel whose join was failed by a disconnect hears of the disconnect before it can rejoin:
      its next step is to hear Down, or to shut down. */
  lemma DisconnectIsHeardBeforeRejoining(strategy: bool, moves: seq<Move>, id: nat, input: C.Input)
    requires IsRun(strategy, moves) && IsCalmRun(strategy, moves)
    ensures var w, failing := At(strategy, moves), ChannelStep(id, C.JoinEnds(S.JoinDisconnected));
            !w.socket.Failed? && Enabled(w, failing)
            && Ready(Next(w, failing), Next(w, failing).channels[id], input) ==>
              input.RequestShutdown? || (input.Hear? && input.event.Down?)
  {
    hide IsRouted, C.ReplyJoins, Broadcasts.Announcements, S.Iterate, S.Enabled, IsRun, IsCalmRun, RoutingInvariant;
    CalmRunKeepsInvariant(strategy, moves);
    var w := At(strategy, moves);
    assert !w.socket.Failed? && id in w.channels ==> CalmChannel(w, w.channels[id]);
  }

  // ---------------------------------------------------------------------------------- rejoining

  /** The channel has been told to stay out, or is about to read that it has. */
  ghost predicate Quiet(c: Channel) {
    || c.state == C.WaitingForSocketToConnect(None)
    || c.state.WaitingToJoin? || c.state.Left? || !C.Live(c.state)
    || (c.unread == Some(Unread(S.Down(S.Disconnect), false)) && !c.state.WaitingForSocketToConnect?)
  }

  /** What silences a channel: the socket's broadcast that it was disconnected on request reaches it, or
      it arrives in Left. */
  ghost predicate Silences(w: World, move: Move, id: nat)
    requires Enabled(w, move)
  {
    && id in Next(w, move).channels
    && (|| (move.Deliver? && w.outbox[0] == S.Announce(S.Down(S.Disconnect)) && id in w.channels)
        || Next(w, move).channels[id].state.Left?)
  }

  lemma SilencedIsQuiet(w: World, move: Move, id: nat)
    requires CalmInvariant(w) && !w.socket.Failed? && Enabled(w, move) && NoLag(w, move)
    requires Silences(w, move, id)
    ensures Quiet(Next(w, move).channels[id])
  {
    if !Next(w, move).channels[id].state.Left? {
      assert CalmChannel(w, w.channels[id]);
      HeadAnnounces(w.outbox);
      hide Broadcasts.Announcements;
    }
  }

  /** Quiet ends only when the channel takes an explicit join. */
  lemma QuietLasts(w: World, move: Move, id: nat)
    requires Enabled(w, move) && NoLag(w, move) && id in w.channels && Quiet(w.channels[id])
    requires !(move.ChannelStep? && move.id == id && move.input.TakeJoin?)
    ensures id in Next(w, move).channels && Quiet(Next(w, move).channels[id])
    ensures !(move.ChannelStep? && move.id == id && move.input.RejoinDue?)
  {
    hide C.ReplyJoins, C.ReplyLeaves, S.Iterate;
  }

  /** The channel takes no explicit join from here on. */
  ghost predicate NoJoinTaken(moves: seq<Move>, from: nat, id: nat) {
    forall i | from <= i < |moves| :: !(moves[i].ChannelStep? && moves[i].id == id && moves[i].input.TakeJoin?)
  }

  lemma {:induction false} QuietLastsAlong(strategy: bool, moves: seq<Move>, from: nat, id: nat)
    requires IsRun(strategy, moves) && IsCalmRun(strategy, moves) && from <= |moves|
    requires IsRun(strategy, moves[..from])
    requires id in At(strategy, moves[..from]).channels && Quiet(At(strategy, moves[..from]).channels[id])
    requires NoJoinTaken(moves, from, id)
    ensures id in At(strategy, moves).channels && Quiet(At(strategy, moves).channels[id])
  {
    hide Quiet, Next, Enabled, NoLag;
    if from == |moves| {
      assert moves[..from] == moves;
    } else {
      var shorter := moves[..|moves| - 1];
      assert shorter[..from] == moves[..from];
      QuietLastsAlong(strategy, shorter, from, id);
      QuietLasts(At(strategy, shorter), moves[|moves| - 1], id);
    }
  }

  lemma {:induction false} CalmPrefix(strategy: bool, moves: seq<Move>, n: nat)
    requires IsRun(strategy, moves) && IsCalmRun(strategy, moves) && n <= |moves|
    ensures IsRun(strategy, moves[..n]) && IsCalmRun(strategy, moves[..n])
    ensures n < |moves| ==> Enabled(At(strategy, moves[..n]), moves[n]) && NoLag(At(strategy, moves[..n]), moves[n])
  {
    hide Next, Enabled, NoLag;
    PrefixIsRun(strategy, moves, n);
    if n == |moves| {
      assert moves[..n] == moves;
    } else {
      var shorter := moves[..|moves| - 1];
      assert shorter[..n] == moves[..n];
      if n < |shorter| {
        CalmPrefix(strategy, shorter, n);
      }
    }
  }

  /** The move is a step in which the channel asks the socket to join. */
  ghost predicate AsksToJoin(w: World, move: Move, id: nat)
    requires Enabled(w, move)
  {
    && move.ChannelStep? && move.id == id
    && exists command :: command in Requested(w.channels[id], C.Iterate(w.channels[id].state, move.input).outputs)
                         && command.JoinCommand?
  }

  lemma OnlyJoinsAsk(w: World, move: Move, id: nat)
    requires Enabled(w, move) && AsksToJoin(w, move, id)
    ensures move.ChannelStep? && move.id == id && (move.input.TakeJoin? || move.input.RejoinDue?)
  {
    hide C.ReplyJoins, C.ReplyLeaves;
    FanOutsAskNothing(w.channels[id]);
  }

  lemma QuietAsksNothing(w: World, move: Move, id: nat)
    requires Enabled(w, move) && NoLag(w, move) && id in w.channels && Quiet(w.channels[id])
    requires !(move.ChannelStep? && move.id == id && move.input.TakeJoin?)
    ensures !AsksToJoin(w, move, id)
  {
    hide Enabled, NoLag, Quiet, AsksToJoin, Next;
    QuietLasts(w, move, id);
    if AsksToJoin(w, move, id) {
      OnlyJoinsAsk(w, move, id);
    }
  }

  lemma SilencedStaysQuiet(strategy: bool, moves: seq<Move>, silenced: nat, id: nat)
    requires IsRun(strategy, moves) && IsCalmRun(strategy, moves) && silenced < |moves|
    requires IsRun(strategy, moves[..silenced]) && Enabled(At(strategy, moves[..silenced]), moves[silenced])
    requires !At(strategy, moves[..silenced]).socket.Failed?
    requires Silences(At(strategy, moves[..silenced]), moves[silenced], id)
    requires NoJoinTaken(moves, silenced + 1, id)
    ensures id in At(strategy, moves).channels && Quiet(At(strategy, moves).channels[id])
  {
    hide IsRun, IsCalmRun, At, Next, Quiet, CalmInvariant, RoutingInvariant, Enabled, NoLag, NoJoinTaken;
    CalmPrefix(strategy, moves, silenced);
    CalmRunKeepsInvariant(strategy, moves[..silenced]);
    SilencedIsQuiet(At(strategy, moves[..silenced]), moves[silenced], id);
    PrefixIsRun(strategy, moves, silenced);
    QuietLastsAlong(strategy, moves, silenced + 1, id);
  }

  /**
   No unwanted rejoin: once the socket's disconnect has reached a channel, or the channel has left, even if
   it was joining at that moment, no later move of it asks the socket to join before it has taken an
   explicit join.
   */
  lemma NoUnwantedRejoin(strategy: bool, moves: seq<Move>, silenced: nat, id: nat, move: Move)
    requires IsRun(strategy, moves) && IsCalmRun(strategy, moves) && silenced < |moves|
    ensures IsRun(strategy, moves[..silenced]) && Enabled(At(strategy, moves[..silenced]), moves[silenced])
    ensures var before, now := At(strategy, moves[..silenced]), At(strategy, moves);
            && !before.socket.Failed? && Silences(before, moves[silenced], id)
            && Enabled(now, move) && NoLag(now, move)
            && NoJoinTaken(moves, silenced + 1, id)
            && !(move.ChannelStep? && move.id == id && move.input.TakeJoin?) ==>
              !AsksToJoin(now, move, id)
  {
    hide IsRun, IsCalmRun, At, Next, Quiet, Enabled, NoLag, AsksToJoin, Silences, NoJoinTaken;
    CalmPrefix(strategy, moves, silenced);
    var before, now := At(strategy, moves[..silenced]), At(strategy, moves);
    if && !before.socket.Failed? && Silences(before, moves[silenced], id)
       && Enabled(now, move) && NoLag(now, move)
       && NoJoinTaken(moves, silenced + 1, id)
       && !(move.ChannelStep? && move.id == id && move.input.TakeJoin?)
    {
      SilencedStaysQuiet(strategy, moves, silenced, id);
      QuietAsksNothing(now, move, id);
    }
  }
}
