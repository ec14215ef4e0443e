/**
 Every run of the socket with any channels, lagging or not: what a channel has last been told about connectivity,
 when it is wrong about it, and when it can take nothing any more. A channel that is too slow to read an event before
 the next one loses the first, and hears the next only in a later select (src/rust/socket/listener.rs,
 src/rust/channel/listener.rs).
 */
module LagRuns {
  import opened World
  import opened Agreement
  import Broadcasts = SocketBroadcast
  import S = SocketProtocol
  import C = ChannelProtocol

  // ---------------------------------------------------------------------------------- being misled

  /** The last event the channel heard is Up, and it was joined when it heard it. */
  ghost predicate Misled(strategy: bool, moves: seq<Move>, id: nat)
    requires IsRun(strategy, moves)
  {
    if |moves| == 0 then false
    else
      var last := |moves| - 1;
      MisledBy(At(strategy, moves[..last]), moves[last], id, Misled(strategy, moves[..last], id))
  }

  ghost predicate MisledBy(w: World, move: Move, id: nat, before: bool)
    requires Enabled(w, move)
  {
    if move.ChannelStep? && move.id == id && move.input.Hear? then
      move.input.event.Up? && w.channels[id].state.Joined?
    else before
  }

  /** Whether the last announcement that reached the channel, read or not, was Up. */
  ghost predicate LastTold(c: Channel, misled: bool) {
    if c.unread.Some? then c.unread.value.event.Up? else misled || C.Believes(c.state)
  }

  /** What has been announced leads, delivered or not, to the socket's real state; a misled channel waits for the
      socket; and a channel that waits for it has Down to read exactly when it is misled. */
  ghost predicate Tracks(w: World, c: Channel, misled: bool) {
    C.Live(c.state) ==>
      && |Undelivered(w)| <= 1
      && (Undelivered(w) == [] ==> LastTold(c, misled) == w.socket.Connected?)
      && (Undelivered(w) != [] ==>
            Undelivered(w)[0].Up? != LastTold(c, misled) && Undelivered(w)[0].Up? == w.socket.Connected?)
      && (misled ==> c.state.WaitingForSocketToConnect?)
      && (c.state.WaitingForSocketToConnect? && c.unread.Some? && !c.unread.value.lagged ==>
            (c.unread.value.event.Down? <==> misled))
  }

  /** What hearing an event does: the channel then believes what it heard, unless it was joined and heard Up. */
  lemma HeardIsBelieved(w: World, id: nat, event: S.Connectivity)
    requires Enabled(w, ChannelStep(id, C.Hear(event)))
    ensures var s := w.channels[id].state;
            C.Believes(C.Iterate(s, C.Hear(event)).state) == event.Up? <==> !(event.Up? && s.Joined?)
  {
    hide C.ReplyJoins, C.ReplyLeaves;
  }

  lemma StepperTracks(w: World, id: nat, input: C.Input, misled: bool)
    requires Enabled(w, ChannelStep(id, input)) && Tracks(w, w.channels[id], misled)
    ensures Tracks(AfterChannel(w, id, input), AfterChannel(w, id, input).channels[id],
                   MisledBy(w, ChannelStep(id, input), id, misled))
  {
    hide C.ReplyJoins, C.ReplyLeaves, Broadcasts.Announcements, Requested;
  }

  lemma DeliveredTracks(w: World, c: Channel, misled: bool)
    requires w.outbox != [] && Tracks(w, c, misled)
    ensures Tracks(Delivered(w), if w.outbox[0].Announce? then Hears(c, w.outbox[0].event) else c, misled)
  {
    hide Broadcasts.Announcements;
    HeadAnnounces(w.outbox);
    if !w.outbox[0].Announce? {
      OtherDeliveredKeeps(w);
    }
  }

  lemma SocketTracks(w: World, step: S.Step, c: Channel, misled: bool)
    requires Enabled(w, SocketStep(step)) && Tracks(w, c, misled) && !AfterSocket(w, step).socket.Failed?
    ensures Tracks(AfterSocket(w, step), c, misled)
  {
    hide S.Iterate, S.Enabled, LastTold;
    Broadcasts.StepAnnounces(w.strategy, w.socket, step);
    Broadcasts.StatesFollow(w.strategy, w.socket, step);
    assert Undelivered(w) == [];
    hide Broadcasts.Announcements;
  }

  ghost predicate AllTrack(strategy: bool, moves: seq<Move>)
    requires IsRun(strategy, moves)
  {
    var w := At(strategy, moves);
    && (!w.socket.Failed? ==> forall id | id in w.channels :: Tracks(w, w.channels[id], Misled(strategy, moves, id)))
    && (forall id | id !in w.channels :: !Misled(strategy, moves, id))
  }

  lemma BystanderTracks(w: World, next: World, c: Channel, c': Channel, misled: bool)
    requires Tracks(w, c, misled) && next.outbox == w.outbox && next.socket == w.socket
    requires c'.state == c.state && c'.unread == c.unread
    ensures Tracks(next, c', misled)
  {
    hide Broadcasts.Announcements;
  }

  lemma MoveTracks(w: World, move: Move, id: nat, misled: bool)
    requires Enabled(w, move) && !Next(w, move).socket.Failed?
    requires id in w.channels && Tracks(w, w.channels[id], misled)
    ensures id in Next(w, move).channels
    ensures Tracks(Next(w, move), Next(w, move).channels[id], MisledBy(w, move, id, misled))
  {
    hide C.Iterate, S.Iterate, S.Enabled, Tracks;
    var next := Next(w, move);
    match move
    case SocketStep(step) => SocketTracks(w, step, w.channels[id], misled);
    case Deliver => DeliveredTracks(w, w.channels[id], misled);
    case ChannelStep(other, input) =>
      if other == id {
        StepperTracks(w, id, input, misled);
      } else {
        BystanderTracks(w, next, w.channels[id], next.channels[id], misled);
      }
    case _ => BystanderTracks(w, next, w.channels[id], next.channels[id], misled);
  }

  lemma SpawnedTracks(w: World, id: nat, key: S.JoinKey, payload: Messages.Payload)
    requires Enabled(w, Spawn(id, key, payload))
    ensures Tracks(Next(w, Spawn(id, key, payload)), Next(w, Spawn(id, key, payload)).channels[id], false)
  {
  }

  lemma FailedStaysFailed(w: World, move: Move)
    requires Enabled(w, move)
    ensures w.socket.Failed? ==> Next(w, move).socket.Failed?
    ensures forall id | id in w.channels :: id in Next(w, move).channels
    ensures forall id | id in Next(w, move).channels && id !in w.channels :: move.Spawn? && move.id == id
  {
    hide S.Iterate, C.Iterate;
  }

  lemma {:induction false} RunTracks(strategy: bool, moves: seq<Move>)
    requires IsRun(strategy, moves)
    ensures AllTrack(strategy, moves)
  {
    hide Tracks, Enabled, Next;
    if |moves| == 0 {
    } else {
      var before, move := moves[..|moves| - 1], moves[|moves| - 1];
      RunTracks(strategy, before);
      var w, next := At(strategy, before), At(strategy, moves);
      FailedStaysFailed(w, move);
      forall id | !next.socket.Failed? && id in next.channels
        ensures Tracks(next, next.channels[id], Misled(strategy, moves, id))
      {
        if id in w.channels {
          MoveTracks(w, move, id, Misled(strategy, before, id));
        } else {
          SpawnedTracks(w, id, move.key, move.payload);
        }
      }
      forall id | id !in next.channels ensures !Misled(strategy, moves, id) {
        StrangersAreNotMisled(w, move, id);
      }
    }
  }

  lemma StrangersAreNotMisled(w: World, move: Move, id: nat)
    requires Enabled(w, move) && id !in w.channels
    ensures !MisledBy(w, move, id, false)
  {
  }

  /**
   Connectivity agreement in every run, lagging or not. Between socket iterations, a live channel with nothing
   unread is wrong about the socket exactly when the last event it heard was Up and it was joined when it heard it.
   It then waits for a socket that is connected.
   */
  lemma WrongExactlyWhenMisled(strategy: bool, moves: seq<Move>, id: nat)
    requires IsRun(strategy, moves)
    ensures var w := At(strategy, moves);
            !w.socket.Failed? && w.outbox == [] && id in w.channels && C.Live(w.channels[id].state)
            && w.channels[id].unread.None? ==>
              && (C.Believes(w.channels[id].state) != w.socket.Connected? <==> Misled(strategy, moves, id))
              && (Misled(strategy, moves, id) ==>
                    w.channels[id].state.WaitingForSocketToConnect? && w.socket.Connected?)
  {
    hide IsRun, Misled;
    RunTracks(strategy, moves);
  }

  /** In every run, a channel that waits for the socket hears Down exactly when it is misled: otherwise the next
      thing it hears is Up. So only a misled channel keeps an intent to rejoin through a requested disconnect. */
  lemma WaiterHearsDownExactlyWhenMisled(strategy: bool, moves: seq<Move>, id: nat, event: S.Connectivity)
    requires IsRun(strategy, moves)
    ensures var w := At(strategy, moves);
            !w.socket.Failed? && Enabled(w, ChannelStep(id, C.Hear(event)))
            && w.channels[id].state.WaitingForSocketToConnect? ==>
              (event.Down? <==> Misled(strategy, moves, id))
  {
    hide IsRun, Misled;
    RunTracks(strategy, moves);
  }

  // ---------------------------------------------------------------------------------- being stuck

  /** The channel waits for the socket and lost the event it was waiting for. */
  ghost predicate Stuck(w: World, id: nat) {
    && id in w.channels
    && w.channels[id].state.WaitingForSocketToConnect?
    && w.channels[id].unread.Some? && w.channels[id].unread.value.lagged
  }

  /**
   When a channel that waits for the socket can go on. In every run, between socket iterations and unless it is asked
   to shut down, it has a ready arm exactly when it is not stuck and is connected, or misled, but not both: it waits
   for a connected socket, or is misled about one that no longer is. So with a connected socket it has one exactly when
   it is neither stuck nor misled.
   */
  lemma WaiterIsReadyExactly(strategy: bool, moves: seq<Move>, id: nat)
    requires IsRun(strategy, moves)
    ensures var w := At(strategy, moves);
            && !w.socket.Failed? && w.outbox == [] && id in w.channels
            && w.channels[id].state.WaitingForSocketToConnect? && !w.channels[id].shutdownRequested ==>
              ((exists input :: Enabled(w, ChannelStep(id, input)))
               <==> !Stuck(w, id) && (w.socket.Connected? <==> !Misled(strategy, moves, id)))
  {
    hide IsRun, Misled;
    RunTracks(strategy, moves);
    var w := At(strategy, moves);
    if id in w.channels && w.channels[id].unread.Some? {
      var hear := C.Hear(w.channels[id].unread.value.event);
      assert w.channels[id].state.WaitingForSocketToConnect? && !w.channels[id].shutdownRequested && !Stuck(w, id) ==>
          Enabled(w, ChannelStep(id, hear));
    }
  }

  /** What makes a channel stuck: nothing but an announcement that reaches it while it waits for the socket and has not
      read the one before. */
  lemma BecomesStuck(w: World, id: nat, move: Move)
    requires Enabled(w, move) && !Stuck(w, id)
    ensures Stuck(Next(w, move), id)
            <==> && id in w.channels && move.Deliver? && w.outbox[0].Announce?
                 && w.channels[id].state.WaitingForSocketToConnect? && w.channels[id].unread.Some?
  {
    hide S.Iterate, C.ReplyJoins, C.ReplyLeaves;
  }

  lemma StuckTakesNothing(w: World, id: nat, move: Move)
    requires Stuck(w, id) && Enabled(w, move) && !Next(w, move).channels[id].shutdownRequested
    ensures !(move.ChannelStep? && move.id == id)
    ensures Stuck(Next(w, move), id) && Next(w, move).channels[id].state == w.channels[id].state
    ensures !w.channels[id].shutdownRequested
  {
    hide S.Iterate, C.Iterate;
  }

  /**
   A channel that waits for the socket and lags takes nothing and stays as it is, whatever the socket goes on to
   announce, until it is asked to shut down.
   */
  lemma {:induction false} StuckUntilShutdown(strategy: bool, moves: seq<Move>, from: nat, id: nat)
    requires IsRun(strategy, moves) && from <= |moves|
    ensures var w, now := Then(strategy, moves, from), At(strategy, moves);
            Stuck(w, id) && id in now.channels && !now.channels[id].shutdownRequested ==>
              && Stuck(now, id) && now.channels[id].state == w.channels[id].state
              && (forall i | from <= i < |moves| :: !(moves[i].ChannelStep? && moves[i].id == id))
              && (forall move | Enabled(now, move) :: !(move.ChannelStep? && move.id == id))
  {
    hide Enabled, Next, Stuck;
    var w, now := Then(strategy, moves, from), At(strategy, moves);
    if Stuck(w, id) && id in now.channels && !now.channels[id].shutdownRequested {
      if from == |moves| {
        assert moves[..from] == moves;
      } else {
        var before, move := moves[..|moves| - 1], moves[|moves| - 1];
        assert before[..from] == moves[..from];
        StuckIsKnown(strategy, before, from, id);
        AskedStaysAsked(At(strategy, before), move, id);
        StuckUntilShutdown(strategy, before, from, id);
        StuckTakesNothing(At(strategy, before), id, move);
      }
      forall move | Enabled(now, move) ensures !(move.ChannelStep? && move.id == id) {
        StuckHasNoArm(now, id, move);
      }
    }
  }

  lemma StuckHasNoArm(w: World, id: nat, move: Move)
    requires Stuck(w, id) && Enabled(w, move) && !w.channels[id].shutdownRequested
    ensures !(move.ChannelStep? && move.id == id)
  {
  }

  /** Channels are never forgotten. */
  lemma {:induction false} StuckIsKnown(strategy: bool, moves: seq<Move>, from: nat, id: nat)
    requires IsRun(strategy, moves) && from <= |moves| && Stuck(Then(strategy, moves, from), id)
    ensures id in At(strategy, moves).channels
  {
    hide Enabled, Next;
    if from == |moves| {
      assert moves[..from] == moves;
    } else {
      var before := moves[..|moves| - 1];
      assert before[..from] == moves[..from];
      StuckIsKnown(strategy, before, from, id);
      FailedStaysFailed(At(strategy, before), moves[|moves| - 1]);
    }
  }

  lemma AskedStaysAsked(w: World, move: Move, id: nat)
    requires Enabled(w, move) && id in w.channels
    ensures id in Next(w, move).channels
    ensures w.channels[id].shutdownRequested ==> Next(w, move).channels[id].shutdownRequested
  {
    hide S.Iterate, C.Iterate;
  }

  // ---------------------------------------------------------------------------------- joining while events pass

  /** The move tells the channel that its join was accepted. */
  ghost predicate Accepts(move: Move, id: nat) {
    move.ChannelStep? && move.id == id && move.input.JoinEnds? && move.input.fate.JoinOk?
  }

  ghost predicate JoinedAt(w: World, id: nat) {
    id in w.channels && w.channels[id].state.Joined?
  }

  lemma OnlyAcceptanceJoins(w: World, move: Move, id: nat)
    requires Enabled(w, move) && !JoinedAt(w, id) && JoinedAt(Next(w, move), id)
    ensures Accepts(move, id)
  {
    hide S.Iterate, C.ReplyJoins, C.ReplyLeaves;
  }

  /** A channel that is joined and was not has been accepted in between, and stayed joined since. */
  lemma {:induction false} JoinedSinceAccepted(strategy: bool, moves: seq<Move>, from: nat, until: nat, id: nat)
    returns (accepted: nat)
    requires IsRun(strategy, moves) && from <= until <= |moves|
    requires !JoinedAt(Then(strategy, moves, from), id) && JoinedAt(Then(strategy, moves, until), id)
    ensures from <= accepted < until && Accepts(moves[accepted], id)
    ensures forall n | accepted < n <= until :: JoinedAt(Then(strategy, moves, n), id)
    decreases until
  {
    hide Enabled, Next, JoinedAt, Accepts, Then;
    MoveByMove(strategy, moves, until - 1);
    if JoinedAt(Then(strategy, moves, until - 1), id) {
      accepted := JoinedSinceAccepted(strategy, moves, from, until - 1, id);
    } else {
      OnlyAcceptanceJoins(Then(strategy, moves, until - 1), moves[until - 1], id);
      accepted := until - 1;
    }
  }

  /**
   A channel that is joining while events pass it by comes out of a later event it hears wrong exactly when a join of
   it was accepted before, it was still joined, and that event is Up. One whose join failed comes out right.
   */
  lemma JoiningIsMisledExactly(strategy: bool, moves: seq<Move>, from: nat, until: nat, id: nat, event: S.Connectivity)
    requires IsRun(strategy, moves) && from <= until < |moves|
    ensures var w, now := Then(strategy, moves, from), Then(strategy, moves, until);
            var next := Then(strategy, moves, until + 1);
            id in w.channels && w.channels[id].state.Joining? && moves[until] == ChannelStep(id, C.Hear(event)) ==>
              && id in now.channels && id in next.channels
              && (C.Believes(next.channels[id].state) != event.Up?
                  <==> && event.Up?
                       && exists accepted :: from <= accepted < until && Accepts(moves[accepted], id)
                            && forall n | accepted < n <= until :: JoinedAt(Then(strategy, moves, n), id))
  {
    hide Next, Accepts, Then;
    var w, now := Then(strategy, moves, from), Then(strategy, moves, until);
    MoveByMove(strategy, moves, until);
    if id in w.channels && w.channels[id].state.Joining? && moves[until] == ChannelStep(id, C.Hear(event)) {
      HeardIsBelieved(now, id, event);
      NextOfHearing(now, id, event);
      if JoinedAt(now, id) {
        var accepted := JoinedSinceAccepted(strategy, moves, from, until, id);
      }
    }
  }

  lemma NextOfHearing(w: World, id: nat, event: S.Connectivity)
    requires Enabled(w, ChannelStep(id, C.Hear(event)))
    ensures id in w.channels && id in Next(w, ChannelStep(id, C.Hear(event))).channels
    ensures Next(w, ChannelStep(id, C.Hear(event))).channels[id].state
            == C.Iterate(w.channels[id].state, C.Hear(event)).state
  {
  }
}
