/**
 What every connection of every run keeps, and what that says about the deadlines of joins
 (src/rust/socket/listener.rs).
 */
module SocketTimers {
  import opened Wrappers
  import opened Messages
  import opened SocketProtocol
  import opened SocketRuns

  /** What every connection of every run keeps: joins are stored under their own topic and join
      reference and each has an unfired timer with its own deadline; joined topics have a broadcaster. */
  ghost predicate ConnectionInvariant(c: Connection) {
    && (forall k | k in c.joins :: KeyOf(c.joins[k]) == k)
    && (forall k | k in c.joins :: Timer(k, c.joins[k].deadline) in c.timers)
    && (forall k | k in c.joined :: k.0 in c.broadcasters)
  }

  ghost predicate StateInvariant(s: State) {
    s.Connected? ==> ConnectionInvariant(s.connection)
  }

  lemma ReplyKeepsInvariant(c: Connection, reply: Message)
    requires reply.ReplyMessage? && ConnectionInvariant(c)
    ensures ConnectionInvariant(HandleReply(c, reply).0)
  {}

  lemma SentJoinKeepsInvariant(c: Connection, join: PendingJoin)
    requires ConnectionInvariant(c)
    ensures var key := KeyOf(join);
            ConnectionInvariant(c.(joins := c.joins[key := join],
                                   timers := c.timers + multiset{Timer(key, join.deadline)}))
  {}

  /** A timer is only ever taken off for a key under which no join stays pending. */
  lemma TimerKeepsInvariant(c: Connection, timer: Timer)
    requires ConnectionInvariant(c)
    ensures ConnectionInvariant(JoinTimedOutAt(c, timer).0)
  {
    var c' := JoinTimedOutAt(c, timer).0;
    forall k | k in c'.joins ensures Timer(k, c'.joins[k].deadline) in c'.timers {
      assert k != timer.key;
    }
  }

  lemma SmallerKeepsInvariant(c: Connection, c': Connection)
    requires ConnectionInvariant(c) && c'.joins == c.joins && c'.timers == c.timers
    requires c'.joined.Keys <= c.joined.Keys && c.broadcasters <= c'.broadcasters
    ensures ConnectionInvariant(c')
  {}

  lemma MessageKeepsInvariant(c: Connection, m: Message)
    requires ConnectionInvariant(c)
    ensures ConnectionInvariant(HandleMessage(c, m).0)
  {
    if m.ReplyMessage? {
      ReplyKeepsInvariant(c, m);
    } else {
      SmallerKeepsInvariant(c, HandleMessage(c, m).0);
    }
    hide HandleReply;
  }

  lemma ConnectedKeepsInvariant(c: Connection, step: Step)
    requires Enabled(Connected(c), step) && ConnectionInvariant(c)
    ensures StateInvariant(StepConnected(c, step).state)
  {
    hide ConnectionInvariant, SendDisconnected, HandleMessage, JoinTimedOutAt;
    match step.input
    case TakeJoin(join, _, _) => SentJoinKeepsInvariant(c, join);
    case JoinTimerFires(timer) => TimerKeepsInvariant(c, timer);
    case ReceiveMessage(m) => MessageKeepsInvariant(c, m);
    case TakeLeave(topic, joinReference, _, _, _) =>
      SmallerKeepsInvariant(c, c.(joined := c.joined - {(topic, joinReference)}));
    case TakeCall(topic, joinReference, _, sender, reference, _) =>
      SmallerKeepsInvariant(c, c.(calls := c.calls[(topic, joinReference, reference) := sender]));
    case HeartbeatTick(reference, _) => SmallerKeepsInvariant(c, c.(heartbeat := Some(reference)));
    case _ =>
  }

  lemma StepKeepsInvariant(strategy: bool, s: State, step: Step)
    requires Enabled(s, step) && StateInvariant(s)
    ensures StateInvariant(Iterate(strategy, s, step).state)
  {
    if s.Connected? {
      ConnectedKeepsInvariant(s.connection, step);
    } else {
      var s' := StepUnconnected(strategy, s, step.input).state;
      if s'.Connected? {
        EmptyConnectionInvariant(s'.connection.connectTimeout);
      }
    }
    hide StepConnected;
  }

  lemma EmptyConnectionInvariant(timeout: nat)
    ensures ConnectionInvariant(EmptyConnection(timeout))
  {}

  lemma {:induction false} RunKeepsInvariant(strategy: bool, steps: seq<Step>)
    requires IsRun(strategy, steps)
    ensures StateInvariant(Final(strategy, steps))
  {
    if |steps| == 0 {
    } else {
      RunKeepsInvariant(strategy, steps[..|steps| - 1]);
      StepKeepsInvariant(strategy, Final(strategy, steps[..|steps| - 1]), steps[|steps| - 1]);
    }
  }

  /** Once every timer due by t has fired, no join with a deadline up to t is still pending. */
  lemma NoJoinOutlivesItsDeadline(strategy: bool, steps: seq<Step>, t: nat)
    requires IsRun(strategy, steps) && Final(strategy, steps).Connected?
    requires forall timer | timer in Final(strategy, steps).connection.timers :: timer.deadline > t
    ensures forall k | k in Final(strategy, steps).connection.joins ::
              Final(strategy, steps).connection.joins[k].deadline > t
  {
    RunKeepsInvariant(strategy, steps);
    var c := Final(strategy, steps).connection;
    forall k | k in c.joins ensures c.joins[k].deadline > t {
      assert Timer(k, c.joins[k].deadline) in c.timers;
    }
  }

  // ---------------------------------------------------------------------------------- early timeouts

  /** A timer under the key that fires before the deadline. */
  ghost predicate EarlierTimer(s: State, key: JoinKey, deadline: nat) {
    s.Connected? && exists timer :: timer in s.connection.timers && timer.key == key && timer.deadline < deadline
  }

  /** The step asks for another join under the key. */
  ghost predicate TakesJoinOf(input: Input, key: JoinKey) {
    input.TakeJoin? && KeyOf(input.join) == key
  }

  /** The last step of the run is a timer that ends the join taken by step `taken`, pending ever since, before that
      join's deadline. */
  ghost predicate TimesOutEarly(strategy: bool, run: seq<Step>, taken: nat, join: PendingJoin)
    requires IsRun(strategy, run)
  {
    && taken < |run| - 1
    && (forall n | taken < n < |run| :: HoldsJoin(After(strategy, run, n), KeyOf(join), join))
    && run[|run| - 1].input.JoinTimerFires?
    && run[|run| - 1].input.timer.key == KeyOf(join)
    && run[|run| - 1].input.timer.deadline < join.deadline
    && LastOutputs(strategy, run) == [EndJoin(join.sender, JoinTimedOut)]
  }

  ghost predicate HoldsJoin(s: State, key: JoinKey, join: PendingJoin) {
    s.Connected? && KeyOf(join) == key && key in s.connection.joins && s.connection.joins[key] == join
  }

  /** No step but another join of the same key brings an earlier timer. */
  lemma StepBringsNoEarlierTimer(strategy: bool, s: State, step: Step, key: JoinKey, deadline: nat)
    requires Enabled(s, step) && EarlierTimer(Iterate(strategy, s, step).state, key, deadline)
    requires TakesJoinOf(step.input, key) ==> step.input.join.deadline >= deadline
    ensures EarlierTimer(s, key, deadline)
  {
    hide SendDisconnected, EndJoins, EndCalls;
    var s' := Iterate(strategy, s, step).state;
    var timer :| timer in s'.connection.timers && timer.key == key && timer.deadline < deadline;
    if s.Connected? {
      TimersHaveCauses(s.connection, step, timer);
    }
  }

  lemma TimersHaveCauses(c: Connection, step: Step, timer: Timer)
    requires Enabled(Connected(c), step) && StepConnected(c, step).state.Connected?
    requires timer in StepConnected(c, step).state.connection.timers
    ensures || timer in c.timers
            || (step.input.TakeJoin? && timer == Timer(KeyOf(step.input.join), step.input.join.deadline))
  {
    hide SendDisconnected, EndJoins, EndCalls;
    if step.input.ReceiveMessage? {
    } else if step.input.TakeJoin? {
    } else {
    }
  }

  /** Whatever is taken under the key while a join stays pending there is that very join. */
  lemma OnlySameJoinIsTaken(strategy: bool, s: State, step: Step, join: PendingJoin)
    requires Enabled(s, step) && TakesJoinOf(step.input, KeyOf(join))
    requires HoldsJoin(Iterate(strategy, s, step).state, KeyOf(join), join)
    ensures step.input.join == join
  {
    hide SendDisconnected, EndJoins, EndCalls;
  }

  lemma {:induction false} NoEarlierTimerAppears(strategy: bool, run: seq<Step>, taken: nat, n: nat, join: PendingJoin)
    requires IsRun(strategy, run) && taken < n <= |run|
    requires run[taken].input.TakeJoin? && run[taken].input.join == join
    requires forall m | taken < m <= n :: HoldsJoin(After(strategy, run, m), KeyOf(join), join)
    requires EarlierTimer(After(strategy, run, n), KeyOf(join), join.deadline)
    ensures EarlierTimer(After(strategy, run, taken), KeyOf(join), join.deadline)
    decreases n
  {
    hide Iterate, Enabled, EarlierTimer, HoldsJoin, After;
    var before, step := After(strategy, run, n - 1), run[n - 1];
    StepByStep(strategy, run, n - 1);
    if TakesJoinOf(step.input, KeyOf(join)) {
      OnlySameJoinIsTaken(strategy, before, step, join);
    }
    StepBringsNoEarlierTimer(strategy, before, step, KeyOf(join), join.deadline);
    if taken < n - 1 {
      NoEarlierTimerAppears(strategy, run, taken, n - 1, join);
    }
  }

  lemma SentJoinIsHeld(strategy: bool, s: State, take: Step, timer: Timer)
    requires s.Connected? && Enabled(s, take) && take.input.TakeJoin? && take.input.sent
    ensures var s' := Iterate(strategy, s, take).state;
            && HoldsJoin(s', KeyOf(take.input.join), take.input.join)
            && (timer in s.connection.timers ==> timer in s'.connection.timers)
  {
    hide SendDisconnected, EndJoins, EndCalls, Drains;
  }

  lemma FiringEndsHeldJoin(strategy: bool, s: State, fire: Step, join: PendingJoin)
    requires Enabled(s, fire) && fire.input.JoinTimerFires? && HoldsJoin(s, fire.input.timer.key, join)
    ensures Iterate(strategy, s, fire).outputs == [EndJoin(join.sender, JoinTimedOut)]
  {
  }

  /** An earlier timer left over under the key does end the join early: right away, in particular. */
  lemma LeftoverTimerEndsJoinEarly(strategy: bool, steps: seq<Step>, take: Step, timer: Timer)
    returns (run: seq<Step>)
    requires IsRun(strategy, steps) && Enabled(Final(strategy, steps), take) && Final(strategy, steps).Connected?
    requires take.input.TakeJoin? && take.input.sent
    requires timer in Final(strategy, steps).connection.timers
    requires timer.key == KeyOf(take.input.join) && timer.deadline < take.input.join.deadline
    ensures IsRun(strategy, run) && steps + [take] <= run
    ensures TimesOutEarly(strategy, run, |steps|, take.input.join)
  {
    hide Iterate, IsRun, Drains;
    var join := take.input.join;
    ExtendRun(strategy, steps, take);
    SentJoinIsHeld(strategy, Final(strategy, steps), take, timer);
    var taken := steps + [take];
    var order := SomeOrder(Final(strategy, taken).connection);
    var fire := Step(JoinTimerFires(timer), order);
    ExtendRun(strategy, taken, fire);
    FiringEndsHeldJoin(strategy, Final(strategy, taken), fire, join);
    run := taken + [fire];
    assert run[..|run| - 1] == taken;
    assert forall n | |steps| < n < |run| :: After(strategy, run, n) == Final(strategy, taken);
  }

  /**
   Which joins a timer can end before their own deadline: in some continuation of the run one does, exactly when an
   earlier timer of the same channel was left over at the moment the join was sent. Where none was, none ever does.
   */
  lemma TimedOutEarlyExactly(strategy: bool, steps: seq<Step>, take: Step)
    requires IsRun(strategy, steps) && Enabled(Final(strategy, steps), take) && Final(strategy, steps).Connected?
    requires take.input.TakeJoin? && take.input.sent
    ensures (exists run :: IsRun(strategy, run) && steps + [take] <= run
                           && TimesOutEarly(strategy, run, |steps|, take.input.join))
            <==> EarlierTimer(Final(strategy, steps), KeyOf(take.input.join), take.input.join.deadline)
  {
    hide Iterate, Enabled;
    var join, key := take.input.join, KeyOf(take.input.join);
    if EarlierTimer(Final(strategy, steps), key, join.deadline) {
      var timer :| timer in Final(strategy, steps).connection.timers && timer.key == key
                   && timer.deadline < join.deadline;
      var run := LeftoverTimerEndsJoinEarly(strategy, steps, take, timer);
    }
    forall run | IsRun(strategy, run) && steps + [take] <= run && TimesOutEarly(strategy, run, |steps|, join)
      ensures EarlierTimer(Final(strategy, steps), key, join.deadline)
    {
      assert run[..|steps|] == steps && run[|steps|] == take;
      FiringTimerWasThere(strategy, run, join);
      NoEarlierTimerAppears(strategy, run, |steps|, |run| - 1, join);
    }
  }

  lemma FiringTimerWasThere(strategy: bool, run: seq<Step>, join: PendingJoin)
    requires IsRun(strategy, run) && |run| > 0 && run[|run| - 1].input.JoinTimerFires?
    requires run[|run| - 1].input.timer.key == KeyOf(join)
    requires run[|run| - 1].input.timer.deadline < join.deadline
    ensures EarlierTimer(After(strategy, run, |run| - 1), KeyOf(join), join.deadline)
  {
  }
}
