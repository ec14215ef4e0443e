/**
 How long the socket listener backs off before it reconnects, over every run (src/rust/socket/listener.rs).
 */
module ReconnectRuns {
  import opened Backoff
  import opened SocketProtocol
  import opened SocketRuns

  /** Waits begun, and time slept in them, since the last connection or accepted explicit attempt,
      read off the states and inputs of a run. */
  datatype Tally = Tally(timeout: nat, waits: nat, slept: nat)

  ghost function NextTally(t: Tally, s: State, input: Input, s': State): Tally {
    if s'.WaitingToReconnect? && input.TakeConnect? && !s.WaitingToReconnect? && !s.Connected? then
      Tally(input.timeout, 1, s'.sleep)
    else if s'.WaitingToReconnect? && (s.Connected? || input.ReconnectDue?) then
      Tally(t.timeout, t.waits + 1, t.slept + s'.sleep)
    else if s'.Connected? && input.TakeConnect? && !s.Connected? then Tally(input.timeout, 0, 0)
    else if s'.Connected? && !s.Connected? then Tally(t.timeout, 0, 0)
    else t
  }

  ghost function TallyOf(strategy: bool, steps: seq<Step>): Tally
    requires IsRun(strategy, steps)
  {
    if |steps| == 0 then Tally(0, 0, 0)
    else
      var last := |steps| - 1;
      NextTally(TallyOf(strategy, steps[..last]), Final(strategy, steps[..last]), steps[last].input,
                Final(strategy, steps))
  }

  ghost predicate TallyAgrees(strategy: bool, s: State, t: Tally) {
    match s
    case Connected(c) => t == Tally(c.connectTimeout, 0, 0)
    case WaitingToReconnect(_, reconnect) =>
      && t.waits > 0
      && reconnect == Retry(t.timeout, Min(t.waits, MAX_ATTEMPTS))
      && (!strategy ==> t.slept == TotalSleep(t.timeout, t.waits))
    case _ => true
  }

  lemma StepKeepsTally(strategy: bool, s: State, step: Step, t: Tally)
    requires Enabled(s, step) && TallyAgrees(strategy, s, t)
    ensures var s' := Iterate(strategy, s, step).state;
            TallyAgrees(strategy, s', NextTally(t, s, step.input, s'))
  {
    hide SendDisconnected, EndJoins, EndCalls, TotalSleep, SleepDuration, Next;
    OneMoreWait(t.timeout, t.waits);
    if step.input.TakeConnect? {
      OneMoreWait(step.input.timeout, 0);
      assert TotalSleep(step.input.timeout, 0) == 0 by { ZeroSleep(step.input.timeout); }
    }
    ZeroSleep(t.timeout);
  }

  lemma ZeroSleep(timeout: nat)
    ensures TotalSleep(timeout, 0) == 0
  {}

  /**
   After n waits in a row the stored attempts are min(n, 65535), the timeout is still that of the
   last explicit attempt, and without a user strategy the time slept is the closed form.
   */
  lemma {:induction false} ReconnectBackoff(strategy: bool, steps: seq<Step>)
    requires IsRun(strategy, steps)
    ensures TallyAgrees(strategy, Final(strategy, steps), TallyOf(strategy, steps))
  {
    if |steps| == 0 {
    } else {
      var last := |steps| - 1;
      ReconnectBackoff(strategy, steps[..last]);
      StepKeepsTally(strategy, Final(strategy, steps[..last]), steps[last],
                     TallyOf(strategy, steps[..last]));
    }
  }

  // ---------------------------------------------------------------------------------- disconnecting

  /** The run goes on from `from` without an explicit connect, and its last step announces Up. */
  ghost predicate ReconnectsUnasked(strategy: bool, run: seq<Step>, from: nat)
    requires IsRun(strategy, run)
  {
    && from < |run|
    && (forall i | from <= i < |run| :: !run[i].input.TakeConnect?)
    && Announce(Up) in LastOutputs(strategy, run)
  }

  lemma OnlyConnectsAnnounceUp(strategy: bool, s: State, step: Step)
    requires Enabled(s, step) && !step.input.TakeConnect?
    ensures s.WaitingToReconnect? || s.Connected? || !Iterate(strategy, s, step).state.WaitingToReconnect?
    ensures !s.WaitingToReconnect? && !s.Connected? ==>
              && !Iterate(strategy, s, step).state.Connected?
              && Announce(Up) !in Iterate(strategy, s, step).outputs
  {
    hide StepConnected;
  }

  lemma {:induction false} StaysDown(strategy: bool, steps: seq<Step>, run: seq<Step>)
    requires IsRun(strategy, steps) && IsRun(strategy, run) && |run| >= |steps| && run[..|steps|] == steps
    requires !Final(strategy, steps).WaitingToReconnect? && !Final(strategy, steps).Connected?
    requires forall i | |steps| <= i < |run| :: !run[i].input.TakeConnect?
    ensures !Final(strategy, run).WaitingToReconnect? && !Final(strategy, run).Connected?
    ensures |run| > |steps| ==> Announce(Up) !in LastOutputs(strategy, run)
  {
    hide Iterate;
    if |run| == |steps| {
      assert run == steps;
    } else {
      var shorter := run[..|run| - 1];
      assert shorter[..|steps|] == steps;
      StaysDown(strategy, steps, shorter);
      OnlyConnectsAnnounceUp(strategy, Final(strategy, shorter), run[|run| - 1]);
    }
  }

  lemma StaysDownUnasked(strategy: bool, down: seq<Step>, run: seq<Step>)
    requires IsRun(strategy, down) && IsRun(strategy, run) && down <= run
    requires !Final(strategy, down).WaitingToReconnect? && !Final(strategy, down).Connected?
    ensures !ReconnectsUnasked(strategy, run, |down|)
  {
    hide IsRun, Iterate;
    if ReconnectsUnasked(strategy, run, |down|) {
      StaysDown(strategy, down, run);
    }
  }

  /** When the wait is over, an attempt that succeeds announces Connected without being asked to. */
  lemma DueReconnects(strategy: bool, down: seq<Step>) returns (run: seq<Step>)
    requires IsRun(strategy, down) && Final(strategy, down).WaitingToReconnect?
    ensures IsRun(strategy, run) && down <= run && ReconnectsUnasked(strategy, run, |down|)
  {
    hide IsRun, StepConnected;
    var due := Step(ReconnectDue(true, 0), DrainOrder([], []));
    ExtendRun(strategy, down, due);
    run := down + [due];
    assert LastOutputs(strategy, run) == [Announce(Up)];
  }

  /**
   A disconnect is answered in every state that takes commands, but it keeps the socket down, until it is asked to
   connect, exactly when the socket was not already waiting to reconnect.
   */
  lemma DisconnectHoldsUnlessReconnecting(strategy: bool, steps: seq<Step>, disconnect: Step)
    requires IsRun(strategy, steps) && Enabled(Final(strategy, steps), disconnect) && disconnect.input.TakeDisconnect?
    ensures EndDisconnect(disconnect.input.sender) in Iterate(strategy, Final(strategy, steps), disconnect).outputs
    ensures (exists run :: IsRun(strategy, run) && steps + [disconnect] <= run
                           && ReconnectsUnasked(strategy, run, |steps| + 1))
            <==> Final(strategy, steps).WaitingToReconnect?
  {
    hide IsRun, SendDisconnected, ReconnectsUnasked;
    var s := Final(strategy, steps);
    var down := steps + [disconnect];
    ExtendRun(strategy, steps, disconnect);
    if s.WaitingToReconnect? {
      var run := DueReconnects(strategy, down);
    } else {
      forall run | IsRun(strategy, run) && steps + [disconnect] <= run
        ensures !ReconnectsUnasked(strategy, run, |steps| + 1)
      {
        StaysDownUnasked(strategy, down, run);
      }
    }
  }
}
