/**
 The runs of the socket listener: what its loop can do from its first state on, and what that makes visible to
 other tasks (src/rust/socket/listener.rs).
 */
module SocketRuns {
  import opened SocketProtocol

  ghost predicate IsRun(strategy: bool, steps: seq<Step>)
    decreases |steps|, 0
  {
    |steps| > 0 ==>
      && IsRun(strategy, steps[..|steps| - 1])
      && Enabled(Final(strategy, steps[..|steps| - 1]), steps[|steps| - 1])
  }

  /** The state after a run that starts in NeverConnected. */
  ghost function Final(strategy: bool, steps: seq<Step>): State
    requires IsRun(strategy, steps)
    decreases |steps|, 1
  {
    if |steps| == 0 then NeverConnected
    else Iterate(strategy, Final(strategy, steps[..|steps| - 1]), steps[|steps| - 1]).state
  }

  ghost function LastOutputs(strategy: bool, steps: seq<Step>): seq<Output>
    requires IsRun(strategy, steps) && |steps| > 0
  {
    Iterate(strategy, Final(strategy, steps[..|steps| - 1]), steps[|steps| - 1]).outputs
  }

  /** Everything the run made visible to other tasks, in order. */
  ghost function Trace(strategy: bool, steps: seq<Step>): seq<Output>
    requires IsRun(strategy, steps)
    decreases |steps|
  {
    if |steps| == 0 then []
    else Trace(strategy, steps[..|steps| - 1]) + LastOutputs(strategy, steps)
  }

  lemma ExtendRun(strategy: bool, steps: seq<Step>, step: Step)
    requires IsRun(strategy, steps) && Enabled(Final(strategy, steps), step)
    ensures IsRun(strategy, steps + [step])
    ensures Final(strategy, steps + [step]) == Iterate(strategy, Final(strategy, steps), step).state
    ensures LastOutputs(strategy, steps + [step]) == Iterate(strategy, Final(strategy, steps), step).outputs
  {
    var longer := steps + [step];
    assert longer[..|longer| - 1] == steps;
  }

  lemma {:induction false} PrefixIsRun(strategy: bool, steps: seq<Step>, n: nat)
    requires IsRun(strategy, steps) && n <= |steps|
    ensures IsRun(strategy, steps[..n])
  {
    if n == |steps| {
      assert steps[..n] == steps;
    } else {
      var shorter := steps[..|steps| - 1];
      assert shorter[..n] == steps[..n];
      PrefixIsRun(strategy, shorter, n);
    }
  }

  /** The state after the first n steps of a run. */
  ghost function After(strategy: bool, steps: seq<Step>, n: nat): State
    requires IsRun(strategy, steps) && n <= |steps|
  {
    PrefixIsRun(strategy, steps, n);
    Final(strategy, steps[..n])
  }

  lemma StepByStep(strategy: bool, steps: seq<Step>, n: nat)
    requires IsRun(strategy, steps) && n < |steps|
    ensures Enabled(After(strategy, steps, n), steps[n])
    ensures After(strategy, steps, n + 1) == Iterate(strategy, After(strategy, steps, n), steps[n]).state
  {
    hide Iterate, Enabled;
    PrefixIsRun(strategy, steps, n + 1);
    assert steps[..n + 1][..n] == steps[..n];
  }

  /** What the step at this position of a run made visible. */
  ghost function OutputsAt(strategy: bool, steps: seq<Step>, n: nat): seq<Output>
    requires IsRun(strategy, steps) && n < |steps|
  {
    StepByStep(strategy, steps, n);
    Iterate(strategy, After(strategy, steps, n), steps[n]).outputs
  }

  /** The pending joins and calls can always be drained in some order. */
  lemma SomeOrder(c: Connection) returns (order: DrainOrder)
    ensures Drains(order, c)
  {
    var joins := Enumeration(c.joins.Keys);
    var calls := Enumeration(c.calls.Keys);
    order := DrainOrder(joins, calls);
  }

  lemma Enumeration<K(!new)>(all: set<K>) returns (keys: seq<K>)
    ensures Enumerates(keys, all)
    decreases all
  {
    if all == {} {
      keys := [];
    } else {
      var k :| k in all;
      var fewer := Enumeration(all - {k});
      keys := fewer + [k];
      assert keys[|fewer|] == k;
    }
  }
}
