/**
 The retry arithmetic shared by the socket's Reconnect and the channel's Rejoin: a base timeout, a
 saturating 16-bit attempt counter, and a five-entry table of multipliers.
 */
module Backoff {
  datatype Retry = Retry(timeout: nat, attempts: nat)

  const MAX_ATTEMPTS: nat := 65535

  const MULTIPLIERS: seq<nat> := [0, 1, 2, 5, 10]

  function Min(a: nat, b: nat): nat {
    if a < b then a else b
  }

  function Multiplier(attempts: nat): nat {
    MULTIPLIERS[Min(attempts, |MULTIPLIERS| - 1)]
  }

  function SleepDuration(r: Retry): nat {
    r.timeout * Multiplier(r.attempts)
  }

  function Next(r: Retry): Retry {
    r.(attempts := if r.attempts < MAX_ATTEMPTS then r.attempts + 1 else MAX_ATTEMPTS)
  }

  /** How many base timeouts `waits` waits in a row sleep in all, without the table or the counter. */
  function TotalMultiplier(waits: nat): nat {
    match waits
    case 0 => 0
    case 1 => 0
    case 2 => 1
    case 3 => 3
    case _ => 8 + 10 * (waits - 4)
  }

  function TotalSleep(timeout: nat, waits: nat): nat {
    timeout * TotalMultiplier(waits)
  }

  /** The wait after `waits` earlier ones adds exactly what the closed form says, and the stored
      counter keeps agreeing with the true number of waits even after it saturates. */
  lemma OneMoreWait(timeout: nat, waits: nat)
    ensures var r := Retry(timeout, Min(waits, MAX_ATTEMPTS));
            && TotalSleep(timeout, waits) + SleepDuration(r) == TotalSleep(timeout, waits + 1)
            && Next(r) == Retry(timeout, Min(waits + 1, MAX_ATTEMPTS))
  {
    var m := Multiplier(Min(waits, MAX_ATTEMPTS));
    assert TotalMultiplier(waits) + m == TotalMultiplier(waits + 1);
    assert timeout * TotalMultiplier(waits) + timeout * m == timeout * (TotalMultiplier(waits) + m);
  }
}
