/** Per-phase retry budget and exponential backoff. */
module Retries {
  import opened Phases

  function Pow2(n: nat): nat {
    if n == 0 then 1 else 2 * Pow2(n - 1)
  }

  /** Delay before the retry that follows failure number `attempt`, counted from one. */
  function BackoffSeconds(base: nat, attempt: int): nat {
    if attempt < 1 then 0 else base * Pow2(attempt - 1)
  }

  function TotalBackoff(base: nat, failures: nat): nat {
    if failures == 0 then 0 else TotalBackoff(base, failures - 1) + BackoffSeconds(base, failures)
  }

  /** The delays of a full retry sequence add up to a geometric sum. */
  lemma {:induction false} TotalBackoffClosedForm(base: nat, failures: nat)
    ensures TotalBackoff(base, failures) == base * (Pow2(failures) - 1)
  {
    if failures > 0 {
      TotalBackoffClosedForm(base, failures - 1);
      var p: nat := Pow2(failures - 1);
      assert TotalBackoff(base, failures) == base * (p - 1) + base * p && Pow2(failures) == 2 * p;
      hide TotalBackoff, Pow2;
      Doubled(base, p);
    }
  }

  lemma Doubled(base: int, p: int)
    ensures base * (p - 1) + base * p == base * (2 * p - 1)
  {
  }

  lemma {:induction false} TotalBackoffMonotone(base: nat, m: nat, n: nat)
    requires m <= n
    ensures TotalBackoff(base, m) <= TotalBackoff(base, n)
    decreases n
  {
    if m < n {
      TotalBackoffMonotone(base, m, n - 1);
    }
  }

  function Attempts(attempts: map<Phase, nat>, phase: Phase): nat {
    if phase in attempts then attempts[phase] else 0
  }

  class RetryController {
    const maxRetries: nat
    const backoffBase: nat
    var attempts: map<Phase, nat>

    constructor (maxRetries: nat, backoffBase: nat)
      ensures this.maxRetries == maxRetries && this.backoffBase == backoffBase && attempts == map[]
    {
      this.maxRetries := maxRetries;
      this.backoffBase := backoffBase;
      attempts := map[];
    }

    function AttemptsOf(phase: Phase): nat
      reads this
    {
      Attempts(attempts, phase)
    }

    method RecordFailure(phase: Phase) returns (count: nat)
      modifies this
      ensures count == old(AttemptsOf(phase)) + 1
      ensures attempts == old(attempts)[phase := count]
    {
      attempts := attempts[phase := AttemptsOf(phase) + 1];
      count := attempts[phase];
    }

    predicate ShouldRetry(phase: Phase)
      reads this
    {
      AttemptsOf(phase) <= maxRetries
    }

    method Reset(phase: Phase)
      modifies this
      ensures attempts == old(attempts) - {phase}
    {
      attempts := attempts - {phase};
    }
  }
}
