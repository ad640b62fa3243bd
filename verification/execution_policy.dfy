/** The budgets of an inbox attempt (modules/order_to_cash/execution_policy.py). */
module ExecutionPolicy {
  import opened Prelude

  const MAX_ATTEMPTS: nat := 24
  const RETRY_BASE_SECONDS: nat := 30
  const RETRY_CEILING_SECONDS: nat := 3600
  const CONTENTION_DELAY_SECONDS: nat := 5
  const BLOCKED_DELAY_SECONDS: nat := 900

  /** The fixed identifiers an outcome is recorded under; they never carry payload content. */
  datatype Code =
    | CREATED | ADOPTED_NATIVE_PARTNER | UPDATED | STALE_VERSION | ALREADY_PROJECTED | VERSION_CONFLICT
    | EXECUTED | ADOPTED_NATIVE_ORDER | ALREADY_EXECUTED | AMENDMENT_UNSUPPORTED
    | PAYLOAD_INVALID | TENANT_MISSING | TENANT_UNMAPPED | CUSTOMER_UNMAPPED | PRODUCT_UNMAPPED | UNIT_MISMATCH
    | CUSTOMER_CONTENDED | ORDER_CONTENDED | LEGAL_ACTOR_PENDING | LEGAL_ACTOR_DENIED
    | ENGINE_ORG_MISMATCH | ENGINE_UNCONFIGURED | ENGINE_REJECTED | ENGINE_UNAVAILABLE | BP_GROUP_UNAVAILABLE
    | NATIVE_PARTNER_MISSING | DUPLICATE_NATIVE_PARTNERS | DUPLICATE_NATIVE_ORDERS
    | ATTEMPTS_EXHAUSTED | BLOCKED_HORIZON_EXCEEDED | UNEXPECTED_ERROR | LEASE_LOST

  datatype Verdict = Processed | Retry | Blocked | DeadLetter

  /** How an attempt ended; `delay` is None until a budget fills it in. */
  datatype Outcome = Outcome(verdict: Verdict, code: Code, delay: Option<nat>, refund: bool)

  function Processing(code: Code): Outcome { Outcome(Processed, code, None, false) }

  function Transient(code: Code): Outcome { Outcome(Retry, code, None, false) }

  function Waiting(code: Code): Outcome { Outcome(Blocked, code, None, false) }

  function Permanent(code: Code): Outcome { Outcome(DeadLetter, code, None, false) }

  /** Another worker holds the key: neither a failure nor an attempt. */
  function Contended(code: Code): Outcome { Outcome(Retry, code, Some(CONTENTION_DELAY_SECONDS), true) }

  function RetryDelay(attempts: nat): nat
    requires attempts >= 1
  {
    Min(RETRY_BASE_SECONDS * Pow2(attempts - 1), RETRY_CEILING_SECONDS)
  }

  function FailureOutcome(outcome: Outcome, attempts: nat, receivedAt: Time, now: Time): Outcome
    requires attempts >= 1
  {
    if outcome.verdict.Retry? && attempts >= MAX_ATTEMPTS then Permanent(ATTEMPTS_EXHAUSTED)
    else if outcome.verdict.Blocked? && now - receivedAt > HORIZON then Permanent(BLOCKED_HORIZON_EXCEEDED)
    else if outcome.verdict.Retry? && outcome.delay.None? then
      Outcome(Retry, outcome.code, Some(RetryDelay(attempts)), false)
    else if outcome.verdict.Blocked? then Outcome(Blocked, outcome.code, Some(BLOCKED_DELAY_SECONDS), false)
    else outcome
  }

  /** What the first `n` backoffs of a row that is only ever retried add up to. */
  function TotalDelay(n: nat): nat {
    if n == 0 then 0 else TotalDelay(n - 1) + RetryDelay(n)
  }

  lemma {:induction false} Pow2Grows(m: nat, n: nat)
    requires m <= n
    ensures 1 <= Pow2(m) <= Pow2(n)
    decreases n - m, m
  {
    if m < n {
      Pow2Grows(m, n - 1);
    } else if m > 0 {
      Pow2Grows(m - 1, n - 1);
    }
  }

  /** The delay doubles up to the seventh attempt, is the ceiling from the eighth on, and never shrinks in between. */
  lemma DelayShape(attempts: nat)
    requires attempts >= 1
    ensures attempts >= 8 <==> RetryDelay(attempts) == RETRY_CEILING_SECONDS
    ensures attempts < 7 ==> RetryDelay(attempts + 1) == 2 * RetryDelay(attempts)
    ensures RetryDelay(attempts) <= RetryDelay(attempts + 1)
  {
    assert Pow2(5) == 32 && Pow2(6) == 64 && Pow2(7) == 128;
    if attempts >= 8 {
      Pow2Grows(7, attempts - 1);
      Pow2Grows(7, attempts);
    } else {
      Pow2Grows(attempts - 1, 6);
      if attempts < 7 {
        Pow2Grows(attempts, 6);
        Pow2Grows(attempts - 1, 5);
      }
    }
  }

  /** The seconds before the next attempt of what was tried this often. */
  function BackoffSeconds(attempts: nat): nat
    requires attempts >= 1
  {
    if attempts >= 8 then 3600 else 30 * Pow2(attempts - 1)
  }

  lemma BackoffIsDelay(attempts: nat)
    requires attempts >= 1
    ensures RetryDelay(attempts) == BackoffSeconds(attempts)
  {
    DelayShape(attempts);
    if attempts < 8 {
      assert Pow2(6) == 64;
      Pow2Grows(attempts - 1, 6);
    }
  }

  lemma {:induction false} TotalDelayAtCeiling(n: nat)
    requires n >= 7
    ensures TotalDelay(n) == 3810 + RETRY_CEILING_SECONDS * (n - 7)
  {
    if n == 7 {
      assert Pow2(6) == 64;
      assert TotalDelay(4) == 450;
    } else {
      TotalDelayAtCeiling(n - 1);
      DelayShape(n);
    }
  }

  /** The 23 waits between 24 attempts: 61,410 seconds, the documented "roughly 17 hours". */
  lemma FullRetrySchedule()
    ensures TotalDelay(MAX_ATTEMPTS - 1) == 61_410
  {
    TotalDelayAtCeiling(23);
  }
}
