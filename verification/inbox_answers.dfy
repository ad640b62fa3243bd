/** What the end of an attempt leaves in its row, in the row's own terms. */
module InboxAnswers {
  import opened Prelude
  import opened ExecutionPolicy
  import opened Inbox
  import opened InboxSupport

  /** How an attempt's row is recorded: done, given up, put on hold for a quarter of an hour, or tried again. Contention
      costs no attempt and is tried again after five seconds; 24 counted attempts, or 72 hours on hold, are the end. */
  predicate RecordedAs<P(==)>(row: Row<P>, row': Row<P>, verdict: Verdict, code: Code, contended: bool, now: Time) {
    && row'.payload == row.payload && row'.tenant == row.tenant && row'.receivedAt == row.receivedAt
    && row'.claimedBy.None?
    && match verdict
       case Processed =>
         row'.status.Done? && row'.outcomeCode == Some(code) && row'.processedAt == Some(now)
         && row'.attempts == row.attempts
       case DeadLetter => row'.status.Dead? && row'.outcomeCode == Some(code) && row'.attempts == row.attempts
       case Blocked =>
         && row'.attempts == row.attempts
         && (if now > row.receivedAt + 72 * 3600 * SECOND then
               row'.status.Dead? && row'.outcomeCode == Some(BLOCKED_HORIZON_EXCEEDED)
             else
               && row'.status.OnHold? && row'.outcomeCode == Some(code)
               && row'.nextAttemptAt == now + 900 * SECOND)
       case Retry =>
         if row.attempts >= 24 then
           row'.status.Dead? && row'.outcomeCode == Some(ATTEMPTS_EXHAUSTED) && row'.attempts == row.attempts
         else
           && row'.status.RetryLater? && row'.outcomeCode == Some(code)
           && row'.attempts == (if contended then row.attempts - 1 else row.attempts)
           && row.attempts >= 1
           && row'.nextAttemptAt == now + (if contended then 5 else BackoffSeconds(row.attempts)) * SECOND
  }

  /** The attempt still holds its row, and ends like this. */
  lemma EndIsRecorded<P>(q: Queue<P>, worker: Worker, outcome: Outcome, contended: bool)
    requires Holds(q, worker) && (contended ==> outcome.verdict.Retry?)
    requires outcome == Outcome(outcome.verdict, outcome.code, if contended then Some(5) else None, contended)
    ensures var id := q.held[worker].claim.row;
            var q' := FinishRow(q, worker, outcome);
            id in q'.rows && RecordedAs(q.rows[id], q'.rows[id], outcome.verdict, outcome.code, contended, q.now)
  {
    BackoffIsDelay(q.held[worker].claim.attempts);
  }

  predicate Rejects(reply: Reply) {
    reply == Refused(400) || reply == Refused(422)
  }

  /** An engine request not carried out, or not that the worker knows of: a refusal that will be repeated is told from
      one that may pass. */
  function CodeOfFailure(reply: Reply): Code {
    if Rejects(reply) then ENGINE_REJECTED else ENGINE_UNAVAILABLE
  }
}
