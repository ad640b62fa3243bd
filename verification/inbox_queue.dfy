/**
 The inbox as a work queue (modules/inbox/postgres_queue.py): one claim at a time per row under a lease, and
 settlements fenced on (worker, attempts) even though an attempt can be refunded.

 The `UPDATE` statements are functions on one row; class `InboxQueue` runs them in place. `Queue` is the whole queue
 seen as a transition system, with the two things the table does not hold: which claims live workers still carry, and a
 history of each row from which the theorems read their bounds.
 */
module Inbox {
  import opened Prelude
  import opened ExecutionPolicy

  type RowId = nat
  type Worker = string

  datatype RowStatus = Received | InProgress | RetryLater | OnHold | Done | Dead

  datatype Row<P> = Row(
    eventType: string,
    tenant: Option<string>,
    payload: P,
    receivedAt: Time,
    status: RowStatus,
    attempts: nat,
    nextAttemptAt: Time,
    claimedBy: Option<Worker>,
    leaseExpiresAt: Time,
    outcomeCode: Option<Code>,
    processedAt: Option<Time>)

  datatype Claim = Claimed(row: RowId, worker: Worker, attempts: nat)

  function NewRow<P>(eventType: string, tenant: Option<string>, payload: P, now: Time): Row<P> {
    Row(eventType, tenant, payload, now, Received, 0, now, None, 0, None, None)
  }

  predicate Waits<P>(row: Row<P>) {
    row.status in {Received, RetryLater, OnHold}
  }

  predicate Terminal<P>(row: Row<P>) {
    row.status in {Done, Dead}
  }

  predicate Claimable<P>(row: Row<P>, now: Time) {
    || (Waits(row) && row.nextAttemptAt <= now)
    || (row.status.InProgress? && row.leaseExpiresAt <= now)
  }

  /** `claim`'s SET list. */
  function Leased<P>(row: Row<P>, worker: Worker, lease: Time, now: Time): Row<P> {
    row.(status := InProgress, claimedBy := Some(worker), attempts := row.attempts + 1, leaseExpiresAt := now + lease)
  }

  /** `_settle`'s WHERE list. */
  predicate Fenced<P>(row: Row<P>, claim: Claim) {
    row.status.InProgress? && row.claimedBy == Some(claim.worker) && row.attempts == claim.attempts
  }

  function StatusOf(verdict: Verdict): RowStatus {
    match verdict
    case Processed => Done
    case Retry => RetryLater
    case Blocked => OnHold
    case DeadLetter => Dead
  }

  /** `_settle`'s SET list. */
  function Settled<P>(row: Row<P>, outcome: Outcome, now: Time): Row<P>
    requires outcome.refund ==> row.attempts >= 1
  {
    row.(status := StatusOf(outcome.verdict),
         outcomeCode := Some(outcome.code),
         nextAttemptAt := if outcome.delay.Some? then now + outcome.delay.value * SECOND else row.nextAttemptAt,
         attempts := if outcome.refund then row.attempts - 1 else row.attempts,
         claimedBy := None,
         leaseExpiresAt := 0,
         processedAt := if outcome.verdict.Processed? then Some(now) else row.processedAt)
  }

  /** The order `claim` takes due rows in: next_attempt_at, then id. */
  predicate Before<P>(rows: map<RowId, Row<P>>, a: RowId, b: RowId)
    requires a in rows && b in rows
  {
    rows[a].nextAttemptAt < rows[b].nextAttemptAt || (rows[a].nextAttemptAt == rows[b].nextAttemptAt && a <= b)
  }

  predicate Due<P>(rows: map<RowId, Row<P>>, id: RowId, eventType: string, now: Time, locked: set<RowId>) {
    id in rows && id !in locked && rows[id].eventType == eventType && Claimable(rows[id], now)
  }

  /** The table behind the queue, updated in place. */
  class InboxQueue<P> {
    var rows: map<RowId, Row<P>>

    constructor ()
      ensures rows == map[]
    {
      rows := map[];
    }

    /** Takes the first due row no open transaction has locked, and leases it to the worker. */
    method Claim(eventType: string, worker: Worker, lease: Time, now: Time, locked: set<RowId>)
        returns (claim: Option<Claim>)
      modifies this
      ensures claim.None? ==> rows == old(rows) && forall id :: id in rows ==> !Due(rows, id, eventType, now, locked)
      ensures claim.Some? ==>
                var id := claim.value.row;
                && Due(old(rows), id, eventType, now, locked)
                && (forall other :: other in old(rows) && Due(old(rows), other, eventType, now, locked) ==>
                                      Before(old(rows), id, other))
                && rows == old(rows)[id := Leased(old(rows)[id], worker, lease, now)]
                && claim.value == Claimed(id, worker, old(rows)[id].attempts + 1)
    {
      var pending := rows.Keys;
      var first: Option<RowId> := None;
      while pending != {}
        invariant pending <= rows.Keys
        invariant first.Some? ==> Due(rows, first.value, eventType, now, locked)
        invariant forall id :: id in rows && id !in pending && Due(rows, id, eventType, now, locked) ==>
                                 first.Some? && Before(rows, first.value, id)
        invariant rows == old(rows)
        decreases pending
      {
        var id :| id in pending;
        pending := pending - {id};
        if Due(rows, id, eventType, now, locked) && (first.None? || Before(rows, id, first.value)) {
          first := Some(id);
        }
      }
      if first.None? {
        return None;
      }
      var id := first.value;
      rows := rows[id := Leased(rows[id], worker, lease, now)];
      claim := Some(Claimed(id, worker, rows[id].attempts));
    }

    /** The fenced UPDATE; false is LeaseLostError, and then nothing was written. */
    method Settle(claim: Claim, outcome: Outcome, now: Time) returns (applied: bool)
      requires claim.attempts >= 1
      modifies this
      ensures applied <==> claim.row in old(rows) && Fenced(old(rows)[claim.row], claim)
      ensures rows == if applied then old(rows)[claim.row := Settled(old(rows)[claim.row], outcome, now)] else old(rows)
    {
      applied := claim.row in rows && Fenced(rows[claim.row], claim);
      if applied {
        rows := rows[claim.row := Settled(rows[claim.row], outcome, now)];
      }
    }
  }

  // ---------------------------------------------------------------------------------------------------------------
  // The queue over a whole run
  // ---------------------------------------------------------------------------------------------------------------

  /** What has happened to a row: how often it was claimed, settled as a counted retry, and settled as blocked; the
      seconds of delay its settlements imposed; and whether it was only ever retried, each time with the policy's own
      backoff. */
  datatype History = History(claims: nat, retries: nat, blocks: nat, waited: nat, plain: bool)

  /** A claim in a live worker's hands; `turn` numbers the claims of its row. */
  datatype Held = Held(claim: Claim, turn: nat)

  datatype Queue<P> = Queue(rows: map<RowId, Row<P>>, held: map<Worker, Held>, history: map<RowId, History>, now: Time)

  function NewQueue<P>(): Queue<P> {
    Queue(map[], map[], map[], 0)
  }

  /** Ingress stores a new event; the table default makes it due at once. */
  function ReceiveRow<P>(q: Queue<P>, id: RowId, row: Row<P>): Queue<P> {
    if id in q.rows then q
    else q.(rows := q.rows[id := NewRow(row.eventType, row.tenant, row.payload, q.now)],
            history := q.history[id := History(0, 0, 0, 0, true)])
  }

  predicate CanTake<P>(q: Queue<P>, worker: Worker, id: RowId) {
    worker !in q.held && id in q.rows && id in q.history && Claimable(q.rows[id], q.now)
  }

  /** A worker with no row in hand claims one; any claimable row, which includes the one `Claim` picks. */
  function TakeRow<P>(q: Queue<P>, worker: Worker, id: RowId, lease: Time): Queue<P>
    requires CanTake(q, worker, id)
  {
    var row := Leased(q.rows[id], worker, lease, q.now);
    var turn := q.history[id].claims + 1;
    q.(rows := q.rows[id := row],
       held := q.held[worker := Held(Claimed(id, worker, row.attempts), turn)],
       history := q.history[id := q.history[id].(claims := turn, plain := q.history[id].plain && Waits(q.rows[id]))])
  }

  /** The worker is gone, or done with a row it no longer holds. */
  function Drop<P>(q: Queue<P>, worker: Worker): Queue<P> {
    q.(held := q.held - {worker})
  }

  predicate Holds<P>(q: Queue<P>, worker: Worker) {
    && worker in q.held
    && var claim := q.held[worker].claim;
    && claim.attempts >= 1
    && claim.row in q.rows && claim.row in q.history
    && Fenced(q.rows[claim.row], claim)
  }

  /** The history after an attempt that asked for `outcome` was recorded as `final`. */
  function Count(h: History, outcome: Outcome, final: Outcome): History {
    var counted := final.verdict.Retry? && !final.refund;
    h.(retries := if counted then h.retries + 1 else h.retries,
       blocks := if final.verdict.Blocked? then h.blocks + 1 else h.blocks,
       waited := h.waited + if final.delay.Some? then final.delay.value else 0,
       plain := h.plain && counted && outcome.delay.None?)
  }

  /** `settle`'s end of an attempt: budgets applied, then the fenced write. */
  function FinishRow<P>(q: Queue<P>, worker: Worker, outcome: Outcome): Queue<P> {
    if Holds(q, worker) then
      var claim := q.held[worker].claim;
      var row := q.rows[claim.row];
      var final := FailureOutcome(outcome, claim.attempts, row.receivedAt, q.now);
      Drop(q, worker).(rows := q.rows[claim.row := Settled(row, final, q.now)],
                       history := q.history[claim.row := Count(q.history[claim.row], outcome, final)])
    else Drop(q, worker)
  }

  // ---------------------------------------------------------------------------------------------------------------
  // The fence
  // ---------------------------------------------------------------------------------------------------------------

  ghost predicate RowKnown<P>(q: Queue<P>, id: RowId) {
    id in q.rows && id in q.history
  }

  /** A held claim is within its row's count; the latest one fits the fence; an earlier one is strictly below an open
      row's count. */
  ghost predicate HeldFits<P>(q: Queue<P>, w: Worker)
    requires w in q.held
  {
    var h := q.held[w];
    && h.claim.worker == w
    && RowKnown(q, h.claim.row)
    && var row := q.rows[h.claim.row];
    && 1 <= h.claim.attempts <= row.attempts
    && 1 <= h.turn <= q.history[h.claim.row].claims
    && (h.turn == q.history[h.claim.row].claims ==> Fenced(row, h.claim))
    && (h.turn < q.history[h.claim.row].claims && row.status.InProgress? ==> h.claim.attempts < row.attempts)
  }

  /** Attempt numbers order two held claims of one row exactly as their turns do. */
  ghost predicate Ordered<P>(q: Queue<P>, v: Worker, w: Worker)
    requires v in q.held && w in q.held
  {
    q.held[v].claim.row == q.held[w].claim.row && v != w ==>
      && q.held[v].turn != q.held[w].turn
      && (q.held[v].turn < q.held[w].turn ==> q.held[v].claim.attempts < q.held[w].claim.attempts)
  }

  ghost predicate Sound<P>(q: Queue<P>) {
    && q.rows.Keys == q.history.Keys
    && (forall w {:trigger HeldFits(q, w)} :: w in q.held ==> HeldFits(q, w))
    && (forall v, w {:trigger Ordered(q, v, w)} :: v in q.held && w in q.held ==> Ordered(q, v, w))
  }

  lemma TakeKeepsSound<P>(q: Queue<P>, worker: Worker, id: RowId, lease: Time)
    requires Sound(q) && CanTake(q, worker, id)
    ensures Sound(TakeRow(q, worker, id, lease))
  {
    var q' := TakeRow(q, worker, id, lease);
    forall w | w in q'.held ensures HeldFits(q', w) {
      if w != worker { assert HeldFits(q, w); }
    }
    forall v, w | v in q'.held && w in q'.held ensures Ordered(q', v, w) {
      if v != worker { assert HeldFits(q, v); }
      if w != worker { assert HeldFits(q, w); }
      if v != worker && w != worker { assert Ordered(q, v, w); }
    }
  }

  lemma DropKeepsSound<P>(q: Queue<P>, worker: Worker)
    requires Sound(q)
    ensures Sound(Drop(q, worker))
  {
    var q' := Drop(q, worker);
    forall w | w in q'.held ensures HeldFits(q', w) { assert HeldFits(q, w); }
    forall v, w | v in q'.held && w in q'.held ensures Ordered(q', v, w) { assert Ordered(q, v, w); }
  }

  /** The heart of the fence: with refunds about, (worker, attempts) matches for the row's latest claim and no other. */
  lemma FenceIsExact<P>(q: Queue<P>, worker: Worker)
    requires Sound(q) && worker in q.held
    ensures RowKnown(q, q.held[worker].claim.row)
    ensures Holds(q, worker) <==> q.held[worker].turn == q.history[q.held[worker].claim.row].claims
  {
    assert HeldFits(q, worker);
  }

  /** From `q` to `q'` the worker took no new claim, and no row was claimed less often than before. */
  ghost predicate Later<P>(q: Queue<P>, q': Queue<P>, worker: Worker) {
    && (worker in q'.held ==> worker in q.held && q'.held[worker] == q.held[worker])
    && forall id :: id in q.history ==> id in q'.history && q'.history[id].claims >= q.history[id].claims
  }

  lemma ReceiveIsLater<P>(q: Queue<P>, id: RowId, row: Row<P>, worker: Worker)
    requires Sound(q)
    ensures Later(q, ReceiveRow(q, id, row), worker)
  {
  }

  lemma FinishIsLater<P>(q: Queue<P>, other: Worker, outcome: Outcome, worker: Worker)
    ensures Later(q, FinishRow(q, other, outcome), worker)
  {
  }

  lemma TakeIsLater<P>(q: Queue<P>, other: Worker, id: RowId, lease: Time, worker: Worker)
    requires CanTake(q, other, id) && other != worker
    ensures Later(q, TakeRow(q, other, id, lease), worker)
  {
  }

  /** A claim that was overtaken or settled never fits the fence again, whatever refunds come. */
  lemma StaleForGood<P>(q: Queue<P>, q': Queue<P>, worker: Worker)
    requires Sound(q) && Sound(q') && Later(q, q', worker) && !Holds(q, worker)
    ensures !Holds(q', worker)
  {
    if worker in q'.held {
      FenceIsExact(q, worker);
      FenceIsExact(q', worker);
      assert HeldFits(q, worker);
    }
  }

  lemma FinishKeepsSound<P>(q: Queue<P>, worker: Worker, outcome: Outcome)
    requires Sound(q)
    ensures Sound(FinishRow(q, worker, outcome))
  {
    DropKeepsSound(q, worker);
    if Holds(q, worker) {
      var q' := FinishRow(q, worker, outcome);
      assert HeldFits(q, worker);
      FenceIsExact(q, worker);
      forall w | w in q'.held ensures HeldFits(q', w) {
        assert HeldFits(q, w) && Ordered(q, w, worker);
      }
      forall v, w | v in q'.held && w in q'.held ensures Ordered(q', v, w) { assert Ordered(q, v, w); }
    }
  }

  /** A row that only arrives, or a clock that only moves, disturbs no claim. */
  lemma ReceiveKeepsSound<P>(q: Queue<P>, id: RowId, row: Row<P>)
    requires Sound(q)
    ensures Sound(ReceiveRow(q, id, row))
  {
    var q' := ReceiveRow(q, id, row);
    forall w | w in q'.held ensures HeldFits(q', w) { assert HeldFits(q, w); }
    forall v, w | v in q'.held && w in q'.held ensures Ordered(q', v, w) { assert Ordered(q, v, w); }
  }

  lemma TickKeepsSound<P>(q: Queue<P>, elapsed: Time)
    requires Sound(q)
    ensures Sound(q.(now := q.now + elapsed))
  {
    var q' := q.(now := q.now + elapsed);
    forall w | w in q'.held ensures HeldFits(q', w) { assert HeldFits(q, w); }
    forall v, w | v in q'.held && w in q'.held ensures Ordered(q', v, w) { assert Ordered(q, v, w); }
  }
}
