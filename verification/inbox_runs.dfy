/** What the inbox queue guarantees over every run: the fence stays exact under refunds, and no row outlives its
    budgets. */
module InboxRuns {
  import opened Prelude
  import opened ExecutionPolicy
  import opened Inbox

  datatype Action<P> =
    | Receive(id: RowId, row: Row<P>)
    | Tick(elapsed: Time)
    | Take(worker: Worker, id: RowId, lease: Time)
    | Finish(worker: Worker, outcome: Outcome)
    | Lose(worker: Worker)

  function Step<P>(q: Queue<P>, action: Action<P>): Queue<P> {
    match action
    case Receive(id, row) => ReceiveRow(q, id, row)
    case Tick(elapsed) => q.(now := q.now + elapsed)
    case Take(worker, id, lease) => if CanTake(q, worker, id) then TakeRow(q, worker, id, lease) else q
    case Finish(worker, outcome) => FinishRow(q, worker, outcome)
    case Lose(worker) => Drop(q, worker)
  }

  function Run<P>(q: Queue<P>, actions: seq<Action<P>>): Queue<P>
    decreases |actions|
  {
    if actions == [] then q else Run(Step(q, actions[0]), actions[1..])
  }

  lemma StepKeepsSound<P>(q: Queue<P>, action: Action<P>)
    requires Sound(q)
    ensures Sound(Step(q, action))
  {
    match action
    case Receive(id, row) => ReceiveKeepsSound(q, id, row);
    case Tick(elapsed) => TickKeepsSound(q, elapsed);
    case Take(worker, id, lease) => if CanTake(q, worker, id) { TakeKeepsSound(q, worker, id, lease); }
    case Finish(worker, outcome) => FinishKeepsSound(q, worker, outcome);
    case Lose(worker) => DropKeepsSound(q, worker);
  }

  lemma {:induction false} RunKeepsSound<P>(q: Queue<P>, actions: seq<Action<P>>)
    requires Sound(q)
    ensures Sound(Run(q, actions))
    decreases |actions|
  {
    if actions != [] {
      StepKeepsSound(q, actions[0]);
      RunKeepsSound(Step(q, actions[0]), actions[1..]);
    }
  }

  /** Over every run: the claims live workers hold on a row carry distinct attempt numbers within its count, exactly the
      latest claim can settle, and any other worker's settlement leaves every row as it was. */
  lemma FenceTheorem<P>(actions: seq<Action<P>>, v: Worker, w: Worker, outcome: Outcome)
    requires var q := Run(NewQueue<P>(), actions);
        v in q.held && w in q.held && q.held[v].claim.row == q.held[w].claim.row
    ensures var q := Run(NewQueue<P>(), actions);
            var id := q.held[w].claim.row;
            && id in q.rows && id in q.history
            && 1 <= q.held[w].claim.attempts <= q.rows[id].attempts
            && (v != w ==> q.held[v].claim.attempts != q.held[w].claim.attempts)
            && (Holds(q, w) <==> q.held[w].turn == q.history[id].claims)
            && (v != w && Holds(q, w) ==> q.held[v].claim.attempts < q.held[w].claim.attempts && !Holds(q, v))
            && (!Holds(q, w) ==> Step(q, Finish(w, outcome)).rows == q.rows)
  {
    var q := Run(NewQueue<P>(), actions);
    RunKeepsSound(NewQueue<P>(), actions);
    assert HeldFits(q, w) && HeldFits(q, v) && Ordered(q, v, w) && Ordered(q, w, v);
    FenceIsExact(q, w);
  }

  // ---------------------------------------------------------------------------------------------------------------
  // The attempt and waiting budgets
  // ---------------------------------------------------------------------------------------------------------------

  const MAX_BLOCKS: nat := 289

  /** The earliest instant the row's next settlement can carry. */
  function NextPossible<P>(row: Row<P>, now: Time): Time {
    if Waits(row) then row.nextAttemptAt else now
  }

  ghost predicate WithinBudget<P>(q: Queue<P>, id: RowId)
    requires RowKnown(q, id)
  {
    var row, h := q.rows[id], q.history[id];
    && row.receivedAt <= q.now
    && (row.status.InProgress? ==> row.attempts >= 1)
    && h.retries <= MAX_ATTEMPTS - 1
    && h.retries <= (if row.status.InProgress? then row.attempts - 1 else row.attempts)
    && h.blocks <= MAX_BLOCKS
    && h.blocks * BLOCKED_DELAY_SECONDS <= h.waited
    && (!Terminal(row) ==> row.receivedAt + h.waited * SECOND <= NextPossible(row, q.now))
    && (h.plain ==> h.waited == TotalDelay(h.retries)
                    && row.attempts == (if row.status.InProgress? then h.retries + 1 else h.retries))
  }

  ghost predicate Budgeted<P>(q: Queue<P>) {
    Sound(q) && forall id :: id in q.rows ==> WithinBudget(q, id)
  }

  lemma FinishKeepsBudget<P>(q: Queue<P>, worker: Worker, outcome: Outcome)
    requires Budgeted(q) && Holds(q, worker)
    ensures WithinBudget(FinishRow(q, worker, outcome), q.held[worker].claim.row)
  {
    var id := q.held[worker].claim.row;
    var row, h := q.rows[id], q.history[id];
    assert WithinBudget(q, id);
    var final := FailureOutcome(outcome, row.attempts, row.receivedAt, q.now);
    if final.verdict.Blocked? {
      assert h.blocks * BLOCKED_DELAY_SECONDS * SECOND <= HORIZON;
    }
  }

  lemma StepKeepsBudget<P>(q: Queue<P>, action: Action<P>)
    requires Budgeted(q)
    ensures Budgeted(Step(q, action))
  {
    StepKeepsSound(q, action);
    var q' := Step(q, action);
    forall id | id in q'.rows ensures WithinBudget(q', id) {
      if id in q.rows {
        assert WithinBudget(q, id);
        if action.Finish? && Holds(q, action.worker) && id == q.held[action.worker].claim.row {
          FinishKeepsBudget(q, action.worker, action.outcome);
        }
      }
    }
  }

  lemma {:induction false} RunKeepsBudget<P>(q: Queue<P>, actions: seq<Action<P>>)
    requires Budgeted(q)
    ensures Budgeted(Run(q, actions))
    decreases |actions|
  {
    if actions != [] {
      StepKeepsBudget(q, actions[0]);
      RunKeepsBudget(Step(q, actions[0]), actions[1..]);
    }
  }

  /** Whatever the attempts of any number of workers produce, a row sees at most 23 counted retry settlements and at
      most 289 blocked ones. */
  lemma BudgetTheorem<P>(actions: seq<Action<P>>, id: RowId)
    requires id in Run(NewQueue<P>(), actions).rows
    ensures var q := Run(NewQueue<P>(), actions);
            id in q.history && q.history[id].retries <= 23 && q.history[id].blocks <= 289
  {
    RunKeepsBudget(NewQueue<P>(), actions);
    assert WithinBudget(Run(NewQueue<P>(), actions), id);
  }

  /** A row whose every attempt ended in a plain retry has waited at least the full schedule when its 24th attempt
      starts, and after it. */
  lemma ScheduleTheorem<P>(actions: seq<Action<P>>, id: RowId)
    requires var q := Run(NewQueue<P>(), actions);
             id in q.rows && id in q.history && q.history[id].plain
             && q.rows[id].attempts == MAX_ATTEMPTS
    ensures var q := Run(NewQueue<P>(), actions);
            q.now >= q.rows[id].receivedAt + 61_410 * SECOND
  {
    RunKeepsBudget(NewQueue<P>(), actions);
    assert WithinBudget(Run(NewQueue<P>(), actions), id);
    FullRetrySchedule();
  }

  // ---------------------------------------------------------------------------------------------------------------
  // Both bounds are met
  // ---------------------------------------------------------------------------------------------------------------

  lemma {:induction false} RunAppends<P>(q: Queue<P>, actions: seq<Action<P>>, later: seq<Action<P>>)
    ensures Run(q, actions + later) == Run(Run(q, actions), later)
    decreases |actions|
  {
    if actions == [] {
      assert actions + later == later;
    } else {
      assert (actions + later)[1..] == actions[1..] + later;
      RunAppends(Step(q, actions[0]), actions[1..], later);
    }
  }

  /** What the first n settlements of a row whose attempts all end one way make it wait. */
  function Waited(blocked: bool, n: nat): nat {
    if blocked then BLOCKED_DELAY_SECONDS * n else TotalDelay(n)
  }

  function Asked(blocked: bool): Outcome {
    if blocked then Waiting(TENANT_UNMAPPED) else Transient(ENGINE_UNAVAILABLE)
  }

  /** From the (n-1)-th settlement to the n-th. */
  function Round<P>(row: Row<P>, blocked: bool, n: nat): seq<Action<P>>
    requires n >= 1
  {
    var wait := if n == 1 then 0 else if blocked then BLOCKED_DELAY_SECONDS else RetryDelay(n - 1);
    [Tick(wait * SECOND), Take("w", 0, 0), Finish("w", Asked(blocked))]
  }

  /** Attempts that all end one way, each made the moment the row is due. */
  function Rounds<P>(row: Row<P>, blocked: bool, n: nat): seq<Action<P>> {
    if n == 0 then [Receive(0, row)]
    else
      Rounds(row, blocked, n - 1) + Round(row, blocked, n)
  }

  function RowAfter<P>(row: Row<P>, blocked: bool, n: nat): Row<P> {
    var fresh_ := NewRow(row.eventType, row.tenant, row.payload, 0);
    if n == 0 then fresh_
    else fresh_.(status := if blocked then OnHold else RetryLater,
                 attempts := n,
                 nextAttemptAt := Waited(blocked, n) * SECOND,
                 outcomeCode := Some(Asked(blocked).code))
  }

  function QueueAfter<P>(row: Row<P>, blocked: bool, n: nat): Queue<P> {
    Queue(map[0 := RowAfter(row, blocked, n)], map[],
          map[0 := History(n, if blocked then 0 else n, if blocked then n else 0, Waited(blocked, n),
                           !blocked || n == 0)],
          if n == 0 then 0 else Waited(blocked, n - 1) * SECOND)
  }

  lemma WaitedGrows(blocked: bool, n: nat)
    requires n >= 1
    ensures Waited(blocked, n) == Waited(blocked, n - 1) + if blocked then BLOCKED_DELAY_SECONDS else RetryDelay(n)
  {
  }

  /** The queue between the claim and the settlement of the n-th attempt. */
  function QueueTaken<P>(row: Row<P>, blocked: bool, n: nat): Queue<P>
    requires n >= 1
  {
    var before := QueueAfter(row, blocked, n - 1);
    var now := Waited(blocked, n - 1) * SECOND;
    Queue(map[0 := Leased(RowAfter(row, blocked, n - 1), "w", 0, now)], map["w" := Held(Claimed(0, "w", n), n)],
          map[0 := before.history[0].(claims := n)], now)
  }

  lemma RoundTaken<P>(row: Row<P>, blocked: bool, n: nat)
    requires n >= 1
    ensures var q := QueueAfter(row, blocked, n - 1);
            var due := q.(now := Waited(blocked, n - 1) * SECOND);
            CanTake(due, "w", 0) && TakeRow(due, "w", 0, 0) == QueueTaken(row, blocked, n)
  {
  }

  lemma RoundFinished<P>(row: Row<P>, blocked: bool, n: nat)
    requires n >= 1 && (if blocked then Waited(true, n - 1) * SECOND <= HORIZON else n < MAX_ATTEMPTS)
    ensures FinishRow(QueueTaken(row, blocked, n), "w", Asked(blocked)) == QueueAfter(row, blocked, n)
  {
    WaitedGrows(blocked, n);
    var q := QueueTaken(row, blocked, n);
    assert Holds(q, "w");
    assert FailureOutcome(Asked(blocked), n, 0, q.now)
        == Asked(blocked).(delay := Some(if blocked then BLOCKED_DELAY_SECONDS else RetryDelay(n)));
    assert q.held - {"w"} == map[];
  }

  lemma {:induction false} RoundsReach<P>(row: Row<P>, blocked: bool, n: nat)
    requires if blocked then n <= MAX_BLOCKS else n < MAX_ATTEMPTS
    ensures Run(NewQueue<P>(), Rounds(row, blocked, n)) == QueueAfter(row, blocked, n)
  {
    if n == 0 {
      Received(row, blocked);
    } else {
      RoundsReach(row, blocked, n - 1);
      RunAppends(NewQueue<P>(), Rounds(row, blocked, n - 1), Round(row, blocked, n));
      OneRound(row, blocked, n);
    }
  }

  lemma Received<P>(row: Row<P>, blocked: bool)
    ensures Run(NewQueue<P>(), [Receive(0, row)]) == QueueAfter(row, blocked, 0)
  {
    RunOne(NewQueue<P>(), Receive(0, row));
  }

  lemma RunOne<P>(q: Queue<P>, action: Action<P>)
    ensures Run(q, [action]) == Step(q, action)
  {
    assert [action][1..] == [];
  }

  lemma OneRound<P>(row: Row<P>, blocked: bool, n: nat)
    requires n >= 1 && (if blocked then n <= MAX_BLOCKS else n < MAX_ATTEMPTS)
    ensures Run(QueueAfter(row, blocked, n - 1), Round(row, blocked, n)) == QueueAfter(row, blocked, n)
  {
    var q, actions := QueueAfter(row, blocked, n - 1), Round(row, blocked, n);
    if n >= 2 { WaitedGrows(blocked, n - 1); }
    RoundTaken(row, blocked, n);
    RoundFinished(row, blocked, n);
    ThreeSteps(q, actions, q.(now := Waited(blocked, n - 1) * SECOND), QueueTaken(row, blocked, n));
  }

  lemma ThreeSteps<P>(q: Queue<P>, actions: seq<Action<P>>, q1: Queue<P>, q2: Queue<P>)
    requires |actions| == 3 && q1 == Step(q, actions[0]) && q2 == Step(q1, actions[1])
    ensures Run(q, actions) == Step(q2, actions[2])
  {
    assert actions[1..][1..] == [actions[2]];
    RunOne(q2, actions[2]);
  }

  /** Neither bound of `BudgetTheorem` can be lowered, nor the schedule shortened: a row can be retried 23 times and
      still be open, due 61,410 seconds after it arrived, and be blocked 289 times and still be open. */
  lemma BudgetIsMet<P>(row: Row<P>)
    ensures var q := Run(NewQueue<P>(), Rounds(row, false, 23));
            0 in q.rows && 0 in q.history && q.history[0].retries == 23 && q.rows[0].status.RetryLater?
            && q.rows[0].nextAttemptAt == q.rows[0].receivedAt + 61_410 * SECOND
    ensures var q := Run(NewQueue<P>(), Rounds(row, true, 289));
            0 in q.rows && 0 in q.history && q.history[0].blocks == 289 && q.rows[0].status.OnHold?
  {
    RoundsReach(row, false, 23);
    RoundsReach(row, true, 289);
    FullRetrySchedule();
  }
}
