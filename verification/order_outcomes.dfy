/** What the outcome recorded for an order event says, and that it is true of ERP's tables ever after. */
module OrderOutcomes {
  import opened Prelude
  import opened ExecutionPolicy
  import opened Inbox
  import opened InboxSupport
  import opened Orders
  import opened OrderSafety

  // ---------------------------------------------------------------------------------------------------------------
  // Only a row's own worker records an outcome
  // ---------------------------------------------------------------------------------------------------------------

  /** The worker whose attempt at this row the call records the end of. */
  predicate Records(s: World, call: Call, id: RowId) {
    && (call.Commit? || call.Settle?)
    && InPhase(s, call.worker) && s.queue.held[call.worker].claim.row == id && Holds(s.queue, call.worker)
    && (if call.Commit? then TakesEffect(s, call) else s.workers[call.worker].Ending?)
  }

  /** Same event, same outcome. */
  ghost predicate RowStays(s: World, s': World, id: RowId) {
    if id in s.queue.rows then
      && id in s'.queue.rows && SameEvent(s.queue.rows[id], s'.queue.rows[id])
      && s'.queue.rows[id].outcomeCode == s.queue.rows[id].outcomeCode
      && (s'.queue.rows[id].status.Done? ==> s.queue.rows[id].status.Done?)
    else id in s'.queue.rows ==> s'.queue.rows[id].outcomeCode.None? && !s'.queue.rows[id].status.Done?
  }

  lemma OtherRowsStay(s: World, call: Call, id: RowId)
    requires !Records(s, call, id)
    ensures RowStays(s, Step(s, call), id)
  {
    match call
    case Receive(_, _, _) =>
    case Take(_, _, _) =>
    case Commit(_) => UnrecordedStays(s, call, id);
    case Settle(_) => UnrecordedStays(s, call, id);
    case Tick(_) =>
    case Crash(_) =>
    case _ => QueueStays(s, call);
  }

  lemma UnrecordedStays(s: World, call: Call, id: RowId)
    requires (call.Commit? || call.Settle?) && !Records(s, call, id)
    ensures var rows := Step(s, call).queue.rows;
            rows.Keys == s.queue.rows.Keys && (id in rows ==> rows[id] == s.queue.rows[id])
  {
    if InPhase(s, call.worker) {
      if call.Commit? && s.workers[call.worker].Applied? {
        CommitEffect(s, call);
      } else if call.Settle? && s.workers[call.worker].Ending? {
        assert Step(s, call) == SettleAttempt(s, call.worker, s.workers[call.worker].outcome);
      }
    }
  }

  lemma RecordedKeepsEvent(s: World, call: Call, id: RowId)
    requires Records(s, call, id)
    ensures id in Step(s, call).queue.rows && SameEvent(s.queue.rows[id], Step(s, call).queue.rows[id])
  {
    if call.Commit? {
      TablesChangeByCommit(s, call);
    } else {
      assert Step(s, call) == SettleAttempt(s, call.worker, s.workers[call.worker].outcome);
    }
  }

  // ---------------------------------------------------------------------------------------------------------------
  // What outcomes say
  // ---------------------------------------------------------------------------------------------------------------

  /** The outcomes of a processed event. */
  predicate Reflects(code: Code) {
    code.EXECUTED? || code.ADOPTED_NATIVE_ORDER? || code.ALREADY_EXECUTED? || code.STALE_VERSION?
  }

  predicate Speaks(code: Code) {
    Reflects(code) || code.AMENDMENT_UNSUPPORTED?
  }

  /** The order is executed: at a later version if stale, at an earlier one if an amendment, at this one otherwise. */
  predicate Says(code: Code, order: PlacedOrder, known: Consequence) {
    if code.STALE_VERSION? then known.version > order.version
    else if code.AMENDMENT_UNSUPPORTED? then known.version < order.version
    else known.version == order.version
  }

  predicate Borne(tables: Tables, row: Row<Payload>, code: Code) {
    Speaks(code) ==>
      && row.payload.Placed? && row.tenant.Some?
      && var key := OrderKey(row.tenant.value, row.payload.order.orderId);
      && key in tables.consequences && Says(code, row.payload.order, tables.consequences[key])
  }

  ghost predicate RowTrue(s: World, id: RowId)
    requires id in s.queue.rows
  {
    var row := s.queue.rows[id];
    && (row.outcomeCode.Some? ==> Borne(s.tables, row, row.outcomeCode.value))
    && (row.status.Done? ==> row.outcomeCode.Some? && Reflects(row.outcomeCode.value))
  }

  /** An attempt that has ended with an outcome still to be recorded. */
  ghost predicate EndTrue(s: World, w: Worker)
    requires w in s.workers
  {
    s.workers[w].Ending? && InPhase(s, w) ==>
      && Borne(s.tables, s.queue.rows[s.queue.held[w].claim.row], s.workers[w].outcome.code)
      && (s.workers[w].outcome.verdict.Processed? ==> Reflects(s.workers[w].outcome.code))
  }

  ghost predicate VerdictsTrue(s: World) {
    && (forall id {:trigger RowTrue(s, id)} :: id in s.queue.rows ==> RowTrue(s, id))
    && (forall w {:trigger EndTrue(s, w)} :: w in s.workers ==> EndTrue(s, w))
  }

  /** What an outcome says stays true: an executed order's record never changes. */
  lemma BorneStays(s: World, call: Call, row: Row<Payload>, row': Row<Payload>, code: Code)
    requires Borne(s.tables, row, code) && SameEvent(row, row')
    ensures Borne(Step(s, call).tables, row', code)
  {
    TablesChangeByCommit(s, call);
  }

  // ---------------------------------------------------------------------------------------------------------------
  // Attempts end with true outcomes
  // ---------------------------------------------------------------------------------------------------------------

  predicate Mute(outcome: Outcome) {
    !Speaks(outcome.code) && !outcome.verdict.Processed?
  }

  lemma FailuresAreMute(reply: Reply)
    ensures Mute(EngineFailure(reply))
  {
  }

  ghost predicate MuteEnd(s: World, s': World, w: Worker) {
    w in s'.workers && s'.workers[w].Ending? && !(w in s.workers && s'.workers[w] == s.workers[w]) ==>
        Mute(s'.workers[w].outcome)
  }

  lemma BeginIsMute(s: World, v: Worker, contended: bool, w: Worker)
    requires InPhase(s, v)
    ensures MuteEnd(s, BeginAttempt(s, v, contended), w)
  {
  }

  lemma SearchIsMute(s: World, v: Worker, t: Task, session: Session, gate: Gate, reply: Reply, w: Worker)
    ensures MuteEnd(s, SearchEngine(s, v, t, session, gate, reply), w)
  {
    FailuresAreMute(reply);
  }

  lemma CreateIsMute(s: World, call: Call, t: Task, fields: OrderFields, w: Worker)
    requires call.Create?
    ensures MuteEnd(s,
        CreateOrder(s, call.worker, t, fields, call.native, call.units, call.reading, call.permitted, call.took,
        call.reply), w)
  {
    if !call.reading.Answered? {
      FailuresAreMute(call.reading);
      EndIsMute(s, s, call.worker, EngineFailure(call.reading), w);
    } else if !UnitsAgree(t.order, fields, call.units) {
      EndIsMute(s, s, call.worker, Permanent(UNIT_MISMATCH), w);
    } else if !call.permitted {
      EndIsMute(s, s, call.worker, Waiting(LEGAL_ACTOR_DENIED), w);
    } else {
      FailuresAreMute(call.reply);
      EndIsMute(s, s, call.worker, EngineFailure(call.reply), w);
      EndIsMute(s, Created(s, t, call.native, fields), call.worker, EngineFailure(call.reply), w);
    }
  }

  lemma EndIsMute(s: World, s1: World, v: Worker, outcome: Outcome, w: Worker)
    requires Mute(outcome) && s1.workers == s.workers
    ensures MuteEnd(s, End(s1, v, outcome), w)
  {
  }

  lemma CommitIsMute(s: World, v: Worker, t: Task, n: nat, adopted: bool, w: Worker)
    requires InPhase(s, v)
    ensures MuteEnd(s, CommitExecution(s, v, t, n, adopted), w)
  {
  }

  /** Only the comparison of versions ends an attempt with an outcome that speaks of the record. */
  lemma OtherEndsAreMute(s: World, call: Call, w: Worker)
    requires !call.Compare?
    ensures MuteEnd(s, Step(s, call), w)
  {
    if ByWorker(call) {
      if InPhase(s, call.worker) { WorkerEndsAreMute(s, call, w); }
    }
  }

  lemma WorkerEndsAreMute(s: World, call: Call, w: Worker)
    requires ByWorker(call) && !call.Compare? && InPhase(s, call.worker)
    ensures MuteEnd(s, WorkerStep(s, call), w)
  {
    var p := s.workers[call.worker];
    match call
    case Begin(v, contended) => BeginIsMute(s, v, contended, w);
    case Search(v, session, gate, reply) => if p.Checked? { SearchIsMute(s, v, p.task, session, gate, reply, w); }
    case Create(_, _, _, _, _, _, _) => if p.Missing? { CreateIsMute(s, call, p.task, p.fields, w); }
    case Commit(v) => if p.Applied? { CommitIsMute(s, v, p.task, p.native, p.adopted, w); }
    case Settle(_) =>
    case Stumble(_) =>
  }

  // ---------------------------------------------------------------------------------------------------------------
  // Every call keeps what outcomes say
  // ---------------------------------------------------------------------------------------------------------------

  lemma CommitDropsOwn(s: World, v: Worker, t: Task, n: nat, adopted: bool, w: Worker)
    requires InPhase(s, v) && s.workers.Keys == s.queue.held.Keys
    ensures var s' := CommitExecution(s, v, t, n, adopted);
            w in s'.workers ==> w in s'.queue.held && s'.queue.held[w] == s.queue.held[w]
  {
  }

  lemma EndingDropsOwn(s: World, call: Call, w: Worker)
    requires (call.Commit? || call.Settle?) && s.workers.Keys == s.queue.held.Keys
    ensures var s' := Step(s, call); w in s'.workers ==> w in s'.queue.held && s'.queue.held[w] == s.queue.held[w]
  {
    if InPhase(s, call.worker) {
      var p := s.workers[call.worker];
      if call.Commit? && p.Applied? {
        CommitEffect(s, call);
        CommitDropsOwn(s, call.worker, p.task, p.native, p.adopted, w);
      } else if call.Settle? && p.Ending? {
        assert Step(s, call) == SettleAttempt(s, call.worker, p.outcome);
      }
    }
  }

  lemma HeldStays(s: World, call: Call, w: Worker)
    requires s.workers.Keys == s.queue.held.Keys && w in s.workers && w in Step(s, call).workers
    ensures var s' := Step(s, call); w in s'.queue.held && s'.queue.held[w] == s.queue.held[w]
  {
    match call
    case Take(_, _, _) =>
    case Commit(_) => EndingDropsOwn(s, call, w);
    case Settle(_) => EndingDropsOwn(s, call, w);
    case Crash(_) =>
    case Receive(_, _, _) =>
    case Tick(_) =>
    case _ => QueueStays(s, call);
  }

  lemma EndsStayTrue(s: World, call: Call, w: Worker)
    requires Inv(s) && VerdictsTrue(s)
    requires var s' := Step(s, call); w in s'.workers && w in s.workers && s'.workers[w] == s.workers[w]
    ensures EndTrue(Step(s, call), w)
  {
    var s' := Step(s, call);
    assert EndTrue(s, w);
    HeldStays(s, call, w);
    if s.workers[w].Ending? {
      var id := s.queue.held[w].claim.row;
      assert HeldFits(s.queue, w);
      if Records(s, call, id) { RecordedKeepsEvent(s, call, id); } else { OtherRowsStay(s, call, id); }
      BorneStays(s, call, s.queue.rows[id], s'.queue.rows[id], s.workers[w].outcome.code);
    }
  }

  lemma ComparedEndsTrue(s: World, w: Worker)
    requires Inv(s) && InPhase(s, w) && s.workers[w].Holding?
    ensures EndTrue(Step(s, Compare(w)), w)
  {
    assert TaskFits(s, w);
    assert Step(s, Compare(w)) == CompareVersions(s, w, s.workers[w].task);
  }

  lemma EndsTrue(s: World, call: Call, w: Worker)
    requires Inv(s) && VerdictsTrue(s) && w in Step(s, call).workers
    ensures EndTrue(Step(s, call), w)
  {
    var s' := Step(s, call);
    if w in s.workers && s'.workers[w] == s.workers[w] {
      EndsStayTrue(s, call, w);
    } else if !call.Compare? {
      OtherEndsAreMute(s, call, w);
    } else {
      ReadingStays(s, call);
      ComparedEndsTrue(s, w);
    }
  }

  lemma SettledRowTrue(s: World, w: Worker)
    requires VerdictsTrue(s) && w in s.queue.held && Records(s, Settle(w), s.queue.held[w].claim.row)
    ensures RowTrue(Step(s, Settle(w)), s.queue.held[w].claim.row)
  {
    var id, outcome := s.queue.held[w].claim.row, s.workers[w].outcome;
    var s' := Step(s, Settle(w));
    assert s' == SettleAttempt(s, w, outcome);
    assert EndTrue(s, w);
    var final := FailureOutcome(outcome, s.queue.held[w].claim.attempts, s.queue.rows[id].receivedAt, s.queue.now);
    assert s'.queue.rows[id] == Settled(s.queue.rows[id], final, s.queue.now);
  }

  lemma CommittedRowTrue(s: World, call: Call)
    requires Inv(s) && TakesEffect(s, call)
    ensures RowTrue(Step(s, call), s.queue.held[call.worker].claim.row)
  {
    TablesChangeByCommit(s, call);
    assert TaskFits(s, call.worker);
  }

  lemma RowsTrue(s: World, call: Call, id: RowId)
    requires Inv(s) && VerdictsTrue(s) && id in Step(s, call).queue.rows
    ensures RowTrue(Step(s, call), id)
  {
    if Records(s, call, id) {
      if call.Commit? { CommittedRowTrue(s, call); } else { SettledRowTrue(s, call.worker); }
    } else {
      OtherRowsStay(s, call, id);
      if id in s.queue.rows {
        assert RowTrue(s, id);
        var row := s.queue.rows[id];
        if row.outcomeCode.Some? { BorneStays(s, call, row, Step(s, call).queue.rows[id], row.outcomeCode.value); }
      }
    }
  }

  /** Over every run each recorded outcome is true of the order's record ever after. In particular no processed event is
      lost: its order is executed, at its version or, if it was stale, at a later one. */
  lemma {:induction false} OutcomesAreTrue(s: World, calls: seq<Call>)
    requires Inv(s) && VerdictsTrue(s)
    ensures VerdictsTrue(Run(s, calls))
    decreases |calls|
  {
    if calls != [] {
      var s' := Step(s, calls[0]);
      StepKeeps(s, calls[0]);
      forall id | id in s'.queue.rows ensures RowTrue(s', id) { RowsTrue(s, calls[0], id); }
      forall w | w in s'.workers ensures EndTrue(s', w) { EndsTrue(s, calls[0], w); }
      OutcomesAreTrue(s', calls[1..]);
    }
  }

  /** A dead-lettered amendment was one: its order is executed at an earlier version. */
  lemma ProcessedIsExecuted(s: World, calls: seq<Call>, id: RowId)
    requires Initial(s) && id in Run(s, calls).queue.rows
    ensures var s' := Run(s, calls);
            var row := s'.queue.rows[id];
            row.status.Done? || row.outcomeCode == Some(AMENDMENT_UNSUPPORTED) ==>
              && row.payload.Placed? && row.tenant.Some? && row.outcomeCode.Some?
              && var key := OrderKey(row.tenant.value, row.payload.order.orderId);
              && key in s'.tables.executions && key in s'.tables.consequences
              && Says(row.outcomeCode.value, row.payload.order, s'.tables.consequences[key])
  {
    InitialFits(s);
    RunKeeps(s, calls);
    OutcomesAreTrue(s, calls);
    assert RowTrue(Run(s, calls), id);
  }
}
