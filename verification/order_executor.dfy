/**
 The order executor as it runs, in place: every database or engine call has the effect of the transition system's
 `Step`, and a whole attempt, with other workers' calls in between, is one of its runs.
 */
module OrderExecutor {
  import opened Prelude
  import opened ExecutionPolicy
  import opened Inbox
  import opened InboxSupport
  import opened Orders

  class Site {
    var rows: map<RowId, Row<Payload>>
    var held: map<Worker, Held>
    var history: map<RowId, History>
    var now: Time
    var placements: Placements
    var masters: Masters
    var locks: Locks<OrderKey>
    var orders: map<nat, NativeOrder>
    var consequences: map<OrderKey, Consequence>
    var executions: map<OrderKey, Execution>
    var outbox: seq<ConsequenceChanged>
    var workers: map<Worker, Phase>

    function Stored(): Tables
      reads this
    {
      Tables(consequences, executions, outbox)
    }

    function Snapshot(): World
      reads this
    {
      World(Queue(rows, held, history, now), placements, masters, locks, orders, Stored(), workers)
    }

    constructor ()
      ensures Snapshot() == World(NewQueue(), map[], map[], map[], map[], Tables(map[], map[], []), map[])
    {
      rows, held, history, now := map[], map[], map[], 0;
      placements, masters, locks, orders := map[], map[], map[], map[];
      consequences, executions, outbox := map[], map[], [];
      workers := map[];
    }

    method Unlock(w: Worker)
      modifies this`locks
      ensures locks == Released(old(locks), w)
    {
      locks := map key | key in locks && locks[key] != w :: locks[key];
    }

    method Stop(w: Worker, outcome: Outcome)
      modifies this`locks, this`workers
      ensures Snapshot() == End(old(Snapshot()), w, outcome)
    {
      Unlock(w);
      workers := workers[w := Ending(outcome)];
    }

    // -------------------------------------------------------------------------------------------------------------
    // Lines and units
    // -------------------------------------------------------------------------------------------------------------

    /** `_resolve_lines`: all lines resolved, or the ones that have no product. */
    method ResolveLines(t: Task) returns (lines: seq<NativeLine>, missing: seq<string>)
      ensures lines == ResolvedLines(masters, t, t.order.lines)
      ensures missing == [] <==> AllMapped(masters, t)
    {
      lines, missing := [], [];
      for i := 0 to |t.order.lines|
        invariant lines == ResolvedLines(masters, t, t.order.lines[..i])
        invariant missing == [] <==> forall j :: 0 <= j < i ==> ProductOf(t, t.order.lines[j]) in masters
      {
        var line := t.order.lines[i];
        assert t.order.lines[..i + 1][..i] == t.order.lines[..i];
        if ProductOf(t, line) !in masters {
          missing := missing + [line.lineId];
        } else {
          lines := lines + [NativeLine(masters[ProductOf(t, line)], line.quantity, line.unitPrice)];
        }
      }
      assert t.order.lines[..|t.order.lines|] == t.order.lines;
    }

    /** `_verify_units`: each product's unit is read once and compared with every line that orders it. */
    method VerifyUnits(order: PlacedOrder, lines: seq<NativeLine>, units: map<nat, string>) returns (wrong: seq<string>)
      ensures wrong == [] <==>
                forall i :: 0 <= i < |order.lines| && i < |lines| ==>
                    UnitOf(units, lines[i].product) == order.lines[i].unit
    {
      var codes: map<nat, string> := map[];
      wrong := [];
      var i := 0;
      while i < |order.lines| && i < |lines|
        invariant 0 <= i
        invariant forall product :: product in codes ==> codes[product] == UnitOf(units, product)
        invariant wrong == [] <==>
                    forall j :: 0 <= j < i && j < |order.lines| && j < |lines| ==>
                                  UnitOf(units, lines[j].product) == order.lines[j].unit
      {
        var product := lines[i].product;
        if product !in codes {
          codes := codes[product := UnitOf(units, product)];
        }
        if codes[product] != order.lines[i].unit {
          wrong := wrong + [order.lines[i].lineId];
        }
        i := i + 1;
      }
    }

    // -------------------------------------------------------------------------------------------------------------
    // The calls of an attempt
    // -------------------------------------------------------------------------------------------------------------

    method Lease(w: Worker, id: RowId, lease: Time)
      requires CanTake(Queue(rows, held, history, now), w, id)
      modifies this`rows, this`held, this`history
      ensures Queue(rows, held, history, now) == TakeRow(old(Queue(rows, held, history, now)), w, id, lease)
    {
      var turn := history[id].claims + 1;
      history := history[id := history[id].(claims := turn, plain := history[id].plain && Waits(rows[id]))];
      rows := rows[id := Leased(rows[id], w, lease, now)];
      held := held[w := Held(Claimed(id, w, rows[id].attempts), turn)];
    }

    method Begin(w: Worker, contended: bool)
      requires InPhase(Snapshot(), w)
      modifies this`locks, this`workers
      ensures Snapshot() == BeginAttempt(old(Snapshot()), w, contended)
    {
      var row := rows[held[w].claim.row];
      if row.payload.Malformed? {
        Stop(w, Permanent(PAYLOAD_INVALID));
        return;
      }
      if row.tenant.None? || row.tenant.value == "" {
        Stop(w, Permanent(TENANT_MISSING));
        return;
      }
      var place := (row.tenant.value, row.payload.order.legalEntity);
      if place !in placements || placements[place].instance.None? {
        Stop(w, Waiting(TENANT_UNMAPPED));
        return;
      }
      var t := Task(row.tenant.value, row.payload.order, placements[place].client, placements[place].instance.value);
      if contended || KeyOf(t) in locks {
        Stop(w, Contended(ORDER_CONTENDED));
      } else {
        locks := locks[KeyOf(t) := w];
        workers := workers[w := Holding(t)];
      }
    }

    method Compare(w: Worker, t: Task)
      modifies this`locks, this`workers
      ensures Snapshot() == CompareVersions(old(Snapshot()), w, t)
    {
      if KeyOf(t) !in consequences {
        workers := workers[w := Checked(t)];
        return;
      }
      var known := consequences[KeyOf(t)];
      if t.order.version == known.version {
        Stop(w, Processing(ALREADY_EXECUTED));
      } else if t.order.version < known.version {
        Stop(w, Processing(STALE_VERSION));
      } else {
        Stop(w, Permanent(AMENDMENT_UNSUPPORTED));
      }
    }

    /** The ids an engine query for the reference returns. */
    method QueryReference(client: nat, reference: string) returns (found: seq<nat>)
      ensures forall i, j :: 0 <= i < j < |found| ==> found[i] != found[j]
      ensures (set n | n in found) == Referring(orders, client, reference)
    {
      found := [];
      var left := orders.Keys;
      while left != {}
        invariant left <= orders.Keys
        invariant forall i, j :: 0 <= i < j < |found| ==> found[i] != found[j]
        invariant forall n :: n in found <==> n in orders && n !in left && Carries(orders[n], client, reference)
        decreases left
      {
        var n :| n in left;
        left := left - {n};
        if Carries(orders[n], client, reference) {
          found := found + [n];
        }
      }
    }

    /** What is checked before the engine is searched: the outcome that ends the attempt, or the fields to order
        with. */
    method Prepare(t: Task, session: Session, gate: Gate) returns (refused: Option<Outcome>, fields: OrderFields)
      ensures refused.None? <==> AllMapped(masters, t) && session.Ready? && CustomerOf(t) in masters && gate.Open?
      ensures refused.None? ==> fields == FieldsFor(masters, t)
      ensures forall s: World, w :: s.masters == masters && refused.Some? ==>
                SearchEngine(s, w, t, session, gate, Answered) == End(s, w, refused.value)
    {
      fields := OrderFields(0, "", []);
      var lines, missing := ResolveLines(t);
      if missing != [] {
        return Some(Waiting(PRODUCT_UNMAPPED)), fields;
      }
      if !session.Ready? {
        return Some(SessionFailure(session)), fields;
      }
      if CustomerOf(t) !in masters {
        return Some(Waiting(CUSTOMER_UNMAPPED)), fields;
      }
      if gate.NoAuthority? {
        return Some(Waiting(LEGAL_ACTOR_PENDING)), fields;
      }
      if gate.Denied? {
        return Some(Waiting(LEGAL_ACTOR_DENIED)), fields;
      }
      return None, OrderFields(masters[CustomerOf(t)], t.order.currency, lines);
    }

    method Search(w: Worker, t: Task, session: Session, gate: Gate, reply: Reply)
      modifies this`locks, this`workers
      ensures Snapshot() == SearchEngine(old(Snapshot()), w, t, session, gate, reply)
    {
      ghost var s := Snapshot();
      var refused, fields := Prepare(t, session, gate);
      if refused.Some? {
        assert SearchEngine(s, w, t, session, gate, reply) == SearchEngine(s, w, t, session, gate, Answered);
        Stop(w, refused.value);
        return;
      }
      if !reply.Answered? {
        Stop(w, EngineFailure(reply));
        return;
      }
      var found := QueryReference(t.client, t.order.orderId);
      ghost var referring := Referring(orders, t.client, t.order.orderId);
      if |found| > 1 {
        assert {found[0], found[1]} <= referring && |{found[0], found[1]}| == 2;
        CardinalityGrows({found[0], found[1]}, referring);
        Stop(w, Permanent(DUPLICATE_NATIVE_ORDERS));
      } else if found == [] {
        assert referring == {};
        workers := workers[w := Missing(t, fields)];
      } else {
        assert referring == {found[0]};
        workers := workers[w := Applied(t, found[0], true)];
      }
    }

    method Create(w: Worker, t: Task, fields: OrderFields, n: nat, units: map<nat, string>, reading: Reply,
        permitted: bool,
                  took: bool, reply: Reply)
      modifies this`locks, this`workers, this`orders
      ensures Snapshot() == CreateOrder(old(Snapshot()), w, t, fields, n, units, reading, permitted, took, reply)
    {
      if !reading.Answered? {
        Stop(w, EngineFailure(reading));
        return;
      }
      var wrong := VerifyUnits(t.order, fields.lines, units);
      if wrong != [] {
        Stop(w, Permanent(UNIT_MISMATCH));
        return;
      }
      if !permitted {
        Stop(w, Waiting(LEGAL_ACTOR_DENIED));
        return;
      }
      var created := took && n !in orders;
      if created {
        orders := orders[n := NativeOrder(t.client, t.order.orderId, fields, Some(KeyOf(t)))];
      }
      if created && reply.Answered? {
        workers := workers[w := Applied(t, n, false)];
      } else {
        Stop(w, EngineFailure(reply));
      }
    }

    /** The fenced settlement of a row, in the caller's transaction. */
    method Finish(w: Worker, outcome: Outcome) returns (applied: bool)
      modifies this`rows, this`held, this`history
      ensures applied <==> Holds(old(Queue(rows, held, history, now)), w)
      ensures Queue(rows, held, history, now) == FinishRow(old(Queue(rows, held, history, now)), w, outcome)
    {
      applied := Holds(Queue(rows, held, history, now), w);
      if applied {
        var claim := held[w].claim;
        var row := rows[claim.row];
        var final := FailureOutcome(outcome, claim.attempts, row.receivedAt, now);
        rows := rows[claim.row := Settled(row, final, now)];
        history := history[claim.row := Count(history[claim.row], outcome, final)];
      }
      held := held - {w};
    }

    /** The one transaction: consequence record, order link, announcement and inbox outcome; a lost lease rolls it
        back. */
    method Transaction(w: Worker, t: Task, n: nat, adopted: bool, source: RowId) returns (applied: bool)
      modifies this`rows, this`held, this`history, this`consequences, this`executions, this`outbox
      ensures applied <==> Holds(old(Queue(rows, held, history, now)), w)
      ensures Queue(rows, held, history, now) == FinishRow(old(Queue(rows, held, history, now)), w,
          Processing(CodeOf(adopted)))
      ensures Stored() == if applied then RecordExecution(old(Stored()), t, n, adopted, source) else old(Stored())
    {
      var savepoint := Stored();
      var record := Consequence(t.order.legalEntity, t.order.version);
      consequences := consequences[KeyOf(t) := record];
      executions := executions[KeyOf(t) := Execution(n, adopted, source)];
      outbox := outbox + [ConsequenceChanged(KeyOf(t), record)];
      applied := Finish(w, Processing(CodeOf(adopted)));
      if !applied {
        consequences, executions, outbox := savepoint.consequences, savepoint.executions, savepoint.outbox;
      }
    }

    method Commit(w: Worker, t: Task, n: nat, adopted: bool) returns (applied: bool)
      requires InPhase(Snapshot(), w)
      modifies this
      ensures Snapshot() == CommitExecution(old(Snapshot()), w, t, n, adopted)
      ensures applied ==> Snapshot() == Committed(old(Snapshot()), w, t, n, adopted)
      ensures !applied ==> Snapshot() == Leave(old(Snapshot()), w) || Snapshot() == End(old(Snapshot()), w, UNEXPECTED)
    {
      if KeyTaken(Stored(), KeyOf(t), n) {
        Stop(w, UNEXPECTED);
        return false;
      }
      applied := Transaction(w, t, n, adopted, held[w].claim.row);
      Unlock(w);
      workers := workers - {w};
    }

    method Settle(w: Worker, outcome: Outcome) returns (applied: bool)
      modifies this`rows, this`held, this`history, this`workers
      ensures applied <==> Holds(old(Snapshot()).queue, w)
      ensures Snapshot() == SettleAttempt(old(Snapshot()), w, outcome)
    {
      applied := Finish(w, outcome);
      workers := workers - {w};
    }

    method Crash(w: Worker)
      modifies this`locks, this`workers, this`held
      ensures Snapshot() == Leave(old(Snapshot()), w)
    {
      Unlock(w);
      workers := workers - {w};
      held := held - {w};
    }

    /** What happens around the workers: ingress, the clock, and what others write. */
    method Surroundings(call: Call)
      requires call.Receive? || call.Tick? || call.Place? || call.Master? || call.ByHand?
      modifies this
      ensures Snapshot() == Step(old(Snapshot()), call)
    {
      match call {
        case Receive(id, tenant, payload) =>
          if id !in rows {
            rows := rows[id := NewRow("order.placed", tenant, payload, now)];
            history := history[id := History(0, 0, 0, 0, true)];
          }
        case Tick(elapsed) => now := now + elapsed;
        case Place(place, placement) =>
          if place !in placements { placements := placements[place := placement]; }
        case Master(key, id) => masters := masters[key := id];
        case ByHand(n, client, reference, fields) =>
          if n !in orders { orders := orders[n := NativeOrder(client, reference, fields, None)]; }
      }
    }

    /** One call of the transition system, carried out in place. */
    method Perform(call: Call)
      modifies this
      ensures Snapshot() == Step(old(Snapshot()), call)
    {
      if call.Take? {
        if call.worker !in workers && CanTake(Queue(rows, held, history, now), call.worker, call.id) {
          Lease(call.worker, call.id, call.lease);
          workers := workers[call.worker := Started];
        }
      } else if call.Crash? {
        Crash(call.worker);
      } else if !ByWorker(call) {
        Surroundings(call);
      } else if InPhase(Snapshot(), call.worker) {
        WorkerCall(call);
      }
    }

    method WorkerCall(call: Call)
      requires ByWorker(call) && InPhase(Snapshot(), call.worker)
      modifies this
      ensures Snapshot() == WorkerStep(old(Snapshot()), call)
    {
      var phase := workers[call.worker];
      match call {
        case Begin(w, contended) => if phase.Started? { Begin(w, contended); }
        case Compare(w) => if phase.Holding? { Compare(w, phase.task); }
        case Search(w, session, gate, reply) => if phase.Checked? { Search(w, phase.task, session, gate, reply); }
        case Create(w, n, units, reading, permitted, took, reply) =>
          if phase.Missing? { Create(w, phase.task, phase.fields, n, units, reading, permitted, took, reply); }
        case Commit(w) => if phase.Applied? { var _ := Commit(w, phase.task, phase.native, phase.adopted); }
        case Settle(w) => if phase.Ending? { var _ := Settle(w, phase.outcome); }
        case Stumble(w) => Stop(w, UNEXPECTED);
      }
    }

    /** Calls of any workers, one after another. */
    method Interleave(calls: seq<Call>)
      modifies this
      ensures Snapshot() == Run(old(Snapshot()), calls)
    {
      for i := 0 to |calls|
        invariant Snapshot() == Run(old(Snapshot()), calls[..i])
      {
        Perform(calls[i]);
        RunAppends(old(Snapshot()), calls[..i], [calls[i]]);
        assert calls[..i + 1] == calls[..i] + [calls[i]];
      }
      assert calls[..|calls|] == calls;
    }

    // -------------------------------------------------------------------------------------------------------------
    // A whole attempt
    // -------------------------------------------------------------------------------------------------------------

    /** One call of worker `w`, then whatever other workers do before its next one. */
    method Turn(w: Worker, call: Call, others: seq<Call>)
      requires InPhase(Snapshot(), w) && OthersOnly(others, w) && NextFor(call, w, workers[w])
      modifies this
      ensures Snapshot() == Run(old(Snapshot()), [call] + others)
      ensures InPhase(Snapshot(), w) && held[w] == old(held[w])
      ensures Follows(call, workers[w])
    {
      ghost var start := Snapshot();
      Perform(call);
      OwnCallStays(start, call, w);
      ghost var after := Snapshot();
      assert InPhase(after, w) && after.queue == start.queue;
      Interleave(others);
      OthersLeaveAlone(after, others, w);
      RunStarts(start, call, others);
    }

    /** `_execute` up to its transaction: `a` has the engine's answers and the other workers' calls in between. */
    method Execute(w: Worker, a: Around) returns (ghost trace: seq<Call>)
      requires InPhase(Snapshot(), w) && workers[w].Started?
      requires forall i :: OthersOnly(a.between(i), w)
      modifies this
      ensures Snapshot() == Run(old(Snapshot()), trace)
      ensures InPhase(Snapshot(), w) && held[w] == old(held[w])
      ensures workers[w].Applied? || workers[w].Ending?
    {
      ghost var start := Snapshot();
      Turn(w, Call.Begin(w, a.contended), a.between(0));
      trace := [Call.Begin(w, a.contended)] + a.between(0);
      if workers[w].Ending? {
        return;
      }
      trace := Traced(start, trace, [Call.Compare(w)] + a.between(1));
      Turn(w, Call.Compare(w), a.between(1));
      if workers[w].Ending? {
        return;
      }
      trace := Traced(start, trace, [Call.Search(w, a.session, a.gate, a.searching)] + a.between(2));
      Turn(w, Call.Search(w, a.session, a.gate, a.searching), a.between(2));
      if !workers[w].Missing? {
        return;
      }
      var create := Call.Create(w, a.native, a.units, a.reading, a.permitted, a.took, a.writing);
      trace := Traced(start, trace, [create] + a.between(3));
      Turn(w, create, a.between(3));
    }

    /** `run_claim`: one attempt under `settle`. `recorded` is whether it settled the row; it did not if the lease was
        lost. */
    method RunClaim(w: Worker, a: Around) returns (outcome: Outcome, recorded: bool, ghost trace: seq<Call>)
      requires InPhase(Snapshot(), w) && workers[w].Started? && held[w].claim.attempts >= 1
      requires forall i :: OthersOnly(a.between(i), w)
      modifies this
      ensures Snapshot() == Run(old(Snapshot()), trace)
      ensures w !in workers && w !in held
      ensures recorded ==>
                var id := old(held[w]).claim.row;
                && id in rows && rows[id].claimedBy.None?
                && rows[id].status == StatusOf(outcome.verdict) && rows[id].outcomeCode == Some(outcome.code)
      ensures recorded || outcome.code in {LEASE_LOST, UNEXPECTED_ERROR, ATTEMPTS_EXHAUSTED}
    {
      ghost var start := Snapshot();
      trace := Execute(w, a);
      if workers[w].Applied? {
        var phase := workers[w];
        trace := Traced(start, trace, [Call.Commit(w)]);
        ghost var before := Snapshot();
        recorded := Commit(w, phase.task, phase.native, phase.adopted);
        CommitEffect(before, Call.Commit(w));
        RunOne(before, Call.Commit(w));
        if recorded {
          return Processing(CodeOf(phase.adopted)), true, trace;
        }
        if w !in workers {
          return Outcome(Retry, LEASE_LOST, None, false), false, trace;
        }
      }
      outcome, recorded := SettleOutcome(w, workers[w].outcome);
      trace := Traced(start, trace, [Call.Settle(w)]);
    }

    method SettleOutcome(w: Worker, ending: Outcome) returns (outcome: Outcome, recorded: bool)
      requires InPhase(Snapshot(), w) && workers[w] == Ending(ending) && held[w].claim.attempts >= 1
      modifies this`rows, this`held, this`history, this`workers
      ensures Snapshot() == Run(old(Snapshot()), [Call.Settle(w)])
      ensures w !in workers && w !in held
      ensures recorded ==>
                var id := old(held[w]).claim.row;
                && id in rows && rows[id].claimedBy.None?
                && rows[id].status == StatusOf(outcome.verdict) && rows[id].outcomeCode == Some(outcome.code)
      ensures recorded || outcome.code in {LEASE_LOST, UNEXPECTED_ERROR, ATTEMPTS_EXHAUSTED}
    {
      ghost var before := Snapshot();
      var claim := held[w].claim;
      outcome := FailureOutcome(ending, claim.attempts, rows[claim.row].receivedAt, now);
      recorded := Settle(w, ending);
      if !recorded && ending != UNEXPECTED {
        outcome := Outcome(Retry, LEASE_LOST, None, false);
      }
      assert Snapshot() == Step(before, Call.Settle(w));
      RunOne(before, Call.Settle(w));
    }
  }

  /** The engine's answers during one attempt, and the calls of other workers that fall between its own. */
  datatype Around = Around(
    contended: bool,
    session: Session,
    gate: Gate,
    searching: Reply,
    native: nat,
    units: map<nat, string>,
    reading: Reply,
    permitted: bool,
    took: bool,
    writing: Reply,
    between: nat -> seq<Call>)

  predicate ByOther(call: Call, w: Worker) {
    call.Receive? || call.Tick? || call.Place? || call.Master? || call.ByHand? || call.worker != w
  }

  predicate OthersOnly(calls: seq<Call>, w: Worker) {
    forall i :: 0 <= i < |calls| ==> ByOther(calls[i], w)
  }

  /** The worker is where it was, with the same claim. */
  ghost predicate Abreast(s: World, s': World, w: Worker)
    requires InPhase(s, w)
  {
    InPhase(s', w) && s'.workers[w] == s.workers[w] && s'.queue.held[w] == s.queue.held[w]
  }

  /** The call that comes next in a phase, and the phases it can lead to. */
  predicate NextFor(call: Call, w: Worker, phase: Phase) {
    match call
    case Begin(v, _) => v == w && phase.Started?
    case Compare(v) => v == w && phase.Holding?
    case Search(v, _, _, _) => v == w && phase.Checked?
    case Create(v, _, _, _, _, _, _) => v == w && phase.Missing?
    case _ => false
  }

  predicate Follows(call: Call, phase: Phase) {
    || phase.Ending?
    || (call.Begin? && phase.Holding?)
    || (call.Compare? && phase.Checked?)
    || (call.Search? && (phase.Missing? || phase.Applied?))
    || (call.Create? && phase.Applied?)
  }

  lemma OwnCallStays(s: World, call: Call, w: Worker)
    requires InPhase(s, w) && NextFor(call, w, s.workers[w])
    ensures InPhase(Step(s, call), w)
    ensures Step(s, call).queue == s.queue
    ensures Follows(call, Step(s, call).workers[w])
  {
    var phase, s' := s.workers[w], WorkerStep(s, call);
    assert Step(s, call) == s';
    match call
    case Begin(_, contended) =>
      assert s' == BeginAttempt(s, w, contended);
      BeginFollows(s, w, contended);
    case Compare(_) => assert s' == CompareVersions(s, w, phase.task) && OnBoard(s, s', w);
    case Search(_, session, gate, reply) =>
      assert s' == SearchEngine(s, w, phase.task, session, gate, reply);
      SearchFollows(s, w, phase.task, session, gate, reply);
    case Create(_, n, units, reading, permitted, took, reply) =>
      assert s' == CreateOrder(s, w, phase.task, phase.fields, n, units, reading, permitted, took, reply);
      CreateFollows(s, w, phase.task, phase.fields, n, units, reading, permitted, took, reply);
  }

  lemma BeginFollows(s: World, w: Worker, contended: bool)
    requires InPhase(s, w)
    ensures var s' := BeginAttempt(s, w, contended);
        OnBoard(s, s', w) && (s'.workers[w].Holding? || s'.workers[w].Ending?)
  {
  }

  lemma SearchFollows(s: World, w: Worker, t: Task, session: Session, gate: Gate, reply: Reply)
    ensures var s' := SearchEngine(s, w, t, session, gate, reply);
            OnBoard(s, s', w) && (s'.workers[w].Missing? || s'.workers[w].Applied? || s'.workers[w].Ending?)
  {
  }

  lemma CreateFollows(s: World, w: Worker, t: Task, fields: OrderFields, n: nat, units: map<nat, string>,
      reading: Reply,
                      permitted: bool, took: bool, reply: Reply)
    ensures var s' := CreateOrder(s, w, t, fields, n, units, reading, permitted, took, reply);
            s'.queue == s.queue && w in s'.workers && (s'.workers[w].Applied? || s'.workers[w].Ending?)
  {
  }

  lemma OnBoardLeavesAlone(s: World, s': World, v: Worker, w: Worker)
    requires InPhase(s, w) && v != w && OnBoard(s, s', v)
    ensures Abreast(s, s', w)
  {
  }

  lemma CommitLeavesAlone(s: World, call: Call, w: Worker)
    requires call.Commit? && InPhase(s, w) && InPhase(s, call.worker) && call.worker != w
        && s.workers[call.worker].Applied?
    ensures Abreast(s, Step(s, call), w)
  {
    var v, phase, s' := call.worker, s.workers[call.worker], Step(s, call);
    CommitEffect(s, call);
    if OnBoard(s, s', v) {
      OnBoardLeavesAlone(s, s', v, w);
    } else if s' != Leave(s, v) {
      assert s' == Committed(s, v, phase.task, phase.native, phase.adopted);
      assert s'.queue == FinishRow(s.queue, v, Processing(CodeOf(phase.adopted))) && s'.workers == s.workers - {v};
    }
  }

  lemma SettleLeavesAlone(s: World, call: Call, w: Worker)
    requires call.Settle? && InPhase(s, w) && InPhase(s, call.worker) && call.worker != w
        && s.workers[call.worker].Ending?
    ensures Abreast(s, Step(s, call), w)
  {
    assert Step(s, call) == SettleAttempt(s, call.worker, s.workers[call.worker].outcome);
  }

  lemma OtherCallLeavesAlone(s: World, call: Call, w: Worker)
    requires InPhase(s, w) && ByOther(call, w)
    ensures Abreast(s, Step(s, call), w)
  {
    match call
    case Receive(_, _, _) =>
    case Tick(_) =>
    case Place(_, _) =>
    case Master(_, _) =>
    case ByHand(_, _, _, _) =>
    case Take(_, _, _) =>
    case Crash(_) =>
    case Create(v, n, _, _, _, _, _) =>
      CreateWrites(s, call);
      var s' := Step(s, call);
      if s' != s {
        if OnBoard(s, s', v) {
          OnBoardLeavesAlone(s, s', v, w);
        } else {
          OnBoardLeavesAlone(Created(s, s.workers[v].task, n, s.workers[v].fields), s', v, w);
        }
      }
    case Commit(v) => if InPhase(s, v) && s.workers[v].Applied? { CommitLeavesAlone(s, call, w); }
    case Settle(v) => if InPhase(s, v) && s.workers[v].Ending? { SettleLeavesAlone(s, call, w); }
    case _ =>
      ReadingStays(s, call);
      if Step(s, call) != s { OnBoardLeavesAlone(s, Step(s, call), call.worker, w); }
  }

  /** A worker's phase and claim are its own. */
  lemma {:induction false} OthersLeaveAlone(s: World, calls: seq<Call>, w: Worker)
    requires InPhase(s, w) && OthersOnly(calls, w)
    ensures Abreast(s, Run(s, calls), w)
    decreases |calls|
  {
    if calls != [] {
      OtherCallLeavesAlone(s, calls[0], w);
      OthersLeaveAlone(Step(s, calls[0]), calls[1..], w);
    }
  }

  /** A run continued by `more`. */
  ghost function Traced(s: World, trace: seq<Call>, more: seq<Call>): (longer: seq<Call>)
    ensures Run(s, longer) == Run(Run(s, trace), more)
  {
    RunAppends(s, trace, more);
    trace + more
  }
}
