/**
 Over whole runs: no row carries a code nothing called for, and every engine order ERP created is what its event asked
 for, in the units its products are sold in.
 */
module OrderCauses {
  import opened Prelude
  import opened ExecutionPolicy
  import opened Inbox
  import opened InboxSupport
  import opened Orders
  import opened OrderSafety
  import opened OrderOutcomes
  import opened OrderAnswers

  lemma NextState(start: World, calls: seq<Call>, n: nat)
    requires n < |calls|
    ensures Run(start, calls[..n + 1]) == Step(Run(start, calls[..n]), calls[n])
  {
    assert calls[..n + 1] == calls[..n] + [calls[n]];
    RunAppends(start, calls[..n], [calls[n]]);
    RunOne(Run(start, calls[..n]), calls[n]);
  }

  // ---------------------------------------------------------------------------------------------------------------
  // No code without its cause
  // ---------------------------------------------------------------------------------------------------------------

  /** The i-th call of the run, by the worker on this row, met what the code says. */
  ghost predicate MetAt(start: World, calls: seq<Call>, i: nat, w: Worker, id: RowId, code: Code)
    requires i < |calls|
  {
    var s := Run(start, calls[..i]);
    && ByWorker(calls[i]) && calls[i].worker == w && InPhase(s, w) && s.queue.held[w].claim.row == id
    && Meets(s, calls[i], code)
  }

  ghost predicate MetBy(start: World, calls: seq<Call>, n: nat, w: Worker, id: RowId, code: Code)
    requires n <= |calls|
  {
    exists i :: 0 <= i < n && MetAt(start, calls, i, w, id, code)
  }

  lemma MetLater(start: World, calls: seq<Call>, n: nat, w: Worker, id: RowId, code: Code)
    requires n < |calls| && MetBy(start, calls, n, w, id, code)
    ensures MetBy(start, calls, n + 1, w, id, code)
  {
    var i :| 0 <= i < n && MetAt(start, calls, i, w, id, code);
  }

  predicate Budget(code: Code) {
    code.ATTEMPTS_EXHAUSTED? || code.BLOCKED_HORIZON_EXCEEDED?
  }

  ghost predicate RowMet(start: World, calls: seq<Call>, n: nat, id: RowId)
    requires n <= |calls|
  {
    var rows := Run(start, calls[..n]).queue.rows;
    id in rows && rows[id].outcomeCode.Some? && !Budget(rows[id].outcomeCode.value) ==>
      exists w :: MetBy(start, calls, n, w, id, rows[id].outcomeCode.value)
  }

  ghost predicate WorkerMet(start: World, calls: seq<Call>, n: nat, w: Worker)
    requires n <= |calls|
  {
    var s := Run(start, calls[..n]);
    InHandOf(s, w).Some? ==>
      w in s.queue.held && MetBy(start, calls, n, w, s.queue.held[w].claim.row, InHandOf(s, w).value)
  }

  ghost predicate AllMet(start: World, calls: seq<Call>, n: nat)
    requires n <= |calls|
  {
    && (forall w {:trigger WorkerMet(start, calls, n, w)} :: WorkerMet(start, calls, n, w))
    && (forall id {:trigger RowMet(start, calls, n, id)} :: RowMet(start, calls, n, id))
  }

  /** Another worker's phase stays; what is new has no code yet. */
  lemma PhaseKept(s: World, call: Call, w: Worker)
    requires w in Step(s, call).workers && !(ByWorker(call) && call.worker == w && InPhase(s, w))
    ensures var s' := Step(s, call);
            (w in s.workers && s'.workers[w] == s.workers[w]) || s'.workers[w].Started?
  {
    if !ByWorker(call) {
      SurroundingsKeepPhases(s, call, w);
    } else if InPhase(s, call.worker) {
      CallKeepsOthers(s, call, w);
    }
  }

  lemma SurroundingsKeepPhases(s: World, call: Call, w: Worker)
    requires !ByWorker(call) && w in Step(s, call).workers
    ensures var s' := Step(s, call);
            (w in s.workers && s'.workers[w] == s.workers[w]) || s'.workers[w].Started?
  {
  }

  lemma CallKeepsOthers(s: World, call: Call, w: Worker)
    requires ByWorker(call) && w in Step(s, call).workers && call.worker != w
    ensures w in s.workers && Step(s, call).workers[w] == s.workers[w]
  {
    if call.Create? {
      if InPhase(s, call.worker) && s.workers[call.worker].Missing? {
        CreateLeavesOthers(s, call, s.workers[call.worker].task, s.workers[call.worker].fields, w);
      }
    } else if call.Commit? || call.Settle? {
      EndsLeaveOthers(s, call, w);
    } else {
      ReadingStays(s, call);
    }
  }

  lemma CreateLeavesOthers(s: World, call: Call, t: Task, fields: OrderFields, w: Worker)
    requires call.Create? && call.worker != w
    ensures var after := CreateOrder(s, call.worker, t, fields, call.native, call.units, call.reading, call.permitted,
                call.took, call.reply).workers;
            (w in after <==> w in s.workers) && (w in after ==> after[w] == s.workers[w])
  {
  }

  lemma EndsLeaveOthers(s: World, call: Call, w: Worker)
    requires (call.Commit? || call.Settle?) && w in Step(s, call).workers && call.worker != w
    ensures w in s.workers && Step(s, call).workers[w] == s.workers[w]
  {
    if InPhase(s, call.worker) {
      if call.Commit? && s.workers[call.worker].Applied? {
        CommitEffect(s, call);
        var p := s.workers[call.worker];
        CommitLeavesOthers(s, call.worker, p.task, p.native, p.adopted, w);
      } else if call.Settle? && s.workers[call.worker].Ending? {
        SettleIsStep(s, call.worker);
      }
    }
  }

  lemma CommitLeavesOthers(s: World, v: Worker, t: Task, n: nat, adopted: bool, w: Worker)
    requires InPhase(s, v) && v != w && w in CommitExecution(s, v, t, n, adopted).workers
    ensures w in s.workers && CommitExecution(s, v, t, n, adopted).workers[w] == s.workers[w]
  {
  }

  lemma WorkerStaysMet(start: World, calls: seq<Call>, n: nat, w: Worker)
    requires n < |calls| && Inv(Run(start, calls[..n])) && AllMet(start, calls, n)
    ensures WorkerMet(start, calls, n + 1, w)
  {
    NextState(start, calls, n);
    var s, call := Run(start, calls[..n]), calls[n];
    var s' := Step(s, call);
    assert WorkerMet(start, calls, n, w);
    if InHandOf(s', w).Some? {
      var code := InHandOf(s', w).value;
      if ByWorker(call) && call.worker == w && InPhase(s, w) {
        CallAnswers(s, call, code);
      } else {
        PhaseKept(s, call, w);
      }
      HeldStays(s, call, w);
      if InHandOf(s, w) == Some(code) {
        MetLater(start, calls, n, w, s.queue.held[w].claim.row, code);
      } else {
        assert MetAt(start, calls, n, w, s.queue.held[w].claim.row, code);
      }
    }
  }

  /** What is recorded is the attempt's own code or a budget's. */
  lemma RecordedCode(s: World, call: Call, id: RowId)
    requires Records(s, call, id)
    ensures id in Step(s, call).queue.rows && InHandOf(s, call.worker).Some?
    ensures var code := Step(s, call).queue.rows[id].outcomeCode;
            code.Some? && (code == InHandOf(s, call.worker) || Budget(code.value))
  {
    if call.Commit? {
      TablesChangeByCommit(s, call);
    } else {
      SettleIsStep(s, call.worker);
    }
  }

  lemma RowStaysMet(start: World, calls: seq<Call>, n: nat, id: RowId)
    requires n < |calls| && AllMet(start, calls, n)
    ensures RowMet(start, calls, n + 1, id)
  {
    NextState(start, calls, n);
    var s, call := Run(start, calls[..n]), calls[n];
    assert RowMet(start, calls, n, id);
    if id in Step(s, call).queue.rows {
      if Records(s, call, id) {
        RecordedCode(s, call, id);
        assert WorkerMet(start, calls, n, call.worker);
        MetLater(start, calls, n, call.worker, id, InHandOf(s, call.worker).value);
      } else {
        OtherRowsStay(s, call, id);
        if id in s.queue.rows && s.queue.rows[id].outcomeCode.Some? && !Budget(s.queue.rows[id].outcomeCode.value) {
          var w :| MetBy(start, calls, n, w, id, s.queue.rows[id].outcomeCode.value);
          MetLater(start, calls, n, w, id, s.queue.rows[id].outcomeCode.value);
        }
      }
    }
  }

  lemma ReachedFits(start: World, calls: seq<Call>)
    requires Initial(start)
    ensures Inv(Run(start, calls))
  {
    InitialFits(start);
    RunKeeps(start, calls);
  }

  lemma {:induction false} RunIsMet(start: World, calls: seq<Call>, n: nat)
    requires Initial(start) && n <= |calls|
    ensures AllMet(start, calls, n)
  {
    if n > 0 {
      RunIsMet(start, calls, n - 1);
      ReachedFits(start, calls[..n - 1]);
      forall w ensures WorkerMet(start, calls, n, w) { WorkerStaysMet(start, calls, n - 1, w); }
      forall id ensures RowMet(start, calls, n, id) { RowStaysMet(start, calls, n - 1, id); }
    }
  }

  /** Over every run no row carries a code, a spent budget aside, unless a call of an attempt at it met what the code
      says. */
  lemma EveryCodeWasMet(start: World, calls: seq<Call>, id: RowId)
    requires Initial(start)
    requires var rows := Run(start, calls).queue.rows;
             id in rows && rows[id].outcomeCode.Some? && !Budget(rows[id].outcomeCode.value)
    ensures exists i, w ::
              0 <= i < |calls| && MetAt(start, calls, i, w, id, Run(start, calls).queue.rows[id].outcomeCode.value)
  {
    RunIsMet(start, calls, |calls|);
    assert calls[..|calls|] == calls;
    assert RowMet(start, calls, |calls|, id);
    var code := Run(start, calls).queue.rows[id].outcomeCode.value;
    var w :| MetBy(start, calls, |calls|, w, id, code);
    var i :| 0 <= i < |calls| && MetAt(start, calls, i, w, id, code);
  }

  // ---------------------------------------------------------------------------------------------------------------
  // What ERP orders
  // ---------------------------------------------------------------------------------------------------------------

  /** The event's customer and products as the master data maps them, its quantities and prices, in its order. */
  predicate Asks(masters: Masters, t: Task, fields: OrderFields) {
    && CustomerMaster(t.instance, t.order.legalEntity, t.order.customerId) in masters
    && fields.partner == masters[CustomerMaster(t.instance, t.order.legalEntity, t.order.customerId)]
    && fields.currency == t.order.currency && |fields.lines| == |t.order.lines|
    && forall i :: 0 <= i < |t.order.lines| ==>
         && var line := t.order.lines[i];
         && ProductMaster(t.instance, t.order.legalEntity, line.skuId) in masters
         && fields.lines[i].product == masters[ProductMaster(t.instance, t.order.legalEntity, line.skuId)]
         && fields.lines[i].quantity == line.quantity && fields.lines[i].unitPrice == line.unitPrice
  }

  ghost predicate AskedBy(start: World, calls: seq<Call>, n: nat, w: Worker, t: Task, fields: OrderFields)
    requires n <= |calls|
  {
    exists i ::
      0 <= i < n && calls[i].Search? && calls[i].worker == w && Asks(Run(start, calls[..i]).masters, t, fields)
  }

  /** The i-th call created this engine order, by a worker on its event, with every line in its product's unit. */
  ghost predicate MadeAt(start: World, calls: seq<Call>, i: nat, n: nat, order: NativeOrder)
    requires i < |calls|
  {
    var s, c := Run(start, calls[..i]), calls[i];
    && c.Create? && c.native == n && n !in s.orders && c.took
    && InPhase(s, c.worker) && s.workers[c.worker].Missing?
    && var t, fields := s.workers[c.worker].task, s.workers[c.worker].fields;
    && EventOf(s, c.worker).payload == Placed(t.order) && EventOf(s, c.worker).tenant == Some(t.tenant)
    && c.reading.Answered? && c.permitted && InUnits(t.order, fields, c.units)
    && AskedBy(start, calls, i, c.worker, t, fields)
    && order == NativeOrder(t.client, t.order.orderId, fields, Some(OrderKey(t.tenant, t.order.orderId)))
  }

  ghost predicate OrderMade(start: World, calls: seq<Call>, k: nat, n: nat)
    requires k <= |calls|
  {
    var orders := Run(start, calls[..k]).orders;
    n in orders && orders[n].maker.Some? ==> exists i :: 0 <= i < k && MadeAt(start, calls, i, n, orders[n])
  }

  ghost predicate MissingAsked(start: World, calls: seq<Call>, k: nat, w: Worker)
    requires k <= |calls|
  {
    var s := Run(start, calls[..k]);
    w in s.workers && s.workers[w].Missing? ==>
      AskedBy(start, calls, k, w, s.workers[w].task, s.workers[w].fields)
  }

  ghost predicate AllMade(start: World, calls: seq<Call>, k: nat)
    requires k <= |calls|
  {
    && (forall w {:trigger MissingAsked(start, calls, k, w)} :: MissingAsked(start, calls, k, w))
    && (forall n {:trigger OrderMade(start, calls, k, n)} :: OrderMade(start, calls, k, n))
  }

  /** A search that finds nothing leaves its worker with what the event asks for. */
  lemma SearchAsks(s: World, w: Worker, t: Task, session: Session, gate: Gate, reply: Reply)
    requires var after := SearchEngine(s, w, t, session, gate, reply).workers; w in after && after[w].Missing?
    ensures var after := SearchEngine(s, w, t, session, gate, reply).workers;
            after[w].task == t && Asks(s.masters, t, after[w].fields)
  {
    ResolvedLinesMatch(s.masters, t, t.order.lines);
  }

  /** Only a search makes an attempt one that is about to create. */
  lemma OnlySearchMisses(s: World, call: Call)
    requires ByWorker(call) && InPhase(s, call.worker) && !call.Search?
    requires var after := WorkerStep(s, call).workers; call.worker in after && after[call.worker].Missing?
    ensures s.workers[call.worker] == WorkerStep(s, call).workers[call.worker]
  {
    if call.Begin? || call.Compare? || call.Stumble? {
      ReadingMissesNothing(s, call);
    } else {
      match call
      case Create(_, _, _, _, _, _, _) =>
      case Commit(_) =>
      case Settle(_) =>
    }
  }

  lemma ReadingMissesNothing(s: World, call: Call)
    requires (call.Begin? || call.Compare? || call.Stumble?) && InPhase(s, call.worker)
    requires var after := WorkerStep(s, call).workers; call.worker in after && after[call.worker].Missing?
    ensures s.workers[call.worker] == WorkerStep(s, call).workers[call.worker]
  {
    match call
    case Begin(_, _) =>
    case Compare(_) =>
    case Stumble(_) =>
  }

  lemma MissingStaysAsked(start: World, calls: seq<Call>, k: nat, w: Worker)
    requires k < |calls| && AllMade(start, calls, k)
    ensures MissingAsked(start, calls, k + 1, w)
  {
    NextState(start, calls, k);
    var s, call := Run(start, calls[..k]), calls[k];
    var s' := Step(s, call);
    assert MissingAsked(start, calls, k, w);
    if w in s'.workers && s'.workers[w].Missing? {
      if ByWorker(call) && call.worker == w && InPhase(s, w) {
        if call.Search? && s.workers[w].Checked? {
          SearchAsks(s, w, s.workers[w].task, call.session, call.gate, call.reply);
        } else if !call.Search? {
          OnlySearchMisses(s, call);
        }
      } else {
        PhaseKept(s, call, w);
      }
    }
  }

  /** A new engine order of ERP's is a create call's, made in its units. */
  lemma CreateMakes(s: World, call: Call, t: Task, fields: OrderFields, n: nat)
    requires call.Create?
    requires n in CreateOrder(s, call.worker, t, fields, call.native, call.units, call.reading, call.permitted,
               call.took, call.reply).orders
    ensures var orders := CreateOrder(s, call.worker, t, fields, call.native, call.units, call.reading, call.permitted,
                call.took, call.reply).orders;
            || (n in s.orders && orders[n] == s.orders[n])
            || (n == call.native && n !in s.orders && call.took && call.reading.Answered? && call.permitted
                && InUnits(t.order, fields, call.units)
                && orders[n]
                   == NativeOrder(t.client, t.order.orderId, fields, Some(OrderKey(t.tenant, t.order.orderId))))
  {
    UnitsAreAgreed(t.order, fields, call.units);
  }

  lemma OtherCallsMakeNone(s: World, call: Call, n: nat)
    requires !call.Create? && n in Step(s, call).orders && Step(s, call).orders[n].maker.Some?
    ensures n in s.orders && s.orders[n] == Step(s, call).orders[n]
  {
    match call
    case Commit(_) => if InPhase(s, call.worker) && s.workers[call.worker].Applied? { CommitEffect(s, call); }
    case Begin(_, _) => ReadingStays(s, call);
    case Compare(_) => ReadingStays(s, call);
    case Search(_, _, _, _) => ReadingStays(s, call);
    case Stumble(_) => ReadingStays(s, call);
    case _ =>
  }

  lemma OrderStaysMade(start: World, calls: seq<Call>, k: nat, n: nat)
    requires k < |calls| && Inv(Run(start, calls[..k])) && AllMade(start, calls, k)
    ensures OrderMade(start, calls, k + 1, n)
  {
    NextState(start, calls, k);
    var s, call := Run(start, calls[..k]), calls[k];
    var s' := Step(s, call);
    assert OrderMade(start, calls, k, n);
    if n in s'.orders && s'.orders[n].maker.Some? {
      if !call.Create? {
        OtherCallsMakeNone(s, call, n);
      } else if InPhase(s, call.worker) && s.workers[call.worker].Missing? {
        CreateMakes(s, call, s.workers[call.worker].task, s.workers[call.worker].fields, n);
        assert TaskFits(s, call.worker);
        assert MissingAsked(start, calls, k, call.worker);
        if n !in s.orders { assert MadeAt(start, calls, k, n, s'.orders[n]); }
      }
    }
  }

  lemma {:induction false} RunIsMade(start: World, calls: seq<Call>, k: nat)
    requires Initial(start) && k <= |calls|
    ensures AllMade(start, calls, k)
  {
    if k > 0 {
      RunIsMade(start, calls, k - 1);
      ReachedFits(start, calls[..k - 1]);
      forall w ensures MissingAsked(start, calls, k, w) { MissingStaysAsked(start, calls, k - 1, w); }
      forall n ensures OrderMade(start, calls, k, n) { OrderStaysMade(start, calls, k - 1, n); }
    }
  }

  /** Over every run: each engine order of ERP's was created for its own event, with the customer and products the
      master data mapped when its attempt searched, the event's quantities and prices, and every line in the unit the
      engine gave for its product. */
  lemma EveryOrderWasAskedFor(start: World, calls: seq<Call>, n: nat)
    requires Initial(start) && n in Run(start, calls).orders && Run(start, calls).orders[n].maker.Some?
    ensures exists i :: 0 <= i < |calls| && MadeAt(start, calls, i, n, Run(start, calls).orders[n])
  {
    RunIsMade(start, calls, |calls|);
    assert calls[..|calls|] == calls;
    assert OrderMade(start, calls, |calls|, n);
  }

  /** A line in another unit than its product's: nothing is created, and the event is a dead letter. */
  lemma WrongUnitOrdersNothing(start: World, calls: seq<Call>, call: Call, line: nat)
    requires Initial(start) && call.Create? && call.reading.Answered?
    requires var s := Run(start, calls);
             && InPhase(s, call.worker) && Holds(s.queue, call.worker) && s.workers[call.worker].Missing?
             && var t, fields := s.workers[call.worker].task, s.workers[call.worker].fields;
             && line < |t.order.lines| && line < |fields.lines| && fields.lines[line].product in call.units
             && call.units[fields.lines[line].product] != t.order.lines[line].unit
    ensures var s, s' := Run(start, calls), Run(start, calls + [call, Settle(call.worker)]);
            var id := s.queue.held[call.worker].claim.row;
            && s'.orders == s.orders
            && id in s'.queue.rows && s'.queue.rows[id].status.Dead?
            && s'.queue.rows[id].outcomeCode == Some(UNIT_MISMATCH)
  {
    var s := Run(start, calls);
    var p := s.workers[call.worker];
    assert !InUnits(p.task.order, p.fields, call.units);
    RunIsShaped(start, calls);
    AnswerThenSettle(s, call, UNIT_MISMATCH);
    RunAppends(start, calls, [call, Settle(call.worker)]);
    WrongUnitCreatesNothing(s, call);
  }

  lemma WrongUnitCreatesNothing(s: World, call: Call)
    requires call.Create? && InPhase(s, call.worker) && s.workers[call.worker].Missing?
    requires !InUnits(s.workers[call.worker].task.order, s.workers[call.worker].fields, call.units)
    ensures Step(s, call).orders == s.orders
  {
    var p := s.workers[call.worker];
    UnitsAreAgreed(p.task.order, p.fields, call.units);
  }
}
