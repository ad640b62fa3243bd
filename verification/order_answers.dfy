/**
 What an attempt at an order event answers, in the terms of what it met: which call, with which data, reply or rows,
 gives which code, and what the code does to the row. `OrderCauses` has the converse.
 */
module OrderAnswers {
  import opened Prelude
  import opened ExecutionPolicy
  import opened Inbox
  import opened InboxAnswers
  import opened InboxSupport
  import opened Orders
  import opened OrderSafety

  // ---------------------------------------------------------------------------------------------------------------
  // What each code stands for
  // ---------------------------------------------------------------------------------------------------------------

  function EventOf(s: World, w: Worker): Row<Payload>
    requires InPhase(s, w)
  {
    s.queue.rows[s.queue.held[w].claim.row]
  }

  predicate Named(row: Row<Payload>) {
    row.tenant.Some? && row.tenant.value != ""
  }

  /** The event's tenant and legal entity have an engine to go to. */
  predicate HasEngine(s: World, row: Row<Payload>)
    requires row.payload.Placed? && row.tenant.Some?
  {
    var place := (row.tenant.value, row.payload.order.legalEntity);
    place in s.placements && s.placements[place].instance.Some?
  }

  predicate KeyHeld(s: World, row: Row<Payload>)
    requires row.payload.Placed? && row.tenant.Some?
  {
    OrderKey(row.tenant.value, row.payload.order.orderId) in s.locks
  }

  predicate BeginMeets(s: World, row: Row<Payload>, contended: bool, code: Code) {
    match code
    case PAYLOAD_INVALID => row.payload.Malformed?
    case TENANT_MISSING => row.payload.Placed? && !Named(row)
    case TENANT_UNMAPPED => row.payload.Placed? && Named(row) && !HasEngine(s, row)
    case ORDER_CONTENDED => row.payload.Placed? && Named(row) && HasEngine(s, row) && (contended || KeyHeld(s, row))
    case _ => false
  }

  /** The order is known at this version, a later or an earlier one. */
  predicate CompareMeets(s: World, t: Task, code: Code) {
    && OrderKey(t.tenant, t.order.orderId) in s.tables.consequences
    && var known := s.tables.consequences[OrderKey(t.tenant, t.order.orderId)].version;
    match code
    case ALREADY_EXECUTED => t.order.version == known
    case STALE_VERSION => t.order.version < known
    case AMENDMENT_UNSUPPORTED => t.order.version > known
    case _ => false
  }

  predicate EveryProductKnown(masters: Masters, t: Task) {
    forall i :: 0 <= i < |t.order.lines| ==>
                  ProductMaster(t.instance, t.order.legalEntity, t.order.lines[i].skuId) in masters
  }

  predicate CustomerKnown(masters: Masters, t: Task) {
    CustomerMaster(t.instance, t.order.legalEntity, t.order.customerId) in masters
  }

  predicate HasReference(s: World, n: nat, t: Task) {
    n in s.orders && s.orders[n].client == t.client && s.orders[n].reference == t.order.orderId
  }

  ghost predicate SeveralReferring(s: World, t: Task) {
    exists m: nat, n: nat :: m != n && HasReference(s, m, t) && HasReference(s, n, t)
  }

  /** The search is made, and answered. */
  predicate Searched(s: World, t: Task, session: Session, gate: Gate, reply: Reply) {
    && EveryProductKnown(s.masters, t) && session.Ready? && CustomerKnown(s.masters, t) && gate.Open?
    && reply.Answered?
  }

  /** What keeps it from being made. */
  function SearchRefusal(s: World, t: Task, session: Session, gate: Gate, reply: Reply): Code {
    if !EveryProductKnown(s.masters, t) then PRODUCT_UNMAPPED
    else if session.WrongOrg? then ENGINE_ORG_MISMATCH
    else if session.Unconfigured? then ENGINE_UNCONFIGURED
    else if !CustomerKnown(s.masters, t) then CUSTOMER_UNMAPPED
    else if gate.NoAuthority? then LEGAL_ACTOR_PENDING
    else if gate.Denied? then LEGAL_ACTOR_DENIED
    else CodeOfFailure(reply)
  }

  ghost predicate SearchMeets(s: World, t: Task, session: Session, gate: Gate, reply: Reply, code: Code) {
    if !Searched(s, t, session, gate, reply) then code == SearchRefusal(s, t, session, gate, reply)
    else if SeveralReferring(s, t) then code.DUPLICATE_NATIVE_ORDERS?
    else code.ADOPTED_NATIVE_ORDER? && exists n: nat :: HasReference(s, n, t)
  }

  /** Every line's product is sold in the line's unit; a unit the engine does not have reads "None". */
  predicate InUnits(order: PlacedOrder, fields: OrderFields, units: map<nat, string>) {
    forall i :: 0 <= i < |order.lines| && i < |fields.lines| ==>
      var product := fields.lines[i].product;
      order.lines[i].unit == (if product in units then units[product] else "None")
  }

  function CreateAnswer(s: World, t: Task, fields: OrderFields, n: nat, units: map<nat, string>, reading: Reply,
      permitted: bool, took: bool, reply: Reply): Code
  {
    if !reading.Answered? then CodeOfFailure(reading)
    else if !InUnits(t.order, fields, units) then UNIT_MISMATCH
    else if !permitted then LEGAL_ACTOR_DENIED
    else if took && reply.Answered? && n !in s.orders then EXECUTED
    else CodeOfFailure(reply)
  }

  ghost predicate CommitMeets(s: World, t: Task, n: nat, code: Code) {
    && code.UNEXPECTED_ERROR?
    && var key := OrderKey(t.tenant, t.order.orderId);
    || key in s.tables.consequences || key in s.tables.executions
    || exists other ::
        other in s.tables.executions && other.tenant == t.tenant && s.tables.executions[other].native == n
  }

  /** The call meets what the code says, in the state it is made in. */
  ghost predicate Meets(s: World, call: Call, code: Code)
    requires ByWorker(call) && InPhase(s, call.worker)
  {
    var p := s.workers[call.worker];
    match call
    case Begin(w, contended) => p.Started? && BeginMeets(s, EventOf(s, w), contended, code)
    case Compare(_) => p.Holding? && CompareMeets(s, p.task, code)
    case Search(_, session, gate, reply) => p.Checked? && SearchMeets(s, p.task, session, gate, reply, code)
    case Create(_, n, units, reading, permitted, took, reply) =>
      p.Missing? && code == CreateAnswer(s, p.task, p.fields, n, units, reading, permitted, took, reply)
    case Commit(_) => p.Applied? && CommitMeets(s, p.task, p.native, code)
    case Settle(_) => false
    case Stumble(_) => code.UNEXPECTED_ERROR?
  }

  /** The code an attempt carries so far. */
  function InHand(phase: Phase): Option<Code> {
    match phase
    case Applied(_, _, adopted) => Some(if adopted then ADOPTED_NATIVE_ORDER else EXECUTED)
    case Ending(outcome) => Some(outcome.code)
    case _ => None
  }

  function InHandOf(s: World, w: Worker): Option<Code> {
    if w in s.workers then InHand(s.workers[w]) else None
  }

  predicate Bears(s: World, w: Worker, code: Code) {
    InHandOf(s, w) == Some(code)
  }

  // ---------------------------------------------------------------------------------------------------------------
  // Every call answers what it met
  // ---------------------------------------------------------------------------------------------------------------

  lemma EndHolds(s: World, w: Worker, outcome: Outcome)
    ensures InHandOf(End(s, w, outcome), w) == Some(outcome.code)
  {
  }

  lemma EndBears(s: World, w: Worker, outcome: Outcome, code: Code)
    ensures Bears(End(s, w, outcome), w, code) <==> outcome.code == code
  {
  }

  lemma MoveBears(s: World, w: Worker, phase: Phase, code: Code)
    ensures Bears(Move(s, w, phase), w, code) <==> InHand(phase) == Some(code)
  {
  }

  /** How the branches of `BeginAttempt` end. */
  lemma BeginEnds(s: World, w: Worker, contended: bool)
    requires InPhase(s, w)
    ensures var row, after := EventOf(s, w), BeginAttempt(s, w, contended);
            && w in after.workers
            && InHand(after.workers[w])
               == if row.payload.Malformed? then Some(PAYLOAD_INVALID)
                  else if !Named(row) then Some(TENANT_MISSING)
                  else if !HasEngine(s, row) then Some(TENANT_UNMAPPED)
                  else if contended || KeyHeld(s, row) then Some(ORDER_CONTENDED)
                  else None
  {
  }

  lemma BeginAnswers(s: World, w: Worker, contended: bool, code: Code)
    requires InPhase(s, w)
    ensures BeginMeets(s, EventOf(s, w), contended, code) <==> Bears(BeginAttempt(s, w, contended), w, code)
  {
    BeginEnds(s, w, contended);
  }

  lemma CompareAnswers(s: World, w: Worker, t: Task, code: Code)
    ensures CompareMeets(s, t, code) <==> Bears(CompareVersions(s, w, t), w, code)
  {
    EndBears(s, w, Processing(ALREADY_EXECUTED), code);
    EndBears(s, w, Processing(STALE_VERSION), code);
    EndBears(s, w, Permanent(AMENDMENT_UNSUPPORTED), code);
    MoveBears(s, w, Checked(t), code);
  }

  lemma ReferringAre(s: World, t: Task)
    ensures var found := Referring(s.orders, t.client, t.order.orderId);
            && (forall n: nat :: n in found <==> HasReference(s, n, t))
            && (|found| > 1 <==> SeveralReferring(s, t))
  {
    var found := Referring(s.orders, t.client, t.order.orderId);
    if |found| > 1 {
      var m :| m in found;
      assert |found - {m}| >= 1;
      var n :| n in found - {m};
      assert HasReference(s, m, t) && HasReference(s, n, t);
    }
    if m: nat, n: nat :| m != n && HasReference(s, m, t) && HasReference(s, n, t) {
      CardinalityGrows({m, n}, found);
    }
  }

  lemma SearchEnds(s: World, w: Worker, t: Task, session: Session, gate: Gate, reply: Reply)
    requires !Searched(s, t, session, gate, reply)
    ensures InHandOf(SearchEngine(s, w, t, session, gate, reply), w) == Some(SearchRefusal(s, t, session, gate, reply))
  {
  }

  lemma SearchAnswers(s: World, w: Worker, t: Task, session: Session, gate: Gate, reply: Reply, code: Code)
    ensures SearchMeets(s, t, session, gate, reply, code)
            <==> Bears(SearchEngine(s, w, t, session, gate, reply), w, code)
  {
    if Searched(s, t, session, gate, reply) {
      FoundEnds(s, w, t);
    } else {
      SearchEnds(s, w, t, session, gate, reply);
    }
  }

  lemma FoundEnds(s: World, w: Worker, t: Task)
    requires Searched(s, t, Ready, Open, Answered)
    ensures InHandOf(SearchEngine(s, w, t, Ready, Open, Answered), w)
         == if SeveralReferring(s, t) then Some(DUPLICATE_NATIVE_ORDERS)
            else if exists n: nat :: HasReference(s, n, t) then Some(ADOPTED_NATIVE_ORDER)
            else None
  {
    ReferringAre(s, t);
    var found := Referring(s.orders, t.client, t.order.orderId);
    EndHolds(s, w, Permanent(DUPLICATE_NATIVE_ORDERS));
    if |found| <= 1 && found != {} {
      var after := SearchEngine(s, w, t, Ready, Open, Answered);
      var n :| n in found && after == Move(s, w, Applied(t, n, true));
      assert HasReference(s, n, t);
    }
  }

  lemma UnitsAreAgreed(order: PlacedOrder, fields: OrderFields, units: map<nat, string>)
    ensures InUnits(order, fields, units) <==> UnitsAgree(order, fields, units)
  {
    forall i | 0 <= i < |order.lines| && i < |fields.lines|
      ensures UnitOf(units, fields.lines[i].product)
           == (if fields.lines[i].product in units then units[fields.lines[i].product] else "None")
    {
    }
  }

  lemma CreateEnds(s: World, call: Call, t: Task, fields: OrderFields)
    requires call.Create?
    ensures var c := call;
            InHandOf(CreateOrder(s, c.worker, t, fields, c.native, c.units, c.reading, c.permitted, c.took, c.reply),
                     c.worker)
            == Some(CreateAnswer(s, t, fields, c.native, c.units, c.reading, c.permitted, c.took, c.reply))
  {
    var w, made := call.worker, Created(s, t, call.native, fields);
    UnitsAreAgreed(t.order, fields, call.units);
    EndHolds(s, w, EngineFailure(call.reading));
    EndHolds(s, w, Permanent(UNIT_MISMATCH));
    EndHolds(s, w, Waiting(LEGAL_ACTOR_DENIED));
    EndHolds(s, w, EngineFailure(call.reply));
    EndHolds(made, w, EngineFailure(call.reply));
  }

  lemma CommitAnswers(s: World, w: Worker, t: Task, n: nat, adopted: bool, code: Code)
    requires InPhase(s, w)
    ensures CommitMeets(s, t, n, code) <==> Bears(CommitExecution(s, w, t, n, adopted), w, code)
  {
    EndBears(s, w, UNEXPECTED, code);
  }

  /** The call puts the code in hand if it meets what the code says, and only then, unless it was there before. */
  ghost predicate Answering(s: World, s': World, call: Call, code: Code)
    requires ByWorker(call) && InPhase(s, call.worker)
  {
    && (Meets(s, call, code) ==> Bears(s', call.worker, code))
    && (Bears(s', call.worker, code) ==> Meets(s, call, code) || Bears(s, call.worker, code))
  }

  lemma BeginCallAnswers(s: World, call: Call, code: Code)
    requires call.Begin? && InPhase(s, call.worker)
    ensures Answering(s, WorkerStep(s, call), call, code)
  {
    if s.workers[call.worker].Started? { BeginAnswers(s, call.worker, call.contended, code); }
  }

  lemma CompareCallAnswers(s: World, call: Call, code: Code)
    requires call.Compare? && InPhase(s, call.worker)
    ensures Answering(s, WorkerStep(s, call), call, code)
  {
    var p := s.workers[call.worker];
    if p.Holding? { CompareAnswers(s, call.worker, p.task, code); }
  }

  lemma SearchCallAnswers(s: World, call: Call, code: Code)
    requires call.Search? && InPhase(s, call.worker)
    ensures Answering(s, WorkerStep(s, call), call, code)
  {
    var p := s.workers[call.worker];
    if p.Checked? { SearchAnswers(s, call.worker, p.task, call.session, call.gate, call.reply, code); }
  }

  lemma CreateCallAnswers(s: World, call: Call, code: Code)
    requires call.Create? && InPhase(s, call.worker)
    ensures Answering(s, WorkerStep(s, call), call, code)
  {
    var p := s.workers[call.worker];
    if p.Missing? { CreateEnds(s, call, p.task, p.fields); }
  }

  lemma EndingAnswers(s: World, call: Call, code: Code)
    requires (call.Commit? || call.Settle? || call.Stumble?) && InPhase(s, call.worker)
    ensures Answering(s, WorkerStep(s, call), call, code)
  {
    var w, p := call.worker, s.workers[call.worker];
    match call
    case Commit(_) => if p.Applied? { CommitAnswers(s, w, p.task, p.native, p.adopted, code); }
    case Settle(_) =>
    case Stumble(_) => EndBears(s, w, UNEXPECTED, code);
  }

  /** A call that meets what a code says puts the code in hand, and no call does so without. */
  lemma CallAnswers(s: World, call: Call, code: Code)
    requires ByWorker(call) && InPhase(s, call.worker)
    ensures Answering(s, Step(s, call), call, code)
  {
    assert Step(s, call) == WorkerStep(s, call);
    match call
    case Begin(_, _) => BeginCallAnswers(s, call, code);
    case Compare(_) => CompareCallAnswers(s, call, code);
    case Search(_, _, _, _) => SearchCallAnswers(s, call, code);
    case Create(_, _, _, _, _, _, _) => CreateCallAnswers(s, call, code);
    case _ => EndingAnswers(s, call, code);
  }

  // ---------------------------------------------------------------------------------------------------------------
  // What a code does to the row
  // ---------------------------------------------------------------------------------------------------------------

  /** Done, tried again, put on hold, or given up to an operator. */
  function VerdictFor(code: Code): Verdict {
    match code
    case EXECUTED => Processed
    case ADOPTED_NATIVE_ORDER => Processed
    case ALREADY_EXECUTED => Processed
    case STALE_VERSION => Processed
    case ORDER_CONTENDED => Retry
    case ENGINE_UNAVAILABLE => Retry
    case UNEXPECTED_ERROR => Retry
    case TENANT_UNMAPPED => Blocked
    case PRODUCT_UNMAPPED => Blocked
    case CUSTOMER_UNMAPPED => Blocked
    case ENGINE_ORG_MISMATCH => Blocked
    case ENGINE_UNCONFIGURED => Blocked
    case LEGAL_ACTOR_PENDING => Blocked
    case LEGAL_ACTOR_DENIED => Blocked
    case _ => DeadLetter
  }

  /** The outcome is what its code stands for; contention alone costs no attempt and waits five seconds. */
  predicate Shaped(outcome: Outcome) {
    outcome == if outcome.code.ORDER_CONTENDED? then Outcome(Retry, ORDER_CONTENDED, Some(5), true)
               else Outcome(VerdictFor(outcome.code), outcome.code, None, false)
  }

  ghost predicate AllShaped(s: World) {
    forall w {:trigger s.workers[w]} :: w in s.workers && s.workers[w].Ending? ==> Shaped(s.workers[w].outcome)
  }

  /** An attempt that ends here ends with such an outcome. */
  ghost predicate ShapedEnd(s: World, s': World, w: Worker) {
    w in s'.workers && s'.workers[w].Ending? && !(w in s.workers && s'.workers[w] == s.workers[w]) ==>
        Shaped(s'.workers[w].outcome)
  }

  lemma FailureIsShaped(reply: Reply)
    ensures Shaped(EngineFailure(reply))
  {
  }

  lemma EndIsShaped(s: World, s1: World, v: Worker, outcome: Outcome, w: Worker)
    requires Shaped(outcome) && s1.workers == s.workers
    ensures ShapedEnd(s, End(s1, v, outcome), w)
  {
  }

  lemma BeginIsShaped(s: World, v: Worker, contended: bool, w: Worker)
    requires InPhase(s, v)
    ensures ShapedEnd(s, BeginAttempt(s, v, contended), w)
  {
  }

  lemma CompareIsShaped(s: World, v: Worker, t: Task, w: Worker)
    ensures ShapedEnd(s, CompareVersions(s, v, t), w)
  {
  }

  lemma SearchIsShaped(s: World, v: Worker, t: Task, session: Session, gate: Gate, reply: Reply, w: Worker)
    ensures ShapedEnd(s, SearchEngine(s, v, t, session, gate, reply), w)
  {
    FailureIsShaped(reply);
  }

  lemma CreateIsShaped(s: World, call: Call, t: Task, fields: OrderFields, w: Worker)
    requires call.Create?
    ensures ShapedEnd(s,
        CreateOrder(s, call.worker, t, fields, call.native, call.units, call.reading, call.permitted, call.took,
        call.reply), w)
  {
    var v, made := call.worker, Created(s, t, call.native, fields);
    FailureIsShaped(call.reading);
    FailureIsShaped(call.reply);
    EndIsShaped(s, s, v, EngineFailure(call.reading), w);
    EndIsShaped(s, s, v, Permanent(UNIT_MISMATCH), w);
    EndIsShaped(s, s, v, Waiting(LEGAL_ACTOR_DENIED), w);
    EndIsShaped(s, s, v, EngineFailure(call.reply), w);
    EndIsShaped(s, made, v, EngineFailure(call.reply), w);
  }

  lemma CommitIsShaped(s: World, v: Worker, t: Task, n: nat, adopted: bool, w: Worker)
    requires InPhase(s, v)
    ensures ShapedEnd(s, CommitExecution(s, v, t, n, adopted), w)
  {
  }

  lemma WorkerIsShaped(s: World, call: Call, w: Worker)
    requires ByWorker(call) && InPhase(s, call.worker)
    ensures ShapedEnd(s, WorkerStep(s, call), w)
  {
    var p := s.workers[call.worker];
    match call
    case Begin(v, contended) => BeginIsShaped(s, v, contended, w);
    case Compare(v) => if p.Holding? { CompareIsShaped(s, v, p.task, w); }
    case Search(v, session, gate, reply) => if p.Checked? { SearchIsShaped(s, v, p.task, session, gate, reply, w); }
    case Create(_, _, _, _, _, _, _) => if p.Missing? { CreateIsShaped(s, call, p.task, p.fields, w); }
    case Commit(v) => if p.Applied? { CommitIsShaped(s, v, p.task, p.native, p.adopted, w); }
    case Settle(_) =>
    case Stumble(_) =>
  }

  lemma SurroundingsAreShaped(s: World, call: Call, w: Worker)
    requires !ByWorker(call)
    ensures ShapedEnd(s, Step(s, call), w)
  {
  }

  lemma StepIsShaped(s: World, call: Call)
    requires AllShaped(s)
    ensures AllShaped(Step(s, call))
  {
    var s' := Step(s, call);
    forall w | w in s'.workers && s'.workers[w].Ending? ensures Shaped(s'.workers[w].outcome) {
      CallIsShaped(s, call, w);
      if w in s.workers && s.workers[w].Ending? { assert Shaped(s.workers[w].outcome); }
    }
  }

  lemma CallIsShaped(s: World, call: Call, w: Worker)
    ensures ShapedEnd(s, Step(s, call), w)
  {
    if !ByWorker(call) {
      SurroundingsAreShaped(s, call, w);
    } else if InPhase(s, call.worker) {
      WorkerIsShaped(s, call, w);
    }
  }

  lemma {:induction false} RunIsShaped(s: World, calls: seq<Call>)
    requires AllShaped(s)
    ensures AllShaped(Run(s, calls))
    decreases |calls|
  {
    if calls != [] {
      StepIsShaped(s, calls[0]);
      RunIsShaped(Step(s, calls[0]), calls[1..]);
    }
  }

  /** The codes an attempt ends with before its commit. */
  predicate EndsAttempt(code: Code) {
    !code.EXECUTED? && !code.ADOPTED_NATIVE_ORDER?
  }

  lemma MetKeepsQueue(s: World, call: Call, code: Code)
    requires ByWorker(call) && InPhase(s, call.worker) && Meets(s, call, code)
    ensures Step(s, call).queue == s.queue
  {
    if call.Commit? {
      CommitEffect(s, call);
      assert KeyTaken(s.tables, KeyOf(s.workers[call.worker].task), s.workers[call.worker].native);
    } else if !call.Settle? {
      QueueStays(s, call);
    }
  }

  lemma InHandEnds(s: World, w: Worker, code: Code)
    requires Bears(s, w, code) && EndsAttempt(code)
    ensures w in s.workers && s.workers[w].Ending? && s.workers[w].outcome.code == code
  {
  }

  /** What is met ends the attempt, unless an order was found or created. */
  lemma MetEnds(s: World, call: Call, code: Code)
    requires AllShaped(s) && ByWorker(call) && InPhase(s, call.worker)
    requires EndsAttempt(code) && Meets(s, call, code)
    ensures var s', w := Step(s, call), call.worker;
            && s'.queue == s.queue && InPhase(s', w) && s'.workers[w].Ending?
            && s'.workers[w].outcome.code == code && Shaped(s'.workers[w].outcome)
  {
    CallAnswers(s, call, code);
    MetKeepsQueue(s, call, code);
    StepIsShaped(s, call);
    InHandEnds(Step(s, call), call.worker, code);
  }

  lemma SettleIsStep(s: World, w: Worker)
    requires InPhase(s, w) && s.workers[w].Ending?
    ensures Step(s, Settle(w)) == SettleAttempt(s, w, s.workers[w].outcome)
  {
  }

  lemma SettledRow(s: World, w: Worker, outcome: Outcome, code: Code)
    requires Holds(s.queue, w) && Shaped(outcome) && outcome.code == code && EndsAttempt(code)
    ensures var id, s' := s.queue.held[w].claim.row, SettleAttempt(s, w, outcome);
            && w !in s'.workers && id in s'.queue.rows
            && RecordedAs(s.queue.rows[id], s'.queue.rows[id], VerdictFor(code), code, code.ORDER_CONTENDED?,
                   s.queue.now)
  {
    EndIsRecorded(s.queue, w, outcome, code.ORDER_CONTENDED?);
  }

  lemma AnswerThenSettle(s: World, call: Call, code: Code)
    requires AllShaped(s) && ByWorker(call) && InPhase(s, call.worker) && Holds(s.queue, call.worker)
    requires EndsAttempt(code) && Meets(s, call, code)
    ensures var s', id := Run(s, [call, Settle(call.worker)]), s.queue.held[call.worker].claim.row;
            && call.worker !in s'.workers && id in s'.queue.rows && s'.orders == Step(s, call).orders
            && RecordedAs(s.queue.rows[id], s'.queue.rows[id], VerdictFor(code), code, code.ORDER_CONTENDED?,
                   s.queue.now)
  {
    var w, s1 := call.worker, Step(s, call);
    MetEnds(s, call, code);
    SettleIsStep(s1, w);
    RunThrough([s, s1, SettleAttempt(s1, w, s1.workers[w].outcome)], [call, Settle(w)]);
    SettledRow(s1, w, s1.workers[w].outcome, code);
  }

  /** Over every run: an attempt that meets what a code says is over, and its row is recorded under the code as the code
      demands. */
  lemma AnswerIsRecorded(start: World, calls: seq<Call>, call: Call, code: Code)
    requires Initial(start)
    requires var s := Run(start, calls);
             && ByWorker(call) && InPhase(s, call.worker) && Holds(s.queue, call.worker)
             && EndsAttempt(code) && Meets(s, call, code)
    ensures var s, s' := Run(start, calls), Run(start, calls + [call, Settle(call.worker)]);
            var id := s.queue.held[call.worker].claim.row;
            && call.worker !in s'.workers && id in s'.queue.rows
            && RecordedAs(s.queue.rows[id], s'.queue.rows[id], VerdictFor(code), code, code.ORDER_CONTENDED?,
                   s.queue.now)
  {
    RunIsShaped(start, calls);
    AnswerThenSettle(Run(start, calls), call, code);
    RunAppends(start, calls, [call, Settle(call.worker)]);
  }
}
