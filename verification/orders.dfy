/**
 Order execution (modules/order_to_cash/inbox_execution.py, consequence_store.py): from a claimed order event to a sales
 order in the engine, ERP's consequence record and order link, and the event that announces them.

 The protocol is the customer executor's with another way of recognising an earlier attempt: the engine order's own
 POReference. People create engine orders too, with any reference they like; `maker` tells the two apart, as nothing in
 the engine does.
 */
module Orders {
  import opened Prelude
  import opened ExecutionPolicy
  import opened Inbox
  import opened InboxSupport

  datatype PlacedLine = PlacedLine(lineId: string, skuId: string, quantity: string, unit: string, unitPrice: string)

  datatype PlacedOrder = PlacedOrder(
    legalEntity: string,
    orderId: string,
    version: nat,
    customerId: string,
    currency: string,
    lines: seq<PlacedLine>)

  datatype Payload = Malformed | Placed(order: PlacedOrder)

  datatype MasterKey = CustomerMaster(instance: string, legalEntity: string, id: string)
                     | ProductMaster(instance: string, legalEntity: string, id: string)

  type Masters = map<MasterKey, nat>

  datatype NativeLine = NativeLine(product: nat, quantity: string, unitPrice: string)

  /** What a created engine order is given, beyond its reference. */
  datatype OrderFields = OrderFields(partner: nat, currency: string, lines: seq<NativeLine>)

  /** `maker` is the order ERP created it for; None is anybody else's. */
  datatype NativeOrder = NativeOrder(client: nat, reference: string, fields: OrderFields, maker: Option<OrderKey>)

  datatype Task = Task(tenant: string, order: PlacedOrder, client: nat, instance: string)

  /** The lock's key, and the primary key of both ERP tables. */
  datatype OrderKey = OrderKey(tenant: string, orderId: string)

  function KeyOf(t: Task): OrderKey {
    OrderKey(t.tenant, t.order.orderId)
  }

  datatype Consequence = Consequence(legalEntity: string, version: nat)

  datatype Execution = Execution(native: nat, adopted: bool, source: RowId)

  datatype ConsequenceChanged = ConsequenceChanged(key: OrderKey, record: Consequence)

  datatype Tables = Tables(
    consequences: map<OrderKey, Consequence>,
    executions: map<OrderKey, Execution>,
    outbox: seq<ConsequenceChanged>)

  datatype Phase =
    | Started
    | Holding(task: Task)
    | Checked(task: Task)
    | Missing(task: Task, fields: OrderFields)
    | Applied(task: Task, native: nat, adopted: bool)
    | Ending(outcome: Outcome)

  function CodeOf(adopted: bool): Code {
    if adopted then ADOPTED_NATIVE_ORDER else EXECUTED
  }

  const SETTLED_IN_ATTEMPT := {EXECUTED, ADOPTED_NATIVE_ORDER}

  datatype World = World(
    queue: Queue<Payload>,
    placements: Placements,
    masters: Masters,
    locks: Locks<OrderKey>,
    orders: map<nat, NativeOrder>,
    tables: Tables,
    workers: map<Worker, Phase>)

  /** The protected runtime's gate before the engine is touched: absent where the runtime is not protected. */
  datatype Gate = Open | NoAuthority | Denied

  datatype Call =
    | Receive(id: RowId, tenant: Option<string>, payload: Payload)
    | Tick(elapsed: Time)
    | Place(place: (string, string), placement: Placement)
    | Master(key: MasterKey, id: nat)
    | ByHand(native: nat, client: nat, reference: string, fields: OrderFields)
    | Take(worker: Worker, id: RowId, lease: Time)
    | Begin(worker: Worker, contended: bool)
    | Compare(worker: Worker)
    | Search(worker: Worker, session: Session, gate: Gate, reply: Reply)
    | Create(worker: Worker, native: nat, units: map<nat, string>, reading: Reply, permitted: bool, took: bool,
        reply: Reply)
    | Commit(worker: Worker)
    | Settle(worker: Worker)
    | Stumble(worker: Worker)
    | Crash(worker: Worker)

  predicate InPhase(s: World, w: Worker) {
    w in s.workers && w in s.queue.held && s.queue.held[w].claim.row in s.queue.rows
  }

  /** Only the worker's phase and the locks differ. */
  ghost predicate OnBoard(s: World, s': World, w: Worker) {
    w in s'.workers && s' == s.(workers := s.workers[w := s'.workers[w]], locks := s'.locks)
  }

  function End(s: World, w: Worker, outcome: Outcome): World {
    s.(workers := s.workers[w := Ending(outcome)], locks := Released(s.locks, w))
  }

  function Move(s: World, w: Worker, phase: Phase): World {
    s.(workers := s.workers[w := phase])
  }

  function Leave(s: World, w: Worker): World {
    s.(workers := s.workers - {w}, locks := Released(s.locks, w), queue := Drop(s.queue, w))
  }

  function StartAttempt(s: World, w: Worker, id: RowId, lease: Time): World
    requires CanTake(s.queue, w, id)
  {
    Move(s, w, Started).(queue := TakeRow(s.queue, w, id, lease))
  }

  function Acquire(s: World, w: Worker, t: Task): World {
    Move(s, w, Holding(t)).(locks := s.locks[KeyOf(t) := w])
  }

  /** Parse, placement and lock. */
  function BeginAttempt(s: World, w: Worker, contended: bool): (s': World)
    requires InPhase(s, w)
    ensures OnBoard(s, s', w)
  {
    var row := s.queue.rows[s.queue.held[w].claim.row];
    if row.payload.Malformed? then End(s, w, Permanent(PAYLOAD_INVALID))
    else if row.tenant.None? || row.tenant.value == "" then End(s, w, Permanent(TENANT_MISSING))
    else
      var place := (row.tenant.value, row.payload.order.legalEntity);
      if place !in s.placements || s.placements[place].instance.None? then End(s, w, Waiting(TENANT_UNMAPPED))
      else
        var t := Task(row.tenant.value, row.payload.order, s.placements[place].client,
            s.placements[place].instance.value);
        if contended || KeyOf(t) in s.locks then End(s, w, Contended(ORDER_CONTENDED)) else Acquire(s, w, t)
  }

  /** How an order ERP already keeps ends the attempt. */
  function KnownOrder(version: nat, known: Consequence): Outcome {
    if version == known.version then Processing(ALREADY_EXECUTED)
    else if version < known.version then Processing(STALE_VERSION)
    else Permanent(AMENDMENT_UNSUPPORTED)
  }

  function CompareVersions(s: World, w: Worker, t: Task): (s': World)
    ensures OnBoard(s, s', w)
  {
    if KeyOf(t) in s.tables.consequences then End(s, w, KnownOrder(t.order.version, s.tables.consequences[KeyOf(t)]))
    else Move(s, w, Checked(t))
  }

  function ProductOf(t: Task, line: PlacedLine): MasterKey {
    ProductMaster(t.instance, t.order.legalEntity, line.skuId)
  }

  function CustomerOf(t: Task): MasterKey {
    CustomerMaster(t.instance, t.order.legalEntity, t.order.customerId)
  }

  /** The lines the engine is asked for; those without a product mapping are left out. */
  function ResolvedLines(masters: Masters, t: Task, lines: seq<PlacedLine>): seq<NativeLine> {
    if lines == [] then []
    else
      var last := lines[|lines| - 1];
      var earlier := ResolvedLines(masters, t, lines[..|lines| - 1]);
      if ProductOf(t, last) in masters
          then earlier + [NativeLine(masters[ProductOf(t, last)], last.quantity, last.unitPrice)]
      else earlier
  }

  predicate AllMapped(masters: Masters, t: Task) {
    forall i :: 0 <= i < |t.order.lines| ==> ProductOf(t, t.order.lines[i]) in masters
  }

  function FieldsFor(masters: Masters, t: Task): OrderFields
    requires CustomerOf(t) in masters
  {
    OrderFields(masters[CustomerOf(t)], t.order.currency, ResolvedLines(masters, t, t.order.lines))
  }

  predicate Carries(o: NativeOrder, client: nat, reference: string) {
    o.client == client && o.reference == reference
  }

  function Referring(orders: map<nat, NativeOrder>, client: nat, reference: string): set<nat> {
    set n | n in orders && Carries(orders[n], client, reference)
  }

  /** Master data, session and gate, then the search by POReference in the tenant's client. */
  ghost function SearchEngine(s: World, w: Worker, t: Task, session: Session, gate: Gate, reply: Reply): (s': World)
    ensures OnBoard(s, s', w)
  {
    if !AllMapped(s.masters, t) then End(s, w, Waiting(PRODUCT_UNMAPPED))
    else if !session.Ready? then End(s, w, SessionFailure(session))
    else if CustomerOf(t) !in s.masters then End(s, w, Waiting(CUSTOMER_UNMAPPED))
    else if gate.NoAuthority? then End(s, w, Waiting(LEGAL_ACTOR_PENDING))
    else if gate.Denied? then End(s, w, Waiting(LEGAL_ACTOR_DENIED))
    else if !reply.Answered? then End(s, w, EngineFailure(reply))
    else
      var found := Referring(s.orders, t.client, t.order.orderId);
      if |found| > 1 then End(s, w, Permanent(DUPLICATE_NATIVE_ORDERS))
      else if found == {} then Move(s, w, Missing(t, FieldsFor(s.masters, t)))
      else
        var n :| n in found;
        Move(s, w, Applied(t, n, true))
  }

  /** The unit the engine reads a line's bare quantity in. */
  function UnitOf(units: map<nat, string>, product: nat): string {
    if product in units then units[product] else "None"
  }

  predicate UnitsAgree(order: PlacedOrder, fields: OrderFields, units: map<nat, string>) {
    forall i :: 0 <= i < |order.lines| && i < |fields.lines| ==>
        UnitOf(units, fields.lines[i].product) == order.lines[i].unit
  }

  function Created(s: World, t: Task, n: nat, fields: OrderFields): World {
    s.(orders := s.orders[n := NativeOrder(t.client, t.order.orderId, fields, Some(KeyOf(t)))])
  }

  /** Units checked, then a create that may take effect whatever its reply. */
  function CreateOrder(s: World, w: Worker, t: Task, fields: OrderFields, n: nat, units: map<nat, string>,
      reading: Reply,
                       permitted: bool, took: bool, reply: Reply): (s': World)
    ensures OnBoard(s, s', w) || (n !in s.orders && OnBoard(Created(s, t, n, fields), s', w))
  {
    if !reading.Answered? then End(s, w, EngineFailure(reading))
    else if !UnitsAgree(t.order, fields, units) then End(s, w, Permanent(UNIT_MISMATCH))
    else if !permitted then End(s, w, Waiting(LEGAL_ACTOR_DENIED))
    else if !took || n in s.orders then End(s, w, EngineFailure(reply))
    else if reply.Answered? then Move(Created(s, t, n, fields), w, Applied(t, n, false))
    else End(Created(s, t, n, fields), w, EngineFailure(reply))
  }

  /** The tables' keys: one record and one link per order, one order per engine order and tenant. */
  predicate KeyTaken(tables: Tables, key: OrderKey, native: nat) {
    || key in tables.consequences || key in tables.executions
    || exists other ::
        other in tables.executions && other.tenant == key.tenant && tables.executions[other].native == native
  }

  /** `open_order`, the order link and the announcement. */
  function RecordExecution(tables: Tables, t: Task, n: nat, adopted: bool, source: RowId): Tables {
    var record := Consequence(t.order.legalEntity, t.order.version);
    Tables(tables.consequences[KeyOf(t) := record],
           tables.executions[KeyOf(t) := Execution(n, adopted, source)],
           tables.outbox + [ConsequenceChanged(KeyOf(t), record)])
  }

  function Committed(s: World, w: Worker, t: Task, n: nat, adopted: bool): World
    requires InPhase(s, w)
  {
    s.(tables := RecordExecution(s.tables, t, n, adopted, s.queue.held[w].claim.row),
       queue := FinishRow(s.queue, w, Processing(CodeOf(adopted))),
       workers := s.workers - {w},
       locks := Released(s.locks, w))
  }

  /** The one transaction, fenced on the lease: a duplicate key is an unexpected error, a lost lease leaves nothing. */
  function CommitExecution(s: World, w: Worker, t: Task, n: nat, adopted: bool): (s': World)
    requires InPhase(s, w)
    ensures OnBoard(s, s', w) || s' == Leave(s, w) || (Holds(s.queue, w) && s' == Committed(s, w, t, n, adopted))
  {
    if KeyTaken(s.tables, KeyOf(t), n) then End(s, w, UNEXPECTED)
    else if !Holds(s.queue, w) then Leave(s, w)
    else Committed(s, w, t, n, adopted)
  }

  function SettleAttempt(s: World, w: Worker, outcome: Outcome): World {
    s.(queue := FinishRow(s.queue, w, outcome), workers := s.workers - {w})
  }

  ghost function Step(s: World, call: Call): World {
    match call
    case Receive(id, tenant, payload) =>
      s.(queue := ReceiveRow(s.queue, id, NewRow("order.placed", tenant, payload, s.queue.now)))
    case Tick(elapsed) => s.(queue := s.queue.(now := s.queue.now + elapsed))
    case Place(place, placement) =>
      if place in s.placements then s else s.(placements := s.placements[place := placement])
    case Master(key, id) => s.(masters := s.masters[key := id])
    case ByHand(n, client, reference, fields) =>
      if n in s.orders then s else s.(orders := s.orders[n := NativeOrder(client, reference, fields, None)])
    case Take(w, id, lease) =>
      if w in s.workers || !CanTake(s.queue, w, id) then s else StartAttempt(s, w, id, lease)
    case Crash(w) => Leave(s, w)
    case _ => if InPhase(s, call.worker) then WorkerStep(s, call) else s
  }

  predicate ByWorker(call: Call) {
    !call.Receive? && !call.Tick? && !call.Place? && !call.Master? && !call.ByHand? && !call.Take? && !call.Crash?
  }

  ghost function WorkerStep(s: World, call: Call): World
    requires ByWorker(call) && InPhase(s, call.worker)
  {
    var phase := s.workers[call.worker];
    match call
    case Begin(w, contended) => if phase.Started? then BeginAttempt(s, w, contended) else s
    case Compare(w) => if phase.Holding? then CompareVersions(s, w, phase.task) else s
    case Search(w, session, gate, reply) => if phase.Checked? then SearchEngine(s, w, phase.task, session, gate, reply)
        else s
    case Create(w, n, units, reading, permitted, took, reply) =>
      if phase.Missing? then CreateOrder(s, w, phase.task, phase.fields, n, units, reading, permitted, took, reply)
          else s
    case Commit(w) => if phase.Applied? then CommitExecution(s, w, phase.task, phase.native, phase.adopted) else s
    case Settle(w) => if phase.Ending? then SettleAttempt(s, w, phase.outcome) else s
    case Stumble(w) => End(s, w, UNEXPECTED)
  }

  ghost function Run(s: World, calls: seq<Call>): World
    decreases |calls|
  {
    if calls == [] then s else Run(Step(s, calls[0]), calls[1..])
  }

  // ---------------------------------------------------------------------------------------------------------------
  // What a call can touch
  // ---------------------------------------------------------------------------------------------------------------

  /** Beginning, comparing, searching and stumbling move only their worker. */
  lemma ReadingStays(s: World, call: Call)
    requires call.Begin? || call.Compare? || call.Search? || call.Stumble?
    ensures var s' := Step(s, call); s' == s || OnBoard(s, s', call.worker)
  {
    if InPhase(s, call.worker) {
      match call
      case Begin(_, _) =>
      case Compare(_) =>
      case Search(_, _, _, _) =>
      case Stumble(_) =>
    }
  }

  lemma CreateWrites(s: World, call: Call)
    requires call.Create?
    ensures var s' := Step(s, call);
            || s' == s || OnBoard(s, s', call.worker)
            || (InPhase(s, call.worker) && s.workers[call.worker].Missing? && call.native !in s.orders
                && var p := s.workers[call.worker]; OnBoard(Created(s, p.task, call.native, p.fields), s', call.worker))
  {
  }

  /** Only ingress, the clock, a claim, a crash and the two ends of an attempt touch the queue. */
  lemma QueueStays(s: World, call: Call)
    requires !call.Receive? && !call.Tick? && !call.Take? && !call.Commit? && !call.Settle? && !call.Crash?
    ensures Step(s, call).queue == s.queue
  {
    match call
    case Create(_, _, _, _, _, _, _) => CreateWrites(s, call);
    case Begin(_, _) => ReadingStays(s, call);
    case Compare(_) => ReadingStays(s, call);
    case Search(_, _, _, _) => ReadingStays(s, call);
    case Stumble(_) => ReadingStays(s, call);
    case _ =>
  }

  predicate TakesEffect(s: World, call: Call) {
    && call.Commit? && InPhase(s, call.worker) && s.workers[call.worker].Applied? && Holds(s.queue, call.worker)
    && !KeyTaken(s.tables, KeyOf(s.workers[call.worker].task), s.workers[call.worker].native)
  }

  lemma CommitEffect(s: World, call: Call)
    requires call.Commit? && InPhase(s, call.worker) && s.workers[call.worker].Applied?
    ensures var p := s.workers[call.worker];
        Step(s, call) == CommitExecution(s, call.worker, p.task, p.native, p.adopted)
  {
  }

  /** Only a commit that takes effect writes ERP's tables, and it writes them all. */
  lemma TablesChangeByCommit(s: World, call: Call)
    ensures !TakesEffect(s, call) ==> Step(s, call).tables == s.tables
    ensures TakesEffect(s, call) ==>
              var p := s.workers[call.worker]; Step(s, call) == Committed(s, call.worker, p.task, p.native, p.adopted)
  {
    match call
    case Commit(_) => if InPhase(s, call.worker) && s.workers[call.worker].Applied? { CommitEffect(s, call); }
    case Create(_, _, _, _, _, _, _) => CreateWrites(s, call);
    case Begin(_, _) => ReadingStays(s, call);
    case Compare(_) => ReadingStays(s, call);
    case Search(_, _, _, _) => ReadingStays(s, call);
    case Stumble(_) => ReadingStays(s, call);
    case _ =>
  }

  lemma RunOne(s: World, call: Call)
    ensures Run(s, [call]) == Step(s, call)
  {
  }

  lemma RunStarts(s: World, call: Call, more: seq<Call>)
    ensures Run(s, [call] + more) == Run(Step(s, call), more)
  {
    assert ([call] + more)[1..] == more;
  }

  lemma {:induction false} RunAppends(s: World, calls: seq<Call>, later: seq<Call>)
    ensures Run(s, calls + later) == Run(Run(s, calls), later)
    decreases |calls|
  {
    if calls == [] {
      assert calls + later == later;
    } else {
      assert (calls + later)[1..] == calls[1..] + later;
      RunAppends(Step(s, calls[0]), calls[1..], later);
    }
  }

  lemma {:induction false} RunThrough(states: seq<World>, calls: seq<Call>)
    requires |states| == |calls| + 1
    requires forall i :: 0 <= i < |calls| ==> states[i + 1] == Step(states[i], calls[i])
    ensures Run(states[0], calls) == states[|calls|]
    decreases |calls|
  {
    if calls != [] {
      forall i | 0 <= i < |calls| - 1 ensures states[1..][i + 1] == Step(states[1..][i], calls[1..][i]) {
        assert states[i + 2] == Step(states[i + 1], calls[i + 1]);
      }
      RunThrough(states[1..], calls[1..]);
    }
  }
}
