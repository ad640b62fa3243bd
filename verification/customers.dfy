/**
 Customer projection (modules/customers/projection_execution.py, payload.py): from a claimed event to a business partner
 in the engine and the mapping that names it.

 An engine write and ERP's transaction cannot be one step, so the executor is modelled step by step: any number of
 workers, each between two database or engine calls, may be interleaved, overtaken after its lease expired, or lost.
 `Step` gives the effect of one call. A lock is released in the step that ends its use; the moment in between shows only
 as contention, which `Begin` may report at any time (64-bit lock keys can also collide).
 */
module Customers {
  import opened Prelude
  import opened Text
  import opened ExecutionPolicy
  import opened Inbox
  import opened InboxSupport
  import opened DocumentRevisions

  // ---------------------------------------------------------------------------------------------------------------
  // The event and what it asks for
  // ---------------------------------------------------------------------------------------------------------------

  datatype Customer = Customer(
    legalEntity: string,
    customerId: string,
    version: nat,
    customerType: string,
    displayName: string,
    status: string)

  /** A row's data as the parser sees it. */
  datatype Payload = Malformed | Projected(customer: Customer)

  /** What an accepted payload and tenant are known to satisfy. */
  predicate WellFormed(tenant: string, c: Customer) {
    ColonFree(tenant) && ColonFree(c.legalEntity) && c.version >= 1
  }

  const MAX_MARKER: nat := 255

  function MarkerText(tenant: string, legalEntity: string, customerId: string): string {
    "baobab-customer:" + (tenant + ":" + (legalEntity + ":" + customerId))
  }

  /** Written into the created partner and used to find it again; the engine's column holds 255 characters. */
  function Marker(sha256: Hash, tenant: string, legalEntity: string, customerId: string): string {
    var text := MarkerText(tenant, legalEntity, customerId);
    if |text| <= MAX_MARKER then text else "baobab-customer-sha256:" + sha256(text)
  }

  const MARKER_PREFIX := "baobab-customer"

  lemma MarkerTextInjective(t1: string, e1: string, c1: string, t2: string, e2: string, c2: string)
    requires ColonFree(t1) && ColonFree(e1) && ColonFree(t2) && ColonFree(e2)
    requires MarkerText(t1, e1, c1) == MarkerText(t2, e2, c2)
    ensures t1 == t2 && e1 == e2 && c1 == c2
  {
    var x1, x2 := e1 + ":" + c1, e2 + ":" + c2;
    SuffixEqual("baobab-customer:", t1 + ":" + x1, t2 + ":" + x2);
    ColonSplits(t1, x1, t2, x2);
    ColonSplits(e1, c1, e2, c2);
  }

  /** A marker names one (tenant, legal entity, customer), on either side of the switch to a digest. */
  lemma MarkerInjective(sha256: Hash, t1: string, e1: string, c1: string, t2: string, e2: string, c2: string)
    requires Injective(sha256)
    requires ColonFree(t1) && ColonFree(e1) && ColonFree(t2) && ColonFree(e2)
    requires Marker(sha256, t1, e1, c1) == Marker(sha256, t2, e2, c2)
    ensures t1 == t2 && e1 == e2 && c1 == c2
  {
    var text1, text2 := MarkerText(t1, e1, c1), MarkerText(t2, e2, c2);
    var m1, m2 := Marker(sha256, t1, e1, c1), Marker(sha256, t2, e2, c2);
    assert |text1| <= MAX_MARKER ==> m1[15] == ':';
    assert |text1| > MAX_MARKER ==> m1[15] == '-';
    assert |text2| <= MAX_MARKER ==> m2[15] == ':';
    assert |text2| > MAX_MARKER ==> m2[15] == '-';
    if |text1| > MAX_MARKER {
      SuffixEqual("baobab-customer-sha256:", sha256(text1), sha256(text2));
    }
    MarkerTextInjective(t1, e1, c1, t2, e2, c2);
  }

  lemma MarkersShareAPrefix(sha256: Hash, tenant: string, legalEntity: string, customerId: string)
    ensures MARKER_PREFIX <= Marker(sha256, tenant, legalEntity, customerId)
  {
  }

  /** The native state a version asks for, as its digest identifies it. */
  datatype Content = Content(customerType: string, displayName: string, status: string)

  datatype ContentDigest = Sha256Of(content: Content) | Bootstrapped(text: string)

  function DigestOf(c: Customer): ContentDigest {
    Sha256Of(Content(c.customerType, c.displayName, c.status))
  }

  datatype Fields = Fields(name: string, active: bool, customer: bool)

  function FieldsOf(c: Customer): Fields {
    Fields(c.displayName, c.status == "active", true)
  }

  // ---------------------------------------------------------------------------------------------------------------
  // ERP's tables, the engine and the workers
  // ---------------------------------------------------------------------------------------------------------------

  datatype Partner = Partner(client: nat, description: string, fields: Fields)

  /** A mapping the master-data bootstrapper wrote may carry a version that is not a number. */
  datatype StoredVersion = Numeric(n: int) | NotNumeric(text: string)

  function KnownVersion(v: StoredVersion): int {
    if v.Numeric? then v.n else 0
  }

  /** The mapping table's primary key (the kind is always business_partner here). It has no tenant. */
  datatype MapKey = MapKey(instance: string, legalEntity: string, customerId: string)

  datatype Mapping = Mapping(native: nat, digest: ContentDigest, version: StoredVersion, publicId: string)

  /** The key a customer is locked under. */
  datatype CustomerKey = CustomerKey(tenant: string, legalEntity: string, customerId: string)

  datatype Task = Task(tenant: string, customer: Customer, client: nat, instance: string)

  function LockKey(t: Task): CustomerKey {
    CustomerKey(t.tenant, t.customer.legalEntity, t.customer.customerId)
  }

  function KeyOf(t: Task): MapKey {
    MapKey(t.instance, t.customer.legalEntity, t.customer.customerId)
  }

  function MarkerOf(sha256: Hash, t: Task): string {
    Marker(sha256, t.tenant, t.customer.legalEntity, t.customer.customerId)
  }

  datatype PartnerDetail = PartnerDetail(displayName: string, customerId: string)

  datatype PartnerChanged = PartnerChanged(tenant: string, publicId: string, revision: nat, customer: Customer)

  /** What one transaction commits for the row it settles. */
  datatype Commitment = Commitment(row: RowId, task: Task, native: nat, code: Code, minted: string, at: Time)

  /** ERP's own tables, which an attempt writes together or not at all. */
  datatype Tables = Tables(mappings: map<MapKey, Mapping>, documents: Table<PartnerDetail>, outbox: seq<PartnerChanged>)

  /** Where an attempt stands between two calls. */
  datatype Phase =
    | Started
    | Holding(task: Task)
    | Checked(task: Task, mapped: Option<Mapping>)
    | Missing(task: Task)
    | Found(task: Task, native: nat, code: Code)
    | Applied(task: Task, native: nat, code: Code)
    | Ending(outcome: Outcome)

  const SETTLED_IN_ATTEMPT := {CREATED, ADOPTED_NATIVE_PARTNER, UPDATED}

  /** `issued` are the record ids the engine has ever given out, `ledger` the history of commits. */
  datatype World = World(
    queue: Queue<Payload>,
    placements: Placements,
    locks: Locks<CustomerKey>,
    partners: map<nat, Partner>,
    issued: set<nat>,
    mappings: map<MapKey, Mapping>,
    documents: Table<PartnerDetail>,
    outbox: seq<PartnerChanged>,
    ledger: seq<Commitment>,
    workers: map<Worker, Phase>)

  datatype Call =
    | Receive(id: RowId, tenant: Option<string>, payload: Payload)
    | Tick(elapsed: Time)
    | Place(place: (string, string), placement: Placement)
    | Unrelated(native: nat, partner: Partner)
    | Take(worker: Worker, id: RowId, lease: Time)
    | Begin(worker: Worker, contended: bool)
    | Compare(worker: Worker)
    | Probe(worker: Worker, session: Session, reply: Reply)
    | Update(worker: Worker, took: bool, reply: Reply)
    | Create(worker: Worker, native: nat, groups: nat, took: bool, reply: Reply)
    | Commit(worker: Worker, minted: string)
    | Settle(worker: Worker)
    | Stumble(worker: Worker)
    | Crash(worker: Worker)

  predicate InPhase(s: World, w: Worker) {
    w in s.workers && w in s.queue.held && s.queue.held[w].claim.row in s.queue.rows
  }

  /** Only the worker's phase and the locks differ. */
  ghost predicate OnBoard(s: World, s': World, w: Worker) {
    w in s'.workers && s' == s.(workers := s.workers[w := s'.workers[w]], locks := s'.locks)
  }

  /** The attempt stops here: the lock goes, the outcome is still to be recorded. */
  function End(s: World, w: Worker, outcome: Outcome): World {
    s.(workers := s.workers[w := Ending(outcome)], locks := Released(s.locks, w))
  }

  function Move(s: World, w: Worker, phase: Phase): World {
    s.(workers := s.workers[w := phase])
  }

  /** The worker is gone, its lock with it; its claim lives on only as a lease. */
  function Leave(s: World, w: Worker): World {
    s.(workers := s.workers - {w}, locks := Released(s.locks, w), queue := Drop(s.queue, w))
  }

  function StartAttempt(s: World, w: Worker, id: RowId, lease: Time): World
    requires CanTake(s.queue, w, id)
  {
    Move(s, w, Started).(queue := TakeRow(s.queue, w, id, lease))
  }

  function Acquire(s: World, w: Worker, t: Task): World {
    Move(s, w, Holding(t)).(locks := s.locks[LockKey(t) := w])
  }

  /** Parse, placement and lock. */
  function BeginAttempt(s: World, w: Worker, contended: bool): (s': World)
    requires InPhase(s, w)
    ensures OnBoard(s, s', w)
  {
    var row := s.queue.rows[s.queue.held[w].claim.row];
    if row.payload.Malformed? then End(s, w, Permanent(PAYLOAD_INVALID))
    else if row.tenant.None? || row.tenant.value == "" then End(s, w, Permanent(TENANT_MISSING))
    else
      var c := row.payload.customer;
      var place := (row.tenant.value, c.legalEntity);
      if place !in s.placements || s.placements[place].instance.None? then End(s, w, Waiting(TENANT_UNMAPPED))
      else
        var t := Task(row.tenant.value, c, s.placements[place].client, s.placements[place].instance.value);
        if contended || LockKey(t) in s.locks then End(s, w, Contended(CUSTOMER_CONTENDED))
        else Acquire(s, w, t)
  }

  /** How the mapped version ends the attempt, if it does. */
  function VersionRule(c: Customer, mapped: Option<Mapping>): Option<Outcome> {
    if mapped.None? || c.version > KnownVersion(mapped.value.version) then None
    else if c.version < KnownVersion(mapped.value.version) then Some(Processing(STALE_VERSION))
    else if DigestOf(c) == mapped.value.digest then Some(Processing(ALREADY_PROJECTED))
    else Some(Permanent(VERSION_CONFLICT))
  }

  function CompareVersions(s: World, w: Worker, t: Task): (s': World)
    ensures OnBoard(s, s', w)
  {
    var mapped := Lookup(s.mappings, KeyOf(t));
    var verdict := VersionRule(t.customer, mapped);
    if verdict.Some? then End(s, w, verdict.value) else Move(s, w, Checked(t, mapped))
  }

  predicate Carries(p: Partner, client: nat, marker: string) {
    p.client == client && p.description == marker
  }

  function MarkedPartners(partners: map<nat, Partner>, client: nat, marker: string): set<nat> {
    set n | n in partners && Carries(partners[n], client, marker)
  }

  /** The engine session, then either the mapped record is read or the marker is searched for. */
  ghost function ProbeEngine(sha256: Hash, s: World, w: Worker, t: Task, mapped: Option<Mapping>, session: Session,
      reply: Reply)
    : (s': World)
    ensures OnBoard(s, s', w)
  {
    if !session.Ready? then End(s, w, SessionFailure(session))
    else if reply == Refused(404) && mapped.Some? then End(s, w, Permanent(NATIVE_PARTNER_MISSING))
    else if !reply.Answered? then End(s, w, EngineFailure(reply))
    else if mapped.Some? then Move(s, w, Found(t, mapped.value.native, UPDATED))
    else
      var marked := MarkedPartners(s.partners, t.client, MarkerOf(sha256, t));
      if |marked| > 1 then End(s, w, Permanent(DUPLICATE_NATIVE_PARTNERS))
      else if marked == {} then Move(s, w, Missing(t))
      else
        var n :| n in marked;
        Move(s, w, Found(t, n, ADOPTED_NATIVE_PARTNER))
  }

  function Written(s: World, n: nat, fields: Fields): World {
    if n in s.partners then s.(partners := s.partners[n := s.partners[n].(fields := fields)]) else s
  }

  /** An engine write that may take effect whatever its reply; only an answered one is known to have. */
  function UpdatePartner(s: World, w: Worker, t: Task, n: nat, code: Code, took: bool, reply: Reply): (s': World)
    ensures OnBoard(s, s', w) || OnBoard(Written(s, n, FieldsOf(t.customer)), s', w)
  {
    var written := if took then Written(s, n, FieldsOf(t.customer)) else s;
    if reply.Answered? && took && n in s.partners then Move(written, w, Applied(t, n, code))
    else End(written, w, EngineFailure(reply))
  }

  function Created(sha256: Hash, s: World, t: Task, n: nat): World {
    s.(partners := s.partners[n := Partner(t.client, MarkerOf(sha256, t), FieldsOf(t.customer))],
       issued := s.issued + {n})
  }

  function CreatePartner(sha256: Hash, s: World, w: Worker, t: Task, n: nat, groups: nat, took: bool, reply: Reply)
    : (s': World)
    ensures OnBoard(s, s', w) || (n !in s.issued && OnBoard(Created(sha256, s, t, n), s', w))
  {
    if groups != 1 then End(s, w, Waiting(BP_GROUP_UNAVAILABLE))
    else if !took || n in s.issued then End(s, w, EngineFailure(reply))
    else if reply.Answered? then Move(Created(sha256, s, t, n), w, Applied(t, n, CREATED))
    else End(Created(sha256, s, t, n), w, EngineFailure(reply))
  }

  predicate PublicIdTaken(mappings: map<MapKey, Mapping>, key: MapKey, publicId: string) {
    exists other :: other in mappings && other != key && mappings[other].publicId == publicId
  }

  /** The id a put returns: the stored one, or the one the column default mints. */
  function PublicIdOf(mappings: map<MapKey, Mapping>, key: MapKey, minted: string): string {
    if key in mappings then mappings[key].publicId else minted
  }

  function PartnerKey(tenant: string, publicId: string): DocumentKey {
    DocumentKey(tenant, "business_partner", publicId)
  }

  /** `mappings.put` and `_announce_partner`. */
  function RecordProjection(tables: Tables, c: Commitment): Tables {
    var customer := c.task.customer;
    var publicId := PublicIdOf(tables.mappings, KeyOf(c.task), c.minted);
    var (documents, step) := Observe(tables.documents, PartnerKey(c.task.tenant, publicId), customer.status,
                                     PartnerDetail(customer.displayName, customer.customerId), c.at);
    Tables(tables.mappings[KeyOf(c.task) := Mapping(c.native, DigestOf(customer), Numeric(customer.version), publicId)],
           documents,
           if step.changed then tables.outbox + [PartnerChanged(c.task.tenant, publicId, step.revision, customer)]
           else tables.outbox)
  }

  function TablesOf(s: World): Tables {
    Tables(s.mappings, s.documents, s.outbox)
  }

  function Committed(s: World, w: Worker, t: Task, n: nat, code: Code, minted: string): World
    requires InPhase(s, w)
  {
    var commitment := Commitment(s.queue.held[w].claim.row, t, n, code, minted, s.queue.now);
    var tables := RecordProjection(TablesOf(s), commitment);
    s.(mappings := tables.mappings,
       documents := tables.documents,
       outbox := tables.outbox,
       ledger := s.ledger + [commitment],
       queue := FinishRow(s.queue, w, Processing(code)),
       workers := s.workers - {w},
       locks := Released(s.locks, w))
  }

  /** The one transaction: mapping, revision, announcement and inbox outcome, all or nothing, fenced on the lease. A
      claim that was lost rolls everything back; a minted id that collides is an unexpected error. */
  function CommitProjection(s: World, w: Worker, t: Task, n: nat, code: Code, minted: string): (s': World)
    requires InPhase(s, w)
    ensures || OnBoard(s, s', w)
            || s' == Leave(s, w)
            || (Holds(s.queue, w) && s' == Committed(s, w, t, n, code, minted))
  {
    if KeyOf(t) !in s.mappings && PublicIdTaken(s.mappings, KeyOf(t), minted) then End(s, w, UNEXPECTED)
    else if !Holds(s.queue, w) then Leave(s, w)
    else Committed(s, w, t, n, code, minted)
  }

  function SettleAttempt(s: World, w: Worker, outcome: Outcome): World {
    s.(queue := FinishRow(s.queue, w, outcome), workers := s.workers - {w})
  }

  ghost function Step(sha256: Hash, s: World, call: Call): World {
    match call
    case Receive(id, tenant, payload) =>
      s.(queue := ReceiveRow(s.queue, id, NewRow("customer.projected", tenant, payload, s.queue.now)))
    case Tick(elapsed) => s.(queue := s.queue.(now := s.queue.now + elapsed))
    case Place(place, placement) =>
      if place in s.placements then s
      else s.(placements := s.placements[place := placement])
    case Unrelated(n, partner) =>
      if n in s.issued || MARKER_PREFIX <= partner.description then s
      else s.(partners := s.partners[n := partner], issued := s.issued + {n})
    case Take(w, id, lease) =>
      if w in s.workers || !CanTake(s.queue, w, id) then s else StartAttempt(s, w, id, lease)
    case Crash(w) => Leave(s, w)
    case _ => if InPhase(s, call.worker) then WorkerStep(sha256, s, call) else s
  }

  predicate ByWorker(call: Call) {
    !call.Receive? && !call.Tick? && !call.Place? && !call.Unrelated? && !call.Take? && !call.Crash?
  }

  ghost function WorkerStep(sha256: Hash, s: World, call: Call): World
    requires ByWorker(call) && InPhase(s, call.worker)
  {
    var phase := s.workers[call.worker];
    match call
    case Begin(w, contended) => if phase.Started? then BeginAttempt(s, w, contended) else s
    case Compare(w) => if phase.Holding? then CompareVersions(s, w, phase.task) else s
    case Probe(w, session, reply) =>
      if phase.Checked? then ProbeEngine(sha256, s, w, phase.task, phase.mapped, session, reply) else s
    case Update(w, took, reply) => if phase.Found?
        then UpdatePartner(s, w, phase.task, phase.native, phase.code, took, reply) else s
    case Create(w, n, groups, took, reply) =>
      if phase.Missing? then CreatePartner(sha256, s, w, phase.task, n, groups, took, reply) else s
    case Commit(w, minted) =>
      if phase.Applied? then CommitProjection(s, w, phase.task, phase.native, phase.code, minted) else s
    case Settle(w) =>
      if phase.Ending? then SettleAttempt(s, w, phase.outcome) else s
    case Stumble(w) => End(s, w, UNEXPECTED)
  }

  // ---------------------------------------------------------------------------------------------------------------
  // What a call can touch
  // ---------------------------------------------------------------------------------------------------------------

  predicate TakesEffect(s: World, call: Call) {
    && call.Commit? && InPhase(s, call.worker) && s.workers[call.worker].Applied? && Holds(s.queue, call.worker)
    && var key := KeyOf(s.workers[call.worker].task);
       key in s.mappings || !PublicIdTaken(s.mappings, key, call.minted)
  }

  lemma CommitEffect(sha256: Hash, s: World, call: Call)
    requires call.Commit? && InPhase(s, call.worker) && s.workers[call.worker].Applied?
    ensures var p := s.workers[call.worker];
            Step(sha256, s, call) == CommitProjection(s, call.worker, p.task, p.native, p.code, call.minted)
  {
  }

  /** Only a commit that takes effect writes ERP's tables, and it writes them all. */
  lemma TablesChangeByCommit(sha256: Hash, s: World, call: Call)
    ensures !TakesEffect(s, call) ==>
        TablesOf(Step(sha256, s, call)) == TablesOf(s) && Step(sha256, s, call).ledger == s.ledger
    ensures TakesEffect(s, call) ==>
              var p := s.workers[call.worker];
              Step(sha256, s, call) == Committed(s, call.worker, p.task, p.native, p.code, call.minted)
  {
    if call.Commit? {
      if InPhase(s, call.worker) && s.workers[call.worker].Applied? { CommitEffect(sha256, s, call); }
    } else {
      OtherCallsLeaveTables(sha256, s, call);
    }
  }

  lemma OtherCallsLeaveTables(sha256: Hash, s: World, call: Call)
    requires !call.Commit?
    ensures TablesOf(Step(sha256, s, call)) == TablesOf(s) && Step(sha256, s, call).ledger == s.ledger
  {
    match call
    case Update(_, _, _) => UpdateWrites(sha256, s, call);
    case Create(_, _, _, _, _) => CreateWrites(sha256, s, call);
    case Begin(_, _) => ReadingStays(sha256, s, call);
    case Compare(_) => ReadingStays(sha256, s, call);
    case Probe(_, _, _) => ReadingStays(sha256, s, call);
    case Stumble(_) => ReadingStays(sha256, s, call);
    case _ =>
  }

  /** Reading calls move only their worker. */
  lemma ReadingStays(sha256: Hash, s: World, call: Call)
    requires call.Begin? || call.Compare? || call.Probe? || call.Stumble?
    ensures var s' := Step(sha256, s, call); s' == s || OnBoard(s, s', call.worker)
  {
    if InPhase(s, call.worker) {
      match call
      case Begin(_, _) =>
      case Compare(_) =>
      case Probe(_, _, _) =>
      case Stumble(_) =>
    }
  }

  lemma UpdateWrites(sha256: Hash, s: World, call: Call)
    requires call.Update?
    ensures var s' := Step(sha256, s, call);
            || s' == s || OnBoard(s, s', call.worker)
            || (InPhase(s, call.worker) && s.workers[call.worker].Found?
                && var p := s.workers[call.worker];
                    OnBoard(Written(s, p.native, FieldsOf(p.task.customer)), s', call.worker))
  {
  }

  lemma CreateWrites(sha256: Hash, s: World, call: Call)
    requires call.Create?
    ensures var s' := Step(sha256, s, call);
            || s' == s || OnBoard(s, s', call.worker)
            || (InPhase(s, call.worker) && s.workers[call.worker].Missing? && call.native !in s.issued
                && OnBoard(Created(sha256, s, s.workers[call.worker].task, call.native), s', call.worker))
  {
  }

  predicate SameEngine(s: World, s': World) {
    s'.partners == s.partners && s'.issued == s.issued
  }

  lemma EndsKeepEngine(sha256: Hash, s: World, call: Call)
    requires call.Commit? || call.Settle?
    ensures SameEngine(s, Step(sha256, s, call))
  {
    if call.Commit? && InPhase(s, call.worker) && s.workers[call.worker].Applied? { CommitEffect(sha256, s, call); }
  }

  /** Only these calls write the engine. */
  lemma PartnersChangeByWriting(sha256: Hash, s: World, call: Call)
    ensures var s' := Step(sha256, s, call);
            || SameEngine(s, s')
            || (call.Update? && InPhase(s, call.worker) && s.workers[call.worker].Found?
                && var p := s.workers[call.worker]; SameEngine(Written(s, p.native, FieldsOf(p.task.customer)), s'))
            || (call.Create? && InPhase(s, call.worker) && s.workers[call.worker].Missing? && call.native !in s.issued
                && SameEngine(Created(sha256, s, s.workers[call.worker].task, call.native), s'))
            || (call.Unrelated? && call.native !in s.issued && !(MARKER_PREFIX <= call.partner.description)
                && SameEngine(s.(partners := s.partners[call.native := call.partner],
                                 issued := s.issued + {call.native}), s'))
  {
    match call
    case Update(_, _, _) => UpdateWrites(sha256, s, call);
    case Create(_, _, _, _, _) => CreateWrites(sha256, s, call);
    case Commit(_, _) => EndsKeepEngine(sha256, s, call);
    case Settle(_) => EndsKeepEngine(sha256, s, call);
    case Begin(_, _) => ReadingStays(sha256, s, call);
    case Compare(_) => ReadingStays(sha256, s, call);
    case Probe(_, _, _) => ReadingStays(sha256, s, call);
    case Stumble(_) => ReadingStays(sha256, s, call);
    case _ =>
  }

  lemma PlacementsStay(sha256: Hash, s: World, call: Call, place: (string, string))
    requires place in s.placements
    ensures var s' := Step(sha256, s, call); place in s'.placements && s'.placements[place] == s.placements[place]
  {
    match call
    case Update(_, _, _) => UpdateWrites(sha256, s, call);
    case Create(_, _, _, _, _) => CreateWrites(sha256, s, call);
    case Begin(_, _) => ReadingStays(sha256, s, call);
    case Compare(_) => ReadingStays(sha256, s, call);
    case Probe(_, _, _) => ReadingStays(sha256, s, call);
    case Stumble(_) => ReadingStays(sha256, s, call);
    case Commit(_, _) =>
      if InPhase(s, call.worker) && s.workers[call.worker].Applied? { CommitEffect(sha256, s, call); }
    case _ =>
  }

  /** Only ingress, the clock, a claim, a crash and the two ends of an attempt touch the queue. */
  lemma QueueStays(sha256: Hash, s: World, call: Call)
    requires !call.Receive? && !call.Tick? && !call.Take? && !call.Commit? && !call.Settle? && !call.Crash?
    ensures Step(sha256, s, call).queue == s.queue
  {
    match call
    case Update(_, _, _) => UpdateWrites(sha256, s, call);
    case Create(_, _, _, _, _) => CreateWrites(sha256, s, call);
    case Begin(_, _) => ReadingStays(sha256, s, call);
    case Compare(_) => ReadingStays(sha256, s, call);
    case Probe(_, _, _) => ReadingStays(sha256, s, call);
    case Stumble(_) => ReadingStays(sha256, s, call);
    case _ =>
  }

  /** Only the queue's own operations touch a row. */
  lemma RowsChangeByQueue(sha256: Hash, s: World, call: Call)
    requires !call.Receive? && !call.Take? && !call.Commit? && !call.Settle?
    ensures Step(sha256, s, call).queue.rows == s.queue.rows
  {
    if !call.Tick? && !call.Crash? { QueueStays(sha256, s, call); }
  }

  ghost predicate SameEvents(rows: map<RowId, Row<Payload>>, rows': map<RowId, Row<Payload>>) {
    && rows'.Keys == rows.Keys
    && forall id :: id in rows ==> rows'[id].payload == rows[id].payload && rows'[id].tenant == rows[id].tenant
  }

  lemma CommitKeepsEvents(sha256: Hash, s: World, call: Call)
    requires call.Commit?
    ensures SameEvents(s.queue.rows, Step(sha256, s, call).queue.rows)
  {
    if InPhase(s, call.worker) && s.workers[call.worker].Applied? {
      CommitEffect(sha256, s, call);
      var p := s.workers[call.worker];
      var s' := CommitProjection(s, call.worker, p.task, p.native, p.code, call.minted);
      assert s'.queue == s.queue || s'.queue == Drop(s.queue, call.worker)
          || s'.queue == FinishRow(s.queue, call.worker, Processing(p.code));
    }
  }

  lemma SettleKeepsEvents(sha256: Hash, s: World, call: Call)
    requires call.Settle?
    ensures SameEvents(s.queue.rows, Step(sha256, s, call).queue.rows)
  {
    if InPhase(s, call.worker) && s.workers[call.worker].Ending? {
      assert Step(sha256, s, call) == SettleAttempt(s, call.worker, s.workers[call.worker].outcome);
    }
  }

  /** A stored event never changes; only ingress adds one. */
  lemma EventsStay(sha256: Hash, s: World, call: Call, id: RowId)
    requires id in Step(sha256, s, call).queue.rows
    ensures var row := Step(sha256, s, call).queue.rows[id];
            if id in s.queue.rows then row.payload == s.queue.rows[id].payload && row.tenant == s.queue.rows[id].tenant
            else call.Receive? && row.payload == call.payload && row.tenant == call.tenant
  {
    match call
    case Receive(_, _, _) =>
    case Take(_, _, _) =>
    case Commit(_, _) => CommitKeepsEvents(sha256, s, call);
    case Settle(_) => SettleKeepsEvents(sha256, s, call);
    case _ => RowsChangeByQueue(sha256, s, call);
  }

  lemma RowsStay(sha256: Hash, s: World, call: Call, id: RowId)
    requires id in s.queue.rows
    ensures var row, rows := s.queue.rows[id], Step(sha256, s, call).queue.rows;
            id in rows && rows[id].payload == row.payload && rows[id].tenant == row.tenant
  {
    match call
    case Receive(_, _, _) =>
    case Take(_, _, _) =>
    case Commit(_, _) => CommitKeepsEvents(sha256, s, call);
    case Settle(_) => SettleKeepsEvents(sha256, s, call);
    case _ => RowsChangeByQueue(sha256, s, call);
  }

  ghost function Run(sha256: Hash, s: World, calls: seq<Call>): World
    decreases |calls|
  {
    if calls == [] then s else Run(sha256, Step(sha256, s, calls[0]), calls[1..])
  }

  lemma RunOne(sha256: Hash, s: World, call: Call)
    ensures Run(sha256, s, [call]) == Step(sha256, s, call)
  {
  }

  lemma RunStarts(sha256: Hash, s: World, call: Call, more: seq<Call>)
    ensures Run(sha256, s, [call] + more) == Run(sha256, Step(sha256, s, call), more)
  {
    assert ([call] + more)[1..] == more;
  }

  lemma {:induction false} RunAppends(sha256: Hash, s: World, calls: seq<Call>, later: seq<Call>)
    ensures Run(sha256, s, calls + later) == Run(sha256, Run(sha256, s, calls), later)
    decreases |calls|
  {
    if calls == [] {
      assert calls + later == later;
    } else {
      assert (calls + later)[1..] == calls[1..] + later;
      RunAppends(sha256, Step(sha256, s, calls[0]), calls[1..], later);
    }
  }

  /** A run is what its states, one call apart, lead to. */
  lemma {:induction false} RunThrough(sha256: Hash, states: seq<World>, calls: seq<Call>)
    requires |states| == |calls| + 1
    requires forall i :: 0 <= i < |calls| ==> states[i + 1] == Step(sha256, states[i], calls[i])
    ensures Run(sha256, states[0], calls) == states[|calls|]
    decreases |calls|
  {
    if calls != [] {
      forall i | 0 <= i < |calls| - 1 ensures states[1..][i + 1] == Step(sha256, states[1..][i], calls[1..][i]) {
        assert states[i + 2] == Step(sha256, states[i + 1], calls[i + 1]);
      }
      RunThrough(sha256, states[1..], calls[1..]);
    }
  }
}
