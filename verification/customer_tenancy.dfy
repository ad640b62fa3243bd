/**
 When the mapping really is stable. The mapping table is keyed by engine instance, legal entity and customer, the lock
 by tenant, legal entity and customer. Two tenants sending one legal entity's customer therefore share a mapping row
 without sharing a lock, and the second one to commit takes the mapping over, with an older version if that is what it
 has. That is the only way it can happen.
 */
module CustomerTenancy {
  import opened Prelude
  import opened Text
  import opened ExecutionPolicy
  import opened Inbox
  import opened InboxSupport
  import opened Customers
  import opened CustomerPartners
  import opened CustomerSafety
  import opened CustomerTheorems
  import opened CustomerConvergence

  /** Every accepted event is about one of these customers. */
  ghost predicate CallFrom(call: Call, customers: set<CustomerKey>) {
    call.Receive? && call.payload.Projected? && call.tenant.Some? ==>
      var c := call.payload.customer;
      WellFormed(call.tenant.value, c) && CustomerKey(call.tenant.value, c.legalEntity, c.customerId) in customers
  }

  ghost predicate CallsFrom(calls: seq<Call>, customers: set<CustomerKey>) {
    forall i :: 0 <= i < |calls| ==> CallFrom(calls[i], customers)
  }

  ghost predicate OneTenantEach(customers: set<CustomerKey>) {
    forall a, b ::
        a in customers && b in customers && a.legalEntity == b.legalEntity && a.customerId == b.customerId ==>
                     a.tenant == b.tenant
  }

  ghost predicate Remaps(sha256: Hash, s: World, calls: seq<Call>, later: seq<Call>, key: MapKey) {
    var before := Run(sha256, s, calls).mappings;
    var after := Run(sha256, s, calls + later).mappings;
    key in before && !(key in after && after[key].native == before[key].native)
  }

  ghost predicate NeverRemaps(sha256: Hash, customers: set<CustomerKey>) {
    forall s, calls, later, key :: Initial(s) && CallsFrom(calls, customers) && CallsFrom(later, customers) ==>
                                     !Remaps(sha256, s, calls, later, key)
  }

  /** The mapped version goes back. */
  ghost predicate FallsBack(sha256: Hash, s: World, calls: seq<Call>, later: seq<Call>, key: MapKey) {
    var before := Run(sha256, s, calls).mappings;
    var after := Run(sha256, s, calls + later).mappings;
    key in before && !(key in after && KnownVersion(after[key].version) >= KnownVersion(before[key].version))
  }

  ghost predicate NeverFallsBack(sha256: Hash, customers: set<CustomerKey>) {
    forall s, calls, later, key :: Initial(s) && CallsFrom(calls, customers) && CallsFrom(later, customers) ==>
                                     !FallsBack(sha256, s, calls, later, key)
  }

  /** A customer's highest version is mapped, nothing newer comes, and its mapping or partner changes all the same. */
  ghost predicate Unsettles(sha256: Hash, s: World, calls: seq<Call>, later: seq<Call>, key: MapKey) {
    var before, after := Run(sha256, s, calls), Run(sha256, s, calls + later);
    && key in before.mappings && before.mappings[key].native in before.partners
    && NoNewerRow(before, key, KnownVersion(before.mappings[key].version))
    && (forall i :: 0 <= i < |later| ==> NoNewerCall(later[i], key, KnownVersion(before.mappings[key].version)))
    && !(key in after.mappings && after.mappings[key] == before.mappings[key]
         && before.mappings[key].native in after.partners
         && after.partners[before.mappings[key].native] == before.partners[before.mappings[key].native])
  }

  ghost predicate NeverUnsettles(sha256: Hash, customers: set<CustomerKey>) {
    forall s, calls, later, key :: Initial(s) && CallsFrom(calls, customers) && CallsFrom(later, customers) ==>
                                     !Unsettles(sha256, s, calls, later, key)
  }

  /** The newest event of a customer is processed, and mapping or partner hold something else. */
  ghost predicate Loses(sha256: Hash, s: World, calls: seq<Call>, id: RowId, key: MapKey) {
    var s' := Run(sha256, s, calls);
    NewestProcessed(s.mappings, s', id, key) && !Wins(s', id, key)
  }

  ghost predicate NewestAlwaysWins(sha256: Hash, customers: set<CustomerKey>) {
    forall s, calls, id, key :: Initial(s) && CallsFrom(calls, customers) ==> !Loses(sha256, s, calls, id, key)
  }

  ghost function TenantIn(customers: set<CustomerKey>, legalEntity: string, customerId: string): string {
    if tenant :| CustomerKey(tenant, legalEntity, customerId) in customers then tenant else ""
  }

  ghost function OwnerIn(customers: set<CustomerKey>): Owner {
    (legalEntity, customerId) => TenantIn(customers, legalEntity, customerId)
  }

  /** With one tenant each, the theorems about one-tenant runs apply. */
  lemma OneTenantRuns(sha256: Hash, customers: set<CustomerKey>, s: World, calls: seq<Call>, later: seq<Call>)
    requires Injective(sha256) && OneTenantEach(customers)
    requires Initial(s) && CallsFrom(calls, customers) && CallsFrom(later, customers)
    ensures Inv(Run(sha256, s, calls), sha256, OwnerIn(customers))
    ensures CallsOwned(calls, OwnerIn(customers)) && CallsOwned(later, OwnerIn(customers))
    ensures Run(sha256, s, calls + later) == Run(sha256, Run(sha256, s, calls), later)
  {
    OwnedByTheOne(calls, customers, OwnerIn(customers));
    OwnedByTheOne(later, customers, OwnerIn(customers));
    InitialFits(s, sha256, OwnerIn(customers));
    RunKeeps(s, calls, sha256, OwnerIn(customers));
    RunAppends(sha256, s, calls, later);
  }

  lemma OneTenantIsEnough(sha256: Hash, customers: set<CustomerKey>)
    requires Injective(sha256) && OneTenantEach(customers)
    ensures NeverRemaps(sha256, customers) && NeverFallsBack(sha256, customers)
  {
    forall s, calls, later, key | Initial(s) && CallsFrom(calls, customers) && CallsFrom(later, customers)
      ensures !Remaps(sha256, s, calls, later, key) && !FallsBack(sha256, s, calls, later, key)
    {
      OneTenantRuns(sha256, customers, s, calls, later);
      MappingsAdvance(Run(sha256, s, calls), later, sha256, OwnerIn(customers), key);
    }
  }

  lemma OneTenantSettles(sha256: Hash, customers: set<CustomerKey>)
    requires Injective(sha256) && OneTenantEach(customers)
    ensures NeverUnsettles(sha256, customers)
  {
    forall s, calls, later, key | Initial(s) && CallsFrom(calls, customers) && CallsFrom(later, customers)
      ensures !Unsettles(sha256, s, calls, later, key)
    {
      OneTenantRuns(sha256, customers, s, calls, later);
      if Unsettles(sha256, s, calls, later, key) {
        HighestVersionIsFinal(Run(sha256, s, calls), later, key, sha256, OwnerIn(customers));
      }
    }
  }

  lemma OneTenantConverges(sha256: Hash, customers: set<CustomerKey>)
    requires Injective(sha256) && OneTenantEach(customers)
    ensures NewestAlwaysWins(sha256, customers)
  {
    forall s, calls, id, key | Initial(s) && CallsFrom(calls, customers) ensures !Loses(sha256, s, calls, id, key) {
      OwnedByTheOne(calls, customers, OwnerIn(customers));
      if Loses(sha256, s, calls, id, key) {
        NewestEventWins(s, calls, id, key, sha256, OwnerIn(customers));
      }
    }
  }

  lemma OwnedByTheOne(calls: seq<Call>, customers: set<CustomerKey>, owner: Owner)
    requires OneTenantEach(customers) && CallsFrom(calls, customers)
    requires forall e, c :: owner(e, c) == TenantIn(customers, e, c)
    ensures CallsOwned(calls, owner)
  {
    forall i | 0 <= i < |calls| ensures CallOwned(calls[i], owner) {
      assert CallFrom(calls[i], customers);
      if calls[i].Receive? && calls[i].payload.Projected? && calls[i].tenant.Some? {
        var c := calls[i].payload.customer;
        var key := CustomerKey(calls[i].tenant.value, c.legalEntity, c.customerId);
        assert key in customers;
        assert owner(c.legalEntity, c.customerId) == TenantIn(customers, c.legalEntity, c.customerId);
        assert CustomerKey(TenantIn(customers, c.legalEntity, c.customerId), c.legalEntity, c.customerId) in customers;
      }
    }
  }

  // ---------------------------------------------------------------------------------------------------------------
  // Two tenants, one legal entity's customer
  // ---------------------------------------------------------------------------------------------------------------

  const NOTHING: World := World(NewQueue(), map[], map[], map[], {}, map[], map[], [], [], map[])

  /** One worker's share of the run: its name, its row, the tenant it works for and the partner it creates. */
  datatype Lane = Lane(worker: Worker, row: RowId, task: Task, native: nat)

  function LaneOf(worker: Worker, row: RowId, key: CustomerKey, version: nat): Lane {
    var customer := Customer(key.legalEntity, key.customerId, version, "person", "Name", "active");
    Lane(worker, row, Task(key.tenant, customer, row, "engine"), row)
  }

  /** From receipt to the engine record, up to the moment before the commit. */
  function Approach(l: Lane): seq<Call> {
    [Place((l.task.tenant, l.task.customer.legalEntity), Placement(l.task.client, Some(l.task.instance))),
     Call.Receive(l.row, Some(l.task.tenant), Projected(l.task.customer)),
     Call.Take(l.worker, l.row, 0), Begin(l.worker, false), Compare(l.worker), Probe(l.worker, Ready, Answered),
     Create(l.worker, l.native, 1, true, Answered)]
  }

  /** Nothing in this world stands in the lane's way. */
  ghost predicate Clear(s: World, l: Lane, sha256: Hash) {
    && (l.task.tenant, l.task.customer.legalEntity) !in s.placements
    && l.row !in s.queue.rows && l.row !in s.queue.history
    && l.worker !in s.workers && l.worker !in s.queue.held
    && LockKey(l.task) !in s.locks
    && KeyOf(l.task) !in s.mappings
    && l.native !in s.issued
    && MarkedPartners(s.partners, l.task.client, MarkerOf(sha256, l.task)) == {}
    && l.task.tenant != "" && l.task.customer.version >= 1
  }

  function Approached(sha256: Hash, s: World, l: Lane): World {
    LaneStarted(s, l).(
       locks := s.locks[LockKey(l.task) := l.worker],
       partners := s.partners[l.native := Partner(l.task.client, MarkerOf(sha256, l.task), FieldsOf(l.task.customer))],
       issued := s.issued + {l.native},
       workers := s.workers[l.worker := Applied(l.task, l.native, CREATED)])
  }

  function LaneRow(s: World, l: Lane): Row<Payload> {
    NewRow("customer.projected", Some(l.task.tenant), Projected(l.task.customer), s.queue.now)
  }

  function LanePlaced(s: World, l: Lane): World {
    s.(placements :=
        s.placements[(l.task.tenant, l.task.customer.legalEntity) := Placement(l.task.client, Some(l.task.instance))])
  }

  function LaneReceived(s: World, l: Lane): World {
    LanePlaced(s, l).(queue := s.queue.(rows := s.queue.rows[l.row := LaneRow(s, l)],
                                        history := s.queue.history[l.row := History(0, 0, 0, 0, true)]))
  }

  function LaneStarted(s: World, l: Lane): World {
    LanePlaced(s, l).(queue := s.queue.(rows := s.queue.rows[l.row := Leased(LaneRow(s, l), l.worker, 0, s.queue.now)],
                                        held := s.queue.held[l.worker := Held(Claimed(l.row, l.worker, 1), 1)],
                                        history := s.queue.history[l.row := History(1, 0, 0, 0, true)]),
                      workers := s.workers[l.worker := Started])
  }

  /** The lane's row received and claimed. */
  lemma LaneTaken(sha256: Hash, s: World, l: Lane)
    requires Clear(s, l, sha256)
    ensures Run(sha256, s, Approach(l)[..3]) == LaneStarted(s, l)
  {
    var s1, s2, s3 := LanePlaced(s, l), LaneReceived(s, l), LaneStarted(s, l);
    LaneSteps(sha256, s, l);
    RunThrough(sha256, [s, s1, s2, s3], Approach(l)[..3]);
  }

  lemma LaneSteps(sha256: Hash, s: World, l: Lane)
    requires Clear(s, l, sha256)
    ensures Step(sha256, s, Approach(l)[0]) == LanePlaced(s, l)
    ensures Step(sha256, LanePlaced(s, l), Approach(l)[1]) == LaneReceived(s, l)
    ensures Step(sha256, LaneReceived(s, l), Approach(l)[2]) == LaneStarted(s, l)
  {
    assert CanTake(LaneReceived(s, l).queue, l.worker, l.row);
    assert StartAttempt(LaneReceived(s, l), l.worker, l.row, 0) == LaneStarted(s, l);
  }

  lemma ApproachReaches(sha256: Hash, s: World, l: Lane)
    requires Clear(s, l, sha256)
    ensures Run(sha256, s, Approach(l)) == Approached(sha256, s, l)
  {
    LaneTaken(sha256, s, l);
    TakenToCreated(sha256, s, l);
    RunAppends(sha256, s, Approach(l)[..3], Approach(l)[3..]);
    assert Approach(l)[..3] + Approach(l)[3..] == Approach(l);
  }

  lemma BeginStep(sha256: Hash, s: World, w: Worker, t: Task)
    requires InPhase(s, w) && s.workers[w].Started? && LockKey(t) !in s.locks && t.tenant != ""
    requires var row := s.queue.rows[s.queue.held[w].claim.row];
        row.tenant == Some(t.tenant) && row.payload == Projected(t.customer)
    requires var place := (t.tenant, t.customer.legalEntity);
             place in s.placements && s.placements[place] == Placement(t.client, Some(t.instance))
    ensures Step(sha256, s, Begin(w, false)) == Acquire(s, w, t)
  {
    assert BeginAttempt(s, w, false) == Acquire(s, w, t);
  }

  lemma CompareStep(sha256: Hash, s: World, w: Worker, t: Task)
    requires InPhase(s, w) && s.workers[w] == Holding(t) && KeyOf(t) !in s.mappings
    ensures Step(sha256, s, Compare(w)) == Move(s, w, Checked(t, None))
  {
    assert CompareVersions(s, w, t) == Move(s, w, Checked(t, None));
  }

  lemma ProbeStep(sha256: Hash, s: World, w: Worker, t: Task)
    requires InPhase(s, w) && s.workers[w] == Checked(t, None)
    requires MarkedPartners(s.partners, t.client, MarkerOf(sha256, t)) == {}
    ensures Step(sha256, s, Probe(w, Ready, Answered)) == Move(s, w, Missing(t))
  {
    assert ProbeEngine(sha256, s, w, t, None, Ready, Answered) == Move(s, w, Missing(t));
  }

  lemma CreateStep(sha256: Hash, s: World, w: Worker, t: Task, n: nat)
    requires InPhase(s, w) && s.workers[w] == Missing(t) && n !in s.issued
    ensures Step(sha256, s, Create(w, n, 1, true, Answered)) == Move(Created(sha256, s, t, n), w,
        Applied(t, n, CREATED))
  {
  }

  lemma TakenToCreated(sha256: Hash, s: World, l: Lane)
    requires Clear(s, l, sha256)
    ensures Run(sha256, LaneStarted(s, l), Approach(l)[3..]) == Approached(sha256, s, l)
  {
    var t, w := l.task, l.worker;
    var s3 := LaneStarted(s, l);
    var s4 := Acquire(s3, w, t);
    var s5 := Move(s4, w, Checked(t, None));
    var s6 := LaneSearched(s, l);
    LaneSearches(sha256, s, l);
    LaneCreates(sha256, s, l);
    RunThrough(sha256, [s3, s4, s5, s6, Approached(sha256, s, l)], Approach(l)[3..]);
  }

  lemma LaneSearches(sha256: Hash, s: World, l: Lane)
    requires Clear(s, l, sha256)
    ensures var s3 := LaneStarted(s, l);
            var s4 := Acquire(s3, l.worker, l.task);
            var s5 := Move(s4, l.worker, Checked(l.task, None));
            && Step(sha256, s3, Approach(l)[3]) == s4
            && Step(sha256, s4, Approach(l)[4]) == s5
            && Step(sha256, s5, Approach(l)[5]) == LaneSearched(s, l)
  {
    var s3 := LaneStarted(s, l);
    BeginStep(sha256, s3, l.worker, l.task);
    var s4 := Acquire(s3, l.worker, l.task);
    CompareStep(sha256, s4, l.worker, l.task);
    ProbeStep(sha256, Move(s4, l.worker, Checked(l.task, None)), l.worker, l.task);
  }

  function LaneSearched(s: World, l: Lane): World {
    var s4 := Acquire(LaneStarted(s, l), l.worker, l.task);
    Move(Move(s4, l.worker, Checked(l.task, None)), l.worker, Missing(l.task))
  }

  lemma LaneCreates(sha256: Hash, s: World, l: Lane)
    requires Clear(s, l, sha256)
    ensures Step(sha256, LaneSearched(s, l), Approach(l)[6]) == Approached(sha256, s, l)
  {
    CreateStep(sha256, LaneSearched(s, l), l.worker, l.task, l.native);
    LaneEnds(sha256, s, l);
  }

  lemma LaneEnds(sha256: Hash, s: World, l: Lane)
    ensures Move(Created(sha256, LaneSearched(s, l), l.task, l.native), l.worker, Applied(l.task, l.native, CREATED))
         == Approached(sha256, s, l)
  {
  }

  /** Both workers get as far as their engine records before either commits. */
  lemma BothApproach(sha256: Hash, a: Lane, b: Lane)
    requires Injective(sha256) && Clear(NOTHING, a, sha256) && Clear(NOTHING, b, sha256)
    requires a.task.tenant != b.task.tenant && a.worker != b.worker && a.row != b.row && a.native != b.native
    requires a.task.client != b.task.client
    ensures Run(sha256, NOTHING, Approach(a) + Approach(b)) == Approached(sha256, Approached(sha256, NOTHING, a), b)
  {
    ApproachReaches(sha256, NOTHING, a);
    ApproachReaches(sha256, Approached(sha256, NOTHING, a), b);
    RunAppends(sha256, NOTHING, Approach(a), Approach(b));
  }

  /** The lane's worker stands before its commit, holding its row. */
  predicate Waiting(s: World, l: Lane) {
    && InPhase(s, l.worker) && Holds(s.queue, l.worker) && s.workers[l.worker] == Applied(l.task, l.native, CREATED)
    && s.queue.held[l.worker].claim.row == l.row
  }

  /** The mapping is on lane `l`'s record and version. */
  predicate MappedTo(s: World, key: MapKey, l: Lane) {
    && key in s.mappings && s.mappings[key].native == l.native
    && s.mappings[key].version == Numeric(l.task.customer.version)
  }

  /** Both lanes' rows and records are there. */
  predicate BothLanes(s: World, a: Lane, b: Lane) {
    && s.queue.rows.Keys == {a.row, b.row} && a.native in s.partners && b.native in s.partners
    && s.queue.rows[a.row].tenant == Some(a.task.tenant) && s.queue.rows[a.row].payload == Projected(a.task.customer)
    && s.queue.rows[b.row].payload == Projected(b.task.customer)
    && var place := (a.task.tenant, a.task.customer.legalEntity);
       place in s.placements && s.placements[place].instance == Some(a.task.instance)
  }

  lemma BothWait(sha256: Hash, a: Lane, b: Lane)
    requires a.worker != b.worker && a.row != b.row && a.task.tenant != b.task.tenant && a.native != b.native
    ensures var s := Approached(sha256, Approached(sha256, NOTHING, a), b);
            Waiting(s, a) && Waiting(s, b) && BothLanes(s, a, b) && s.mappings == map[]
  {
  }

  /** A commit in such a world. */
  lemma CommitStep(sha256: Hash, s: World, l: Lane, minted: string)
    requires Waiting(s, l) && (KeyOf(l.task) in s.mappings || s.mappings == map[])
    ensures Step(sha256, s, Commit(l.worker, minted)) == Committed(s, l.worker, l.task, l.native, CREATED, minted)
    ensures MappedTo(Step(sha256, s, Commit(l.worker, minted)), KeyOf(l.task), l)
  {
    CommitEffect(sha256, s, Commit(l.worker, minted));
  }

  lemma CommittedLanes(s: World, l: Lane, minted: string, a: Lane, b: Lane)
    requires Waiting(s, l) && BothLanes(s, a, b)
    ensures var s' := Committed(s, l.worker, l.task, l.native, CREATED, minted);
            && BothLanes(s', a, b) && l.row in s'.queue.rows && s'.queue.rows[l.row].status.Done?
            && (forall id :: id in s.queue.rows && id != l.row ==> s'.queue.rows[id] == s.queue.rows[id])
  {
  }

  lemma OtherWaits(s: World, l: Lane, minted: string, other: Lane)
    requires Waiting(s, l) && Waiting(s, other) && l.worker != other.worker && l.row != other.row
    ensures Waiting(Committed(s, l.worker, l.task, l.native, CREATED, minted), other)
  {
  }

  /** The second commit maps the shared key to its own record and version, the first lane's row being processed. */
  lemma BothCommit(sha256: Hash, s: World, a: Lane, b: Lane)
    requires Waiting(s, a) && Waiting(s, b) && BothLanes(s, a, b) && s.mappings == map[]
    requires KeyOf(a.task) == KeyOf(b.task) && a.worker != b.worker && a.row != b.row
    ensures var s1 := Run(sha256, s, [Commit(a.worker, "p")]);
            var s2 := Run(sha256, s1, [Commit(b.worker, "q")]);
            && MappedTo(s1, KeyOf(a.task), a) && MappedTo(s2, KeyOf(a.task), b)
            && BothLanes(s1, a, b) && BothLanes(s2, a, b) && s2.queue.rows[a.row].status.Done?
  {
    var s1 := Committed(s, a.worker, a.task, a.native, CREATED, "p");
    RunOne(sha256, s, Commit(a.worker, "p"));
    CommitStep(sha256, s, a, "p");
    CommittedLanes(s, a, "p", a, b);
    OtherWaits(s, a, "p", b);
    RunOne(sha256, s1, Commit(b.worker, "q"));
    CommitStep(sha256, s1, b, "q");
    CommittedLanes(s1, b, "q", a, b);
  }

  lemma LaneIsClear(sha256: Hash, l: Lane, key: CustomerKey, version: nat)
    requires l == LaneOf(l.worker, l.row, key, version) && key.tenant != "" && version >= 1
    ensures Clear(NOTHING, l, sha256) && Initial(NOTHING)
  {
  }

  lemma ApproachFrom(l: Lane, key: CustomerKey, version: nat, customers: set<CustomerKey>)
    requires l == LaneOf(l.worker, l.row, key, version) && version >= 1
    requires key in customers && ColonFree(key.tenant) && ColonFree(key.legalEntity)
    ensures CallsFrom(Approach(l), customers)
  {
  }

  predicate Sharing(x: CustomerKey, y: CustomerKey) {
    x.legalEntity == y.legalEntity && x.customerId == y.customerId && x.tenant != y.tenant
  }

  /** Tenants are named, and neither they nor legal entities hold a colon. */
  predicate Proper(customers: set<CustomerKey>) {
    forall c :: c in customers ==> ColonFree(c.tenant) && ColonFree(c.legalEntity) && c.tenant != ""
  }

  /** What goes wrong: up to a point the higher version is mapped, then the lower one takes the mapping over. */
  ghost predicate Overtaken(s1: World, s2: World, key: MapKey, a: Lane, b: Lane) {
    && MappedTo(s1, key, a) && MappedTo(s2, key, b) && BothLanes(s1, a, b) && BothLanes(s2, a, b)
    && s2.queue.rows[a.row].status.Done? && key == KeyOf(a.task) == KeyOf(b.task)
    && a.native != b.native && a.task.customer.version == 2 && b.task.customer.version == 1
  }

  /** Both tenants' events up to their engine records, and the newer one's commit; then the older one's. */
  function FirstPart(a: Lane, b: Lane): seq<Call> {
    Approach(a) + Approach(b) + [Commit(a.worker, "p")]
  }

  function SecondPart(b: Lane): seq<Call> {
    [Commit(b.worker, "q")]
  }

  lemma OlderOvertakes(sha256: Hash, a: Lane, b: Lane, x: CustomerKey, y: CustomerKey)
    requires Injective(sha256) && Sharing(x, y) && x.tenant != "" && y.tenant != ""
    requires a == LaneOf("a", 1, x, 2) && b == LaneOf("b", 2, y, 1)
    ensures Overtaken(Run(sha256, NOTHING, FirstPart(a, b)), Run(sha256, NOTHING, FirstPart(a, b) + SecondPart(b)),
        KeyOf(a.task), a, b)
  {
    LaneIsClear(sha256, a, x, 2);
    LaneIsClear(sha256, b, y, 1);
    BothApproach(sha256, a, b);
    BothWait(sha256, a, b);
    BothCommit(sha256, Approached(sha256, Approached(sha256, NOTHING, a), b), a, b);
    RunAppends(sha256, NOTHING, Approach(a) + Approach(b), [Commit(a.worker, "p")]);
    RunAppends(sha256, NOTHING, FirstPart(a, b), SecondPart(b));
  }

  /** Whatever two tenants of one legal entity's customer are accepted, some run takes a mapping from one partner to
      another and back to an older version, after its highest version and with its newest event processed. */
  lemma SharedCustomerRemaps(sha256: Hash, customers: set<CustomerKey>, x: CustomerKey, y: CustomerKey)
    returns (calls: seq<Call>, later: seq<Call>, key: MapKey)
    requires Injective(sha256) && x in customers && y in customers && Proper(customers) && Sharing(x, y)
    ensures Initial(NOTHING)
    ensures CallsFrom(calls, customers) && CallsFrom(later, customers) && CallsFrom(calls + later, customers)
    ensures Remaps(sha256, NOTHING, calls, later, key) && FallsBack(sha256, NOTHING, calls, later, key)
    ensures Unsettles(sha256, NOTHING, calls, later, key) && Loses(sha256, NOTHING, calls + later, 1, key)
  {
    var a, b := LaneOf("a", 1, x, 2), LaneOf("b", 2, y, 1);
    calls, later, key := FirstPart(a, b), SecondPart(b), KeyOf(a.task);
    OlderOvertakes(sha256, a, b, x, y);
    OvertakenIsBad(sha256, calls, later, key, a, b);
    ApproachFrom(a, x, 2, customers);
    ApproachFrom(b, y, 1, customers);
  }

  lemma OvertakenIsBad(sha256: Hash, calls: seq<Call>, later: seq<Call>, key: MapKey, a: Lane, b: Lane)
    requires Overtaken(Run(sha256, NOTHING, calls), Run(sha256, NOTHING, calls + later), key, a, b)
    requires forall i :: 0 <= i < |later| ==> later[i].Commit?
    ensures Remaps(sha256, NOTHING, calls, later, key) && FallsBack(sha256, NOTHING, calls, later, key)
    ensures Unsettles(sha256, NOTHING, calls, later, key) && Loses(sha256, NOTHING, calls + later, a.row, key)
  {
    var s1, s2 := Run(sha256, NOTHING, calls), Run(sha256, NOTHING, calls + later);
    forall id | id in s1.queue.rows ensures s1.queue.rows[id].payload.customer.version <= 2 {
      assert id == a.row || id == b.row;
    }
    forall id | id in s2.queue.rows ensures s2.queue.rows[id].payload.customer.version <= 2 {
      assert id == a.row || id == b.row;
    }
    assert NoNewerRow(s1, key, 2) && NoNewerRow(s2, key, 2);
  }

  /** A mapped native id is stable, a mapped version never goes back, a customer's highest version is final and the
      newest processed event is what is held, each in every run over these customers, exactly when no two tenants send
      the same one. */
  lemma StableExactlyWhenOneTenant(sha256: Hash, customers: set<CustomerKey>)
    requires Injective(sha256) && Proper(customers)
    ensures NeverRemaps(sha256, customers) <==> OneTenantEach(customers)
    ensures NeverFallsBack(sha256, customers) <==> OneTenantEach(customers)
    ensures NeverUnsettles(sha256, customers) <==> OneTenantEach(customers)
    ensures NewestAlwaysWins(sha256, customers) <==> OneTenantEach(customers)
  {
    if OneTenantEach(customers) {
      OneTenantIsEnough(sha256, customers);
      OneTenantSettles(sha256, customers);
      OneTenantConverges(sha256, customers);
    } else {
      var x, y :| x in customers && y in customers && Sharing(x, y);
      var calls, later, key := SharedCustomerRemaps(sha256, customers, x, y);
      assert Remaps(sha256, NOTHING, calls, later, key) && FallsBack(sha256, NOTHING, calls, later, key);
      assert Unsettles(sha256, NOTHING, calls, later, key) && Loses(sha256, NOTHING, calls + later, 1, key);
    }
  }
}
