/**
 When a tenant's order really has one engine order. The lock and ERP's own tables are keyed by tenant and order, the
 search by POReference looks into one engine client. So ERP creates a second order for one tenant's order exactly if the
 tenant's placements name two clients, and two orders under one reference in one client exactly if two tenants share the
 client.
 */
module OrderTenancy {
  import opened Prelude
  import opened Inbox
  import opened InboxSupport
  import opened Orders
  import opened OrderSafety

  /** The placements a run may be given: tenant, legal entity and engine client. */
  type Site = (string, string, nat)

  ghost predicate CallFrom(call: Call, sites: set<Site>) {
    call.Place? ==> (call.place.0, call.place.1, call.placement.client) in sites
  }

  ghost predicate CallsFrom(calls: seq<Call>, sites: set<Site>) {
    forall i :: 0 <= i < |calls| ==> CallFrom(calls[i], sites)
  }

  ghost predicate PlacedFrom(placements: Placements, sites: set<Site>) {
    forall place :: place in placements ==> (place.0, place.1, placements[place].client) in sites
  }

  lemma {:induction false} RunPlacedFrom(s: World, calls: seq<Call>, sites: set<Site>)
    requires PlacedFrom(s.placements, sites) && CallsFrom(calls, sites)
    ensures PlacedFrom(Run(s, calls).placements, sites)
    decreases |calls|
  {
    if calls != [] {
      assert CallFrom(calls[0], sites);
      PlacementsChangeByPlacing(s, calls[0]);
      forall i | 0 <= i < |calls[1..]| ensures CallFrom(calls[1..][i], sites) { assert CallFrom(calls[i + 1], sites); }
      RunPlacedFrom(Step(s, calls[0]), calls[1..], sites);
    }
  }

  lemma PlacementsChangeByPlacing(s: World, call: Call)
    ensures var after := Step(s, call).placements;
            after == s.placements || (call.Place? && after == s.placements[call.place := call.placement])
  {
    match call
    case Create(_, _, _, _, _, _, _) => CreateWrites(s, call);
    case Begin(_, _) => ReadingStays(s, call);
    case Compare(_) => ReadingStays(s, call);
    case Search(_, _, _, _) => ReadingStays(s, call);
    case Stumble(_) => ReadingStays(s, call);
    case Commit(_) => if InPhase(s, call.worker) && s.workers[call.worker].Applied? { CommitEffect(s, call); }
    case _ =>
  }

  // ---------------------------------------------------------------------------------------------------------------
  // What can go wrong, and where it cannot
  // ---------------------------------------------------------------------------------------------------------------

  /** Two engine orders ERP created for one order of one tenant. */
  predicate Twice(s: World, m: nat, n: nat) {
    m in s.orders && n in s.orders && m != n && s.orders[m].maker.Some? && s.orders[m].maker == s.orders[n].maker
  }

  /** Two engine orders ERP created under one reference in one client. */
  predicate Shared(s: World, m: nat, n: nat) {
    && m in s.orders && n in s.orders && m != n && s.orders[m].maker.Some? && s.orders[n].maker.Some?
    && s.orders[m].client == s.orders[n].client && s.orders[m].reference == s.orders[n].reference
  }

  ghost predicate NeverTwice(sites: set<Site>) {
    forall s, calls, m, n :: Initial(s) && CallsFrom(calls, sites) ==> !Twice(Run(s, calls), m, n)
  }

  ghost predicate NeverShared(sites: set<Site>) {
    forall s, calls, m, n :: Initial(s) && CallsFrom(calls, sites) ==> !Shared(Run(s, calls), m, n)
  }

  /** No tenant has two legal entities placed in different clients. */
  ghost predicate OneClientPerTenant(sites: set<Site>) {
    forall a, b :: a in sites && b in sites && a.0 == b.0 && a.1 != b.1 ==> a.2 == b.2
  }

  ghost predicate OneTenantPerClient(sites: set<Site>) {
    forall a, b :: a in sites && b in sites && a.2 == b.2 ==> a.0 == b.0
  }

  /** Where an engine order of ERP's stands: in a client some placement of its tenant names. */
  lemma OrderIsPlaced(s: World, n: nat, sites: set<Site>) returns (place: (string, string))
    requires Inv(s) && PlacedFrom(s.placements, sites) && n in s.orders && s.orders[n].maker.Some?
    ensures place in s.placements && place.0 == s.orders[n].maker.value.tenant
        && s.placements[place].client == s.orders[n].client
    ensures (place.0, place.1, s.orders[n].client) in sites && s.orders[n].reference == s.orders[n].maker.value.orderId
  {
    assert OrderFits(s, n);
    place :| place in s.placements && place.0 == s.orders[n].maker.value.tenant
        && s.placements[place].client == s.orders[n].client;
  }

  lemma OneClientIsEnough(s: World, calls: seq<Call>, sites: set<Site>, m: nat, n: nat)
    requires OneClientPerTenant(sites) && Initial(s) && CallsFrom(calls, sites)
    ensures !Twice(Run(s, calls), m, n)
  {
    InitialFits(s);
    RunKeeps(s, calls);
    RunPlacedFrom(s, calls, sites);
    var s' := Run(s, calls);
    if Twice(s', m, n) {
      var x := OrderIsPlaced(s', m, sites);
      var y := OrderIsPlaced(s', n, sites);
    }
  }

  lemma OneTenantIsEnough(s: World, calls: seq<Call>, sites: set<Site>, m: nat, n: nat)
    requires OneTenantPerClient(sites) && Initial(s) && CallsFrom(calls, sites)
    ensures !Shared(Run(s, calls), m, n)
  {
    InitialFits(s);
    RunKeeps(s, calls);
    RunPlacedFrom(s, calls, sites);
    var s' := Run(s, calls);
    if Shared(s', m, n) {
      var x := OrderIsPlaced(s', m, sites);
      var y := OrderIsPlaced(s', n, sites);
    }
  }

  // ---------------------------------------------------------------------------------------------------------------
  // Two attempts at an order
  // ---------------------------------------------------------------------------------------------------------------

  const NOTHING: World := World(NewQueue(), map[], map[], map[], map[], Tables(map[], map[], []), map[])

  /** One worker's share of the run. */
  datatype Lane = Lane(worker: Worker, row: RowId, task: Task)

  const LINE: PlacedLine := PlacedLine("line", "sku", "1", "EA", "10")

  function LaneOf(worker: Worker, row: RowId, site: Site): Lane {
    Lane(worker, row, Task(site.0, PlacedOrder(site.1, "order", 1, "customer", "EUR", [LINE]), site.2, worker))
  }

  const FIELDS: OrderFields := OrderFields(1, "EUR", [NativeLine(1, "1", "10")])

  /** From receipt up to the moment before the engine order is created. */
  function Approach(l: Lane): seq<Call> {
    [Place((l.task.tenant, l.task.order.legalEntity), Placement(l.task.client, Some(l.task.instance))),
     Master(CustomerOf(l.task), 1), Master(ProductOf(l.task, LINE), 1),
     Call.Receive(l.row, Some(l.task.tenant), Placed(l.task.order)),
     Call.Take(l.worker, l.row, 0), Begin(l.worker, false), Compare(l.worker), Search(l.worker, Ready, Open, Answered)]
  }

  function LanePlaced(s: World, l: Lane): World {
    s.(placements :=
        s.placements[(l.task.tenant, l.task.order.legalEntity) := Placement(l.task.client, Some(l.task.instance))])
  }

  function LaneCustomer(s: World, l: Lane): World {
    LanePlaced(s, l).(masters := s.masters[CustomerOf(l.task) := 1])
  }

  function LaneMastered(s: World, l: Lane): World {
    LanePlaced(s, l).(masters := s.masters[CustomerOf(l.task) := 1][ProductOf(l.task, LINE) := 1])
  }

  function LaneRow(s: World, l: Lane): Row<Payload> {
    NewRow("order.placed", Some(l.task.tenant), Placed(l.task.order), s.queue.now)
  }

  function LaneReceived(s: World, l: Lane): World {
    LaneMastered(s, l).(queue := s.queue.(rows := s.queue.rows[l.row := LaneRow(s, l)],
                                          history := s.queue.history[l.row := History(0, 0, 0, 0, true)]))
  }

  function LaneStarted(s: World, l: Lane): World {
    LaneMastered(s, l).(queue :=
        s.queue.(rows := s.queue.rows[l.row := Leased(LaneRow(s, l), l.worker, 0, s.queue.now)],
                                          held := s.queue.held[l.worker := Held(Claimed(l.row, l.worker, 1), 1)],
                                          history := s.queue.history[l.row := History(1, 0, 0, 0, true)]),
                        workers := s.workers[l.worker := Started])
  }

  function LaneSearched(s: World, l: Lane): World {
    LaneStarted(s, l).(locks := s.locks[KeyOf(l.task) := l.worker],
                       workers := s.workers[l.worker := Missing(l.task, FIELDS)])
  }

  /** Nothing in this world stands in the lane's way. */
  predicate Clear(s: World, l: Lane) {
    && (l.task.tenant, l.task.order.legalEntity) !in s.placements
    && l.row !in s.queue.rows && l.row !in s.queue.history
    && l.worker !in s.workers && l.worker !in s.queue.held
    && KeyOf(l.task) !in s.locks && KeyOf(l.task) !in s.tables.consequences
    && Referring(s.orders, l.task.client, l.task.order.orderId) == {}
    && l.task.tenant != "" && l.task.order.lines == [LINE] && l.task.order.currency == "EUR"
  }

  lemma LaneTaken(s: World, l: Lane)
    requires Clear(s, l)
    ensures Run(s, Approach(l)[..5]) == LaneStarted(s, l)
  {
    LaneSteps(s, l);
    RunThrough([s, LanePlaced(s, l), LaneCustomer(s, l), LaneMastered(s, l), LaneReceived(s, l), LaneStarted(s, l)],
        Approach(l)[..5]);
  }

  lemma LaneSteps(s: World, l: Lane)
    requires Clear(s, l)
    ensures Step(s, Approach(l)[0]) == LanePlaced(s, l)
    ensures Step(LanePlaced(s, l), Approach(l)[1]) == LaneCustomer(s, l)
    ensures Step(LaneCustomer(s, l), Approach(l)[2]) == LaneMastered(s, l)
    ensures Step(LaneMastered(s, l), Approach(l)[3]) == LaneReceived(s, l)
    ensures Step(LaneReceived(s, l), Approach(l)[4]) == LaneStarted(s, l)
  {
    LaneReceives(s, l);
    LaneTakes(s, l);
  }

  lemma LaneReceives(s: World, l: Lane)
    requires Clear(s, l)
    ensures Step(LaneMastered(s, l),
        Call.Receive(l.row, Some(l.task.tenant), Placed(l.task.order))) == LaneReceived(s, l)
  {
  }

  lemma LaneTakes(s: World, l: Lane)
    requires Clear(s, l)
    ensures Step(LaneReceived(s, l), Call.Take(l.worker, l.row, 0)) == LaneStarted(s, l)
  {
    assert CanTake(LaneReceived(s, l).queue, l.worker, l.row);
    assert StartAttempt(LaneReceived(s, l), l.worker, l.row, 0) == LaneStarted(s, l);
  }

  lemma BeginStep(s: World, l: Lane)
    requires Clear(s, l)
    ensures Step(LaneStarted(s, l), Begin(l.worker, false)) == Acquire(LaneStarted(s, l), l.worker, l.task)
  {
    assert BeginAttempt(LaneStarted(s, l), l.worker, false) == Acquire(LaneStarted(s, l), l.worker, l.task);
  }

  lemma CompareStep(s: World, w: Worker, t: Task)
    requires InPhase(s, w) && s.workers[w] == Holding(t) && KeyOf(t) !in s.tables.consequences
    ensures Step(s, Compare(w)) == Move(s, w, Checked(t))
  {
    assert CompareVersions(s, w, t) == Move(s, w, Checked(t));
  }

  lemma SearchStep(s: World, w: Worker, t: Task)
    requires InPhase(s, w) && s.workers[w] == Checked(t) && Referring(s.orders, t.client, t.order.orderId) == {}
    requires AllMapped(s.masters, t) && CustomerOf(t) in s.masters
    ensures Step(s, Search(w, Ready, Open, Answered)) == Move(s, w, Missing(t, FieldsFor(s.masters, t)))
  {
    assert SearchEngine(s, w, t, Ready, Open, Answered) == Move(s, w, Missing(t, FieldsFor(s.masters, t)));
  }

  lemma LaneSearches(s: World, l: Lane)
    requires Clear(s, l)
    ensures var s4 := LaneStarted(s, l);
            var s5 := Acquire(s4, l.worker, l.task);
            var s6 := Move(s5, l.worker, Checked(l.task));
            && Step(s4, Approach(l)[5]) == s5
            && Step(s5, Approach(l)[6]) == s6
            && Step(s6, Approach(l)[7]) == LaneSearched(s, l)
  {
    var s5 := Acquire(LaneStarted(s, l), l.worker, l.task);
    var s6 := Move(s5, l.worker, Checked(l.task));
    BeginStep(s, l);
    CompareStep(s5, l.worker, l.task);
    SearchStep(s6, l.worker, l.task);
    LaneEnds(s, l);
  }

  /** The lane's one line resolves to its product. */
  lemma LaneResolves(masters: Masters, t: Task)
    requires t.order.lines == [LINE] && ProductOf(t, LINE) in masters && masters[ProductOf(t, LINE)] == 1
    ensures AllMapped(masters, t) && ResolvedLines(masters, t, t.order.lines) == FIELDS.lines
  {
    assert t.order.lines[..0] == [];
    assert ResolvedLines(masters, t, t.order.lines[..0]) == [];
  }

  lemma LaneEnds(s: World, l: Lane)
    requires Clear(s, l)
    ensures var s6 := Move(Acquire(LaneStarted(s, l), l.worker, l.task), l.worker, Checked(l.task));
            && AllMapped(s6.masters, l.task) && CustomerOf(l.task) in s6.masters
            && Move(s6, l.worker, Missing(l.task, FieldsFor(s6.masters, l.task))) == LaneSearched(s, l)
  {
    var s6 := Move(Acquire(LaneStarted(s, l), l.worker, l.task), l.worker, Checked(l.task));
    LaneResolves(s6.masters, l.task);
    assert FieldsFor(s6.masters, l.task) == FIELDS;
  }

  lemma ApproachReaches(s: World, l: Lane)
    requires Clear(s, l)
    ensures Run(s, Approach(l)) == LaneSearched(s, l)
  {
    var s4 := LaneStarted(s, l);
    var s5 := Acquire(s4, l.worker, l.task);
    LaneTaken(s, l);
    LaneSearches(s, l);
    RunThrough([s4, s5, Move(s5, l.worker, Checked(l.task)), LaneSearched(s, l)], Approach(l)[5..]);
    RunAppends(s, Approach(l)[..5], Approach(l)[5..]);
    assert Approach(l)[..5] + Approach(l)[5..] == Approach(l);
  }

  function Creates(l: Lane, n: nat): seq<Call> {
    [Create(l.worker, n, map[1 := "EA"], Answered, true, true, Answered)]
  }

  /** With no order to find, the create takes effect. */
  lemma LaneCreates(s: World, l: Lane, n: nat)
    requires InPhase(s, l.worker) && s.workers[l.worker] == Missing(l.task, FIELDS) && n !in s.orders
    requires l.task.order.lines == [LINE]
    ensures Run(s, Creates(l, n)) == Move(Created(s, l.task, n, FIELDS), l.worker, Applied(l.task, n, false))
  {
    assert UnitOf(map[1 := "EA"], 1) == LINE.unit;
    assert UnitsAgree(l.task.order, FIELDS, map[1 := "EA"]);
    assert CreateOrder(s, l.worker, l.task, FIELDS, n, map[1 := "EA"], Answered, true, true, Answered)
        == Move(Created(s, l.task, n, FIELDS), l.worker, Applied(l.task, n, false));
    RunOne(s, Creates(l, n)[0]);
  }

  // ---------------------------------------------------------------------------------------------------------------
  // One tenant placed in two clients
  // ---------------------------------------------------------------------------------------------------------------

  /** Two lanes of one tenant, for two of its legal entities, in different clients, with one order id. */
  predicate Movers(a: Lane, b: Lane) {
    && KeyOf(a.task) == KeyOf(b.task) && a.task.order.legalEntity != b.task.order.legalEntity
        && a.task.client != b.task.client
    && a.worker != b.worker && a.row != b.row && a.task.tenant != ""
    && a.task.order.lines == [LINE] && b.task.order.lines == [LINE]
    && a.task.order.currency == "EUR" && b.task.order.currency == "EUR"
  }

  /** The first worker creates its engine order and dies. */
  function FirstDies(a: Lane): seq<Call> {
    Approach(a) + Creates(a, 1) + [Call.Crash(a.worker)]
  }

  function AfterFirst(a: Lane): World {
    Leave(Move(Created(LaneSearched(NOTHING, a), a.task, 1, FIELDS), a.worker, Applied(a.task, 1, false)), a.worker)
  }

  lemma FirstReaches(a: Lane, b: Lane)
    requires Movers(a, b)
    ensures Run(NOTHING, FirstDies(a)) == AfterFirst(a)
  {
    var s1 := LaneSearched(NOTHING, a);
    ApproachReaches(NOTHING, a);
    LaneCreates(s1, a, 1);
    var s2 := Run(s1, Creates(a, 1));
    RunAppends(NOTHING, Approach(a), Creates(a, 1));
    RunAppends(NOTHING, Approach(a) + Creates(a, 1), [Call.Crash(a.worker)]);
    RunOne(s2, Call.Crash(a.worker));
  }

  /** The second finds nothing in its own client. */
  lemma SecondIsClear(a: Lane, b: Lane)
    requires Movers(a, b)
    ensures Clear(AfterFirst(a), b)
  {
    var s := AfterFirst(a);
    assert s.orders == map[1 := NativeOrder(a.task.client, a.task.order.orderId, FIELDS, Some(KeyOf(a.task)))];
    assert s.locks == map[];
  }

  lemma SecondCreates(a: Lane, b: Lane)
    requires Movers(a, b)
    ensures Twice(Run(AfterFirst(a), Approach(b) + Creates(b, 2)), 1, 2)
  {
    var s := AfterFirst(a);
    SecondIsClear(a, b);
    ApproachReaches(s, b);
    LaneCreates(LaneSearched(s, b), b, 2);
    RunAppends(s, Approach(b), Creates(b, 2));
  }

  /** For any tenant placed in two clients: a run in which ERP creates two engine orders for one of its orders. */
  lemma TwoClientsCreateTwice(sites: set<Site>, x: Site, y: Site) returns (calls: seq<Call>)
    requires x in sites && y in sites && x.0 == y.0 && x.1 != y.1 && x.2 != y.2 && x.0 != ""
    ensures Initial(NOTHING) && CallsFrom(calls, sites) && Twice(Run(NOTHING, calls), 1, 2)
  {
    var a, b := LaneOf("a", 1, x), LaneOf("b", 2, y);
    FirstReaches(a, b);
    SecondCreates(a, b);
    calls := FirstDies(a) + (Approach(b) + Creates(b, 2));
    RunAppends(NOTHING, FirstDies(a), Approach(b) + Creates(b, 2));
    LaneCallsFrom(sites, x, a, 1);
    LaneCallsFrom(sites, y, b, 2);
  }

  lemma LaneCallsFrom(sites: set<Site>, x: Site, l: Lane, n: nat)
    requires x in sites && l == LaneOf(l.worker, l.row, x)
    ensures CallsFrom(Approach(l), sites) && CallsFrom(Creates(l, n), sites)
  {
  }

  /** ERP never creates two engine orders for one order of a tenant, in any run over these placements, exactly when no
      tenant has legal entities in two engine clients. */
  lemma OneOrderExactlyWhenOneClient(sites: set<Site>)
    requires forall site :: site in sites ==> site.0 != ""
    ensures NeverTwice(sites) <==> OneClientPerTenant(sites)
  {
    if OneClientPerTenant(sites) {
      forall s, calls, m, n | Initial(s) && CallsFrom(calls, sites) ensures !Twice(Run(s, calls), m, n) {
        OneClientIsEnough(s, calls, sites, m, n);
      }
    } else {
      var x, y :| x in sites && y in sites && x.0 == y.0 && x.1 != y.1 && x.2 != y.2;
      var calls := TwoClientsCreateTwice(sites, x, y);
    }
  }

  // ---------------------------------------------------------------------------------------------------------------
  // Two tenants placed in one client
  // ---------------------------------------------------------------------------------------------------------------

  /** Two lanes of different tenants in one client. */
  predicate Rivals(a: Lane, b: Lane) {
    && a.task.client == b.task.client && a.task.order.orderId == b.task.order.orderId && a.task.tenant != b.task.tenant
    && a.worker != b.worker && a.row != b.row && a.task.tenant != "" && b.task.tenant != ""
    && a.task.order.lines == [LINE] && b.task.order.lines == [LINE]
    && a.task.order.currency == "EUR" && b.task.order.currency == "EUR"
  }

  /** Both search before either creates. */
  lemma BothSearch(a: Lane, b: Lane)
    requires Rivals(a, b)
    ensures Run(NOTHING, Approach(a) + Approach(b)) == LaneSearched(LaneSearched(NOTHING, a), b)
  {
    ApproachReaches(NOTHING, a);
    ApproachReaches(LaneSearched(NOTHING, a), b);
    RunAppends(NOTHING, Approach(a), Approach(b));
  }

  lemma BothCreate(s: World, a: Lane, b: Lane)
    requires Rivals(a, b) && s == LaneSearched(LaneSearched(NOTHING, a), b)
    ensures Shared(Run(s, Creates(a, 1) + Creates(b, 2)), 1, 2)
  {
    LaneCreates(s, a, 1);
    var s1 := Run(s, Creates(a, 1));
    LaneCreates(s1, b, 2);
    RunAppends(s, Creates(a, 1), Creates(b, 2));
  }

  /** For any two tenants of one client: a run in which ERP creates two engine orders under one reference, one for
      each. */
  lemma SharedClientSharesReference(sites: set<Site>, x: Site, y: Site) returns (calls: seq<Call>)
    requires x in sites && y in sites && x.2 == y.2 && x.0 != y.0 && x.0 != "" && y.0 != ""
    ensures Initial(NOTHING) && CallsFrom(calls, sites) && Shared(Run(NOTHING, calls), 1, 2)
  {
    var a, b := LaneOf("a", 1, x), LaneOf("b", 2, y);
    BothSearch(a, b);
    BothCreate(LaneSearched(LaneSearched(NOTHING, a), b), a, b);
    calls := (Approach(a) + Approach(b)) + (Creates(a, 1) + Creates(b, 2));
    RunAppends(NOTHING, Approach(a) + Approach(b), Creates(a, 1) + Creates(b, 2));
    LaneCallsFrom(sites, x, a, 1);
    LaneCallsFrom(sites, y, b, 2);
  }

  /** A reference has at most one engine order of ERP's in a client, in any run over these placements, exactly when no
      client serves two tenants. */
  lemma OneReferenceExactlyWhenOneTenant(sites: set<Site>)
    requires forall site :: site in sites ==> site.0 != ""
    ensures NeverShared(sites) <==> OneTenantPerClient(sites)
  {
    if OneTenantPerClient(sites) {
      forall s, calls, m, n | Initial(s) && CallsFrom(calls, sites) ensures !Shared(Run(s, calls), m, n) {
        OneTenantIsEnough(s, calls, sites, m, n);
      }
    } else {
      var x, y :| x in sites && y in sites && x.2 == y.2 && x.0 != y.0;
      var calls := SharedClientSharesReference(sites, x, y);
    }
  }
}
