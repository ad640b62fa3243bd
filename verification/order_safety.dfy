/** What every run of the order executor keeps. */
module OrderSafety {
  import opened Prelude
  import opened ExecutionPolicy
  import opened Inbox
  import opened InboxSupport
  import opened Orders

  // ---------------------------------------------------------------------------------------------------------------
  // The invariant, one concern at a time
  // ---------------------------------------------------------------------------------------------------------------

  predicate HasLock(phase: Phase) {
    !phase.Started? && !phase.Ending?
  }

  ghost predicate QueueFits(s: World) {
    Sound(s.queue) && s.workers.Keys == s.queue.held.Keys
  }

  ghost predicate TaskFits(s: World, w: Worker)
    requires w in s.workers && HasLock(s.workers[w])
  {
    var t := s.workers[w].task;
    && InPhase(s, w)
    && s.queue.rows[s.queue.held[w].claim.row].payload == Placed(t.order)
    && s.queue.rows[s.queue.held[w].claim.row].tenant == Some(t.tenant)
    && (t.tenant, t.order.legalEntity) in s.placements
    && s.placements[(t.tenant, t.order.legalEntity)] == Placement(t.client, Some(t.instance))
    && KeyOf(t) in s.locks && s.locks[KeyOf(t)] == w
  }

  /** The engine order asks for the event's lines: as many, with its quantities and prices, in its currency. */
  predicate Matches(order: PlacedOrder, fields: OrderFields) {
    && fields.currency == order.currency
    && |fields.lines| == |order.lines|
    && forall i :: 0 <= i < |order.lines| ==>
                     fields.lines[i].quantity == order.lines[i].quantity
                         && fields.lines[i].unitPrice == order.lines[i].unitPrice
  }

  predicate NoneMade(orders: map<nat, NativeOrder>, client: nat, key: OrderKey) {
    forall n :: n in orders && orders[n].client == client ==> orders[n].maker != Some(key)
  }

  ghost predicate PhaseFits(s: World, w: Worker)
    requires w in s.workers
  {
    match s.workers[w]
    case Started => true
    case Ending(outcome) => outcome.code !in SETTLED_IN_ATTEMPT
    case Holding(t) => true
    case Checked(t) => KeyOf(t) !in s.tables.consequences
    case Missing(t, fields) =>
      && KeyOf(t) !in s.tables.consequences
      && NoneMade(s.orders, t.client, KeyOf(t))
      && Matches(t.order, fields)
    case Applied(t, n, adopted) =>
      && KeyOf(t) !in s.tables.consequences
      && n in s.orders && Carries(s.orders[n], t.client, t.order.orderId)
      && (!adopted ==> s.orders[n].maker == Some(KeyOf(t)) && Matches(t.order, s.orders[n].fields))
  }

  ghost predicate WorkersFit(s: World) {
    && (forall w {:trigger PhaseFits(s, w)} :: w in s.workers ==> PhaseFits(s, w))
    && (forall w {:trigger TaskFits(s, w)} :: w in s.workers && HasLock(s.workers[w]) ==> TaskFits(s, w))
  }

  /** Created by ERP for the same order, in the same client. */
  predicate SameMaker(a: NativeOrder, b: NativeOrder) {
    a.maker.Some? && a.maker == b.maker && a.client == b.client
  }

  /** An order ERP created carries its order's reference and is in a client its tenant is placed in. */
  ghost predicate OrderFits(s: World, n: nat)
    requires n in s.orders
  {
    s.orders[n].maker.Some? ==>
      && s.orders[n].reference == s.orders[n].maker.value.orderId
      && exists place ::
          place in s.placements && place.0 == s.orders[n].maker.value.tenant
          && s.placements[place].client == s.orders[n].client
  }

  ghost predicate OrdersFit(s: World) {
    && (forall m, n :: m in s.orders && n in s.orders && SameMaker(s.orders[m], s.orders[n]) ==> m == n)
    && (forall n {:trigger OrderFits(s, n)} :: n in s.orders ==> OrderFits(s, n))
  }

  predicate SettledByAttempt(row: Row<Payload>) {
    row.status.Done? && row.outcomeCode.Some? && row.outcomeCode.value in SETTLED_IN_ATTEMPT
  }

  predicate RowIsFor(row: Row<Payload>, key: OrderKey) {
    row.payload.Placed? && row.payload.order.orderId == key.orderId && row.tenant == Some(key.tenant)
  }

  /** The order link stands for its event: the row it names was settled by it, and the engine order is that event's. */
  ghost predicate LinkFits(s: World, key: OrderKey)
    requires key in s.tables.executions
  {
    var link := s.tables.executions[key];
    && key in s.tables.consequences
    && link.native in s.orders
    && s.orders[link.native].reference == key.orderId
    && (key.tenant, s.tables.consequences[key].legalEntity) in s.placements
    && s.placements[(key.tenant, s.tables.consequences[key].legalEntity)].client == s.orders[link.native].client
    && link.source in s.queue.rows
    && var row := s.queue.rows[link.source];
    && RowIsFor(row, key)
    && row.status.Done? && row.outcomeCode == Some(CodeOf(link.adopted))
    && s.tables.consequences[key] == Consequence(row.payload.order.legalEntity, row.payload.order.version)
    && (!link.adopted ==>
        s.orders[link.native].maker == Some(key) && Matches(row.payload.order, s.orders[link.native].fields))
  }

  /** A row settled by its attempt is the source of its order's link. */
  ghost predicate RowFits(s: World, id: RowId)
    requires id in s.queue.rows
  {
    SettledByAttempt(s.queue.rows[id]) ==>
      exists key ::
          key in s.tables.executions && RowIsFor(s.queue.rows[id], key) && s.tables.executions[key].source == id
  }

  predicate AllRecorded(tables: Tables) {
    forall i :: 0 <= i < |tables.outbox| ==>
                  tables.outbox[i].key in tables.consequences
                  && tables.outbox[i].record == tables.consequences[tables.outbox[i].key]
  }

  predicate NoneRepeated(outbox: seq<ConsequenceChanged>) {
    forall i, j :: 0 <= i < j < |outbox| ==> outbox[i].key != outbox[j].key
  }

  predicate Mentions(outbox: seq<ConsequenceChanged>, key: OrderKey) {
    exists i :: 0 <= i < |outbox| && outbox[i].key == key
  }

  /** Every recorded order is announced, once, with its record. */
  ghost predicate AnnouncedOnce(tables: Tables) {
    && AllRecorded(tables) && NoneRepeated(tables.outbox)
    && forall key :: key in tables.consequences ==> Mentions(tables.outbox, key)
  }

  ghost predicate TablesFit(s: World) {
    && s.tables.consequences.Keys == s.tables.executions.Keys
    && AnnouncedOnce(s.tables)
    && (forall key {:trigger LinkFits(s, key)} :: key in s.tables.executions ==> LinkFits(s, key))
    && (forall id {:trigger RowFits(s, id)} :: id in s.queue.rows ==> RowFits(s, id))
  }

  ghost predicate Inv(s: World) {
    QueueFits(s) && WorkersFit(s) && OrdersFit(s) && TablesFit(s)
  }

  /** Before the first event: an engine with whatever orders people entered. */
  ghost predicate Initial(s: World) {
    && s.queue == NewQueue<Payload>() && s.locks == map[] && s.workers == map[] && s.placements == map[]
    && s.tables == Tables(map[], map[], [])
    && forall n :: n in s.orders ==> s.orders[n].maker.None?
  }

  lemma InitialFits(s: World)
    requires Initial(s)
    ensures Inv(s)
  {
  }

  // ---------------------------------------------------------------------------------------------------------------
  // Steps among one worker's own phase, lock and claim
  // ---------------------------------------------------------------------------------------------------------------

  /** Another worker sees its own phase, claim and lock as before. */
  predicate Untouched(s: World, s': World, v: Worker) {
    && v in s.workers && v in s'.workers && s'.workers[v] == s.workers[v]
    && v in s.queue.held && v in s'.queue.held && s'.queue.held[v] == s.queue.held[v]
    && (HasLock(s.workers[v]) && KeyOf(s.workers[v].task) in s.locks && s.locks[KeyOf(s.workers[v].task)] == v ==>
          KeyOf(s.workers[v].task) in s'.locks && s'.locks[KeyOf(s.workers[v].task)] == v)
  }

  predicate SameEvent(row: Row<Payload>, row': Row<Payload>) {
    row'.payload == row.payload && row'.tenant == row.tenant
  }

  /** No row's event changed, no settled row changed, and none became settled by its attempt. */
  predicate SameRows(s: World, s': World) {
    && s'.queue.rows.Keys == s.queue.rows.Keys
    && forall id :: id in s.queue.rows ==>
                      && SameEvent(s.queue.rows[id], s'.queue.rows[id])
                      && (s.queue.rows[id].status.Done? ==> s'.queue.rows[id] == s.queue.rows[id])
                      && (SettledByAttempt(s'.queue.rows[id]) ==> SettledByAttempt(s.queue.rows[id]))
  }

  predicate SameTables(s: World, s': World) {
    s'.orders == s.orders && s'.tables == s.tables && s'.placements == s.placements
  }

  lemma OthersKeep(s: World, s': World, v: Worker)
    requires WorkersFit(s) && SameTables(s, s') && SameRows(s, s') && Untouched(s, s', v)
    ensures PhaseFits(s', v)
    ensures HasLock(s'.workers[v]) ==> TaskFits(s', v)
  {
    assert PhaseFits(s, v);
    if HasLock(s'.workers[v]) { assert TaskFits(s, v); }
  }

  lemma TablesKeep(s: World, s': World)
    requires TablesFit(s) && SameTables(s, s') && SameRows(s, s')
    ensures TablesFit(s')
  {
    forall key | key in s'.tables.executions ensures LinkFits(s', key) { assert LinkFits(s, key); }
    forall id | id in s'.queue.rows ensures RowFits(s', id) {
      assert RowFits(s, id);
      if SettledByAttempt(s'.queue.rows[id]) {
        var key :| key in s.tables.executions && RowIsFor(s.queue.rows[id], key)
            && s.tables.executions[key].source == id;
        assert RowIsFor(s'.queue.rows[id], key);
      }
    }
  }

  predicate PlacementsGrow(s: World, s': World) {
    forall place :: place in s.placements ==> place in s'.placements && s'.placements[place] == s.placements[place]
  }

  lemma OrdersKeep(s: World, s': World)
    requires OrdersFit(s) && s'.orders == s.orders && PlacementsGrow(s, s')
    ensures OrdersFit(s')
  {
    forall n | n in s'.orders ensures OrderFits(s', n) { assert OrderFits(s, n); }
  }

  lemma OwnStepKeeps(s: World, s': World, w: Worker)
    requires Inv(s) && SameTables(s, s') && SameRows(s, s') && Sound(s'.queue)
    requires s'.workers.Keys == s'.queue.held.Keys
    requires forall v :: v in s'.workers && v != w ==> Untouched(s, s', v)
    requires w in s'.workers ==> PhaseFits(s', w) && (HasLock(s'.workers[w]) ==> TaskFits(s', w))
    ensures Inv(s')
  {
    forall v | v in s'.workers && v != w
      ensures PhaseFits(s', v) && (HasLock(s'.workers[v]) ==> TaskFits(s', v))
    {
      OthersKeep(s, s', v);
    }
    assert WorkersFit(s');
    OrdersKeep(s, s');
    TablesKeep(s, s');
  }

  lemma EndKeeps(s: World, w: Worker, outcome: Outcome)
    requires Inv(s) && w in s.workers && outcome.code !in SETTLED_IN_ATTEMPT
    ensures Inv(End(s, w, outcome))
  {
    OwnStepKeeps(s, End(s, w, outcome), w);
  }

  lemma MoveKeeps(s: World, w: Worker, phase: Phase)
    requires Inv(s) && w in s.workers && HasLock(s.workers[w]) && HasLock(phase)
    requires phase.task == s.workers[w].task && PhaseFits(Move(s, w, phase), w)
    ensures Inv(Move(s, w, phase))
  {
    assert TaskFits(s, w);
    OwnStepKeeps(s, Move(s, w, phase), w);
  }

  lemma CrashKeeps(s: World, w: Worker)
    requires Inv(s)
    ensures Inv(Leave(s, w))
  {
    DropKeepsSound(s.queue, w);
    OwnStepKeeps(s, Leave(s, w), w);
  }

  lemma FinishedRows(s: World, w: Worker, outcome: Outcome)
    requires outcome.code !in SETTLED_IN_ATTEMPT
    ensures SameRows(s, SettleAttempt(s, w, outcome))
  {
  }

  lemma SettleKeeps(s: World, w: Worker)
    requires Inv(s) && InPhase(s, w) && s.workers[w].Ending?
    ensures Inv(SettleAttempt(s, w, s.workers[w].outcome))
  {
    assert PhaseFits(s, w);
    FinishKeepsSound(s.queue, w, s.workers[w].outcome);
    FinishedRows(s, w, s.workers[w].outcome);
    OwnStepKeeps(s, SettleAttempt(s, w, s.workers[w].outcome), w);
  }

  lemma TakenRows(s: World, w: Worker, id: RowId, lease: Time)
    requires CanTake(s.queue, w, id)
    ensures SameRows(s, StartAttempt(s, w, id, lease))
  {
  }

  lemma TakeKeeps(s: World, w: Worker, id: RowId, lease: Time)
    requires Inv(s) && w !in s.workers && CanTake(s.queue, w, id)
    ensures Inv(StartAttempt(s, w, id, lease))
  {
    TakeKeepsSound(s.queue, w, id, lease);
    TakenRows(s, w, id, lease);
    OwnStepKeeps(s, StartAttempt(s, w, id, lease), w);
  }

  lemma AcquireKeeps(s: World, w: Worker, t: Task)
    requires Inv(s) && InPhase(s, w) && s.workers[w].Started? && KeyOf(t) !in s.locks
    requires s.queue.rows[s.queue.held[w].claim.row].payload == Placed(t.order)
    requires s.queue.rows[s.queue.held[w].claim.row].tenant == Some(t.tenant)
    requires (t.tenant, t.order.legalEntity) in s.placements
    requires s.placements[(t.tenant, t.order.legalEntity)] == Placement(t.client, Some(t.instance))
    ensures Inv(Acquire(s, w, t))
  {
    OwnStepKeeps(s, Acquire(s, w, t), w);
  }

  lemma BeginKeeps(s: World, w: Worker, contended: bool)
    requires Inv(s) && InPhase(s, w) && s.workers[w].Started?
    ensures Inv(BeginAttempt(s, w, contended))
  {
    var row := s.queue.rows[s.queue.held[w].claim.row];
    if row.payload.Malformed? {
      EndKeeps(s, w, Permanent(PAYLOAD_INVALID));
    } else if row.tenant.None? || row.tenant.value == "" {
      EndKeeps(s, w, Permanent(TENANT_MISSING));
    } else {
      var place := (row.tenant.value, row.payload.order.legalEntity);
      if place !in s.placements || s.placements[place].instance.None? {
        EndKeeps(s, w, Waiting(TENANT_UNMAPPED));
      } else {
        var t := Task(row.tenant.value, row.payload.order, s.placements[place].client,
            s.placements[place].instance.value);
        if contended || KeyOf(t) in s.locks {
          EndKeeps(s, w, Contended(ORDER_CONTENDED));
        } else {
          AcquireKeeps(s, w, t);
        }
      }
    }
  }

  lemma CompareKeeps(s: World, w: Worker)
    requires Inv(s) && InPhase(s, w) && s.workers[w].Holding?
    ensures Inv(CompareVersions(s, w, s.workers[w].task))
  {
    var t := s.workers[w].task;
    if KeyOf(t) in s.tables.consequences {
      EndKeeps(s, w, KnownOrder(t.order.version, s.tables.consequences[KeyOf(t)]));
    } else {
      MoveKeeps(s, w, Checked(t));
    }
  }

  lemma {:induction false} ResolvedLinesMatch(masters: Masters, t: Task, lines: seq<PlacedLine>)
    requires forall i :: 0 <= i < |lines| ==> ProductOf(t, lines[i]) in masters
    ensures var native := ResolvedLines(masters, t, lines);
            && |native| == |lines|
            && forall i :: 0 <= i < |lines| ==>
                native[i] == NativeLine(masters[ProductOf(t, lines[i])], lines[i].quantity, lines[i].unitPrice)
  {
    if lines != [] {
      ResolvedLinesMatch(masters, t, lines[..|lines| - 1]);
    }
  }

  lemma SearchKeeps(s: World, w: Worker, session: Session, gate: Gate, reply: Reply)
    requires Inv(s) && InPhase(s, w) && s.workers[w].Checked?
    ensures Inv(SearchEngine(s, w, s.workers[w].task, session, gate, reply))
  {
    var t := s.workers[w].task;
    assert PhaseFits(s, w);
    if !AllMapped(s.masters, t) { EndKeeps(s, w, Waiting(PRODUCT_UNMAPPED)); }
    else if !session.Ready? { EndKeeps(s, w, SessionFailure(session)); }
    else if CustomerOf(t) !in s.masters { EndKeeps(s, w, Waiting(CUSTOMER_UNMAPPED)); }
    else if gate.NoAuthority? { EndKeeps(s, w, Waiting(LEGAL_ACTOR_PENDING)); }
    else if gate.Denied? { EndKeeps(s, w, Waiting(LEGAL_ACTOR_DENIED)); }
    else if !reply.Answered? { EndKeeps(s, w, EngineFailure(reply)); }
    else { FoundKeeps(s, w, t); }
  }

  lemma FoundKeeps(s: World, w: Worker, t: Task)
    requires Inv(s) && InPhase(s, w) && s.workers[w] == Checked(t)
    requires AllMapped(s.masters, t) && CustomerOf(t) in s.masters
    ensures Inv(SearchEngine(s, w, t, Ready, Open, Answered))
  {
    assert PhaseFits(s, w);
    var found := Referring(s.orders, t.client, t.order.orderId);
    if |found| > 1 {
      EndKeeps(s, w, Permanent(DUPLICATE_NATIVE_ORDERS));
    } else if found == {} {
      ResolvedLinesMatch(s.masters, t, t.order.lines);
      forall n | n in s.orders && s.orders[n].client == t.client ensures s.orders[n].maker != Some(KeyOf(t)) {
        assert OrderFits(s, n) && n !in found;
      }
      MoveKeeps(s, w, Missing(t, FieldsFor(s.masters, t)));
    } else {
      var s' := SearchEngine(s, w, t, Ready, Open, Answered);
      var n := s'.workers[w].native;
      assert n in found && s' == Move(s, w, Applied(t, n, true));
      MoveKeeps(s, w, Applied(t, n, true));
    }
  }

  // ---------------------------------------------------------------------------------------------------------------
  // The engine order
  // ---------------------------------------------------------------------------------------------------------------

  /** Workers past the lock work on different orders of their tenants. */
  lemma LocksExclude(s: World, v: Worker, w: Worker)
    requires Inv(s)
    requires v in s.workers && w in s.workers && HasLock(s.workers[v]) && HasLock(s.workers[w])
    requires KeyOf(s.workers[v].task) == KeyOf(s.workers[w].task)
    ensures v == w
  {
    assert TaskFits(s, v) && TaskFits(s, w);
  }

  /** One more engine order under a fresh id, ERP's own only if it is the first of its order in its client. */
  lemma OrderAdded(s: World, s': World, n: nat, order: NativeOrder)
    requires OrdersFit(s) && n !in s.orders && s'.orders == s.orders[n := order] && s'.placements == s.placements
    requires order.maker.Some? ==> NoneMade(s.orders, order.client, order.maker.value)
    requires OrderFits(s', n)
    ensures OrdersFit(s')
  {
    forall i, j | i in s'.orders && j in s'.orders && SameMaker(s'.orders[i], s'.orders[j]) ensures i == j {
      if i != n && j != n { assert SameMaker(s.orders[i], s.orders[j]); }
    }
    forall m | m in s'.orders ensures OrderFits(s', m) {
      if m != n { assert OrderFits(s, m); }
    }
  }

  lemma OrderAddedKeeps(s: World, s': World, n: nat, order: NativeOrder)
    requires TablesFit(s) && n !in s.orders && s'.orders == s.orders[n := order]
    requires s'.tables == s.tables && s'.queue == s.queue && s'.placements == s.placements
    ensures TablesFit(s')
  {
    forall key | key in s'.tables.executions ensures LinkFits(s', key) { assert LinkFits(s, key); }
    forall id | id in s'.queue.rows ensures RowFits(s', id) {
      assert RowFits(s, id);
      if SettledByAttempt(s'.queue.rows[id]) {
        var key :| key in s.tables.executions && RowIsFor(s.queue.rows[id], key)
            && s.tables.executions[key].source == id;
        assert key in s'.tables.executions && s'.tables.executions[key].source == id;
      }
    }
  }

  lemma CreatedOthersKeep(s: World, w: Worker, n: nat, v: Worker)
    requires Inv(s) && w in s.workers && s.workers[w].Missing? && n !in s.orders
    requires v in s.workers && v != w
    ensures PhaseFits(Created(s, s.workers[w].task, n, s.workers[w].fields), v)
  {
    assert PhaseFits(s, v);
    var s' := Created(s, s.workers[w].task, n, s.workers[w].fields);
    if s.workers[v].Missing? {
      var u, t := s.workers[v].task, s.workers[w].task;
      if KeyOf(u) == KeyOf(t) { LocksExclude(s, v, w); }
      assert NoneMade(s'.orders, u.client, KeyOf(u));
    }
  }

  lemma CreatedKeeps(s: World, s': World, w: Worker, n: nat)
    requires Inv(s) && InPhase(s, w) && s.workers[w].Missing? && n !in s.orders
    requires var p := s.workers[w];
             || s' == Move(Created(s, p.task, n, p.fields), w, Applied(p.task, n, false))
             || exists outcome: Outcome ::
                 outcome.code !in SETTLED_IN_ATTEMPT && s' == End(Created(s, p.task, n, p.fields), w, outcome)
    ensures Inv(s')
  {
    var p := s.workers[w];
    assert TaskFits(s, w) && PhaseFits(s, w);
    var order := NativeOrder(p.task.client, p.task.order.orderId, p.fields, Some(KeyOf(p.task)));
    assert (p.task.tenant, p.task.order.legalEntity) in s'.placements;
    assert OrderFits(s', n);
    OrderAdded(s, s', n, order);
    OrderAddedKeeps(s, s', n, order);
    forall v | v in s'.workers ensures PhaseFits(s', v) {
      if v != w {
        CreatedOthersKeep(s, w, n, v);
        assert PhaseFits(Created(s, p.task, n, p.fields), v);
      }
    }
    forall v | v in s'.workers && HasLock(s'.workers[v]) ensures TaskFits(s', v) { assert TaskFits(s, v); }
  }

  lemma CreateKeeps(s: World, w: Worker, n: nat, units: map<nat, string>, reading: Reply, permitted: bool, took: bool,
                    reply: Reply)
    requires Inv(s) && InPhase(s, w) && s.workers[w].Missing?
    ensures var p := s.workers[w];
            Inv(CreateOrder(s, w, p.task, p.fields, n, units, reading, permitted, took, reply))
  {
    var p := s.workers[w];
    if !reading.Answered? { EndKeeps(s, w, EngineFailure(reading)); }
    else if !UnitsAgree(p.task.order, p.fields, units) { EndKeeps(s, w, Permanent(UNIT_MISMATCH)); }
    else if !permitted { EndKeeps(s, w, Waiting(LEGAL_ACTOR_DENIED)); }
    else if !took || n in s.orders { EndKeeps(s, w, EngineFailure(reply)); }
    else { CreatedKeeps(s, CreateOrder(s, w, p.task, p.fields, n, units, reading, permitted, took, reply), w, n); }
  }

  // ---------------------------------------------------------------------------------------------------------------
  // The commit
  // ---------------------------------------------------------------------------------------------------------------

  lemma RecordAnnouncedOnce(tables: Tables, t: Task, n: nat, adopted: bool, source: RowId)
    requires AnnouncedOnce(tables) && KeyOf(t) !in tables.consequences
    ensures AnnouncedOnce(RecordExecution(tables, t, n, adopted, source))
  {
    var after := RecordExecution(tables, t, n, adopted, source);
    AnnouncementAppended(tables, after, KeyOf(t), Consequence(t.order.legalEntity, t.order.version));
  }

  lemma AnnouncementAppended(tables: Tables, after: Tables, key: OrderKey, record: Consequence)
    requires AnnouncedOnce(tables) && key !in tables.consequences
    requires after.consequences == tables.consequences[key := record]
    requires after.outbox == tables.outbox + [ConsequenceChanged(key, record)]
    ensures AnnouncedOnce(after)
  {
    forall i | 0 <= i < |tables.outbox| ensures tables.outbox[i].key != key {}
    forall k | k in after.consequences ensures Mentions(after.outbox, k) {
      MentionAppended(tables.outbox, ConsequenceChanged(key, record), k);
      if k != key { assert Mentions(tables.outbox, k); }
    }
  }

  lemma MentionAppended(outbox: seq<ConsequenceChanged>, event: ConsequenceChanged, key: OrderKey)
    ensures event.key == key || Mentions(outbox, key) ==> Mentions(outbox + [event], key)
  {
    if event.key == key {
      assert (outbox + [event])[|outbox|].key == key;
    } else if Mentions(outbox, key) {
      var i :| 0 <= i < |outbox| && outbox[i].key == key;
      assert (outbox + [event])[i].key == key;
    }
  }

  /** What a commit does to the queue's rows and to the tables. */
  lemma CommittedRow(s: World, w: Worker, t: Task, n: nat, adopted: bool)
    requires InPhase(s, w) && Holds(s.queue, w)
    ensures var id := s.queue.held[w].claim.row;
            var s' := Committed(s, w, t, n, adopted);
            && s.queue.rows[id].status.InProgress?
            && s'.queue.rows == s.queue.rows[id := Settled(s.queue.rows[id], Processing(CodeOf(adopted)), s.queue.now)]
            && s'.tables == RecordExecution(s.tables, t, n, adopted, id)
            && s'.orders == s.orders && s'.placements == s.placements
  {
  }

  lemma CommittedLinkFits(s: World, s': World, w: Worker)
    requires Inv(s) && InPhase(s, w) && s.workers[w].Applied? && Holds(s.queue, w)
    requires s' == Committed(s, w, s.workers[w].task, s.workers[w].native, s.workers[w].adopted)
    ensures LinkFits(s', KeyOf(s.workers[w].task))
  {
    assert TaskFits(s, w) && PhaseFits(s, w);
    CommittedRow(s, w, s.workers[w].task, s.workers[w].native, s.workers[w].adopted);
  }

  /** One open row is settled and becomes the source of one new link. */
  ghost predicate LinkAdded(s: World, s': World, key: OrderKey, id: RowId) {
    && key !in s.tables.executions && key !in s.tables.consequences && s'.orders == s.orders
        && s'.placements == s.placements
    && id in s.queue.rows && s.queue.rows[id].status.InProgress?
    && id in s'.queue.rows && s'.queue.rows == s.queue.rows[id := s'.queue.rows[id]]
    && key in s'.tables.executions && s'.tables.executions == s.tables.executions[key := s'.tables.executions[key]]
    && key in s'.tables.consequences
        && s'.tables.consequences == s.tables.consequences[key := s'.tables.consequences[key]]
    && s'.tables.executions[key].source == id
  }

  lemma EarlierLinkStays(s: World, s': World, key: OrderKey, id: RowId, k: OrderKey)
    requires LinkAdded(s, s', key, id) && k in s.tables.executions && LinkFits(s, k)
    ensures k in s'.tables.executions && s'.tables.executions[k] == s.tables.executions[k] && LinkFits(s', k)
  {
  }

  lemma RowStays(s: World, s': World, key: OrderKey, id: RowId, other: RowId)
    requires LinkAdded(s, s', key, id) && LinkFits(s', key) && other in s.queue.rows && RowFits(s, other)
    ensures RowFits(s', other)
  {
    if other == id {
      assert RowIsFor(s'.queue.rows[id], key);
    } else if SettledByAttempt(s.queue.rows[other]) {
      var k :| k in s.tables.executions && RowIsFor(s.queue.rows[other], k) && s.tables.executions[k].source == other;
      assert k in s'.tables.executions && s'.tables.executions[k].source == other;
    }
  }

  /** The links and rows there were stay in step. */
  lemma LinkAddedKeeps(s: World, s': World, key: OrderKey, id: RowId)
    requires TablesFit(s) && LinkAdded(s, s', key, id)
    requires AnnouncedOnce(s'.tables) && LinkFits(s', key)
    ensures TablesFit(s')
  {
    forall k | k in s'.tables.executions ensures LinkFits(s', k) {
      if k != key {
        assert LinkFits(s, k);
        EarlierLinkStays(s, s', key, id, k);
      }
    }
    forall other | other in s'.queue.rows ensures RowFits(s', other) {
      assert RowFits(s, other);
      RowStays(s, s', key, id, other);
    }
  }

  lemma CommittedTablesFit(s: World, w: Worker)
    requires Inv(s) && InPhase(s, w) && s.workers[w].Applied? && Holds(s.queue, w)
    ensures var p := s.workers[w]; TablesFit(Committed(s, w, p.task, p.native, p.adopted))
  {
    var t, n, adopted := s.workers[w].task, s.workers[w].native, s.workers[w].adopted;
    var s' := Committed(s, w, t, n, adopted);
    assert PhaseFits(s, w);
    CommittedRow(s, w, t, n, adopted);
    RecordAnnouncedOnce(s.tables, t, n, adopted, s.queue.held[w].claim.row);
    CommittedLinkFits(s, s', w);
    LinkAddedKeeps(s, s', KeyOf(t), s.queue.held[w].claim.row);
  }

  lemma CommittedOthersKeep(s: World, w: Worker, v: Worker)
    requires Inv(s) && InPhase(s, w) && s.workers[w].Applied? && v in s.workers && v != w
    ensures var p := s.workers[w];
            var s' := Committed(s, w, p.task, p.native, p.adopted);
            PhaseFits(s', v) && (HasLock(s'.workers[v]) ==> TaskFits(s', v))
  {
    assert PhaseFits(s, v);
    if HasLock(s.workers[v]) {
      assert TaskFits(s, v);
      if KeyOf(s.workers[v].task) == KeyOf(s.workers[w].task) { LocksExclude(s, v, w); }
    }
  }

  lemma CommittedKeeps(s: World, w: Worker)
    requires Inv(s) && InPhase(s, w) && s.workers[w].Applied? && Holds(s.queue, w)
    ensures var p := s.workers[w]; Inv(Committed(s, w, p.task, p.native, p.adopted))
  {
    var p := s.workers[w];
    var s' := Committed(s, w, p.task, p.native, p.adopted);
    CommittedTablesFit(s, w);
    OrdersKeep(s, s');
    FinishKeepsSound(s.queue, w, Processing(CodeOf(p.adopted)));
    forall v | v in s'.workers ensures PhaseFits(s', v) && (HasLock(s'.workers[v]) ==> TaskFits(s', v)) {
      CommittedOthersKeep(s, w, v);
    }
  }

  lemma CommitKeeps(s: World, w: Worker)
    requires Inv(s) && InPhase(s, w) && s.workers[w].Applied?
    ensures var p := s.workers[w]; Inv(CommitExecution(s, w, p.task, p.native, p.adopted))
  {
    var p := s.workers[w];
    if KeyTaken(s.tables, KeyOf(p.task), p.native) {
      EndKeeps(s, w, UNEXPECTED);
    } else if !Holds(s.queue, w) {
      CrashKeeps(s, w);
    } else {
      CommittedKeeps(s, w);
    }
  }

  // ---------------------------------------------------------------------------------------------------------------
  // Calls that belong to no worker, and whole runs
  // ---------------------------------------------------------------------------------------------------------------

  /** Workers are indifferent to new rows, placements, master data, other people's orders and the clock. */
  lemma BystandersKeep(s: World, s': World)
    requires WorkersFit(s) && s'.workers == s.workers && s'.tables == s.tables && s'.locks == s.locks
    requires s'.queue.held == s.queue.held
    requires forall id :: id in s.queue.rows ==> id in s'.queue.rows && s'.queue.rows[id] == s.queue.rows[id]
    requires PlacementsGrow(s, s')
    requires forall n :: n in s.orders ==> n in s'.orders && s'.orders[n] == s.orders[n]
    requires forall n :: n in s'.orders && n !in s.orders ==> s'.orders[n].maker.None?
    ensures WorkersFit(s')
  {
    forall w | w in s'.workers ensures PhaseFits(s', w) { assert PhaseFits(s, w); }
    forall w | w in s'.workers && HasLock(s'.workers[w]) ensures TaskFits(s', w) { assert TaskFits(s, w); }
  }

  lemma ReceiveKeeps(s: World, id: RowId, row: Row<Payload>)
    requires Inv(s)
    ensures Inv(s.(queue := ReceiveRow(s.queue, id, row)))
  {
    var s' := s.(queue := ReceiveRow(s.queue, id, row));
    ReceiveKeepsSound(s.queue, id, row);
    BystandersKeep(s, s');
    OrdersKeep(s, s');
    forall key | key in s'.tables.executions ensures LinkFits(s', key) { assert LinkFits(s, key); }
    forall i | i in s'.queue.rows ensures RowFits(s', i) {
      if i in s.queue.rows {
        assert RowFits(s, i);
        if SettledByAttempt(s.queue.rows[i]) {
          var key :| key in s.tables.executions && RowIsFor(s.queue.rows[i], key)
              && s.tables.executions[key].source == i;
          assert RowIsFor(s'.queue.rows[i], key);
        }
      }
    }
  }

  lemma TickKeeps(s: World, elapsed: Time)
    requires Inv(s)
    ensures Inv(s.(queue := s.queue.(now := s.queue.now + elapsed)))
  {
    var s' := s.(queue := s.queue.(now := s.queue.now + elapsed));
    TickKeepsSound(s.queue, elapsed);
    BystandersKeep(s, s');
    OrdersKeep(s, s');
    TablesKeep(s, s');
  }

  lemma SettingKeeps(s: World, s': World)
    requires Inv(s) && s' == s.(placements := s'.placements, masters := s'.masters) && PlacementsGrow(s, s')
    ensures Inv(s')
  {
    BystandersKeep(s, s');
    OrdersKeep(s, s');
    forall key | key in s'.tables.executions ensures LinkFits(s', key) { assert LinkFits(s, key); }
    forall i | i in s'.queue.rows ensures RowFits(s', i) { assert RowFits(s, i); }
  }

  lemma ByHandKeeps(s: World, n: nat, client: nat, reference: string, fields: OrderFields)
    requires Inv(s) && n !in s.orders
    ensures Inv(s.(orders := s.orders[n := NativeOrder(client, reference, fields, None)]))
  {
    var s' := s.(orders := s.orders[n := NativeOrder(client, reference, fields, None)]);
    BystandersKeep(s, s');
    OrderAdded(s, s', n, NativeOrder(client, reference, fields, None));
    OrderAddedKeeps(s, s', n, NativeOrder(client, reference, fields, None));
  }

  lemma WorkerStepKeeps(s: World, call: Call)
    requires Inv(s) && ByWorker(call) && InPhase(s, call.worker)
    ensures Inv(WorkerStep(s, call))
  {
    var phase := s.workers[call.worker];
    match call
    case Begin(w, contended) => if phase.Started? { BeginKeeps(s, w, contended); }
    case Compare(w) => if phase.Holding? { CompareKeeps(s, w); }
    case Search(w, session, gate, reply) => if phase.Checked? { SearchKeeps(s, w, session, gate, reply); }
    case Create(w, n, units, reading, permitted, took, reply) =>
      if phase.Missing? { CreateKeeps(s, w, n, units, reading, permitted, took, reply); }
    case Commit(w) => if phase.Applied? { CommitKeeps(s, w); }
    case Settle(w) => if phase.Ending? { SettleKeeps(s, w); }
    case Stumble(w) => EndKeeps(s, w, UNEXPECTED);
  }

  lemma StepKeeps(s: World, call: Call)
    requires Inv(s)
    ensures Inv(Step(s, call))
  {
    match call
    case Receive(id, tenant, payload) => ReceiveKeeps(s, id, NewRow("order.placed", tenant, payload, s.queue.now));
    case Tick(elapsed) => TickKeeps(s, elapsed);
    case Place(place, placement) => SettingKeeps(s, Step(s, call));
    case Master(key, id) => SettingKeeps(s, Step(s, call));
    case ByHand(n, client, reference, fields) => if n !in s.orders { ByHandKeeps(s, n, client, reference, fields); }
    case Take(w, id, lease) => if w !in s.workers && CanTake(s.queue, w, id) { TakeKeeps(s, w, id, lease); }
    case Crash(w) => CrashKeeps(s, w);
    case _ => if InPhase(s, call.worker) { WorkerStepKeeps(s, call); }
  }

  lemma {:induction false} RunKeeps(s: World, calls: seq<Call>)
    requires Inv(s)
    ensures Inv(Run(s, calls))
    decreases |calls|
  {
    if calls != [] {
      StepKeeps(s, calls[0]);
      RunKeeps(Step(s, calls[0]), calls[1..]);
    }
  }
}
