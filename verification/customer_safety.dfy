/** What every run of the customer executor keeps of the mappings, as long as a legal entity's customer is one
    tenant's. */
module CustomerSafety {
  import opened Prelude
  import opened Text
  import opened ExecutionPolicy
  import opened Inbox
  import opened InboxSupport
  import opened Customers
  import opened CustomerAttempts
  import opened CustomerPartners

  /** The tenant a (legal entity, customer) belongs to. */
  type Owner = (string, string) -> string

  // ---------------------------------------------------------------------------------------------------------------
  // The invariant
  // ---------------------------------------------------------------------------------------------------------------

  /** Every stored event of a customer names the one tenant the customer belongs to. */
  predicate RowOwned(row: Row<Payload>, owner: Owner) {
    row.payload.Projected? && row.tenant.Some? && row.tenant.value != "" ==>
      row.tenant.value == owner(row.payload.customer.legalEntity, row.payload.customer.customerId)
  }

  ghost predicate Newer(s: World, t: Task, n: nat) {
    && KeyOf(t) in s.mappings
    && s.mappings[KeyOf(t)].native == n
    && t.customer.version > KnownVersion(s.mappings[KeyOf(t)].version)
  }

  ghost predicate Unmapped(s: World, t: Task, n: nat, sha256: Hash) {
    && KeyOf(t) !in s.mappings
    && n in s.partners && Carries(s.partners[n], t.client, MarkerOf(sha256, t))
  }

  /** What the worker has established of the mapping and the engine is still so. */
  ghost predicate PhaseFits(s: World, w: Worker, sha256: Hash)
    requires w in s.workers
  {
    match s.workers[w]
    case Checked(t, mapped) => Lookup(s.mappings, KeyOf(t)) == mapped && VersionRule(t.customer, mapped).None?
    case Missing(t) => KeyOf(t) !in s.mappings
    case Found(t, n, code) => if code == UPDATED then Newer(s, t, n)
        else code == ADOPTED_NATIVE_PARTNER && Unmapped(s, t, n, sha256)
    case Applied(t, n, code) =>
      && n in s.partners && s.partners[n].fields == FieldsOf(t.customer)
      && if code == UPDATED then Newer(s, t, n) else Unmapped(s, t, n, sha256)
    case _ => true
  }

  /** A mapping names a known record; a marked record is only ever its own customer's. */
  ghost predicate MappingFits(s: World, key: MapKey, sha256: Hash, owner: Owner)
    requires key in s.mappings
  {
    var n := s.mappings[key].native;
    && n in s.issued
    && (n in s.partners && MARKER_PREFIX <= s.partners[n].description ==>
          && s.partners[n].description == Marker(sha256, owner(key.legalEntity, key.customerId), key.legalEntity,
              key.customerId)
          && ColonFree(key.legalEntity) && ColonFree(owner(key.legalEntity, key.customerId))
          && (owner(key.legalEntity, key.customerId), key.legalEntity) in s.placements
          && s.placements[(owner(key.legalEntity, key.customerId), key.legalEntity)].instance == Some(key.instance))
  }

  ghost predicate MappingsFit(s: World, sha256: Hash, owner: Owner) {
    && (forall key {:trigger MappingFits(s, key, sha256, owner)} :: key in s.mappings ==>
        MappingFits(s, key, sha256, owner))
    && (forall k1, k2 :: k1 in s.mappings && k2 in s.mappings && s.mappings[k1].native == s.mappings[k2].native ==>
        k1 == k2)
    && (forall k1, k2 :: k1 in s.mappings && k2 in s.mappings && s.mappings[k1].publicId == s.mappings[k2].publicId ==>
        k1 == k2)
  }

  ghost predicate Owned(s: World, sha256: Hash, owner: Owner) {
    && (forall id {:trigger RowOwned(s.queue.rows[id], owner)} :: id in s.queue.rows ==>
        RowOwned(s.queue.rows[id], owner))
    && (forall w {:trigger PhaseFits(s, w, sha256)} :: w in s.workers ==> PhaseFits(s, w, sha256))
    && MappingsFit(s, sha256, owner)
  }

  ghost predicate Inv(s: World, sha256: Hash, owner: Owner) {
    Steady(s) && Marked(s, sha256) && Owned(s, sha256, owner)
  }

  /** The one thing the tables do not enforce: a legal entity's customer is one tenant's. */
  ghost predicate CallOwned(call: Call, owner: Owner) {
    CallWellFormed(call)
        && (call.Receive? ==> RowOwned(NewRow("customer.projected", call.tenant, call.payload, 0), owner))
  }

  ghost predicate CallsOwned(calls: seq<Call>, owner: Owner) {
    forall i :: 0 <= i < |calls| ==> CallOwned(calls[i], owner)
  }

  lemma InitialFits(s: World, sha256: Hash, owner: Owner)
    requires Initial(s)
    ensures Inv(s, sha256, owner)
  {
    InitiallyMarked(s, sha256);
  }

  lemma TaskOwned(s: World, w: Worker, sha256: Hash, owner: Owner)
    requires Inv(s, sha256, owner) && w in s.workers && HasLock(s.workers[w])
    ensures var t := s.workers[w].task;
            WellFormed(t.tenant, t.customer) && t.tenant == owner(t.customer.legalEntity, t.customer.customerId)
  {
    TaskWellFormed(s, w, sha256);
    assert TaskFits(s, w) && RowOwned(s.queue.rows[s.queue.held[w].claim.row], owner);
  }

  // ---------------------------------------------------------------------------------------------------------------
  // Two tasks
  // ---------------------------------------------------------------------------------------------------------------

  /** Workers past the lock work on different customers, and so on different mapping rows and markers. */
  lemma LocksExclude(s: World, sha256: Hash, owner: Owner, v: Worker, w: Worker)
    requires Inv(s, sha256, owner) && Injective(sha256)
    requires v in s.workers && w in s.workers && HasLock(s.workers[v]) && HasLock(s.workers[w])
    requires KeyOf(s.workers[v].task) == KeyOf(s.workers[w].task)
             || MarkerOf(sha256, s.workers[v].task) == MarkerOf(sha256, s.workers[w].task)
    ensures v == w
  {
    TaskOwned(s, v, sha256, owner);
    TaskOwned(s, w, sha256, owner);
    var a, b := s.workers[v].task, s.workers[w].task;
    if MarkerOf(sha256, a) == MarkerOf(sha256, b) {
      MarkerInjective(sha256, a.tenant, a.customer.legalEntity, a.customer.customerId,
                      b.tenant, b.customer.legalEntity, b.customer.customerId);
    }
    LockIsExclusive(s, v, w);
  }

  predicate Touches(phase: Phase) {
    phase.Found? || phase.Applied?
  }

  /** Workers past the search or the mapping have different partners in hand. */
  lemma NativesExclude(s: World, sha256: Hash, owner: Owner, v: Worker, w: Worker)
    requires Inv(s, sha256, owner) && Injective(sha256)
    requires v in s.workers && w in s.workers && Touches(s.workers[v]) && Touches(s.workers[w])
    requires s.workers[v].native == s.workers[w].native
    ensures v == w
  {
    assert PhaseFits(s, v, sha256) && PhaseFits(s, w, sha256);
    var a, b := s.workers[v].task, s.workers[w].task;
    var n := s.workers[v].native;
    if Newer(s, a, n) {
      NativeIsOwn(s, sha256, owner, w, KeyOf(a));
    } else if Newer(s, b, n) {
      NativeIsOwn(s, sha256, owner, v, KeyOf(b));
    }
    LocksExclude(s, sha256, owner, v, w);
  }

  /** A partner in a worker's hand is mapped by its own customer or by nobody. */
  lemma NativeIsOwn(s: World, sha256: Hash, owner: Owner, w: Worker, key: MapKey)
    requires Inv(s, sha256, owner) && Injective(sha256)
    requires w in s.workers && Touches(s.workers[w]) && key in s.mappings
        && s.mappings[key].native == s.workers[w].native
    ensures key == KeyOf(s.workers[w].task)
  {
    assert TaskFits(s, w) && PhaseFits(s, w, sha256);
    TaskOwned(s, w, sha256, owner);
    var t, n := s.workers[w].task, s.workers[w].native;
    if !Newer(s, t, n) {
      assert MappingFits(s, key, sha256, owner);
      MarkersShareAPrefix(sha256, t.tenant, t.customer.legalEntity, t.customer.customerId);
      MarkerInjective(sha256, t.tenant, t.customer.legalEntity, t.customer.customerId,
                      owner(key.legalEntity, key.customerId), key.legalEntity, key.customerId);
    }
  }

  // ---------------------------------------------------------------------------------------------------------------
  // The mappings
  // ---------------------------------------------------------------------------------------------------------------

  /** The engine gave out more records at most, and left every marker where it was. */
  ghost predicate EngineGrows(s: World, s': World) {
    && s.issued <= s'.issued
    && (forall n :: n in s.partners ==>
                      n in s'.partners && s'.partners[n].client == s.partners[n].client
                      && s'.partners[n].description == s.partners[n].description)
    && (forall n :: n in s'.partners && n in s.issued ==> n in s.partners)
    && (forall place :: place in s.placements ==> place in s'.placements && s'.placements[place] == s.placements[place])
  }

  lemma StepGrowsEngine(s: World, call: Call, sha256: Hash)
    requires s.partners.Keys <= s.issued
    ensures EngineGrows(s, Step(sha256, s, call))
  {
    PartnersChangeByWriting(sha256, s, call);
    forall place | place in s.placements
      ensures var s' := Step(sha256, s, call); place in s'.placements && s'.placements[place] == s.placements[place]
    {
      PlacementsStay(sha256, s, call, place);
    }
  }

  lemma MappingsKeep(s: World, s': World, sha256: Hash, owner: Owner)
    requires MappingsFit(s, sha256, owner) && EngineGrows(s, s') && s'.mappings == s.mappings
    ensures MappingsFit(s', sha256, owner)
  {
    forall key | key in s'.mappings
      ensures MappingFits(s', key, sha256, owner)
    {
      assert MappingFits(s, key, sha256, owner);
    }
  }

  /** The mapping table with one entry written, for a record nobody else's mapping names. */
  lemma MappingWritten(s: World, s': World, key: MapKey, entry: Mapping, sha256: Hash, owner: Owner)
    requires MappingsFit(s, sha256, owner)
    requires s'.mappings == s.mappings[key := entry]
    requires s'.partners == s.partners && s'.issued == s.issued && s'.placements == s.placements
    requires MappingFits(s', key, sha256, owner)
    requires forall k :: k in s.mappings && s.mappings[k].native == entry.native ==> k == key
    requires forall k :: k in s.mappings && s.mappings[k].publicId == entry.publicId ==> k == key
    ensures MappingsFit(s', sha256, owner)
  {
    forall k | k in s'.mappings ensures MappingFits(s', k, sha256, owner) {
      if k != key { assert MappingFits(s, k, sha256, owner); }
    }
  }

  lemma CommittedMappingsFit(s: World, w: Worker, minted: string, sha256: Hash, owner: Owner)
    requires Inv(s, sha256, owner) && Injective(sha256) && InPhase(s, w) && s.workers[w].Applied?
    requires KeyOf(s.workers[w].task) in s.mappings || !PublicIdTaken(s.mappings, KeyOf(s.workers[w].task), minted)
    ensures var p := s.workers[w]; MappingsFit(Committed(s, w, p.task, p.native, p.code, minted), sha256, owner)
  {
    var t, n := s.workers[w].task, s.workers[w].native;
    var s' := Committed(s, w, t, n, s.workers[w].code, minted);
    var key := KeyOf(t);
    var entry := Mapping(n, DigestOf(t.customer), Numeric(t.customer.version), PublicIdOf(s.mappings, key, minted));
    assert s'.mappings == s.mappings[key := entry];
    assert TaskFits(s, w) && PhaseFits(s, w, sha256);
    TaskOwned(s, w, sha256, owner);
    assert MappingFits(s', key, sha256, owner) by {
      if key in s.mappings { assert MappingFits(s, key, sha256, owner); }
    }
    forall k | k in s.mappings && s.mappings[k].native == n ensures k == key {
      NativeIsOwn(s, sha256, owner, w, k);
    }
    MappingWritten(s, s', key, entry, sha256, owner);
  }

  lemma StepKeepsMappings(s: World, call: Call, sha256: Hash, owner: Owner)
    requires Inv(s, sha256, owner) && Injective(sha256)
    ensures MappingsFit(Step(sha256, s, call), sha256, owner)
  {
    TablesChangeByCommit(sha256, s, call);
    if TakesEffect(s, call) {
      CommittedMappingsFit(s, call.worker, call.minted, sha256, owner);
    } else {
      StepGrowsEngine(s, call, sha256);
      MappingsKeep(s, Step(sha256, s, call), sha256, owner);
    }
  }

  // ---------------------------------------------------------------------------------------------------------------
  // The workers
  // ---------------------------------------------------------------------------------------------------------------

  /** Nobody else's commit touches the mapping a worker past the lock has read. */
  lemma MappingStays(s: World, call: Call, v: Worker, sha256: Hash, owner: Owner)
    requires Inv(s, sha256, owner) && Injective(sha256)
    requires v in s.workers && HasLock(s.workers[v]) && v in Step(sha256, s, call).workers
    ensures var key := KeyOf(s.workers[v].task); Lookup(Step(sha256, s, call).mappings, key) == Lookup(s.mappings, key)
  {
    TablesChangeByCommit(sha256, s, call);
    if TakesEffect(s, call) && KeyOf(s.workers[call.worker].task) == KeyOf(s.workers[v].task) {
      LocksExclude(s, sha256, owner, v, call.worker);
    }
  }

  /** Nobody else writes the fields of a partner a worker has brought to its version. */
  lemma FieldsStay(s: World, call: Call, v: Worker, sha256: Hash, owner: Owner)
    requires Inv(s, sha256, owner) && Injective(sha256)
    requires v in s.workers && s.workers[v].Applied? && s.workers[v].native in s.partners
    ensures var n, s' := s.workers[v].native, Step(sha256, s, call);
            n in s'.partners && s'.partners[n].fields == s.partners[n].fields
  {
    PartnersChangeByWriting(sha256, s, call);
    if call.Update? && InPhase(s, call.worker) && s.workers[call.worker].Found? {
      if s.workers[call.worker].native == s.workers[v].native { NativesExclude(s, sha256, owner, v, call.worker); }
    }
  }

  lemma PhaseStays(s: World, call: Call, v: Worker, sha256: Hash, owner: Owner)
    requires Inv(s, sha256, owner) && Injective(sha256)
    requires var s' := Step(sha256, s, call); v in s.workers && v in s'.workers && s'.workers[v] == s.workers[v]
    ensures PhaseFits(Step(sha256, s, call), v, sha256)
  {
    assert PhaseFits(s, v, sha256);
    if HasLock(s.workers[v]) {
      MappingStays(s, call, v, sha256, owner);
      StepGrowsEngine(s, call, sha256);
      if s.workers[v].Applied? { FieldsStay(s, call, v, sha256, owner); }
    }
  }

  /** A phase that says nothing of the mapping or the engine. */
  predicate Plain(phase: Phase) {
    phase.Started? || phase.Holding? || phase.Ending?
  }

  lemma ProbedPhaseFits(s: World, w: Worker, session: Session, reply: Reply, sha256: Hash)
    requires w in s.workers && s.workers[w].Checked? && PhaseFits(s, w, sha256)
    ensures PhaseFits(ProbeEngine(sha256, s, w, s.workers[w].task, s.workers[w].mapped, session, reply), w, sha256)
  {
  }

  lemma UpdatedPhaseFits(s: World, w: Worker, took: bool, reply: Reply, sha256: Hash)
    requires w in s.workers && s.workers[w].Found? && PhaseFits(s, w, sha256)
    ensures var p := s.workers[w]; PhaseFits(UpdatePartner(s, w, p.task, p.native, p.code, took, reply), w, sha256)
  {
  }

  lemma CreatedPhaseFits(s: World, w: Worker, n: nat, groups: nat, took: bool, reply: Reply, sha256: Hash)
    requires w in s.workers && s.workers[w].Missing? && PhaseFits(s, w, sha256)
    ensures PhaseFits(CreatePartner(sha256, s, w, s.workers[w].task, n, groups, took, reply), w, sha256)
  {
  }

  lemma BegunPhasePlain(s: World, w: Worker, contended: bool)
    requires InPhase(s, w)
    ensures Plain(BeginAttempt(s, w, contended).workers[w])
  {
  }

  lemma CommitPhasePlain(s: World, w: Worker, minted: string)
    requires InPhase(s, w) && s.workers[w].Applied?
    ensures var p := s.workers[w];
            var s' := CommitProjection(s, w, p.task, p.native, p.code, minted); w in s'.workers ==> Plain(s'.workers[w])
  {
  }

  lemma OwnPhaseFits(s: World, call: Call, sha256: Hash, owner: Owner)
    requires Inv(s, sha256, owner) && ByWorker(call) && InPhase(s, call.worker)
    requires call.worker in WorkerStep(sha256, s, call).workers && WorkerStep(sha256, s, call) != s
    ensures PhaseFits(WorkerStep(sha256, s, call), call.worker, sha256)
  {
    assert PhaseFits(s, call.worker, sha256);
    match call
    case Begin(w, contended) => BegunPhasePlain(s, w, contended);
    case Compare(_) =>
    case Probe(w, session, reply) => if s.workers[w].Checked? { ProbedPhaseFits(s, w, session, reply, sha256); }
    case Update(w, took, reply) => if s.workers[w].Found? { UpdatedPhaseFits(s, w, took, reply, sha256); }
    case Create(w, n, groups, took, reply) =>
      if s.workers[w].Missing? { CreatedPhaseFits(s, w, n, groups, took, reply, sha256); }
    case Commit(w, minted) => if s.workers[w].Applied? { CommitPhasePlain(s, w, minted); }
    case Settle(_) =>
    case Stumble(_) =>
  }

  /** A call moves only its own worker on. */
  lemma OthersStand(s: World, call: Call, v: Worker, sha256: Hash)
    requires ByWorker(call) && InPhase(s, call.worker) && call.worker != v
    requires v in Step(sha256, s, call).workers
    ensures v in s.workers && Step(sha256, s, call).workers[v] == s.workers[v]
  {
    match call
    case Update(_, _, _) => UpdateWrites(sha256, s, call);
    case Create(_, _, _, _, _) => CreateWrites(sha256, s, call);
    case Begin(_, _) => ReadingStays(sha256, s, call);
    case Compare(_) => ReadingStays(sha256, s, call);
    case Probe(_, _, _) => ReadingStays(sha256, s, call);
    case Stumble(_) => ReadingStays(sha256, s, call);
    case Commit(_, _) => EndsMoveOwn(s, call, v, sha256);
    case Settle(_) => EndsMoveOwn(s, call, v, sha256);
  }

  lemma EndsMoveOwn(s: World, call: Call, v: Worker, sha256: Hash)
    requires (call.Commit? || call.Settle?) && InPhase(s, call.worker) && call.worker != v
    requires v in Step(sha256, s, call).workers
    ensures v in s.workers && Step(sha256, s, call).workers[v] == s.workers[v]
  {
    if call.Commit? && s.workers[call.worker].Applied? { CommitEffect(sha256, s, call); }
  }

  lemma SurroundingsArePlain(s: World, call: Call, v: Worker, sha256: Hash)
    requires !ByWorker(call) && v in Step(sha256, s, call).workers
    ensures Plain(Step(sha256, s, call).workers[v])
        || (v in s.workers && Step(sha256, s, call).workers[v] == s.workers[v])
  {
  }

  // ---------------------------------------------------------------------------------------------------------------
  // Every call
  // ---------------------------------------------------------------------------------------------------------------

  lemma StepOwned(s: World, call: Call, sha256: Hash, owner: Owner)
    requires Inv(s, sha256, owner) && Injective(sha256) && CallOwned(call, owner)
    ensures Owned(Step(sha256, s, call), sha256, owner)
  {
    var s' := Step(sha256, s, call);
    StepKeepsMappings(s, call, sha256, owner);
    forall id | id in s'.queue.rows ensures RowOwned(s'.queue.rows[id], owner) {
      EventsStay(sha256, s, call, id);
      if id in s.queue.rows { assert RowOwned(s.queue.rows[id], owner); }
    }
    forall v | v in s'.workers ensures PhaseFits(s', v, sha256) {
      if v in s.workers && s'.workers[v] == s.workers[v] {
        PhaseStays(s, call, v, sha256, owner);
      } else if !ByWorker(call) {
        SurroundingsArePlain(s, call, v, sha256);
      } else if call.worker != v {
        OthersStand(s, call, v, sha256);
      } else {
        OwnPhaseFits(s, call, sha256, owner);
      }
    }
  }

  lemma StepKeeps(s: World, call: Call, sha256: Hash, owner: Owner)
    requires Inv(s, sha256, owner) && Injective(sha256) && CallOwned(call, owner)
    ensures Inv(Step(sha256, s, call), sha256, owner)
  {
    StepSteady(s, call, sha256);
    StepMarked(s, call, sha256);
    StepOwned(s, call, sha256, owner);
  }

  /** Every interleaving, crash, lost lease and unanswered engine call keeps locks, phases, partners and mappings in
      step. */
  lemma {:induction false} RunKeeps(s: World, calls: seq<Call>, sha256: Hash, owner: Owner)
    requires Inv(s, sha256, owner) && Injective(sha256) && CallsOwned(calls, owner)
    ensures Inv(Run(sha256, s, calls), sha256, owner)
    decreases |calls|
  {
    if calls != [] {
      StepKeeps(s, calls[0], sha256, owner);
      RunKeeps(Step(sha256, s, calls[0]), calls[1..], sha256, owner);
    }
  }
}
