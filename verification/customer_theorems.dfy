/** What the customer executor promises, proved over every interleaving, crash, lost lease and unanswered engine
    call. */
module CustomerTheorems {
  import opened Prelude
  import opened Text
  import opened ExecutionPolicy
  import opened Inbox
  import opened InboxSupport
  import opened Customers
  import opened CustomerAttempts
  import opened CustomerPartners
  import opened CustomerSafety

  /** One engine partner per customer: two that carry a customer's marker are the same record, in the customer's own
      client. */
  lemma AtMostOnePartner(s: World, calls: seq<Call>, sha256: Hash, m: nat, n: nat, tenant: string, c: Customer)
    requires Initial(s) && Injective(sha256) && CallsWellFormed(calls) && WellFormed(tenant, c)
    requires var s' := Run(sha256, s, calls);
             var marker := Marker(sha256, tenant, c.legalEntity, c.customerId);
             && m in s'.partners && s'.partners[m].description == marker
             && n in s'.partners && s'.partners[n].description == marker
    ensures var s' := Run(sha256, s, calls);
            m == n && (tenant, c.legalEntity) in s'.placements
            && s'.partners[n].client == s'.placements[(tenant, c.legalEntity)].client
  {
    InitiallyMarked(s, sha256);
    RunMarked(s, calls, sha256);
    var s' := Run(sha256, s, calls);
    MarkersShareAPrefix(sha256, tenant, c.legalEntity, c.customerId);
    assert MarkedAtHome(s', n, sha256, tenant, c.legalEntity, c.customerId);
    assert SameMarker(s'.partners[m], s'.partners[n]);
  }

  /** After an uncertain create the next attempt adopts: with the marked record there, an answered search finds exactly
      it. */
  lemma OrphanIsAdopted(s: World, sha256: Hash, w: Worker, n: nat)
    requires Steady(s) && Marked(s, sha256) && InPhase(s, w)
    requires s.workers[w].Checked? && s.workers[w].mapped.None?
    requires n in s.partners && s.partners[n].description == MarkerOf(sha256, s.workers[w].task)
    ensures Step(sha256, s, Probe(w, Ready, Answered)).workers[w] == Found(s.workers[w].task, n, ADOPTED_NATIVE_PARTNER)
  {
    var t := s.workers[w].task;
    assert TaskFits(s, w);
    TaskWellFormed(s, w, sha256);
    assert MarkedAtHome(s, n, sha256, t.tenant, t.customer.legalEntity, t.customer.customerId);
    var marked := MarkedPartners(s.partners, t.client, MarkerOf(sha256, t));
    assert n in marked;
    forall m | m in marked ensures m == n {
      MarkersShareAPrefix(sha256, t.tenant, t.customer.legalEntity, t.customer.customerId);
      assert SameMarker(s.partners[m], s.partners[n]);
    }
    assert marked == {n};
    assert Step(sha256, s, Probe(w, Ready, Answered)) == ProbeEngine(sha256, s, w, t, None, Ready, Answered);
  }

  // ---------------------------------------------------------------------------------------------------------------
  // Mappings only move forward
  // ---------------------------------------------------------------------------------------------------------------

  /** The mapping stays on its record and public id, and moves only to a higher version. */
  ghost predicate Advances(before: map<MapKey, Mapping>, after: map<MapKey, Mapping>, key: MapKey) {
    key in before ==>
      && key in after
      && after[key].native == before[key].native
      && after[key].publicId == before[key].publicId
      && (after[key] == before[key] || KnownVersion(after[key].version) > KnownVersion(before[key].version))
  }

  lemma StepAdvances(s: World, call: Call, sha256: Hash, owner: Owner, key: MapKey)
    requires Inv(s, sha256, owner)
    ensures Advances(s.mappings, Step(sha256, s, call).mappings, key)
  {
    TablesChangeByCommit(sha256, s, call);
    if TakesEffect(s, call) { assert PhaseFits(s, call.worker, sha256); }
  }

  /** A customer once mapped stays mapped under the public id it was announced with, whoever sends it and however long
      the run goes on. */
  lemma {:induction false} PublicIdStays(s: World, calls: seq<Call>, sha256: Hash, key: MapKey)
    requires key in s.mappings
    ensures var after := Run(sha256, s, calls).mappings;
            key in after && after[key].publicId == s.mappings[key].publicId
    decreases |calls|
  {
    if calls != [] {
      TablesChangeByCommit(sha256, s, calls[0]);
      PublicIdStays(Step(sha256, s, calls[0]), calls[1..], sha256, key);
    }
  }

  /** A mapped native id and public id never change, and the mapped version never goes back, however long the run goes
      on. */
  lemma {:induction false} MappingsAdvance(s: World, calls: seq<Call>, sha256: Hash, owner: Owner, key: MapKey)
    requires Inv(s, sha256, owner) && Injective(sha256) && CallsOwned(calls, owner)
    ensures Advances(s.mappings, Run(sha256, s, calls).mappings, key)
    decreases |calls|
  {
    if calls != [] {
      var s' := Step(sha256, s, calls[0]);
      StepKeeps(s, calls[0], sha256, owner);
      StepAdvances(s, calls[0], sha256, owner, key);
      MappingsAdvance(s', calls[1..], sha256, owner, key);
    }
  }

  // ---------------------------------------------------------------------------------------------------------------
  // Convergence
  // ---------------------------------------------------------------------------------------------------------------

  /** The partner carries the event's name, is a customer, and is active exactly if the event's customer is; a suspended
      or closed one is kept but deactivated. */
  predicate Shows(fields: Fields, c: Customer) {
    fields.name == c.displayName && fields.customer && (fields.active <==> c.status == "active")
  }

  /** A commit that takes effect leaves the engine at exactly the version it maps. */
  lemma CommitMatchesEngine(s: World, w: Worker, minted: string, sha256: Hash, owner: Owner)
    requires Inv(s, sha256, owner)
    requires var s' := Step(sha256, s, Commit(w, minted)); s'.ledger != s.ledger
    ensures var s' := Step(sha256, s, Commit(w, minted));
            var c := s.workers[w].task.customer;
            var key := KeyOf(s.workers[w].task);
            && key in s'.mappings
            && s'.mappings[key].version == Numeric(c.version) && s'.mappings[key].digest == DigestOf(c)
            && s'.mappings[key].native in s'.partners
            && s'.partners[s'.mappings[key].native].fields == FieldsOf(c)
            && Shows(s'.partners[s'.mappings[key].native].fields, c)
            && s.queue.rows[s.queue.held[w].claim.row].payload == Projected(c)
  {
    assert PhaseFits(s, w, sha256) && TaskFits(s, w);
  }

  /** Over every run: when a commit takes effect, the partner it maps shows its event. */
  lemma CommittedIsShown(start: World, calls: seq<Call>, w: Worker, minted: string, sha256: Hash, owner: Owner)
    requires Initial(start) && Injective(sha256) && CallsOwned(calls, owner)
    requires TakesEffect(Run(sha256, start, calls), Commit(w, minted))
    ensures var s, s' := Run(sha256, start, calls), Run(sha256, start, calls + [Commit(w, minted)]);
            var row := s.queue.rows[s.queue.held[w].claim.row];
            && row.payload.Projected?
            && var key := KeyOf(s.workers[w].task);
            && key.legalEntity == row.payload.customer.legalEntity && key.customerId == row.payload.customer.customerId
            && key in s'.mappings && s'.mappings[key].native in s'.partners
            && Shows(s'.partners[s'.mappings[key].native].fields, row.payload.customer)
  {
    var s := Run(sha256, start, calls);
    InitialFits(start, sha256, owner);
    RunKeeps(start, calls, sha256, owner);
    TablesChangeByCommit(sha256, s, Commit(w, minted));
    CommitMatchesEngine(s, w, minted, sha256, owner);
    RunAppends(sha256, start, calls, [Commit(w, minted)]);
    RunOne(sha256, s, Commit(w, minted));
  }

  predicate Concerns(payload: Payload, key: MapKey) {
    payload.Projected? && payload.customer.legalEntity == key.legalEntity
        && payload.customer.customerId == key.customerId
  }

  /** No stored event of the customer is newer than `version`. */
  ghost predicate NoNewerRow(s: World, key: MapKey, version: int) {
    forall id :: id in s.queue.rows && Concerns(s.queue.rows[id].payload, key) ==>
                   s.queue.rows[id].payload.customer.version <= version
  }

  ghost predicate NoNewerCall(call: Call, key: MapKey, version: int) {
    call.Receive? && Concerns(call.payload, key) ==> call.payload.customer.version <= version
  }

  /** With nothing newer about, no call reaches a settled customer's partner or mapping. */
  lemma SettledStepStays(s: World, call: Call, key: MapKey, sha256: Hash, owner: Owner)
    requires Inv(s, sha256, owner) && Injective(sha256) && key in s.mappings
    requires NoNewerRow(s, key, KnownVersion(s.mappings[key].version))
    requires s.mappings[key].native in s.partners
    ensures var s' := Step(sha256, s, call);
            && key in s'.mappings && s'.mappings[key] == s.mappings[key]
            && s.mappings[key].native in s'.partners
            && s'.partners[s.mappings[key].native] == s.partners[s.mappings[key].native]
  {
    TablesChangeByCommit(sha256, s, call);
    PartnersChangeByWriting(sha256, s, call);
    if TakesEffect(s, call) || (call.Update? && InPhase(s, call.worker) && s.workers[call.worker].Found?) {
      NoWorkerTouches(s, call.worker, key, sha256, owner);
    }
    assert MappingFits(s, key, sha256, owner);
  }

  lemma NoWorkerTouches(s: World, w: Worker, key: MapKey, sha256: Hash, owner: Owner)
    requires Inv(s, sha256, owner) && Injective(sha256) && key in s.mappings
    requires NoNewerRow(s, key, KnownVersion(s.mappings[key].version))
    requires w in s.workers && Touches(s.workers[w])
    ensures KeyOf(s.workers[w].task) != key && s.workers[w].native != s.mappings[key].native
  {
    assert PhaseFits(s, w, sha256) && TaskFits(s, w);
    if s.workers[w].native == s.mappings[key].native { NativeIsOwn(s, sha256, owner, w, key); }
  }

  lemma NothingNewerArrives(s: World, call: Call, sha256: Hash, key: MapKey, version: int)
    requires NoNewerRow(s, key, version) && NoNewerCall(call, key, version)
    ensures NoNewerRow(Step(sha256, s, call), key, version)
  {
    var s' := Step(sha256, s, call);
    forall id | id in s'.queue.rows && Concerns(s'.queue.rows[id].payload, key)
      ensures s'.queue.rows[id].payload.customer.version <= version
    {
      EventsStay(sha256, s, call, id);
    }
  }

  /** Once a customer's highest version is mapped, no later step of any worker changes the partner or its mapping, in
      whatever order, how often and with whatever crashes the events are retried. */
  lemma {:induction false} HighestVersionIsFinal(s: World, calls: seq<Call>, key: MapKey, sha256: Hash, owner: Owner)
    requires Inv(s, sha256, owner) && Injective(sha256) && CallsOwned(calls, owner)
    requires key in s.mappings && s.mappings[key].native in s.partners
    requires NoNewerRow(s, key, KnownVersion(s.mappings[key].version))
    requires forall i :: 0 <= i < |calls| ==> NoNewerCall(calls[i], key, KnownVersion(s.mappings[key].version))
    ensures var s' := Run(sha256, s, calls);
            && key in s'.mappings && s'.mappings[key] == s.mappings[key]
            && s.mappings[key].native in s'.partners
            && s'.partners[s.mappings[key].native] == s.partners[s.mappings[key].native]
    decreases |calls|
  {
    if calls != [] {
      SettledStepStays(s, calls[0], key, sha256, owner);
      NothingNewerArrives(s, calls[0], sha256, key, KnownVersion(s.mappings[key].version));
      StepKeeps(s, calls[0], sha256, owner);
      HighestVersionIsFinal(Step(sha256, s, calls[0]), calls[1..], key, sha256, owner);
    }
  }
}
