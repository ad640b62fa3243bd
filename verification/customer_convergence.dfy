/** Where a run ends up: the newest event, once processed, is what the mapping and the engine hold. */
module CustomerConvergence {
  import opened Prelude
  import opened Text
  import opened ExecutionPolicy
  import opened Inbox
  import opened Customers
  import opened CustomerAttempts
  import opened CustomerPartners
  import opened CustomerSafety
  import opened CustomerTheorems
  import opened CustomerSettlement
  import opened CustomerOutcomes

  /** The processed event the mapping was last committed for. */
  predicate IsSource(s: World, key: MapKey, id: RowId)
    requires key in s.mappings
  {
    && id in s.queue.rows && s.queue.rows[id].status.Done? && Concerns(s.queue.rows[id].payload, key)
    && var c := s.queue.rows[id].payload.customer;
    && s.mappings[key].version == Numeric(c.version) && s.mappings[key].digest == DigestOf(c)
  }

  predicate NewerAt(s: World, key: MapKey, version: int, id: RowId) {
    id in s.queue.rows && Concerns(s.queue.rows[id].payload, key) && s.queue.rows[id].payload.customer.version > version
  }

  ghost predicate NewerStored(s: World, key: MapKey, version: int) {
    exists id :: NewerAt(s, key, version, id)
  }

  predicate EngineAt(s: World, key: MapKey, c: Customer)
    requires key in s.mappings
  {
    s.mappings[key].native in s.partners && s.partners[s.mappings[key].native].fields == FieldsOf(c)
  }

  /** The engine holds the event the mapping holds, unless a newer one is stored: its attempt may have got that far. */
  ghost predicate Sourced(s: World, key: MapKey)
    requires key in s.mappings
  {
    exists id ::
      && IsSource(s, key, id)
      && (|| EngineAt(s, key, s.queue.rows[id].payload.customer)
          || NewerStored(s, key, KnownVersion(s.mappings[key].version)))
  }

  ghost predicate KeptOrSourced(s: World, key: MapKey, start: map<MapKey, Mapping>)
    requires key in s.mappings
  {
    (key in start && start[key] == s.mappings[key]) || Sourced(s, key)
  }

  ghost predicate AllSourced(s: World, start: map<MapKey, Mapping>) {
    forall key {:trigger KeptOrSourced(s, key, start)} :: key in s.mappings ==> KeptOrSourced(s, key, start)
  }

  lemma DoneStays(s: World, call: Call, id: RowId, sha256: Hash, owner: Owner)
    requires Inv(s, sha256, owner) && id in s.queue.rows && s.queue.rows[id].status.Done?
    ensures var s' := Step(sha256, s, call); id in s'.queue.rows && s'.queue.rows[id] == s.queue.rows[id]
  {
    if TakesEffect(s, call) {
      var c := EffectSettlesRow(s, call, sha256);
    } else {
      OtherCallsSettleNothing(s, call, id, sha256);
    }
  }

  lemma NewerStays(s: World, call: Call, key: MapKey, version: int, sha256: Hash)
    requires NewerStored(s, key, version)
    ensures NewerStored(Step(sha256, s, call), key, version)
  {
    var id :| NewerAt(s, key, version, id);
    RowsStay(sha256, s, call, id);
    assert NewerAt(Step(sha256, s, call), key, version, id);
  }

  /** A partner in hand that the mapping names is in hand for a newer event of the same customer. */
  lemma HandIsNewer(s: World, w: Worker, key: MapKey, sha256: Hash, owner: Owner)
    requires Inv(s, sha256, owner) && Injective(sha256) && key in s.mappings
    requires w in s.workers && Touches(s.workers[w]) && s.workers[w].native == s.mappings[key].native
    ensures NewerStored(s, key, KnownVersion(s.mappings[key].version))
  {
    NativeIsOwn(s, sha256, owner, w, key);
    assert PhaseFits(s, w, sha256) && TaskFits(s, w);
    assert NewerAt(s, key, KnownVersion(s.mappings[key].version), s.queue.held[w].claim.row);
  }

  /** The engine record of a mapping changes only for a newer event of its customer. */
  lemma EngineStays(s: World, call: Call, key: MapKey, c: Customer, sha256: Hash, owner: Owner)
    requires Inv(s, sha256, owner) && Injective(sha256) && key in s.mappings && EngineAt(s, key, c)
    requires var s' := Step(sha256, s, call); key in s'.mappings && s'.mappings[key] == s.mappings[key]
    ensures EngineAt(Step(sha256, s, call), key, c) || NewerStored(s, key, KnownVersion(s.mappings[key].version))
  {
    PartnersChangeByWriting(sha256, s, call);
    assert MappingFits(s, key, sha256, owner);
    if call.Update? && InPhase(s, call.worker) && s.workers[call.worker].Found?
        && s.workers[call.worker].native == s.mappings[key].native {
      HandIsNewer(s, call.worker, key, sha256, owner);
    }
  }

  lemma SourcedStays(s: World, call: Call, key: MapKey, sha256: Hash, owner: Owner)
    requires Inv(s, sha256, owner) && Injective(sha256) && key in s.mappings && Sourced(s, key)
    requires var s' := Step(sha256, s, call); key in s'.mappings && s'.mappings[key] == s.mappings[key]
    ensures Sourced(Step(sha256, s, call), key)
  {
    var s', version := Step(sha256, s, call), KnownVersion(s.mappings[key].version);
    var id :| IsSource(s, key, id)
        && (EngineAt(s, key, s.queue.rows[id].payload.customer) || NewerStored(s, key, version));
    DoneStays(s, call, id, sha256, owner);
    assert IsSource(s', key, id);
    if EngineAt(s, key, s.queue.rows[id].payload.customer) {
      EngineStays(s, call, key, s.queue.rows[id].payload.customer, sha256, owner);
    }
    if NewerStored(s, key, version) { NewerStays(s, call, key, version, sha256); }
  }

  lemma CommitSources(s: World, call: Call, sha256: Hash, owner: Owner)
    requires Inv(s, sha256, owner) && Injective(sha256) && TakesEffect(s, call)
    ensures var key := KeyOf(s.workers[call.worker].task);
            key in Step(sha256, s, call).mappings && Sourced(Step(sha256, s, call), key)
  {
    var c := EffectSettlesRow(s, call, sha256);
    CommitMatchesEngine(s, call.worker, call.minted, sha256, owner);
    var s', key := Step(sha256, s, call), KeyOf(s.workers[call.worker].task);
    RowBears(s, call.worker);
    assert IsSource(s', key, c.row);
  }

  lemma StepKeepsSources(s: World, call: Call, start: map<MapKey, Mapping>, key: MapKey, sha256: Hash, owner: Owner)
    requires Inv(s, sha256, owner) && Injective(sha256) && AllSourced(s, start) && key in Step(sha256, s, call).mappings
    ensures KeptOrSourced(Step(sha256, s, call), key, start)
  {
    TablesChangeByCommit(sha256, s, call);
    if TakesEffect(s, call) && key == KeyOf(s.workers[call.worker].task) {
      CommitSources(s, call, sha256, owner);
    } else {
      assert KeptOrSourced(s, key, start);
      if Sourced(s, key) { SourcedStays(s, call, key, sha256, owner); }
    }
  }

  lemma {:induction false} SourcesKept(s: World, calls: seq<Call>, start: map<MapKey, Mapping>, sha256: Hash,
      owner: Owner)
    requires Inv(s, sha256, owner) && Injective(sha256) && CallsOwned(calls, owner) && AllSourced(s, start)
    ensures AllSourced(Run(sha256, s, calls), start)
    decreases |calls|
  {
    if calls != [] {
      var s' := Step(sha256, s, calls[0]);
      StepKeeps(s, calls[0], sha256, owner);
      forall key | key in s'.mappings ensures KeptOrSourced(s', key, start) {
        StepKeepsSources(s, calls[0], start, key, sha256, owner);
      }
      SourcesKept(s', calls[1..], start, sha256, owner);
    }
  }

  /** The newest stored event of its customer, newer than what was bootstrapped, and processed. */
  ghost predicate NewestProcessed(start: map<MapKey, Mapping>, s: World, id: RowId, key: MapKey) {
    && id in s.queue.rows && s.queue.rows[id].status.Done? && KeyedBy(s, s.queue.rows[id], key)
    && NoNewerRow(s, key, s.queue.rows[id].payload.customer.version)
    && (key in start ==> KnownVersion(start[key].version) < s.queue.rows[id].payload.customer.version)
  }

  /** Mapping and engine partner hold exactly this event. */
  predicate Wins(s: World, id: RowId, key: MapKey)
    requires id in s.queue.rows && s.queue.rows[id].payload.Projected?
  {
    var c := s.queue.rows[id].payload.customer;
    && key in s.mappings
    && s.mappings[key].version == Numeric(c.version) && s.mappings[key].digest == DigestOf(c)
    && s.mappings[key].native in s.partners && Shows(s.partners[s.mappings[key].native].fields, c)
  }

  /** Wherever a run stands: if the newest stored event of a customer has been processed, and is newer than what was
      bootstrapped, the mapping is at its version with its content and the engine partner has its fields, whatever
      order, repetitions, crashes and unanswered writes came before. */
  lemma NewestEventWins(s: World, calls: seq<Call>, id: RowId, key: MapKey, sha256: Hash, owner: Owner)
    requires Initial(s) && Injective(sha256) && CallsOwned(calls, owner)
    requires NewestProcessed(s.mappings, Run(sha256, s, calls), id, key)
    ensures Wins(Run(sha256, s, calls), id, key)
  {
    InitialFits(s, sha256, owner);
    assert VerdictsTrue(s);
    OutcomesAreTrue(s, calls, sha256, owner);
    SourcesKept(s, calls, s.mappings, sha256, owner);
    var s' := Run(sha256, s, calls);
    var c := s'.queue.rows[id].payload.customer;
    assert RowTrue(s', id);
    var mapped :| mapped in s'.mappings && KeyedBy(s', s'.queue.rows[id], mapped)
                  && Says(s'.queue.rows[id].outcomeCode.value, c, s'.mappings[mapped]);
    assert mapped == key && KeptOrSourced(s', key, s.mappings);
    assert !NewerStored(s', key, KnownVersion(s'.mappings[key].version));
    var source :| IsSource(s', key, source) && EngineAt(s', key, s'.queue.rows[source].payload.customer);
    assert s'.queue.rows[source].payload.customer.version == c.version;
  }

  // ---------------------------------------------------------------------------------------------------------------
  // One content per version
  // ---------------------------------------------------------------------------------------------------------------

  /** The content of each version of each customer. */
  type Contents = (string, string, int) -> ContentDigest

  predicate PayloadAgrees(payload: Payload, contents: Contents) {
    payload.Projected? ==>
      DigestOf(payload.customer) == contents(payload.customer.legalEntity, payload.customer.customerId,
          payload.customer.version)
  }

  predicate MappingAgrees(key: MapKey, mapped: Mapping, contents: Contents) {
    mapped.version.Numeric? ==> mapped.digest == contents(key.legalEntity, key.customerId, mapped.version.n)
  }

  ghost predicate CallsAgree(calls: seq<Call>, contents: Contents) {
    forall i :: 0 <= i < |calls| && calls[i].Receive? ==> PayloadAgrees(calls[i].payload, contents)
  }

  predicate RowPeaceful(row: Row<Payload>, contents: Contents) {
    PayloadAgrees(row.payload, contents) && row.outcomeCode != Some(VERSION_CONFLICT)
  }

  predicate EndPeaceful(phase: Phase) {
    phase.Ending? ==> phase.outcome.code != VERSION_CONFLICT
  }

  /** Rows and mappings hold the one content of their version, and no attempt found otherwise. */
  ghost predicate Peaceful(s: World, contents: Contents) {
    && (forall id {:trigger RowPeaceful(s.queue.rows[id], contents)} :: id in s.queue.rows ==>
        RowPeaceful(s.queue.rows[id], contents))
    && (forall key {:trigger MappingAgrees(key, s.mappings[key], contents)} :: key in s.mappings ==>
        MappingAgrees(key, s.mappings[key], contents))
    && (forall w {:trigger EndPeaceful(s.workers[w])} :: w in s.workers ==> EndPeaceful(s.workers[w]))
  }

  lemma RowStaysPeaceful(s: World, call: Call, id: RowId, contents: Contents, sha256: Hash)
    requires Peaceful(s, contents) && CallsAgree([call], contents) && id in Step(sha256, s, call).queue.rows
    requires TakesEffect(s, call) ==> s.workers[call.worker].code in SETTLED_IN_ATTEMPT
    ensures RowPeaceful(Step(sha256, s, call).queue.rows[id], contents)
  {
    EventsStay(sha256, s, call, id);
    if id in s.queue.rows { assert RowPeaceful(s.queue.rows[id], contents); }
    assert call.Receive? ==> [call][0].Receive? && PayloadAgrees(call.payload, contents);
    if Records(s, call, id) {
      assert EndPeaceful(s.workers[call.worker]);
      RecordedCode(s, call, id, sha256);
    } else {
      OutcomesStay(s, call, id, sha256);
    }
  }

  /** What is recorded is the attempt's own code or a budget's. */
  lemma RecordedCode(s: World, call: Call, id: RowId, sha256: Hash)
    requires Records(s, call, id)
    ensures id in Step(sha256, s, call).queue.rows
    ensures var phase := s.workers[call.worker];
            var own := if phase.Ending? then phase.outcome.code else phase.code;
            var code := Step(sha256, s, call).queue.rows[id].outcomeCode;
            code == Some(own) || code == Some(ATTEMPTS_EXHAUSTED) || code == Some(BLOCKED_HORIZON_EXCEEDED)
  {
    var phase := s.workers[call.worker];
    if call.Commit? {
      TablesChangeByCommit(sha256, s, call);
    } else {
      assert Step(sha256, s, call) == SettleAttempt(s, call.worker, phase.outcome);
    }
  }

  lemma EndStaysPeaceful(s: World, call: Call, w: Worker, contents: Contents, sha256: Hash)
    requires Steady(s) && Marked(s, sha256) && Peaceful(s, contents) && w in Step(sha256, s, call).workers
    ensures EndPeaceful(Step(sha256, s, call).workers[w])
  {
    if w in s.workers { assert EndPeaceful(s.workers[w]); }
    if !call.Compare? {
      OtherEndsAreMute(s, call, w, sha256);
    } else if InPhase(s, call.worker) && s.workers[call.worker].Holding? {
      var v, t := call.worker, s.workers[call.worker].task;
      assert Step(sha256, s, call) == CompareVersions(s, v, t);
      assert TaskFits(s, v) && RowPeaceful(s.queue.rows[s.queue.held[v].claim.row], contents);
      if KeyOf(t) in s.mappings { assert MappingAgrees(KeyOf(t), s.mappings[KeyOf(t)], contents); }
      TaskWellFormed(s, v, sha256);
      RuleFindsNoConflict(KeyOf(t), t.customer, Lookup(s.mappings, KeyOf(t)), contents);
    }
  }

  lemma RuleFindsNoConflict(key: MapKey, c: Customer, mapped: Option<Mapping>, contents: Contents)
    requires key.legalEntity == c.legalEntity && key.customerId == c.customerId && c.version >= 1
    requires PayloadAgrees(Projected(c), contents) && (mapped.Some? ==> MappingAgrees(key, mapped.value, contents))
    ensures VersionRule(c, mapped).Some? ==> VersionRule(c, mapped).value.code != VERSION_CONFLICT
  {
  }

  lemma StepStaysPeaceful(s: World, call: Call, contents: Contents, sha256: Hash)
    requires Steady(s) && Marked(s, sha256) && Peaceful(s, contents) && CallsAgree([call], contents)
    ensures Peaceful(Step(sha256, s, call), contents)
  {
    var s' := Step(sha256, s, call);
    if TakesEffect(s, call) {
      RowBears(s, call.worker);
      CommitMatchesTask(s, call, sha256);
      assert RowPeaceful(s.queue.rows[s.queue.held[call.worker].claim.row], contents);
    }
    TablesChangeByCommit(sha256, s, call);
    forall key | key in s'.mappings ensures MappingAgrees(key, s'.mappings[key], contents) {
      if key in s.mappings { assert MappingAgrees(key, s.mappings[key], contents); }
    }
    forall id | id in s'.queue.rows
      ensures RowPeaceful(s'.queue.rows[id], contents)
    {
      RowStaysPeaceful(s, call, id, contents, sha256);
    }
    forall w | w in s'.workers
      ensures EndPeaceful(s'.workers[w])
    {
      EndStaysPeaceful(s, call, w, contents, sha256);
    }
  }

  lemma CommitMatchesTask(s: World, call: Call, sha256: Hash)
    requires TakesEffect(s, call)
    ensures var s' := Step(sha256, s, call);
            var t := s.workers[call.worker].task;
            && s'.mappings.Keys == s.mappings.Keys + {KeyOf(t)}
            && s'.mappings[KeyOf(t)].version == Numeric(t.customer.version)
                && s'.mappings[KeyOf(t)].digest == DigestOf(t.customer)
            && forall key :: key in s.mappings && key != KeyOf(t) ==> s'.mappings[key] == s.mappings[key]
  {
    TablesChangeByCommit(sha256, s, call);
  }

  /** If every version has one content, no event ever ends as a version conflict, whoever shares a customer. */
  lemma {:induction false} OneContentNeverConflicts(s: World, calls: seq<Call>, contents: Contents, sha256: Hash)
    requires Steady(s) && Marked(s, sha256) && Injective(sha256) && CallsWellFormed(calls)
    requires Peaceful(s, contents) && CallsAgree(calls, contents)
    ensures forall id :: id in Run(sha256, s, calls).queue.rows ==>
        Run(sha256, s, calls).queue.rows[id].outcomeCode != Some(VERSION_CONFLICT)
    decreases |calls|
  {
    if calls == [] {
      forall id | id in s.queue.rows ensures s.queue.rows[id].outcomeCode != Some(VERSION_CONFLICT) {
        assert RowPeaceful(s.queue.rows[id], contents);
      }
    } else {
      assert CallWellFormed(calls[0]);
      StepSteady(s, calls[0], sha256);
      StepMarked(s, calls[0], sha256);
      StepStaysPeaceful(s, calls[0], contents, sha256);
      OneContentNeverConflicts(Step(sha256, s, calls[0]), calls[1..], contents, sha256);
    }
  }
}
