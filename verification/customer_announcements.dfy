/** What ERP last announced of a partner is what it last recorded for it. */
module CustomerAnnouncements {
  import opened Text
  import opened Inbox
  import opened DocumentRevisions
  import opened Customers
  import opened CustomerAttempts
  import opened CustomerPartners
  import opened CustomerSafety
  import opened CustomerConvergence
  import opened CustomerSettlement

  /** The statuses the parser accepts. */
  predicate Known(status: string) {
    status == "active" || status == "suspended" || status == "closed"
  }

  predicate PayloadKnown(payload: Payload) {
    payload.Projected? ==> Known(payload.customer.status)
  }

  ghost predicate CallsKnown(calls: seq<Call>) {
    forall i :: 0 <= i < |calls| && calls[i].Receive? ==> PayloadKnown(calls[i].payload)
  }

  predicate IsFor(e: PartnerChanged, tenant: string, publicId: string) {
    e.tenant == tenant && e.publicId == publicId
  }

  /** The i-th announcement is the partner's last, with its stored revision, name and status. */
  predicate LastSays(tables: Tables, i: nat, tenant: string, publicId: string)
    requires i < |tables.outbox| && PartnerKey(tenant, publicId) in tables.documents
  {
    var e, row := tables.outbox[i], tables.documents[PartnerKey(tenant, publicId)];
    && IsFor(e, tenant, publicId)
    && (forall j :: i < j < |tables.outbox| ==> !IsFor(tables.outbox[j], tenant, publicId))
    && e.revision == row.revision && e.customer.status == row.status
    && row.detail == PartnerDetail(e.customer.displayName, e.customer.customerId)
  }

  ghost predicate DocumentFits(tables: Tables, tenant: string, publicId: string) {
    PartnerKey(tenant, publicId) in tables.documents ==>
      && Known(tables.documents[PartnerKey(tenant, publicId)].status)
      && exists i :: 0 <= i < |tables.outbox| && LastSays(tables, i, tenant, publicId)
  }

  /** Public ids name one mapping each. */
  ghost predicate IdsApart(tables: Tables) {
    forall a, b ::
      a in tables.mappings && b in tables.mappings && tables.mappings[a].publicId == tables.mappings[b].publicId ==>
        a == b
  }

  /** The mapping is as it was at the start, or its partner's document shows the event it was last committed for. */
  ghost predicate Announces(tables: Tables, ledger: seq<Commitment>, i: nat, key: MapKey)
    requires i < |ledger| && key in tables.mappings
  {
    var c, m := ledger[i], tables.mappings[key];
    && KeyOf(c.task) == key && c.task.tenant != "" && m.digest == DigestOf(c.task.customer)
    && m.version == Numeric(c.task.customer.version)
    && PartnerKey(c.task.tenant, m.publicId) in tables.documents
    && var row := tables.documents[PartnerKey(c.task.tenant, m.publicId)];
    && row.status == c.task.customer.status
    && row.detail == PartnerDetail(c.task.customer.displayName, c.task.customer.customerId)
  }

  ghost predicate MappingFits(tables: Tables, ledger: seq<Commitment>, start: map<MapKey, Mapping>, key: MapKey)
    requires key in tables.mappings
  {
    || (key in start && start[key] == tables.mappings[key])
    || exists i :: 0 <= i < |ledger| && Announces(tables, ledger, i, key)
  }

  ghost predicate AllAnnounced(tables: Tables, ledger: seq<Commitment>, start: map<MapKey, Mapping>) {
    && IdsApart(tables)
    && (forall t, p {:trigger DocumentFits(tables, t, p)} :: DocumentFits(tables, t, p))
    && (forall key {:trigger MappingFits(tables, ledger, start, key)} :: key in tables.mappings ==>
          MappingFits(tables, ledger, start, key))
  }

  lemma KnownRanks(status: string)
    requires Known(status)
    ensures Rank(status) == 0
  {
  }

  lemma CommitKeepsDocument(tables: Tables, c: Commitment, tenant: string, publicId: string)
    requires Known(c.task.customer.status) && DocumentFits(tables, tenant, publicId)
    ensures DocumentFits(RecordProjection(tables, c), tenant, publicId)
  {
    var after := RecordProjection(tables, c);
    var own := PublicIdOf(tables.mappings, KeyOf(c.task), c.minted);
    KnownRanks(c.task.customer.status);
    if PartnerKey(tenant, publicId) in tables.documents {
      KnownRanks(tables.documents[PartnerKey(tenant, publicId)].status);
      var i :| 0 <= i < |tables.outbox| && LastSays(tables, i, tenant, publicId);
      if !(tenant == c.task.tenant && publicId == own) || |after.outbox| == |tables.outbox| {
        assert LastSays(after, i, tenant, publicId);
      }
    }
    if tenant == c.task.tenant && publicId == own && |after.outbox| > |tables.outbox| {
      assert LastSays(after, |tables.outbox|, tenant, publicId);
    }
  }

  lemma CommitKeepsMapping(tables: Tables, ledger: seq<Commitment>, c: Commitment, start: map<MapKey, Mapping>,
      key: MapKey)
    requires Known(c.task.customer.status) && c.task.tenant != "" && AllAnnounced(tables, ledger, start)
    requires KeyOf(c.task) in tables.mappings || !PublicIdTaken(tables.mappings, KeyOf(c.task), c.minted)
    requires key in RecordProjection(tables, c).mappings
    ensures MappingFits(RecordProjection(tables, c), ledger + [c], start, key)
  {
    var after, all := RecordProjection(tables, c), ledger + [c];
    var own := PublicIdOf(tables.mappings, KeyOf(c.task), c.minted);
    if key == KeyOf(c.task) {
      assert DocumentFits(tables, c.task.tenant, own);
      KnownRanks(c.task.customer.status);
      if PartnerKey(c.task.tenant, own) in tables.documents {
        KnownRanks(tables.documents[PartnerKey(c.task.tenant, own)].status);
      }
      assert all[|ledger|] == c;
      assert Announces(after, all, |ledger|, key);
    } else {
      assert MappingFits(tables, ledger, start, key);
      assert after.mappings[key] == tables.mappings[key] && tables.mappings[key].publicId != own;
      if i: nat :| 0 <= i < |ledger| && Announces(tables, ledger, i, key) {
        assert all[i] == ledger[i];
        assert Announces(after, all, i, key);
      }
    }
  }

  lemma CommitKeepsApart(tables: Tables, c: Commitment)
    requires IdsApart(tables)
    requires KeyOf(c.task) in tables.mappings || !PublicIdTaken(tables.mappings, KeyOf(c.task), c.minted)
    ensures IdsApart(RecordProjection(tables, c))
  {
  }

  lemma CommitAnnounces(tables: Tables, ledger: seq<Commitment>, c: Commitment, start: map<MapKey, Mapping>)
    requires Known(c.task.customer.status) && c.task.tenant != "" && AllAnnounced(tables, ledger, start)
    requires KeyOf(c.task) in tables.mappings || !PublicIdTaken(tables.mappings, KeyOf(c.task), c.minted)
    ensures AllAnnounced(RecordProjection(tables, c), ledger + [c], start)
  {
    var after := RecordProjection(tables, c);
    CommitKeepsApart(tables, c);
    forall t, p ensures DocumentFits(after, t, p) {
      assert DocumentFits(tables, t, p);
      CommitKeepsDocument(tables, c, t, p);
    }
    forall key | key in after.mappings ensures MappingFits(after, ledger + [c], start, key) {
      CommitKeepsMapping(tables, ledger, c, start, key);
    }
  }

  ghost predicate RowsKnown(s: World) {
    forall id {:trigger s.queue.rows[id]} :: id in s.queue.rows ==> PayloadKnown(s.queue.rows[id].payload)
  }

  lemma StepAnnounces(s: World, call: Call, start: map<MapKey, Mapping>, sha256: Hash)
    requires Steady(s) && RowsKnown(s) && AllAnnounced(TablesOf(s), s.ledger, start)
    ensures var s' := Step(sha256, s, call); AllAnnounced(TablesOf(s'), s'.ledger, start)
  {
    TablesChangeByCommit(sha256, s, call);
    if TakesEffect(s, call) {
      var c := EffectSettlesRow(s, call, sha256);
      RowBears(s, call.worker);
      assert TaskFits(s, call.worker);
      CommittedIsOwn(s, call, c, sha256);
      CommitAnnounces(TablesOf(s), s.ledger, c, start);
    }
  }

  lemma CommittedIsOwn(s: World, call: Call, c: Commitment, sha256: Hash)
    requires TakesEffect(s, call) && Step(sha256, s, call).ledger == s.ledger + [c]
    ensures c.task == s.workers[call.worker].task && c.minted == call.minted
  {
    TablesChangeByCommit(sha256, s, call);
    assert (s.ledger + [c])[|s.ledger|] == c;
  }

  lemma StepKnows(s: World, call: Call, sha256: Hash)
    requires RowsKnown(s) && CallsKnown([call])
    ensures RowsKnown(Step(sha256, s, call))
  {
    var s' := Step(sha256, s, call);
    forall id | id in s'.queue.rows ensures PayloadKnown(s'.queue.rows[id].payload) {
      assert call.Receive? ==> [call][0].Receive? && PayloadKnown(call.payload);
      EventsStay(sha256, s, call, id);
    }
  }

  lemma {:induction false} RunAnnounces(s: World, calls: seq<Call>, start: map<MapKey, Mapping>, sha256: Hash)
    requires Steady(s) && RowsKnown(s) && CallsKnown(calls) && AllAnnounced(TablesOf(s), s.ledger, start)
    ensures var s' := Run(sha256, s, calls); AllAnnounced(TablesOf(s'), s'.ledger, start)
    decreases |calls|
  {
    if calls != [] {
      StepSteady(s, calls[0], sha256);
      StepKnows(s, calls[0], sha256);
      StepAnnounces(s, calls[0], start, sha256);
      RunAnnounces(Step(sha256, s, calls[0]), calls[1..], start, sha256);
    }
  }

  /** The partner's last announcement is of the event its mapping was last committed for, with the stored revision. */
  ghost predicate CommitAnnounced(s: World, key: MapKey)
    requires key in s.mappings
  {
    exists i, n ::
      && 0 <= i < |s.ledger| && 0 <= n < |s.outbox|
      && Announces(TablesOf(s), s.ledger, i, key)
      && PartnerKey(s.ledger[i].task.tenant, s.mappings[key].publicId) in s.documents
      && LastSays(TablesOf(s), n, s.ledger[i].task.tenant, s.mappings[key].publicId)
  }

  /** Over every run: a partner's last announcement carries the name and status of the event its mapping was last
      committed for, and the stored revision. */
  lemma LastCommitIsAnnounced(s: World, calls: seq<Call>, key: MapKey, sha256: Hash)
    requires Initial(s) && CallsKnown(calls) && key in Run(sha256, s, calls).mappings
    requires !(key in s.mappings && s.mappings[key] == Run(sha256, s, calls).mappings[key])
    ensures CommitAnnounced(Run(sha256, s, calls), key)
  {
    InitiallyMarked(s, sha256);
    RunAnnounces(s, calls, s.mappings, sha256);
    var s' := Run(sha256, s, calls);
    assert MappingFits(TablesOf(s'), s'.ledger, s.mappings, key);
    var i :| 0 <= i < |s'.ledger| && Announces(TablesOf(s'), s'.ledger, i, key);
    assert DocumentFits(TablesOf(s'), s'.ledger[i].task.tenant, s'.mappings[key].publicId);
  }

  /** The last announcement of the partner carries this name and status. */
  ghost predicate LastlyAnnounced(s: World, tenant: string, publicId: string, c: Customer) {
    exists n ::
      && 0 <= n < |s.outbox| && IsFor(s.outbox[n], tenant, publicId)
      && (forall m :: n < m < |s.outbox| ==> !IsFor(s.outbox[m], tenant, publicId))
      && s.outbox[n].customer.displayName == c.displayName && s.outbox[n].customer.status == c.status
  }

  lemma CommittedByTheOwner(s: World, start: Tables, i: nat, sha256: Hash, owner: Owner)
    requires Inv(s, sha256, owner) && LedgerFits(s, start) && i < |s.ledger| && s.ledger[i].task.tenant != ""
    ensures var t := s.ledger[i].task; t.tenant == owner(t.customer.legalEntity, t.customer.customerId)
  {
    assert Bears(s, s.ledger[i]);
    assert RowOwned(s.queue.rows[s.ledger[i].row], owner);
  }

  lemma WinnerIsAnnounced(s: World, id: RowId, key: MapKey, i: nat, n: nat)
    requires i < |s.ledger| && n < |s.outbox|
    requires id in s.queue.rows && s.queue.rows[id].payload.Projected? && Wins(s, id, key)
    requires Announces(TablesOf(s), s.ledger, i, key)
    requires PartnerKey(s.ledger[i].task.tenant, s.mappings[key].publicId) in s.documents
    requires LastSays(TablesOf(s), n, s.ledger[i].task.tenant, s.mappings[key].publicId)
    ensures LastlyAnnounced(s, s.ledger[i].task.tenant, s.mappings[key].publicId, s.queue.rows[id].payload.customer)
  {
    assert DigestOf(s.ledger[i].task.customer) == DigestOf(s.queue.rows[id].payload.customer);
    assert IsFor(s.outbox[n], s.ledger[i].task.tenant, s.mappings[key].publicId);
  }

  lemma OwnerIsTold(s: World, start: Tables, id: RowId, key: MapKey, sha256: Hash, owner: Owner)
    requires Inv(s, sha256, owner) && LedgerFits(s, start)
    requires id in s.queue.rows && s.queue.rows[id].payload.Projected? && Wins(s, id, key) && CommitAnnounced(s, key)
    ensures LastlyAnnounced(s, owner(key.legalEntity, key.customerId), s.mappings[key].publicId,
        s.queue.rows[id].payload.customer)
  {
    var i, n :|
      && 0 <= i < |s.ledger| && 0 <= n < |s.outbox|
      && Announces(TablesOf(s), s.ledger, i, key)
      && PartnerKey(s.ledger[i].task.tenant, s.mappings[key].publicId) in s.documents
      && LastSays(TablesOf(s), n, s.ledger[i].task.tenant, s.mappings[key].publicId);
    CommittedByTheOwner(s, start, i, sha256, owner);
    WinnerIsAnnounced(s, id, key, i, n);
  }

  lemma RunFits(s: World, calls: seq<Call>, sha256: Hash, owner: Owner)
    requires Initial(s) && Injective(sha256) && CallsOwned(calls, owner)
    ensures Inv(Run(sha256, s, calls), sha256, owner) && LedgerFits(Run(sha256, s, calls), TablesOf(s))
  {
    InitialFits(s, sha256, owner);
    RunKeeps(s, calls, sha256, owner);
    InitiallyMarked(s, sha256);
    SettlementTheorem(s, calls, TablesOf(s), sha256);
  }

  lemma StartIsOlder(s: World, s': World, id: RowId, key: MapKey)
    requires NewestProcessed(s.mappings, s', id, key) && Wins(s', id, key)
    ensures !(key in s.mappings && s.mappings[key] == s'.mappings[key])
  {
  }

  /** Once the newest event of a customer is processed, its partner's last announcement carries that event's name and
      status. */
  lemma NewestIsAnnounced(s: World, calls: seq<Call>, id: RowId, key: MapKey, sha256: Hash, owner: Owner)
    requires Initial(s) && Injective(sha256) && CallsOwned(calls, owner) && CallsKnown(calls)
    requires NewestProcessed(s.mappings, Run(sha256, s, calls), id, key)
    ensures var s' := Run(sha256, s, calls);
            && key in s'.mappings
            && LastlyAnnounced(s', owner(key.legalEntity, key.customerId), s'.mappings[key].publicId,
                 s'.queue.rows[id].payload.customer)
  {
    var s' := Run(sha256, s, calls);
    NewestEventWins(s, calls, id, key, sha256, owner);
    StartIsOlder(s, s', id, key);
    LastCommitIsAnnounced(s, calls, key, sha256);
    RunFits(s, calls, sha256, owner);
    OwnerIsTold(s', TablesOf(s), id, key, sha256, owner);
  }
}
