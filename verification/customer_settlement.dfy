/** All or nothing: ERP's tables, its announcements and the inbox outcome of a projection move together or not at
    all. */
module CustomerSettlement {
  import opened Prelude
  import opened Text
  import opened ExecutionPolicy
  import opened Inbox
  import opened DocumentRevisions
  import opened Customers
  import opened CustomerAttempts
  import opened CustomerPartners

  /** ERP's tables as the committed projections, one after another, make them. */
  function Replay(tables: Tables, ledger: seq<Commitment>): Tables {
    if ledger == [] then tables
    else RecordProjection(Replay(tables, ledger[..|ledger| - 1]), ledger[|ledger| - 1])
  }

  predicate SettledByAttempt(row: Row<Payload>) {
    row.status.Done? && row.outcomeCode.Some? && row.outcomeCode.value in SETTLED_IN_ATTEMPT
  }

  /** The commitment is its row's: same event, same instant, same outcome code. */
  ghost predicate Bears(s: World, c: Commitment) {
    && c.row in s.queue.rows
    && var row := s.queue.rows[c.row];
    && row.payload == Projected(c.task.customer) && row.tenant == Some(c.task.tenant)
    && row.status.Done? && row.outcomeCode == Some(c.code) && row.processedAt == Some(c.at)
    && c.code in SETTLED_IN_ATTEMPT
  }

  ghost predicate InLedger(ledger: seq<Commitment>, id: RowId) {
    exists i :: 0 <= i < |ledger| && ledger[i].row == id
  }

  ghost predicate LedgerFits(s: World, start: Tables) {
    && TablesOf(s) == Replay(start, s.ledger)
    && (forall i :: 0 <= i < |s.ledger| ==> Bears(s, s.ledger[i]))
    && (forall i, j :: 0 <= i < j < |s.ledger| ==> s.ledger[i].row != s.ledger[j].row)
    && (forall id :: id in s.queue.rows && SettledByAttempt(s.queue.rows[id]) ==> InLedger(s.ledger, id))
  }

  lemma OtherOutcomesSettleNothing(s: World, w: Worker, outcome: Outcome, id: RowId)
    requires Sound(s.queue) && w in s.queue.held && outcome.code !in SETTLED_IN_ATTEMPT
    ensures var s' := SettleAttempt(s, w, outcome);
            && (id in s'.queue.rows && SettledByAttempt(s'.queue.rows[id]) ==>
                id in s.queue.rows && SettledByAttempt(s.queue.rows[id]))
            && (id in s.queue.rows && s.queue.rows[id].status.Done? ==>
                id in s'.queue.rows && s'.queue.rows[id] == s.queue.rows[id])
  {
    assert HeldFits(s.queue, w);
  }

  /** Without a commit taking effect no row becomes settled by its attempt, and a settled one stays as it is. */
  lemma OtherCallsSettleNothing(s: World, call: Call, id: RowId, sha256: Hash)
    requires Steady(s) && !TakesEffect(s, call)
    ensures var s' := Step(sha256, s, call);
            && (id in s'.queue.rows && SettledByAttempt(s'.queue.rows[id]) ==>
                id in s.queue.rows && SettledByAttempt(s.queue.rows[id]))
            && (id in s.queue.rows && s.queue.rows[id].status.Done? ==>
                id in s'.queue.rows && s'.queue.rows[id] == s.queue.rows[id])
  {
    if call.Commit? {
      if InPhase(s, call.worker) && s.workers[call.worker].Applied? { CommitEffect(sha256, s, call); }
    } else if call.Settle? && InPhase(s, call.worker) && s.workers[call.worker].Ending? {
      assert CodeFits(s.workers[call.worker]);
      assert Step(sha256, s, call) == SettleAttempt(s, call.worker, s.workers[call.worker].outcome);
      OtherOutcomesSettleNothing(s, call.worker, s.workers[call.worker].outcome, id);
    } else {
      OtherCallsKeepRows(s, call, id, sha256);
    }
  }

  lemma OtherCallsKeepRows(s: World, call: Call, id: RowId, sha256: Hash)
    requires !call.Commit? && !(call.Settle? && InPhase(s, call.worker) && s.workers[call.worker].Ending?)
    ensures var s' := Step(sha256, s, call);
            && (id in s'.queue.rows && SettledByAttempt(s'.queue.rows[id]) ==>
                id in s.queue.rows && SettledByAttempt(s.queue.rows[id]))
            && (id in s.queue.rows && s.queue.rows[id].status.Done? ==>
                id in s'.queue.rows && s'.queue.rows[id] == s.queue.rows[id])
  {
    match call
    case Receive(_, _, _) =>
    case Take(_, _, _) =>
    case Settle(_) =>
    case _ => RowsChangeByQueue(sha256, s, call);
  }

  lemma ReplayAppends(start: Tables, ledger: seq<Commitment>, c: Commitment)
    ensures Replay(start, ledger + [c]) == RecordProjection(Replay(start, ledger), c)
  {
    assert (ledger + [c])[..|ledger|] == ledger;
  }

  lemma CommittedRow(s: World, w: Worker, t: Task, n: nat, code: Code, minted: string)
    requires InPhase(s, w) && Holds(s.queue, w)
    ensures var id := s.queue.held[w].claim.row;
            var s' := Committed(s, w, t, n, code, minted);
            && s.queue.rows[id].status.InProgress?
            && s'.queue.rows == s.queue.rows[id := Settled(s.queue.rows[id], Processing(code), s.queue.now)]
            && s'.ledger == s.ledger + [Commitment(id, t, n, code, minted, s.queue.now)]
            && TablesOf(s') == RecordProjection(TablesOf(s), Commitment(id, t, n, code, minted, s.queue.now))
  {
  }

  /** The commit settles its own row, which was still open, and no other. */
  lemma EffectSettlesRow(s: World, call: Call, sha256: Hash) returns (c: Commitment)
    requires Steady(s) && TakesEffect(s, call)
    ensures var s' := Step(sha256, s, call);
            && s'.ledger == s.ledger + [c]
            && c.row == s.queue.held[call.worker].claim.row
            && TablesOf(s') == RecordProjection(TablesOf(s), c)
            && Bears(s', c)
            && s.queue.rows[c.row].status.InProgress?
            && s'.queue.rows == s.queue.rows[c.row := s'.queue.rows[c.row]]
  {
    var w, p := call.worker, s.workers[call.worker];
    c := Commitment(s.queue.held[w].claim.row, p.task, p.native, p.code, call.minted, s.queue.now);
    TablesChangeByCommit(sha256, s, call);
    CommittedRow(s, w, p.task, p.native, p.code, call.minted);
    RowBears(s, w);
  }

  lemma RowBears(s: World, w: Worker)
    requires Steady(s) && InPhase(s, w) && s.workers[w].Applied?
    ensures var row := s.queue.rows[s.queue.held[w].claim.row];
            row.payload == Projected(s.workers[w].task.customer) && s.workers[w].code in SETTLED_IN_ATTEMPT
            && row.tenant == Some(s.workers[w].task.tenant)
  {
    assert CodeFits(s.workers[w]) && TaskFits(s, w);
  }

  lemma EffectKeepsLedger(s: World, call: Call, start: Tables, sha256: Hash)
    requires Steady(s) && LedgerFits(s, start) && TakesEffect(s, call)
    ensures LedgerFits(Step(sha256, s, call), start)
  {
    var s' := Step(sha256, s, call);
    var c := EffectSettlesRow(s, call, sha256);
    ReplayAppends(start, s.ledger, c);
    LedgerGrows(s, s', c, start);
  }

  /** A commitment for a row that was open joins the ledger without disturbing the ones before it. */
  lemma LedgerGrows(s: World, s': World, c: Commitment, start: Tables)
    requires LedgerFits(s, start) && s'.ledger == s.ledger + [c]
    requires TablesOf(s') == Replay(start, s'.ledger) && Bears(s', c)
    requires c.row in s.queue.rows && s.queue.rows[c.row].status.InProgress?
    requires s'.queue.rows == s.queue.rows[c.row := s'.queue.rows[c.row]]
    ensures LedgerFits(s', start)
  {
    var id := c.row;
    forall i | 0 <= i < |s.ledger|
      ensures s.ledger[i].row != id && Bears(s', s.ledger[i])
    {
      assert Bears(s, s.ledger[i]);
    }
    forall other | other in s'.queue.rows && SettledByAttempt(s'.queue.rows[other]) ensures InLedger(s'.ledger, other) {
      if other != id {
        assert InLedger(s.ledger, other);
        var i :| 0 <= i < |s.ledger| && s.ledger[i].row == other;
        assert s'.ledger[i].row == other;
      }
    }
  }

  lemma StepKeepsLedger(s: World, call: Call, start: Tables, sha256: Hash)
    requires Steady(s) && LedgerFits(s, start)
    ensures LedgerFits(Step(sha256, s, call), start)
  {
    if TakesEffect(s, call) {
      EffectKeepsLedger(s, call, start, sha256);
    } else {
      TablesChangeByCommit(sha256, s, call);
      var s' := Step(sha256, s, call);
      forall i | 0 <= i < |s'.ledger| ensures Bears(s', s'.ledger[i]) {
        assert Bears(s, s.ledger[i]);
        OtherCallsSettleNothing(s, call, s.ledger[i].row, sha256);
      }
      forall id | id in s'.queue.rows && SettledByAttempt(s'.queue.rows[id]) ensures InLedger(s'.ledger, id) {
        OtherCallsSettleNothing(s, call, id, sha256);
      }
    }
  }

  /** Over every run: ERP's tables are exactly the replay of the committed projections, and a row reads CREATED, ADOPTED
      or UPDATED if and only if exactly one of those projections is its own. */
  lemma {:induction false} SettlementTheorem(s: World, calls: seq<Call>, start: Tables, sha256: Hash)
    requires Steady(s) && LedgerFits(s, start)
    ensures LedgerFits(Run(sha256, s, calls), start)
    decreases |calls|
  {
    if calls != [] {
      StepSteady(s, calls[0], sha256);
      StepKeepsLedger(s, calls[0], start, sha256);
      SettlementTheorem(Step(sha256, s, calls[0]), calls[1..], start, sha256);
    }
  }

  // ---------------------------------------------------------------------------------------------------------------
  // A lost lease
  // ---------------------------------------------------------------------------------------------------------------

  lemma StepIsLater(s: World, call: Call, w: Worker, sha256: Hash)
    requires Sound(s.queue) && !(call.Take? && call.worker == w)
    ensures Later(s.queue, Step(sha256, s, call).queue, w)
  {
    match call
    case Receive(id, tenant, payload) =>
        ReceiveIsLater(s.queue, id, NewRow("customer.projected", tenant, payload, s.queue.now), w);
    case Take(v, id, lease) => if v !in s.workers && CanTake(s.queue, v, id) { TakeIsLater(s.queue, v, id, lease, w); }
    case Commit(v, minted) => if InPhase(s, v) && s.workers[v].Applied? { CommitIsLater(s, v, minted, w, sha256); }
    case Settle(v) => if InPhase(s, v) && s.workers[v].Ending? { FinishIsLater(s.queue, v, s.workers[v].outcome, w); }
    case Tick(_) =>
    case Crash(_) =>
    case _ => QueueStays(sha256, s, call);
  }

  lemma CommitIsLater(s: World, v: Worker, minted: string, w: Worker, sha256: Hash)
    requires InPhase(s, v) && s.workers[v].Applied?
    ensures Later(s.queue, Step(sha256, s, Commit(v, minted)).queue, w)
  {
    CommitEffect(sha256, s, Commit(v, minted));
    FinishIsLater(s.queue, v, Processing(s.workers[v].code), w);
  }

  lemma StaleWritesNothing(s: World, call: Call, sha256: Hash)
    requires ByWorker(call) && !Holds(s.queue, call.worker)
    ensures TablesOf(Step(sha256, s, call)) == TablesOf(s) && Step(sha256, s, call).queue.rows == s.queue.rows
  {
    TablesChangeByCommit(sha256, s, call);
    match call
    case Commit(_, _) =>
      if InPhase(s, call.worker) && s.workers[call.worker].Applied? { CommitEffect(sha256, s, call); }
    case Settle(_) =>
    case _ => RowsChangeByQueue(sha256, s, call);
  }

  /** A worker whose claim was taken over never writes a table or a row with it again: however long it goes on, whatever
      others do and refund in between, until it claims a row anew. */
  lemma {:induction false} LostLeaseLeavesNothing(s: World, calls: seq<Call>, call: Call, sha256: Hash)
    requires Steady(s) && ByWorker(call) && !Holds(s.queue, call.worker)
    requires forall i :: 0 <= i < |calls| ==> !(calls[i].Take? && calls[i].worker == call.worker)
    ensures var s' := Run(sha256, s, calls);
            TablesOf(Step(sha256, s', call)) == TablesOf(s') && Step(sha256, s', call).queue.rows == s'.queue.rows
    decreases |calls|
  {
    if calls == [] {
      StaleWritesNothing(s, call, sha256);
    } else {
      var s' := Step(sha256, s, calls[0]);
      StepSteady(s, calls[0], sha256);
      StepIsLater(s, calls[0], call.worker, sha256);
      StaleForGood(s.queue, s'.queue, call.worker);
      LostLeaseLeavesNothing(s', calls[1..], call, sha256);
    }
  }

  // ---------------------------------------------------------------------------------------------------------------
  // Announcements
  // ---------------------------------------------------------------------------------------------------------------

  function Observed(tables: Tables, c: Commitment): Observation<PartnerDetail> {
    var customer := c.task.customer;
    Observation(PartnerKey(c.task.tenant, PublicIdOf(tables.mappings, KeyOf(c.task), c.minted)), customer.status,
                PartnerDetail(customer.displayName, customer.customerId), c.at)
  }

  function Observations(start: Tables, ledger: seq<Commitment>): seq<Observation<PartnerDetail>> {
    if ledger == [] then []
    else
      var earlier := ledger[..|ledger| - 1];
      Observations(start, earlier) + [Observed(Replay(start, earlier), ledger[|ledger| - 1])]
  }

  function Announcements(outbox: seq<PartnerChanged>): seq<Announcement> {
    seq(|outbox|,
        i requires 0 <= i < |outbox| =>
        Announcement(PartnerKey(outbox[i].tenant, outbox[i].publicId), outbox[i].revision))
  }

  /** What commits publish is what the revision store publishes for the same observations. */
  lemma {:induction false} ReplayPublishes(start: Tables, ledger: seq<Commitment>)
    requires start.documents == map[] && start.outbox == []
    ensures var p := PublishAll(NothingPublished(), Observations(start, ledger), Always);
            Replay(start, ledger).documents == p.rows && Announcements(Replay(start, ledger).outbox) == p.outbox
  {
    if ledger != [] {
      var earlier, c := ledger[..|ledger| - 1], ledger[|ledger| - 1];
      ReplayPublishes(start, earlier);
      var observations := Observations(start, earlier);
      var last := Observed(Replay(start, earlier), c);
      assert Observations(start, ledger) == observations + [last];
      assert (observations + [last])[..|observations|] == observations;
      var before, after := Replay(start, earlier), Replay(start, ledger);
      assert after == RecordProjection(before, c);
      if |after.outbox| > |before.outbox| {
        assert Announcements(after.outbox)
            == Announcements(before.outbox) + [Announcements(after.outbox)[|before.outbox|]];
      }
    }
  }

  /** business-partner.changed: whatever the run, a partner's announced revisions are exactly 1, 2, ..., its
      revision. */
  lemma PartnerAnnouncements(s: World, calls: seq<Call>, sha256: Hash, key: DocumentKey)
    requires Initial(s)
    ensures var s' := Run(sha256, s, calls);
            Announced(Announcements(s'.outbox), key)
            == seq(if key in s'.documents then s'.documents[key].revision else 0, i => i + 1)
  {
    InitiallyMarked(s, sha256);
    SettlementTheorem(s, calls, TablesOf(s), sha256);
    var ledger := Run(sha256, s, calls).ledger;
    ReplayPublishes(TablesOf(s), ledger);
    EveryRevisionAnnounced(Observations(TablesOf(s), ledger), key);
  }
}
