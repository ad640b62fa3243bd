/** What the outcome recorded for a customer event says, and that it is true of the tables ever after. */
module CustomerOutcomes {
  import opened Prelude
  import opened Text
  import opened ExecutionPolicy
  import opened Inbox
  import opened InboxSupport
  import opened Customers
  import opened CustomerAttempts
  import opened CustomerPartners
  import opened CustomerSafety
  import opened CustomerTheorems
  import opened CustomerSettlement

  // ---------------------------------------------------------------------------------------------------------------
  // Rows stay, and only their own worker records an outcome
  // ---------------------------------------------------------------------------------------------------------------

  /** The worker whose attempt at this row the call records the end of. */
  predicate Records(s: World, call: Call, id: RowId) {
    && (call.Commit? || call.Settle?)
    && InPhase(s, call.worker) && s.queue.held[call.worker].claim.row == id && Holds(s.queue, call.worker)
    && (if call.Commit? then TakesEffect(s, call) else s.workers[call.worker].Ending?)
  }

  lemma OutcomesStay(s: World, call: Call, id: RowId, sha256: Hash)
    requires id in Step(sha256, s, call).queue.rows && !Records(s, call, id)
    ensures var row' := Step(sha256, s, call).queue.rows[id];
            if id in s.queue.rows
                then row'.outcomeCode == s.queue.rows[id].outcomeCode
                && (row'.status.Done? ==> s.queue.rows[id].status.Done?)
            else row'.outcomeCode.None? && !row'.status.Done?
  {
    match call
    case Receive(_, _, _) =>
    case Take(_, _, _) =>
    case Commit(_, _) => UnrecordedStays(s, call, id, sha256);
    case Settle(_) => UnrecordedStays(s, call, id, sha256);
    case _ => RowsChangeByQueue(sha256, s, call);
  }

  lemma UnrecordedStays(s: World, call: Call, id: RowId, sha256: Hash)
    requires (call.Commit? || call.Settle?) && !Records(s, call, id)
    ensures var rows := Step(sha256, s, call).queue.rows;
            rows.Keys == s.queue.rows.Keys && (id in rows ==> rows[id] == s.queue.rows[id])
  {
    if InPhase(s, call.worker) {
      if call.Commit? && s.workers[call.worker].Applied? {
        CommitEffect(sha256, s, call);
      } else if call.Settle? && s.workers[call.worker].Ending? {
        assert Step(sha256, s, call) == SettleAttempt(s, call.worker, s.workers[call.worker].outcome);
      }
    }
  }

  // ---------------------------------------------------------------------------------------------------------------
  // What outcomes say
  // ---------------------------------------------------------------------------------------------------------------

  /** The outcomes of a processed event. */
  predicate Reflects(code: Code) {
    code.CREATED? || code.ADOPTED_NATIVE_PARTNER? || code.UPDATED? || code.STALE_VERSION? || code.ALREADY_PROJECTED?
  }

  predicate Speaks(code: Code) {
    Reflects(code) || code.VERSION_CONFLICT?
  }

  /** The mapping is at the event's version with its content, or past it; stale means past, a conflict that the content
      is another. */
  predicate Says(code: Code, c: Customer, mapped: Mapping) {
    var known := KnownVersion(mapped.version);
    && known >= c.version
    && (code.STALE_VERSION? ==> known > c.version)
    && (known == c.version ==> (mapped.digest == DigestOf(c) <==> !code.VERSION_CONFLICT?))
  }

  /** Where the placement puts the event's customer. */
  predicate KeyedBy(s: World, row: Row<Payload>, key: MapKey) {
    && row.payload.Projected? && row.tenant.Some?
    && var c := row.payload.customer;
    && (row.tenant.value, c.legalEntity) in s.placements
    && s.placements[(row.tenant.value, c.legalEntity)].instance == Some(key.instance)
    && key.legalEntity == c.legalEntity && key.customerId == c.customerId
  }

  ghost predicate Borne(s: World, row: Row<Payload>, code: Code) {
    Speaks(code) ==>
      exists key :: key in s.mappings && KeyedBy(s, row, key) && Says(code, row.payload.customer, s.mappings[key])
  }

  ghost predicate RowTrue(s: World, id: RowId)
    requires id in s.queue.rows
  {
    var row := s.queue.rows[id];
    && (row.outcomeCode.Some? ==> Borne(s, row, row.outcomeCode.value))
    && (row.status.Done? ==> row.outcomeCode.Some? && Reflects(row.outcomeCode.value))
  }

  /** An attempt that has ended with an outcome still to be recorded. */
  ghost predicate EndTrue(s: World, w: Worker)
    requires w in s.workers
  {
    s.workers[w].Ending? && InPhase(s, w) ==>
      && Borne(s, s.queue.rows[s.queue.held[w].claim.row], s.workers[w].outcome.code)
      && (s.workers[w].outcome.verdict.Processed? ==> Reflects(s.workers[w].outcome.code))
  }

  ghost predicate VerdictsTrue(s: World) {
    && (forall id {:trigger RowTrue(s, id)} :: id in s.queue.rows ==> RowTrue(s, id))
    && (forall w {:trigger EndTrue(s, w)} :: w in s.workers ==> EndTrue(s, w))
  }

  /** What an outcome says stays true: mappings only advance, placements stay. */
  lemma BorneStays(s: World, call: Call, row: Row<Payload>, row': Row<Payload>, code: Code, sha256: Hash, owner: Owner)
    requires Inv(s, sha256, owner) && Borne(s, row, code) && SameEvent(row, row')
    ensures Borne(Step(sha256, s, call), row', code)
  {
    var s' := Step(sha256, s, call);
    if Speaks(code) {
      var key :| key in s.mappings && KeyedBy(s, row, key) && Says(code, row.payload.customer, s.mappings[key]);
      StepAdvances(s, call, sha256, owner, key);
      PlacementsStay(sha256, s, call, (row.tenant.value, row.payload.customer.legalEntity));
      assert KeyedBy(s', row', key) && Says(code, row'.payload.customer, s'.mappings[key]);
    }
  }

  // ---------------------------------------------------------------------------------------------------------------
  // Attempts end with true outcomes
  // ---------------------------------------------------------------------------------------------------------------

  /** The version rule's verdict is true of the mapping it read, which is the customer's. */
  lemma RuleIsTrue(s: World, w: Worker, sha256: Hash, owner: Owner)
    requires Inv(s, sha256, owner) && InPhase(s, w) && s.workers[w].Holding?
    ensures var t := s.workers[w].task;
            var verdict := VersionRule(t.customer, Lookup(s.mappings, KeyOf(t)));
            verdict.Some? ==>
              && Borne(s, s.queue.rows[s.queue.held[w].claim.row], verdict.value.code)
              && (verdict.value.verdict.Processed? ==> Reflects(verdict.value.code))
  {
    assert TaskFits(s, w);
    var t := s.workers[w].task;
    var verdict := VersionRule(t.customer, Lookup(s.mappings, KeyOf(t)));
    if verdict.Some? {
      assert KeyedBy(s, s.queue.rows[s.queue.held[w].claim.row], KeyOf(t));
      assert Says(verdict.value.code, t.customer, s.mappings[KeyOf(t)]);
    }
  }

  predicate Mute(outcome: Outcome) {
    !Speaks(outcome.code) && !outcome.verdict.Processed?
  }

  lemma FailuresAreMute(reply: Reply)
    ensures Mute(EngineFailure(reply))
  {
  }

  ghost predicate MuteEnd(s: World, s': World, w: Worker) {
    w in s'.workers && s'.workers[w].Ending? && !(w in s.workers && s'.workers[w] == s.workers[w]) ==>
        Mute(s'.workers[w].outcome)
  }

  lemma BeginIsMute(s: World, v: Worker, contended: bool, w: Worker)
    requires InPhase(s, v)
    ensures MuteEnd(s, BeginAttempt(s, v, contended), w)
  {
  }

  lemma ProbeIsMute(s: World, v: Worker, t: Task, mapped: Option<Mapping>, session: Session, reply: Reply, w: Worker,
      sha256: Hash)
    ensures MuteEnd(s, ProbeEngine(sha256, s, v, t, mapped, session, reply), w)
  {
    FailuresAreMute(reply);
  }

  lemma UpdateIsMute(s: World, v: Worker, t: Task, n: nat, code: Code, took: bool, reply: Reply, w: Worker)
    ensures MuteEnd(s, UpdatePartner(s, v, t, n, code, took, reply), w)
  {
    FailuresAreMute(reply);
  }

  lemma CreateIsMute(s: World, v: Worker, t: Task, n: nat, groups: nat, took: bool, reply: Reply, w: Worker,
      sha256: Hash)
    ensures MuteEnd(s, CreatePartner(sha256, s, v, t, n, groups, took, reply), w)
  {
    FailuresAreMute(reply);
  }

  lemma CommitIsMute(s: World, v: Worker, t: Task, n: nat, code: Code, minted: string, w: Worker)
    requires InPhase(s, v)
    ensures MuteEnd(s, CommitProjection(s, v, t, n, code, minted), w)
  {
  }

  /** Only the comparison of versions ends an attempt with an outcome that speaks of the mapping. */
  lemma OtherEndsAreMute(s: World, call: Call, w: Worker, sha256: Hash)
    requires !call.Compare?
    ensures MuteEnd(s, Step(sha256, s, call), w)
  {
    if call.Receive? || call.Tick? || call.Place? || call.Unrelated? || call.Take? || call.Crash? {
      SurroundingsEndNone(s, call, w, sha256);
    } else if InPhase(s, call.worker) {
      WorkerEndsAreMute(s, call, w, sha256);
    }
  }

  lemma SurroundingsEndNone(s: World, call: Call, w: Worker, sha256: Hash)
    requires call.Receive? || call.Tick? || call.Place? || call.Unrelated? || call.Take? || call.Crash?
    ensures MuteEnd(s, Step(sha256, s, call), w)
  {
  }

  lemma WorkerEndsAreMute(s: World, call: Call, w: Worker, sha256: Hash)
    requires ByWorker(call) && !call.Compare?
    requires InPhase(s, call.worker)
    ensures MuteEnd(s, WorkerStep(sha256, s, call), w)
  {
    var p := s.workers[call.worker];
    match call
    case Begin(v, contended) => BeginIsMute(s, v, contended, w);
    case Probe(v, session, reply) => if p.Checked? { ProbeIsMute(s, v, p.task, p.mapped, session, reply, w, sha256); }
    case Update(v, took, reply) => if p.Found? { UpdateIsMute(s, v, p.task, p.native, p.code, took, reply, w); }
    case Create(v, n, groups, took, reply) =>
      if p.Missing? { CreateIsMute(s, v, p.task, n, groups, took, reply, w, sha256); }
    case Commit(v, minted) => if p.Applied? { CommitIsMute(s, v, p.task, p.native, p.code, minted, w); }
    case Settle(_) =>
    case Stumble(_) =>
  }

  // ---------------------------------------------------------------------------------------------------------------
  // Every call keeps what outcomes say
  // ---------------------------------------------------------------------------------------------------------------

  lemma HeldStays(s: World, call: Call, w: Worker, sha256: Hash)
    requires s.workers.Keys == s.queue.held.Keys && w in s.workers && w in Step(sha256, s, call).workers
    ensures var s' := Step(sha256, s, call); w in s'.queue.held && s'.queue.held[w] == s.queue.held[w]
  {
    match call
    case Take(_, _, _) =>
    case Commit(_, _) => EndingDropsOwn(s, call, w, sha256);
    case Settle(_) => EndingDropsOwn(s, call, w, sha256);
    case Crash(_) =>
    case Receive(_, _, _) =>
    case Tick(_) =>
    case _ => QueueStays(sha256, s, call);
  }

  lemma EndingDropsOwn(s: World, call: Call, w: Worker, sha256: Hash)
    requires (call.Commit? || call.Settle?) && s.workers.Keys == s.queue.held.Keys
    ensures var s' := Step(sha256, s, call);
        w in s'.workers ==> w in s'.queue.held && s'.queue.held[w] == s.queue.held[w]
  {
    if InPhase(s, call.worker) {
      var p := s.workers[call.worker];
      if call.Commit? && p.Applied? {
        CommitEffect(sha256, s, call);
        CommitDropsOwn(s, call.worker, p.task, p.native, p.code, call.minted, w);
      } else if call.Settle? && p.Ending? {
        assert Step(sha256, s, call) == SettleAttempt(s, call.worker, p.outcome);
      }
    }
  }

  lemma CommitDropsOwn(s: World, v: Worker, t: Task, n: nat, code: Code, minted: string, w: Worker)
    requires InPhase(s, v) && s.workers.Keys == s.queue.held.Keys
    ensures var s' := CommitProjection(s, v, t, n, code, minted);
            w in s'.workers ==> w in s'.queue.held && s'.queue.held[w] == s.queue.held[w]
  {
  }

  lemma EndsStayTrue(s: World, call: Call, w: Worker, sha256: Hash, owner: Owner)
    requires Inv(s, sha256, owner) && VerdictsTrue(s)
    requires var s' := Step(sha256, s, call); w in s'.workers && w in s.workers && s'.workers[w] == s.workers[w]
    ensures EndTrue(Step(sha256, s, call), w)
  {
    var s' := Step(sha256, s, call);
    assert EndTrue(s, w);
    HeldStays(s, call, w, sha256);
    if s.workers[w].Ending? {
      var id := s.queue.held[w].claim.row;
      assert HeldFits(s.queue, w);
      RowsStay(sha256, s, call, id);
      BorneStays(s, call, s.queue.rows[id], s'.queue.rows[id], s.workers[w].outcome.code, sha256, owner);
    }
  }

  /** A comparison that ends its attempt has read the truth. */
  lemma ComparedEndsTrue(s: World, w: Worker, sha256: Hash, owner: Owner)
    requires Inv(s, sha256, owner) && InPhase(s, w) && s.workers[w].Holding?
    ensures EndTrue(Step(sha256, s, Compare(w)), w)
  {
    var t := s.workers[w].task;
    var s' := Step(sha256, s, Compare(w));
    assert s' == CompareVersions(s, w, t);
    RuleIsTrue(s, w, sha256, owner);
    var row := s.queue.rows[s.queue.held[w].claim.row];
    var verdict := VersionRule(t.customer, Lookup(s.mappings, KeyOf(t)));
    if verdict.Some? { BorneStays(s, Compare(w), row, row, verdict.value.code, sha256, owner); }
  }

  lemma EndsTrue(s: World, call: Call, w: Worker, sha256: Hash, owner: Owner)
    requires Inv(s, sha256, owner) && VerdictsTrue(s) && w in Step(sha256, s, call).workers
    ensures EndTrue(Step(sha256, s, call), w)
  {
    var s' := Step(sha256, s, call);
    if w in s.workers && s'.workers[w] == s.workers[w] {
      EndsStayTrue(s, call, w, sha256, owner);
    } else if !call.Compare? {
      OtherEndsAreMute(s, call, w, sha256);
    } else {
      ReadingStays(sha256, s, call);
      ComparedEndsTrue(s, w, sha256, owner);
    }
  }

  /** The settlement records the attempt's outcome, or one of a budget, which says nothing. */
  lemma SettledRowTrue(s: World, w: Worker, sha256: Hash, owner: Owner)
    requires Inv(s, sha256, owner) && VerdictsTrue(s) && w in s.queue.held
        && Records(s, Settle(w), s.queue.held[w].claim.row)
    ensures RowTrue(Step(sha256, s, Settle(w)), s.queue.held[w].claim.row)
  {
    var id, outcome := s.queue.held[w].claim.row, s.workers[w].outcome;
    var s' := Step(sha256, s, Settle(w));
    assert s' == SettleAttempt(s, w, outcome);
    assert EndTrue(s, w);
    var row := s.queue.rows[id];
    var final := FailureOutcome(outcome, s.queue.held[w].claim.attempts, row.receivedAt, s.queue.now);
    assert s'.queue.rows[id] == Settled(row, final, s.queue.now);
    if Speaks(final.code) {
      assert final.code == outcome.code;
      BorneStays(s, Settle(w), row, s'.queue.rows[id], outcome.code, sha256, owner);
    }
  }

  lemma CommittedIsKeyed(s: World, call: Call, id: RowId, sha256: Hash)
    requires Steady(s) && TakesEffect(s, call) && id == s.queue.held[call.worker].claim.row
    ensures id in Step(sha256, s, call).queue.rows
    ensures KeyedBy(Step(sha256, s, call), Step(sha256, s, call).queue.rows[id], KeyOf(s.workers[call.worker].task))
  {
    var t := s.workers[call.worker].task;
    assert TaskFits(s, call.worker);
    RowsStay(sha256, s, call, id);
    PlacementsStay(sha256, s, call, (t.tenant, t.customer.legalEntity));
  }

  lemma CommittedRowTrue(s: World, call: Call, sha256: Hash, owner: Owner)
    requires Inv(s, sha256, owner) && Injective(sha256) && TakesEffect(s, call)
    ensures RowTrue(Step(sha256, s, call), s.queue.held[call.worker].claim.row)
  {
    var s' := Step(sha256, s, call);
    var t := s.workers[call.worker].task;
    var c := EffectSettlesRow(s, call, sha256);
    CommitMatchesEngine(s, call.worker, call.minted, sha256, owner);
    CommittedIsKeyed(s, call, c.row, sha256);
    assert Says(c.code, t.customer, s'.mappings[KeyOf(t)]);
  }

  lemma RowsTrue(s: World, call: Call, id: RowId, sha256: Hash, owner: Owner)
    requires Inv(s, sha256, owner) && Injective(sha256) && VerdictsTrue(s) && id in Step(sha256, s, call).queue.rows
    ensures RowTrue(Step(sha256, s, call), id)
  {
    if Records(s, call, id) {
      if call.Commit? {
        CommittedRowTrue(s, call, sha256, owner);
      } else {
        SettledRowTrue(s, call.worker, sha256, owner);
      }
    } else {
      OutcomesStay(s, call, id, sha256);
      if id in s.queue.rows {
        assert RowTrue(s, id);
        RowsStay(sha256, s, call, id);
        var row := s.queue.rows[id];
        if row.outcomeCode.Some? {
          BorneStays(s, call, row, Step(sha256, s, call).queue.rows[id], row.outcomeCode.value, sha256, owner);
        }
      }
    }
  }

  /** Over every run: each recorded outcome is true of the customer's mapping ever after. In particular no processed
      event is lost: the mapping is at its version with its content, or past it. */
  lemma {:induction false} OutcomesAreTrue(s: World, calls: seq<Call>, sha256: Hash, owner: Owner)
    requires Inv(s, sha256, owner) && Injective(sha256) && CallsOwned(calls, owner) && VerdictsTrue(s)
    ensures VerdictsTrue(Run(sha256, s, calls))
    decreases |calls|
  {
    if calls != [] {
      var s' := Step(sha256, s, calls[0]);
      StepKeeps(s, calls[0], sha256, owner);
      forall id | id in s'.queue.rows ensures RowTrue(s', id) { RowsTrue(s, calls[0], id, sha256, owner); }
      forall w | w in s'.workers ensures EndTrue(s', w) { EndsTrue(s, calls[0], w, sha256, owner); }
      OutcomesAreTrue(s', calls[1..], sha256, owner);
    }
  }

  /** No processed event is lost: its customer's mapping is there, at the event's version with its content, or past
      it. */
  lemma ProcessedIsReflected(s: World, calls: seq<Call>, id: RowId, sha256: Hash, owner: Owner)
    requires Initial(s) && Injective(sha256) && CallsOwned(calls, owner) && id in Run(sha256, s, calls).queue.rows
    ensures var s' := Run(sha256, s, calls);
            var row := s'.queue.rows[id];
            row.status.Done? || row.outcomeCode == Some(VERSION_CONFLICT) ==>
              && row.outcomeCode.Some?
              && exists key :: key in s'.mappings && KeyedBy(s', row, key)
                               && Says(row.outcomeCode.value, row.payload.customer, s'.mappings[key])
  {
    InitialFits(s, sha256, owner);
    OutcomesAreTrue(s, calls, sha256, owner);
    assert RowTrue(Run(sha256, s, calls), id);
  }
}
