/**
 The customer executor as it runs: tables, locks and engine records are updated in place, and between any two database
 or engine calls other workers may run. Every call is shown to have the effect of the transition system's `Step`, and a
 whole attempt to be one of its runs, so the theorems about runs are theorems about this code.
 */
module CustomerExecutor {
  import opened Prelude
  import opened Text
  import opened ExecutionPolicy
  import opened Inbox
  import opened InboxSupport
  import opened DocumentRevisions
  import opened Customers

  /** The database, the engine's partners, and where each worker stands. */
  class Site {
    const sha256: Hash
    var rows: map<RowId, Row<Payload>>
    var held: map<Worker, Held>
    var history: map<RowId, History>
    var now: Time
    var placements: Placements
    var locks: Locks<CustomerKey>
    var partners: map<nat, Partner>
    var issued: set<nat>
    var mappings: map<MapKey, Mapping>
    const documents: DocumentOutcomes<PartnerDetail>
    var outbox: seq<PartnerChanged>
    var ledger: seq<Commitment>
    var workers: map<Worker, Phase>

    function Snapshot(): World
      reads this, documents
    {
      World(Queue(rows, held, history, now), placements, locks, partners, issued, mappings, documents.rows, outbox,
          ledger, workers)
    }

    constructor (sha256: Hash)
      ensures Snapshot() == World(NewQueue(), map[], map[], map[], {}, map[], map[], [], [], map[])
      ensures this.sha256 == sha256 && fresh(documents)
    {
      this.sha256 := sha256;
      rows, held, history, now := map[], map[], map[], 0;
      placements, locks, partners, issued, mappings := map[], map[], map[], {}, map[];
      documents := new DocumentOutcomes();
      outbox, ledger, workers := [], [], map[];
    }

    // -------------------------------------------------------------------------------------------------------------
    // Lock, mapping store, announcement
    // -------------------------------------------------------------------------------------------------------------

    method Unlock(w: Worker)
      modifies this`locks
      ensures locks == Released(old(locks), w)
    {
      locks := map key | key in locks && locks[key] != w :: locks[key];
    }

    method Stop(w: Worker, outcome: Outcome)
      modifies this`locks, this`workers
      ensures Snapshot() == End(old(Snapshot()), w, outcome)
    {
      Unlock(w);
      workers := workers[w := Ending(outcome)];
    }

    /** `PostgresMasterDataMappingStore.put`: the public id is minted on the first write and never touched again. */
    method Put(key: MapKey, native: nat, digest: ContentDigest, version: nat, minted: string) returns (publicId: string)
      modifies this`mappings
      ensures publicId == PublicIdOf(old(mappings), key, minted)
      ensures mappings == old(mappings)[key := Mapping(native, digest, Numeric(version), publicId)]
    {
      publicId := if key in mappings then mappings[key].publicId else minted;
      mappings := mappings[key := Mapping(native, digest, Numeric(version), publicId)];
    }

    /** `_announce_partner`: once per change, in the caller's transaction. */
    method AnnouncePartner(tenant: string, c: Customer, publicId: string)
      modifies this`outbox, documents
      ensures var (after, step) :=
                Observe(old(documents.rows), PartnerKey(tenant, publicId), c.status,
                    PartnerDetail(c.displayName, c.customerId), now);
              && documents.rows == after
              && outbox == if step.changed then old(outbox) + [PartnerChanged(tenant, publicId, step.revision, c)]
                  else old(outbox)
    {
      var step := documents.Advance(PartnerKey(tenant, publicId), c.status, PartnerDetail(c.displayName, c.customerId),
          now);
      if step.changed {
        outbox := outbox + [PartnerChanged(tenant, publicId, step.revision, c)];
      }
    }

    /** `_find_marked`: the ids an engine query for the marker returns. */
    method QueryMarked(client: nat, marker: string) returns (found: seq<nat>)
      ensures forall i, j :: 0 <= i < j < |found| ==> found[i] != found[j]
      ensures (set n | n in found) == MarkedPartners(partners, client, marker)
    {
      found := [];
      var left := partners.Keys;
      while left != {}
        invariant left <= partners.Keys
        invariant forall i, j :: 0 <= i < j < |found| ==> found[i] != found[j]
        invariant forall n :: n in found <==> n in partners && n !in left && Carries(partners[n], client, marker)
        decreases left
      {
        var n :| n in left;
        left := left - {n};
        if Carries(partners[n], client, marker) {
          found := found + [n];
        }
      }
    }

    /** The fenced settlement of a row, in the caller's transaction. */
    method Finish(w: Worker, outcome: Outcome) returns (applied: bool)
      modifies this`rows, this`held, this`history
      ensures applied <==> Holds(old(Snapshot()).queue, w)
      ensures Snapshot() == old(Snapshot()).(queue := FinishRow(old(Snapshot()).queue, w, outcome))
    {
      applied := Holds(Queue(rows, held, history, now), w);
      if applied {
        var claim := held[w].claim;
        var row := rows[claim.row];
        var final := FailureOutcome(outcome, claim.attempts, row.receivedAt, now);
        rows := rows[claim.row := Settled(row, final, now)];
        history := history[claim.row := Count(history[claim.row], outcome, final)];
      }
      held := held - {w};
    }

    // -------------------------------------------------------------------------------------------------------------
    // The calls of an attempt
    // -------------------------------------------------------------------------------------------------------------

    /** `claim`: the row is leased to the worker. */
    method Lease(w: Worker, id: RowId, lease: Time)
      requires CanTake(Queue(rows, held, history, now), w, id)
      modifies this`rows, this`held, this`history
      ensures Queue(rows, held, history, now) == TakeRow(old(Queue(rows, held, history, now)), w, id, lease)
    {
      var turn := history[id].claims + 1;
      history := history[id := history[id].(claims := turn, plain := history[id].plain && Waits(rows[id]))];
      rows := rows[id := Leased(rows[id], w, lease, now)];
      held := held[w := Held(Claimed(id, w, rows[id].attempts), turn)];
    }

    method Take(w: Worker, id: RowId, lease: Time)
      modifies this
      ensures Snapshot() == Step(sha256, old(Snapshot()), Call.Take(w, id, lease))
    {
      if w !in workers && CanTake(Queue(rows, held, history, now), w, id) {
        Lease(w, id, lease);
        workers := workers[w := Started];
      }
    }

    method Begin(w: Worker, contended: bool)
      requires InPhase(Snapshot(), w)
      modifies this`locks, this`workers
      ensures Snapshot() == BeginAttempt(old(Snapshot()), w, contended)
    {
      var row := rows[held[w].claim.row];
      if row.payload.Malformed? {
        Stop(w, Permanent(PAYLOAD_INVALID));
        return;
      }
      if row.tenant.None? || row.tenant.value == "" {
        Stop(w, Permanent(TENANT_MISSING));
        return;
      }
      var place := (row.tenant.value, row.payload.customer.legalEntity);
      if place !in placements || placements[place].instance.None? {
        Stop(w, Waiting(TENANT_UNMAPPED));
        return;
      }
      var t := Task(row.tenant.value, row.payload.customer, placements[place].client, placements[place].instance.value);
      if contended || LockKey(t) in locks {
        Stop(w, Contended(CUSTOMER_CONTENDED));
      } else {
        locks := locks[LockKey(t) := w];
        workers := workers[w := Holding(t)];
      }
    }

    method Compare(w: Worker, t: Task)
      modifies this`locks, this`workers
      ensures Snapshot() == CompareVersions(old(Snapshot()), w, t)
    {
      var mapped := if KeyOf(t) in mappings then Some(mappings[KeyOf(t)]) else None;
      if mapped.Some? {
        var known := KnownVersion(mapped.value.version);
        if t.customer.version < known {
          Stop(w, Processing(STALE_VERSION));
          return;
        }
        if t.customer.version == known {
          Stop(w, if DigestOf(t.customer) == mapped.value.digest then Processing(ALREADY_PROJECTED)
              else Permanent(VERSION_CONFLICT));
          return;
        }
      }
      workers := workers[w := Checked(t, mapped)];
    }

    method Probe(w: Worker, t: Task, mapped: Option<Mapping>, session: Session, reply: Reply)
      modifies this`locks, this`workers
      ensures Snapshot() == ProbeEngine(sha256, old(Snapshot()), w, t, mapped, session, reply)
    {
      if !session.Ready? {
        Stop(w, SessionFailure(session));
        return;
      }
      if !reply.Answered? {
        Stop(w, if reply == Refused(404) && mapped.Some? then Permanent(NATIVE_PARTNER_MISSING)
            else EngineFailure(reply));
        return;
      }
      if mapped.Some? {
        workers := workers[w := Found(t, mapped.value.native, UPDATED)];
        return;
      }
      var found := QueryMarked(t.client, MarkerOf(sha256, t));
      ghost var marked := MarkedPartners(partners, t.client, MarkerOf(sha256, t));
      if |found| > 1 {
        assert {found[0], found[1]} <= marked && |{found[0], found[1]}| == 2;
        CardinalityGrows({found[0], found[1]}, marked);
        Stop(w, Permanent(DUPLICATE_NATIVE_PARTNERS));
      } else if found == [] {
        assert marked == {};
        workers := workers[w := Missing(t)];
      } else {
        assert marked == {found[0]};
        workers := workers[w := Found(t, found[0], ADOPTED_NATIVE_PARTNER)];
      }
    }

    method Update(w: Worker, t: Task, n: nat, code: Code, took: bool, reply: Reply)
      modifies this`locks, this`workers, this`partners
      ensures Snapshot() == UpdatePartner(old(Snapshot()), w, t, n, code, took, reply)
    {
      var known := n in partners;
      if took && known {
        partners := partners[n := partners[n].(fields := FieldsOf(t.customer))];
      }
      if reply.Answered? && took && known {
        workers := workers[w := Applied(t, n, code)];
      } else {
        Stop(w, EngineFailure(reply));
      }
    }

    method Create(w: Worker, t: Task, n: nat, groups: nat, took: bool, reply: Reply)
      modifies this`locks, this`workers, this`partners, this`issued
      ensures Snapshot() == CreatePartner(sha256, old(Snapshot()), w, t, n, groups, took, reply)
    {
      if groups != 1 {
        Stop(w, Waiting(BP_GROUP_UNAVAILABLE));
        return;
      }
      var created := took && n !in issued;
      if created {
        partners := partners[n := Partner(t.client, MarkerOf(sha256, t), FieldsOf(t.customer))];
        issued := issued + {n};
      }
      if created && reply.Answered? {
        workers := workers[w := Applied(t, n, CREATED)];
      } else {
        Stop(w, EngineFailure(reply));
      }
    }

    /** The mapping and its announcement, not yet committed. */
    method RecordCommitment(c: Commitment)
      requires now == c.at
      modifies this`mappings, this`outbox, documents
      ensures Tables(mappings, documents.rows, outbox)
           == RecordProjection(old(Tables(mappings, documents.rows, outbox)), c)
    {
      var customer := c.task.customer;
      var publicId := Put(KeyOf(c.task), c.native, DigestOf(customer), customer.version, c.minted);
      AnnouncePartner(c.task.tenant, customer, publicId);
    }

    /** The transaction of `_execute`: a lost lease rolls all of it back. */
    method Transaction(w: Worker, c: Commitment) returns (applied: bool)
      requires now == c.at
      modifies this`rows, this`held, this`history, this`mappings, this`outbox, this`ledger, documents
      ensures applied <==> Holds(old(Queue(rows, held, history, now)), w)
      ensures Queue(rows, held, history, now) == FinishRow(old(Queue(rows, held, history, now)), w, Processing(c.code))
      ensures var before := old(Tables(mappings, documents.rows, outbox));
              Tables(mappings, documents.rows, outbox) == if applied then RecordProjection(before, c) else before
      ensures ledger == if applied then old(ledger) + [c] else old(ledger)
    {
      var savepoint := Tables(mappings, documents.rows, outbox);
      RecordCommitment(c);
      applied := Finish(w, Processing(c.code));
      if applied {
        ledger := ledger + [c];
      } else {
        mappings, outbox := savepoint.mappings, savepoint.outbox;
        documents.rows := savepoint.documents;
      }
    }

    method Commit(w: Worker, t: Task, n: nat, code: Code, minted: string) returns (applied: bool)
      requires InPhase(Snapshot(), w)
      modifies this, documents
      ensures Snapshot() == CommitProjection(old(Snapshot()), w, t, n, code, minted)
      ensures applied ==> Snapshot() == Committed(old(Snapshot()), w, t, n, code, minted)
      ensures !applied ==> Snapshot() == Leave(old(Snapshot()), w) || Snapshot() == End(old(Snapshot()), w, UNEXPECTED)
    {
      if KeyOf(t) !in mappings && PublicIdTaken(mappings, KeyOf(t), minted) {
        Stop(w, UNEXPECTED);
        return false;
      }
      applied := Transaction(w, Commitment(held[w].claim.row, t, n, code, minted, now));
      Unlock(w);
      workers := workers - {w};
    }

    /** `settle` for every outcome the attempt did not settle itself; false is a lost lease. */
    method Settle(w: Worker, outcome: Outcome) returns (applied: bool)
      modifies this`rows, this`held, this`history, this`workers
      ensures applied <==> Holds(old(Snapshot()).queue, w)
      ensures Snapshot() == SettleAttempt(old(Snapshot()), w, outcome)
    {
      applied := Finish(w, outcome);
      workers := workers - {w};
    }

    method Crash(w: Worker)
      modifies this`locks, this`workers, this`held
      ensures Snapshot() == Leave(old(Snapshot()), w)
    {
      Unlock(w);
      workers := workers - {w};
      held := held - {w};
    }

    method Receive(id: RowId, tenant: Option<string>, payload: Payload)
      modifies this`rows, this`history
      ensures Snapshot() == Step(sha256, old(Snapshot()), Call.Receive(id, tenant, payload))
    {
      if id !in rows {
        rows := rows[id := NewRow("customer.projected", tenant, payload, now)];
        history := history[id := History(0, 0, 0, 0, true)];
      }
    }

    /** One call of the transition system, carried out in place. */
    method Perform(call: Call)
      modifies this, documents
      ensures Snapshot() == Step(sha256, old(Snapshot()), call)
    {
      match call {
        case Receive(id, tenant, payload) => Receive(id, tenant, payload);
        case Tick(elapsed) => now := now + elapsed;
        case Place(place, placement) =>
          if place !in placements { placements := placements[place := placement]; }
        case Unrelated(n, partner) =>
          if n !in issued && !(MARKER_PREFIX <= partner.description) {
            partners := partners[n := partner];
            issued := issued + {n};
          }
        case Take(w, id, lease) => Take(w, id, lease);
        case Crash(w) => Crash(w);
        case _ =>
          if InPhase(Snapshot(), call.worker) { WorkerCall(call); }
      }
    }

    method WorkerCall(call: Call)
      requires ByWorker(call)
      requires InPhase(Snapshot(), call.worker)
      modifies this, documents
      ensures Snapshot() == WorkerStep(sha256, old(Snapshot()), call)
    {
      var phase := workers[call.worker];
      match call {
        case Begin(w, contended) => if phase.Started? { Begin(w, contended); }
        case Compare(w) => if phase.Holding? { Compare(w, phase.task); }
        case Probe(w, session, reply) => if phase.Checked? { Probe(w, phase.task, phase.mapped, session, reply); }
        case Update(w, took, reply) => if phase.Found? { Update(w, phase.task, phase.native, phase.code, took, reply); }
        case Create(w, n, groups, took, reply) => if phase.Missing? { Create(w, phase.task, n, groups, took, reply); }
        case Commit(w, minted) =>
          if phase.Applied? { var _ := Commit(w, phase.task, phase.native, phase.code, minted); }
        case Settle(w) => if phase.Ending? { var _ := Settle(w, phase.outcome); }
        case Stumble(w) => Stop(w, UNEXPECTED);
      }
    }

    /** Calls of any workers, one after another. */
    method Interleave(calls: seq<Call>)
      modifies this, documents
      ensures Snapshot() == Run(sha256, old(Snapshot()), calls)
    {
      for i := 0 to |calls|
        invariant Snapshot() == Run(sha256, old(Snapshot()), calls[..i])
      {
        Perform(calls[i]);
        RunAppends(sha256, old(Snapshot()), calls[..i], [calls[i]]);
        assert calls[..i + 1] == calls[..i] + [calls[i]];
      }
      assert calls[..|calls|] == calls;
    }

    // -------------------------------------------------------------------------------------------------------------
    // A whole attempt
    // -------------------------------------------------------------------------------------------------------------

    /** One call of worker `w`, then whatever other workers do before its next one. */
    method Turn(w: Worker, call: Call, others: seq<Call>)
      requires InPhase(Snapshot(), w) && OthersOnly(others, w)
      requires NextFor(call, w, workers[w])
      modifies this, documents
      ensures Snapshot() == Run(sha256, old(Snapshot()), [call] + others)
      ensures InPhase(Snapshot(), w) && held[w] == old(held[w])
      ensures Follows(call, workers[w])
    {
      ghost var start := Snapshot();
      Perform(call);
      OwnCallStays(sha256, start, call, w);
      ghost var after := Snapshot();
      assert InPhase(after, w) && after.queue == start.queue;
      Interleave(others);
      OthersLeaveAlone(sha256, after, others, w);
      RunStarts(sha256, start, call, others);
    }

    /** `_execute` up to its transaction: `a` has the engine's answers and the other workers' calls in between. */
    method Execute(w: Worker, a: Around) returns (ghost trace: seq<Call>)
      requires InPhase(Snapshot(), w) && workers[w].Started?
      requires forall i :: OthersOnly(a.between(i), w)
      modifies this, documents
      ensures Snapshot() == Run(sha256, old(Snapshot()), trace)
      ensures InPhase(Snapshot(), w) && held[w] == old(held[w])
      ensures workers[w].Applied? || workers[w].Ending?
    {
      ghost var start := Snapshot();
      Turn(w, Call.Begin(w, a.contended), a.between(0));
      trace := [Call.Begin(w, a.contended)] + a.between(0);
      if workers[w].Ending? {
        return;
      }
      trace := Traced(sha256, start, trace, [Call.Compare(w)] + a.between(1));
      Turn(w, Call.Compare(w), a.between(1));
      if workers[w].Ending? {
        return;
      }
      trace := Traced(sha256, start, trace, [Call.Probe(w, a.session, a.reading)] + a.between(2));
      Turn(w, Call.Probe(w, a.session, a.reading), a.between(2));
      if workers[w].Ending? {
        return;
      }
      var write := if workers[w].Found? then Call.Update(w, a.took, a.writing)
          else Call.Create(w, a.native, a.groups, a.took, a.writing);
      trace := Traced(sha256, start, trace, [write] + a.between(3));
      Turn(w, write, a.between(3));
    }

    /** `run_claim`: one attempt under `settle`. `recorded` is whether it settled the row; it did not if the lease was
        lost. */
    method RunClaim(w: Worker, a: Around) returns (outcome: Outcome, recorded: bool, ghost trace: seq<Call>)
      requires InPhase(Snapshot(), w) && workers[w].Started? && held[w].claim.attempts >= 1
      requires forall i :: OthersOnly(a.between(i), w)
      modifies this, documents
      ensures Snapshot() == Run(sha256, old(Snapshot()), trace)
      ensures w !in workers && w !in held
      ensures recorded ==>
                var id := old(held[w]).claim.row;
                && id in rows && rows[id].claimedBy.None?
                && rows[id].status == StatusOf(outcome.verdict) && rows[id].outcomeCode == Some(outcome.code)
      ensures recorded || outcome.code in {LEASE_LOST, UNEXPECTED_ERROR, ATTEMPTS_EXHAUSTED}
    {
      ghost var start := Snapshot();
      trace := Execute(w, a);
      if workers[w].Applied? {
        var phase := workers[w];
        trace := Traced(sha256, start, trace, [Call.Commit(w, a.minted)]);
        ghost var before := Snapshot();
        recorded := Commit(w, phase.task, phase.native, phase.code, a.minted);
        CommitEffect(sha256, before, Call.Commit(w, a.minted));
        RunOne(sha256, before, Call.Commit(w, a.minted));
        if recorded {
          return Processing(phase.code), true, trace;
        }
        if w !in workers {
          return Outcome(Retry, LEASE_LOST, None, false), false, trace;
        }
      }
      outcome, recorded := SettleOutcome(w, workers[w].outcome);
      trace := Traced(sha256, start, trace, [Call.Settle(w)]);
    }

    method SettleOutcome(w: Worker, ending: Outcome) returns (outcome: Outcome, recorded: bool)
      requires InPhase(Snapshot(), w) && workers[w] == Ending(ending) && held[w].claim.attempts >= 1
      modifies this`rows, this`held, this`history, this`workers
      ensures Snapshot() == Run(sha256, old(Snapshot()), [Call.Settle(w)])
      ensures w !in workers && w !in held
      ensures recorded ==>
                var id := old(held[w]).claim.row;
                && id in rows && rows[id].claimedBy.None?
                && rows[id].status == StatusOf(outcome.verdict) && rows[id].outcomeCode == Some(outcome.code)
      ensures recorded || outcome.code in {LEASE_LOST, UNEXPECTED_ERROR, ATTEMPTS_EXHAUSTED}
    {
      ghost var before := Snapshot();
      var claim := held[w].claim;
      outcome := FailureOutcome(ending, claim.attempts, rows[claim.row].receivedAt, now);
      recorded := Settle(w, ending);
      if !recorded && ending != UNEXPECTED {
        outcome := Outcome(Retry, LEASE_LOST, None, false);
      }
      assert Snapshot() == Step(sha256, before, Call.Settle(w));
      RunOne(sha256, before, Call.Settle(w));
    }
  }

  /** The engine's answers during one attempt, and the calls of other workers that fall between its own. */
  datatype Around = Around(
    contended: bool,
    session: Session,
    reading: Reply,
    native: nat,
    groups: nat,
    took: bool,
    writing: Reply,
    minted: string,
    between: nat -> seq<Call>)

  predicate ByOther(call: Call, w: Worker) {
    call.Receive? || call.Tick? || call.Place? || call.Unrelated? || call.worker != w
  }

  predicate OthersOnly(calls: seq<Call>, w: Worker) {
    forall i :: 0 <= i < |calls| ==> ByOther(calls[i], w)
  }

  /** The worker is where it was, with the same claim. */
  ghost predicate Abreast(s: World, s': World, w: Worker)
    requires InPhase(s, w)
  {
    InPhase(s', w) && s'.workers[w] == s.workers[w] && s'.queue.held[w] == s.queue.held[w]
  }

  /** The call that comes next in a phase, and the phases it can lead to. */
  predicate NextFor(call: Call, w: Worker, phase: Phase) {
    match call
    case Begin(v, _) => v == w && phase.Started?
    case Compare(v) => v == w && phase.Holding?
    case Probe(v, _, _) => v == w && phase.Checked?
    case Update(v, _, _) => v == w && phase.Found?
    case Create(v, _, _, _, _) => v == w && phase.Missing?
    case _ => false
  }

  predicate Follows(call: Call, phase: Phase) {
    || phase.Ending?
    || (call.Begin? && phase.Holding?)
    || (call.Compare? && phase.Checked?)
    || (call.Probe? && (phase.Found? || phase.Missing?))
    || ((call.Update? || call.Create?) && phase.Applied?)
  }

  lemma OwnCallStays(sha256: Hash, s: World, call: Call, w: Worker)
    requires InPhase(s, w) && NextFor(call, w, s.workers[w])
    ensures InPhase(Step(sha256, s, call), w)
    ensures Step(sha256, s, call).queue == s.queue
    ensures Follows(call, Step(sha256, s, call).workers[w])
  {
    var phase, s' := s.workers[w], WorkerStep(sha256, s, call);
    assert Step(sha256, s, call) == s';
    match call
    case Begin(_, contended) =>
      assert s' == BeginAttempt(s, w, contended);
      BeginFollows(s, w, contended);
    case Compare(_) => assert s' == CompareVersions(s, w, phase.task) && OnBoard(s, s', w);
    case Probe(_, session, reply) =>
      assert s' == ProbeEngine(sha256, s, w, phase.task, phase.mapped, session, reply);
      ProbeFollows(sha256, s, w, phase.task, phase.mapped, session, reply);
    case _ => OwnWriteStays(sha256, s, call, w);
  }

  lemma BeginFollows(s: World, w: Worker, contended: bool)
    requires InPhase(s, w)
    ensures var s' := BeginAttempt(s, w, contended);
        OnBoard(s, s', w) && (s'.workers[w].Holding? || s'.workers[w].Ending?)
  {
  }

  lemma ProbeFollows(sha256: Hash, s: World, w: Worker, t: Task, mapped: Option<Mapping>, session: Session,
      reply: Reply)
    ensures var s' := ProbeEngine(sha256, s, w, t, mapped, session, reply);
            OnBoard(s, s', w) && (s'.workers[w].Found? || s'.workers[w].Missing? || s'.workers[w].Ending?)
  {
  }

  lemma OwnWriteStays(sha256: Hash, s: World, call: Call, w: Worker)
    requires InPhase(s, w) && NextFor(call, w, s.workers[w]) && (call.Update? || call.Create?)
    ensures InPhase(WorkerStep(sha256, s, call), w)
    ensures WorkerStep(sha256, s, call).queue == s.queue
    ensures Follows(call, WorkerStep(sha256, s, call).workers[w])
  {
    var phase := s.workers[w];
    if call.Update? {
      UpdateFollows(s, w, phase.task, phase.native, phase.code, call.took, call.reply);
    } else {
      CreateFollows(sha256, s, w, phase.task, call.native, call.groups, call.took, call.reply);
    }
  }

  lemma UpdateFollows(s: World, w: Worker, t: Task, n: nat, code: Code, took: bool, reply: Reply)
    ensures var s' := UpdatePartner(s, w, t, n, code, took, reply);
            s'.queue == s.queue && w in s'.workers && (s'.workers[w].Applied? || s'.workers[w].Ending?)
  {
  }

  lemma CreateFollows(sha256: Hash, s: World, w: Worker, t: Task, n: nat, groups: nat, took: bool, reply: Reply)
    ensures var s' := CreatePartner(sha256, s, w, t, n, groups, took, reply);
            s'.queue == s.queue && w in s'.workers && (s'.workers[w].Applied? || s'.workers[w].Ending?)
  {
  }

  lemma OnBoardLeavesAlone(s: World, s': World, v: Worker, w: Worker)
    requires InPhase(s, w) && v != w && OnBoard(s, s', v)
    ensures Abreast(s, s', w)
  {
  }

  lemma WritesLeaveAlone(sha256: Hash, s: World, call: Call, w: Worker)
    requires (call.Update? || call.Create?) && InPhase(s, w) && InPhase(s, call.worker) && call.worker != w
    ensures Abreast(s, WorkerStep(sha256, s, call), w)
  {
    var v, phase, s' := call.worker, s.workers[call.worker], WorkerStep(sha256, s, call);
    if call.Update? && phase.Found? {
      var written := Written(s, phase.native, FieldsOf(phase.task.customer));
      if OnBoard(written, s', v) { OnBoardLeavesAlone(written, s', v, w); } else { OnBoardLeavesAlone(s, s', v, w); }
    } else if call.Create? && phase.Missing? {
      var created := Created(sha256, s, phase.task, call.native);
      if OnBoard(s, s', v) { OnBoardLeavesAlone(s, s', v, w); } else { OnBoardLeavesAlone(created, s', v, w); }
    }
  }

  lemma EndsLeaveAlone(sha256: Hash, s: World, call: Call, w: Worker)
    requires (call.Commit? || call.Settle? || call.Stumble?) && InPhase(s, w) && InPhase(s, call.worker)
        && call.worker != w
    ensures Abreast(s, WorkerStep(sha256, s, call), w)
  {
    var v, phase, s' := call.worker, s.workers[call.worker], WorkerStep(sha256, s, call);
    if call.Commit? && phase.Applied? {
      assert s' == CommitProjection(s, v, phase.task, phase.native, phase.code, call.minted);
      if OnBoard(s, s', v) {
        OnBoardLeavesAlone(s, s', v, w);
      } else if s' != Leave(s, v) {
        assert s' == Committed(s, v, phase.task, phase.native, phase.code, call.minted);
        assert s'.queue == FinishRow(s.queue, v, Processing(phase.code)) && s'.workers == s.workers - {v};
      }
    } else if call.Settle? && phase.Ending? {
      assert s' == SettleAttempt(s, v, phase.outcome);
    } else if call.Stumble? {
      OnBoardLeavesAlone(s, s', v, w);
    }
  }

  lemma OtherWorkerLeavesAlone(sha256: Hash, s: World, call: Call, w: Worker)
    requires InPhase(s, w) && ByOther(call, w)
    requires ByWorker(call)
    requires InPhase(s, call.worker)
    ensures Abreast(s, WorkerStep(sha256, s, call), w)
  {
    var v, phase, s' := call.worker, s.workers[call.worker], WorkerStep(sha256, s, call);
    match call
    case Begin(_, _) => if phase.Started? { OnBoardLeavesAlone(s, s', v, w); }
    case Compare(_) => if phase.Holding? { OnBoardLeavesAlone(s, s', v, w); }
    case Probe(_, _, _) => if phase.Checked? { OnBoardLeavesAlone(s, s', v, w); }
    case Update(_, _, _) => WritesLeaveAlone(sha256, s, call, w);
    case Create(_, _, _, _, _) => WritesLeaveAlone(sha256, s, call, w);
    case _ => EndsLeaveAlone(sha256, s, call, w);
  }

  lemma OtherCallLeavesAlone(sha256: Hash, s: World, call: Call, w: Worker)
    requires InPhase(s, w) && ByOther(call, w)
    ensures Abreast(s, Step(sha256, s, call), w)
  {
    match call
    case Receive(_, _, _) =>
    case Tick(_) =>
    case Place(_, _) =>
    case Unrelated(_, _) =>
    case Take(_, _, _) =>
    case Crash(_) =>
    case _ => if InPhase(s, call.worker) { OtherWorkerLeavesAlone(sha256, s, call, w); }
  }

  /** A worker's phase and claim are its own. */
  lemma {:induction false} OthersLeaveAlone(sha256: Hash, s: World, calls: seq<Call>, w: Worker)
    requires InPhase(s, w) && OthersOnly(calls, w)
    ensures Abreast(s, Run(sha256, s, calls), w)
    decreases |calls|
  {
    if calls != [] {
      OtherCallLeavesAlone(sha256, s, calls[0], w);
      OthersLeaveAlone(sha256, Step(sha256, s, calls[0]), calls[1..], w);
    }
  }

  /** A run continued by `more`. */
  ghost function Traced(sha256: Hash, s: World, trace: seq<Call>, more: seq<Call>): (longer: seq<Call>)
    ensures Run(sha256, s, longer) == Run(sha256, Run(sha256, s, trace), more)
  {
    RunAppends(sha256, s, trace, more);
    trace + more
  }
}
