/** What every run keeps of the workers, their claims and their locks, whoever sends what. */
module CustomerAttempts {
  import opened Prelude
  import opened Text
  import opened ExecutionPolicy
  import opened Inbox
  import opened InboxSupport
  import opened Customers

  predicate HasLock(phase: Phase) {
    !phase.Started? && !phase.Ending?
  }

  /** The task is its row's, placed where the placement says, and its lock is held. */
  ghost predicate TaskFits(s: World, w: Worker)
    requires w in s.workers && HasLock(s.workers[w])
  {
    var t := s.workers[w].task;
    var place := (t.tenant, t.customer.legalEntity);
    && InPhase(s, w)
    && s.queue.rows[s.queue.held[w].claim.row].payload == Projected(t.customer)
    && s.queue.rows[s.queue.held[w].claim.row].tenant == Some(t.tenant)
    && t.tenant != ""
    && place in s.placements && s.placements[place] == Placement(t.client, Some(t.instance))
    && LockKey(t) in s.locks && s.locks[LockKey(t)] == w
  }

  /** The outcomes of a commit are recorded by a commit only. */
  predicate CodeFits(phase: Phase) {
    && (phase.Ending? ==> phase.outcome.code !in SETTLED_IN_ATTEMPT)
    && (phase.Found? || phase.Applied? ==> phase.code in SETTLED_IN_ATTEMPT)
  }

  ghost predicate Steady(s: World) {
    && Sound(s.queue)
    && s.workers.Keys == s.queue.held.Keys
    && (forall w {:trigger CodeFits(s.workers[w])} :: w in s.workers ==> CodeFits(s.workers[w]))
    && (forall w {:trigger TaskFits(s, w)} :: w in s.workers && HasLock(s.workers[w]) ==> TaskFits(s, w))
  }

  /** Workers past the lock work on different customers of a tenant. */
  lemma LockIsExclusive(s: World, v: Worker, w: Worker)
    requires Steady(s) && v in s.workers && w in s.workers && HasLock(s.workers[v]) && HasLock(s.workers[w])
    requires LockKey(s.workers[v].task) == LockKey(s.workers[w].task)
    ensures v == w
  {
    assert TaskFits(s, v) && TaskFits(s, w);
  }

  // ---------------------------------------------------------------------------------------------------------------
  // Framing
  // ---------------------------------------------------------------------------------------------------------------

  predicate SameEvent(row: Row<Payload>, row': Row<Payload>) {
    row'.payload == row.payload && row'.tenant == row.tenant
  }

  /** Rows and placements that were there still are, with the same events. */
  predicate Grows(s: World, s': World) {
    && (forall id :: id in s.queue.rows ==> id in s'.queue.rows && SameEvent(s.queue.rows[id], s'.queue.rows[id]))
    && (forall place :: place in s.placements ==> place in s'.placements && s'.placements[place] == s.placements[place])
  }

  /** Another worker sees its own phase, claim and lock as before. */
  predicate Untouched(s: World, s': World, v: Worker) {
    && v in s.workers && v in s'.workers && s'.workers[v] == s.workers[v]
    && v in s.queue.held && v in s'.queue.held && s'.queue.held[v] == s.queue.held[v]
    && (HasLock(s.workers[v]) && LockKey(s.workers[v].task) in s.locks && s.locks[LockKey(s.workers[v].task)] == v ==>
          LockKey(s.workers[v].task) in s'.locks && s'.locks[LockKey(s.workers[v].task)] == v)
  }

  /** A step of worker `w` among its own phase, lock and claim; whatever it does to the engine and the tables. */
  lemma OwnStepSteady(s: World, s': World, w: Worker)
    requires Steady(s) && Grows(s, s') && Sound(s'.queue) && s'.workers.Keys == s'.queue.held.Keys
    requires forall v :: v in s'.workers && v != w ==> Untouched(s, s', v)
    requires w in s'.workers ==> CodeFits(s'.workers[w]) && (HasLock(s'.workers[w]) ==> TaskFits(s', w))
    ensures Steady(s')
  {
    forall v | v in s'.workers ensures CodeFits(s'.workers[v]) {
      if v != w { assert CodeFits(s.workers[v]); }
    }
    forall v | v in s'.workers && HasLock(s'.workers[v]) ensures TaskFits(s', v) {
      if v != w { assert TaskFits(s, v); }
    }
  }

  /** Moving on under the lock, with the same task; the engine may change at the same time. */
  lemma MoveSteady(s: World, s': World, w: Worker, phase: Phase)
    requires Steady(s) && w in s.workers && HasLock(s.workers[w]) && HasLock(phase) && phase.task == s.workers[w].task
    requires CodeFits(phase) && s' == Move(s, w, phase).(partners := s'.partners, issued := s'.issued)
    ensures Steady(s')
  {
    assert TaskFits(s, w);
    OwnStepSteady(s, s', w);
  }

  lemma EndSteady(s: World, s': World, w: Worker, outcome: Outcome)
    requires Steady(s) && w in s.workers && outcome.code !in SETTLED_IN_ATTEMPT
    requires s' == End(s, w, outcome).(partners := s'.partners, issued := s'.issued)
    ensures Steady(s')
  {
    OwnStepSteady(s, s', w);
  }

  // ---------------------------------------------------------------------------------------------------------------
  // Every call
  // ---------------------------------------------------------------------------------------------------------------

  lemma LeaveSteady(s: World, w: Worker)
    requires Steady(s)
    ensures Steady(Leave(s, w))
  {
    DropKeepsSound(s.queue, w);
    OwnStepSteady(s, Leave(s, w), w);
  }

  lemma TakeSteady(s: World, w: Worker, id: RowId, lease: Time)
    requires Steady(s) && w !in s.workers && CanTake(s.queue, w, id)
    ensures Steady(StartAttempt(s, w, id, lease))
  {
    TakeKeepsSound(s.queue, w, id, lease);
    OwnStepSteady(s, StartAttempt(s, w, id, lease), w);
  }

  lemma SettleSteady(s: World, w: Worker, outcome: Outcome)
    requires Steady(s)
    ensures Steady(SettleAttempt(s, w, outcome))
  {
    FinishKeepsSound(s.queue, w, outcome);
    OwnStepSteady(s, SettleAttempt(s, w, outcome), w);
  }

  lemma AcquireSteady(s: World, w: Worker, t: Task)
    requires Steady(s) && InPhase(s, w) && s.workers[w].Started? && LockKey(t) !in s.locks
    requires TaskFits(Acquire(s, w, t), w)
    ensures Steady(Acquire(s, w, t))
  {
    OwnStepSteady(s, Acquire(s, w, t), w);
  }

  lemma BeginSteady(s: World, w: Worker, contended: bool)
    requires Steady(s) && InPhase(s, w) && s.workers[w].Started?
    ensures Steady(BeginAttempt(s, w, contended))
  {
    var row := s.queue.rows[s.queue.held[w].claim.row];
    var s' := BeginAttempt(s, w, contended);
    if row.payload.Malformed? {
      EndSteady(s, s', w, Permanent(PAYLOAD_INVALID));
    } else if row.tenant.None? || row.tenant.value == "" {
      EndSteady(s, s', w, Permanent(TENANT_MISSING));
    } else {
      var c := row.payload.customer;
      var place := (row.tenant.value, c.legalEntity);
      if place !in s.placements || s.placements[place].instance.None? {
        EndSteady(s, s', w, Waiting(TENANT_UNMAPPED));
      } else {
        var t := Task(row.tenant.value, c, s.placements[place].client, s.placements[place].instance.value);
        if contended || LockKey(t) in s.locks {
          EndSteady(s, s', w, Contended(CUSTOMER_CONTENDED));
        } else {
          AcquireSteady(s, w, t);
        }
      }
    }
  }

  lemma CompareSteady(s: World, w: Worker)
    requires Steady(s) && InPhase(s, w) && s.workers[w].Holding?
    ensures Steady(CompareVersions(s, w, s.workers[w].task))
  {
    var t := s.workers[w].task;
    var mapped := Lookup(s.mappings, KeyOf(t));
    var s' := CompareVersions(s, w, t);
    if VersionRule(t.customer, mapped).Some? {
      EndSteady(s, s', w, VersionRule(t.customer, mapped).value);
    } else {
      MoveSteady(s, s', w, Checked(t, mapped));
    }
  }

  lemma FailureCode(reply: Reply)
    ensures EngineFailure(reply).code !in SETTLED_IN_ATTEMPT
  {
  }

  lemma ProbeSteady(s: World, w: Worker, session: Session, reply: Reply, sha256: Hash)
    requires Steady(s) && InPhase(s, w) && s.workers[w].Checked?
    ensures Steady(ProbeEngine(sha256, s, w, s.workers[w].task, s.workers[w].mapped, session, reply))
  {
    var t, mapped := s.workers[w].task, s.workers[w].mapped;
    var s' := ProbeEngine(sha256, s, w, t, mapped, session, reply);
    if !session.Ready? {
      EndSteady(s, s', w, SessionFailure(session));
    } else if reply == Refused(404) && mapped.Some? {
      EndSteady(s, s', w, Permanent(NATIVE_PARTNER_MISSING));
    } else if !reply.Answered? {
      FailureCode(reply);
      EndSteady(s, s', w, EngineFailure(reply));
    } else if mapped.Some? {
      MoveSteady(s, s', w, Found(t, mapped.value.native, UPDATED));
    } else if s'.workers[w].Ending? {
      EndSteady(s, s', w, Permanent(DUPLICATE_NATIVE_PARTNERS));
    } else {
      MoveSteady(s, s', w, s'.workers[w]);
    }
  }

  lemma UpdateSteady(s: World, w: Worker, took: bool, reply: Reply)
    requires Steady(s) && InPhase(s, w) && s.workers[w].Found?
    ensures var p := s.workers[w]; Steady(UpdatePartner(s, w, p.task, p.native, p.code, took, reply))
  {
    var p := s.workers[w];
    var s' := UpdatePartner(s, w, p.task, p.native, p.code, took, reply);
    assert CodeFits(p);
    FailureCode(reply);
    if reply.Answered? && took && p.native in s.partners {
      MoveSteady(s, s', w, Applied(p.task, p.native, p.code));
    } else {
      EndSteady(s, s', w, EngineFailure(reply));
    }
  }

  lemma CreateSteady(s: World, w: Worker, n: nat, groups: nat, took: bool, reply: Reply, sha256: Hash)
    requires Steady(s) && InPhase(s, w) && s.workers[w].Missing?
    ensures Steady(CreatePartner(sha256, s, w, s.workers[w].task, n, groups, took, reply))
  {
    var t := s.workers[w].task;
    var s' := CreatePartner(sha256, s, w, t, n, groups, took, reply);
    FailureCode(reply);
    if groups != 1 {
      EndSteady(s, s', w, Waiting(BP_GROUP_UNAVAILABLE));
    } else if !took || n in s.issued || !reply.Answered? {
      EndSteady(s, s', w, EngineFailure(reply));
    } else {
      MoveSteady(s, s', w, Applied(t, n, CREATED));
    }
  }

  lemma CommitSteady(s: World, w: Worker, minted: string)
    requires Steady(s) && InPhase(s, w) && s.workers[w].Applied?
    ensures var p := s.workers[w]; Steady(CommitProjection(s, w, p.task, p.native, p.code, minted))
  {
    var p := s.workers[w];
    if KeyOf(p.task) !in s.mappings && PublicIdTaken(s.mappings, KeyOf(p.task), minted) {
      EndSteady(s, End(s, w, UNEXPECTED), w, UNEXPECTED);
    } else if !Holds(s.queue, w) {
      LeaveSteady(s, w);
    } else {
      CommittedSteady(s, w, p.task, p.native, p.code, minted);
    }
  }

  lemma CommittedSteady(s: World, w: Worker, t: Task, n: nat, code: Code, minted: string)
    requires Steady(s) && InPhase(s, w)
    ensures Steady(Committed(s, w, t, n, code, minted))
  {
    FinishKeepsSound(s.queue, w, Processing(code));
    OwnStepSteady(s, Committed(s, w, t, n, code, minted), w);
  }

  lemma WorkerStepSteady(s: World, call: Call, sha256: Hash)
    requires Steady(s) && ByWorker(call) && InPhase(s, call.worker)
    ensures Steady(WorkerStep(sha256, s, call))
  {
    var phase := s.workers[call.worker];
    match call
    case Begin(w, contended) => if phase.Started? { BeginSteady(s, w, contended); }
    case Compare(w) => if phase.Holding? { CompareSteady(s, w); }
    case Probe(w, session, reply) => if phase.Checked? { ProbeSteady(s, w, session, reply, sha256); }
    case Update(w, took, reply) => if phase.Found? { UpdateSteady(s, w, took, reply); }
    case Create(w, n, groups, took, reply) => if phase.Missing? { CreateSteady(s, w, n, groups, took, reply, sha256); }
    case Commit(w, minted) => if phase.Applied? { CommitSteady(s, w, minted); }
    case Settle(w) => if phase.Ending? { SettleSteady(s, w, phase.outcome); }
    case Stumble(w) => EndSteady(s, End(s, w, UNEXPECTED), w, UNEXPECTED);
  }

  /** Ingress, the clock, placements and other people's partners leave the workers alone. */
  lemma BystandersSteady(s: World, s': World)
    requires Steady(s) && Grows(s, s') && Sound(s'.queue)
    requires s'.workers == s.workers && s'.locks == s.locks && s'.queue.held == s.queue.held
    ensures Steady(s')
  {
    forall w | w in s'.workers ensures CodeFits(s'.workers[w]) { assert CodeFits(s.workers[w]); }
    forall w | w in s'.workers && HasLock(s'.workers[w]) ensures TaskFits(s', w) { assert TaskFits(s, w); }
  }

  lemma ReceiveSteady(s: World, call: Call, sha256: Hash)
    requires Steady(s) && call.Receive?
    ensures Steady(Step(sha256, s, call))
  {
    ReceiveKeepsSound(s.queue, call.id, NewRow("customer.projected", call.tenant, call.payload, s.queue.now));
    BystandersSteady(s, Step(sha256, s, call));
  }

  lemma TickSteady(s: World, elapsed: Time)
    requires Steady(s)
    ensures Steady(s.(queue := s.queue.(now := s.queue.now + elapsed)))
  {
    TickKeepsSound(s.queue, elapsed);
    BystandersSteady(s, s.(queue := s.queue.(now := s.queue.now + elapsed)));
  }

  lemma SettingSteady(s: World, placements: Placements, partners: map<nat, Partner>, issued: set<nat>)
    requires Steady(s)
    requires forall place :: place in s.placements ==> place in placements && placements[place] == s.placements[place]
    ensures Steady(s.(placements := placements, partners := partners, issued := issued))
  {
    BystandersSteady(s, s.(placements := placements, partners := partners, issued := issued));
  }

  lemma StepSteady(s: World, call: Call, sha256: Hash)
    requires Steady(s)
    ensures Steady(Step(sha256, s, call))
  {
    if ByWorker(call) {
      if InPhase(s, call.worker) { WorkerStepSteady(s, call, sha256); }
    } else if call.Take? {
      if call.worker !in s.workers && CanTake(s.queue, call.worker, call.id) {
        TakeSteady(s, call.worker, call.id, call.lease);
      }
    } else if call.Crash? {
      LeaveSteady(s, call.worker);
    } else if call.Receive? {
      ReceiveSteady(s, call, sha256);
    } else if call.Tick? {
      TickSteady(s, call.elapsed);
    } else {
      var s' := Step(sha256, s, call);
      SettingSteady(s, s'.placements, s'.partners, s'.issued);
    }
  }

  /** Every interleaving, crash, lost lease and unanswered engine call keeps claims, tasks and locks in step. */
  lemma {:induction false} RunSteady(s: World, calls: seq<Call>, sha256: Hash)
    requires Steady(s)
    ensures Steady(Run(sha256, s, calls))
    decreases |calls|
  {
    if calls != [] {
      StepSteady(s, calls[0], sha256);
      RunSteady(Step(sha256, s, calls[0]), calls[1..], sha256);
    }
  }
}
