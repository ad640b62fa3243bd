/**
 What went wrong, and what becomes of it: over every run an operation carries a code only if a call of its own pass met
 what the code says, and what a pass meets is recorded as the code demands, a failure, a block or another try.
 */
module ProvisioningAnswers {
  import opened Prelude
  import opened RequestState
  import opened ProvisioningPlan
  import opened Provisioning
  import CommandState
  import ExecutionPolicy
  import opened ProvisioningTheorems
  import opened ProvisioningOutcomes

  // ---------------------------------------------------------------------------------------------------------------
  // What each code stands for
  // ---------------------------------------------------------------------------------------------------------------

  /** A refusal that may pass: the engine is down, slow, early or busy. */
  predicate Passing(status: nat) {
    status >= 500 || status == 408 || status == 425 || status == 429
  }

  /** The trouble the call itself brings. */
  function Told(call: Call): Option<Trouble> {
    match call
    case Stumble(_, trouble) => Some(trouble)
    case Look(_, reply) => reply
    case Make(_, _, _, reply) => reply
    case _ => None
  }

  function PassOf(w: World, pid: Pid): Pass
    requires At(w, pid)
  {
    w.ops[pid].pass.value
  }

  /** The stored request, as the verification reads it. */
  function StoredRequest(p: Pass, digest: Digest, order: Iteration): Read<Request> {
    VerifiedRequest(p.state, p.digest, digest, order)
  }

  /** The stored request is the accepted one and passes validation. */
  predicate Valid(p: Pass, valid: bool, digest: Digest, order: Iteration) {
    StoredRequest(p, digest, order).Ok? && valid && UniqueMarkets(StoredRequest(p, digest, order).value)
  }

  predicate PlanAsStored(p: Pass, digest: Digest, order: Iteration)
    requires StoredRequest(p, digest, order).Ok?
  {
    p.plan == PlanOf(StoredRequest(p, digest, order).value, digest, order).steps
  }

  /** Nothing about the operation itself stands in the pass's way. */
  predicate Sound(p: Pass, valid: bool, digest: Digest, order: Iteration) {
    Valid(p, valid, digest, order) && PlanAsStored(p, digest, order)
  }

  /** Too long for the engine's Description column once it is made a marker. */
  predicate TooLong(key: string) {
    |MARKER_PREFIX| + |key| > 255
  }

  /** The step creates a record, and the operation knows of none yet. */
  predicate Seeks(w: World, pid: Pid) {
    MidStep(w, pid) && Creates(HeadOf(w, pid)) && ResourceKey(HeadOf(w, pid)) !in w.ops[pid].natives
  }

  /** The step's create. */
  predicate Makes(w: World, pid: Pid) {
    MidStep(w, pid) && Creates(HeadOf(w, pid))
  }

  predicate CarriesMarker(w: World, k: RecordKey, p: Pass)
    requires p.pending != [] && p.request.Some? && Creates(p.pending[0])
  {
    && k in w.records && k.instance == p.request.value.instance && k.table == TableOf(p.pending[0])
    && !TooLong(p.pending[0].key) && w.records[k].description == MARKER_PREFIX + p.pending[0].key
  }

  ghost predicate SeveralRecords(w: World, p: Pass)
    requires p.pending != [] && p.request.Some? && Creates(p.pending[0])
  {
    exists k, l :: k != l && CarriesMarker(w, k, p) && CarriesMarker(w, l, p)
  }

  /** The tenant is mapped elsewhere, or somebody else has the client. */
  ghost predicate MappedElsewhere(w: World, o: Operation, p: Pass)
    requires p.pending != [] && p.pending[0].detail.MappingDetail?
  {
    && CLIENT_ALIAS in o.natives && !Blank(p.pending[0].detail.instance)
    && var d := p.pending[0].detail;
    && var row := TenantRow(o.natives[CLIENT_ALIAS], 0, d.instance);
    if (d.tenant, d.legalEntity) in w.tenants then w.tenants[(d.tenant, d.legalEntity)] != row
    else exists place :: place in w.tenants && w.tenants[place].client == row.client && w.tenants[place].org == row.org
  }

  /** Every resource of the plan has its native id. */
  predicate AllMappedIn(o: Operation, p: Pass) {
    forall s :: s in p.plan ==> ResourceKey(s) in o.natives
  }

  /** The call of the pass met what the code says. */
  ghost predicate Cause(w: World, call: Call, code: Code, digest: Digest, order: Iteration)
    requires ByPass(call) && At(w, call.pid)
  {
    var o, p := w.ops[call.pid], PassOf(w, call.pid);
    match code
    case ENGINE_UNCONFIGURED =>
      Told(call) == Some(NoEngine) || (call.Verify? && Sound(p, call.valid, digest, order) && !call.engine)
    case PROCESS_UNCONFIGURED =>
      || Told(call) == Some(NoProcess)
      || (call.Verify? && Sound(p, call.valid, digest, order) && call.engine && !call.processes)
    case ENGINE_AUTH => Told(call) == Some(AuthRefused)
    case ENGINE_REJECTED => Told(call).Some? && Told(call).value.Refused? && !Passing(Told(call).value.status)
    case ENGINE_UNAVAILABLE =>
      || Told(call) == Some(Unreachable)
      || (Told(call).Some? && Told(call).value.Refused? && Passing(Told(call).value.status))
      || (call.Make? && call.reply.None? && Makes(w, call.pid) && !TooLong(p.pending[0].key)
          && (call.took ==> RecordKey(p.request.value.instance, TableOf(p.pending[0]), call.id) in w.records))
    case DUPLICATE_NATIVE_RECORDS =>
      || Told(call) == Some(Duplicates)
      || (call.Look? && call.reply.None? && Seeks(w, call.pid) && SeveralRecords(w, p))
    case TENANT_MAPPING_CONFLICT =>
      || Told(call) == Some(MappingClash)
      || (call.Map? && MidStep(w, call.pid) && p.pending[0].detail.MappingDetail? && MappedElsewhere(w, o, p))
    case WAREHOUSE_IDENTITY_CONFLICT => Told(call) == Some(IdentityClash) || (call.Reconcile? && call.clash)
    case STATE_UNREADABLE =>
      || Told(call) == Some(UnreadableState)
      || (call.Verify? && StoredRequest(p, digest, order).Err? && !StoredRequest(p, digest, order).error.Drift?)
    case STATE_DRIFT =>
      || Told(call) == Some(DriftedState)
      || (call.Verify? && StoredRequest(p, digest, order).Err? && StoredRequest(p, digest, order).error.Drift?)
      || (call.Verify? && Valid(p, call.valid, digest, order) && !PlanAsStored(p, digest, order))
    case STEP_INVALID =>
      || Told(call) == Some(Invalid)
      || (call.Verify? && StoredRequest(p, digest, order).Ok? && !Valid(p, call.valid, digest, order))
      || (call.Look? && Seeks(w, call.pid) && TooLong(p.pending[0].key))
      || (call.Make? && Makes(w, call.pid) && TooLong(p.pending[0].key))
      || (call.Map? && p.pending != [] && p.pending[0].detail.MappingDetail?
          && (CLIENT_ALIAS !in o.natives || Blank(p.pending[0].detail.instance)))
    case UNEXPECTED_ERROR => Told(call) == Some(Unexpected)
    case READY => call.Check? && call.valid && call.healthy && AllMappedIn(o, p)
    case NOT_READY => call.Check? && !(call.valid && call.healthy && AllMappedIn(o, p))
    case _ => false
  }

  /** Ready, tried again, put on hold, or failed for good. */
  function VerdictFor(code: Code): Verdict {
    match code
    case READY => Finished
    case NOT_READY => Retry
    case ENGINE_UNAVAILABLE => Retry
    case UNEXPECTED_ERROR => Retry
    case ENGINE_UNCONFIGURED => Blocked
    case PROCESS_UNCONFIGURED => Blocked
    case ENGINE_AUTH => Blocked
    case _ => Fail
  }

  predicate Shaped(outcome: Outcome) {
    outcome == Outcome(VerdictFor(outcome.code), outcome.code, None)
  }

  predicate EndsHere(o: Operation, o': Operation) {
    && o'.pass.Some? && o'.pass.value.at.Ending?
    && !(o.pass.Some? && o.pass.value.at == o'.pass.value.at)
  }

  /** If the pass ends with this call, the call met what its code says. */
  ghost predicate Explained(w: World, call: Call, o': Operation, digest: Digest, order: Iteration)
    requires ByPass(call) && At(w, call.pid)
  {
    EndsHere(w.ops[call.pid], o') ==>
      Shaped(o'.pass.value.at.outcome) && Cause(w, call, o'.pass.value.at.outcome.code, digest, order)
  }

  // ---------------------------------------------------------------------------------------------------------------
  // Every end of a pass is explained
  // ---------------------------------------------------------------------------------------------------------------

  lemma ToldIsExplained(w: World, call: Call, t: Trouble, digest: Digest, order: Iteration)
    requires ByPass(call) && At(w, call.pid) && Told(call) == Some(t)
    ensures Explained(w, call, Troubled(w.ops[call.pid], t), digest, order)
  {
  }

  lemma MovedIsExplained(w: World, call: Call, at: Point, digest: Digest, order: Iteration)
    requires ByPass(call) && At(w, call.pid) && !at.Ending?
    ensures Explained(w, call, MoveTo(w.ops[call.pid], at), digest, order)
  {
  }

  lemma TroubleIsExplained(w: World, call: Call, t: Trouble, digest: Digest, order: Iteration)
    requires ByPass(call) && At(w, call.pid)
    requires Cause(w, call, Classify(t).code, digest, order)
    ensures Explained(w, call, Troubled(w.ops[call.pid], t), digest, order)
  {
  }

  lemma ObstacleMeans(p: Pass, call: Call, digest: Digest, order: Iteration)
    requires call.Verify? && Obstacle(p, call.valid, call.engine, call.processes, digest, order).Some?
    ensures var read := StoredRequest(p, digest, order);
            match Obstacle(p, call.valid, call.engine, call.processes, digest, order).value
            case UnreadableState => read.Err? && !read.error.Drift?
            case DriftedState =>
              || (read.Err? && read.error.Drift?)
              || (Valid(p, call.valid, digest, order) && !PlanAsStored(p, digest, order))
            case Invalid => read.Ok? && !Valid(p, call.valid, digest, order)
            case NoEngine => Sound(p, call.valid, digest, order) && !call.engine
            case NoProcess => Sound(p, call.valid, digest, order) && call.engine && !call.processes
            case _ => false
  {
  }

  lemma ObstacleIsCause(w: World, call: Call, t: Trouble, digest: Digest, order: Iteration)
    requires call.Verify? && At(w, call.pid)
    requires Obstacle(PassOf(w, call.pid), call.valid, call.engine, call.processes, digest, order) == Some(t)
    ensures Cause(w, call, Classify(t).code, digest, order)
  {
    ObstacleMeans(PassOf(w, call.pid), call, digest, order);
    match t
    case UnreadableState => assert Cause(w, call, STATE_UNREADABLE, digest, order);
    case DriftedState => assert Cause(w, call, STATE_DRIFT, digest, order);
    case Invalid => assert Cause(w, call, STEP_INVALID, digest, order);
    case NoEngine => assert Cause(w, call, ENGINE_UNCONFIGURED, digest, order);
    case NoProcess => assert Cause(w, call, PROCESS_UNCONFIGURED, digest, order);
    case _ =>
  }

  lemma VerifyIsExplained(w: World, call: Call, digest: Digest, order: Iteration)
    requires call.Verify? && At(w, call.pid)
    ensures Explained(w, call, VerifyPass(w.ops[call.pid], call.valid, call.engine, call.processes, digest, order),
        digest, order)
  {
    var o, p := w.ops[call.pid], PassOf(w, call.pid);
    var obstacle := Obstacle(p, call.valid, call.engine, call.processes, digest, order);
    if obstacle.Some? {
      ObstacleIsCause(w, call, obstacle.value, digest, order);
      TroubleIsExplained(w, call, obstacle.value, digest, order);
    } else {
      StartedHasNotEnded(o, VerifiedRequest(p.state, p.digest, digest, order).value, Pending(p.plan, o.completed));
    }
  }

  lemma StartedHasNotEnded(o: Operation, request: Request, pending: seq<Step>)
    requires o.pass.Some?
    ensures !EndsHere(o, StartedRow(o, request, pending))
  {
  }

  lemma MarkersSeen(w: World, p: Pass)
    requires p.pending != [] && p.request.Some? && Creates(p.pending[0]) && Marker(p.pending[0].key).Some?
    ensures var marked := Marked(w.records, p.request.value.instance, TableOf(p.pending[0]),
                Marker(p.pending[0].key).value);
            |marked| > 1 <==> SeveralRecords(w, p)
  {
    var marked := Marked(w.records, p.request.value.instance, TableOf(p.pending[0]), Marker(p.pending[0].key).value);
    if |marked| > 1 {
      var k :| k in marked;
      assert |marked - {k}| >= 1;
      var l :| l in marked - {k};
      assert CarriesMarker(w, k, p) && CarriesMarker(w, l, p);
    }
    if k, l :| k != l && CarriesMarker(w, k, p) && CarriesMarker(w, l, p) {
      CardinalityGrows({k, l}, marked);
    }
  }

  lemma LookIsExplained(w: World, call: Call, digest: Digest, order: Iteration)
    requires call.Look? && MidStep(w, call.pid)
    ensures Explained(w, call, LookUp(w, call.pid, call.reply), digest, order)
  {
    var o, step := w.ops[call.pid], HeadOf(w, call.pid);
    if call.reply.Some? {
      ToldIsExplained(w, call, call.reply.value, digest, order);
    }
    if Creates(step) && ResourceKey(step) !in o.natives {
      if Marker(step.key).None? {
        TroubleIsExplained(w, call, Invalid, digest, order);
      } else if call.reply.None? {
        SearchIsExplained(w, call, digest, order);
      }
    }
  }

  lemma SearchIsExplained(w: World, call: Call, digest: Digest, order: Iteration)
    requires call.Look? && call.reply.None? && MidStep(w, call.pid) && Creates(HeadOf(w, call.pid))
    requires ResourceKey(HeadOf(w, call.pid)) !in w.ops[call.pid].natives && Marker(HeadOf(w, call.pid).key).Some?
    ensures Explained(w, call, LookUp(w, call.pid, None), digest, order)
  {
    var p, step := PassOf(w, call.pid), HeadOf(w, call.pid);
    MarkersSeen(w, p);
    var marked := Marked(w.records, p.request.value.instance, TableOf(step), Marker(step.key).value);
    if |marked| > 1 { TroubleIsExplained(w, call, Duplicates, digest, order); }
  }

  lemma MakeIsExplained(w: World, call: Call, digest: Digest, order: Iteration)
    requires call.Make? && MidStep(w, call.pid) && Creates(HeadOf(w, call.pid))
    ensures Explained(w, call, MakeRecord(w, call.pid, call.id, call.took, call.reply).ops[call.pid], digest, order)
  {
    var step := HeadOf(w, call.pid);
    if Marker(step.key).None? {
      TroubleIsExplained(w, call, Invalid, digest, order);
    } else if call.reply.Some? {
      ToldIsExplained(w, call, call.reply.value, digest, order);
    } else if !(call.took && KeyFor(w.ops[call.pid], call.id) !in w.records) {
      TroubleIsExplained(w, call, Unreachable, digest, order);
    }
  }

  lemma MapIsExplained(w: World, call: Call, digest: Digest, order: Iteration)
    requires call.Map? && MidStep(w, call.pid) && HeadOf(w, call.pid).detail.MappingDetail?
    ensures Explained(w, call, MapTenant(w, call.pid).ops[call.pid], digest, order)
  {
    var o, d := w.ops[call.pid], HeadOf(w, call.pid).detail;
    if CLIENT_ALIAS !in o.natives || Blank(d.instance) {
      TroubleIsExplained(w, call, Invalid, digest, order);
    } else if MappedElsewhere(w, o, PassOf(w, call.pid)) {
      TroubleIsExplained(w, call, MappingClash, digest, order);
    }
  }

  lemma ReconcileIsExplained(w: World, call: Call, digest: Digest, order: Iteration)
    requires call.Reconcile? && At(w, call.pid)
    ensures Explained(w, call, StartReconciling(w.ops[call.pid], call.clash), digest, order)
  {
    if call.clash { TroubleIsExplained(w, call, IdentityClash, digest, order); }
  }

  lemma CheckIsExplained(w: World, call: Call, digest: Digest, order: Iteration)
    requires call.Check? && At(w, call.pid)
    ensures Explained(w, call, CheckPass(w.ops[call.pid], call.valid, call.healthy), digest, order)
  {
  }

  /** Inside a step. */
  lemma StepIsExplained(w: World, call: Call, digest: Digest, order: Iteration)
    requires ByPass(call) && OfStep(call) && At(w, call.pid)
    ensures call.pid in PassStep(w, call, digest, order).ops
    ensures Explained(w, call, PassStep(w, call, digest, order).ops[call.pid], digest, order)
  {
    var point := PointOf(w, call.pid);
    match call
    case Look(pid, _) => if point.Ahead? && MidStep(w, pid) { LookIsExplained(w, call, digest, order); }
    case Make(pid, _, _, _) =>
      if point.Absent? && MidStep(w, pid) && Creates(HeadOf(w, pid)) { MakeIsExplained(w, call, digest, order); }
    case Put(_) =>
    case Alias(_) =>
    case Mark(_) =>
    case Map(pid) =>
      if point.Known? && MidStep(w, pid) && HeadOf(w, pid).detail.MappingDetail? {
        MapIsExplained(w, call, digest, order);
      }
  }

  lemma PassIsExplained(w: World, call: Call, digest: Digest, order: Iteration)
    requires ByPass(call) && At(w, call.pid)
    ensures call.pid in PassStep(w, call, digest, order).ops
    ensures Explained(w, call, PassStep(w, call, digest, order).ops[call.pid], digest, order)
  {
    var point := PointOf(w, call.pid);
    match call
    case Verify(_, _, _, _) => if point.Begun? { VerifyIsExplained(w, call, digest, order); }
    case Reconcile(_, _) =>
      if point.Ahead? && PassOf(w, call.pid).pending == [] { ReconcileIsExplained(w, call, digest, order); }
    case Check(_, _, _) => if point.Checking? { CheckIsExplained(w, call, digest, order); }
    case Settle(_) =>
    case Conclude(_) =>
    case Stumble(_, trouble) =>
      if !point.Ending? && !point.Failing? { ToldIsExplained(w, call, trouble, digest, order); }
    case _ => StepIsExplained(w, call, digest, order);
  }

  // ---------------------------------------------------------------------------------------------------------------
  // No code without its cause
  // ---------------------------------------------------------------------------------------------------------------

  /** The i-th call of the run, of this operation's pass, met what the code says. */
  ghost predicate CausedAt(calls: seq<Call>, i: nat, pid: Pid, code: Code, digest: Digest, order: Iteration)
    requires i < |calls|
  {
    var w := Run(NOTHING, calls[..i], digest, order);
    ByPass(calls[i]) && calls[i].pid == pid && At(w, pid) && Cause(w, calls[i], code, digest, order)
  }

  ghost predicate CausedBy(calls: seq<Call>, n: nat, pid: Pid, code: Code, digest: Digest, order: Iteration)
    requires n <= |calls|
  {
    exists i :: 0 <= i < n && CausedAt(calls, i, pid, code, digest, order)
  }

  lemma CausedLater(calls: seq<Call>, n: nat, pid: Pid, code: Code, digest: Digest, order: Iteration)
    requires n < |calls| && CausedBy(calls, n, pid, code, digest, order)
    ensures CausedBy(calls, n + 1, pid, code, digest, order)
  {
    var i :| 0 <= i < n && CausedAt(calls, i, pid, code, digest, order);
  }

  /** A recorded code other than a spent budget. */
  predicate Names(recorded: Option<Code>, code: Code) {
    recorded == Some(code) && !Budget(code)
  }

  predicate Ends(o: Operation, code: Code) {
    o.pass.Some? && o.pass.value.at.Ending? && o.pass.value.at.outcome.code == code
  }

  predicate Fails(o: Operation, code: Code) {
    o.pass.Some? && o.pass.value.at.Failing? && Names(Some(o.pass.value.at.code), code)
  }

  /** The operation carries the code, in its row or in its pass; being ready carries that. */
  predicate Carries(o: Operation, code: Code) {
    || Names(o.code, code) || Names(o.lastError, code) || Ends(o, code) || Fails(o, code)
    || (code.READY? && o.status.Ready?)
  }

  predicate TurnsReady(o: Operation, o': Operation) {
    o'.status.Ready? && !o.status.Ready?
  }

  /** What an ending pass holds is one of the answers above. */
  predicate EndsWell(o: Operation) {
    o.pass.Some? && o.pass.value.at.Ending? ==> Shaped(o.pass.value.at.outcome)
  }

  ghost predicate Caused(calls: seq<Call>, n: nat, pid: Pid, digest: Digest, order: Iteration)
    requires n <= |calls|
  {
    var ops := Run(NOTHING, calls[..n], digest, order).ops;
    pid in ops ==>
      && (forall code :: Carries(ops[pid], code) ==> CausedBy(calls, n, pid, code, digest, order))
      && EndsWell(ops[pid])
  }

  lemma NextState(calls: seq<Call>, n: nat, digest: Digest, order: Iteration)
    requires n < |calls|
    ensures Run(NOTHING, calls[..n + 1], digest, order)
         == Next(Run(NOTHING, calls[..n], digest, order), calls[n], digest, order)
  {
    RunExtends(NOTHING, calls, n, digest, order);
  }

  lemma PrefixesShift<T>(xs: seq<T>, n: nat)
    requires 0 < n < |xs|
    ensures xs[..n + 1][1..] == xs[1..][..n] && xs[..n][1..] == xs[1..][..n - 1]
    ensures xs[..n + 1][0] == xs[0] && xs[..n][0] == xs[0] && xs[1..][n - 1] == xs[n]
  {
  }

  lemma RunFirst(w: World, calls: seq<Call>, digest: Digest, order: Iteration)
    requires calls != []
    ensures Run(w, calls[..1], digest, order) == Next(w, calls[0], digest, order)
  {
    assert calls[..1][1..] == [];
  }

  lemma {:induction false} RunExtends(w: World, calls: seq<Call>, n: nat, digest: Digest, order: Iteration)
    requires n < |calls|
    ensures Run(w, calls[..n + 1], digest, order) == Next(Run(w, calls[..n], digest, order), calls[n], digest, order)
    decreases n
  {
    if n == 0 {
      RunFirst(w, calls, digest, order);
    } else {
      RunExtends(Next(w, calls[0], digest, order), calls[1..], n - 1, digest, order);
      PrefixesShift(calls, n);
    }
  }

  lemma BudgetKeepsCode(outcome: Outcome, attempts: nat, createdAt: Time, now: Time)
    requires attempts >= 1
    ensures var final := ApplyBudgets(outcome, attempts, createdAt, now);
            final.code == outcome.code || Budget(final.code)
  {
  }

  lemma FailedCarries(o: Operation, failure: Code, code: Code)
    requires o.pass.Some? && Carries(FailedRow(o, failure), code)
    ensures Carries(o, code) || (code == failure && !Budget(failure))
  {
  }

  lemma RecordedCarries(w: World, pid: Pid, final: Outcome, code: Code)
    requires At(w, pid) && pid in RecordedPass(w, pid, final).ops && Carries(RecordedPass(w, pid, final).ops[pid], code)
    ensures Carries(w.ops[pid], code) || (code == final.code && !Budget(final.code))
  {
  }

  /** A settlement records the code the pass ended with, or a budget's. */
  lemma SettledCarries(w: World, pid: Pid, code: Code)
    requires At(w, pid) && PointOf(w, pid).Ending? && PassOf(w, pid).attempts >= 1
    requires pid in SettlePass(w, pid, PointOf(w, pid).outcome).ops
    requires Carries(SettlePass(w, pid, PointOf(w, pid).outcome).ops[pid], code)
    ensures Carries(w.ops[pid], code)
  {
    var o, p := w.ops[pid], PassOf(w, pid);
    var final := ApplyBudgets(p.at.outcome, p.attempts, p.createdAt, w.now);
    BudgetKeepsCode(p.at.outcome, p.attempts, p.createdAt, w.now);
    if final.verdict.Fail? {
      assert SettlePass(w, pid, p.at.outcome).ops[pid] == FailedRow(o, final.code);
      FailedCarries(o, final.code, code);
    } else {
      RecordedCarries(w, pid, final, code);
    }
  }

  lemma ConcludedCarries(o: Operation, code: Code)
    requires o.pass.Some? && o.pass.value.at.Failing? && Carries(ConcludedRow(o), code)
    ensures Carries(o, code)
  {
  }

  /** Elsewhere a row's codes stay, and a pass ends only as explained. */
  lemma QuietCarries(o: Operation, o': Operation, plain: bool, code: Code)
    requires Quiet(o, o', plain) && Carries(o', code)
    ensures Carries(o, code) || (Ends(o', code) && EndsHere(o, o')) || (code.READY? && TurnsReady(o, o'))
  {
  }

  lemma BoundsTurnNothingReady(w: World, call: Call, digest: Digest, order: Iteration)
    requires (call.Verify? || call.Reconcile? || call.Settle?) && At(w, call.pid)
    ensures call.pid in PassStep(w, call, digest, order).ops
    ensures !TurnsReady(w.ops[call.pid], PassStep(w, call, digest, order).ops[call.pid])
  {
  }

  /** Only a check that finds everything in place turns an operation ready. */
  lemma ReadyWasChecked(w: World, call: Call, digest: Digest, order: Iteration)
    requires ByPass(call) && At(w, call.pid)
    ensures call.pid in PassStep(w, call, digest, order).ops
    ensures TurnsReady(w.ops[call.pid], PassStep(w, call, digest, order).ops[call.pid]) ==>
              Cause(w, call, READY, digest, order)
  {
    if call.Verify? || call.Reconcile? || call.Settle? {
      BoundsTurnNothingReady(w, call, digest, order);
    } else if !call.Check? {
      StepsKeepStatus(w, call, digest, order);
    }
  }

  lemma OwnCarries(w: World, call: Call, code: Code, digest: Digest, order: Iteration)
    requires CausesFit(w) && ByPass(call) && At(w, call.pid)
    requires call.pid in PassStep(w, call, digest, order).ops
    requires Carries(PassStep(w, call, digest, order).ops[call.pid], code)
    ensures Carries(w.ops[call.pid], code) || Cause(w, call, code, digest, order)
  {
    var o, o' := w.ops[call.pid], PassStep(w, call, digest, order).ops[call.pid];
    assert CauseFits(o, w.now);
    if PointOf(w, call.pid).Failing? {
      FailingWaits(w, call, digest, order);
      if call.Conclude? { ConcludedCarries(o, code); }
    } else if !call.Settle? {
      StepQuiet(w, call, digest, order);
      QuietCarries(o, o', ProvisioningOutcomes.Plain(call), code);
      PassIsExplained(w, call, digest, order);
      ReadyWasChecked(w, call, digest, order);
    } else if PointOf(w, call.pid).Ending? && PassOf(w, call.pid).attempts >= 1 {
      SettledCarries(w, call.pid, code);
    }
  }

  lemma SettledEndsWell(w: World, pid: Pid)
    requires At(w, pid) && PointOf(w, pid).Ending? && PassOf(w, pid).attempts >= 1
    ensures pid in SettlePass(w, pid, PointOf(w, pid).outcome).ops
    ensures EndsWell(SettlePass(w, pid, PointOf(w, pid).outcome).ops[pid])
  {
  }

  lemma OwnEndsWell(w: World, call: Call, digest: Digest, order: Iteration)
    requires ByPass(call) && At(w, call.pid) && EndsWell(w.ops[call.pid])
    ensures call.pid in PassStep(w, call, digest, order).ops
    ensures EndsWell(PassStep(w, call, digest, order).ops[call.pid])
  {
    PassIsExplained(w, call, digest, order);
    if call.Settle? && PointOf(w, call.pid).Ending? && PassOf(w, call.pid).attempts >= 1 {
      SettledEndsWell(w, call.pid);
    }
  }

  lemma NextEndsWell(w: World, call: Call, pid: Pid, digest: Digest, order: Iteration)
    requires pid in w.ops ==> EndsWell(w.ops[pid])
    ensures pid in Next(w, call, digest, order).ops ==> EndsWell(Next(w, call, digest, order).ops[pid])
  {
    if About(call) != Some(pid) {
      if pid in w.ops {
        OthersAreLeft(w, call, digest, order, pid);
      } else {
        NobodyArrives(w, call, digest, order, pid);
      }
    } else if ByPass(call) && At(w, pid) {
      OwnEndsWell(w, call, digest, order);
    }
  }

  /** A call of another kind records no code. */
  lemma OutsideCarries(w: World, call: Call, code: Code, digest: Digest, order: Iteration)
    requires call.Edit? || call.Close? || call.Begin? || call.Crash?
    requires call.pid in Next(w, call, digest, order).ops
    requires Carries(Next(w, call, digest, order).ops[call.pid], code)
    ensures call.pid in w.ops && Carries(w.ops[call.pid], code)
  {
  }

  lemma OthersCarry(w: World, call: Call, pid: Pid, code: Code, digest: Digest, order: Iteration)
    requires About(call) != Some(pid)
    requires pid in Next(w, call, digest, order).ops && Carries(Next(w, call, digest, order).ops[pid], code)
    ensures pid in w.ops && Carries(w.ops[pid], code)
  {
    if pid in w.ops {
      OthersAreLeft(w, call, digest, order, pid);
    } else {
      NobodyArrives(w, call, digest, order, pid);
    }
  }

  lemma AcceptCarries(w: World, r: Request, code: Code, digest: Digest, order: Iteration)
    requires var w' := Next(w, Accept(r), digest, order);
             r.provisioningId in w'.ops && Carries(w'.ops[r.provisioningId], code)
    ensures r.provisioningId in w.ops && Carries(w.ops[r.provisioningId], code)
  {
  }

  lemma OwnNextCarries(w: World, call: Call, code: Code, digest: Digest, order: Iteration)
    requires CausesFit(w) && ByPass(call)
    requires var w' := Next(w, call, digest, order); call.pid in w'.ops && Carries(w'.ops[call.pid], code)
    ensures || (call.pid in w.ops && Carries(w.ops[call.pid], code))
            || (At(w, call.pid) && Cause(w, call, code, digest, order))
  {
    if At(w, call.pid) { OwnCarries(w, call, code, digest, order); }
  }

  lemma NextCarries(w: World, call: Call, pid: Pid, code: Code, digest: Digest, order: Iteration)
    requires CausesFit(w)
    requires pid in Next(w, call, digest, order).ops && Carries(Next(w, call, digest, order).ops[pid], code)
    ensures || (pid in w.ops && Carries(w.ops[pid], code))
            || (ByPass(call) && call.pid == pid && At(w, pid) && Cause(w, call, code, digest, order))
  {
    if About(call) != Some(pid) {
      OthersCarry(w, call, pid, code, digest, order);
    } else if call.Accept? {
      AcceptCarries(w, call.request, code, digest, order);
    } else if ByPass(call) {
      OwnNextCarries(w, call, code, digest, order);
    } else {
      OutsideCarries(w, call, code, digest, order);
    }
  }

  lemma NextCaused(calls: seq<Call>, n: nat, pid: Pid, digest: Digest, order: Iteration)
    requires n < |calls| && Caused(calls, n, pid, digest, order)
    ensures Caused(calls, n + 1, pid, digest, order)
  {
    var w := Run(NOTHING, calls[..n], digest, order);
    RunCausesFit(NOTHING, calls[..n], digest, order);
    NextState(calls, n, digest, order);
    var w' := Next(w, calls[n], digest, order);
    NextEndsWell(w, calls[n], pid, digest, order);
    forall code | pid in w'.ops && Carries(w'.ops[pid], code)
      ensures CausedBy(calls, n + 1, pid, code, digest, order)
    {
      NextCarries(w, calls[n], pid, code, digest, order);
      if pid in w.ops && Carries(w.ops[pid], code) {
        CausedLater(calls, n, pid, code, digest, order);
      } else {
        assert CausedAt(calls, n, pid, code, digest, order);
      }
    }
  }

  lemma NothingIsCaused(calls: seq<Call>, pid: Pid, digest: Digest, order: Iteration)
    ensures Caused(calls, 0, pid, digest, order)
  {
    assert calls[..0] == [];
    assert Run(NOTHING, [], digest, order) == NOTHING;
  }

  lemma {:induction false} RunIsCaused(calls: seq<Call>, n: nat, pid: Pid, digest: Digest, order: Iteration)
    requires n <= |calls|
    ensures Caused(calls, n, pid, digest, order)
    decreases n
  {
    if n == 0 {
      NothingIsCaused(calls, pid, digest, order);
    } else {
      RunIsCaused(calls, n - 1, pid, digest, order);
      NextCaused(calls, n - 1, pid, digest, order);
    }
  }

  /** At every moment of every run, whatever code an operation carries but a spent budget's, as its outcome code, as its
      last error or in its pass, some earlier call of a pass of its own met what that code says. */
  lemma EveryCodeHasItsCause(w: World, calls: seq<Call>, n: nat, pid: Pid, code: Code, digest: Digest, order: Iteration)
    requires n <= |calls| && w == Run(NOTHING, calls[..n], digest, order) && pid in w.ops && Carries(w.ops[pid], code)
    ensures exists i :: 0 <= i < n && CausedAt(calls, i, pid, code, digest, order)
  {
    RunIsCaused(calls, n, pid, digest, order);
  }

  // ---------------------------------------------------------------------------------------------------------------
  // What is met is recorded
  // ---------------------------------------------------------------------------------------------------------------

  /** The pass is where it makes this call, and the call is made: a step with no marker asks the engine nothing, and the
      mapping step asks it nothing at all. */
  predicate InTurn(w: World, call: Call)
    requires ByPass(call) && At(w, call.pid)
  {
    var at := PointOf(w, call.pid);
    match call
    case Verify(_, _, _, _) => at.Begun?
    case Look(pid, reply) =>
      && at.Ahead? && MidStep(w, pid)
      && (reply.Some? ==> !HeadOf(w, pid).detail.MappingDetail? && (Seeks(w, pid) ==> !TooLong(HeadOf(w, pid).key)))
    case Make(pid, _, _, reply) =>
      at.Absent? && Makes(w, pid) && (reply.Some? ==> !TooLong(HeadOf(w, pid).key))
    case Map(pid) => at.Known? && MidStep(w, pid) && HeadOf(w, pid).detail.MappingDetail?
    case Reconcile(pid, _) => at.Ahead? && PassOf(w, pid).pending == []
    case Check(_, _, _) => at.Checking?
    case Stumble(_, _) => !at.Ending? && !at.Failing?
    case _ => false
  }

  /** The pass ends here with this code; a ready operation is marked so at once. */
  predicate EndsWith(o: Operation, o': Operation, code: Code)
    requires o.pass.Some?
  {
    var ended := MoveTo(o, Ending(Outcome(VerdictFor(code), code, None)));
    o' == if code.READY? then ended.(status := CommandState.Ready, lastError := None) else ended
  }

  lemma ToldMeans(w: World, call: Call, t: Trouble, code: Code, digest: Digest, order: Iteration)
    requires ByPass(call) && At(w, call.pid) && Told(call) == Some(t) && InTurn(w, call)
    requires Cause(w, call, code, digest, order)
    ensures Classify(t) == Outcome(VerdictFor(code), code, None) && !code.READY?
  {
  }

  lemma ToldEnds(w: World, call: Call, t: Trouble, code: Code, digest: Digest, order: Iteration)
    requires ByPass(call) && At(w, call.pid) && Told(call) == Some(t) && InTurn(w, call)
    requires Cause(w, call, code, digest, order)
    ensures EndsWith(w.ops[call.pid], Troubled(w.ops[call.pid], t), code)
  {
    ToldMeans(w, call, t, code, digest, order);
  }

  /** What a verification finds, in the order in which it looks. */
  datatype Findings = Findings(unreadable: bool, drift: bool, valid: bool, planned: bool, engine: bool, processes: bool)

  function Found(p: Pass, call: Call, digest: Digest, order: Iteration): Findings
    requires call.Verify?
  {
    var read := StoredRequest(p, digest, order);
    Findings(read.Err? && !read.error.Drift?, read.Err? && read.error.Drift?, Valid(p, call.valid, digest, order),
        read.Ok? && PlanAsStored(p, digest, order), call.engine, call.processes)
  }

  function FirstTrouble(f: Findings): Option<Trouble> {
    if f.unreadable then Some(UnreadableState)
    else if f.drift then Some(DriftedState)
    else if !f.valid then Some(Invalid)
    else if !f.planned then Some(DriftedState)
    else if !f.engine then Some(NoEngine)
    else if !f.processes then Some(NoProcess)
    else None
  }

  lemma ObstacleIs(p: Pass, call: Call, digest: Digest, order: Iteration)
    requires call.Verify?
    ensures Obstacle(p, call.valid, call.engine, call.processes, digest, order)
         == FirstTrouble(Found(p, call, digest, order))
  {
  }

  predicate Finds(f: Findings, code: Code) {
    match code
    case STATE_UNREADABLE => f.unreadable && !f.drift && !f.valid
    case STATE_DRIFT => !f.unreadable && ((f.drift && !f.valid) || (f.valid && !f.drift && !f.planned))
    case STEP_INVALID => !f.unreadable && !f.drift && !f.valid
    case ENGINE_UNCONFIGURED => !f.unreadable && !f.drift && f.valid && f.planned && !f.engine
    case PROCESS_UNCONFIGURED => !f.unreadable && !f.drift && f.valid && f.planned && f.engine && !f.processes
    case _ => false
  }

  lemma VerifyMeets(w: World, call: Call, code: Code, digest: Digest, order: Iteration)
    requires call.Verify? && At(w, call.pid) && Cause(w, call, code, digest, order)
    ensures Finds(Found(PassOf(w, call.pid), call, digest, order), code)
  {
  }

  lemma FindingEnds(f: Findings, code: Code)
    requires Finds(f, code)
    ensures FirstTrouble(f).Some? && Classify(FirstTrouble(f).value) == Outcome(VerdictFor(code), code, None)
  {
  }

  lemma VerifyEnds(w: World, call: Call, code: Code, digest: Digest, order: Iteration)
    requires call.Verify? && At(w, call.pid) && Cause(w, call, code, digest, order)
    ensures EndsWith(w.ops[call.pid],
                VerifyPass(w.ops[call.pid], call.valid, call.engine, call.processes, digest, order), code)
  {
    VerifyMeets(w, call, code, digest, order);
    ObstacleIs(PassOf(w, call.pid), call, digest, order);
    FindingEnds(Found(PassOf(w, call.pid), call, digest, order), code);
  }

  lemma LookEnds(w: World, call: Call, code: Code, digest: Digest, order: Iteration)
    requires call.Look? && At(w, call.pid) && InTurn(w, call) && Cause(w, call, code, digest, order)
    ensures EndsWith(w.ops[call.pid], LookUp(w, call.pid, call.reply), code)
  {
    if call.reply.Some? {
      ToldEnds(w, call, call.reply.value, code, digest, order);
    } else if Marker(HeadOf(w, call.pid).key).Some? {
      MarkersSeen(w, PassOf(w, call.pid));
    }
  }

  lemma MakeEnds(w: World, call: Call, code: Code, digest: Digest, order: Iteration)
    requires call.Make? && At(w, call.pid) && InTurn(w, call) && Cause(w, call, code, digest, order)
    ensures EndsWith(w.ops[call.pid], MakeRecord(w, call.pid, call.id, call.took, call.reply).ops[call.pid], code)
  {
    if call.reply.Some? { ToldEnds(w, call, call.reply.value, code, digest, order); }
  }

  lemma MapMeets(w: World, call: Call, code: Code, digest: Digest, order: Iteration)
    requires call.Map? && At(w, call.pid) && InTurn(w, call) && Cause(w, call, code, digest, order)
    ensures var o, d := w.ops[call.pid], HeadOf(w, call.pid).detail;
            || (code.STEP_INVALID? && (CLIENT_ALIAS !in o.natives || Blank(d.instance)))
            || (code.TENANT_MAPPING_CONFLICT? && MappedElsewhere(w, o, PassOf(w, call.pid)))
  {
  }

  lemma MapEnds(w: World, call: Call, code: Code, digest: Digest, order: Iteration)
    requires call.Map? && At(w, call.pid) && InTurn(w, call) && Cause(w, call, code, digest, order)
    ensures EndsWith(w.ops[call.pid], MapTenant(w, call.pid).ops[call.pid], code)
  {
    MapMeets(w, call, code, digest, order);
  }

  lemma CheckEnds(w: World, call: Call, code: Code, digest: Digest, order: Iteration)
    requires call.Check? && At(w, call.pid) && Cause(w, call, code, digest, order)
    ensures EndsWith(w.ops[call.pid], CheckPass(w.ops[call.pid], call.valid, call.healthy), code)
  {
  }

  /** A call that meets a code's condition ends the pass with it and changes nothing else about its operation. */
  lemma CallAnswers(w: World, call: Call, code: Code, digest: Digest, order: Iteration)
    requires ByPass(call) && At(w, call.pid) && InTurn(w, call) && Cause(w, call, code, digest, order)
    ensures call.pid in PassStep(w, call, digest, order).ops
    ensures EndsWith(w.ops[call.pid], PassStep(w, call, digest, order).ops[call.pid], code)
  {
    match call
    case Verify(_, _, _, _) => VerifyEnds(w, call, code, digest, order);
    case Look(_, _) => LookEnds(w, call, code, digest, order);
    case Make(_, _, _, _) => MakeEnds(w, call, code, digest, order);
    case Map(_) => MapEnds(w, call, code, digest, order);
    case Check(_, _, _) => CheckEnds(w, call, code, digest, order);
    case Stumble(_, trouble) => ToldEnds(w, call, trouble, code, digest, order);
    case Reconcile(_, _) =>
  }

  /** Failed for good with this code, never to be taken up again. */
  predicate FailedAs(o: Operation, o': Operation, code: Code) {
    && o'.status.Failed? && o'.code == Some(code) && o'.lastError == Some(code) && o'.nextAttemptAt.None?
    && o'.attempts == o.attempts
  }

  /** Left as it was, to be taken up again after this many seconds. */
  predicate WaitsAs(o: Operation, o': Operation, code: Code, seconds: nat, now: Time) {
    && o'.status == o.status && o'.code == Some(code) && o'.lastError == Some(code)
    && o'.nextAttemptAt == Some(now + seconds * SECOND)
  }

  /** What a pass's answer leaves in its operation's row. An engine that is down costs an attempt, and only the 24th one
      fails the operation; what an operator must put right costs none, and only 72 hours fail it. */
  predicate RecordedAs(o: Operation, o': Operation, code: Code, now: Time)
    requires o.attempts >= 1
  {
    && o'.pass.None?
    && o'.state == o.state && o'.digest == o.digest && o'.plan == o.plan && o'.createdAt == o.createdAt
    && o'.closed == o.closed && o'.completed == o.completed && o'.natives == o.natives
    && match VerdictFor(code)
       case Finished =>
         o'.status.Ready? && o'.code == Some(code) && o'.lastError.None? && o'.nextAttemptAt.None?
         && o'.attempts == o.attempts
       case Retry =>
         if o.attempts >= 24 then FailedAs(o, o', ATTEMPTS_EXHAUSTED)
         else WaitsAs(o, o', code, ExecutionPolicy.BackoffSeconds(o.attempts), now) && o'.attempts == o.attempts
       case Blocked =>
         if now > o.createdAt + 72 * 3600 * SECOND then FailedAs(o, o', BLOCKED_HORIZON_EXCEEDED)
         else WaitsAs(o, o', code, 900, now) && o'.attempts == o.attempts - 1
       case Fail => FailedAs(o, o', code)
  }

  /** What the pass loaded is what the row holds. */
  predicate Loaded(o: Operation) {
    o.pass.Some? && o.attempts >= 1 && o.pass.value.attempts == o.attempts && o.pass.value.createdAt == o.createdAt
  }

  lemma Given(w: World, calls: seq<Call>, pid: Pid, digest: Digest, order: Iteration)
    requires w == Run(NOTHING, calls, digest, order) && At(w, pid)
    ensures Loaded(w.ops[pid])
  {
    RunCausesFit(NOTHING, calls, digest, order);
    RunCountsFit(NOTHING, calls, digest, order);
    assert CauseFits(w.ops[pid], w.now) && Counted(w, pid);
  }

  /** The row once the settlement, and with a failure its second commit, are done. */
  function Concluded(o: Operation): Operation {
    if o.pass.Some? && o.pass.value.at.Failing? then ConcludedRow(o) else o
  }

  /** What is settled of a code, the budgets applied. */
  function Budgeted(o: Operation, code: Code, now: Time): Outcome
    requires o.attempts >= 1
  {
    match VerdictFor(code)
    case Finished => Outcome(Finished, code, None)
    case Fail => Outcome(Fail, code, None)
    case Retry =>
      if o.attempts >= 24 then Outcome(Fail, ATTEMPTS_EXHAUSTED, None)
      else Outcome(Retry, code, Some(ExecutionPolicy.BackoffSeconds(o.attempts)))
    case Blocked =>
      if now > o.createdAt + 72 * 3600 * SECOND then Outcome(Fail, BLOCKED_HORIZON_EXCEEDED, None)
      else Outcome(Blocked, code, Some(900))
  }

  lemma BudgetsAre(o: Operation, code: Code, now: Time)
    requires o.attempts >= 1
    ensures ApplyBudgets(Outcome(VerdictFor(code), code, None), o.attempts, o.createdAt, now) == Budgeted(o, code, now)
  {
    ExecutionPolicy.BackoffIsDelay(o.attempts);
  }

  lemma FailureIsRecorded(o: Operation, ended: Operation, code: Code, now: Time)
    requires Loaded(o) && EndsWith(o, ended, code) && Budgeted(o, code, now).verdict.Fail?
    ensures RecordedAs(o, Concluded(FailedRow(ended, Budgeted(o, code, now).code)), code, now)
  {
  }

  lemma RestIsRecorded(w: World, o: Operation, pid: Pid, code: Code)
    requires At(w, pid) && Loaded(o) && EndsWith(o, w.ops[pid], code) && !Budgeted(o, code, w.now).verdict.Fail?
    ensures pid in RecordedPass(w, pid, Budgeted(o, code, w.now)).ops
    ensures RecordedAs(o, Concluded(RecordedPass(w, pid, Budgeted(o, code, w.now)).ops[pid]), code, w.now)
  {
  }

  lemma EndIsRecorded(w: World, o: Operation, pid: Pid, code: Code)
    requires At(w, pid) && Loaded(o) && EndsWith(o, w.ops[pid], code)
    ensures pid in SettlePass(w, pid, PointOf(w, pid).outcome).ops
    ensures RecordedAs(o, Concluded(SettlePass(w, pid, PointOf(w, pid).outcome).ops[pid]), code, w.now)
  {
    BudgetsAre(o, code, w.now);
    if Budgeted(o, code, w.now).verdict.Fail? {
      FailureIsRecorded(o, w.ops[pid], code, w.now);
    } else {
      RestIsRecorded(w, o, pid, code);
    }
  }

  lemma RunsTo(w: World, call: Call, pid: Pid, digest: Digest, order: Iteration)
    ensures Run(w, [call, Settle(pid), Conclude(pid)], digest, order)
         == Next(Next(Next(w, call, digest, order), Settle(pid), digest, order), Conclude(pid), digest, order)
  {
    var called := Next(w, call, digest, order);
    var settled := Next(called, Settle(pid), digest, order);
    Leads(w, call, called, [Settle(pid), Conclude(pid)], digest, order);
    Leads(called, Settle(pid), settled, [Conclude(pid)], digest, order);
    Leads(settled, Conclude(pid), Next(settled, Conclude(pid), digest, order), [], digest, order);
    assert [call] + [Settle(pid), Conclude(pid)] == [call, Settle(pid), Conclude(pid)];
    assert [Settle(pid)] + [Conclude(pid)] == [Settle(pid), Conclude(pid)] && [Conclude(pid)] + [] == [Conclude(pid)];
  }

  lemma SettlesThenConcludes(w: World, pid: Pid, digest: Digest, order: Iteration)
    requires At(w, pid) && PointOf(w, pid).Ending? && PassOf(w, pid).attempts >= 1
    ensures var settled := SettlePass(w, pid, PointOf(w, pid).outcome);
            var w' := Next(Next(w, Settle(pid), digest, order), Conclude(pid), digest, order);
            pid in settled.ops && pid in w'.ops && w'.ops[pid] == Concluded(settled.ops[pid])
  {
    assert Next(w, Settle(pid), digest, order) == SettlePass(w, pid, PointOf(w, pid).outcome);
  }

  /** Over every run, a pass that meets a code's condition has it recorded as the code demands. */
  lemma AnswerIsRecorded(w: World, calls: seq<Call>, call: Call, code: Code, digest: Digest, order: Iteration)
    requires w == Run(NOTHING, calls, digest, order) && ByPass(call) && At(w, call.pid)
    requires InTurn(w, call) && Cause(w, call, code, digest, order)
    ensures var w' := Run(w, [call, Settle(call.pid), Conclude(call.pid)], digest, order);
            && w.ops[call.pid].attempts >= 1 && call.pid in w'.ops
            && RecordedAs(w.ops[call.pid], w'.ops[call.pid], code, w.now)
  {
    Given(w, calls, call.pid, digest, order);
    CallThenSettle(w, call, code, digest, order);
  }

  lemma CallThenSettle(w: World, call: Call, code: Code, digest: Digest, order: Iteration)
    requires ByPass(call) && At(w, call.pid) && Loaded(w.ops[call.pid])
    requires InTurn(w, call) && Cause(w, call, code, digest, order)
    ensures var w' := Run(w, [call, Settle(call.pid), Conclude(call.pid)], digest, order);
            call.pid in w'.ops && RecordedAs(w.ops[call.pid], w'.ops[call.pid], code, w.now)
  {
    var ended := Next(w, call, digest, order);
    assert ended == PassStep(w, call, digest, order);
    RunsTo(w, call, call.pid, digest, order);
    CallAnswers(w, call, code, digest, order);
    PassClockStays(w, call, digest, order);
    PassKeepsCounts(w, call, digest, order);
    SettlesThenConcludes(ended, call.pid, digest, order);
    EndIsRecorded(ended, w.ops[call.pid], call.pid, code);
  }

  /** When it is listed again: a failed or finished operation never, one that waits when its time has come. */
  lemma WaitIsKept(o: Operation, o': Operation, code: Code, now: Time, later: Time)
    requires o.attempts >= 1 && RecordedAs(o, o', code, now) && Workable(o)
    ensures Due(o', later) <==>
              || (VerdictFor(code).Retry? && o.attempts < 24
                  && later >= now + ExecutionPolicy.BackoffSeconds(o.attempts) * SECOND)
              || (VerdictFor(code).Blocked? && now <= o.createdAt + 72 * 3600 * SECOND && later >= now + 900 * SECOND)
  {
  }

  /** A pass begins exactly if nobody holds the operation, its command goes on and it is planned, applying or
      reconciling; it is counted and takes the row as it stands. */
  lemma BeginsExactly(w: World, pid: Pid, digest: Digest, order: Iteration)
    requires pid in w.ops && pid in w.history
    ensures var o, w' := w.ops[pid], Next(w, Begin(pid), digest, order);
            && pid in w'.ops
            && if o.pass.None? && !o.closed && (o.status.Planned? || o.status.Applying? || o.status.Reconciling?) then
                 && w'.ops[pid].attempts == o.attempts + 1 && w'.ops[pid].status == o.status && At(w', pid)
                 && PointOf(w', pid).Begun? && PassOf(w', pid).state == o.state && PassOf(w', pid).digest == o.digest
                 && PassOf(w', pid).plan == o.plan && PassOf(w', pid).createdAt == o.createdAt
               else w' == w
  {
  }
}
