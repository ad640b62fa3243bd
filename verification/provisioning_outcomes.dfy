/** Failure is classified, not guessed: why an operation ends failed, over every run. */
module ProvisioningOutcomes {
  import opened Prelude
  import opened RequestState
  import opened ProvisioningPlan
  import opened Provisioning
  import opened ProvisioningTheorems

  // ---------------------------------------------------------------------------------------------------------------
  // Causes
  // ---------------------------------------------------------------------------------------------------------------

  /** What fails an operation by itself; anything else is retried or waits for an operator until a budget is spent. */
  predicate Cause(code: Code) {
    || code.STATE_UNREADABLE? || code.STATE_DRIFT? || code.ENGINE_REJECTED? || code.DUPLICATE_NATIVE_RECORDS?
    || code.TENANT_MAPPING_CONFLICT? || code.WAREHOUSE_IDENTITY_CONFLICT? || code.STEP_INVALID?
  }

  predicate Budget(code: Code) {
    code.ATTEMPTS_EXHAUSTED? || code.BLOCKED_HORIZON_EXCEEDED?
  }

  predicate Astray(code: Code) {
    code.STATE_UNREADABLE? || code.STATE_DRIFT?
  }

  predicate StateTrouble(t: Trouble) {
    t.UnreadableState? || t.DriftedState?
  }

  predicate EndFits(outcome: Outcome) {
    (outcome.verdict.Fail? <==> Cause(outcome.code)) && !Budget(outcome.code)
  }

  lemma ClassifyFits(t: Trouble)
    ensures EndFits(Classify(t))
    ensures Astray(Classify(t).code) <==> StateTrouble(t)
  {
  }

  /** The engine and the adapter do not speak of the stored state; only the verification does. */
  predicate Plain(call: Call) {
    match call
    case Look(_, reply) => reply.Some? ==> !StateTrouble(reply.value)
    case Make(_, _, _, reply) => reply.Some? ==> !StateTrouble(reply.value)
    case Stumble(_, trouble) => !StateTrouble(trouble)
    case Verify(_, _, _, _) => false
    case _ => true
  }

  // ---------------------------------------------------------------------------------------------------------------
  // What a call of a pass does to its operation's row, settlements aside
  // ---------------------------------------------------------------------------------------------------------------

  predicate SameRow(o: Operation, o': Operation) {
    && o'.code == o.code && (o'.lastError == o.lastError || o'.lastError.None?) && o'.attempts == o.attempts
    && o'.createdAt == o.createdAt && (o'.status.Failed? <==> o.status.Failed?)
    && o'.state == o.state && o'.plan == o.plan && o'.digest == o.digest
    && o.pass.Some? && o'.pass.Some?
    && var p, p' := o.pass.value, o'.pass.value;
       p'.attempts == p.attempts && p'.createdAt == p.createdAt && p'.state == p.state && p'.plan == p.plan
           && p'.digest == p.digest
  }

  /** The row is the same but for the pass's progress; if the pass ends here, it ends with a classified outcome. */
  predicate Quiet(o: Operation, o': Operation, plain: bool) {
    && SameRow(o, o') && (o'.pass.value.at.Failing? ==> o'.pass.value.at == o.pass.value.at)
    && (o'.pass.value.at.Ending? && o'.pass.value.at != o.pass.value.at ==>
          EndFits(o'.pass.value.at.outcome) && (plain ==> !Astray(o'.pass.value.at.outcome.code)))
  }

  lemma TroubledQuiet(o: Operation, t: Trouble)
    requires o.pass.Some?
    ensures Quiet(o, Troubled(o, t), !StateTrouble(t))
  {
    ClassifyFits(t);
  }

  lemma VerifyQuiet(o: Operation, valid: bool, engine: bool, processes: bool, digest: Digest, order: Iteration)
    requires o.pass.Some? && !o.status.Failed?
    ensures Quiet(o, VerifyPass(o, valid, engine, processes, digest, order), false)
  {
    var obstacle := Obstacle(o.pass.value, valid, engine, processes, digest, order);
    if obstacle.Some? { TroubledQuiet(o, obstacle.value); }
  }

  lemma MovedQuiet(o: Operation, at: Point)
    requires o.pass.Some? && !at.Ending? && !at.Failing?
    ensures Quiet(o, MoveTo(o, at), true)
  {
  }

  lemma LookQuiet(w: World, pid: Pid, reply: Option<Trouble>)
    requires MidStep(w, pid)
    ensures Quiet(w.ops[pid], LookUp(w, pid, reply), reply.Some? ==> !StateTrouble(reply.value))
  {
    var o, step := w.ops[pid], HeadOf(w, pid);
    if reply.Some? { TroubledQuiet(o, reply.value); }
    TroubledQuiet(o, Invalid);
    MovedQuiet(o, Made(1));
    if ResourceKey(step) in o.natives { MovedQuiet(o, Known(o.natives[ResourceKey(step)])); }
    if Creates(step) && ResourceKey(step) !in o.natives && Marker(step.key).Some? && reply.None? {
      SearchQuiet(w, pid);
    }
  }

  lemma SearchQuiet(w: World, pid: Pid)
    requires MidStep(w, pid) && Creates(HeadOf(w, pid)) && ResourceKey(HeadOf(w, pid)) !in w.ops[pid].natives
    requires Marker(HeadOf(w, pid).key).Some?
    ensures Quiet(w.ops[pid], LookUp(w, pid, None), true)
  {
    TroubledQuiet(w.ops[pid], Duplicates);
  }

  lemma MakeQuiet(w: World, pid: Pid, id: nat, took: bool, reply: Option<Trouble>)
    requires MidStep(w, pid) && Creates(HeadOf(w, pid))
    ensures Quiet(w.ops[pid], MakeRecord(w, pid, id, took, reply).ops[pid], reply.Some? ==> !StateTrouble(reply.value))
  {
    var o := w.ops[pid];
    TroubledQuiet(o, Invalid);
    TroubledQuiet(o, Unreachable);
    if reply.Some? { TroubledQuiet(o, reply.value); }
  }

  lemma CompletedQuiet(w: World, pid: Pid)
    requires MidStep(w, pid)
    ensures pid in Completed(w, pid).ops && Quiet(w.ops[pid], Completed(w, pid).ops[pid], true)
  {
  }

  lemma MapQuiet(w: World, pid: Pid)
    requires MidStep(w, pid) && HeadOf(w, pid).detail.MappingDetail?
    ensures Quiet(w.ops[pid], MapTenant(w, pid).ops[pid], true)
  {
    TroubledQuiet(w.ops[pid], Invalid);
    TroubledQuiet(w.ops[pid], MappingClash);
    CompletedQuiet(w, pid);
  }

  lemma ReconcileQuiet(o: Operation, clash: bool)
    requires o.pass.Some? && !o.status.Failed?
    ensures Quiet(o, StartReconciling(o, clash), true)
  {
    TroubledQuiet(o, IdentityClash);
  }

  lemma CheckQuiet(o: Operation, valid: bool, healthy: bool)
    requires o.pass.Some? && !o.status.Failed?
    ensures Quiet(o, CheckPass(o, valid, healthy), true)
  {
  }

  lemma EngineCallQuiet(w: World, call: Call, digest: Digest, order: Iteration)
    requires (call.Look? || call.Make?) && At(w, call.pid)
    ensures call.pid in PassStep(w, call, digest, order).ops
    ensures Quiet(w.ops[call.pid], PassStep(w, call, digest, order).ops[call.pid], Plain(call))
  {
    var point := PointOf(w, call.pid);
    match call
    case Look(pid, reply) => if point.Ahead? && MidStep(w, pid) { LookQuiet(w, pid, reply); }
    case Make(pid, id, took, reply) =>
      if point.Absent? && MidStep(w, pid) && Creates(HeadOf(w, pid)) { MakeQuiet(w, pid, id, took, reply); }
  }

  lemma RecordStepQuiet(w: World, call: Call, digest: Digest, order: Iteration)
    requires ByPass(call) && OfStep(call) && At(w, call.pid)
    ensures call.pid in PassStep(w, call, digest, order).ops
    ensures Quiet(w.ops[call.pid], PassStep(w, call, digest, order).ops[call.pid], Plain(call))
  {
    var point := PointOf(w, call.pid);
    match call
    case Look(_, _) => EngineCallQuiet(w, call, digest, order);
    case Make(_, _, _, _) => EngineCallQuiet(w, call, digest, order);
    case Put(_) =>
    case Alias(_) =>
    case Mark(pid) => if MidStep(w, pid) { CompletedQuiet(w, pid); }
    case Map(pid) => if point.Known? && MidStep(w, pid) && HeadOf(w, pid).detail.MappingDetail? { MapQuiet(w, pid); }
  }

  lemma StepQuiet(w: World, call: Call, digest: Digest, order: Iteration)
    requires ByPass(call) && !call.Settle? && At(w, call.pid) && !w.ops[call.pid].status.Failed?
        && !PointOf(w, call.pid).Failing?
    ensures call.pid in PassStep(w, call, digest, order).ops
    ensures Quiet(w.ops[call.pid], PassStep(w, call, digest, order).ops[call.pid], Plain(call))
  {
    var o := w.ops[call.pid];
    var point := PointOf(w, call.pid);
    match call
    case Verify(_, valid, engine, processes) =>
      if point.Begun? { VerifyQuiet(o, valid, engine, processes, digest, order); }
    case Reconcile(_, clash) => if point.Ahead? && o.pass.value.pending == [] { ReconcileQuiet(o, clash); }
    case Check(_, valid, healthy) => if point.Checking? { CheckQuiet(o, valid, healthy); }
    case Stumble(_, trouble) => if !point.Ending? && !point.Failing? { TroubledQuiet(o, trouble); }
    case Conclude(_) =>
    case _ => RecordStepQuiet(w, call, digest, order);
  }

  lemma ClockGrows(w: World, call: Call, digest: Digest, order: Iteration)
    ensures Next(w, call, digest, order).now >= w.now
  {
    if ByPass(call) && At(w, call.pid) { PassClockStays(w, call, digest, order); }
  }

  lemma PassClockStays(w: World, call: Call, digest: Digest, order: Iteration)
    requires ByPass(call) && At(w, call.pid)
    ensures PassStep(w, call, digest, order).now == w.now
  {
    match call
    case Verify(_, _, _, _) =>
    case Look(_, _) =>
    case Make(_, _, _, _) =>
    case Put(_) =>
    case Alias(_) =>
    case Mark(_) =>
    case Map(_) =>
    case Reconcile(_, _) =>
    case Check(_, _, _) =>
    case Settle(_) =>
    case Conclude(_) =>
    case Stumble(_, _) =>
  }

  // ---------------------------------------------------------------------------------------------------------------
  // Failed for a cause
  // ---------------------------------------------------------------------------------------------------------------

  predicate Final(code: Option<Code>) {
    code.Some? && (Cause(code.value) || Budget(code.value))
  }

  /** Failed exactly with a cause or a spent budget as the last error; the outcome code is one only when it is that one;
      and the horizon is spent only when it has passed. */
  predicate CauseFits(o: Operation, now: Time) {
    && (o.status.Failed? <==> Final(o.lastError))
    && (Final(o.code) ==> o.lastError == o.code && o.pass.None?)
    && (o.lastError == Some(BLOCKED_HORIZON_EXCEEDED) ==> now - o.createdAt > HORIZON)
    && (o.pass.Some? ==>
          && o.pass.value.createdAt == o.createdAt
          && (o.pass.value.at.Ending? ==> EndFits(o.pass.value.at.outcome))
          && (o.pass.value.at.Failing? <==> o.status.Failed?)
          && (o.pass.value.at.Failing? ==> o.lastError == Some(o.pass.value.at.code)))
  }

  ghost predicate CausesFit(w: World) {
    forall pid {:trigger CauseFits(w.ops[pid], w.now)} :: pid in w.ops ==> CauseFits(w.ops[pid], w.now)
  }

  lemma SettledCauseFits(w: World, pid: Pid)
    requires At(w, pid) && PointOf(w, pid).Ending? && w.ops[pid].pass.value.attempts >= 1
        && CauseFits(w.ops[pid], w.now)
    ensures CauseFits(SettlePass(w, pid, PointOf(w, pid).outcome).ops[pid], w.now)
  {
  }

  lemma OwnCauseFits(w: World, call: Call, digest: Digest, order: Iteration)
    requires CausesFit(w) && ByPass(call) && At(w, call.pid)
    ensures call.pid in PassStep(w, call, digest, order).ops
    ensures CauseFits(PassStep(w, call, digest, order).ops[call.pid], w.now)
  {
    assert CauseFits(w.ops[call.pid], w.now);
    if PointOf(w, call.pid).Failing? {
      FailingWaits(w, call, digest, order);
    } else if !call.Settle? {
      StepQuiet(w, call, digest, order);
    } else if PointOf(w, call.pid).Ending? && w.ops[call.pid].pass.value.attempts >= 1 {
      SettledCauseFits(w, call.pid);
    }
  }

  /** A pass with its failure half recorded does nothing but record the other half. */
  lemma FailingWaits(w: World, call: Call, digest: Digest, order: Iteration)
    requires ByPass(call) && At(w, call.pid) && PointOf(w, call.pid).Failing?
    ensures PassStep(w, call, digest, order) == if call.Conclude? then With(w, call.pid, ConcludedRow(w.ops[call.pid]))
        else w
  {
  }

  lemma NextCauseFits(w: World, call: Call, digest: Digest, order: Iteration, pid: Pid)
    requires CausesFit(w) && pid in Next(w, call, digest, order).ops
    ensures var w' := Next(w, call, digest, order); CauseFits(w'.ops[pid], w'.now)
  {
    ClockGrows(w, call, digest, order);
    if pid in w.ops { assert CauseFits(w.ops[pid], w.now); }
    if About(call) != Some(pid) {
      if pid in w.ops {
        OthersAreLeft(w, call, digest, order, pid);
      } else {
        NobodyArrives(w, call, digest, order, pid);
      }
    } else if ByPass(call) && At(w, pid) {
      OwnCauseFits(w, call, digest, order);
      PassClockStays(w, call, digest, order);
    }
  }

  lemma StepCausesFit(w: World, call: Call, digest: Digest, order: Iteration)
    requires CausesFit(w)
    ensures CausesFit(Next(w, call, digest, order))
  {
    var w' := Next(w, call, digest, order);
    forall pid | pid in w'.ops ensures CauseFits(w'.ops[pid], w'.now) { NextCauseFits(w, call, digest, order, pid); }
  }

  lemma {:induction false} RunCausesFit(w: World, calls: seq<Call>, digest: Digest, order: Iteration)
    requires CausesFit(w)
    ensures CausesFit(Run(w, calls, digest, order))
    decreases |calls|
  {
    if calls != [] {
      StepCausesFit(w, calls[0], digest, order);
      RunCausesFit(Next(w, calls[0], digest, order), calls[1..], digest, order);
    }
  }

  // ---------------------------------------------------------------------------------------------------------------
  // Attempts counted
  // ---------------------------------------------------------------------------------------------------------------

  /** The count is of passes begun less those settled as blocked, and what a pass loaded is the count. */
  predicate CountFits(o: Operation, h: History) {
    && h.blocked <= h.begun && o.attempts == h.begun - h.blocked
    && (o.pass.Some? ==> 1 <= o.pass.value.attempts == o.attempts)
    && (o.lastError == Some(ATTEMPTS_EXHAUSTED) ==> o.attempts >= MAX_ATTEMPTS)
  }

  ghost predicate Counted(w: World, pid: Pid) {
    pid in w.ops ==> pid in w.history && CountFits(w.ops[pid], w.history[pid])
  }

  ghost predicate CountsFit(w: World) {
    forall pid {:trigger Counted(w, pid)} :: Counted(w, pid)
  }

  predicate SameCounts(h: History, h': History) {
    h'.begun == h.begun && h'.blocked == h.blocked
  }

  /** Only this operation's history changes, if any. */
  ghost predicate OnlyHistory(w: World, w': World, pid: Pid) {
    pid in w'.history && w'.history == w.history[pid := w'.history[pid]]
  }

  lemma MapKeepsCounts(w: World, pid: Pid)
    requires MidStep(w, pid) && HeadOf(w, pid).detail.MappingDetail?
    ensures var w' := MapTenant(w, pid); OnlyHistory(w, w', pid) && SameCounts(w.history[pid], w'.history[pid])
  {
  }

  lemma StepKeepsCounts(w: World, call: Call, digest: Digest, order: Iteration)
    requires ByPass(call) && OfStep(call) && At(w, call.pid)
    ensures var w' := PassStep(w, call, digest, order);
            OnlyHistory(w, w', call.pid) && SameCounts(w.history[call.pid], w'.history[call.pid])
  {
    match call
    case Look(_, _) =>
    case Make(_, _, _, _) =>
    case Put(_) =>
    case Alias(_) =>
    case Mark(_) =>
    case Map(pid) =>
      if PointOf(w, pid).Known? && MidStep(w, pid) && HeadOf(w, pid).detail.MappingDetail? { MapKeepsCounts(w, pid); }
  }

  lemma PassKeepsCounts(w: World, call: Call, digest: Digest, order: Iteration)
    requires ByPass(call) && At(w, call.pid)
    ensures var w' := PassStep(w, call, digest, order);
            && OnlyHistory(w, w', call.pid)
            && (!call.Settle? ==> SameCounts(w.history[call.pid], w'.history[call.pid]))
  {
    match call
    case Verify(_, _, _, _) =>
    case Reconcile(_, _) =>
    case Check(_, _, _) =>
    case Settle(_) =>
    case Conclude(_) =>
    case Stumble(_, _) =>
    case _ => StepKeepsCounts(w, call, digest, order);
  }

  lemma SettledCountFits(w: World, pid: Pid)
    requires At(w, pid) && PointOf(w, pid).Ending? && w.ops[pid].pass.value.attempts >= 1
    requires CauseFits(w.ops[pid], w.now) && CountFits(w.ops[pid], w.history[pid])
    ensures Counted(SettlePass(w, pid, PointOf(w, pid).outcome), pid)
  {
  }

  lemma OwnCountFits(w: World, call: Call, digest: Digest, order: Iteration)
    requires CausesFit(w) && CountsFit(w) && ByPass(call) && At(w, call.pid)
    ensures Counted(PassStep(w, call, digest, order), call.pid)
  {
    assert CauseFits(w.ops[call.pid], w.now) && Counted(w, call.pid);
    PassKeepsCounts(w, call, digest, order);
    if PointOf(w, call.pid).Failing? {
      FailingWaits(w, call, digest, order);
    } else if !call.Settle? {
      StepQuiet(w, call, digest, order);
    } else if PointOf(w, call.pid).Ending? && w.ops[call.pid].pass.value.attempts >= 1 {
      SettledCountFits(w, call.pid);
    }
  }

  lemma HistoryIsLeft(w: World, call: Call, digest: Digest, order: Iteration, pid: Pid)
    requires pid in w.history && About(call) != Some(pid)
    ensures var w' := Next(w, call, digest, order); pid in w'.history && w'.history[pid] == w.history[pid]
  {
    if ByPass(call) && At(w, call.pid) { PassKeepsCounts(w, call, digest, order); }
  }

  lemma NextCountFits(w: World, call: Call, digest: Digest, order: Iteration, pid: Pid)
    requires CausesFit(w) && CountsFit(w)
    ensures Counted(Next(w, call, digest, order), pid)
  {
    assert Counted(w, pid);
    if About(call) != Some(pid) {
      if pid in w.ops {
        OthersAreLeft(w, call, digest, order, pid);
        HistoryIsLeft(w, call, digest, order, pid);
      } else {
        NobodyArrives(w, call, digest, order, pid);
      }
    } else if ByPass(call) && At(w, pid) {
      OwnCountFits(w, call, digest, order);
    }
  }

  lemma {:induction false} RunCountsFit(w: World, calls: seq<Call>, digest: Digest, order: Iteration)
    requires CausesFit(w) && CountsFit(w)
    ensures CountsFit(Run(w, calls, digest, order))
    decreases |calls|
  {
    if calls != [] {
      StepCausesFit(w, calls[0], digest, order);
      var w' := Next(w, calls[0], digest, order);
      forall pid ensures Counted(w', pid) { NextCountFits(w, calls[0], digest, order, pid); }
      RunCountsFit(w', calls[1..], digest, order);
    }
  }

  /** The stored count is of the passes begun less those that were blocked, so no amount of waiting for an operator
      exhausts it: an operation is given up as exhausted only at its 24th pass that was not blocked, or a later one. */
  lemma AttemptAccounting(w: World, calls: seq<Call>, digest: Digest, order: Iteration, pid: Pid)
    requires w == Run(NOTHING, calls, digest, order) && pid in w.ops
    ensures pid in w.history && w.history[pid].blocked <= w.history[pid].begun
    ensures w.ops[pid].attempts == w.history[pid].begun - w.history[pid].blocked
    ensures w.ops[pid].code == Some(ATTEMPTS_EXHAUSTED) || w.ops[pid].lastError == Some(ATTEMPTS_EXHAUSTED) ==>
              w.history[pid].begun - w.history[pid].blocked >= 24
  {
    RunCausesFit(NOTHING, calls, digest, order);
    RunCountsFit(NOTHING, calls, digest, order);
    assert CauseFits(w.ops[pid], w.now) && Counted(w, pid);
  }

  /** An operation is failed exactly when its last error is a cause or a spent budget, and its outcome code is one only
      then: an engine that is down, a missing credential or process, a readiness not yet met or an unexpected error
      never fails one before its 24th pass that was not blocked, or its 72 hours, are over. */
  lemma FailedForCause(w: World, calls: seq<Call>, digest: Digest, order: Iteration, pid: Pid)
    requires w == Run(NOTHING, calls, digest, order) && pid in w.ops
    ensures var o := w.ops[pid];
            && pid in w.history
            && (o.status.Failed? <==> Final(o.lastError))
            && (Final(o.code) ==> o.status.Failed? && o.code == o.lastError)
            && (o.lastError == Some(ATTEMPTS_EXHAUSTED) ==> w.history[pid].begun - w.history[pid].blocked >= 24)
            && (o.lastError == Some(BLOCKED_HORIZON_EXCEEDED) ==> w.now - o.createdAt > 72 * 3600 * SECOND)
  {
    RunCausesFit(NOTHING, calls, digest, order);
    AttemptAccounting(w, calls, digest, order, pid);
    assert CauseFits(w.ops[pid], w.now);
  }

  // ---------------------------------------------------------------------------------------------------------------
  // A failure whose code was never recorded
  // ---------------------------------------------------------------------------------------------------------------

  /** Failed and left alone, with an outcome code that is not the failure's. */
  predicate Lost(o: Operation) {
    o.status.Failed? && o.pass.None? && o.code != o.lastError
  }

  predicate FailingNow(w: World, pid: Pid) {
    pid in w.ops && w.ops[pid].pass.Some? && w.ops[pid].pass.value.at.Failing?
  }

  /** Somewhere in the run the pass died between the two commits of its failure. */
  ghost predicate CutShort(w: World, calls: seq<Call>, digest: Digest, order: Iteration, pid: Pid)
    decreases |calls|
  {
    calls != [] &&
      ((calls[0] == Crash(pid) && FailingNow(w, pid))
          || CutShort(Next(w, calls[0], digest, order), calls[1..], digest, order, pid))
  }

  lemma PassNeverLoses(w: World, call: Call, digest: Digest, order: Iteration)
    requires CausesFit(w) && ByPass(call) && At(w, call.pid)
    ensures call.pid in PassStep(w, call, digest, order).ops && !Lost(PassStep(w, call, digest, order).ops[call.pid])
  {
    assert CauseFits(w.ops[call.pid], w.now);
    if PointOf(w, call.pid).Failing? {
      FailingWaits(w, call, digest, order);
    } else if !call.Settle? {
      StepQuiet(w, call, digest, order);
    }
  }

  /** Only that loses a code, and what is lost is lost for good. */
  lemma StepLoses(w: World, call: Call, digest: Digest, order: Iteration, pid: Pid)
    requires CausesFit(w)
    ensures var w' := Next(w, call, digest, order);
            pid in w'.ops && Lost(w'.ops[pid]) <==>
              (pid in w.ops && Lost(w.ops[pid])) || (call == Crash(pid) && FailingNow(w, pid))
  {
    if pid in w.ops { assert CauseFits(w.ops[pid], w.now); }
    if About(call) != Some(pid) {
      if pid in w.ops {
        OthersAreLeft(w, call, digest, order, pid);
      } else {
        NobodyArrives(w, call, digest, order, pid);
      }
    } else if ByPass(call) && At(w, pid) {
      PassNeverLoses(w, call, digest, order);
    }
  }

  lemma {:induction false} LostByCutShort(w: World, calls: seq<Call>, digest: Digest, order: Iteration, pid: Pid)
    requires CausesFit(w)
    ensures var w' := Run(w, calls, digest, order);
            pid in w'.ops && Lost(w'.ops[pid]) <==>
                (pid in w.ops && Lost(w.ops[pid])) || CutShort(w, calls, digest, order, pid)
    decreases |calls|
  {
    if calls != [] {
      StepCausesFit(w, calls[0], digest, order);
      StepLoses(w, calls[0], digest, order, pid);
      LostByCutShort(Next(w, calls[0], digest, order), calls[1..], digest, order, pid);
    }
  }

  /** A failed operation that is left alone shows its failure's code exactly when its pass did not die between the two
      commits; if it did, the operation is never taken up again and keeps the code it had for good. */
  lemma CodeLostExactlyByCrash(w: World, calls: seq<Call>, digest: Digest, order: Iteration, pid: Pid)
    requires w == Run(NOTHING, calls, digest, order) && pid in w.ops && w.ops[pid].status.Failed?
        && w.ops[pid].pass.None?
    ensures w.ops[pid].code == w.ops[pid].lastError <==> !CutShort(NOTHING, calls, digest, order, pid)
  {
    LostByCutShort(NOTHING, calls, digest, order, pid);
  }

  /** A first pass that finds the request invalid and dies between the two commits. */
  function Unlucky(r: Request): seq<Call> {
    var pid := r.provisioningId;
    [Accept(r), Begin(pid), Verify(pid, false, true, true), Settle(pid), Crash(pid)]
  }

  /** Any request can end like that: failed as invalid, with no outcome code at all. */
  lemma CodeCanBeLost(r: Request, digest: Digest, order: Iteration)
    requires Faithful(digest) && Iterates(order)
    ensures LostAsInvalid(Run(NOTHING, Unlucky(r), digest, order), r.provisioningId)
  {
    var pid := r.provisioningId;
    var w2 := BeginPass(Admitted(NOTHING, r, digest, order), pid);
    RefusedAsInvalid(w2, r, digest, order);
    UnluckyEnds(w2, pid, digest, order);
    UnluckyRuns(r, digest, order);
    assert Unlucky(r)[2..] == [Verify(pid, false, true, true)] + [Settle(pid), Crash(pid)];
  }

  predicate LostAsInvalid(w: World, pid: Pid) {
    && pid in w.ops
    && w.ops[pid].status.Failed? && w.ops[pid].pass.None? && w.ops[pid].code.None?
        && w.ops[pid].lastError == Some(STEP_INVALID)
  }

  lemma Leads(w: World, call: Call, w': World, rest: seq<Call>, digest: Digest, order: Iteration)
    requires Next(w, call, digest, order) == w'
    ensures Run(w, [call] + rest, digest, order) == Run(w', rest, digest, order)
  {
    assert ([call] + rest)[1..] == rest;
  }

  lemma AcceptLeads(r: Request, rest: seq<Call>, digest: Digest, order: Iteration)
    ensures Run(NOTHING, [Accept(r)] + rest, digest, order) == Run(Admitted(NOTHING, r, digest, order), rest, digest,
        order)
  {
    Leads(NOTHING, Accept(r), Admitted(NOTHING, r, digest, order), rest, digest, order);
  }

  lemma BeginLeads(w: World, pid: Pid, rest: seq<Call>, digest: Digest, order: Iteration)
    requires pid in w.ops && pid in w.history
    ensures Run(w, [Begin(pid)] + rest, digest, order) == Run(BeginPass(w, pid), rest, digest, order)
  {
    Leads(w, Begin(pid), BeginPass(w, pid), rest, digest, order);
  }

  lemma UnluckyRuns(r: Request, digest: Digest, order: Iteration)
    ensures var pid := r.provisioningId;
            var w2 := BeginPass(Admitted(NOTHING, r, digest, order), pid);
            Run(NOTHING, Unlucky(r), digest, order) == Run(w2, Unlucky(r)[2..], digest, order)
  {
    var calls := Unlucky(r);
    AcceptLeads(r, calls[1..], digest, order);
    BeginLeads(Admitted(NOTHING, r, digest, order), r.provisioningId, calls[2..], digest, order);
    assert [calls[0]] + calls[1..] == calls && [calls[1]] + calls[2..] == calls[1..];
  }

  lemma RefusedAsInvalid(w: World, r: Request, digest: Digest, order: Iteration)
    requires Faithful(digest) && Iterates(order)
        && w == BeginPass(Admitted(NOTHING, r, digest, order), r.provisioningId)
    ensures var pid := r.provisioningId;
            && At(w, pid) && w.ops[pid].pass.value.attempts == 1 && w.ops[pid].code.None?
            && Next(w, Verify(pid, false, true, true), digest, order) == With(w, pid, Troubled(w.ops[pid], Invalid))
  {
    var pid := r.provisioningId;
    VerifiedIsAccepted(DesiredState(r, order), r, digest, order, order);
    assert Obstacle(w.ops[pid].pass.value, false, true, true, digest, order) == Some(Invalid);
    assert VerifyPass(w.ops[pid], false, true, true, digest, order) == Troubled(w.ops[pid], Invalid);
    assert Next(w, Verify(pid, false, true, true), digest, order) == PassStep(w, Verify(pid, false, true, true), digest,
        order);
  }

  lemma UnluckyEnds(w: World, pid: Pid, digest: Digest, order: Iteration)
    requires At(w, pid) && w.ops[pid].pass.value.attempts >= 1 && w.ops[pid].code.None?
    requires Next(w, Verify(pid, false, true, true), digest, order) == With(w, pid, Troubled(w.ops[pid], Invalid))
    ensures LostAsInvalid(Run(w, [Verify(pid, false, true, true)] + [Settle(pid), Crash(pid)], digest, order), pid)
  {
    var w3 := With(w, pid, Troubled(w.ops[pid], Invalid));
    Leads(w, Verify(pid, false, true, true), w3, [Settle(pid), Crash(pid)], digest, order);
    InvalidDies(w3, pid, digest, order);
  }

  lemma InvalidDies(w: World, pid: Pid, digest: Digest, order: Iteration)
    requires At(w, pid) && PointOf(w, pid) == Ending(Classify(Invalid)) && w.ops[pid].pass.value.attempts >= 1
    requires w.ops[pid].code.None?
    ensures LostAsInvalid(Run(w, [Settle(pid), Crash(pid)], digest, order), pid)
  {
    var failed := With(w, pid, FailedRow(w.ops[pid], STEP_INVALID));
    InvalidFails(w, pid, digest, order);
    Leads(w, Settle(pid), failed, [Crash(pid)], digest, order);
    assert [Settle(pid)] + [Crash(pid)] == [Settle(pid), Crash(pid)];
    FailedDies(failed, pid, digest, order);
  }

  lemma FailedDies(w: World, pid: Pid, digest: Digest, order: Iteration)
    requires At(w, pid)
    ensures Run(w, [Crash(pid)], digest, order) == With(w, pid, w.ops[pid].(pass := None))
  {
    assert [Crash(pid)][1..] == [];
  }

  lemma InvalidFails(w: World, pid: Pid, digest: Digest, order: Iteration)
    requires At(w, pid) && PointOf(w, pid) == Ending(Classify(Invalid)) && w.ops[pid].pass.value.attempts >= 1
    ensures Next(w, Settle(pid), digest, order) == With(w, pid, FailedRow(w.ops[pid], STEP_INVALID))
  {
    assert SettlePass(w, pid, PointOf(w, pid).outcome) == With(w, pid, FailedRow(w.ops[pid], STEP_INVALID));
    assert Next(w, Settle(pid), digest, order) == PassStep(w, Settle(pid), digest, order);
  }

  // ---------------------------------------------------------------------------------------------------------------
  // Drift
  // ---------------------------------------------------------------------------------------------------------------

  /** Whether a stored state, under a digest, reads as an accepted request whose plan is the stored one. */
  type Reading = (Json, Option<string>, seq<Step>) -> bool

  ghost predicate Reads(reading: Reading, digest: Digest, order: Iteration) {
    forall state, under, plan ::
      reading(state, under, plan) <==>
        && VerifiedRequest(state, under, digest, order).Ok?
        && plan == PlanOf(VerifiedRequest(state, under, digest, order).value, digest, order).steps
  }

  /** The row still reads as the request its digest accepted, with its plan; no pass has found otherwise. */
  predicate Intact(o: Operation, reading: Reading) {
    && reading(o.state, o.digest, o.plan)
    && (o.code.Some? ==> !Astray(o.code.value)) && (o.lastError.Some? ==> !Astray(o.lastError.value))
    && (o.pass.Some? ==>
          && o.pass.value.state == o.state && o.pass.value.digest == o.digest && o.pass.value.plan == o.plan
          && (o.pass.value.at.Ending? ==> !Astray(o.pass.value.at.outcome.code))
          && (o.pass.value.at.Failing? ==> !Astray(o.pass.value.at.code)))
  }

  /** Nobody edits the stored request or plan of `pid`, and the state is spoken of only where it is verified. */
  predicate Unedited(call: Call, pid: Pid) {
    (Plain(call) || call.Verify?) && (call.Edit? ==> call.pid != pid)
  }

  predicate UneditedRun(calls: seq<Call>, pid: Pid) {
    forall i :: 0 <= i < |calls| ==> Unedited(calls[i], pid)
  }

  lemma VerifyIntact(o: Operation, valid: bool, engine: bool, processes: bool, digest: Digest, order: Iteration,
      reading: Reading)
    requires o.pass.Some? && !o.status.Failed? && Intact(o, reading) && Reads(reading, digest, order)
    ensures Quiet(o, VerifyPass(o, valid, engine, processes, digest, order), true)
  {
    var obstacle := Obstacle(o.pass.value, valid, engine, processes, digest, order);
    assert reading(o.pass.value.state, o.pass.value.digest, o.pass.value.plan);
    if obstacle.Some? { TroubledQuiet(o, obstacle.value); }
  }

  lemma AdmittedIntact(w: World, r: Request, digest: Digest, order: Iteration, reading: Reading)
    requires Faithful(digest) && Iterates(order) && Reads(reading, digest, order)
    ensures Intact(Admitted(w, r, digest, order).ops[r.provisioningId], reading)
  {
    VerifiedIsAccepted(DesiredState(r, order), r, digest, order, order);
    var o := Admitted(w, r, digest, order).ops[r.provisioningId];
    assert reading(o.state, o.digest, o.plan);
  }

  lemma SettledIntact(w: World, pid: Pid, reading: Reading)
    requires At(w, pid) && PointOf(w, pid).Ending? && w.ops[pid].pass.value.attempts >= 1 && Intact(w.ops[pid], reading)
    ensures Intact(SettlePass(w, pid, PointOf(w, pid).outcome).ops[pid], reading)
  {
    var p := w.ops[pid].pass.value;
    var final := ApplyBudgets(p.at.outcome, p.attempts, p.createdAt, w.now);
    if final.verdict.Fail? {
      assert Intact(FailedRow(w.ops[pid], final.code), reading);
    } else {
      assert Intact(RecordedPass(w, pid, final).ops[pid], reading);
    }
  }

  lemma OwnStaysIntact(w: World, call: Call, digest: Digest, order: Iteration, reading: Reading)
    requires CausesFit(w) && Reads(reading, digest, order) && ByPass(call) && At(w, call.pid)
    requires Unedited(call, call.pid) && Intact(w.ops[call.pid], reading)
    ensures call.pid in PassStep(w, call, digest, order).ops
    ensures Intact(PassStep(w, call, digest, order).ops[call.pid], reading)
  {
    assert CauseFits(w.ops[call.pid], w.now);
    if PointOf(w, call.pid).Failing? {
      FailingWaits(w, call, digest, order);
    } else {
      OpenStaysIntact(w, call, digest, order, reading);
    }
  }

  lemma OpenStaysIntact(w: World, call: Call, digest: Digest, order: Iteration, reading: Reading)
    requires Reads(reading, digest, order) && ByPass(call) && At(w, call.pid)
    requires !w.ops[call.pid].status.Failed? && !PointOf(w, call.pid).Failing?
    requires Unedited(call, call.pid) && Intact(w.ops[call.pid], reading)
    ensures call.pid in PassStep(w, call, digest, order).ops
    ensures Intact(PassStep(w, call, digest, order).ops[call.pid], reading)
  {
    var o := w.ops[call.pid];
    if call.Settle? {
      if PointOf(w, call.pid).Ending? && o.pass.value.attempts >= 1 { SettledIntact(w, call.pid, reading); }
    } else if call.Verify? {
      VerifyStaysIntact(w, call, digest, order, reading);
    } else {
      StepQuiet(w, call, digest, order);
      QuietIntact(o, PassStep(w, call, digest, order).ops[call.pid], reading);
    }
  }

  lemma QuietIntact(o: Operation, o': Operation, reading: Reading)
    requires Intact(o, reading) && Quiet(o, o', true)
    ensures Intact(o', reading)
  {
  }

  lemma VerifyStaysIntact(w: World, call: Call, digest: Digest, order: Iteration, reading: Reading)
    requires Reads(reading, digest, order) && call.Verify? && At(w, call.pid)
    requires !w.ops[call.pid].status.Failed? && Intact(w.ops[call.pid], reading)
    ensures call.pid in PassStep(w, call, digest, order).ops
    ensures Intact(PassStep(w, call, digest, order).ops[call.pid], reading)
  {
    var o := w.ops[call.pid];
    if PointOf(w, call.pid).Begun? {
      VerifyIntact(o, call.valid, call.engine, call.processes, digest, order, reading);
      QuietIntact(o, VerifyPass(o, call.valid, call.engine, call.processes, digest, order), reading);
    }
  }

  lemma NextStaysIntact(w: World, call: Call, digest: Digest, order: Iteration, reading: Reading, pid: Pid)
    requires CausesFit(w) && Faithful(digest) && Iterates(order) && Reads(reading, digest, order) && Unedited(call, pid)
    requires pid in w.ops ==> Intact(w.ops[pid], reading)
    requires pid in Next(w, call, digest, order).ops
    ensures Intact(Next(w, call, digest, order).ops[pid], reading)
  {
    if About(call) != Some(pid) {
      if pid in w.ops {
        OthersAreLeft(w, call, digest, order, pid);
      } else {
        NobodyArrives(w, call, digest, order, pid);
      }
    } else if call.Accept? {
      if pid !in w.ops { AdmittedIntact(w, call.request, digest, order, reading); }
    } else if ByPass(call) {
      if At(w, pid) { OwnStaysIntact(w, call, digest, order, reading); }
    } else {
      BegunStaysIntact(w, call, digest, order, reading);
    }
  }

  lemma BegunStaysIntact(w: World, call: Call, digest: Digest, order: Iteration, reading: Reading)
    requires (call.Begin? || call.Crash? || call.Close?) && (call.pid in w.ops ==> Intact(w.ops[call.pid], reading))
    requires call.pid in Next(w, call, digest, order).ops
    ensures Intact(Next(w, call, digest, order).ops[call.pid], reading)
  {
  }

  lemma {:induction false} RunStaysIntact(w: World, calls: seq<Call>, digest: Digest, order: Iteration,
                                          reading: Reading, pid: Pid)
    requires CausesFit(w) && (pid in w.ops ==> Intact(w.ops[pid], reading)) && UneditedRun(calls, pid)
    requires Faithful(digest) && Iterates(order) && Reads(reading, digest, order)
    ensures var w' := Run(w, calls, digest, order); pid in w'.ops ==> Intact(w'.ops[pid], reading)
    decreases |calls|
  {
    if calls != [] {
      var w' := Next(w, calls[0], digest, order);
      StepCausesFit(w, calls[0], digest, order);
      assert Unedited(calls[0], pid);
      forall i | 0 <= i < |calls[1..]| ensures Unedited(calls[1..][i], pid) { assert calls[1..][i] == calls[i + 1]; }
      if pid in w'.ops { NextStaysIntact(w, calls[0], digest, order, reading, pid); }
      RunStaysIntact(w', calls[1..], digest, order, reading, pid);
    }
  }

  /** Drift is real: an operation whose stored request and plan nobody edits is never failed as drifted or
      unreadable. */
  lemma DriftMeansEdited(w: World, calls: seq<Call>, digest: Digest, order: Iteration, pid: Pid)
    requires Faithful(digest) && Iterates(order)
    requires w == Run(NOTHING, calls, digest, order) && pid in w.ops && UneditedRun(calls, pid)
    ensures w.ops[pid].code != Some(STATE_DRIFT) && w.ops[pid].code != Some(STATE_UNREADABLE)
    ensures w.ops[pid].lastError != Some(STATE_DRIFT) && w.ops[pid].lastError != Some(STATE_UNREADABLE)
  {
    var reading := (state: Json, under: Option<string>, plan: seq<Step>) =>
      && VerifiedRequest(state, under, digest, order).Ok?
      && plan == PlanOf(VerifiedRequest(state, under, digest, order).value, digest, order).steps;
    RunStaysIntact(NOTHING, calls, digest, order, reading, pid);
  }
}
