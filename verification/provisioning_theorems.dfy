/** What provisioning execution promises, proved over every interleaving of operations, crashes, edits and unanswered
    calls. */
module ProvisioningTheorems {
  import opened Prelude
  import opened RequestState
  import opened ProvisioningPlan
  import opened Provisioning
  import opened ProvisioningSafety
  import CommandState

  ghost predicate Reached(w: World, calls: seq<Call>, planner: Planner, digest: Digest, order: Iteration) {
    && Plans(planner, digest, order) && Faithful(digest) && Iterates(order) && CallsAccepted(calls)
    && w == Run(NOTHING, calls, digest, order)
  }

  lemma ReachedFits(w: World, calls: seq<Call>, planner: Planner, digest: Digest, order: Iteration)
    requires Reached(w, calls, planner, digest, order)
    ensures Inv(w, planner)
  {
    RunKeeps(NOTHING, calls, planner, digest, order);
  }

  /** Resume: the completed steps are always the first ones of the accepted request's plan, whatever dies where. */
  lemma CompletedIsAPrefix(w: World, calls: seq<Call>, planner: Planner, digest: Digest, order: Iteration, pid: Pid)
    requires Reached(w, calls, planner, digest, order) && pid in w.ops
    ensures pid in w.history
    ensures var steps := PlanOf(w.history[pid].accepted, digest, order).steps;
            w.history[pid].done <= |steps| && w.ops[pid].completed == KeySet(steps[..w.history[pid].done])
  {
    ReachedFits(w, calls, planner, digest, order);
    assert OpFits(w, pid) && PlanRecorded(w, pid, planner);
    RecordedIsPlan(w, pid, planner, digest, order);
  }

  /** Create once: two engine records that carry one plan step's marker are the same record. */
  lemma AtMostOneRecord(w: World, calls: seq<Call>, planner: Planner, digest: Digest, order: Iteration, pid: Pid,
      i: nat, k: RecordKey, l: RecordKey)
    requires Reached(w, calls, planner, digest, order) && pid in w.history && i < |w.history[pid].steps|
    requires k in w.records && Marker(w.history[pid].steps[i].key) == Some(w.records[k].description)
    requires l in w.records && Marker(w.history[pid].steps[i].key) == Some(w.records[l].description)
    ensures k == l
    ensures Creates(w.history[pid].steps[i]) && k.instance == w.history[pid].accepted.instance
            && k.table == TableOf(w.history[pid].steps[i])
  {
    ReachedFits(w, calls, planner, digest, order);
    MarkedOrigin(w, planner, pid, i, k);
    MarkedOrigin(w, planner, pid, i, l);
    assert OneRecord(w, k, l) && RecordFits(w, k);
  }

  lemma MarkedOrigin(w: World, planner: Planner, pid: Pid, i: nat, k: RecordKey)
    requires Inv(w, planner) && pid in w.history && i < |w.history[pid].steps|
    requires k in w.records && Marker(w.history[pid].steps[i].key) == Some(w.records[k].description)
    ensures w.records[k].origin == Some((pid, i))
  {
    assert RecordFits(w, k);
    MarkerOpens(w.history[pid].steps[i].key);
    var (q, j) := w.records[k].origin.value;
    NamesApart(w.history[pid].steps[i], w.history[q].steps[j]);
    assert KeyApart(w, pid, i, q, j);
  }

  /** Ready means provisioned: every step is completed, and the tenant's active mapping names the AD_Client that carries
      this operation's own client marker, in the engine instance that was asked for. */
  lemma ReadyIsProvisioned(w: World, calls: seq<Call>, planner: Planner, digest: Digest, order: Iteration, pid: Pid)
    requires Reached(w, calls, planner, digest, order) && pid in w.ops && w.ops[pid].status.Ready?
    ensures pid in w.history
    ensures var r, steps := w.history[pid].accepted, w.history[pid].steps;
            && steps == PlanOf(r, digest, order).steps && steps != [] && w.ops[pid].completed == KeySet(steps)
            && (r.tenant, r.legalEntity) in w.tenants
            && var row := w.tenants[(r.tenant, r.legalEntity)];
            && row.org == ALL_ORGANIZATIONS && row.instance == r.instance
            && var key := RecordKey(r.instance, AD_CLIENT, row.client);
            && key in w.records && Some(w.records[key].description) == Marker(steps[0].key)
  {
    ReachedFits(w, calls, planner, digest, order);
    assert OpFits(w, pid) && PlanRecorded(w, pid, planner);
    RecordedIsPlan(w, pid, planner, digest, order);
    var h := w.history[pid];
    assert h.steps[..h.done] == h.steps;
    assert StepHolds(w, pid, 0) && StepHolds(w, pid, |h.steps| - 1) && NativeFits(w, pid, 0);
    var key := RecordKey(h.accepted.instance, AD_CLIENT, w.ops[pid].natives[ResourceKey(h.steps[0])]);
    assert RecordFits(w, key);
  }

  /** Ready means every client and warehouse is there, once: each create step's marker is on exactly one engine record,
      the one its mapping row names. */
  lemma ReadyHasEveryRecord(w: World, calls: seq<Call>, planner: Planner, digest: Digest, order: Iteration, pid: Pid,
      i: nat)
    requires Reached(w, calls, planner, digest, order) && pid in w.ops && w.ops[pid].status.Ready?
    requires pid in w.history && i < |w.history[pid].steps| && Creates(w.history[pid].steps[i])
    ensures var step := w.history[pid].steps[i];
            && ResourceKey(step) in w.ops[pid].natives
            && var own :=
                RecordKey(w.history[pid].accepted.instance, TableOf(step), w.ops[pid].natives[ResourceKey(step)]);
            forall k :: k in w.records && Some(w.records[k].description) == Marker(step.key) <==> k == own
  {
    ReachedFits(w, calls, planner, digest, order);
    var h := w.history[pid];
    var step := h.steps[i];
    assert OpFits(w, pid);
    assert StepHolds(w, pid, i) && NativeFits(w, pid, i);
    var own := RecordKey(h.accepted.instance, TableOf(step), w.ops[pid].natives[ResourceKey(step)]);
    assert RecordFits(w, own);
    forall k | k in w.records && Some(w.records[k].description) == Marker(step.key) ensures k == own {
      AtMostOneRecord(w, calls, planner, digest, order, pid, i, k, own);
    }
  }

  // ---------------------------------------------------------------------------------------------------------------
  // What the command sees of an operation
  // ---------------------------------------------------------------------------------------------------------------

  /** The operation a call is about. */
  function About(call: Call): Option<Pid> {
    match call
    case Accept(r) => Some(r.provisioningId)
    case Foreign(_, _) => None
    case Onboard(_, _) => None
    case Tick(_) => None
    case _ => Some(call.pid)
  }

  /** A call about another operation leaves this one alone. */
  lemma OthersAreLeft(w: World, call: Call, digest: Digest, order: Iteration, pid: Pid)
    requires pid in w.ops && About(call) != Some(pid)
    ensures var w' := Next(w, call, digest, order); pid in w'.ops && w'.ops[pid] == w.ops[pid]
  {
    if ByPass(call) && At(w, call.pid) {
      OtherPassesAreLeft(w, call, digest, order, pid);
    }
  }

  lemma OtherPassesAreLeft(w: World, call: Call, digest: Digest, order: Iteration, pid: Pid)
    requires pid in w.ops && ByPass(call) && At(w, call.pid) && call.pid != pid
    ensures var w' := PassStep(w, call, digest, order); pid in w'.ops && w'.ops[pid] == w.ops[pid]
  {
    PassTouchesOwn(w, call, digest, order);
  }

  /** A call of a pass inside a step. */
  predicate OfStep(call: Call) {
    call.Look? || call.Make? || call.Put? || call.Alias? || call.Mark? || call.Map?
  }

  predicate OnlyOwn(w: World, w': World, pid: Pid) {
    pid in w'.ops && w'.ops == w.ops[pid := w'.ops[pid]]
  }

  lemma StepTouchesOwn(w: World, call: Call, digest: Digest, order: Iteration)
    requires ByPass(call) && OfStep(call) && At(w, call.pid)
    ensures OnlyOwn(w, PassStep(w, call, digest, order), call.pid)
  {
    match call
    case Look(_, _) =>
    case Make(_, _, _, _) =>
    case Put(_) =>
    case Alias(_) =>
    case Mark(_) =>
    case Map(_) =>
  }

  lemma PassTouchesOwn(w: World, call: Call, digest: Digest, order: Iteration)
    requires ByPass(call) && At(w, call.pid)
    ensures OnlyOwn(w, PassStep(w, call, digest, order), call.pid)
  {
    match call
    case Verify(_, _, _, _) =>
    case Reconcile(_, _) =>
    case Check(_, _, _) =>
    case Settle(_) =>
    case Conclude(_) =>
    case Stumble(_, _) =>
    case _ => StepTouchesOwn(w, call, digest, order);
  }

  /** Inside a step no call changes the status. */
  lemma StepsKeepStatus(w: World, call: Call, digest: Digest, order: Iteration)
    requires ByPass(call) && At(w, call.pid) && !call.Verify? && !call.Reconcile? && !call.Check? && !call.Settle?
    ensures var w' := PassStep(w, call, digest, order);
            call.pid in w'.ops && w'.ops[call.pid].status == w.ops[call.pid].status
  {
    match call
    case Look(pid, reply) => if PointOf(w, pid).Ahead? && MidStep(w, pid) { LookKeepsRow(w, pid, reply); }
    case Make(_, _, _, _) =>
    case Put(_) =>
    case Alias(_) =>
    case Mark(_) =>
    case Conclude(_) =>
    case Map(pid) => if PointOf(w, pid).Known? && MidStep(w, pid)
        && HeadOf(w, pid).detail.MappingDetail? { MapKeepsStatus(w, pid); }
    case Stumble(_, _) =>
  }

  lemma LookKeepsRow(w: World, pid: Pid, reply: Option<Trouble>)
    requires MidStep(w, pid)
    ensures LookUp(w, pid, reply).status == w.ops[pid].status && LookUp(w, pid, reply).lastError == w.ops[pid].lastError
  {
  }

  lemma MapKeepsStatus(w: World, pid: Pid)
    requires At(w, pid) && MidStep(w, pid) && HeadOf(w, pid).detail.MappingDetail?
    ensures pid in MapTenant(w, pid).ops && MapTenant(w, pid).ops[pid].status == w.ops[pid].status
  {
  }

  /** The status says where a pass is: applying while it has steps left to apply, reconciling while it is checked,
      failed from the first commit of its failure on. */
  lemma StatusTellsPlace(w: World, calls: seq<Call>, planner: Planner, digest: Digest, order: Iteration, pid: Pid)
    requires Reached(w, calls, planner, digest, order) && At(w, pid)
    ensures var o, at := w.ops[pid], PointOf(w, pid);
            && (MidStep(w, pid) && !at.Begun? && !at.Ending? && !at.Failing? ==> o.status.Applying?)
            && (at.Checking? ==> o.status.Reconciling?)
            && (at.Begun? ==> o.status.Planned? || o.status.Applying? || o.status.Reconciling?)
            && (at.Failing? <==> o.status.Failed?)
  {
    ReachedFits(w, calls, planner, digest, order);
    assert OpFits(w, pid) && PassFits(w, pid);
  }

  lemma StepsKeepError(w: World, call: Call, digest: Digest, order: Iteration)
    requires ByPass(call) && At(w, call.pid) && !call.Verify? && !call.Reconcile? && !call.Check? && !call.Settle?
    ensures var w' := PassStep(w, call, digest, order);
            call.pid in w'.ops && w'.ops[call.pid].lastError == w.ops[call.pid].lastError
  {
    match call
    case Look(pid, reply) => if PointOf(w, pid).Ahead? && MidStep(w, pid) { LookKeepsRow(w, pid, reply); }
    case Make(_, _, _, _) =>
    case Put(_) =>
    case Alias(_) =>
    case Mark(_) =>
    case Conclude(_) =>
    case Map(pid) => if PointOf(w, pid).Known? && MidStep(w, pid)
        && HeadOf(w, pid).detail.MappingDetail? { MapKeepsError(w, pid); }
    case Stumble(_, _) =>
  }

  lemma MapKeepsError(w: World, pid: Pid)
    requires At(w, pid) && MidStep(w, pid) && HeadOf(w, pid).detail.MappingDetail?
    ensures pid in MapTenant(w, pid).ops && MapTenant(w, pid).ops[pid].lastError == w.ops[pid].lastError
  {
  }

  /** Before it is settled a pass touches the last error only to clear it, and every move of the status does. */
  lemma ErrorGoesWithStatus(w: World, call: Call, digest: Digest, order: Iteration)
    requires ByPass(call) && At(w, call.pid) && !call.Settle?
    ensures var o, w' := w.ops[call.pid], PassStep(w, call, digest, order);
            && call.pid in w'.ops
            && var o' := w'.ops[call.pid];
               && (o'.status != o.status ==> o'.lastError.None?)
               && (o'.lastError == o.lastError || o'.lastError.None?)
  {
    if call.Verify? || call.Reconcile? || call.Check? {
      match call
      case Verify(_, _, _, _) =>
      case Reconcile(_, _) =>
      case Check(_, _, _) =>
    } else {
      StepsKeepStatus(w, call, digest, order);
      StepsKeepError(w, call, digest, order);
    }
  }

  /** Every call moves an entity's status on, forward or to failed: what the command's state rests on. */
  lemma StatusMovesOn(w: World, call: Call, planner: Planner, digest: Digest, order: Iteration, pid: Pid)
    requires Inv(w, planner) && Plans(planner, digest, order) && Faithful(digest) && Iterates(order)
    requires pid in w.ops
    ensures var w' := Next(w, call, digest, order);
            pid in w'.ops && CommandState.MovesOn(w.ops[pid].status, w'.ops[pid].status)
  {
    assert OpFits(w, pid);
    if About(call) != Some(pid) {
      OthersAreLeft(w, call, digest, order, pid);
    } else if ByPass(call) && At(w, pid) {
      OwnPassMovesOn(w, call, planner, digest, order);
    }
  }

  lemma OwnPassMovesOn(w: World, call: Call, planner: Planner, digest: Digest, order: Iteration)
    requires Inv(w, planner) && Plans(planner, digest, order) && Faithful(digest) && Iterates(order)
    requires ByPass(call) && At(w, call.pid)
    ensures var w' := PassStep(w, call, digest, order);
            call.pid in w'.ops && CommandState.MovesOn(w.ops[call.pid].status, w'.ops[call.pid].status)
  {
    assert OpFits(w, call.pid);
    match call
    case Verify(pid, valid, engine, processes) =>
      if PointOf(w, pid).Begun? { VerifyMovesOn(w, pid, valid, engine, processes, planner, digest, order); }
    case Reconcile(_, _) => LastStepsMoveOn(w, call, digest, order);
    case Check(_, _, _) => LastStepsMoveOn(w, call, digest, order);
    case Settle(_) => LastStepsMoveOn(w, call, digest, order);
    case _ => StepsKeepStatus(w, call, digest, order);
  }

  lemma LastStepsMoveOn(w: World, call: Call, digest: Digest, order: Iteration)
    requires ByPass(call) && At(w, call.pid) && OpFits(w, call.pid) && (call.Reconcile? || call.Check? || call.Settle?)
    ensures var w' := PassStep(w, call, digest, order);
            call.pid in w'.ops && CommandState.MovesOn(w.ops[call.pid].status, w'.ops[call.pid].status)
  {
    assert PassFits(w, call.pid);
  }

  lemma VerifyMovesOn(w: World, pid: Pid, valid: bool, engine: bool, processes: bool, planner: Planner, digest: Digest,
                      order: Iteration)
    requires Inv(w, planner) && Plans(planner, digest, order) && Faithful(digest) && Iterates(order)
    requires At(w, pid) && PointOf(w, pid).Begun?
    ensures CommandState.MovesOn(w.ops[pid].status,
        VerifyPass(w.ops[pid], valid, engine, processes, digest, order).status)
  {
    assert OpFits(w, pid) && PassFits(w, pid);
    if Obstacle(w.ops[pid].pass.value, valid, engine, processes, digest, order).None? {
      VerifiedPlan(w, pid, valid, engine, processes, planner, digest, order);
    }
  }

  // ---------------------------------------------------------------------------------------------------------------
  // Ready for good
  // ---------------------------------------------------------------------------------------------------------------

  /** A ready operation has no pass, or one that has finished and is about to be recorded. */
  predicate Rested(o: Operation) {
    o.status.Ready? && o.pass.Some? ==> o.pass.value.at.Ending? && o.pass.value.at.outcome.verdict.Finished?
  }

  ghost predicate AllRested(w: World) {
    forall pid {:trigger Rested(w.ops[pid])} :: pid in w.ops ==> Rested(w.ops[pid])
  }

  /** Ready, with the same steps and native mappings. */
  predicate StillReady(o: Operation, o': Operation) {
    o'.status.Ready? && o'.natives == o.natives && o'.completed == o.completed
  }

  lemma EndingStays(w: World, call: Call, digest: Digest, order: Iteration)
    requires ByPass(call) && At(w, call.pid) && w.ops[call.pid].status.Ready? && Rested(w.ops[call.pid])
    ensures var w' := PassStep(w, call, digest, order);
            call.pid in w'.ops && StillReady(w.ops[call.pid], w'.ops[call.pid]) && Rested(w'.ops[call.pid])
  {
    assert PointOf(w, call.pid).Ending?;
    assert !call.Settle? ==> PassStep(w, call, digest, order) == w;
  }

  /** Only the check makes an operation ready, and it ends the pass. */
  lemma OwnPassRests(w: World, call: Call, digest: Digest, order: Iteration)
    requires ByPass(call) && At(w, call.pid) && !w.ops[call.pid].status.Ready?
    ensures call.pid in PassStep(w, call, digest, order).ops && Rested(PassStep(w, call, digest, order).ops[call.pid])
  {
    match call
    case Verify(_, _, _, _) =>
    case Reconcile(_, _) =>
    case Check(_, _, _) =>
    case Settle(_) =>
    case _ => StepsKeepStatus(w, call, digest, order);
  }

  lemma StaysRested(w: World, call: Call, digest: Digest, order: Iteration, pid: Pid)
    requires AllRested(w) && pid in w.ops
    ensures var w' := Next(w, call, digest, order);
            pid in w'.ops && Rested(w'.ops[pid]) && (w.ops[pid].status.Ready? ==> StillReady(w.ops[pid], w'.ops[pid]))
  {
    assert Rested(w.ops[pid]);
    if About(call) != Some(pid) {
      OthersAreLeft(w, call, digest, order, pid);
    } else if ByPass(call) && At(w, pid) {
      if w.ops[pid].status.Ready? {
        EndingStays(w, call, digest, order);
      } else {
        OwnPassRests(w, call, digest, order);
      }
    }
  }

  lemma NobodyArrives(w: World, call: Call, digest: Digest, order: Iteration, pid: Pid)
    requires pid !in w.ops && About(call) != Some(pid)
    ensures pid !in Next(w, call, digest, order).ops
  {
    if ByPass(call) && At(w, call.pid) { PassTouchesOwn(w, call, digest, order); }
  }

  lemma StepRests(w: World, call: Call, digest: Digest, order: Iteration)
    requires AllRested(w)
    ensures AllRested(Next(w, call, digest, order))
  {
    var w' := Next(w, call, digest, order);
    forall pid | pid in w'.ops ensures Rested(w'.ops[pid]) {
      if pid in w.ops {
        StaysRested(w, call, digest, order, pid);
      } else if About(call) != Some(pid) {
        NobodyArrives(w, call, digest, order, pid);
      }
    }
  }

  lemma {:induction false} RunRests(w: World, calls: seq<Call>, digest: Digest, order: Iteration)
    requires AllRested(w)
    ensures AllRested(Run(w, calls, digest, order))
    decreases |calls|
  {
    if calls != [] {
      StepRests(w, calls[0], digest, order);
      RunRests(Next(w, calls[0], digest, order), calls[1..], digest, order);
    }
  }

  lemma {:induction false} RestedRunStays(w: World, later: seq<Call>, digest: Digest, order: Iteration, pid: Pid)
    requires AllRested(w) && pid in w.ops && w.ops[pid].status.Ready?
    ensures var w' := Run(w, later, digest, order); pid in w'.ops && StillReady(w.ops[pid], w'.ops[pid])
    decreases |later|
  {
    if later != [] {
      StepRests(w, later[0], digest, order);
      StaysRested(w, later[0], digest, order, pid);
      RestedRunStays(Next(w, later[0], digest, order), later[1..], digest, order, pid);
    }
  }

  /** Once an operation is ready it stays ready, whatever run led there and however long it goes on: provisioning never
      touches its steps or native mappings again. */
  lemma ReadyStays(calls: seq<Call>, later: seq<Call>, digest: Digest, order: Iteration, pid: Pid)
    requires var w := Run(NOTHING, calls, digest, order); pid in w.ops && w.ops[pid].status.Ready?
    ensures var w := Run(NOTHING, calls, digest, order);
            var w' := Run(w, later, digest, order);
            pid in w'.ops && StillReady(w.ops[pid], w'.ops[pid])
  {
    RunRests(NOTHING, calls, digest, order);
    RestedRunStays(Run(NOTHING, calls, digest, order), later, digest, order, pid);
  }
}
