/** What every run of provisioning execution keeps. */
module ProvisioningSafety {
  import opened Prelude
  import opened Text
  import opened Ordering
  import opened RequestState
  import opened ProvisioningPlan
  import opened Provisioning
  import CommandState

  // ---------------------------------------------------------------------------------------------------------------
  // The invariant, one concern at a time
  // ---------------------------------------------------------------------------------------------------------------

  /** The client step comes first and the mapping step last, each once. */
  ghost predicate Shaped(h: History) {
    var n := |h.steps|;
    && n >= 2
    && (forall i {:trigger h.steps[i]} :: 0 <= i < n ==> (h.steps[i].detail.ClientDetail? <==> i == 0))
    && (forall i {:trigger h.steps[i]} :: 0 <= i < n ==> (h.steps[i].detail.MappingDetail? <==> i == n - 1))
    && h.steps[n - 1].detail == MappingOf(h.accepted)
  }

  ghost predicate Founded(w: World, pid: Pid)
    requires pid in w.history
  {
    w.history[pid].accepted.provisioningId == pid && ColonFree(pid) && Shaped(w.history[pid])
  }

  /** `build_plan` as a function of the request, for some digest and set order. */
  type Planner = Request -> Plan

  ghost predicate Plans(planner: Planner, digest: Digest, order: Iteration) {
    forall r :: planner(r) == PlanOf(r, digest, order)
  }

  /** The history is of an accepted request and its plan, and the row's digest is that request's. */
  ghost predicate PlanRecorded(w: World, pid: Pid, planner: Planner)
    requires pid in w.history && pid in w.ops
  {
    var plan := planner(w.history[pid].accepted);
    w.history[pid].steps == plan.steps && w.ops[pid].digest == Some(plan.digest)
  }

  ghost predicate PlansRecorded(w: World, planner: Planner)
    requires w.ops.Keys == w.history.Keys
  {
    forall pid {:trigger PlanRecorded(w, pid, planner)} :: pid in w.ops ==> PlanRecorded(w, pid, planner)
  }

  ghost predicate KeyApart(w: World, p: Pid, i: nat, q: Pid, j: nat) {
    p in w.history && q in w.history && i < |w.history[p].steps| && j < |w.history[q].steps| ==>
      w.history[p].steps[i].key == w.history[q].steps[j].key ==> p == q && i == j
  }

  /** No two steps of any operations share a key. */
  ghost predicate KeysApart(w: World) {
    forall p, i: nat, q, j: nat {:trigger KeyApart(w, p, i, q, j)} :: KeyApart(w, p, i, q, j)
  }

  /** A record says whose it is, and nobody else carries a provisioning marker. */
  ghost predicate RecordFits(w: World, k: RecordKey)
    requires k in w.records
  {
    match w.records[k].origin
    case None => !(MARKER_PREFIX <= w.records[k].description)
    case Some((pid, i)) =>
      && pid in w.history && i < |w.history[pid].steps| && Creates(w.history[pid].steps[i])
      && k.instance == w.history[pid].accepted.instance && k.table == TableOf(w.history[pid].steps[i])
      && Marker(w.history[pid].steps[i].key) == Some(w.records[k].description)
  }

  ghost predicate OneRecord(w: World, k: RecordKey, l: RecordKey)
    requires k in w.records && l in w.records
  {
    w.records[k].origin.Some? && w.records[k].origin == w.records[l].origin ==> k == l
  }

  ghost predicate RecordsFit(w: World) {
    && (forall k {:trigger RecordFits(w, k)} :: k in w.records ==> RecordFits(w, k))
    && (forall k, l {:trigger OneRecord(w, k, l)} :: k in w.records && l in w.records ==> OneRecord(w, k, l))
  }

  /** The record is this step's. */
  predicate Ours(w: World, pid: Pid, i: nat, id: nat) {
    && pid in w.history && i < |w.history[pid].steps| && Creates(w.history[pid].steps[i])
    && var k := RecordKey(w.history[pid].accepted.instance, TableOf(w.history[pid].steps[i]), id);
       k in w.records && w.records[k].origin == Some((pid, i))
  }

  /** A mapped record is the step's own. */
  ghost predicate NativeFits(w: World, pid: Pid, i: nat)
    requires pid in w.ops && pid in w.history && i < |w.history[pid].steps|
  {
    var s := w.history[pid].steps[i];
    Creates(s) && ResourceKey(s) in w.ops[pid].natives ==> Ours(w, pid, i, w.ops[pid].natives[ResourceKey(s)])
  }

  /** What a completed step has left behind. */
  ghost predicate StepHolds(w: World, pid: Pid, i: nat)
    requires pid in w.ops && pid in w.history && i < |w.history[pid].steps|
  {
    var s, natives := w.history[pid].steps[i], w.ops[pid].natives;
    && ResourceKey(s) in natives
    && (s.detail.ClientDetail? ==> CLIENT_ALIAS in natives && natives[CLIENT_ALIAS] == natives[ResourceKey(s)])
    && (s.detail.MappingDetail? ==>
          && CLIENT_ALIAS in natives
          && (s.detail.tenant, s.detail.legalEntity) in w.tenants
          && w.tenants[(s.detail.tenant, s.detail.legalEntity)]
             == TenantRow(natives[CLIENT_ALIAS], ALL_ORGANIZATIONS, s.detail.instance))
  }

  ghost predicate AliasFits(w: World, pid: Pid)
    requires pid in w.ops && pid in w.history && w.history[pid].steps != []
  {
    var natives, client := w.ops[pid].natives, ResourceKey(w.history[pid].steps[0]);
    CLIENT_ALIAS in natives ==> client in natives && natives[CLIENT_ALIAS] == natives[client]
  }

  /** How far the operation is: the completed steps are the first `done` of the plan, and the status agrees. */
  ghost predicate ProgressFits(w: World, pid: Pid)
    requires pid in w.ops && pid in w.history
  {
    var o, h := w.ops[pid], w.history[pid];
    && h.done <= |h.steps|
    && o.completed == KeySet(h.steps[..h.done])
    && CommandState.Used(o.status)
    && (o.status.Planned? ==> h.done == 0)
    && (o.status.Reconciling? || o.status.Ready? ==> h.done == |h.steps|)
  }

  ghost predicate PassFits(w: World, pid: Pid)
    requires pid in w.ops && pid in w.history && w.ops[pid].pass.Some?
  {
    var o, h, p := w.ops[pid], w.history[pid], w.ops[pid].pass.value;
    && p.digest == o.digest
    && h.done <= |h.steps|
    && (p.at.Begun? ==> p.status == o.status && Open(o.status))
    && (p.at.Ending? ==>
        (p.at.outcome.verdict.Finished? <==> o.status.Ready?) && (o.status.Ready? || Open(o.status)))
    && (p.at.Failing? ==> o.status.Failed? && o.lastError == Some(p.at.code))
    && (!p.at.Begun? && !p.at.Ending? && !p.at.Failing? ==>
          && p.request == Some(h.accepted) && p.plan == h.steps && p.pending == h.steps[h.done..]
          && Open(o.status) && (p.pending != [] ==> o.status.Applying?)
          && !o.status.Planned? && (p.status.Reconciling? ==> o.status.Reconciling?))
    && PointFits(w, pid)
  }

  predicate Open(s: Status) {
    s.Planned? || s.Applying? || s.Reconciling?
  }

  /** What the pass has established of its current step. */
  ghost predicate PointFits(w: World, pid: Pid)
    requires pid in w.ops && pid in w.history && w.ops[pid].pass.Some?
  {
    var o, h, at := w.ops[pid], w.history[pid], w.ops[pid].pass.value.at;
    match at
    case Absent =>
      && h.done < |h.steps| && Creates(h.steps[h.done]) && ResourceKey(h.steps[h.done]) !in o.natives
      && forall k :: k in w.records ==> w.records[k].origin != Some((pid, h.done))
    case Made(n) =>
      && h.done < |h.steps|
      && (Creates(h.steps[h.done]) ==> Ours(w, pid, h.done, n) && ResourceKey(h.steps[h.done]) !in o.natives)
    case Known(n) =>
      h.done < |h.steps| && ResourceKey(h.steps[h.done]) in o.natives && o.natives[ResourceKey(h.steps[h.done])] == n
    case Aliased(n) =>
      && h.done < |h.steps| && ResourceKey(h.steps[h.done]) in o.natives && o.natives[ResourceKey(h.steps[h.done])] == n
      && CLIENT_ALIAS in o.natives && o.natives[CLIENT_ALIAS] == n
    case Checking => h.done == |h.steps| && o.status.Reconciling?
    case _ => true
  }

  ghost predicate OpFits(w: World, pid: Pid)
    requires pid in w.ops && pid in w.history
  {
    && Founded(w, pid)
    && ProgressFits(w, pid) && AliasFits(w, pid)
    && (forall i: nat {:trigger NativeFits(w, pid, i)} :: i < |w.history[pid].steps| ==> NativeFits(w, pid, i))
    && (forall i: nat {:trigger StepHolds(w, pid, i)} :: i < w.history[pid].done ==> StepHolds(w, pid, i))
    && (w.ops[pid].pass.Some? ==> PassFits(w, pid))
  }

  ghost predicate Inv(w: World, planner: Planner) {
    && w.ops.Keys == w.history.Keys
    && KeysApart(w) && RecordsFit(w) && PlansRecorded(w, planner)
    && (forall pid {:trigger OpFits(w, pid)} :: pid in w.ops ==> OpFits(w, pid))
  }

  predicate CallAccepted(call: Call) {
    call.Accept? ==> AcceptedForm(call.request)
  }

  predicate CallsAccepted(calls: seq<Call>) {
    forall i :: 0 <= i < |calls| ==> CallAccepted(calls[i])
  }

  // ---------------------------------------------------------------------------------------------------------------
  // Framing
  // ---------------------------------------------------------------------------------------------------------------

  /** Only operation `pid`, its history, and records and tenant rows that were not there before. */
  ghost predicate Touches(w: World, w': World, pid: Pid) {
    && pid in w.ops && pid in w'.ops && w'.ops == w.ops[pid := w'.ops[pid]]
    && pid in w.history && pid in w'.history && w'.history == w.history[pid := w'.history[pid]]
    && w'.history[pid].accepted == w.history[pid].accepted && w'.history[pid].steps == w.history[pid].steps
    && w'.ops[pid].digest == w.ops[pid].digest
    && (forall k :: k in w.records ==> k in w'.records && w'.records[k] == w.records[k])
    && (forall k :: k in w'.records && k !in w.records ==>
        w'.records[k].origin.Some? && w'.records[k].origin.value.0 == pid)
    && (forall t :: t in w.tenants ==> t in w'.tenants && w'.tenants[t] == w.tenants[t])
  }

  lemma OtherOpKeeps(w: World, w': World, pid: Pid, q: Pid)
    requires Touches(w, w', pid) && q != pid && q in w.ops && q in w.history && OpFits(w, q)
    ensures OpFits(w', q)
  {
    forall i: nat | i < |w'.history[q].steps| ensures NativeFits(w', q, i) { assert NativeFits(w, q, i); }
    forall i: nat | i < w'.history[q].done ensures StepHolds(w', q, i) { assert StepHolds(w, q, i); }
  }

  lemma KeysApartKeeps(w: World, w': World)
    requires KeysApart(w) && w'.history.Keys == w.history.Keys
    requires forall p :: p in w.history ==> w'.history[p].steps == w.history[p].steps
    ensures KeysApart(w')
  {
    forall p, i: nat, q, j: nat ensures KeyApart(w', p, i, q, j) { assert KeyApart(w, p, i, q, j); }
  }

  lemma TouchKeeps(w: World, w': World, pid: Pid, planner: Planner)
    requires Inv(w, planner) && Touches(w, w', pid) && RecordsFit(w') && OpFits(w', pid)
    ensures Inv(w', planner)
  {
    forall q | q in w'.ops ensures OpFits(w', q) {
      if q != pid {
        assert OpFits(w, q);
        OtherOpKeeps(w, w', pid, q);
      }
    }
    KeysApartKeeps(w, w');
    PlansKeep(w, w', pid, planner);
  }

  lemma PlansKeep(w: World, w': World, pid: Pid, planner: Planner)
    requires w.ops.Keys == w.history.Keys && PlansRecorded(w, planner) && Touches(w, w', pid)
    ensures w'.ops.Keys == w'.history.Keys && PlansRecorded(w', planner)
  {
    forall q | q in w'.ops ensures PlanRecorded(w', q, planner) { assert PlanRecorded(w, q, planner); }
  }

  lemma RecordsKeep(w: World, w': World)
    requires RecordsFit(w) && w'.records == w.records && w'.history.Keys == w.history.Keys
    requires forall p :: p in w.history ==>
               w'.history[p].steps == w.history[p].steps && w'.history[p].accepted == w.history[p].accepted
    ensures RecordsFit(w')
  {
    forall k | k in w'.records ensures RecordFits(w', k) { assert RecordFits(w, k); }
    forall k, l | k in w'.records && l in w'.records ensures OneRecord(w', k, l) { assert OneRecord(w, k, l); }
  }

  /** Only the operation's own row differs, and it fits. */
  lemma OwnRowKeeps(w: World, pid: Pid, o: Operation, planner: Planner)
    requires Inv(w, planner) && pid in w.ops && pid in w.history && o.digest == w.ops[pid].digest
    requires OpFits(With(w, pid, o), pid)
    ensures Inv(With(w, pid, o), planner)
  {
    RecordsKeep(w, With(w, pid, o));
    TouchKeeps(w, With(w, pid, o), pid, planner);
  }

  /** A step of the pass that writes none of its operation's steps, mappings or records. */
  lemma QuietKeeps(w: World, pid: Pid, o: Operation, planner: Planner)
    requires Inv(w, planner) && pid in w.ops && pid in w.history
    requires o.natives == w.ops[pid].natives && o.completed == w.ops[pid].completed && o.digest == w.ops[pid].digest
    requires ProgressFits(With(w, pid, o), pid)
    requires o.pass.Some? ==> PassFits(With(w, pid, o), pid)
    ensures Inv(With(w, pid, o), planner)
  {
    var w' := With(w, pid, o);
    assert OpFits(w, pid);
    forall i: nat | i < |w'.history[pid].steps| ensures NativeFits(w', pid, i) { assert NativeFits(w, pid, i); }
    forall i: nat | i < w'.history[pid].done ensures StepHolds(w', pid, i) { assert StepHolds(w, pid, i); }
    OwnRowKeeps(w, pid, o, planner);
  }

  lemma MoveKeeps(w: World, pid: Pid, at: Point, planner: Planner)
    requires Inv(w, planner) && At(w, pid)
    requires PassFits(With(w, pid, MoveTo(w.ops[pid], at)), pid)
    ensures Inv(With(w, pid, MoveTo(w.ops[pid], at)), planner)
  {
    assert OpFits(w, pid);
    QuietKeeps(w, pid, MoveTo(w.ops[pid], at), planner);
  }

  lemma TroubleKeeps(w: World, pid: Pid, t: Trouble, planner: Planner)
    requires Inv(w, planner) && At(w, pid) && !PointOf(w, pid).Ending? && !PointOf(w, pid).Failing?
    ensures Inv(With(w, pid, Troubled(w.ops[pid], t)), planner)
  {
    assert OpFits(w, pid) && PassFits(w, pid);
    MoveKeeps(w, pid, Ending(Classify(t)), planner);
  }

  // ---------------------------------------------------------------------------------------------------------------
  // Begin and verify
  // ---------------------------------------------------------------------------------------------------------------

  lemma BegunFits(w: World, pid: Pid)
    requires pid in w.ops && pid in w.history && OpFits(w, pid) && w.ops[pid].pass.None? && Workable(w.ops[pid])
    ensures OpFits(BeginPass(w, pid), pid)
  {
    var w' := BeginPass(w, pid);
    forall i: nat | i < |w'.history[pid].steps| ensures NativeFits(w', pid, i) { assert NativeFits(w, pid, i); }
    forall i: nat | i < w'.history[pid].done ensures StepHolds(w', pid, i) { assert StepHolds(w, pid, i); }
    assert PassFits(w', pid);
  }

  lemma BeginKeeps(w: World, pid: Pid, planner: Planner)
    requires Inv(w, planner) && pid in w.ops && pid in w.history
    ensures Inv(BeginPass(w, pid), planner)
  {
    if w.ops[pid].pass.None? && Workable(w.ops[pid]) {
      var w' := BeginPass(w, pid);
      assert OpFits(w, pid);
      BegunFits(w, pid);
      RecordsKeep(w, w');
      assert Touches(w, w', pid);
      TouchKeeps(w, w', pid, planner);
    }
  }

  /** With distinct keys, what a snapshot of the completed prefix leaves is the rest of the plan. */
  lemma {:induction false} PendingIsRest(steps: seq<Step>, done: nat, n: nat)
    requires done <= n <= |steps|
    requires forall i, j :: 0 <= i < j < |steps| ==> steps[i].key != steps[j].key
    ensures Pending(steps[..n], KeySet(steps[..done])) == steps[done..n]
    decreases n
  {
    if n == done {
      PendingOfDone(steps[..n], KeySet(steps[..n]));
    } else {
      PendingIsRest(steps, done, n - 1);
      LastIsPending(steps[..n - 1], steps[n - 1], KeySet(steps[..done]));
      assert steps[..n] == steps[..n - 1] + [steps[n - 1]];
      assert steps[done..n] == steps[done..n - 1] + [steps[n - 1]];
    }
  }

  lemma LastIsPending(steps: seq<Step>, last: Step, done: set<string>)
    requires last.key !in done
    ensures Pending(steps + [last], done) == Pending(steps, done) + [last]
  {
    assert (steps + [last])[..|steps|] == steps;
  }

  lemma {:induction false} PendingOfDone(steps: seq<Step>, done: set<string>)
    requires KeySet(steps) <= done
    ensures Pending(steps, done) == []
  {
    if steps != [] {
      var last := steps[|steps| - 1];
      assert last in steps && last.key in KeySet(steps);
      assert KeySet(steps[..|steps| - 1]) <= KeySet(steps);
      PendingOfDone(steps[..|steps| - 1], done);
    }
  }

  lemma PlanKeysDiffer(w: World, pid: Pid)
    requires KeysApart(w) && pid in w.history
    ensures var steps := w.history[pid].steps; forall i, j :: 0 <= i < j < |steps| ==> steps[i].key != steps[j].key
  {
    var steps := w.history[pid].steps;
    forall i, j | 0 <= i < j < |steps| ensures steps[i].key != steps[j].key { assert KeyApart(w, pid, i, pid, j); }
  }

  /** What the verification accepts, whatever the row was edited to, is the accepted request and its plan. */
  lemma VerifiedFor(p: Pass, accepted: Request, steps: seq<Step>, valid: bool, engine: bool, processes: bool,
      digest: Digest,
                    order: Iteration)
    requires Faithful(digest) && Iterates(order)
    requires steps == PlanOf(accepted, digest, order).steps && p.digest == Some(digest(DesiredState(accepted, order)))
    requires Obstacle(p, valid, engine, processes, digest, order).None?
    ensures VerifiedRequest(p.state, p.digest, digest, order) == Ok(accepted) && p.plan == steps
  {
    VerifiedIsAccepted(p.state, accepted, digest, order, order);
  }

  lemma RecordedIsPlan(w: World, pid: Pid, planner: Planner, digest: Digest, order: Iteration)
    requires pid in w.history && pid in w.ops && PlanRecorded(w, pid, planner) && Plans(planner, digest, order)
    ensures var h := w.history[pid];
            && h.steps == PlanOf(h.accepted, digest, order).steps
            && w.ops[pid].digest == Some(digest(DesiredState(h.accepted, order)))
  {
    var accepted := w.history[pid].accepted;
    assert planner(accepted) == PlanOf(accepted, digest, order);
  }

  lemma VerifiedPlan(w: World, pid: Pid, valid: bool, engine: bool, processes: bool, planner: Planner, digest: Digest,
                     order: Iteration)
    requires Inv(w, planner) && Plans(planner, digest, order) && Faithful(digest) && Iterates(order)
    requires At(w, pid) && Obstacle(w.ops[pid].pass.value, valid, engine, processes, digest, order).None?
    ensures var p, h := w.ops[pid].pass.value, w.history[pid];
            VerifiedRequest(p.state, p.digest, digest, order) == Ok(h.accepted)
            && p.plan == h.steps && h.done <= |h.steps| && Pending(p.plan, w.ops[pid].completed) == h.steps[h.done..]
  {
    var p, h := w.ops[pid].pass.value, w.history[pid];
    assert OpFits(w, pid) && PassFits(w, pid) && PlanRecorded(w, pid, planner);
    RecordedIsPlan(w, pid, planner, digest, order);
    VerifiedFor(p, h.accepted, h.steps, valid, engine, processes, digest, order);
    RestIsPending(w, pid);
  }

  lemma RestIsPending(w: World, pid: Pid)
    requires KeysApart(w) && pid in w.history && pid in w.ops && ProgressFits(w, pid)
    ensures var h := w.history[pid]; Pending(h.steps, w.ops[pid].completed) == h.steps[h.done..]
  {
    var h := w.history[pid];
    PlanKeysDiffer(w, pid);
    PendingIsRest(h.steps, h.done, |h.steps|);
    assert h.steps[..|h.steps|] == h.steps;
  }

  lemma VerifyKeeps(w: World, pid: Pid, valid: bool, engine: bool, processes: bool, planner: Planner, digest: Digest,
                    order: Iteration)
    requires Inv(w, planner) && Plans(planner, digest, order) && Faithful(digest) && Iterates(order)
    requires At(w, pid) && PointOf(w, pid).Begun?
    ensures Inv(With(w, pid, VerifyPass(w.ops[pid], valid, engine, processes, digest, order)), planner)
  {
    var o, p := w.ops[pid], w.ops[pid].pass.value;
    var obstacle := Obstacle(p, valid, engine, processes, digest, order);
    if obstacle.Some? {
      TroubleKeeps(w, pid, obstacle.value, planner);
    } else {
      VerifiedPlan(w, pid, valid, engine, processes, planner, digest, order);
      StartKeeps(w, pid, w.history[pid].accepted, w.history[pid].steps[w.history[pid].done..], planner);
    }
  }

  lemma StartKeeps(w: World, pid: Pid, request: Request, pending: seq<Step>, planner: Planner)
    requires Inv(w, planner) && At(w, pid) && PointOf(w, pid).Begun?
    requires request == w.history[pid].accepted && w.ops[pid].pass.value.plan == w.history[pid].steps
    requires w.history[pid].done <= |w.history[pid].steps| && pending == w.history[pid].steps[w.history[pid].done..]
    ensures Inv(With(w, pid, StartedRow(w.ops[pid], request, pending)), planner)
  {
    var o' := StartedRow(w.ops[pid], request, pending);
    assert OpFits(w, pid) && Founded(w, pid);
    assert PassFits(With(w, pid, o'), pid);
    QuietKeeps(w, pid, o', planner);
  }

  // ---------------------------------------------------------------------------------------------------------------
  // A step's calls
  // ---------------------------------------------------------------------------------------------------------------

  /** In the middle of a step, the head of the pending ones is the plan's next. */
  lemma HeadIsNext(w: World, pid: Pid)
    requires pid in w.ops && pid in w.history && OpFits(w, pid) && MidStep(w, pid)
    requires !PointOf(w, pid).Begun? && !PointOf(w, pid).Ending? && !PointOf(w, pid).Failing?
    ensures var h := w.history[pid];
            && h.done < |h.steps| && HeadOf(w, pid) == h.steps[h.done]
            && w.ops[pid].pass.value.request == Some(h.accepted)
            && w.ops[pid].pass.value.pending[1..] == h.steps[h.done + 1..]
            && w.ops[pid].status.Applying?
  {
    assert PassFits(w, pid);
  }

  lemma MarkerOpens(key: string)
    requires Marker(key).Some?
    ensures MARKER_PREFIX <= Marker(key).value
  {
  }

  /** The search by a step's marker finds that step's records and no others. */
  lemma MarkedIsOurs(w: World, pid: Pid, i: nat, k: RecordKey)
    requires KeysApart(w) && RecordsFit(w) && pid in w.history && i < |w.history[pid].steps|
    requires Creates(w.history[pid].steps[i]) && Marker(w.history[pid].steps[i].key).Some?
    ensures var s := w.history[pid].steps[i];
            k in Marked(w.records, w.history[pid].accepted.instance, TableOf(s), Marker(s.key).value)
            <==> k in w.records && w.records[k].origin == Some((pid, i))
  {
    var s := w.history[pid].steps[i];
    if k in w.records {
      assert RecordFits(w, k);
      MarkerOpens(s.key);
      if w.records[k].description == Marker(s.key).value {
        var (q, j) := w.records[k].origin.value;
        NamesApart(s, w.history[q].steps[j]);
        assert KeyApart(w, pid, i, q, j);
      }
    }
  }

  lemma LookKeeps(w: World, pid: Pid, reply: Option<Trouble>, planner: Planner)
    requires Inv(w, planner) && MidStep(w, pid) && PointOf(w, pid).Ahead?
    ensures Inv(With(w, pid, LookUp(w, pid, reply)), planner)
  {
    var o, h := w.ops[pid], w.history[pid];
    var step := HeadOf(w, pid);
    assert OpFits(w, pid) && PassFits(w, pid);
    HeadIsNext(w, pid);
    if !Creates(step) {
      if step.detail.MappingDetail? || reply.None? {
        MoveKeeps(w, pid, Made(1), planner);
      } else {
        TroubleKeeps(w, pid, reply.value, planner);
      }
    } else if ResourceKey(step) in o.natives {
      if reply.None? {
        MoveKeeps(w, pid, Known(o.natives[ResourceKey(step)]), planner);
      } else {
        TroubleKeeps(w, pid, reply.value, planner);
      }
    } else if Marker(step.key).None? {
      TroubleKeeps(w, pid, Invalid, planner);
    } else if reply.Some? {
      TroubleKeeps(w, pid, reply.value, planner);
    } else {
      SearchKeeps(w, pid, planner);
    }
  }

  lemma SearchKeeps(w: World, pid: Pid, planner: Planner)
    requires Inv(w, planner) && MidStep(w, pid) && PointOf(w, pid).Ahead?
    requires Creates(HeadOf(w, pid)) && ResourceKey(HeadOf(w, pid)) !in w.ops[pid].natives
        && Marker(HeadOf(w, pid).key).Some?
    ensures Inv(With(w, pid, LookUp(w, pid, None)), planner)
  {
    var o, h := w.ops[pid], w.history[pid];
    assert OpFits(w, pid) && PassFits(w, pid);
    HeadIsNext(w, pid);
    var step := h.steps[h.done];
    var marked := Marked(w.records, h.accepted.instance, TableOf(step), Marker(step.key).value);
    if |marked| > 1 {
      TroubleKeeps(w, pid, Duplicates, planner);
    } else if marked == {} {
      forall k | k in w.records ensures w.records[k].origin != Some((pid, h.done)) {
        MarkedIsOurs(w, pid, h.done, k);
      }
      MoveKeeps(w, pid, Absent, planner);
    } else {
      var o' := LookUp(w, pid, None);
      var n := o'.pass.value.at.native;
      var key :| key in marked && key.id == n;
      MarkedIsOurs(w, pid, h.done, key);
      assert key == RecordKey(h.accepted.instance, TableOf(step), n);
      MoveKeeps(w, pid, Made(n), planner);
    }
  }

  /** A record made where there was none is the only one of its step. */
  lemma MadeRecordsFit(w: World, w': World, pid: Pid, key: RecordKey)
    requires RecordsFit(w) && pid in w.history && w'.history == w.history && key !in w.records
    requires w.history[pid].done < |w.history[pid].steps| && Creates(w.history[pid].steps[w.history[pid].done])
    requires forall k :: k in w.records ==> w.records[k].origin != Some((pid, w.history[pid].done))
    requires var s := w.history[pid].steps[w.history[pid].done];
             && Marker(s.key).Some? && key.instance == w.history[pid].accepted.instance && key.table == TableOf(s)
             && w'.records == w.records[key := Record(Marker(s.key).value, Some((pid, w.history[pid].done)))]
    ensures RecordsFit(w')
  {
    forall k | k in w'.records ensures RecordFits(w', k) {
      if k != key { assert RecordFits(w, k); }
    }
    forall k, l | k in w'.records && l in w'.records ensures OneRecord(w', k, l) {
      if k != key && l != key { assert OneRecord(w, k, l); }
    }
  }

  lemma MakeKeeps(w: World, pid: Pid, id: nat, took: bool, reply: Option<Trouble>, planner: Planner)
    requires Inv(w, planner) && MidStep(w, pid) && PointOf(w, pid).Absent? && Creates(HeadOf(w, pid))
    ensures Inv(MakeRecord(w, pid, id, took, reply), planner)
  {
    var o, h := w.ops[pid], w.history[pid];
    assert OpFits(w, pid) && PassFits(w, pid);
    HeadIsNext(w, pid);
    var step := HeadOf(w, pid);
    if Marker(step.key).None? {
      TroubleKeeps(w, pid, Invalid, planner);
    } else if !took || KeyFor(o, id) in w.records {
      TroubleKeeps(w, pid, if reply.Some? then reply.value else Unreachable, planner);
      assert MakeRecord(w, pid, id, took, reply) == With(w, pid,
          Troubled(o, if reply.Some? then reply.value else Unreachable));
    } else {
      MadeKeeps(w, MakeRecord(w, pid, id, took, reply), pid, id, planner);
    }
  }

  ghost predicate KnownFits(w: World, pid: Pid) {
    pid in w.ops && pid in w.history && OpFits(w, pid)
  }

  /** The record of the current step is there; its pass knows it, or was stopped before it learnt of it. */
  ghost predicate Making(w: World, w': World, pid: Pid, id: nat) {
    && MidStep(w, pid) && PointOf(w, pid).Absent? && Creates(HeadOf(w, pid))
    && Marker(HeadOf(w, pid).key).Some? && KeyFor(w.ops[pid], id) !in w.records
    && w'.records == w.records[KeyFor(w.ops[pid], id) :=
        Record(Marker(HeadOf(w, pid).key).value, Some((pid, w.history[pid].done)))]
    && pid in w'.ops && w' == With(w, pid, w'.ops[pid]).(records := w'.records)
    && (w'.ops[pid] == MoveTo(w.ops[pid], Made(id)) || exists t: Trouble :: w'.ops[pid] == Troubled(w.ops[pid], t))
  }

  lemma MadePassFits(w: World, w': World, pid: Pid, id: nat)
    requires KnownFits(w, pid) && Making(w, w', pid, id)
    ensures PassFits(w', pid)
  {
    assert PassFits(w, pid);
    HeadIsNext(w, pid);
  }

  lemma MadeKeeps(w: World, w': World, pid: Pid, id: nat, planner: Planner)
    requires Inv(w, planner) && Making(w, w', pid, id)
    ensures Inv(w', planner)
  {
    assert OpFits(w, pid) && PassFits(w, pid);
    HeadIsNext(w, pid);
    MadeRecordsFit(w, w', pid, KeyFor(w.ops[pid], id));
    MadePassFits(w, w', pid, id);
    MadeFits(w, w', pid, id);
    TouchKeeps(w, w', pid, planner);
  }

  lemma MadeFits(w: World, w': World, pid: Pid, id: nat)
    requires KnownFits(w, pid) && Making(w, w', pid, id) && PassFits(w', pid)
    ensures OpFits(w', pid)
  {
    forall i: nat | i < |w'.history[pid].steps| ensures NativeFits(w', pid, i) { assert NativeFits(w, pid, i); }
    forall i: nat | i < w'.history[pid].done ensures StepHolds(w', pid, i) { assert StepHolds(w, pid, i); }
  }

  lemma PutStepsFit(w: World, w': World, pid: Pid)
    requires KnownFits(w, pid) && KeysApart(w) && MidStep(w, pid) && PointOf(w, pid).Made?
    requires w' == With(w, pid, PutNative(w.ops[pid]))
    ensures forall i: nat :: i < |w.history[pid].steps| ==> NativeFits(w', pid, i)
    ensures forall i: nat :: i < w.history[pid].done ==> StepHolds(w', pid, i)
  {
    var h := w.history[pid];
    assert PassFits(w, pid);
    HeadIsNext(w, pid);
    forall i: nat | i < |h.steps| ensures NativeFits(w', pid, i) {
      assert NativeFits(w, pid, i);
      ResourceKeysApart(w, pid, i, h.done);
    }
    forall i: nat | i < h.done ensures StepHolds(w', pid, i) {
      assert StepHolds(w, pid, i);
      ResourceKeysApart(w, pid, i, h.done);
      NamesApart(h.steps[h.done], h.steps[h.done]);
    }
  }

  lemma PutFits(w: World, w': World, pid: Pid)
    requires KnownFits(w, pid) && KeysApart(w) && MidStep(w, pid) && PointOf(w, pid).Made?
    requires w' == With(w, pid, PutNative(w.ops[pid]))
    ensures OpFits(w', pid)
  {
    assert PassFits(w, pid);
    HeadIsNext(w, pid);
    PutStepsFit(w, w', pid);
    PutAliasFits(w, w', pid);
    assert PassFits(w', pid);
  }

  /** A mapping row written for the current step. */
  lemma PutKeeps(w: World, pid: Pid, planner: Planner)
    requires Inv(w, planner) && MidStep(w, pid) && PointOf(w, pid).Made?
    ensures Inv(With(w, pid, PutNative(w.ops[pid])), planner)
  {
    var w' := With(w, pid, PutNative(w.ops[pid]));
    assert OpFits(w, pid);
    PutFits(w, w', pid);
    OwnRowKeeps(w, pid, PutNative(w.ops[pid]), planner);
  }

  lemma PutAliasFits(w: World, w': World, pid: Pid)
    requires pid in w.ops && pid in w.history && OpFits(w, pid) && KeysApart(w) && MidStep(w, pid)
        && PointOf(w, pid).Made?
    requires w' == With(w, pid, PutNative(w.ops[pid]))
    ensures AliasFits(w', pid)
  {
    var h := w.history[pid];
    HeadIsNext(w, pid);
    NamesApart(h.steps[h.done], h.steps[h.done]);
    ResourceKeysApart(w, pid, 0, h.done);
    assert NativeFits(w, pid, 0);
    assert PassFits(w, pid);
  }

  lemma ResourceKeysApart(w: World, pid: Pid, i: nat, j: nat)
    requires KeysApart(w) && pid in w.history && i < |w.history[pid].steps| && j < |w.history[pid].steps|
    ensures ResourceKey(w.history[pid].steps[i]) == ResourceKey(w.history[pid].steps[j]) ==> i == j
  {
    NamesApart(w.history[pid].steps[i], w.history[pid].steps[j]);
    assert KeyApart(w, pid, i, pid, j);
  }

  lemma AliasedFits(w: World, pid: Pid)
    requires pid in w.ops && pid in w.history && OpFits(w, pid)
    requires MidStep(w, pid) && PointOf(w, pid).Known? && HeadOf(w, pid).detail.ClientDetail?
    ensures OpFits(With(w, pid, PutAlias(w.ops[pid])), pid)
  {
    var h := w.history[pid];
    var w' := With(w, pid, PutAlias(w.ops[pid]));
    assert PassFits(w, pid);
    HeadIsNext(w, pid);
    assert h.done == 0;
    forall i: nat | i < |h.steps| ensures NativeFits(w', pid, i) {
      assert NativeFits(w, pid, i);
      NamesApart(h.steps[i], h.steps[i]);
    }
    NamesApart(h.steps[0], h.steps[0]);
    assert PassFits(w', pid);
  }

  /** The client's alias, once its own mapping row is there. */
  lemma AliasKeeps(w: World, pid: Pid, planner: Planner)
    requires Inv(w, planner) && MidStep(w, pid) && PointOf(w, pid).Known? && HeadOf(w, pid).detail.ClientDetail?
    ensures Inv(With(w, pid, PutAlias(w.ops[pid])), planner)
  {
    assert OpFits(w, pid);
    AliasedFits(w, pid);
    OwnRowKeeps(w, pid, PutAlias(w.ops[pid]), planner);
  }

  lemma KeySetGrows(steps: seq<Step>, n: nat)
    requires n < |steps|
    ensures KeySet(steps[..n + 1]) == KeySet(steps[..n]) + {steps[n].key}
  {
    assert steps[..n + 1] == steps[..n] + [steps[n]];
  }

  /** The step's effects are there, with the tenant rows of `w'`. */
  ghost predicate Effective(w: World, w': World, pid: Pid) {
    && MidStep(w, pid) && !PointOf(w, pid).Begun? && !PointOf(w, pid).Ending? && !PointOf(w, pid).Failing?
    && w' == Completed(w, pid).(tenants := w'.tenants)
    && (forall t :: t in w.tenants ==> t in w'.tenants && w'.tenants[t] == w.tenants[t])
    && w.history[pid].done < |w.history[pid].steps| && StepHolds(w.(tenants := w'.tenants), pid, w.history[pid].done)
  }

  lemma CompletedPassFits(w: World, w': World, pid: Pid)
    requires KnownFits(w, pid) && Effective(w, w', pid)
    ensures PassFits(w', pid) && ProgressFits(w', pid)
  {
    var h := w.history[pid];
    assert PassFits(w, pid);
    HeadIsNext(w, pid);
    KeySetGrows(h.steps, h.done);
  }

  lemma CompletedFits(w: World, w': World, pid: Pid)
    requires KnownFits(w, pid) && Effective(w, w', pid)
    ensures OpFits(w', pid)
  {
    CompletedPassFits(w, w', pid);
    forall i: nat | i < |w'.history[pid].steps| ensures NativeFits(w', pid, i) { assert NativeFits(w, pid, i); }
    forall i: nat | i < w'.history[pid].done ensures StepHolds(w', pid, i) {
      if i < w.history[pid].done { assert StepHolds(w, pid, i); }
    }
  }

  /** A step whose effects are there is completed. */
  lemma CompletedKeeps(w: World, w': World, pid: Pid, planner: Planner)
    requires Inv(w, planner) && Effective(w, w', pid)
    ensures Inv(w', planner)
  {
    assert OpFits(w, pid);
    CompletedFits(w, w', pid);
    RecordsKeep(w, w');
    TouchKeeps(w, w', pid, planner);
  }

  lemma MarkKeeps(w: World, pid: Pid, planner: Planner)
    requires Inv(w, planner) && MidStep(w, pid)
    requires if HeadOf(w, pid).detail.ClientDetail? then PointOf(w, pid).Aliased?
             else PointOf(w, pid).Known? && !HeadOf(w, pid).detail.MappingDetail?
    ensures Inv(Completed(w, pid), planner)
  {
    assert OpFits(w, pid) && PassFits(w, pid);
    HeadIsNext(w, pid);
    CompletedKeeps(w, Completed(w, pid), pid, planner);
  }

  lemma MapKeeps(w: World, pid: Pid, planner: Planner)
    requires Inv(w, planner) && MidStep(w, pid) && PointOf(w, pid).Known? && HeadOf(w, pid).detail.MappingDetail?
    ensures Inv(MapTenant(w, pid), planner)
  {
    var o := w.ops[pid];
    var d := HeadOf(w, pid).detail;
    assert OpFits(w, pid) && PassFits(w, pid);
    HeadIsNext(w, pid);
    if CLIENT_ALIAS !in o.natives || Blank(d.instance) {
      TroubleKeeps(w, pid, Invalid, planner);
    } else {
      var row := TenantRow(o.natives[CLIENT_ALIAS], ALL_ORGANIZATIONS, d.instance);
      var place := (d.tenant, d.legalEntity);
      if place in w.tenants && w.tenants[place] == row {
        CompletedKeeps(w, MapTenant(w, pid), pid, planner);
      } else if place in w.tenants || NativeTaken(w.tenants, row) {
        TroubleKeeps(w, pid, MappingClash, planner);
      } else {
        CompletedKeeps(w, MapTenant(w, pid), pid, planner);
      }
    }
  }

  // ---------------------------------------------------------------------------------------------------------------
  // Past the steps
  // ---------------------------------------------------------------------------------------------------------------

  lemma ReconcileKeeps(w: World, pid: Pid, clash: bool, planner: Planner)
    requires Inv(w, planner) && At(w, pid) && PointOf(w, pid).Ahead? && w.ops[pid].pass.value.pending == []
    ensures Inv(With(w, pid, StartReconciling(w.ops[pid], clash)), planner)
  {
    assert OpFits(w, pid) && PassFits(w, pid);
    if clash {
      TroubleKeeps(w, pid, IdentityClash, planner);
    } else {
      assert |w.history[pid].steps[w.history[pid].done..]| == 0;
      QuietKeeps(w, pid, StartReconciling(w.ops[pid], clash), planner);
    }
  }

  lemma CheckKeeps(w: World, pid: Pid, valid: bool, healthy: bool, planner: Planner)
    requires Inv(w, planner) && At(w, pid) && PointOf(w, pid).Checking?
    ensures Inv(With(w, pid, CheckPass(w.ops[pid], valid, healthy)), planner)
  {
    assert OpFits(w, pid) && PassFits(w, pid);
    QuietKeeps(w, pid, CheckPass(w.ops[pid], valid, healthy), planner);
  }

  lemma RecordedFits(w: World, pid: Pid, final: Outcome)
    requires pid in w.ops && pid in w.history && OpFits(w, pid) && At(w, pid) && PointOf(w, pid).Ending?
    ensures OpFits(RecordedPass(w, pid, final), pid)
  {
    var w' := RecordedPass(w, pid, final);
    assert PassFits(w, pid);
    forall i: nat | i < |w'.history[pid].steps| ensures NativeFits(w', pid, i) { assert NativeFits(w, pid, i); }
    forall i: nat | i < w'.history[pid].done ensures StepHolds(w', pid, i) { assert StepHolds(w, pid, i); }
  }

  lemma RecordKeeps(w: World, pid: Pid, final: Outcome, planner: Planner)
    requires Inv(w, planner) && At(w, pid) && PointOf(w, pid).Ending?
    ensures Inv(RecordedPass(w, pid, final), planner)
  {
    var w' := RecordedPass(w, pid, final);
    assert OpFits(w, pid);
    RecordedFits(w, pid, final);
    RecordsKeep(w, w');
    assert Touches(w, w', pid);
    TouchKeeps(w, w', pid, planner);
  }

  lemma FailKeeps(w: World, pid: Pid, code: Code, planner: Planner)
    requires Inv(w, planner) && At(w, pid) && PointOf(w, pid).Ending?
    ensures Inv(With(w, pid, FailedRow(w.ops[pid], code)), planner)
  {
    assert OpFits(w, pid) && PassFits(w, pid);
    QuietKeeps(w, pid, FailedRow(w.ops[pid], code), planner);
  }

  lemma SettleKeeps(w: World, pid: Pid, planner: Planner)
    requires Inv(w, planner) && At(w, pid) && PointOf(w, pid).Ending? && w.ops[pid].pass.value.attempts >= 1
    ensures Inv(SettlePass(w, pid, PointOf(w, pid).outcome), planner)
  {
    var p := w.ops[pid].pass.value;
    var final := ApplyBudgets(p.at.outcome, p.attempts, p.createdAt, w.now);
    assert OpFits(w, pid) && PassFits(w, pid);
    if final.verdict.Fail? { FailKeeps(w, pid, final.code, planner); } else { RecordKeeps(w, pid, final, planner); }
  }

  lemma ConcludeKeeps(w: World, pid: Pid, planner: Planner)
    requires Inv(w, planner) && At(w, pid) && PointOf(w, pid).Failing?
    ensures Inv(With(w, pid, ConcludedRow(w.ops[pid])), planner)
  {
    assert OpFits(w, pid) && PassFits(w, pid);
    QuietKeeps(w, pid, ConcludedRow(w.ops[pid]), planner);
  }

  lemma CrashKeeps(w: World, pid: Pid, planner: Planner)
    requires Inv(w, planner) && pid in w.ops
    ensures Inv(With(w, pid, w.ops[pid].(pass := None)), planner)
  {
    assert OpFits(w, pid);
    QuietKeeps(w, pid, w.ops[pid].(pass := None), planner);
  }

  // ---------------------------------------------------------------------------------------------------------------
  // Everything else, and whole runs
  // ---------------------------------------------------------------------------------------------------------------

  /** A plan starts with its only client step and ends with its only mapping step. */
  lemma PlanShape(r: Request, digest: Digest, order: Iteration)
    ensures Shaped(History(r, PlanOf(r, digest, order).steps, 0, 0, 0))
  {
    var prefix := Prefix(r, PlanOf(r, digest, order).digest);
    var middle := MarketSteps(prefix, Sorted(r.markets, IdOf));
    MiddleKinds(prefix, Sorted(r.markets, IdOf));
    ShapeOf(r, StepFor(prefix, ClientDetail(r.legalName)), StepFor(prefix, AccountingDetail(r.accounting)), middle,
            StepFor(prefix, MappingOf(r)));
  }

  lemma ShapeOf(r: Request, client: Step, accounting: Step, middle: seq<Step>, mapping: Step)
    requires client.detail.ClientDetail? && accounting.detail.AccountingDetail? && mapping.detail == MappingOf(r)
    requires forall s :: s in middle ==> s.detail.LocalisationDetail? || s.detail.WarehouseDetail?
    ensures Shaped(History(r, [client, accounting] + middle + [mapping], 0, 0, 0))
  {
    var steps := [client, accounting] + middle + [mapping];
    forall i | 2 <= i < |steps| - 1 ensures steps[i].detail.LocalisationDetail? || steps[i].detail.WarehouseDetail? {
      assert steps[i] == middle[i - 2];
    }
  }

  lemma {:induction false} MiddleKinds(prefix: string, markets: seq<Market>)
    ensures forall s :: s in MarketSteps(prefix, markets) ==> s.detail.LocalisationDetail? || s.detail.WarehouseDetail?
  {
    if markets != [] {
      MiddleKinds(prefix, markets[..|markets| - 1]);
      WarehouseKinds(prefix, markets[|markets| - 1], Sorted(markets[|markets| - 1].warehouses, Itself));
    }
  }

  lemma {:induction false} WarehouseKinds(prefix: string, m: Market, codes: seq<string>)
    ensures forall s :: s in WarehouseSteps(prefix, m, codes) ==> s.detail.WarehouseDetail?
  {
    if codes != [] { WarehouseKinds(prefix, m, codes[..|codes| - 1]); }
  }

  lemma NewKeysApart(w: World, w': World, r: Request, planner: Planner, digest: Digest, order: Iteration)
    requires Inv(w, planner) && Plans(planner, digest, order) && CallAccepted(Accept(r)) && r.provisioningId !in w.ops
    requires w' == Admitted(w, r, digest, order)
    ensures KeysApart(w')
  {
    var pid := r.provisioningId;
    KeysDistinct(r, digest, order);
    forall p, i: nat, q, j: nat ensures KeyApart(w', p, i, q, j) {
      if p in w'.history && q in w'.history && i < |w'.history[p].steps| && j < |w'.history[q].steps| {
        NewKeyApart(w, w', r, planner, digest, order, p, i, q, j);
      }
    }
  }

  lemma NewKeyApart(w: World, w': World, r: Request, planner: Planner, digest: Digest, order: Iteration, p: Pid, i: nat,
      q: Pid, j: nat)
    requires Inv(w, planner) && Plans(planner, digest, order) && CallAccepted(Accept(r)) && r.provisioningId !in w.ops
    requires w' == Admitted(w, r, digest, order) && Distinct(Keys(PlanOf(r, digest, order).steps))
    requires p in w'.history && q in w'.history && i < |w'.history[p].steps| && j < |w'.history[q].steps|
    ensures KeyApart(w', p, i, q, j)
  {
    var pid := r.provisioningId;
    if p != pid && q != pid {
      assert KeyApart(w, p, i, q, j);
    } else if p == pid && q == pid {
      var keys := Keys(PlanOf(r, digest, order).steps);
      assert keys[i] == w'.history[p].steps[i].key && keys[j] == w'.history[p].steps[j].key;
    } else if p == pid {
      assert OpFits(w, q) && PlanRecorded(w, q, planner);
      RecordedIsPlan(w, q, planner, digest, order);
      OperationsApart(r, w.history[q].accepted, digest, order, i, j);
    } else {
      assert OpFits(w, p) && PlanRecorded(w, p, planner);
      RecordedIsPlan(w, p, planner, digest, order);
      OperationsApart(w.history[p].accepted, r, digest, order, i, j);
    }
  }

  lemma AdmittedFits(w: World, r: Request, digest: Digest, order: Iteration)
    requires RecordsFit(w) && r.provisioningId !in w.history && ColonFree(r.provisioningId)
    ensures OpFits(Admitted(w, r, digest, order), r.provisioningId)
  {
    var w' := Admitted(w, r, digest, order);
    var pid := r.provisioningId;
    PlanShape(r, digest, order);
    assert Shaped(w'.history[pid]);
    assert w'.history[pid].steps[..0] == [];
    assert KeySet([]) == {};
  }

  lemma AcceptKeeps(w: World, r: Request, planner: Planner, digest: Digest, order: Iteration)
    requires Inv(w, planner) && Plans(planner, digest, order) && CallAccepted(Accept(r)) && r.provisioningId !in w.ops
    ensures Inv(Admitted(w, r, digest, order), planner)
  {
    var w' := Admitted(w, r, digest, order);
    var pid := r.provisioningId;
    AdmittedFits(w, r, digest, order);
    NewKeysApart(w, w', r, planner, digest, order);
    assert planner(r) == PlanOf(r, digest, order);
    AdmittedOthersKeep(w, w', pid, planner);
  }

  lemma AdmittedOthersKeep(w: World, w': World, pid: Pid, planner: Planner)
    requires Inv(w, planner) && pid !in w.ops && pid in w'.ops && pid in w'.history
    requires w'.ops == w.ops[pid := w'.ops[pid]] && w'.history == w.history[pid := w'.history[pid]]
    requires w'.records == w.records && w'.tenants == w.tenants
    requires OpFits(w', pid) && KeysApart(w') && PlanRecorded(w', pid, planner)
    ensures Inv(w', planner)
  {
    forall q | q in w'.ops ensures OpFits(w', q) {
      if q != pid {
        assert OpFits(w, q);
        UntouchedOpFits(w, w', q);
      }
    }
    forall q | q in w'.ops ensures PlanRecorded(w', q, planner) {
      if q != pid { assert PlanRecorded(w, q, planner); }
    }
    forall k | k in w'.records ensures RecordFits(w', k) { assert RecordFits(w, k); }
    forall k, l | k in w'.records && l in w'.records ensures OneRecord(w', k, l) { assert OneRecord(w, k, l); }
  }

  lemma UntouchedOpFits(w: World, w': World, q: Pid)
    requires q in w.ops && q in w.history && OpFits(w, q)
    requires q in w'.ops && q in w'.history && w'.ops[q] == w.ops[q] && w'.history[q] == w.history[q]
    requires w'.records == w.records && w'.tenants == w.tenants
    ensures OpFits(w', q)
  {
    forall i: nat | i < |w'.history[q].steps| ensures NativeFits(w', q, i) { assert NativeFits(w, q, i); }
    forall i: nat | i < w'.history[q].done ensures StepHolds(w', q, i) { assert StepHolds(w, q, i); }
  }

  lemma EditKeeps(w: World, pid: Pid, o: Operation, planner: Planner)
    requires Inv(w, planner) && pid in w.ops && o == w.ops[pid].(state := o.state, plan := o.plan, closed := o.closed)
    ensures Inv(With(w, pid, o), planner)
  {
    assert OpFits(w, pid);
    if o.pass.Some? { assert PassFits(w, pid); }
    QuietKeeps(w, pid, o, planner);
  }

  /** Records and tenant rows of nobody's operation. */
  lemma OutsideKeeps(w: World, w': World, planner: Planner)
    requires Inv(w, planner) && w'.ops == w.ops && w'.history == w.history
    requires forall k :: k in w.records ==> k in w'.records && w'.records[k] == w.records[k]
    requires forall k :: k in w'.records && k !in w.records ==>
               w'.records[k].origin.None? && !(MARKER_PREFIX <= w'.records[k].description)
    requires forall t :: t in w.tenants ==> t in w'.tenants && w'.tenants[t] == w.tenants[t]
    ensures Inv(w', planner)
  {
    forall q | q in w'.ops ensures OpFits(w', q) && PlanRecorded(w', q, planner) {
      assert OpFits(w, q) && PlanRecorded(w, q, planner);
      forall i: nat | i < |w'.history[q].steps| ensures NativeFits(w', q, i) { assert NativeFits(w, q, i); }
      forall i: nat | i < w'.history[q].done ensures StepHolds(w', q, i) { assert StepHolds(w, q, i); }
    }
    KeysApartKeeps(w, w');
    forall k | k in w'.records ensures RecordFits(w', k) {
      if k in w.records { assert RecordFits(w, k); }
    }
    forall k, l | k in w'.records && l in w'.records ensures OneRecord(w', k, l) {
      if k in w.records && l in w.records { assert OneRecord(w, k, l); }
    }
  }

  lemma PassStepKeeps(w: World, call: Call, planner: Planner, digest: Digest, order: Iteration)
    requires Inv(w, planner) && Plans(planner, digest, order) && Faithful(digest) && Iterates(order)
    requires ByPass(call) && At(w, call.pid)
    ensures Inv(PassStep(w, call, digest, order), planner)
  {
    var point := PointOf(w, call.pid);
    match call
    case Verify(pid, valid, engine, processes) =>
      if point.Begun? { VerifyKeeps(w, pid, valid, engine, processes, planner, digest, order); }
    case Look(pid, reply) => if point.Ahead? && MidStep(w, pid) { LookKeeps(w, pid, reply, planner); }
    case Make(pid, id, took, reply) =>
      if point.Absent? && MidStep(w, pid) && Creates(HeadOf(w, pid)) { MakeKeeps(w, pid, id, took, reply, planner); }
    case Put(pid) => if point.Made? && MidStep(w, pid) { PutKeeps(w, pid, planner); }
    case Alias(pid) =>
      if point.Known? && MidStep(w, pid) && HeadOf(w, pid).detail.ClientDetail? { AliasKeeps(w, pid, planner); }
    case Mark(pid) =>
      if MidStep(w, pid) && (if HeadOf(w, pid).detail.ClientDetail? then point.Aliased?
                             else point.Known? && !HeadOf(w, pid).detail.MappingDetail?)
      { MarkKeeps(w, pid, planner); }
    case Map(pid) => if point.Known? && MidStep(w, pid)
        && HeadOf(w, pid).detail.MappingDetail? { MapKeeps(w, pid, planner); }
    case Reconcile(pid, clash) =>
      if point.Ahead? && w.ops[pid].pass.value.pending == [] { ReconcileKeeps(w, pid, clash, planner); }
    case Check(pid, valid, healthy) => if point.Checking? { CheckKeeps(w, pid, valid, healthy, planner); }
    case Settle(pid) => if point.Ending? && w.ops[pid].pass.value.attempts >= 1 { SettleKeeps(w, pid, planner); }
    case Conclude(pid) => if point.Failing? { ConcludeKeeps(w, pid, planner); }
    case Stumble(pid, trouble) => if !point.Ending? && !point.Failing? { TroubleKeeps(w, pid, trouble, planner); }
  }

  lemma OperatorCallKeeps(w: World, call: Call, planner: Planner, digest: Digest, order: Iteration)
    requires Inv(w, planner) && Plans(planner, digest, order) && Faithful(digest) && Iterates(order)
        && CallAccepted(call)
    requires call.Accept? || call.Edit? || call.Close? || call.Begin? || call.Crash?
    ensures Inv(Next(w, call, digest, order), planner)
  {
    match call
    case Accept(r) => if r.provisioningId !in w.ops { AcceptKeeps(w, r, planner, digest, order); }
    case Edit(pid, state, plan) =>
      if pid in w.ops { EditKeeps(w, pid, w.ops[pid].(state := state, plan := plan), planner); }
    case Close(pid) => if pid in w.ops { EditKeeps(w, pid, w.ops[pid].(closed := true), planner); }
    case Begin(pid) => if pid in w.ops && pid in w.history { BeginKeeps(w, pid, planner); }
    case Crash(pid) => if pid in w.ops { CrashKeeps(w, pid, planner); }
  }

  lemma NextKeeps(w: World, call: Call, planner: Planner, digest: Digest, order: Iteration)
    requires Inv(w, planner) && Plans(planner, digest, order) && Faithful(digest) && Iterates(order)
        && CallAccepted(call)
    ensures Inv(Next(w, call, digest, order), planner)
  {
    if ByPass(call) {
      if At(w, call.pid) { PassStepKeeps(w, call, planner, digest, order); }
    } else if call.Foreign? || call.Onboard? || call.Tick? {
      OutsideKeeps(w, Next(w, call, digest, order), planner);
    } else {
      OperatorCallKeeps(w, call, planner, digest, order);
    }
  }

  lemma {:induction false} RunKeeps(w: World, calls: seq<Call>, planner: Planner, digest: Digest, order: Iteration)
    requires Inv(w, planner) && Plans(planner, digest, order) && Faithful(digest) && Iterates(order)
        && CallsAccepted(calls)
    ensures Inv(Run(w, calls, digest, order), planner)
    decreases |calls|
  {
    if calls != [] {
      NextKeeps(w, calls[0], planner, digest, order);
      RunKeeps(Next(w, calls[0], digest, order), calls[1..], planner, digest, order);
    }
  }
}
