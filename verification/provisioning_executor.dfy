/**
 Provisioning execution as it runs, in place: every call has the effect of `Next`, and a whole pass, looping over its
 pending steps with other operations' passes in between, is one of the runs the theorems are about.
 */
module ProvisioningExecutor {
  import opened Prelude
  import opened Ordering
  import opened RequestState
  import opened ProvisioningPlan
  import opened Provisioning
  import opened ProvisioningTheorems
  import CommandState

  class Site {
    const digest: Digest
    const order: Iteration
    var ops: map<Pid, Operation>
    var history: map<Pid, History>
    var records: map<RecordKey, Record>
    var tenants: map<(string, string), TenantRow>
    var now: Time

    function Snapshot(): World
      reads this
    {
      World(ops, history, records, tenants, now)
    }

    constructor (digest: Digest, order: Iteration)
      ensures Snapshot() == NOTHING && this.digest == digest && this.order == order
    {
      this.digest, this.order := digest, order;
      ops, history, records, tenants, now := map[], map[], map[], map[], 0;
    }

    // -------------------------------------------------------------------------------------------------------------
    // The store's and the adapter's operations
    // -------------------------------------------------------------------------------------------------------------

    method Enter(pid: Pid, at: Point)
      requires At(Snapshot(), pid)
      modifies this`ops
      ensures Snapshot() == With(old(Snapshot()), pid, MoveTo(old(ops)[pid], at))
    {
      ops := ops[pid := ops[pid].(pass := Some(ops[pid].pass.value.(at := at)))];
    }

    /** `put_native_id`: the row of this resource key is written or overwritten. */
    method PutNativeId(pid: Pid, key: string, native: nat)
      requires pid in ops
      modifies this`ops
      ensures ops == old(ops)[pid := old(ops)[pid].(natives := old(ops)[pid].natives[key := native])]
    {
      ops := ops[pid := ops[pid].(natives := ops[pid].natives[key := native])];
    }

    method Accept(r: Request)
      requires r.provisioningId !in ops && UniqueMarkets(r)
      modifies this`ops, this`history
      ensures Snapshot() == Admitted(old(Snapshot()), r, digest, order)
    {
      var plan := BuildPlan(r, digest, order);
      var state := BuildDesiredState(r, order);
      var pid := r.provisioningId;
      ops := ops[pid :=
          Operation(state, Some(plan.value.digest), plan.value.steps, CommandState.Planned, 0, now, None, None, None,
                                  false, {}, map[], None)];
      history := history[pid := History(r, plan.value.steps, 0, 0, 0)];
    }

    /** `ORDER BY created_at, provisioning_id`. */
    ghost predicate NotAfter(a: Pid, b: Pid)
      reads this
    {
      && a in ops && b in ops
      && (ops[a].createdAt < ops[b].createdAt || (ops[a].createdAt == ops[b].createdAt && Leq(a, b)))
    }

    method Oldest(candidates: set<Pid>) returns (oldest: Pid)
      requires candidates != {} && forall p :: p in candidates ==> p in ops
      ensures oldest in candidates && forall p :: p in candidates ==> NotAfter(oldest, p)
    {
      oldest :| oldest in candidates;
      var left := candidates - {oldest};
      LeqTotal(oldest, oldest);
      while left != {}
        invariant left <= candidates && oldest in candidates
        invariant forall p :: p in candidates && p !in left ==> NotAfter(oldest, p)
        decreases left
      {
        var p :| p in left;
        left := left - {p};
        if ops[p].createdAt < ops[oldest].createdAt || (ops[p].createdAt == ops[oldest].createdAt && Leq(p, oldest)) {
          FirstOf(p, oldest, candidates - left);
          oldest := p;
        } else {
          LeqTotal(p, oldest);
        }
      }
    }

    lemma FirstOf(p: Pid, oldest: Pid, seen: set<Pid>)
      requires NotAfter(p, oldest) && forall q :: q in seen && q != p ==> NotAfter(oldest, q)
      ensures forall q :: q in seen ==> NotAfter(p, q)
    {
      LeqTotal(p, p);
      forall q | q in seen ensures NotAfter(p, q) {
        if q != p && Leq(p, oldest) && Leq(oldest, q) { LeqTransitive(p, oldest, q); }
      }
    }

    /** `due`: the operations that still need work and are not put off, oldest first. */
    method ListDue(limit: nat) returns (ids: seq<Pid>)
      ensures forall p :: p in ids ==> p in ops && Due(ops[p], now)
      ensures Distinct(ids)
      ensures forall i, j :: 0 <= i < j < |ids| ==> NotAfter(ids[i], ids[j])
      ensures |ids| <= limit
      ensures forall p :: p in ops && Due(ops[p], now) && p !in ids ==>
                |ids| == limit && forall q :: q in ids ==> NotAfter(q, p)
    {
      ids := [];
      var left := set p | p in ops && Due(ops[p], now);
      while left != {} && |ids| < limit
        invariant forall p :: p in left ==> p in ops && Due(ops[p], now)
        invariant forall p :: p in ids ==> p in ops && Due(ops[p], now) && p !in left
        invariant forall i, j :: 0 <= i < j < |ids| ==> ids[i] != ids[j]
        invariant forall i, j :: 0 <= i < j < |ids| ==> NotAfter(ids[i], ids[j])
        invariant forall p, q :: p in ids && q in left ==> NotAfter(p, q)
        invariant forall p :: p in ops && Due(ops[p], now) ==> p in ids || p in left
        invariant |ids| <= limit
        decreases left
      {
        var oldest := Oldest(left);
        ids := ids + [oldest];
        left := left - {oldest};
      }
    }

    method Begin(pid: Pid)
      requires pid in ops && pid in history
      modifies this`ops, this`history
      ensures Snapshot() == BeginPass(old(Snapshot()), pid)
    {
      var o := ops[pid];
      if o.pass.None? && Workable(o) {
        var pass := Pass(o.state, o.digest, o.plan, o.status, o.attempts + 1, o.createdAt, None, [], Begun);
        ops := ops[pid := o.(attempts := o.attempts + 1, pass := Some(pass))];
        history := history[pid := history[pid].(begun := history[pid].begun + 1)];
      }
    }

    /** The list comprehension over the plan, with the completed steps as one query read them. */
    method PendingSteps(plan: seq<Step>, done: set<string>) returns (pending: seq<Step>)
      ensures pending == Pending(plan, done)
    {
      pending := [];
      for i := 0 to |plan|
        invariant pending == Pending(plan[..i], done)
      {
        assert plan[..i + 1][..i] == plan[..i];
        if plan[i].key !in done {
          pending := pending + [plan[i]];
        }
      }
      assert plan[..|plan|] == plan;
    }

    method Verify(pid: Pid, valid: bool, engine: bool, processes: bool)
      requires At(Snapshot(), pid)
      modifies this`ops
      ensures Snapshot() == With(old(Snapshot()), pid,
          VerifyPass(old(ops)[pid], valid, engine, processes, digest, order))
    {
      var o, p := ops[pid], ops[pid].pass.value;
      var obstacle := FindObstacle(p, valid, engine, processes);
      if obstacle.Some? {
        Enter(pid, Ending(Classify(obstacle.value)));
        return;
      }
      var request := VerifiedRequest(p.state, p.digest, digest, order).value;
      var pending := PendingSteps(p.plan, o.completed);
      StartApplying(pid, request, pending);
    }

    method StartApplying(pid: Pid, request: Request, pending: seq<Step>)
      requires At(Snapshot(), pid)
      modifies this`ops
      ensures Snapshot() == With(old(Snapshot()), pid, StartedRow(old(ops)[pid], request, pending))
    {
      var p := ops[pid].pass.value;
      if pending != [] && !p.status.Applying? {
        ops := ops[pid := ops[pid].(status := CommandState.Applying, lastError := None)];
      }
      ops := ops[pid := ops[pid].(pass := Some(p.(request := Some(request), pending := pending, at := Ahead)))];
    }

    method FindObstacle(p: Pass, valid: bool, engine: bool, processes: bool) returns (obstacle: Option<Trouble>)
      ensures obstacle == Obstacle(p, valid, engine, processes, digest, order)
    {
      var read := VerifiedRequest(p.state, p.digest, digest, order);
      if read.Err? {
        return Some(if read.error.Drift? then DriftedState else UnreadableState);
      }
      var plan := BuildPlan(read.value, digest, order);
      if !valid || plan.None? {
        return Some(Invalid);
      }
      if p.plan != plan.value.steps {
        return Some(DriftedState);
      }
      if !engine {
        return Some(NoEngine);
      }
      if !processes {
        return Some(NoProcess);
      }
      return None;
    }

    /** The records an engine query for a marker returns. */
    method QueryMarked(instance: string, table: Table, marker: string) returns (found: seq<RecordKey>)
      ensures forall i, j :: 0 <= i < j < |found| ==> found[i] != found[j]
      ensures (set k | k in found) == Marked(records, instance, table, marker)
    {
      found := [];
      var left := records.Keys;
      while left != {}
        invariant left <= records.Keys
        invariant forall i, j :: 0 <= i < j < |found| ==> found[i] != found[j]
        invariant forall k :: k in found <==>
                    k in records && k !in left && k.instance == instance && k.table == table
                        && records[k].description == marker
        decreases left
      {
        var k :| k in left;
        left := left - {k};
        if k.instance == instance && k.table == table && records[k].description == marker {
          found := found + [k];
        }
      }
    }

    /** `_create_once` up to the create, or the step's process. */
    method Look(pid: Pid, reply: Option<Trouble>)
      requires MidStep(Snapshot(), pid)
      modifies this`ops
      ensures Snapshot() == With(old(Snapshot()), pid, LookUp(old(Snapshot()), pid, reply))
    {
      var o := ops[pid];
      var step := o.pass.value.pending[0];
      if !Creates(step) {
        Enter(pid, if step.detail.MappingDetail? || reply.None? then Made(1) else Ending(Classify(reply.value)));
        return;
      }
      if ResourceKey(step) in o.natives {
        Enter(pid, if reply.None? then Known(o.natives[ResourceKey(step)]) else Ending(Classify(reply.value)));
        return;
      }
      if Marker(step.key).None? {
        Enter(pid, Ending(Classify(Invalid)));
        return;
      }
      if reply.Some? {
        Enter(pid, Ending(Classify(reply.value)));
        return;
      }
      Search(pid, step);
    }

    method Search(pid: Pid, step: Step)
      requires MidStep(Snapshot(), pid) && step == HeadOf(Snapshot(), pid)
      requires Creates(step) && ResourceKey(step) !in ops[pid].natives && Marker(step.key).Some?
      modifies this`ops
      ensures Snapshot() == With(old(Snapshot()), pid, LookUp(old(Snapshot()), pid, None))
    {
      var instance := ops[pid].pass.value.request.value.instance;
      var found := QueryMarked(instance, TableOf(step), Marker(step.key).value);
      ghost var marked := Marked(records, instance, TableOf(step), Marker(step.key).value);
      if |found| > 1 {
        assert {found[0], found[1]} <= marked && |{found[0], found[1]}| == 2;
        CardinalityGrows({found[0], found[1]}, marked);
        Enter(pid, Ending(Classify(Duplicates)));
      } else if found == [] {
        assert marked == {};
        Enter(pid, Absent);
      } else {
        assert marked == {found[0]};
        Enter(pid, Made(found[0].id));
      }
    }

    method Make(pid: Pid, id: nat, took: bool, reply: Option<Trouble>)
      requires MidStep(Snapshot(), pid) && Creates(HeadOf(Snapshot(), pid))
      modifies this`ops, this`records
      ensures Snapshot() == MakeRecord(old(Snapshot()), pid, id, took, reply)
    {
      var o := ops[pid];
      var step := o.pass.value.pending[0];
      if Marker(step.key).None? {
        Enter(pid, Ending(Classify(Invalid)));
        return;
      }
      var key := KeyFor(o, id);
      var created := took && key !in records;
      if created {
        records := records[key := Record(Marker(step.key).value, Some((pid, history[pid].done)))];
      }
      if created && reply.None? {
        Enter(pid, Made(id));
      } else {
        Enter(pid, Ending(Classify(if reply.Some? then reply.value else Unreachable)));
      }
    }

    method Put(pid: Pid)
      requires MidStep(Snapshot(), pid) && PointOf(Snapshot(), pid).Made?
      modifies this`ops
      ensures Snapshot() == With(old(Snapshot()), pid, PutNative(old(ops)[pid]))
    {
      var n := ops[pid].pass.value.at.native;
      PutNativeId(pid, ResourceKey(ops[pid].pass.value.pending[0]), n);
      Enter(pid, Known(n));
    }

    method Alias(pid: Pid)
      requires At(Snapshot(), pid) && PointOf(Snapshot(), pid).Known?
      modifies this`ops
      ensures Snapshot() == With(old(Snapshot()), pid, PutAlias(old(ops)[pid]))
    {
      var n := ops[pid].pass.value.at.native;
      PutNativeId(pid, CLIENT_ALIAS, n);
      Enter(pid, Aliased(n));
    }

    /** `mark_step`. */
    method Mark(pid: Pid)
      requires MidStep(Snapshot(), pid)
      modifies this`ops, this`history
      ensures Snapshot() == Completed(old(Snapshot()), pid)
    {
      var o, p := ops[pid], ops[pid].pass.value;
      ops := ops[pid :=
          o.(completed := o.completed + {p.pending[0].key}, pass := Some(p.(pending := p.pending[1..], at := Ahead)))];
      history := history[pid := history[pid].(done := history[pid].done + 1)];
    }

    /** `ConfirmingTenantMappings.create_mapping` and the step's row, in one commit. */
    method Map(pid: Pid)
      requires MidStep(Snapshot(), pid) && HeadOf(Snapshot(), pid).detail.MappingDetail?
      modifies this`ops, this`history, this`tenants
      ensures Snapshot() == MapTenant(old(Snapshot()), pid)
    {
      var o := ops[pid];
      var d := o.pass.value.pending[0].detail;
      if CLIENT_ALIAS !in o.natives || Blank(d.instance) {
        Enter(pid, Ending(Classify(Invalid)));
        return;
      }
      var row := TenantRow(o.natives[CLIENT_ALIAS], ALL_ORGANIZATIONS, d.instance);
      var place := (d.tenant, d.legalEntity);
      if place in tenants {
        if tenants[place] == row {
          Mark(pid);
        } else {
          Enter(pid, Ending(Classify(MappingClash)));
        }
      } else if NativeTaken(tenants, row) {
        Enter(pid, Ending(Classify(MappingClash)));
      } else {
        tenants := tenants[place := row];
        Mark(pid);
      }
    }

    /** `settle` up to its last commit but one: a failure is not yet recorded. */
    method Settle(pid: Pid, outcome: Outcome) returns (final: Outcome)
      requires At(Snapshot(), pid) && ops[pid].pass.value.attempts >= 1
      modifies this`ops, this`history
      ensures Snapshot() == SettlePass(old(Snapshot()), pid, outcome)
      ensures final == ApplyBudgets(outcome, old(ops)[pid].pass.value.attempts, old(ops)[pid].pass.value.createdAt, now)
    {
      var p := ops[pid].pass.value;
      final := ApplyBudgets(outcome, p.attempts, p.createdAt, now);
      if final.verdict.Fail? {
        ops := ops[pid := ops[pid].(status := CommandState.Failed, lastError := Some(final.code))];
        Enter(pid, Failing(final.code));
      } else {
        RecordOutcome(pid, final);
      }
    }

    /** `_record` of a success or a retry, with its refund. */
    method RecordOutcome(pid: Pid, final: Outcome)
      requires At(Snapshot(), pid) && !final.verdict.Fail?
      modifies this`ops, this`history
      ensures Snapshot() == RecordedPass(old(Snapshot()), pid, final)
    {
      if !final.verdict.Finished? {
        ops := ops[pid := ops[pid].(lastError := Some(final.code))];
      }
      var o := ops[pid];
      var refund := final.verdict.Blocked?;
      ops := ops[pid := o.(code := Some(final.code),
                           nextAttemptAt := if final.delay.Some? then Some(now + final.delay.value * SECOND) else None,
                           attempts := if refund && o.attempts > 0 then o.attempts - 1 else o.attempts,
                           pass := None)];
      if refund {
        history := history[pid := history[pid].(blocked := history[pid].blocked + 1)];
      }
    }

    /** `_record` of a failure. */
    method Conclude(pid: Pid)
      requires At(Snapshot(), pid) && PointOf(Snapshot(), pid).Failing?
      modifies this`ops
      ensures Snapshot() == With(old(Snapshot()), pid, ConcludedRow(old(ops)[pid]))
    {
      ops := ops[pid := ops[pid].(code := Some(ops[pid].pass.value.at.code), nextAttemptAt := None, pass := None)];
    }

    /** One call of the transition system, carried out in place. */
    method Perform(call: Call)
      requires call.Accept? ==> UniqueMarkets(call.request)
      modifies this
      ensures Snapshot() == Next(old(Snapshot()), call, digest, order)
    {
      match call {
        case Accept(r) => if r.provisioningId !in ops { Accept(r); }
        case Edit(pid, state, plan) => if pid in ops { ops := ops[pid := ops[pid].(state := state, plan := plan)]; }
        case Close(pid) => if pid in ops { ops := ops[pid := ops[pid].(closed := true)]; }
        case Foreign(key, description) =>
          if key !in records && !(MARKER_PREFIX <= description) {
            records := records[key := Record(description, None)];
          }
        case Onboard(place, row) => if place !in tenants && !NativeTaken(tenants, row)
            { tenants := tenants[place := row]; }
        case Tick(elapsed) => now := now + elapsed;
        case Begin(pid) => if pid in ops && pid in history { Begin(pid); }
        case Crash(pid) => if pid in ops { ops := ops[pid := ops[pid].(pass := None)]; }
        case _ => if At(Snapshot(), call.pid) { PassCall(call); }
      }
    }

    method PassCall(call: Call)
      requires ByPass(call) && At(Snapshot(), call.pid)
      modifies this
      ensures Snapshot() == PassStep(old(Snapshot()), call, digest, order)
    {
      var point := PointOf(Snapshot(), call.pid);
      match call {
        case Verify(pid, valid, engine, processes) => if point.Begun? { Verify(pid, valid, engine, processes); }
        case Look(pid, reply) => if point.Ahead? && MidStep(Snapshot(), pid) { Look(pid, reply); }
        case Make(pid, id, took, reply) =>
          if point.Absent? && MidStep(Snapshot(), pid) && Creates(HeadOf(Snapshot(), pid)) {
            Make(pid, id, took, reply);
          }
        case Put(pid) => if point.Made? && MidStep(Snapshot(), pid) { Put(pid); }
        case Alias(pid) =>
          if point.Known? && MidStep(Snapshot(), pid) && HeadOf(Snapshot(), pid).detail.ClientDetail? { Alias(pid); }
        case Mark(pid) =>
          if MidStep(Snapshot(), pid) && (if HeadOf(Snapshot(), pid).detail.ClientDetail? then point.Aliased?
                                          else point.Known? && !HeadOf(Snapshot(), pid).detail.MappingDetail?)
          { Mark(pid); }
        case Map(pid) =>
          if point.Known? && MidStep(Snapshot(), pid) && HeadOf(Snapshot(), pid).detail.MappingDetail? { Map(pid); }
        case Reconcile(pid, clash) =>
          if point.Ahead? && ops[pid].pass.value.pending == [] { ops := ops[pid := StartReconciling(ops[pid], clash)]; }
        case Check(pid, valid, healthy) =>
            if point.Checking? { ops := ops[pid := CheckPass(ops[pid], valid, healthy)]; }
        case Settle(pid) =>
          if point.Ending? && ops[pid].pass.value.attempts >= 1 { var _ := Settle(pid, point.outcome); }
        case Conclude(pid) => if point.Failing? { Conclude(pid); }
        case Stumble(pid, trouble) => if !point.Ending? && !point.Failing? { Enter(pid, Ending(Classify(trouble))); }
      }
    }

    // -------------------------------------------------------------------------------------------------------------
    // A whole pass
    // -------------------------------------------------------------------------------------------------------------

    /** The pass of `pid` stands here after `trace`, and `others` are other operations' calls. */
    ghost predicate Standing(pid: Pid, others: seq<Call>, trace: seq<Call>, start: World)
      reads this
    {
      At(Snapshot(), pid) && OthersOnly(others, pid) && Snapshot() == Run(start, trace, digest, order)
    }

    /** What other operations do between two calls of this one's pass. */
    method Between(pid: Pid, others: seq<Call>, ghost trace: seq<Call>, ghost start: World)
      returns (ghost longer: seq<Call>)
      requires Standing(pid, others, trace, start)
      modifies this
      ensures Snapshot() == Run(start, longer, digest, order)
      ensures At(Snapshot(), pid) && ops[pid] == old(ops)[pid]
    {
      ghost var after := Snapshot();
      for i := 0 to |others|
        invariant Snapshot() == Run(after, others[..i], digest, order)
        invariant At(Snapshot(), pid) && ops[pid] == after.ops[pid]
      {
        BystanderRuns(after, others, i, digest, order, pid);
        Perform(others[i]);
      }
      assert others[..|others|] == others;
      longer := trace + others;
      RunAppends(start, trace, others, digest, order);
    }

    /** One call of this operation's pass, then what other operations do before its next one. */
    method Turn(pid: Pid, call: Call, others: seq<Call>, ghost trace: seq<Call>, ghost start: World)
      returns (ghost longer: seq<Call>)
      requires Standing(pid, others, trace, start) && ByPass(call) && call.pid == pid
      requires At(Next(Snapshot(), call, digest, order), pid)
      modifies this
      ensures Snapshot() == Run(start, longer, digest, order)
      ensures At(Snapshot(), pid) && ops[pid] == Next(old(Snapshot()), call, digest, order).ops[pid]
    {
      RunAppends(start, trace, [call], digest, order);
      RunOne(Snapshot(), call, digest, order);
      Perform(call);
      longer := Between(pid, others, trace + [call], start);
    }

    method LookTurn(pid: Pid, reply: Option<Trouble>, others: seq<Call>, ghost trace: seq<Call>, ghost start: World)
      returns (ghost longer: seq<Call>)
      requires MidStep(Snapshot(), pid) && PointOf(Snapshot(), pid).Ahead?
      requires Standing(pid, others, trace, start)
      modifies this
      ensures Snapshot() == Run(start, longer, digest, order) && At(Snapshot(), pid)
      ensures Moved(old(ops)[pid], ops[pid]) && LookedAt(ops[pid])
    {
      LookLeads(Snapshot(), pid, reply, digest, order);
      longer := Turn(pid, Call.Look(pid, reply), others, trace, start);
    }

    method MakeTurn(pid: Pid, id: nat, took: bool, reply: Option<Trouble>, others: seq<Call>, ghost trace: seq<Call>,
        ghost start: World)
      returns (ghost longer: seq<Call>)
      requires MidStep(Snapshot(), pid) && PointOf(Snapshot(), pid).Absent? && Creates(HeadOf(Snapshot(), pid))
      requires Standing(pid, others, trace, start)
      modifies this
      ensures Snapshot() == Run(start, longer, digest, order) && At(Snapshot(), pid)
      ensures Moved(old(ops)[pid], ops[pid]) && (PointOf(Snapshot(), pid).Made? || PointOf(Snapshot(), pid).Ending?)
    {
      MakeLeads(Snapshot(), pid, id, took, reply, digest, order);
      longer := Turn(pid, Call.Make(pid, id, took, reply), others, trace, start);
    }

    method PutTurn(pid: Pid, others: seq<Call>, ghost trace: seq<Call>, ghost start: World)
      returns (ghost longer: seq<Call>)
      requires MidStep(Snapshot(), pid) && PointOf(Snapshot(), pid).Made?
      requires Standing(pid, others, trace, start)
      modifies this
      ensures Snapshot() == Run(start, longer, digest, order) && At(Snapshot(), pid)
      ensures Moved(old(ops)[pid], ops[pid]) && PointOf(Snapshot(), pid).Known?
    {
      PutLeads(Snapshot(), pid, digest, order);
      longer := Turn(pid, Call.Put(pid), others, trace, start);
    }

    method AliasTurn(pid: Pid, others: seq<Call>, ghost trace: seq<Call>, ghost start: World)
      returns (ghost longer: seq<Call>)
      requires MidStep(Snapshot(), pid) && PointOf(Snapshot(), pid).Known?
          && HeadOf(Snapshot(), pid).detail.ClientDetail?
      requires Standing(pid, others, trace, start)
      modifies this
      ensures Snapshot() == Run(start, longer, digest, order) && At(Snapshot(), pid)
      ensures Moved(old(ops)[pid], ops[pid]) && PointOf(Snapshot(), pid).Aliased?
    {
      AliasLeads(Snapshot(), pid, digest, order);
      longer := Turn(pid, Call.Alias(pid), others, trace, start);
    }

    method MarkTurn(pid: Pid, others: seq<Call>, ghost trace: seq<Call>, ghost start: World)
      returns (ghost longer: seq<Call>)
      requires MidStep(Snapshot(), pid) && Markable(ops[pid])
      requires Standing(pid, others, trace, start)
      modifies this
      ensures Snapshot() == Run(start, longer, digest, order) && At(Snapshot(), pid)
      ensures StepDone(old(ops)[pid], ops[pid])
    {
      MarkLeads(Snapshot(), pid, digest, order);
      longer := Turn(pid, Call.Mark(pid), others, trace, start);
    }

    method MapTurn(pid: Pid, others: seq<Call>, ghost trace: seq<Call>, ghost start: World)
      returns (ghost longer: seq<Call>)
      requires MidStep(Snapshot(), pid) && PointOf(Snapshot(), pid).Known?
          && HeadOf(Snapshot(), pid).detail.MappingDetail?
      requires Standing(pid, others, trace, start)
      modifies this
      ensures Snapshot() == Run(start, longer, digest, order) && At(Snapshot(), pid)
      ensures StepDone(old(ops)[pid], ops[pid]) || (PointOf(Snapshot(), pid).Ending? && Moved(old(ops)[pid], ops[pid]))
    {
      MapLeads(Snapshot(), pid, digest, order);
      longer := Turn(pid, Call.Map(pid), others, trace, start);
    }

    /** `adapter.apply` and `mark_step` for the first pending step: afterwards it is no longer pending, or the pass is
        ending. */
    method ApplyStep(pid: Pid, s: Script, k: nat, ghost trace: seq<Call>, ghost start: World)
      returns (ghost longer: seq<Call>)
      requires MidStep(Snapshot(), pid) && PointOf(Snapshot(), pid).Ahead?
      requires forall i :: OthersOnly(s.between(i), pid)
      requires Snapshot() == Run(start, trace, digest, order)
      modifies this
      ensures Snapshot() == Run(start, longer, digest, order) && At(Snapshot(), pid)
      ensures StepDone(old(ops)[pid], ops[pid]) || (PointOf(Snapshot(), pid).Ending? && Moved(old(ops)[pid], ops[pid]))
    {
      longer := LookTurn(pid, s.reading(k), s.between(5 * k), trace, start);
      if PointOf(Snapshot(), pid).Absent? {
        longer := MakeTurn(pid, s.ids(k), s.took(k), s.writing(k), s.between(5 * k + 1), longer, start);
      }
      if PointOf(Snapshot(), pid).Ending? {
        return;
      }
      if PointOf(Snapshot(), pid).Made? {
        longer := PutTurn(pid, s.between(5 * k + 2), longer, start);
      }
      longer := FinishStep(pid, s, k, longer, start);
    }

    /** The step's record or sentinel is mapped; the client is given its alias, the mapping step its tenant row. */
    method FinishStep(pid: Pid, s: Script, k: nat, ghost trace: seq<Call>, ghost start: World)
      returns (ghost longer: seq<Call>)
      requires MidStep(Snapshot(), pid) && PointOf(Snapshot(), pid).Known?
      requires forall i :: OthersOnly(s.between(i), pid)
      requires Snapshot() == Run(start, trace, digest, order)
      modifies this
      ensures Snapshot() == Run(start, longer, digest, order) && At(Snapshot(), pid)
      ensures StepDone(old(ops)[pid], ops[pid]) || (PointOf(Snapshot(), pid).Ending? && Moved(old(ops)[pid], ops[pid]))
    {
      if HeadOf(Snapshot(), pid).detail.MappingDetail? {
        longer := MapTurn(pid, s.between(5 * k + 4), trace, start);
        return;
      }
      longer := trace;
      if HeadOf(Snapshot(), pid).detail.ClientDetail? {
        longer := AliasTurn(pid, s.between(5 * k + 3), longer, start);
      }
      longer := MarkTurn(pid, s.between(5 * k + 4), longer, start);
    }

    method VerifyTurn(pid: Pid, s: Script, others: seq<Call>, ghost trace: seq<Call>, ghost start: World)
      returns (ghost longer: seq<Call>)
      requires At(Snapshot(), pid) && PointOf(Snapshot(), pid).Begun?
      requires Standing(pid, others, trace, start)
      modifies this
      ensures Snapshot() == Run(start, longer, digest, order) && At(Snapshot(), pid)
      ensures ops[pid].pass.value.attempts == old(ops)[pid].pass.value.attempts
      ensures PointOf(Snapshot(), pid).Ending? || (PointOf(Snapshot(), pid).Ahead? && ops[pid].pass.value.request.Some?)
    {
      VerifyLeads(Snapshot(), pid, s.valid, s.engine, s.processes, digest, order);
      longer := Turn(pid, Call.Verify(pid, s.valid, s.engine, s.processes), others, trace, start);
    }

    method ReconcileTurn(pid: Pid, clash: bool, others: seq<Call>, ghost trace: seq<Call>, ghost start: World)
      returns (ghost longer: seq<Call>)
      requires At(Snapshot(), pid) && PointOf(Snapshot(), pid).Ahead? && ops[pid].pass.value.pending == []
      requires Standing(pid, others, trace, start)
      modifies this
      ensures Snapshot() == Run(start, longer, digest, order) && At(Snapshot(), pid)
      ensures Moved(old(ops)[pid], ops[pid]) && (PointOf(Snapshot(), pid).Checking? || PointOf(Snapshot(), pid).Ending?)
    {
      ReconcileLeads(Snapshot(), pid, clash, digest, order);
      longer := Turn(pid, Call.Reconcile(pid, clash), others, trace, start);
    }

    method CheckTurn(pid: Pid, valid: bool, healthy: bool, others: seq<Call>, ghost trace: seq<Call>,
        ghost start: World)
      returns (ghost longer: seq<Call>)
      requires At(Snapshot(), pid) && PointOf(Snapshot(), pid).Checking?
      requires Standing(pid, others, trace, start)
      modifies this
      ensures Snapshot() == Run(start, longer, digest, order) && At(Snapshot(), pid)
      ensures Moved(old(ops)[pid], ops[pid]) && PointOf(Snapshot(), pid).Ending?
    {
      CheckLeads(Snapshot(), pid, valid, healthy, digest, order);
      longer := Turn(pid, Call.Check(pid, valid, healthy), others, trace, start);
    }

    /** The loop over the pending steps; it stops at the first that fails. */
    method ApplyPending(pid: Pid, s: Script, ghost trace: seq<Call>, ghost start: World)
      returns (k: nat, ghost longer: seq<Call>)
      requires At(Snapshot(), pid) && ops[pid].pass.value.attempts >= 1
          && Snapshot() == Run(start, trace, digest, order)
      requires PointOf(Snapshot(), pid).Ahead? && ops[pid].pass.value.request.Some?
      requires forall i :: OthersOnly(s.between(i), pid)
      modifies this
      ensures Snapshot() == Run(start, longer, digest, order)
      ensures At(Snapshot(), pid) && ops[pid].pass.value.attempts >= 1
      ensures PointOf(Snapshot(), pid).Ending? || (PointOf(Snapshot(), pid).Ahead? && ops[pid].pass.value.pending == [])
    {
      longer := trace;
      k := 1;
      while PointOf(Snapshot(), pid).Ahead? && ops[pid].pass.value.pending != []
        invariant At(Snapshot(), pid) && Snapshot() == Run(start, longer, digest, order)
        invariant ops[pid].pass.value.attempts >= 1
        invariant PointOf(Snapshot(), pid).Ending?
            || (PointOf(Snapshot(), pid).Ahead? && ops[pid].pass.value.request.Some?)
        decreases if PointOf(Snapshot(), pid).Ahead? then 1 + |ops[pid].pass.value.pending| else 0
      {
        longer := ApplyStep(pid, s, k, longer, start);
        k := k + 1;
      }
    }

    /** `run` and `settle` of an operation that has begun: verify, apply every pending step, reconcile, check,
        record. */
    method RunPass(pid: Pid, s: Script) returns (final: Outcome, ghost trace: seq<Call>)
      requires At(Snapshot(), pid) && PointOf(Snapshot(), pid).Begun? && ops[pid].pass.value.attempts >= 1
      requires forall i :: OthersOnly(s.between(i), pid)
      modifies this
      ensures Snapshot() == Run(old(Snapshot()), trace, digest, order)
      ensures pid in ops && RecordedAs(ops[pid], final, now)
    {
      ghost var start := Snapshot();
      var k := 1;
      trace := VerifyTurn(pid, s, s.between(0), [], start);
      if PointOf(Snapshot(), pid).Ahead? {
        k, trace := ApplyPending(pid, s, trace, start);
      }
      if PointOf(Snapshot(), pid).Ahead? {
        trace := ReconcileTurn(pid, s.clash, s.between(5 * k), trace, start);
      }
      if PointOf(Snapshot(), pid).Checking? {
        trace := CheckTurn(pid, s.valid, s.healthy, s.between(5 * k + 1), trace, start);
      }
      final, trace := SettleEnding(pid, s.between(5 * k + 2), trace, start);
    }

    /** The pass's end recorded: a failure in two commits, with other operations in between. */
    method SettleEnding(pid: Pid, others: seq<Call>, ghost trace: seq<Call>, ghost start: World)
      returns (final: Outcome, ghost longer: seq<Call>)
      requires Standing(pid, others, trace, start) && PointOf(Snapshot(), pid).Ending?
          && ops[pid].pass.value.attempts >= 1
      modifies this
      ensures Snapshot() == Run(start, longer, digest, order)
      ensures pid in ops && RecordedAs(ops[pid], final, now)
    {
      final, longer := SettleTurn(pid, others, trace, start);
      longer := ConcludeFailing(pid, final, others, longer, start);
    }

    /** The pass's end up to its last commit but one. */
    method SettleTurn(pid: Pid, others: seq<Call>, ghost trace: seq<Call>, ghost start: World)
      returns (final: Outcome, ghost longer: seq<Call>)
      requires Standing(pid, others, trace, start) && PointOf(Snapshot(), pid).Ending?
          && ops[pid].pass.value.attempts >= 1
      modifies this
      ensures Snapshot() == Run(start, longer, digest, order)
      ensures pid in ops && SettledAs(ops[pid], final, now)
      ensures final.verdict.Fail? ==> Standing(pid, others, longer, start)
    {
      longer := trace + [Call.Settle(pid)];
      SettleEndsRun(start, trace, pid, digest, order);
      SettledShape(Snapshot(), pid, PointOf(Snapshot(), pid).outcome);
      final := Settle(pid, PointOf(Snapshot(), pid).outcome);
    }

    /** A failure's second commit, after whatever other operations do; anything else is already recorded. */
    method ConcludeFailing(pid: Pid, final: Outcome, others: seq<Call>, ghost trace: seq<Call>, ghost start: World)
      returns (ghost longer: seq<Call>)
      requires pid in ops && SettledAs(ops[pid], final, now) && Snapshot() == Run(start, trace, digest, order)
      requires final.verdict.Fail? ==> Standing(pid, others, trace, start)
      modifies this
      ensures Snapshot() == Run(start, longer, digest, order)
      ensures pid in ops && RecordedAs(ops[pid], final, now)
    {
      longer := trace;
      if final.verdict.Fail? {
        longer := Between(pid, others, trace, start);
        ConcludeEndsRun(start, longer, pid, digest, order);
        Conclude(pid);
        longer := longer + [Call.Conclude(pid)];
      }
    }
  }

  /** The engine's answers during one pass, step by step, and the other operations' calls in between. */
  datatype Script = Script(
    valid: bool,
    engine: bool,
    processes: bool,
    clash: bool,
    healthy: bool,
    reading: nat -> Option<Trouble>,
    ids: nat -> nat,
    took: nat -> bool,
    writing: nat -> Option<Trouble>,
    between: nat -> seq<Call>)

  predicate OthersOnly(calls: seq<Call>, pid: Pid) {
    forall i :: 0 <= i < |calls| ==>
                  About(calls[i]) != Some(pid) && (calls[i].Accept? ==> UniqueMarkets(calls[i].request))
  }

  /** The pass moved within its step, if it did not end. */
  predicate Moved(before: Operation, after: Operation) {
    before.pass.Some? && after.pass.Some? && after.pass.value == before.pass.value.(at := after.pass.value.at)
  }

  /** The first pending step is behind. */
  predicate StepDone(before: Operation, after: Operation) {
    && before.pass.Some? && after.pass.Some? && before.pass.value.pending != []
    && after.pass.value == before.pass.value.(at := Ahead, pending := before.pass.value.pending[1..])
  }

  predicate LookedAt(o: Operation) {
    && o.pass.Some? && o.pass.value.pending != []
    && var at := o.pass.value.at;
        at.Ending? || at.Known? || at.Made? || (at.Absent? && Creates(o.pass.value.pending[0]))
  }

  predicate Markable(o: Operation) {
    && o.pass.Some? && o.pass.value.pending != []
    && if o.pass.value.pending[0].detail.ClientDetail? then o.pass.value.at.Aliased?
       else o.pass.value.at.Known? && !o.pass.value.pending[0].detail.MappingDetail?
  }

  lemma LookLeads(w: World, pid: Pid, reply: Option<Trouble>, digest: Digest, order: Iteration)
    requires MidStep(w, pid) && PointOf(w, pid).Ahead?
    ensures var w' := Next(w, Look(pid, reply), digest, order);
            At(w', pid) && Moved(w.ops[pid], w'.ops[pid]) && LookedAt(w'.ops[pid])
  {
    assert Next(w, Look(pid, reply), digest, order) == With(w, pid, LookUp(w, pid, reply));
    LookUpShape(w, pid, reply);
  }

  lemma LookUpShape(w: World, pid: Pid, reply: Option<Trouble>)
    requires MidStep(w, pid)
    ensures var o := LookUp(w, pid, reply); o.pass.Some? && Moved(w.ops[pid], o) && LookedAt(o)
  {
  }

  lemma MakeLeads(w: World, pid: Pid, id: nat, took: bool, reply: Option<Trouble>, digest: Digest, order: Iteration)
    requires MidStep(w, pid) && PointOf(w, pid).Absent? && Creates(HeadOf(w, pid))
    ensures var w' := Next(w, Make(pid, id, took, reply), digest, order);
            At(w', pid) && (PointOf(w', pid).Ending? || PointOf(w', pid).Made?) && Moved(w.ops[pid], w'.ops[pid])
  {
    assert Next(w, Make(pid, id, took, reply), digest, order) == MakeRecord(w, pid, id, took, reply);
  }

  lemma PutLeads(w: World, pid: Pid, digest: Digest, order: Iteration)
    requires MidStep(w, pid) && PointOf(w, pid).Made?
    ensures var w' := Next(w, Put(pid), digest, order);
            At(w', pid) && PointOf(w', pid).Known? && Moved(w.ops[pid], w'.ops[pid])
  {
    assert Next(w, Put(pid), digest, order) == With(w, pid, PutNative(w.ops[pid]));
  }

  lemma AliasLeads(w: World, pid: Pid, digest: Digest, order: Iteration)
    requires MidStep(w, pid) && PointOf(w, pid).Known? && HeadOf(w, pid).detail.ClientDetail?
    ensures var w' := Next(w, Alias(pid), digest, order);
            At(w', pid) && PointOf(w', pid).Aliased? && Moved(w.ops[pid], w'.ops[pid])
  {
    assert Next(w, Alias(pid), digest, order) == With(w, pid, PutAlias(w.ops[pid]));
  }

  lemma MarkLeads(w: World, pid: Pid, digest: Digest, order: Iteration)
    requires MidStep(w, pid) && Markable(w.ops[pid])
    ensures var w' := Next(w, Mark(pid), digest, order); At(w', pid) && StepDone(w.ops[pid], w'.ops[pid])
  {
    assert Next(w, Mark(pid), digest, order) == Completed(w, pid);
  }

  lemma MapLeads(w: World, pid: Pid, digest: Digest, order: Iteration)
    requires MidStep(w, pid) && PointOf(w, pid).Known? && HeadOf(w, pid).detail.MappingDetail?
    ensures var w' := Next(w, Map(pid), digest, order);
            && At(w', pid)
            && (StepDone(w.ops[pid], w'.ops[pid]) || (PointOf(w', pid).Ending? && Moved(w.ops[pid], w'.ops[pid])))
  {
    assert Next(w, Map(pid), digest, order) == MapTenant(w, pid);
    MapShape(w, pid);
  }

  lemma MapShape(w: World, pid: Pid)
    requires MidStep(w, pid) && HeadOf(w, pid).detail.MappingDetail?
    ensures var w' := MapTenant(w, pid);
            && At(w', pid)
            && (StepDone(w.ops[pid], w'.ops[pid]) || (PointOf(w', pid).Ending? && Moved(w.ops[pid], w'.ops[pid])))
  {
  }

  lemma VerifyLeads(w: World, pid: Pid, valid: bool, engine: bool, processes: bool, digest: Digest, order: Iteration)
    requires At(w, pid) && PointOf(w, pid).Begun?
    ensures var w' := Next(w, Verify(pid, valid, engine, processes), digest, order);
            && At(w', pid) && w'.ops[pid].pass.value.attempts == w.ops[pid].pass.value.attempts
            && (PointOf(w', pid).Ending? || (PointOf(w', pid).Ahead? && w'.ops[pid].pass.value.request.Some?))
  {
    VerifiedShape(w.ops[pid], valid, engine, processes, digest, order);
    VerifyIsNext(w, pid, valid, engine, processes, digest, order);
  }

  lemma VerifyIsNext(w: World, pid: Pid, valid: bool, engine: bool, processes: bool, digest: Digest, order: Iteration)
    requires At(w, pid) && PointOf(w, pid).Begun?
    ensures Next(w, Verify(pid, valid, engine, processes), digest, order)
         == With(w, pid, VerifyPass(w.ops[pid], valid, engine, processes, digest, order))
  {
    var call := Verify(pid, valid, engine, processes);
    NextIsPassStep(w, call, digest, order);
    assert PassStep(w, call, digest, order) == With(w, pid,
        VerifyPass(w.ops[pid], valid, engine, processes, digest, order));
  }

  lemma NextIsPassStep(w: World, call: Call, digest: Digest, order: Iteration)
    requires ByPass(call) && At(w, call.pid)
    ensures Next(w, call, digest, order) == PassStep(w, call, digest, order)
  {
  }

  /** A failure is about to be recorded; anything else is. */
  predicate SettledAs(o: Operation, final: Outcome, now: Time) {
    if final.verdict.Fail? then
      o.pass.Some? && o.pass.value.at == Failing(final.code) && o.status.Failed? && o.lastError == Some(final.code)
    else
      && o.pass.None? && o.code == Some(final.code)
      && (final.delay.Some? ==> o.nextAttemptAt == Some(now + final.delay.value * SECOND))
  }

  predicate RecordedAs(o: Operation, final: Outcome, now: Time) {
    && o.pass.None? && o.code == Some(final.code)
    && (if final.verdict.Fail? then o.status.Failed? && o.lastError == Some(final.code)
        else final.delay.Some? ==> o.nextAttemptAt == Some(now + final.delay.value * SECOND))
  }

  lemma SettleIsNext(w: World, pid: Pid, digest: Digest, order: Iteration)
    requires At(w, pid) && PointOf(w, pid).Ending? && w.ops[pid].pass.value.attempts >= 1
    ensures Run(w, [Settle(pid)], digest, order) == SettlePass(w, pid, PointOf(w, pid).outcome)
  {
    NextIsPassStep(w, Settle(pid), digest, order);
    assert PassStep(w, Settle(pid), digest, order) == SettlePass(w, pid, PointOf(w, pid).outcome);
    RunOne(w, Settle(pid), digest, order);
  }

  lemma SettleEndsRun(start: World, trace: seq<Call>, pid: Pid, digest: Digest, order: Iteration)
    requires var w := Run(start, trace, digest, order);
      At(w, pid) && PointOf(w, pid).Ending? && w.ops[pid].pass.value.attempts >= 1
    ensures var w := Run(start, trace, digest, order);
      Run(start, trace + [Settle(pid)], digest, order) == SettlePass(w, pid, PointOf(w, pid).outcome)
  {
    SettleIsNext(Run(start, trace, digest, order), pid, digest, order);
    RunAppends(start, trace, [Settle(pid)], digest, order);
  }

  lemma ConcludeEndsRun(start: World, trace: seq<Call>, pid: Pid, digest: Digest, order: Iteration)
    requires var w := Run(start, trace, digest, order); At(w, pid) && PointOf(w, pid).Failing?
    ensures var w := Run(start, trace, digest, order);
      Run(start, trace + [Conclude(pid)], digest, order) == With(w, pid, ConcludedRow(w.ops[pid]))
  {
    ConcludeIsNext(Run(start, trace, digest, order), pid, digest, order);
    RunAppends(start, trace, [Conclude(pid)], digest, order);
  }

  lemma SettledShape(w: World, pid: Pid, outcome: Outcome)
    requires At(w, pid) && w.ops[pid].pass.value.attempts >= 1
    ensures var p := w.ops[pid].pass.value;
      var w' := SettlePass(w, pid, outcome);
      && At(w, pid) && pid in w'.ops && pid in w'.history
      && SettledAs(w'.ops[pid], ApplyBudgets(outcome, p.attempts, p.createdAt, w.now), w.now)
  {
  }

  lemma ConcludeIsNext(w: World, pid: Pid, digest: Digest, order: Iteration)
    requires At(w, pid) && PointOf(w, pid).Failing?
    ensures Run(w, [Conclude(pid)], digest, order) == With(w, pid, ConcludedRow(w.ops[pid]))
  {
    NextIsPassStep(w, Conclude(pid), digest, order);
    assert PassStep(w, Conclude(pid), digest, order) == With(w, pid, ConcludedRow(w.ops[pid]));
    RunOne(w, Conclude(pid), digest, order);
  }

  lemma RunOne(w: World, call: Call, digest: Digest, order: Iteration)
    ensures Run(w, [call], digest, order) == Next(w, call, digest, order)
  {
    assert [call][1..] == [];
  }

  lemma VerifiedShape(o: Operation, valid: bool, engine: bool, processes: bool, digest: Digest, order: Iteration)
    requires o.pass.Some?
    ensures var after := VerifyPass(o, valid, engine, processes, digest, order);
            && after.pass.Some? && after.pass.value.attempts == o.pass.value.attempts
            && (after.pass.value.at.Ending? || (after.pass.value.at.Ahead? && after.pass.value.request.Some?))
  {
  }

  lemma ReconcileLeads(w: World, pid: Pid, clash: bool, digest: Digest, order: Iteration)
    requires At(w, pid) && PointOf(w, pid).Ahead? && w.ops[pid].pass.value.pending == []
    ensures var w' := Next(w, Reconcile(pid, clash), digest, order);
            At(w', pid) && (PointOf(w', pid).Checking? || PointOf(w', pid).Ending?) && Moved(w.ops[pid], w'.ops[pid])
  {
    assert Next(w, Reconcile(pid, clash), digest, order) == With(w, pid, StartReconciling(w.ops[pid], clash));
  }

  lemma CheckLeads(w: World, pid: Pid, valid: bool, healthy: bool, digest: Digest, order: Iteration)
    requires At(w, pid) && PointOf(w, pid).Checking?
    ensures var w' := Next(w, Check(pid, valid, healthy), digest, order);
            At(w', pid) && PointOf(w', pid).Ending? && Moved(w.ops[pid], w'.ops[pid])
  {
    assert Next(w, Check(pid, valid, healthy), digest, order) == With(w, pid, CheckPass(w.ops[pid], valid, healthy));
  }

  lemma HistoriesStay(w: World, call: Call, digest: Digest, order: Iteration, pid: Pid)
    requires pid in w.history
    ensures pid in Next(w, call, digest, order).history
  {
  }

  /** One more call of other operations, this one's pass where it was. */
  lemma BystanderRuns(start: World, others: seq<Call>, i: nat, digest: Digest, order: Iteration, pid: Pid)
    requires OthersOnly(others, pid) && i < |others| && At(Run(start, others[..i], digest, order), pid)
    ensures var w := Run(start, others[..i], digest, order);
            var w' := Next(w, others[i], digest, order);
            w' == Run(start, others[..i + 1], digest, order) && At(w', pid) && w'.ops[pid] == w.ops[pid]
  {
    var w := Run(start, others[..i], digest, order);
    OthersAreLeft(w, others[i], digest, order, pid);
    HistoriesStay(w, others[i], digest, order, pid);
    RunAppends(start, others[..i], [others[i]], digest, order);
    RunOne(w, others[i], digest, order);
    assert others[..i + 1] == others[..i] + [others[i]];
  }

  lemma {:induction false} RunAppends(w: World, calls: seq<Call>, later: seq<Call>, digest: Digest, order: Iteration)
    ensures Run(w, calls + later, digest, order) == Run(Run(w, calls, digest, order), later, digest, order)
    decreases |calls|
  {
    if calls == [] {
      assert calls + later == later;
    } else {
      assert (calls + later)[1..] == calls[1..] + later;
      RunAppends(Next(w, calls[0], digest, order), calls[1..], later, digest, order);
    }
  }
}
