/**
 Provisioning execution (modules/provisioning/execution.py, execution_store.py, idempiere_adapter.py, store.py): an
 accepted operation's plan, run step by step by passes that may die anywhere.

 A pass holds its operation's lock from `begin` to `settle`, so an operation has at most one pass; any number of
 operations have theirs at once. `Next` gives the effect of one database or engine call of one operation's pass, or of
 something outside. Whatever is stored of an operation except its digest may be edited behind the executor's
 back. */
module Provisioning {
  import opened Prelude
  import opened RequestState
  import opened ProvisioningPlan
  import CommandState
  import ExecutionPolicy

  type Status = CommandState.Status
  type Pid = string

  // ---------------------------------------------------------------------------------------------------------------
  // Outcomes and budgets
  // ---------------------------------------------------------------------------------------------------------------

  const MAX_ATTEMPTS: nat := 24
  const BLOCKED_DELAY_SECONDS: nat := 900

  datatype Code =
    | READY | NOT_READY | STATE_UNREADABLE | STATE_DRIFT | ENGINE_UNCONFIGURED | PROCESS_UNCONFIGURED | ENGINE_AUTH
    | ENGINE_UNAVAILABLE | ENGINE_REJECTED | DUPLICATE_NATIVE_RECORDS | TENANT_MAPPING_CONFLICT
    | WAREHOUSE_IDENTITY_CONFLICT
    | STEP_INVALID | UNEXPECTED_ERROR | ATTEMPTS_EXHAUSTED | BLOCKED_HORIZON_EXCEEDED

  datatype Verdict = Finished | Retry | Blocked | Fail

  datatype Outcome = Outcome(verdict: Verdict, code: Code, delay: Option<nat>)

  /** What can go wrong in a pass. */
  datatype Trouble =
    | UnreadableState | DriftedState | NoEngine | NoProcess | AuthRefused | Refused(status: nat) | Unreachable
    | Duplicates
    | MappingClash | IdentityClash | Invalid | Unexpected

  function Classify(t: Trouble): Outcome {
    match t
    case UnreadableState => Outcome(Fail, STATE_UNREADABLE, None)
    case DriftedState => Outcome(Fail, STATE_DRIFT, None)
    case NoEngine => Outcome(Blocked, ENGINE_UNCONFIGURED, None)
    case NoProcess => Outcome(Blocked, PROCESS_UNCONFIGURED, None)
    case AuthRefused => Outcome(Blocked, ENGINE_AUTH, None)
    case Refused(status) =>
      if status >= 500 || status in {408, 425, 429} then Outcome(Retry, ENGINE_UNAVAILABLE, None)
      else Outcome(Fail, ENGINE_REJECTED, None)
    case Unreachable => Outcome(Retry, ENGINE_UNAVAILABLE, None)
    case Duplicates => Outcome(Fail, DUPLICATE_NATIVE_RECORDS, None)
    case MappingClash => Outcome(Fail, TENANT_MAPPING_CONFLICT, None)
    case IdentityClash => Outcome(Fail, WAREHOUSE_IDENTITY_CONFLICT, None)
    case Invalid => Outcome(Fail, STEP_INVALID, None)
    case Unexpected => Outcome(Retry, UNEXPECTED_ERROR, None)
  }

  function ApplyBudgets(outcome: Outcome, attempts: nat, createdAt: Time, now: Time): Outcome
    requires attempts >= 1
  {
    match outcome.verdict
    case Retry =>
      if attempts >= MAX_ATTEMPTS then Outcome(Fail, ATTEMPTS_EXHAUSTED, None)
      else Outcome(Retry, outcome.code, Some(ExecutionPolicy.RetryDelay(attempts)))
    case Blocked =>
      if now - createdAt > HORIZON then Outcome(Fail, BLOCKED_HORIZON_EXCEEDED, None)
      else Outcome(Blocked, outcome.code, Some(BLOCKED_DELAY_SECONDS))
    case _ => outcome
  }

  // ---------------------------------------------------------------------------------------------------------------
  // State
  // ---------------------------------------------------------------------------------------------------------------

  datatype Table = AD_CLIENT | M_WAREHOUSE

  datatype RecordKey = RecordKey(instance: string, table: Table, id: nat)

  /** Which step of which operation made a record; None is anybody else. */
  datatype Record = Record(description: string, origin: Option<(Pid, nat)>)

  datatype TenantRow = TenantRow(client: nat, org: nat, instance: string)

  /** Where a pass stands: before the verification, before a step's first call, between a step's calls, past the steps,
      or with its operation failed and the outcome code still to be recorded. */
  datatype Point =
    | Begun
    | Ahead
    | Absent
    | Made(native: nat)
    | Known(native: nat)
    | Aliased(native: nat)
    | Checking
    | Ending(outcome: Outcome)
    | Failing(code: Code)

  /** `LoadedOperation`, and what the pass has worked out since: `pending` are the steps still to apply. */
  datatype Pass = Pass(
    state: Json,
    digest: Option<string>,
    plan: seq<Step>,
    status: Status,
    attempts: nat,
    createdAt: Time,
    request: Option<Request>,
    pending: seq<Step>,
    at: Point)

  /** `lastError` is the code at the head of the stored error text. */
  datatype Operation = Operation(
    state: Json,
    digest: Option<string>,
    plan: seq<Step>,
    status: Status,
    attempts: nat,
    createdAt: Time,
    nextAttemptAt: Option<Time>,
    code: Option<Code>,
    lastError: Option<Code>,
    closed: bool,
    completed: set<string>,
    natives: map<string, nat>,
    pass: Option<Pass>)

  /** What the tables do not hold: the request an operation was accepted with and its plan, how many of its steps are
      completed, and how many of its passes began and were settled as blocked. */
  datatype History = History(accepted: Request, steps: seq<Step>, done: nat, begun: nat, blocked: nat)

  datatype World = World(
    ops: map<Pid, Operation>,
    history: map<Pid, History>,
    records: map<RecordKey, Record>,
    tenants: map<(string, string), TenantRow>,
    now: Time)

  const MARKER_PREFIX := "baobab-provisioning:"

  const ALL_ORGANIZATIONS: nat := 0

  predicate Creates(s: Step) {
    s.detail.ClientDetail? || s.detail.WarehouseDetail?
  }

  function TableOf(s: Step): Table
    requires Creates(s)
  {
    if s.detail.ClientDetail? then AD_CLIENT else M_WAREHOUSE
  }

  function KeySet(steps: seq<Step>): set<string> {
    set s | s in steps :: s.key
  }

  /** The steps a snapshot of completed ones leaves, in plan order. */
  function Pending(steps: seq<Step>, done: set<string>): seq<Step> {
    if steps == [] then []
    else
      var last := steps[|steps| - 1];
      Pending(steps[..|steps| - 1], done) + if last.key in done then [] else [last]
  }

  function Marked(records: map<RecordKey, Record>, instance: string, table: Table, marker: string): set<RecordKey> {
    set k | k in records && k.instance == instance && k.table == table && records[k].description == marker
  }

  /** Open: not finished, and not abandoned with its command. */
  predicate Workable(o: Operation) {
    (o.status.Planned? || o.status.Applying? || o.status.Reconciling?) && !o.closed
  }

  /** What the worker lists: open, and not put off. */
  predicate Due(o: Operation, now: Time) {
    Workable(o) && (o.nextAttemptAt.Some? ==> o.nextAttemptAt.value <= now)
  }

  // ---------------------------------------------------------------------------------------------------------------
  // Calls
  // ---------------------------------------------------------------------------------------------------------------

  datatype Call =
    | Accept(request: Request)
    | Edit(pid: Pid, state: Json, plan: seq<Step>)
    | Close(pid: Pid)
    | Foreign(key: RecordKey, description: string)
    | Onboard(place: (string, string), row: TenantRow)
    | Tick(elapsed: Time)
    | Begin(pid: Pid)
    | Verify(pid: Pid, valid: bool, engine: bool, processes: bool)
    | Look(pid: Pid, reply: Option<Trouble>)
    | Make(pid: Pid, id: nat, took: bool, reply: Option<Trouble>)
    | Put(pid: Pid)
    | Alias(pid: Pid)
    | Mark(pid: Pid)
    | Map(pid: Pid)
    | Reconcile(pid: Pid, clash: bool)
    | Check(pid: Pid, valid: bool, healthy: bool)
    | Settle(pid: Pid)
    | Conclude(pid: Pid)
    | Stumble(pid: Pid, trouble: Trouble)
    | Crash(pid: Pid)

  function With(w: World, pid: Pid, o: Operation): World {
    w.(ops := w.ops[pid := o])
  }

  function MoveTo(o: Operation, at: Point): Operation
    requires o.pass.Some?
  {
    o.(pass := Some(o.pass.value.(at := at)))
  }

  function Troubled(o: Operation, t: Trouble): Operation
    requires o.pass.Some?
  {
    MoveTo(o, Ending(Classify(t)))
  }

  /** `begin`: counts the pass and loads the row, under the lock. */
  function BeginPass(w: World, pid: Pid): World
    requires pid in w.ops && pid in w.history
  {
    var o := w.ops[pid];
    if o.pass.Some? || !Workable(o) then w
    else
      var pass := Pass(o.state, o.digest, o.plan, o.status, o.attempts + 1, o.createdAt, None, [], Begun);
      With(w, pid, o.(attempts := o.attempts + 1, pass := Some(pass)))
      .(history := w.history[pid := w.history[pid].(begun := w.history[pid].begun + 1)])
  }

  /** What stops a pass before its first step. */
  function Obstacle(p: Pass, valid: bool, engine: bool, processes: bool, digest: Digest,
      order: Iteration): Option<Trouble> {
    var read := VerifiedRequest(p.state, p.digest, digest, order);
    if read.Err? then Some(if read.error.Drift? then DriftedState else UnreadableState)
    else if !valid || !UniqueMarkets(read.value) then Some(Invalid)
    else if p.plan != PlanOf(read.value, digest, order).steps then Some(DriftedState)
    else if !engine then Some(NoEngine)
    else if !processes then Some(NoProcess)
    else None
  }

  /** With steps left, the operation is put into applying. */
  function StartedRow(o: Operation, request: Request, pending: seq<Step>): Operation
    requires o.pass.Some?
  {
    var p := o.pass.value;
    var applies := pending != [] && !p.status.Applying?;
    o.(status := if applies then CommandState.Applying else o.status,
       lastError := if applies then None else o.lastError,
       pass := Some(p.(request := Some(request), pending := pending, at := Ahead)))
  }

  /** The request verified, the plan compared, engine and processes resolved; then the completed steps are read and,
      with steps left, the operation is put into applying. */
  function VerifyPass(o: Operation, valid: bool, engine: bool, processes: bool, digest: Digest,
      order: Iteration): Operation
    requires o.pass.Some?
  {
    var p := o.pass.value;
    var obstacle := Obstacle(p, valid, engine, processes, digest, order);
    if obstacle.Some? then Troubled(o, obstacle.value)
    else
      var request := VerifiedRequest(p.state, p.digest, digest, order).value;
      var pending := Pending(p.plan, o.completed);
      StartedRow(o, request, pending)
  }

  /** The first call of a step. A record already mapped is read; otherwise one an earlier pass left is looked for by its
      marker. A process is run; the mapping step needs neither. */
  ghost function LookUp(w: World, pid: Pid, reply: Option<Trouble>): Operation
    requires pid in w.ops && w.ops[pid].pass.Some? && w.ops[pid].pass.value.pending != []
    requires w.ops[pid].pass.value.request.Some?
  {
    var o := w.ops[pid];
    var step := o.pass.value.pending[0];
    if !Creates(step) then
      if step.detail.MappingDetail? || reply.None? then MoveTo(o, Made(1)) else Troubled(o, reply.value)
    else if ResourceKey(step) in o.natives then
      if reply.None? then MoveTo(o, Known(o.natives[ResourceKey(step)])) else Troubled(o, reply.value)
    else if Marker(step.key).None? then Troubled(o, Invalid)
    else if reply.Some? then Troubled(o, reply.value)
    else
      var marked := Marked(w.records, o.pass.value.request.value.instance, TableOf(step), Marker(step.key).value);
      if |marked| > 1 then Troubled(o, Duplicates)
      else if marked == {} then MoveTo(o, Absent)
      else
        var key :| key in marked;
        MoveTo(o, Made(key.id))
  }

  function KeyFor(o: Operation, id: nat): RecordKey
    requires o.pass.Some? && o.pass.value.pending != [] && o.pass.value.request.Some?
        && Creates(o.pass.value.pending[0])
  {
    RecordKey(o.pass.value.request.value.instance, TableOf(o.pass.value.pending[0]), id)
  }

  /** The engine create, which may take effect whatever its reply. `origin` is the step's place in the plan. */
  function MakeRecord(w: World, pid: Pid, id: nat, took: bool, reply: Option<Trouble>): World
    requires pid in w.ops && pid in w.history && w.ops[pid].pass.Some? && w.ops[pid].pass.value.pending != []
    requires w.ops[pid].pass.value.request.Some? && Creates(w.ops[pid].pass.value.pending[0])
  {
    var o := w.ops[pid];
    var step := o.pass.value.pending[0];
    if Marker(step.key).None? then With(w, pid, Troubled(o, Invalid))
    else
      var key := KeyFor(o, id);
      var created := took && key !in w.records;
      var records := if created then w.records[key := Record(Marker(step.key).value, Some((pid, w.history[pid].done)))]
          else w.records;
      With(w, pid, if created && reply.None? then MoveTo(o, Made(id))
          else Troubled(o, if reply.Some? then reply.value else Unreachable))
      .(records := records)
  }

  function PutNative(o: Operation): Operation
    requires o.pass.Some? && o.pass.value.pending != [] && o.pass.value.at.Made?
  {
    var n := o.pass.value.at.native;
    MoveTo(o, Known(n)).(natives := o.natives[ResourceKey(o.pass.value.pending[0]) := n])
  }

  function PutAlias(o: Operation): Operation
    requires o.pass.Some? && o.pass.value.at.Known?
  {
    MoveTo(o, Aliased(o.pass.value.at.native)).(natives := o.natives[CLIENT_ALIAS := o.pass.value.at.native])
  }

  /** The step's row, committed: the next step is first now. */
  function Completed(w: World, pid: Pid): World
    requires pid in w.ops && pid in w.history && w.ops[pid].pass.Some? && w.ops[pid].pass.value.pending != []
  {
    var o := w.ops[pid];
    var p := o.pass.value;
    With(w, pid, o.(completed := o.completed + {p.pending[0].key},
        pass := Some(p.(pending := p.pending[1..], at := Ahead))))
    .(history := w.history[pid := w.history[pid].(done := w.history[pid].done + 1)])
  }

  predicate NativeTaken(tenants: map<(string, string), TenantRow>, row: TenantRow) {
    exists place :: place in tenants && tenants[place].client == row.client && tenants[place].org == row.org
  }

  predicate Blank(s: string) {
    forall i :: 0 <= i < |s| ==> s[i] == ' '
  }

  /** The tenant mapping, confirmed or written, and the step's row with it in one commit. */
  function MapTenant(w: World, pid: Pid): World
    requires pid in w.ops && pid in w.history && w.ops[pid].pass.Some? && w.ops[pid].pass.value.pending != []
    requires w.ops[pid].pass.value.pending[0].detail.MappingDetail?
  {
    var o := w.ops[pid];
    var d := o.pass.value.pending[0].detail;
    if CLIENT_ALIAS !in o.natives || Blank(d.instance) then With(w, pid, Troubled(o, Invalid))
    else
      var row := TenantRow(o.natives[CLIENT_ALIAS], ALL_ORGANIZATIONS, d.instance);
      var place := (d.tenant, d.legalEntity);
      if place in w.tenants then
        if w.tenants[place] == row then Completed(w, pid) else With(w, pid, Troubled(o, MappingClash))
      else if NativeTaken(w.tenants, row) then With(w, pid, Troubled(o, MappingClash))
      else Completed(w, pid).(tenants := w.tenants[place := row])
  }

  function StartReconciling(o: Operation, clash: bool): Operation
    requires o.pass.Some?
  {
    if clash then Troubled(o, IdentityClash)
    else if o.pass.value.status.Reconciling? then MoveTo(o, Checking)
    else MoveTo(o, Checking).(status := CommandState.Reconciling, lastError := None)
  }

  predicate AllNamed(o: Operation)
    requires o.pass.Some?
  {
    forall s :: s in o.pass.value.plan ==> ResourceKey(s) in o.natives
  }

  function CheckPass(o: Operation, valid: bool, healthy: bool): Operation
    requires o.pass.Some?
  {
    if valid && healthy && AllNamed(o)
        then MoveTo(o, Ending(Outcome(Finished, READY, None))).(status := CommandState.Ready, lastError := None)
    else MoveTo(o, Ending(Outcome(Retry, NOT_READY, None)))
  }

  /** `settle`: a failure writes the failed status first and leaves its outcome code to a commit of its own; anything
      else is one `_record`, where only a blocked pass is refunded, and never below zero. */
  function SettlePass(w: World, pid: Pid, outcome: Outcome): World
    requires pid in w.ops && pid in w.history && w.ops[pid].pass.Some? && w.ops[pid].pass.value.attempts >= 1
  {
    var o := w.ops[pid];
    var p := o.pass.value;
    var final := ApplyBudgets(outcome, p.attempts, p.createdAt, w.now);
    if final.verdict.Fail? then With(w, pid, FailedRow(o, final.code)) else RecordedPass(w, pid, final)
  }

  /** `_record` of a pass that did not fail. */
  function RecordedPass(w: World, pid: Pid, final: Outcome): World
    requires pid in w.ops && pid in w.history
  {
    var o := w.ops[pid];
    var refund := final.verdict.Blocked?;
    With(w, pid,
         o.(code := Some(final.code),
            lastError := if final.verdict.Finished? then o.lastError else Some(final.code),
            nextAttemptAt := if final.delay.Some? then Some(w.now + final.delay.value * SECOND) else None,
            attempts := if refund && o.attempts > 0 then o.attempts - 1 else o.attempts,
            pass := None))
    .(history := if refund then w.history[pid := w.history[pid].(blocked := w.history[pid].blocked + 1)] else w.history)
  }

  /** `set_status` with the failure's text, and the command with it, committed. */
  function FailedRow(o: Operation, code: Code): Operation
    requires o.pass.Some?
  {
    MoveTo(o, Failing(code)).(status := CommandState.Failed, lastError := Some(code))
  }

  /** `_record` of a failure: the second commit. */
  function ConcludedRow(o: Operation): Operation
    requires o.pass.Some? && o.pass.value.at.Failing?
  {
    o.(code := Some(o.pass.value.at.code), nextAttemptAt := None, pass := None)
  }

  /** The pass of this call's operation, at this point. */
  predicate At(w: World, pid: Pid) {
    pid in w.ops && pid in w.history && w.ops[pid].pass.Some?
  }

  predicate MidStep(w: World, pid: Pid) {
    At(w, pid) && w.ops[pid].pass.value.pending != [] && w.ops[pid].pass.value.request.Some?
  }

  function PointOf(w: World, pid: Pid): Point
    requires At(w, pid)
  {
    w.ops[pid].pass.value.at
  }

  function HeadOf(w: World, pid: Pid): Step
    requires MidStep(w, pid)
  {
    w.ops[pid].pass.value.pending[0]
  }

  function Admitted(w: World, r: Request, digest: Digest, order: Iteration): World {
    var plan := PlanOf(r, digest, order);
    With(w, r.provisioningId,
         Operation(DesiredState(r, order), Some(plan.digest), plan.steps, CommandState.Planned, 0, w.now, None, None,
             None, false,
                   {}, map[], None))
    .(history := w.history[r.provisioningId := History(r, plan.steps, 0, 0, 0)])
  }

  ghost function Next(w: World, call: Call, digest: Digest, order: Iteration): World {
    match call
    case Accept(r) => if r.provisioningId in w.ops then w else Admitted(w, r, digest, order)
    case Edit(pid, state, plan) => if pid in w.ops then With(w, pid, w.ops[pid].(state := state, plan := plan)) else w
    case Close(pid) => if pid in w.ops then With(w, pid, w.ops[pid].(closed := true)) else w
    case Foreign(key, description) =>
      if key in w.records || MARKER_PREFIX <= description then w
      else w.(records := w.records[key := Record(description, None)])
    case Onboard(place, row) => if place in w.tenants || NativeTaken(w.tenants, row) then w
        else w.(tenants := w.tenants[place := row])
    case Tick(elapsed) => w.(now := w.now + elapsed)
    case Begin(pid) => if pid in w.ops && pid in w.history then BeginPass(w, pid) else w
    case Crash(pid) => if pid in w.ops then With(w, pid, w.ops[pid].(pass := None)) else w
    case _ => if At(w, call.pid) then PassStep(w, call, digest, order) else w
  }

  predicate ByPass(call: Call) {
    && !call.Accept? && !call.Edit? && !call.Close? && !call.Foreign? && !call.Onboard? && !call.Tick? && !call.Begin?
    && !call.Crash?
  }

  ghost function PassStep(w: World, call: Call, digest: Digest, order: Iteration): World
    requires ByPass(call) && At(w, call.pid)
  {
    var o := w.ops[call.pid];
    var point := PointOf(w, call.pid);
    match call
    case Verify(pid, valid, engine, processes) =>
      if point.Begun? then With(w, pid, VerifyPass(o, valid, engine, processes, digest, order)) else w
    case Look(pid, reply) => if point.Ahead? && MidStep(w, pid) then With(w, pid, LookUp(w, pid, reply)) else w
    case Make(pid, id, took, reply) =>
      if point.Absent? && MidStep(w, pid) && Creates(HeadOf(w, pid)) then MakeRecord(w, pid, id, took, reply) else w
    case Put(pid) => if point.Made? && MidStep(w, pid) then With(w, pid, PutNative(o)) else w
    case Alias(pid) =>
      if point.Known? && MidStep(w, pid) && HeadOf(w, pid).detail.ClientDetail? then With(w, pid, PutAlias(o)) else w
    case Mark(pid) =>
      if MidStep(w, pid) && (if HeadOf(w, pid).detail.ClientDetail? then point.Aliased?
                             else point.Known? && !HeadOf(w, pid).detail.MappingDetail?)
      then Completed(w, pid) else w
    case Map(pid) =>
      if point.Known? && MidStep(w, pid) && HeadOf(w, pid).detail.MappingDetail? then MapTenant(w, pid) else w
    case Reconcile(pid, clash) =>
      if point.Ahead? && o.pass.value.pending == [] then With(w, pid, StartReconciling(o, clash)) else w
    case Check(pid, valid, healthy) => if point.Checking? then With(w, pid, CheckPass(o, valid, healthy)) else w
    case Settle(pid) => if point.Ending? && o.pass.value.attempts >= 1 then SettlePass(w, pid, point.outcome) else w
    case Conclude(pid) => if point.Failing? then With(w, pid, ConcludedRow(o)) else w
    case Stumble(pid, trouble) => if point.Ending? || point.Failing? then w else With(w, pid, Troubled(o, trouble))
  }

  ghost function Run(w: World, calls: seq<Call>, digest: Digest, order: Iteration): World
    decreases |calls|
  {
    if calls == [] then w else Run(Next(w, calls[0], digest, order), calls[1..], digest, order)
  }

  const NOTHING: World := World(map[], map[], map[], map[], 0)
}
