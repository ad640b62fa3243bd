/**
 What an attempt at a customer event answers, in the terms of what it met: which call, with which data, reply or rows,
 gives which code; what the code does to the row; and that over every run no row carries a code nothing called for.
 */
module CustomerAnswers {
  import opened Prelude
  import opened Text
  import opened ExecutionPolicy
  import opened Inbox
  import opened InboxAnswers
  import opened InboxSupport
  import opened Customers
  import opened CustomerAttempts
  import opened CustomerPartners
  import opened CustomerOutcomes
  import opened CustomerConvergence

  // ---------------------------------------------------------------------------------------------------------------
  // What each code stands for
  // ---------------------------------------------------------------------------------------------------------------

  function EventOf(s: World, w: Worker): Row<Payload>
    requires InPhase(s, w)
  {
    s.queue.rows[s.queue.held[w].claim.row]
  }

  predicate Named(row: Row<Payload>) {
    row.tenant.Some? && row.tenant.value != ""
  }

  /** The event's tenant and legal entity have an engine to go to. */
  predicate HasEngine(s: World, row: Row<Payload>)
    requires row.payload.Projected? && row.tenant.Some?
  {
    var place := (row.tenant.value, row.payload.customer.legalEntity);
    place in s.placements && s.placements[place].instance.Some?
  }

  predicate KeyHeld(s: World, row: Row<Payload>)
    requires row.payload.Projected? && row.tenant.Some?
  {
    CustomerKey(row.tenant.value, row.payload.customer.legalEntity, row.payload.customer.customerId) in s.locks
  }

  /** The version a mapping row stands for; one that is no number predates every event. */
  function MappedVersion(m: Mapping): int {
    match m.version
    case Numeric(n) => n
    case NotNumeric(_) => 0
  }

  predicate SameContent(m: Mapping, c: Customer) {
    m.digest == Sha256Of(Content(c.customerType, c.displayName, c.status))
  }

  function RowKey(t: Task): MapKey {
    MapKey(t.instance, t.customer.legalEntity, t.customer.customerId)
  }

  predicate IsMarked(s: World, n: nat, t: Task, sha256: Hash) {
    && n in s.partners && s.partners[n].client == t.client
    && s.partners[n].description == Marker(sha256, t.tenant, t.customer.legalEntity, t.customer.customerId)
  }

  predicate BeginMeets(s: World, row: Row<Payload>, contended: bool, code: Code) {
    match code
    case PAYLOAD_INVALID => row.payload.Malformed?
    case TENANT_MISSING => row.payload.Projected? && !Named(row)
    case TENANT_UNMAPPED => row.payload.Projected? && Named(row) && !HasEngine(s, row)
    case CUSTOMER_CONTENDED =>
      row.payload.Projected? && Named(row) && HasEngine(s, row) && (contended || KeyHeld(s, row))
    case _ => false
  }

  predicate CompareMeets(s: World, t: Task, code: Code) {
    && RowKey(t) in s.mappings
    && var m := s.mappings[RowKey(t)];
    match code
    case STALE_VERSION => t.customer.version < MappedVersion(m)
    case ALREADY_PROJECTED => t.customer.version == MappedVersion(m) && SameContent(m, t.customer)
    case VERSION_CONFLICT => t.customer.version == MappedVersion(m) && !SameContent(m, t.customer)
    case _ => false
  }

  ghost predicate SeveralMarked(sha256: Hash, s: World, t: Task) {
    exists m: nat, n: nat :: m != n && IsMarked(s, m, t, sha256) && IsMarked(s, n, t, sha256)
  }

  ghost predicate ProbeMeets(sha256: Hash, s: World, t: Task, mapped: Option<Mapping>, session: Session, reply: Reply,
      code: Code)
  {
    match session
    case WrongOrg => code.ENGINE_ORG_MISMATCH?
    case Unconfigured => code.ENGINE_UNCONFIGURED?
    case Ready =>
      if mapped.Some? then
        || (code.UPDATED? && reply.Answered?)
        || (code.NATIVE_PARTNER_MISSING? && reply == Refused(404))
        || (code == CodeOfFailure(reply) && !reply.Answered? && reply != Refused(404))
      else
        || (code == CodeOfFailure(reply) && !reply.Answered?)
        || (code.DUPLICATE_NATIVE_PARTNERS? && reply.Answered? && SeveralMarked(sha256, s, t))
        || (code.ADOPTED_NATIVE_PARTNER? && reply.Answered? && !SeveralMarked(sha256, s, t)
            && exists n: nat :: IsMarked(s, n, t, sha256))
  }

  predicate UpdateMeets(s: World, n: nat, took: bool, reply: Reply, code: Code) {
    code == CodeOfFailure(reply) && !(took && reply.Answered? && n in s.partners)
  }

  predicate CreateMeets(s: World, n: nat, groups: nat, took: bool, reply: Reply, code: Code) {
    if groups != 1 then code.BP_GROUP_UNAVAILABLE?
    else if took && reply.Answered? && n !in s.issued then code.CREATED?
    else code == CodeOfFailure(reply)
  }

  ghost predicate CommitMeets(s: World, t: Task, minted: string, code: Code) {
    && code.UNEXPECTED_ERROR? && RowKey(t) !in s.mappings
    && exists other :: other in s.mappings && s.mappings[other].publicId == minted
  }

  /** The call meets what the code says, in the state it is made in. */
  ghost predicate Meets(sha256: Hash, s: World, call: Call, code: Code)
    requires ByWorker(call) && InPhase(s, call.worker)
  {
    var p := s.workers[call.worker];
    match call
    case Begin(w, contended) => p.Started? && BeginMeets(s, EventOf(s, w), contended, code)
    case Compare(_) => p.Holding? && CompareMeets(s, p.task, code)
    case Probe(_, session, reply) => p.Checked? && ProbeMeets(sha256, s, p.task, p.mapped, session, reply, code)
    case Update(_, took, reply) => p.Found? && UpdateMeets(s, p.native, took, reply, code)
    case Create(_, n, groups, took, reply) => p.Missing? && CreateMeets(s, n, groups, took, reply, code)
    case Commit(_, minted) => p.Applied? && CommitMeets(s, p.task, minted, code)
    case Settle(_) => false
    case Stumble(_) => code.UNEXPECTED_ERROR?
  }

  /** The code an attempt carries so far. */
  function InHand(phase: Phase): Option<Code> {
    match phase
    case Found(_, _, code) => Some(code)
    case Applied(_, _, code) => Some(code)
    case Ending(outcome) => Some(outcome.code)
    case _ => None
  }

  ghost predicate Carries(s: World, w: Worker, code: Code) {
    w in s.workers && InHand(s.workers[w]) == Some(code)
  }

  // ---------------------------------------------------------------------------------------------------------------
  // Every call answers what it met
  // ---------------------------------------------------------------------------------------------------------------

  lemma EndCarries(s: World, w: Worker, outcome: Outcome, code: Code)
    ensures Carries(End(s, w, outcome), w, code) <==> outcome.code == code
  {
  }

  lemma MoveCarries(s: World, w: Worker, phase: Phase, code: Code)
    ensures Carries(Move(s, w, phase), w, code) <==> InHand(phase) == Some(code)
  {
  }

  lemma FailureCarries(s: World, w: Worker, reply: Reply, code: Code)
    ensures Carries(End(s, w, EngineFailure(reply)), w, code) <==> code == CodeOfFailure(reply)
  {
    EndCarries(s, w, EngineFailure(reply), code);
  }

  /** How the branches of `BeginAttempt` end. */
  lemma BeginEnds(s: World, w: Worker, contended: bool)
    requires InPhase(s, w)
    ensures var row, after := EventOf(s, w), BeginAttempt(s, w, contended);
            && w in after.workers
            && InHand(after.workers[w])
               == if row.payload.Malformed? then Some(PAYLOAD_INVALID)
                  else if !Named(row) then Some(TENANT_MISSING)
                  else if !HasEngine(s, row) then Some(TENANT_UNMAPPED)
                  else if contended || KeyHeld(s, row) then Some(CUSTOMER_CONTENDED)
                  else None
  {
  }

  lemma BeginAnswers(s: World, w: Worker, contended: bool, code: Code)
    requires InPhase(s, w)
    ensures BeginMeets(s, EventOf(s, w), contended, code) <==> Carries(BeginAttempt(s, w, contended), w, code)
  {
    BeginEnds(s, w, contended);
  }

  lemma CompareAnswers(s: World, w: Worker, t: Task, code: Code)
    ensures CompareMeets(s, t, code) <==> Carries(CompareVersions(s, w, t), w, code)
  {
    EndCarries(s, w, Processing(STALE_VERSION), code);
    EndCarries(s, w, Processing(ALREADY_PROJECTED), code);
    EndCarries(s, w, Permanent(VERSION_CONFLICT), code);
    MoveCarries(s, w, Checked(t, Lookup(s.mappings, KeyOf(t))), code);
  }

  lemma MarkedAre(sha256: Hash, s: World, t: Task)
    ensures var marked := MarkedPartners(s.partners, t.client, MarkerOf(sha256, t));
            && (forall n: nat :: n in marked <==> IsMarked(s, n, t, sha256))
            && (|marked| > 1 <==> SeveralMarked(sha256, s, t))
  {
    var marked := MarkedPartners(s.partners, t.client, MarkerOf(sha256, t));
    if |marked| > 1 {
      var m :| m in marked;
      assert |marked - {m}| >= 1;
      var n :| n in marked - {m};
      assert IsMarked(s, m, t, sha256) && IsMarked(s, n, t, sha256);
    }
    if m: nat, n: nat :| m != n && IsMarked(s, m, t, sha256) && IsMarked(s, n, t, sha256) {
      CardinalityGrows({m, n}, marked);
    }
  }

  lemma ProbeAnswers(sha256: Hash, s: World, w: Worker, t: Task, mapped: Option<Mapping>, session: Session,
      reply: Reply, code: Code)
    ensures ProbeMeets(sha256, s, t, mapped, session, reply, code)
            <==> Carries(ProbeEngine(sha256, s, w, t, mapped, session, reply), w, code)
  {
    if !session.Ready? {
      EndCarries(s, w, SessionFailure(session), code);
    } else if reply == Refused(404) && mapped.Some? {
      EndCarries(s, w, Permanent(NATIVE_PARTNER_MISSING), code);
    } else if !reply.Answered? {
      FailureCarries(s, w, reply, code);
    } else if mapped.Some? {
      MoveCarries(s, w, Found(t, mapped.value.native, UPDATED), code);
    } else {
      SearchAnswers(sha256, s, w, t, code);
    }
  }

  lemma SearchAnswers(sha256: Hash, s: World, w: Worker, t: Task, code: Code)
    ensures ProbeMeets(sha256, s, t, None, Ready, Answered, code)
            <==> Carries(ProbeEngine(sha256, s, w, t, None, Ready, Answered), w, code)
  {
    MarkedAre(sha256, s, t);
    var marked := MarkedPartners(s.partners, t.client, MarkerOf(sha256, t));
    var after := ProbeEngine(sha256, s, w, t, None, Ready, Answered);
    if |marked| > 1 {
      EndCarries(s, w, Permanent(DUPLICATE_NATIVE_PARTNERS), code);
    } else if marked == {} {
      MoveCarries(s, w, Missing(t), code);
    } else {
      var n :| n in marked && after == Move(s, w, Found(t, n, ADOPTED_NATIVE_PARTNER));
      assert IsMarked(s, n, t, sha256);
      MoveCarries(s, w, Found(t, n, ADOPTED_NATIVE_PARTNER), code);
    }
  }

  lemma UpdateAnswers(s: World, w: Worker, t: Task, n: nat, known: Code, took: bool, reply: Reply, code: Code)
    ensures var s' := UpdatePartner(s, w, t, n, known, took, reply);
            && (UpdateMeets(s, n, took, reply, code) ==> Carries(s', w, code))
            && (Carries(s', w, code) ==> UpdateMeets(s, n, took, reply, code) || code == known)
  {
    var written := if took then Written(s, n, FieldsOf(t.customer)) else s;
    FailureCarries(written, w, reply, code);
    MoveCarries(written, w, Applied(t, n, known), code);
  }

  lemma CreateAnswers(sha256: Hash, s: World, w: Worker, t: Task, n: nat, groups: nat, took: bool, reply: Reply,
      code: Code)
    ensures CreateMeets(s, n, groups, took, reply, code)
            <==> Carries(CreatePartner(sha256, s, w, t, n, groups, took, reply), w, code)
  {
    EndCarries(s, w, Waiting(BP_GROUP_UNAVAILABLE), code);
    FailureCarries(s, w, reply, code);
    FailureCarries(Created(sha256, s, t, n), w, reply, code);
    MoveCarries(Created(sha256, s, t, n), w, Applied(t, n, CREATED), code);
  }

  lemma CommitCarries(s: World, w: Worker, t: Task, n: nat, known: Code, minted: string, code: Code)
    requires InPhase(s, w)
    ensures Carries(CommitProjection(s, w, t, n, known, minted), w, code) <==>
              code.UNEXPECTED_ERROR? && KeyOf(t) !in s.mappings && PublicIdTaken(s.mappings, KeyOf(t), minted)
  {
    if KeyOf(t) !in s.mappings && PublicIdTaken(s.mappings, KeyOf(t), minted) { EndCarries(s, w, UNEXPECTED, code); }
  }

  lemma CommitAnswers(s: World, w: Worker, t: Task, n: nat, known: Code, minted: string, code: Code)
    requires InPhase(s, w)
    ensures CommitMeets(s, t, minted, code) <==> Carries(CommitProjection(s, w, t, n, known, minted), w, code)
  {
    CommitCarries(s, w, t, n, known, minted, code);
  }

  /** The call puts the code in hand if it meets what the code says, and only then, unless it was there before. */
  ghost predicate Answering(sha256: Hash, s: World, s': World, call: Call, code: Code)
    requires ByWorker(call) && InPhase(s, call.worker)
  {
    && (Meets(sha256, s, call, code) ==> Carries(s', call.worker, code))
    && (Carries(s', call.worker, code) ==> Meets(sha256, s, call, code) || Carries(s, call.worker, code))
  }

  lemma BeginCallAnswers(sha256: Hash, s: World, call: Call, code: Code)
    requires call.Begin? && InPhase(s, call.worker)
    ensures Answering(sha256, s, WorkerStep(sha256, s, call), call, code)
  {
    var w, p := call.worker, s.workers[call.worker];
    if p.Started? { BeginAnswers(s, w, call.contended, code); }
  }

  lemma CompareCallAnswers(sha256: Hash, s: World, call: Call, code: Code)
    requires call.Compare? && InPhase(s, call.worker)
    ensures Answering(sha256, s, WorkerStep(sha256, s, call), call, code)
  {
    var w, p := call.worker, s.workers[call.worker];
    if p.Holding? { CompareAnswers(s, w, p.task, code); }
  }

  lemma ProbeCallAnswers(sha256: Hash, s: World, call: Call, code: Code)
    requires call.Probe? && InPhase(s, call.worker)
    ensures Answering(sha256, s, WorkerStep(sha256, s, call), call, code)
  {
    var w, p := call.worker, s.workers[call.worker];
    if p.Checked? { ProbeAnswers(sha256, s, w, p.task, p.mapped, call.session, call.reply, code); }
  }

  lemma UpdateCallAnswers(sha256: Hash, s: World, call: Call, code: Code)
    requires call.Update? && InPhase(s, call.worker)
    ensures Answering(sha256, s, WorkerStep(sha256, s, call), call, code)
  {
    var w, p := call.worker, s.workers[call.worker];
    if p.Found? {
      UpdateAnswers(s, w, p.task, p.native, p.code, call.took, call.reply, code);
      var after := UpdatePartner(s, w, p.task, p.native, p.code, call.took, call.reply);
      assert WorkerStep(sha256, s, call) == after;
      assert InHand(p) == Some(p.code);
    } else {
      assert WorkerStep(sha256, s, call) == s;
    }
  }

  lemma CreateCallAnswers(sha256: Hash, s: World, call: Call, code: Code)
    requires call.Create? && InPhase(s, call.worker)
    ensures Answering(sha256, s, WorkerStep(sha256, s, call), call, code)
  {
    var w, p := call.worker, s.workers[call.worker];
    if p.Missing? {
      CreateAnswers(sha256, s, w, p.task, call.native, call.groups, call.took, call.reply, code);
    }
  }

  lemma EndingAnswers(sha256: Hash, s: World, call: Call, code: Code)
    requires (call.Commit? || call.Settle? || call.Stumble?) && InPhase(s, call.worker)
    ensures Answering(sha256, s, WorkerStep(sha256, s, call), call, code)
  {
    var w, p := call.worker, s.workers[call.worker];
    match call
    case Commit(_, minted) => if p.Applied? { CommitAnswers(s, w, p.task, p.native, p.code, minted, code); }
    case Settle(_) =>
    case Stumble(_) => EndCarries(s, w, UNEXPECTED, code);
  }

  /** A call that meets what a code says puts the code in hand, and no call does so without. */
  lemma CallAnswers(sha256: Hash, s: World, call: Call, code: Code)
    requires ByWorker(call) && InPhase(s, call.worker)
    ensures Answering(sha256, s, Step(sha256, s, call), call, code)
  {
    assert Step(sha256, s, call) == WorkerStep(sha256, s, call);
    match call
    case Begin(_, _) => BeginCallAnswers(sha256, s, call, code);
    case Compare(_) => CompareCallAnswers(sha256, s, call, code);
    case Probe(_, _, _) => ProbeCallAnswers(sha256, s, call, code);
    case Update(_, _, _) => UpdateCallAnswers(sha256, s, call, code);
    case Create(_, _, _, _, _) => CreateCallAnswers(sha256, s, call, code);
    case _ => EndingAnswers(sha256, s, call, code);
  }

  // ---------------------------------------------------------------------------------------------------------------
  // What a code does to the row
  // ---------------------------------------------------------------------------------------------------------------

  /** Done, tried again, put on hold, or given up to an operator. */
  function VerdictFor(code: Code): Verdict {
    match code
    case CREATED => Processed
    case ADOPTED_NATIVE_PARTNER => Processed
    case UPDATED => Processed
    case STALE_VERSION => Processed
    case ALREADY_PROJECTED => Processed
    case CUSTOMER_CONTENDED => Retry
    case ENGINE_UNAVAILABLE => Retry
    case UNEXPECTED_ERROR => Retry
    case TENANT_UNMAPPED => Blocked
    case ENGINE_ORG_MISMATCH => Blocked
    case ENGINE_UNCONFIGURED => Blocked
    case BP_GROUP_UNAVAILABLE => Blocked
    case _ => DeadLetter
  }

  /** The outcome is what its code stands for; contention alone costs no attempt and waits five seconds. */
  predicate Shaped(outcome: Outcome) {
    outcome == if outcome.code.CUSTOMER_CONTENDED? then Outcome(Retry, CUSTOMER_CONTENDED, Some(5), true)
               else Outcome(VerdictFor(outcome.code), outcome.code, None, false)
  }

  ghost predicate AllShaped(s: World) {
    forall w {:trigger s.workers[w]} :: w in s.workers && s.workers[w].Ending? ==> Shaped(s.workers[w].outcome)
  }

  /** An attempt that ends here ends with such an outcome. */
  ghost predicate ShapedEnd(s: World, s': World, w: Worker) {
    w in s'.workers && s'.workers[w].Ending? && !(w in s.workers && s'.workers[w] == s.workers[w]) ==>
        Shaped(s'.workers[w].outcome)
  }

  lemma FailureIsShaped(reply: Reply)
    ensures Shaped(EngineFailure(reply))
  {
  }

  lemma EndIsShaped(s: World, s1: World, v: Worker, outcome: Outcome, w: Worker)
    requires Shaped(outcome) && s1.workers == s.workers
    ensures ShapedEnd(s, End(s1, v, outcome), w)
  {
  }

  lemma MoveIsShaped(s: World, s1: World, v: Worker, phase: Phase, w: Worker)
    requires !phase.Ending? && s1.workers == s.workers
    ensures ShapedEnd(s, Move(s1, v, phase), w)
  {
  }

  lemma BeginIsShaped(s: World, v: Worker, contended: bool, w: Worker)
    requires InPhase(s, v)
    ensures ShapedEnd(s, BeginAttempt(s, v, contended), w)
  {
  }

  lemma CompareIsShaped(s: World, v: Worker, t: Task, w: Worker)
    ensures ShapedEnd(s, CompareVersions(s, v, t), w)
  {
  }

  lemma ProbeIsShaped(sha256: Hash, s: World, v: Worker, t: Task, mapped: Option<Mapping>, session: Session,
      reply: Reply, w: Worker)
    ensures ShapedEnd(s, ProbeEngine(sha256, s, v, t, mapped, session, reply), w)
  {
    FailureIsShaped(reply);
  }

  lemma UpdateIsShaped(s: World, v: Worker, t: Task, n: nat, code: Code, took: bool, reply: Reply, w: Worker)
    ensures ShapedEnd(s, UpdatePartner(s, v, t, n, code, took, reply), w)
  {
    var written := if took then Written(s, n, FieldsOf(t.customer)) else s;
    FailureIsShaped(reply);
    EndIsShaped(s, written, v, EngineFailure(reply), w);
    MoveIsShaped(s, written, v, Applied(t, n, code), w);
  }

  lemma CreateIsShaped(sha256: Hash, s: World, v: Worker, t: Task, n: nat, groups: nat, took: bool, reply: Reply,
      w: Worker)
    ensures ShapedEnd(s, CreatePartner(sha256, s, v, t, n, groups, took, reply), w)
  {
    FailureIsShaped(reply);
    EndIsShaped(s, s, v, EngineFailure(reply), w);
    EndIsShaped(s, Created(sha256, s, t, n), v, EngineFailure(reply), w);
  }

  lemma CommitIsShaped(s: World, v: Worker, t: Task, n: nat, code: Code, minted: string, w: Worker)
    requires InPhase(s, v)
    ensures ShapedEnd(s, CommitProjection(s, v, t, n, code, minted), w)
  {
  }

  lemma WorkerIsShaped(sha256: Hash, s: World, call: Call, w: Worker)
    requires ByWorker(call) && InPhase(s, call.worker)
    ensures ShapedEnd(s, WorkerStep(sha256, s, call), w)
  {
    var p := s.workers[call.worker];
    match call
    case Begin(v, contended) => BeginIsShaped(s, v, contended, w);
    case Compare(v) => if p.Holding? { CompareIsShaped(s, v, p.task, w); }
    case Probe(v, session, reply) =>
      if p.Checked? { ProbeIsShaped(sha256, s, v, p.task, p.mapped, session, reply, w); }
    case Update(v, took, reply) => if p.Found? { UpdateIsShaped(s, v, p.task, p.native, p.code, took, reply, w); }
    case Create(v, n, groups, took, reply) =>
      if p.Missing? { CreateIsShaped(sha256, s, v, p.task, n, groups, took, reply, w); }
    case Commit(v, minted) => if p.Applied? { CommitIsShaped(s, v, p.task, p.native, p.code, minted, w); }
    case Settle(_) =>
    case Stumble(_) =>
  }

  lemma CallIsShaped(sha256: Hash, s: World, call: Call, w: Worker)
    ensures ShapedEnd(s, Step(sha256, s, call), w)
  {
    if !ByWorker(call) {
      SurroundingsAreShaped(sha256, s, call, w);
    } else if InPhase(s, call.worker) {
      WorkerIsShaped(sha256, s, call, w);
    }
  }

  lemma SurroundingsAreShaped(sha256: Hash, s: World, call: Call, w: Worker)
    requires !ByWorker(call)
    ensures ShapedEnd(s, Step(sha256, s, call), w)
  {
  }

  lemma StepIsShaped(sha256: Hash, s: World, call: Call)
    requires AllShaped(s)
    ensures AllShaped(Step(sha256, s, call))
  {
    var s' := Step(sha256, s, call);
    forall w | w in s'.workers && s'.workers[w].Ending? ensures Shaped(s'.workers[w].outcome) {
      CallIsShaped(sha256, s, call, w);
      if w in s.workers && s.workers[w].Ending? { assert Shaped(s.workers[w].outcome); }
    }
  }

  lemma {:induction false} RunIsShaped(sha256: Hash, s: World, calls: seq<Call>)
    requires AllShaped(s)
    ensures AllShaped(Run(sha256, s, calls))
    decreases |calls|
  {
    if calls != [] {
      StepIsShaped(sha256, s, calls[0]);
      RunIsShaped(sha256, Step(sha256, s, calls[0]), calls[1..]);
    }
  }

  /** The codes an attempt ends with before its commit. */
  predicate EndsAttempt(code: Code) {
    !code.CREATED? && !code.ADOPTED_NATIVE_PARTNER? && !code.UPDATED?
  }

  lemma MetKeepsQueue(sha256: Hash, s: World, call: Call, code: Code)
    requires ByWorker(call) && InPhase(s, call.worker) && Meets(sha256, s, call, code)
    ensures Step(sha256, s, call).queue == s.queue
  {
    if call.Commit? {
      CommitEffect(sha256, s, call);
      assert PublicIdTaken(s.mappings, KeyOf(s.workers[call.worker].task), call.minted);
    } else if !call.Settle? {
      QueueStays(sha256, s, call);
    }
  }

  lemma InHandEnds(phase: Phase, code: Code)
    requires InHand(phase) == Some(code) && CodeFits(phase) && EndsAttempt(code)
    ensures phase.Ending? && phase.outcome.code == code
  {
  }

  /** What is met ends the attempt, unless a partner was found or written. */
  lemma MetEnds(sha256: Hash, s: World, call: Call, code: Code)
    requires Steady(s) && AllShaped(s) && ByWorker(call) && InPhase(s, call.worker)
    requires EndsAttempt(code) && Meets(sha256, s, call, code)
    ensures var s', w := Step(sha256, s, call), call.worker;
            && s'.queue == s.queue && InPhase(s', w) && s'.workers[w].Ending?
            && s'.workers[w].outcome.code == code && Shaped(s'.workers[w].outcome)
  {
    var s' := Step(sha256, s, call);
    CallAnswers(sha256, s, call, code);
    MetKeepsQueue(sha256, s, call, code);
    StepSteady(s, call, sha256);
    StepIsShaped(sha256, s, call);
    assert CodeFits(s'.workers[call.worker]);
    InHandEnds(s'.workers[call.worker], code);
  }

  lemma SettleIsStep(sha256: Hash, s: World, w: Worker)
    requires InPhase(s, w) && s.workers[w].Ending?
    ensures Step(sha256, s, Settle(w)) == SettleAttempt(s, w, s.workers[w].outcome)
  {
  }

  lemma SettledRow(s: World, w: Worker, outcome: Outcome, code: Code)
    requires Holds(s.queue, w) && Shaped(outcome) && outcome.code == code && EndsAttempt(code)
    ensures var id, s' := s.queue.held[w].claim.row, SettleAttempt(s, w, outcome);
            && w !in s'.workers && id in s'.queue.rows
            && RecordedAs(s.queue.rows[id], s'.queue.rows[id], VerdictFor(code), code, code.CUSTOMER_CONTENDED?,
                   s.queue.now)
  {
    EndIsRecorded(s.queue, w, outcome, code.CUSTOMER_CONTENDED?);
  }

  lemma AnswerThenSettle(sha256: Hash, s: World, call: Call, code: Code)
    requires Steady(s) && AllShaped(s) && ByWorker(call) && InPhase(s, call.worker) && Holds(s.queue, call.worker)
    requires EndsAttempt(code) && Meets(sha256, s, call, code)
    ensures var s', id := Run(sha256, s, [call, Settle(call.worker)]), s.queue.held[call.worker].claim.row;
            && call.worker !in s'.workers && id in s'.queue.rows
            && RecordedAs(s.queue.rows[id], s'.queue.rows[id], VerdictFor(code), code, code.CUSTOMER_CONTENDED?,
                   s.queue.now)
  {
    var w, s1 := call.worker, Step(sha256, s, call);
    MetEnds(sha256, s, call, code);
    SettleIsStep(sha256, s1, w);
    RunThrough(sha256, [s, s1, SettleAttempt(s1, w, s1.workers[w].outcome)], [call, Settle(w)]);
    SettledRow(s1, w, s1.workers[w].outcome, code);
  }

  /** Over every run: an attempt that meets what a code says is over, and its row is recorded under the code as the code
      demands. */
  lemma AnswerIsRecorded(sha256: Hash, start: World, calls: seq<Call>, call: Call, code: Code)
    requires Initial(start)
    requires var s := Run(sha256, start, calls);
             && ByWorker(call) && InPhase(s, call.worker) && Holds(s.queue, call.worker)
             && EndsAttempt(code) && Meets(sha256, s, call, code)
    ensures var s, s' := Run(sha256, start, calls), Run(sha256, start, calls + [call, Settle(call.worker)]);
            var id := s.queue.held[call.worker].claim.row;
            && call.worker !in s'.workers && id in s'.queue.rows
            && RecordedAs(s.queue.rows[id], s'.queue.rows[id], VerdictFor(code), code, code.CUSTOMER_CONTENDED?,
                   s.queue.now)
  {
    InitiallyMarked(start, sha256);
    RunSteady(start, calls, sha256);
    RunIsShaped(sha256, start, calls);
    AnswerThenSettle(sha256, Run(sha256, start, calls), call, code);
    RunAppends(sha256, start, calls, [call, Settle(call.worker)]);
  }

  // ---------------------------------------------------------------------------------------------------------------
  // No code without its cause
  // ---------------------------------------------------------------------------------------------------------------

  /** The i-th call of the run, by the worker on this row, met what the code says. */
  ghost predicate MetAt(sha256: Hash, start: World, calls: seq<Call>, i: nat, w: Worker, id: RowId, code: Code)
    requires i < |calls|
  {
    var s := Run(sha256, start, calls[..i]);
    && ByWorker(calls[i]) && calls[i].worker == w && InPhase(s, w) && s.queue.held[w].claim.row == id
    && Meets(sha256, s, calls[i], code)
  }

  ghost predicate MetBy(sha256: Hash, start: World, calls: seq<Call>, n: nat, w: Worker, id: RowId, code: Code)
    requires n <= |calls|
  {
    exists i :: 0 <= i < n && MetAt(sha256, start, calls, i, w, id, code)
  }

  predicate Budget(code: Code) {
    code.ATTEMPTS_EXHAUSTED? || code.BLOCKED_HORIZON_EXCEEDED?
  }

  ghost predicate RowMet(sha256: Hash, start: World, calls: seq<Call>, n: nat, id: RowId)
    requires n <= |calls|
  {
    var rows := Run(sha256, start, calls[..n]).queue.rows;
    id in rows && rows[id].outcomeCode.Some? && !Budget(rows[id].outcomeCode.value) ==>
      exists w :: MetBy(sha256, start, calls, n, w, id, rows[id].outcomeCode.value)
  }

  ghost predicate WorkerMet(sha256: Hash, start: World, calls: seq<Call>, n: nat, w: Worker)
    requires n <= |calls|
  {
    var s := Run(sha256, start, calls[..n]);
    w in s.workers && InHand(s.workers[w]).Some? ==>
      && w in s.queue.held
      && MetBy(sha256, start, calls, n, w, s.queue.held[w].claim.row, InHand(s.workers[w]).value)
  }

  ghost predicate AllMet(sha256: Hash, start: World, calls: seq<Call>, n: nat)
    requires n <= |calls|
  {
    && (forall w {:trigger WorkerMet(sha256, start, calls, n, w)} :: WorkerMet(sha256, start, calls, n, w))
    && (forall id {:trigger RowMet(sha256, start, calls, n, id)} :: RowMet(sha256, start, calls, n, id))
  }

  /** Another worker's phase stays; what is new has no code yet. */
  lemma PhaseKept(sha256: Hash, s: World, call: Call, w: Worker)
    requires w in Step(sha256, s, call).workers && !(ByWorker(call) && call.worker == w && InPhase(s, w))
    ensures var s' := Step(sha256, s, call);
            (w in s.workers && s'.workers[w] == s.workers[w]) || InHand(s'.workers[w]).None?
  {
    if !ByWorker(call) {
      SurroundingsKeepPhases(sha256, s, call, w);
    } else if InPhase(s, call.worker) {
      CallKeepsOthers(sha256, s, call, w);
    }
  }

  lemma SurroundingsKeepPhases(sha256: Hash, s: World, call: Call, w: Worker)
    requires !ByWorker(call) && w in Step(sha256, s, call).workers
    ensures var s' := Step(sha256, s, call);
            (w in s.workers && s'.workers[w] == s.workers[w]) || s'.workers[w].Started?
  {
  }

  lemma CallKeepsOthers(sha256: Hash, s: World, call: Call, w: Worker)
    requires ByWorker(call) && w in Step(sha256, s, call).workers && call.worker != w
    ensures w in s.workers && Step(sha256, s, call).workers[w] == s.workers[w]
  {
    if call.Update? || call.Create? {
      WritesLeaveOthers(sha256, s, call, w);
    } else if call.Commit? || call.Settle? {
      EndsLeaveOthers(sha256, s, call, w);
    } else {
      ReadingStays(sha256, s, call);
    }
  }

  lemma WritesLeaveOthers(sha256: Hash, s: World, call: Call, w: Worker)
    requires (call.Update? || call.Create?) && w in Step(sha256, s, call).workers && call.worker != w
    ensures w in s.workers && Step(sha256, s, call).workers[w] == s.workers[w]
  {
    if InPhase(s, call.worker) {
      var p := s.workers[call.worker];
      if call.Update? && p.Found? {
        UpdateLeavesOthers(s, call.worker, p.task, p.native, p.code, call.took, call.reply, w);
      } else if call.Create? && p.Missing? {
        CreateLeavesOthers(sha256, s, call.worker, p.task, call.native, call.groups, call.took, call.reply, w);
      }
    }
  }

  lemma UpdateLeavesOthers(s: World, v: Worker, t: Task, n: nat, code: Code, took: bool, reply: Reply, w: Worker)
    requires v != w
    ensures var after := UpdatePartner(s, v, t, n, code, took, reply).workers;
            (w in after <==> w in s.workers) && (w in after ==> after[w] == s.workers[w])
  {
  }

  lemma CreateLeavesOthers(sha256: Hash, s: World, v: Worker, t: Task, n: nat, groups: nat, took: bool, reply: Reply,
      w: Worker)
    requires v != w
    ensures var after := CreatePartner(sha256, s, v, t, n, groups, took, reply).workers;
            (w in after <==> w in s.workers) && (w in after ==> after[w] == s.workers[w])
  {
  }

  lemma EndsLeaveOthers(sha256: Hash, s: World, call: Call, w: Worker)
    requires (call.Commit? || call.Settle?) && w in Step(sha256, s, call).workers && call.worker != w
    ensures w in s.workers && Step(sha256, s, call).workers[w] == s.workers[w]
  {
    if InPhase(s, call.worker) {
      if call.Commit? && s.workers[call.worker].Applied? {
        CommitEffect(sha256, s, call);
        var p := s.workers[call.worker];
        CommitLeavesOthers(s, call.worker, p.task, p.native, p.code, call.minted, w);
      } else if call.Settle? && s.workers[call.worker].Ending? {
        SettleIsStep(sha256, s, call.worker);
      }
    }
  }

  lemma CommitLeavesOthers(s: World, v: Worker, t: Task, n: nat, code: Code, minted: string, w: Worker)
    requires InPhase(s, v) && v != w && w in CommitProjection(s, v, t, n, code, minted).workers
    ensures w in s.workers && CommitProjection(s, v, t, n, code, minted).workers[w] == s.workers[w]
  {
  }

  lemma NextState(sha256: Hash, start: World, calls: seq<Call>, n: nat)
    requires n < |calls|
    ensures Run(sha256, start, calls[..n + 1]) == Step(sha256, Run(sha256, start, calls[..n]), calls[n])
  {
    assert calls[..n + 1] == calls[..n] + [calls[n]];
    RunAppends(sha256, start, calls[..n], [calls[n]]);
    RunOne(sha256, Run(sha256, start, calls[..n]), calls[n]);
  }

  lemma MetLater(sha256: Hash, start: World, calls: seq<Call>, n: nat, w: Worker, id: RowId, code: Code)
    requires n < |calls| && MetBy(sha256, start, calls, n, w, id, code)
    ensures MetBy(sha256, start, calls, n + 1, w, id, code)
  {
    var i :| 0 <= i < n && MetAt(sha256, start, calls, i, w, id, code);
  }

  lemma WorkerStaysMet(sha256: Hash, start: World, calls: seq<Call>, n: nat, w: Worker)
    requires n < |calls| && Steady(Run(sha256, start, calls[..n])) && AllMet(sha256, start, calls, n)
    ensures WorkerMet(sha256, start, calls, n + 1, w)
  {
    NextState(sha256, start, calls, n);
    var s, call := Run(sha256, start, calls[..n]), calls[n];
    var s' := Step(sha256, s, call);
    assert WorkerMet(sha256, start, calls, n, w);
    if w in s'.workers && InHand(s'.workers[w]).Some? {
      var code := InHand(s'.workers[w]).value;
      if ByWorker(call) && call.worker == w && InPhase(s, w) {
        CallAnswers(sha256, s, call, code);
        HeldStays(s, call, w, sha256);
        if Meets(sha256, s, call, code) {
          assert MetAt(sha256, start, calls, n, w, s.queue.held[w].claim.row, code);
        }
      } else {
        PhaseKept(sha256, s, call, w);
        HeldStays(s, call, w, sha256);
      }
    }
  }

  lemma RowStaysMet(sha256: Hash, start: World, calls: seq<Call>, n: nat, id: RowId)
    requires n < |calls| && Steady(Run(sha256, start, calls[..n])) && AllMet(sha256, start, calls, n)
    ensures RowMet(sha256, start, calls, n + 1, id)
  {
    NextState(sha256, start, calls, n);
    var s, call := Run(sha256, start, calls[..n]), calls[n];
    assert RowMet(sha256, start, calls, n, id);
    if id in Step(sha256, s, call).queue.rows {
      if Records(s, call, id) {
        RecordedCode(s, call, id, sha256);
        assert WorkerMet(sha256, start, calls, n, call.worker);
        MetLater(sha256, start, calls, n, call.worker, id, InHand(s.workers[call.worker]).value);
      } else {
        OutcomesStay(s, call, id, sha256);
        if id in s.queue.rows && s.queue.rows[id].outcomeCode.Some? && !Budget(s.queue.rows[id].outcomeCode.value) {
          var w :| MetBy(sha256, start, calls, n, w, id, s.queue.rows[id].outcomeCode.value);
          MetLater(sha256, start, calls, n, w, id, s.queue.rows[id].outcomeCode.value);
        }
      }
    }
  }

  lemma {:induction false} RunIsMet(sha256: Hash, start: World, calls: seq<Call>, n: nat)
    requires Initial(start) && n <= |calls|
    ensures AllMet(sha256, start, calls, n)
  {
    if n > 0 {
      RunIsMet(sha256, start, calls, n - 1);
      InitiallyMarked(start, sha256);
      RunSteady(start, calls[..n - 1], sha256);
      forall w ensures WorkerMet(sha256, start, calls, n, w) { WorkerStaysMet(sha256, start, calls, n - 1, w); }
      forall id ensures RowMet(sha256, start, calls, n, id) { RowStaysMet(sha256, start, calls, n - 1, id); }
    }
  }

  /** Over every run no row carries a code, a spent budget aside, unless a call of an attempt at it met what the code
      says. */
  lemma EveryCodeWasMet(sha256: Hash, start: World, calls: seq<Call>, id: RowId)
    requires Initial(start)
    requires var rows := Run(sha256, start, calls).queue.rows;
             id in rows && rows[id].outcomeCode.Some? && !Budget(rows[id].outcomeCode.value)
    ensures exists i, w ::
              0 <= i < |calls|
              && MetAt(sha256, start, calls, i, w, id, Run(sha256, start, calls).queue.rows[id].outcomeCode.value)
  {
    RunIsMet(sha256, start, calls, |calls|);
    assert calls[..|calls|] == calls;
    assert RowMet(sha256, start, calls, |calls|, id);
    var code := Run(sha256, start, calls).queue.rows[id].outcomeCode.value;
    var w :| MetBy(sha256, start, calls, |calls|, w, id, code);
    var i :| 0 <= i < |calls| && MetAt(sha256, start, calls, i, w, id, code);
  }
}
