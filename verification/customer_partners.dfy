/** What every run keeps of the engine's partners: a customer's marker is on one of them at most, whoever shares a
    customer. */
module CustomerPartners {
  import opened Text
  import opened ExecutionPolicy
  import opened Inbox
  import opened InboxSupport
  import opened Customers
  import opened CustomerAttempts

  predicate RowWellFormed(row: Row<Payload>) {
    row.payload.Projected? && row.tenant.Some? ==> WellFormed(row.tenant.value, row.payload.customer)
  }

  predicate CallWellFormed(call: Call) {
    call.Receive? && call.payload.Projected? && call.tenant.Some? ==>
        WellFormed(call.tenant.value, call.payload.customer)
  }

  predicate CallsWellFormed(calls: seq<Call>) {
    forall i :: 0 <= i < |calls| ==> CallWellFormed(calls[i])
  }

  /** A marked partner is the only one, and stands in its customer's placement. */
  ghost predicate MarkedAtHome(s: World, n: nat, sha256: Hash, tenant: string, legalEntity: string, customerId: string)
    requires n in s.partners
  {
    ColonFree(tenant) && ColonFree(legalEntity)
        && s.partners[n].description == Marker(sha256, tenant, legalEntity, customerId) ==>
      && (tenant, legalEntity) in s.placements
      && s.partners[n].client == s.placements[(tenant, legalEntity)].client
  }

  predicate SameMarker(p: Partner, q: Partner) {
    MARKER_PREFIX <= p.description && p.description == q.description
  }

  ghost predicate PartnersFit(s: World, sha256: Hash) {
    && s.partners.Keys <= s.issued
    && (forall m, n :: m in s.partners && n in s.partners && SameMarker(s.partners[m], s.partners[n]) ==> m == n)
    && (forall n, t, e, c :: n in s.partners ==> MarkedAtHome(s, n, sha256, t, e, c))
  }

  /** A worker about to create has no partner to find. */
  ghost predicate MissingFits(s: World, w: Worker, sha256: Hash)
    requires w in s.workers
  {
    s.workers[w].Missing? ==>
      var t := s.workers[w].task; MarkedPartners(s.partners, t.client, MarkerOf(sha256, t)) == {}
  }

  ghost predicate Marked(s: World, sha256: Hash) {
    && (forall id {:trigger RowWellFormed(s.queue.rows[id])} :: id in s.queue.rows ==> RowWellFormed(s.queue.rows[id]))
    && (forall w {:trigger MissingFits(s, w, sha256)} :: w in s.workers ==> MissingFits(s, w, sha256))
    && PartnersFit(s, sha256)
  }

  /** Before the first event: an engine full of other people's partners, and bootstrapped mappings to some of them. */
  ghost predicate Initial(s: World) {
    && s.queue == NewQueue<Payload>() && s.locks == map[] && s.workers == map[]
    && s.documents == map[] && s.outbox == [] && s.ledger == []
    && s.partners.Keys <= s.issued
    && (forall n :: n in s.partners ==> !(MARKER_PREFIX <= s.partners[n].description))
    && (forall key :: key in s.mappings ==> s.mappings[key].native in s.issued)
    && (forall k1, k2 :: k1 in s.mappings && k2 in s.mappings && s.mappings[k1].native == s.mappings[k2].native ==>
        k1 == k2)
    && (forall k1, k2 :: k1 in s.mappings && k2 in s.mappings && s.mappings[k1].publicId == s.mappings[k2].publicId ==>
        k1 == k2)
  }

  lemma InitiallyMarked(s: World, sha256: Hash)
    requires Initial(s)
    ensures Steady(s) && Marked(s, sha256)
  {
    forall n, t, e, c | n in s.partners ensures MarkedAtHome(s, n, sha256, t, e, c) {
      MarkersShareAPrefix(sha256, t, e, c);
    }
  }

  // ---------------------------------------------------------------------------------------------------------------
  // The engine
  // ---------------------------------------------------------------------------------------------------------------

  lemma PartnersKeep(s: World, s': World, sha256: Hash)
    requires PartnersFit(s, sha256) && SameEngine(s, s')
    requires forall place :: place in s.placements ==>
        place in s'.placements && s'.placements[place] == s.placements[place]
    ensures PartnersFit(s', sha256)
  {
    forall n, t, e, c | n in s'.partners
      ensures MarkedAtHome(s', n, sha256, t, e, c)
    {
      assert MarkedAtHome(s, n, sha256, t, e, c);
    }
    forall i, j | i in s'.partners && j in s'.partners && SameMarker(s'.partners[i], s'.partners[j]) ensures i == j {
      assert SameMarker(s.partners[i], s.partners[j]);
    }
  }

  lemma WrittenPartnersFit(s: World, n: nat, fields: Fields, sha256: Hash)
    requires PartnersFit(s, sha256)
    ensures PartnersFit(Written(s, n, fields), sha256)
  {
    var s' := Written(s, n, fields);
    forall m, t, e, c | m in s'.partners
      ensures MarkedAtHome(s', m, sha256, t, e, c)
    {
      assert MarkedAtHome(s, m, sha256, t, e, c);
    }
    forall i, j | i in s'.partners && j in s'.partners && SameMarker(s'.partners[i], s'.partners[j]) ensures i == j {
      assert SameMarker(s.partners[i], s.partners[j]);
    }
  }

  lemma UnrelatedPartnersFit(s: World, n: nat, partner: Partner, sha256: Hash)
    requires PartnersFit(s, sha256) && n !in s.issued && !(MARKER_PREFIX <= partner.description)
    ensures PartnersFit(s.(partners := s.partners[n := partner], issued := s.issued + {n}), sha256)
  {
    var s' := s.(partners := s.partners[n := partner], issued := s.issued + {n});
    forall m, t, e, c | m in s'.partners ensures MarkedAtHome(s', m, sha256, t, e, c) {
      MarkersShareAPrefix(sha256, t, e, c);
      if m != n { assert MarkedAtHome(s, m, sha256, t, e, c); }
    }
    forall i, j | i in s'.partners && j in s'.partners && SameMarker(s'.partners[i], s'.partners[j]) ensures i == j {
      assert SameMarker(s.partners[i], s.partners[j]);
    }
  }

  lemma TaskWellFormed(s: World, w: Worker, sha256: Hash)
    requires Steady(s) && Marked(s, sha256) && w in s.workers && HasLock(s.workers[w])
    ensures WellFormed(s.workers[w].task.tenant, s.workers[w].task.customer)
  {
    assert TaskFits(s, w) && RowWellFormed(s.queue.rows[s.queue.held[w].claim.row]);
  }

  /** A record created after a search that found none is the only one with its marker. */
  lemma CreatedPartnersFit(s: World, w: Worker, n: nat, sha256: Hash)
    requires Steady(s) && Marked(s, sha256) && Injective(sha256)
    requires w in s.workers && s.workers[w].Missing? && n !in s.issued
    ensures PartnersFit(Created(sha256, s, s.workers[w].task, n), sha256)
  {
    var t := s.workers[w].task;
    var s' := Created(sha256, s, t, n);
    assert TaskFits(s, w) && MissingFits(s, w, sha256);
    TaskWellFormed(s, w, sha256);
    MarkersShareAPrefix(sha256, t.tenant, t.customer.legalEntity, t.customer.customerId);
    forall m, te, e, c | m in s'.partners ensures MarkedAtHome(s', m, sha256, te, e, c) {
      if m != n {
        assert MarkedAtHome(s, m, sha256, te, e, c);
      } else if ColonFree(te) && ColonFree(e) && s'.partners[n].description == Marker(sha256, te, e, c) {
        MarkerInjective(sha256, te, e, c, t.tenant, t.customer.legalEntity, t.customer.customerId);
      }
    }
    forall m | m in s.partners ensures s.partners[m].description != MarkerOf(sha256, t) {
      assert MarkedAtHome(s, m, sha256, t.tenant, t.customer.legalEntity, t.customer.customerId);
      assert m !in MarkedPartners(s.partners, t.client, MarkerOf(sha256, t));
    }
    forall i, j | i in s'.partners && j in s'.partners && SameMarker(s'.partners[i], s'.partners[j]) ensures i == j {
      if i != n && j != n { assert SameMarker(s.partners[i], s.partners[j]); }
    }
  }

  lemma StepKeepsPartners(s: World, call: Call, sha256: Hash)
    requires Steady(s) && Marked(s, sha256) && Injective(sha256)
    ensures PartnersFit(Step(sha256, s, call), sha256)
  {
    var s' := Step(sha256, s, call);
    forall place | place in s.placements ensures place in s'.placements && s'.placements[place] == s.placements[place] {
      PlacementsStay(sha256, s, call, place);
    }
    PartnersChangeByWriting(sha256, s, call);
    if SameEngine(s, s') {
      PartnersKeep(s, s', sha256);
    } else if call.Update? {
      var p := s.workers[call.worker];
      WrittenPartnersFit(s, p.native, FieldsOf(p.task.customer), sha256);
      PartnersKeep(Written(s, p.native, FieldsOf(p.task.customer)), s', sha256);
    } else if call.Create? {
      CreatedPartnersFit(s, call.worker, call.native, sha256);
      PartnersKeep(Created(sha256, s, s.workers[call.worker].task, call.native), s', sha256);
    } else {
      UnrelatedPartnersFit(s, call.native, call.partner, sha256);
      PartnersKeep(s.(partners := s.partners[call.native := call.partner], issued := s.issued + {call.native}), s',
          sha256);
    }
  }

  // ---------------------------------------------------------------------------------------------------------------
  // The workers
  // ---------------------------------------------------------------------------------------------------------------

  predicate NewlyMissing(s: World, s': World, w: Worker) {
    w in s'.workers && s'.workers[w].Missing? && !(w in s.workers && s.workers[w] == s'.workers[w])
  }

  lemma EndsUnmissed(s: World, v: Worker, t: Task, n: nat, code: Code, minted: string, w: Worker)
    requires InPhase(s, v)
    ensures !NewlyMissing(s, CommitProjection(s, v, t, n, code, minted), w)
  {
  }

  lemma UpdateUnmissed(s: World, v: Worker, t: Task, n: nat, code: Code, took: bool, reply: Reply, w: Worker)
    ensures !NewlyMissing(s, UpdatePartner(s, v, t, n, code, took, reply), w)
  {
  }

  lemma CreateUnmissed(s: World, v: Worker, t: Task, n: nat, groups: nat, took: bool, reply: Reply, w: Worker,
      sha256: Hash)
    ensures !NewlyMissing(s, CreatePartner(sha256, s, v, t, n, groups, took, reply), w)
  {
  }

  lemma BeginUnmissed(s: World, v: Worker, contended: bool, w: Worker)
    requires InPhase(s, v)
    ensures !NewlyMissing(s, BeginAttempt(s, v, contended), w)
  {
  }

  lemma CompareUnmissed(s: World, v: Worker, t: Task, w: Worker)
    ensures !NewlyMissing(s, CompareVersions(s, v, t), w)
  {
  }

  lemma OthersUnmissed(s: World, call: Call, w: Worker, sha256: Hash)
    requires !ByWorker(call)
    ensures !NewlyMissing(s, Step(sha256, s, call), w)
  {
  }

  /** Only a search that found nothing sends a worker to create. */
  lemma MissingBySearch(s: World, call: Call, w: Worker, sha256: Hash)
    requires ByWorker(call) && InPhase(s, call.worker) && NewlyMissing(s, WorkerStep(sha256, s, call), w)
    ensures call.Probe? && MissingFits(WorkerStep(sha256, s, call), w, sha256)
  {
    var p := s.workers[call.worker];
    match call
    case Begin(v, contended) => BeginUnmissed(s, v, contended, w);
    case Compare(v) => if p.Holding? { CompareUnmissed(s, v, p.task, w); }
    case Probe(_, _, _) =>
    case Update(v, took, reply) => if p.Found? { UpdateUnmissed(s, v, p.task, p.native, p.code, took, reply, w); }
    case Create(v, n, groups, took, reply) =>
      if p.Missing? { CreateUnmissed(s, v, p.task, n, groups, took, reply, w, sha256); }
    case Commit(v, minted) => if p.Applied? { EndsUnmissed(s, v, p.task, p.native, p.code, minted, w); }
    case Settle(_) =>
    case Stumble(_) =>
  }

  /** Nobody else creates a partner with the marker a worker has looked for: the lock is in the way. */
  lemma MissingStays(s: World, call: Call, v: Worker, sha256: Hash)
    requires Steady(s) && Marked(s, sha256) && Injective(sha256)
    requires var s' := Step(sha256, s, call); v in s.workers && v in s'.workers && s'.workers[v] == s.workers[v]
    ensures MissingFits(Step(sha256, s, call), v, sha256)
  {
    assert MissingFits(s, v, sha256);
    PartnersChangeByWriting(sha256, s, call);
    if s.workers[v].Missing? {
      var s' := Step(sha256, s, call);
      var t := s.workers[v].task;
      var marker := MarkerOf(sha256, t);
      MarkersShareAPrefix(sha256, t.tenant, t.customer.legalEntity, t.customer.customerId);
      forall n | n in s'.partners ensures !Carries(s'.partners[n], t.client, marker) {
        assert n in s.partners ==> n !in MarkedPartners(s.partners, t.client, marker);
        if n !in s.partners && !call.Unrelated? { OthersMarker(s, call, v, sha256); }
      }
    }
  }

  lemma OthersMarker(s: World, call: Call, v: Worker, sha256: Hash)
    requires Steady(s) && Marked(s, sha256) && Injective(sha256) && v in s.workers && s.workers[v].Missing?
    requires call.Create? && InPhase(s, call.worker) && s.workers[call.worker].Missing? && call.worker != v
    ensures MarkerOf(sha256, s.workers[v].task) != MarkerOf(sha256, s.workers[call.worker].task)
  {
    var t, u := s.workers[v].task, s.workers[call.worker].task;
    TaskWellFormed(s, v, sha256);
    TaskWellFormed(s, call.worker, sha256);
    if MarkerOf(sha256, t) == MarkerOf(sha256, u) {
      MarkerInjective(sha256, t.tenant, t.customer.legalEntity, t.customer.customerId,
                      u.tenant, u.customer.legalEntity, u.customer.customerId);
      LockIsExclusive(s, v, call.worker);
    }
  }

  // ---------------------------------------------------------------------------------------------------------------
  // Every call
  // ---------------------------------------------------------------------------------------------------------------

  lemma StepMarked(s: World, call: Call, sha256: Hash)
    requires Steady(s) && Marked(s, sha256) && Injective(sha256) && CallWellFormed(call)
    ensures Marked(Step(sha256, s, call), sha256)
  {
    var s' := Step(sha256, s, call);
    StepKeepsPartners(s, call, sha256);
    forall id | id in s'.queue.rows ensures RowWellFormed(s'.queue.rows[id]) {
      EventsStay(sha256, s, call, id);
      if id in s.queue.rows { assert RowWellFormed(s.queue.rows[id]); }
    }
    forall w | w in s'.workers ensures MissingFits(s', w, sha256) {
      if w in s.workers && s'.workers[w] == s.workers[w] {
        MissingStays(s, call, w, sha256);
      } else if NewlyMissing(s, s', w) {
        if ByWorker(call) { MissingBySearch(s, call, w, sha256); } else { OthersUnmissed(s, call, w, sha256); }
      }
    }
  }

  /** Every interleaving keeps claims, locks and partners in step, whoever shares a customer with whom. */
  lemma {:induction false} RunMarked(s: World, calls: seq<Call>, sha256: Hash)
    requires Steady(s) && Marked(s, sha256) && Injective(sha256) && CallsWellFormed(calls)
    ensures Steady(Run(sha256, s, calls)) && Marked(Run(sha256, s, calls), sha256)
    decreases |calls|
  {
    if calls != [] {
      assert CallWellFormed(calls[0]);
      StepSteady(s, calls[0], sha256);
      StepMarked(s, calls[0], sha256);
      forall i | 0 <= i < |calls[1..]| ensures CallWellFormed(calls[1..][i]) { assert CallWellFormed(calls[i + 1]); }
      RunMarked(Step(sha256, s, calls[0]), calls[1..], sha256);
    }
  }
}
