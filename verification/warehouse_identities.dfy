/**
 The public identity of a warehouse (modules/provisioning/warehouse_identity_store.py, migration 0024): found by its
 approved code within the legal entity or its native record within the engine instance, never reassigned, and announced
 once per change. Registrations run one after another.
 */
module WarehouseIdentities {
  import opened Prelude
  import opened DocumentRevisions

  type PublicId = string

  datatype Owner = Owner(tenant: string, legalEntity: string)

  datatype NativeKey = NativeKey(instance: string, id: nat)

  datatype Facts = Facts(name: string, country: string, timezone: Option<string>, status: string)

  /** Rows carried over by the migration may have no code, no facts and no engine instance. */
  datatype Warehouse = Warehouse(owner: Owner, code: Option<string>, native: Option<NativeKey>, facts: Option<Facts>)

  type Rows = map<PublicId, Warehouse>

  datatype Registration = Registration(owner: Owner, code: string, native: NativeKey, facts: Facts, at: Time)

  datatype Detail = Detail(code: string, name: string, country: string, timezone: Option<string>)

  datatype Conflict = BoundElsewhere | TwoIdentities

  /** The identity a lookup returns; the unique indexes leave at most one. */
  ghost predicate HasCode(rows: Rows, id: PublicId, owner: Owner, code: string) {
    id in rows && rows[id].owner == owner && rows[id].code == Some(code)
  }

  ghost predicate HasNative(rows: Rows, id: PublicId, native: NativeKey) {
    id in rows && rows[id].native == Some(native)
  }

  ghost function ByCode(rows: Rows, owner: Owner, code: string): Option<PublicId> {
    if id :| HasCode(rows, id, owner, code) then Some(id) else None
  }

  ghost function ByNative(rows: Rows, native: NativeKey): Option<PublicId> {
    if id :| HasNative(rows, id, native) then Some(id) else None
  }

  /** The two unique indexes. */
  ghost predicate Unique(rows: Rows) {
    && (forall a, b, owner, code :: HasCode(rows, a, owner, code) && HasCode(rows, b, owner, code) ==> a == b)
    && (forall a, b, native :: HasNative(rows, a, native) && HasNative(rows, b, native) ==> a == b)
  }

  function KeyOf(owner: Owner, id: PublicId): DocumentKey {
    DocumentKey(owner.tenant, "warehouse", id)
  }

  function DetailOf(r: Registration): Detail {
    Detail(r.code, r.facts.name, r.facts.country, r.facts.timezone)
  }

  predicate HasTimezone(d: Detail) {
    d.timezone.Some?
  }

  function ObservationOf(r: Registration, id: PublicId): Observation<Detail> {
    Observation(KeyOf(r.owner, id), r.facts.status, DetailOf(r), r.at)
  }

  function RowOf(r: Registration): Warehouse {
    Warehouse(r.owner, Some(r.code), Some(r.native), Some(r.facts))
  }

  datatype World = World(rows: Rows, published: Published<Detail>)

  /** Which identity a registration is for, or why it is refused. */
  ghost function Resolve(rows: Rows, r: Registration, minted: PublicId): Result<PublicId, Conflict> {
    var byCode, byNative := ByCode(rows, r.owner, r.code), ByNative(rows, r.native);
    if byNative.Some? && byNative.value in rows && rows[byNative.value].owner != r.owner then Err(BoundElsewhere)
    else if byCode.Some? && byNative.Some? && byCode != byNative then Err(TwoIdentities)
    else if byCode.Some? then Ok(byCode.value)
    else if byNative.Some? then Ok(byNative.value)
    else Ok(minted)
  }

  /** One transaction: the row, the revision and its announcement, or nothing. A minted id is new. */
  ghost function Registered(w: World, r: Registration, minted: PublicId): World {
    var id := Resolve(w.rows, r, minted);
    if id.Err? then w
    else World(w.rows[id.value := RowOf(r)], Publish(w.published, ObservationOf(r, id.value), HasTimezone))
  }

  class WarehouseStore {
    var rows: Rows
    const documents: DocumentOutcomes<Detail>
    var outbox: seq<Announcement>

    constructor ()
      ensures rows == map[] && documents.rows == map[] && outbox == [] && fresh(documents)
    {
      rows, outbox := map[], [];
      documents := new DocumentOutcomes();
    }

    method FindByCode(owner: Owner, code: string) returns (id: Option<PublicId>)
      requires Unique(rows)
      ensures id == ByCode(rows, owner, code)
    {
      id := None;
      var left := rows.Keys;
      while left != {}
        invariant left <= rows.Keys
        invariant id.Some? ==> HasCode(rows, id.value, owner, code)
        invariant id.None? ==> forall i :: i in rows && i !in left ==> !HasCode(rows, i, owner, code)
        decreases left
      {
        var i :| i in left;
        left := left - {i};
        if rows[i].owner == owner && rows[i].code == Some(code) {
          id := Some(i);
        }
      }
    }

    method FindByNative(native: NativeKey) returns (id: Option<PublicId>)
      requires Unique(rows)
      ensures id == ByNative(rows, native)
    {
      id := None;
      var left := rows.Keys;
      while left != {}
        invariant left <= rows.Keys
        invariant id.Some? ==> HasNative(rows, id.value, native)
        invariant id.None? ==> forall i :: i in rows && i !in left ==> !HasNative(rows, i, native)
        decreases left
      {
        var i :| i in left;
        left := left - {i};
        if rows[i].native == Some(native) {
          id := Some(i);
        }
      }
    }

    /** `_record`, in its transaction. */
    method Record(r: Registration, minted: PublicId) returns (result: Result<PublicId, Conflict>)
      requires Unique(rows) && minted !in rows
      modifies this, documents
      ensures result == Resolve(old(rows), r, minted)
      ensures result.Err? ==> rows == old(rows) && documents.rows == old(documents.rows) && outbox == old(outbox)
      ensures result.Ok? ==>
                var (after, step) :=
                    Observe(old(documents.rows), KeyOf(r.owner, result.value), r.facts.status, DetailOf(r), r.at);
                && rows == old(rows)[result.value := RowOf(r)] && Unique(rows)
                && documents.rows == after
                && outbox == (if step.changed && r.facts.timezone.Some?
                              then old(outbox) + [Announcement(KeyOf(r.owner, result.value), step.revision)]
                                  else old(outbox))
    {
      var byCode := FindByCode(r.owner, r.code);
      var byNative := FindByNative(r.native);
      if byNative.Some? && rows[byNative.value].owner != r.owner {
        return Err(BoundElsewhere);
      }
      if byCode.Some? && byNative.Some? && byCode.value != byNative.value {
        return Err(TwoIdentities);
      }
      var id := if byCode.Some? then byCode.value else if byNative.Some? then byNative.value else minted;
      RegisteredUnique(rows, r, id, minted);
      rows := rows[id := RowOf(r)];
      var step := documents.Advance(KeyOf(r.owner, id), r.facts.status, DetailOf(r), r.at);
      if step.changed && r.facts.timezone.Some? {
        outbox := outbox + [Announcement(KeyOf(r.owner, id), step.revision)];
      }
      result := Ok(id);
    }
  }

  // ---------------------------------------------------------------------------------------------------------------
  // One registration
  // ---------------------------------------------------------------------------------------------------------------

  lemma LookupsAreUnique(rows: Rows, id: PublicId, owner: Owner, code: string, native: NativeKey)
    requires Unique(rows)
    ensures HasCode(rows, id, owner, code) <==> ByCode(rows, owner, code) == Some(id)
    ensures HasNative(rows, id, native) <==> ByNative(rows, native) == Some(id)
  {
  }

  /** A registration that goes through leaves one identity per code and per native record. */
  lemma RegisteredUnique(rows: Rows, r: Registration, id: PublicId, minted: PublicId)
    requires Unique(rows) && minted !in rows && Resolve(rows, r, minted) == Ok(id)
    ensures Unique(rows[id := RowOf(r)])
  {
    var after := rows[id := RowOf(r)];
    forall a, owner, code | HasCode(after, a, owner, code) ensures a == id || HasCode(rows, a, owner, code) {}
    forall a, native | HasNative(after, a, native) ensures a == id || HasNative(rows, a, native) {}
    forall a | a != id ensures !HasCode(rows, a, r.owner, r.code) && !HasNative(rows, a, r.native) {
      LookupsAreUnique(rows, a, r.owner, r.code, r.native);
    }
  }

  /** What a registration may bind: it goes through exactly when no other entity's warehouse has the native record and
      the two keys do not name two identities; then both keys name the identity it returns. */
  lemma RegistrationBinds(w: World, r: Registration, minted: PublicId)
    requires Unique(w.rows)
    ensures var result := Resolve(w.rows, r, minted);
            var w' := Registered(w, r, minted);
            && (result.Err? <==>
                  (exists id :: HasNative(w.rows, id, r.native) && w.rows[id].owner != r.owner)
                  || (exists a, b :: HasCode(w.rows, a, r.owner, r.code) && HasNative(w.rows, b, r.native) && a != b))
            && (result.Err? ==> w' == w)
            && (result.Ok? ==>
                  && result.value in w'.rows
                  && w'.rows[result.value] == Warehouse(r.owner, Some(r.code), Some(r.native), Some(r.facts))
                  && (forall id :: HasCode(w.rows, id, r.owner, r.code) || HasNative(w.rows, id, r.native) ==>
                      id == result.value)
                  && (forall id :: id in w.rows && id != result.value ==> w'.rows[id] == w.rows[id]))
  {
    var byCode, byNative := ByCode(w.rows, r.owner, r.code), ByNative(w.rows, r.native);
    if a, b :| HasCode(w.rows, a, r.owner, r.code) && HasNative(w.rows, b, r.native) && a != b {
      LookupsAreUnique(w.rows, a, r.owner, r.code, r.native);
      LookupsAreUnique(w.rows, b, r.owner, r.code, r.native);
    }
    forall id | HasCode(w.rows, id, r.owner, r.code) || HasNative(w.rows, id, r.native)
      ensures Some(id) == byCode || Some(id) == byNative
    {
      LookupsAreUnique(w.rows, id, r.owner, r.code, r.native);
    }
  }

  /** What is recorded of a registered warehouse: its code, name, country and timezone under its status, with the next
      revision, and announced once if it has a timezone; nothing if that is what the document says already. */
  lemma RegistrationIsRecorded(w: World, r: Registration, minted: PublicId)
    requires Resolve(w.rows, r, minted).Ok?
    ensures var key := DocumentKey(r.owner.tenant, "warehouse", Resolve(w.rows, r, minted).value);
            var detail := Detail(r.code, r.facts.name, r.facts.country, r.facts.timezone);
            var before, after := w.published, Registered(w, r, minted).published;
            && key in after.rows
            && (forall k :: k in before.rows && k != key ==> k in after.rows && after.rows[k] == before.rows[k])
            && if key in before.rows && (Reopens(before.rows[key].status, r.facts.status)
                                         || (before.rows[key].status, before.rows[key].detail)
                                            == (r.facts.status, detail))
               then after == before
               else
                 && after.rows[key].status == r.facts.status && after.rows[key].detail == detail
                 && after.rows[key].revision == (if key in before.rows then before.rows[key].revision + 1 else 1)
                 && after.outbox == before.outbox + if r.facts.timezone.Some?
                                                 then [Announcement(key, after.rows[key].revision)] else []
  {
    var key := DocumentKey(r.owner.tenant, "warehouse", Resolve(w.rows, r, minted).value);
    if key in w.published.rows { ReopensByRank(w.published.rows[key].status, r.facts.status); }
  }

  /** A public id outlives a change of code and a move to another engine: registering the same native record under a new
      code, or the same code on a new engine, is the same identity, unless somebody else has the new key already. */
  lemma IdentitySurvives(w: World, r: Registration, minted: PublicId, id: PublicId)
    requires Unique(w.rows) && id in w.rows && w.rows[id].owner == r.owner
    requires HasCode(w.rows, id, r.owner, r.code) || HasNative(w.rows, id, r.native)
    requires forall other :: HasCode(w.rows, other, r.owner, r.code) || HasNative(w.rows, other, r.native) ==>
        other == id
    ensures Resolve(w.rows, r, minted) == Ok(id)
  {
    LookupsAreUnique(w.rows, id, r.owner, r.code, r.native);
    var byCode, byNative := ByCode(w.rows, r.owner, r.code), ByNative(w.rows, r.native);
    if byCode.Some? { LookupsAreUnique(w.rows, byCode.value, r.owner, r.code, r.native); }
    if byNative.Some? { LookupsAreUnique(w.rows, byNative.value, r.owner, r.code, r.native); }
  }

  // ---------------------------------------------------------------------------------------------------------------
  // Any history of registrations
  // ---------------------------------------------------------------------------------------------------------------

  datatype Attempt = Attempt(registration: Registration, minted: PublicId)

  /** The column default never mints an id that exists. */
  ghost function Step(w: World, a: Attempt): World {
    if a.minted in w.rows then w else Registered(w, a.registration, a.minted)
  }

  ghost function Run(w: World, attempts: seq<Attempt>): World
    decreases |attempts|
  {
    if attempts == [] then w else Run(Step(w, attempts[0]), attempts[1..])
  }

  /** The identity is still its owner's. */
  predicate Kept(before: Rows, after: Rows, id: PublicId) {
    id in before ==> id in after && after[id].owner == before[id].owner
  }

  lemma StepKeeps(w: World, a: Attempt, id: PublicId)
    requires Unique(w.rows)
    ensures Unique(Step(w, a).rows) && Kept(w.rows, Step(w, a).rows, id)
  {
    if a.minted !in w.rows {
      var resolved := Resolve(w.rows, a.registration, a.minted);
      if resolved.Ok? {
        RegisteredUnique(w.rows, a.registration, resolved.value, a.minted);
        RegistrationBinds(w, a.registration, a.minted);
        ResolvedOwner(w.rows, a.registration, a.minted);
      }
    }
  }

  lemma ResolvedOwner(rows: Rows, r: Registration, minted: PublicId)
    requires Unique(rows) && Resolve(rows, r, minted).Ok?
    ensures var id := Resolve(rows, r, minted).value; id == minted || (id in rows && rows[id].owner == r.owner)
  {
    var byCode, byNative := ByCode(rows, r.owner, r.code), ByNative(rows, r.native);
    if byCode.Some? { LookupsAreUnique(rows, byCode.value, r.owner, r.code, r.native); }
    if byNative.Some? { LookupsAreUnique(rows, byNative.value, r.owner, r.code, r.native); }
  }

  /** Over every history: one identity per code within an entity and per native record within an engine, and no public
      id ever disappears or passes to another owner. */
  lemma {:induction false} IdentityTheorem(w: World, attempts: seq<Attempt>, id: PublicId)
    requires Unique(w.rows)
    ensures Unique(Run(w, attempts).rows) && Kept(w.rows, Run(w, attempts).rows, id)
    decreases |attempts|
  {
    if attempts != [] {
      StepKeeps(w, attempts[0], id);
      IdentityTheorem(Step(w, attempts[0]), attempts[1..], id);
    }
  }

  /** Over every history: the announced revisions of a warehouse are exactly those recorded with a timezone, once each,
      in order. */
  lemma {:induction false} AnnouncementTheorem(w: World, attempts: seq<Attempt>, key: DocumentKey)
    requires InStep(w.published, key, HasTimezone)
    ensures InStep(Run(w, attempts).published, key, HasTimezone)
    decreases |attempts|
  {
    if attempts != [] {
      var a := attempts[0];
      if a.minted !in w.rows && Resolve(w.rows, a.registration, a.minted).Ok? {
        PublishKeepsInStep(w.published, ObservationOf(a.registration, Resolve(w.rows, a.registration, a.minted).value),
            key, HasTimezone);
      }
      AnnouncementTheorem(Step(w, a), attempts[1..], key);
    }
  }

  /** The native record is never taken from another entity: whoever has it keeps it until its own entity moves on. */
  lemma NativeNeverStolen(w: World, a: Attempt, id: PublicId)
    requires Unique(w.rows) && id in w.rows && w.rows[id].owner != a.registration.owner
    ensures id in Step(w, a).rows && Step(w, a).rows[id] == w.rows[id]
  {
    if a.minted !in w.rows && Resolve(w.rows, a.registration, a.minted).Ok? {
      ResolvedOwner(w.rows, a.registration, a.minted);
    }
  }
}
