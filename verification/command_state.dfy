/**
 The state of a provisioning command as its legal entities' statuses project it (modules/provisioning/command_state.py,
 command_store.py, store.py).

 Each entity is provisioned by its own worker and writes its status in its own transaction, which then takes the
 command's row lock, reads every entity's committed status, advances the command and announces the revision before it
 commits. `Database` has the committed rows and the transactions still open, so any interleaving of several entities'
 transactions is one of its runs.
 */
module CommandState {
  import opened Prelude

  type Entity = string

  datatype Status =
    | Requested | Planned | Validating | Applying | Reconciling | Ready | Active | Suspended | Failed
    | Unknown(name: string)

  datatype State = ACCEPTED | VALIDATING | PROVISIONING | RECONCILING | ACTIVE | FAILED | CANCELLED

  datatype DeriveError = NoEntities | UnknownStatus

  const DONE: set<Status> := {Ready, Active}
  const SETTLING: set<Status> := {Reconciling, Suspended}
  const NOT_STARTED: set<Status> := {Requested, Planned}

  /** A failed command carries the fixed code, no other state carries one. */
  function Derive(seen: set<Status>): Result<State, DeriveError> {
    if seen == {} then Err(NoEntities)
    else if exists s :: s in seen && s.Unknown? then Err(UnknownStatus)
    else if Failed in seen then Ok(FAILED)
    else if seen <= DONE then Ok(ACTIVE)
    else if Applying in seen then Ok(PROVISIONING)
    else if seen <= NOT_STARTED then Ok(ACCEPTED)
    else if seen <= {Validating} + NOT_STARTED then Ok(VALIDATING)
    else if seen <= DONE + SETTLING then Ok(RECONCILING)
    else Ok(PROVISIONING)
  }

  datatype Announcement = ProvisioningChanged(revision: nat, state: State)

  /** The command's row and the events announcing it. */
  datatype Command = Command(state: State, revision: nat, outbox: seq<Announcement>)

  function Accepted(): Command {
    Command(ACCEPTED, 1, [ProvisioningChanged(1, ACCEPTED)])
  }

  /** `advance`: a cancelled command stays cancelled, and a state it already has changes nothing. The failure code is a
      function of the state, so comparing states compares codes. */
  function Advanced(c: Command, state: State): Command {
    if c.state.CANCELLED? || c.state == state then c
    else Command(state, c.revision + 1, c.outbox + [ProvisioningChanged(c.revision + 1, state)])
  }

  // ---------------------------------------------------------------------------------------------------------------
  // Transactions
  // ---------------------------------------------------------------------------------------------------------------

  /** A transaction of one entity: its status written, then the command row locked and the command's next version
      computed. */
  datatype Transaction = Written(status: Status) | Projected(status: Status, next: Command)

  datatype Database = Database(
    statuses: map<Entity, Status>,
    command: Command,
    lock: Option<Entity>,
    open: map<Entity, Transaction>)

  datatype Call =
    | Write(entity: Entity, status: Status)
    | Project(entity: Entity)
    | Commit(entity: Entity)
    | Rollback(entity: Entity)
    | Cancel

  function Statuses(statuses: map<Entity, Status>): set<Status> {
    set e | e in statuses :: statuses[e]
  }

  /** What the transaction reads: everything committed, and its own write. */
  function Seen(db: Database, entity: Entity, status: Status): map<Entity, Status> {
    db.statuses[entity := status]
  }

  function Discard(db: Database, entity: Entity): Database {
    db.(open := db.open - {entity}, lock := if db.lock == Some(entity) then None else db.lock)
  }

  function Step(db: Database, call: Call): Database {
    match call
    case Write(e, status) =>
      if e !in db.statuses || e in db.open then db else db.(open := db.open[e := Written(status)])
    case Project(e) =>
      if e !in db.open || !db.open[e].Written? || db.lock.Some? then db
      else
        var status := db.open[e].status;
        var derived := Derive(Statuses(Seen(db, e, status)));
        if derived.Err? then Discard(db, e)
        else db.(open := db.open[e := Projected(status, Advanced(db.command, derived.value))], lock := Some(e))
    case Commit(e) =>
      if e in db.open && db.open[e].Projected?
      then Discard(db, e).(statuses := db.statuses[e := db.open[e].status], command := db.open[e].next)
      else db
    case Rollback(e) => if e in db.open then Discard(db, e) else db
    case Cancel => if db.lock.Some? then db else db.(command := Advanced(db.command, CANCELLED))
  }

  function Run(db: Database, calls: seq<Call>): Database
    decreases |calls|
  {
    if calls == [] then db else Run(Step(db, calls[0]), calls[1..])
  }

  /** `accept`: every entity planned, revision 1 announced. */
  function Opened(entities: set<Entity>): Database {
    Database(map e | e in entities :: Planned, Accepted(), None, map[])
  }

  // ---------------------------------------------------------------------------------------------------------------
  // How an executor moves an entity
  // ---------------------------------------------------------------------------------------------------------------

  /** The statuses provisioning execution uses, in the order it passes through them. */
  function Progress(s: Status): nat {
    match s
    case Applying => 1
    case Reconciling => 2
    case Ready => 3
    case _ => 0
  }

  predicate Used(s: Status) {
    s.Planned? || s.Applying? || s.Reconciling? || s.Ready? || s.Failed?
  }

  /** Forward, or failed; a finished entity stays as it is. */
  predicate MovesOn(from: Status, to: Status) {
    && Used(from) && Used(to)
    && (from == to || (!from.Ready? && !from.Failed? && (to.Failed? || Progress(from) < Progress(to))))
  }

  ghost predicate Disciplined(db: Database, call: Call) {
    call.Write? && call.entity in db.statuses ==> MovesOn(db.statuses[call.entity], call.status)
  }

  ghost predicate DisciplinedRun(db: Database, calls: seq<Call>)
    decreases |calls|
  {
    calls != [] ==> Disciplined(db, calls[0]) && DisciplinedRun(Step(db, calls[0]), calls[1..])
  }

  // ---------------------------------------------------------------------------------------------------------------
  // The invariant
  // ---------------------------------------------------------------------------------------------------------------

  ghost predicate Mirrors(command: Command, statuses: map<Entity, Status>) {
    command.state.CANCELLED? || Derive(Statuses(statuses)) == Ok(command.state)
  }

  /** Every revision announced once, in order, the last with the state the row has. */
  ghost predicate AllAnnounced(c: Command) {
    && c.revision >= 1 && |c.outbox| == c.revision
    && (forall i :: 0 <= i < |c.outbox| ==> c.outbox[i].revision == i + 1)
    && c.outbox[|c.outbox| - 1].state == c.state
    && (forall i :: 0 <= i < |c.outbox| - 1 ==>
        c.outbox[i].state != c.outbox[i + 1].state && !c.outbox[i].state.CANCELLED?)
  }

  ghost predicate Inv(db: Database) {
    && Mirrors(db.command, db.statuses) && AllAnnounced(db.command)
    && (forall e :: e in db.open ==> e in db.statuses)
    && (db.lock.Some? ==> db.lock.value in db.open && db.open[db.lock.value].Projected?)
    && (forall e :: e in db.open && db.open[e].Projected? ==>
          && db.lock == Some(e)
          && Derive(Statuses(Seen(db, e, db.open[e].status))).Ok?
          && db.open[e].next == Advanced(db.command, Derive(Statuses(Seen(db, e, db.open[e].status))).value))
  }

  lemma AdvancedMirrors(c: Command, statuses: map<Entity, Status>)
    requires AllAnnounced(c) && Derive(Statuses(statuses)).Ok?
    ensures var c' := Advanced(c, Derive(Statuses(statuses)).value); Mirrors(c', statuses) && AllAnnounced(c')
  {
  }

  lemma StepKeeps(db: Database, call: Call)
    requires Inv(db)
    ensures Inv(Step(db, call))
  {
    match call
    case Write(e, status) =>
    case Project(e) =>
    case Commit(e) =>
      if e in db.open && db.open[e].Projected? { AdvancedMirrors(db.command, Seen(db, e, db.open[e].status)); }
    case Rollback(e) =>
    case Cancel =>
  }

  lemma OpenedFits(entities: set<Entity>)
    requires entities != {}
    ensures Inv(Opened(entities))
  {
    var e :| e in entities;
    var statuses := Opened(entities).statuses;
    assert statuses[e] in Statuses(statuses);
    assert Statuses(statuses) == {Planned};
    assert !(Statuses(statuses) <= DONE) by { assert Planned !in DONE; }
  }

  /** At every commit of every interleaving a command that was not cancelled has the state its entities' statuses
      derive, and the announced revisions are exactly 1, 2, ..., its revision. */
  lemma {:induction false} RunKeeps(db: Database, calls: seq<Call>)
    requires Inv(db)
    ensures Inv(Run(db, calls))
    decreases |calls|
  {
    if calls != [] {
      StepKeeps(db, calls[0]);
      RunKeeps(Step(db, calls[0]), calls[1..]);
    }
  }

  lemma CommandTheorem(entities: set<Entity>, calls: seq<Call>)
    requires entities != {}
    ensures var db := Run(Opened(entities), calls); Mirrors(db.command, db.statuses) && AllAnnounced(db.command)
  {
    OpenedFits(entities);
    RunKeeps(Opened(entities), calls);
  }

  // ---------------------------------------------------------------------------------------------------------------
  // The state never goes back
  // ---------------------------------------------------------------------------------------------------------------

  function Rank(state: State): nat {
    match state
    case ACCEPTED => 0
    case VALIDATING => 0
    case PROVISIONING => 1
    case RECONCILING => 2
    case ACTIVE => 3
    case FAILED => 4
    case CANCELLED => 5
  }

  ghost predicate AllUsed(statuses: map<Entity, Status>) {
    forall e :: e in statuses ==> Used(statuses[e])
  }

  ghost predicate Onward(before: map<Entity, Status>, after: map<Entity, Status>) {
    before.Keys == after.Keys && forall e :: e in before ==> MovesOn(before[e], after[e])
  }

  lemma SeenWithin(statuses: map<Entity, Status>, kinds: set<Status>)
    ensures Statuses(statuses) <= kinds <==> forall e :: e in statuses ==> statuses[e] in kinds
  {
    forall e | e in statuses ensures statuses[e] in Statuses(statuses) {}
  }

  /** What the derived state says about each entity, for the statuses execution uses. */
  lemma DerivedMeans(statuses: map<Entity, Status>)
    requires statuses != map[] && AllUsed(statuses)
    ensures Derive(Statuses(statuses)).Ok?
    ensures var state := Derive(Statuses(statuses)).value;
            && (state == FAILED <==> exists e :: e in statuses && statuses[e].Failed?)
            && (state == ACTIVE <==> forall e :: e in statuses ==> statuses[e].Ready?)
            && (state == ACCEPTED <==> forall e :: e in statuses ==> statuses[e].Planned?)
            && (Rank(state) >= 2 <==> state == FAILED || forall e :: e in statuses ==> Progress(statuses[e]) >= 2)
            && state in {ACCEPTED, PROVISIONING, RECONCILING, ACTIVE, FAILED}
  {
    var e0 :| e0 in statuses;
    SeenWithin(statuses, DONE);
    SeenWithin(statuses, NOT_STARTED);
    SeenWithin(statuses, {Validating} + NOT_STARTED);
    SeenWithin(statuses, DONE + SETTLING);
    assert statuses[e0] in Statuses(statuses);
    forall e | e in statuses ensures statuses[e] in Statuses(statuses) {}
  }

  /** Entities moving on never take the derived state back. */
  lemma DeriveForward(before: map<Entity, Status>, after: map<Entity, Status>)
    requires before != map[] && Onward(before, after)
    ensures Derive(Statuses(before)).Ok? && Derive(Statuses(after)).Ok?
    ensures Rank(Derive(Statuses(before)).value) <= Rank(Derive(Statuses(after)).value)
  {
    var e0 :| e0 in before;
    assert e0 in after;
    DerivedMeans(before);
    DerivedMeans(after);
    forall e | e in before ensures MovesOn(before[e], after[e]) {}
    if e :| e in before && before[e].Failed? { assert after[e].Failed?; }
  }

  ghost predicate Honest(db: Database) {
    && db.statuses != map[] && AllUsed(db.statuses)
    && forall e :: e in db.open && e in db.statuses ==> MovesOn(db.statuses[e], db.open[e].status)
  }

  lemma StepForward(db: Database, call: Call)
    requires Inv(db) && Honest(db) && Disciplined(db, call)
    ensures var db' := Step(db, call);
            && Honest(db') && Onward(db.statuses, db'.statuses)
            && Rank(db.command.state) <= Rank(db'.command.state)
            && db.command.outbox <= db'.command.outbox
  {
    if call.Commit? && call.entity in db.open && db.open[call.entity].Projected? { CommitForward(db, call.entity); }
  }

  lemma CommitForward(db: Database, e: Entity)
    requires Inv(db) && Honest(db) && e in db.open && db.open[e].Projected?
    ensures var db' := Step(db, Commit(e));
            && Honest(db') && Onward(db.statuses, db'.statuses)
            && Rank(db.command.state) <= Rank(db'.command.state)
            && db.command.outbox <= db'.command.outbox
  {
    var db' := Step(db, Commit(e));
    assert db'.statuses == Seen(db, e, db.open[e].status);
    assert Onward(db.statuses, db'.statuses);
    if !db.command.state.CANCELLED? { DeriveForward(db.statuses, db'.statuses); }
  }

  /** Over any concurrent run of its entities a command only moves forward: accepted, provisioning, reconciling, active.
      Failed is left for nothing but cancelled, cancelled for nothing, and nothing announced is taken back. */
  lemma {:induction false} NeverGoesBack(db: Database, calls: seq<Call>)
    requires Inv(db) && Honest(db) && DisciplinedRun(db, calls)
    ensures var db' := Run(db, calls);
            && Rank(db.command.state) <= Rank(db'.command.state)
            && db.command.outbox <= db'.command.outbox
            && (db.command.state.CANCELLED? ==> db'.command == db.command)
    decreases |calls|
  {
    if calls != [] {
      StepForward(db, calls[0]);
      StepKeeps(db, calls[0]);
      if db.command.state.CANCELLED? { CancelledStays(db, calls[0]); }
      NeverGoesBack(Step(db, calls[0]), calls[1..]);
    }
  }

  lemma CancelledStays(db: Database, call: Call)
    requires Inv(db) && db.command.state.CANCELLED?
    ensures Step(db, call).command == db.command
  {
  }

  // ---------------------------------------------------------------------------------------------------------------
  // The store
  // ---------------------------------------------------------------------------------------------------------------

  /** The rows and open transactions, updated in place. */
  class CommandStore {
    var statuses: map<Entity, Status>
    var state: State
    var revision: nat
    var outbox: seq<Announcement>
    var lock: Option<Entity>
    var pending: map<Entity, Transaction>

    function Snapshot(): Database
      reads this
    {
      Database(statuses, Command(state, revision, outbox), lock, pending)
    }

    /** `accept`: the operations, the command and the announcement of its first revision. */
    constructor (entities: seq<Entity>)
      ensures Snapshot() == Opened(set e | e in entities)
    {
      state, revision, lock, pending := ACCEPTED, 1, None, map[];
      outbox := [ProvisioningChanged(1, ACCEPTED)];
      statuses := map e | e in entities :: Planned;
    }

    /** `derive`, on the statuses one query returned. */
    method DeriveState(rows: map<Entity, Status>) returns (derived: Result<State, DeriveError>)
      ensures derived == Derive(Statuses(rows))
    {
      var seen: set<Status> := {};
      var left := rows.Keys;
      while left != {}
        invariant left <= rows.Keys
        invariant seen == set e | e in rows && e !in left :: rows[e]
        decreases left
      {
        var e :| e in left;
        left := left - {e};
        seen := seen + {rows[e]};
      }
      assert seen == Statuses(rows);
      derived := Derive(seen);
    }

    /** `set_status` up to its projection. */
    method WriteStatus(e: Entity, status: Status)
      modifies this`pending
      ensures Snapshot() == Step(old(Snapshot()), Write(e, status))
    {
      if e in statuses && e !in pending {
        pending := pending[e := Written(status)];
      }
    }

    /** `project` and `advance`, in the same transaction. */
    method ProjectCommand(e: Entity)
      modifies this`pending, this`lock
      ensures Snapshot() == Step(old(Snapshot()), Project(e))
    {
      if e !in pending || !pending[e].Written? || lock.Some? {
        return;
      }
      var status := pending[e].status;
      var derived := DeriveState(statuses[e := status]);
      if derived.Err? {
        pending := pending - {e};
        return;
      }
      lock := Some(e);
      if state.CANCELLED? || state == derived.value {
        pending := pending[e := Projected(status, Command(state, revision, outbox))];
      } else {
        var event := ProvisioningChanged(revision + 1, derived.value);
        pending := pending[e := Projected(status, Command(derived.value, revision + 1, outbox + [event]))];
      }
    }

    method CommitStatus(e: Entity)
      modifies this
      ensures Snapshot() == Step(old(Snapshot()), Commit(e))
    {
      if e in pending && pending[e].Projected? {
        var t := pending[e];
        statuses := statuses[e := t.status];
        state, revision, outbox := t.next.state, t.next.revision, t.next.outbox;
        pending := pending - {e};
        if lock == Some(e) {
          lock := None;
        }
      }
    }

    method RollBack(e: Entity)
      modifies this`pending, this`lock
      ensures Snapshot() == Step(old(Snapshot()), Rollback(e))
    {
      if e in pending {
        pending := pending - {e};
        if lock == Some(e) {
          lock := None;
        }
      }
    }

    method CancelCommand()
      modifies this`state, this`revision, this`outbox
      ensures Snapshot() == Step(old(Snapshot()), Cancel)
    {
      if lock.None? && !state.CANCELLED? {
        outbox := outbox + [ProvisioningChanged(revision + 1, CANCELLED)];
        revision := revision + 1;
        state := CANCELLED;
      }
    }

    /** `set_status` with nobody else about: its transaction from end to end. */
    method SetStatus(e: Entity, status: Status)
      modifies this
      ensures Snapshot() == SetAlone(old(Snapshot()), e, status)
    {
      WriteStatus(e, status);
      ProjectCommand(e);
      CommitStatus(e);
    }
  }

  function SetAlone(db: Database, e: Entity, status: Status): Database {
    Step(Step(Step(db, Write(e, status)), Project(e)), Commit(e))
  }

  /** One status change: the command follows, and announces exactly when its state changed. */
  lemma SetAloneEffect(db: Database, e: Entity, status: Status)
    requires Inv(db) && db.open == map[] && e in db.statuses
    requires !status.Unknown? && forall k :: k in db.statuses ==> !db.statuses[k].Unknown?
    ensures var db' := SetAlone(db, e, status);
            && Inv(db') && db'.open == map[]
            && db'.statuses == db.statuses[e := status]
            && Derive(Statuses(db'.statuses)).Ok?
            && db'.command == Advanced(db.command, Derive(Statuses(db'.statuses)).value)
  {
    var after := db.statuses[e := status];
    assert after[e] in Statuses(after);
    assert Derive(Statuses(after)).Ok?;
    var written := Step(db, Write(e, status));
    StepKeeps(db, Write(e, status));
    assert Seen(written, e, status) == after;
    StepKeeps(written, Project(e));
    StepKeeps(Step(written, Project(e)), Commit(e));
    assert map[e := Written(status)] - {e} == map[];
  }
}
