/**
 A command and the operations it stands for, together: each operation's worker goes through its passes, and whenever
 that changes the operation's status it is a transaction of the command's, which then projects and commits while other
 operations' workers go on.
 */
module CommandProvisioning {
  import opened Prelude
  import opened RequestState
  import opened Provisioning
  import opened ProvisioningSafety
  import opened ProvisioningTheorems
  import CommandState

  /** The command's database has an entity for each of its operations. */
  datatype Joint = Joint(world: World, db: CommandState.Database)

  datatype Move = Works(call: Call) | Commits(step: CommandState.Call)

  /** The entity whose transaction a call belongs to, if the command has it. */
  function EntityOf(db: CommandState.Database, call: Call): Option<Pid> {
    if About(call).Some? && About(call).value in db.statuses then About(call) else None
  }

  /** A worker in the middle of its transaction does nothing else; its crash comes before or after. */
  ghost function JointStep(j: Joint, move: Move, digest: Digest, order: Iteration): Joint {
    match move
    case Works(call) =>
      var w := Next(j.world, call, digest, order);
      var e := EntityOf(j.db, call);
      if e.None? then Joint(w, j.db)
      else if e.value in j.db.open || e.value !in w.ops || e.value !in j.world.ops then j
      else if w.ops[e.value].status == j.world.ops[e.value].status then Joint(w, j.db)
      else Joint(w, CommandState.Step(j.db, CommandState.Write(e.value, w.ops[e.value].status)))
    case Commits(call) => if call.Write? || call.Rollback? then j else Joint(j.world, CommandState.Step(j.db, call))
  }

  ghost function JointRun(j: Joint, moves: seq<Move>, digest: Digest, order: Iteration): Joint
    decreases |moves|
  {
    if moves == [] then j else JointRun(JointStep(j, moves[0], digest, order), moves[1..], digest, order)
  }

  /** An operation's status is the one its open transaction writes, or else the committed one. */
  predicate EntityFits(w: World, db: CommandState.Database, e: Pid)
    requires e in db.statuses
  {
    && e in w.ops
    && (if e in db.open then db.open[e].status == w.ops[e].status else db.statuses[e] == w.ops[e].status)
    && CommandState.MovesOn(db.statuses[e], w.ops[e].status)
  }

  ghost predicate EntitiesFit(w: World, db: CommandState.Database) {
    forall e {:trigger EntityFits(w, db, e)} :: e in db.statuses ==> EntityFits(w, db, e)
  }

  ghost predicate Joined(j: Joint, planner: Planner) {
    Inv(j.world, planner) && CommandState.Inv(j.db) && j.db.statuses != map[] && EntitiesFit(j.world, j.db)
  }

  lemma JoinedIsHonest(w: World, db: CommandState.Database)
    requires EntitiesFit(w, db) && db.statuses != map[]
    ensures CommandState.Honest(db)
  {
    forall e | e in db.statuses ensures CommandState.Used(db.statuses[e]) { assert EntityFits(w, db, e); }
    forall e | e in db.open && e in db.statuses ensures CommandState.MovesOn(db.statuses[e], db.open[e].status) {
      assert EntityFits(w, db, e);
    }
  }

  predicate MoveAccepted(move: Move) {
    move.Works? ==> CallAccepted(move.call)
  }

  // ---------------------------------------------------------------------------------------------------------------
  // A worker's call
  // ---------------------------------------------------------------------------------------------------------------

  lemma BystandersFit(w: World, db: CommandState.Database, call: Call, digest: Digest, order: Iteration)
    requires EntitiesFit(w, db)
    ensures forall e {:trigger EntityFits(Next(w, call, digest, order), db, e)} ::
              e in db.statuses && About(call) != Some(e) ==> EntityFits(Next(w, call, digest, order), db, e)
  {
    forall e | e in db.statuses && About(call) != Some(e) ensures EntityFits(Next(w, call, digest, order), db, e) {
      assert EntityFits(w, db, e);
      OthersAreLeft(w, call, digest, order, e);
    }
  }

  /** A worker's write moves its entity on, which is all the command's state rests on. */
  lemma WriteFits(w: World, db: CommandState.Database, call: Call, planner: Planner, digest: Digest, order: Iteration,
      e: Pid)
    requires Inv(w, planner) && EntitiesFit(w, db)
    requires Plans(planner, digest, order) && Faithful(digest) && Iterates(order)
    requires e in db.statuses && e !in db.open && About(call) == Some(e)
    ensures var w' := Next(w, call, digest, order);
            && e in w.ops && e in w'.ops && CommandState.MovesOn(db.statuses[e], w'.ops[e].status)
            && EntitiesFit(w', CommandState.Step(db, CommandState.Write(e, w'.ops[e].status)))
  {
    var w' := Next(w, call, digest, order);
    assert EntityFits(w, db, e);
    StatusMovesOn(w, call, planner, digest, order, e);
    BystandersFit(w, db, call, digest, order);
    var db' := CommandState.Step(db, CommandState.Write(e, w'.ops[e].status));
    forall x | x in db'.statuses ensures EntityFits(w', db', x) {
      if x != e { assert EntityFits(w', db, x); }
    }
  }

  /** With its status as it was, the operation's transaction has nothing to write. */
  lemma SameStatusFits(w: World, db: CommandState.Database, call: Call, digest: Digest, order: Iteration, e: Pid)
    requires EntitiesFit(w, db) && e in db.statuses && About(call) == Some(e)
    requires var w' := Next(w, call, digest, order); e in w.ops && e in w'.ops && w'.ops[e].status == w.ops[e].status
    ensures EntitiesFit(Next(w, call, digest, order), db)
  {
    var w' := Next(w, call, digest, order);
    BystandersFit(w, db, call, digest, order);
    forall x | x in db.statuses ensures EntityFits(w', db, x) {
      if x == e { assert EntityFits(w, db, e); } else { assert EntityFits(w', db, x); }
    }
  }

  ghost predicate Forward(db: CommandState.Database, db': CommandState.Database) {
    && CommandState.Rank(db.command.state) <= CommandState.Rank(db'.command.state)
    && db.command.outbox <= db'.command.outbox
  }

  lemma WorkKeeps(j: Joint, call: Call, planner: Planner, digest: Digest, order: Iteration)
    requires Joined(j, planner) && Plans(planner, digest, order) && Faithful(digest) && Iterates(order)
        && CallAccepted(call)
    ensures var j' := JointStep(j, Works(call), digest, order); Joined(j', planner) && Forward(j.db, j'.db)
  {
    var w' := Next(j.world, call, digest, order);
    var e := EntityOf(j.db, call);
    NextKeeps(j.world, call, planner, digest, order);
    if e.None? {
      BystandersFit(j.world, j.db, call, digest, order);
      forall x | x in j.db.statuses ensures EntityFits(w', j.db, x) { assert About(call) != Some(x); }
    } else if e.value !in j.db.open {
      assert EntityFits(j.world, j.db, e.value);
      WriteFits(j.world, j.db, call, planner, digest, order, e.value);
      if w'.ops[e.value].status == j.world.ops[e.value].status {
        SameStatusFits(j.world, j.db, call, digest, order, e.value);
      } else {
        var write := CommandState.Write(e.value, w'.ops[e.value].status);
        CommandState.StepKeeps(j.db, write);
        JoinedIsHonest(j.world, j.db);
        CommandState.StepForward(j.db, write);
      }
    }
  }

  // ---------------------------------------------------------------------------------------------------------------
  // A transaction's end
  // ---------------------------------------------------------------------------------------------------------------

  /** The statuses execution uses always derive a state, so a projection is never refused. */
  lemma ProjectionFits(w: World, db: CommandState.Database, e: Pid)
    requires EntitiesFit(w, db) && CommandState.Inv(db) && db.statuses != map[]
    ensures EntitiesFit(w, CommandState.Step(db, CommandState.Project(e)))
  {
    var db' := CommandState.Step(db, CommandState.Project(e));
    JoinedIsHonest(w, db);
    if e in db.open && db.open[e].Written? && db.lock.None? {
      assert EntityFits(w, db, e);
      CommandState.DerivedMeans(CommandState.Seen(db, e, db.open[e].status));
    }
    forall x | x in db'.statuses ensures EntityFits(w, db', x) { assert EntityFits(w, db, x); }
  }

  lemma CommitKeeps(j: Joint, call: CommandState.Call, planner: Planner, digest: Digest, order: Iteration)
    requires Joined(j, planner)
    ensures var j' := JointStep(j, Commits(call), digest, order); Joined(j', planner) && Forward(j.db, j'.db)
  {
    if !call.Write? && !call.Rollback? {
      var db' := CommandState.Step(j.db, call);
      CommandState.StepKeeps(j.db, call);
      JoinedIsHonest(j.world, j.db);
      CommandState.StepForward(j.db, call);
      if call.Project? {
        ProjectionFits(j.world, j.db, call.entity);
      } else {
        forall x | x in db'.statuses ensures EntityFits(j.world, db', x) { assert EntityFits(j.world, j.db, x); }
      }
    }
  }

  // ---------------------------------------------------------------------------------------------------------------
  // Whole runs
  // ---------------------------------------------------------------------------------------------------------------

  /** Over any run of a command's operations, their transactions interleaved in any way: the command's state never goes
      back, no announcement is taken back, and state and announced revisions are what the committed statuses derive. */
  lemma {:induction false} CommandFollowsOperations(j: Joint, moves: seq<Move>, planner: Planner, digest: Digest,
      order: Iteration)
    requires Joined(j, planner) && Plans(planner, digest, order) && Faithful(digest) && Iterates(order)
    requires forall i :: 0 <= i < |moves| ==> MoveAccepted(moves[i])
    ensures var j' := JointRun(j, moves, digest, order); Joined(j', planner) && Forward(j.db, j'.db)
    decreases |moves|
  {
    if moves != [] {
      assert MoveAccepted(moves[0]);
      var j' := JointStep(j, moves[0], digest, order);
      if moves[0].Works? {
        WorkKeeps(j, moves[0].call, planner, digest, order);
      } else {
        CommitKeeps(j, moves[0].step, planner, digest, order);
      }
      forall i | 0 <= i < |moves[1..]| ensures MoveAccepted(moves[1..][i]) { assert MoveAccepted(moves[i + 1]); }
      CommandFollowsOperations(j', moves[1..], planner, digest, order);
    }
  }

  /** With no transaction open, a command not cancelled says of its operations exactly what they are. */
  lemma QuietCommandIsExact(j: Joint, planner: Planner)
    requires Joined(j, planner) && j.db.open == map[] && !j.db.command.state.CANCELLED?
    ensures var state := j.db.command.state;
            && (state == CommandState.FAILED <==> exists e ::
                e in j.db.statuses && e in j.world.ops && j.world.ops[e].status.Failed?)
            && (state == CommandState.ACTIVE <==> forall e :: e in j.db.statuses ==>
                e in j.world.ops && j.world.ops[e].status.Ready?)
            && (state == CommandState.ACCEPTED <==> forall e :: e in j.db.statuses ==>
                e in j.world.ops && j.world.ops[e].status.Planned?)
  {
    JoinedIsHonest(j.world, j.db);
    CommandState.DerivedMeans(j.db.statuses);
    forall e | e in j.db.statuses ensures e in j.world.ops && j.world.ops[e].status == j.db.statuses[e] {
      assert EntityFits(j.world, j.db, e);
    }
  }

  /** Acceptance: the command opens with its operations planned, and they and it are joined. */
  lemma OpenedIsJoined(w: World, entities: set<Pid>, planner: Planner)
    requires Inv(w, planner) && entities != {}
    requires forall e :: e in entities ==> e in w.ops && w.ops[e].status.Planned?
    ensures Joined(Joint(w, CommandState.Opened(entities)), planner)
  {
    var db := CommandState.Opened(entities);
    CommandState.OpenedFits(entities);
    var e :| e in entities;
    assert e in db.statuses;
    forall x | x in db.statuses ensures EntityFits(w, db, x) {}
  }
}
