/** What the order executor promises, proved over every interleaving, crash, lost lease and unanswered engine call. */
module OrderTheorems {
  import opened Prelude
  import opened ExecutionPolicy
  import opened Inbox
  import opened InboxSupport
  import opened Orders
  import opened OrderSafety

  /** In one engine client ERP never creates a second order for a tenant's order, in any run. */
  lemma AtMostOneOrder(s: World, calls: seq<Call>, m: nat, n: nat)
    requires Initial(s)
    requires var s' := Run(s, calls); m in s'.orders && n in s'.orders && SameMaker(s'.orders[m], s'.orders[n])
    ensures m == n
  {
    InitialFits(s);
    RunKeeps(s, calls);
  }

  /** Every engine order under the task's reference in its client was created by ERP for this very order. */
  predicate Alone(orders: map<nat, NativeOrder>, t: Task) {
    forall n :: n in orders && Carries(orders[n], t.client, t.order.orderId) ==> orders[n].maker == Some(KeyOf(t))
  }

  /** After an uncertain create no second one follows: with ERP's own order there, an answered search adopts it exactly
      when nobody else's carries its reference in the client; otherwise the event is a dead letter for an operator. */
  lemma OrphanIsAdopted(s: World, w: Worker, n: nat)
    requires Inv(s) && InPhase(s, w) && s.workers[w].Checked?
    requires var t := s.workers[w].task;
             && AllMapped(s.masters, t) && CustomerOf(t) in s.masters
             && n in s.orders && s.orders[n].client == t.client && s.orders[n].maker == Some(KeyOf(t))
    ensures Step(s, Search(w, Ready, Open, Answered)).workers[w]
         == if Alone(s.orders, s.workers[w].task) then Applied(s.workers[w].task, n, true)
            else Ending(Permanent(DUPLICATE_NATIVE_ORDERS))
  {
    var t := s.workers[w].task;
    var found := Referring(s.orders, t.client, t.order.orderId);
    assert OrderFits(s, n) && n in found;
    assert Step(s, Search(w, Ready, Open, Answered)) == SearchEngine(s, w, t, Ready, Open, Answered);
    if Alone(s.orders, t) {
      forall m | m in found ensures m == n { assert SameMaker(s.orders[m], s.orders[n]); }
      assert found == {n};
    } else {
      var m :| m in s.orders && Carries(s.orders[m], t.client, t.order.orderId) && s.orders[m].maker != Some(KeyOf(t));
      assert {m, n} <= found;
      CardinalityGrows({m, n}, found);
    }
  }

  /** An executed order is executed for good: its record and link never change, whoever retries what. */
  lemma {:induction false} ExecutionsNeverChange(s: World, calls: seq<Call>, key: OrderKey)
    ensures var s' := Run(s, calls);
            && (key in s.tables.executions ==>
                key in s'.tables.executions && s'.tables.executions[key] == s.tables.executions[key])
            && (key in s.tables.consequences ==>
                  key in s'.tables.consequences && s'.tables.consequences[key] == s.tables.consequences[key])
            && s.tables.outbox <= s'.tables.outbox
    decreases |calls|
  {
    if calls != [] {
      TablesChangeByCommit(s, calls[0]);
      ExecutionsNeverChange(Step(s, calls[0]), calls[1..], key);
    }
  }

  /** All or nothing, over every run: a row reads EXECUTED or ADOPTED_NATIVE_ORDER exactly when its order's link names
      it as the source; then the consequence record is its event's, the engine order carries its reference in its
      tenant's client, and the order was announced once. */
  lemma SettlementTheorem(s: World, calls: seq<Call>, id: RowId)
    requires Initial(s) && id in Run(s, calls).queue.rows
    ensures var s' := Run(s, calls);
            var row := s'.queue.rows[id];
            && (SettledByAttempt(row) <==> exists key ::
                key in s'.tables.executions && s'.tables.executions[key].source == id)
            && (SettledByAttempt(row) ==>
                  && row.payload.Placed? && row.tenant.Some?
                  && var key := OrderKey(row.tenant.value, row.payload.order.orderId);
                  && key in s'.tables.executions && s'.tables.executions[key].source == id
                  && row.outcomeCode == Some(CodeOf(s'.tables.executions[key].adopted))
                  && LinkFits(s', key))
            && AnnouncedOnce(s'.tables)
  {
    InitialFits(s);
    RunKeeps(s, calls);
    var s' := Run(s, calls);
    assert RowFits(s', id);
    if SettledByAttempt(s'.queue.rows[id]) {
      var key :| key in s'.tables.executions && RowIsFor(s'.queue.rows[id], key)
          && s'.tables.executions[key].source == id;
      assert LinkFits(s', key);
    }
    forall key | key in s'.tables.executions
        && s'.tables.executions[key].source == id ensures SettledByAttempt(s'.queue.rows[id]) {
      assert LinkFits(s', key);
    }
  }

  // ---------------------------------------------------------------------------------------------------------------
  // A lost lease
  // ---------------------------------------------------------------------------------------------------------------

  lemma StepIsLater(s: World, call: Call, w: Worker)
    requires Sound(s.queue) && !(call.Take? && call.worker == w)
    ensures Later(s.queue, Step(s, call).queue, w)
  {
    match call
    case Receive(id, tenant, payload) =>
        ReceiveIsLater(s.queue, id, NewRow("order.placed", tenant, payload, s.queue.now), w);
    case Take(v, id, lease) => if v !in s.workers && CanTake(s.queue, v, id) { TakeIsLater(s.queue, v, id, lease, w); }
    case Commit(v) => if InPhase(s, v) && s.workers[v].Applied? { CommitIsLater(s, v, w); }
    case Settle(v) => if InPhase(s, v) && s.workers[v].Ending? { FinishIsLater(s.queue, v, s.workers[v].outcome, w); }
    case Tick(_) =>
    case Crash(_) =>
    case _ => QueueStays(s, call);
  }

  lemma CommitIsLater(s: World, v: Worker, w: Worker)
    requires InPhase(s, v) && s.workers[v].Applied?
    ensures Later(s.queue, Step(s, Commit(v)).queue, w)
  {
    CommitEffect(s, Commit(v));
    FinishIsLater(s.queue, v, Processing(CodeOf(s.workers[v].adopted)), w);
  }

  lemma StaleWritesNothing(s: World, call: Call)
    requires ByWorker(call) && !Holds(s.queue, call.worker)
    ensures Step(s, call).tables == s.tables && Step(s, call).queue.rows == s.queue.rows
  {
    TablesChangeByCommit(s, call);
    match call
    case Commit(_) => if InPhase(s, call.worker) && s.workers[call.worker].Applied? { CommitEffect(s, call); }
    case Settle(_) =>
    case _ => QueueStays(s, call);
  }

  /** A worker whose claim was taken over never writes a table or a row with it again: however long it goes on, whatever
      others do and refund in between, until it claims a row anew. */
  lemma {:induction false} LostLeaseLeavesNothing(s: World, calls: seq<Call>, call: Call)
    requires Inv(s) && ByWorker(call) && !Holds(s.queue, call.worker)
    requires forall i :: 0 <= i < |calls| ==> !(calls[i].Take? && calls[i].worker == call.worker)
    ensures var s' := Run(s, calls);
            Step(s', call).tables == s'.tables && Step(s', call).queue.rows == s'.queue.rows
    decreases |calls|
  {
    if calls == [] {
      StaleWritesNothing(s, call);
    } else {
      var s' := Step(s, calls[0]);
      StepKeeps(s, calls[0]);
      StepIsLater(s, calls[0], call.worker);
      StaleForGood(s.queue, s'.queue, call.worker);
      LostLeaseLeavesNothing(s', calls[1..], call);
    }
  }
}
