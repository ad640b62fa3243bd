# Baobab ERP: once-only execution, proved

Baobab ERP turns events and provisioning commands into records of an iDempiere engine whose writes cannot share the database
transaction. This project models how the repository gets such work done once despite crashes, lost leases, retries and
unanswered calls, and proves what its documentation promises about it. `dafny verify dfyconfig.toml` checks everything.

## How it is built

Each protocol is a transition system: one step is one database transaction or one engine call, a run is any sequence of steps,
and a crash, a lost lease or an unanswered call may fall between any two. Tables are maps, an advisory lock is an owner map,
time is a number of microseconds that never decreases. Next to each transition system a class carries the code's own fields and
methods; every method is shown to have exactly the step's effect, and a whole attempt or pass, with other workers' steps in
between, to be a run. So what is proved of all runs is proved of that code.

What a step decides is stated a second time, apart from the step: the `*_answers` and `*_causes` files say of each code which
call, reply, row or record it stands for and what it does to its row, in tables that do not use the steps' own functions. Over
every run they are shown to agree in both directions: what is met is recorded, and nothing is recorded that was not met.

| part | files |
|---|---|
| inbox queue, fence and budgets | `execution_policy`, `inbox_queue`, `inbox_runs`, `inbox_support`, `inbox_answers` |
| customer projection | `customers`, `customer_attempts`, `customer_partners`, `customer_safety`, `customer_theorems`, `customer_settlement`, `customer_outcomes`, `customer_convergence`, `customer_tenancy`, `customer_answers`, `customer_announcements`, `customer_executor` |
| order execution | `orders`, `order_safety`, `order_theorems`, `order_outcomes`, `order_tenancy`, `order_answers`, `order_causes`, `order_executor` |
| request, plan and keys | `iso_text`, `ordering`, `request_state`, `provisioning_plan`, `plan_contents` |
| provisioning execution | `provisioning`, `provisioning_safety`, `provisioning_theorems`, `provisioning_outcomes`, `provisioning_answers`, `provisioning_executor` |
| command state, and commands with their operations | `command_state`, `command_provisioning` |
| document revisions, outbox | `document_revisions`, `outbox`, `outbox_answers` |
| Finance baselines, warehouses | `finance_baselines`, `warehouse_identities` |
| native permit, filter printer | `native_permit`, `odata_filter` |

## Assumptions

* An engine call takes effect, or does not, before its caller loses the lock. A worker is sequential. There is one clock.
* SHA-256 is injective, and so is JSON text as a function of its tree.
* One engine answers for all AD_Client ids in the customer and order models; provisioning tells engine instances apart.
* Engine records are created and updated only as shown: nobody deletes one, or writes a marker of ERP's by hand. Orders entered
  by hand, with any reference, are part of the order model.
* A tenant's placement, once there, does not change. One dispatcher drains an outbox destination at a time.
* Rows of the table that say *one tenant* take it that a legal entity's customer is sent by one tenant; what happens otherwise
  is the first item of the next section. No other row needs it.
* An accepted provisioning request has the form the Control Plane path gives it: a provisioning id without a colon, each market
  once under a country code, distinct warehouse codes (`modules/provisioning/market_configuration.py`:85-100,
  `ProvisioningPlan.AcceptedForm`). The results about the steps and records of provisioning runs take this and nothing more of a
  request; those about attempts, failures and staying ready do not even take this.
* The parser lets through customers that are active, suspended or closed (`modules/customers/payload.py`:76-78); only what is said
  of a partner's announcements needs this.
* Parsed tenant and legal entity ids hold no colon and versions are at least 1, as the identifier grammar makes sure
  (`modules/mapping/identifiers.py`:10-11).

## What the code does not guarantee

* The mapping table's key has no tenant while the lock has one. A mapped native id is stable in every run, a mapped version never
  goes back, the highest version is final and the newest processed event is what mapping and engine hold: each of these is so
  exactly when no two tenants send the same legal entity's customer (`CustomerTenancy.StableExactlyWhenOneTenant`).
* The module's docstring promises one sales order per (tenant, Trade order). The lock and the link are keyed like that, but the
  search looks into one engine client. The promise holds in every run exactly when no tenant's placements name two clients
  (`OrderTenancy.OneOrderExactlyWhenOneClient`): a worker that dies after creating in one client is followed by one that creates
  in the other. Within one client ERP never creates a second order for a tenant's order, with no condition at all
  (`OrderTheorems.AtMostOneOrder`).
* POReference has no tenant. A reference has at most one order of ERP's in a client, in every run, exactly when no client serves
  two tenants (`OrderTenancy.OneReferenceExactlyWhenOneTenant`). Two active placements may share a client only under different
  AD_Org ids (`db/migrations/0006_add_tenant_mapping_native_unique_index.sql`:8-10), which the search does not look at.
* Step keys of a plan are distinct exactly when its `market:warehouse` names are (`ProvisioningPlan.KeysDistinctExactly`).
  `build_plan` and `validate_request` alone do not refuse a colon in a market id, with which two warehouses can share a key
  (`ProvisioningPlan.ColonInMarketCollides`); the deployment configuration does, so no accepted request has one.
* `settle` commits a failed status first and the outcome code after it. A failed operation that is left alone shows its failure's
  code exactly when its pass did not die in between; if it did, no later pass ever records it
  (`ProvisioningOutcomes.CodeLostExactlyByCrash`, `ProvisioningOutcomes.CodeCanBeLost`). Its `last_error` always says why.
* The engine's own reader has no baseline while `effective` has one exactly when the top version was ever withdrawn and some
  version is in force: an earlier one, or the top one itself if its withdrawal is dated later, as it can be when the database
  session's day is behind UTC's (`FinanceBaselines.EngineIsStricterExactly`).
* Inbox attempts that end blocked are counted; only provisioning refunds them. A claim whose worker dies is counted without a
  bound until some later settlement. Provisioning's processes can run again after a crash. A send whose pass died before marking
  it is repeated and not counted.

## Model

| member | source | states |
|---|---|---|
| `Inbox.InboxQueue.Claim` | modules/inbox/postgres_queue.py:42-64 | takes the first due row no open transaction holds (next_attempt_at, then id) and leases it with the count raised by one; none exactly when no row is due |
| `Inbox.InboxQueue.Settle` | modules/inbox/postgres_queue.py:75-92 | writes the row only if status, worker and attempts all match; otherwise the lease is lost and nothing changes |
| `Inbox.FenceIsExact` | modules/inbox/postgres_queue.py:86 | with refunds about, (worker, attempts) matches for the row's latest claim and for no other held claim |
| `Inbox.StaleForGood` | modules/inbox/postgres_queue.py:75-92 | a claim that was overtaken or settled never fits the fence again, whatever refunds come |
| `InboxRuns.FenceTheorem` | modules/inbox/postgres_queue.py:42-92 | over every run: held claims of a row have distinct attempt numbers within its count, exactly the latest can settle, any other changes no row |
| `InboxRuns.BudgetTheorem` | modules/order_to_cash/execution_policy.py:47-57 | whatever outcomes attempts produce, a row sees at most 23 counted retry settlements and 289 blocked ones |
| `InboxRuns.ScheduleTheorem` | modules/order_to_cash/execution_policy.py:42-57 | a row only ever retried has waited at least 61,410 seconds once its 24th attempt has started |
| `InboxRuns.BudgetIsMet` | modules/order_to_cash/execution_policy.py:42-57 | both bounds and the schedule are met by some run, so none of them can be lowered |
| `ExecutionPolicy.DelayShape` | modules/order_to_cash/execution_policy.py:42-44 | the delay doubles up to the 7th attempt, is the ceiling exactly from the 8th on, and never shrinks |
| `ExecutionPolicy.FullRetrySchedule` | modules/order_to_cash/execution_policy.py:42-44 | the 23 backoffs between 24 attempts add up to 61,410 seconds |
| `InboxAnswers.EndIsRecorded` | modules/inbox/execution_support.py:113-137 | a held row's attempt is recorded as its verdict says: done, dead, on hold for 900 seconds until 72 hours are over, or tried again after the doubling backoff until the 24th attempt; contention costs no attempt and waits 5 seconds |
| `Customers.MarkerInjective` | modules/customers/payload.py:90-96 | markers of different (tenant, legal entity, customer) differ, on either side of the 255-character switch to a digest |
| `CustomerAttempts.RunSteady` | modules/customers/projection_execution.py:104-178 | every interleaving, crash, lost lease and unanswered engine call keeps claims, tasks and locks in step, whatever customers tenants share |
| `CustomerPartners.RunMarked` | modules/customers/projection_execution.py:140-164 | and keeps each marker on one partner at most, in its customer's own client, none there while its worker finds it missing |
| `CustomerSafety.LocksExclude` | modules/customers/projection_execution.py:118-121 | *one tenant*: two workers past the lock never work on one mapping row or one marker |
| `CustomerSafety.NativesExclude` | modules/customers/projection_execution.py:61-65 | *one tenant*: two workers past the search or the mapping never hold the same engine partner |
| `CustomerSafety.RunKeeps` | modules/customers/projection_execution.py:104-178 | *one tenant*: every interleaving, crash, lost lease and unanswered engine call keeps locks, phases, partners and mappings in step |
| `CustomerTheorems.AtMostOnePartner` | modules/customers/projection_execution.py:146-164 | at most one engine partner carries a customer's marker, in any run, and it stands in the customer's own client |
| `CustomerTheorems.OrphanIsAdopted` | modules/customers/projection_execution.py:155-159 | after an uncertain create, an answered search finds exactly the orphan and the next attempt adopts it, whatever customers tenants share |
| `CustomerTheorems.PublicIdStays` | modules/provisioning/master_data_mapping.py:37-51 | a customer once mapped stays mapped under the same public id, over every run, whoever sends it |
| `CustomerTheorems.MappingsAdvance` | modules/customers/projection_execution.py:128-138 | *one tenant*: a mapped native id and public id never change and the mapped version never decreases, over every run |
| `CustomerTheorems.CommitMatchesEngine` | modules/customers/projection_execution.py:166-178 | *one tenant*: a commit that takes effect leaves the engine's fields equal to those of the version it maps, which is its row's |
| `CustomerTheorems.CommittedIsShown` | modules/customers/projection_execution.py:86-87 | *one tenant*: over every run, when a commit takes effect its partner has its event's display name, is a customer, and is active exactly if the event says active |
| `CustomerTheorems.HighestVersionIsFinal` | modules/customers/projection_execution.py:128-178 | *one tenant*: once the highest version is mapped no later step, in any order, repetition or crash pattern, changes the partner or its mapping |
| `CustomerOutcomes.OutcomesAreTrue` | modules/customers/projection_execution.py:104-178 | *one tenant*: over every run each recorded outcome, and each about to be recorded, is true of the customer's mapping ever after |
| `CustomerOutcomes.ProcessedIsReflected` | modules/customers/projection_execution.py:127-135 | *one tenant*: no processed event is lost: its mapping is at its version with its content, or past it; stale means past it, a conflict that its content is another |
| `CustomerConvergence.EngineStays` | modules/customers/projection_execution.py:144-164 | *one tenant*: the engine record of a mapping changes only while a newer event of its customer is stored |
| `CustomerConvergence.NewestEventWins` | modules/customers/projection_execution.py:124-178 | *one tenant*: wherever a run stands, once the newest stored event of a customer is processed, mapping and engine partner hold exactly its version, content and fields |
| `CustomerConvergence.OneContentNeverConflicts` | modules/customers/projection_execution.py:132-135 | if every version has one content, no event ever ends as a version conflict, whatever the run and whoever shares a customer |
| `CustomerAnswers.AnswerIsRecorded` | modules/customers/projection_execution.py:104-164 | over every run, an attempt that meets a code's condition (payload, tenant, placement, lock, version, content, session, engine reply, partners found) is settled with that code, as the code demands |
| `CustomerAnswers.EveryCodeWasMet` | modules/customers/projection_execution.py:104-185 | over every run a row's code, a spent budget aside, was met by a call of an attempt at that row |
| `CustomerAnnouncements.LastCommitIsAnnounced` | modules/customers/projection_execution.py:90-101 | over every run, the last announcement of a mapped customer's partner has the stored revision and the name and status of the event last committed for it |
| `CustomerAnnouncements.NewestIsAnnounced` | modules/customers/projection_execution.py:90-101 | *one tenant*: once the newest stored event of a customer is processed, its partner's last announcement carries that event's name and status |
| `CustomerTenancy.StableExactlyWhenOneTenant` | modules/provisioning/master_data_mapping.py:37-48 | the mapping's key has no tenant: in every run a mapped native id is stable, a mapped version never goes back, a customer's highest version is final, and its newest processed event is what is held, each exactly when no two tenants send one legal entity's customer |
| `CustomerTenancy.SharedCustomerRemaps` | modules/customers/projection_execution.py:118-178 | for any two such tenants, a run that takes a mapping from one partner to another and back to an older version, after the highest one was mapped and with the newest event processed |
| `CustomerSettlement.SettlementTheorem` | modules/customers/projection_execution.py:166-178 | over every run ERP's tables are exactly the replay of the committed projections; a row reads CREATED, ADOPTED or UPDATED exactly when one of them is its own |
| `CustomerSettlement.LostLeaseLeavesNothing` | modules/inbox/execution_support.py:140-142 | a claim that was taken over never writes a table or a row again, however long its worker and the others go on and refund |
| `CustomerSettlement.PartnerAnnouncements` | modules/customers/projection_execution.py:90-101 | a partner's announced revisions are exactly 1, 2, ..., its revision, whatever the run |
| `CustomerExecutor.Site.Put` | modules/provisioning/master_data_mapping.py:37-51 | upserts the mapping and returns the stored public id, or the minted one on the first write |
| `CustomerExecutor.Site.AnnouncePartner` | modules/customers/projection_execution.py:90-101 | advances the partner's revision and announces it exactly when it changed |
| `CustomerExecutor.Site.QueryMarked` | modules/customers/projection_execution.py:61-65 | the loop returns every partner of the client that carries the marker, each once |
| `CustomerExecutor.Site.Begin` | modules/customers/projection_execution.py:106-121 | parse, placement and lock have the transition system's effect, error branch by error branch |
| `CustomerExecutor.Site.Compare` | modules/customers/projection_execution.py:122-138 | the mapped version ends the attempt or lets it go on as the transition system says |
| `CustomerExecutor.Site.Probe` | modules/customers/projection_execution.py:140-159 | session, mapped record and search by marker have the transition system's effect; several matches are a dead letter |
| `CustomerExecutor.Site.Transaction` | modules/customers/projection_execution.py:166-177 | mapping, announcement and inbox outcome are written together under the fence, or restored together |
| `CustomerExecutor.Site.Interleave` | modules/customers/projection_execution.py:104-178 | any sequence of calls carried out in place is a run of the transition system |
| `CustomerExecutor.Site.RunClaim` | modules/customers/projection_execution.py:181-185 | one whole attempt with other workers in between is a run; the row carries the returned outcome, unless the lease was lost |
| `Orders.TablesChangeByCommit` | modules/order_to_cash/inbox_execution.py:144-162 | only a commit that takes effect writes ERP's tables, and it writes all of them |
| `OrderSafety.ResolvedLinesMatch` | modules/order_to_cash/inbox_execution.py:165-175 | with every product mapped, the engine order has the event's lines in order with its quantities and prices |
| `OrderSafety.LocksExclude` | modules/order_to_cash/inbox_execution.py:90-93 | two workers past the lock never work on one order of a tenant |
| `OrderSafety.RunKeeps` | modules/order_to_cash/inbox_execution.py:75-162 | every interleaving, crash, lost lease and unanswered engine call keeps locks, phases, engine orders and tables in step |
| `OrderTheorems.AtMostOneOrder` | modules/order_to_cash/inbox_execution.py:203-229 | in one engine client ERP never creates a second engine order for a tenant's order, in any run, whatever orders people enter beside it |
| `OrderTheorems.OrphanIsAdopted` | modules/order_to_cash/inbox_execution.py:211-215 | after an uncertain create an answered search adopts ERP's own order exactly when no other order carries its reference in the client; with another one there the event is a dead letter |
| `OrderTheorems.ExecutionsNeverChange` | modules/order_to_cash/consequence_store.py:33-42 | an executed order's legal entity and version, its link and its announcement never change, in every run |
| `OrderTheorems.SettlementTheorem` | modules/order_to_cash/inbox_execution.py:144-162 | a row reads EXECUTED or ADOPTED_NATIVE_ORDER exactly when its order's link names it; then record, engine order and announcement are its event's |
| `OrderOutcomes.OutcomesAreTrue` | modules/order_to_cash/inbox_execution.py:75-162 | over every run each recorded outcome, and each about to be recorded, is true of the order's record ever after |
| `OrderOutcomes.ProcessedIsExecuted` | modules/order_to_cash/inbox_execution.py:95-102 | a processed event's order is executed: at its version, or at a later one exactly if it was stale; a refused amendment's at an earlier one |
| `OrderAnswers.AnswerIsRecorded` | modules/order_to_cash/inbox_execution.py:75-229 | over every run, an attempt that meets a code's condition (payload, placement, lock, version, mappings, session, gate, orders found, units, replies) is settled with that code, as the code demands |
| `OrderCauses.EveryCodeWasMet` | modules/order_to_cash/inbox_execution.py:75-238 | over every run a row's code, a spent budget aside, was met by a call of an attempt at that row |
| `OrderCauses.EveryOrderWasAskedFor` | modules/order_to_cash/inbox_execution.py:186-229 | over every run each engine order of ERP's was created by an attempt at its event, with customer and products as mapped, the event's quantities and prices in its order, and every line in the unit its product is sold in |
| `OrderCauses.WrongUnitOrdersNothing` | modules/order_to_cash/inbox_execution.py:186-200 | over every run, if one line's unit is not its product's, nothing is created and the event is the dead letter UNIT_MISMATCH |
| `OrderTheorems.LostLeaseLeavesNothing` | modules/inbox/execution_support.py:140-142 | a claim that was taken over never writes a table or a row again, however long its worker and the others go on and refund |
| `OrderTenancy.OneOrderExactlyWhenOneClient` | modules/order_to_cash/inbox_execution.py:6-8 | ERP never creates two engine orders for one (tenant, order), in any run over given placements, exactly when no tenant's placements name two clients |
| `OrderTenancy.TwoClientsCreateTwice` | modules/order_to_cash/inbox_execution.py:90-93 | for any tenant placed in two clients, a run that creates two engine orders for one of its orders |
| `OrderTenancy.OneReferenceExactlyWhenOneTenant` | modules/order_to_cash/inbox_execution.py:211-215 | a reference has at most one engine order of ERP's in a client, in any run over given placements, exactly when no client serves two tenants |
| `OrderTenancy.SharedClientSharesReference` | modules/order_to_cash/inbox_execution.py:203-229 | for any two tenants of one client, a run that creates an engine order for each under one reference |
| `OrderExecutor.Site.ResolveLines` | modules/order_to_cash/inbox_execution.py:165-175 | the loop's lines are the resolved ones, and it reports something missing exactly when a product is unmapped |
| `OrderExecutor.Site.VerifyUnits` | modules/order_to_cash/inbox_execution.py:186-200 | the loop, reading each product's unit once, reports a line exactly when some line's unit is not its product's |
| `OrderExecutor.Site.QueryReference` | modules/order_to_cash/inbox_execution.py:211 | the loop returns every order of the client under the reference, each once |
| `OrderExecutor.Site.Transaction` | modules/order_to_cash/inbox_execution.py:144-161 | record, link, announcement and inbox outcome are written together under the fence, or restored together |
| `OrderExecutor.Site.RunClaim` | modules/order_to_cash/inbox_execution.py:232-238 | one whole attempt with other workers in between is a run; the row carries the returned outcome, unless the lease was lost |
| `DocumentRevisions.DocumentOutcomes.Advance` | modules/order_to_cash/outcome_store.py:14-46 | inserts, advances or leaves the stored revision as `Observe` says, about which the next rows are |
| `DocumentRevisions.ObservedIsRecorded` | modules/order_to_cash/outcome_store.py:36-46 | over any observations a document has the status and detail of the last one that takes no earlier settlement back, and its revision is one more than the changes up to it |
| `DocumentRevisions.PublicationTheorem` | modules/order_to_cash/outcome_store.py:14-46 | over any observations: the revision counts the different (status, detail) pairs in a row, the status rank never falls, the announced revisions are the announceable ones, once each |
| `DocumentRevisions.EveryRevisionAnnounced` | modules/order_to_cash/accounting_outcomes.py:146-147 | for partners, invoices and payments the announced revisions are exactly 1, 2, ..., the revision |
| `DocumentRevisions.RankNeverFalls` | modules/order_to_cash/accounting_outcomes.py:146-147 | no later observation takes a settled status back or touches a record without raising its revision |
| `Ordering.SortForgetsOrder` | modules/provisioning/planner.py:9-20 | sorting two enumerations of one set gives one list |
| `RequestState.BuildDesiredState` | modules/provisioning/planner.py:23-32 | the loop that deletes empty timezones in place builds the canonical tree |
| `RequestState.RoundTrip` | modules/provisioning/request_state.py:42-54 | reading the serialised state gives the request back: sets, dates, omitted timezones |
| `RequestState.SerialisationInjective` | modules/provisioning/planner.py:23-32 | different requests never serialise alike |
| `RequestState.SerialisationForgetsOrder` | modules/provisioning/planner.py:9-20 | the serialisation does not depend on the order the request's sets are met in |
| `RequestState.VerifiedIsAccepted` | modules/provisioning/request_state.py:57-62 | whatever tree is stored, a verified request is the accepted one, and exactly the trees that read as it are verified |
| `IsoText.InstantRoundTrip` | modules/provisioning/request_state.py:34-39 | an instant's printed text, with fraction and offset, reads back as the instant |
| `ProvisioningPlan.CheckMarkets` | modules/provisioning/validation.py:95-99 | the loop refuses exactly the requests that name a market twice |
| `ProvisioningPlan.BuildPlan` | modules/provisioning/planner.py:39-90 | the nested loops over sorted markets and codes build the plan `PlanOf` specifies, about which the next rows are |
| `PlanContents.PlanCarriesRequest` | modules/provisioning/planner.py:46-90 | a plan has a step for the client, the accounting, each market, each warehouse and the tenant mapping, each given the request's own values (a warehouse its code's last zone, if not empty), and no other |
| `PlanContents.PlanInOrder` | modules/provisioning/planner.py:46-90 | client, accounting, markets by id, each before its warehouses by code, mapping |
| `ProvisioningPlan.KeysDistinctExactly` | modules/provisioning/planner.py:39-90 | a plan's step keys are distinct exactly when its `market:warehouse` names are |
| `ProvisioningPlan.KeysDistinct` | modules/provisioning/planner.py:39-90 | colon-free market ids with distinct codes each are enough for distinct keys |
| `ProvisioningPlan.ColonInMarketCollides` | modules/provisioning/planner.py:72 | with a colon in a market id two different warehouses get one key |
| `ProvisioningPlan.OperationsApart` | modules/provisioning/planner.py:45 | two operations with colon-free ids never share a step key |
| `ProvisioningPlan.StatesApart` | modules/provisioning/planner.py:45 | one operation planned for two states whose digests differ in the first 12 characters shares no step key between the plans |
| `ProvisioningPlan.PlanForgetsOrder` | modules/provisioning/planner.py:39-90 | the plan does not depend on set enumeration order |
| `ProvisioningPlan.NamesApart` | modules/provisioning/idempiere_adapter.py:198-213 | different step keys give different engine markers and mapping rows, none of them the client's alias |
| `ProvisioningSafety.VerifiedPlan` | modules/provisioning/execution.py:145-157 | a pass that gets past its verification runs the accepted request's plan from its first step not completed, whatever its row was edited to |
| `ProvisioningSafety.MarkedIsOurs` | modules/provisioning/idempiere_adapter.py:189-196 | the search by a step's marker finds that step's records and no others |
| `ProvisioningSafety.RunKeeps` | modules/provisioning/execution.py:144-169 | every interleaving of operations, crashes, edits and unanswered calls keeps plans, records, mappings, statuses and counts in step |
| `ProvisioningTheorems.CompletedIsAPrefix` | modules/provisioning/execution.py:155-162 | the completed steps are always the first ones of the accepted request's plan |
| `ProvisioningTheorems.AtMostOneRecord` | modules/provisioning/idempiere_adapter.py:171-187 | two engine records that carry one step's marker are the same record |
| `ProvisioningTheorems.ReadyIsProvisioned` | modules/provisioning/execution.py:158-169 | ready means every step is completed and the tenant's active mapping names the AD_Client with this operation's own marker |
| `ProvisioningTheorems.ReadyHasEveryRecord` | modules/provisioning/idempiere_adapter.py:171-187 | ready means each create step's marker is on exactly one engine record, the one its mapping row names |
| `ProvisioningTheorems.ReadyStays` | modules/provisioning/execution_store.py:51-69 | over every run, however long it goes on, a ready operation stays ready and its steps and native mappings are never touched again |
| `ProvisioningOutcomes.AttemptAccounting` | modules/provisioning/execution_store.py:71-99 | over every run the stored count is passes begun less passes settled as blocked; exhausted only at the 24th pass that was not blocked, or later |
| `ProvisioningOutcomes.FailedForCause` | modules/provisioning/execution.py:84-123 | over every run, crashes included, an operation is failed exactly when its last error is a cause that no retry can cure, 24 passes not blocked, or 72 hours; an outcome code of that kind implies it failed with it |
| `ProvisioningAnswers.EveryCodeHasItsCause` | modules/provisioning/execution.py:84-169 | at every moment of every run, each code an operation carries, a spent budget's aside, was met by a call of its own pass: rejected only on a reply below 500 other than 408, 425 and 429, and so on code by code; ready only by a check that found everything |
| `ProvisioningAnswers.AnswerIsRecorded` | modules/provisioning/execution_store.py:71-99 | over every run, what a pass meets is recorded: an engine that is down is tried again after the backoff and fails only at the 24th attempt; a missing engine, process or login costs no attempt, waits 900 seconds and fails only after 72 hours; any other trouble fails at once with its code |
| `ProvisioningAnswers.WaitIsKept` | modules/provisioning/execution_store.py:25-37 | a recorded operation is listed again exactly when it is put off and its time has come |
| `ProvisioningAnswers.BeginsExactly` | modules/provisioning/execution_store.py:51-69 | a pass begins exactly on a planned, applying or reconciling operation whose command goes on and nobody holds, and is counted |
| `ProvisioningOutcomes.CodeLostExactlyByCrash` | modules/provisioning/execution_store.py:76-78 | over every run a failed operation left alone has its failure's code exactly when its pass did not die between the two commits |
| `ProvisioningOutcomes.CodeCanBeLost` | modules/provisioning/execution_store.py:76-78 | for any request, a run that leaves it failed as invalid with no outcome code at all |
| `ProvisioningOutcomes.DriftMeansEdited` | modules/provisioning/execution.py:145-148 | an operation whose stored request and plan nobody edits is never failed as drifted or unreadable, in any run |
| `ProvisioningTheorems.StatusMovesOn` | modules/provisioning/store.py:88-96 | every call moves an operation's status forward or to failed, never back |
| `ProvisioningTheorems.StatusTellsPlace` | modules/provisioning/execution.py:158-165 | over every run a pass with steps left to apply is applying, one being checked is reconciling, and one is failed exactly between a failure's two commits |
| `ProvisioningTheorems.ErrorGoesWithStatus` | modules/provisioning/store.py:88-96 | before its settlement a pass touches the last error only to clear it, and every move of the status clears it |
| `ProvisioningExecutor.Site.ListDue` | modules/provisioning/execution_store.py:25-37 | open operations not put off, each once, oldest first, up to the limit, and no later one before an earlier |
| `ProvisioningExecutor.Site.PendingSteps` | modules/provisioning/execution.py:156 | the comprehension keeps the plan's order and drops exactly the completed keys |
| `ProvisioningExecutor.Site.FindObstacle` | modules/provisioning/execution.py:145-154 | what stops a pass before its first step, in the code's order |
| `ProvisioningExecutor.Site.Look` | modules/provisioning/idempiere_adapter.py:171-184 | mapped, adopted by marker, to be created, or refused, as the transition system says |
| `ProvisioningExecutor.Site.PutNativeId` | modules/provisioning/native_mapping_store.py:15-25 | the row of the resource key is written or overwritten, no other |
| `ProvisioningExecutor.Site.Map` | modules/provisioning/execution_store.py:120-132 | the tenant mapping is confirmed or written with the step's row in one commit, or the pass ends in a conflict |
| `ProvisioningExecutor.Site.Settle` | modules/provisioning/execution_store.py:71-99 | budgets, status, last error and, unless the pass failed, outcome code, next attempt and refund as the transition system writes them |
| `ProvisioningExecutor.Site.Conclude` | modules/provisioning/execution_store.py:89-99 | the failure's outcome code is a commit of its own, after the failed status |
| `ProvisioningExecutor.Site.ApplyPending` | modules/provisioning/execution.py:160-162 | the loop applies and marks the pending steps in order and stops at the first that fails |
| `ProvisioningExecutor.Site.RunPass` | modules/provisioning/execution.py:137-169 | one whole pass with other operations in between, also between a failure's two commits, is a run, and ends with its outcome recorded |
| `CommandState.DerivedMeans` | modules/provisioning/command_state.py:19-40 | what each derived state says of every entity, for the statuses execution uses |
| `CommandState.DeriveForward` | modules/provisioning/command_state.py:19-40 | entities moving on never take the derived state back |
| `CommandState.CommandTheorem` | modules/provisioning/command_store.py:122-163 | at every commit of every interleaving a command not cancelled has the state its entities' statuses derive, and its announced revisions are exactly 1 to its revision |
| `CommandState.NeverGoesBack` | modules/provisioning/command_store.py:122-163 | over any concurrent run the state never goes back, failed is left only for cancelled, and nothing announced is taken back |
| `CommandState.CommandStore.DeriveState` | modules/provisioning/command_state.py:19-40 | the loop over the rows derives the state of their set of statuses |
| `CommandState.CommandStore.ProjectCommand` | modules/provisioning/command_store.py:143-163 | takes the row lock, reads committed statuses and its own, and prepares the next revision and its event |
| `CommandState.SetAloneEffect` | modules/provisioning/store.py:88-104 | one status change alone: the command follows and announces exactly when its state changed |
| `CommandProvisioning.CommandFollowsOperations` | modules/provisioning/store.py:88-104 | over every run of a command's operations, crashes included, each status change a transaction of the command's, interleaved in any way: the command's state never goes back, nothing announced is taken back, and state and revisions are what the committed statuses derive |
| `CommandProvisioning.QuietCommandIsExact` | modules/provisioning/command_store.py:143-163 | with no transaction open, a command not cancelled is failed, active or accepted exactly when some operation is failed, all are ready, all are planned |
| `CommandProvisioning.OpenedIsJoined` | modules/provisioning/command_store.py:88-117 | a command accepted with its operations planned starts such a run |
| `Outbox.OutboxStore.FetchPending` | modules/outbox/postgres_store.py:95-133 | due events of the selected types, each once, oldest business time first, up to the limit, and no later one before an earlier |
| `Outbox.OutboxStore.DispatchOne` | modules/outbox/service.py:79-104 | one record is marked exactly once, as its answer, its attempts and the two clock readings decide; it is not due again at once |
| `Outbox.OutboxStore.DispatchPending` | modules/outbox/service.py:76-105 | delivered, retried and dead-lettered add up to what was fetched |
| `Outbox.PassSettlesEach` | modules/outbox/service.py:76-105 | every fetched event is settled exactly once, from its state when the pass began |
| `Outbox.PassIsARun` | modules/outbox/service.py:76-105 | a pass is a run of single deliveries, so the bounds on runs are bounds on passes |
| `Outbox.SendsBounded` | modules/outbox/service.py:53-73 | under the 72-hour horizon an event gets at most 82 counted sends, under the default policy at most 8 |
| `Outbox.BoundIsMet` | modules/outbox/service.py:53-73 | 82 and 8 are reached by an event whose every send fails as soon as it is due |
| `Outbox.LeavesSettled` | modules/outbox/postgres_store.py:135-168 | an event leaves the backlog only delivered, on the destination's word, or dead-lettered, and then never changes |
| `Outbox.DeadForCause` | modules/outbox/service.py:83-104 | an event is dead-lettered only because the destination refused it, or its tries or its time are used up |
| `OutboxAnswers.AnsweredForGood` | modules/outbox/service.py:89-95 | over every run a due event sent in time and accepted is delivered for good, refused it is a dead letter at that send; it is never sent again |
| `OutboxAnswers.FailedIsRetried` | modules/outbox/service.py:96-104 | over every run a failed send is tried again after the backoff exactly unless its tries or time are used up; past its time an event is given up unsent |
| `OutboxAnswers.DeliveredCountsAccepted` | modules/outbox/service.py:76-105 | a pass reports as delivered exactly the sends that were accepted |
| `Outbox.OutboxStore.DispatchDestinations` | modules/application/dispatch_worker.py:72-95 | only the signed destination touches provisioning.changed, only the legacy one anything else, and neither if it is not configured |
| `FinanceBaselines.BaselineStore.Record` | modules/provisioning/finance_baseline_store.py:41-70 | appends the entity's next version exactly when approver, evidence and terms are configured, the approver is accountable and the approval zoned and past; each refusal for its reason, changing nothing |
| `FinanceBaselines.BaselineStore.Withdraw` | modules/provisioning/finance_baseline_store.py:104-120 | records a withdrawal exactly when person, reason and evidence are configured, the person is accountable, the date zoned and past, and the version exists and is not withdrawn; each refusal for its reason, changing nothing |
| `FinanceBaselines.TrimStrips` | modules/provisioning/finance_baseline_store.py:30-34 | trimming takes the spaces off both ends and nothing else |
| `FinanceBaselines.BaselineStore.Effective` | modules/provisioning/finance_baseline_store.py:72-85 | the scan returns the version in force, none exactly when there is none |
| `FinanceBaselines.EffectiveExactlyWhenInForce` | modules/provisioning/finance_baseline_store.py:72-85 | a baseline is found exactly when some version has started and was not withdrawn by then, and it is the best of them |
| `FinanceBaselines.EffectiveStandingIsExact` | modules/provisioning/finance_baseline_store.py:122-134 | a version reads EFFECTIVE exactly when it is the one `effective` returns; SUPERSEDED only by one that is |
| `FinanceBaselines.LaterStartChangesNothing` | modules/provisioning/finance_baseline_store.py:72-85 | a version that starts after a date changes no answer for it |
| `FinanceBaselines.LaterWithdrawalChangesNothing` | modules/provisioning/finance_baseline_store.py:72-85 | a withdrawal dated after a date changes no answer for it |
| `FinanceBaselines.NewVersionTakesOver` | modules/provisioning/finance_baseline_store.py:72-85 | a version that starts by a date takes over exactly when none in force starts later |
| `FinanceBaselines.HistoryTheorem` | modules/provisioning/finance_baseline_store.py:61-70 | over any history versions stay dense and nothing recorded ever changes |
| `FinanceBaselines.BaselineStore.CurrentBaseline` | idempiere/extensions/org.nabhold.baobab.erp.finance/src/main/java/org/nabhold/baobab/erp/finance/BaselineFinanceReadiness.java:45-59 | the engine's reader returns the top version, and none if it was ever withdrawn |
| `FinanceBaselines.EngineAgrees` | idempiere/extensions/org.nabhold.baobab.erp.finance/src/main/java/org/nabhold/baobab/erp/finance/BaselineFinanceReadiness.java:45-59 | the engine's reader finds a version exactly when it is both the top one and the effective one and was never withdrawn |
| `FinanceBaselines.EngineIsStricterExactly` | idempiere/extensions/org.nabhold.baobab.erp.finance/src/main/java/org/nabhold/baobab/erp/finance/BaselineFinanceReadiness.java:45-59 | the two readers differ exactly when the top version was ever withdrawn and some version is in force: an earlier one, or the top one itself if its withdrawal is dated later; then the engine's has none |
| `WarehouseIdentities.WarehouseStore.Record` | modules/provisioning/warehouse_identity_store.py:39-76 | one transaction writes row, revision and announcement of the resolved identity, or nothing |
| `WarehouseIdentities.RegistrationBinds` | modules/provisioning/warehouse_identity_store.py:46-59 | refused exactly when another entity has the native record or the two keys name two identities; otherwise the identity returned is the one either key named, and has the registration's owner, code, native record and facts |
| `WarehouseIdentities.RegistrationIsRecorded` | modules/provisioning/warehouse_identity_store.py:69-76 | a registration's code, name, country, timezone and status are the document's next revision, announced once if it has a timezone, unless the document says just that already |
| `WarehouseIdentities.IdentitySurvives` | modules/provisioning/warehouse_identity_store.py:46-69 | a public id survives a change of code and a move to another engine |
| `WarehouseIdentities.IdentityTheorem` | modules/provisioning/warehouse_identity_store.py:39-69 | over any history each key binds at most one identity and no identity disappears or changes owner |
| `WarehouseIdentities.AnnouncementTheorem` | modules/provisioning/warehouse_identity_store.py:70-75 | over any history the announced revisions are exactly those recorded with a timezone |
| `WarehouseIdentities.NativeNeverStolen` | modules/provisioning/warehouse_identity_store.py:55-56 | a registration never changes another entity's warehouse |
| `NativePermit.RetrySendsNothing` | modules/integration/idempiere_client.py:203-214 | the 401 retry sends nothing more: a call sends once or not at all |
| `NativePermit.CallSucceedsExactly` | modules/integration/idempiere_client.py:203-232 | a call goes through exactly when its gate holds, an unspent scope and a permit for just this request are in force, a login succeeds and the engine answers; anything else raises |
| `NativePermit.SingleUse` | modules/integration/native_finance_guard.py:35-76 | however blocks nest and end, each governed scope and each permit lets at most one request through, exactly the permitted one |
| `NativePermit.NoScopeNoSend` | modules/integration/native_finance_guard.py:32-42 | outside every governed scope permits let nothing through |
| `NativePermit.NoPermitNoSend` | modules/integration/native_finance_guard.py:63-71 | without a permit a governed scope lets nothing through |
| `NativePermit.PermittedCallIsSent` | modules/integration/native_finance_guard.py:35-76 | a scope around a permit around its call sends it, and a second call under the permit sends nothing |
| `NativePermit.Guard.RequireExact` | modules/integration/native_finance_guard.py:63-76 | allows exactly the permitted request of an unspent scope and consumes both on demand |
| `NativePermit.Guard.CallEngine` | modules/integration/idempiere_client.py:203-232 | checked before the login and again at each send |
| `NativePermit.Guard.Execute` | modules/integration/native_finance_guard.py:35-60 | nested blocks run in place, each variable restored however the block ends, as `Eval` specifies |
| `ODataFilter.BuildFilter` | modules/integration/idempiere_client.py:71-88 | the loop prints the joined conditions, or refuses exactly when a column is no name or a value has control characters |
| `ODataFilter.RoundTrip` | modules/integration/idempiere_client.py:71-88 | reading a printed filter gives back exactly its conditions, whatever the values hold |
| `ODataFilter.FilterInjective` | modules/integration/idempiere_client.py:71-88 | different condition lists are never printed alike |

## Left out

- HTTP servers and clients, tokens, TLS, SQL text and drivers: replaced by maps, atomic steps and an abstract engine.
- Payload grammars (`parse_customer_projected`, `parse_placed_order`): a payload is malformed or a record of its fields.
- JSON Schema validation and the rest of `validate_request`: of it only the market ids' uniqueness matters to the plan; the others are one flag.
- JSON and SHA-256 at character level: trees and injective functions.
- RequestState.RequestFromState: reads a member of another JSON type as unreadable, where the code would carry it along and report drift; ISO forms `fromisoformat` accepts beyond those printed with or without seconds and fraction are unreadable too, as is an object read as a set of its keys.
- RequestState.VerifiedIsAccepted: `int()` of padded, signed-plus or underscored digits is unreadable in the model.
- Legal-actor, documentary and Control Plane gates: one gate with three answers in the order model, one condition in the permit model.
- The permit's other conditions (company, table, action, process id): the flag `bound` of a call.
- The rest of the order-consequence store (`record_fact`, `link_document`): three observed facts, finite.
- The engine's period and accounting-schema checks in `BaselineFinanceReadiness`: reads of engine tables around the version it picks.
- Readiness checks other than the plan's own: the engine's answer that every record is active is one flag.
- `_register_warehouses` inside a provisioning pass: whether it clashes is one flag; the registration itself is `warehouse_identities`.
- ProvisioningOutcomes.DriftMeansEdited: takes it that the engine and the adapter do not themselves raise drift, which only the verification does.
- Provisioning.Next: does not count process runs, because a crash may repeat them; only record creation is at most once.
- CommandState.Step: a transaction waits for the command's row lock by not taking its step; deadlock is not modelled.
- CommandProvisioning.JointStep: a worker's crash comes before or after its status transaction, not within; a rolled back transaction is one that was not begun.
- CustomerTheorems.AtMostOnePartner: placements that change or are suspended (`status` in `db/migrations/0002_create_tenant_mapping.sql`:9) are not modelled, for orders as for customers; once the client changes, the search looks elsewhere.
- Outbox.OutboxStore.DispatchOne: a database failure of `mark_delivered` inside the send's `try` is not modelled; the code then counts the send as failed.
- FinanceBaselines.BaselineStore.Record: of `strip()` and `lower()` only spaces and ASCII letters are modelled.
- FinanceBaselines.BaselineStore.CurrentBaseline: takes the day as the caller's, not the database's `current_date`.
- WarehouseIdentities.WarehouseStore.Record: registrations run one after another; the advisory lock and the unique indexes that order them are not modelled.
- Outbox.OutboxStore.DispatchPending: stores whose records have no `created_at` are not modelled.
- `ErpProvisioningService`, the trade projection and master-data adapters, activation evidence, the lifecycle table, record-count and identity reconciliation, inventory: other paths or easy members.
