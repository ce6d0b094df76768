# Load-balancer control plane: verification model

A Dafny 4.11 model of the hard logic of a control plane for layer-4 load balancers: several
crash-prone workers change shared rows and an external address service, and must neither leak an
address nor lose a reference, an event or a target. `dafny verify dfyconfig.toml` checks it all.

## The parts

* **The virtual-IP saga** (`Vpc`, `VipSaga`, `VipSagaInvariant`, `VipSagaLoss`, `VipSagaLog`,
  `VipSagaBound`, `SagaReasons`, `SagaWorkers`, `VipSources`). Create, Delete and any number of background-runner
  replicas as one state machine over rows, worker-local state, a clock and the address service;
  every remote call may fail with or without having taken effect, and a worker may stop between any
  two steps. `SagaWorkers` has the workers as sequential code with loops and a deferred
  compensation, and shows that every path through it is a run of the machine; a worker records the
  state and the answer each of its steps was taken on, and fails only for a reason in them
  (`SagaReasons`).
* **The row-lock protocol** (`RowLocks`, `RowLocksTheorems`, `RowLockWriters`). READ COMMITTED in two
  levels: a snapshot per statement, row locks held to commit, and re-evaluation of the locked rows
  only; and the writers' transactions as sequences of such statements.
* **The runner's queue** (`FreeIpQueue`, `FreeIpRunner`): fairness of the claim order, and the tick.
* **Target groups** (`Targets`, `TargetGroups`, `TargetRuns`): adding with reactivation, two-phase
  drain, at the level of calls and of single statements.
* **Masked updates and drained zones** (`Updates`, `Zones`).
* **Pages and the lifecycle stream** (`PageToken`, `Paging`, `Lifecycle`, `LifecycleStream`).
* **The decision cache** (`DecisionCache`) and **the register outbox** (`FgaOutbox`).

A method that stands for code which waits calls a `Yield` whose contract says what others may do in
the meantime; its body is empty, and callers can rely on the contract only.

## Where the code and its documentation differ

The model follows the code. Each point is a proved statement, with the exact condition.

* Comments call the release of a virtual IP owner-scoped; `ClearReference` names only an address.
  A release retried after its first call can take the reference of another balancer
  (`UnscopedReleaseUnbinds`); `BoundExact` and `BackedRunExact` say exactly when.
* The known gap between an allocation and its persistence is described for auto addresses only. A
  linked address is persisted after it is linked as well, so the same crash leaves a reference of a
  balancer that does not exist (loss `CrashBeforePersist`, which covers both).
* Both `MoveProject` statements are described as closed against a concurrent attachment. Their guard
  is the one-statement form that the comment on `MarkDeleting` rules out, and misses an attachment in
  flight (`LbMoveMissesAttach`, `TgMoveMissesAttach`). Pairs share a project while every Move's guard
  is still true at its row lock, and exactly while every Move agrees with what is attached when it
  commits (`ShareThroughoutExact`).
* The unique index of external targets leaves the zone out, the reactivation does not: an address
  re-added in another zone while its old row drains is lost (`AddAllServes`, `OtherZoneIsLost`).
* Re-adding a target while its removal commits between the two statements leaves it draining
  (`RemovalBetweenStatementsWins`); `RemoveExact` and `AddedExact` say exactly which removals do.
* A Move or label update of a balancer still in creation registers a tuple that the removal of the
  orphan does not take back (`MovedOrphanKeepsLink`).
* A page token of a year outside 0 to 9999 is refused, and ends the walk (`TokenExact`,
  `OtherYearStopsTheWalk`).
* Cache keys collide exactly when the subject, the type or the action contains a bar (`TwinExact`;
  `AskableTwinExact` and `HitIsOwnAnswer` for the queries the filter stores), and an invalidation of
  a subject with a bar takes other subjects along (`PrefixExact`). A decision stored by a call in
  flight survives the invalidation of its subject (`InFlightAnswerSurvives`).
* An outbox row that becomes visible behind the cursor is not sent on that connection (`GapExact`).
* A release longer than the age threshold makes a poisoned row claimable in the same tick
  (`LongReleaseReclaims`); within the threshold nobody claims it again (`NotClaimedAgain`).

## Assumptions

Commits are atomic and not ambiguous; address, row, target and listener ids are not reused; a row
version is not repeated (no `xmin` wrap-around). In the queue, writers' own transactions are shorter
than the age threshold. The zone catalogue does not change; its paging may differ from call to call.
Replies of the address service, the geo service and the authorization service, the choice of
interleaving, and the clock are inputs.

## Model

| member | source | states |
|---|---|---|
| `VipSagaInvariant.StepInv` | internal/apps/kacho/api/loadbalancer/create.go:299-358 | Every step of every creator, deleter and runner replica, with failed or half-applied remote calls and crashes anywhere, keeps the saga invariant: bindings are auto or linked and an auto address was ordered for its own balancer, a finalized row binds exactly its declared families and has no creator, a releasing worker has each captured binding still to release or released |
| `VipSagaLoss.LossExact` | internal/apps/kacho/api/loadbalancer/create.go:318-347 | A step strands an address (owed, named by no row, in no live creator's hand) if and only if it is one of the five loss events, classified from the state before it; and what a balancer no longer holds it never holds or comes to owe again |
| `VipSagaLoss.AddressConservation` | internal/apps/kacho/api/loadbalancer/create.go:318-347 | Over every run: an address a balancer ordered or references is named by its row or carried by its live creator exactly when it was never lost; it is lost at most once; a lost one is never named or carried again |
| `VipSagaLoss.NoLossNoLeak` | internal/apps/kacho/jobs/free_ip_runner.go:246-306 | A run without loss events that ends without live creators leaves every owed address in a row |
| `VipSagaLoss.LossesOfRun` | internal/apps/kacho/api/loadbalancer/delete.go:155-208 | The run-level count behind it, from any invariant state: at most one loss per balancer and address, and every newly stranded one has it |
| `VipSagaLoss.GoneForGood` | internal/apps/kacho/api/loadbalancer/create.go:545-566 | A balancer that let an address go never takes it back, loses it no second time, and owes at the end only what it owed all along |
| `VipSagaLoss.CrashLoss` | internal/repo/kacho/pg/load_balancer_repo.go:275-296 | A crash loses what was never persisted, or, when a Delete marked and removed the row, what AttachVIP landed after the mark captured the binding |
| `VipSagaLoss.EachLossHappens` | internal/clients/vpc/internal_address_client.go:309-337 | None of the five kinds is empty: each is reached by a run from the empty system |
| `VipSagaLoss.OnlyMakerDeletes` | internal/clients/vpc/internal_address_client.go:366-400 | Apart from its tenant, only the balancer an address was ordered for ever deletes it, at every step |
| `VipSagaLoss.TenantAddressSurvives` | internal/apps/kacho/api/loadbalancer/delete.go:237-253 | A tenant (linked) address is never deleted by any step of any worker in any run |
| `VipSagaLoss.ReachableReleasesAgree` | internal/apps/kacho/jobs/free_ip_runner.go:366-381 | On every reachable row the three release routines make the same calls |
| `Vpc.ReleasesAgreeIff` | internal/apps/kacho/api/loadbalancer/create.go:571-583 | Create's and the runner's routines always agree; Delete's agrees with them exactly for the auto and linked origins |
| `Vpc.RetryConverges` | internal/apps/kacho/api/loadbalancer/delete.go:237-253 | Stopping a release after any of its calls and running it again reaches the same address store as one uninterrupted release |
| `Vpc.ReleaseOutcome` | internal/apps/kacho/jobs/free_ip_runner.go:366-381 | A completed release removes an auto address and only clears a linked one |
| `VipSagaLog.ExactlyOnce` | internal/apps/kacho/api/loadbalancer/create.go:507-540 | CREATED and DELETED are each emitted at most once, each with its intent, over all workers and replicas; a finalized balancer's row is absent if and only if DELETED and the unregister intent were emitted; DELETED needs a mark |
| `VipSagaLog.OrphanIsSilent` | internal/apps/kacho/jobs/free_ip_runner.go:285-301 | A balancer whose creator is gone before it finalized never emits CREATED, and DELETED only if a Delete marked it |
| `VipSagaLog.OnceStep` | internal/apps/kacho/api/loadbalancer/delete.go:177-201 | The per-balancer ledger (counts of the four entries against row, creator and mark) is kept by every step |
| `VipSagaBound.FinalIsBound` | internal/apps/kacho/api/loadbalancer/create.go:332-347 | In every run whose steps take no reference another balancer relies on and claim no row whose creator is alive, a balancer neither CREATING nor DELETING has, for exactly its declared families, an address that exists and carries its reference |
| `VipSagaBound.BoundExact` | internal/clients/vpc/internal_address_client.go:450-482 | From a well-backed state a step leaves every finalized balancer bound if and only if it does not clear, on behalf of another balancer, a reference its row names |
| `VipSagaBound.UnscopedReleaseUnbinds` | internal/clients/vpc/internal_address_client.go:450-482 | A run with fresh creators and no loss in which the unscoped ClearReference of a retried release takes the reference of another, finalized balancer |
| `VipSagaBound.EarlyClaimUnbinds` | internal/apps/kacho/jobs/free_ip_runner.go:67-75 | A run with scoped releases in which a runner claims the row of a slow but live creator, clears its reference and dies, and the balancer is finalized without it |
| `VipSagaBound.BackedExact` | internal/apps/kacho/api/loadbalancer/create.go:507-540 | A step keeps every reference some balancer relies on (named by its finalized row, or confirmed to its live creator) and runners apart from live creators, if and only if it takes no such reference for another balancer and claims no row whose creator is alive |
| `VipSagaBound.BackedRunExact` | internal/apps/kacho/jobs/free_ip_runner.go:67-75 | Over whole runs: every state is well-backed if and only if every step is of that kind |
| `VipSagaBound.FreshScopedIsConsiderate` | internal/apps/kacho/jobs/free_ip_runner.go:67-75 | Creators younger than the age threshold and releases that clear only own references are enough for it |
| `SagaWorkers.World.DoCreate` | internal/apps/kacho/api/loadbalancer/create.go:299-358 | The create worker as sequential code; every path through it is a run of the saga. Success: the last step made the row INACTIVE with, for exactly the requested families, a new address or the named one, and emitted CREATED with its intent. Failure: the handle drop is the last step, and some step since the insertion was hindered: by an error answer, an order answered with an address already issued, an address gone or referenced by somebody else, or a Delete's mark or a runner's claim of the row after its insertion |
| `SagaWorkers.World.AcquireAll` | internal/apps/kacho/api/loadbalancer/create.go:332-341 | The loop over the families with its local map: success means the map has what was requested for each family and every binding is persisted; otherwise a step of the creation failed and exactly the map is to be compensated |
| `SagaWorkers.World.AcquireFamilyVIP` | internal/apps/kacho/api/loadbalancer/create.go:371-434 | One family: a new or the named address in hand, or a failed step and the deferred compensation due |
| `SagaWorkers.World.CreateAddressAndWait` | internal/clients/vpc/internal_address_client.go:567-593 | The order: an existing address ordered for the balancer, or a failed step behind which one may have been created, also behind an attempt that was retried |
| `SagaWorkers.World.Allocate` | internal/clients/vpc/internal_address_client.go:309-337 | Order, reference, and the undo when the reference fails; success means the new address carries the balancer's reference |
| `SagaWorkers.World.AttachExisting` | internal/clients/vpc/internal_address_client.go:485-537 | Link by compare-and-swap, then the Get whose failure abandons the link |
| `SagaWorkers.World.PersistVIP` | internal/apps/kacho/api/loadbalancer/create.go:481-503 | AttachVIP's commit writes the first family's binding, and nothing else, into the row; it fails only for an error answer or a row that is gone or locked by a runner |
| `SagaWorkers.World.FinalizeCreate` | internal/apps/kacho/api/loadbalancer/create.go:507-540 | The final commit makes the row INACTIVE with the acquired bindings and emits CREATED and its intent; it fails only for an error answer or a row that is gone, locked by a runner or no longer CREATING at that moment |
| `SagaWorkers.World.CompensateCreate` | internal/apps/kacho/api/loadbalancer/create.go:545-566 | Every allocated family is released at the handle drop unless a call failed; the handle drop is the last step and removes the row unless its answer is an error or a runner holds the row |
| `SagaWorkers.World.ReleaseAddress` | internal/apps/kacho/api/loadbalancer/create.go:571-583 | The calls of one family up to the first failure, which is an error answer or the deletion of an address still referenced |
| `SagaWorkers.World.DoDelete` | internal/apps/kacho/api/loadbalancer/delete.go:155-208 | Mark, release, final transaction. Success: the row is gone, every binding captured at the mark was released before, DELETED and the unregister intent are emitted. Failure: the row was not writable, or the last call was rejected, or the final transaction found an error, no row or a lock; the row then stays DELETING |
| `SagaWorkers.World.ReleaseAllVips` | internal/apps/kacho/api/loadbalancer/delete.go:169-175 | The captured bindings' calls in order; only a rejected call ends the worker, and touches the row only for a runner's permanent error |
| `SagaWorkers.World.ReconcileOne` | internal/apps/kacho/jobs/free_ip_runner.go:246-306 | A claimed row: removed after everything was released, with DELETED and its intent exactly if it was DELETING; given up only for a rejected call or an error answer |
| `SagaReasons.CreationStops` | internal/apps/kacho/api/loadbalancer/create.go:371-540 | Why any step of a creation fails: the answer, an order answered with an address issued before, an address gone or referenced by somebody else, or a row gone, locked or no longer CREATING |
| `SagaReasons.RowTakenBySomebody` | internal/repo/kacho/pg/load_balancer_repo.go:434-464 | In every run, while its creator lives the row of a balancer in creation is taken from it only by a Delete's mark or a runner's claim of that balancer |
| `VipSources.ResolveVipSources` | internal/apps/kacho/api/loadbalancer/vip_source.go:66-106 | Succeeds exactly for at least one family with well-formed sources, and returns them in family order |
| `VipSources.ValidateSourceTypeMatrix` | internal/apps/kacho/api/loadbalancer/vip_source.go:110-126 | Accepts exactly subnet sources on internal and public ones on external balancers |
| `VipSources.FamiliesFromSpecs` | internal/apps/kacho/api/loadbalancer/vip_source.go:129-135 | The declared families in order |
| `VipSources.PlacementIffInternal` | internal/apps/kacho/api/loadbalancer/vip_source.go:45-62 | A request passes exactly when it has a placement if and only if it is internal, and keeps it |
| `VipSources.SameEverywhere` | internal/apps/kacho/api/loadbalancer/create.go:180-215 | The dual-stack loop accepts exactly the lists whose set values agree pairwise |
| `VipSources.ResolveLinkedAddress` | internal/apps/kacho/api/loadbalancer/create.go:254-296 | Accepts exactly when the link is an existing address of the tenant, of that family and kind, whose subnet (for an internal balancer) has the balancer's placement and region; the spec gets that subnet's network and zone and keeps everything else. Whatever is wrong with a found address is the one generic error; only a service that is down shows, and only for an address that fits |
| `VipSources.ResolveOneSource` | internal/apps/kacho/api/loadbalancer/create.go:220-249 | Any source: accepted exactly when what it names fits the balancer, as far as there is a client to ask; a subnet gives its network and its zone, a public source nothing; each lookup failure has its error |
| `VipSources.ResolveSources` | internal/apps/kacho/api/loadbalancer/create.go:174-217 | All families: accepted exactly when each source is, the families agree on the network, and on the zone if the balancer is zonal; an unavailable error only when a service is down |
| `VipSources.CheckedSpecsAreValid` | internal/apps/kacho/api/loadbalancer/create.go:254-296 | What the checks accept is a valid start of the saga: distinct families, links to distinct existing addresses |
| `VipSources.UncheckedLinksMayCoincide` | internal/apps/kacho/api/loadbalancer/create.go:262-268 | Without the family check two families could link one address, which the saga cannot start from |
| `RowLocks.StepInv` | internal/repo/kacho/pg/load_balancer_repo.go:419-433 | Every statement, wait, re-check, commit and abort of the protocol (snapshots per statement, row locks to commit, re-evaluation of the locked row only) keeps the committed-state properties and what each transaction knows of the rows it holds |
| `RowLocksTheorems.CommittedStatesAreSafe` | internal/repo/kacho/pg/load_balancer_repo.go:419-464 | In every committed state of every run a DELETING balancer has no listener and no attachment, every listener's project is its balancer's, and attached pairs share a region |
| `RowLocksTheorems.DeletingEnteredAndKept` | internal/repo/kacho/pg/load_balancer_repo.go:434-464 | DELETING is entered only by a commit over an unprotected, childless committed row, and only the row's removal ends it, with the status trigger and every other writer running |
| `RowLocksTheorems.DeletingAbsorbs` | internal/migrations/0013_lb_status_recompute_cas_guard.sql:33-122 | Over whole runs DELETING survives every status change, the recompute trigger's compare-and-swap included |
| `RowLocksTheorems.OneStatementGuardFails` | internal/repo/kacho/pg/load_balancer_repo.go:419-433 | With the guard in one statement a reachable committed state has a DELETING balancer with a listener |
| `RowLocks.InsertedApplies` | internal/repo/kacho/pg/listener_repo.go:172-233 | A listener's insert takes project and status guard from the locked row, so its commit keeps the committed-state properties |
| `RowLocks.AttachedApplies` | internal/repo/kacho/pg/attached_tg_repo.go:118-152 | An attachment's commit, joined on both locked rows, keeps them |
| `RowLocks.CascadedApplies` | internal/repo/kacho/pg/load_balancer_repo.go:508-546 | The Move's commit with its cascade keeps every listener in its balancer's project |
| `RowLocks.CommitKeepsRows` | internal/repo/kacho/pg/load_balancer_repo.go:434-546 | A commit adds or removes no balancer or group and keeps regions and protections; project and status change only by the transaction that holds the row, to exactly what that transaction writes |
| `RowLocks.CommitKeepsChildren` | internal/repo/kacho/pg/listener_repo.go:172-233 | And listeners and pairs: each appears, goes or changes project only by its own insert, removal or cascade |
| `RowLocksTheorems.PairsShareProjectRun` | internal/repo/kacho/pg/attached_tg_repo.go:118-131 | Attached pairs share a project throughout every run in which each Move's guard is still true when it gets its row lock (statement-atomic runs among them) |
| `RowLocksTheorems.ProjectStep` | internal/repo/kacho/pg/target_group_repo.go:395-425 | The step form, for balancer and target-group Moves |
| `RowLocksTheorems.ProjectExact` | internal/repo/kacho/pg/load_balancer_repo.go:508-546 | Pairs still share their projects after a step if and only if it is not the commit of a Move whose destination differs from the project of something attached |
| `RowLocksTheorems.ShareThroughoutExact` | internal/repo/kacho/pg/target_group_repo.go:395-425 | Over whole runs: every committed state keeps pairs in one project if and only if every Move agrees with what is attached when it commits |
| `RowLocksTheorems.StaleLbMoveSplitsPair` | internal/repo/kacho/pg/load_balancer_repo.go:508-546 | The guard is needed for a balancer: a Move whose guard went stale and that commits another project splits the pair |
| `RowLocksTheorems.StaleTgMoveSplitsPair` | internal/repo/kacho/pg/target_group_repo.go:395-425 | And for a target group |
| `RowLocksTheorems.LbMoveMissesAttach` | internal/repo/kacho/pg/load_balancer_repo.go:508-546 | A run from the empty database in which a balancer's Move misses an attachment in flight |
| `RowLocksTheorems.TgMoveMissesAttach` | internal/repo/kacho/pg/target_group_repo.go:395-425 | The same for a target group's Move |
| `RowLockWriters.Database.MarkDeleting` | internal/repo/kacho/pg/load_balancer_repo.go:434-496 | The two statements as the writer issues them, waiting for the row while others act: success means its commit made the row DELETING with no child at that moment, a refusal that it is protected or has a child, not-found that it is gone, and giving up that another transaction holds it |
| `RowLockWriters.Database.InsertListener` | internal/repo/kacho/pg/listener_repo.go:172-233 | Success means its commit inserted the listener in its balancer's current project, on a balancer that is not DELETING, with the trigger's status; a refusal that the balancer is gone or DELETING or the id taken; giving up that another transaction holds the row |
| `RowLockWriters.Database.AttachGroup` | internal/repo/kacho/pg/attached_tg_repo.go:118-152 | A new pair is its commit's and joins rows of one project and region on a balancer that is not DELETING; an existing pair is reported without a commit; a refusal means the rows do not join and are not attached; giving up that another transaction holds one of them |
| `RowLockWriters.Database.MoveLoadBalancer` | internal/repo/kacho/pg/load_balancer_repo.go:508-546 | Success means its commit put the balancer and all its listeners in the destination project; a refusal that something is attached, not-found that the balancer is gone, giving up that another transaction holds it |
| `RowLockWriters.Database.MoveTargetGroup` | internal/repo/kacho/pg/target_group_repo.go:395-425 | Success means its commit put the group in the destination project; the refusals as for a balancer |
| `FreeIpQueue.NoHeadOfLineBlocking` | internal/apps/kacho/jobs/free_ip_runner.go:67-75 | A claimable row with k claimable rows at or before it is claimed after at most k other claims of any replicas, when claims end with a result and no release under way is older than the threshold |
| `FreeIpQueue.LineShortens` | internal/apps/kacho/jobs/free_ip_runner.go:187-208 | Every other claim strictly shrinks the set of rows ahead, and nothing enlarges it |
| `FreeIpQueue.PoisonGoesLast` | internal/apps/kacho/jobs/free_ip_runner.go:324-348 | A poisoned row is out of reach if and only if its release took no longer than the threshold, and then stands behind every stuck row |
| `FreeIpQueue.ClaimsAreSpaced` | internal/apps/kacho/jobs/free_ip_runner.go:67-75 | Two claims of one row, by any replicas, begin more than the age threshold apart |
| `FreeIpQueue.NotClaimedAgain` | internal/apps/kacho/jobs/free_ip_runner.go:67-75 | Within the threshold of a claim no replica claims the row again, unless that claim was rolled back or another writer wrote the row |
| `FreeIpQueue.LongReleaseReclaims` | internal/apps/kacho/jobs/free_ip_runner.go:324-348 | A release longer than the threshold makes the row it poisons claimable at once |
| `FreeIpQueue.OldestExists` | internal/apps/kacho/jobs/free_ip_runner.go:67-75 | When some row is claimable, one of them is oldest |
| `FreeIpRunner.Runner.ReconcileOnce` | internal/apps/kacho/jobs/free_ip_runner.go:187-208 | The tick: a run of the queue with at most 100 claims of its own; the count is of reconciled rows; an error is that of the round it ended with, and a rollback its last event; ending early without one means nothing was claimable; and a tick that ends within the threshold claims no row twice that nobody else wrote in between |
| `FreeIpRunner.Runner.ReconcileOne` | internal/apps/kacho/jobs/free_ip_runner.go:246-348 | One row: the replica's own events are none, or a claim and its one end. A reconciled row is deleted, and had every call of both families made and answered and the database's consent; any other claimed row stays |
| `FreeIpRunner.Runner.ReleaseFamily` | internal/apps/kacho/jobs/free_ip_runner.go:366-381 | ClearReference, then FreeIP unless the address is linked, up to the first error: no error exactly when every call was answered with success, and otherwise the first failing answer |
| `FreeIpRunner.ReconciledIsReleased` | internal/apps/kacho/jobs/free_ip_runner.go:270-306 | The calls made: each family's up to and including the first that fails, the second family's exactly when the first one's were all answered; all of them for a reconciled row |
| `FreeIpRunner.VerdictExact` | internal/apps/kacho/jobs/free_ip_runner.go:270-358 | Over the answers of a round: reconciled if and only if every call and the database answered with success; poisoned if and only if the first failing answer is permanent and the database took the bump; otherwise the error is the first failing answer when that is transient, else the database's |
| `FreeIpRunner.Runner.SelectStuck` | internal/apps/kacho/jobs/free_ip_runner.go:67-75 | The claim takes an oldest claimable row, or there is none |
| `Targets.AddAllServes` | internal/repo/kacho/pg/target_group_repo.go:466-538 | After AddTargets a slot is in service if and only if it was, or a requested target has it and no draining row of another identity holds it |
| `Targets.ReAddedIsServed` | internal/repo/kacho/pg/target_group_repo.go:466-538 | A re-added target is never lost unless its old row drains under another zone |
| `Targets.OtherZoneIsLost` | internal/migrations/0001_initial.sql:456-458 | Re-adding an external address in another zone over its draining row changes nothing: the unique index leaves the zone out |
| `Targets.AddAllKeeps` | internal/repo/kacho/pg/target_group_repo.go:436-540 | Slots stay unique, the drain start is set exactly while draining, and each target adds at most one row |
| `Targets.AddAllWrites` | internal/repo/kacho/pg/target_group_repo.go:466-538 | A row is new or changed only if it was absent or draining, and is then in service with the identity and weight of the first requested target with that identity; the count is the number of such rows |
| `TargetGroups.Store.AddTargets` | internal/repo/kacho/pg/target_group_repo.go:436-540 | The writer: error cases, the cap of 100 over rows in any status; no row goes, a written row is new or was draining and is in service with the identity and weight of the first target requested with that identity, every other row is untouched, and the result is the number of written rows |
| `TargetGroups.Store.RemoveTargetsMarkDraining` | internal/repo/kacho/pg/target_group_repo.go:545-561 | Exactly the named rows in service start to drain, and their number is returned |
| `TargetGroups.Store.DoRemove` | internal/apps/kacho/api/targetgroup/remove_targets.go:99-148 | Listing in one transaction and marking in another, with the groups changing in between: exactly the rows listed with a requested identity and still in service at the mark start to drain, an event says so exactly when there is one, and a group gone meanwhile is reported |
| `TargetGroups.ResolveTargetIdentities` | internal/apps/kacho/api/targetgroup/remove_targets.go:175-189 | The nested loop resolves each wanted target to its first match |
| `TargetGroups.ResolvedExactly` | internal/apps/kacho/api/targetgroup/remove_targets.go:175-189 | With unique slots exactly the rows with a wanted identity are resolved |
| `TargetGroups.EqualIsSameSlot` | internal/apps/kacho/api/targetgroup/remove_targets.go:193-219 | The comparison is exactly equality of the unique-index keys |
| `TargetGroups.LimitHidesNothing` | internal/repo/kacho/pg/target_group_repo.go:211-216 | LIMIT 100 never cuts the listing of a group under the cap |
| `TargetGroups.Store.DrainOnce` | internal/apps/kacho/jobs/target_drain_runner.go:52-80 | One pass deletes a row exactly when it drains and its drain began more than the group's delay ago, leaves every other row, and emits one event for each group that lost one |
| `TargetRuns.GroupStaysValid` | internal/repo/kacho/pg/target_group_repo.go:440-464 | Under concurrent adders, removals, drain passes and delay changes: at most 100 rows, unique identities, draining exactly with a drain start |
| `TargetRuns.RemoveExact` | internal/repo/kacho/pg/target_group_repo.go:545-561 | A removal under the adder's lock leaves the addition on course if and only if it takes no requested row out of service that no target still to come reactivates |
| `TargetRuns.StartExact` | internal/repo/kacho/pg/target_group_repo.go:466-538 | At the lock the addition is on course if and only if no draining row of another identity holds a requested slot |
| `TargetRuns.CommitExact` | internal/apps/kacho/api/targetgroup/add_targets.go:129-154 | At the commit it is on course if and only if every requested identity is in service |
| `TargetRuns.AddedIsServed` | internal/apps/kacho/api/targetgroup/add_targets.go:129-154 | Statement by statement: after the commit every requested identity is in service, whatever drain passes ran and whatever removals kept the addition on course |
| `TargetRuns.AddedExact` | internal/repo/kacho/pg/target_group_repo.go:466-538 | And only then: the two conditions together are necessary and sufficient while no drain pass deletes a row of a requested slot |
| `TargetRuns.RemovalBetweenStatementsWins` | internal/repo/kacho/pg/target_group_repo.go:466-538 | A removal between a target's two statements leaves a committed addition out of service |
| `TargetRuns.DeletedOnlyAfterDelay` | internal/apps/kacho/jobs/target_drain_runner.go:52-60 | A row in service is deleted only after a removal named it and more than the group's then current delay has passed |
| `TargetRuns.ServedUntilNamed` | internal/apps/kacho/jobs/target_drain_runner.go:52-60 | A row in service stays so through any run until a removal names it |
| `TargetRuns.OnlyCommitsServe` | internal/repo/kacho/pg/target_group_repo.go:466-538 | Over whole runs nothing comes into service, or changes in service, without the commit of an addition, whatever was written and rolled back |
| `TargetRuns.ServesByCommit` | internal/apps/kacho/api/targetgroup/add_targets.go:129-154 | Step by step: only such a commit does, and each row it brings has the identity and weight of a requested target |
| `Updates.UpdatesAreSequential` | internal/repo/kacho/pg/load_balancer_repo.go:350-387 | After any interleaving of reads, writes and other changes the row is the successful masks and other changes applied in commit order |
| `Updates.WriteKeepsUnmasked` | internal/apps/kacho/api/loadbalancer/update.go:160-196 | A write succeeds exactly when its version is current; then each field of the row, read by its path, is the request's if the mask is empty or names it and unchanged otherwise (zones: exactly the request's non-empty names, each once), and the other columns are unchanged; otherwise nothing changes |
| `Updates.MaskDecides` | internal/apps/kacho/api/loadbalancer/update.go:200-234 | The masked record field by field: the request's value where the mask is empty or names the path, the current one elsewhere, the zones without duplicates and empty names |
| `Updates.BlindWriteExact` | internal/repo/kacho/pg/load_balancer_repo.go:355-362 | Without the version test a write keeps the unmasked fields exactly when nobody changed them |
| `Updates.BlindWriteLosesProtection` | internal/repo/kacho/pg/load_balancer_repo.go:355-362 | A run in which it reverts deletion protection |
| `Updates.MasksCommute` | internal/apps/kacho/api/loadbalancer/update.go:200-234 | Updates of disjoint masks commute |
| `Updates.CheckMask` | internal/apps/kacho/api/loadbalancer/update.go:76-84 | The first path that is not mutable decides the error, immutable or unknown |
| `Updates.DrainedZonesStayStrict` | internal/apps/kacho/api/loadbalancer/update.go:96-108 | In every row reachable from Create by masked updates, over any paging of the zone catalogue at each of them, the drained list is duplicate-free, empty unless REGIONAL, names zones of the region only and leaves one out; and the record passes the domain rules |
| `Updates.Writer.Execute` | internal/apps/kacho/api/loadbalancer/update.go:65-130 | A request is accepted exactly when its mask is known, the row exists, the masked record is valid and the zone check passes on the paged listing; then the operation holds the record with each field as the mask decides, and the version read; otherwise nothing is left behind, and the error is that of the first check that fails |
| `Updates.Writer.DoUpdate` | internal/apps/kacho/api/loadbalancer/update.go:160-196 | The guarded write succeeds exactly on the version read, and then the row has each field as the mask decides and every other column as it was; a miss is reported and changes nothing |
| `Zones.NormalizeZones` | internal/apps/kacho/api/loadbalancer/zones.go:54-74 | The loop computes the specification |
| `Zones.NormalizeIsASet` | internal/apps/kacho/api/loadbalancer/zones.go:54-74 | No duplicates, no empty name, and otherwise the same zones |
| `Zones.NormalizeKeepsOrder` | internal/apps/kacho/api/loadbalancer/zones.go:54-74 | The names stay in the order of their first occurrences |
| `Zones.NormalizeIdempotent` | internal/apps/kacho/api/loadbalancer/zones.go:54-74 | Normalizing again changes nothing |
| `Zones.CheckDisabledAnnounceZones` | internal/apps/kacho/api/loadbalancer/zones.go:18-51 | Accepts exactly the empty list, or a REGIONAL one that is a strict subset of the region's zones; a listing error is passed on |
| `Zones.ListZoneIDsInRegion` | internal/clients/geo/zone_client.go:89-126 | The paging loop returns the listing of the specification: the region's zones over all pages in order, or the error |
| `Zones.PagingDoesNotMatter` | internal/clients/geo/zone_client.go:94-125 | One catalogue served in pages of any two lists of sizes gives the loop the same listing: the region's zones, all of them |
| `Zones.AllowedIsStrict` | internal/apps/kacho/api/loadbalancer/zones.go:18-51 | Whatever the paging, a drained list passes the check exactly when it is strict in the catalogue, unless the service fails |
| `PageToken.PageTokenRoundTrip` | internal/repo/kacho/pg/errors.go:105-132 | decode(encode(t, id)) is (t, id), for every id even with NULs, if and only if the year is 0 to 9999; other years give a malformed timestamp |
| `PageToken.Base64RoundTrip` | internal/repo/kacho/pg/errors.go:105-132 | Unpadded base64url decodes to the bytes it encodes |
| `PageToken.ParseBack` | internal/repo/kacho/pg/errors.go:105-132 | The trimmed-fraction text of a four-digit year parses back |
| `PageToken.EmptyTokenIsStart` | internal/repo/kacho/pg/errors.go:105-132 | Only the zero cursor has the empty token |
| `PageToken.TokensDiffer` | internal/repo/kacho/pg/errors.go:105-132 | Different cursors have different tokens |
| `PageToken.TokenIsUrlSafe` | internal/repo/kacho/pg/errors.go:105-132 | A token has letters, digits, dashes and underscores only |
| `PageToken.StandardVectors` | internal/repo/kacho/pg/errors.go:105-132 | The encoding gives the test vectors of section 10 of RFC 4648 |
| `PageToken.StandardText` | internal/repo/kacho/pg/errors.go:105-132 | The timestamp text of the first example of section 5.8 of RFC 3339 |
| `Paging.List` | internal/repo/kacho/pg/load_balancer_repo.go:120-193 | The list call from token to token: the checks in their order, the page of the specification, and the token of its last row |
| `Paging.FollowingTokensIsComplete` | internal/repo/kacho/pg/load_balancer_repo.go:120-193 | Following the tokens the server printed gives exactly the filtered rows of a fixed table, in order, whatever the page size, when every key survives its token |
| `Paging.TokenExact` | internal/repo/kacho/pg/errors.go:105-132 | A key survives its token if and only if its year is 0 to 9999 and it is not the zero cursor |
| `Paging.OtherYearStopsTheWalk` | internal/repo/kacho/pg/errors.go:105-132 | The token of a row of another year is refused by every further call |
| `Paging.WalkIsComplete` | internal/repo/kacho/pg/load_balancer_repo.go:120-193 | The same on cursors: the walk ends and joins to exactly the filtered rows in order; no cursor is printed if and only if no rows remain |
| `Paging.WalkNeverRepeats` | internal/repo/kacho/pg/target_group_repo.go:139-205 | With any changes between the pages no row is returned twice |
| `Paging.WalkMissesNothing` | internal/repo/kacho/pg/listener_repo.go:91-162 | And a finished walk has every row that was there, and selected, throughout |
| `Paging.PageSizeInRange` | internal/repo/kacho/pg/errors.go:135-150 | Accepted sizes are 0 to 1000; 0 means 50 and any other is itself |
| `Paging.PageFills` | internal/repo/kacho/pg/load_balancer_repo.go:120-193 | The call is refused exactly for a size out of range or, unless nothing is allowed, a token that does not decode; otherwise every row returned is in the table, matches the filter and lies past the token, there are as many as asked for or all there are, and a token comes only with a full page |
| `Lifecycle.ExactlyOnceInOrder` | internal/apps/kacho/api/internal_lifecycle/handler.go:147-238 | Across batches, wake-ups, failed sends and reconnects a client that caught up has every event of its kinds after its start exactly once in order, if sequence numbers become visible in order |
| `Lifecycle.GapExact` | internal/repo/kacho/pg/lifecycle_feed.go:68-104 | A gap opens exactly when a wanted row becomes visible behind the last event sent |
| `Lifecycle.ReceivedInOrder` | internal/apps/kacho/api/internal_lifecycle/handler.go:195-238 | In any run the client gets no event twice or out of order |
| `Lifecycle.EventIdRoundTrip` | internal/apps/kacho/api/internal_lifecycle/handler.go:276-288 | The decimal id parses back if and only if it fits 64 bits |
| `Lifecycle.EventIdInRange` | internal/apps/kacho/api/internal_lifecycle/handler.go:276-288 | An accepted id is a cursor |
| `LifecycleStream.Stream.StreamSince` | internal/apps/kacho/api/internal_lifecycle/handler.go:195-238 | The batch loop is a run of the stream: its first rounds are full batches of 100, wholly sent, one query each, and the next round decides: an error exactly for a failed query or a send cut short, success when the context ended or the batch was short, and then nothing wanted is left behind the cursor |
| `LifecycleStream.Stream.WaitAndStream` | internal/apps/kacho/api/internal_lifecycle/handler.go:147-188 | Every notification and idle timeout leads to a new read; unavailable exactly when the connection is lost, a graceful end exactly when the client goes |
| `LifecycleStream.Stream.SendBatch` | internal/apps/kacho/api/internal_lifecycle/handler.go:195-238 | One query and its sends up to the first that fails: what was sent is in flight and the cursor is at the last event sent |
| `LifecycleStream.Stream.EventsSince` | internal/repo/kacho/pg/lifecycle_feed.go:68-104 | The next rows after the cursor, in order, at most a batch |
| `LifecycleStream.Stream.Subscribe` | internal/apps/kacho/api/internal_lifecycle/handler.go:99-187 | Invalid argument exactly for a bad kind or id, exhausted exactly when all slots are taken, unavailable when the feed does not open, each before anything happens; every other path is a run from one resume to one break with the slot given back, whose error has its reason in a lost connection, a failed query or a send cut short, and which otherwise read again after every wake-up |
| `LifecycleStream.Semaphore.TryAcquire` | internal/apps/kacho/api/internal_lifecycle/semaphore.go:33-40 | A slot is taken exactly when one is free, and never more than the capacity |
| `DecisionCache.FGAFilter.Look` | internal/authzfilter/filter.go:164-183 | A hit, exactly when an unexpired entry has the key, says what an answer given for a query with the same key, no longer than the time to live ago, means: its ids in order and nothing else, empty exactly for an empty list, bypass exactly for a wildcard; only the expired entry of that key is removed |
| `DecisionCache.FGAFilter.Learn` | internal/authzfilter/filter.go:191-227 | An answer is returned as what it means and stored until its time to live ends; errors and fail-open results are never stored |
| `DecisionCache.FGAFilter.GetCache` | internal/authzfilter/filter.go:233-251 | An expired entry is removed, a live one returned |
| `DecisionCache.FGAFilter.PutCache` | internal/authzfilter/filter.go:253-263 | The bound holds; besides the stored key at most one entry goes, and only from a full cache |
| `DecisionCache.FGAFilter.Invalidate` | internal/authzfilter/filter.go:273-282 | Exactly the keys with the subject's prefix go |
| `DecisionCache.HitIsOwnAnswer` | internal/authzfilter/filter.go:229-231 | Whatever was stored before, every hit is an answer to the very query if and only if no bar of the asking query can be read as a separator |
| `DecisionCache.TwinExact` | internal/authzfilter/filter.go:229-231 | Another query has the same key if and only if the subject, the type or the action contains a bar |
| `DecisionCache.AskableTwinExact` | internal/authzfilter/filter.go:229-231 | Among the queries with all three parts, which alone are stored, it does if and only if a bar of the query can be read as a separator with something on both its sides |
| `DecisionCache.KeysDiffer` | internal/authzfilter/filter.go:229-231 | Keys are injective on queries whose subject and type have no bar |
| `DecisionCache.PrefixIsSubject` | internal/authzfilter/filter.go:273-282 | The invalidation prefix of a subject without a bar fits exactly the keys of that subject, among subjects without one |
| `DecisionCache.PrefixExact` | internal/authzfilter/filter.go:273-282 | And it does so for the subjects without a bar and for no other |
| `DecisionCache.InvalidateForgets` | internal/authzfilter/filter.go:273-282 | With no call in flight exactly the subject's answers are forgotten |
| `DecisionCache.InFlightAnswerSurvives` | internal/authzfilter/filter.go:164-213 | With a call in flight its answer is stored after the invalidation |
| `DecisionCache.SortedIsSorted` | internal/authzfilter/filter.go:204-205 | The sort of a decision's ids: ascending, and the answer's ids each as often |
| `DecisionCache.DecideMeans` | internal/authzfilter/filter.go:191-213 | What the filter makes of an answer: a wildcard bypasses, a list allows exactly its ids in order and is empty exactly when it has none, and neither is a fail-open |
| `FgaOutbox.ReplayNamesCurrentProject` | internal/apps/kacho/api/loadbalancer/move.go:181-221 | Replaying the outbox gives one project tuple, naming the current project, for each completed resource that exists, and none for others, when no Move or Delete overlaps a Move of the resource |
| `FgaOutbox.StepExact` | internal/apps/kacho/api/loadbalancer/payloads.go:55-85 | Step by step: the links stay exact if and only if a Move commits on a completed row still in its source (or already in its destination) project, a Delete knows the current project, and labels change on a completed row |
| `FgaOutbox.ExactRun` | internal/apps/kacho/api/targetgroup/create.go:212-260 | Over every run of such steps |
| `FgaOutbox.MirrorIsFresh` | internal/apps/kacho/api/loadbalancer/payloads.go:72-86 | In every run, overlapping operations or not, a completed resource was last registered with the labels and the project its row has now |
| `FgaOutbox.CreatorExact` | internal/apps/kacho/api/loadbalancer/delete.go:24-36 | In every run a creator's tuple replays if and only if that principal's creation of the resource completed: moves, label updates and deletions leave it |
| `FgaOutbox.EventsTellWhatIsThere` | internal/apps/kacho/api/loadbalancer/create.go:507-540 | In every run the last CREATED or DELETED event of a resource is a CREATED if and only if the resource is there and completed |
| `FgaOutbox.MovedOrphanKeepsLink` | internal/apps/kacho/api/loadbalancer/move.go:181-221 | A Move of a balancer in creation whose orphan is removed leaves a tuple for a resource that does not exist |
| `FgaOutbox.OverlappingMovesLinkTwice` | internal/apps/kacho/api/loadbalancer/move.go:181-221 | Two overlapping Moves leave two project tuples |
| `FgaOutbox.ProjectTuplesDiffer` | internal/domain/fga_intent.go:144-169 | A project tuple names one resource and one project |
| `FgaOutbox.Store.DoMove` | internal/apps/kacho/api/targetgroup/move.go:189-229 | One transaction from staged writes, nothing on any error: the row in the destination, MOVED from source to destination, UPDATED, the destination's registration with the row's labels and the source's unregistration; if the links were exact they stay so exactly when the move is sound, and then the destination's tuple is the one that replays |
| `FgaOutbox.Store.DoCreateGroup` | internal/apps/kacho/api/targetgroup/create.go:141-185 | The row, CREATED and the registration, with the creator's admin tuple exactly for a named principal that is not the system; exact links stay exact with one for the new group |
| `FgaOutbox.Store.DoDelete` | internal/apps/kacho/api/loadbalancer/delete.go:177-201 | The row goes with DELETED and the unregistration of the project the request read; exact links stay exact, and no tuple of the resource replays, exactly when the request knew the project of a completed row |
| `FgaOutbox.Store.EmitReconcileFinalize` | internal/apps/kacho/jobs/free_ip_runner.go:386-422 | The row goes with DELETED and the unregistration of the claimed row's own project: exact links always stay exact, with none for the balancer |

## Left out

- Protobuf mapping, gRPC handlers, configuration, TLS, metrics, health, the migrator: plumbing.
- The operations library, the register drainer and the IAM side of the outbox are not part of this model; replay is in commit order.
- Listener virtual IPs (a legacy release path) and listener tuples, of which Delete unregisters only the parent link.
- Load balancers in creation that have children: the runner's row delete then fails, which the queue counts as a claim without a result.
- Text of errors, name and label syntax, peer validation of targets, permission tables, id generation.
- The queue, the row locks, the targets and the saga are separate machines: the saga lets the runner remove a row whatever its children, and the row-lock model has no virtual IPs.
- RowLockWriters.Database.AwaitLb: how long a writer waits for a row is an input; when it runs out the writer rolls back, as on a cancelled context or a deadlock.
- RowLocks: listener row locks are not modelled; a cascade and a listener's deletion commute, so their order does not matter. Deadlocks end in an abort.
- PageToken.DecodePageToken: only RFC 3339 text in UTC is parsed; the library's more lenient fallbacks (other offsets, one-digit hours) accept tokens that encodePageToken never makes.
- Paging: ids are ordered by their bytes, as the database's collation is not known; the proofs need a strict order only. The list calls of the three resources have the same shape, and one stands for all.
- LifecycleStream.Stream.StreamSince: the number of rounds is bounded by the end of the client's context, which ends the last one.
- FreeIpRunner.Runner: what a claimed row names is an input of the round; what the calls do to the addresses is in the saga.
- DecisionCache: ids are numbers, of which only the order matters; times are numbers.
- Zones.ListZoneIDsInRegion: the retry inside one page is the page's result; a service that never ends its listing is not modelled; page tokens are the order of the replies.
- Updates: the mirror intent of a label update is in FgaOutbox; columns other writers change are one value; the domain rules are one predicate on the record.
