# Verified models of the preview platform and its access control

This project models the parts of the repository whose correctness is hardest to see by reading one function at a time,
and proves what they keep over all inputs and all runs. `dafny verify dfyconfig.toml` checks everything.

**The preview lifecycle** (`internal/platform/store.go`, `runner.go`, the outbox in `api.go`). `Lifecycle` holds every
transaction as a function from state to state; `LifecycleStore` performs them in place on mutable maps and is proved
against those functions; `WorkerLoop` does the same for the worker. `LifecycleInvariant` and `LifecycleSteps` prove one
invariant over all transactions, `Effects` reduces the calls and the turns of reconciliation to the few things they can
do, `Platform` and `PlatformProofs` extend the invariant to the machine in which API calls, ticks, phase callbacks, driver
results, shutdowns and crashes interleave, and `Runs`, `Histories`, `Outcomes`, `Quota`, `Leases`, `Drivers`, `Trail` and
`LifecycleLoops` draw the conclusions about whole runs. `Access`, `Answers` and `Ticks` say from the outside what calls and
ticks leave and when calls succeed. `Keys` returns to real strings for the two composite keys.

**The approval policy** (`policy/engine.go`, `policy/load.go`, `infra/teleport/src/policy/render.ts`, the decision in
`broker/service.go`). `Policy` is the interpreter as functions, `PolicyEngine` the engine with its loops, cache and
replacement, `PolicyMatching` when a rule matches and what is decided then, field by field, `PolicyProofs` and `PolicyTime`
what holds for every policy, `PolicyRender` the compiler from the role catalog and the meaning of its output for every
catalog and request, `PolicyLimits` how long a grant under it may last.

**Bounded, expiring memories**: `Assertion` (signed assertions and their replay memory), `ReplayCache` (Google Chat event
ids), and the notification leases in `Leases`. **Two small machines**: `PhaseWriter` and `Transcript`.

## What the proofs found

- The preview quota is not an invariant. A confirmation asked for while an environment is being deleted survives its
  deletion, and `Delete` does not look at the status again; the reopened environment is not counted. `Quota` proves that
  every reopening uses such a late confirmation, that each costs one place, that a run without late confirmations keeps the
  quota, and that every run to a full platform with a finished cleanup extends to one that exceeds it.
- The idempotency text `subject:create:key` can coincide for two subjects even when neither contains `:create:`.
- The lifetime check of an assertion multiplies in 64 bits. Lifetimes beyond 9,223,372,036 seconds wrap and can pass;
  exactly those assertions can be accepted again after the replay window.
- A catalog without a low tier compiles to a policy that approves every catalog role automatically for up to two hours,
  because the engine ignores an empty roles clause. A catalog without a high tier compiles to a policy the engine refuses,
  and one without any role to an allow-list the engine skips.
- A grant can outlast the limit of a role it is for in three ways: a request for both tiers waits with the general eight
  hours; a low-tier request that asks for longer than the cap waits with all it asks for, up to eight hours; without a low
  tier a high role is approved for two hours. `PolicyLimits` has the exact condition.
- The cap of a tier is not always its shortest limit: one written in another form than hours or minutes alone is ranked at
  99 hours. `PolicyLimits` has the exact condition here too.
- The time granted can depend on the order of the same roles: the first that needs approval alone decides it, not the
  strictest. `PolicyTime` proves exactly when every order gives the same time.
- The bound on severity in the engine needs no validation of the policy.

## Assumptions

Identifiers drawn by `id()` never repeat. The clock never goes back. The configuration is fixed and valid: 0 < ttl <=
maxTTL, warmTarget > 0, maxPreviews >= 1 (`internal/platform/config.go:95`). A crash kills the driver runs; the process
that ends after a shutdown, drained or not, is the same event. A transaction
is atomic and a refused one leaves no trace. Goroutines and channels appear as events: a run returns, a result is
received; a driver that is cancelled still returns a result in its own time.

Parameters stand for what the models only call: name, image and revision patterns, addresses and timestamps as text, role
patterns (`Matcher.compile`, uninterpreted except that a plain catalog name matches itself only), label and trait
matching, signature checks, decoding and UUID parsing. The order of Go's map iteration is arbitrary wherever it occurs.

## Model

| member | source | states |
|---|---|---|
| `Runs.Reachable` | internal/platform/store.go:157-550 | the platform's invariant (one current operation per live environment, mirrored statuses, ordered times, no stale notices, exact worker bookkeeping) holds in every state of every run: API calls, ticks, driver reports, results, shutdowns and crashes in any order |
| `Runs.OneDriverPerEnvironment` | internal/platform/runner.go:104-134 | in every reachable state the outstanding driver runs are on different environments and number at most MaxPreviews |
| `Runs.StartsAlone` | internal/platform/runner.go:112-134 | when an operation is claimed no driver run is left on its environment, so a destroy never starts before the run of the deploy it superseded has returned |
| `Runs.BookkeepingIsExact` | internal/platform/runner.go:81-102 | between worker steps an operation is running exactly when it is in `active` (or its result is being recorded) and not superseded; an entry of `active` owns one outstanding run or one buffered result, never both, and nothing else is outstanding |
| `Runs.SendNeverBlocks` | internal/platform/runner.go:82-133 | a driver run that returns always finds room in the result channel |
| `Drivers.TheLoopGoesOn` | internal/platform/runner.go:69-134 | the worker never deadlocks: in every reachable state a tick that has begun can go on, a result received can be recorded, and a shutdown that waits has a result to receive or a run that can send one |
| `Runs.DrainReceivesEveryResult` | internal/platform/runner.go:85-92 | after a shutdown with n active entries the worker stays draining, has received n minus what is left, and nothing is left exactly when no run is out and no result is buffered |
| `Runs.ScanCancelsTheSuperseded` | internal/platform/runner.go:112-118 | a tick leaves cancelled exactly the drivers whose operation has been superseded |
| `Runs.RunEvolves` | internal/platform/store.go:195-550 | between any two moments of a run records only evolve: terminal operations never change, generations never fall, an environment at one generation changes only its status, a notice once delivered or cancelled stays so, idempotency records stay |
| `Drivers.ResultIsRecorded` | internal/platform/runner.go:97-134 | what a driver run returns is what is recorded of its operation, unless the process dies first: failed with that failure, or succeeded, with the environment to match; nothing if it was superseded meanwhile |
| `Drivers.OutcomeWasReturned` | internal/platform/runner.go:97-134 | conversely, an operation ends as succeeded only if its run returned without a failure since the last crash, and as failed only with the failure it returned |
| `Drivers.MilestoneIsRecorded` | internal/platform/store.go:491-505 | a milestone is recorded with its time for a running operation and refused otherwise; nothing else changes |
| `Drivers.PhaseIsLastReported` | internal/platform/store.go:474-505 | a running operation shows the last milestone that its current attempt has reported |
| `Drivers.TimingWasReported` | internal/platform/store.go:491-505 | every recorded timing is the time of a report of that milestone by that run |
| `Drivers.ClaimIsRecorded` | internal/platform/store.go:474-485 | a claim makes the operation running with one attempt more, keeps the time of its first start, and starts its driver on that record |
| `Drivers.TicksFillTheSlots` | internal/platform/runner.go:119-134 | a tick ends with every slot taken, or with nothing queued but for environments that have a driver |
| `Drivers.WaitsAgain` | internal/platform/runner.go:97-134 | a full tick, a tick with nothing left to claim and a recorded result leave the worker waiting, its bookkeeping as it was |
| `Drivers.ShutdownCancels` | internal/platform/runner.go:85-88 | a shutdown cancels every driver and touches neither the store nor the outstanding runs |
| `Drivers.StartRequeues` | internal/platform/store.go:440-451 | a start puts exactly what was running back in the queue, marked as recovering, and changes nothing else |
| `Runs.ConfirmationStaysGone` | internal/platform/store.go:323-364 | a confirmation that has been used or has expired away never comes back |
| `Histories.VersionedRaises` | internal/platform/store.go:279-397 | a successful extend or redeploy named the environment's generation and raises it by one |
| `Histories.DeleteChecks` | internal/platform/store.go:352-360 | a successful delete had an unexpired confirmation for its caller, its environment and the current generation, consumes it and raises the generation by one |
| `Histories.CreateRaises` | internal/platform/store.go:247-275 | a create that makes an operation raises its environment's generation |
| `Histories.ReconcileRaises` | internal/platform/store.go:411-428 | a turn of the reconciliation loop raises its environment's generation by one exactly when it queues a cleanup, at expiry or for a retry, and leaves every other environment's record alone |
| `Histories.NoVersionIsUsedTwice` | internal/platform/store.go:292-396 | over a run no two successful extends or redeploys of an environment carry the same expected generation |
| `Histories.ConfirmationWorksOnce` | internal/platform/store.go:352-363 | a confirmation that deleted something is refused by every later delete of the run, whatever it targets |
| `Histories.DeleteSeesWhatWasConfirmed` | internal/platform/store.go:323-364 | a delete that succeeds destroys what its confirmation was issued for: the same caller and environment, with owner, team, image, revision, expiry and generation unchanged since |
| `Histories.ConfirmationWasIssued` | internal/platform/store.go:323-341 | every confirmation on record was issued by an earlier call of the run that obtained it, and is as it was then |
| `Histories.CreatedOnce` | internal/platform/store.go:237-276 | after a create made an operation under an idempotency key, every later create under that key changes nothing; it returns that operation, however far it has got, for the same request and conflicts for another |
| `Histories.TerminalIsFinal` | internal/platform/store.go:365-371 | a succeeded, failed or superseded operation never changes again |
| `Histories.CrashLosesNoWork` | internal/platform/store.go:440-451 | a crash leaves the durable state as it is, and after the next start every live operation is queued and eligible to be claimed |
| `Outcomes.StatusMirrorsOperation` | internal/platform/store.go:440-550 | in every reachable state a live operation is its environment's current one and carries its generation, and an environment's status is the function of its current operation's action and status; so the checks for a stale operation never fire |
| `Outcomes.WorkEndsByResultOrSupersession` | internal/platform/store.go:365-371 | a queued or running operation stops being live only because the worker records its result or because a later generation of its environment supersedes it |
| `Outcomes.ClaimIsEarliest` | internal/platform/store.go:453-490 | if any queued operation is on an environment without a driver the claim succeeds, and it takes one requested no later than any of these |
| `Drivers.ClaimsExactly` | internal/platform/store.go:453-490 | with a slot free, an operation can be claimed if and only if it is queued, no driver works on its environment and no other such operation was requested earlier; finding nothing is possible if and only if there is none |
| `Outcomes.TimesAreOrdered` | internal/platform/store.go:474-520 | across crashes and repeated claims requested <= started <= every milestone <= finished <= now, and the end is recorded exactly for terminal operations |
| `Outcomes.AttemptCountsClaims` | internal/platform/store.go:475-481 | an operation's attempt number is the number of times the run has claimed it |
| `Outcomes.NoticesAreCurrent` | internal/platform/store.go:181-194 | a notice that can still be delivered is never stale: outcome notices name the current operation and agree with its result and the environment's status, late notices a live current operation, expiry notices the current expiry of an environment not being deleted |
| `Outcomes.FinishLeavesOneNotice` | internal/platform/store.go:519-549 | recording a result leaves exactly one deliverable notice for the environment, the one for that result |
| `Outcomes.ExpiryIsBounded` | internal/platform/store.go:266-303 | in every reachable state an environment expires no later than createdAt + maxTTL |
| `Histories.LinkCodeWorksOnce` | internal/platform/api.go:408-417 | a link code that linked an account is refused by every later redemption of the run |
| `Access.CallsTouchOneEnvironment` | internal/platform/store.go:214-397 | a call leaves every environment it does not name alone, with its operations and its notices |
| `Access.ChangesNeedWriteAccess` | internal/platform/store.go:175-177 | an environment's record changes through a call only if the caller is an administrator or the developer who owns it, creating over a deleted environment included |
| `Access.CreateMakes` | internal/platform/store.go:247-275 | the records after a create that makes an operation, in full: the environment, one generation above the deleted one; its queued deployment, the only operation under way; the request under its key; the audit entry |
| `Access.ExtendMakes` | internal/platform/store.go:296-320 | the records after an extension, in full: the expiry moved by the minutes asked for from the old one or from now, a deployment under way at the new generation, the old expiry notices withdrawn, the audit entry; nothing else |
| `Access.RedeployMakes` | internal/platform/store.go:377-395 | the records after a redeploy, in full: revision and image changed and owner, team, creation and expiry kept; the operation under way superseded by a queued deployment, undelivered notices withdrawn; the audit entry |
| `Access.DeleteMakes` | internal/platform/store.go:344-362 | the records after a delete, in full: the environment kept but for status, generation and current operation; the operation under way superseded by a queued destroy, undelivered notices withdrawn; the confirmation used; the audit entry |
| `Answers.CreateAnswer` | internal/platform/store.go:214-275 | a create under a new key succeeds if and only if the request is well formed and for a preview, the caller may make it for that team, the name is free or given up by the caller, and the quota is not used up; what each refusal means |
| `Answers.ExtendAnswer` | internal/platform/store.go:279-303 | an extension succeeds if and only if it is for a minute to a week, names the current generation of an environment of the caller's that is not being deleted, and ends after now and within the permitted lifetime; what each refusal means |
| `Answers.RedeployAnswer` | internal/platform/store.go:372-385 | a redeploy succeeds if and only if revision and image are well formed and it names the current generation of an environment of the caller's that is not being deleted; what each refusal means |
| `Answers.ConfirmAnswer` | internal/platform/store.go:323-341 | a confirmation is given exactly to whoever may change an environment that is not deleted, for five minutes, for that caller, environment and generation |
| `Answers.ConfirmedDeleteSucceeds` | internal/platform/store.go:342-364 | whoever may change the environment and was given a confirmation for it at this generation less than five minutes ago, not used since, does delete it, whatever its status |
| `Answers.DeleteAnswer` | internal/platform/store.go:342-364 | a delete succeeds if and only if the caller may change the environment and an earlier call of the run gave them such a confirmation |
| `Answers.DeleteRefusal` | internal/platform/store.go:342-355 | a delete is refused as not found or forbidden exactly for a missing environment or a caller who may not change it, otherwise as a conflict, and then changes nothing |
| `Answers.LinkCodeWasDrawn` | internal/platform/api.go:197-202 | every link code on record was drawn by an earlier call of the run, and is as it was then |
| `Answers.DrawnCodeLinks` | internal/platform/api.go:396-419 | a code drawn less than five minutes ago and not redeemed since links the account named to whoever drew it, and is used up; no other link changes |
| `Answers.RedeemAnswer` | internal/platform/api.go:396-419 | a redemption succeeds if and only if it names an account in full on a known channel and an earlier call of the run drew the code; otherwise it changes nothing |
| `Trail.TrailIsExact` | internal/platform/store.go:178-203 | in every reachable state the audit trail has as many entries for an action queued by someone on an environment at a time as operations were queued so, and as many for an outcome as operations ended so |
| `Trail.TrailOnlyGrows` | internal/platform/store.go:178-180 | over any run entries are only added, at the end |
| `Quota.QuotaKeptExactly` | internal/platform/store.go:257-265 | a step from a state within the quota stays within it if and only if it is not a delete of an already deleted environment while the quota is full |
| `Quota.QuotaAlongRuns` | internal/platform/store.go:257-265 | along every run the number of environments not deleted is at most MaxPreviews plus the number of such reopenings, hence within MaxPreviews when there are none |
| `Quota.ReopeningWasConfirmedLate` | internal/platform/store.go:333-360 | every delete of an already deleted environment uses a confirmation asked for earlier in the run by the same caller, who may write to it, while the environment was being deleted |
| `Quota.QuotaWithoutLateConfirmations` | internal/platform/store.go:257-341 | along every run in which nobody who may write confirms the deletion of an environment that is being deleted, the quota is kept |
| `Quota.FourTransactions` | internal/platform/store.go:333-357 | from any full state with a cleanup running, four accepted calls end one environment over the quota: confirm again, by anyone who may write to it; let the cleanup succeed; create, by anyone who may; delete again |
| `Quota.ReopeningExceedsTheQuota` | internal/platform/store.go:333-357 | every run to a full state in which the worker has just received the success of a cleanup extends, by these four as events of the machine, to a run that exceeds the quota |
| `Leases.AttemptsCountLeases` | internal/platform/api.go:448-474 | a notice's attempts are the number of times the run leased it, whatever else happens to it |
| `Leases.LeasesAreSpaced` | internal/platform/api.go:466-468 | lease m of a notice comes at least Span(m) minutes after its first, which is 62 + 60(m - 6) for m >= 6, in any run |
| `Leases.NextLeaseWaits` | internal/platform/api.go:466-468 | between any two leases of a notice at least the backoff of the earlier one passes |
| `Leases.SpanInHours` | internal/platform/api.go:467 | the backoffs min(60, 2^min(j, 6)) minutes of the leases before the m-th sum to 62 + 60(m - 6) |
| `Leases.NeverLeasedAgain` | internal/platform/api.go:450-453 | an acknowledged or cancelled notice is never leased again in the run, and one call leases at most twenty |
| `Leases.LeaseExactly` | internal/platform/api.go:448-475 | a lease hands out only notices that are undelivered, not withdrawn, due, and owned by a known subject with a linked account, at most twenty, and all of them if they are fewer; each is put off by 2, 4, 8, 16, 32 and then 60 minutes; nothing else changes |
| `Leases.LeasesPossible` | internal/platform/api.go:448-475 | a set of notices can be leased if and only if all are due, at most twenty, and fewer only if they are all that are due |
| `Leases.AcknowledgementIsRecorded` | internal/platform/api.go:500-508 | an acknowledgement marks its notice delivered, and no other notice or record changes |
| `Leases.AcknowledgedForGood` | internal/platform/api.go:500-508 | an acknowledged notice stays delivered for the rest of the run and no later event leases it |
| `Effects.CallEffect` | internal/platform/store.go:214-397 | each call on an environment does one of a few things, to the environment it names: nothing, change the record in place, or end the current operation and queue one new |
| `Effects.TurnEffect` | internal/platform/store.go:411-436 | so does each turn of reconciliation, which queues a cleanup or adds notices |
| `LifecycleLoops.ReconcileAchieves` | internal/platform/store.go:398-439 | after reconciliation nothing is left to do for any environment, no expired environment is outside deleting or deleted, and no expired confirmation or link code remains |
| `LifecycleLoops.ReconcileIsIdempotent` | internal/platform/store.go:398-439 | reconciling again at the same instant, in any order, changes nothing |
| `LifecycleLoops.ReconcileOrderIrrelevant` | internal/platform/store.go:411-436 | any two orders of visiting the environments give the same state, with the same audit entries up to order |
| `LifecycleLoops.TurnsCommute` | internal/platform/store.go:411-436 | the turns of two environments in the reconciliation loop commute |
| `Ticks.TickOnEnvironment` | internal/platform/store.go:411-428 | a tick turns exactly the environments past their expiry, or whose last cleanup failed an hour ago or more, over to a new cleanup, and leaves every other record as it is |
| `Ticks.TickOnOperation` | internal/platform/store.go:411-428 | it supersedes exactly the live operations of those environments, and the only new operations are the cleanups |
| `Ticks.TickOnNotice` | internal/platform/store.go:429-436 | it adds exactly the missing notices that are due, five minutes or less before an expiry or once a warm deployment is later than its target, and withdraws exactly the undelivered ones of the environments it turns over |
| `Ticks.TickOnCodes` | internal/platform/store.go:401-410 | it drops exactly the confirmations and link codes whose time has come |
| `LifecycleSteps.CreateInv` | internal/platform/store.go:214-278 | create keeps the invariant, and records only evolve, for every input and every outcome |
| `LifecycleSteps.ExtendInv` | internal/platform/store.go:279-322 | extend keeps the invariant, and records only evolve, for every input and every outcome |
| `LifecycleSteps.ConfirmDeleteInv` | internal/platform/store.go:323-341 | confirm-delete keeps the invariant, and records only evolve, for every input and every outcome |
| `LifecycleSteps.DeleteInv` | internal/platform/store.go:342-364 | delete keeps the invariant, and records only evolve, for every input and every outcome |
| `LifecycleSteps.RedeployInv` | internal/platform/store.go:372-397 | redeploy keeps the invariant, and records only evolve, for every input and every outcome |
| `LifecycleSteps.ReconcileInv` | internal/platform/store.go:398-439 | reconciliation, whatever the order of visits, keeps the invariant, and records only evolve, for every input and every outcome |
| `LifecycleSteps.RecoverInv` | internal/platform/store.go:440-451 | recovery keeps the invariant, and records only evolve, for every input and every outcome |
| `LifecycleSteps.ClaimInv` | internal/platform/store.go:453-490 | a claim keeps the invariant, and records only evolve, for every input and every outcome |
| `LifecycleSteps.PhaseInv` | internal/platform/store.go:491-505 | a phase report keeps the invariant, and records only evolve, for every input and every outcome |
| `LifecycleSteps.FinishInv` | internal/platform/store.go:506-550 | recording a result keeps the invariant, and records only evolve, for every input and every outcome |
| `LifecycleSteps.OutcomeIsNews` | internal/platform/store.go:181-186 | no notice exists yet under the key of a live operation's outcome, so the outcome is never swallowed by an older notice |
| `LifecycleSteps.LeaseInv` | internal/platform/api.go:448-475 | leasing notices keeps the invariant, and records only evolve, for every input and every outcome |
| `LifecycleSteps.AcknowledgeInv` | internal/platform/api.go:500-508 | an acknowledgement keeps the invariant, and records only evolve, for every input and every outcome |
| `PlatformProofs.ClaimKeepsWorker` | internal/platform/runner.go:119-134 | a claim in a tick keeps the drivers on distinct environments and within MaxPreviews |
| `PlatformProofs.FinishKeepsWorker` | internal/platform/runner.go:97-103 | recording a received result leaves no running operation outside the worker's hands |
| `PlatformProofs.MachineStep` | internal/platform/runner.go:69-137 | every event of the platform keeps the invariant of the store and of the worker together |
| `LifecycleStore.Store.Queue` | internal/platform/store.go:195-203 | withdraws the environment's notices, stores a new queued operation as its current one and records it |
| `LifecycleStore.Store.Supersede` | internal/platform/store.go:365-371 | ends a live operation and leaves any other alone |
| `LifecycleStore.Store.Create` | internal/platform/store.go:214-278 | updates the maps in place as the function Create says, returning its result; a refusal changes nothing |
| `LifecycleStore.Store.Extend` | internal/platform/store.go:279-322 | moves the expiry, generation and in-flight operation in place and withdraws expiry notices, or changes nothing |
| `LifecycleStore.Store.ConfirmDelete` | internal/platform/store.go:323-341 | records a confirmation bound to caller, environment and generation, or changes nothing |
| `LifecycleStore.Store.Delete` | internal/platform/store.go:342-364 | consumes the confirmation, supersedes and queues a destroy in place, or changes nothing |
| `LifecycleStore.Store.Redeploy` | internal/platform/store.go:372-397 | supersedes and queues a deploy of the new image in place, or changes nothing |
| `LifecycleStore.Store.Reconcile` | internal/platform/store.go:398-439 | one pass over all environments in the order its loop happened to take, which visits each exactly once |
| `LifecycleStore.Store.Recover` | internal/platform/store.go:440-451 | puts every running operation back in the queue |
| `LifecycleStore.Store.Claim` | internal/platform/store.go:453-490 | sorts the operations by request time and takes an eligible one that was requested earliest, or nothing when none is eligible |
| `LifecycleStore.Store.Phase` | internal/platform/store.go:491-505 | records a milestone of a running operation |
| `LifecycleStore.Store.Finish` | internal/platform/store.go:506-550 | ends the current running operation with its environment, notice and audit entry, or changes nothing |
| `LifecycleStore.Store.MintLinkCode` | internal/platform/api.go:197-202 | stores a code that expires five minutes on |
| `LifecycleStore.Store.Redeem` | internal/platform/api.go:397-419 | consumes an unexpired code and links the account, or changes nothing |
| `LifecycleStore.Store.Lease` | internal/platform/api.go:448-475 | leases due, undelivered, uncancelled notices of known and linked owners, stopping at twenty; fewer than twenty only if there are no others |
| `LifecycleStore.Store.Valid` | internal/platform/api.go:490-491 | true exactly for a notice that is neither delivered nor cancelled |
| `LifecycleStore.Store.Acknowledge` | internal/platform/api.go:500-508 | marks the notice delivered, or reports it missing |
| `WorkerLoop.Runner.Start` | internal/platform/runner.go:69-92 | recovers the store and starts with nothing active |
| `WorkerLoop.Runner.TickReconcile` | internal/platform/runner.go:104-107 | a tick begins by reconciling every environment |
| `WorkerLoop.Runner.TickScan` | internal/platform/runner.go:112-118 | collects the busy environments and cancels the drivers of superseded operations |
| `WorkerLoop.Runner.TickClaim` | internal/platform/runner.go:119-134 | claims one operation whose environment is not busy and starts its driver, or ends the tick |
| `WorkerLoop.Runner.TakeResult` | internal/platform/runner.go:97-100 | receives the oldest result and drops its entry from `active` |
| `WorkerLoop.Runner.FinishResult` | internal/platform/runner.go:101-103 | records the received result in the store |
| `WorkerLoop.Runner.RunReturns` | internal/platform/runner.go:130-133 | a driver run that returns puts its result in the channel |
| `WorkerLoop.Runner.Shutdown` | internal/platform/runner.go:85-88 | cancels every active driver |
| `WorkerLoop.Runner.DrainOne` | internal/platform/runner.go:89-91 | receives one more outstanding result |
| `Keys.NoticeTextInjective` | internal/platform/store.go:182 | kind:environment:operation determines the kind, the environment and the operation, for every valid environment name |
| `Keys.IdempotencyTextCollides` | internal/platform/store.go:238 | two subjects and keys give the same idempotency text if and only if they are equal or one subject continues the other through the mark `:create:`, whole or overlapping it by one colon |
| `Keys.ColonFreeSubjectsAreSafe` | internal/platform/store.go:238 | subjects without a colon never share an idempotency text |
| `Keys.WithoutTheMarkIsNotEnough` | internal/platform/store.go:238 | two subjects that do not contain `:create:` can still share one |
| `PolicyProofs.DenyRulesGrow` | internal/teleportaccess/policy/engine.go:183-230 | a deny rule that matches a request matches every request with more roles |
| `PolicyProofs.OtherRulesShrink` | internal/teleportaccess/policy/engine.go:183-243 | any other rule that matches a request matches every narrower request that still names a role |
| `PolicyProofs.AtLeastEachRoleAlone` | internal/teleportaccess/policy/engine.go:72-128 | under any policy a request is judged at least as severely (deny > require approval > automatic) as each of its roles alone |
| `PolicyProofs.OnlyTheSetOfRolesCounts` | internal/teleportaccess/policy/engine.go:72-128 | the action and the rule it rests on depend only on the set of requested roles |
| `PolicyTime.TimeGranted` | internal/teleportaccess/policy/engine.go:72-128 | the time granted, under any policy: what the rules give the whole request, unless they approve it and a role needs approval alone; then the first such role decides, lowered by the whole request's cap |
| `PolicyTime.SameTimeInEveryOrderIff` | internal/teleportaccess/policy/engine.go:104-126 | under any policy, every reordering of a request is granted the same time if and only if a role is not requestable, the rules do not approve it whole, or all roles that need approval alone would decide the same time |
| `PolicyTime.GrantedTimeDependsOnOrder` | internal/teleportaccess/policy/engine.go:113-126 | a policy that loads, under which the same two roles are granted one hour in one order and two in the other |
| `PolicyProofs.AutoApprovedExactly` | internal/teleportaccess/policy/engine.go:88-127 | a request is approved automatically if and only if every role is requestable, the rules approve it whole and each role alone, and one without roles matched a rule about resources |
| `PolicyProofs.DeniedExactly` | internal/teleportaccess/policy/engine.go:77-127 | a request is denied if and only if a role is not requestable or the rules deny it whole |
| `PolicyProofs.ConfirmNeverDenies` | internal/teleportaccess/policy/engine.go:104-121 | the deny branch of the per-role confirmation is unreachable; what comes out is the first decision or a mixed-tier approval request |
| `PolicyProofs.BrokerExactly` | internal/teleportaccess/broker/service.go:144-164 | while the policy is being replaced, the broker approves on its own if and only if the first policy approves, there is a role, and every policy it reads on the way approves the role it is read for; it denies if and only if one of these verdicts is a denial |
| `PolicyProofs.SecondCheckAgrees` | internal/teleportaccess/broker/service.go:144-164 | under one policy the broker's second check of every role never changes a decision |
| `PolicyMatching.MatchesExactly` | internal/teleportaccess/policy/engine.go:183-219 | a rule matches, in `all` mode, if and only if it has a clause and its roles, resources, traits and time clauses, where there are any, hold; in `any` mode, if and only if one of them does |
| `PolicyMatching.DecidedByRule` | internal/teleportaccess/policy/engine.go:131-178 | the first deny rule whose clauses hold, otherwise the first rule whose clauses hold, gives action, name and reason, its approvers and channels if it has any, and the shortest of the longest grant, its cap and the time asked for |
| `PolicyMatching.DecidedByDefault` | internal/teleportaccess/policy/engine.go:147-160 | when no rule holds the defaults decide, except that they never approve |
| `PolicyMatching.TurnedAway` | internal/teleportaccess/policy/engine.go:77-86 | the first role outside the allow-list turns the request away by name before any rule is read |
| `PolicyMatching.DecidedByFirstNeeding` | internal/teleportaccess/policy/engine.go:88-127 | of a request that the rules approve whole, the first role that needs approval alone decides whom to ask, whom to notify, why and for how long |
| `PolicyMatching.ApprovedExactly` | internal/teleportaccess/policy/engine.go:72-219 | automatic approval, over all policies and requests, in terms of the clauses of the rules that decide on the whole request and on each role alone |
| `PolicyMatching.ApprovedMeetsTheRule` | internal/teleportaccess/policy/engine.go:183-219 | whoever is approved automatically by a rule in `all` mode meets every clause of it: roles, resources, traits and time |
| `PolicyMatching.BrokerNamesTheRole` | internal/teleportaccess/broker/service.go:144-164 | the broker's own check denies for the first role denied alone, and asks for approval naming the last role not approved alone; whom to ask and the time stay those of the approval |
| `PolicyMatching.BrokerWithoutRoles` | internal/teleportaccess/broker/service.go:144-151 | an automatic approval of a request without roles is turned into asking for approval, saying why; whom to ask and the time stay |
| `PolicyMatching.LoadsExactly` | internal/teleportaccess/policy/load.go:34-81 | a policy loads if and only if its defaults do not approve and allow some time, every pattern compiles, and every rule has a clause and a name of its own |
| `PolicyMatching.LoadedPolicies` | internal/teleportaccess/policy/load.go:34-81 | under a policy that loads a rule is known by its name, every pattern compiles, the defaults never approve, and every decision allows some time and at most the longest grant |
| `PolicyEngine.Engine.constructor` | internal/teleportaccess/policy/engine.go:44-46 | a new engine has an empty, hence sound, pattern cache |
| `PolicyEngine.Engine.Replace` | internal/teleportaccess/policy/engine.go:49-54 | swaps the policy and empties the cache |
| `PolicyEngine.Engine.RoleMatches` | internal/teleportaccess/policy/engine.go:245-260 | answers as compiling the pattern afresh would, whatever the cache holds, and keeps the cache sound |
| `PolicyEngine.Engine.AnyRoleMatches` | internal/teleportaccess/policy/engine.go:221-230 | true exactly when some role matches some pattern |
| `PolicyEngine.Engine.AllRolesMatch` | internal/teleportaccess/policy/engine.go:233-243 | true exactly when there is a role and every role matches some pattern |
| `PolicyEngine.Engine.RuleMatches` | internal/teleportaccess/policy/engine.go:183-219 | true exactly when the rule has a clause and all of them, or any in `any` mode, hold |
| `PolicyEngine.Engine.Once` | internal/teleportaccess/policy/engine.go:131-145 | finds the first matching deny rule, otherwise the first matching rule of another action, and decides by it |
| `PolicyEngine.Engine.Decision` | internal/teleportaccess/policy/engine.go:72-128 | computes Evaluate for the policy in force when the call starts, by its loops and cache, though another may replace it during the call |
| `PolicyEngine.Engine.Handle` | internal/teleportaccess/broker/service.go:142-164 | the broker's decision under the policies in force as it goes, which reloads may replace at each evaluation; without a reload it is Evaluate's, and a request without roles is never approved |
| `PolicyRender.DeniedIffOutsideTheCatalog` | infra/teleport/src/policy/render.ts:237-257 | under the policy compiled from any catalog a request is denied if and only if some role is not requestable: outside the catalog, or, for an empty catalog, administrative |
| `PolicyRender.DenialMeansOutsideIff` | infra/teleport/src/policy/render.ts:237-257 | denial means a role outside the catalog, over all requests, if and only if the catalog is not empty or every role is administrative; the engine skips an empty allow-list |
| `PolicyRender.ApprovedIffLowRule` | infra/teleport/src/policy/render.ts:259-263 | for every catalog a request is approved automatically if and only if it names a role, all are requestable, and it meets the low rule: within a positive cap, and all of the low tier if there is one |
| `PolicyRender.ApprovedIffLowTier` | infra/teleport/src/policy/render.ts:259-263 | with a low tier, a request is approved automatically if and only if it names at least one role, all of the low tier, and asks for no longer than the tier's cap; a cap of zero limits nothing |
| `PolicyRender.ApprovedWithoutLowTier` | infra/teleport/src/policy/render.ts:259-263 | without one, it is approved if and only if it names at least one role, all requestable, and asks for at most two hours; in a catalog with roles that is every request for high roles |
| `PolicyRender.OnlyLowTierApprovedIff` | infra/teleport/src/policy/render.ts:237-263 | automatic approval is confined to the low tier, over all requests, if and only if the catalog has a low tier or nothing is requestable |
| `PolicyRender.AcceptedIffHighTier` | internal/teleportaccess/policy/load.go:34-81 | the engine loads the compiled policy if and only if the catalog has a high tier |
| `PolicyRender.ApprovalGoesToTheApprover` | infra/teleport/src/policy/render.ts:249-270 | under a compiled policy approval always goes to the one approver role through the one channel, mentioning the approvers exactly for all-high requests; automatic approvals give the low rule and its reason |
| `PolicyRender.DenialNamesItsGround` | infra/teleport/src/policy/render.ts:245-258 | a denial names a role outside the catalog, or, when the catalog is empty, the administrative rule; it goes to the one approver without mentioning anyone |
| `PolicyLimits.SortPicksFirst` | infra/teleport/src/policy/render.ts:242 | the stable sort by hours puts first the limit of the first role, in catalog order, of those that rank lowest |
| `PolicyLimits.CapIsTheShortestIff` | infra/teleport/src/policy/render.ts:242-278 | over all limits the engine can read, the cap of a tier is at most every role's limit if and only if, where a plain limit is below 99 hours, no limit written another way is shorter than every plain one, and otherwise the first that ranks at 99 hours is as short as any |
| `PolicyLimits.CapIsTheShortest` | infra/teleport/src/policy/render.ts:242-278 | with plain limits only, the cap is the shortest of the tier, and two hours for an empty tier |
| `PolicyLimits.GrantedTimeExactly` | infra/teleport/src/policy/render.ts:249-268 | the longest grant, for every catalog and every request that is not denied: the cap of the rule it meets, otherwise eight hours, and never more than asked for |
| `PolicyLimits.GrantedTimeWithinLimitsIff` | infra/teleport/src/policy/render.ts:249-268 | over all catalogs of plain limits and all requests that are not denied, exactly when the grant is within the limit of every role asked for: all low and within the cap, or all high, or eight hours (or the time asked for, if less) within each limit; without a low tier, more than two hours asked for, or two hours within each limit |
| `PolicyLimits.MixedTiersKeepTheGeneralLimit` | infra/teleport/src/policy/render.ts:249-251 | a request mixing a low and a high role waits for approval with eight hours, whatever the roles' own limits |
| `PolicyLimits.LongLowRequestsKeepWhatTheyAsk` | infra/teleport/src/policy/render.ts:259-263 | a request for one low role that asks for longer than its tier's cap waits for approval with all it asks for, up to eight hours |
| `PolicyLimits.NoLowTierGrantsTwoHours` | infra/teleport/src/policy/render.ts:259-263 | without a low tier a high role asked for alone is approved automatically for two hours, whatever its limit |
| `PolicyLimits.CompoundLimitsAreRankedLast` | infra/teleport/src/policy/render.ts:274-278 | under a compiled policy that loads, a role whose limit is written in another form, such as hours and minutes, is approved for longer than that limit: the sort ranks it at 99 hours, behind a longer plain one |
| `Assertion.AcceptedClaims` | internal/teleportaccess/assertion/assertion.go:136-151 | an accepted assertion is within its window and lives at most 60 seconds, or more than 9,223,372,036 seconds |
| `Assertion.VerifiedExactly` | internal/teleportaccess/assertion/assertion.go:104-157 | the stateless checks pass exactly a header that trims to a body, one dot and a signature by a long enough key, whose claims are for this audience, sound, at most a minute long after wrapping, and in their window |
| `Assertion.ForgedIsRefused` | internal/teleportaccess/assertion/assertion.go:120-128 | a well-formed header whose signature is not the key's is refused as such, whatever it claims |
| `Assertion.AcceptedExactly` | internal/teleportaccess/assertion/assertion.go:104-212 | over any run, the verifier accepts exactly such a header under an id not accepted in the last 300 seconds, while it remembers fewer than 100,000 such ids |
| `Assertion.AcceptedAtSomeTimeIff` | internal/teleportaccess/assertion/assertion.go:136-157 | the claims accepted at some time are exactly those for this audience, with sound subject and id, issued and expiring in that order after the epoch, whose lifetime in nanoseconds is at most a minute after wrapping at 64 bits |
| `Assertion.LongLifetimesWrap` | internal/teleportaccess/assertion/assertion.go:136-157 | the checks accept, at the epoch, a claim that lives for 18,446,744,074 seconds; a header that carries it can be accepted twice |
| `Assertion.MemoryIsBounded` | internal/teleportaccess/assertion/assertion.go:194-212 | remembering an id never takes the memory past 100,000 entries |
| `Assertion.MemoryStaysBounded` | internal/teleportaccess/assertion/assertion.go:177-212 | nor does any run of attempts |
| `Assertion.RememberedForTheWindow` | internal/teleportaccess/assertion/assertion.go:194-212 | an accepted id stays remembered for 300 seconds, whatever is accepted, refused or pruned meanwhile |
| `Assertion.AcceptedAtMostOnce` | internal/teleportaccess/assertion/assertion.go:104-212 | a signed body whose lifetime does not wrap is accepted at most once in any run, however long |
| `Assertion.AcceptedTwiceIff` | internal/teleportaccess/assertion/assertion.go:142-151 | an acceptable assertion can be accepted twice by some run if and only if its claimed lifetime is at least 270 seconds, which only a wrapped product lets through |
| `Assertion.Verifier.RememberId` | internal/teleportaccess/assertion/assertion.go:194-212 | records the id unless it is live or the memory is full of live ids, pruning dead ones only when full |
| `Assertion.Verifier.VerifyAt` | internal/teleportaccess/assertion/assertion.go:182-191 | verifies statelessly, then records; a repeat within the window, or a full memory, is a replay |
| `ReplayCache.Cache.Sweep` | services/access-agent/src/adapters/gchat/index.ts:53-58 | deletes from the oldest up to the first fresh entry |
| `ReplayCache.Cache.SeenBefore` | services/access-agent/src/adapters/gchat/index.ts:45-52 | answers whether a fresh entry for the id is held; otherwise records it and evicts the oldest beyond the limit |
| `ReplayCache.SweepKeepsTheFresh` | services/access-agent/src/adapters/gchat/index.ts:53-58 | in time order the early break deletes exactly what a full scan would |
| `ReplayCache.HeldAfter` | services/access-agent/src/adapters/gchat/index.ts:45-58 | after every call the cache holds exactly the newest `max` of the fresh entries of a log of all ids let through, in order |
| `ReplayCache.SeenIff` | services/access-agent/src/adapters/gchat/index.ts:45-52 | the cache says seen if and only if the log has a fresh entry for the id among its newest `max` |
| `ReplayCache.AgreesIff` | services/access-agent/src/adapters/gchat/index.ts:45-52 | the cache and the log agree on every id if and only if at most `max` entries of the log are fresh |
| `ReplayCache.AnswersAsIfUnbounded` | services/access-agent/src/adapters/gchat/index.ts:45-58 | over a run in which never more than `max` ids are fresh, every answer is that of a memory that never evicts |
| `ReplayCache.AnyClock` | services/access-agent/src/adapters/gchat/index.ts:45-58 | even if the clock goes back, no id is held twice, the limit is kept, an id is seen exactly when the sweep leaves a fresh entry for it, and an id let through is held |
| `PhaseWriter.Writer.Write` | internal/platform/runner.go:53-68 | consumes whole lines, passing known phases to the callback until it refuses one, and keeps the rest |
| `PhaseWriter.FeedConsumesLines` | internal/platform/runner.go:53-68 | a write consumes whole lines, delivers exactly their known phases in order, and stops only at a refusal or at an unfinished line |
| `PhaseWriter.NothingLost` | internal/platform/runner.go:53-68 | over any writes and any refusals, what was delivered followed by the phases still pending are the phases of the whole stream |
| `PhaseWriter.DeliveredExactly` | internal/platform/runner.go:53-68 | after a write that succeeds, the phases on the complete lines of the whole stream have been delivered and the unfinished line is pending |
| `PhaseWriter.ChunkingDoesNotMatter` | internal/platform/runner.go:53-68 | two ways of cutting a stream into writes end the same when the callback refuses nothing |
| `PhaseWriter.PhaseOfExactly` | internal/platform/runner.go:58-61 | a line names a phase exactly when it is the mark followed by one of the three phases |
| `PhaseWriter.LinesRebuild` | internal/platform/runner.go:54-57 | lines and tail are the stream cut at every line end |
| `PhaseWriter.StopsAtTheFirstRefusal` | internal/platform/runner.go:61-64 | a write stops at the first delivery that is refused, and says so |
| `Transcript.Store.Append` | services/access-agent/src/agent/session-store.ts:53-64 | appends and drops the oldest turns, as the function Trim says |
| `Transcript.Store.DropOldest` | services/access-agent/src/agent/session-store.ts:57-61 | the trimming loop ends and returns Trim of what it was given |
| `Transcript.TrimKeepsTheLongestThatFits` | services/access-agent/src/agent/session-store.ts:57-61 | what is kept is the longest part that is whole or starts with what the user typed and fits in maxTurns, or the last such part when none fits; nothing else is |
| `Transcript.TrimKeepsPairs` | services/access-agent/src/agent/session-store.ts:56 | no tool result loses the tool use it answers |
| `Transcript.TrimEarlyOrLate` | services/access-agent/src/agent/session-store.ts:53-64 | trimming before an append changes nothing about what is kept after it |
| `Transcript.HoldsTheTrimmedHistory` | services/access-agent/src/agent/session-store.ts:46-69 | over any appends and clears under any keys, a key holds the trimmed concatenation of what was appended since it was last cleared |

## Left out

- The bbolt file, JSON encoding and HTTP handlers: a transaction is one step, and a request payload is compared as a value.
- `Text` is abstract, so a notice's key is a triple and the key of a linked account is a triple; `Keys` shows that the notice text determines its parts, but the text of an account key (`channel/tenant/user`) is not examined.
- The worker's select loop as one loop: it is modelled arm by arm; which arm is taken next is left to the run, and goroutine and context machinery, including the operation timeout, appears only as a driver returning with or without a failure.
- Liveness: nothing is proved about how soon a tick comes or a driver returns.
- Audit entries written by the HTTP layer for refused calls, the promotion requests and the shell scripts behind a driver run.
- The text of an environment's URL, in either profile, and of formatted instants: parameters.
- The state of a notice across a cancelled expiry (a cancelled notice is never armed again under its key) is kept in the model but no delivery is promised.
- PolicyEngine.Engine.Decision: a replacement during a call comes between the allow-list and the rules, once; more of them, or at other points, are not modelled. The cache's invariant does not mention the policy, so where it is emptied makes no difference to an answer.
- The checks of kind, action names and match modes in loading a policy are met by construction of the types.
- Regular expressions, glob translation, label and trait matching, and the broker's watching, webhooks and request store.
- PolicyLimits.CapIsTheShortestIff: hours are real numbers, so the rounding of minutes to a binary fraction of an hour is not modelled; a limit is a number of hours or minutes, or other text.
- The compiler's role specs, bot roles and the YAML text; the compiled policy is the document the engine reads.
- Base64, JSON and HMAC are parameters of the assertion checks, and the sum of a clock reading and the window does not overflow.
- In the phase writer a byte is a character, and the callback is a verdict on the deliveries so far; its effect on the store is the transaction Phase.
- The file-backed transcript store and the persistence of each append; content blocks other than tool uses and results are opaque.
- Rate limiters, session binding, histograms, the portal, the other chat adapters, Pulumi components and the Python tooling: they add members of the kinds above, easier ones.
