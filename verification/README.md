# Verified model of the leases that own Runpod capacity

Two durable protocols decide who may create, keep and give back billable capacity on
Runpod: the Ollama lease and the Pod capacity lease. This project models both, with the
money and the inventory they rely on, and proves what they promise over every run.

| files | what they model |
|---|---|
| `OllamaLeases`, `OllamaRuns`, `OllamaBackend`, `OllamaService` | the Ollama lease row, its store, its provider and `OllamaLeaseService` |
| `PodLeases`, `PodWrites`, `PodInvariants`, `PodCustody`, `PodRuns`, `PodGuarantees`, `PodCounterexample`, `PodDelivery`, `PodBackend`, `PodService` | the table of Pod leases with evidence, billing, artifact handoff and cleanup families, and `PodCapacityLeaseService` |
| `Decimals`, `DecimalValues`, `CanonicalAmounts`, `BillingAmounts`, `BillingHours`, `PodReceipts`, `EndpointHours` | exact decimal sums, canonical amounts, the two hour readers and the batched one |
| `SpendPlan` | plan selection, accrual, exposure and the cold-start bound |
| `Inventory` | the cursor walk whose result is trusted as proof of absence |
| `Results`, `Sequences` | options, results, the errors, and sequence facts |

## How the protocols are modelled

A protocol is a transition system. Its steps are the writes that the service makes, one
constructor for each call site or family of identical call sites, together with the acts
of the provider: a create that is sent, refused or lands late, a resource that goes, a
bearer that is revoked, an acknowledgement that is dispatched, and what a caller was told:
how a Pod was observed, that it was started, that its worker is healthy. A crash is an actor that
takes no further step. A write is enabled by what its call site knows: facts of the row
it read and facts of the provider that stay true. `OllamaRuns`, `PodRuns` and
`PodGuarantees` prove their theorems over every run of such steps.

The services are classes whose methods follow the source's control flow, and they act
only through a backend object that holds the table, the provider and the clock. Every
backend operation first lets everything else take any steps, and may end in a crash.
The backend's validity says that its state is the last of a run, so each method
is proved against the transition system: a write it is not entitled to make, or a create
that was not admitted with the row, does not verify. Hence the theorems about runs hold
of the services. For the Pod service, `serial` says that the operations on one lease are
serialised; what is proved without mentioning it holds under full interleaving.

## What the proofs found

- A settlement of a catalog lease without provider capacity reads the clock twice
  (`pod_capacity_service.py:1294-1313`, `2173-2195`), and the evidence constructor
  (`pod_capacity_contracts.py:1125-1131`) accepts it only if both readings are equal. The
  error is a `ValueError`, which no reconcile pass catches. `ZeroCostSettlementNeedsOneReading`
  gives the exact condition, `ZeroCostSettlementCanFail` an instance.
- Custody of a catalog Pod needs the operations on a lease to be serialised: the retry
  loop re-applies a settlement meant for a REQUESTED row over a row whose create was since
  admitted. `ReleasedBeforeThePodLands` is that run, for every catalog request.
- A Pod that a claim found running is never asked to stop while operations are serialised
  (`FoundRunningIsNeverStopped`, `SeenRunningIsNeverStopped`); otherwise it can be
  (`FoundRunningMayBeStopped`). A claim
  that has not looked at its Pod has no such protection: a release asks the Pod to stop
  (`ReleaseBeforeDiscoveryStopsThePod`), and so does the reconcile pass after a cancellation
  was requested or the end of a job recorded on a claim that is still REQUESTED
  (`pod_capacity_service.py:721-735`, `756-766`). A pass is careful only with a claim that
  stays REQUESTED until it is stale (`1434-1441`). `StopNeedsAnExit` and
  `StopIsPossibleExactlyIfNotFoundRunning` say exactly which ways out of REQUESTED can end in a
  stop.
- A training lease whose create was admitted and never refused may be released without its
  Pod: it gives the create up after its readiness deadline. `CreatesAreOnlyGivenUp` says that
  this is the only way, and that a catalog lease never does it.
- The receipt constructor's check for a negative cost (`pod_capacity_contracts.py:681-683`)
  never fires in `read_exact_pod_billing`: a complete page has none (`CostIsTheSumOfRecords`).
- `select_ollama_plan` may select an offer at rate zero, which `validate_plan` then
  refuses (`ZeroRateIsSelectedAndRefused`); `SelectedPlanIsAccepted` says that this is the only
  case.
- A plan made after provisioning started need not bound what accrues
  (`LatePlanIsNotBounded`). `CeilingBoundsExactly` gives the exact condition, which every plan
  made no later than the start meets.
- `release(root)` may return normally while a catalog attempt of the family, cleaned up and
  with its Pod halted, still waits for its bill (`FamilyReleaseCanLeaveABillOpen`); the
  contract of `Release` says what each member is left as.
- A catalog lease that was settled but whose bearer could not be revoked is not released by
  any later serialised visit. A settlement brings a receipt dated when it is made, and a row
  with a receipt takes no other (`StoredReceiptIsFinal`). Without a Pod the visit fails and
  leaves the row as it was (`pod_capacity_service.py:1294-1322`); with a Pod the visit stops it
  again, writes that the bill is pending (`1371-1392`) and then either waits for a bill or is
  refused its new one. Both starting points are reachable (`SettlementCanStick`,
  `SettledPodCanStayUnrevoked`), and the contracts of `ReleaseOne` and `ReconcileOne` say what a
  visit does.

## Model

Paths are relative to the repository's root.

| member | source | states |
|---|---|---|
| `OllamaRuns.NoOrphan` | kestrel_cloud_runpod/ollama_service.py:559-688 | In every run, from the first world where a lease is TERMINATED on: its create was never admitted, or the one resource of that create is the one bound to the row and was confirmed absent. No deadline and no empty listing ends an uncertain create |
| `OllamaRuns.AtMostOneCreate` | kestrel_cloud_runpod/ollama_service.py:144-234 | Over a whole run at most one create is dispatched, and only by the caller whose write had already made PROVISIONING, the resource name and the uncertainty durable |
| `OllamaRuns.PermitComesFromRow` | kestrel_cloud_runpod/ollama_service.py:144-202 | Whoever may dispatch the create admitted it with the row, and nothing had been sent at that moment |
| `OllamaRuns.StoredChangesObeyTable` | kestrel_cloud_runpod/ollama_service.py:44-80 | Every state change ever stored is one the transition table permits, and a new row starts REQUESTED |
| `OllamaLeases.WritesObeyTable` | kestrel_cloud_runpod/ollama_service.py:690-705 | No call site can be refused by the transition check: under what it knows when it writes, its target is permitted, and it never writes a TERMINATED row |
| `OllamaRuns.TerminatedIsFinal` | kestrel_cloud_runpod/ollama_service.py:690-705 | Once TERMINATED the stored row never changes again |
| `OllamaRuns.RowsOnlyAdvance` | kestrel_cloud_runpod/ollama_repository.py:283-314 | Between any two worlds of a run the row keeps its request, name, provider id (once set) and cost terms, its state never falls back, and two rows of one revision are the same row |
| `OllamaLeases.WriteFollows` | kestrel_cloud_runpod/ollama_repository.py:283-314 | Every enabled write gives a row that may follow the one it was computed from: a higher revision, write-once provider id, name and cost terms, no earlier state |
| `OllamaRuns.DeadlinesAreTimely` | kestrel_cloud_runpod/ollama_service.py:271-279 | In every world of every run the stored idle deadline is the smaller of the last use plus the idle timeout and the hard deadline, and the readiness deadline the smaller of the time of asking plus the readiness timeout and the hard deadline |
| `OllamaRuns.LeasesStartInTime` | kestrel_cloud_runpod/ollama_service.py:110-125 | No row is ever stored for a request that came too late: its readiness and hard deadlines were still to come and left room for the whole session |
| `OllamaRuns.EndingIsOnTheRow` | kestrel_cloud_runpod/ollama_service.py:559-637 | The teardown column says exactly whether a lease is RELEASING or TERMINATED, the first reason to end stays, and a resource was torn down only after the attempt was counted |
| `OllamaRuns.AdmittedPlansAreAuthorized` | kestrel_cloud_runpod/ollama_service.py:719-771 | Every plan whose create is ever admitted is in the requested mode, on the resource of that mode, at a positive rate within the rate limit, and its ceiling is within the authorized cost |
| `OllamaRuns.SpendStaysBounded` | kestrel_cloud_runpod/ollama_contracts.py:725-774 | Once a plan made no later than its admission is admitted, the committed exposure at any time, in every later world of any run, is at most its ceiling, which is at most the authorized cost |
| `OllamaRuns.StepKeepsInv` | kestrel_cloud_runpod/ollama_service.py:144-234 | Every step of callers, reconcilers and the provider keeps the joint invariant of row and provider |
| `OllamaRuns.RunKeepsInv` | kestrel_cloud_runpod/ollama_service.py:144-234 | The joint invariant holds in every world of every run |
| `OllamaRuns.RunFollows` | kestrel_cloud_runpod/ollama_repository.py:283-314 | What an earlier world tells of the row and of the provider stays true in every later one |
| `OllamaBackend.Backend.InsertRequest` | kestrel_cloud_runpod/ollama_repository.py:202-274 | Inserts exactly the new row of the request or returns the row that is there; another request under the same id is a conflict |
| `OllamaBackend.Backend.Commit` | kestrel_cloud_runpod/ollama_repository.py:283-314 | The write happens if and only if the stored row is exactly the snapshot, and then the new row is exactly the changed snapshot; otherwise nothing changes |
| `OllamaBackend.Backend.Teardown` | kestrel_cloud_runpod/ollama_provider.py:442-475 | Success only if the exact resource was observed to be absent |
| `OllamaBackend.Backend.Provision` | kestrel_cloud_runpod/ollama_provider.py:247-348 | May lose the response or land late; an id that is returned is the resource that the create made |
| `OllamaBackend.Backend.FindResource` | kestrel_cloud_runpod/ollama_provider.py:350-369 | A listing may omit a live resource; one that it names is the resource that the create made |
| `OllamaBackend.Backend.PlanPlacement` | kestrel_cloud_runpod/ollama_provider.py:172-232 | The plan returned was selected at some time during the call from some valid catalog |
| `OllamaService.OllamaLeaseService.Transition` | kestrel_cloud_runpod/ollama_service.py:690-705 | Raises exactly when the table does not permit the move; otherwise the stored row is the changed snapshot in the target state |
| `OllamaService.OllamaLeaseService.ProvisionRequested` | kestrel_cloud_runpod/ollama_service.py:144-202 | On success the stored row is WAITING for the same request; a lease that got no plan is FAILED, and one whose create was not answered stays RECONCILE_REQUIRED |
| `OllamaService.OllamaLeaseService.ProvisionEffect` | kestrel_cloud_runpod/ollama_service.py:204-234 | Only with the create admitted for this caller; on success the row is WAITING and its id is that of the resource the create made, and a failed create leaves the row RECONCILE_REQUIRED and uncertain |
| `OllamaService.OllamaLeaseService.ReconcileCreation` | kestrel_cloud_runpod/ollama_service.py:532-557 | An unclear create ends up WAITING, or stays unclear, which it may only while no id is known; it is never ended |
| `OllamaService.OllamaLeaseService.UseListing` | kestrel_cloud_runpod/ollama_service.py:541-557 | A listing that names the resource binds it and ends the doubt; one that does not changes nothing |
| `OllamaService.OllamaLeaseService.Release` | kestrel_cloud_runpod/ollama_service.py:559-609 | Returns normally only with the stored row TERMINATED and nothing billable left; a teardown error leaves it RELEASING or TERMINATED |
| `OllamaService.OllamaLeaseService.TeardownEffect` | kestrel_cloud_runpod/ollama_service.py:611-637 | TERMINATED is written only after the exact resource is gone; a failure is raised, and leaves the row RELEASING or TERMINATED |
| `OllamaService.OllamaLeaseService.ResolveUncertainRelease` | kestrel_cloud_runpod/ollama_service.py:639-688 | On success the row is RELEASING, and either the resource was found and its id is bound, or the create is still uncertain with no id; elapsed time and an empty listing never end the doubt |
| `OllamaService.OllamaLeaseService.ReadyWithRoute` | kestrel_cloud_runpod/ollama_service.py:480-530 | A READY answer carries a route, has the same idle deadline, and was within it; otherwise TERMINATED. The caller ends the lease only when it was past what its state or its authorization allows |
| `OllamaService.OllamaLeaseService.CheckReadinessOnce` | kestrel_cloud_runpod/ollama_service.py:417-478 | One look leaves the lease WAITING, TERMINATED, or READY with an idle deadline one idle timeout (or the hard deadline) after a use during the call; the look is on the row, and only an overdue lease is ended |
| `OllamaService.OllamaLeaseService.UseObservation` | kestrel_cloud_runpod/ollama_service.py:440-478 | READY exactly when the provider is ready under a route and has the exact model, with that route and that time of use; otherwise the lease goes on WAITING |
| `OllamaService.OllamaLeaseService.WaitUntilReady` | kestrel_cloud_runpod/ollama_service.py:395-415 | Returns only a READY lease with a route, or a TERMINATED one; the waiting caller ends the lease only when it is overdue |
| `OllamaService.OllamaLeaseService.Touch` | kestrel_cloud_runpod/ollama_service.py:245-287 | Only for the owner; a READY lease was used during the call, its idle deadline is the smaller of that use plus the idle timeout and the hard deadline, and that lies after it; only an overdue lease is ended |
| `OllamaService.OllamaLeaseService.ReleaseLease` | kestrel_cloud_runpod/ollama_service.py:289-294 | Only for the owner; returns normally only when TERMINATED and settled |
| `OllamaService.OllamaLeaseService.ReconcileOne` | kestrel_cloud_runpod/ollama_service.py:327-369 | On a normal return, a lease past its hard deadline, READY past idle, not ready past readiness or over its authorization at the time the visit began is RELEASING or TERMINATED; and the visitor ended the lease only if it had been past one of these |
| `OllamaService.OllamaLeaseService.HoldToDeadlines` | kestrel_cloud_runpod/ollama_service.py:346-369 | The expiry half of a visit has that same guarantee |
| `OllamaService.OllamaLeaseService.Acquire` | kestrel_cloud_runpod/ollama_service.py:103-142 | The lease returned is the one of this request, routed if READY, and not WAITING if the caller waits; a value error means that the request came too late; only an overdue lease is ended |
| `OllamaService.Reconcile` | kestrel_cloud_runpod/ollama_service.py:296-307 | A pass reports every listed lease, and each visit that raised nothing held its lease to its deadlines as of the time it began; only the death of the process stops the pass |
| `OllamaService.OllamaLeaseService.ReconcileLease` | kestrel_cloud_runpod/ollama_service.py:309-325 | Only for the owner; unless the visit raised, the lease is held to its deadlines |
| `OllamaService.RequestFromLease` | kestrel_cloud_runpod/ollama_repository.py:339-390 | The request rebuilt after a crash is valid, keeps the whole spend authority, and waits the whole seconds that were left between the row and its readiness deadline |
| `PodGuarantees.StopIsIrrevocable` | kestrel_cloud_runpod/pod_capacity_service.py:1926-2082 | Under full interleaving RELEASED is absorbing, no phase of a protocol-1 lease is left for an earlier one, a completed or stopped job never runs again, and worker progress never goes back |
| `PodGuarantees.HandoffChain` | kestrel_cloud_runpod/pod_capacity_contracts.py:1550-1600 | In every world host confirmation implies remote ACK implies persisted intent implies the observed binding of this attempt; each link is write-once; RESULT_RETRIEVED implies confirmation |
| `PodGuarantees.StateKeepsUpWithWorker` | kestrel_cloud_runpod/pod_capacity_service.py:2035-2082 | In every world of every run a protocol-1 lease that is not yet submitted has idle work, one that is submitted has running work, a completed one has a result to hand over, and a lease whose work failed or was cancelled is on its way out |
| `PodDelivery.ResultCanBeDelivered` | kestrel_cloud_runpod/pod_capacity_service.py:1020-1151 | For every protocol-1 request, the serialised run through submission, AWAITING_ACK, stored intent, dispatch, ACKNOWLEDGED and host confirmation to RESULT_RETRIEVED |
| `PodGuarantees.DispatchNeedsStoredIntent` | kestrel_cloud_runpod/pod_capacity_service.py:1020-1074 | An ACK that was ever dispatched carries the intent the row stores, then and for ever |
| `PodGuarantees.AcknowledgedIsIntended` | kestrel_cloud_runpod/pod_capacity_service.py:1995-2014 | In a run, an ACKNOWLEDGED observation that was accepted carries the digest of the intent stored before it; that intent, the bound digests and the remote acknowledgement stay for ever |
| `PodGuarantees.EvidenceIsWriteOnce` | kestrel_cloud_runpod/pod_capacity_service.py:1826-1924 | First observations, placement, worker record and receipt are write-once; the row's receipt is the evidence's; a catalog lease is RELEASED only with its bearer revoked and a receipt stored |
| `PodGuarantees.PlacementIsAsQuoted` | kestrel_cloud_runpod/pod_capacity_contracts.py:1098-1124 | In every world the stored evidence of a catalog lease binds: the realized placement is the accepted shape at no more than the accepted rate, the receipt is for that Pod at that rate, and the worker record is of this attempt, request and image |
| `PodGuarantees.AtMostOneCreate` | kestrel_cloud_runpod/pod_capacity_service.py:295-310 | Per cleanup token at most one create is sent in a run, and only after the row durably says STARTING and uncertain for that caller |
| `PodGuarantees.PodIsTheCreatedOne` | kestrel_cloud_runpod/pod_capacity_service.py:385-507 | A bound Pod id never changes, and for a created lease it is the Pod its own create made |
| `PodGuarantees.UnreleasedLeasesAreApart` | kestrel_cloud_runpod/pod_capacity_repository.py:172-192 | In every world two unreleased leases differ in resource name, in cleanup family, and in Pod id where both are known, because the table refuses every write after which they would not |
| `PodGuarantees.FamilyIsFrozen` | kestrel_cloud_runpod/pod_capacity_repository.py:264-283 | Once its release is requested the members of a family are the same in all later worlds |
| `PodGuarantees.FamilyStaysDrained` | kestrel_cloud_runpod/pod_capacity_service.py:1220-1257 | A frozen family whose members are all RELEASED stays so in all future worlds |
| `PodGuarantees.OrderlyRunKeepsCustody` | kestrel_cloud_runpod/pod_capacity_service.py:1259-1392 | With the operations on each lease serialised, crashes allowed, every world of a run keeps custody |
| `PodGuarantees.ReleasedMeansSettled` | kestrel_cloud_runpod/pod_capacity_service.py:1743-1824 | With serialised operations an uncertain catalog lease is never RELEASED, and a RELEASED one has authoritative billing and never had a create admitted, or had it definitely rejected, or bound its Pod, saw it halted and holds a receipt to its recorded termination at the realized rate |
| `PodGuarantees.ReleasedMeansLetGo` | kestrel_cloud_runpod/pod_capacity_service.py:1323-1392 | With serialised operations no lease of any kind, training or catalog, is marked cleaned up while its Pod is not confirmed halted; a RELEASED one was given back as a claim of a Pod that ran before, or has no Pod, or its Pod is halted |
| `PodGuarantees.CreatesAreOnlyGivenUp` | kestrel_cloud_runpod/pod_capacity_service.py:1604-1625 | With serialised operations a create that was admitted and never refused is forgotten only by a training lease that gave it up after its readiness deadline; a catalog lease never does |
| `PodGuarantees.IdleStays` | kestrel_cloud_runpod/pod_capacity_service.py:1259-1392 | Once nothing of a lease past REQUESTED can be billing (no create admitted, or it was rejected, or the bound Pod halted), that holds in every later world under any interleaving |
| `PodGuarantees.FoundRunningIsNeverStopped` | kestrel_cloud_runpod/pod_capacity_service.py:1259-1392 | With serialised operations no world, before or after, shows the lease of a Pod that was asked to stop as PREEXISTING_RUNNING |
| `PodGuarantees.OwnershipWasObserved` | kestrel_cloud_runpod/pod_capacity_service.py:312-383 | Under full interleaving a claim is PREEXISTING_RUNNING only after an observation of its Pod as running, unless it was given back; OWNED only after one as stopped and after it was started; and a lease is READY only after its Pod was seen running and, for a catalog lease, its worker answered as healthy |
| `PodGuarantees.SeenRunningIsNeverStopped` | kestrel_cloud_runpod/pod_capacity_service.py:327-346 | With serialised operations a claim that left REQUESTED by looking at its Pod is asked to stop it only if some observation before that did not find it running |
| `PodGuarantees.StopNeedsAnExit` | kestrel_cloud_runpod/pod_capacity_service.py:312-383 | With serialised operations the Pod of a claim is asked to stop only if the write that took the claim out of REQUESTED was not the one that found it running: it was observed stopped before that write, or nobody had looked (a release, a cancellation request, a recorded end of the job) |
| `PodCounterexample.StopIsPossibleExactlyIfNotFoundRunning` | kestrel_cloud_runpod/pod_capacity_service.py:721-766 | For every claim of an existing Pod, by its root or by a child, and every write: some serialised run takes the claim out of REQUESTED by that write and later asks the Pod to stop, if and only if it is one of those writes |
| `PodCounterexample.FamilyReleaseCanLeaveABillOpen` | kestrel_cloud_runpod/pod_capacity_service.py:1220-1257 | For every root catalog request, the serialised run of a family release that is complete while the attempt, cleaned up and with its Pod halted, is not released |
| `PodGuarantees.StopsOnlyItsOwnPod` | kestrel_cloud_runpod/pod_capacity_service.py:1343-1347 | Under full interleaving only the Pod that the lease holds, then and for ever, is asked to stop; for a created lease that is the Pod its own create made |
| `PodCustody.OwnershipIsDecided` | kestrel_cloud_runpod/pod_capacity_service.py:312-383 | Whether a claim found its Pod running is decided when it leaves REQUESTED and never revised |
| `PodCounterexample.FoundRunningMayBeStopped` | kestrel_cloud_runpod/pod_capacity_service.py:1323-1342 | Without serialisation, for every claim of an existing Pod a world is reachable where the lease says PREEXISTING_RUNNING and its Pod is about to be asked to stop |
| `PodCounterexample.ReleaseBeforeDiscoveryStopsThePod` | kestrel_cloud_runpod/pod_capacity_service.py:1259-1392 | Even serialised, releasing a claim that is still REQUESTED asks the configured or stopped Pod to stop |
| `PodCounterexample.ReleasedBeforeThePodLands` | kestrel_cloud_runpod/pod_capacity_service.py:1826-1903 | Without serialisation custody fails for every catalog request: a world is reachable where the lease is RELEASED with no Pod bound while the Pod of its admitted, never rejected create has landed and was not halted |
| `PodRuns.StepKeepsInv` | kestrel_cloud_runpod/pod_capacity_repository.py:215-325 | Every step keeps the invariant of table and provider, including the three unique indexes and the persisted roots |
| `PodRuns.RunKeepsInv` | kestrel_cloud_runpod/pod_capacity_repository.py:370-408 | The invariant holds in every world of every run |
| `PodRuns.RunFollows` | kestrel_cloud_runpod/pod_capacity_repository.py:370-408 | Each row of an earlier world precedes its row in every later one, and nothing the provider did is undone |
| `PodInvariants.WriteKeepsRow` | kestrel_cloud_runpod/pod_capacity_contracts.py:1748-1779 | Every write of the service, over whatever row it finds, keeps the constructors' conditions, the order of the lease's life and every write-once field |
| `PodInvariants.WriteKeepsCoupling` | kestrel_cloud_runpod/pod_capacity_service.py:385-507 | Every write keeps the row's agreement with the provider, the revoked bearers and the dispatched acknowledgements |
| `PodInvariants.ObservedHandoffIsSeen` | kestrel_cloud_runpod/pod_capacity_service.py:1970-2019 | An accepted observation leaves a valid handoff of this attempt that keeps every earlier link; an acknowledgement is accepted only for a persisted intent |
| `PodInvariants.ObservationKeepsPhase` | kestrel_cloud_runpod/pod_capacity_service.py:2020-2082 | A delayed poll neither restarts a completed job nor revives a stopped one |
| `PodCustody.WriteKeepsCustody` | kestrel_cloud_runpod/pod_capacity_service.py:1259-1392 | Each serialised write keeps custody of the Pod |
| `PodLeases.MergeKeepsEvidence` | kestrel_cloud_runpod/pod_capacity_service.py:1826-1903 | A successful merge keeps every earlier observation, satisfies the evidence constructors, and stores exactly the new receipt if there is one |
| `PodLeases.ZeroCostSettlementNeedsOneReading` | kestrel_cloud_runpod/pod_capacity_service.py:1294-1324 | A settlement without provider capacity is accepted if and only if its two clock readings agree and nothing was observed after them; otherwise it is a ValueError |
| `PodInvariants.StoredReceiptIsFinal` | kestrel_cloud_runpod/pod_capacity_service.py:1878-1888 | Over any row with a receipt, with or without a Pod, a further settlement is accepted if and only if it brings that very receipt; any other is a conflict |
| `PodLeases.RepeatedSettlementNeedsTheStoredReading` | kestrel_cloud_runpod/pod_capacity_service.py:1878-1888 | For settlements without a Pod: accepted again if and only if the new receipt has the stored one's date and reason, and otherwise a conflict |
| `PodCounterexample.SettlementCanStick` | kestrel_cloud_runpod/pod_capacity_service.py:1434-1469 | For every catalog request, the serialised run of a reconcile pass that settles it without a Pod and whose revocation fails: the lease is RELEASING and authoritative with a receipt from before every later visit |
| `PodCounterexample.SettledPodCanStayUnrevoked` | kestrel_cloud_runpod/pod_capacity_service.py:1803-1824 | For every root catalog request, the same with a Pod that was created, bound, halted and billed |
| `PodLeases.ZeroCostSettlementCanFail` | kestrel_cloud_runpod/pod_capacity_service.py:2173-2195 | For a fresh attempt one tick between the two readings makes the settlement fail |
| `PodLeases.ZeroCostReceipt` | kestrel_cloud_runpod/pod_capacity_service.py:2173-2195 | The zero-cost receipt satisfies the receipt constructor, names no Pod and is dated at the given reading |
| `PodBackend.Backend.Reserve` | kestrel_cloud_runpod/pod_capacity_repository.py:215-325 | The claim is exactly the new row of the request, or the row already there for the same request |
| `PodBackend.Backend.Commit` | kestrel_cloud_runpod/pod_capacity_repository.py:370-408 | The write happens if and only if the stored row is exactly the snapshot and the three unique indexes would still hold; otherwise nothing changes |
| `PodBackend.Backend.CompareAndSet` | kestrel_cloud_runpod/pod_capacity_repository.py:370-408 | After any interference, success stores exactly the changed snapshot |
| `PodBackend.Backend.AdmitCreate` | kestrel_cloud_runpod/pod_capacity_service.py:392-402 | The create is permitted to exactly the caller whose write stored STARTING and uncertain |
| `PodBackend.Backend.ListFamily` | kestrel_cloud_runpod/pod_capacity_repository.py:335-355 | The listing names every member of the family as it is when it is read |
| `PodBackend.Backend.CreatePod` | kestrel_cloud_runpod/pod_capacity_provider.py:219-293 | Only a definite refusal says that no Pod can come of the create; an answer names the Pod it made |
| `PodBackend.Backend.FindPod` | kestrel_cloud_runpod/pod_capacity_provider.py:295-334 | A live Pod may be missing from the answer; one in the answer is the one the create made |
| `PodBackend.Backend.StopPod` | kestrel_cloud_runpod/pod_capacity_provider.py:336-389 | Asks only for the Pod that the snapshot holds, after the attempt was counted, and when serialised only for a RELEASING lease that did not find it running; true only when that Pod is confirmed not billing |
| `PodBackend.Backend.ObservePod` | kestrel_cloud_runpod/pod_capacity_provider.py:200-212 | What a Pod was observed as is remembered for the lease it was observed for; a Pod observed stopped is not billing |
| `PodBackend.Backend.Submit` | kestrel_cloud_runpod/pod_capacity_service.py:768-794 | A request goes to the worker only for a protocol-1 lease that is READY or JOB_SUBMITTED and before its hard deadline when the call is made |
| `PodBackend.Backend.FinalBilling` | kestrel_cloud_runpod/pod_capacity_provider.py:391-409 | A bill may not be there yet; one that is there is dated within the call |
| `PodBackend.Backend.DispatchAck` | kestrel_cloud_runpod/pod_capacity_service.py:1054-1074 | Takes only the intent that the snapshot stores, of a completed job before its hard deadline; unless the process dies it is dispatched |
| `PodService.PodCapacityLeaseService.TransitionNonterminal` | kestrel_cloud_runpod/pod_capacity_service.py:1707-1718 | The result is the change applied over some later row, or a row released meanwhile; when serialised it is the change over the snapshot itself |
| `PodService.PodCapacityLeaseService.TransitionWithEvidence` | kestrel_cloud_runpod/pod_capacity_service.py:1826-1903 | As above with the evidence merged over whatever row was current; a write of a starting lease stops when it has moved on; a refused merge is a conflict or a value error |
| `PodService.PodCapacityLeaseService.RevokeAndRelease` | kestrel_cloud_runpod/pod_capacity_service.py:1905-1924 | Returns only a RELEASED lease with a stored receipt, whose bearer was revoked and that keeps every write-once field of the snapshot |
| `PodService.PodCapacityLeaseService.ReconcileBilling` | kestrel_cloud_runpod/pod_capacity_service.py:1743-1824 | On a normal return a catalog lease is RELEASED, or only waits for its bill with its clean-up complete and its termination recorded; when serialised nothing of it can be billing. Other leases are returned unchanged |
| `PodService.PodCapacityLeaseService.SettlePod` | kestrel_cloud_runpod/pod_capacity_service.py:1758-1802 | RELEASED, or cleaned up and waiting for its bill; when serialised not RELEASED if it had a receipt from before the call, and RELEASED only with a receipt of the bound Pod that reaches to the recorded termination at the realized rate |
| `PodService.PodCapacityLeaseService.SettleReceipt` | kestrel_cloud_runpod/pod_capacity_service.py:1803-1824 | Returns only a RELEASED lease; when serialised it holds exactly this receipt, and a lease that holds another is refused |
| `PodService.PodCapacityLeaseService.SettleNoCapacity` | kestrel_cloud_runpod/pod_capacity_service.py:1294-1322 | Returns only a RELEASED lease; when serialised a catalog lease then holds the zero-cost receipt of this settlement, whose two readings agree, and a lease with another receipt is refused and stays as it was |
| `PodService.PodCapacityLeaseService.ReleaseUnownedClaim` | kestrel_cloud_runpod/pod_capacity_service.py:1627-1642 | Returns only a RELEASED lease |
| `PodService.PodCapacityLeaseService.RecordRetryableFailure` | kestrel_cloud_runpod/pod_capacity_service.py:1644-1662 | The lease is RECONCILE_REQUIRED or already RELEASED, and a doubtful create with no Pod stays uncertain |
| `PodService.PodCapacityLeaseService.ResolveUncertainCreation` | kestrel_cloud_runpod/pod_capacity_service.py:1566-1625 | When serialised, a lease whose Pod was not found stays uncertain or, for training, is released |
| `PodService.PodCapacityLeaseService.LeaveUncertain` | kestrel_cloud_runpod/pod_capacity_service.py:1604-1625 | A training lease without a Pod is released if its readiness deadline had passed before the call, and given up only after it; otherwise, and for a catalog lease always, the doubt stays |
| `PodService.PodCapacityLeaseService.AdoptPod` | kestrel_cloud_runpod/pod_capacity_service.py:1580-1603 | The found Pod is the one bound, with its placement on a catalog row, or the lease was released |
| `PodService.PodCapacityLeaseService.ReleaseOne` | kestrel_cloud_runpod/pod_capacity_service.py:1259-1392 | Returns normally only with the lease RELEASED, or a catalog lease that only waits for its bill with its clean-up complete and its termination recorded. When serialised the lease was let go: nothing of a catalog lease can be billing, then or ever, and a training lease was given back as a claim of a running Pod, or has no Pod, or its Pod is confirmed halted; a lease that was settled before, with or without a Pod, and could not be revoked is not released by a later visit; and a released one is returned as it is |
| `PodService.PodCapacityLeaseService.CountStopAttempt` | kestrel_cloud_runpod/pod_capacity_service.py:1333-1342 | The same Pod, with an attempt counted on the row, or the lease was released |
| `PodService.PodCapacityLeaseService.StopAndSettle` | kestrel_cloud_runpod/pod_capacity_service.py:1343-1392 | Returns normally only with the lease RELEASED, or a catalog lease cleaned up and waiting for its bill; when serialised the lease was let go. A stop that is not confirmed is raised |
| `PodService.PodCapacityLeaseService.BindCreated` | kestrel_cloud_runpod/pod_capacity_service.py:420-507 | The lease holds the id of the Pod that its create made, or was released |
| `PodService.PodCapacityLeaseService.AcquireCreated` | kestrel_cloud_runpod/pod_capacity_service.py:385-507 | On success the lease has a Pod id, or was released |
| `PodService.PodCapacityLeaseService.CreateFailed` | kestrel_cloud_runpod/pod_capacity_service.py:445-497 | Always raises; when serialised a catalog lease whose create had an ambiguous outcome stays RECONCILE_REQUIRED and uncertain |
| `PodService.PodCapacityLeaseService.AcquireExisting` | kestrel_cloud_runpod/pod_capacity_service.py:312-383 | On success the claim keeps its Pod id and is PREEXISTING_RUNNING only if its Pod was observed running, and otherwise owns a Pod that was observed stopped |
| `PodService.PodCapacityLeaseService.ClaimObserved` | kestrel_cloud_runpod/pod_capacity_service.py:327-383 | A running Pod is claimed as PREEXISTING_RUNNING with the observed route, a stopped one is started and owned, and any other is given back, so that the claim is RELEASED when serialised |
| `PodService.PodCapacityLeaseService.StartStopped` | kestrel_cloud_runpod/pod_capacity_service.py:349-373 | On success the lease owns the same Pod, which was observed stopped |
| `PodService.PodCapacityLeaseService.EnforceReadinessDeadline` | kestrel_cloud_runpod/pod_capacity_service.py:638-648 | Returns only before both deadlines |
| `PodService.PodCapacityLeaseService.ObserveReadiness` | kestrel_cloud_runpod/pod_capacity_service.py:549-636 | A lease is returned STARTING only if the call came before its readiness and hard deadlines |
| `PodService.PodCapacityLeaseService.TryObserve` | kestrel_cloud_runpod/pod_capacity_service.py:561-610 | A lease that is still STARTING was not seen failed or stopped; the worker counts as healthy only with a nonempty route, a Pod seen running and, for a catalog lease, its own answer |
| `PodService.PodCapacityLeaseService.ConfirmReady` | kestrel_cloud_runpod/pod_capacity_service.py:623-636 | Returns only a lease that is no longer STARTING; when serialised a STARTING one only if the call came before both deadlines |
| `PodService.PodCapacityLeaseService.WaitReady` | kestrel_cloud_runpod/pod_capacity_service.py:534-547 | Returns only when the lease is no longer STARTING |
| `PodService.PodCapacityLeaseService.Heartbeat` | kestrel_cloud_runpod/pod_capacity_service.py:670-682 | The stored row gets a heartbeat no earlier than the call and is not RELEASED |
| `PodService.PodCapacityLeaseService.Acquire` | kestrel_cloud_runpod/pod_capacity_service.py:281-310 | The lease returned is the one of exactly this request; with waiting a protocol-1 lease has left STARTING |
| `PodService.PodCapacityLeaseService.AcquireCatalog` | kestrel_cloud_runpod/pod_capacity_service.py:183-267 | The lease returned is the one of exactly this request, also on a replay; with waiting a protocol-1 lease has left STARTING |
| `PodService.PodCapacityLeaseService.RecordJob` | kestrel_cloud_runpod/pod_capacity_service.py:684-705 | The lease is JOB_SUBMITTED with exactly this job |
| `PodService.PodCapacityLeaseService.RecordStatus` | kestrel_cloud_runpod/pod_capacity_service.py:721-735 | Completed and cancelled statuses move the lease accordingly unless it was released; protocol-1 leases are refused |
| `PodService.PodCapacityLeaseService.RequestCancellation` | kestrel_cloud_runpod/pod_capacity_service.py:756-766 | The lease is RELEASED or CANCEL_REQUESTED, and a catalog workload is cancelling |
| `PodService.PodCapacityLeaseService.RecordObservation` | kestrel_cloud_runpod/pod_capacity_service.py:1926-1952 | The stored row keeps what the observation proved of the handoff, whatever happened meanwhile, and moves from the row it was computed from as news requires |
| `PodService.PodCapacityLeaseService.ObserveOnce` | kestrel_cloud_runpod/pod_capacity_service.py:1954-2082 | News moves the job: running work to JOB_SUBMITTED, a result to JOB_COMPLETED, a failure or a cancellation to CANCEL_REQUESTED; an observation from before what is known, of a cancelling workload or of a lease that is not working moves nothing |
| `PodService.PodCapacityLeaseService.SubmitWorkload` | kestrel_cloud_runpod/pod_capacity_service.py:768-794 | On success the stored row shows what the worker's answer proved; the lease that is submitted is the one read again after the capability was loaded |
| `PodService.PodCapacityLeaseService.ObserveWorkload` | kestrel_cloud_runpod/pod_capacity_service.py:796-829 | On success the stored row shows the worker's answer, also after a teardown; work that was recorded as failed, cancelled or cancelling was released, the whole family if it is the root |
| `PodService.PodCapacityLeaseService.RetrieveResult` | kestrel_cloud_runpod/pod_capacity_service.py:831-871 | A result is returned only of a lease that had one and is not cancelling; a protocol-1 result only if it is the one whose handoff the row stored |
| `PodService.PodCapacityLeaseService.RecordWorkerEvidence` | kestrel_cloud_runpod/pod_capacity_service.py:873-924 | The evidence holds exactly this worker record, or the lease was released; the worker is the one of this attempt, whose result was ready, and did not start in the future |
| `PodService.PodCapacityLeaseService.StoreIntent` | kestrel_cloud_runpod/pod_capacity_service.py:1020-1053 | The stored handoff has exactly this acknowledgement intent |
| `PodService.PodCapacityLeaseService.AcknowledgeResult` | kestrel_cloud_runpod/pod_capacity_service.py:1020-1074 | On success the row holds this intent and an observed remote acknowledgement of it |
| `PodService.PodCapacityLeaseService.Deliver` | kestrel_cloud_runpod/pod_capacity_service.py:1076-1147 | The row is delivered: a protocol-1 lease is confirmed for exactly the acknowledgement the host names |
| `PodService.PodCapacityLeaseService.ReleaseResult` | kestrel_cloud_runpod/pod_capacity_service.py:1076-1151 | On success of a protocol-1 lease the stored row is delivered for exactly that acknowledgement |
| `PodService.PodCapacityLeaseService.CancelWorkload` | kestrel_cloud_runpod/pod_capacity_service.py:1153-1194 | On success the stored phase of a protocol-1 lease is at least CANCEL_REQUESTED |
| `PodService.PodCapacityLeaseService.MarkFamilyRequested` | kestrel_cloud_runpod/pod_capacity_service.py:1674-1690 | On success the family is frozen with the members it has |
| `PodService.PodCapacityLeaseService.MarkFamilyComplete` | kestrel_cloud_runpod/pod_capacity_service.py:1692-1705 | On success the root says that the release is complete |
| `PodService.PodCapacityLeaseService.Release` | kestrel_cloud_runpod/pod_capacity_service.py:1220-1257 | A normal return for a root leaves the family frozen, each training attempt RELEASED and each catalog attempt cleaned up, when serialised each let go; for another attempt, RELEASED or cleaned up and waiting for its bill, when serialised let go |
| `PodService.PodCapacityLeaseService.ReleaseMembers` | kestrel_cloud_runpod/pod_capacity_service.py:1228-1255 | No failure means that every listed member was cleaned up: RELEASED, or a catalog attempt that only waits for its bill; when serialised each was let go |
| `PodService.PodCapacityLeaseService.ReconcileOne` | kestrel_cloud_runpod/pod_capacity_service.py:1416-1564 | After a normal visit a lease that was past a deadline, stale or already on its way out was cleaned up, or has no Pod, when serialised because its create is still uncertain; a lease that was settled before and could not be revoked is not RELEASED by it |
| `PodService.PodCapacityLeaseService.ReconcileActive` | kestrel_cloud_runpod/pod_capacity_service.py:1430-1564 | The same, for the row and the time the visit read; a lease that is not past a deadline, stale, submitted or on its way out is left alone: as it was, or with a new route, unless its Pod was observed stopped |
| `PodService.PodCapacityLeaseService.Reconcile` | kestrel_cloud_runpod/pod_capacity_service.py:1394-1414 | A pass returns what each visit of an incomplete family and of an open lease left; unless a visit raised, the family is cleaned out and the lease that had to go is resolved, still when the pass is over. It fails only with an error that nothing catches |
| `Decimals.SumIsExact` | kestrel_cloud_runpod/billing.py:32-47 | The sum is refused exactly when an amount is not finite; otherwise it is the mathematical total, whatever the ambient precision |
| `DecimalValues.SumIsTheSum` | kestrel_cloud_runpod/billing.py:32-47 | The value of the sum of finite amounts, as a real number, is the sum of their values |
| `DecimalValues.EqualByValue` | kestrel_cloud_runpod/billing.py:50-58 | Two decimals are numerically equal if and only if they stand for the same real number |
| `Decimals.PrecisionSuffices` | kestrel_cloud_runpod/billing.py:40-46 | The number of items times ten to the aligned digits is below ten to the chosen precision |
| `Decimals.PartialSumExact` | kestrel_cloud_runpod/billing.py:45-47 | At such a precision every partial sum of the loop is exact |
| `Decimals.RoundingKeepsFittingValue` | kestrel_cloud_runpod/billing.py:45-47 | Context rounding leaves a value with a short enough quotient unchanged, however it is written |
| `CanonicalAmounts.IdentityTextIsNumerical` | kestrel_cloud_runpod/billing.py:50-58 | Two finite decimals have the same identity text if and only if they are numerically equal |
| `CanonicalAmounts.IdentityTextRoundTrip` | kestrel_cloud_runpod/billing.py:50-58 | Reading the text back gives a numerically equal value, in its canonical spelling |
| `CanonicalAmounts.IdentityTextIsPlain` | kestrel_cloud_runpod/billing.py:50-58 | The text is digits without a superfluous leading zero, perhaps a point and digits that do not end in a zero, and a minus sign exactly for a negative value |
| `CanonicalAmounts.TextOfCanonical` | kestrel_cloud_runpod/billing.py:50-58 | Every spelling of a value has the text of its canonical spelling |
| `CanonicalAmounts.CanonicalUnique` | kestrel_cloud_runpod/billing.py:50-58 | Numerically equal canonical spellings are the same |
| `BillingAmounts.ValidatedAmounts` | kestrel_cloud_runpod/billing.py:61-81 | The loop returns what the recursive specification of the amounts says |
| `BillingAmounts.AmountsOfMeans` | kestrel_cloud_runpod/billing.py:61-81 | Amounts are accepted if and only if all are finite and nonnegative and the components add up to the total |
| `BillingAmounts.AcceptedAmounts` | kestrel_cloud_runpod/billing.py:61-81 | The condition is about the numbers that came in, not their spelling, and accepted values are unchanged |
| `BillingAmounts.AcceptedNumbers` | kestrel_cloud_runpod/billing.py:61-81 | As real numbers: amounts are accepted if and only if all are finite and nonnegative and the components add up to the total, and what is returned is what came in; usable means finite and not negative |
| `BillingAmounts.AcceptedSpelling` | kestrel_cloud_runpod/billing.py:61-81 | Every accepted amount is returned in its canonical spelling |
| `BillingAmounts.ExactTotalPermutes` | kestrel_cloud_runpod/billing.py:32-47 | Totals of the same amounts in any order are numerically equal |
| `BillingHours.HourBoundsAreTight` | kestrel_cloud_runpod/billing.py:13-29 | Bounds exist exactly for a positive interval and are the smallest window of whole hours around it |
| `BillingHours.ExactHours` | kestrel_cloud_runpod/pod_billing.py:95-181 | The loops over the page compute the specified outcome |
| `BillingHours.PodHoursAreComplete` | kestrel_cloud_runpod/pod_billing.py:95-181 | Rows come back if and only if the page is well formed and its records, in any order, tile the window; they then come hour by hour |
| `BillingHours.PodPagesAreJudged` | kestrel_cloud_runpod/pod_billing.py:145-181 | A page is malformed if and only if its metadata, amounts or totals are, or its sorted hours overlap, leave the window or are no hours; a well-formed page that does not tile the window is waited for |
| `BillingHours.PodRowsAreTheRecords` | kestrel_cloud_runpod/pod_billing.py:134-181 | The rows of an accepted page are its records, each exactly once, with the canonical texts of its own raw amounts |
| `BillingHours.PodRowsIgnoreRecordOrder` | kestrel_cloud_runpod/pod_billing.py:95-181 | Shuffling the records of an accepted page changes nothing |
| `BillingHours.TilesIffContiguous` | kestrel_cloud_runpod/pod_billing.py:151-181 | Tiling, stated without an order, is contiguity of the sorted rows |
| `BillingHours.TotalsAgree` | kestrel_cloud_runpod/pod_billing.py:145-150 | The loop decides whether every total is the exact sum of its column |
| `PodReceipts.ReadExactPodBilling` | kestrel_cloud_runpod/pod_billing.py:33-92 | A receipt if and only if the interval and the rate are valid, the whole-hour window has closed and its page is complete: for this Pod, at the given rate, over the window around its life, and with a cost that is the sum of every component of every record of the page; not yet if and only if the window is open or its hours are not all there; the provider is asked only after the window has closed |
| `PodReceipts.CostIsAllComponents` | kestrel_cloud_runpod/pod_billing.py:33-92 | The reported cost is the sum of every component of every hour |
| `PodReceipts.CostIsTheSumOfComponents` | kestrel_cloud_runpod/pod_billing.py:33-92 | As a real number the reported cost is the sum of every component of every hour |
| `PodReceipts.CostIsTheSumOfRecords` | kestrel_cloud_runpod/pod_billing.py:33-92 | The same, of the records as they came, in any order; it is never negative |
| `PodReceipts.ReceiptCoversLife` | kestrel_cloud_runpod/pod_billing.py:33-92 | The billed window covers the whole life of the Pod and names its seconds exactly |
| `EndpointHours.AuthoritativeHourCosts` | kestrel_cloud_runpod/serverless_capacity_provider.py:1964-2072 | The loops over the page compute the specified outcome |
| `EndpointHours.EndpointHoursAreComplete` | kestrel_cloud_runpod/serverless_capacity_provider.py:1964-2072 | Costs come back if and only if metadata and records are well formed, the records tile the window and the page's totals are the exact column sums |
| `EndpointHours.EndpointPagesAreJudged` | kestrel_cloud_runpod/serverless_capacity_provider.py:1964-2072 | A page is waited for if and only if its metadata is right and it has no records, or readable ones of which the first that is not the next whole hour leaves a gap or has not ended |
| `EndpointHours.EndpointCostsAreTheRecords` | kestrel_cloud_runpod/serverless_capacity_provider.py:1964-2072 | What comes back is one cost for each hour of the window, in order, each record's exactly once |
| `EndpointHours.EndpointRowsIgnoreRecordOrder` | kestrel_cloud_runpod/serverless_capacity_provider.py:1964-2072 | Shuffling the records of an accepted page changes nothing |
| `EndpointHours.EndpointCostsAreAllComponents` | kestrel_cloud_runpod/serverless_capacity_provider.py:1964-2072 | The costs add up to the sum of every component of every hour, and to the total the page declares |
| `EndpointHours.EndpointCostsAreTheSum` | kestrel_cloud_runpod/serverless_capacity_provider.py:1964-2072 | As real numbers the costs add up to every component of every hour, and to the total the page declares |
| `EndpointHours.TruthfulPageRead` | kestrel_cloud_runpod/serverless_capacity_provider.py:1964-2072 | A truthful page of a window reads as the history it came from: complete exactly when every hour is there |
| `EndpointHours.ReadExactServerlessBilling` | kestrel_cloud_runpod/serverless_capacity_provider.py:1905-1961 | The batched loop terminates, its windows tile the interval, and for a consistent history its answer is that of one query over the whole interval |
| `EndpointHours.BatchingRefinesOneQuery` | kestrel_cloud_runpod/serverless_capacity_provider.py:1905-1961 | For any batch size a batched reading of a history equals the reading of a single query |
| `EndpointHours.CompleteWindows` | kestrel_cloud_runpod/serverless_capacity_provider.py:1905-1961 | Complete consecutive windows gather exactly the history they span |
| `SpendPlan.SpendIsBounded` | kestrel_cloud_runpod/ollama_contracts.py:564-694 | For a plan made no later than the start, accrued compute plus reserved overhead at any later time is at most the plan's ceiling, which is at most the authorized cost |
| `SpendPlan.CeilingBoundsExactly` | kestrel_cloud_runpod/ollama_contracts.py:725-759 | For a selected plan and any start, the exposure is within the ceiling at every time if and only if the rate is zero or the plan's maximum time covers all workers from the start to the hard deadline |
| `SpendPlan.ExposureIsExact` | kestrel_cloud_runpod/ollama_contracts.py:725-759 | At any one time the exposure is within the ceiling if and only if the rate is zero or the billed time of all workers is within the plan's maximum |
| `SpendPlan.EarlyPlanRatesWholeLife` | kestrel_cloud_runpod/ollama_contracts.py:564-694 | A plan made no later than the start meets that condition |
| `SpendPlan.CandidatesCover` | kestrel_cloud_runpod/ollama_contracts.py:564-694 | Every candidate satisfies the plan constructor and rates every second that is left for every worker |
| `SpendPlan.CandidatesArePossible` | kestrel_cloud_runpod/ollama_contracts.py:564-678 | A Serverless candidate exists exactly for a Serverless offer with an idle tail unless a Pod was asked for, a Pod candidate exactly for a Pod offer with enough time left unless Serverless was asked for; only the missing cost policy of a possible candidate fails the planning |
| `SpendPlan.EstimateCoversSession` | kestrel_cloud_runpod/ollama_contracts.py:592-640 | The Serverless estimate rates the active time plus initialization and idle tail for every start of any session with starts an idle tail apart |
| `SpendPlan.EstimateIsTight` | kestrel_cloud_runpod/ollama_contracts.py:592-640 | Some such session is billed for exactly the estimated time |
| `SpendPlan.DerivedPlanIsValid` | kestrel_cloud_runpod/ollama_contracts.py:301-384 | The constructor accepts a derived plan if and only if its maximum covers its estimate and its counts suit its resource |
| `SpendPlan.PodGuardIsExact` | kestrel_cloud_runpod/ollama_contracts.py:642-678 | A Pod candidate would fail its constructor exactly when the guard on the remaining time skips it |
| `SpendPlan.SelectionIsCheapestAffordable` | kestrel_cloud_runpod/ollama_contracts.py:679-694 | The selected plan is an affordable candidate of least estimated cost, the first one if both cost the same; planning says that nothing is affordable exactly when no candidate is |
| `SpendPlan.SelectedPlanIsAccepted` | kestrel_cloud_runpod/ollama_service.py:719-771 | The service accepts a selected plan if and only if its catalog rate is not zero |
| `SpendPlan.ZeroRateIsSelectedAndRefused` | kestrel_cloud_runpod/ollama_service.py:719-771 | Every request that may use a Pod and has enough time left can be given a plan at rate zero, and the service refuses it |
| `SpendPlan.GateFiresOnlyAtCeiling` | kestrel_cloud_runpod/ollama_contracts.py:762-774 | The cost gate of a lease fires exactly when the whole authorization is committed |
| `SpendPlan.LatePlanIsNotBounded` | kestrel_cloud_runpod/ollama_contracts.py:725-759 | A plan made after the start need not bound the accrual: a concrete plan and lease |
| `SpendPlan.ColdStartsAreBounded` | kestrel_cloud_runpod/ollama_contracts.py:709-722 | Starts at least T apart within a session of S seconds are at most 1 + S div T |
| `SpendPlan.ColdStartBoundIsTight` | kestrel_cloud_runpod/ollama_contracts.py:709-722 | That many starts can happen |
| `Inventory.ListResources` | kestrel_cloud_runpod/clients.py:540-586 | The walk ends within the page cap; it succeeds if and only if a whole inventory exists, and then returns exactly the concatenation of its pages |
| `Inventory.InventoryIsUnique` | kestrel_cloud_runpod/clients.py:540-586 | Two whole inventories of one server are the same pages, so no strict prefix is ever returned |
| `Inventory.TakePage` | kestrel_cloud_runpod/clients.py:554-586 | A refused page ends every possible walk; an accepted one extends it |
| `Inventory.CheckPagination` | kestrel_cloud_runpod/clients.py:560-574 | Pagination is refused only when no whole inventory can follow |
| `Inventory.CheckIdentities` | kestrel_cloud_runpod/clients.py:575-582 | Identities are accepted if and only if all ids so far are present and pairwise distinct |

## Left out

- HTTP transport, retries, streaming, TLS and log reading: only their outcomes, any of which may occur.
- SQLite, migrations and row encodings: the tables are maps with revisions and the three partial unique indexes. `updated_at`, descriptive columns and the workload error type are not kept.
- SHA-256 and canonical JSON: digests, fingerprints, names and identifiers are opaque values, equal exactly when what they identify is equal.
- `await_owned_effect`, whose library is not part of this model: an admitted effect finishes or the process crashes.
- The clock is assumed not to go backwards.
- Retry loops of the Pod service: the source repeats without limit (on a clash of a unique index it does so for ever). The model gives each loop any number of rounds and then ends the process, so nothing is claimed about their progress.
- OllamaService.OllamaLeaseService.WaitUntilReady: how many polls a caller sits out is a parameter, after which the caller is gone; so is `PodService.PodCapacityLeaseService.WaitReady`, where it is then interrupted.
- OllamaService.OllamaLeaseService.ObtainPlan: the preflight checks of image, model and credential may fail in any way and are not modelled further.
- Quotes, capability bearers and their expiry, profiles, and whether the owner and the workload of a catalog call match: each such check may fail at any call.
- PodService.PodCapacityLeaseService.RevokeAndRelease: eventual release is not claimed. A lease whose revocation failed stays RELEASING, and a later visit that brings another receipt is refused.
- PodService.PodCapacityLeaseService.ResolveUncertainCreation: a training lease gives an uncertain create up after its readiness deadline, as the source does; that no Pod of such a create can be billing is not claimed.
- PodGuarantees.StopIsIrrevocable: the order of phases is claimed for protocol-1 leases; leases from before it have no such order. ACKNOWLEDGED is not final, and the billing state may become pending again; billing claims are about the stored receipt.
- PodBackend.Backend.ListFamily: the fallback tokens by which the source also finds members from before families were stored, and the order of the listing.
- PodBackend.Backend.FindPod: a listing by name is trusted about which lease a listed Pod belongs to, and never about absence.
- PodBackend.Backend.StopPod: whether the source asks to stop or to terminate is not told apart; both confirm the same state.
- Pod lifecycle receipts and rates are exact reals in the Pod modules; their decimal texts are the subject of the billing files. `pod_cost_usd` and its rounding are not modelled.
- Costs in plans and accruals are exact reals, where the source uses floats and rounds; the rounding of `exact_decimal_sum` is modelled in full, but not the limits of its exponents.
- CanonicalAmounts.IdentityTextRoundTrip: the sign of a zero is not kept, as in the source, where every zero has the text "0".
- EndpointHours.BatchingRefinesOneQuery: claimed for a history that does not change between the queries of one reading.
- Inventory.ListResources: the source yields items as it goes; the model returns them when the walk has ended, so a caller that stops early is not modelled.
- `get_active_family_attempt`, the catalog lookups, `to_dict` and `from_dict` codecs, Serverless activation, adoption and cleanup, CPU planning, the command line, configuration and the user interface: field comparisons and wiring.
