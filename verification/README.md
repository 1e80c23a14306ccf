# PVPool: the checkout handoff and the pool reconciler

PVPool keeps pools of initialized Kubernetes volumes and hands them out.  Two
controllers do the work and meet only in the cluster's objects: the pool
controller creates claims, runs an init job on each, scales the pool and removes
stale replicas; the checkout controller moves one volume from a pool to a
requester by re-pointing the pool's volume at a "locked" claim of its own,
building a second volume object over the same storage for the requester's claim,
and removing the first volume object and the locked claim once that claim is
bound.

## How the model is built

* **The cluster and its API server** (`Labels`, `Kube`).  Objects are values;
  `Kube.Serve` answers one request.  A put of an object that was never loaded
  creates and fails if the name exists; a put of a loaded object fails unless UID
  and resource version are current; changing a chosen volume name is invalid; a
  delete acts on the loaded UID, marks the object and leaves the rest to
  finalizers; reads are current.
* **The automata** (`Replica`, `Checkouts`).  One reconcile is a state holding
  what the controller has in memory, a function to the next request and a
  function from the answer to the next state.  They are the specification of the
  controllers' code.
* **The system** (`World`).  A transition system whose step is one API call of one
  of any number of checkouts and pool controllers, any call of which may be
  refused; a crash; one step of the provisioner, binder, reclaimer, finalizers or
  job controller; or an action of a user.  `origin`, `taken`, `owned`, `inits` and
  `destroyed` are history, read by no step: where storage came from, what was taken
  from which pool and how it looked then, whose claims were whose, whose init jobs
  succeeded and which claims were marked on another claim's job, what was destroyed.
  `HandoffInvariant`, `HandoffSteps`, `HandoffOwn` and `HandoffRuns` hold the
  inductive invariant; `HandoffTheorems`, `Initialization`, `FixedSpec`, `Recovery`
  and `NonInterference` what follows from it; `Undisturbed` what one checkout's calls
  do to a cluster that nobody else changes; `ReplicaSteps`, `PoolDeletes` and
  `BorrowedJobs` runs of a pool controller, and exactly when two of its steps go
  wrong; `Selection` what loading a pool finds.
* **The code** (`Client`, `PoolReplicas`, `PoolStates`, `PoolReconciler`,
  `CheckoutStates`).  The Go types whose methods update them in place are classes
  whose methods update them in place.  A `Client` logs its calls and answers with
  anything the API server may answer.  Each method that calls the API is proved
  to make exactly the calls of its automaton and to hold what the automaton
  holds; `Refinement` shows that a reconcile in the system, whatever others do in
  between, is its automaton replayed on the answers it got, and that what the code
  does is such a reconcile.
* **The number of replicas** (`Counting`, `Tracking`, `Scaling`).  What the calls of
  one pool controller do to the replicas of its pool when nobody else comes in
  between; the classes are proved to keep their lists in step with the cluster, so
  that a reconcile of the code moves the number in the cluster one step, and the
  number settles at the request.
* **Supporting algebra** (`Validation`, `Conditions`).  Admission of pool and
  checkout specs, labels over a history of specs, condition times over a history
  of reconciles.

A proof hides, first thing, the definitions it does not use, which keeps what the
verifier is given small.

Guards of `World` state the hypotheses the controllers rely on: no checkout's
claim name is its own locked name (`World.Init`; `Validation.NamesApart` says for
which specs); a provisioned volume does not
carry the reclaim-policy annotation (`World.MayProvision`); pool templates do not
set the replica-phase annotation (`World.StepPool`, case `BeginReplica`); users leave the claims
of checkouts and the available mark alone (`World.MayCreate`, `World.MayEdit`)
and delete a final claim only when its locked claim is gone (`World.MayRemove`); nobody
else deletes locked claims or volume objects, and nobody but a checkout edits a volume
object that was provisioned; only pool controllers create jobs, so that every job's
owner is a claim that was created under the job's name, on which
`Initialization.InitBeforeHandOut` rests.

## Where the code falls short of what one might expect

* A pool may delete a claim that another pool owns by then: the owner is looked
  at when the claim is read, and deletion checks only the UID.
  `PoolDeletes.UnownedReadIsNotEnough` leads any pool to such a claim under any name,
  `PoolDeletes.StrikesExactly` says exactly when it can happen, and
  `PoolDeletes.ReadDecides` what the controller could look at before it deletes.
* A claim may be marked available, and its storage handed out, without its init job
  ever having run: the controller looks for the job by the replica's name only, so the
  finished job of an earlier claim of that name, deleted and created again, vouches
  for the new one.  `BorrowedJobs.OtherJobIsNotEnough` is that run, for any pool and
  name.  `BorrowedJobs.OwnJobExactly` says that marking is sound exactly if the job that
  was read is owned by the claim that was read, which the owner reference set at
  pool_replica.go:131-134 would tell, and `Initialization.OwnInitBeforeHandOut` what
  follows for whole runs.
* With no replica requested, scaling down can take the last available replica
  after the pool was reported available: `PoolStates.PoolState.Persist` says
  exactly when, on every exit, and `Scaling.LastOneGoes` gives a cluster in which it
  happens.
* Admission does not look at a template's annotations, and a template that sets
  the replica-phase annotation decides by itself whether a replica with a volume
  counts as available: `Validation.TemplateSetsPhase`.
* README.md:89 of the repository gives 600 seconds as the limit of an init job; the
  code's limit is 300 (`pkg/apis/pvpool.puppet.com/v1alpha1/validation/validation.go:18`).
  The model follows the code.  The same line says the restart policy is always
  `Never`; the controller only fills it in when it is empty and leaves the rest to
  admission (`Validation.JobAccepted`, `Validation.AcceptedJobUntouched`).
* `PoolReplica.Load` dereferences the claim reference of a bound volume without
  looking; the model ends that reconcile with an error.

## Model

| member | source | states |
|---|---|---|
| HandoffTheorems.ExclusiveHandoff | pkg/controller/app/checkout_state.go:141-163 | In every reachable state and over every continuation of the run, a pool volume that refers to a checkout's locked claim goes on referring to it for as long as it exists, and no claim of anybody else ever has that UID. |
| HandoffTheorems.LockedOnly | pkg/controller/app/checkout_state.go:228-239 | A pool volume refers to a standing locked claim only if that very claim took it; it is then retained, with its original policy remembered. |
| HandoffTheorems.OneDestroyer | pkg/controller/app/checkout_state.go:301-332 | In every reachable state at most one volume object over a given storage has a policy that destroys it. |
| HandoffTheorems.TakenStorageLost | pkg/controller/app/checkout_state.go:180-190 | Storage a checkout took is destroyed in one way only: its requester's own volume is reclaimed after the claim it was made for is gone. Deleting the locked claim, the locked volume or the stale pool claim destroys nothing. |
| HandoffTheorems.TakenStorageHeld | pkg/controller/app/checkout_state.go:199-240 | While the locked claim or the final claim of a handoff stands, its storage exists and some volume object holds it, wherever a crash struck. |
| HandoffTheorems.NoOrphan | pkg/controller/app/checkout_state.go:125-156 | A pool volume that is not being deleted is untouched, or is named by the standing locked claim it refers to, so the next reconcile finds it. |
| HandoffTheorems.PolicyPreserved | pkg/controller/app/checkout_state.go:278-301 | However often a handoff is retried, a pool volume has its original policy or remembers it under Retain, and every requester's volume has the original. |
| HandoffTheorems.MarksPreserved | pkg/controller/app/checkout_state.go:287-290 | In every reachable state every volume over a storage, the pool's and the requester's, bears all labels and annotations the storage was provisioned with, those of a CSI deallocator among them. |
| HandoffTheorems.ClaimsAsk | pkg/controller/app/checkout_state.go:314-341 | In every reachable state a checkout's locked claim asks for the class, size and access modes of the pool volume it names, and its final claim for the class and size of the storage behind the volume it names. |
| HandoffTheorems.Acquired | pkg/controller/app/checkout_state.go:266-344 | A bound final claim has a volume made for that claim over storage this checkout took, provisioned for the claim of a replica that, when it was loaded, was marked available, neither deleted nor lost, without a failed init job and the pool's own or unowned, and that had been readied by a successful init job; with its capacity, class and policy, the final claim's access modes, CSI readOnly exactly for [ReadOnlyMany], and every label and annotation that the replica's volume had; the claim asks for that size and class. |
| FixedSpec.HandoffDelivers | pkg/controller/app/checkout_state.go:173-178 | End to end: over every run in which the checkout's spec asks for the same modes throughout, a bound final claim delivers exactly those modes over such storage. |
| Initialization.RanMeansEnded | pkg/controller/app/pool_replica.go:188-231 | The record of claims whose own init job succeeded is earned: some earlier step of the run ended a running job under that name, owned by that very claim, with success. |
| Initialization.InitBeforeHandOut | pkg/controller/app/pool_replica.go:188-231 | Over every run from an empty cluster: before a claim, by its UID, is marked available or storage provisioned for it is taken, its own init job ended with success, or it was marked on the job of another claim of its name, which did. |
| Initialization.MarkedOnOwnJob | pkg/controller/app/pool_replica.go:191-231 | The step that marks a claim does so soundly if the job read was owned by the claim read, and otherwise records that the claim borrowed another's job. |
| Initialization.OwnInitBeforeHandOut | pkg/controller/app/pool_replica.go:188-231 | In runs in which at every marking the job read was owned by the claim read, a claim marked available or handed out had its own init job end with success before. |
| Initialization.AcquiredInitialized | pkg/controller/app/checkout_state.go:266-344 | In such runs, what a checkout acquires is storage provisioned for a claim whose own init job ended with success before. |
| BorrowedJobs.OtherJobIsNotEnough | pkg/controller/app/pool_replica.go:68-72 | For any pool and name, a reachable state whose next step marks a claim available on an earlier claim's job while its own never ran, and then offers its volume. |
| BorrowedJobs.OwnJobExactly | pkg/controller/app/pool_replica.go:131-134 | For every pool and name: marking claims is sound in all reachable states if and only if the job that was read is owned by the claim that was read. |
| HandoffTheorems.StageMonotone | pkg/controller/app/checkout_state.go:192-240 | No step of a controller, component or user and no crash lowers the stage a handoff has reached once the volume is taken. |
| HandoffTheorems.StageNeverFalls | pkg/controller/app/checkout_state.go:192-240 | The same over every continuation of the run. |
| HandoffTheorems.TakenReadopted | pkg/controller/app/checkout_state.go:158-163 | Once a volume is taken, a reconcile of that checkout never consults the pool and writes only about that volume. |
| HandoffTheorems.StepVolume | pkg/controller/app/checkout_state.go:180-190 | A volume object leaves the cluster only by being reclaimed or by being finalized after it was marked. |
| HandoffTheorems.StepDestroys | pkg/controller/app/checkout_state.go:330-332 | Storage is destroyed only by reclaiming a volume that holds it, has a destructive policy and whose claim is gone. |
| HandoffRuns.StepKeepsInv | pkg/controller/app/checkout_state.go:111-244 | Every event keeps the handoff invariant over claim references, UIDs, versions, annotations and what every running reconcile has read. |
| HandoffRuns.RunKeepsInv | pkg/controller/app/checkout_state.go:111-244 | The invariant holds after any number of interleaved calls, crashes and outside actions. |
| Recovery.FreshCompletes | pkg/controller/app/checkout_state.go:60-166 | In every reachable state, a checkout whose two claim names are free and whose pool has a replica on offer reaches a bound final claim over the storage of a replica on offer by one undisturbed reconcile and the binder. |
| Recovery.RecoveryCompletes | pkg/controller/app/checkout_state.go:111-156 | From any reachable state with the volume taken, one undisturbed reconcile and the binder bind the final claim, whatever was half done and whatever pool is named by now. |
| Recovery.RetryAgain | pkg/controller/app/checkout_state.go:266-344 | A reconcile after a complete one reads back what was written and leaves the cluster exactly as it is, down to the resource versions. |
| Recovery.CleanupCompletes | pkg/controller/app/checkout_state.go:173-190 | Once the final claim is bound, one undisturbed reconcile and the finalizers remove the locked claim and the pool's volume object; the requester's claim stays bound and its volume unchanged. |
| NonInterference.CheckoutTouchesOwn | pkg/controller/app/checkout_state.go:125-139 | A checkout changes claims only under its own two names, and only if no claim of somebody else stands there at the moment of the call. |
| NonInterference.PoolTouchesOwn | pkg/controller/app/pool_state.go:77-107 | A pool writes a claim only if nobody else owns it and then owns it, never changes a checkout's claim, and deletes a claim only under the UID it read and only if the claim is its own or had been read unowned. |
| NonInterference.OwnedReadIsEnough | pkg/controller/app/pool_state.go:90-94 | A pool that read the claim as its own deletes nobody else's. |
| PoolDeletes.StrikesExactly | pkg/controller/app/pool_state.go:90-94 | In every reachable state with a replica about to be deleted whose claim still stands: some continuation deletes it from under another owner if and only if it was read unowned and the pool has not become its owner since. |
| PoolDeletes.ReadDecides | pkg/controller/app/pool_state.go:90-94 | While the claim's owner is still the one that was read, that can happen if and only if the owner read was none. |
| PoolDeletes.UnownedReadIsNotEnough | pkg/controller/app/pool_replica.go:58-66 | It happens to any pool and under any name: a reachable state from which its delete call takes a claim from another owner. |
| PoolDeletes.OwnerStays | pkg/controller/app/pool_state.go:90-94 | Over every continuation of a run, a claim that has an owner keeps it for as long as a claim with its UID stands under that name. |
| Refinement.WorldReplays | pkg/controller/reconciler/checkout.go:59-69 | What a checkout's reconcile holds after any stretch of a run, whatever others did, is the automaton replayed on the answers it got. |
| Refinement.ReconcileIsRun | pkg/controller/reconciler/checkout.go:59-69 | From the code to the system: whatever calls `CheckoutStates.Reconcile` logged, with answers the system gave while others made any steps in between, are one run of the system, the choice of the replica included, and it ends with the checkout holding what the reconcile ended with, finished or given up as the code reports. |
| Refinement.ReplicaReplays | pkg/controller/app/pool_replica.go:58-136 | What a pool holds of a replica after any stretch of a run, whatever others did, is the automaton replayed on the answers it got. |
| Refinement.PersistIsRun | pkg/controller/app/pool_replica.go:93-136 | The calls by which the code persists a replica, with answers the system gave, are a run of the system that ends with the same replica in memory. |
| Selection.LoadPartitions | pkg/controller/app/pool_state.go:62-110 | Loading an undisturbed pool lists exactly the claims that match, exist and are not somebody else's, each once: as stale if and only if the claim is being deleted or lost or its init job failed, as available if and only if it is none of that, has its volume and bears the available mark, and as initializing otherwise. |
| Selection.OldestTaken | pkg/controller/app/checkout_state.go:83-106 | A checkout goes on exactly if some replica is on offer, and the one it takes is on offer and none on offer was created earlier. |
| Selection.PoolsDisjoint | pkg/controller/app/pool_state.go:90-94 | Two pools that load the same cluster share no replica unless its claim has no owner. |
| Selection.LoadsWhatIsThere | pkg/controller/app/pool_replica.go:68-91 | Loading one replica ends with what the cluster holds under its name, or finds that it is not there. |
| Checkouts.ConfigureIdempotent | pkg/controller/app/checkout_state.go:266-344 | Configuring twice is configuring once. |
| Checkouts.ConfigureStable | pkg/controller/app/checkout_state.go:283-342 | Configuring what a complete write stored changes nothing. |
| Replica.JobWithinLimits | pkg/controller/app/pool_replica.go:203-225 | A configured init job has a restart policy, stays within both limits and mounts the replica's claim under the asked name, other volumes untouched. |
| Replica.MountedAt | pkg/controller/app/pool_replica.go:216-225 | The claim is mounted where the asked name first occurred, or at the end. |
| Labels.OverlayMatches | pkg/controller/app/pool_replica.go:94 | Overriding one matching label map by another satisfies every requirement of the selector. |
| Kube.ServeFits | pkg/controller/app/pool_replica.go:68-136 | Every answer of the API server is one the controllers are prepared for, and no object is ever stored without a UID. |
| Validation.SpecAccepted | pkg/apis/pvpool.puppet.com/v1alpha1/validation/validation.go:22-82 | A pool spec is admitted if and only if its selector is well formed, not empty and matches its own template, its labels and annotations are well formed, and its init job is acceptable. |
| Validation.JobAccepted | pkg/apis/pvpool.puppet.com/v1alpha1/validation/validation.go:36-62 | An init job is admitted if and only if its restart policy is empty or Never and neither limit is exceeded. |
| Validation.AcceptedJobUntouched | pkg/controller/app/pool_replica.go:203-214 | An admitted init job runs exactly as asked; the controller only fills in what was left out. |
| Validation.SelectorFixed | pkg/apis/pvpool.puppet.com/v1alpha1/validation/validation.go:84-88 | A history of a pool's specs is admitted if and only if each is acceptable in itself and all have the selector of the first; so every template matches it. |
| Validation.PersistedMatches | pkg/controller/app/pool_replica.go:94 | A claim persisted any number of times under any of these templates matches the selector. |
| Validation.CreatedStaysListed | pkg/controller/app/pool_state.go:63-75 | Over any history of accepted updates every claim the pool created is returned by each of its list calls. |
| Validation.TemplateSetsPhase | pkg/controller/app/pool_replica.go:94 | Persisting leaves a replica available exactly if it has a volume and the template's phase annotation, or else its own, says so. |
| Validation.SpecChangesUnselected | pkg/apis/pvpool.puppet.com/v1alpha1/validation/validation.go:90-97 | A history of a checkout is admitted if and only if its spec never differs between two moments without having changed, in between, while no volume was recorded in its status. |
| Validation.NamesApart | pkg/controller/app/checkout_state.go:246-264 | A checkout's two claims have different names if and only if its spec does not name the locked one; no two checkouts have a locked claim of one name. |
| Conditions.TransitionTime | pkg/controller/app/condition.go:11-25 | After any number of persisted reconciles there is one condition per type in fixed order; its status (an empty one read as unknown), reason and message are those last reported, and its time is the clock at the start of the longest run of reports with these three. |
| Conditions.LookupRefreshed | pkg/controller/app/pool.go:13-22 | The condition stored for a type is the update of the one found for it by the one reported for it. |
| Client.Client.constructor | pkg/controller/reconciler/pool.go:34-36 | A controller starts with no call made. |
| Client.Client.Call | pkg/controller/app/pool_replica.go:68-91 | Each call is logged with its answer, which may be any the API server can give. |
| Client.Client.WriteStatus | pkg/controller/reconciler/pool.go:61-67 | Status writes are counted and may fail. |
| Client.Client.WriteObject | pkg/controller/reconciler/pool.go:74-77 | Writes of the object itself are counted and may fail. |
| Client.Rng.Uint64N | pkg/controller/app/pool_replica.go:265-268 | A draw is below its bound or fails. |
| Client.ProcThen | pkg/controller/reconciler/checkout.go:59-69 | A run of the checkout automaton continued by a run is a run. |
| Client.ScanRuns | pkg/controller/app/pool_state.go:80-107 | The calls of loading one replica are a stretch of the calls of loading the pool. |
| Client.LookingRuns | pkg/controller/app/checkout_state.go:83-86 | The calls of loading the pool are a stretch of the calls of a checkout's reconcile. |
| PoolReplicas.PoolReplica.constructor | pkg/controller/app/pool_replica.go:148-154 | A new replica holds nothing that was loaded. |
| PoolReplicas.PoolReplica.Load | pkg/controller/app/pool_replica.go:68-91 | Makes the automaton's calls and holds what it holds; reports a replica that is gone, or whose volume belongs to somebody else, as not there. |
| PoolReplicas.PoolReplica.PersistClaimAlone | pkg/controller/app/pool_replica.go:101-112 | With the init job done or there, it is deleted if the replica is available and only the claim is written. |
| PoolReplicas.PoolReplica.PersistClaimAndJob | pkg/controller/app/pool_replica.go:113-135 | Otherwise the claim is written and then the job. |
| PoolReplicas.PoolReplica.Persist | pkg/controller/app/pool_replica.go:93-136 | Makes exactly the automaton's calls, fails exactly when it does and is entered once in the ledger. |
| PoolReplicas.PoolReplica.Delete | pkg/controller/app/pool_replica.go:58-66 | On success the calls made are the removal of the job that was loaded, if one was, and then of the claim that was loaded, if one was, each accepted; otherwise the last of them was refused. Counted as deleted exactly on success. |
| PoolReplicas.PersistAvailability | pkg/controller/app/pool_replica.go:93-112 | Whatever calls fail, persisting changes whether a replica is available only through the template's phase annotation. |
| PoolReplicas.IndexVolumeByName | pkg/controller/app/pool_replica.go:277-285 | The loop finds the first volume of that name, or -1. |
| PoolReplicas.ConfigureJob | pkg/controller/app/pool_replica.go:191-225 | The job's new spec is the template's within the limits, the claim mounted. |
| PoolReplicas.ConfigurePoolReplica | pkg/controller/app/pool_replica.go:156-234 | The updated replica is the configured one: stale and available replicas are left alone; of any other the phase annotation tells whether its job succeeded, a claim not yet written asks for what the template says, and a job that has not succeeded is the one the pool asks for, within the limits and with the claim mounted. |
| PoolReplicas.ApplyPoolReplica | pkg/controller/app/pool_replica.go:236-255 | The whole trace: the replica is loaded to the end of its automaton, configured whether or not it was there, and persisted to the end of its automaton, failing exactly when one of them does; under a free name the stored claim is pending, the pool's own, with the template's labels and annotations, asking for what the template says, and the stored job is running, owned by it and the one the pool asks for. |
| PoolReplicas.CreatedWell | pkg/controller/app/pool_replica.go:236-255 | What loading nothing, configuring and a complete persist leave is such a new replica: its job mounts its claim under the template's volume name or "workspace" and leaves the other volumes, has the template's restart policy or Never, a deadline of at most 300 and a retry limit of at most 10, the template's where those are smaller, and the template's labels. |
| PoolReplicas.CreationRun | pkg/controller/app/pool_replica.go:113-135 | While a new replica is created, whatever is refused, what is held is what was sent until the server has stored it, the claim and the whole job. |
| PoolReplicas.JobsAsAsked | pkg/controller/app/pool_replica.go:113-135 | Whenever an initializing replica is configured and persisted, new or not, every init job that is sent to the server, whatever is refused, is the one the pool asks for. |
| PoolReplicas.KeysDiffer | pkg/controller/app/pool_replica.go:237-240 | Different ids give a pool's replicas different names, in the namespace in which the pool lists. |
| PoolReplicas.PoolReplicas.Append | pkg/controller/app/pool_state.go:96-106 | Adds at the end. |
| PoolReplicas.PoolReplicas.Pop | pkg/controller/app/pool_replica.go:259-275 | Takes out one replica and keeps all others, changes nothing if the draw fails, and finds none only in an empty list. |
| PoolReplicas.PoolReplicas.SwapRemove | pkg/controller/app/pool_state.go:120-122 | Removes the replica at a place by moving the last one there; nothing else is lost. |
| PoolReplicas.PoolReplicas.SortByCreation | pkg/controller/app/pool_replica.go:287-295 | An ordered permutation: no replica stands before one created earlier. |
| PoolStates.PoolState.constructor | pkg/controller/app/pool_state.go:287-292 | Three empty lists and no conditions. |
| PoolStates.PoolState.Place | pkg/controller/app/pool_state.go:198-205 | The replica is added to exactly the list its state says: as stale if and only if its claim is being deleted or lost or its init job failed, as available only with a volume and the mark. |
| PoolStates.PoolState.Sort | pkg/controller/app/pool_state.go:96-106 | The lists with one more replica are those of the automaton with one more. |
| PoolStates.PoolState.LoadReplica | pkg/controller/app/pool_state.go:80-107 | One listed replica is loaded and, if it is there and not somebody else's, sorted in. |
| PoolStates.PoolState.LoadReplicas | pkg/controller/app/pool_state.go:80-107 | All listed replicas, in order. |
| PoolStates.PoolState.Load | pkg/controller/app/pool_state.go:62-110 | Makes exactly the calls of the load automaton, fails exactly when it does, and leaves its three lists: stale are those whose claim is being deleted or lost or whose init job failed, available those of the others that have a volume and the mark. |
| PoolStates.PoolState.Configure | pkg/controller/app/pool_state.go:294-310 | Every initializing replica is configured; a request of none is reported; lists in step with the cluster stay in step. |
| PoolStates.PoolState.PersistAt | pkg/controller/app/pool_state.go:112-126 | Persists one initializing replica and moves it if and only if it is available; lists in step with an undisturbed cluster stay in step. |
| PoolStates.PoolState.PersistNext | pkg/controller/app/pool_state.go:112-126 | One turn of the loop keeps its invariant, with what was visited kept or moved. |
| PoolStates.PoolState.PersistInitializing | pkg/controller/app/pool_state.go:112-129 | Each initializing replica is persisted exactly once under swap-removal; then those left are not available and those moved are, and on an error this holds of the prefix visited. |
| PoolStates.PoolState.PersistLoop | pkg/controller/app/pool_state.go:112-129 | The loop itself, over distinct replicas. |
| PoolStates.PoolState.PersistListed | pkg/controller/app/pool_replica.go:93-136 | If nobody else changes the cluster meanwhile, persisting a listed replica does not fail and leaves the lists in step with it: the same replicas count, each as it is held. |
| PoolStates.PoolState.PersistOneAvailable | pkg/controller/app/pool_state.go:132-142 | Availability is reported if and only if the write succeeded. |
| PoolStates.PoolState.PersistAvailable | pkg/controller/app/pool_state.go:131-145 | The available replicas are persisted in order up to the first failure, and the pool is reported available exactly if one write succeeded. |
| PoolStates.PoolState.Delete | pkg/controller/app/pool_state.go:36-60 | Whatever fails, what is listed plus what was deleted stays the same; on success all three lists are empty. |
| PoolStates.PoolState.DrainOne | pkg/controller/app/pool_state.go:42-56 | The same of one of the lists, the others untouched. |
| PoolStates.PopAndDelete | pkg/controller/app/pool_state.go:44-55 | A popped replica is deleted, its loaded job before its loaded claim by calls that were accepted, or put back after one that was refused. |
| PoolStates.Drain | pkg/controller/app/pool_state.go:43-56 | A list is emptied unless a deletion fails; nothing is lost either way. |
| PoolStates.PoolState.ScaleUp | pkg/controller/app/pool_state.go:182-208 | One replica is gained exactly if there is no error; under a free name it is newly created as the pool asks and lands among the initializing ones and, in an undisturbed cluster, is the one replica more there; an invalid claim is reported. |
| PoolStates.PoolState.ScaleDown | pkg/controller/app/pool_state.go:210-237 | One replica is removed, an available one only if none is initializing, and is put back if its deletion fails; in an undisturbed cluster it is the one replica less there. |
| PoolStates.PoolState.Resize | pkg/controller/app/pool_state.go:249-254 | One replica is created or removed, toward the request; the last available one is lost only if none is requested. |
| PoolStates.PoolState.Scale | pkg/controller/app/pool_state.go:239-265 | One step toward the request and never past it; settlement is reported only with nothing initializing and exactly the requested number available; the lists stay in step with an undisturbed cluster. |
| PoolStates.PoolState.PersistStaleOne | pkg/controller/app/pool_state.go:153-177 | A popped stale replica is deleted or put back; a failed init job is reported either way. |
| PoolStates.PoolState.PersistStale | pkg/controller/app/pool_state.go:147-180 | Without an error none is left and the report says whether any init job had failed; on an error nothing is lost. |
| PoolStates.PoolState.DeleteStale | pkg/controller/app/pool_state.go:147-180 | The same, seen from the whole pool. |
| PoolStates.PoolState.PersistScaleAndStale | pkg/controller/app/pool_state.go:276-282 | The two last phases conserve replicas and keep the reports true; the step was made if the scaling phase did not fail, whatever came of the stale ones. |
| PoolStates.PoolState.PersistRest | pkg/controller/app/pool_state.go:272-284 | The same from the second phase on; on every exit a pool with an available replica ends without one if and only if the step was made, at most zero were requested, exactly one was available and none initializing. |
| PoolStates.PoolState.Persist | pkg/controller/app/pool_state.go:267-285 | On every outcome, what was listed plus the replica created is what is listed plus what was deleted, nothing twice; without an error nothing stale is left and the number moved one step toward the request; settlement and availability are reported only when they hold, and a pool reported available is left without one if and only if the step was made, none was requested and one replica was there; the lists stay in step with an undisturbed cluster, in which it fails only if the source of random numbers does. |
| PoolStates.PoolState.LoadTracks | pkg/controller/app/pool_state.go:62-110 | Lists loaded from an undisturbed cluster are in step with it: those live are exactly the replicas that count there, as they are there, and nothing listed as stale counts. |
| PoolStates.PoolState.ActualCounts | pkg/controller/app/pool_state.go:245 | What a controller in step with the cluster counts is the number of replicas in the cluster. |
| PoolStates.SwapRemoved | pkg/controller/app/pool_state.go:121-122 | A swap-removal keeps the part before it in place and loses only the removed element. |
| PoolReconciler.ConfigurePool | pkg/controller/app/pool.go:8-25 | Status counts are those of the lists and the conditions those of this reconcile. |
| PoolReconciler.StatusTells | pkg/controller/app/pool.go:13-22 | The status says true of a condition exactly if this reconcile reported it. |
| PoolReconciler.Finalize | pkg/controller/reconciler/pool.go:74-80 | A pool that stays has its finalizer set, and its lists are left alone; one being deleted loses it only once everything listed was deleted, which it is if no call fails, and keeps what it has otherwise; the pool is written exactly if that changed. |
| PoolReconciler.FinalizeOrPersist | pkg/controller/reconciler/pool.go:74-85 | Finalizing or configuring and persisting, with true reports on every exit and, in an undisturbed cluster, one step toward the request. |
| PoolReconciler.ConfigureAndPersist | pkg/controller/reconciler/pool.go:82-85 | The same of a pool that stays. |
| PoolReconciler.ReconcileLists | pkg/controller/reconciler/pool.go:70-85 | The same from loading on. |
| PoolReconciler.Reconcile | pkg/controller/reconciler/pool.go:40-86 | The status is written once on every exit unless the pool is being deleted, and what it says is true of the lists; a reconcile without an error that nobody disturbs moves the number of replicas in the cluster one step toward the request, and one that nobody disturbs ends without an error if the name it generates is free, every volume has a claim reference, the source of random numbers does not fail and the writes of the pool itself are accepted. |
| Scaling.Settles | pkg/controller/app/pool_state.go:182-265 | With no failures and nothing taken, over any number of undisturbed reconciles, each doing no more than `PoolReconciler.Reconcile` is proved to do, and whatever Kubernetes does between them, the number of replicas in the cluster is closer to the request by exactly one for each reconcile, until it is the request, one if the pool asks for no number, and stays there. |
| Scaling.LastOneGoes | pkg/controller/app/pool_state.go:210-237 | An actual cluster: a pool that requests none has one available replica before an undisturbed reconcile and none after it. |
| Scaling.TurnsCount | pkg/controller/app/pool_state.go:239-265 | After any such turns the cluster holds exactly the number of replicas that the steps lead to. |
| Counting.PersistKeeps | pkg/controller/app/pool_replica.go:93-136 | The calls of persisting a replica that counts, answered by an undisturbed cluster, leave the set of replicas as it is and in memory what is stored; the init job of one that is available is then gone. |
| Counting.CreateAdds | pkg/controller/app/pool_replica.go:236-255 | The calls of applying a replica under a free name, so answered, add exactly that one, initializing, with the claim and the init job the pool asks for stored in the cluster, and leave in memory what is stored. |
| Counting.RemoveTakes | pkg/controller/app/pool_replica.go:58-66 | The calls of deleting a loaded replica, so answered, take exactly that one out of the count if it was in it, and leave neither the init job that was loaded nor a claim under its name that is not on its way out. |
| Counting.ConfigureMirrors | pkg/controller/app/pool_replica.go:156-234 | A replica held as it is in the cluster is still so after configuring, but for its annotations. |
| Counting.PersistSucceeds | pkg/controller/app/pool_replica.go:93-136 | Persisting a replica that counts, so answered, does not fail. |
| Counting.CreateSucceeds | pkg/controller/app/pool_replica.go:236-255 | Nor does applying one under a free name. |
| Counting.RemoveSucceeds | pkg/controller/app/pool_replica.go:58-66 | Nor does deleting one whose claim and job are those that were loaded. |
| Counting.CountsIff | pkg/controller/app/pool_state.go:90-106 | What counts toward the request are exactly the claims that match, are the pool's or nobody's, neither deleted nor lost, without a failed init job and, if bound, with a volume that refers back. |
| Counting.ServedLoad | pkg/controller/app/pool_state.go:62-110 | A load that nobody disturbs changes nothing and finds exactly the replicas that count. |
| Scaling.CalmKeeps | pkg/controller/app/pool_state.go:96-106 | Provisioning, binding, losing, reclaiming, finalizing and successful jobs leave the set of replicas as it is. |
| Scaling.Converges | pkg/controller/app/pool_state.go:245-254 | Any number of steps toward the request leads as many replicas closer to it, never past it, and no further once it is reached or nothing is left. |
| CheckoutStates.CheckoutState.constructor | pkg/controller/app/checkout_state.go:246-264 | Nothing is held and nothing reported. |
| CheckoutStates.CheckoutState.LoadPair | pkg/controller/app/checkout_state.go:125-156 | Reads one claim and its volume as the automaton does; a claim that is there and not the checkout's own is reported as a conflict, exactly then, and nothing else is. |
| CheckoutStates.CheckoutState.LoadFromPool | pkg/controller/app/checkout_state.go:60-109 | Makes the automaton's calls and takes the volume of an available replica that no other predates; reports exactly that the pool is missing or could not be read, or that it was loaded and has none available. |
| CheckoutStates.CheckoutState.Load | pkg/controller/app/checkout_state.go:111-166 | Makes exactly the automaton's calls, fails exactly when it does, and reports a conflict, a missing pool or an empty pool exactly for the error that is that, and otherwise nothing. |
| CheckoutStates.CheckoutState.Configure | pkg/controller/app/checkout_state.go:266-344 | Overwrites the held objects with the configured ones: of a volume that was taken, the requester's has every label and annotation, the storage, the size and the remembered policy and refers to the final claim, and the pool's own is retained and refers to the locked claim. |
| CheckoutStates.CheckoutState.PersistPair | pkg/controller/app/checkout_state.go:212-240 | The claim is written before the volume, which refers to the UID the server gave; invalid is reported exactly if the server called the claim invalid. |
| CheckoutStates.CheckoutState.PersistPairs | pkg/controller/app/checkout_state.go:199-240 | The locked pair before the final one; invalid is reported exactly if the server called one of the claims invalid. |
| CheckoutStates.CheckoutState.RemovePair | pkg/controller/app/checkout_state.go:180-190 | The locked volume before the locked claim, each only if it was loaded. |
| CheckoutStates.CheckoutState.Persist | pkg/controller/app/checkout_state.go:168-244 | Makes exactly the automaton's calls from the configured state on; acquired is reported exactly if the claim was bound, invalid exactly if the server called a claim invalid, and otherwise nothing. |
| CheckoutStates.OldestAvailable | pkg/controller/app/checkout_state.go:83-106 | Load and sort give an available replica that no other available one predates, or none if there is none. |
| CheckoutStates.OldestFirst | pkg/controller/app/checkout_state.go:101-102 | The first of an ordered permutation is one that none predates. |
| CheckoutStates.ConfigureCheckout | pkg/controller/app/checkout.go:9-38 | The status names the volume held, and the claim exactly if it is bound. |
| CheckoutStates.StatusTells | pkg/controller/app/checkout.go:26-35 | The status says acquired exactly if this reconcile reported it. |
| CheckoutStates.ReconcileState | pkg/controller/reconciler/checkout.go:59-69 | Load, configure and persist are one run of the automaton; a requeue is asked for exactly if loading failed. |
| CheckoutStates.Reconcile | pkg/controller/reconciler/checkout.go:33-70 | The calls are a run of the automaton, to its end if there is no error; the status is written once on every exit and says acquired exactly if the final claim was found bound. |

## Left out

What the repository does and the model does not:

- Process start-up, configuration, leader election, rate limits, watches, logging and events: no property depends on them.
- Webhook handlers, the access review of `pkg/webhook`, health checks and certificates: thin wrappers over services that are not in the repository.
- Reading the reconciled checkout or pool object, and what happens when it is gone: the reconcile starts with the object in hand.
- The `leg/k8sutil` library is not part of this model's sources: its create, update, delete, own and finalize calls are modelled by the contract in `Kube`, `Replica.MayOwn` and `PoolReconciler.Finalize`.
- Stale informer caches: reads are current.
- Two reconciles of one checkout at the same time: the work queue excludes them, and so does `World`.
- Changes of volume objects by users: volumes are written by checkouts, the provisioner, the reclaimer and the finalizers only.
- Volume names are values derived from a UID, and the names of replicas and locked claims are concatenations; truncation and hashing of names (`norm.MetaNameSuffixed`) are not modelled, so distinct UIDs and ids have distinct names.
- Every reclaim policy but Retain counts as destroying storage, Recycle included, and reclaiming removes volume and storage in one step.
- Messages of conditions are constants; the names and errors interpolated into them are not modelled.
- A selector that does not parse makes `PoolState.Load` fail in the code; admission excludes it (`Validation.SpecAccepted`), and `Kube.ListClaims` takes a parsed one.
- The dependency annotation of pool_replica.go:124-129 is not modelled. Of a job's owner reference the claim's UID is; a deleted job goes at once, without the foreground propagation of pool_replica.go:104, and the collector may take any other at any time.
- What an init job's pod writes is not modelled: a job is tied to the claim that owns it, and storage to the claim it was provisioned for.
- Slices shared between an init job and the pool's template: pool_replica.go:196 copies shallowly and 217-225 may write into the template's array. What is stated of a job's volumes is stated of one call.
- 32-bit counts: `int32` conversions of list lengths are exact below 2^31 replicas and are modelled as exact.
- The loops over two or three literal list elements (pool_state.go:42, pool_state.go:220, checkout_state.go:125 and 212) are written out element by element.
- Progress after losing a race: a checkout whose locked claim already names a volume that somebody else took gets an invalid update for ever. Safety is proved there, progress is not.
- Deleting the final claim while the locked pair still stands, and a claim name equal to the checkout's own locked name: excluded by hypothesis.
- PoolReplicas.ApplyPoolReplica: that the replica is newly created is stated when nothing was found under the generated name; the code's name is a random UUID.
- PoolStates.PoolState.Persist: the step toward the request on the lists is stated when the replica created is not stale at once, which holds under a free name (`PoolReplicas.CreatedWell`); the step in the cluster has no such condition.
- CheckoutStates.CheckoutState.Persist: asks for held claims that are new or the checkout's own, which `Load` establishes, so the failure of `Own` at checkout_state.go:213-215 does not occur in it.
- Scaling.Settles: a reconcile that somebody disturbs is not counted on; what it does to the cluster is bounded by `NonInterference.PoolTouchesOwn` only. The cluster is one in which no claim names a volume that is yet to be provisioned (`Counting.Sound`); a user could write such a claim.
- PoolReconciler.Reconcile: `generation` and the finalizer are fields of the object in hand; their concurrent change by somebody else shows only as a refused write.
- Validation.SpecChangesUnselected: ConfigureCheckout clears the recorded volume name when a load fails, so a spec may become mutable again after a volume was selected; the lemma says no more than admission does.
