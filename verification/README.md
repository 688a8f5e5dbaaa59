# Placement controllers, cluster provider and JWK numbers: a verified model

This project models the part of the platform that is a small distributed protocol, and proves what it
keeps: two placement controllers (VMs and buckets), the provider that tells them which clusters exist,
and the decoding of RSA key numbers in the OIDC verifier. `dafny verify dfyconfig.toml` checks all of it.

## How it is modelled

* **State machines.** `VmProtocol` and `BucketProtocol` hold what the API servers hold (hub requests with
  finalizer, deletion mark and status; spoke VMs, Secrets and claims; the engaged clusters) plus the program
  point of every pass in flight. One event is one client call, one crash, or one step of users, Rook,
  KubeVirt or the fleet. A call may succeed, fail, or take effect and lose its answer. `VmProtocol` has any
  number of requests at once, `BucketProtocol` one; both have any number of status passes at once.
* **The controllers as programs.** `VmReconciler` and `BucketReconciler` hold the reconcilers as classes,
  method by method, against a `World` in which others may act between any two calls. Every client call is
  made with its arguments and must be the one the state machine expects there; each method is proved to be a
  run of the state machine, and an undisturbed pass to converge.
* **Plain terms.** What the state machine and a reconciler share, and what a method and its specification share,
  is also stated once without them: `Undisturbed` (all an undisturbed pass does, from any state), `Reports`,
  `ScaledTo`, `Released`, `Offers`, `Discovered`, `Reads`, and the lemmas whose names end in `Is`, `Means` or `Mean`.
* **Pure rules.** `VmDomain`, `BucketDomain`, `VmAdapter`, `BucketAdapter` and `Objects` hold planning, names,
  placement, parsing, owner labels and status rendering; loops stay loops.
* **Runs.** `Runs` holds reachability once for all three machines; `SteadyRunsReach` and `PossibleRunsReach` tie
  it to their runs.
* **The provider.** `FleetIndex` is the interleaving of IndexField calls with discover at the grain of lock
  sections and index calls; `FleetProvider` is the class with its maps, and the meaning of a poll.
  Cluster instances are numbered in the order they are stored.

## What is assumed

* **The API server** takes an object off the hub once it is marked and has no finalizer, and accepts no new
  finalizer on a marked object. At most one pass of a request controller is in flight per request; a pass
  may outlive its request: deletion and re-creation under a running pass are covered, with the same placement.
* **Reads are live.** The controllers read unstructured objects through clients that do not cache those by
  default, and Secrets and ConfigMaps through the API reader.
* **Steadiness.** While a request is in use (a pass over it is in flight, or it owns something on a spoke)
  its placement does not change: region, tenant and Secret name stay, the region resolves to the same
  cluster, and that cluster stays engaged. Replicas may change at any time. Nothing enforces this: the
  region is mutable in the CRD.
* **Tenant.** The tenant label is missing or the request's own namespace
  (docs/platform-mvp/architecture.md:62), so a VM or claim identity belongs to one request.
* **Prompt deletion** is a parameter of a VM world, not an assumption: results that need it say so.
* A replica count is a non-negative Go `int`.

## Where the code differs from its words

* docs/platform-mvp/architecture.md:93 has a delete wait until the spoke confirms that the workload is gone.
  Bucket cleanup does; VM cleanup only asks (`VmLimits.PromptnessDecides` says exactly when that is enough).
* The comment on `BucketName` calls names unique across tenants; that needs tenants none of which, followed
  by a dash, begins another (`BucketDomain.BucketNamesUnique`).
* The deletion order is not determined for names that parse to one index, as `vm-7` and `vm-07` do
  (`VmDomain.PlanUndetermined`).
* Requests that do not parse, lack a tenant or have no engaged cluster are released at once by design.
  `VmReconciler.LeftBehind` and `BucketReconciler.RequestReconciler.Finalize` say exactly when that, or an
  edited region, leaves something behind; `VmLimits` and `BucketLimits` hold runs from empty worlds that do.
* Requests of one namespace and region that name the same Secret share its copy: the first to be cleaned up
  takes it from the others (`VmSafety.SharedSecrets`).

## Model

| member | source | states |
|---|---|---|
| `VmSafety.NoOrphans` | platform-mvp/vm-binding-controller/controller/reconciler.go:84-113 | From an empty world, over every steady interleaving of request passes (each call may fail, take effect unseen, or be the last before a crash), status passes, users and spokes: a request that is off the hub or no longer holds the finalizer has no Secret copy on any spoke and no VM except ones already asked to go; where deletion is prompt it has no VM at all |
| `VmSafety.StepKeeps` | platform-mvp/vm-binding-controller/controller/reconciler.go:163-199 | Every single step of anybody keeps the invariant behind that: an owned VM or Secret implies a request on the hub, holding the finalizer and placed on that very cluster and namespace, and each program point of a pass has its own condition |
| `VmSafety.SteadyRunKeeps` | platform-mvp/vm-binding-controller/controller/reconciler.go:60-113 | The invariant survives whole steady runs |
| `VmSafety.OwnedObjectsAreHome` | platform-mvp/vm-binding-controller/controller/reconciler.go:136-159 | In every reachable state an owned VM not asked to go is on the cluster its request names, in the tenant namespace, under one of the names only that request generates |
| `VmSafety.Isolation` | platform-mvp/vm-binding-controller/controller/reconciler.go:136-159 | In no interleaving does a step of a pass over one request change or remove a VM of another, or try to create a VM where one of another stands |
| `VmSafety.ForeignName` | platform-mvp/vm-binding-controller/adapter/adapter.go:75-97 | No VM of another request in the same namespace carries a name the request could generate |
| `VmSafety.SharedSecrets` | platform-mvp/vm-binding-controller/controller/reconciler.go:193-197 | In every reachable state a step of one pass removes or changes the Secret at another request's place if and only if both requests name the same place and the call is the cleanup's delete or an update with other data; never across namespaces |
| `VmLimits.PromptnessDecides` | docs/platform-mvp/architecture.md:93 | The documented promise that a delete waits for the workload to be gone holds of VMs in all steady runs if and only if the world deletes VMs promptly; cleanup itself does not wait |
| `VmLimits.SlowDeletionOutlives` | platform-mvp/vm-binding-controller/controller/reconciler.go:183-199 | From every empty world with slow deletion there is a steady run after which the request is gone and its VM is still there |
| `VmLimits.DisengagementOrphans` | platform-mvp/vm-binding-controller/controller/reconciler.go:163-182 | From every empty world: a steady run, then the cluster of a running VM is disengaged, then one cleanup pass, and the request is gone while the VM runs on, asked by nobody to go; VmReconciler.LeftBehind gives the exact condition |
| `VmReconciler.LeftBehind` | platform-mvp/vm-binding-controller/controller/reconciler.go:163-199 | For every state: an undisturbed cleanup pass leaves a live VM of its request behind if and only if one stands outside the listing it makes, or it finds no spoke at all (no engaged cluster, no tenant, a spec that does not parse); likewise the Secret copy |
| `VmScaling.NoGaps` | platform-mvp/vm-binding-controller/controller/reconciler.go:136-159 | With prompt deletion and nobody else removing or naming VMs of the request: after any run of failing, crashing and repeated passes with changing replica counts, the VMs of a live request are exactly indices 0..n-1 for some n |
| `VmScaling.StepGapless` | platform-mvp/vm-binding-controller/domain/domain.go:76-98 | Each create, each delete, each plan and each step of anybody else keeps the VMs contiguous and the rest of a running plan in line with them |
| `VmDomain.PlanOfContiguous` | platform-mvp/vm-binding-controller/domain/domain.go:69-100 | If indices 0..k-1 are owned, the plan creates k, k+1, ... upwards or deletes k-1, k-2, ... downwards, never both |
| `VmStatus.Agreement` | platform-mvp/vm-binding-controller/controller/reconciler.go:214-237 | Two writers: from a moment on the spoke keeps calling for one status, and in time every pass over the request that was in flight at that moment ends; the first pass of either controller that begins after that and completes leaves exactly that status, and it stays whatever overlapping passes do and whichever calls fail. In the end state readyReplicas is the number of indices below replicas whose VM is there, owned and ready, and the phase is Ready if all are and Pending otherwise |
| `VmStatus.BoundStep` | platform-mvp/vm-binding-controller/controller/status_reconciler.go:52-71 | Every pass that begins while the spoke holds still works on the request as it is, and a status it is about to write is the right one; its copy of the status is not trusted |
| `VmStatus.OlderPassesEnd` | platform-mvp/vm-binding-controller/controller/reconciler.go:214-237 | Once the passes that are older than the stillness have ended, or if there were none, that holds of every pass |
| `VmStatus.CompletionAgrees` | platform-mvp/vm-binding-controller/adapter/adapter.go:184-201 | A pass begun since then that ends where it compares or writes the status leaves the right one, even if it ends without a write |
| `VmStatus.CompletesMeans` | platform-mvp/vm-binding-controller/controller/reconciler.go:214-237 | The passes that complete are exactly those an answered call ends where the status was compared or written |
| `VmStatus.Silence` | platform-mvp/vm-binding-controller/adapter/adapter.go:184-201 | Once the status is right and the older passes have ended, every later call that writes it is made by a pass that was in flight then already, even among overlapping passes |
| `VmStatus.ForeignClusterStops` | platform-mvp/vm-binding-controller/controller/status_reconciler.go:57-71 | A pass begun for a VM on a cluster other than the one the request names never comes to a write, in any run in which the spoke holds still |
| `VmReconciler.RequestReconciler.Reconcile` | platform-mvp/vm-binding-controller/controller/reconciler.go:60-113 | A pass walks the protocol whatever interferes with it and whichever call fails. Undisturbed, from any state: nothing for a request that is gone; on its way out, its listed VMs are asked to go, its Secret copy goes and it leaves the hub; an error and no change for a spec that does not parse; exactly the status for a missing tenant; the finalizer and exactly the status for a cluster that is not engaged; the finalizer and an error without the hub Secret; otherwise the finalizer, the copied Secret, every VM as scaling says, and the status counting its ready VMs. With nothing in its way it reaches the fixpoint, from which a pass writes nothing and changes nothing |
| `VmReconciler.RequestReconciler.Handle` | platform-mvp/vm-binding-controller/controller/reconciler.go:62-113 | The same from the request it has read |
| `VmReconciler.FixpointMeans` | platform-mvp/vm-binding-controller/controller/reconciler.go:60-113 | The fixpoint is exactly: the finalizer, a Secret copy equal to the hub's, the VMs of indices 0..replicas-1 and no other of the request in its place, and a status that counts those that are ready |
| `VmReconciler.ServedConverges` | platform-mvp/vm-binding-controller/controller/reconciler.go:101-113 | A request that was served with nothing in the way has reached the fixpoint |
| `VmReconciler.TwoPasses` | platform-mvp/vm-binding-controller/controller/reconciler.go:60-113 | Of two undisturbed passes the first reaches the fixpoint and the second issues no write and leaves the state as it was |
| `VmReconciler.RequestReconciler.Attend` | platform-mvp/vm-binding-controller/controller/reconciler.go:84-113 | The pass from the finalizer on: undisturbed, the finalizer is set and the rest is what Place says; at rest if already at the fixpoint |
| `VmReconciler.RequestReconciler.AddFinalizer` | platform-mvp/vm-binding-controller/controller/reconciler.go:84-90 | The finalizer patch changes nothing but the finalizer; the pass goes on with the status the answer shows |
| `VmReconciler.RequestReconciler.Place` | platform-mvp/vm-binding-controller/controller/reconciler.go:92-113 | Undisturbed, without an engaged cluster the request is reported Unschedulable with the message for its region and nothing else changes; without the hub Secret it fails and nothing changes; otherwise Secret, VMs and status are synced as described there |
| `VmReconciler.RequestReconciler.Sync` | platform-mvp/vm-binding-controller/controller/reconciler.go:101-113 | Undisturbed: the Secret copied, every VM as scaling says and the status reporting them, whatever stood there before; an error and no change without the hub Secret |
| `VmReconciler.RequestReconciler.SyncSecret` | platform-mvp/vm-binding-controller/controller/reconciler.go:115-134 | Undisturbed, the spoke copy ends with the hub Secret's data, created under the owner labels or updated with its owner kept, and left untouched when equal; nothing else changes; without a hub Secret it fails and changes nothing |
| `VmReconciler.RequestReconciler.SyncVMs` | platform-mvp/vm-binding-controller/controller/reconciler.go:136-159 | Undisturbed, from any state: at each desired name the VM that stood there, or a new one of the request; each other VM of the request in its place asked to go; every other VM as before; nothing is written if the owned names were the desired ones |
| `VmReconciler.PlanScales` | platform-mvp/vm-binding-controller/controller/reconciler.go:136-159 | Carrying out any plan PlanVMs may make does just that to every VM on every spoke |
| `VmReconciler.ScaledToScales` | platform-mvp/vm-binding-controller/controller/reconciler.go:136-159 | Without strangers under its names and with prompt deletion, the request then owns exactly the desired names |
| `VmReconciler.RequestReconciler.CreateVMs` | platform-mvp/vm-binding-controller/controller/reconciler.go:144-148 | The create loop adds a new VM of the request at every planned name where none stands and changes nothing else; any failure stops it at a point the protocol knows |
| `VmReconciler.RequestReconciler.DeleteVMs` | platform-mvp/vm-binding-controller/controller/reconciler.go:149-157 | The delete loop asks exactly the planned VMs to go, gone at once where deletion is prompt, and changes nothing else; any failure stops it at a point the protocol knows |
| `VmReconciler.RequestReconciler.SyncStatus` | platform-mvp/vm-binding-controller/controller/reconciler.go:216-223 | Undisturbed, the status becomes the one that counts the indices below replicas whose VM is there, owned and ready, Ready if all are and Pending otherwise, with one write if the pass's copy differed and none otherwise |
| `VmReconciler.RequestReconciler.PatchStatus` | platform-mvp/vm-binding-controller/controller/reconciler.go:225-237 | Writes the status and nothing else, exactly when the pass's copy shows another one |
| `VmReconciler.RequestReconciler.Finalize` | platform-mvp/vm-binding-controller/controller/reconciler.go:163-181 | Undisturbed, one pass takes the marked request off the hub; if its cluster can be found, exactly the VMs of its owner there are asked to go and exactly its Secret copy is gone; every other VM and Secret is as before; what is left behind of it is exactly what stood outside that reach |
| `VmReconciler.RequestReconciler.CleanSpoke` | platform-mvp/vm-binding-controller/controller/reconciler.go:183-199 | Undisturbed, exactly the listed VMs are asked to go, gone at once where deletion is prompt, and exactly the Secret is deleted, before the pass may release the finalizer |
| `VmReconciler.StatusReconciler.Reconcile` | platform-mvp/vm-binding-controller/controller/status_reconciler.go:38-72 | Fails exactly without an engaged cluster; ends quietly for a VM that is gone or unlabelled; undisturbed, in the request's region, the hub shows the status that counts the request's ready VMs, and otherwise nothing changes |
| `VmReconciler.StatusReconciler.Report` | platform-mvp/vm-binding-controller/controller/status_reconciler.go:52-72 | The same from the owner labels on |
| `VmReconciler.StatusReconciler.SyncStatus` | platform-mvp/vm-binding-controller/controller/reconciler.go:216-223 | As the status controller calls it: the hub shows the status that counts the request's ready VMs, and is untouched if the pass's copy showed it |
| `VmReconciler.StatusReconciler.ObserveVMs` | platform-mvp/vm-binding-controller/controller/reconciler.go:216-222 | The status computed counts the request's ready VMs; the pass goes on to write exactly if its copy shows another |
| `VmReconciler.StatusReconciler.PatchStatus` | platform-mvp/vm-binding-controller/controller/reconciler.go:225-237 | Writes that status and nothing else |
| `VmReconciler.ReachesSafely` | platform-mvp/vm-binding-controller/controller/reconciler.go:60-113 | Whatever the two reconcilers reach through any interference satisfies the safety invariant |
| `VmReconciler.RequestReconciler.FindSpoke` | platform-mvp/vm-binding-controller/controller/reconciler.go:92-100 | Tells whether the request's cluster is engaged, and writes nothing |
| `VmReconciler.RequestReconciler.CopySecret` | platform-mvp/vm-binding-controller/controller/reconciler.go:120-134 | The spoke half of syncSecret: leaves an equal copy alone, creates a missing one under the owner labels, or updates the data and keeps the owner; only that Secret changes |
| `VmReconciler.RequestReconciler.MakePlan` | platform-mvp/vm-binding-controller/controller/reconciler.go:136-142 | Undisturbed, the plan is one PlanVMs may make of exactly the owned VMs, and nothing is written |
| `VmReconciler.RequestReconciler.CreateVM` | platform-mvp/vm-binding-controller/controller/reconciler.go:145-147 | One create call: adds that VM under the owner labels unless one of that name stands there, and changes nothing else |
| `VmReconciler.RequestReconciler.DeleteVM` | platform-mvp/vm-binding-controller/controller/reconciler.go:150-156 | One delete call: asks exactly that VM to go, and changes nothing else |
| `VmReconciler.RequestReconciler.ObserveVMs` | platform-mvp/vm-binding-controller/controller/reconciler.go:216-222 | Undisturbed, the status computed counts the indices below replicas whose VM is there, owned and ready; Ready if all are, Pending otherwise |
| `VmReconciler.RequestReconciler.Leave` | platform-mvp/vm-binding-controller/controller/reconciler.go:167-177 | Cleanup of the spoke if its cluster is engaged; otherwise nothing changes at all |
| `VmReconciler.RequestReconciler.RemoveVMs` | platform-mvp/vm-binding-controller/controller/reconciler.go:184-192 | Undisturbed, exactly the listed VMs are asked to go, gone at once where deletion is prompt, and nothing else changes |
| `VmReconciler.RequestReconciler.DropFinalizer` | platform-mvp/vm-binding-controller/controller/reconciler.go:178-180 | The release patch: a marked request leaves the hub, an unmarked one stays without the finalizer, a missing one is no error |
| `VmReconciler.StatusReconciler.Fetch` | platform-mvp/vm-binding-controller/controller/status_reconciler.go:57-70 | Yields the hub's request exactly when it exists, parses and names the VM's cluster, and writes nothing |
| `VmReconciler.EffectIsCall` | platform-mvp/vm-binding-controller/controller/reconciler.go:115-199 | What the protocol lets each program point do is the effect of the client call, with its arguments, that the reconciler makes there |
| `VmProtocol.StatusForReports` | platform-mvp/vm-binding-controller/controller/reconciler.go:216-223 | The status the protocol computes counts exactly the indices below replicas whose VM stands at its place, is owned by the request and is ready; Ready if all are, Pending otherwise; in the spec's region |
| `VmProtocol.ListedMeans` | platform-mvp/vm-binding-controller/controller/reconciler.go:136-142 | Listing by owner labels gives exactly the names of that owner's VMs on that cluster and in that namespace, and as ready those that are |
| `VmDomain.VmIndexOfVMName` | platform-mvp/vm-binding-controller/domain/domain.go:144-151 | A generated name parses back to its index for every index up to 2^63-1, and to nothing beyond |
| `VmDomain.VMNameInjective` | platform-mvp/vm-binding-controller/domain/domain.go:57-59 | Two requests and indices with one VM name are the same, whatever dashes and digits the request names hold |
| `VmDomain.DesiredVMNames` | platform-mvp/vm-binding-controller/domain/domain.go:61-67 | The desired names are those of indices 0..replicas-1, in order |
| `VmDomain.BeforeIsStrictWeakOrder` | platform-mvp/vm-binding-controller/domain/domain.go:87-98 | The comparator is a strict weak order: irreflexive, transitive, ties transitive; two names tie exactly if equal or parsed to one index; a parsed name comes before one that does not parse, a higher index before a lower one, and names that do not parse come in string order |
| `VmDomain.PlanVMs` | platform-mvp/vm-binding-controller/domain/domain.go:72-100 | Whatever order the map yields: create is the desired names that do not exist, in index order; delete is the existing ones that are not desired, without repetition, those with an index first and from the highest down, the others after them in string order |
| `VmDomain.PlanOrder` | platform-mvp/vm-binding-controller/domain/domain.go:76-98 | Of every plan: create rises by index; in delete no name without an index stands before one with an index, indices never rise, and names without one are in string order |
| `VmDomain.PlanConverges` | platform-mvp/vm-binding-controller/domain/domain.go:72-100 | Carrying out a plan from any existing set leaves exactly the desired set, and the plan is empty exactly when there is nothing to do |
| `VmDomain.PlanDetermined` | platform-mvp/vm-binding-controller/domain/domain.go:82-99 | If no two surplus names tie, the plan depends on the set of existing names only |
| `VmDomain.PlanUndetermined` | platform-mvp/vm-binding-controller/domain/domain.go:82-99 | If two surplus names tie, two different plans are possible; with PlanDetermined: the plan is unique exactly when no two surplus names tie |
| `VmDomain.LeadingZeroTies` | platform-mvp/vm-binding-controller/domain/domain.go:144-151 | vm-7, vm-07 and vm-+7 parse to one index and tie |
| `VmDomain.SortDeletes` | platform-mvp/vm-binding-controller/domain/domain.go:87-98 | Sorting yields a permutation with the indexed names first, from the highest index down, and the others after them in string order |
| `VmDomain.ToSet` | platform-mvp/vm-binding-controller/domain/domain.go:153-159 | The set holds exactly the listed names |
| `VmDomain.ReadyStatus` | platform-mvp/vm-binding-controller/domain/domain.go:111-124 | The reported count is the size of the intersection of desired and ready names, and the phase is Ready exactly when it equals the replicas; duplicates and order do not matter |
| `VmDomain.StatusMeaning` | platform-mvp/vm-binding-controller/domain/domain.go:109-124 | Ready means every desired VM is ready; leftovers never count; more ready VMs never lower the count or end readiness |
| `VmDomain.StatusOfMeans` | platform-mvp/vm-binding-controller/domain/domain.go:111-124 | The count is the number of indices below replicas whose name is ready, the phase Ready if that is all of them and Pending otherwise, in the request's region and without a message |
| `VmDomain.VmIndexMeans` | platform-mvp/vm-binding-controller/domain/domain.go:144-151 | A name has an index exactly if it is the request name, a dash and text that strconv.Atoi accepts, and then that number, negative ones included |
| `Text.LessIs` | platform-mvp/vm-binding-controller/domain/domain.go:97-97 | String order is decided at the first difference: the text that ends there or has the smaller character comes first |
| `Text.AtoiIs` | platform-mvp/vm-binding-controller/domain/domain.go:149-149 | strconv.Atoi accepts exactly an optional sign and decimal digits whose value fits an int64, and yields that value |
| `Text.ItoaIs` | platform-mvp/vm-binding-controller/domain/domain.go:58-58 | Printing gives the decimal digits without leading zeros whose value is the number |
| `Text.AtoiOfItoa` | platform-mvp/vm-binding-controller/domain/domain.go:144-151 | strconv.Atoi of a printed number is that number exactly when it fits an int64 |
| `VmDomain.Surplus` | platform-mvp/vm-binding-controller/domain/domain.go:82-86 | Whatever order the map yields: exactly the existing names that are not desired, each once |
| `VmAdapter.RequestFromObject` | platform-mvp/vm-binding-controller/adapter/adapter.go:24-73 | Succeeds exactly when the four texts are present and not empty and the two numbers are numbers, which is when the protocol takes the spec for valid; then every field is the text at its own path, tenant and VM set are the labels under their keys or empty, an integer is read as it stands and a float toward zero, and the protocol's spec has these region, tenant, Secret name and replicas; otherwise the error names the first field in trouble, in checking order, and whether it is missing or no integer |
| `VmAdapter.SpecMeans` | platform-mvp/vm-binding-controller/adapter/adapter.go:24-73 | For every object: the protocol's spec is valid exactly if all required fields are there, and its region, tenant, Secret name and replicas are those the object shows |
| `Objects.NumberIsRead` | platform-mvp/vm-binding-controller/adapter/adapter.go:33-46 | An integer field reads as it stands, a float as the integer next to it toward zero |
| `Objects.FieldsMean` | platform-mvp/vm-binding-controller/adapter/adapter.go:24-73 | All fields are sound exactly if each text is there and not empty and each number is a number; the first to fail gives its error |
| `VmAdapter.OwnerIdentified` | platform-mvp/vm-binding-controller/adapter/adapter.go:75-97 | The owner-label selector finds exactly the objects that RequestKey leads back to the request from, and of rendered objects exactly the request's own; it is those two labels |
| `VmAdapter.LabelsMean` | platform-mvp/vm-binding-controller/adapter/adapter.go:75-97 | RequestKey yields the name and namespace under the two owner label keys, if neither is missing or empty; a rendered object carries these two, the tenant and the VM set |
| `VmAdapter.VMStates` | platform-mvp/vm-binding-controller/adapter/adapter.go:173-182 | All names in order, and as ready exactly the names of VMs whose status.ready is true |
| `VmAdapter.ChangedMeans` | platform-mvp/vm-binding-controller/adapter/adapter.go:184-192 | For every object, whatever it shows: comparing JSON text reports a change exactly if the object does not show that status, so no write is wasted and none is skipped |
| `VmAdapter.RendersFaithfully` | platform-mvp/vm-binding-controller/adapter/adapter.go:160-171 | Different statuses render to different texts |
| `VmAdapter.EntryMeans` | platform-mvp/vm-binding-controller/adapter/adapter.go:160-171 | The rendered entry holds region, phase and count, and a message exactly if there is one |
| `VmAdapter.HubObjectMeans` | platform-mvp/vm-binding-controller/controller/reconciler.go:62-83 | An object is marked exactly if it has a deletion timestamp, holds the finalizer exactly if vm-cleanup is among its finalizers, and shows a status if its regions are that status rendered |
| `Objects.ChangedMeans` | platform-mvp/vm-binding-controller/adapter/adapter.go:187-192 | The comparison of texts is the comparison of statuses for every faithful rendering |
| `VmAdapter.FloatsAreNoChange` | platform-mvp/vm-binding-controller/adapter/adapter.go:184-192 | A count that was decoded as a float is not taken for a change |
| `VmAdapter.SetStatus` | platform-mvp/vm-binding-controller/adapter/adapter.go:194-201 | The regions are the rendered status, and what the protocol sees of the object afterwards is the same with the new status: the spec, deletion mark and finalizer are kept, and so is everything but status.regions, missing and null status included |
| `Objects.Unstructured.SetRegions` | platform-mvp/vm-binding-controller/adapter/adapter.go:196-201 | In place: the regions are the given ones, and nothing else of the object changes |
| `BucketSafety.NoOrphanedBucket` | platform-mvp/bucket-binding-controller/controller/reconciler.go:78-119 | From an empty world, over every steady interleaving of request passes (each call failable, crash anywhere), status passes, users and Rook: while the request is off the hub, or no longer holds the finalizer, none of its claims is on any spoke, not even one on its way out |
| `BucketSafety.StepKeeps` | platform-mvp/bucket-binding-controller/controller/reconciler.go:150-209 | Every step of anybody keeps: a claim of the request implies the request on the hub with the finalizer, placed exactly there; and each program point has its own condition |
| `BucketSafety.ClaimIsHome` | platform-mvp/bucket-binding-controller/controller/reconciler.go:121-148 | In every reachable state the request has at most one claim, in the tenant namespace on the engaged cluster that is first in string order among the profiles offering its region |
| `BucketSafety.HomeMeans` | platform-mvp/bucket-binding-controller/controller/reconciler.go:121-148 | A valid request with a tenant has its home on the profile that is first in string order among those offering the region, if that is engaged, and nowhere else |
| `BucketLimits.EditDuringPassOrphans` | deploy/platform-mvp/chart/crds/templates/regionalbucketrequest-crd.yaml:43-45 | The region can be edited: from every empty world a steady run leads to a pass about to create the first claim; an edit then, while no claim exists, leads to a claim left behind for good. BucketReconciler.RequestReconciler.Finalize gives the exact condition |
| `BucketStatus.Agreement` | platform-mvp/bucket-binding-controller/controller/reconciler.go:218-256 | As for VMs, with the claim and its ConfigMap read one after the other: once the older passes have ended, the first pass that begins and completes leaves the status the claim calls for, and it stays: Ready with the endpoint if the claim on the first offering profile is Bound and its ConfigMap has a host, Pending otherwise |
| `BucketStatus.OlderPassesEnd` | platform-mvp/bucket-binding-controller/controller/reconciler.go:60-119 | Once the passes older than the stillness have ended, or if there were none, every pass works on the request as it is and writes only the right status |
| `BucketStatus.BoundStep` | platform-mvp/bucket-binding-controller/controller/status_reconciler.go:54-80 | A pass that begins while the spoke holds still keeps to the request, its home, and the right status |
| `BucketStatus.CompletionAgrees` | platform-mvp/bucket-binding-controller/controller/reconciler.go:244-256 | A pass begun since then that ends where it compares or writes the status leaves the right one |
| `BucketStatus.CompletesMeans` | platform-mvp/bucket-binding-controller/controller/reconciler.go:220-256 | The passes that complete are exactly those an answered call ends where the status was compared or written |
| `BucketStatus.Silence` | platform-mvp/bucket-binding-controller/adapter/adapter.go:161-178 | Once the status is right and the older passes have ended, every later call that writes it is made by a pass that was in flight then already |
| `BucketStatus.ForeignClusterStops` | platform-mvp/bucket-binding-controller/controller/status_reconciler.go:54-76 | A pass begun for a claim on a cluster other than the request's home never comes to a write, nor to read a claim, in any run in which the spoke holds still |
| `BucketReconciler.RequestReconciler.Reconcile` | platform-mvp/bucket-binding-controller/controller/reconciler.go:60-119 | A pass walks the protocol whatever interferes. Undisturbed, from any state: nothing for a request that is gone; on its way out it waits with its claim at home asked to go, or leaves the hub; an error and no change for a spec that does not parse; exactly the status for a missing tenant; without a home the finalizer and exactly the status that its region offers no storage; otherwise the finalizer, the claim at home, an existing one as it was, and the status it calls for. On what has converged it writes nothing |
| `BucketReconciler.RequestReconciler.Attend` | platform-mvp/bucket-binding-controller/controller/reconciler.go:93-119 | The pass from the finalizer on, to the same end |
| `BucketReconciler.FixpointMeans` | platform-mvp/bucket-binding-controller/controller/reconciler.go:60-119 | The fixpoint is exactly: the finalizer, the claim on the first engaged profile offering the region, and the status that reports it |
| `BucketReconciler.TwoPasses` | platform-mvp/bucket-binding-controller/controller/reconciler.go:60-119 | Of two undisturbed passes the first converges and the second issues no write and leaves the state as it was |
| `BucketReconciler.RequestReconciler.SpokeFor` | platform-mvp/bucket-binding-controller/controller/reconciler.go:123-148 | Undisturbed, it finds exactly the engaged cluster the region resolves to, if any, and writes nothing |
| `BucketReconciler.RequestReconciler.SyncClaim` | platform-mvp/bucket-binding-controller/controller/reconciler.go:152-163 | Undisturbed, exactly the request's claim is created if none is there; an existing one is never changed |
| `BucketReconciler.RequestReconciler.SyncStatus` | platform-mvp/bucket-binding-controller/controller/reconciler.go:220-242 | Undisturbed, the status becomes Ready with the endpoint if the claim is Bound and its ConfigMap has a host, Pending otherwise, under the tenant's bucket name; written only if the pass's copy differed |
| `BucketReconciler.RequestReconciler.ObserveClaim` | platform-mvp/bucket-binding-controller/controller/reconciler.go:220-240 | The claim as the domain sees it: missing, not Bound, or Bound with the endpoint its ConfigMap shows |
| `BucketReconciler.RequestReconciler.PatchStatus` | platform-mvp/bucket-binding-controller/controller/reconciler.go:244-256 | Writes the status and nothing else, exactly when the pass's copy shows another one |
| `BucketReconciler.RequestReconciler.Finalize` | platform-mvp/bucket-binding-controller/controller/reconciler.go:168-190 | Undisturbed: while the claim at home exists it is asked to go and the request stays; once it is gone, or if there is no home, the request leaves the hub. It leaves with a claim left behind if and only if a claim of it exists and none stands at the home its spec names now, if any |
| `BucketReconciler.RequestReconciler.RemoveClaim` | platform-mvp/bucket-binding-controller/controller/reconciler.go:193-209 | Reports the claim gone exactly when it is absent; otherwise exactly that claim is marked as on its way out |
| `BucketReconciler.StatusReconciler.Reconcile` | platform-mvp/bucket-binding-controller/controller/status_reconciler.go:40-81 | Fails exactly without an engaged cluster; ends quietly for a claim that is gone or unlabelled; undisturbed, from the profile that is first in string order among those offering the region, the hub shows the status its claim calls for; otherwise nothing is written |
| `BucketReconciler.StatusReconciler.Report` | platform-mvp/bucket-binding-controller/controller/status_reconciler.go:54-80 | The same from the owner labels on |
| `BucketReconciler.StatusReconciler.Fetch` | platform-mvp/bucket-binding-controller/controller/status_reconciler.go:59-76 | Yields the hub's request exactly when it exists, parses and resolves to this cluster, and writes nothing |
| `BucketReconciler.StatusReconciler.SyncStatus` | platform-mvp/bucket-binding-controller/controller/reconciler.go:220-242 | As the status controller calls it: the hub shows that status of the claim afterwards and nothing else changes |
| `BucketReconciler.ReachesSafely` | platform-mvp/bucket-binding-controller/controller/reconciler.go:60-119 | Whatever the bucket reconcilers reach through any interference satisfies the safety invariant |
| `BucketReconciler.RequestReconciler.AddFinalizer` | platform-mvp/bucket-binding-controller/controller/reconciler.go:93-99 | The finalizer patch changes nothing but the finalizer; the pass goes on with the status the answer shows |
| `BucketReconciler.RequestReconciler.LastSpokeFor` | platform-mvp/bucket-binding-controller/controller/reconciler.go:172-177 | The same for a pass that is finalizing: without a home the request may be released |
| `BucketReconciler.ClusterNameFor` | platform-mvp/bucket-binding-controller/controller/reconciler.go:138-148 | Whatever order the profiles are listed in, the region resolves to the offering name that is first in string order, or to nothing if no profile offers it |
| `BucketReconciler.ResolvedIs` | platform-mvp/bucket-binding-controller/domain/domain.go:94-110 | What ResolveCluster may return for any list of the profiles is one and the same name, the protocol's: the first in string order that offers the region |
| `BucketProtocol.ResolveMeans` | platform-mvp/bucket-binding-controller/domain/domain.go:94-110 | The protocol's resolution is a name exactly if that profile offers the region and no offering one differs from it first by a smaller character or an end; it is nothing exactly if none offers |
| `BucketProtocol.StatusForReports` | platform-mvp/bucket-binding-controller/domain/domain.go:112-121 | The status the protocol computes is Ready with the endpoint exactly if the claim is Bound and its ConfigMap has a host, Pending otherwise, with the region and the bucket name |
| `BucketReconciler.EffectIsCall` | platform-mvp/bucket-binding-controller/controller/reconciler.go:150-209 | What the protocol lets each program point do is the effect of the client call, with its arguments, that the reconciler makes there |
| `BucketDomain.BucketNamesUnique` | platform-mvp/bucket-binding-controller/domain/domain.go:72-76 | Bucket names are unique over a set of tenants if and only if no tenant followed by a dash begins another; the comment promises it unconditionally |
| `BucketDomain.BucketNamesCollide` | platform-mvp/bucket-binding-controller/domain/domain.go:72-85 | Tenants acme and acme-eu collide on a name the length check accepts |
| `BucketDomain.BucketNameMeans` | platform-mvp/bucket-binding-controller/domain/domain.go:72-85 | The name is the tenant, a dash and the request name, and is accepted exactly from 3 to 63 characters |
| `BucketDomain.ResolveCluster` | platform-mvp/bucket-binding-controller/domain/domain.go:94-110 | The name of a profile whose label is the region, such that against every other such name, at the first difference, it ends or has the smaller character; nothing exactly if there is no such profile |
| `BucketDomain.PlacementDetermined` | platform-mvp/bucket-binding-controller/domain/domain.go:94-110 | For a named region the choice is independent of list order and repetitions, always a profile that carries the label, first in string order among them, and absent only if none does |
| `BucketDomain.PlacementStable` | platform-mvp/bucket-binding-controller/domain/domain.go:94-110 | Adding a name that comes later in string order, or removing a profile that was not chosen, moves no request |
| `BucketDomain.SortStrings` | platform-mvp/bucket-binding-controller/domain/domain.go:108-108 | A permutation in string order |
| `BucketAdapter.RequestFromObject` | platform-mvp/bucket-binding-controller/adapter/adapter.go:31-77 | Succeeds exactly when the protocol takes the spec for valid: region and quota present and not empty, the object count a number, the bucket name of tenant label, dash and name 3 to 63 characters long; then every field is the one at its own path or label, an integer as it stands and a float toward zero; otherwise names the first field in trouble, or the name |
| `BucketAdapter.SpecMeans` | platform-mvp/bucket-binding-controller/adapter/adapter.go:31-77 | For every object: the protocol's spec is valid exactly then, and its region and tenant are those the object shows |
| `BucketAdapter.EntryReadsBack` | platform-mvp/bucket-binding-controller/adapter/adapter.go:148-159 | Every status field reads back from the rendered entry, the ones left out when empty included |
| `BucketAdapter.ChangedMeans` | platform-mvp/bucket-binding-controller/adapter/adapter.go:164-169 | For every object, whatever it shows: comparing JSON text reports a change exactly if the object does not show that status |
| `BucketAdapter.SetStatus` | platform-mvp/bucket-binding-controller/adapter/adapter.go:171-178 | The regions are the rendered status, and what the protocol sees of the object afterwards is the same with the new status |
| `BucketAdapter.ReadyMeans` | platform-mvp/bucket-binding-controller/domain/domain.go:112-121 | A request is Ready exactly when its claim is Bound and its ConfigMap names a host; the endpoint is then that host with the port if there is one, and empty otherwise |
| `FleetIndex.ExactlyOnce` | providers/cluster-inventory-api/provider.go:126-141 | Over every interleaving of any number of IndexField calls with discover, each registration is applied to each cluster instance at most once, and exactly once after both sides have returned unless a call for that very pair failed or was given up after a failure |
| `FleetIndex.StepKeeps` | providers/cluster-inventory-api/provider.go:204-214 | Each lock section and each index call keeps every pair served, owed by exactly one side, or missed |
| `FleetIndex.NothingMissed` | providers/cluster-inventory-api/provider.go:126-141 | Without failing index calls no pair is missed |
| `FleetProvider.Provider.Discover` | providers/cluster-inventory-api/provider.go:159-233 | A poll changes the fleet exactly as Poll says whatever IndexField calls run beside it. With distinct names, a listed cluster keeps its instance under the same or an unread key; under another key it is a new instance with that key if that builds and engages, and gone otherwise; a name not engaged before starts likewise; unlisted ones go; a failed List changes nothing. Every step is a step of the index protocol, and afterwards the started, uncancelled clusters are exactly the stored ones |
| `FleetProvider.Provider.DiscoverOne` | providers/cluster-inventory-api/provider.go:170-218 | One profile: the maps are unchanged under the same or an unread key; otherwise the name is stored as the next instance with the key that was read, or is gone, as its factory and engagement say; no other name changes and no started cluster is lost |
| `FleetProvider.Provider.Store` | providers/cluster-inventory-api/provider.go:204-210 | The insert keeps the three maps in step, adopts the started cluster and copies the registrations of that moment |
| `FleetProvider.Provider.StartStored` | providers/cluster-inventory-api/provider.go:201-214 | Starts and stores the built cluster under the next instance number; every registration made before the call is applied to it exactly once, or its call failed |
| `FleetProvider.Provider.ApplyIndexes` | providers/cluster-inventory-api/provider.go:212-214 | Every copied registration is applied to the instance exactly once, or its call failed; errors are ignored |
| `FleetProvider.Provider.Append` | providers/cluster-inventory-api/provider.go:126-132 | Appends the registration and takes the snapshot of the stored clusters in one lock section |
| `FleetProvider.Provider.DisengageCluster` | providers/cluster-inventory-api/provider.go:235-249 | Removes exactly that name from all three maps and cancels exactly its cluster; nothing happens for an unknown name |
| `FleetProvider.Provider.SweepUnlisted` | providers/cluster-inventory-api/provider.go:221-232 | Every unlisted name goes, every listed one stays as it is |
| `FleetProvider.Provider.IndexField` | providers/cluster-inventory-api/provider.go:126-141 | On success every cluster engaged at the call has the index exactly once, whatever discover and other calls do meanwhile |
| `FleetProvider.Provider.ApplyTo` | providers/cluster-inventory-api/provider.go:135-139 | One cluster of the snapshot: visited, with the index applied, or the call gives up |
| `FleetProvider.Provider.Get` | providers/cluster-inventory-api/provider.go:117-124 | Finds exactly the engaged names, and only clusters that are running |
| `FleetProvider.PollIsUpdate` | providers/cluster-inventory-api/provider.go:159-233 | With distinct profile names a poll is a map update: unchanged or unreadable keys keep their instance, the others are replaced or go, unlisted names go, a failed List changes nothing |
| `FleetProvider.PollMeans` | providers/cluster-inventory-api/provider.go:159-233 | Case by case with distinct names: same or unread key, the slot unchanged; another key, a new instance with it or gone; not engaged before, new or absent; not listed, gone |
| `FleetProvider.EmptyKeys` | providers/cluster-inventory-api/provider.go:172-181 | After a poll a listed name has an empty key exactly if its Secret was unreadable at first and readable when the cluster was built, or if it had one before and its Secret is still unreadable |
| `FleetProvider.EmptyKeysAcross` | providers/cluster-inventory-api/provider.go:159-233 | Across any sequence of polls from known keys: a name has an empty key exactly if some poll started it so and no poll since could read its key, so one readable poll heals it |
| `FleetProvider.PollRests` | providers/cluster-inventory-api/provider.go:159-233 | After a fully successful poll the same poll starts and stops nothing |
| `FleetProvider.AtMostOnce` | providers/cluster-inventory-api/provider.go:126-141 | No provider ever applies a registration twice to an instance |
| `ClusterKey.KeyIdentifiesEndpoint` | providers/cluster-inventory-api/provider.go:251-280 | With an injective hash, hosts without the PEM marker and CAs that are empty or start with it, equal keys mean equal host and equal CA although nothing separates them |
| `ClusterKey.MarkerDoesNotOverlap` | providers/cluster-inventory-api/provider.go:276-279 | Two occurrences of the marker in one text never overlap |
| `ClusterKey.KeysCollideWithoutMarker` | providers/cluster-inventory-api/provider.go:276-279 | Without the marker two endpoints can share a key |
| `Jwk.JwkRoundTrip` | platform-mvp/oidc-verifier/main.go:319-333 | For all n and e written as Base64urlUInt (sections 2 and 6.3.1 of RFC 7518), padded or not and broken into lines or not, the modulus is read back always and the exponent exactly when it is below 2^63 |
| `Jwk.DecodedOfEncoded` | platform-mvp/oidc-verifier/main.go:358-374 | Decoding undoes the base64url encoding of any octets, with line breaks anywhere and any number of padding characters behind |
| `Jwk.DecodedIsRaw` | platform-mvp/oidc-verifier/main.go:358-374 | If no padding stands inside, the whole function is raw decoding of the text without padding and line breaks: where line breaks make the padding come out wrong, the first decoder refuses and the second one decodes |
| `Jwk.PaddedAgrees` | platform-mvp/oidc-verifier/main.go:366-371 | Where the padded decoder accepts what was padded again it agrees with the raw one |
| `Jwk.MalformedIsNothing` | platform-mvp/oidc-verifier/main.go:366-373 | A character outside the alphabet of RFC 4648, or an impossible length, decodes to nothing |
| `Jwk.DecodableIs` | platform-mvp/oidc-verifier/main.go:368-371 | Raw text decodes exactly when its length is not one more than a multiple of four and every character is in the alphabet |
| `Jwk.DecodedBits` | platform-mvp/oidc-verifier/main.go:366-371 | Raw decoding as section 4 of RFC 4648 defines it: the octets are the leading bits of the characters, and fewer than six bits are left over |
| `Jwk.AlphabetIs` | platform-mvp/oidc-verifier/main.go:366-371 | A character's value is its position in the alphabet of section 5 of RFC 4648; no other character has one |
| `Jwk.PaddedIs` | platform-mvp/oidc-verifier/main.go:366-371 | The padded decoder accepts exactly whole quanta with at most two padding characters at the end and yields what the raw one does without them |
| `Jwk.DecodedWithPaddingInside` | platform-mvp/oidc-verifier/main.go:358-374 | Where padding stands inside, as before a line break, the result is the padded decoder's alone |
| `Jwk.BrokenAndPadded` | platform-mvp/oidc-verifier/main.go:358-365 | Encoded text broken anywhere and followed by padding is text the decoding undoes |
| `Jwk.DecodeOfEncode` | platform-mvp/oidc-verifier/main.go:358-374 | Both decoders involved, padded and raw, undo the encoding |
| `Jwk.Base64UrlDecode` | platform-mvp/oidc-verifier/main.go:358-374 | For every text: without inner padding, the raw decoding of the trimmed text without line breaks; its leading bits if it is sound, nothing if it is malformed; and the octets themselves for any text that spells them |
| `Jwk.ParseRsaJwk` | platform-mvp/oidc-verifier/main.go:319-333 | Exactly missing fields are refused; otherwise the two numbers the decoded octets denote, the exponent the one 64-bit int congruent to its number |
| `Jwk.Exponent` | platform-mvp/oidc-verifier/main.go:326-330 | The shift-or loop gives the big-endian value of the octets on a 64-bit int |
| `Jwk.ShiftOrIsExact` | platform-mvp/oidc-verifier/main.go:327-330 | One turn of the loop on the register is the turn on the unbounded number, reduced |
| `Jwk.ExponentExact` | platform-mvp/oidc-verifier/main.go:327-330 | For arbitrary octets the loop yields the denoted number exactly when that is below 2^63 |
| `Jwk.BigEndianOfUInt` | platform-mvp/oidc-verifier/main.go:324-324 | The least octets of a number denote it |
| `Jwk.BigEndianBits` | platform-mvp/oidc-verifier/main.go:324-324 | The bits of the number are the bits of the octets, the most significant first |

## Left out

- Stale caches: a client configured to cache unstructured objects would read old states; the safety results are about live reads.
- Concurrent edits of other finalizers: the patches carry no optimistic lock; only the controllers' own finalizer is modelled.
- Several bucket requests at once: a claim's identity is its request's namespace and name, so one request is the whole protocol; the VM protocol has many because VM names and cloud-init Secrets can be shared.
- VmReconciler.RequestReconciler.Finalize: does not say when slow VMs are gone, because cleanup asks for their deletion and does not look again.
- VmAdapter.ChangedMeans: compares JSON values up to 3 and 3.0, not bytes, and writes the region into the message without the escapes of %q.
- BucketAdapter.ChangedMeans: likewise.
- VmAdapter.RequestFromObject: real numbers stand for float64, so values beyond the range of int64 are not modelled.
- FleetProvider.PollIsUpdate: asks for distinct profile names; same-named profiles in different namespaces replace each other within a poll, which Provider.Discover covers.
- FleetProvider.PollMeans: likewise.
- FleetProvider.Provider.Discover: says what becomes of each name where the profile names are distinct, and otherwise only that it is what Poll says.
- ClusterKey.KeyIdentifiesEndpoint: the hash is any injective function; SHA-256 itself is not modelled.
- Jwk.Base64UrlDecode: Go's decoders are modelled from their documented behaviour; the Go standard library is not part of this model.
- Rendering of VMs, Secrets and claims beyond name, namespace, labels and data: constant data.
- bucket adapter owner labels: the same two functions as in the VM adapter under other label keys.
- Requeue intervals, events that trigger passes, metrics, logging, flags, manager set-up: they decide when a pass runs, not what it does.
- Liveness under a fair schedule: agreement and convergence are stated from the completion of a pass.
- TLS, JWT validation, elliptic curves, JWKS refresh and auditing in the verifier: library calls and I/O.
- Helm charts, CRDs, Kro graphs, scripts and end-to-end suites: configuration.
