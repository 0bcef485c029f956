# Proofs about the cube API server

The server keeps Kubernetes objects in step with two kinds of resources, looks
users and tokens up in informer caches, and adds up what a cluster's pods ask
for. This project models that logic in Dafny and proves what it keeps, what it
reaches, and where exactly it falls short.

**API server** (`KubeApi`; `Options` is a value that may be absent). A store of
objects with a UID, a resource version and a controlling owner. A call is one atomic step; it may be refused, or be
carried out while its answer is lost. A failed call answers an empty object, as
the generated clients do. Histories of stores carry the facts that make stale
caches tractable: a resource version is never given out twice, a UID keeps its
controller.

**User controller** (`Common`, `UserSync`, `UserController`, `UserWorld`,
`UserConvergence`, `UserOutcomes`, `UserCreations`, `UserProgress`, `Access`). A
sync drives a User to own a Principal, a ClusterRole and a ClusterRoleBinding and to
list its principal's ID. `UserSync.Advance` is one step of a sync, with at most one
API call in it; `UserController.Controller` is the source's imperative code, proved
equal to running `Advance` to its end. `UserWorld` interleaves any number of workers
with arbitrarily stale caches, failing calls, dying workers and other writers. A key
whose sync failed is not queued again by the controller; later events start a fresh
worker. More is allowed than the work queue does: two workers may process one key at
once. From every state such runs reach, one undisturbed sync of any user converges,
those added on the way included (`UserProgress`).

**Infrastructure controller** (`InfraSync`, `InfraController`, `InfraWorld`,
`InfraConvergence`, `InfraOutcomes`, `InfraProgress`, `InfraLimits`). A bundle of 7,
8 or 9 objects is created in order, the main Deployment last. The same three layers,
plus the places where the controller stops short, each with its exact condition.

**Cluster totals** (`Cluster`, `ClusterTotals`). The nested folds over Go maps and
the sum-then-maximum rule for pods, in their imperative form, refine a plain sum
for every order of iteration.

**Search** (`Indexer`, `UserSearch`). The informer's index as a class with items
and buckets; the prefix index and the linear scan find the same users.

**Tokens** (`Tokens`, `TokenRuns`). Credentials, expiry, lookup and purge; over
whole runs, when purging is invisible to lookups. `Int32` prints a 32-bit integer.

What the proofs found, beside what holds:

- Roles and bindings are named after the user alone, so two Users of one name in
  different namespaces are never both synced (`NamesakeUsersExclude`).
- A sync that gets as far dereferences nil exactly when the role or binding cache
  misses an object that the server's Get then finds (`SyncPanicsIff`); the sync right
  after a user's first one may (`StaleRoleCachePanics`, `NewUserPanics`).
- A user's own principal in another namespace makes its sync fail with NotFound, until
  the user lists the ID (`MisplacedPrincipalFails`).
- A role or binding that cannot be created is reported by the answer of the Get before
  it, "not found"; where that Get fails too, the user's own role is taken for somebody
  else's (`UncachedRole`, `UncachedBinding`).
- `CheckAccess` compares two empty names, and allows, for an ID that neither cache
  knows (`UnlistedIDAllowedIff`). A user not yet synced, which has no local ID, is
  checked under "" and allowed (`UserWithoutLocalIDAllowed`); that is the check alone,
  since a login goes on to a provider named "", and none is configured.
- The Dashboard update carries no resource version: it takes over a Deployment that
  somebody else has put in the place of its own (`StaleDashboardSyncTakesOver`,
  `SyncKeepsOwnersIff`).
- An Infrastructure whose kind and replicas are changed after its first sync gets the
  end of the new bundle without its beginning (`LoneLonghornSwitched`,
  `SwitchedKindBreaksOrder`, `UpdatePathOrderIff`).
- An Infrastructure that does not bear the name of a Deployment of its bundle is synced
  once and fails from then on (`SecondSyncSucceedsIff`).
- Longhorn and RancherVM never reach a changed number of replicas
  (`ReplicasReachedIff`, `SyncLeavesDeployments`), and are reported to have none available
  as long as they ought to (`StatusReported`).
- Of pods of one name on a node only the last counts, while all are counted as pods
  (`TotalsConservedIff`, `TwoWebsFallShort`).
- A search may name a principal twice: for two users that list one local ID
  (`NoNameTwiceIff`, `BobIsNamedTwice`) or, had the local provider company (it is the
  only one configured), for a user without a local ID whose default ID another
  provider gives (`DedupeLeavesNoDuplicateIff`, `NewBobIsRepeated`).
- A purge deletes by name what a listing showed: a listing that is behind costs a live
  token that has since got the name of an expired one (`ReusedNameIsPurged`,
  `PurgeInvisibleIff`, `PurgingIsInvisibleIff`).
- Two logins within one second share a key, and then a purge makes a difference
  (`SharedKeyMakesPurgeVisible`, `RemovalInvisibleIff`). The key, a JWT, depends
  only on its `iat` and `exp` claims, which are in seconds (sections 4.1.4 and
  4.1.6 of RFC 7519).
- A time to live above 9223372036854 milliseconds wraps around
  (`DurationExactIff`, `LongestTokenIsBornExpired`).

## Model

| member | source | states |
|---|---|---|
| UserWorld.ControllersNeverChange | controller/user_controller.go:343-480 | in every interleaving of workers, stale caches, failures and other writers, the controller of an object never changes while the object lives |
| UserWorld.CreationsAreControlledByTheUser | controller/user_controller.go:560-705 | whatever a worker creates, but the namespace, is controlled by a User the server held under the key being processed |
| UserWorld.CreationOrder | controller/user_controller.go:373-476 | without deletes, in every reachable state: a role made by a worker implies its User's Principal, a binding implies the role, an ID added to a User implies Principal, role and binding |
| UserCreations.RolesHavePrincipals | controller/user_controller.go:373-442 | the same by the stores alone: from the step on in which a worker creates a role, a Principal of the same owner is stored |
| UserCreations.BindingsHaveRoles | controller/user_controller.go:417-469 | from the step on in which it creates a binding, so is the role of that name, under the same owner |
| UserCreations.ListedIDsHaveGrants | controller/user_controller.go:473-476 | from the step on in which it makes a User list an ID, the User owns a Principal of that ID, the role and the binding of its name |
| UserWorld.StepKeepsInv | controller/user_controller.go:343-480 | every action keeps the history coherent, the workers' locals things the server once held, and creations attributed to their User |
| UserWorld.StepKeepsOrder | controller/user_controller.go:373-476 | every action without a delete keeps the creation order and what each worker's position says about the store |
| UserWorld.ActEvolves | controller/user_controller.go:582-597 | a worker's step writes at most one object, takes over no controller reference and deletes nothing, because the ownership gate and the resource version stand before every update |
| UserConvergence.SyncSucceedsIff | controller/user_controller.go:343-480 | an undisturbed sync with fresh caches succeeds exactly when the user's role and binding are absent or its own, and no principal bears its ID or one does that is its own and, unless the user lists the ID already, lies in its namespace; then everything is established and nothing else touched |
| UserOutcomes.SyncOutcome | controller/user_controller.go:343-480 | how it ends: not unique exactly for several principals of the ID; else not found exactly for an own, unlisted one in another namespace; else not controlled exactly where a principal of the ID, the role or the binding is not the user's; else synced |
| UserOutcomes.SkippedIff | controller/user_controller.go:351-371 | a sync is skipped exactly when the cache does not hold the user or the name is empty, and then writes nothing, whatever the caches, the store and the failures |
| UserOutcomes.OutdatedUserUntouched | controller/user_controller.go:535-557 | a sync of a cached User that has been changed or deleted since does not succeed, and neither writes the User nor brings it back |
| UserOutcomes.OutdatedUpdateFails | controller/user_controller.go:473-476 | its last call, should it get there, is answered by a conflict, or by not found |
| UserOutcomes.FailedCallEndsIt | controller/user_controller.go:373-476 | a failure of any of the other calls ends the sync with that failure |
| UserOutcomes.UncachedRole | controller/user_controller.go:612-667 | with no role cached: not stored and created well, the sync goes on with the user's own; otherwise it panics where the Get finds one, and fails by ownership where only the Get failed, and by the Get's answer where the Create did |
| UserOutcomes.UncachedBinding | controller/user_controller.go:671-705 | the same for the binding |
| UserOutcomes.NewPrincipalSays | controller/common.go:138-160 | a Principal that any step creates lies in its user's namespace under the local ID, is controlled by the user, and bears its login name and its display name, or the login name for want of one |
| UserConvergence.MisplacedPrincipalFails | controller/user_controller.go:582-597 | an owned principal in another namespace, whose ID the user does not list, makes the sync fail with NotFound |
| UserConvergence.FixpointIffEstablished | controller/user_controller.go:343-480 | a sync succeeds without changing the store exactly when the user is established |
| UserConvergence.SyncTwiceIsSyncOnce | controller/user_controller.go:343-480 | the sync after a successful one leaves the store as it is |
| UserConvergence.NamesakeUsersExclude | controller/user_controller.go:612-705 | once one user is established, a user of the same name in another namespace cannot be synced |
| UserProgress.EveryStateConverges | controller/user_controller.go:343-480 | from a start where all users meet that condition and share no names or IDs, in every state of every run of workers with arbitrarily stale caches, failing calls and deaths, and of others who add users apart from these and edit users without changing their local IDs, one undisturbed sync with fresh caches converges for every user there is |
| UserProgress.UsersStay | controller/user_controller.go:343-480 | in such a run no user is lost |
| UserProgress.StepProgresses | controller/user_controller.go:343-480 | no action takes from a user, old or new, what a later sync of it needs, and no worker comes to hold anything but its user's own principal |
| UserProgress.AdvanceKeeps | controller/user_controller.go:343-480 | a step of a worker leaves every user, its principal, role and binding as a later sync needs them |
| UserConvergence.ConvergesAfterFailures | controller/user_controller.go:322-324 | after any number of syncs of one user that started from fresh caches and failed anywhere, the next undisturbed one converges, whatever state the other users are in |
| UserConvergence.SyncPanicsIff | controller/user_controller.go:376-469 | a sync dereferences nil exactly when its user passes the principal stage (the cached principal, its update or the calls that create it go well) and the role is missed (not cached, stored, found by the Get), or the role stage passes too and the binding is missed; all read off caches, store and calls before the sync |
| UserConvergence.StaleRoleCachePanics | controller/user_controller.go:417-442 | the sync that follows on a user's first one does, while the role cache still shows the store before it |
| UserConvergence.NewUserPanics | controller/user_controller.go:417-442 | so it does for a concrete store that holds one new user |
| UserConvergence.FreshCachesNeverPanic | controller/user_controller.go:417-469 | with role and binding caches equal to the store no sync reaches it, whatever fails |
| UserConvergence.CreditRecordsID | controller/user_controller.go:535-557 | recording the principal's ID leaves the rest of the User alone and keeps its local ID |
| UserController.Controller.SyncHandler | controller/user_controller.go:343-480 | the imperative sync ends in the store and with the outcome of the step machine |
| UserController.Controller.EnsurePrincipal | controller/user_controller.go:560-580 | createPrincipal is the machine's two Creates, an existing object being tolerated with an empty result |
| UserController.Controller.RefreshPrincipal | controller/user_controller.go:582-597 | updatePrincipal is the machine's principal update |
| UserController.Controller.GenerateClusterRole | controller/user_controller.go:612-667 | the machine's Get and Create of the role: nil without an error when the Get succeeds, the Get's error when the Create fails |
| UserController.Controller.GenerateClusterRoleBinding | controller/user_controller.go:671-705 | the same for the binding |
| UserController.Controller.RecordPrincipal | controller/user_controller.go:535-557 | updateUser appends the ID unless a loop over the list finds it, and updates the User |
| UserController.Controller.SyncGrants | controller/user_controller.go:417-480 | the role, binding and user stages of the handler are those of the machine |
| UserSync.AdvanceTerminates | controller/user_controller.go:343-480 | a sync makes at most eleven steps |
| KubeApi.SwapHitsWhatWasRead | controller/user_controller.go:535-557 | an update that carries a resource version and succeeds replaces exactly the object its caller had read, however old its cache |
| KubeApi.SeenIsPresent | controller/user_controller.go:376-391 | without deletes an object once seen in any cache is still stored, under the same controller |
| KubeApi.CoherentExtends | vendor/k8s.io/apimachinery/pkg/apis/meta/v1/controller_ref.go:24-40 | no resource version and no UID ever comes to stand for two objects or two controllers |
| Common.GetLocalPrincipalID | controller/common.go:52-63 | the loop finds the last ID with the local prefix, or the default |
| Common.ProviderLocalPrincipalID | backend/provider/local/local_provider.go:221-229 | the provider's loop finds the same ID, or nothing |
| Common.MatchPrincipalID | controller/common.go:197-204 | exactly membership in the list |
| Common.LastLocalIsLast | controller/common.go:52-59 | no later entry has the prefix, and there is none only if no entry has it |
| Common.WithID | controller/user_controller.go:535-557 | the list keeps the old one as a prefix and gains at most the one ID, which it then holds |
| Common.LocalIDFixpoint | controller/common.go:52-63 | recording a user's local ID keeps it, and then the provider computes the same one |
| Common.DefaultIDInjective | controller/common.go:59-62 | namespaces having no dot, default IDs are equal exactly for the same namespace and name |
| Common.LocalIDNamesLocalProvider | util/util.go:83-88 | the provider name parsed from any local ID is "local" |
| Common.UnlistedLocalIDReads | controller/common.go:59-62 | the local ID of a user that lists none reads, from dot to dot, "local", its namespace, and its name |
| Access.CheckAccess | backend/provider/local/local_provider.go:151-166 | allowed exactly when both lookups are unambiguous and yield the same name, an unknown ID yielding the empty one |
| Access.UnlistedIDAllowedIff | backend/user.go:182-219 | an ID that no user lists is allowed exactly when no principal bears it, or its only one has no login name |
| Access.UserWithoutLocalIDAllowed | backend/provider/local/local_provider.go:129-146 | a user without a local ID is checked under "", which nobody bears: it is allowed, under an ID that names no provider |
| Access.EstablishedAccess | backend/user.go:182-219 | for an established user whose ID only it lists, access is allowed exactly when its principal still bears its login name |
| Access.SyncedUserHasAccess | backend/provider/local/local_provider.go:138-166 | a user whose principal the sync created is allowed once the caches show the result: both sides compute one ID, it names the local provider, and the check allows it |
| InfraWorld.BundlesGrowInOrder | controller/infra_controller.go:454-2030 | in every state of every run without deletes in which no worker enters an update path before the bundle's first six objects are there (for a Dashboard: its own main Deployment), an object of a bundle made by a worker implies all objects before it, retried creates and the creates of the update path included |
| InfraWorld.ControlledMainImpliesBundle | controller/infra_controller.go:231-307 | in such a run a main Deployment controlled by an Infrastructure implies its whole bundle |
| InfraWorld.ControllersNeverChange | controller/infra_controller.go:231-307 | in such a run no controller ever changes, the unconditional Dashboard update included |
| InfraWorld.StepKeepsInv | controller/infra_controller.go:231-307 | every action, update paths being entered so, keeps bundles in order, controlled main Deployments backed and each worker's position true of the store |
| InfraWorld.TameRunsAreSound | controller/infra_controller.go:231-307 | a run is such a one if every Infrastructure that asks for a number of replicas bears the name of its kind's main Deployment |
| InfraWorld.NewObjectInPlace | controller/infra_controller.go:454-2030 | what a step creates has everything before it in place |
| InfraOutcomes.NothingDangles | controller/infra_controller.go:454-1631 | in such a run, from the step on in which a worker creates an object of a bundle, all those before it are stored, and so is whatever it refers to |
| InfraOutcomes.ReferencesComeFirst | controller/infra_controller.go:555-1613 | roles, service accounts, secrets and services that the objects of a bundle name come before them in it |
| InfraOutcomes.ReferringIff | controller/infra_controller.go:555-1613 | bindings, DaemonSets and Deployments refer to such objects, and no others do |
| InfraWorld.OnlyStatusIsWritten | controller/infra_controller.go:309-337 | a worker creates no Infrastructure, and writes none but its own and of that only the status |
| InfraConvergence.SyncSucceedsIff | controller/infra_controller.go:231-307 | an undisturbed sync with a fresh cache succeeds exactly when the main Deployment is absent or the Infrastructure's own; then nothing is left to do, a bundle that was missing it is complete and nothing outside the bundle is touched; otherwise nothing changes at all |
| InfraConvergence.StatusReported | controller/infra_controller.go:309-337 | the status it leaves: healthy exactly when the kind's service was there before and some replicas were available, the message kept or telling of the missing service, and the number that of the main Deployment exactly unless a Longhorn or RancherVM with some available ought to be scaled, for which it is 0 |
| InfraOutcomes.StatusWritten | controller/infra_controller.go:309-337 | the same of any status that is written, whatever the caches: for another kind, unhealthy and the message about the kind |
| InfraOutcomes.SkippedIff | controller/infra_controller.go:239-259 | a sync is skipped exactly when the cache does not hold the Infrastructure or the name is empty, and then writes nothing |
| InfraOutcomes.OutdatedInfraUntouched | controller/infra_controller.go:309-337 | a sync of a cached Infrastructure that has been changed or deleted since does not succeed, and neither writes it nor brings it back |
| InfraOutcomes.FailedCallEndsIt | controller/infra_controller.go:261-301 | a failure of any call ends the sync with that failure |
| InfraOutcomes.UpdatePathAdds | controller/infra_controller.go:1743-2030 | an undisturbed sync of a Longhorn or RancherVM that ought to be scaled adds nothing but its namespace and, for Longhorn, the driver deployer, for RancherVM, its three Deployments |
| InfraOutcomes.NewDeployment | controller/infra_controller.go:648-664 | a Deployment that any step creates is controlled by the Infrastructure and asks for the wanted number of replicas, or one |
| InfraOutcomes.CutCreation | controller/infra_controller.go:454-1631 | a creation cut off by the refused Create of any object leaves exactly those before it, beside what was there |
| InfraOutcomes.BundleSequence | controller/infra_controller.go:454-1631 | the kinds of the objects of each bundle in the order of their Creates |
| InfraOutcomes.ServiceIsInBundle | controller/infra_controller.go:418-443 | the service that health depends on is the sixth object of the bundle |
| InfraProgress.EveryStateSyncs | controller/infra_controller.go:231-307 | from a start where each Infrastructure bears its main Deployment's name and owns that Deployment if it is there, in every state of every run without deletes of workers with arbitrarily stale caches, failing calls and deaths, one undisturbed sync of any Infrastructure of a known kind succeeds and leaves nothing to do |
| InfraConvergence.SettledIsFixpoint | controller/infra_controller.go:231-307 | where nothing is left to do a sync succeeds and changes nothing |
| InfraConvergence.SyncTwiceIsSyncOnce | controller/infra_controller.go:231-307 | a second sync changes nothing, even where the replicas are still wrong |
| InfraConvergence.ReplicasReachedIff | controller/infra_controller.go:283-289 | the main Deployment has the wanted number of replicas afterwards exactly for a Dashboard, or where the number did not differ |
| InfraConvergence.StaleCacheFailsHarmlessly | controller/infra_controller.go:261-281 | a cache missing the main Deployment of a complete bundle makes the sync fail, by ownership if no call fails, without changing any object |
| InfraConvergence.CompleteBundleUntouched | controller/infra_controller.go:454-1631 | creating a complete bundle again changes nothing, from any object on and whatever fails |
| InfraConvergence.FilledIsComplete | controller/infra_controller.go:454-1631 | creation carried on from any object leaves everything stored as it was and completes the bundle |
| InfraConvergence.FillRun | controller/infra_controller.go:454-1631 | undisturbed creation ends with the Infrastructure's own main Deployment in the wanted number of replicas |
| InfraSync.BundlesDisjoint | controller/infra_controller.go:454-1631 | two places hold one object exactly when they are one place of one bundle |
| InfraSync.BundleShape | controller/infra_controller.go:454-1631 | 7, 8 and 9 objects, Deployments from the seventh on and the main one last |
| InfraLimits.SyncLeavesDeployments | controller/infra_controller.go:1743-2030 | no sync of a Longhorn or RancherVM changes a Deployment that exists, whatever the caches and failures |
| InfraLimits.SyncKeepsOwnersIff | controller/infra_controller.go:1633-1737 | in any history with deletes, with any caches of it and any failures, a sync leaves all controllers alone exactly unless the caches show a Dashboard and its own Deployment in another number of replicas than wanted, the update reaches the server and the Deployment there is not its own |
| InfraLimits.StaleDashboardSyncTakesOver | controller/infra_controller.go:1633-1737 | a concrete history, in which its own Deployment is deleted and an operator's put in its place, and a sync with the first state cached that takes that one over |
| InfraLimits.UnknownKindSyncsIff | controller/infra_controller.go:391-443 | an Infrastructure of another kind is synced exactly when its Deployment is its own and needs no update, and is then reported unhealthy for its kind; otherwise nothing changes, and the error is about ownership exactly where the Deployment is there and not its own |
| InfraLimits.CreationSucceedsIff | controller/infra_controller.go:261-281 | under any name without a Deployment, the sync succeeds exactly when the bundle's main Deployment is not there yet |
| InfraLimits.SecondSyncSucceedsIff | controller/infra_controller.go:261-281 | after a first sync that succeeded, the second succeeds exactly when the Deployment of the Infrastructure's name is one of its bundle; otherwise it fails and leaves the store as it is, so every later one does |
| InfraLimits.ReplacedIsTakenOver | controller/infra_controller.go:1633-1737 | so it goes for any Dashboard whose Deployment is replaced by any other's |
| InfraLimits.UpdatePathOrderIff | controller/infra_controller.go:1743-2030 | a sync of an Infrastructure of any known kind but Dashboard, whose own Deployment is in another number of replicas, leaves each object of its bundle with all those before it exactly when the first six were there |
| InfraLimits.FirstSyncLeavesSwitchable | controller/infra_controller.go:231-307 | the first sync leaves an Infrastructure its own Deployment in the wanted number and nothing of another kind's bundle, if its first object was absent |
| InfraLimits.SwitchedKindBreaksOrder | controller/infra_controller.go:1822-2030 | after that a change to another kind but Dashboard and to one more replica, which is a proper step of others, makes the next sync create a Deployment of the new bundle without those before it |
| InfraLimits.LoneLonghornSwitched | controller/infra_controller.go:1822-2030 | concretely: a store with one Longhorn Infrastructure, its first sync, the change to RancherVM, and the sync after it |
| InfraController.Controller.SyncHandler | controller/infra_controller.go:231-307 | the imperative sync ends in the store and with the outcome of the step machine |
| InfraController.Controller.BundleCreate | controller/infra_controller.go:391-403 | an unknown kind is an error without a call, a known one creates its bundle |
| InfraController.Controller.CreateBundle | controller/infra_controller.go:454-1631 | the Creates in order, an existing object tolerated, any other error ending it |
| InfraController.Controller.BundleUpdate | controller/infra_controller.go:405-416 | an unknown kind is an error without a call, a known one takes its update path |
| InfraController.Controller.UpdateDashboard | controller/infra_controller.go:1633-1737 | one update of the main Deployment |
| InfraController.Controller.CreateMissing | controller/infra_controller.go:1743-2030 | Creates from the seventh object on, an existing one tolerated |
| InfraController.Controller.DetectService | controller/infra_controller.go:418-443 | healthy exactly when the service of a known kind is cached, with the reason otherwise |
| InfraController.Controller.UpdateInfra | controller/infra_controller.go:309-337 | the status built field by field is the machine's status update |
| Cluster.AddMap | backend/cluster.go:174-183 | in any order of keys, the union of keys with the sums of amounts |
| Cluster.AddMapForInit | backend/cluster.go:185-196 | in any order of keys, the union of keys with the larger amount |
| Cluster.GetPodData | backend/cluster.go:160-172 | exactly the declared resources, each with the larger of the app containers' sum and the largest init container's amount |
| Cluster.AggregateForNode | backend/cluster.go:139-158 | in any order of pods, the sum over the table of last pods, plus the number of pods under "pods" |
| Cluster.CollectPodData | backend/cluster.go:141-149 | the table holds the last pod of each name |
| Cluster.GetNodePods | backend/cluster.go:104-137 | the pods in order that have a node, are not being deleted and have neither succeeded nor failed, each as often as it is listed, or the failure to list them |
| Cluster.ClusterResources | backend/cluster.go:19-92 | every total is the sum over the nodes that could be listed, capacity and allocatable each of its own figure with nothing counting for what is not said; an error exactly when the nodes cannot be listed |
| Cluster.StockTotals | backend/cluster.go:38-39 | the totals of the first two figures are the sums of the capacities and of the allocatable amounts of the nodes that could be listed |
| ClusterTotals.AllocatableWithinCapacity | backend/cluster.go:58-71 | the second is at most the first if it is so on every such node |
| ClusterTotals.EffectiveIsLeast | backend/cluster.go:160-172 | what a pod counts for is the least amount that suffices for its app containers together and for each init container alone |
| Cluster.CollectEntries | backend/cluster.go:24-48 | the entries add up to the totals, the zero entries in front included |
| Cluster.SumEntries | backend/cluster.go:50-91 | the twelve accumulators are the sums over the entries |
| Cluster.PaddingCountsForNothing | backend/cluster.go:24-24 | the zero entries that pad the slice add nothing |
| ClusterTotals.EffectiveOrderFree | backend/cluster.go:160-172 | a pod counts the same however its containers are ordered |
| ClusterTotals.NodeSumIsSumOfLast | backend/cluster.go:139-158 | a node's aggregate is the sum over the last pod of each name |
| ClusterTotals.DuplicateNamesUndercount | backend/cluster.go:139-158 | with nothing negative it is at most the sum over all live pods, and is that sum exactly when every pod with a later namesake would count for nothing |
| ClusterTotals.TotalsConserved | backend/cluster.go:19-92 | with distinct names per node the totals are the sums over the live pods of the listed nodes, and the requested pods are that plus their number |
| ClusterTotals.TotalsConservedIff | backend/cluster.go:19-92 | whatever the names, with nothing negative, a total is at most the sum over the live pods of the listed nodes (with their number, for requested pods), and is that exactly when no listed node hides a pod that counts |
| ClusterTotals.NamesakesFallShort | backend/cluster.go:141-149 | of two live pods of one name on a node only the second counts, while both are counted as pods |
| ClusterTotals.TwoWebsFallShort | backend/cluster.go:141-149 | concretely: 2 requested, of 3 |
| ClusterTotals.RequestedPodsIsTheirNumber | backend/cluster.go:150-150 | with no container declaring "pods", that total is the number of live pods, whatever their names |
| ClusterTotals.PodDominated | backend/cluster.go:160-172 | limits above requests in every container carry over to the pod |
| ClusterTotals.TotalsDominated | backend/cluster.go:59-84 | and from the live pods to the totals, duplicate names or not |
| Indexers.Indexer.Add | vendor/k8s.io/client-go/tools/cache/thread_safe_store.go:68-74 | stores the object under its key and keeps every bucket exactly the keys whose objects yield its value |
| Indexers.Indexer.Delete | vendor/k8s.io/client-go/tools/cache/thread_safe_store.go:84-91 | removes the key and keeps the buckets exact |
| Indexers.Indexer.Replace | vendor/k8s.io/client-go/tools/cache/thread_safe_store.go:122-132 | rebuilds exact buckets in any order of items |
| Indexers.Indexer.UpdateIndices | vendor/k8s.io/client-go/tools/cache/thread_safe_store.go:242-268 | each bucket loses the key for the old object's values and gains it for the new one's |
| Indexers.Indexer.DeleteFromIndices | vendor/k8s.io/client-go/tools/cache/thread_safe_store.go:272-291 | each bucket of the object's values loses the key |
| Indexers.Indexer.ByIndex | vendor/k8s.io/client-go/tools/cache/thread_safe_store.go:168-186 | every stored object whose index function yields the value, once each |
| Indexers.Indexer.List | vendor/k8s.io/client-go/tools/cache/thread_safe_store.go:100-108 | every stored object, once each |
| Indexers.MetaNamespaceKeyInjective | vendor/k8s.io/client-go/tools/cache/store.go:76-88 | names and namespaces holding no slash, two objects have one key exactly when they agree in both, so none displaces another |
| UserSearch.IndexField | controller/common.go:189-195 | the prefixes of 2 bytes and more up to the given length |
| UserSearch.UserSearchIndexer | controller/common.go:82-94 | the prefixes of the three fields |
| UserSearch.SearchKeysIff | controller/common.go:82-94 | a user is indexed under exactly the keys of 2 to 6 bytes that one of its three fields starts with |
| UserSearch.Provider.ListAllUsers | backend/provider/local/local_provider.go:181-197 | for a key of two bytes or more the scan finds exactly the matching users, once each |
| UserSearch.Provider.ListUsersByIndex | backend/provider/local/local_provider.go:199-219 | for a key of up to six bytes the index finds exactly the matching users, once each, and nobody for a shorter key than two |
| UserSearch.Provider.FindUsers | backend/provider/local/local_provider.go:70-74 | both paths find the same users whatever was added, updated and deleted before |
| UserSearch.Provider.SearchPrincipalsDedupe | backend/provider/local/local_provider.go:61-96 | the matching users' principals, without users listing a name another provider gave, and none in a search for groups |
| UserSearch.DropKnown | backend/provider/local/local_provider.go:81-93 | the nested loop drops exactly the users that list a known name |
| UserSearch.SearchFindsIff | backend/provider/local/local_provider.go:61-96 | who is in an answer, independent of path and order: with a key of two bytes and more and a search for users or anybody, exactly those with a field that starts with the key and no listed name known elsewhere, each by its local ID, namespace, login name and display name |
| UserSearch.MineIff | controller/common.go:149-171 | a hit is marked as the searcher's own exactly when its name and login name are the searcher's, and the searcher is a user |
| UserSearch.DedupeLeavesNoDuplicateIff | backend/provider/local/local_provider.go:61-96 | the local part of any answer repeats none of the other provider's names exactly when no matching user lists none of them, has no local ID and has a default ID among them |
| UserSearch.NoNameTwiceIff | backend/provider/local/local_provider.go:80-93 | the local part of any answer names nobody twice exactly when no two matching users that it keeps have one local ID |
| UserSearch.AnswerNamesNobodyTwiceIff | backend/provider/common/provider.go:55-71 | the whole answer names nobody twice, if the other provider's does not, exactly when both conditions hold |
| UserSearch.BobIsNamedTwice | controller/common.go:52-63 | two concrete users, found by one key and with the local provider alone, that give one name twice |
| UserSearch.NewBobIsRepeated | backend/provider/local/local_provider.go:61-96 | a concrete user without a local ID whose default ID another provider gave, and which every answer therefore names again |
| UserSearch.SearchPrincipals | backend/provider/common/provider.go:55-71 | the own provider's answer in front, the deduplicated local one behind it, and an own provider's error as it is |
| Tokens.CredentialRoundTrip | util/util.go:135-141 | the credential of a name and a key splits into them exactly when neither holds a colon |
| Tokens.OnlyCredentialsSplit | util/util.go:135-141 | what splits into a name and a key is their credential |
| Tokens.NameIsBeforeColon | util/util.go:135-141 | whatever the text, its name part is what comes before the first colon |
| Tokens.ExpiredIff | util/util.go:115-125 | up to 9223372036854 milliseconds, and at any time, a token has expired exactly when its time to live is not 0 and has passed |
| Tokens.ExpiryIsFinal | util/util.go:115-125 | an expired token stays expired, wrap-around and saturation included |
| Tokens.DurationExactIff | util/util.go:123-123 | the product that makes the duration is exact exactly up to 9223372036854 milliseconds either way |
| Tokens.LongestTokenIsBornExpired | util/util.go:123-123 | one millisecond more and the token has expired at birth |
| Tokens.PrintedExpiryIsHonest | util/util.go:104-113 | before the printed second the token lives, after it the token has expired, and with nothing printed it never expires |
| Tokens.Backend.CheckTokenCache | backend/user.go:221-238 | the token with the key, an empty one if there is none, an error exactly if there are several |
| Tokens.Backend.GetStoredToken | backend/user.go:240-271 | accepts exactly the credential of the one token with its key while it lives; error, status and nil token coincide; the statuses; the direct client is never asked |
| Tokens.AcceptedIff | backend/user.go:240-271 | a token is accepted on one text only, its name, a colon and its key, and exactly while it is stored and alive and no other has its key |
| Tokens.OwnCredentialAccepted | api/insecure.go:30-38 | the credential handed out at login is accepted exactly while the token lives and shares its key with nobody |
| Tokens.TokenApi.Delete | app/purge.go:46-46 | deletes by name unless refused, and what it answers |
| Tokens.TokenApi.Purge | app/purge.go:37-57 | deletes by name exactly the listed expired tokens whose delete was not refused, and counts those deleted without an error |
| TokenRuns.PurgingIsInvisibleIff | app/purge.go:37-57 | in any run under a clock that never goes back, with distinct keys, every lookup in any state, fresh or stale, accepts the same tokens as in the run whose purges do nothing, exactly when no purge hits a living token that a credential can present, and none such is created under a name free in only one of the two runs |
| TokenRuns.LivingTokensStayIff | app/purge.go:43-55 | and a token that has not expired is always stored exactly when it would be without purging, under the same condition for all tokens |
| TokenRuns.PurgeInvisibleIff | app/purge.go:43-55 | one purge from any listing changes no answer exactly when it shares namespace and name of no living, presentable token with a listed expired one whose delete is not refused |
| TokenRuns.PurgingIsInvisible | app/purge.go:37-57 | both hold where no name is used twice |
| TokenRuns.ReusedNameIsPurged | app/purge.go:46-46 | a concrete run in which a purge from an old listing deletes a living token under a name used again |
| TokenRuns.PurgeLeavesTheLiving | app/purge.go:37-57 | an undisturbed purge with a fresh listing leaves exactly the tokens that have not expired |
| TokenRuns.LogoutEndsIt | api/insecure.go:45-90 | a logout that sees the present state takes away the token of its credential and leaves every token of another name; with distinct keys that credential is accepted no more |
| TokenRuns.RemovalInvisibleIff | backend/user.go:240-271 | removing expired tokens changes no answer exactly when no live token is left alone with a key it shared |
| TokenRuns.SharedKeyMakesPurgeVisible | util/util.go:90-102 | two tokens created in one second, for 1 and 1.5 seconds, and so of one key: the purge of the first lets the second in |
| Int32.Int32ToString | util/util.go:176-195 | within its 11 bytes, the decimal text of every 32-bit integer |
| Int32.ParsesBack | util/util.go:176-195 | parsing the text gives the integer back |
| Int32.OnePrinted | util/util.go:176-195 | -105 is printed "-105" |
| Int32.NoLeadingZero | util/util.go:176-195 | no leading zero but in zero itself |
| Int32.FitsTheBuffer | util/util.go:176-195 | ten digits are enough, so the sign still fits, for the smallest integer too |

## Left out

- SyncHandler: keys arrive split into namespace and name; what SplitMetaNamespaceKey rejects is not modelled, nor are events, logs and the work queue, whose one-worker-per-key rule the proofs do not need.
- Owner references: an object has at most one, the UID of its controller; other references and the fields beside the UID are not modelled.
- Object bodies: images, labels, rules, probes and data are not modelled, only names, principals, replicas, availability and status; what the objects of a bundle refer to is told by InfraOutcomes.References.
- Update: it never answers AlreadyExists, an update that changes nothing writes nothing, and the status of a Deployment is not changed by it; these are contracts of the server.
- ControllersNeverChange: other writers do not take over an object's controller reference; InfraWorld.ControllersNeverChange holds of the runs of BundlesGrowInOrder, and SyncKeepsOwnersIff says when a Dashboard's update does take one over.
- CreationOrder: runs have no deletes.
- BundlesGrowInOrder: runs in which no worker enters an update path early, and nobody else puts up a main Deployment in an Infrastructure's name. UpdatePathOrderIff says that the order fails otherwise, SwitchedKindBreaksOrder how it comes about, and TameRunsAreSound that the Infrastructures which InfrastructureDeploy makes do not do it.
- ControlledMainImpliesBundle: the same runs, and they start where it holds.
- EveryStateConverges: users share no names and no local IDs (NamesakeUsersExclude says why), and the others delete no users, leave principals, roles and bindings alone, and keep a user's local ID what it is, and listed as long as a principal outside the user's namespace bears it.
- EveryStateSyncs: nothing is deleted, others put up no main Deployment, and Infrastructures bear its name (SecondSyncSucceedsIff says why).
- InfraConvergence.SyncSucceedsIff: for Infrastructures of a known kind under its main Deployment's name; other kinds are UnknownKindSyncsIff, other names CreationSucceedsIff and SecondSyncSucceedsIff.
- CreateBundle: the source writes the Creates of each bundle out one after the other; the model walks their list.
- Namespaces, services and the rest of a bundle are never checked for an owner by the source, and so are not here.
- ClusterResources: quantities are integers in one unit, their representation and rounding are not modelled.
- GetNodePods: the field selector of the listing is the server's; only the filter behind it is modelled.
- ByIndex: the source sorts the keys of a bucket; the model takes them in any order.
- Indexer.Add: one index function stands for the several of an informer, and AddIndexers, which refuses once there are items, is not modelled; the user controller registers every index before the informers start.
- UserSearch.SearchPrincipals: another provider's search is a parameter; a missing provider is not modelled, nor is MemberOf, which only groups have.
- ExpiredIff: times are compared as integers, the source compares floating-point seconds.
- ExpiresAt: the second is an integer, not RFC 3339 text.
- The exp claim of the JWT, which treats a time to live of 0 as "at once", is not checked by any lookup and not modelled; a key is opaque.
- PurgingIsInvisible: keys are distinct; without that RemovalInvisibleIff says when one purge fails. A token's name is unique only while the token is stored, so PurgingIsInvisibleIff does not ask for distinct names.
- GetTokenAuthFromRequest: header, cookie and Base64 handling would only add easy members.
- AuthenticateUser and bcrypt, EnsureUser and checkLabels, which CheckUserCache makes unreachable, the local GetPrincipal, which looks up an empty name, and GenerateToken's signing.
- HTTP handlers, streaming, the command line, CRD deployment, key files and the generated clients.
