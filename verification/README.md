# Pi-hole operator: a model of its control loop

The operator keeps a `PiHoleCluster` resource, the Kubernetes objects made from it, one read-write
Pi-hole server and any number of read-only replicas in agreement. This project models that control
loop in Dafny and proves what holds in every run, after every aborted run, and over every history of
runs.

Three kinds of state change: the ad-lists on the Pi-hole servers (a map from address to comment for
each base URL), the reconciler's memory (API client cache, current cluster name, ledger of synced
pods), and what the Kubernetes API server holds (resources, owned objects, pods). `Environment.World`
is everything outside the process. Each of its calls may fail, a failure changes nothing but a ghost
counter, and each effect is appended to a ghost journal. "No call fails" below means that the counter
did not move.

| file | what it holds |
|---|---|
| `Wrappers`, `Domain`, `ClusterTypes` | values: pods, journal events, specification, status |
| `Environment` | servers and API server, with failing calls and the journal |
| `Backoff`, `PiholeApi` | the retry loop, the session, the calls on one server |
| `AdListProtocol`, `AdListSync` | the ad-list protocol as a transition system, and the loops that run it |
| `PodNames`, `Ledger`, `Sync` | client selection by name, the ledger and its evidence, the reconciler |
| `Upsert`, `Resources`, `Finalizers` | create-or-update, owned objects and readiness gates, finalizer list |
| `Fqdn`, `Admission` | the domain pattern and its grammar, defaulting and validation |
| `Controller`, `Operator` | one run, and every history of runs |

## Results

*Ad-lists.* Every call of a run removes one disagreement between a server and the target (the
addresses of the resource and the read-write server's lists that are not the operator's own), so over
any sequence of runs, each aborted anywhere and iterating in any order, the edits never outnumber the
initial disagreements, and all histories that converge end in the same addresses and comments. Runs of
the code itself are such a sequence, and from the first one that succeeds the servers are in the state
that was the goal from the start (`Operator.RetryLists`). At every prefix nothing wanted is lost, and no list of a server is deleted before every addition to it
was made. That the operator may delete what it posted rests on two comment literals being equal; they
are two constants here, `POSTED_COMMENT` and `OWNED_COMMENT`.

*Config sync.* Every ledger entry, in memory or stored, was there from the start or is backed in the
journal, in one run, by a listing of its cluster's read-write pods that shows a ready one, a listing that
shows the pod, a download from the read-write pod and an accepted upload of the same bytes to the address
listed for the pod. The download is at the address listed for the read-write pod when that pod is usable.
It need not be when the ready pod is another one with the read-write label: then the client is an old one. A run that finishes without a
failing call while all pods are up has uploaded to every replica that was not in the ledger and leaves
all of them in the stored one; the next run over the same pods calls no server. A failed upload stops
none of the others: each selected pod of the listing is tried, so a run that finishes while n calls fail
and all pods are up leaves at most n replicas behind (`Controller.FewBehind`). The ledger is stored before any ad-list is
touched.

*Clients.* Every client ever made is in the cache or was closed, through all error paths and over any
interleaving of clusters. A refresh that fails leaves the entries it did not reach as they were.

*Lifecycle.* A new resource carries the finalizer after one run without a failing call and is maintained
by the next; a deleted one is let go by one such run, and disappears unless others hold it
(`Operator.AdoptedInOneRun`, `Operator.ReleasedInOneRun`).

*Runs.* Effects come in order: each object, server call and readiness flag is written only under the
conditions and after the steps that `Controller.Allowed` lists. No step undoes what another achieved, so
the marks a run leaves are true at its end, wherever it stops (`Controller.Holds`): when the read-write
set was written, the secret, the claim and the environment are stored as specified. Servers are called only after a check
that saw the stored set at the specified size and that many replicas ready, and, when all pods are up,
well named and no cluster's name is ambiguous, only the cluster's own. A run for one cluster leaves the
resources and objects of all others alone. Complete or aborted, it leaves the lists of servers outside
its plan as they were, those of all servers but its own when the pods are tidy as above, and the
read-write server keeps every list that the resource names or others made, unless that server is taken
for a replica too.

### Where the code does less than it seems to

Each of these is stated with its exact condition.

* The name test for replicas also takes pods of a cluster called `<name>-ro` or `<name>-ro-…`, and
  picks exactly the cluster's own replicas if and only if no such cluster is in the namespace
  (`PodNames.SelectsOwnReplicas`).
* The pods are keyed by address before they are compared with the ledger. Exactly the listings with
  distinct addresses are always judged right (`Ledger.JudgedRightIffDistinct`). Replicas without an
  address get that far when they are surplus to the specified number of ready ones
  (`Controller.UnaddressedReplicaHides`).
* Over 64-bit durations the waits follow the capped power series exactly when the first wait is not
  above the cap and doubling the cap does not overflow (`Backoff.ClosedFormIffSensible`).
* The validators panic on an enabled pod monitor without an exporter block (`Admission.PanicsIff`, and
  `Admission.PanicHappens` for an instance); defaulting first prevents it (`Admission.DefaultThenValidate`).
* A run that nothing else stops dereferences nil if and only if the read-only volume block is absent
  or the ad-list sync is on without a configuration block and some replica is due
  (`Controller.Crashes`). Defaulting removes the first case and switches on the sync of the second
  (`Controller.DefaultedRunsCrashIff`); it takes an API secret made by hand to get there
  (`Controller.DefaultedRunCrashes`).
* A resource that is being deleted without the operator's finalizer, as when others still hold it
  after the operator let go, makes every run fail: it tries to put the finalizer back
  (`Controller.FinalizerStep`).
* API clients log in with the secret's value at `password`, whatever key a reference names. A client
  made by a refresh has the password the pods were started with if and only if the secret holds the same
  value there, or the referenced value is empty and `password` absent (`Sync.ReferencedPasswordIff`);
  `Sync.ReferencedKeyIsIgnored` is a secret for which it is not.
* The cache tracks addresses, not passwords: after a refresh a client has the password now stored if and
  only if its entry was not kept or the kept client had it already (`Sync.PasswordCurrentIff`).
* Without a password, a secret reference or a secret of the default name, no stateful set is ever
  written (`Resources.EnsureReadWriteSTS`).

Comments and code disagree in places; the model follows the code. "total attempts = 4"
(internal/pihole_api/api_client.go:198, 301) are six. `UpsertResource` says that it returns the desired
object (internal/utils/generic_reconciler.go:22); after an update it returns the one read before it.
`ConfigSynced` is set when uploads fail too (internal/controller/piholecluster/sync.go:89-98). A failed
or changed ad-list is not taken up again until some replica is due (sync.go:54-57). `Sync.Config` is
never read, and a due sync uploads to every selected replica (sync.go:83-95). With a negative
`MaxRetries` the retry loop reports success without a call (api_client.go:79, 105-106).

### Assumptions

* A server's ad-lists are keyed by address. The code does not look at their type when reading and
  deletes with `type=block`, so all lists are taken to be block lists.
* A call that fails has no effect. An accepted teleporter import may change the ad-lists of its server
  in any way.
* Pod names are unique in a namespace. Distinct addresses are assumed only where a statement says so.
* There is one reconcile worker, and during a run nobody else changes pods, objects, resources or
  lists. Between runs others may change all of them (`Operator.Evolve`), except that only the operator
  writes the status and no one lists the operator's finalizer twice.
* The API server counts versions from one, refuses a stale version, refuses new finalizers on a
  resource being deleted, and removes the resource with its last finalizer. An update that gives no
  version is taken to be unconditional for every kind; API servers refuse such updates of custom
  resources, of which the pod monitor is one.

## Model

| member | source | states |
|---|---|---|
| `AdListProtocol.StepLowersPotential` | internal/controller/piholecluster/sync.go:155-182 | every permitted edit lowers the number of disagreements over all servers by exactly one |
| `AdListProtocol.StepKeepsGoal` | internal/controller/piholecluster/sync.go:155-237 | no permitted call changes the state the run is heading for, comments included |
| `AdListProtocol.RunAccounting` | internal/controller/piholecluster/sync.go:129-246 | over any complete or aborted run: the goal stands still, and edits plus remaining disagreements equal the initial ones |
| `AdListProtocol.ConvergedIffNoDisagreement` | internal/controller/piholecluster/sync.go:190-243 | all servers have the target's addresses iff nothing disagrees iff the fleet is in its goal state |
| `AdListProtocol.RestartsConverge` | internal/controller/piholecluster/sync.go:129-246 | over any sequence of runs aborted anywhere: edits never exceed the initial disagreements; converged iff in the one goal state iff exactly that many edits were made |
| `AdListProtocol.Confluence` | internal/controller/piholecluster/sync.go:129-246 | two histories with other failures and other orders that converge end in the same addresses and comments after equally many edits |
| `AdListProtocol.MinimalEdits` | internal/controller/piholecluster/sync.go:141-237 | a converging run posts and deletes on each server exactly the set differences, duplicates in the resource included |
| `AdListProtocol.NothingWantedIsLost` | internal/controller/piholecluster/sync.go:155-237 | what a server had of the target is kept with its comment, what is new is of the target and marked as the operator's, and nothing is lost before all additions are there |
| `AdListProtocol.PrefixSafety` | internal/controller/piholecluster/sync.go:155-237 | the same at every point at which a run can abort, and servers outside the plan are untouched |
| `AdListProtocol.ReadWriteSafety` | internal/controller/piholecluster/sync.go:173-182 | at every prefix the read-write server has every list it had that is in the resource or not the operator's, comment unchanged |
| `AdListProtocol.GravityRunsLast` | internal/controller/piholecluster/sync.go:184-187 | after gravity ran on a server, the run edits that server no more |
| `AdListProtocol.SecondRunIsSilent` | internal/controller/piholecluster/sync.go:129-246 | from a converged fleet no run edits anything |
| `AdListProtocol.ServerTrace` | internal/controller/piholecluster/sync.go:206-242 | additions, then deletions, then gravity on one server are permitted calls, with the stated effect |
| `AdListSync.PostMissing` | internal/controller/piholecluster/sync.go:155-162 | the posts are distinct wanted addresses not on the server, all of them unless a call fails, and the lists change by exactly these |
| `AdListSync.DeleteUnwanted` | internal/controller/piholecluster/sync.go:173-182 | the deletions are distinct listed addresses that are unwanted (and the operator's, on the read-write server), all of them unless a call fails |
| `AdListSync.ReconcileServer` | internal/controller/piholecluster/sync.go:206-242 | one server's turn, whatever fails: its calls are a permitted trace, and on success it has the target's addresses and gravity ran |
| `AdListSync.ReconcileReplicas` | internal/controller/piholecluster/sync.go:206-243 | the loop over the replicas in any order: a permitted trace, settling every replica unless a call fails |
| `Sync.Reconciler.SyncAdLists` | internal/controller/piholecluster/sync.go:129-246 | a run's journal is a permitted trace that explains the servers; it succeeds iff no call fails and the clients are there; then all servers are in the goal state and gravity ran on each |
| `Sync.Reconciler.SyncAPIClients` | internal/controller/piholecluster/sync.go:252-323 | on success the cache agrees with the listing: current addresses for usable pods, only listed names, entries of unusable pods untouched, and the stored password in every client made; no client leaks on any path; a failing refresh has dealt with some of the pods in order and left all other entries as they were |
| `Sync.NewEntriesAreUsable` | internal/controller/piholecluster/sync.go:264-299 | after a refresh every ready pod with an address has a client for it, and every new entry is that of such a pod |
| `Sync.PasswordCurrentIff` | internal/controller/piholecluster/sync.go:278-299 | afterwards a usable pod's client has the stored password iff its entry was not kept or the kept client had it |
| `Sync.ReferencedPasswordIff` | internal/controller/piholecluster/sync.go:278-299 | a client made by a refresh has the value at the referenced key iff the secret holds it at `password` too, or it is empty and that key is absent |
| `Sync.ReferencedKeyIsIgnored` | internal/controller/piholecluster/sync.go:293 | a secret that passes the checks and leaves clients without a password |
| `Sync.Reconciler.NewClient` | internal/controller/piholecluster/sync.go:276-297 | the client is for the pod's address, with the stored secret's value at `password`, and is accounted for from the moment it is made |
| `Sync.Reconciler.RefreshClient` | internal/controller/piholecluster/sync.go:278-299 | a right entry is left alone, a wrong one replaced; when the secret cannot be read the cache stays as it was, with a closed client in it |
| `Sync.Reconciler.DropStaleClients` | internal/controller/piholecluster/sync.go:304-320 | exactly the entries of listed names stay, unchanged |
| `Sync.Reconciler.ReadOnlyAPIClients` | internal/controller/piholecluster/sync.go:336-350 | one client for each selected name, each name once; none is an error |
| `Sync.Reconciler.OnlyOwnClients` | internal/controller/piholecluster/sync.go:336-350 | with an agreeing cache and no ambiguous cluster name, the selected names are names of the cluster's own replicas, those of all usable ones included |
| `Sync.Reconciler.OwnReplicaServers` | internal/controller/piholecluster/sync.go:336-350 | when besides all pods are up and well named, the selected servers are exactly those at the replicas' current addresses |
| `Sync.Reconciler.OwnReadWriteServer` | internal/controller/piholecluster/sync.go:326-333 | and the read-write server is the one at the current address of the cluster's own read-write pod |
| `Sync.Reconciler.ReplicasHaveClients` | internal/controller/piholecluster/sync.go:326-350 | when all pods are up, an agreeing cache has the read-write client and a selected client at every replica's address |
| `Sync.Reconciler.GetAPISecret` | internal/controller/piholecluster/resources.go:466-487 | the stored secret iff the read succeeds, it exists and it has the referenced key |
| `Sync.Reconciler.IsPodSynced` | internal/controller/piholecluster/sync.go:356-363 | true iff name and UID are in the ledger |
| `Sync.Reconciler.AddPodSynced` | internal/controller/piholecluster/sync.go:365-370 | the ledger gains the entry at its end unless it has it; nothing else of the status changes |
| `Sync.Reconciler.UploadAll` | internal/controller/piholecluster/sync.go:83-95 | accepted uploads and failures together are as many as the selected clients whose pod is in the map, so every one is tried whatever becomes of the others; uploads are of the given bytes to these only, no other server's lists differ; the ledger only grows, without duplicates, by entries whose pod accepted an upload, and lacks at most one pod for each failure |
| `Sync.Reconciler.TransferConfig` | internal/controller/piholecluster/sync.go:28-98 | distributes iff some listed replica is due; listing, one download from the read-write server, then uploads of those bytes to selected replicas only, all of them tried; it fails only by a failing call or a missing client before the uploads, and then leaves the status alone |
| `Sync.Reconciler.TransferAccountably` | internal/controller/piholecluster/sync.go:28-98 | the same, and every ledger entry, in memory or stored, keeps its evidence, the listed read-write pod as the source of the bytes included; every entry added was uploaded to by these calls |
| `Sync.Reconciler.PersistStatus` | internal/controller/piholecluster/sync.go:97-102 | what is stored afterwards is what was stored or the status in memory, so a failed write makes no false entry |
| `Sync.Reconciler.SyncListsSafely` | internal/controller/piholecluster/sync.go:106-110 | complete or aborted, an ad-list run leaves the read-write server every list the resource names or others made, servers outside its plan all lists, and the ledgers their evidence |
| `Sync.Reconciler.PerformConfigSync` | internal/controller/piholecluster/sync.go:24-123 | when due and completed the ad-lists converge and the flags are set; when not due no server is called; no more selected pods of the map are missing from the ledger than calls failed; the ledger is stored before the ad-lists and what was written is stored; unless the read-write server is taken for a replica it keeps every list the resource names or others made; servers outside the plan keep all; panics only for a due sync of ad-lists without a configuration block, and never completes one |
| `Sync.Reconciler.AfterTransfer` | internal/controller/piholecluster/sync.go:97-120 | the status write comes first, and its failure stops nothing: the outcome is a failure only when an ad-list call fails besides, or a client is missing; without a failing call the status in memory is stored at the end |
| `Sync.BehindAreShown` | internal/controller/piholecluster/sync.go:37-94 | with distinct addresses that are all selected, no more replicas are missing from the ledger than the map shows |
| `PodNames.ReadOnlySelection` | internal/controller/piholecluster/sync.go:336-345 | the prefix test accepts a pod name iff it is the cluster's own replica or the other cluster's name continues `<c>-ro-` |
| `PodNames.SelectsOwnReplicas` | internal/controller/piholecluster/sync.go:336-345 | the test selects exactly the cluster's replicas iff no other cluster is called `<c>-ro` or `<c>-ro-…` |
| `PodNames.ReadWriteSelection` | internal/controller/piholecluster/sync.go:325-328 | the name looked up for the read-write client is that of pod 0 of the cluster's own read-write set and of no other |
| `PodNames.AmbiguousNamesAreMisread` | internal/controller/piholecluster/sync.go:341 | a concrete read-write pod of another cluster that the test takes for a replica |
| `Ledger.PodMapComplete` | internal/controller/piholecluster/sync.go:37-40 | with distinct addresses the pod map loses no pod |
| `Ledger.DueIffUnsynced` | internal/controller/piholecluster/sync.go:37-52 | with distinct addresses a sync is due iff some listed pod, by name and UID, is not in the ledger |
| `Ledger.JudgedRightIffDistinct` | internal/controller/piholecluster/sync.go:37-52 | exactly the listings with distinct addresses are judged right for every ledger |
| `Ledger.UploadIsEvidence` | internal/controller/piholecluster/sync.go:68-94 | an accepted upload to a listed pod of the bytes downloaded at the address shown for its cluster's read-write pod is evidence for its entry |
| `Ledger.GrownIsSound` | internal/controller/piholecluster/sync.go:83-95 | a ledger that grew by a run's uploads has evidence for every entry |
| `Backoff.RetryWithBackoff` | internal/pihole_api/api_client.go:75-107 | for a non-negative retry count: success iff the last call made succeeded, all calls before failed, the last error after retries + 1 calls, or cancellation at a wait; the waits follow the schedule |
| `Backoff.WaitClosedForm` | internal/pihole_api/api_client.go:99-102 | the k-th wait is min(max, initial · 2^k), waits never decrease, and no doubling overflows |
| `Backoff.ClosedFormIffSensible` | internal/pihole_api/api_client.go:99-102 | with 64-bit wrap-around the closed form holds at every index iff initial ≤ max and 2 · max is in range |
| `Backoff.DefaultTotalWait` | internal/pihole_api/api_client.go:197-201 | with the configuration used, at most five waits and 12.5 s in total, reached when all are taken |
| `PiholeApi.APIClient.Authenticate` | internal/pihole_api/api_client.go:132-204 | at most six requests, on the schedule of the waits; the session is that of the first accepted one; a failure leaves the old session |
| `PiholeApi.APIClient.EnsureAuth` | internal/pihole_api/api_client.go:207-221 | a valid session is used as it is; an expired one is renewed iff one of six requests is accepted |
| `PiholeApi.APIClient.PostAdList` | internal/pihole_api/api_client.go:383-419 | success stores the address with the operator's comment and needs a session, valid or newly granted; failure changes nothing |
| `PiholeApi.APIClient.UploadTeleporter` | internal/pihole_api/api_client.go:270-339 | it succeeds iff there is a session and one of six attempts is accepted with no earlier one accepted and no earlier wait cancelled; then one upload takes effect, on this server only |
| `Upsert.UpsertResource` | internal/utils/generic_reconciler.go:23-63 | on success the object has the desired content and the cluster as controller after exactly one write, a creation iff it was absent; after an update the object read before is returned |
| `Upsert.UpdateWithRetry` | internal/utils/generic_reconciler.go:47-57 | the object is rewritten iff one of four attempts is accepted after nothing but conflicts |
| `Upsert.UpsertClaim` | internal/controller/piholecluster/resources.go:531-545 | of an existing claim only the storage request changes, and it ends equal to the wanted one; no write when it is equal already |
| `Upsert.UpdateClusterStatusWithRetry` | internal/utils/generic_reconciler.go:74-83 | the status is stored as it is in memory, or nothing is changed; it is stored iff one of four attempts is accepted after nothing but conflicts |
| `Resources.OwnersAreDisjoint` | internal/controller/piholecluster/resources.go:58 | no two clusters own the same object, and a read-write set never has the name of a read-only one |
| `Resources.PodsAreNamedBySets` | internal/controller/piholecluster/sync.go:325-341 | the names by which clients are looked up are those the stateful sets give their pods |
| `Resources.EnsureAPISecret` | internal/controller/piholecluster/resources.go:426-464 | a referenced secret is there with its key, a password is stored in a secret of the cluster; nothing is asked for without either |
| `Resources.EnsurePiHolePVC` | internal/controller/piholecluster/resources.go:492-551 | the stored request is the specified size, or 10Gi when none is given; a new claim has the specified access modes, or ReadWriteOnce, the specified class and the cluster as controller; an existing one changes in its request only |
| `Resources.EnsureReadWriteSTS` | internal/controller/piholecluster/resources.go:116-188 | the set has one replica and the cluster as controller; without a readable secret nothing is written |
| `Resources.EnsureReadOnlySTS` | internal/controller/piholecluster/resources.go:214-375 | for a positive count the set has it and the cluster as controller; panics only without a volume block |
| `Resources.AreRWPodsReady` | internal/controller/piholecluster/resources.go:192-209 | true iff some listed read-write pod is ready |
| `Environment.PodsOfCounted` | internal/controller/piholecluster/resources.go:399-406 | a listing by labels has each matching pod as often as there is such a pod, so counting its pods counts the cluster's |
| `Resources.AreROPodsReady` | internal/controller/piholecluster/resources.go:382-421 | true iff the set exists, reports ready replicas, and the number of ready pods listed is its replica count; the journal has what was seen, the counts being those of the stored set |
| `Resources.ResourcesReady` | internal/controller/piholecluster/status.go:27-95 | an answer is right: true iff the sets report their replicas, the claim is bound and the rest exists; there is one when all is stored and no read fails |
| `Controller.GroundedStays` | internal/controller/piholecluster/piholecluster_controller.go:135-206 | whatever was marked as achieved stays so through every step that undoes nothing, as each step promises |
| `Controller.SourceIsShown` | internal/controller/piholecluster/piholecluster_controller.go:151-182 | when the clients were refreshed in a run, its journal shows the ready read-write pods and so the address downloads come from |
| `Controller.EnsureReadWrite` | internal/controller/piholecluster/piholecluster_controller.go:136-149 | secret, claim, set in this order; on success all are as specified |
| `Controller.SyncStep` | internal/controller/piholecluster/piholecluster_controller.go:167-182 | the gated sync: replicas ready in the specified number, client cache agrees, ledger caught up when nothing fails and pods are up, lists others made spared, no list changed when no replica is due |
| `Controller.EnsureResources` | internal/controller/piholecluster/piholecluster_controller.go:135-206 | on success everything specified is stored; a failure without a failing call has one of the listed causes; only the cluster's own objects change |
| `Controller.StatusStep` | internal/controller/piholecluster/piholecluster_controller.go:96-102 | readiness is stored as true iff everything is healthy; a failure stores nothing |
| `Controller.RunManaged` | internal/controller/piholecluster/piholecluster_controller.go:90-105 | what a finished run leaves, newcomers uploaded to included, when it can fail or panic, and that readiness turns true only by it; the stored ledger only grows |
| `Controller.AddFinalizer` | internal/controller/piholecluster/piholecluster_controller.go:124-132 | appends the finalizer, which the API server refuses during deletion |
| `Controller.CloseAll` | internal/controller/piholecluster/piholecluster_controller.go:213-218 | `Close` is called on every client there is and the cache is empty, with no leak |
| `Controller.HandleDelete` | internal/controller/piholecluster/piholecluster_controller.go:210-228 | the clients are closed even when the update fails; on success the finalizer is gone, and the resource if it was the last one |
| `Controller.RunUnmanaged` | internal/controller/piholecluster/piholecluster_controller.go:80-88 | without the finalizer, or during deletion, a run writes finalizers only: it appends the missing one, or takes it away and with it the resource if it was the last, and only a failing call keeps it from that |
| `Controller.Reconcile` | internal/controller/piholecluster/piholecluster_controller.go:70-106 | for any key, state and failures: no leak, stored ledgers backed by evidence, effects in order and their marks true of the stored objects and the cache at the end, server calls in scope, lists others made and servers outside the plan spared, other clusters untouched, no object or server written unless the finalizer is there and no deletion is under way; an unmanaged resource gets or loses the finalizer unless a call fails; a finished run stored its status and leaves no more replicas behind than calls failed |
| `Controller.QuietOnceCaughtUp` | internal/controller/piholecluster/sync.go:52-57 | a run for which every replica is in the ledger calls no server, whatever addresses its pods share |
| `Operator.RunTwice` | internal/controller/piholecluster/piholecluster_controller.go:70-106 | two actual runs, which together are the journal: if the first finishes without a failing call while pods are up, it uploaded to every newcomer, and the second makes no download, upload or edit, whatever else changed in between, and ends as `Reconcile` says; a new resource is adopted by the first and maintained by the second |
| `Operator.AdoptedInOneRun` | internal/controller/piholecluster/piholecluster_controller.go:80-83 | a resource without the finalizer that is not being deleted has it appended by any run without a failing call |
| `Operator.ReleasedInOneRun` | internal/controller/piholecluster/piholecluster_controller.go:86-88 | one that is being deleted loses it by such a run, keeps all others, and is gone iff there are none |
| `Controller.UnaddressedReplicaHides` | internal/controller/piholecluster/sync.go:37-57 | surplus replicas without an address pass the gate, and all but the last are never missed |
| `Controller.ReplacedPodIsDue` | internal/controller/piholecluster/sync.go:45-49 | with distinct addresses a replica whose name and UID are not in the ledger makes the sync due, whatever earlier pods of its name the ledger has |
| `Controller.DefaultedRunsCrashIff` | internal/webhook/v1/piholecluster_webhook.go:83-101 | after defaulting the only nil dereference left in a run is the absent configuration block, with its exact condition on what was submitted |
| `Controller.DefaultedRunCrashes` | internal/controller/piholecluster/sync.go:106 | such a resource, its pods and objects, at which nothing else stops the run |
| `Operator.Operate` | internal/controller/piholecluster/piholecluster_controller.go:70-106 | over any history of runs on any clusters with arbitrary changes in between: no leak, ledgers backed by evidence, finalizer at most once; the journal is the runs one after the other, each in order and in scope for the key requested, the specification and status it found stored, and the journal before it |
| `Operator.RetryLists` | internal/controller/piholecluster/sync.go:129-246 | ad-list runs of the code one after another, any calls failing: edits never exceed the initial disagreements, and once a run succeeds all servers are and stay in the initial goal state, after exactly that many edits |
| `Finalizers.RemoveString` | internal/utils/string.go:3-11 | the list without the string, order kept |
| `Finalizers.ContainsString` | internal/utils/string.go:13-20 | true iff the string is in the list |
| `Finalizers.OthersKept` | internal/controller/piholecluster/piholecluster_controller.go:81-88 | over any history of additions and removals the finalizer occurs at most once and all others keep order and multiplicity |
| `Finalizers.RemoveUndoesAdd` | internal/controller/piholecluster/piholecluster_controller.go:127 | removing what was added to a list without it gives the list back |
| `Fqdn.PatternIsGrammar` | internal/webhook/v1/piholecluster_webhook.go:185 | the regular expression accepts exactly: at least two labels, the last of two or more letters, every other one alphanumeric or hyphens without a leading, trailing or doubled hyphen |
| `Fqdn.AcceptedLabelsAreHostLabels` | internal/webhook/v1/piholecluster_webhook.go:185 | labels of accepted domains obey the character rules of section 3.5 of RFC 1034 as relaxed by section 2.1 of RFC 1123 |
| `Fqdn.HostNameAcceptedIff` | internal/webhook/v1/piholecluster_webhook.go:185 | the converse fails in three ways: a name of host labels is accepted iff it has two labels or more, its last one is a top-level domain of letters, and no other has a doubled hyphen |
| `Fqdn.SingleLabelRefused` | internal/webhook/v1/piholecluster_webhook.go:185 | no name without a dot is accepted |
| `Admission.Default` | internal/webhook/v1/piholecluster_webhook.go:58-104 | only unset parts change, each to its default as given in the source, and none with a default stays unset |
| `Admission.DefaultIsDetermined` | internal/webhook/v1/piholecluster_webhook.go:58-104 | that leaves one result, and defaulting it again changes nothing |
| `Admission.AdmittedIff` | internal/webhook/v1/piholecluster_webhook.go:115-191 | admitted iff an enabled ingress has a domain of the grammar, an enabled pod monitor has an enabled exporter and the replicas are not negative; both validators run these checks |
| `Admission.RefusedIff` | internal/webhook/v1/piholecluster_webhook.go:115-206 | which field a refusal names: the first that is wrong, in the order ingress, monitoring, replicas |
| `Admission.PanicsIff` | internal/webhook/v1/piholecluster_webhook.go:193-206 | the exact specifications on which the validators dereference an absent exporter |
| `Admission.PanicHappens` | internal/webhook/v1/piholecluster_webhook.go:193-206 | a specification on which they do |
| `Admission.DefaultThenValidate` | internal/webhook/v1/piholecluster_webhook.go:58-134 | defaulting first takes the panic away and leaves every other verdict as it was |

## Left out

- HTTP, TLS, JSON, multipart bodies and URL escaping: foreign calls, modelled by their effect and an arbitrary failure.
- Clocks and contexts: arrival times and cancellations are arbitrary inputs; the expiry time is a mathematical integer.
- Mutexes: with one worker no two calls run at once.
- Pod template, service, ingress, pod monitor and config map fields, probes and sidecars: kept as one opaque text each.
- Quantities: `resource.MustParse` panics on a malformed size, and sizes are compared as text here.
- Conditions and timestamps of the status: the `Available` condition is always true and decides nothing.
- Manager setup, generated code, manifests, shell scripts and documentation.
- Upsert.UpsertResource: compares the object as read with the desired one; the decoding of the read object over a copy of the desired one is not modelled.
- Environment.World.WriteTeleporter: says nothing about the ad-lists an import leaves on its server, which the repository does not determine.
- PiholeApi.APIClient.Close: closes idle connections only, so the model records the call and nothing else.
- Admission.Default: the error for an object of another type is not modelled, since the type is fixed here.
