/** Every history: runs of the single worker, and whatever others do in between. */
module Operator {
  import opened Domain
  import opened ClusterTypes
  import opened Environment
  import opened AdListProtocol
  import opened Ledger
  import opened Upsert
  import opened Sync
  import opened Finalizers
  import opened Resources
  import opened Controller

  /** Kubernetes keeps pod names unique in a namespace. */
  predicate UniquePods(pods: seq<Pod>) {
    forall p, q | p in pods && q in pods && p.namespace == q.namespace && p.name == q.name :: p == q
  }

  lemma UniqueInNamespace(pods: seq<Pod>, namespace: string)
    requires UniquePods(pods)
    ensures UniqueNames(PodsIn(pods, namespace))
  {
    forall p, q | p in PodsIn(pods, namespace) && q in PodsIn(pods, namespace) && p.name == q.name
      ensures p == q
    {
      assert p in pods && q in pods;
    }
  }

  /** No cluster lists the finalizer twice. */
  predicate ListedOnce(clusters: map<ClusterKey, ClusterRecord>) {
    forall k | k in clusters :: Count(clusters[k].finalizers, FINALIZER) <= 1
  }

  /** Only the operator writes the status; a new cluster has an empty ledger. */
  predicate StatusKept(before: map<ClusterKey, ClusterRecord>, after: map<ClusterKey, ClusterRecord>) {
    forall k | k in after :: after[k].status.syncedPods == [] || (k in before && after[k].status == before[k].status)
  }

  /** Between two runs others change pods, clusters, objects and ad-lists as they like, within these rules. */
  method Evolve(w: World)
    requires WellStored(w.objects) && ListedOnce(w.clusters) && UniquePods(w.pods)
    modifies w`pods, w`clusters, w`objects, w`lists
    ensures WellStored(w.objects) && ListedOnce(w.clusters) && UniquePods(w.pods)
    ensures StatusKept(old(w.clusters), w.clusters)
  {
    var pods: seq<Pod> := *;
    if UniquePods(pods) {
      w.pods := pods;
    }
    var objects: map<ObjectKey, Object> := *;
    if WellStored(objects) {
      w.objects := objects;
    }
    var clusters: map<ClusterKey, ClusterRecord> := *;
    if ListedOnce(clusters) && StatusKept(w.clusters, clusters) {
      w.clusters := clusters;
    }
    w.lists := *;
  }

  lemma ClusterStepListsOnce(before: map<ClusterKey, ClusterRecord>, after: map<ClusterKey, ClusterRecord>, key: ClusterKey)
    requires ListedOnce(before) && ClusterStep(before, after, key)
    ensures ListedOnce(after)
  {
    forall k | k in after
      ensures Count(after[k].finalizers, FINALIZER) <= 1
    {
      var list := before[k].finalizers;
      OthersKept(list, [Add]);
      OthersKept(list, [Remove]);
      assert [Add][..0] == [] && [Remove][..0] == [];
      assert AfterAll(list, [Add]) == Changed(list, Add) && AfterAll(list, [Remove]) == Changed(list, Remove);
    }
  }

  /** The ledger entries stored at some point. */
  ghost function Entries(clusters: map<ClusterKey, ClusterRecord>): set<SyncedPod> {
    set k, s | k in clusters && s in clusters[k].status.syncedPods :: s
  }

  lemma StartsSound(r: Reconciler)
    ensures StoredSound(r, Entries(r.w.clusters))
  {
  }

  lemma EvolvedIsSound(r: Reconciler, before: map<ClusterKey, ClusterRecord>, known: set<SyncedPod>)
    requires forall k | k in before :: Sound(r.w.events, before[k].status.syncedPods, known)
    requires StatusKept(before, r.w.clusters)
    ensures StoredSound(r, known)
  {
    forall l | l in r.Stored()
      ensures Sound(r.w.events, l, known)
    {
      var k :| k in r.w.clusters && r.w.clusters[k].status.syncedPods == l;
      assert l == [] || (k in before && before[k].status.syncedPods == l);
    }
  }

  /** The state in which a run may start. */
  ghost predicate Steady(r: Reconciler, known: set<SyncedPod>)
    reads r`apiClients, r`created, r.w`closed, r.w`objects, r.w`clusters, r.w`pods, r.w`events
  {
    r.Valid() && WellStored(r.w.objects) && ListedOnce(r.w.clusters) && UniquePods(r.w.pods) && StoredSound(r, known)
  }

  /** A run as history has it: its effects, and the stored clusters it found and left. */
  datatype Run = Run(
    context: Context, result: Result, failures: nat, events: seq<Event>,
    found: map<ClusterKey, ClusterRecord>, left: map<ClusterKey, ClusterRecord>)

  /** The run was for this key, from this journal and from the cluster it found, and in order. */
  ghost predicate Ran(run: Run, key: ClusterKey, start: seq<Event>, known: set<SyncedPod>) {
    && ClusterStep(run.found, run.left, key)
    && (key !in run.found ==> run.result == Errored && run.events == [])
    && (key in run.found && Managed(run.found[key]) ==> !run.result.Requeued?)
    && (key in run.found && !Managed(run.found[key]) ==>
          FinalizerStep(run.found, run.left, key, run.result, run.events, run.failures > 0))
    && (key in run.found ==>
          && InOrder(run.context, run.events)
          && run.context == Context(start, run.context.lists, known, key, run.found[key].spec, run.found[key].status, run.context.pods)
          && UniquePods(run.context.pods))
  }

  /** A new resource is managed after one run without a failing call. */
  lemma AdoptedInOneRun(run: Run, key: ClusterKey, start: seq<Event>, known: set<SyncedPod>)
    requires Ran(run, key, start, known) && run.failures == 0
    requires key in run.found && !run.found[key].deleting && FINALIZER !in run.found[key].finalizers
    ensures run.result == Requeued && key in run.left && Managed(run.left[key])
    ensures run.left[key] == run.found[key].(finalizers := run.found[key].finalizers + [FINALIZER])
  {
    assert FINALIZER in run.found[key].finalizers + [FINALIZER];
  }

  /** A deleted one is let go by one, and disappears unless others hold it. */
  lemma ReleasedInOneRun(run: Run, key: ClusterKey, start: seq<Event>, known: set<SyncedPod>)
    requires Ran(run, key, start, known) && run.failures == 0
    requires key in run.found && run.found[key].deleting && FINALIZER in run.found[key].finalizers
    ensures run.result == Requeued
    ensures key !in run.left <==> forall f | f in run.found[key].finalizers :: f == FINALIZER
    ensures key in run.left ==> FINALIZER !in run.left[key].finalizers
    ensures key in run.left ==>
              forall f | f != FINALIZER :: Count(run.left[key].finalizers, f) == Count(run.found[key].finalizers, f)
  {
    var list := run.found[key].finalizers;
    forall f ensures Count(Without(list, FINALIZER), f) == if f == FINALIZER then 0 else Count(list, f) {
      WithoutCounts(list, FINALIZER, f);
    }
    if f :| f in list && f != FINALIZER {
      assert Count(Without(list, FINALIZER), f) > 0;
    }
    if Without(list, FINALIZER) != [] {
      var f := Without(list, FINALIZER)[0];
      assert f in Without(list, FINALIZER);
      assert Count(Without(list, FINALIZER), f) > 0 && Count(list, f) > 0 && f in list;
    }
  }

  /** One run, with the finalizer count kept. */
  method RunOnce(r: Reconciler, key: ClusterKey, ghost known: set<SyncedPod>) returns (result: Result, ghost run: Run)
    requires Steady(r, known)
    modifies r`apiClients, r`created, r.w`closed, r`currentClusterName, r.created`sessionID, r.created`validity,
             r.w`failures, r.w`lists, r.w`objects, r.w`events, r.w`clusters
    ensures Steady(r, known) && old(r.created) <= r.created && fresh(r.created - old(r.created))
    ensures run.found == old(r.w.clusters) && run.left == r.w.clusters && r.w.events == old(r.w.events) + run.events
    ensures Ran(run, key, old(r.w.events), known) && (key in run.found ==> run.context == old(ContextOf(r, key, known)))
    ensures result == run.result && r.w.failures == old(r.w.failures) + run.failures
    ensures Reconciled(r, key, run.found, run.context, result, run.events, run.failures)
  {
    UniqueInNamespace(r.w.pods, key.namespace);
    ghost var clusters, events, c, failures := r.w.clusters, [], *, r.w.failures;
    result, events, c := Reconcile(r, key, known);
    run := Run(c, result, r.w.failures - failures, events, clusters, r.w.clusters);
    ClusterStepListsOnce(clusters, r.w.clusters, key);
  }

  lemma StoredSoundFor(r: Reconciler, known: set<SyncedPod>)
    requires StoredSound(r, known)
    ensures forall k | k in r.w.clusters :: Sound(r.w.events, r.w.clusters[k].status.syncedPods, known)
  {
    forall k | k in r.w.clusters ensures Sound(r.w.events, r.w.clusters[k].status.syncedPods, known) {
      assert r.w.clusters[k].status.syncedPods in r.Stored();
    }
  }

  /** Others first, then one run. */
  method Next(r: Reconciler, key: ClusterKey, ghost known: set<SyncedPod>) returns (result: Result, ghost run: Run)
    requires Steady(r, known)
    modifies r`apiClients, r`created, r.w`closed, r`currentClusterName, r.created`sessionID, r.created`validity,
             r.w`failures, r.w`lists, r.w`objects, r.w`events, r.w`clusters, r.w`pods
    ensures Steady(r, known) && old(r.created) <= r.created && fresh(r.created - old(r.created))
    ensures StatusKept(old(r.w.clusters), run.found) && run.left == r.w.clusters && r.w.events == old(r.w.events) + run.events
    ensures Ran(run, key, old(r.w.events), known) && (key in run.found ==> run.context.pods == r.w.pods)
    ensures result == run.result && r.w.failures == old(r.w.failures) + run.failures
    ensures Reconciled(r, key, run.found, run.context, result, run.events, run.failures)
  {
    ghost var before := r.w.clusters;
    StoredSoundFor(r, known);
    Evolve(r.w);
    EvolvedIsSound(r, before, known);
    result, run := RunOnce(r, key, known);
  }

  /** The same with the pods and this cluster's status left alone. */
  method Meanwhile(w: World, key: ClusterKey)
    requires WellStored(w.objects) && ListedOnce(w.clusters)
    modifies w`clusters, w`objects, w`lists
    ensures WellStored(w.objects) && ListedOnce(w.clusters) && StatusKept(old(w.clusters), w.clusters)
    ensures key in old(w.clusters) ==> key in w.clusters && w.clusters[key].status == old(w.clusters)[key].status
  {
    var objects: map<ObjectKey, Object> := *;
    if WellStored(objects) {
      w.objects := objects;
    }
    var clusters: map<ClusterKey, ClusterRecord> := *;
    if ListedOnce(clusters) && StatusKept(w.clusters, clusters) {
      if key in w.clusters ==> key in clusters && clusters[key].status == w.clusters[key].status {
        w.clusters := clusters;
      }
    }
    w.lists := *;
  }

  /**
   * The fixpoint: when the first run finishes without a failing call and all pods are up, the
   * second makes no call to any server, whatever became of the lists, the objects, the other
   * clusters and this one's specification in between.  And a new resource that the first run
   * found is maintained by the second.
   */
  method RunTwice(r: Reconciler, key: ClusterKey, ghost known: set<SyncedPod>)
    returns (first: Result, second: Result, ghost run: Run, ghost again: Run)
    requires Steady(r, known)
    modifies r`apiClients, r`created, r.w`closed, r`currentClusterName, r.created`sessionID, r.created`validity,
             r.w`failures, r.w`lists, r.w`objects, r.w`events, r.w`clusters
    ensures Steady(r, known) && r.w.failures == old(r.w.failures) + run.failures + again.failures
    ensures r.w.events == old(r.w.events) + run.events + again.events
    ensures first == run.result && second == again.result
    ensures run.found == old(r.w.clusters) && StatusKept(run.left, again.found) && again.left == r.w.clusters
    ensures Ran(run, key, old(r.w.events), known) && Ran(again, key, old(r.w.events) + run.events, known)
    ensures key in run.found ==> run.context == old(ContextOf(r, key, known))
    ensures Reconciled(r, key, again.found, again.context, second, again.events, again.failures)
    ensures first.Finished? ==> key in run.found
    ensures first.Finished? && run.failures == 0 && Syncs(run.context.spec) && PodsUp(run.context.pods, key) ==>
              NewcomersServed(run.context, run.events) && forall e | e in again.events :: !IsServerCall(e)
    ensures key in run.found && !run.found[key].deleting && FINALIZER !in run.found[key].finalizers && run.failures == 0 ==>
              && first.Requeued? && key in run.left
              && (key in again.found && again.found[key] == run.left[key] ==> Managed(again.found[key]) && !second.Requeued?)
  {
    first, run := RunOnce(r, key, known);
    StoredSoundFor(r, known);
    Meanwhile(r.w, key);
    EvolvedIsSound(r, run.left, known);
    second, again := RunOnce(r, key, known);
    if first.Finished? && run.failures == 0 && Syncs(run.context.spec) && PodsUp(run.context.pods, key) {
      QuietOnceCaughtUp(again.context, again.events);
    }
    if key in run.found && !run.found[key].deleting && FINALIZER !in run.found[key].finalizers && run.failures == 0 {
      AdoptedInOneRun(run, key, old(r.w.events), known);
    }
  }

  /** All events of the runs, one after the other. */
  function Journals(runs: seq<Run>): seq<Event> {
    if runs == [] then [] else Journals(runs[..|runs| - 1]) + runs[|runs| - 1].events
  }

  /** The stored clusters after the runs. */
  function Left(runs: seq<Run>, clusters: map<ClusterKey, ClusterRecord>): map<ClusterKey, ClusterRecord> {
    if runs == [] then clusters else runs[|runs| - 1].left
  }

  /** Run number `i` is for the key requested, starts where the ones before it stopped, and finds the status they stored. */
  ghost predicate Linked(runs: seq<Run>, requests: seq<ClusterKey>, start: seq<Event>, known: set<SyncedPod>,
                         clusters: map<ClusterKey, ClusterRecord>, i: nat)
    requires i < |runs| && i < |requests|
  {
    && StatusKept(Left(runs[..i], clusters), runs[i].found)
    && Ran(runs[i], requests[i], start + Journals(runs[..i]), known)
  }

  ghost predicate History(runs: seq<Run>, requests: seq<ClusterKey>, start: seq<Event>, known: set<SyncedPod>,
                          clusters: map<ClusterKey, ClusterRecord>) {
    |runs| == |requests| && forall i: nat | i < |runs| :: Linked(runs, requests, start, known, clusters, i)
  }

  lemma OneRunMore(runs: seq<Run>, requests: seq<ClusterKey>, start: seq<Event>, known: set<SyncedPod>,
                   clusters: map<ClusterKey, ClusterRecord>, run: Run, key: ClusterKey)
    requires History(runs, requests, start, known, clusters)
    requires StatusKept(Left(runs, clusters), run.found) && Ran(run, key, start + Journals(runs), known)
    ensures History(runs + [run], requests + [key], start, known, clusters)
    ensures start + Journals(runs + [run]) == start + Journals(runs) + run.events
    ensures Left(runs + [run], clusters) == run.left
  {
    var all, keys := runs + [run], requests + [key];
    assert all[..|runs|] == runs;
    forall i: nat | i < |all|
      ensures Linked(all, keys, start, known, clusters, i)
    {
      if i < |runs| {
        assert Linked(runs, requests, start, known, clusters, i) && all[..i] == runs[..i];
      }
    }
    Reassociate(start, Journals(runs), run.events);
  }

  /**
   * Over any history: clients do not leak, every stored ledger entry was stored at the start
   * or has evidence, no cluster lists the finalizer twice, and each run's effects are in order.
   */
  method Operate(r: Reconciler, requests: seq<ClusterKey>) returns (ghost runs: seq<Run>)
    requires r.Valid() && WellStored(r.w.objects) && ListedOnce(r.w.clusters) && UniquePods(r.w.pods)
    modifies r`apiClients, r`created, r.w`closed, r`currentClusterName, r.created`sessionID, r.created`validity,
             r.w`failures, r.w`lists, r.w`objects, r.w`events, r.w`clusters, r.w`pods
    ensures Steady(r, old(Entries(r.w.clusters))) && old(r.created) <= r.created
    ensures History(runs, requests, old(r.w.events), old(Entries(r.w.clusters)), old(r.w.clusters))
    ensures r.w.events == old(r.w.events) + Journals(runs) && r.w.clusters == Left(runs, old(r.w.clusters))
  {
    ghost var known := Entries(r.w.clusters);
    StartsSound(r);
    runs := [];
    assert r.w.events == r.w.events + Journals(runs);
    for i := 0 to |requests|
      invariant Steady(r, known) && old(r.created) <= r.created && fresh(r.created - old(r.created))
      invariant History(runs, requests[..i], old(r.w.events), known, old(r.w.clusters))
      invariant r.w.events == old(r.w.events) + Journals(runs) && r.w.clusters == Left(runs, old(r.w.clusters))
    {
      ghost var run;
      var result;
      result, run := Next(r, requests[i], known);
      OneRunMore(runs, requests[..i], old(r.w.events), known, old(r.w.clusters), run, requests[i]);
      PrefixOneMore(requests, i);
      runs := runs + [run];
    }
    assert requests[..|requests|] == requests;
  }

  /** The servers after some ad-list runs under one plan, one of which succeeded or none. */
  ghost predicate Retried(p: Plan, fleet: Fleet, runs: seq<seq<Event>>, now: Fleet, done: bool) {
    Restarts(p, fleet, runs) && now == ApplyAll(fleet, Concat(runs)) && (done ==> Converged(p, now))
  }

  lemma OneMoreAttempt(p: Plan, fleet: Fleet, runs: seq<seq<Event>>, mid: Fleet, done: bool, trace: seq<Event>, now: Fleet, ok: bool)
    requires Retried(p, fleet, runs, mid, done)
    requires Permits(p, mid, trace) && now == ApplyAll(mid, trace) && (ok ==> Converged(p, now))
    ensures Retried(p, fleet, runs + [trace], now, done || ok) && Concat(runs + [trace]) == Concat(runs) + trace
  {
    OneMoreRun(p, fleet, runs, trace);
    if done {
      SecondRunIsSilent(p, mid, trace);
    }
  }

  lemma RetriesEnd(p: Plan, fleet: Fleet, runs: seq<seq<Event>>, now: Fleet, done: bool)
    requires Retried(p, fleet, runs, now, done)
    ensures p.Servers() <= fleet.Keys ==> EditCount(Concat(runs)) <= |Disagreements(p, fleet)|
    ensures done ==> now == Goal(p, fleet) && EditCount(Concat(runs)) == |Disagreements(p, fleet)|
  {
    RestartsIsOneTrace(p, fleet, runs);
    RunKeepsTarget(p, fleet, Concat(runs));
    if p.Servers() <= fleet.Keys {
      RestartsConverge(p, fleet, runs);
    }
  }

  /**
   * Ad-list runs one after another under one plan, with any calls failing: their edits never
   * outnumber the initial disagreements, and once one of them succeeds all servers are, and
   * stay, in the state that was the goal from the start.
   */
  method RetryLists(r: Reconciler, adLists: seq<Address>, attempts: nat, ghost p: Plan) returns (done: bool, ghost runs: seq<seq<Event>>)
    requires r.Valid() && p == r.PlanFor(adLists)
    modifies r.created`sessionID, r.created`validity, r.w`failures, r.w`lists, r.w`events
    ensures |runs| == attempts && r.w.events == old(r.w.events) + Concat(runs)
    ensures Restarts(p, old(r.w.lists), runs) && r.w.lists == ApplyAll(old(r.w.lists), Concat(runs))
    ensures p.Servers() <= old(r.w.lists).Keys ==> EditCount(Concat(runs)) <= |Disagreements(p, old(r.w.lists))|
    ensures done ==> r.w.lists == Goal(p, old(r.w.lists)) && EditCount(Concat(runs)) == |Disagreements(p, old(r.w.lists))|
    ensures attempts > 0 && r.w.failures == old(r.w.failures) && r.ReadWriteName() in r.apiClients && r.ReplicaNames() != {} ==> done
    ensures r.w.failures >= old(r.w.failures)
  {
    ghost var fleet := r.w.lists;
    done, runs := false, [];
    for i := 0 to attempts
      invariant |runs| == i && r.w.events == old(r.w.events) + Concat(runs)
      invariant Retried(p, fleet, runs, r.w.lists, done)
      invariant i > 0 && r.w.failures == old(r.w.failures) && r.ReadWriteName() in r.apiClients && r.ReplicaNames() != {} ==> done
      invariant r.w.failures >= old(r.w.failures)
    {
      var ok;
      ghost var trace, mid := [], r.w.lists;
      ok, trace := r.SyncAdLists(adLists, p);
      OneMoreAttempt(p, fleet, runs, mid, done, trace, r.w.lists, ok);
      Reassociate(old(r.w.events), Concat(runs), trace);
      runs := runs + [trace];
      done := done || ok;
    }
    RetriesEnd(p, fleet, runs, r.w.lists, done);
  }
}
