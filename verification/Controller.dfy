/** The reconcile loop: phases in order, finalizers, status, and every run of a single worker. */
module Controller {
  import opened Wrappers
  import opened Domain
  import opened ClusterTypes
  import opened Environment
  import opened AdListProtocol
  import opened PodNames
  import opened Ledger
  import opened Upsert
  import opened Sync
  import opened Admission
  import opened Resources
  import opened Finalizers

  /* ------------------------------ order within a run ------------------------------ */

  /**
   * What stands still during a run: the journal and the servers' lists before it, the accepted
   * ledger entries, the cluster as fetched, the pods.
   */
  datatype Context = Context(
    start: seq<Event>, lists: Fleet, known: set<SyncedPod>, key: ClusterKey, spec: Spec, fetched: Status, pods: seq<Pod>)

  /** The replicas of the run's cluster. */
  ghost function ReplicasIn(c: Context): seq<Pod> {
    PodsOf(c.pods, c.key, ReadOnly)
  }

  /** Some replica, as far as the map shows it, is not in the ledger. */
  ghost predicate DueIn(c: Context, ledger: seq<SyncedPod>) {
    NeedsSync(PodMap(ReplicasIn(c)), ledger)
  }

  /** Every replica is in the ledger. */
  ghost predicate CaughtUpIn(c: Context, ledger: seq<SyncedPod>) {
    forall p | p in ReplicasIn(c) :: Entry(p) in ledger
  }

  /** Every replica that was not in the ledger before the run was uploaded to in it. */
  ghost predicate NewcomersServed(c: Context, run: seq<Event>) {
    forall p | p in ReplicasIn(c) && Entry(p) !in c.fetched.syncedPods :: exists e | e in run :: e.Uploaded? && e.url == UrlOf(p.ip)
  }

  lemma CaughtUpByServing(c: Context, run: seq<Event>, ledger: seq<SyncedPod>)
    requires NewServed(ReplicasIn(c), run, c.fetched.syncedPods, ledger) && CaughtUpIn(c, ledger)
    requires UniqueNames(PodsIn(c.pods, c.key.namespace))
    ensures NewcomersServed(c, run)
  {
    forall p | p in ReplicasIn(c) && Entry(p) !in c.fetched.syncedPods
      ensures exists e | e in run :: e.Uploaded? && e.url == UrlOf(p.ip)
    {
      assert Served(ReplicasIn(c), run, Entry(p));
      var q, e :| q in ReplicasIn(c) && e in run && Entry(q) == Entry(p) && e.Uploaded? && e.url == UrlOf(q.ip);
      assert p in PodsIn(c.pods, c.key.namespace) && q in PodsIn(c.pods, c.key.namespace);
    }
  }

  ghost predicate SawReadWritePod(c: Context, run: seq<Event>) {
    exists e | e in run :: e.ReadWriteListed? && e.pods == PodsOf(c.pods, c.key, ReadWrite) && SomeReady(e.pods)
  }

  /** A check saw the stored set at the specified size and that many of the cluster's replicas ready. */
  ghost predicate SawAllReplicas(c: Context, run: seq<Event>) {
    exists e | e in run :: e.ReadOnlyChecked? && e.pods == ReplicasIn(c) && e.replicas == c.spec.replicas
                           && AllReplicasReady(e.replicas, e.readyReplicas, e.pods)
  }

  predicate IsServerCall(e: Event) {
    e.Posted? || e.Deleted? || e.GravityRun? || e.Downloaded? || e.Uploaded?
  }

  /** The read-write set is ensured, and so are the replicas and their clients when the run syncs. */
  ghost predicate SyncDone(c: Context, run: seq<Event>) {
    PhaseDone(ReadWriteSetPhase) in run && (Syncs(c.spec) ==> PhaseDone(ClientPhase) in run)
  }

  /** The addresses of the cluster's own pods: its replicas, and the read-write pod. */
  ghost function OwnUrls(c: Context): set<Url> {
    set p | p in PodsIn(c.pods, c.key.namespace) && (p in ReplicasIn(c) || IsOwnReadWrite(p, c.pods, c.key)) :: UrlOf(p.ip)
  }

  /**
   * Which server may be called: one of the cluster's own when nothing about its pods is amiss,
   * and downloads come from the pod named as its read-write one, at its address when it is usable.
   */
  ghost predicate InScope(c: Context, e: Event)
    requires IsServerCall(e)
  {
    && (Tidy(c.pods, c.key) ==> e.url in OwnUrls(c))
    && (e.Downloaded? ==>
          && e.pod == ReadWritePod(c.key.name)
          && forall p | p in PodsIn(c.pods, c.key.namespace) && p.name == e.pod && Usable(p) :: e.url == UrlOf(p.ip))
  }

  /** What must hold of the run's cluster, and have happened before in the run, when an object is written. */
  ghost predicate MayWrite(c: Context, before: seq<Event>, child: Child) {
    match child
    case ApiSecret => HasPassword(c.spec)
    case DataClaim => PhaseDone(SecretPhase) in before
    case EnvConfigMap => HasEnv(c.spec) && PhaseDone(SecretPhase) in before && PhaseDone(ClaimPhase) in before
    case ReadWriteSet => PhaseDone(SecretPhase) in before && PhaseDone(ClaimPhase) in before
    case ReadOnlySet =>
      && c.spec.replicas > 0 && PhaseDone(SecretPhase) in before && PhaseDone(ClaimPhase) in before
      && PhaseDone(ReadWriteSetPhase) in before && SawReadWritePod(c, before)
    case ClusterIngress => Exposes(c.spec) && SyncDone(c, before)
    case ClusterPodMonitor => MonitorsPods(c.spec) && SyncDone(c, before)
    case DnsService => SyncDone(c, before)
  }

  /**
   * The same for every effect.  Servers are called only when a replica is due, after as many
   * replicas as specified were seen ready and the clients were refreshed; readiness is stored as true only
   * where it was already, or after all resources were ensured.
   */
  ghost predicate Allowed(c: Context, before: seq<Event>, e: Event) {
    match e
    case ChildWritten(child) => MayWrite(c, before, child)
    case PhaseDone(phase) =>
      && (phase == ClaimPhase ==> PhaseDone(SecretPhase) in before)
      && (phase == ReadWriteSetPhase ==> PhaseDone(ClaimPhase) in before && ChildWritten(ReadWriteSet) in before)
      && (phase == ClientPhase ==> ChildWritten(ReadOnlySet) in before && SawAllReplicas(c, before))
      && (phase == ResourcesPhase ==> SyncDone(c, before) && ChildWritten(DnsService) in before)
    case StatusWritten(ready) => ready ==> c.fetched.resourcesReady || PhaseDone(ResourcesPhase) in before
    case ReadWriteListed(pods) => pods == PodsOf(c.pods, c.key, ReadWrite)
    case ReplicasListed(pods) => pods == ReplicasIn(c)
    case ReadOnlyChecked(replicas, _, pods) => replicas == c.spec.replicas && pods == ReplicasIn(c)
    case _ =>
      IsServerCall(e) ==>
        && Syncs(c.spec) && DueIn(c, c.fetched.syncedPods) && InScope(c, e)
        && PhaseDone(ClientPhase) in before && SawAllReplicas(c, before)
  }

  ghost predicate AllowedAt(c: Context, run: seq<Event>, i: nat)
    requires i < |run|
  {
    Allowed(c, run[..i], run[i])
  }

  ghost predicate InOrder(c: Context, run: seq<Event>) {
    forall i: nat | i < |run| :: AllowedAt(c, run, i)
  }

  lemma AllowedLater(c: Context, before: seq<Event>, later: seq<Event>, e: Event)
    requires Allowed(c, before, e) && forall x | x in before :: x in later
    ensures Allowed(c, later, e)
  {
  }

  lemma MoreInOrder(c: Context, run: seq<Event>, calls: seq<Event>)
    requires InOrder(c, run) && forall e | e in calls :: Allowed(c, run, e)
    ensures InOrder(c, run + calls)
  {
    var all := run + calls;
    forall i: nat | i < |all|
      ensures AllowedAt(c, all, i)
    {
      if i < |run| {
        assert AllowedAt(c, run, i) && all[..i] == run[..i] && all[i] == run[i];
      } else {
        assert all[i] == calls[i - |run|] && all[..i] == run + calls[..i - |run|];
        AllowedLater(c, run, all[..i], all[i]);
      }
    }
  }

  /**
   * What a mark in the journal says of the stored objects and the client cache, from the moment
   * it is set to the end of the run, wherever that is.
   */
  ghost predicate Holds(c: Context, e: Event, objects: map<ObjectKey, Object>, cache: Cache) {
    match e
    case ChildWritten(child) => (
      match child
      case ApiSecret => SecretRight(objects, c.key, c.spec)
      case DataClaim => SecretRight(objects, c.key, c.spec)
      case EnvConfigMap => SecretRight(objects, c.key, c.spec) && ClaimRight(objects, c.key, c.spec)
      case ReadWriteSet => ReadWriteDone(objects, c.key, c.spec)
      case ReadOnlySet => WorkloadsRight(objects, c.key, c.spec)
      case ClusterIngress => WorkloadsRight(objects, c.key, c.spec)
      case ClusterPodMonitor => WorkloadsRight(objects, c.key, c.spec) && IngressRight(objects, c.key, c.spec)
      case DnsService => AllRight(objects, c.key, c.spec))
    case PhaseDone(phase) => (
      match phase
      case SecretPhase => SecretRight(objects, c.key, c.spec)
      case ClaimPhase => SecretRight(objects, c.key, c.spec) && ClaimRight(objects, c.key, c.spec)
      case ReadWriteSetPhase => ReadWriteDone(objects, c.key, c.spec)
      case ClientPhase => Current(PodsIn(c.pods, c.key.namespace), cache)
      case ResourcesPhase => AllRight(objects, c.key, c.spec))
    case _ => true
  }

  /** All marks of the run are true. */
  ghost predicate Grounded(c: Context, run: seq<Event>, objects: map<ObjectKey, Object>, cache: Cache) {
    forall e {:trigger Holds(c, e, objects, cache)} | e in run :: Holds(c, e, objects, cache)
  }

  /** A step that undoes nothing leaves the marks true. */
  lemma GroundedStays(c: Context, run: seq<Event>, before: map<ObjectKey, Object>, after: map<ObjectKey, Object>,
                      cache: Cache, refreshed: Cache)
    requires Grounded(c, run, before, cache) && Improves(before, after, c.key, c.spec)
    requires Current(PodsIn(c.pods, c.key.namespace), cache) ==> Current(PodsIn(c.pods, c.key.namespace), refreshed)
    ensures Grounded(c, run, after, refreshed)
  {
    forall e | e in run
      ensures Holds(c, e, after, refreshed)
    {
      assert Holds(c, e, before, cache);
    }
  }

  /** The run so far: in order, its marks true, no ledger without evidence, and what the ledger gained served in it. */
  ghost predicate Told(c: Context, run: seq<Event>, objects: map<ObjectKey, Object>, cache: Cache,
                       ledger: seq<SyncedPod>, stored: set<seq<SyncedPod>>) {
    && InOrder(c, run) && Grounded(c, run, objects, cache)
    && AllSound(c.start + run, ledger, stored, c.known)
    && NewServed(ReplicasIn(c), run, c.fetched.syncedPods, ledger)
  }

  /** Effects that may come next in the run, and are what the objects and the cache now show. */
  ghost predicate MayFollow(c: Context, run: seq<Event>, calls: seq<Event>, objects: map<ObjectKey, Object>, cache: Cache) {
    forall e | e in calls :: Allowed(c, run, e) && Holds(c, e, objects, cache)
  }

  /** The run goes on with calls that may have changed the ledgers. */
  lemma Retell(c: Context, run: seq<Event>, calls: seq<Event>, objects: map<ObjectKey, Object>, cache: Cache,
               ledger: seq<SyncedPod>, stored: set<seq<SyncedPod>>, after: seq<SyncedPod>, storedAfter: set<seq<SyncedPod>>)
    requires Told(c, run, objects, cache, ledger, stored) && MayFollow(c, run, calls, objects, cache)
    requires AllSound(c.start + run + calls, after, storedAfter, c.known)
    requires after == ledger || NewServed(ReplicasIn(c), calls, c.fetched.syncedPods, after)
    ensures c.start + run + calls == c.start + (run + calls)
    ensures Told(c, run + calls, objects, cache, after, storedAfter)
    ensures forall e :: e in run + calls <==> e in run || e in calls
  {
    MoreInOrder(c, run, calls);
    Reassociate(c.start, run, calls);
    MoreServed(ReplicasIn(c), if after == ledger then run else calls, run + calls, c.fetched.syncedPods, after);
  }

  /** The run goes on with calls that leave the ledgers alone. */
  lemma Log(c: Context, run: seq<Event>, calls: seq<Event>, before: map<ObjectKey, Object>, after: map<ObjectKey, Object>,
            cache: Cache, ledger: seq<SyncedPod>, stored: set<seq<SyncedPod>>)
    requires Told(c, run, before, cache, ledger, stored) && Improves(before, after, c.key, c.spec)
    requires MayFollow(c, run, calls, after, cache)
    ensures c.start + run + calls == c.start + (run + calls)
    ensures Told(c, run + calls, after, cache, ledger, stored)
    ensures forall e :: e in run + calls <==> e in run || e in calls
  {
    GroundedStays(c, run, before, after, cache, cache);
    AllSoundStays(c.start + run, calls, ledger, stored, c.known);
    Retell(c, run, calls, after, cache, ledger, stored, ledger, stored);
  }

  /** The journal since the start is this run, told as above. */
  ghost predicate Journal(r: Reconciler, cluster: PiHoleCluster, c: Context, run: seq<Event>)
    reads r.w`events, r.w`clusters, r.w`pods, r.w`objects, r`currentClusterName, r`apiClients, cluster
  {
    match c
    case Context(start, _, _, key, spec, _, pods) =>
    && cluster.key == key && cluster.spec == spec && r.w.pods == pods && r.currentClusterName == key.name
    && r.w.events == start + run
    && Told(c, run, r.w.objects, r.apiClients, cluster.status.syncedPods, r.Stored())
  }

  /** After calls that leave the ledgers alone the journal is told again. */
  lemma Logged(r: Reconciler, cluster: PiHoleCluster, c: Context, run: seq<Event>, calls: seq<Event>, before: map<ObjectKey, Object>)
    requires cluster.key == c.key && cluster.spec == c.spec && r.w.pods == c.pods && r.currentClusterName == c.key.name
    requires r.w.events == c.start + run + calls && Improves(before, r.w.objects, c.key, c.spec)
    requires Told(c, run, before, r.apiClients, cluster.status.syncedPods, r.Stored())
    requires MayFollow(c, run, calls, r.w.objects, r.apiClients)
    ensures Journal(r, cluster, c, run + calls)
    ensures forall e :: e in run + calls <==> e in run || e in calls
  {
    Log(c, run, calls, before, r.w.objects, r.apiClients, cluster.status.syncedPods, r.Stored());
  }

  /** Records that a phase of the run achieved what it is for. */
  ghost method Finish(r: Reconciler, cluster: PiHoleCluster, phase: Phase, c: Context, run: seq<Event>) returns (longer: seq<Event>)
    requires Journal(r, cluster, c, run)
    requires Allowed(c, run, PhaseDone(phase)) && Holds(c, PhaseDone(phase), r.w.objects, r.apiClients)
    modifies r.w`events
    ensures Journal(r, cluster, c, longer)
    ensures forall e :: e in longer <==> e in run || e == PhaseDone(phase)
  {
    var calls := [PhaseDone(phase)];
    Log(c, run, calls, r.w.objects, r.w.objects, r.apiClients, cluster.status.syncedPods, r.Stored());
    r.w.events := r.w.events + calls;
    longer := run + calls;
  }

  /* ------------------------------ the phases ------------------------------ */

  method SecretStep(r: Reconciler, cluster: PiHoleCluster, ghost c: Context, ghost run: seq<Event>)
    returns (ok: bool, ghost longer: seq<Event>)
    requires WellStored(r.w.objects) && Journal(r, cluster, c, run)
    modifies r.w`failures, r.w`objects, r.w`events
    ensures WellStored(r.w.objects) && Journal(r, cluster, c, longer) && forall e | e in run :: e in longer
    ensures Touches(old(r.w.objects), r.w.objects, {OwnSecretKey(c.key)})
    ensures ok ==> PhaseDone(SecretPhase) in longer
    ensures !ok ==> r.w.failures > old(r.w.failures) || SecretOf(r.w.objects, c.key, c.spec).None?
    ensures r.w.failures >= old(r.w.failures)
  {
    ghost var calls;
    ok, calls := EnsureAPISecret(r, cluster);
    Logged(r, cluster, c, run, calls, old(r.w.objects));
    longer := run + calls;
    if ok {
      longer := Finish(r, cluster, SecretPhase, c, longer);
    }
  }

  lemma ClaimNext(c: Context, run: seq<Event>, calls: seq<Event>, before: map<ObjectKey, Object>, after: map<ObjectKey, Object>, cache: Cache)
    requires Grounded(c, run, before, cache) && Improves(before, after, c.key, c.spec) && PhaseDone(SecretPhase) in run
    requires forall e | e in calls :: e == ChildWritten(DataClaim)
    ensures MayFollow(c, run, calls, after, cache)
    ensures ClaimRight(after, c.key, c.spec) ==> Holds(c, PhaseDone(ClaimPhase), after, cache)
  {
    assert Holds(c, PhaseDone(SecretPhase), before, cache);
  }

  method ClaimStep(r: Reconciler, cluster: PiHoleCluster, ghost c: Context, ghost run: seq<Event>)
    returns (ok: bool, ghost longer: seq<Event>)
    requires WellStored(r.w.objects) && Journal(r, cluster, c, run) && PhaseDone(SecretPhase) in run
    modifies r.w`failures, r.w`objects, r.w`events
    ensures WellStored(r.w.objects) && Journal(r, cluster, c, longer) && forall e | e in run :: e in longer
    ensures Touches(old(r.w.objects), r.w.objects, {ClaimKey(c.key)})
    ensures ok ==> PhaseDone(ClaimPhase) in longer
    ensures r.w.failures >= old(r.w.failures) && (!ok ==> r.w.failures > old(r.w.failures))
  {
    ghost var calls;
    ok, calls := EnsurePiHolePVC(r.w, cluster);
    ClaimNext(c, run, calls, old(r.w.objects), r.w.objects, r.apiClients);
    Logged(r, cluster, c, run, calls, old(r.w.objects));
    longer := run + calls;
    if ok {
      longer := Finish(r, cluster, ClaimPhase, c, longer);
    }
  }

  lemma ReadWriteSetNext(c: Context, run: seq<Event>, calls: seq<Event>, before: map<ObjectKey, Object>, after: map<ObjectKey, Object>,
                         cache: Cache)
    requires Grounded(c, run, before, cache) && Improves(before, after, c.key, c.spec)
    requires PhaseDone(SecretPhase) in run && PhaseDone(ClaimPhase) in run
    requires forall e | e in calls :: e in {ChildWritten(DataClaim), ChildWritten(EnvConfigMap), ChildWritten(ReadWriteSet)}
    requires ChildWritten(EnvConfigMap) in calls ==> HasEnv(c.spec)
    requires ChildWritten(ReadWriteSet) in calls ==>
               && ReadWriteRight(after, c.key, c.spec) && ClaimRight(after, c.key, c.spec)
               && EnvRight(after, c.key, c.spec) && SecretOf(after, c.key, c.spec).Some?
    ensures MayFollow(c, run, calls, after, cache)
    ensures ChildWritten(ReadWriteSet) in calls ==> Holds(c, PhaseDone(ReadWriteSetPhase), after, cache)
  {
    assert Holds(c, PhaseDone(SecretPhase), before, cache) && Holds(c, PhaseDone(ClaimPhase), before, cache);
  }

  method ReadWriteSetStep(r: Reconciler, cluster: PiHoleCluster, ghost c: Context, ghost run: seq<Event>)
    returns (ok: bool, ghost longer: seq<Event>)
    requires WellStored(r.w.objects) && Journal(r, cluster, c, run)
    requires PhaseDone(SecretPhase) in run && PhaseDone(ClaimPhase) in run
    modifies r.w`failures, r.w`objects, r.w`events
    ensures WellStored(r.w.objects) && Journal(r, cluster, c, longer) && forall e | e in run :: e in longer
    ensures Touches(old(r.w.objects), r.w.objects, {ClaimKey(c.key), EnvKey(c.key), ReadWriteKey(c.key)})
    ensures ok ==> PhaseDone(ReadWriteSetPhase) in longer
    ensures !ok ==> r.w.failures > old(r.w.failures) || SecretOf(r.w.objects, c.key, c.spec).None?
    ensures r.w.failures >= old(r.w.failures)
  {
    ghost var calls;
    ok, calls := EnsureReadWriteSTS(r, cluster);
    ReadWriteSetNext(c, run, calls, old(r.w.objects), r.w.objects, r.apiClients);
    Logged(r, cluster, c, run, calls, old(r.w.objects));
    longer := run + calls;
    if ok {
      longer := Finish(r, cluster, ReadWriteSetPhase, c, longer);
    }
  }

  function ReadWriteKeys(key: ClusterKey): set<ObjectKey> {
    {OwnSecretKey(key), ClaimKey(key), EnvKey(key), ReadWriteKey(key)}
  }

  /** Secret, claim and read-write set, in this order. */
  method EnsureReadWrite(r: Reconciler, cluster: PiHoleCluster, ghost c: Context, ghost run: seq<Event>)
    returns (ok: bool, ghost longer: seq<Event>)
    requires WellStored(r.w.objects) && Journal(r, cluster, c, run)
    modifies r.w`failures, r.w`objects, r.w`events
    ensures WellStored(r.w.objects) && Journal(r, cluster, c, longer)
    ensures Touches(old(r.w.objects), r.w.objects, ReadWriteKeys(c.key))
    ensures ok ==> PhaseDone(SecretPhase) in longer && PhaseDone(ClaimPhase) in longer && PhaseDone(ReadWriteSetPhase) in longer
    ensures ok ==> ReadWriteDone(r.w.objects, c.key, c.spec)
    ensures !ok ==> r.w.failures > old(r.w.failures) || SecretOf(r.w.objects, c.key, c.spec).None?
    ensures r.w.failures >= old(r.w.failures)
  {
    ok, longer := SecretStep(r, cluster, c, run);
    ghost var mid := r.w.objects;
    if ok {
      ok, longer := ClaimStep(r, cluster, c, longer);
      if ok {
        ghost var claimed := r.w.objects;
        ok, longer := ReadWriteSetStep(r, cluster, c, longer);
        TouchesBoth(mid, claimed, r.w.objects, {ClaimKey(c.key)}, {ClaimKey(c.key), EnvKey(c.key), ReadWriteKey(c.key)},
                    {ClaimKey(c.key), EnvKey(c.key), ReadWriteKey(c.key)});
        assert ok ==> Holds(c, PhaseDone(ReadWriteSetPhase), r.w.objects, r.apiClients);
      }
    }
  }

  /** The gate on the read-write pod. */
  method ReadWriteGate(r: Reconciler, cluster: PiHoleCluster, ghost c: Context, ghost run: seq<Event>)
    returns (open: bool, ghost longer: seq<Event>)
    requires Journal(r, cluster, c, run)
    modifies r.w`failures, r.w`events
    ensures Journal(r, cluster, c, longer) && forall e | e in run :: e in longer
    ensures open ==> SomeReady(PodsOf(c.pods, c.key, ReadWrite)) && SawReadWritePod(c, longer)
    ensures !open ==> r.w.failures > old(r.w.failures) || !SomeReady(PodsOf(c.pods, c.key, ReadWrite))
    ensures r.w.failures >= old(r.w.failures)
  {
    var ready;
    ghost var calls;
    ready, calls := AreRWPodsReady(r.w, cluster);
    Logged(r, cluster, c, run, calls, r.w.objects);
    longer := run + calls;
    open := ready == Some(true);
    assert open ==> calls[0] in longer;
  }

  lemma ReadOnlySetNext(c: Context, run: seq<Event>, calls: seq<Event>, before: map<ObjectKey, Object>, after: map<ObjectKey, Object>,
                        cache: Cache)
    requires Grounded(c, run, before, cache) && Improves(before, after, c.key, c.spec) && c.spec.replicas > 0
    requires PhaseDone(SecretPhase) in run && PhaseDone(ClaimPhase) in run && PhaseDone(ReadWriteSetPhase) in run
    requires SawReadWritePod(c, run)
    requires forall e | e in calls :: e in {ChildWritten(EnvConfigMap), ChildWritten(ReadOnlySet)}
    requires ChildWritten(EnvConfigMap) in calls ==> HasEnv(c.spec)
    requires ChildWritten(ReadOnlySet) in calls ==> ReadOnlyRight(after, c.key, c.spec)
    ensures MayFollow(c, run, calls, after, cache)
  {
    assert Holds(c, PhaseDone(ReadWriteSetPhase), before, cache);
    assert MayWrite(c, run, ReadOnlySet);
    forall e | e in calls
      ensures Allowed(c, run, e) && Holds(c, e, after, cache)
    {
      if e == ChildWritten(ReadOnlySet) {
        assert WorkloadsRight(after, c.key, c.spec);
      }
    }
  }

  method ReadOnlySetStep(r: Reconciler, cluster: PiHoleCluster, ghost c: Context, ghost run: seq<Event>)
    returns (outcome: Outcome, ghost longer: seq<Event>)
    requires WellStored(r.w.objects) && Journal(r, cluster, c, run) && c.spec.replicas > 0
    requires PhaseDone(SecretPhase) in run && PhaseDone(ClaimPhase) in run && PhaseDone(ReadWriteSetPhase) in run
    requires SawReadWritePod(c, run)
    modifies r.w`failures, r.w`objects, r.w`events
    ensures WellStored(r.w.objects) && Journal(r, cluster, c, longer) && forall e | e in run :: e in longer
    ensures Touches(old(r.w.objects), r.w.objects, {EnvKey(c.key), ReadOnlyKey(c.key)})
    ensures outcome.Done? ==> c.spec.readOnlyVolume.Some? && ChildWritten(ReadOnlySet) in longer
    ensures outcome.NilDereference? ==> c.spec.readOnlyVolume.None?
    ensures outcome.Failure? ==> r.w.failures > old(r.w.failures) || SecretOf(r.w.objects, c.key, c.spec).None?
    ensures r.w.failures >= old(r.w.failures)
  {
    ghost var calls;
    outcome, calls := EnsureReadOnlySTS(r, cluster);
    ReadOnlySetNext(c, run, calls, old(r.w.objects), r.w.objects, r.apiClients);
    Logged(r, cluster, c, run, calls, old(r.w.objects));
    longer := run + calls;
  }

  /** The gate, then the read-only set. */
  method ReplicaStep(r: Reconciler, cluster: PiHoleCluster, ghost c: Context, ghost run: seq<Event>)
    returns (outcome: Outcome, ghost longer: seq<Event>)
    requires WellStored(r.w.objects) && Journal(r, cluster, c, run) && c.spec.replicas > 0
    requires PhaseDone(SecretPhase) in run && PhaseDone(ClaimPhase) in run && PhaseDone(ReadWriteSetPhase) in run
    modifies r.w`failures, r.w`objects, r.w`events
    ensures WellStored(r.w.objects) && Journal(r, cluster, c, longer) && forall e | e in run :: e in longer
    ensures Touches(old(r.w.objects), r.w.objects, {EnvKey(c.key), ReadOnlyKey(c.key)})
    ensures !SomeReady(PodsOf(c.pods, c.key, ReadWrite)) ==> outcome.Failure? && r.w.objects == old(r.w.objects)
    ensures outcome.Done? ==> c.spec.readOnlyVolume.Some? && ChildWritten(ReadOnlySet) in longer
    ensures outcome.NilDereference? ==> c.spec.readOnlyVolume.None?
    ensures outcome.Failure? ==> r.w.failures > old(r.w.failures) || SecretOf(r.w.objects, c.key, c.spec).None?
                                 || !SomeReady(PodsOf(c.pods, c.key, ReadWrite))
    ensures r.w.failures >= old(r.w.failures)
  {
    var ready;
    ready, longer := ReadWriteGate(r, cluster, c, run);
    outcome := Failure;
    if ready {
      outcome, longer := ReadOnlySetStep(r, cluster, c, longer);
    }
  }

  /** How the servers of a sync relate to the pods listed for its run. */
  ghost predicate Placed(c: Context, s: Scene) {
    && s.replicas == ReplicasIn(c) && s.known == c.known && s.pod == ReadWritePod(c.key.name)
    && (forall p | p in PodsIn(c.pods, c.key.namespace) && p.name == s.pod && Usable(p) :: s.rw == UrlOf(p.ip))
    && (PodsUp(c.pods, c.key) ==> s.reached && forall p | p in s.replicas :: UrlOf(p.ip) in s.ros)
    && (Tidy(c.pods, c.key) ==> s.rw in OwnUrls(c) && s.ros <= OwnUrls(c))
  }

  /** An agreeing cache places the servers. */
  lemma CoherentIsPlaced(r: Reconciler, cluster: PiHoleCluster, c: Context, before: Cache, s: Scene)
    requires cluster.key == c.key && r.w.pods == c.pods && s.known == c.known && r.Set(cluster, s)
    requires Coherent(PodsIn(c.pods, c.key.namespace), before, r.apiClients)
    ensures Placed(c, s)
  {
    forall p | p in PodsIn(c.pods, c.key.namespace) && p.name == s.pod && Usable(p)
      ensures s.rw == UrlOf(p.ip)
    {
      r.ReadWriteIsListed(cluster, before, s, p);
    }
    if PodsUp(c.pods, c.key) {
      r.ReplicasHaveClients(cluster, before, s);
    }
    if Tidy(c.pods, c.key) {
      r.OwnReplicaServers(cluster, before, s);
      r.OwnReadWriteServer(cluster, before, s);
      OwnAreOwn(c, s);
    }
  }

  lemma OwnAreOwn(c: Context, s: Scene)
    requires s.replicas == ReplicasIn(c) && s.ros == set p | p in s.replicas :: UrlOf(p.ip)
    requires exists p :: IsOwnReadWrite(p, c.pods, c.key) && s.rw == UrlOf(p.ip)
    ensures s.rw in OwnUrls(c) && s.ros <= OwnUrls(c)
  {
    forall p | p in s.replicas ensures UrlOf(p.ip) in OwnUrls(c) {
      assert p in PodsIn(c.pods, c.key.namespace);
    }
  }

  /** Clients are refreshed only after a listing of the read-write pods that showed a ready one. */
  lemma ClientsComeLater(c: Context, run: seq<Event>)
    requires InOrder(c, run) && PhaseDone(ClientPhase) in run
    ensures SawReadWritePod(c, run)
  {
    var i: nat :| i < |run| && run[i] == PhaseDone(ClientPhase);
    assert AllowedAt(c, run, i);
    var j: nat :| j < i && run[..i][j] == ChildWritten(ReadOnlySet);
    assert AllowedAt(c, run, j) && run[j] == ChildWritten(ReadOnlySet);
    var e :| e in run[..j] && e.ReadWriteListed? && e.pods == PodsOf(c.pods, c.key, ReadWrite) && SomeReady(e.pods);
    assert e in run;
  }

  /** Where the last listing of read-write pods is, when all listings show the same. */
  lemma {:induction false} LastListing(run: seq<Event>, shown: Event) returns (l: nat)
    requires shown in run && forall e | e in run && e.ReadWriteListed? :: e == shown
    ensures l < |run| && run[l] == shown && forall m | l < m < |run| :: !run[m].ReadWriteListed?
  {
    var n := |run| - 1;
    if run[n] == shown {
      l := n;
    } else {
      assert run == run[..n] + [run[n]];
      l := LastListing(run[..n], shown);
    }
  }

  lemma ListingsAreOfTheRun(c: Context, run: seq<Event>)
    requires InOrder(c, run)
    ensures forall e | e in run && e.ReadWriteListed? :: e == ReadWriteListed(PodsOf(c.pods, c.key, ReadWrite))
  {
    forall e | e in run && e.ReadWriteListed?
      ensures e == ReadWriteListed(PodsOf(c.pods, c.key, ReadWrite))
    {
      var i: nat :| i < |run| && run[i] == e;
      assert AllowedAt(c, run, i);
    }
  }

  /** So the journal shows where a download of the run comes from. */
  lemma SourceIsShown(c: Context, s: Scene, run: seq<Event>)
    requires InOrder(c, run) && PhaseDone(ClientPhase) in run && Placed(c, s)
    ensures SourceShown(c.start + run, c.key, s.rw)
  {
    ClientsComeLater(c, run);
    ListingsAreOfTheRun(c, run);
    var l := LastListing(run, ReadWriteListed(PodsOf(c.pods, c.key, ReadWrite)));
    ShownLater(c.start, run, l, c.key, s.rw);
  }

  lemma ShownLater(start: seq<Event>, run: seq<Event>, l: nat, key: ClusterKey, url: Url)
    requires Shown(run, l, |run|, key, url)
    ensures SourceShown(start + run, key, url)
  {
    var events := start + run;
    forall m | |start| + l < m < |events| ensures !events[m].ReadWriteListed? {
      assert events[m] == run[m - |start|];
    }
    assert Shown(events, |start| + l, |events|, key, url);
  }

  lemma CacheRetold(c: Context, run: seq<Event>, objects: map<ObjectKey, Object>, before: Cache, after: Cache, ok: bool,
                    ledger: seq<SyncedPod>, stored: set<seq<SyncedPod>>)
    requires Told(c, run, objects, before, ledger, stored)
    requires ok ==> Coherent(PodsIn(c.pods, c.key.namespace), before, after)
    requires !ok && Current(PodsIn(c.pods, c.key.namespace), before) ==> after == before
    ensures Told(c, run, objects, after, ledger, stored)
  {
    GroundedStays(c, run, objects, objects, before, after);
  }

  /** `syncAPIClients`: afterwards the cache agrees with the pods, which places the servers. */
  method RefreshCache(r: Reconciler, cluster: PiHoleCluster, ghost c: Context, ghost run: seq<Event>)
    returns (ok: bool, ghost s: Scene)
    requires r.Valid() && Journal(r, cluster, c, run)
    requires UniqueNames(PodsIn(c.pods, c.key.namespace))
    modifies r`apiClients, r`created, r.w`closed, r.w`failures
    ensures r.Valid() && old(r.created) <= r.created && fresh(r.created - old(r.created))
    ensures Journal(r, cluster, c, run)
    ensures ok ==> Coherent(PodsIn(c.pods, c.key.namespace), old(r.apiClients), r.apiClients)
    ensures r.Set(cluster, s) && (ok ==> Placed(c, s))
    ensures !ok ==> r.w.failures > old(r.w.failures) || SecretOf(r.w.objects, c.key, c.spec).None?
    ensures r.w.failures >= old(r.w.failures)
  {
    ok := r.SyncAPIClients(cluster);
    s := r.SceneOf(cluster, c.known);
    if ok {
      CoherentIsPlaced(r, cluster, c, old(r.apiClients), s);
    }
    CacheRetold(c, run, r.w.objects, old(r.apiClients), r.apiClients, ok, cluster.status.syncedPods, r.Stored());
  }

  /** The gate on the read-only pods. */
  method ReadOnlyGate(r: Reconciler, cluster: PiHoleCluster, ghost c: Context, ghost run: seq<Event>)
    returns (open: bool, ghost longer: seq<Event>)
    requires WellStored(r.w.objects) && Journal(r, cluster, c, run)
    requires Syncs(c.spec) && ChildWritten(ReadOnlySet) in run
    modifies r.w`failures, r.w`events
    ensures Journal(r, cluster, c, longer) && forall e | e in run :: e in longer
    ensures open ==> ReplicasReady(r.w.objects, c.pods, c.key) && SawAllReplicas(c, longer)
    ensures !open ==> r.w.failures > old(r.w.failures) || !ReplicasReady(r.w.objects, c.pods, c.key)
    ensures r.w.failures >= old(r.w.failures)
  {
    assert Holds(c, ChildWritten(ReadOnlySet), r.w.objects, r.apiClients);
    var ready;
    ghost var calls;
    ready, calls := AreROPodsReady(r.w, cluster);
    Logged(r, cluster, c, run, calls, r.w.objects);
    longer := run + calls;
    open := ready == Some(true);
    assert open ==> calls[0] in longer;
  }

  /** The servers a run's ad-list sync is about, as the cache has them, and the addresses it is for. */
  ghost function PlanOf(cache: Cache, c: Context): Plan {
    PlanWith(cache, c.key.name, AdListsIn(c.spec))
  }

  /** A completed sync has moved the lists of all servers to the resource's addresses and the read-write server's own. */
  ghost predicate ListsSettled(c: Context, p: Plan, now: Fleet) {
    ListsWanted(c.spec) ==> Converged(p, now)
  }

  /**
   * The read-write server has the lists the resource names or others made there as before the
   * run, and servers outside the plan, or not of this cluster when its pods are tidy, have all.
   */
  ghost predicate Spared(c: Context, p: Plan, now: Fleet) {
    ListsSparedUnlessMisread(p, c.lists, now) && (Tidy(c.pods, c.key) ==> OnlyAt(c.lists, now, OwnUrls(c)))
  }

  ghost predicate FlagsSet(c: Context, status: Status) {
    status.configSynced && (ListsWanted(c.spec) ==> status.adListSynced)
  }

  /** When no replica is behind, the run has caught up. */
  lemma NoneBehind(c: Context, ledger: seq<SyncedPod>)
    requires |Behind(ReplicasIn(c), ledger)| == 0
    ensures CaughtUpIn(c, ledger)
  {
    forall p | p in ReplicasIn(c) ensures Entry(p) in ledger {
      assert p !in Behind(ReplicasIn(c), ledger);
    }
  }

  /** What any sync leaves as it was, wherever it stopped. */
  ghost predicate SyncKept(c: Context, p: Plan, before: map<ClusterKey, ClusterRecord>, after: map<ClusterKey, ClusterRecord>,
                           status: Status, lists: Fleet) {
    && StatusLedgerOnly(c.fetched, status) && OnlyStatus(before, after, c.key, status) && Spared(c, p, lists)
    && (!Syncs(c.spec) || !DueIn(c, c.fetched.syncedPods) ==> lists == c.lists)
  }

  /** No more replicas are missing from the ledger than calls have failed. */
  ghost predicate FewBehind(c: Context, ledger: seq<SyncedPod>, failures: int) {
    Syncs(c.spec) && PodsUp(c.pods, c.key) ==> |Behind(ReplicasIn(c), ledger)| <= failures
  }

  /** What the sync of a run made of the status, the stored resources and the lists. */
  ghost predicate SyncDid(c: Context, p: Plan, outcome: Outcome, failures: int, before: map<ClusterKey, ClusterRecord>,
                          after: map<ClusterKey, ClusterRecord>, status: Status, lists: Fleet) {
    match outcome
    case Failure => SyncKept(c, p, before, after, status, lists)
    case NilDereference =>
      && SyncKept(c, p, before, after, status, lists) && FewBehind(c, status.syncedPods, failures)
      && Syncs(c.spec) && LacksConfig(c.spec) && DueIn(c, c.fetched.syncedPods)
    case Done =>
      && SyncKept(c, p, before, after, status, lists) && FewBehind(c, status.syncedPods, failures)
      && (Syncs(c.spec) && DueIn(c, c.fetched.syncedPods) ==>
            !LacksConfig(c.spec) && ListsSettled(c, p, lists) && FlagsSet(c, status))
  }

  /** A run that goes on to its end, or fails later, has the same sync behind it. */
  lemma StillDid(c: Context, p: Plan, outcome: Outcome, failures: int, last: Outcome, failuresLater: int,
                 before: map<ClusterKey, ClusterRecord>, after: map<ClusterKey, ClusterRecord>, status: Status, lists: Fleet)
    requires SyncDid(c, p, outcome, failures, before, after, status, lists)
    requires (last == outcome || last.Failure?) && failures <= failuresLater
    ensures SyncDid(c, p, last, failuresLater, before, after, status, lists)
  {
  }

  lemma NothingSynced(c: Context, p: Plan, outcome: Outcome, failures: int, clusters: map<ClusterKey, ClusterRecord>)
    requires outcome.Failure? || (outcome.Done? && !Syncs(c.spec))
    ensures SyncDid(c, p, outcome, failures, clusters, clusters, c.fetched, c.lists)
  {
  }

  lemma SyncCallAllowed(c: Context, s: Scene, run: seq<Event>, e: Event)
    requires Syncs(c.spec) && Placed(c, s) && PhaseDone(ClientPhase) in run && SawAllReplicas(c, run)
    requires IsSyncEvent(e, c.fetched.resourcesReady, s) && (e.ReplicasListed? || DueIn(c, c.fetched.syncedPods))
    ensures Allowed(c, run, e)
  {
  }

  lemma SyncCallsAllowed(c: Context, s: Scene, run: seq<Event>, calls: seq<Event>, objects: map<ObjectKey, Object>, cache: Cache)
    requires Syncs(c.spec) && Placed(c, s) && PhaseDone(ClientPhase) in run && SawAllReplicas(c, run)
    requires AreSyncEvents(calls, c.fetched.resourcesReady, s)
    requires !DueOn(s, c.fetched.syncedPods) ==> forall e | e in calls :: e.ReplicasListed?
    ensures MayFollow(c, run, calls, objects, cache)
  {
    forall e | e in calls
      ensures Allowed(c, run, e) && Holds(c, e, objects, cache)
    {
      SyncCallAllowed(c, s, run, e);
    }
  }

  lemma TransferDid(c: Context, s: Scene, outcome: Outcome, failures: int, before: map<ClusterKey, ClusterRecord>,
                    after: map<ClusterKey, ClusterRecord>, status: Status, lists: Fleet)
    requires Placed(c, s) && Syncs(c.spec)
    requires StatusLedgerOnly(c.fetched, status) && OnlyStatus(before, after, c.key, status)
    requires !DueOn(s, c.fetched.syncedPods) ==> lists == c.lists
    requires outcome.NilDereference? ==> LacksConfig(c.spec) && DueOn(s, c.fetched.syncedPods)
    requires outcome.Done? && DueOn(s, c.fetched.syncedPods) ==>
               !LacksConfig(c.spec) && (ListsWanted(c.spec) ==> Converged(PlanIn(s, AdListsIn(c.spec)), lists))
    requires outcome.Done? && DueOn(s, c.fetched.syncedPods) ==> FlagsSet(c, status)
    requires !outcome.Failure? ==> |NotSynced(s.ros, PodMap(s.replicas), status.syncedPods)| <= failures
    requires ListsSparedUnlessMisread(PlanIn(s, AdListsIn(c.spec)), c.lists, lists)
    ensures SyncDid(c, PlanIn(s, AdListsIn(c.spec)), outcome, failures, before, after, status, lists)
  {
    if PodsUp(c.pods, c.key) {
      BehindAreShown(s.replicas, s.ros, status.syncedPods);
    }
  }

  /** `performConfigSync`, told of the run's context. */
  method TransferForRun(r: Reconciler, cluster: PiHoleCluster, ghost c: Context, ghost s: Scene, ghost run: seq<Event>, ghost failures: nat)
    returns (outcome: Outcome, ghost calls: seq<Event>)
    requires r.Valid() && Journal(r, cluster, c, run) && r.Set(cluster, s) && Placed(c, s) && failures <= r.w.failures
    requires Syncs(c.spec) && cluster.status == c.fetched && r.w.lists == c.lists
    requires PhaseDone(ClientPhase) in run && SawAllReplicas(c, run)
    modifies r.created`sessionID, r.created`validity, cluster`status, r.w`failures, r.w`lists, r.w`events, r.w`clusters
    ensures r.w.events == old(r.w.events) + calls && r.Accountable(cluster, c.known)
    ensures AreSyncEvents(calls, c.fetched.resourcesReady, s)
    ensures !DueOn(s, c.fetched.syncedPods) ==> forall e | e in calls :: e.ReplicasListed?
    ensures NewServed(s.replicas, calls, c.fetched.syncedPods, cluster.status.syncedPods)
    ensures SyncDid(c, PlanIn(s, AdListsIn(c.spec)), outcome, r.w.failures - failures,
                    old(r.w.clusters), r.w.clusters, cluster.status, r.w.lists)
    ensures r.w.failures == failures && PodsUp(c.pods, c.key) ==> !outcome.Failure?
    ensures r.w.failures >= failures
  {
    SourceIsShown(c, s, run);
    outcome, calls := r.PerformConfigSync(cluster, s);
    TransferDid(c, s, outcome, r.w.failures - failures, old(r.w.clusters), r.w.clusters, cluster.status, r.w.lists);
  }

  /** The same as a part of the run. */
  method TransferStep(r: Reconciler, cluster: PiHoleCluster, ghost c: Context, ghost s: Scene, ghost run: seq<Event>, ghost failures: nat)
    returns (outcome: Outcome, ghost longer: seq<Event>)
    requires r.Valid() && Journal(r, cluster, c, run) && r.Set(cluster, s) && Placed(c, s) && failures <= r.w.failures
    requires Syncs(c.spec) && cluster.status == c.fetched && r.w.lists == c.lists
    requires PhaseDone(ClientPhase) in run && SawAllReplicas(c, run)
    modifies r.created`sessionID, r.created`validity, cluster`status, r.w`failures, r.w`lists, r.w`events, r.w`clusters
    ensures r.Valid() && r.apiClients == old(r.apiClients) && r.created == old(r.created) && r.w.objects == old(r.w.objects)
    ensures Journal(r, cluster, c, longer) && forall e | e in run :: e in longer
    ensures SyncDid(c, PlanIn(s, AdListsIn(c.spec)), outcome, r.w.failures - failures,
                    old(r.w.clusters), r.w.clusters, cluster.status, r.w.lists)
    ensures r.w.failures == failures && PodsUp(c.pods, c.key) ==> !outcome.Failure?
    ensures r.w.failures >= failures
  {
    ghost var calls;
    outcome, calls := TransferForRun(r, cluster, c, s, run, failures);
    SyncCallsAllowed(c, s, run, calls, r.w.objects, r.apiClients);
    Retell(c, run, calls, r.w.objects, r.apiClients, c.fetched.syncedPods, old(r.Stored()), cluster.status.syncedPods, r.Stored());
    longer := run + calls;
  }

  /** The refreshed clients as a phase done, then the transfer. */
  method TransferPhase(r: Reconciler, cluster: PiHoleCluster, ghost c: Context, ghost s: Scene, ghost run: seq<Event>, ghost failures: nat)
    returns (outcome: Outcome, ghost longer: seq<Event>)
    requires r.Valid() && Journal(r, cluster, c, run) && r.Set(cluster, s) && Placed(c, s) && failures <= r.w.failures
    requires Syncs(c.spec) && cluster.status == c.fetched && r.w.lists == c.lists
    requires ChildWritten(ReadOnlySet) in run && SawAllReplicas(c, run)
    requires Current(PodsIn(c.pods, c.key.namespace), r.apiClients)
    modifies r.created`sessionID, r.created`validity, cluster`status, r.w`failures, r.w`lists, r.w`events, r.w`clusters
    ensures r.Valid() && r.apiClients == old(r.apiClients) && r.created == old(r.created) && r.w.objects == old(r.w.objects)
    ensures Journal(r, cluster, c, longer) && PhaseDone(ClientPhase) in longer && forall e | e in run :: e in longer
    ensures SyncDid(c, PlanIn(s, AdListsIn(c.spec)), outcome, r.w.failures - failures,
                    old(r.w.clusters), r.w.clusters, cluster.status, r.w.lists)
    ensures r.w.failures == failures && PodsUp(c.pods, c.key) ==> !outcome.Failure?
    ensures r.w.failures >= failures
  {
    longer := Finish(r, cluster, ClientPhase, c, run);
    outcome, longer := TransferStep(r, cluster, c, s, longer, failures);
  }

  /** Fresh clients, then the transfer. */
  method ClientsThenTransfer(r: Reconciler, cluster: PiHoleCluster, ghost c: Context, ghost run: seq<Event>, ghost failures: nat)
    returns (outcome: Outcome, ghost longer: seq<Event>, ghost p: Plan)
    requires r.Valid() && Journal(r, cluster, c, run) && failures <= r.w.failures
    requires Syncs(c.spec) && cluster.status == c.fetched && r.w.lists == c.lists
    requires ChildWritten(ReadOnlySet) in run && SawAllReplicas(c, run)
    requires UniqueNames(PodsIn(c.pods, c.key.namespace))
    modifies r`apiClients, r`created, r.w`closed, r.created`sessionID, r.created`validity, cluster`status, r.w`failures, r.w`lists, r.w`events, r.w`clusters
    ensures r.Valid() && old(r.created) <= r.created && fresh(r.created - old(r.created))
    ensures Journal(r, cluster, c, longer) && forall e | e in run :: e in longer
    ensures p == PlanOf(r.apiClients, c)
    ensures SyncDid(c, p, outcome, r.w.failures - failures, old(r.w.clusters), r.w.clusters, cluster.status, r.w.lists)
    ensures outcome.Done? ==>
              Coherent(PodsIn(c.pods, c.key.namespace), old(r.apiClients), r.apiClients) && PhaseDone(ClientPhase) in longer
    ensures outcome.Failure? ==>
              r.w.failures > failures || SecretOf(r.w.objects, c.key, c.spec).None? || !PodsUp(c.pods, c.key)
    ensures r.w.failures >= failures
  {
    outcome := Failure;
    var ok;
    ghost var s;
    longer := run;
    ok, s := RefreshCache(r, cluster, c, run);
    p := PlanIn(s, AdListsIn(c.spec));
    if ok {
      outcome, longer := TransferPhase(r, cluster, c, s, run, failures);
    } else {
      NothingSynced(c, p, Failure, r.w.failures - failures, r.w.clusters);
    }
  }

  /**
   * The API sync.  It makes no call to a server when no replica is due, and when nothing fails
   * and all pods are up, no replica is due afterwards.
   */
  method SyncStep(r: Reconciler, cluster: PiHoleCluster, ghost c: Context, ghost run: seq<Event>)
    returns (outcome: Outcome, ghost longer: seq<Event>, ghost p: Plan)
    requires r.Valid() && WellStored(r.w.objects) && Journal(r, cluster, c, run)
    requires Syncs(c.spec) && cluster.status == c.fetched && r.w.lists == c.lists && ChildWritten(ReadOnlySet) in run
    requires UniqueNames(PodsIn(c.pods, c.key.namespace))
    modifies r`apiClients, r`created, r.w`closed, r.created`sessionID, r.created`validity, cluster`status, r.w`failures, r.w`lists, r.w`events, r.w`clusters
    ensures r.Valid() && old(r.created) <= r.created && fresh(r.created - old(r.created))
    ensures Journal(r, cluster, c, longer) && forall e | e in run :: e in longer
    ensures p == PlanOf(r.apiClients, c)
    ensures SyncDid(c, p, outcome, r.w.failures - old(r.w.failures), old(r.w.clusters), r.w.clusters, cluster.status, r.w.lists)
    ensures outcome.Done? ==>
              Coherent(PodsIn(c.pods, c.key.namespace), old(r.apiClients), r.apiClients) && PhaseDone(ClientPhase) in longer
    ensures outcome.Failure? ==> r.w.failures > old(r.w.failures) || SecretOf(r.w.objects, c.key, c.spec).None?
                                 || !ReplicasReady(r.w.objects, c.pods, c.key) || !PodsUp(c.pods, c.key)
    ensures r.w.failures >= old(r.w.failures)
  {
    outcome, p := Failure, PlanOf(r.apiClients, c);
    var ok;
    ok, longer := ReadOnlyGate(r, cluster, c, run);
    if ok {
      outcome, longer, p := ClientsThenTransfer(r, cluster, c, longer, old(r.w.failures));
    } else {
      NothingSynced(c, p, Failure, r.w.failures - old(r.w.failures), r.w.clusters);
    }
  }

  function WorkloadKeys(key: ClusterKey): set<ObjectKey> {
    ReadWriteKeys(key) + {ReadOnlyKey(key)}
  }

  predicate LacksVolume(spec: Spec) {
    spec.replicas > 0 && spec.readOnlyVolume.None?
  }

  /** The resources and pods on which a run dereferences nil if nothing stops it before. */
  ghost predicate Crashes(c: Context) {
    LacksVolume(c.spec) || (Syncs(c.spec) && LacksConfig(c.spec) && DueIn(c, c.fetched.syncedPods))
  }

  /** The marks that the workloads are in place. */
  ghost predicate WorkloadsDone(c: Context, run: seq<Event>) {
    PhaseDone(ReadWriteSetPhase) in run && (c.spec.replicas > 0 ==> ChildWritten(ReadOnlySet) in run)
  }

  lemma DoneIsRight(c: Context, run: seq<Event>, objects: map<ObjectKey, Object>, cache: Cache)
    requires Grounded(c, run, objects, cache) && WorkloadsDone(c, run)
    ensures WorkloadsRight(objects, c.key, c.spec)
  {
    assert Holds(c, PhaseDone(ReadWriteSetPhase), objects, cache);
    assert Holds(c, ChildWritten(ReadOnlySet), objects, cache) || c.spec.replicas <= 0;
  }

  /** Everything up to and including the read-only set. */
  method EnsureWorkloads(r: Reconciler, cluster: PiHoleCluster, ghost c: Context, ghost run: seq<Event>)
    returns (outcome: Outcome, ghost longer: seq<Event>)
    requires r.Valid() && WellStored(r.w.objects) && Journal(r, cluster, c, run)
    modifies r.w`failures, r.w`objects, r.w`events
    ensures r.Valid() && WellStored(r.w.objects) && Journal(r, cluster, c, longer)
    ensures Touches(old(r.w.objects), r.w.objects, WorkloadKeys(c.key))
    ensures outcome.Done? ==> !LacksVolume(c.spec) && WorkloadsDone(c, longer)
    ensures outcome.NilDereference? ==> LacksVolume(c.spec)
    ensures outcome.Failure? ==> r.w.failures > old(r.w.failures) || SecretOf(r.w.objects, c.key, c.spec).None?
                                 || (c.spec.replicas > 0 && !SomeReady(PodsOf(c.pods, c.key, ReadWrite)))
    ensures r.w.failures >= old(r.w.failures)
  {
    var ok;
    ok, longer := EnsureReadWrite(r, cluster, c, run);
    outcome := if ok then Done else Failure;
    if ok && cluster.spec.replicas > 0 {
      ghost var mid := r.w.objects;
      outcome, longer := ReplicaStep(r, cluster, c, longer);
      TouchesBoth(old(r.w.objects), mid, r.w.objects, ReadWriteKeys(c.key), {EnvKey(c.key), ReadOnlyKey(c.key)},
                  WorkloadKeys(c.key));
    }
  }

  lemma EdgeNext(c: Context, run: seq<Event>, calls: seq<Event>, ok: bool, before: map<ObjectKey, Object>, after: map<ObjectKey, Object>,
                 cache: Cache)
    requires Grounded(c, run, before, cache) && WorkloadsDone(c, run) && SyncDone(c, run)
    requires Improves(before, after, c.key, c.spec)
    requires EdgeWrites(calls, ok, after, c.key, c.spec)
    ensures MayFollow(c, run, calls, after, cache)
    ensures ok ==> Holds(c, PhaseDone(ResourcesPhase), after, cache)
  {
    DoneIsRight(c, run, before, cache);
    assert WorkloadsRight(after, c.key, c.spec);
  }

  /** Ingress, pod monitor and DNS service. */
  method EdgeStep(r: Reconciler, cluster: PiHoleCluster, ghost c: Context, ghost run: seq<Event>)
    returns (outcome: Outcome, ghost longer: seq<Event>)
    requires WellStored(r.w.objects) && Journal(r, cluster, c, run) && SyncDone(c, run) && WorkloadsDone(c, run)
    modifies r.w`failures, r.w`objects, r.w`events
    ensures WellStored(r.w.objects) && Journal(r, cluster, c, longer)
    ensures Touches(old(r.w.objects), r.w.objects, EdgeKeys(c.key))
    ensures outcome.Done? ==> PhaseDone(ResourcesPhase) in longer
    ensures !outcome.NilDereference? && (outcome.Failure? ==> r.w.failures > old(r.w.failures))
    ensures r.w.failures >= old(r.w.failures)
  {
    var ok;
    ghost var calls;
    ok, calls := EnsureEdge(r.w, cluster);
    EdgeNext(c, run, calls, ok, old(r.w.objects), r.w.objects, r.apiClients);
    Logged(r, cluster, c, run, calls, old(r.w.objects));
    longer := run + calls;
    outcome := if ok then Done else Failure;
    if ok {
      longer := Finish(r, cluster, ResourcesPhase, c, longer);
    }
  }

  /** What a run without a failing call can still stop at. */
  ghost predicate Blocked(objects: map<ObjectKey, Object>, pods: seq<Pod>, key: ClusterKey, spec: Spec) {
    || SecretOf(objects, key, spec).None?
    || (spec.replicas > 0 && !SomeReady(PodsOf(pods, key, ReadWrite)))
    || (Syncs(spec) && !(ReplicasReady(objects, pods, key) && PodsUp(pods, key)))
  }

  /** The sync when it is part of the run. */
  method SyncIfWanted(r: Reconciler, cluster: PiHoleCluster, ghost c: Context, ghost run: seq<Event>)
    returns (outcome: Outcome, ghost longer: seq<Event>, ghost p: Plan)
    requires r.Valid() && WellStored(r.w.objects) && Journal(r, cluster, c, run)
    requires cluster.status == c.fetched && r.w.lists == c.lists && WorkloadsDone(c, run)
    requires UniqueNames(PodsIn(c.pods, c.key.namespace))
    modifies r`apiClients, r`created, r.w`closed, r.created`sessionID, r.created`validity, cluster`status, r.w`failures, r.w`lists, r.w`events, r.w`clusters
    ensures r.Valid() && old(r.created) <= r.created && fresh(r.created - old(r.created))
    ensures Journal(r, cluster, c, longer) && (outcome.Done? ==> SyncDone(c, longer) && WorkloadsDone(c, longer))
    ensures p == PlanOf(r.apiClients, c)
    ensures SyncDid(c, p, outcome, r.w.failures - old(r.w.failures), old(r.w.clusters), r.w.clusters, cluster.status, r.w.lists)
    ensures outcome.Failure? ==> r.w.failures > old(r.w.failures) || Blocked(r.w.objects, c.pods, c.key, c.spec)
    ensures r.w.failures >= old(r.w.failures)
  {
    outcome, longer, p := Done, run, PlanOf(r.apiClients, c);
    if cluster.spec.sync.Some? && cluster.spec.replicas > 0 {
      outcome, longer, p := SyncStep(r, cluster, c, run);
    } else {
      NothingSynced(c, p, Done, 0, r.w.clusters);
    }
  }

  /** What comes after the workloads. */
  method SyncThenEdge(r: Reconciler, cluster: PiHoleCluster, ghost c: Context, ghost run: seq<Event>)
    returns (outcome: Outcome, ghost longer: seq<Event>, ghost p: Plan)
    requires r.Valid() && WellStored(r.w.objects) && Journal(r, cluster, c, run)
    requires cluster.status == c.fetched && r.w.lists == c.lists && WorkloadsDone(c, run)
    requires UniqueNames(PodsIn(c.pods, c.key.namespace))
    modifies r`apiClients, r`created, r.w`closed, r.created`sessionID, r.created`validity, cluster`status,
             r.w`failures, r.w`lists, r.w`objects, r.w`events, r.w`clusters
    ensures r.Valid() && old(r.created) <= r.created && fresh(r.created - old(r.created))
    ensures WellStored(r.w.objects) && Journal(r, cluster, c, longer)
    ensures Touches(old(r.w.objects), r.w.objects, EdgeKeys(c.key))
    ensures p == PlanOf(r.apiClients, c)
    ensures SyncDid(c, p, outcome, r.w.failures - old(r.w.failures), old(r.w.clusters), r.w.clusters, cluster.status, r.w.lists)
    ensures outcome.Done? ==> PhaseDone(ResourcesPhase) in longer
    ensures outcome.Failure? ==> r.w.failures > old(r.w.failures) || Blocked(r.w.objects, c.pods, c.key, c.spec)
    ensures r.w.failures >= old(r.w.failures)
  {
    outcome, longer, p := SyncIfWanted(r, cluster, c, run);
    if outcome.Done? {
      ghost var failures := r.w.failures - old(r.w.failures);
      outcome, longer := EdgeStep(r, cluster, c, longer);
      StillDid(c, p, Done, failures, outcome, r.w.failures - old(r.w.failures),
               old(r.w.clusters), r.w.clusters, cluster.status, r.w.lists);
    }
  }

  /** The same, with the objects and the failures the run started from. */
  method FromWorkloads(r: Reconciler, cluster: PiHoleCluster, ghost c: Context, ghost run: seq<Event>,
                       ghost start: map<ObjectKey, Object>, ghost failures: nat)
    returns (outcome: Outcome, ghost longer: seq<Event>, ghost p: Plan)
    requires r.Valid() && WellStored(r.w.objects) && Journal(r, cluster, c, run)
    requires cluster.status == c.fetched && r.w.lists == c.lists && WorkloadsDone(c, run)
    requires UniqueNames(PodsIn(c.pods, c.key.namespace)) && !LacksVolume(c.spec)
    requires Touches(start, r.w.objects, WorkloadKeys(c.key)) && failures <= r.w.failures
    modifies r`apiClients, r`created, r.w`closed, r.created`sessionID, r.created`validity, cluster`status,
             r.w`failures, r.w`lists, r.w`objects, r.w`events, r.w`clusters
    ensures r.Valid() && old(r.created) <= r.created && fresh(r.created - old(r.created))
    ensures WellStored(r.w.objects) && Journal(r, cluster, c, longer)
    ensures Touches(start, r.w.objects, ChildKeys(c.key))
    ensures p == PlanOf(r.apiClients, c)
    ensures SyncDid(c, p, outcome, r.w.failures - failures, old(r.w.clusters), r.w.clusters, cluster.status, r.w.lists)
    ensures outcome.Done? ==> PhaseDone(ResourcesPhase) in longer
    ensures outcome.Failure? ==> r.w.failures > failures || Blocked(r.w.objects, c.pods, c.key, c.spec)
    ensures r.w.failures >= failures
  {
    ghost var mid := r.w.objects;
    outcome, longer, p := SyncThenEdge(r, cluster, c, run);
    TouchesBoth(start, mid, r.w.objects, WorkloadKeys(c.key), EdgeKeys(c.key), ChildKeys(c.key));
    StillDid(c, p, outcome, r.w.failures - old(r.w.failures), outcome, r.w.failures - failures,
             old(r.w.clusters), r.w.clusters, cluster.status, r.w.lists);
  }

  /** How a run can end before its status is written. */
  ghost predicate ResourcesEnd(c: Context, outcome: Outcome, run: seq<Event>, objects: map<ObjectKey, Object>, failed: bool) {
    match outcome
    case Done => PhaseDone(ResourcesPhase) in run && !Crashes(c)
    case NilDereference => Crashes(c)
    case Failure => failed || Blocked(objects, c.pods, c.key, c.spec)
  }

  lemma WorkloadsEnd(c: Context, outcome: Outcome, run: seq<Event>, objects: map<ObjectKey, Object>, failed: bool)
    requires !outcome.Done? && (outcome.NilDereference? ==> LacksVolume(c.spec))
    requires outcome.Failure? ==> failed || SecretOf(objects, c.key, c.spec).None?
                                  || (c.spec.replicas > 0 && !SomeReady(PodsOf(c.pods, c.key, ReadWrite)))
    ensures ResourcesEnd(c, outcome, run, objects, failed)
  {
  }

  lemma SyncEnd(c: Context, p: Plan, outcome: Outcome, run: seq<Event>, objects: map<ObjectKey, Object>, cache: Cache, failures: int,
                before: map<ClusterKey, ClusterRecord>, after: map<ClusterKey, ClusterRecord>, status: Status, lists: Fleet)
    requires Grounded(c, run, objects, cache) && SyncDid(c, p, outcome, failures, before, after, status, lists) && !LacksVolume(c.spec)
    requires outcome.Done? ==> PhaseDone(ResourcesPhase) in run
    requires outcome.Failure? ==> failures > 0 || Blocked(objects, c.pods, c.key, c.spec)
    ensures ResourcesEnd(c, outcome, run, objects, failures > 0)
    ensures SyncDid(c, p, if outcome.Done? then Done else Failure, failures, before, after, status, lists)
    ensures outcome.Done? ==> AllRight(objects, c.key, c.spec)
  {
    assert outcome.Done? ==> Holds(c, PhaseDone(ResourcesPhase), objects, cache);
  }

  /** All resources in their order; afterwards everything the specification asks for is stored. */
  method EnsureResources(r: Reconciler, cluster: PiHoleCluster, ghost c: Context, ghost run: seq<Event>)
    returns (outcome: Outcome, ghost longer: seq<Event>, ghost p: Plan)
    requires r.Valid() && WellStored(r.w.objects) && Journal(r, cluster, c, run)
    requires cluster.status == c.fetched && r.w.lists == c.lists
    requires UniqueNames(PodsIn(c.pods, c.key.namespace))
    modifies r`apiClients, r`created, r.w`closed, r.created`sessionID, r.created`validity, cluster`status,
             r.w`failures, r.w`lists, r.w`objects, r.w`events, r.w`clusters
    ensures r.Valid() && old(r.created) <= r.created && fresh(r.created - old(r.created))
    ensures WellStored(r.w.objects) && Journal(r, cluster, c, longer)
    ensures Touches(old(r.w.objects), r.w.objects, ChildKeys(c.key))
    ensures p == PlanOf(r.apiClients, c)
    ensures SyncDid(c, p, if outcome.Done? then Done else Failure, r.w.failures - old(r.w.failures),
                    old(r.w.clusters), r.w.clusters, cluster.status, r.w.lists)
    ensures ResourcesEnd(c, outcome, longer, r.w.objects, r.w.failures > old(r.w.failures))
    ensures outcome.Done? ==> AllRight(r.w.objects, c.key, c.spec)
    ensures r.w.failures >= old(r.w.failures)
  {
    p := PlanOf(r.apiClients, c);
    outcome, longer := EnsureWorkloads(r, cluster, c, run);
    if outcome.Done? {
      outcome, longer, p := FromWorkloads(r, cluster, c, longer, old(r.w.objects), old(r.w.failures));
      SyncEnd(c, p, outcome, longer, r.w.objects, r.apiClients, r.w.failures - old(r.w.failures),
              old(r.w.clusters), r.w.clusters, cluster.status, r.w.lists);
    } else {
      NothingSynced(c, p, Failure, r.w.failures - old(r.w.failures), r.w.clusters);
      WorkloadsEnd(c, outcome, longer, r.w.objects, r.w.failures > old(r.w.failures));
    }
  }

  /* ------------------------------ one run ------------------------------ */

  datatype Result = Requeued | Finished | Errored | Crashed

  /** The ledgers in the API server have evidence. */
  ghost predicate StoredSound(r: Reconciler, known: set<SyncedPod>)
    reads r.w`events, r.w`clusters
  {
    forall l | l in r.Stored() :: Sound(r.w.events, l, known)
  }

  method FetchCluster(r: Reconciler, key: ClusterKey) returns (cluster: Option<PiHoleCluster>)
    modifies r`currentClusterName, r.w`failures
    ensures cluster.Some? ==> fresh(cluster.value) && cluster.value.key == key && key in r.w.clusters
                              && cluster.value.Record() == r.w.clusters[key] && r.currentClusterName == key.name
                              && r.w.failures == old(r.w.failures)
    ensures cluster.None? ==> r.currentClusterName == old(r.currentClusterName) && r.w.failures > old(r.w.failures)
  {
    var answer := r.w.GetCluster(key);
    cluster := None;
    if answer.Some? {
      var copy := new PiHoleCluster(key, answer.value);
      r.currentClusterName := key.name;
      cluster := Some(copy);
    }
  }

  method AddFinalizer(r: Reconciler, cluster: PiHoleCluster) returns (result: Result, ghost run: seq<Event>)
    requires cluster.key in r.w.clusters && cluster.Record() == r.w.clusters[cluster.key] && FINALIZER !in cluster.finalizers
    modifies cluster`finalizers, r.w`failures, r.w`clusters, r.w`events
    ensures r.w.failures >= old(r.w.failures)
    ensures r.w.events == old(r.w.events) + run && result in {Requeued, Errored}
    ensures run == if result.Requeued? then [FinalizersWritten(Changed(old(cluster.finalizers), Add))] else []
    ensures result.Requeued? ==> !cluster.deleting && r.w.clusters == old(r.w.clusters)[cluster.key :=
              old(r.w.clusters)[cluster.key].(finalizers := Changed(old(cluster.finalizers), Add))]
    ensures result.Errored? ==> r.w.clusters == old(r.w.clusters) && r.w.failures > old(r.w.failures)
  {
    cluster.finalizers := cluster.finalizers + [FINALIZER];
    assert cluster.finalizers[|cluster.finalizers| - 1] == FINALIZER;
    var ok := r.w.UpdateFinalizers(cluster.key, cluster.finalizers);
    run := if ok then [FinalizersWritten(cluster.finalizers)] else [];
    result := if ok then Requeued else Errored;
  }

  /** Closes every client there is, of whatever cluster. */
  method CloseAll(r: Reconciler)
    requires r.Valid()
    modifies r`apiClients, r.w`closed
    ensures r.Valid() && r.apiClients == map[] && r.created <= r.w.closed
  {
    var todo := r.apiClients.Keys;
    while todo != {}
      invariant r.Valid() && todo <= r.apiClients.Keys
      invariant r.apiClients == old(r.apiClients)
      invariant forall n | n in r.apiClients && n !in todo :: r.apiClients[n].client in r.w.closed
      decreases todo
    {
      var name :| name in todo;
      todo := todo - {name};
      r.Retire(name);
    }
    r.apiClients := map[];
  }

  /** The cluster without the operator's finalizer, and gone if that was the last one of a deleted cluster. */
  function Released(clusters: map<ClusterKey, ClusterRecord>, key: ClusterKey): map<ClusterKey, ClusterRecord>
    requires key in clusters
  {
    var left := Changed(clusters[key].finalizers, Remove);
    if clusters[key].deleting && left == [] then clusters - {key} else clusters[key := clusters[key].(finalizers := left)]
  }

  method HandleDelete(r: Reconciler, cluster: PiHoleCluster) returns (result: Result, ghost run: seq<Event>)
    requires r.Valid() && cluster.key in r.w.clusters && cluster.Record() == r.w.clusters[cluster.key]
    modifies r`apiClients, r.w`closed, cluster`finalizers, r.w`failures, r.w`clusters, r.w`events
    ensures r.w.failures >= old(r.w.failures)
    ensures r.Valid() && r.apiClients == map[] && r.created <= r.w.closed
    ensures r.w.events == old(r.w.events) + run && result in {Requeued, Errored}
    ensures run == if result.Requeued? then [FinalizersWritten(Changed(old(cluster.finalizers), Remove))] else []
    ensures result.Requeued? ==> r.w.clusters == Released(old(r.w.clusters), cluster.key)
    ensures result.Errored? ==> r.w.clusters == old(r.w.clusters) && r.w.failures > old(r.w.failures)
  {
    CloseAll(r);
    cluster.finalizers := RemoveString(cluster.finalizers, FINALIZER);
    var ok := r.w.UpdateFinalizers(cluster.key, cluster.finalizers);
    run := if ok then [FinalizersWritten(cluster.finalizers)] else [];
    result := if ok then Requeued else Errored;
  }

  /** Readiness is computed, then stored. */
  method UpdateStatus(r: Reconciler, cluster: PiHoleCluster, ready: bool, ghost c: Context, ghost run: seq<Event>)
    returns (ok: bool, ghost longer: seq<Event>)
    requires Journal(r, cluster, c, run) && PhaseDone(ResourcesPhase) in run
    modifies cluster`status, r.w`failures, r.w`clusters, r.w`events
    ensures Journal(r, cluster, c, longer) && forall e | e in run :: e in longer
    ensures cluster.status == old(cluster.status).(resourcesReady := ready, lastError := "")
    ensures StatusStored(old(r.w.clusters), r.w.clusters, c.key, cluster.status, ok) && (ok ==> StatusWritten(ready) in longer)
    ensures r.w.failures >= old(r.w.failures) && (!ok ==> r.w.failures > old(r.w.failures))
  {
    cluster.status := cluster.status.(resourcesReady := ready, lastError := "");
    ghost var calls;
    ok, calls := r.PersistStatus(cluster, c.known);
    Retell(c, run, calls, r.w.objects, r.apiClients, cluster.status.syncedPods, old(r.Stored()), cluster.status.syncedPods, r.Stored());
    longer := run + calls;
    assert ok ==> calls[0] in longer;
  }

  /** The stored record after a run may differ from the one before in its status, and only so. */
  ghost predicate StatusOnly(before: map<ClusterKey, ClusterRecord>, after: map<ClusterKey, ClusterRecord>, key: ClusterKey) {
    && key in before && key in after
    && after == before[key := before[key].(status := after[key].status)]
    && before[key].status.syncedPods <= after[key].status.syncedPods
  }

  /** Readiness is stored as true only where it was, or after a run that ensured everything and found it healthy. */
  ghost predicate ReadyIsEarned(objects: map<ObjectKey, Object>, key: ClusterKey, spec: Spec, run: seq<Event>, was: bool, now: bool) {
    now && !was ==> PhaseDone(ResourcesPhase) in run && AllRight(objects, key, spec) && Healthy(objects, key, spec)
  }

  lemma StatusAccount(before: map<ClusterKey, ClusterRecord>, mid: map<ClusterKey, ClusterRecord>, after: map<ClusterKey, ClusterRecord>,
                      key: ClusterKey, fetched: Status, synced: Status, final: Status, ok: bool)
    requires key in before && before[key].status == fetched
    requires StatusLedgerOnly(fetched, synced) && OnlyStatus(before, mid, key, synced)
    requires final.syncedPods == synced.syncedPods && StatusStored(mid, after, key, final, ok)
    ensures StatusOnly(before, after, key)
    ensures after[key].status.resourcesReady == if ok then final.resourcesReady else fetched.resourcesReady
    ensures ok ==> after[key].status == final
  {
  }

  /** The last steps of a run change readiness and the error text of the status, nothing else. */
  predicate SameButReadiness(before: Status, after: Status) {
    after == before.(resourcesReady := after.resourcesReady, lastError := after.lastError)
  }

  /** Readiness is determined and stored. */
  method StatusStep(r: Reconciler, cluster: PiHoleCluster, ghost c: Context, ghost run: seq<Event>)
    returns (result: Result, ghost longer: seq<Event>)
    requires Journal(r, cluster, c, run) && PhaseDone(ResourcesPhase) in run
    modifies cluster`status, r.w`failures, r.w`clusters, r.w`events
    ensures Journal(r, cluster, c, longer) && PhaseDone(ResourcesPhase) in longer
    ensures StatusStored(old(r.w.clusters), r.w.clusters, c.key, cluster.status, result.Finished?)
    ensures result.Finished? ==> (cluster.status.resourcesReady <==> Healthy(r.w.objects, c.key, c.spec))
    ensures result.Finished? ==> StatusWritten(cluster.status.resourcesReady) in longer
    ensures SameButReadiness(old(cluster.status), cluster.status) && (result.Finished? ==> cluster.status.lastError == "")
    ensures result.Finished? || (result.Errored? && r.w.failures > old(r.w.failures))
    ensures r.w.failures >= old(r.w.failures)
  {
    assert Holds(c, PhaseDone(ResourcesPhase), r.w.objects, r.apiClients);
    result, longer := Errored, run;
    var ready := ResourcesReady(r.w, cluster);
    if ready.Some? {
      var ok;
      ok, longer := UpdateStatus(r, cluster, ready.value, c, run);
      result := if ok then Finished else Errored;
    }
  }

  /**
   * How a run for a managed cluster ends: what is then true of the objects and the lists, and how
   * the stored record changed.  `status` is the one in memory.
   */
  ghost predicate Ended(c: Context, p: Plan, result: Result, run: seq<Event>, objects: map<ObjectKey, Object>, lists: Fleet,
                        before: map<ClusterKey, ClusterRecord>, after: map<ClusterKey, ClusterRecord>, status: Status, failures: int) {
    match result
    case Requeued => false
    case Finished =>
      && StatusOnly(before, after, c.key) && after[c.key].status == status && Spared(c, p, lists)
      && PhaseDone(ResourcesPhase) in run && !Crashes(c)
      && (status.resourcesReady <==> Healthy(objects, c.key, c.spec)) && status.lastError == ""
      && StatusWritten(status.resourcesReady) in run
      && (Syncs(c.spec) && DueIn(c, c.fetched.syncedPods) ==> ListsSettled(c, p, lists) && FlagsSet(c, status))
      && FewBehind(c, status.syncedPods, failures)
    case Crashed =>
      && StatusOnly(before, after, c.key) && after[c.key].status.resourcesReady == c.fetched.resourcesReady
      && Spared(c, p, lists) && Crashes(c)
    case Errored =>
      && StatusOnly(before, after, c.key) && after[c.key].status.resourcesReady == c.fetched.resourcesReady
      && Spared(c, p, lists) && (failures > 0 || Blocked(objects, c.pods, c.key, c.spec))
  }

  lemma EndsWithStatus(c: Context, p: Plan, result: Result, run: seq<Event>, longer: seq<Event>, objects: map<ObjectKey, Object>,
                       lists: Fleet, before: map<ClusterKey, ClusterRecord>, mid: map<ClusterKey, ClusterRecord>,
                       after: map<ClusterKey, ClusterRecord>, synced: Status, status: Status, failures: int, failuresLater: int)
    requires c.key in before && before[c.key].status == c.fetched && failures <= failuresLater
    requires SyncDid(c, p, Done, failures, before, mid, synced, lists) && ResourcesEnd(c, Done, run, objects, failures > 0)
    requires PhaseDone(ResourcesPhase) in longer
    requires SameButReadiness(synced, status) && StatusStored(mid, after, c.key, status, result.Finished?)
    requires result.Finished? ==> (status.resourcesReady <==> Healthy(objects, c.key, c.spec)) && status.lastError == ""
    requires result.Finished? ==> StatusWritten(status.resourcesReady) in longer
    requires result.Finished? || (result.Errored? && failuresLater > 0)
    ensures Ended(c, p, result, longer, objects, lists, before, after, status, failuresLater)
  {
    StatusAccount(before, mid, after, c.key, c.fetched, synced, status, result.Finished?);
  }

  lemma EndsEarly(c: Context, p: Plan, outcome: Outcome, run: seq<Event>, objects: map<ObjectKey, Object>, lists: Fleet,
                  before: map<ClusterKey, ClusterRecord>, after: map<ClusterKey, ClusterRecord>, status: Status, failures: int)
    requires c.key in before && before[c.key].status == c.fetched && !outcome.Done?
    requires SyncDid(c, p, Failure, failures, before, after, status, lists) && ResourcesEnd(c, outcome, run, objects, failures > 0)
    ensures Ended(c, p, if outcome.NilDereference? then Crashed else Errored, run, objects, lists, before, after, status, failures)
  {
    StatusAccount(before, after, after, c.key, c.fetched, status, status, false);
  }

  /** Readiness and what the run did before. */
  method StatusPhase(r: Reconciler, cluster: PiHoleCluster, ghost c: Context, ghost run: seq<Event>, ghost p: Plan,
                     ghost failures: nat, ghost before: map<ClusterKey, ClusterRecord>)
    returns (result: Result, ghost longer: seq<Event>)
    requires r.Valid() && Journal(r, cluster, c, run) && r.w.failures >= failures
    requires ResourcesEnd(c, Done, run, r.w.objects, r.w.failures > failures)
    requires c.key in before && before[c.key].status == c.fetched
    requires SyncDid(c, p, Done, r.w.failures - failures, before, r.w.clusters, cluster.status, r.w.lists)
    modifies cluster`status, r.w`failures, r.w`clusters, r.w`events
    ensures r.Valid() && Journal(r, cluster, c, longer) && r.w.failures >= failures
    ensures r.apiClients == old(r.apiClients) && r.created == old(r.created) && r.w.objects == old(r.w.objects)
    ensures Ended(c, p, result, longer, r.w.objects, r.w.lists, before, r.w.clusters, cluster.status, r.w.failures - failures)
  {
    result, longer := StatusStep(r, cluster, c, run);
    EndsWithStatus(c, p, result, run, longer, r.w.objects, r.w.lists, before, old(r.w.clusters), r.w.clusters,
                   old(cluster.status), cluster.status, old(r.w.failures) - failures, r.w.failures - failures);
  }

  /** Steps 3 and 4 of a run: resources, then status. */
  method Maintain(r: Reconciler, cluster: PiHoleCluster, ghost c: Context, ghost run: seq<Event>)
    returns (result: Result, ghost longer: seq<Event>, ghost p: Plan)
    requires r.Valid() && WellStored(r.w.objects) && Journal(r, cluster, c, run)
    requires cluster.status == c.fetched && r.w.lists == c.lists
    requires c.key in r.w.clusters && r.w.clusters[c.key].status == c.fetched
    requires UniqueNames(PodsIn(c.pods, c.key.namespace))
    modifies r`apiClients, r`created, r.w`closed, r.created`sessionID, r.created`validity, cluster`status,
             r.w`failures, r.w`lists, r.w`objects, r.w`events, r.w`clusters
    ensures r.Valid() && old(r.created) <= r.created && fresh(r.created - old(r.created))
    ensures WellStored(r.w.objects) && Journal(r, cluster, c, longer)
    ensures Touches(old(r.w.objects), r.w.objects, ChildKeys(c.key))
    ensures p == PlanOf(r.apiClients, c) && r.w.failures >= old(r.w.failures)
    ensures Ended(c, p, result, longer, r.w.objects, r.w.lists, old(r.w.clusters), r.w.clusters, cluster.status,
                  r.w.failures - old(r.w.failures))
  {
    var outcome;
    outcome, longer, p := EnsureResources(r, cluster, c, run);
    if outcome.Done? {
      result, longer := StatusPhase(r, cluster, c, longer, p, old(r.w.failures), old(r.w.clusters));
    } else {
      result := if outcome.NilDereference? then Crashed else Errored;
      EndsEarly(c, p, outcome, longer, r.w.objects, r.w.lists, old(r.w.clusters), r.w.clusters, cluster.status,
                r.w.failures - old(r.w.failures));
    }
  }

  /** The cluster carries the finalizer and is not being deleted. */
  predicate Managed(record: ClusterRecord) {
    FINALIZER in record.finalizers && !record.deleting
  }

  /** What a finished run leaves behind, given the status now stored. */
  ghost predicate Achieved(r: Reconciler, c: Context, run: seq<Event>, now: Status, failures: int)
    reads r.w`objects, r.w`lists, r`apiClients, r`currentClusterName
  {
    && AllRight(r.w.objects, c.key, c.spec)
    && (now.resourcesReady <==> Healthy(r.w.objects, c.key, c.spec)) && now.lastError == "" && !Crashes(c)
    && StatusWritten(now.resourcesReady) in run
    && (Syncs(c.spec) && DueIn(c, c.fetched.syncedPods) ==> ListsSettled(c, PlanOf(r.apiClients, c), r.w.lists) && FlagsSet(c, now))
    && (Syncs(c.spec) && PodsUp(c.pods, c.key) ==>
          && |Behind(ReplicasIn(c), now.syncedPods)| <= failures
          && (failures == 0 ==> CaughtUpIn(c, now.syncedPods) && NewcomersServed(c, run)))
  }

  /** How one run may change the stored clusters: only its own, by the status, or by the operator's finalizer. */
  ghost predicate ClusterStep(before: map<ClusterKey, ClusterRecord>, after: map<ClusterKey, ClusterRecord>, key: ClusterKey) {
    || after == before
    || (key in before && Managed(before[key]) && StatusOnly(before, after, key))
    || (key in before && FINALIZER !in before[key].finalizers && !before[key].deleting
        && after == before[key := before[key].(finalizers := Changed(before[key].finalizers, Add))])
    || (key in before && FINALIZER in before[key].finalizers && before[key].deleting && after == Released(before, key))
  }

  /** The run's effects when the cluster is not managed: its finalizers may be written, nothing else. */
  ghost predicate OnlyFinalizers(run: seq<Event>) {
    forall e | e in run :: e.FinalizersWritten?
  }

  lemma FinalizersInOrder(c: Context, run: seq<Event>, objects: map<ObjectKey, Object>, cache: Cache)
    requires OnlyFinalizers(run)
    ensures InOrder(c, run) && Grounded(c, run, objects, cache)
  {
    forall i: nat | i < |run| ensures AllowedAt(c, run, i) {
      assert run[i] in run;
    }
  }

  lemma StepKeepsLedgers(before: map<ClusterKey, ClusterRecord>, after: map<ClusterKey, ClusterRecord>, key: ClusterKey,
                         events: seq<Event>, run: seq<Event>, known: set<SyncedPod>)
    requires key in before && !Managed(before[key]) && ClusterStep(before, after, key)
    requires forall k | k in before :: Sound(events, before[k].status.syncedPods, known)
    ensures forall k | k in after :: Sound(events + run, after[k].status.syncedPods, known)
  {
    forall k | k in after
      ensures Sound(events + run, after[k].status.syncedPods, known)
    {
      assert k in before && after[k].status == before[k].status;
      SoundStays(events, run, before[k].status.syncedPods, known);
    }
  }

  /** The stored ledgers after a run that is not for a managed cluster. */
  lemma StillSound(r: Reconciler, before: map<ClusterKey, ClusterRecord>, events: seq<Event>, run: seq<Event>, key: ClusterKey,
                   known: set<SyncedPod>)
    requires key in before && !Managed(before[key]) && ClusterStep(before, r.w.clusters, key)
    requires r.w.events == events + run
    requires forall l | l in (set k | k in before :: before[k].status.syncedPods) :: Sound(events, l, known)
    ensures StoredSound(r, known)
  {
    forall k | k in before ensures Sound(events, before[k].status.syncedPods, known) {
      assert before[k].status.syncedPods in (set k | k in before :: before[k].status.syncedPods);
    }
    StepKeepsLedgers(before, r.w.clusters, key, events, run, known);
  }

  /**
   * How a run that handles the resource itself ends.  The finalizer is appended, or taken away,
   * and the resource is gone with it if it was the last one of a deleted cluster; a failing
   * call is all that stops either.  A resource that is being deleted without the finalizer
   * cannot get it back, so its runs fail.
   */
  ghost predicate FinalizerStep(before: map<ClusterKey, ClusterRecord>, after: map<ClusterKey, ClusterRecord>, key: ClusterKey,
                                result: Result, run: seq<Event>, failed: bool)
    requires key in before
  {
    var record := before[key];
    match result
    case Requeued =>
      if record.deleting then
        && FINALIZER in record.finalizers && after == Released(before, key)
        && (key in after ==> FINALIZER !in after[key].finalizers)
        && run == [FinalizersWritten(Without(record.finalizers, FINALIZER))]
      else
        && after == before[key := record.(finalizers := record.finalizers + [FINALIZER])]
        && run == [FinalizersWritten(record.finalizers + [FINALIZER])]
    case Errored => failed && after == before && run == []
    case _ => false
  }

  /** The same, and a completed deletion has closed every client there is. */
  ghost predicate FinalizerRun(r: Reconciler, before: map<ClusterKey, ClusterRecord>, key: ClusterKey,
                               result: Result, run: seq<Event>, failed: bool)
    requires key in before
    reads r`apiClients, r`created, r.w`closed, r.w`clusters
  {
    && FinalizerStep(before, r.w.clusters, key, result, run, failed)
    && (before[key].deleting && result.Requeued? ==> r.apiClients == map[] && r.created <= r.w.closed)
  }

  function Found(clusters: map<ClusterKey, ClusterRecord>, key: ClusterKey): Option<ClusterRecord> {
    if key in clusters then Some(clusters[key]) else None
  }

  /** What one run for a queued key does, told by the stored clusters before it and by its context. */
  ghost predicate Reconciled(r: Reconciler, key: ClusterKey, before: map<ClusterKey, ClusterRecord>, c: Context,
                             result: Result, run: seq<Event>, failures: int)
    reads r`apiClients, r`created, r.w`closed, r`currentClusterName, r.w`objects, r.w`lists, r.w`clusters
  {
    match Found(before, key)
    case None => result == Errored && failures > 0 && run == [] && r.w.clusters == before
    case Some(record) =>
      && ClusterStep(before, r.w.clusters, key)
      && InOrder(c, run) && Grounded(c, run, r.w.objects, r.apiClients)
      && (Managed(record) ==>
            !result.Requeued? && StatusOnly(before, r.w.clusters, key) && Spared(c, PlanOf(r.apiClients, c), r.w.lists))
      && (!Managed(record) ==> FinalizerRun(r, before, key, result, run, failures > 0))
      && (key in r.w.clusters ==>
            ReadyIsEarned(r.w.objects, key, record.spec, run, record.status.resourcesReady, r.w.clusters[key].status.resourcesReady))
      && (result.Finished? ==> key in r.w.clusters && Achieved(r, c, run, r.w.clusters[key].status, failures))
      && (result.Crashed? ==> Managed(record) && Crashes(c))
      && (result.Errored? ==> failures > 0 || Blocked(r.w.objects, c.pods, key, c.spec))
  }

  /** The context of a run for a stored cluster. */
  ghost function ContextOf(r: Reconciler, key: ClusterKey, known: set<SyncedPod>): Context
    requires key in r.w.clusters
    reads r.w`events, r.w`lists, r.w`clusters, r.w`pods
  {
    Context(r.w.events, r.w.lists, known, key, r.w.clusters[key].spec, r.w.clusters[key].status, r.w.pods)
  }

  lemma JournalIsSound(r: Reconciler, cluster: PiHoleCluster, c: Context, run: seq<Event>)
    requires Journal(r, cluster, c, run)
    ensures StoredSound(r, c.known)
  {
  }

  lemma Begun(r: Reconciler, cluster: PiHoleCluster, c: Context)
    requires c.key in r.w.clusters && c == ContextOf(r, c.key, c.known) && StoredSound(r, c.known)
    requires cluster.key == c.key && cluster.Record() == r.w.clusters[c.key] && r.currentClusterName == c.key.name
    ensures Journal(r, cluster, c, [])
  {
    assert c.fetched.syncedPods in r.Stored() && c.start + [] == c.start;
  }

  /** A run for a managed cluster, told by the stored records. */
  method RunManaged(r: Reconciler, cluster: PiHoleCluster, ghost c: Context) returns (result: Result, ghost run: seq<Event>)
    requires r.Valid() && WellStored(r.w.objects) && StoredSound(r, c.known) && r.currentClusterName == c.key.name
    requires cluster.key == c.key && c.key in r.w.clusters && cluster.Record() == r.w.clusters[c.key] && c == ContextOf(r, c.key, c.known)
    requires Managed(r.w.clusters[c.key])
    requires UniqueNames(PodsIn(c.pods, c.key.namespace))
    modifies r`apiClients, r`created, r.w`closed, r.created`sessionID, r.created`validity, cluster`status,
             r.w`failures, r.w`lists, r.w`objects, r.w`events, r.w`clusters
    ensures r.Valid() && old(r.created) <= r.created && fresh(r.created - old(r.created))
    ensures WellStored(r.w.objects) && StoredSound(r, c.known) && r.w.events == old(r.w.events) + run
    ensures Touches(old(r.w.objects), r.w.objects, ChildKeys(c.key))
    ensures Reconciled(r, c.key, old(r.w.clusters), c, result, run, r.w.failures - old(r.w.failures))
    ensures r.w.failures >= old(r.w.failures)
  {
    ghost var p;
    Begun(r, cluster, c);
    result, run, p := Maintain(r, cluster, c, []);
    assert result.Finished? ==> Holds(c, PhaseDone(ResourcesPhase), r.w.objects, r.apiClients);
    if |Behind(ReplicasIn(c), cluster.status.syncedPods)| == 0 {
      NoneBehind(c, cluster.status.syncedPods);
      CaughtUpByServing(c, run, cluster.status.syncedPods);
    }
    JournalIsSound(r, cluster, c, run);
  }

  /** Finalizer missing, or deletion under way: the run that handles the resource itself. */
  method HandleFinalizer(r: Reconciler, cluster: PiHoleCluster, found: bool) returns (result: Result, ghost run: seq<Event>)
    requires r.Valid() && cluster.key in r.w.clusters && cluster.Record() == r.w.clusters[cluster.key]
    requires !Managed(cluster.Record()) && (found <==> FINALIZER in cluster.finalizers)
    modifies r`apiClients, r.w`closed, cluster`finalizers, r.w`failures, r.w`clusters, r.w`events
    ensures r.w.failures >= old(r.w.failures)
    ensures r.Valid() && r.w.events == old(r.w.events) + run && OnlyFinalizers(run)
    ensures FinalizerRun(r, old(r.w.clusters), cluster.key, result, run, r.w.failures > old(r.w.failures))
    ensures found ==> r.apiClients == map[] && r.created <= r.w.closed
  {
    WithoutTwice(cluster.finalizers, FINALIZER);
    if !found {
      result, run := AddFinalizer(r, cluster);
    } else {
      result, run := HandleDelete(r, cluster);
    }
  }

  /** A run for a cluster whose finalizer is missing, or which is being deleted. */
  method RunUnmanaged(r: Reconciler, cluster: PiHoleCluster, found: bool, ghost c: Context)
    returns (result: Result, ghost run: seq<Event>)
    requires r.Valid() && cluster.key == c.key && cluster.key in r.w.clusters && cluster.Record() == r.w.clusters[cluster.key]
    requires !Managed(cluster.Record()) && (found <==> FINALIZER in cluster.finalizers) && StoredSound(r, c.known)
    modifies r`apiClients, r.w`closed, cluster`finalizers, r.w`failures, r.w`clusters, r.w`events
    ensures r.w.failures >= old(r.w.failures)
    ensures r.Valid() && r.w.events == old(r.w.events) + run && InOrder(c, run) && StoredSound(r, c.known)
    ensures found ==> r.apiClients == map[] && r.created <= r.w.closed
    ensures Reconciled(r, c.key, old(r.w.clusters), c, result, run, r.w.failures - old(r.w.failures))
  {
    ghost var clusters, events := r.w.clusters, r.w.events;
    result, run := HandleFinalizer(r, cluster, found);
    StillSound(r, clusters, events, run, cluster.key, c.known);
    FinalizersInOrder(c, run, r.w.objects, r.apiClients);
  }

  /** A run that cannot fetch its cluster does nothing. */
  lemma NothingDone(r: Reconciler, key: ClusterKey, c: Context)
    requires key in r.w.clusters ==> c == ContextOf(r, key, c.known)
    ensures Reconciled(r, key, r.w.clusters, c, Errored, [], 1)
  {
  }

  /** What the fetched resource asks for: its finalizer, its deletion, or its maintenance. */
  method Dispatch(r: Reconciler, cluster: PiHoleCluster, ghost c: Context) returns (result: Result, ghost run: seq<Event>)
    requires r.Valid() && WellStored(r.w.objects) && StoredSound(r, c.known) && r.currentClusterName == c.key.name
    requires cluster.key == c.key && c.key in r.w.clusters && cluster.Record() == r.w.clusters[c.key] && c == ContextOf(r, c.key, c.known)
    requires UniqueNames(PodsIn(c.pods, c.key.namespace))
    modifies r`apiClients, r`created, r.w`closed, r.created`sessionID, r.created`validity, cluster,
             r.w`failures, r.w`lists, r.w`objects, r.w`events, r.w`clusters
    ensures r.Valid() && old(r.created) <= r.created && fresh(r.created - old(r.created))
    ensures WellStored(r.w.objects) && StoredSound(r, c.known) && r.w.failures >= old(r.w.failures)
    ensures r.w.events == old(r.w.events) + run && Touches(old(r.w.objects), r.w.objects, ChildKeys(c.key))
    ensures Reconciled(r, c.key, old(r.w.clusters), c, result, run, r.w.failures - old(r.w.failures))
    ensures !Managed(old(r.w.clusters)[c.key]) ==>
              r.w.objects == old(r.w.objects) && r.w.lists == old(r.w.lists) && r.created == old(r.created)
  {
    var found := ContainsString(cluster.finalizers, FINALIZER);
    if !found || cluster.deleting {
      result, run := RunUnmanaged(r, cluster, found, c);
    } else {
      result, run := RunManaged(r, cluster, c);
    }
  }

  /**
   * One run for a queued key.  Whatever happens in it, the clients do not leak, every stored
   * ledger entry has evidence, effects are in order, other clusters and their objects are as
   * before, and a cluster that is not managed only has its finalizers changed.
   */
  method Reconcile(r: Reconciler, key: ClusterKey, ghost known: set<SyncedPod>)
    returns (result: Result, ghost run: seq<Event>, ghost c: Context)
    requires r.Valid() && WellStored(r.w.objects) && StoredSound(r, known)
    requires UniqueNames(PodsIn(r.w.pods, key.namespace))
    modifies r`apiClients, r`created, r.w`closed, r`currentClusterName, r.created`sessionID, r.created`validity,
             r.w`failures, r.w`lists, r.w`objects, r.w`events, r.w`clusters
    ensures r.Valid() && old(r.created) <= r.created && fresh(r.created - old(r.created))
    ensures WellStored(r.w.objects) && StoredSound(r, known) && r.w.failures >= old(r.w.failures)
    ensures r.w.events == old(r.w.events) + run && Touches(old(r.w.objects), r.w.objects, ChildKeys(key))
    ensures key in old(r.w.clusters) ==> c == old(ContextOf(r, key, known))
    ensures Reconciled(r, key, old(r.w.clusters), c, result, run, r.w.failures - old(r.w.failures))
    ensures key in old(r.w.clusters) && !Managed(old(r.w.clusters)[key]) ==>
              r.w.objects == old(r.w.objects) && r.w.lists == old(r.w.lists) && r.created == old(r.created)
  {
    result, run, c := Errored, [], *;
    if key in r.w.clusters {
      c := ContextOf(r, key, known);
    }
    assert r.w.events == r.w.events + run;
    var fetched := FetchCluster(r, key);
    if fetched.Some? {
      result, run := Dispatch(r, fetched.value, c);
    } else {
      NothingDone(r, key, c);
    }
  }

  /* ------------------------------ what follows ------------------------------ */

  /** A run for which every replica is in the ledger calls no server, whatever the pods' addresses. */
  lemma QuietOnceCaughtUp(c: Context, run: seq<Event>)
    requires CaughtUpIn(c, c.fetched.syncedPods) && InOrder(c, run)
    ensures forall e | e in run :: !IsServerCall(e)
  {
    PodMapFaithful(ReplicasIn(c));
    forall e | e in run
      ensures !IsServerCall(e)
    {
      var i :| 0 <= i < |run| && run[i] == e;
      assert AllowedAt(c, run, i);
    }
  }

  /** A pod that takes another one's name makes the sync due again, whatever generations the ledger holds: its UID is new. */
  lemma ReplacedPodIsDue(c: Context, replacement: Pod)
    requires replacement in ReplicasIn(c) && DistinctAddresses(ReplicasIn(c))
    requires Entry(replacement) !in c.fetched.syncedPods
    ensures DueIn(c, c.fetched.syncedPods)
  {
    DueIffUnsynced(ReplicasIn(c), c.fetched.syncedPods);
  }

  /**
   * Two surplus replicas that are not ready and have no address do not close the gate, and the
   * ledger can lack the first of them without a sync being due.
   */
  lemma UnaddressedReplicaHides(pods: seq<Pod>, hidden: Pod, last: Pod, replicas: int, readyReplicas: int, ledger: seq<SyncedPod>)
    requires AllReplicasReady(replicas, readyReplicas, pods) && !hidden.ready && !last.ready && hidden.ip == last.ip == ""
    requires Entry(last) in ledger && (forall p | p in pods :: Entry(p) in ledger) && Entry(hidden) !in ledger
    ensures var listed := pods + [hidden] + [last];
            AllReplicasReady(replicas, readyReplicas, listed) && Unsynced(listed, ledger) && !NeedsSync(PodMap(listed), ledger)
  {
    var listed := pods + [hidden] + [last];
    assert (set i | 0 <= i < |listed| && listed[i].ready) == set i | 0 <= i < |pods| && pods[i].ready;
    assert listed[|pods|] == hidden;
    LaterHidesEarlier(pods, hidden, last, ledger);
  }

  /**
   * Defaulting takes every nil dereference out of the runs but one, the absent configuration
   * block, and it is defaulting that switches on the ad-list sync which reads that block.
   */
  lemma DefaultedRunsCrashIff(submitted: Spec, c: Context)
    requires Fills(submitted, c.spec) && Complete(c.spec)
    ensures Crashes(c) <==>
              && c.spec.replicas > 0 && submitted.config.None? && DueIn(c, c.fetched.syncedPods)
              && (submitted.sync.Some? ==> submitted.sync.value.adLists)
  {
    assert c.spec.config == submitted.config && c.spec.replicas == submitted.replicas;
  }

  /** One replica, no configuration block, and nothing else that has no default. */
  const BARE := Spec(1, None, None, None, None, None, None, "")
  const BARE_DEFAULTED := Spec(1, Some(EMPTY_DIR), Some(NO_INGRESS), Some(FULL_SYNC),
                               Some(MonitoringSpec(Some(NO_EXPORTER), Some(NO_POD_MONITOR))), None, None, "")
  const HAND_MADE := Object(Data(map["password" := "s3cret"]), None, 1, 0, false)

  /** Ready pods of a cluster of one replica, as its stateful sets make them. */
  ghost predicate IsPair(key: ClusterKey, rw: Pod, ro: Pod) {
    && rw.namespace == ro.namespace == key.namespace && rw.instance == ro.instance == key.name
    && rw.role == ReadWrite && rw.name == PodName(key.name, ReadWrite, "0") && Usable(rw)
    && ro.role == ReadOnly && ro.name == PodName(key.name, ReadOnly, "0") && Usable(ro)
  }

  lemma PairIsReady(key: ClusterKey, rw: Pod, ro: Pod)
    requires IsPair(key, rw, ro)
    ensures PodsUp([rw, ro], key) && SomeReady(PodsOf([rw, ro], key, ReadWrite))
    ensures PodsOf([rw, ro], key, ReadOnly) == [ro] && AllReplicasReady(1, 1, [ro])
  {
    var pods := [rw, ro];
    PairIsTidy(key, rw, ro);
    assert rw in PodsOf(pods, key, ReadWrite);
    assert pods[1..] == [ro] && PodsOf([ro], key, ReadOnly) == [ro];
    assert (set i | 0 <= i < |[ro]| && [ro][i].ready) == {0};
  }

  /** The secret under its default name, and the read-only set as a run has written it. */
  function HandMadeObjects(key: ClusterKey): map<ObjectKey, Object> {
    map[OwnSecretKey(key) := HAND_MADE, ReadOnlyKey(key) := Object(Workload(1, ""), Some(key), 1, 1, false)]
  }

  lemma HandMadeIsEnough(key: ClusterKey)
    ensures WellStored(HandMadeObjects(key))
    ensures SecretOf(HandMadeObjects(key), key, BARE_DEFAULTED) == Some(map["password" := "s3cret"])
    ensures ReadOnlyKey(key) in HandMadeObjects(key) && HandMadeObjects(key)[ReadOnlyKey(key)].content == Workload(1, "")
    ensures HandMadeObjects(key)[ReadOnlyKey(key)].readyReplicas == 1
  {
  }

  /** Such an input: the API secret is made by hand, one pod of each kind is ready, none is synced. */
  lemma DefaultedRunCrashes(c: Context, rw: Pod, ro: Pod)
    requires IsPair(c.key, rw, ro) && c.pods == [rw, ro] && c.spec == BARE_DEFAULTED && c.fetched.syncedPods == []
    ensures Fills(BARE, c.spec) && Complete(c.spec) && WellStored(HandMadeObjects(c.key))
    ensures Crashes(c) && !Blocked(HandMadeObjects(c.key), c.pods, c.key, c.spec)
  {
    HandMadeIsEnough(c.key);
    PairIsReady(c.key, rw, ro);
    PodMapFaithful([ro]);
  }
}
