/** The objects a cluster owns: how each is ensured, the readiness gates, and the order of it all. */
module Resources {
  import opened Wrappers
  import opened Domain
  import opened ClusterTypes
  import opened Environment
  import opened Upsert
  import opened AdListProtocol
  import opened PodNames
  import opened Sync
  import opened Admission

  function ClaimKey(key: ClusterKey): ObjectKey {
    ObjectKey(DataClaim, key.namespace, key.name + "-data")
  }

  function EnvKey(key: ClusterKey): ObjectKey {
    ObjectKey(EnvConfigMap, key.namespace, key.name + "-env")
  }

  function ReadWriteKey(key: ClusterKey): ObjectKey {
    ObjectKey(ReadWriteSet, key.namespace, key.name + "-rw")
  }

  function ReadOnlyKey(key: ClusterKey): ObjectKey {
    ObjectKey(ReadOnlySet, key.namespace, key.name + "-ro")
  }

  function DnsKey(key: ClusterKey): ObjectKey {
    ObjectKey(DnsService, key.namespace, key.name + "-dns")
  }

  function IngressKey(key: ClusterKey): ObjectKey {
    ObjectKey(ClusterIngress, key.namespace, key.name)
  }

  function MonitorKey(key: ClusterKey): ObjectKey {
    ObjectKey(ClusterPodMonitor, key.namespace, key.name)
  }

  function OwnSecretKey(key: ClusterKey): ObjectKey {
    ObjectKey(ApiSecret, key.namespace, key.name + "-api-password")
  }

  /** The names by which API clients are looked up are those that the two sets give their pods. */
  lemma PodsAreNamedBySets(key: ClusterKey, ordinal: string)
    ensures PodName(key.name, ReadWrite, ordinal) == ReadWriteKey(key).name + "-" + ordinal
    ensures PodName(key.name, ReadOnly, ordinal) == ReadOnlyKey(key).name + "-" + ordinal
    ensures ReadWritePod(key.name) == ReadWriteKey(key).name + "-" + "0"
    ensures ReadOnlyPrefix(key.name) == ReadOnlyKey(key).name + "-"
  {
    assert "-rw" + "-" == "-rw-" && "-ro" + "-" == "-ro-" && "-rw" + "-" + "0" == "-rw-0";
    assert key.name + "-rw" + "-" == key.name + "-rw-" && key.name + "-ro" + "-" == key.name + "-ro-";
  }

  /** The objects a run for the cluster may write. */
  function ChildKeys(key: ClusterKey): set<ObjectKey> {
    {OwnSecretKey(key), ClaimKey(key), EnvKey(key), ReadWriteKey(key), ReadOnlyKey(key), DnsKey(key), IngressKey(key), MonitorKey(key)}
  }

  lemma SuffixIsInjective(a: string, b: string, suffix: string)
    requires a + suffix == b + suffix
    ensures a == b
  {
    assert |a + suffix| == |b + suffix|;
    assert a == (a + suffix)[..|a|] && b == (b + suffix)[..|b|];
  }

  /** The two sets are of one kind, and so share one name space: a read-write one never has the name of a read-only one. */
  lemma SetNamesDiffer(key: ClusterKey, other: ClusterKey)
    ensures ReadWriteKey(key).name != ReadOnlyKey(other).name
  {
    var rw, ro := ReadWriteKey(key).name, ReadOnlyKey(other).name;
    assert rw[|rw| - 1] == 'w' && ro[|ro| - 1] == 'o';
  }

  /** No two clusters own the same object, the two kinds of stateful sets taken as one. */
  lemma OwnersAreDisjoint(key: ClusterKey, other: ClusterKey)
    requires key != other
    ensures ChildKeys(key) !! ChildKeys(other)
    ensures ReadWriteKey(key).name != ReadOnlyKey(other).name
  {
    SetNamesDiffer(key, other);
    forall k | k in ChildKeys(key) && k in ChildKeys(other)
      ensures false
    {
      var suffix := match k.child
        case ApiSecret => "-api-password"
        case DataClaim => "-data"
        case EnvConfigMap => "-env"
        case ReadWriteSet => "-rw"
        case ReadOnlySet => "-ro"
        case DnsService => "-dns"
        case ClusterIngress => ""
        case ClusterPodMonitor => "";
      assert key.name + suffix == k.name == other.name + suffix;
      SuffixIsInjective(key.name, other.name, suffix);
    }
  }

  /** Only these objects can differ, none is removed, and what others report about them stays. */
  ghost predicate Touches(before: map<ObjectKey, Object>, after: map<ObjectKey, Object>, keys: set<ObjectKey>) {
    && (forall k | k !in keys :: (k in after <==> k in before) && (k in before ==> after[k] == before[k]))
    && (forall k | k in before :: k in after && after[k].readyReplicas == before[k].readyReplicas && after[k].bound == before[k].bound)
  }

  lemma TouchesBoth(before: map<ObjectKey, Object>, mid: map<ObjectKey, Object>, after: map<ObjectKey, Object>,
                    first: set<ObjectKey>, second: set<ObjectKey>, keys: set<ObjectKey>)
    requires Touches(before, mid, first) && Touches(mid, after, second) && first <= keys && second <= keys
    ensures Touches(before, after, keys)
  {
  }

  /* ------------------------------ what is ensured ------------------------------ */

  function Requests(spec: Spec): string {
    if spec.persistence.Some? && spec.persistence.value.size != "" then spec.persistence.value.size else "10Gi"
  }

  /** Who the cluster's new claim belongs to and what it asks for, size apart. */
  ghost predicate NewClaim(claim: Object, owner: ClusterKey, spec: Spec) {
    && claim.controller == Some(owner) && claim.content.Claim?
    && (spec.persistence.Some? && spec.persistence.value.accessModes != [] ==>
          claim.content.accessModes == spec.persistence.value.accessModes)
    && (spec.persistence.None? || spec.persistence.value.accessModes == [] ==> claim.content.accessModes == ["ReadWriteOnce"])
    && claim.content.storageClass == if spec.persistence.Some? then spec.persistence.value.storageClass else None
  }

  predicate HasSecretRef(spec: Spec) {
    spec.config.Some? && spec.config.value.secretRef.Some?
  }

  predicate HasEnv(spec: Spec) {
    spec.config.Some? && |spec.config.value.env| > 0
  }

  predicate HasPassword(spec: Spec) {
    spec.config.Some? && spec.config.value.secretRef.None? && spec.config.value.password != ""
  }

  /** A referenced secret is usable, and a password is stored; neither is asked for without either. */
  ghost predicate SecretRight(objects: map<ObjectKey, Object>, key: ClusterKey, spec: Spec) {
    && (HasSecretRef(spec) ==> SecretOf(objects, key, spec).Some?)
    && (HasPassword(spec) ==> SecretOf(objects, key, spec) == Some(map["password" := spec.config.value.password]))
  }

  ghost predicate ClaimRight(objects: map<ObjectKey, Object>, key: ClusterKey, spec: Spec) {
    && ClaimKey(key) in objects && objects[ClaimKey(key)].content.Claim?
    && objects[ClaimKey(key)].content.requests == Requests(spec)
  }

  ghost predicate Owned(objects: map<ObjectKey, Object>, k: ObjectKey, content: Content, owner: ClusterKey) {
    k in objects && objects[k].content == content && objects[k].controller == Some(owner)
  }

  ghost predicate EnvRight(objects: map<ObjectKey, Object>, key: ClusterKey, spec: Spec) {
    HasEnv(spec) ==> Owned(objects, EnvKey(key), Data(spec.config.value.env), key)
  }

  ghost predicate ReadWriteRight(objects: map<ObjectKey, Object>, key: ClusterKey, spec: Spec) {
    Owned(objects, ReadWriteKey(key), Workload(1, spec.pods), key)
  }

  ghost predicate ReadOnlyRight(objects: map<ObjectKey, Object>, key: ClusterKey, spec: Spec) {
    spec.replicas > 0 ==> Owned(objects, ReadOnlyKey(key), Workload(spec.replicas, spec.pods), key)
  }

  ghost predicate IngressRight(objects: map<ObjectKey, Object>, key: ClusterKey, spec: Spec) {
    Exposes(spec) ==> Owned(objects, IngressKey(key), Plain(spec.ingress.value.domain), key)
  }

  ghost predicate ServicesRight(objects: map<ObjectKey, Object>, key: ClusterKey, spec: Spec) {
    && (MonitorsPods(spec) ==> Owned(objects, MonitorKey(key), Plain("metrics"), key))
    && Owned(objects, DnsKey(key), Plain(spec.pods), key)
  }

  ghost predicate EdgeRight(objects: map<ObjectKey, Object>, key: ClusterKey, spec: Spec) {
    IngressRight(objects, key, spec) && ServicesRight(objects, key, spec)
  }

  ghost predicate ReadWriteDone(objects: map<ObjectKey, Object>, key: ClusterKey, spec: Spec) {
    && SecretRight(objects, key, spec) && SecretOf(objects, key, spec).Some?
    && ClaimRight(objects, key, spec) && EnvRight(objects, key, spec) && ReadWriteRight(objects, key, spec)
  }

  ghost predicate WorkloadsRight(objects: map<ObjectKey, Object>, key: ClusterKey, spec: Spec) {
    ReadWriteDone(objects, key, spec) && ReadOnlyRight(objects, key, spec)
  }

  function EdgeKeys(key: ClusterKey): set<ObjectKey> {
    {IngressKey(key), MonitorKey(key), DnsKey(key)}
  }

  /** Everything the specification asks for is stored. */
  ghost predicate AllRight(objects: map<ObjectKey, Object>, key: ClusterKey, spec: Spec) {
    WorkloadsRight(objects, key, spec) && EdgeRight(objects, key, spec)
  }

  /** No step undoes what another one achieved, whether it succeeds or not. */
  ghost predicate Improves(before: map<ObjectKey, Object>, after: map<ObjectKey, Object>, key: ClusterKey, spec: Spec) {
    && (SecretRight(before, key, spec) ==> SecretRight(after, key, spec))
    && (SecretOf(before, key, spec).Some? ==> SecretOf(after, key, spec).Some?)
    && (ClaimRight(before, key, spec) ==> ClaimRight(after, key, spec))
    && (EnvRight(before, key, spec) ==> EnvRight(after, key, spec))
    && (ReadWriteRight(before, key, spec) ==> ReadWriteRight(after, key, spec))
    && (ReadOnlyRight(before, key, spec) ==> ReadOnlyRight(after, key, spec))
    && (IngressRight(before, key, spec) ==> IngressRight(after, key, spec))
    && (ServicesRight(before, key, spec) ==> ServicesRight(after, key, spec))
  }

  lemma ImprovesTwice(before: map<ObjectKey, Object>, mid: map<ObjectKey, Object>, after: map<ObjectKey, Object>,
                      key: ClusterKey, spec: Spec)
    requires Improves(before, mid, key, spec) && Improves(mid, after, key, spec)
    ensures Improves(before, after, key, spec)
  {
  }

  lemma SecretImproves(before: map<ObjectKey, Object>, after: map<ObjectKey, Object>, key: ClusterKey, spec: Spec)
    requires Touches(before, after, {OwnSecretKey(key)})
    requires before == after || (HasPassword(spec) && SecretRight(after, key, spec))
    ensures Improves(before, after, key, spec)
  {
  }

  lemma ClaimImproves(before: map<ObjectKey, Object>, after: map<ObjectKey, Object>, key: ClusterKey, spec: Spec)
    requires Touches(before, after, {ClaimKey(key)}) && (before == after || ClaimRight(after, key, spec))
    ensures Improves(before, after, key, spec)
  {
  }

  lemma EnvImproves(before: map<ObjectKey, Object>, after: map<ObjectKey, Object>, key: ClusterKey, spec: Spec)
    requires Touches(before, after, {EnvKey(key)}) && (before == after || EnvRight(after, key, spec))
    ensures Improves(before, after, key, spec)
  {
  }

  lemma ReadWriteImproves(before: map<ObjectKey, Object>, after: map<ObjectKey, Object>, key: ClusterKey, spec: Spec)
    requires Touches(before, after, {ReadWriteKey(key)}) && (before == after || ReadWriteRight(after, key, spec))
    ensures Improves(before, after, key, spec)
  {
  }

  lemma ReadOnlyImproves(before: map<ObjectKey, Object>, after: map<ObjectKey, Object>, key: ClusterKey, spec: Spec)
    requires Touches(before, after, {ReadOnlyKey(key)}) && (before == after || ReadOnlyRight(after, key, spec))
    ensures Improves(before, after, key, spec)
  {
  }

  lemma IngressImproves(before: map<ObjectKey, Object>, after: map<ObjectKey, Object>, key: ClusterKey, spec: Spec)
    requires Touches(before, after, {IngressKey(key)}) && (before == after || IngressRight(after, key, spec))
    ensures Improves(before, after, key, spec)
  {
  }

  lemma ServicesImprove(before: map<ObjectKey, Object>, after: map<ObjectKey, Object>, key: ClusterKey, spec: Spec)
    requires Touches(before, after, {MonitorKey(key), DnsKey(key)})
    requires ServicesRight(before, key, spec) ==> ServicesRight(after, key, spec)
    ensures Improves(before, after, key, spec)
  {
  }

  /** One object of the cluster brought to the desired content. */
  method EnsureChild(w: World, k: ObjectKey, content: Content, owner: ClusterKey) returns (ok: bool, ghost calls: seq<Event>)
    requires WellStored(w.objects) && Fits(k.child, content)
    modifies w`failures, w`objects, w`events
    ensures WellStored(w.objects) && Touches(old(w.objects), w.objects, {k})
    ensures w.events == old(w.events) + calls && calls == if ok then [ChildWritten(k.child)] else []
    ensures if ok then Owned(w.objects, k, content, owner) else w.objects == old(w.objects)
    ensures w.failures >= old(w.failures) && (!ok ==> w.failures > old(w.failures))
  {
    var result := UpsertResource(w, k, content, owner);
    ok := result.Some?;
    calls := if ok then [ChildWritten(k.child)] else [];
  }

  method EnsureAPISecret(r: Reconciler, cluster: PiHoleCluster) returns (ok: bool, ghost calls: seq<Event>)
    requires WellStored(r.w.objects)
    modifies r.w`failures, r.w`objects, r.w`events
    ensures WellStored(r.w.objects) && Touches(old(r.w.objects), r.w.objects, {OwnSecretKey(cluster.key)})
    ensures r.w.events == old(r.w.events) + calls && (calls != [] ==> ok) && forall e | e in calls :: e == ChildWritten(ApiSecret)
    ensures !HasPassword(cluster.spec) ==> calls == [] && r.w.objects == old(r.w.objects)
    ensures ok ==> SecretRight(r.w.objects, cluster.key, cluster.spec)
    ensures ok && HasPassword(cluster.spec) ==>
              Owned(r.w.objects, OwnSecretKey(cluster.key), Data(map["password" := cluster.spec.config.value.password]), cluster.key)
    ensures Improves(old(r.w.objects), r.w.objects, cluster.key, cluster.spec)
    ensures !ok ==> r.w.failures > old(r.w.failures) || SecretOf(r.w.objects, cluster.key, cluster.spec).None?
    ensures r.w.failures >= old(r.w.failures)
  {
    ok, calls := true, [];
    var config := cluster.spec.config;
    if config.None? || (config.value.password == "" && config.value.secretRef.None?) {
      return;
    }
    if config.value.secretRef.Some? {
      var secret := r.GetAPISecret(cluster);
      ok := secret.Some?;
      return;
    }
    var data := map["password" := config.value.password];
    ok, calls := EnsureChild(r.w, OwnSecretKey(cluster.key), Data(data), cluster.key);
    SecretImproves(old(r.w.objects), r.w.objects, cluster.key, cluster.spec);
  }

  method EnsurePiHolePVC(w: World, cluster: PiHoleCluster) returns (ok: bool, ghost calls: seq<Event>)
    requires WellStored(w.objects)
    modifies w`failures, w`objects, w`events
    ensures WellStored(w.objects) && Touches(old(w.objects), w.objects, {ClaimKey(cluster.key)})
    ensures w.events == old(w.events) + calls && forall e | e in calls :: e == ChildWritten(DataClaim)
    ensures ok ==> ClaimRight(w.objects, cluster.key, cluster.spec)
    ensures ok && cluster.spec.persistence.Some? && cluster.spec.persistence.value.size != "" ==>
              w.objects[ClaimKey(cluster.key)].content.requests == cluster.spec.persistence.value.size
    ensures ok && (cluster.spec.persistence.None? || cluster.spec.persistence.value.size == "") ==>
              w.objects[ClaimKey(cluster.key)].content.requests == "10Gi"
    ensures ok && ClaimKey(cluster.key) !in old(w.objects) ==> NewClaim(w.objects[ClaimKey(cluster.key)], cluster.key, cluster.spec)
    ensures ok && ClaimKey(cluster.key) in old(w.objects) ==>
              OnlyRequests(old(w.objects), w.objects, ClaimKey(cluster.key), Requests(cluster.spec))
    ensures Improves(old(w.objects), w.objects, cluster.key, cluster.spec)
    ensures w.failures >= old(w.failures) && (!ok ==> w.failures > old(w.failures))
  {
    var size, accessModes, storageClass := "10Gi", ["ReadWriteOnce"], None;
    if cluster.spec.persistence.Some? {
      var persistence := cluster.spec.persistence.value;
      if persistence.size != "" {
        size := persistence.size;
      }
      if |persistence.accessModes| > 0 {
        accessModes := persistence.accessModes;
      }
      storageClass := persistence.storageClass;
    }
    var k := ClaimKey(cluster.key);
    var result := UpsertClaim(w, k, size, accessModes, storageClass, cluster.key);
    ok := result.Some?;
    calls := if ok && (k !in old(w.objects) || old(w.objects)[k].content.requests != size) then [ChildWritten(DataClaim)] else [];
    ClaimImproves(old(w.objects), w.objects, cluster.key, cluster.spec);
  }

  method EnsurePiHoleEnvCM(w: World, cluster: PiHoleCluster) returns (ok: bool, ghost calls: seq<Event>)
    requires WellStored(w.objects)
    modifies w`failures, w`objects, w`events
    ensures WellStored(w.objects) && Touches(old(w.objects), w.objects, {EnvKey(cluster.key)})
    ensures w.events == old(w.events) + calls && forall e | e in calls :: e == ChildWritten(EnvConfigMap) && HasEnv(cluster.spec)
    ensures ok ==> EnvRight(w.objects, cluster.key, cluster.spec)
    ensures Improves(old(w.objects), w.objects, cluster.key, cluster.spec)
    ensures w.failures >= old(w.failures) && (!ok ==> w.failures > old(w.failures))
  {
    ok, calls := true, [];
    if cluster.spec.config.Some? && |cluster.spec.config.value.env| > 0 {
      ok, calls := EnsureChild(w, EnvKey(cluster.key), Data(cluster.spec.config.value.env), cluster.key);
    }
    EnvImproves(old(w.objects), w.objects, cluster.key, cluster.spec);
  }

  /** Claim and environment, which the read-write set mounts. */
  method EnsureMounted(w: World, cluster: PiHoleCluster) returns (ok: bool, ghost calls: seq<Event>)
    requires WellStored(w.objects)
    modifies w`failures, w`objects, w`events
    ensures WellStored(w.objects) && Touches(old(w.objects), w.objects, {ClaimKey(cluster.key), EnvKey(cluster.key)})
    ensures w.events == old(w.events) + calls
    ensures forall e | e in calls :: e == ChildWritten(DataClaim) || (e == ChildWritten(EnvConfigMap) && HasEnv(cluster.spec))
    ensures ok ==> ClaimRight(w.objects, cluster.key, cluster.spec) && EnvRight(w.objects, cluster.key, cluster.spec)
    ensures Improves(old(w.objects), w.objects, cluster.key, cluster.spec)
    ensures w.failures >= old(w.failures) && (!ok ==> w.failures > old(w.failures))
  {
    ok, calls := EnsurePiHolePVC(w, cluster);
    if ok {
      ghost var more, mid := [], w.objects;
      ok, more := EnsurePiHoleEnvCM(w, cluster);
      ImprovesTwice(old(w.objects), mid, w.objects, cluster.key, cluster.spec);
      Reassociate(old(w.events), calls, more);
      calls := calls + more;
    }
  }

  /** The read-write set: a single replica, written only when its secret, claim and environment are there. */
  method EnsureReadWriteSTS(r: Reconciler, cluster: PiHoleCluster) returns (ok: bool, ghost calls: seq<Event>)
    requires WellStored(r.w.objects)
    modifies r.w`failures, r.w`objects, r.w`events
    ensures WellStored(r.w.objects)
    ensures Touches(old(r.w.objects), r.w.objects, {ClaimKey(cluster.key), EnvKey(cluster.key), ReadWriteKey(cluster.key)})
    ensures r.w.events == old(r.w.events) + calls
    ensures forall e | e in calls :: e in {ChildWritten(DataClaim), ChildWritten(EnvConfigMap), ChildWritten(ReadWriteSet)}
    ensures ChildWritten(EnvConfigMap) in calls ==> HasEnv(cluster.spec)
    ensures old(SecretOf(r.w.objects, cluster.key, cluster.spec)).None? ==> !ok && calls == []
    ensures ok ==> ReadWriteRight(r.w.objects, cluster.key, cluster.spec) && ClaimRight(r.w.objects, cluster.key, cluster.spec)
    ensures ok ==> EnvRight(r.w.objects, cluster.key, cluster.spec) && SecretOf(r.w.objects, cluster.key, cluster.spec).Some?
    ensures ok <==> ChildWritten(ReadWriteSet) in calls
    ensures ok ==> ReadWriteKey(cluster.key) in r.w.objects && r.w.objects[ReadWriteKey(cluster.key)].content.replicas == 1
    ensures Improves(old(r.w.objects), r.w.objects, cluster.key, cluster.spec)
    ensures !ok ==> r.w.failures > old(r.w.failures) || SecretOf(r.w.objects, cluster.key, cluster.spec).None?
    ensures r.w.failures >= old(r.w.failures)
  {
    ok, calls := false, [];
    var secret := r.GetAPISecret(cluster);
    if secret.None? {
      return;
    }
    ok, calls := EnsureMounted(r.w, cluster);
    if ok {
      ghost var more, mid := [], r.w.objects;
      ok, more := EnsureChild(r.w, ReadWriteKey(cluster.key), Workload(1, cluster.spec.pods), cluster.key);
      ReadWriteImproves(mid, r.w.objects, cluster.key, cluster.spec);
      ImprovesTwice(old(r.w.objects), mid, r.w.objects, cluster.key, cluster.spec);
      Reassociate(old(r.w.events), calls, more);
      calls := calls + more;
    }
  }

  /** The read-only set; an absent volume block is dereferenced after the environment was written. */
  method EnsureReadOnlySTS(r: Reconciler, cluster: PiHoleCluster) returns (outcome: Outcome, ghost calls: seq<Event>)
    requires WellStored(r.w.objects)
    modifies r.w`failures, r.w`objects, r.w`events
    ensures WellStored(r.w.objects)
    ensures Touches(old(r.w.objects), r.w.objects, {EnvKey(cluster.key), ReadOnlyKey(cluster.key)})
    ensures r.w.events == old(r.w.events) + calls
    ensures forall e | e in calls :: e in {ChildWritten(EnvConfigMap), ChildWritten(ReadOnlySet)}
    ensures ChildWritten(EnvConfigMap) in calls ==> HasEnv(cluster.spec)
    ensures cluster.spec.replicas <= 0 ==> outcome.Done? && calls == []
    ensures outcome.Done? ==> ReadOnlyRight(r.w.objects, cluster.key, cluster.spec)
    ensures outcome.Done? && cluster.spec.replicas > 0 ==> EnvRight(r.w.objects, cluster.key, cluster.spec)
    ensures outcome.Done? && cluster.spec.replicas > 0 <==> ChildWritten(ReadOnlySet) in calls
    ensures outcome.Done? && cluster.spec.replicas > 0 ==>
              ReadOnlyKey(cluster.key) in r.w.objects && r.w.objects[ReadOnlyKey(cluster.key)].content.replicas == cluster.spec.replicas
    ensures Improves(old(r.w.objects), r.w.objects, cluster.key, cluster.spec)
    ensures outcome.NilDereference? ==> cluster.spec.replicas > 0 && cluster.spec.readOnlyVolume.None?
    ensures outcome.Done? ==> cluster.spec.replicas <= 0 || cluster.spec.readOnlyVolume.Some?
    ensures outcome.Failure? ==> r.w.failures > old(r.w.failures) || SecretOf(r.w.objects, cluster.key, cluster.spec).None?
    ensures r.w.failures >= old(r.w.failures)
  {
    outcome, calls := Done, [];
    if cluster.spec.replicas <= 0 {
      return;
    }
    outcome := Failure;
    var secret := r.GetAPISecret(cluster);
    if secret.None? {
      return;
    }
    var ok;
    ok, calls := EnsurePiHoleEnvCM(r.w, cluster);
    if !ok {
      return;
    }
    if cluster.spec.readOnlyVolume.None? {
      outcome := NilDereference;
      return;
    }
    ghost var more, mid := [], r.w.objects;
    ok, more := EnsureChild(r.w, ReadOnlyKey(cluster.key), Workload(cluster.spec.replicas, cluster.spec.pods), cluster.key);
    ReadOnlyImproves(mid, r.w.objects, cluster.key, cluster.spec);
    ImprovesTwice(old(r.w.objects), mid, r.w.objects, cluster.key, cluster.spec);
    Reassociate(old(r.w.events), calls, more);
    calls := calls + more;
    outcome := if ok then Done else Failure;
  }

  /* ------------------------------ readiness gates ------------------------------ */

  /** The positions of the ready pods in a listing. */
  ghost function ReadyAt(pods: seq<Pod>): set<int> {
    set i | 0 <= i < |pods| && pods[i].ready
  }

  lemma ReadyOneMore(pods: seq<Pod>, p: Pod)
    ensures |ReadyAt(pods + [p])| == |ReadyAt(pods)| + if p.ready then 1 else 0
  {
    assert ReadyAt(pods + [p]) == ReadyAt(pods) + if p.ready then {|pods|} else {};
  }

  method AnyReady(pods: seq<Pod>) returns (found: bool)
    ensures found <==> SomeReady(pods)
  {
    for i := 0 to |pods|
      invariant forall j | 0 <= j < i :: !pods[j].ready
    {
      if pods[i].ready {
        return true;
      }
    }
    found := false;
  }

  /** At least one read-write pod of the cluster is ready. */
  method AreRWPodsReady(w: World, cluster: PiHoleCluster) returns (ready: Option<bool>, ghost calls: seq<Event>)
    modifies w`failures, w`events
    ensures w.events == old(w.events) + calls && w.failures == old(w.failures) + if ready.Some? then 0 else 1
    ensures ready.None? ==> calls == []
    ensures ready.Some? ==> calls == [ReadWriteListed(PodsOf(w.pods, cluster.key, ReadWrite))]
                            && (ready.value <==> SomeReady(PodsOf(w.pods, cluster.key, ReadWrite)))
    ensures ready == Some(true) <==> ready.Some? && exists p | p in PodsOf(w.pods, cluster.key, ReadWrite) :: p.ready
  {
    ready, calls := None, [];
    var listed := w.ListPodsOf(cluster.key, ReadWrite);
    if listed.None? {
      return;
    }
    calls := [ReadWriteListed(listed.value)];
    w.events := w.events + calls;
    var found := AnyReady(listed.value);
    ready := Some(found);
  }

  ghost predicate AllReplicasReady(replicas: int, readyReplicas: int, pods: seq<Pod>) {
    readyReplicas != 0 && pods != [] && |set i | 0 <= i < |pods| && pods[i].ready| == replicas
  }

  /** The read-only set exists, reports ready replicas, and has as many ready pods as replicas. */
  ghost predicate ReplicasReady(objects: map<ObjectKey, Object>, pods: seq<Pod>, key: ClusterKey) {
    && ReadOnlyKey(key) in objects && objects[ReadOnlyKey(key)].content.Workload?
    && AllReplicasReady(objects[ReadOnlyKey(key)].content.replicas, objects[ReadOnlyKey(key)].readyReplicas, PodsOf(pods, key, ReadOnly))
  }

  /** What the check sees: the replica counts of the stored set and the pods listed. */
  ghost function ReplicaCheck(objects: map<ObjectKey, Object>, pods: seq<Pod>, key: ClusterKey): Event
    requires ReadOnlyKey(key) in objects
  {
    var o := objects[ReadOnlyKey(key)];
    ReadOnlyChecked(if o.content.Workload? then o.content.replicas else 0, o.readyReplicas, PodsOf(pods, key, ReadOnly))
  }

  method CountReadyPods(pods: seq<Pod>) returns (readyCount: nat)
    ensures readyCount == |set i | 0 <= i < |pods| && pods[i].ready|
  {
    readyCount := 0;
    for i := 0 to |pods|
      invariant readyCount == |ReadyAt(pods[..i])|
    {
      ReadyOneMore(pods[..i], pods[i]);
      PrefixOneMore(pods, i);
      if pods[i].ready {
        readyCount := readyCount + 1;
      }
    }
    assert pods[..|pods|] == pods && ReadyAt(pods) == set i | 0 <= i < |pods| && pods[i].ready;
  }

  method AreROPodsReady(w: World, cluster: PiHoleCluster) returns (ready: Option<bool>, ghost calls: seq<Event>)
    requires WellStored(w.objects)
    modifies w`failures, w`events
    ensures w.events == old(w.events) + calls && w.failures == old(w.failures) + if ready.Some? then 0 else 1
    ensures ready.Some? ==> (ready.value <==> ReplicasReady(w.objects, w.pods, cluster.key))
    ensures calls == [] || (ReadOnlyKey(cluster.key) in w.objects && calls == [ReplicaCheck(w.objects, w.pods, cluster.key)])
    ensures ready == Some(true) ==> calls != []
    ensures ready.Some? ==>
              var k, pods := ReadOnlyKey(cluster.key), PodsOf(w.pods, cluster.key, ReadOnly);
              ready.value <==>
                && k in w.objects && w.objects[k].readyReplicas != 0
                && pods != [] && |set i | 0 <= i < |pods| && pods[i].ready| == w.objects[k].content.replicas
  {
    ready, calls := None, [];
    var found := w.GetObject(ReadOnlyKey(cluster.key));
    if found.Unreadable? {
      return;
    }
    if found.Absent? || found.obj.readyReplicas == 0 {
      return Some(false), calls;
    }
    var listed := w.ListPodsOf(cluster.key, ReadOnly);
    if listed.None? {
      return;
    }
    var pods := listed.value;
    calls := [ReadOnlyChecked(found.obj.content.replicas, found.obj.readyReplicas, pods)];
    w.events := w.events + calls;
    if |pods| == 0 {
      return Some(false), calls;
    }
    var readyCount := CountReadyPods(pods);
    ready := Some(readyCount == found.obj.content.replicas);
  }

  /* ------------------------------ objects at the edge ------------------------------ */

  method EnsureIngress(w: World, cluster: PiHoleCluster) returns (ok: bool, ghost calls: seq<Event>)
    requires WellStored(w.objects) && Exposes(cluster.spec)
    modifies w`failures, w`objects, w`events
    ensures WellStored(w.objects) && Touches(old(w.objects), w.objects, {IngressKey(cluster.key)})
    ensures w.events == old(w.events) + calls && forall e | e in calls :: e == ChildWritten(ClusterIngress)
    ensures ok ==> Owned(w.objects, IngressKey(cluster.key), Plain(cluster.spec.ingress.value.domain), cluster.key)
    ensures Improves(old(w.objects), w.objects, cluster.key, cluster.spec)
    ensures w.failures >= old(w.failures) && (!ok ==> w.failures > old(w.failures))
  {
    ok, calls := EnsureChild(w, IngressKey(cluster.key), Plain(cluster.spec.ingress.value.domain), cluster.key);
    IngressImproves(old(w.objects), w.objects, cluster.key, cluster.spec);
  }

  /** The pod monitor, if the specification asks for one. */
  method EnsurePodMonitor(w: World, cluster: PiHoleCluster) returns (ok: bool, ghost calls: seq<Event>)
    requires WellStored(w.objects)
    modifies w`failures, w`objects, w`events
    ensures WellStored(w.objects) && Touches(old(w.objects), w.objects, {MonitorKey(cluster.key)})
    ensures w.events == old(w.events) + calls
    ensures forall e | e in calls :: e == ChildWritten(ClusterPodMonitor) && MonitorsPods(cluster.spec)
    ensures ok && MonitorsPods(cluster.spec) ==> Owned(w.objects, MonitorKey(cluster.key), Plain("metrics"), cluster.key)
    ensures ServicesRight(old(w.objects), cluster.key, cluster.spec) ==> ServicesRight(w.objects, cluster.key, cluster.spec)
    ensures w.failures >= old(w.failures) && (!ok ==> w.failures > old(w.failures))
  {
    ok, calls := true, [];
    if MonitorsPods(cluster.spec) {
      ok, calls := EnsureChild(w, MonitorKey(cluster.key), Plain("metrics"), cluster.key);
    }
  }

  /** Writes of objects at the edge, and only of those the specification asks for. */
  ghost predicate EdgeCalls(calls: seq<Event>, spec: Spec) {
    forall e | e in calls ::
      || e == ChildWritten(DnsService) || (e == ChildWritten(ClusterIngress) && Exposes(spec))
      || (e == ChildWritten(ClusterPodMonitor) && MonitorsPods(spec))
  }

  lemma EdgeCallsJoin(calls: seq<Event>, more: seq<Event>, spec: Spec)
    requires EdgeCalls(calls, spec) && EdgeCalls(more, spec)
    ensures EdgeCalls(calls + more, spec)
    ensures forall e :: e in calls + more <==> e in calls || e in more
  {
  }

  /** Pod monitor and DNS service. */
  method EnsureServices(w: World, cluster: PiHoleCluster) returns (ok: bool, ghost calls: seq<Event>)
    requires WellStored(w.objects)
    modifies w`failures, w`objects, w`events
    ensures WellStored(w.objects) && Touches(old(w.objects), w.objects, {MonitorKey(cluster.key), DnsKey(cluster.key)})
    ensures w.events == old(w.events) + calls
    ensures EdgeCalls(calls, cluster.spec) && ChildWritten(ClusterIngress) !in calls
    ensures ok <==> ChildWritten(DnsService) in calls
    ensures ok ==> ServicesRight(w.objects, cluster.key, cluster.spec)
    ensures Improves(old(w.objects), w.objects, cluster.key, cluster.spec)
    ensures w.failures >= old(w.failures) && (!ok ==> w.failures > old(w.failures))
  {
    ok, calls := EnsurePodMonitor(w, cluster);
    if ok {
      ghost var more;
      ok, more := EnsureChild(w, DnsKey(cluster.key), Plain(cluster.spec.pods), cluster.key);
      Reassociate(old(w.events), calls, more);
      EdgeCallsJoin(calls, more, cluster.spec);
      calls := calls + more;
    }
    ServicesImprove(old(w.objects), w.objects, cluster.key, cluster.spec);
  }

  /** These writes in their order: the monitor when the ingress is right, the service last, and only then is all done. */
  ghost predicate EdgeWrites(calls: seq<Event>, ok: bool, objects: map<ObjectKey, Object>, key: ClusterKey, spec: Spec) {
    && EdgeCalls(calls, spec)
    && (ok <==> ChildWritten(DnsService) in calls) && (ok ==> EdgeRight(objects, key, spec))
    && (ChildWritten(ClusterPodMonitor) in calls ==> IngressRight(objects, key, spec))
  }

  /** Ingress, pod monitor and DNS service, as far as the specification asks for them. */
  method EnsureEdge(w: World, cluster: PiHoleCluster) returns (ok: bool, ghost calls: seq<Event>)
    requires WellStored(w.objects)
    modifies w`failures, w`objects, w`events
    ensures WellStored(w.objects)
    ensures Touches(old(w.objects), w.objects, EdgeKeys(cluster.key))
    ensures w.events == old(w.events) + calls
    ensures EdgeWrites(calls, ok, w.objects, cluster.key, cluster.spec)
    ensures Improves(old(w.objects), w.objects, cluster.key, cluster.spec)
    ensures w.failures >= old(w.failures) && (!ok ==> w.failures > old(w.failures))
  {
    ok, calls := true, [];
    if Exposes(cluster.spec) {
      ok, calls := EnsureIngress(w, cluster);
    }
    if ok {
      ghost var more, mid := [], w.objects;
      ok, more := EnsureServices(w, cluster);
      Reassociate(old(w.events), calls, more);
      EdgeCallsJoin(calls, more, cluster.spec);
      calls := calls + more;
      ImprovesTwice(old(w.objects), mid, w.objects, cluster.key, cluster.spec);
    }
  }

  /* ------------------------------ readiness of everything ------------------------------ */

  /** Whether the sync is part of a run. */
  predicate Syncs(spec: Spec) {
    spec.sync.Some? && spec.replicas > 0
  }

  ghost predicate SetReady(objects: map<ObjectKey, Object>, k: ObjectKey, replicas: int) {
    k in objects && objects[k].readyReplicas == replicas
  }

  /** Every set reports the replicas it should, the claim is bound, and the rest exists. */
  ghost predicate Healthy(objects: map<ObjectKey, Object>, key: ClusterKey, spec: Spec) {
    && SetReady(objects, ReadWriteKey(key), 1)
    && (Syncs(spec) ==> SetReady(objects, ReadOnlyKey(key), spec.replicas))
    && ClaimKey(key) in objects && objects[ClaimKey(key)].bound
    && DnsKey(key) in objects
    && (Exposes(spec) ==> IngressKey(key) in objects) && (MonitorsPods(spec) ==> MonitorKey(key) in objects)
  }

  /** Reads one object; one that is missing is an error here. */
  method Read(w: World, k: ObjectKey) returns (obj: Option<Object>)
    modifies w`failures
    ensures obj.Some? ==> k in w.objects && obj.value == w.objects[k] && w.failures == old(w.failures)
    ensures obj.None? ==> k !in w.objects || w.failures > old(w.failures)
    ensures w.failures >= old(w.failures)
  {
    var found := w.GetObject(k);
    obj := if found.Present? then Some(found.obj) else None;
  }

  /** The objects at the edge are there. */
  method EdgeExists(w: World, cluster: PiHoleCluster) returns (ok: bool)
    modifies w`failures
    ensures ok ==> DnsKey(cluster.key) in w.objects
    ensures ok ==> (Exposes(cluster.spec) ==> IngressKey(cluster.key) in w.objects)
                   && (MonitorsPods(cluster.spec) ==> MonitorKey(cluster.key) in w.objects)
    ensures !ok ==> w.failures > old(w.failures) || !EdgeRight(w.objects, cluster.key, cluster.spec)
    ensures w.failures >= old(w.failures)
  {
    var obj := Read(w, DnsKey(cluster.key));
    ok := obj.Some?;
    if ok && Exposes(cluster.spec) {
      obj := Read(w, IngressKey(cluster.key));
      ok := obj.Some?;
    }
    if ok && MonitorsPods(cluster.spec) {
      obj := Read(w, MonitorKey(cluster.key));
      ok := obj.Some?;
    }
  }

  /** The answer is right whenever there is one, and there is one when all is stored and no read fails. */
  method ResourcesReady(w: World, cluster: PiHoleCluster) returns (ready: Option<bool>)
    modifies w`failures
    ensures ready.Some? ==> (ready.value <==> Healthy(w.objects, cluster.key, cluster.spec))
    ensures ready == Some(true) ==>
              && ReadWriteKey(cluster.key) in w.objects && w.objects[ReadWriteKey(cluster.key)].readyReplicas == 1
              && ClaimKey(cluster.key) in w.objects && w.objects[ClaimKey(cluster.key)].bound && DnsKey(cluster.key) in w.objects
    ensures ready == Some(true) && cluster.spec.sync.Some? && cluster.spec.replicas > 0 ==>
              ReadOnlyKey(cluster.key) in w.objects && w.objects[ReadOnlyKey(cluster.key)].readyReplicas == cluster.spec.replicas
    ensures ready == Some(false) ==>
              || (ReadWriteKey(cluster.key) in w.objects && w.objects[ReadWriteKey(cluster.key)].readyReplicas != 1)
              || (ReadOnlyKey(cluster.key) in w.objects && w.objects[ReadOnlyKey(cluster.key)].readyReplicas != cluster.spec.replicas)
              || (ClaimKey(cluster.key) in w.objects && !w.objects[ClaimKey(cluster.key)].bound)
    ensures ready.None? ==> w.failures > old(w.failures) || !AllRight(w.objects, cluster.key, cluster.spec)
    ensures w.failures >= old(w.failures)
  {
    var obj := Read(w, ReadWriteKey(cluster.key));
    if obj.None? || obj.value.readyReplicas != 1 {
      return if obj.None? then None else Some(false);
    }
    if cluster.spec.sync.Some? && cluster.spec.replicas > 0 {
      obj := Read(w, ReadOnlyKey(cluster.key));
      if obj.None? || obj.value.readyReplicas != cluster.spec.replicas {
        return if obj.None? then None else Some(false);
      }
    }
    obj := Read(w, ClaimKey(cluster.key));
    if obj.None? || !obj.value.bound {
      return if obj.None? then None else Some(false);
    }
    var ok := EdgeExists(w, cluster);
    ready := if ok then Some(true) else None;
  }
}
