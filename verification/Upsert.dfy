/** Create-or-update of owned objects and status writes, both retried on conflict. */
module Upsert {
  import opened Wrappers
  import opened Domain
  import opened ClusterTypes
  import opened Environment

  /** Attempts client-go's DefaultBackoff allows. */
  const CONFLICT_ATTEMPTS := 4

  /** The content an object of each kind has. */
  predicate Fits(child: Child, content: Content) {
    match child
    case DataClaim => content.Claim?
    case ReadWriteSet => content.Workload?
    case ReadOnlySet => content.Workload?
    case ApiSecret => content.Data?
    case EnvConfigMap => content.Data?
    case _ => content.Plain?
  }

  /** The API server numbers stored versions from one and keeps kinds apart. */
  predicate WellStored(objects: map<ObjectKey, Object>) {
    forall k | k in objects :: objects[k].version > 0 && Fits(k.child, objects[k].content)
  }

  /** Nothing but this object's content, controller and version can have changed. */
  ghost predicate OnlyRewritten(before: map<ObjectKey, Object>, after: map<ObjectKey, Object>, key: ObjectKey) {
    && key in after && after == before[key := after[key]]
    && (key in before ==> after[key].readyReplicas == before[key].readyReplicas && after[key].bound == before[key].bound)
    && (key in before ==> after[key].version > before[key].version)
  }

  function Desired(content: Content, owner: ClusterKey): Object {
    Object(content, Some(owner), 0, 0, false)
  }

  /** At most four attempts, and another one only after a conflict. */
  method UpdateWithRetry(w: World, key: ObjectKey, desired: Object, server: nat -> Attended) returns (refreshed: Option<Object>)
    requires desired.version == 0
    modifies w`failures, w`objects, w`events
    ensures refreshed.Some? <==> key in old(w.objects) && exists n | 0 <= n < 4 ::
                                   server(n) == Answered(Written) && forall m | 0 <= m < n :: server(m) == Answered(Conflict)
    ensures refreshed.Some? ==> key in old(w.objects) && refreshed.value == old(w.objects)[key]
                                && w.objects == old(w.objects)[key := World.Merged(old(w.objects)[key], desired)]
                                && w.events == old(w.events) + [ChildWritten(key.child)]
    ensures w.failures >= old(w.failures)
    ensures refreshed.None? ==> w.objects == old(w.objects) && w.events == old(w.events) && w.failures > old(w.failures)
  {
    refreshed := None;
    var attempt := 0;
    while attempt < CONFLICT_ATTEMPTS
      invariant w.objects == old(w.objects) && w.events == old(w.events)
      invariant attempt > 0 ==> w.failures > old(w.failures)
      invariant w.failures >= old(w.failures)
      invariant 0 <= attempt <= CONFLICT_ATTEMPTS && forall m | 0 <= m < attempt :: server(m) == Answered(Conflict)
    {
      var found := w.ReadObject(key, !server(attempt).Unreachable?);
      if !found.Present? {
        if found.Absent? {
          w.failures := w.failures + 1;
        }
        return None;
      }
      var result := w.UpdateObject(key, desired, server(attempt).write);
      if result.Written? {
        return Some(found.obj);
      }
      if result.Rejected? {
        return None;
      }
      attempt := attempt + 1;
    }
  }

  /**
   * Without a customizer: on success the object has the desired content and the cluster as
   * its controller, exactly one write was made, and it was a creation iff the object was
   * absent.  What comes back after an update is the object as it was before it.
   */
  method UpsertResource(w: World, key: ObjectKey, content: Content, owner: ClusterKey) returns (result: Option<Object>)
    requires WellStored(w.objects) && Fits(key.child, content)
    modifies w`failures, w`objects, w`events
    ensures WellStored(w.objects)
    ensures result.Some? ==> OnlyRewritten(old(w.objects), w.objects, key)
                             && w.objects[key].content == content && w.objects[key].controller == Some(owner)
                             && w.events == old(w.events) + [ChildWritten(key.child)]
    ensures result.Some? && key !in old(w.objects) ==> w.objects[key] == Desired(content, owner).(version := 1)
    ensures result.Some? && key in old(w.objects) ==> result.value == old(w.objects)[key]
    ensures result.Some? && key !in old(w.objects) ==> w.failures == old(w.failures)
    ensures result.None? ==> w.objects == old(w.objects) && w.events == old(w.events) && w.failures > old(w.failures)
    ensures w.failures >= old(w.failures)
  {
    var desired := Desired(content, owner);
    var found := w.GetObject(key);
    match found
    case Unreadable =>
      result := None;
    case Absent =>
      var ok := w.CreateObject(key, desired);
      result := if ok then Some(desired) else None;
    case Present(existing) =>
      result := Some(existing);
      if existing != desired {
        var server := w.Attendance();
        result := UpdateWithRetry(w, key, desired, server);
      }
  }

  /** The claim's customizer: an existing claim only ever has its storage request replaced. */
  method UpsertClaim(w: World, key: ObjectKey, requests: string, accessModes: seq<string>, storageClass: Option<string>,
                     owner: ClusterKey)
    returns (result: Option<Object>)
    requires WellStored(w.objects) && key.child == DataClaim
    modifies w`failures, w`objects, w`events
    ensures WellStored(w.objects)
    ensures result.Some? && key !in old(w.objects) ==>
              && w.objects == old(w.objects)[key := Desired(Claim(requests, accessModes, storageClass), owner).(version := 1)]
              && w.events == old(w.events) + [ChildWritten(key.child)]
    ensures result.Some? && key in old(w.objects) ==>
              && OnlyRequests(old(w.objects), w.objects, key, requests)
              && w.events == old(w.events) + if old(w.objects)[key].content.requests == requests then [] else [ChildWritten(key.child)]
    ensures result.Some? ==> w.failures == old(w.failures)
    ensures result.None? ==> w.objects == old(w.objects) && w.events == old(w.events) && w.failures > old(w.failures)
    ensures w.failures >= old(w.failures)
  {
    var desired := Desired(Claim(requests, accessModes, storageClass), owner);
    var found := w.GetObject(key);
    match found
    case Unreadable =>
      result := None;
    case Absent =>
      var ok := w.CreateObject(key, desired);
      result := if ok then Some(desired) else None;
    case Present(existing) =>
      result := Some(desired);
      if existing.content.requests != requests {
        var changed := existing.(content := existing.content.(requests := requests));
        var answers := w.Answers();
        var written := w.UpdateObject(key, changed, answers(0));
        result := if written.Written? then Some(changed) else None;
      }
  }

  /** Access modes, class, controller and status of the claim stay; its request is the wanted one. */
  ghost predicate OnlyRequests(before: map<ObjectKey, Object>, after: map<ObjectKey, Object>, key: ObjectKey, requests: string)
    requires key in before && before[key].content.Claim?
  {
    var o := before[key];
    if o.content.requests == requests then after == before
    else after == before[key := o.(content := o.content.(requests := requests), version := o.version + 1)]
  }

  /** The status as the run has it, or the status stored before, after four attempts at most, each but the first after a conflict. */
  method UpdateClusterStatusWithRetry(w: World, cluster: PiHoleCluster, answers: nat -> Write) returns (ok: bool)
    modifies w`failures, w`clusters, w`events
    ensures ok <==> cluster.key in old(w.clusters) && exists n | 0 <= n < 4 ::
                      answers(n).Written? && forall m | 0 <= m < n :: answers(m).Conflict?
    ensures ok ==> cluster.key in old(w.clusters)
                   && w.clusters == old(w.clusters)[cluster.key := old(w.clusters)[cluster.key].(status := cluster.status)]
                   && w.events == old(w.events) + [StatusWritten(cluster.status.resourcesReady)]
    ensures !ok ==> w.clusters == old(w.clusters) && w.events == old(w.events) && w.failures > old(w.failures)
    ensures w.failures >= old(w.failures)
  {
    ok := false;
    var attempt := 0;
    while attempt < CONFLICT_ATTEMPTS
      invariant !ok && w.clusters == old(w.clusters) && w.events == old(w.events)
      invariant attempt > 0 ==> w.failures > old(w.failures)
      invariant w.failures >= old(w.failures)
      invariant 0 <= attempt <= CONFLICT_ATTEMPTS && forall m | 0 <= m < attempt :: answers(m).Conflict?
    {
      var result := w.UpdateStatus(cluster.key, cluster.status, answers(attempt));
      if !result.Conflict? {
        return result.Written?;
      }
      attempt := attempt + 1;
    }
  }
}
