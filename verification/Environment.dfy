/**
 * Everything outside the operator's process: the Pi-hole servers, the Kubernetes API server
 * and the pods it lists.  Every call may fail; a failed call changes nothing but `failures`.
 */
module Environment {
  import opened Wrappers
  import opened Domain
  import opened ClusterTypes

  datatype Content =
    | Claim(requests: string, accessModes: seq<string>, storageClass: Option<string>)
    | Workload(replicas: int, template: string)
    | Data(data: map<string, string>)
    | Plain(text: string)

  datatype ObjectKey = ObjectKey(child: Child, namespace: string, name: string)

  /** Version 0 is an object that was never stored. */
  datatype Object = Object(content: Content, controller: Option<ClusterKey>, version: nat, readyReplicas: int, bound: bool)

  datatype Found = Present(obj: Object) | Absent | Unreadable
  datatype Write = Written | Conflict | Rejected

  datatype AuthReply = Refused | Granted(sid: string, validity: int)

  /** The time of a call, the answers to the authentication requests it may make, and when they arrive. */
  datatype AuthAnswers = AuthAnswers(now: int, replies: nat -> AuthReply, clock: nat -> int)

  /** How the API server meets one attempt to read an object and write it back. */
  datatype Attended = Unreachable | Answered(write: Write)

  /** A server answers a list query with each of its addresses once, in any order. */
  ghost predicate ListsExactly(answer: seq<AdList>, store: Store) {
    && (forall l | l in answer :: l.address in store && store[l.address] == l.comment)
    && (forall a | a in store :: AdList(a, store[a]) in answer)
    && (forall i, j | 0 <= i < j < |answer| :: answer[i].address != answer[j].address)
  }

  function PodsIn(pods: seq<Pod>, namespace: string): (r: seq<Pod>)
    ensures forall p :: p in r <==> p in pods && p.namespace == namespace
  {
    if pods == [] then []
    else (if pods[0].namespace == namespace then [pods[0]] else []) + PodsIn(pods[1..], namespace)
  }

  function PodsOf(pods: seq<Pod>, key: ClusterKey, role: Role): (r: seq<Pod>)
    ensures forall p :: p in r <==> p in pods && p.namespace == key.namespace && p.instance == key.name && p.role == role
  {
    if pods == [] then []
    else
      var p := pods[0];
      (if p.namespace == key.namespace && p.instance == key.name && p.role == role then [p] else [])
      + PodsOf(pods[1..], key, role)
  }

  /** A listing by labels has each matching pod as often as there are such pods. */
  lemma {:induction false} PodsOfCounted(pods: seq<Pod>, key: ClusterKey, role: Role, p: Pod)
    requires p.namespace == key.namespace && p.instance == key.name && p.role == role
    ensures multiset(PodsOf(pods, key, role))[p] == multiset(pods)[p]
  {
    if pods != [] {
      PodsOfCounted(pods[1..], key, role, p);
      assert pods == [pods[0]] + pods[1..] && multiset(pods)[p] == multiset([pods[0]])[p] + multiset(pods[1..])[p];
    }
  }

  class World {
    var lists: Fleet
    var pods: seq<Pod>
    var clusters: map<ClusterKey, ClusterRecord>
    var objects: map<ObjectKey, Object>
    ghost var events: seq<Event>
    ghost var failures: nat
    ghost var closed: set<object>

    /** One call, of which only success or failure matters. */
    method Call() returns (ok: bool)
      modifies this`failures
      ensures failures == old(failures) + if ok then 0 else 1
    {
      ok := *;
      if !ok {
        failures := failures + 1;
      }
    }

    /* ------------------------------ Pi-hole servers ------------------------------ */

    /** A request to a server; one that cannot be reached fails. */
    method Reach(url: Url) returns (ok: bool)
      modifies this`failures
      ensures failures == old(failures) + if ok then 0 else 1
      ensures ok ==> url in lists
    {
      ok := Call();
      if ok && url !in lists {
        failures := failures + 1;
        ok := false;
      }
    }

    method ReadLists(url: Url) returns (answer: Option<seq<AdList>>)
      modifies this`failures
      ensures failures == old(failures) + if answer.Some? then 0 else 1
      ensures answer.Some? ==> url in lists && ListsExactly(answer.value, lists[url])
    {
      var ok := Reach(url);
      if !ok {
        return None;
      }
      var store := lists[url];
      var todo := store.Keys;
      var r: seq<AdList> := [];
      while todo != {}
        invariant todo <= store.Keys
        invariant forall l | l in r :: l.address in store && l.address !in todo && store[l.address] == l.comment
        invariant forall a | a in store && a !in todo :: AdList(a, store[a]) in r
        invariant forall i, j | 0 <= i < j < |r| :: r[i].address != r[j].address
        decreases |todo|
      {
        var a :| a in todo;
        todo := todo - {a};
        assert forall l | l in r :: l.address != a;
        r := r + [AdList(a, store[a])];
      }
      answer := Some(r);
    }

    /** A write to one server, recorded with its effect. */
    method Send(e: Event) returns (ok: bool)
      requires e.Posted? || e.Deleted? || e.GravityRun?
      modifies this`failures, this`lists, this`events
      ensures failures == old(failures) + if ok then 0 else 1
      ensures ok ==> e.url in old(lists) && lists == Apply(old(lists), e) && events == old(events) + [e]
      ensures !ok ==> lists == old(lists) && events == old(events)
    {
      ok := Reach(e.url);
      if ok {
        lists := Apply(lists, e);
        events := events + [e];
      }
    }

    /** An export, recorded with the name of the pod the caller takes the server for. */
    method ReadTeleporter(url: Url, ghost pod: string) returns (data: Option<Blob>)
      modifies this`failures, this`events
      ensures failures == old(failures) + if data.Some? then 0 else 1
      ensures events == old(events) + if data.Some? then [Downloaded(pod, url, data.value)] else []
    {
      var ok := Reach(url);
      data := None;
      if ok {
        var bytes: Blob := *;
        data := Some(bytes);
        events := events + [Downloaded(pod, url, bytes)];
      }
    }

    /** An import replaces the configuration of that server, its ad-lists included. */
    method WriteTeleporter(url: Url, data: Blob)
      modifies this`lists, this`events
      ensures events == old(events) + [Uploaded(url, data)]
      ensures lists.Keys == old(lists).Keys
      ensures forall u | u in lists && u != url :: lists[u] == old(lists)[u]
    {
      if url in lists {
        var imported: Store := *;
        lists := lists[url := imported];
      }
      events := events + [Uploaded(url, data)];
    }

    /** What the coming authentication requests will be answered. */
    method Authority() returns (auth: AuthAnswers)
    {
      auth := *;
    }

    /** How the coming upload attempts end, and at which waits the context is done first. */
    method Transfer() returns (accepted: nat -> bool, cancelled: nat -> bool)
    {
      accepted := *;
      cancelled := *;
    }

    /* ------------------------------ Kubernetes: pods ------------------------------ */

    method ListPods(namespace: string) returns (answer: Option<seq<Pod>>)
      modifies this`failures
      ensures failures == old(failures) + if answer.Some? then 0 else 1
      ensures answer.Some? ==> answer.value == PodsIn(pods, namespace)
    {
      var ok := Call();
      answer := if ok then Some(PodsIn(pods, namespace)) else None;
    }

    method ListPodsOf(key: ClusterKey, role: Role) returns (answer: Option<seq<Pod>>)
      modifies this`failures
      ensures failures == old(failures) + if answer.Some? then 0 else 1
      ensures answer.Some? ==> answer.value == PodsOf(pods, key, role)
    {
      var ok := Call();
      answer := if ok then Some(PodsOf(pods, key, role)) else None;
    }

    /* ------------------------------ Kubernetes: objects ------------------------------ */

    /** How the coming attempts to read and rewrite an object will be met. */
    method Attendance() returns (server: nat -> Attended)
    {
      server := *;
    }

    /** The answers to the coming writes. */
    method Answers() returns (answers: nat -> Write)
    {
      answers := *;
    }

    method GetObject(key: ObjectKey) returns (found: Found)
      modifies this`failures
      ensures failures == old(failures) + if found.Unreadable? then 1 else 0
      ensures found.Present? ==> key in objects && objects[key] == found.obj
      ensures found.Absent? ==> key !in objects
    {
      var reachable: bool := *;
      found := ReadObject(key, reachable);
    }

    method ReadObject(key: ObjectKey, reachable: bool) returns (found: Found)
      modifies this`failures
      ensures failures == old(failures) + if reachable then 0 else 1
      ensures found == if !reachable then Unreadable else if key in objects then Present(objects[key]) else Absent
    {
      if !reachable {
        failures := failures + 1;
      }
      found := if !reachable then Unreadable else if key in objects then Present(objects[key]) else Absent;
    }

    method CreateObject(key: ObjectKey, obj: Object) returns (ok: bool)
      modifies this`failures, this`objects, this`events
      ensures failures == old(failures) + if ok then 0 else 1
      ensures ok ==> key !in old(objects) && objects == old(objects)[key := obj.(version := 1)]
      ensures !ok ==> objects == old(objects)
      ensures events == old(events) + if ok then [ChildWritten(key.child)] else []
    {
      ok := Call();
      if ok && key in objects {
        failures := failures + 1;
        ok := false;
      }
      if ok {
        objects := objects[key := obj.(version := 1)];
        events := events + [ChildWritten(key.child)];
      }
    }

    /** An update with version 0 is unconditional; its status part is ignored by the server. */
    method UpdateObject(key: ObjectKey, obj: Object, answer: Write) returns (result: Write)
      modifies this`failures, this`objects, this`events
      ensures failures == old(failures) + if result.Written? then 0 else 1
      ensures result.Written? <==> answer.Written? && key in old(objects) && obj.version in {0, old(objects)[key].version}
      ensures !answer.Written? ==> result == answer
      ensures result.Written? ==> objects == old(objects)[key := Merged(old(objects)[key], obj)]
      ensures !result.Written? ==> objects == old(objects)
      ensures events == old(events) + if result.Written? then [ChildWritten(key.child)] else []
    {
      result := answer;
      if result.Written? && (key !in objects || obj.version !in {0, objects[key].version}) {
        result := if key in objects then Conflict else Rejected;
      }
      if result.Written? {
        objects := objects[key := Merged(objects[key], obj)];
        events := events + [ChildWritten(key.child)];
      } else {
        failures := failures + 1;
      }
    }

    static function Merged(stored: Object, sent: Object): Object {
      stored.(content := sent.content, controller := sent.controller, version := stored.version + 1)
    }

    /* ------------------------------ Kubernetes: the custom resource ------------------------------ */

    method GetCluster(key: ClusterKey) returns (answer: Option<ClusterRecord>)
      modifies this`failures
      ensures answer.Some? ==> failures == old(failures) && key in clusters && clusters[key] == answer.value
      ensures answer.None? ==> failures == old(failures) + 1
    {
      var ok := Call();
      answer := None;
      if ok {
        if key in clusters {
          answer := Some(clusters[key]);
        } else {
          failures := failures + 1;
        }
      }
    }

    /** Writes metadata; a resource marked for deletion takes no new finalizer, and is gone once its last one is. */
    method UpdateFinalizers(key: ClusterKey, finalizers: seq<string>) returns (ok: bool)
      modifies this`failures, this`clusters, this`events
      ensures failures == old(failures) + if ok then 0 else 1
      ensures events == old(events) + if ok then [FinalizersWritten(finalizers)] else []
      ensures !ok ==> clusters == old(clusters)
      ensures ok ==> key in old(clusters)
      ensures ok && old(clusters)[key].deleting ==> forall f | f in finalizers :: f in old(clusters)[key].finalizers
      ensures ok && old(clusters)[key].deleting && finalizers == [] ==> clusters == old(clusters) - {key}
      ensures ok && !(old(clusters)[key].deleting && finalizers == []) ==>
                clusters == old(clusters)[key := old(clusters)[key].(finalizers := finalizers)]
    {
      ok := Call();
      if ok && (key !in clusters || (clusters[key].deleting && exists f | f in finalizers :: f !in clusters[key].finalizers)) {
        failures := failures + 1;
        ok := false;
      }
      if ok {
        clusters := if clusters[key].deleting && finalizers == [] then clusters - {key}
                    else clusters[key := clusters[key].(finalizers := finalizers)];
        events := events + [FinalizersWritten(finalizers)];
      }
    }

    method UpdateStatus(key: ClusterKey, status: Status, answer: Write) returns (result: Write)
      modifies this`failures, this`clusters, this`events
      ensures failures == old(failures) + if result.Written? then 0 else 1
      ensures result == if !answer.Written? || key in old(clusters) then answer else Rejected
      ensures result.Written? ==> clusters == old(clusters)[key := old(clusters)[key].(status := status)]
      ensures !result.Written? ==> clusters == old(clusters)
      ensures events == old(events) + if result.Written? then [StatusWritten(status.resourcesReady)] else []
    {
      result := answer;
      if result.Written? && key !in clusters {
        result := Rejected;
      }
      if result.Written? {
        clusters := clusters[key := clusters[key].(status := status)];
        events := events + [StatusWritten(status.resourcesReady)];
      } else {
        failures := failures + 1;
      }
    }
  }
}
