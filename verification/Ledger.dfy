/** The ledger of synced pods, and the evidence the journal must hold for each entry. */
module Ledger {
  import opened Domain
  import opened ClusterTypes
  import opened PodNames

  function Entry(p: Pod): SyncedPod {
    SyncedPod(p.name, p.uid)
  }

  ghost predicate NoDuplicates(ledger: seq<SyncedPod>) {
    forall i, j | 0 <= i < j < |ledger| :: ledger[i] != ledger[j]
  }

  /**
   * The last listing of read-write pods before `k` is of this cluster's, shows a ready one, and
   * has the first pod of the set, when it is usable, at this address.
   */
  ghost predicate Shown(events: seq<Event>, l: nat, k: nat, key: ClusterKey, url: Url) {
    && l < k <= |events| && events[l].ReadWriteListed? && (forall m | l < m < k :: !events[m].ReadWriteListed?)
    && SomeReady(events[l].pods)
    && forall q | q in events[l].pods ::
         && q.namespace == key.namespace && q.instance == key.name && q.role == ReadWrite
         && (q.name == ReadWritePod(key.name) && Usable(q) ==> url == UrlOf(q.ip))
  }

  /** The journal so far shows where the cluster's read-write pod is. */
  ghost predicate SourceShown(events: seq<Event>, key: ClusterKey, url: Url) {
    exists l :: Shown(events, l, |events|, key, url)
  }

  /**
   * In one run: a listing that shows the read-write pods of the pod's cluster, one that shows the
   * pod, a download from the read-write pod at the address listed for it, and an upload of the
   * same bytes to the address listed for the pod.
   */
  ghost predicate Transfer(events: seq<Event>, l: nat, i: nat, j: nat, k: nat, pod: Pod) {
    && l < i < j < k < |events|
    && events[i].ReplicasListed? && pod in events[i].pods && (forall m | i < m < k :: !events[m].ReplicasListed?)
    && events[j].Downloaded? && events[j].pod == ReadWritePod(pod.instance)
    && Shown(events, l, k, ClusterKey(pod.namespace, pod.instance), events[j].url)
    && events[k] == Uploaded(UrlOf(pod.ip), events[j].data)
  }

  ghost predicate Evidence(events: seq<Event>, s: SyncedPod) {
    exists l, i, j, k, pod :: Entry(pod) == s && Transfer(events, l, i, j, k, pod)
  }

  ghost predicate Backed(events: seq<Event>, known: set<SyncedPod>, s: SyncedPod) {
    s in known || Evidence(events, s)
  }

  /** Every entry was known from the start or has evidence. */
  ghost predicate Sound(events: seq<Event>, ledger: seq<SyncedPod>, known: set<SyncedPod>) {
    forall s {:trigger Backed(events, known, s)} | s in ledger :: Backed(events, known, s)
  }

  lemma EvidenceStays(events: seq<Event>, more: seq<Event>, s: SyncedPod)
    requires Evidence(events, s)
    ensures Evidence(events + more, s)
  {
    var l, i, j, k, pod :| Entry(pod) == s && Transfer(events, l, i, j, k, pod);
    assert Transfer(events + more, l, i, j, k, pod);
  }

  lemma SoundStays(events: seq<Event>, more: seq<Event>, ledger: seq<SyncedPod>, known: set<SyncedPod>)
    requires Sound(events, ledger, known)
    ensures Sound(events + more, ledger, known)
  {
    forall s | s in ledger && s !in known
      ensures Evidence(events + more, s)
    {
      assert Backed(events, known, s);
      EvidenceStays(events, more, s);
    }
  }

  /** The listing keyed by address; of pods with the same address the last one stays. */
  function PodMap(pods: seq<Pod>): map<Url, Pod> {
    if pods == [] then map[]
    else
      var last := pods[|pods| - 1];
      PodMap(pods[..|pods| - 1])[UrlOf(last.ip) := last]
  }

  lemma PodMapOneMore(pods: seq<Pod>, p: Pod)
    ensures PodMap(pods + [p]) == PodMap(pods)[UrlOf(p.ip) := p]
  {
    assert (pods + [p])[..|pods + [p]| - 1] == pods;
  }

  lemma UrlIsInjective(ip1: string, ip2: string)
    requires UrlOf(ip1) == UrlOf(ip2)
    ensures ip1 == ip2
  {
    assert UrlOf(ip1)[7..] == ip1 && UrlOf(ip2)[7..] == ip2;
  }

  lemma {:induction false} PodMapFaithful(pods: seq<Pod>)
    ensures forall u | u in PodMap(pods) :: PodMap(pods)[u] in pods && UrlOf(PodMap(pods)[u].ip) == u
    ensures forall p | p in pods :: UrlOf(p.ip) in PodMap(pods)
  {
    if pods != [] {
      PodMapFaithful(pods[..|pods| - 1]);
      assert pods == pods[..|pods| - 1] + [pods[|pods| - 1]];
    }
  }

  ghost predicate DistinctAddresses(pods: seq<Pod>) {
    forall p, q | p in pods && q in pods && p.ip == q.ip :: p == q
  }

  /** With distinct addresses the map loses no pod. */
  lemma PodMapComplete(pods: seq<Pod>, p: Pod)
    requires DistinctAddresses(pods) && p in pods
    ensures UrlOf(p.ip) in PodMap(pods) && PodMap(pods)[UrlOf(p.ip)] == p
  {
    PodMapFaithful(pods);
    UrlIsInjective(p.ip, PodMap(pods)[UrlOf(p.ip)].ip);
  }

  /** Some pod of the listing, as far as the map shows it, is not in the ledger. */
  ghost predicate NeedsSync(podMap: map<Url, Pod>, ledger: seq<SyncedPod>) {
    exists u | u in podMap :: Entry(podMap[u]) !in ledger
  }

  ghost predicate Unsynced(pods: seq<Pod>, ledger: seq<SyncedPod>) {
    exists p | p in pods :: Entry(p) !in ledger
  }

  /** With distinct addresses a sync is due exactly when some listed pod, by name and UID, is missing. */
  lemma DueIffUnsynced(pods: seq<Pod>, ledger: seq<SyncedPod>)
    requires DistinctAddresses(pods)
    ensures NeedsSync(PodMap(pods), ledger) <==> Unsynced(pods, ledger)
  {
    PodMapFaithful(pods);
    if p :| p in pods && Entry(p) !in ledger {
      PodMapComplete(pods, p);
    }
  }

  function OtherEntries(pods: seq<Pod>, p: Pod): (r: seq<SyncedPod>)
    ensures forall s :: s in r <==> exists q | q in pods :: q != p && Entry(q) == s
  {
    if pods == [] then []
    else
      assert pods == [pods[0]] + pods[1..];
      (if pods[0] == p then [] else [Entry(pods[0])]) + OtherEntries(pods[1..], p)
  }

  /**
   * Exactly the listings with distinct addresses are always judged right; of pods that share
   * an address, as pods without one do, all but the last can stay unsynced unnoticed.
   */
  lemma JudgedRightIffDistinct(pods: seq<Pod>)
    requires forall p, q | p in pods && q in pods && Entry(p) == Entry(q) :: p == q
    ensures (forall ledger :: NeedsSync(PodMap(pods), ledger) <==> Unsynced(pods, ledger)) <==> DistinctAddresses(pods)
  {
    if DistinctAddresses(pods) {
      forall ledger ensures NeedsSync(PodMap(pods), ledger) <==> Unsynced(pods, ledger) {
        DueIffUnsynced(pods, ledger);
      }
    } else {
      PodMapFaithful(pods);
      var p1, p2 :| p1 in pods && p2 in pods && p1.ip == p2.ip && p1 != p2;
      var p := if PodMap(pods)[UrlOf(p1.ip)] == p1 then p2 else p1;
      var ledger := OtherEntries(pods, p);
      assert Entry(p) !in ledger;
      forall u | u in PodMap(pods)
        ensures Entry(PodMap(pods)[u]) in ledger
      {
        assert PodMap(pods)[u] != p;
      }
      assert Unsynced(pods, ledger) && !NeedsSync(PodMap(pods), ledger);
    }
  }

  /** Of two pods at one address the first is never missed. */
  lemma LaterHidesEarlier(pods: seq<Pod>, hidden: Pod, last: Pod, ledger: seq<SyncedPod>)
    requires hidden.ip == last.ip && Entry(last) in ledger && forall p | p in pods :: Entry(p) in ledger
    ensures !NeedsSync(PodMap(pods + [hidden] + [last]), ledger)
  {
    PodMapFaithful(pods);
    PodMapOneMore(pods, hidden);
    PodMapOneMore(pods + [hidden], last);
  }

  /** What the uploads of one run prove. */
  lemma UploadIsEvidence(before: seq<Event>, pods: seq<Pod>, rw: string, url: Url, data: Blob, uploads: seq<Event>, pod: Pod)
    requires rw == ReadWritePod(pod.instance) && SourceShown(before, ClusterKey(pod.namespace, pod.instance), url)
    requires pod in pods && Uploaded(UrlOf(pod.ip), data) in uploads
    requires forall e | e in uploads :: e.Uploaded?
    ensures Evidence(before + [ReplicasListed(pods), Downloaded(rw, url, data)] + uploads, Entry(pod))
  {
    var events := before + [ReplicasListed(pods), Downloaded(rw, url, data)] + uploads;
    var n :| 0 <= n < |uploads| && uploads[n] == Uploaded(UrlOf(pod.ip), data);
    var l :| Shown(before, l, |before|, ClusterKey(pod.namespace, pod.instance), url);
    var i, j, k := |before|, |before| + 1, |before| + 2 + n;
    forall m | i < m < k
      ensures !events[m].ReplicasListed? && !events[m].ReadWriteListed?
    {
      if m > j {
        assert events[m] == uploads[m - |before| - 2];
        assert uploads[m - |before| - 2] in uploads;
      }
    }
    assert Shown(events, l, k, ClusterKey(pod.namespace, pod.instance), url);
    assert Transfer(events, l, i, j, k, pod);
  }

  /** The entry's pod was uploaded to, at the address the map has for it. */
  ghost predicate Delivered(podMap: map<Url, Pod>, data: Blob, uploads: seq<Event>, s: SyncedPod) {
    exists u | u in podMap :: Entry(podMap[u]) == s && Uploaded(u, data) in uploads
  }

  /** The ledger is append-only, free of duplicates, and every new entry stands for an upload made. */
  ghost predicate Grown(before: seq<SyncedPod>, after: seq<SyncedPod>, podMap: map<Url, Pod>, data: Blob, uploads: seq<Event>) {
    && before <= after
    && (NoDuplicates(before) ==> NoDuplicates(after))
    && forall s | s in after :: s in before || Delivered(podMap, data, uploads, s)
  }

  /** Some call uploaded to the address listed for a pod with this entry. */
  ghost predicate Served(pods: seq<Pod>, calls: seq<Event>, s: SyncedPod) {
    exists p, e | p in pods && e in calls :: Entry(p) == s && e.Uploaded? && e.url == UrlOf(p.ip)
  }

  /** Every entry added to the ledger stands for an upload among these calls. */
  ghost predicate NewServed(pods: seq<Pod>, calls: seq<Event>, before: seq<SyncedPod>, after: seq<SyncedPod>) {
    forall s {:trigger Served(pods, calls, s)} | s in after && s !in before :: Served(pods, calls, s)
  }

  lemma GrownIsServed(pods: seq<Pod>, before: seq<SyncedPod>, after: seq<SyncedPod>, data: Blob, uploads: seq<Event>, calls: seq<Event>)
    requires Grown(before, after, PodMap(pods), data, uploads) && forall e | e in uploads :: e in calls
    ensures NewServed(pods, calls, before, after)
  {
    PodMapFaithful(pods);
    forall s | s in after && s !in before
      ensures Served(pods, calls, s)
    {
      var u :| u in PodMap(pods) && Entry(PodMap(pods)[u]) == s && Uploaded(u, data) in uploads;
      assert PodMap(pods)[u] in pods && Uploaded(u, data) in calls;
    }
  }

  lemma MoreServed(pods: seq<Pod>, calls: seq<Event>, more: seq<Event>, before: seq<SyncedPod>, after: seq<SyncedPod>)
    requires NewServed(pods, calls, before, after) && forall e | e in calls :: e in more
    ensures NewServed(pods, more, before, after)
  {
    forall s | s in after && s !in before
      ensures Served(pods, more, s)
    {
      assert Served(pods, calls, s);
      var p, e :| p in pods && e in calls && Entry(p) == s && e.Uploaded? && e.url == UrlOf(p.ip);
      assert e in more;
    }
  }

  lemma GrowsByOne(before: seq<SyncedPod>, after: seq<SyncedPod>, podMap: map<Url, Pod>, data: Blob, uploads: seq<Event>, u: Url)
    requires Grown(before, after, podMap, data, uploads) && u in podMap
    ensures var s, more := Entry(podMap[u]), uploads + [Uploaded(u, data)];
            && Grown(before, after, podMap, data, more)
            && (s !in after ==> Grown(before, after + [s], podMap, data, more))
  {
    var s, more := Entry(podMap[u]), uploads + [Uploaded(u, data)];
    assert more[|uploads|] == Uploaded(u, data);
    assert Delivered(podMap, data, more, s);
    forall t | t in after && t !in before
      ensures Delivered(podMap, data, more, t)
    {
      var v :| v in podMap && Entry(podMap[v]) == t && Uploaded(v, data) in uploads;
      assert Uploaded(v, data) in more;
    }
  }

  /** A ledger that grew by the uploads of one run stays sound. */
  lemma GrownIsSound(events: seq<Event>, before: seq<SyncedPod>, known: set<SyncedPod>, key: ClusterKey,
                     pods: seq<Pod>, rw: string, url: Url, data: Blob, uploads: seq<Event>, after: seq<SyncedPod>)
    requires rw == ReadWritePod(key.name) && SourceShown(events, key, url)
    requires forall p | p in pods :: p.namespace == key.namespace && p.instance == key.name
    requires Sound(events, before, known) && Grown(before, after, PodMap(pods), data, uploads)
    requires forall e | e in uploads :: e.Uploaded?
    ensures Sound(events + [ReplicasListed(pods), Downloaded(rw, url, data)] + uploads, after, known)
  {
    var calls := [ReplicasListed(pods), Downloaded(rw, url, data)] + uploads;
    assert events + [ReplicasListed(pods), Downloaded(rw, url, data)] + uploads == events + calls;
    forall s | s in after && s !in known
      ensures Evidence(events + calls, s)
    {
      if s in before {
        assert Backed(events, known, s);
        EvidenceStays(events, calls, s);
      } else {
        var u :| u in PodMap(pods) && Entry(PodMap(pods)[u]) == s && Uploaded(u, data) in uploads;
        PodMapFaithful(pods);
        UploadIsEvidence(events, pods, rw, url, data, uploads, PodMap(pods)[u]);
      }
    }
  }

  /** The ledger in memory and every ledger stored are sound. */
  ghost predicate AllSound(events: seq<Event>, ledger: seq<SyncedPod>, stored: set<seq<SyncedPod>>, known: set<SyncedPod>) {
    Sound(events, ledger, known) && forall l | l in stored :: Sound(events, l, known)
  }

  lemma AllSoundStays(events: seq<Event>, more: seq<Event>, ledger: seq<SyncedPod>, stored: set<seq<SyncedPod>>, known: set<SyncedPod>)
    requires AllSound(events, ledger, stored, known)
    ensures AllSound(events + more, ledger, stored, known)
  {
    forall l | l == ledger || l in stored
      ensures Sound(events + more, l, known)
    {
      SoundStays(events, more, l, known);
    }
  }
}
