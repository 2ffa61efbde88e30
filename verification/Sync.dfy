/** The reconciler's client cache, its configuration sync and its ad-list sync. */
module Sync {
  import opened Wrappers
  import opened Domain
  import opened ClusterTypes
  import opened Environment
  import opened PiholeApi
  import opened PodNames
  import opened AdListProtocol
  import opened AdListSync
  import opened Ledger
  import opened Upsert

  datatype ApiClientEntry = ApiClientEntry(client: APIClient, ip: string)

  type Cache = map<string, ApiClientEntry>

  /** Kubernetes keeps pod names unique in a namespace. */
  ghost predicate UniqueNames(listed: seq<Pod>) {
    forall p, q | p in listed && q in listed && p.name == q.name :: p == q
  }

  ghost predicate Names(listed: seq<Pod>, n: string) {
    exists p | p in listed :: p.name == n
  }

  ghost predicate NamesUsable(listed: seq<Pod>, n: string) {
    exists p | p in listed :: p.name == n && Usable(p)
  }

  /** The cache has the pod's current address already. */
  predicate Kept(p: Pod, before: Cache) {
    p.name in before && before[p.name].ip == p.ip
  }

  /** Every client made since has the password the secret holds. */
  ghost predicate FreshPasswords(listed: seq<Pod>, before: Cache, after: Cache, secret: Option<map<string, string>>) {
    forall p | p in listed && Usable(p) && !Kept(p, before) ::
      p.name in after && secret.Some? && after[p.name].client.password == PasswordIn(secret.value)
  }

  /** The first loop, as far as it got. */
  ghost predicate UpTo(some: seq<Pod>, before: Cache, now: Cache, secret: Option<map<string, string>>) {
    Refreshed(some, before, now) && FreshPasswords(some, before, now, secret)
  }

  /** The first loop broken off after some pods; the others' entries are as they were. */
  ghost predicate PartlyRefreshed(listed: seq<Pod>, before: Cache, now: Cache, secret: Option<map<string, string>>) {
    exists i | 0 <= i <= |listed| :: UpTo(listed[..i], before, now, secret)
  }

  lemma NoneRefreshed(listed: seq<Pod>, cache: Cache, secret: Option<map<string, string>>)
    ensures PartlyRefreshed(listed, cache, cache, secret)
  {
    assert UpTo(listed[..0], cache, cache, secret);
  }

  /** Every usable pod has an entry for its current address. */
  ghost predicate Current(listed: seq<Pod>, cache: Cache) {
    forall p | p in listed && Usable(p) :: Kept(p, cache)
  }

  /** Every usable pod has a client for its current address; entries of other names are as before. */
  ghost predicate Refreshed(listed: seq<Pod>, before: Cache, after: Cache) {
    && (forall p | p in listed && Usable(p) :: p.name in after && after[p.name].ip == p.ip)
    && (forall p | p in listed && Usable(p) && Kept(p, before) :: after[p.name] == before[p.name])
    && (forall n | !NamesUsable(listed, n) :: (n in after <==> n in before) && (n in after ==> after[n] == before[n]))
  }

  /**
   * The cache agrees with the listing: usable pods have clients for their current address,
   * only listed pods have entries, and the entries of pods that are not usable are untouched.
   */
  ghost predicate Coherent(listed: seq<Pod>, before: Cache, after: Cache) {
    && (forall p | p in listed && Usable(p) ::
          p.name in after && after[p.name].ip == p.ip && after[p.name].client.baseURL == UrlOf(p.ip))
    && (forall p | p in listed && Usable(p) && Kept(p, before) :: after[p.name] == before[p.name])
    && (forall n | n in after :: Names(listed, n))
    && (forall n | Names(listed, n) && !NamesUsable(listed, n) ::
          (n in after <==> n in before) && (n in after ==> after[n] == before[n]))
  }

  /**
   * So a ready pod with an address has a client for it, and an entry that was not there before
   * is that of a ready pod with an address.
   */
  lemma NewEntriesAreUsable(listed: seq<Pod>, before: Cache, after: Cache, n: string)
    requires Coherent(listed, before, after) && UniqueNames(listed)
    ensures forall p | p in listed && p.ready && p.ip != "" :: p.name in after && after[p.name].ip == p.ip
    ensures n in after && !(n in before && after[n] == before[n]) ==>
              exists p | p in listed :: p.name == n && p.ready && p.ip != "" && after[n].ip == p.ip
  {
  }

  /**
   * Addresses are tracked, passwords are not: a usable pod's client has the password now stored
   * iff its entry was not kept or the kept client had it already.
   */
  lemma PasswordCurrentIff(listed: seq<Pod>, before: Cache, after: Cache, secret: map<string, string>, p: Pod)
    requires Coherent(listed, before, after) && FreshPasswords(listed, before, after, Some(secret))
    requires p in listed && Usable(p)
    ensures after[p.name].client.password == PasswordIn(secret) <==>
              !Kept(p, before) || before[p.name].client.password == PasswordIn(secret)
  {
  }

  function SecretKey(key: ClusterKey, spec: Spec): ObjectKey {
    ObjectKey(ApiSecret, key.namespace,
              if spec.config.Some? && spec.config.value.secretRef.Some? then spec.config.value.secretRef.value.name
              else key.name + "-api-password")
  }

  /** The API secret as stored, if it is there and has the key a reference asks for. */
  function SecretOf(objects: map<ObjectKey, Object>, key: ClusterKey, spec: Spec): Option<map<string, string>> {
    var k := SecretKey(key, spec);
    if k in objects && objects[k].content.Data?
       && (spec.config.Some? && spec.config.value.secretRef.Some? ==>
             spec.config.value.secretRef.value.key in objects[k].content.data)
    then Some(objects[k].content.data)
    else None
  }

  function PasswordIn(data: map<string, string>): string {
    if "password" in data then data["password"] else ""
  }

  /**
   * The pods are started with the value at the referenced key.  A client made by a refresh logs
   * in with it iff the secret holds it at "password" too, or it is empty and that key is absent.
   */
  lemma ReferencedPasswordIff(listed: seq<Pod>, before: Cache, after: Cache, objects: map<ObjectKey, Object>,
                              key: ClusterKey, spec: Spec, p: Pod)
    requires FreshPasswords(listed, before, after, SecretOf(objects, key, spec))
    requires p in listed && Usable(p) && !Kept(p, before)
    requires spec.config.Some? && spec.config.value.secretRef.Some?
    ensures p.name in after && SecretOf(objects, key, spec).Some?
    ensures var data, ref := SecretOf(objects, key, spec).value, spec.config.value.secretRef.value;
            after[p.name].client.password == data[ref.key] <==>
              ("password" in data && data["password"] == data[ref.key]) || ("password" !in data && data[ref.key] == "")
  {
  }

  /** A secret that passes every check and leaves the operator without the password. */
  lemma ReferencedKeyIsIgnored(key: ClusterKey, spec: Spec)
    requires spec.config.Some? && spec.config.value.secretRef == Some(SecretRef("pihole", "token"))
    ensures var secret := Object(Data(map["token" := "t0p"]), None, 1, 0, false);
            var objects := map[ObjectKey(ApiSecret, key.namespace, "pihole") := secret];
            SecretOf(objects, key, spec) == Some(map["token" := "t0p"]) && PasswordIn(map["token" := "t0p"]) == ""
  {
  }

  lemma NamesUsableOneMore(some: seq<Pod>, p: Pod, n: string)
    ensures NamesUsable(some + [p], n) <==> NamesUsable(some, n) || (Usable(p) && p.name == n)
  {
    if q :| q in some && q.name == n && Usable(q) {
      assert q in some + [p];
    }
    assert p in some + [p];
  }

  /** One more listed pod: a usable one has its entry set unless it is right already. */
  lemma RefreshedOneMore(some: seq<Pod>, p: Pod, before: Cache, cache: Cache, after: Cache)
    requires UniqueNames(some + [p]) && Refreshed(some, before, cache)
    requires !Usable(p) ==> after == cache
    requires Usable(p) ==> p.name in after && after[p.name].ip == p.ip && after == cache[p.name := after[p.name]]
    requires Usable(p) && p.name in cache && cache[p.name].ip == p.ip ==> after == cache
    ensures Refreshed(some + [p], before, after)
  {
    forall n ensures NamesUsable(some + [p], n) <==> NamesUsable(some, n) || (Usable(p) && p.name == n) {
      NamesUsableOneMore(some, p, n);
    }
    forall q | q in some && q.name == p.name ensures q == p {
      assert q in some + [p] && p in some + [p];
    }
    if Usable(p) && NamesUsable(some, p.name) {
      assert p in some;
    }
  }

  /** A pod whose turn finds no right entry had none at the start. */
  lemma NotKeptBefore(some: seq<Pod>, p: Pod, before: Cache, cache: Cache)
    requires UniqueNames(some + [p]) && Refreshed(some, before, cache) && Usable(p) && !Kept(p, cache)
    ensures !Kept(p, before)
  {
    forall q | q in some && q.name == p.name ensures q == p {
      assert q in some + [p] && p in some + [p];
    }
    assert !NamesUsable(some, p.name);
  }

  lemma PasswordsOneMore(some: seq<Pod>, p: Pod, before: Cache, cache: Cache, after: Cache, secret: Option<map<string, string>>)
    requires UniqueNames(some + [p]) && Refreshed(some, before, cache) && FreshPasswords(some, before, cache, secret)
    requires !Usable(p) || Kept(p, cache) ==> after == cache
    requires Usable(p) && !Kept(p, cache) ==>
               && p.name in after && after == cache[p.name := after[p.name]]
               && secret.Some? && after[p.name].client.password == PasswordIn(secret.value)
    ensures FreshPasswords(some + [p], before, after, secret)
  {
    forall q | q in some && q.name == p.name ensures q == p {
      assert q in some + [p] && p in some + [p];
    }
    if Usable(p) && p !in some {
      assert !NamesUsable(some, p.name);
    }
  }

  lemma RefreshedThenDropped(listed: seq<Pod>, before: Cache, refreshed: Cache, after: Cache, secret: Option<map<string, string>>)
    requires Refreshed(listed, before, refreshed) && FreshPasswords(listed, before, refreshed, secret)
    requires forall n :: n in after <==> n in refreshed && Names(listed, n)
    requires forall n | n in after :: after[n] == refreshed[n]
    requires forall n | n in after :: after[n].client.baseURL == UrlOf(after[n].ip)
    ensures Coherent(listed, before, after) && FreshPasswords(listed, before, after, secret)
  {
    forall p | p in listed ensures Names(listed, p.name) {
    }
  }

  /** The names of the cache that the replica test selects. */
  function SelectedNames(cache: Cache, cluster: string): set<string> {
    set n | n in cache && HasPrefix(n, ReadOnlyPrefix(cluster))
  }

  ghost function SelectedUrls(cache: Cache, cluster: string): set<Url> {
    set n | n in SelectedNames(cache, cluster) :: cache[n].client.baseURL
  }

  ghost function UrlUnder(cache: Cache, name: string): Url {
    if name in cache then cache[name].client.baseURL else ""
  }

  /** The servers and addresses an ad-list run is about, as the cache has them. */
  ghost function PlanWith(cache: Cache, cluster: string, adLists: seq<Address>): Plan {
    Plan(UrlUnder(cache, ReadWritePod(cluster)), SelectedUrls(cache, cluster), set a | a in adLists)
  }

  class Reconciler {
    const w: World
    var apiClients: Cache
    var currentClusterName: string
    ghost var created: set<APIClient>

    /** No client leaks: every client made is in the cache or was closed. */
    ghost predicate Valid()
      reads this`apiClients, this`created, w`closed
    {
      && (forall n | n in apiClients ::
            apiClients[n].client in created && apiClients[n].client.baseURL == UrlOf(apiClients[n].ip))
      && (forall c | c in created && c !in w.closed :: exists n | n in apiClients :: apiClients[n].client == c)
    }

    constructor (w: World)
      ensures Valid() && this.w == w && apiClients == map[] && created == {}
    {
      this.w := w;
      apiClients, currentClusterName := map[], "";
      created := {};
    }

    /* ------------------------------ client cache ------------------------------ */

    /** The secret that holds the API password. */
    method GetAPISecret(cluster: PiHoleCluster) returns (secret: Option<map<string, string>>)
      modifies w`failures
      ensures w.failures >= old(w.failures)
      ensures secret == if w.failures == old(w.failures) then SecretOf(w.objects, cluster.key, cluster.spec) else None
    {
      var found := w.GetObject(SecretKey(cluster.key, cluster.spec));
      secret := None;
      if found.Present? && found.obj.content.Data? {
        var config := cluster.spec.config;
        if config.None? || config.value.secretRef.None? || config.value.secretRef.value.key in found.obj.content.data {
          secret := Some(found.obj.content.data);
        }
      }
    }

    /** A client that was just made, not in the cache yet, is all that keeps `Valid` from holding. */
    ghost predicate ValidBut(client: APIClient)
      reads this`apiClients, this`created, w`closed
    {
      && client in created
      && (forall n | n in apiClients ::
            apiClients[n].client in created && apiClients[n].client.baseURL == UrlOf(apiClients[n].ip))
      && (forall c | c in created && c !in w.closed && c != client :: exists n | n in apiClients :: apiClients[n].client == c)
    }

    /** A client for the pod's address, with the password stored under the default key whatever key a reference names. */
    method NewClient(p: Pod, cluster: PiHoleCluster) returns (client: Option<APIClient>)
      requires Valid()
      modifies this`created, w`failures
      ensures client.Some? ==>
                && created == old(created) + {client.value} && fresh(client.value) && ValidBut(client.value)
                && client.value.baseURL == UrlOf(p.ip) && w.failures == old(w.failures)
                && SecretOf(w.objects, cluster.key, cluster.spec).Some?
                && client.value.password == PasswordIn(SecretOf(w.objects, cluster.key, cluster.spec).value)
      ensures client.None? ==> Valid() && created == old(created)
                               && (w.failures > old(w.failures) || SecretOf(w.objects, cluster.key, cluster.spec).None?)
      ensures w.failures >= old(w.failures)
    {
      client := None;
      var secret := GetAPISecret(cluster);
      if secret.Some? {
        var made := new APIClient(UrlOf(p.ip), PasswordIn(secret.value));
        Register(made);
        client := Some(made);
      }
    }

    /** Every client is accounted for from the moment it is made. */
    ghost method Register(client: APIClient)
      requires Valid() && client !in created
      modifies this`created
      ensures created == old(created) + {client} && ValidBut(client)
    {
      var before := created;
      created := created + {client};
      forall c | c in created && c !in w.closed && c != client
        ensures exists n | n in apiClients :: apiClients[n].client == c
      {
        assert c in before;
        var n :| n in apiClients && apiClients[n].client == c;
      }
    }

    /** A usable pod's turn. */
    method RefreshClient(p: Pod, cluster: PiHoleCluster) returns (ok: bool)
      requires Valid() && Usable(p)
      modifies this`apiClients, this`created, w`closed, w`failures
      ensures Valid() && old(created) <= created && fresh(created - old(created)) && old(w.closed) <= w.closed
      ensures ok ==> p.name in apiClients && apiClients[p.name].ip == p.ip
                     && apiClients == old(apiClients)[p.name := apiClients[p.name]] && w.failures == old(w.failures)
      ensures Kept(p, old(apiClients)) ==> ok && apiClients == old(apiClients)
      ensures ok && !Kept(p, old(apiClients)) ==>
                && SecretOf(w.objects, cluster.key, cluster.spec).Some?
                && apiClients[p.name].client.password == PasswordIn(SecretOf(w.objects, cluster.key, cluster.spec).value)
      ensures !ok ==> w.failures > old(w.failures) || SecretOf(w.objects, cluster.key, cluster.spec).None?
      ensures !ok ==> apiClients == old(apiClients)
      ensures w.failures >= old(w.failures)
    {
      var known := p.name in apiClients;
      if known && apiClients[p.name].ip == p.ip {
        return true;
      }
      if known {
        Retire(p.name);
      }
      var client := NewClient(p, cluster);
      if client.None? {
        return false;
      }
      Install(p.name, client.value, p.ip);
      ok := true;
    }

    /** Closes a client that stays in the cache until it is replaced. */
    method Retire(name: string)
      requires Valid() && name in apiClients
      modifies w`closed
      ensures Valid() && w.closed == old(w.closed) + {apiClients[name].client}
    {
      apiClients[name].client.Close(w);
    }

    /** Puts a new client in the place of one that was closed, or in a free place. */
    method Install(name: string, client: APIClient, ip: string)
      requires ValidBut(client) && client.baseURL == UrlOf(ip)
      requires name in apiClients ==> apiClients[name].client in w.closed
      modifies this`apiClients
      ensures Valid()
      ensures apiClients == old(apiClients)[name := ApiClientEntry(client, ip)]
    {
      ghost var before := apiClients;
      apiClients := apiClients[name := ApiClientEntry(client, ip)];
      forall c | c in created && c !in w.closed
        ensures exists n | n in apiClients :: apiClients[n].client == c
      {
        if c == client {
          assert apiClients[name].client == c;
        } else {
          var n :| n in before && before[n].client == c;
          assert apiClients[n].client == c;
        }
      }
    }

    /** One turn of the first loop: pods that are not usable are skipped. */
    method RefreshTurn(p: Pod, cluster: PiHoleCluster, ghost some: seq<Pod>, ghost before: Cache, ghost secret: Option<map<string, string>>)
      returns (ok: bool)
      requires Valid() && UniqueNames(some + [p]) && secret == SecretOf(w.objects, cluster.key, cluster.spec)
      requires UpTo(some, before, apiClients, secret)
      modifies this`apiClients, this`created, w`closed, w`failures
      ensures Valid() && old(created) <= created && fresh(created - old(created)) && old(w.closed) <= w.closed
      ensures ok ==> UpTo(some + [p], before, apiClients, secret)
      ensures ok ==> w.failures == old(w.failures)
      ensures !ok ==> w.failures > old(w.failures) || secret.None?
      ensures !ok ==> Usable(p) && !Kept(p, before) && apiClients == old(apiClients)
      ensures w.failures >= old(w.failures)
    {
      ok := true;
      if Usable(p) {
        ok := RefreshClient(p, cluster);
      }
      if !ok {
        NotKeptBefore(some, p, before, old(apiClients));
      } else {
        RefreshedOneMore(some, p, before, old(apiClients), apiClients);
        PasswordsOneMore(some, p, before, old(apiClients), apiClients, secret);
      }
    }

    /** The first loop: a client for every ready pod with an address. */
    method RefreshClients(listed: seq<Pod>, cluster: PiHoleCluster, ghost secret: Option<map<string, string>>) returns (ok: bool)
      requires Valid() && UniqueNames(listed) && secret == SecretOf(w.objects, cluster.key, cluster.spec)
      modifies this`apiClients, this`created, w`closed, w`failures
      ensures Valid() && old(created) <= created && fresh(created - old(created)) && old(w.closed) <= w.closed
      ensures ok ==> UpTo(listed, old(apiClients), apiClients, secret)
      ensures ok ==> w.failures == old(w.failures)
      ensures !ok ==> w.failures > old(w.failures) || secret.None?
      ensures !ok ==> !Current(listed, old(apiClients)) && PartlyRefreshed(listed, old(apiClients), apiClients, secret)
      ensures w.failures >= old(w.failures)
    {
      for i := 0 to |listed|
        invariant Valid() && old(created) <= created && fresh(created - old(created)) && old(w.closed) <= w.closed
        invariant UpTo(listed[..i], old(apiClients), apiClients, secret) && w.failures == old(w.failures)
      {
        PrefixOneMore(listed, i);
        ok := RefreshTurn(listed[i], cluster, listed[..i], old(apiClients), secret);
        if !ok {
          return;
        }
      }
      assert listed[..|listed|] == listed;
      ok := true;
    }

    /** The second loop: no client is kept for a pod that is not listed. */
    method DropStaleClients(listed: seq<Pod>)
      requires Valid()
      modifies this`apiClients, w`closed
      ensures Valid() && old(w.closed) <= w.closed
      ensures forall n :: n in apiClients <==> n in old(apiClients) && Names(listed, n)
      ensures forall n | n in apiClients :: apiClients[n] == old(apiClients)[n]
    {
      var todo := apiClients.Keys;
      while todo != {}
        invariant todo <= apiClients.Keys <= old(apiClients).Keys
        invariant Valid() && old(w.closed) <= w.closed
        invariant forall n | n in old(apiClients) && n !in todo :: n in apiClients <==> Names(listed, n)
        invariant forall n | n in apiClients :: apiClients[n] == old(apiClients)[n]
        decreases todo
      {
        var name :| name in todo;
        todo := todo - {name};
        var found := false;
        for i := 0 to |listed|
          invariant !found && forall j | 0 <= j < i :: listed[j].name != name
        {
          if listed[i].name == name {
            found := true;
            break;
          }
        }
        if !found {
          Drop(name);
        }
      }
    }

    method Drop(name: string)
      requires Valid() && name in apiClients
      modifies this`apiClients, w`closed
      ensures Valid() && w.closed == old(w.closed) + {old(apiClients)[name].client}
      ensures apiClients == old(apiClients) - {name}
    {
      var client := apiClients[name].client;
      ghost var before := apiClients;
      apiClients := apiClients - {name};
      client.Close(w);
      forall c | c in created && c !in w.closed
        ensures exists n | n in apiClients :: apiClients[n].client == c
      {
        var n :| n in before && before[n].client == c;
        assert apiClients[n].client == c;
      }
    }

    /** Brings the cache in line with the pods the API server lists for the namespace. */
    method SyncAPIClients(cluster: PiHoleCluster) returns (ok: bool)
      requires Valid() && UniqueNames(PodsIn(w.pods, cluster.key.namespace))
      modifies this`apiClients, this`created, w`closed, w`failures
      ensures Valid() && old(created) <= created && fresh(created - old(created)) && old(w.closed) <= w.closed
      ensures ok ==> Coherent(PodsIn(w.pods, cluster.key.namespace), old(apiClients), apiClients)
      ensures ok ==> FreshPasswords(PodsIn(w.pods, cluster.key.namespace), old(apiClients), apiClients,
                                    SecretOf(w.objects, cluster.key, cluster.spec))
      ensures ok ==> w.failures == old(w.failures)
      ensures !ok ==> w.failures > old(w.failures) || SecretOf(w.objects, cluster.key, cluster.spec).None?
      ensures !ok && Current(PodsIn(w.pods, cluster.key.namespace), old(apiClients)) ==> apiClients == old(apiClients)
      ensures !ok ==> PartlyRefreshed(PodsIn(w.pods, cluster.key.namespace), old(apiClients), apiClients,
                                      SecretOf(w.objects, cluster.key, cluster.spec))
      ensures w.failures >= old(w.failures)
    {
      ghost var secret := SecretOf(w.objects, cluster.key, cluster.spec);
      var listed := w.ListPods(cluster.key.namespace);
      if listed.None? {
        NoneRefreshed(PodsIn(w.pods, cluster.key.namespace), apiClients, secret);
        return false;
      }
      ok := RefreshClients(listed.value, cluster, secret);
      if ok {
        ghost var refreshed := apiClients;
        DropStaleClients(listed.value);
        RefreshedThenDropped(listed.value, old(apiClients), refreshed, apiClients, secret);
      }
    }

    function ReadWriteName(): string
      reads this`currentClusterName
    {
      ReadWritePod(currentClusterName)
    }

    method ReadWriteAPIClient() returns (client: Option<APIClient>)
      ensures client == if ReadWriteName() in apiClients then Some(apiClients[ReadWriteName()].client) else None
    {
      client := if ReadWriteName() in apiClients then Some(apiClients[ReadWriteName()].client) else None;
    }

    /** The names the prefix test selects. */
    function ReplicaNames(): set<string>
      reads this`apiClients, this`currentClusterName
    {
      SelectedNames(apiClients, currentClusterName)
    }

    /** One client per selected name, in no particular order; none at all is an error. */
    method ReadOnlyAPIClients() returns (clients: Option<seq<APIClient>>, ghost names: seq<string>)
      requires Valid()
      ensures clients.None? <==> ReplicaNames() == {}
      ensures forall n :: n in names <==> n in ReplicaNames()
      ensures forall i, j | 0 <= i < j < |names| :: names[i] != names[j]
      ensures clients.Some? ==> |clients.value| == |names|
                                && forall i | 0 <= i < |names| :: names[i] in apiClients && clients.value[i] == apiClients[names[i]].client
      ensures clients.Some? ==> UrlsOf(clients.value) == ReplicaUrls() && forall c | c in clients.value :: c in created
    {
      var prefix := ReadOnlyPrefix(currentClusterName);
      var todo := apiClients.Keys;
      var found: seq<APIClient> := [];
      names := [];
      while todo != {}
        invariant todo <= apiClients.Keys
        invariant forall n :: n in names <==> n in ReplicaNames() && n !in todo
        invariant forall i, j | 0 <= i < j < |names| :: names[i] != names[j]
        invariant |found| == |names| && forall i | 0 <= i < |names| :: names[i] in apiClients && found[i] == apiClients[names[i]].client
        decreases todo
      {
        var name :| name in todo;
        todo := todo - {name};
        if HasPrefix(name, prefix) {
          found := found + [apiClients[name].client];
          names := names + [name];
        }
      }
      UrlsOfNames(apiClients, names, found);
      if |found| == 0 {
        return None, names;
      }
      assert names[0] in ReplicaNames();
      clients := Some(found);
    }

    ghost function ReplicaUrls(): set<Url>
      reads this`apiClients, this`currentClusterName
    {
      SelectedUrls(apiClients, currentClusterName)
    }

    /** The servers and addresses an ad-list run is about. */
    ghost function PlanFor(adLists: seq<Address>): Plan
      reads this`apiClients, this`currentClusterName
    {
      PlanWith(apiClients, currentClusterName, adLists)
    }

    /** Every replica in turn. */
    method SyncEachReplica(target: set<Address>, ghost p: Plan) returns (ok: bool, ghost trace: seq<Event>)
      requires Valid() && p.ros == ReplicaUrls()
      requires SettledServers(p, w.lists, target, {p.rw}) && target == Target(p, w.lists)
      modifies created`sessionID, created`validity, w`failures, w`lists, w`events
      ensures w.events == old(w.events) + trace
      ensures OnCourse(p, old(w.lists), trace, w.lists, if ok then p.Servers() else {p.rw})
      ensures ok ==> forall u | u in p.ros :: GravityRun(u) in trace
      ensures ok <==> w.failures == old(w.failures) && ReplicaNames() != {}
      ensures w.failures >= old(w.failures)
    {
      trace := [];
      StartOnCourse(p, w.lists, {p.rw});
      var clients, names := ReadOnlyAPIClients();
      if clients.None? {
        return false, trace;
      }
      assert UrlsOf(clients.value) == p.ros && p.Servers() == {p.rw} + p.ros && {p.rw} + {} == {p.rw};
      ok, trace := ReconcileReplicas(w, clients.value, target, p);
    }

    /** The read-only half of a run: what the read-write server has now goes to every replica. */
    method SyncReplicas(rw: APIClient, ghost p: Plan) returns (ok: bool, ghost trace: seq<Event>)
      requires Valid() && rw in created && rw.baseURL == p.rw && p.ros == ReplicaUrls()
      requires SettledServers(p, w.lists, Target(p, w.lists), {p.rw})
      modifies created`sessionID, created`validity, w`failures, w`lists, w`events
      ensures w.events == old(w.events) + trace
      ensures OnCourse(p, old(w.lists), trace, w.lists, if ok then p.Servers() else {p.rw})
      ensures ok ==> forall u | u in p.ros :: GravityRun(u) in trace
      ensures ok <==> w.failures == old(w.failures) && ReplicaNames() != {}
      ensures w.failures >= old(w.failures)
    {
      trace := [];
      StartOnCourse(p, w.lists, {p.rw});
      var auth := w.Authority();
      var final := rw.GetAdLists(w, auth);
      if final.None? {
        return false, trace;
      }
      AddressesListed(final.value, w.lists[rw.baseURL]);
      ok, trace := SyncEachReplica(AddressesOf(final.value), p);
    }

    /**
     * One ad-list run: whatever fails, its calls are a permitted trace; when it succeeds, all
     * servers are in the state the goal fixes and gravity ran on each.
     */
    method SyncAdLists(adLists: seq<Address>, ghost p: Plan) returns (ok: bool, ghost trace: seq<Event>)
      requires Valid() && p == PlanFor(adLists)
      modifies created`sessionID, created`validity, w`failures, w`lists, w`events
      ensures w.events == old(w.events) + trace
      ensures Permits(p, old(w.lists), trace) && w.lists == ApplyAll(old(w.lists), trace)
      ensures ok ==> Converged(p, w.lists) && w.lists == Goal(p, old(w.lists))
      ensures ok ==> forall u | u in p.Servers() :: GravityRun(u) in trace
      ensures ok <==> w.failures == old(w.failures) && ReadWriteName() in apiClients && ReplicaNames() != {}
      ensures w.failures >= old(w.failures)
    {
      ghost var fleet := w.lists;
      trace := [];
      assert ApplyAll(fleet, trace) == fleet;
      var rw := ReadWriteAPIClient();
      if rw.None? {
        return false, trace;
      }
      var crd := AddressSet(adLists);
      ok, trace := ReconcileServer(w, rw.value, crd, true, p);
      if !ok {
        return;
      }
      RunKeepsTarget(p, fleet, trace);
      ghost var more;
      ok, more := SyncReplicas(rw.value, p);
      AppendTo(p, fleet, trace, ApplyAll(fleet, trace), more, w.lists);
      Reassociate(old(w.events), trace, more);
      trace := trace + more;
      if ok {
        GoalReached(p, fleet, trace);
      }
    }

    /* ------------------------------ configuration sync ------------------------------ */

    method IsPodSynced(cluster: PiHoleCluster, name: string, uid: string) returns (synced: bool)
      ensures synced <==> SyncedPod(name, uid) in cluster.status.syncedPods
    {
      var ledger := cluster.status.syncedPods;
      for i := 0 to |ledger|
        invariant SyncedPod(name, uid) !in ledger[..i]
      {
        if ledger[i].name == name && ledger[i].uid == uid {
          assert ledger[i] == SyncedPod(name, uid);
          return true;
        }
      }
      assert ledger[..|ledger|] == ledger;
      synced := false;
    }

    method AddPodSynced(cluster: PiHoleCluster, name: string, uid: string)
      modifies cluster`status
      ensures var ledger, s := old(cluster.status.syncedPods), SyncedPod(name, uid);
              cluster.status == old(cluster.status).(syncedPods := if s in ledger then ledger else ledger + [s])
    {
      var synced := IsPodSynced(cluster, name, uid);
      if !synced {
        cluster.status := cluster.status.(syncedPods := cluster.status.syncedPods + [SyncedPod(name, uid)]);
      }
    }

    /** One read-only client's turn: a failed upload is only logged. */
    method UploadTurn(cluster: PiHoleCluster, client: APIClient, podMap: map<Url, Pod>, data: Blob,
                      ghost before: seq<SyncedPod>, ghost uploads: seq<Event>)
      returns (ghost longer: seq<Event>)
      requires Grown(before, cluster.status.syncedPods, podMap, data, uploads)
      modifies client`sessionID, client`validity, cluster`status, w`failures, w`lists, w`events
      ensures longer == uploads || (client.baseURL in podMap && longer == uploads + [Uploaded(client.baseURL, data)])
      ensures longer == uploads ==> w.events == old(w.events)
      ensures longer != uploads ==> w.events == old(w.events) + [Uploaded(client.baseURL, data)]
      ensures |longer| + (w.failures - old(w.failures)) == |uploads| + if client.baseURL in podMap then 1 else 0
      ensures OnlyAt(old(w.lists), w.lists, {client.baseURL})
      ensures cluster.status == old(cluster.status).(syncedPods := cluster.status.syncedPods)
      ensures old(cluster.status.syncedPods) <= cluster.status.syncedPods
      ensures Grown(before, cluster.status.syncedPods, podMap, data, longer)
      ensures client.baseURL in podMap && w.failures == old(w.failures) ==> Entry(podMap[client.baseURL]) in cluster.status.syncedPods
      ensures w.failures >= old(w.failures)
    {
      longer := uploads;
      if client.baseURL in podMap {
        var pod := podMap[client.baseURL];
        var auth := w.Authority();
        var accepted, cancelled := w.Transfer();
        var ok := client.UploadTeleporter(w, data, auth, accepted, cancelled);
        if ok {
          GrowsByOne(before, cluster.status.syncedPods, podMap, data, uploads, client.baseURL);
          longer := uploads + [Uploaded(client.baseURL, data)];
          AddPodSynced(cluster, pod.name, pod.uid);
        }
      }
    }

    /** Every read-only client whose pod is in the map is tried, whatever becomes of the others. */
    method UploadAll(cluster: PiHoleCluster, clients: seq<APIClient>, podMap: map<Url, Pod>, data: Blob)
      returns (ghost uploads: seq<Event>)
      modifies clients`sessionID, clients`validity, cluster`status, w`failures, w`lists, w`events
      ensures w.events == old(w.events) + uploads && UploadsTo(UrlsOf(clients), podMap, data, uploads)
      ensures OnlyAt(old(w.lists), w.lists, UrlsOf(clients))
      ensures cluster.status == old(cluster.status).(syncedPods := cluster.status.syncedPods)
      ensures Grown(old(cluster.status.syncedPods), cluster.status.syncedPods, podMap, data, uploads)
      ensures |uploads| + (w.failures - old(w.failures)) == |set i | 0 <= i < |clients| && clients[i].baseURL in podMap|
      ensures |NotSynced(UrlsOf(clients), podMap, cluster.status.syncedPods)| <= w.failures - old(w.failures)
      ensures w.failures >= old(w.failures)
    {
      uploads := [];
      for i := 0 to |clients|
        invariant w.events == old(w.events) + uploads && UploadsTo(UrlsOf(clients), podMap, data, uploads)
        invariant OnlyAt(old(w.lists), w.lists, UrlsOf(clients))
        invariant cluster.status == old(cluster.status).(syncedPods := cluster.status.syncedPods)
        invariant Grown(old(cluster.status.syncedPods), cluster.status.syncedPods, podMap, data, uploads)
        invariant TurnsTaken(clients[..i], podMap, cluster.status.syncedPods, |uploads|, w.failures - old(w.failures))
        invariant w.failures >= old(w.failures)
      {
        ghost var more, failures, ledger := uploads, w.failures, cluster.status.syncedPods;
        assert clients[i] in clients;
        more := UploadTurn(cluster, clients[i], podMap, data, old(cluster.status.syncedPods), uploads);
        Reassociate(old(w.events), uploads, [Uploaded(clients[i].baseURL, data)]);
        TurnTaken(clients[..i], clients[i], podMap, ledger, cluster.status.syncedPods, |uploads|, |more|,
                  failures - old(w.failures), w.failures - old(w.failures));
        PrefixOneMore(clients, i);
        uploads := more;
      }
      assert clients[..|clients|] == clients;
    }

    /** Whether some pod of the map is missing from the ledger. */
    method AnyUnsynced(cluster: PiHoleCluster, podMap: map<Url, Pod>) returns (due: bool)
      ensures due <==> NeedsSync(podMap, cluster.status.syncedPods)
    {
      due := false;
      var todo := podMap.Keys;
      while todo != {}
        invariant todo <= podMap.Keys
        invariant due <==> exists u | u in podMap && u !in todo :: Entry(podMap[u]) !in cluster.status.syncedPods
        decreases todo
      {
        var u :| u in todo;
        todo := todo - {u};
        var synced := IsPodSynced(cluster, podMap[u].name, podMap[u].uid);
        assert !synced ==> Entry(podMap[u]) !in cluster.status.syncedPods;
        due := due || !synced;
      }
    }

    /** The pods whose sync the ledger is checked for. */
    ghost function Replicas(cluster: PiHoleCluster): seq<Pod>
      reads w`pods
    {
      PodsOf(w.pods, cluster.key, ReadOnly)
    }

    /** What the cache and the listing fix for the sync of one cluster. */
    ghost function SceneOf(cluster: PiHoleCluster, known: set<SyncedPod>): Scene
      reads w`pods, this`apiClients, this`currentClusterName
    {
      Scene(Replicas(cluster), ReadWriteName(), ReadWriteUrl(), ReplicaUrls(),
            ReadWriteName() in apiClients && ReplicaNames() != {}, known)
    }

    /** The sync is for the cluster fetched last, and this is its scene. */
    ghost predicate Set(cluster: PiHoleCluster, s: Scene)
      reads w`pods, this`apiClients, this`currentClusterName
    {
      currentClusterName == cluster.key.name && s == SceneOf(cluster, s.known)
    }

    /** How many of the selected clients have their pod in the map. */
    ghost function Selected(podMap: map<Url, Pod>): nat
      reads this`apiClients, this`currentClusterName
    {
      |set n | n in ReplicaNames() && apiClients[n].client.baseURL in podMap|
    }

    /** The uploads to every selected replica; without one there are none. */
    method Spread(cluster: PiHoleCluster, podMap: map<Url, Pod>, data: Blob) returns (ok: bool, ghost uploads: seq<Event>)
      requires Valid()
      modifies created`sessionID, created`validity, cluster`status, w`failures, w`lists, w`events
      ensures ok <==> ReplicaNames() != {}
      ensures w.events == old(w.events) + uploads && UploadsTo(ReplicaUrls(), podMap, data, uploads)
      ensures OnlyAt(old(w.lists), w.lists, ReplicaUrls())
      ensures !ok ==> uploads == [] && cluster.status == old(cluster.status) && w.lists == old(w.lists) && w.failures == old(w.failures)
      ensures ok ==> LedgerStep(old(cluster.status), cluster.status, podMap, data, uploads)
      ensures ok ==> |NotSynced(ReplicaUrls(), podMap, cluster.status.syncedPods)| <= w.failures - old(w.failures)
      ensures ok ==> |uploads| + (w.failures - old(w.failures)) == Selected(podMap)
      ensures w.failures >= old(w.failures)
    {
      uploads := [];
      var clients, names := ReadOnlyAPIClients();
      if clients.None? {
        return false, uploads;
      }
      uploads := UploadAll(cluster, clients.value, podMap, data);
      NamesCount(apiClients, names, clients.value, podMap);
      assert NamedInMap(apiClients, names, podMap) == set n | n in ReplicaNames() && apiClients[n].client.baseURL in podMap;
      cluster.status := cluster.status.(configSynced := true);
      ok := true;
    }

    /** The download from the read-write pod and the uploads to the replicas. */
    method Distribute(cluster: PiHoleCluster, podMap: map<Url, Pod>, ghost s: Scene)
      returns (ok: bool, ghost calls: seq<Event>, ghost data: Blob, ghost uploads: seq<Event>)
      requires Valid() && Set(cluster, s)
      modifies created`sessionID, created`validity, cluster`status, w`failures, w`lists, w`events
      ensures w.events == old(w.events) + calls
      ensures ok ==> calls == [Downloaded(s.pod, s.rw, data)] + uploads && UploadsTo(s.ros, podMap, data, uploads)
      ensures OnlyAt(old(w.lists), w.lists, s.ros)
      ensures !ok && calls == [] ==> ReadWriteName() !in apiClients || w.failures == old(w.failures) + 1
      ensures !ok && calls != [] ==> calls == [Downloaded(s.pod, s.rw, data)] && !s.reached && w.failures == old(w.failures)
      ensures ok ==> LedgerStep(old(cluster.status), cluster.status, podMap, data, uploads)
      ensures !ok ==> cluster.status == old(cluster.status)
      ensures w.failures == old(w.failures) && s.reached ==> ok
      ensures ok ==> |NotSynced(s.ros, podMap, cluster.status.syncedPods)| <= w.failures - old(w.failures)
      ensures ok ==> |uploads| + (w.failures - old(w.failures)) == Selected(podMap)
      ensures w.failures >= old(w.failures) && (!ok ==> w.lists == old(w.lists))
    {
      calls, uploads, data := [], [], "";
      var rw := ReadWriteAPIClient();
      if rw.None? {
        return false, calls, data, uploads;
      }
      var auth := w.Authority();
      var bytes := rw.value.DownloadTeleporter(w, ReadWriteName(), auth);
      if bytes.None? {
        return false, calls, data, uploads;
      }
      data := bytes.value;
      calls := [Downloaded(s.pod, s.rw, data)];
      ok, uploads := Spread(cluster, podMap, bytes.value);
      Reassociate(old(w.events), calls, uploads);
      calls := calls + uploads;
    }

    /** Lists the replicas and compares them with the ledger. */
    method CheckReplicas(cluster: PiHoleCluster, ghost s: Scene)
      returns (due: bool, podMap: Option<map<Url, Pod>>, ghost calls: seq<Event>)
      requires Set(cluster, s)
      modifies w`failures, w`events
      ensures w.events == old(w.events) + calls
      ensures podMap.None? ==> calls == [] && w.failures > old(w.failures)
      ensures podMap.Some? ==> podMap.value == PodMap(s.replicas) && calls == [ReplicasListed(s.replicas)]
      ensures podMap.Some? ==> (due <==> DueOn(s, cluster.status.syncedPods))
      ensures w.failures == old(w.failures) + if podMap.Some? then 0 else 1
    {
      calls, due, podMap := [], false, None;
      var pods := w.ListPodsOf(cluster.key, ReadOnly);
      if pods.Some? {
        calls := [ReplicasListed(pods.value)];
        w.events := w.events + calls;
        var m := BuildPodMap(pods.value);
        podMap := Some(m);
        due := AnyUnsynced(cluster, m);
      }
    }

    /** The configuration sync: distributes when some listed replica is not in the ledger. */
    method TransferConfig(cluster: PiHoleCluster, ghost s: Scene)
      returns (result: SyncResult, ghost calls: seq<Event>, ghost data: Blob, ghost uploads: seq<Event>)
      requires Valid() && Set(cluster, s)
      modifies created`sessionID, created`validity, cluster`status, w`failures, w`lists, w`events
      ensures w.events == old(w.events) + calls
      ensures result.NotRequired? ==> calls == [ReplicasListed(s.replicas)]
      ensures result.Completed? ==> calls == [ReplicasListed(s.replicas)] + ([Downloaded(s.pod, s.rw, data)] + uploads)
                                    && UploadsTo(s.ros, PodMap(s.replicas), data, uploads)
      ensures OnlyAt(old(w.lists), w.lists, s.ros)
      ensures result.Failed? ==> forall e | e in calls :: e == ReplicasListed(s.replicas) || e == Downloaded(s.pod, s.rw, data)
      ensures result.Completed? ==> LedgerStep(old(cluster.status), cluster.status, PodMap(s.replicas), data, uploads)
      ensures !result.Completed? ==> cluster.status == old(cluster.status)
      ensures result.NotRequired? ==> !DueOn(s, old(cluster.status.syncedPods))
      ensures result.Completed? ==> DueOn(s, old(cluster.status.syncedPods))
      ensures w.failures == old(w.failures) && s.reached ==> !result.Failed?
      ensures result.Completed? ==> |NotSynced(s.ros, PodMap(s.replicas), cluster.status.syncedPods)| <= w.failures - old(w.failures)
      ensures result.Completed? ==> |uploads| + (w.failures - old(w.failures)) == Selected(PodMap(s.replicas))
      ensures result.Failed? && |calls| > 1 ==> !s.reached && w.failures == old(w.failures)
      ensures result.Failed? && |calls| == 1 ==> ReadWriteName() !in apiClients || w.failures > old(w.failures)
      ensures result.Failed? && !DueOn(s, old(cluster.status.syncedPods)) ==> calls == [] && w.failures > old(w.failures)
      ensures w.failures >= old(w.failures)
      ensures !result.Completed? ==> w.lists == old(w.lists)
    {
      uploads, data := [], "";
      var due, podMap;
      due, podMap, calls := CheckReplicas(cluster, s);
      if podMap.None? {
        return Failed, calls, data, uploads;
      }
      if !due {
        return NotRequired, calls, data, uploads;
      }
      var ok;
      ghost var more;
      ok, more, data, uploads := Distribute(cluster, podMap.value, s);
      Reassociate(old(w.events), calls, more);
      calls := calls + more;
      result := if ok then Completed else Failed;
    }

    /** The ledgers the API server stores. */
    ghost function Stored(): set<seq<SyncedPod>>
      reads w`clusters
    {
      set k | k in w.clusters :: w.clusters[k].status.syncedPods
    }

    /** No ledger, in memory or stored, has an entry without evidence. */
    ghost predicate Accountable(cluster: PiHoleCluster, known: set<SyncedPod>)
      reads w`events, w`clusters, cluster`status
    {
      AllSound(w.events, cluster.status.syncedPods, Stored(), known)
    }

    /** `TransferConfig`, with what it means for the ledgers. */
    method TransferAccountably(cluster: PiHoleCluster, ghost s: Scene)
      returns (result: SyncResult, ghost calls: seq<Event>)
      requires Valid() && Set(cluster, s) && Accountable(cluster, s.known) && SourceShown(w.events, cluster.key, s.rw)
      modifies created`sessionID, created`validity, cluster`status, w`failures, w`lists, w`events
      ensures Accountable(cluster, s.known)
      ensures w.events == old(w.events) + calls && forall e | e in calls :: IsTransferEvent(e, s)
      ensures result.NotRequired? ==> calls == [ReplicasListed(s.replicas)]
      ensures result.Completed? ==> LedgerGrew(old(cluster.status), cluster.status)
      ensures !result.Completed? ==> cluster.status == old(cluster.status)
      ensures NewServed(s.replicas, calls, old(cluster.status.syncedPods), cluster.status.syncedPods)
      ensures result.NotRequired? ==> !DueOn(s, old(cluster.status.syncedPods))
      ensures result.Completed? ==> DueOn(s, old(cluster.status.syncedPods))
      ensures result.Failed? && !DueOn(s, old(cluster.status.syncedPods)) ==> calls == []
      ensures w.failures == old(w.failures) && s.reached ==> !result.Failed?
      ensures !result.Failed? ==> |NotSynced(s.ros, PodMap(s.replicas), cluster.status.syncedPods)| <= w.failures - old(w.failures)
      ensures w.failures >= old(w.failures)
      ensures !result.Completed? ==> w.lists == old(w.lists)
      ensures OnlyAt(old(w.lists), w.lists, s.ros)
    {
      ghost var data, uploads;
      result, calls, data, uploads := TransferConfig(cluster, s);
      AllSoundStays(old(w.events), calls, old(cluster.status.syncedPods), Stored(), s.known);
      if result.Completed? {
        TransferIsSound(old(w.events), old(cluster.status.syncedPods), cluster.key, s, data, uploads, cluster.status.syncedPods);
      }
    }

    /** A status write: what is stored afterwards is what was stored or what is in memory. */
    method PersistStatus(cluster: PiHoleCluster, ghost known: set<SyncedPod>) returns (ok: bool, ghost calls: seq<Event>)
      requires Accountable(cluster, known)
      modifies w`failures, w`clusters, w`events
      ensures cluster.status == old(cluster.status) && w.lists == old(w.lists)
      ensures Accountable(cluster, known)
      ensures w.events == old(w.events) + calls
      ensures calls == if ok then [StatusWritten(cluster.status.resourcesReady)] else []
      ensures StatusStored(old(w.clusters), w.clusters, cluster.key, cluster.status, ok)
      ensures OnlyStatus(old(w.clusters), w.clusters, cluster.key, cluster.status)
      ensures w.failures >= old(w.failures) && (!ok ==> w.failures > old(w.failures))
    {
      var answers := w.Answers();
      ok := UpdateClusterStatusWithRetry(w, cluster, answers);
      calls := if ok then [StatusWritten(cluster.status.resourcesReady)] else [];
      AllSoundStays(old(w.events), calls, cluster.status.syncedPods, old(Stored()), known);
      assert old(w.events) + calls == w.events;
      forall l | l in Stored()
        ensures l == cluster.status.syncedPods || l in old(Stored())
      {
        var k :| k in w.clusters && w.clusters[k].status.syncedPods == l;
        assert (k == cluster.key && ok) || w.clusters[k] == old(w.clusters)[k];
      }
    }

    /** `SyncAdLists`, with what it means for the read-write server, complete or aborted, and for the ledgers. */
    method SyncListsSafely(cluster: PiHoleCluster, adLists: seq<Address>, ghost s: Scene)
      returns (ok: bool, ghost calls: seq<Event>)
      requires Valid() && Set(cluster, s) && Accountable(cluster, s.known)
      modifies created`sessionID, created`validity, w`failures, w`lists, w`events
      ensures cluster.status == old(cluster.status) && w.clusters == old(w.clusters)
      ensures Accountable(cluster, s.known) && ListsSpared(PlanIn(s, adLists), old(w.lists), w.lists)
      ensures w.events == old(w.events) + calls && AreSyncEvents(calls, cluster.status.resourcesReady, s)
      ensures ok ==> Converged(PlanIn(s, adLists), w.lists)
      ensures forall e | e in calls :: !e.StatusWritten?
      ensures ok <==> w.failures == old(w.failures) && s.reached
      ensures w.failures >= old(w.failures)
    {
      ghost var p := PlanIn(s, adLists);
      ok, calls := SyncAdLists(adLists, p);
      ReadWriteSafety(p, old(w.lists), calls, |calls|);
      RunIsLocal(p, old(w.lists), calls);
      assert calls[..|calls|] == calls;
      CallsAreSyncEvents(p, old(w.lists), calls, cluster.status.resourcesReady, s);
      AllSoundStays(old(w.events), calls, cluster.status.syncedPods, Stored(), s.known);
    }

    method SyncListsAccountably(cluster: PiHoleCluster, adLists: seq<Address>, ghost s: Scene)
      returns (outcome: Outcome, ghost calls: seq<Event>)
      requires Valid() && Set(cluster, s) && Accountable(cluster, s.known)
      modifies created`sessionID, created`validity, cluster`status, w`failures, w`lists, w`events, w`clusters
      ensures Accountable(cluster, s.known)
      ensures w.events == old(w.events) + calls && AreSyncEvents(calls, cluster.status.resourcesReady, s)
      ensures cluster.status == old(cluster.status).(adListSynced := cluster.status.adListSynced)
      ensures OnlyStatus(old(w.clusters), w.clusters, cluster.key, cluster.status)
      ensures !outcome.NilDereference?
      ensures outcome.Done? ==> Converged(PlanIn(s, adLists), w.lists) && cluster.status.adListSynced
      ensures StoredIfWritten(calls, w.clusters, cluster.key, cluster.status)
      ensures outcome.Done? && w.failures == old(w.failures) ==> Stores(w.clusters, cluster.key, cluster.status)
      ensures outcome.Failure? && s.reached ==> w.failures > old(w.failures)
      ensures ListsSpared(PlanIn(s, adLists), old(w.lists), w.lists)
      ensures w.failures >= old(w.failures)
    {
      var ok;
      ok, calls := SyncListsSafely(cluster, adLists, s);
      if !ok {
        return Failure, calls;
      }
      cluster.status := cluster.status.(adListSynced := true);
      ghost var more;
      ok, more := PersistStatus(cluster, s.known);
      MoreSyncEvents(calls, more, cluster.status.resourcesReady, s);
      Reassociate(old(w.events), calls, more);
      calls := calls + more;
      outcome := Done;
    }

    /** The ad-list part, which runs after a completed configuration sync only. */
    method SyncListsIfWanted(cluster: PiHoleCluster, ghost s: Scene) returns (outcome: Outcome, ghost calls: seq<Event>)
      requires Valid() && Set(cluster, s) && Accountable(cluster, s.known) && cluster.spec.sync.Some?
      modifies created`sessionID, created`validity, cluster`status, w`failures, w`lists, w`events, w`clusters
      ensures Accountable(cluster, s.known)
      ensures w.events == old(w.events) + calls && AreSyncEvents(calls, cluster.status.resourcesReady, s)
      ensures cluster.status == old(cluster.status).(adListSynced := cluster.status.adListSynced)
      ensures OnlyStatus(old(w.clusters), w.clusters, cluster.key, cluster.status)
      ensures outcome.NilDereference? <==> LacksConfig(cluster.spec)
      ensures outcome.Done? && ListsWanted(cluster.spec) ==>
                Converged(PlanIn(s, AdListsIn(cluster.spec)), w.lists) && cluster.status.adListSynced
      ensures !ListsWanted(cluster.spec) ==>
                && w.lists == old(w.lists) && calls == [] && !outcome.Failure? && w.failures == old(w.failures)
                && w.clusters == old(w.clusters) && cluster.status == old(cluster.status)
      ensures StoredIfWritten(calls, w.clusters, cluster.key, cluster.status)
      ensures ListsWanted(cluster.spec) && outcome.Done? && w.failures == old(w.failures) ==>
                Stores(w.clusters, cluster.key, cluster.status)
      ensures outcome.Failure? && s.reached ==> w.failures > old(w.failures)
      ensures ListsSpared(PlanIn(s, AdListsIn(cluster.spec)), old(w.lists), w.lists)
      ensures w.failures >= old(w.failures)
    {
      calls := [];
      if !cluster.spec.sync.value.adLists {
        return Done, calls;
      }
      if cluster.spec.config.None? {
        return NilDereference, calls;
      }
      if |cluster.spec.config.value.adLists| == 0 {
        return Done, calls;
      }
      outcome, calls := SyncListsAccountably(cluster, cluster.spec.config.value.adLists, s);
    }

    /** What follows a completed configuration sync: a status write that may fail, then the ad-lists. */
    method AfterTransfer(cluster: PiHoleCluster, ghost s: Scene) returns (outcome: Outcome, ghost calls: seq<Event>)
      requires Valid() && Set(cluster, s) && Accountable(cluster, s.known) && cluster.spec.sync.Some?
      modifies created`sessionID, created`validity, cluster`status, w`failures, w`lists, w`events, w`clusters
      ensures Accountable(cluster, s.known)
      ensures w.events == old(w.events) + calls && AreSyncEvents(calls, cluster.status.resourcesReady, s)
      ensures cluster.status == old(cluster.status).(adListSynced := cluster.status.adListSynced)
      ensures OnlyStatus(old(w.clusters), w.clusters, cluster.key, cluster.status)
      ensures outcome.NilDereference? <==> LacksConfig(cluster.spec)
      ensures outcome.Done? && ListsWanted(cluster.spec) ==>
                Converged(PlanIn(s, AdListsIn(cluster.spec)), w.lists) && cluster.status.adListSynced
      ensures StoredIfWritten(calls, w.clusters, cluster.key, cluster.status)
      ensures StoredFirst(calls, cluster.status) || w.failures > old(w.failures)
      ensures outcome.Done? && w.failures == old(w.failures) ==> Stores(w.clusters, cluster.key, cluster.status)
      ensures outcome.Failure? && s.reached ==>
                ListsWanted(cluster.spec) && w.failures > old(w.failures) + if StoredFirst(calls, cluster.status) then 0 else 1
      ensures ListsSpared(PlanIn(s, AdListsIn(cluster.spec)), old(w.lists), w.lists)
      ensures w.failures >= old(w.failures)
    {
      var ok;
      ghost var more;
      ok, calls := PersistStatus(cluster, s.known);
      ghost var mid, stored := w.clusters, cluster.status;
      outcome, more := SyncListsIfWanted(cluster, s);
      OnlyStatusTwice(old(w.clusters), mid, w.clusters, cluster.key, stored, cluster.status);
      MoreSyncEvents(calls, more, cluster.status.resourcesReady, s);
      Reassociate(old(w.events), calls, more);
      calls := calls + more;
    }

    /** Configuration sync, status, ad-list sync, status. */
    method PerformConfigSync(cluster: PiHoleCluster, ghost s: Scene) returns (outcome: Outcome, ghost calls: seq<Event>)
      requires Valid() && Set(cluster, s) && Accountable(cluster, s.known) && cluster.spec.sync.Some?
      requires SourceShown(w.events, cluster.key, s.rw)
      modifies created`sessionID, created`validity, cluster`status, w`failures, w`lists, w`events, w`clusters
      ensures Accountable(cluster, s.known)
      ensures w.events == old(w.events) + calls && AreSyncEvents(calls, cluster.status.resourcesReady, s)
      ensures StatusLedgerOnly(old(cluster.status), cluster.status)
      ensures NewServed(s.replicas, calls, old(cluster.status.syncedPods), cluster.status.syncedPods)
      ensures OnlyStatus(old(w.clusters), w.clusters, cluster.key, cluster.status)
      ensures !DueOn(s, old(cluster.status.syncedPods)) ==> w.lists == old(w.lists) && forall e | e in calls :: e.ReplicasListed?
      ensures outcome.NilDereference? ==> LacksConfig(cluster.spec) && DueOn(s, old(cluster.status.syncedPods))
      ensures outcome.Done? && DueOn(s, old(cluster.status.syncedPods)) ==> !LacksConfig(cluster.spec)
      ensures outcome.Done? && DueOn(s, old(cluster.status.syncedPods)) && ListsWanted(cluster.spec) ==>
                Converged(PlanIn(s, AdListsIn(cluster.spec)), w.lists) && cluster.status.adListSynced
      ensures outcome.Done? && DueOn(s, old(cluster.status.syncedPods)) ==> cluster.status.configSynced
      ensures w.failures == old(w.failures) && s.reached ==> !outcome.Failure?
      ensures !outcome.Failure? ==>
                && |NotSynced(s.ros, PodMap(s.replicas), cluster.status.syncedPods)| <= w.failures - old(w.failures)
                && (DueOn(s, old(cluster.status.syncedPods)) && StatusWritten(cluster.status.resourcesReady) !in calls ==>
                      |NotSynced(s.ros, PodMap(s.replicas), cluster.status.syncedPods)| < w.failures - old(w.failures))
      ensures StoredIfWritten(calls, w.clusters, cluster.key, cluster.status)
      ensures w.failures == old(w.failures) ==> StoredBeforeLists(calls, cluster.status)
      ensures ListsSparedUnlessMisread(PlanIn(s, AdListsIn(cluster.spec)), old(w.lists), w.lists)
      ensures w.failures >= old(w.failures)
    {
      var result;
      result, calls := TransferAccountably(cluster, s);
      NoListsYet(calls, s, cluster.status);
      match result
      case NotRequired =>
        outcome := Done;
      case Failed =>
        outcome := Failure;
      case Completed =>
        ghost var first, more, mid, ledger := calls, [], w.lists, cluster.status.syncedPods;
        outcome, more := AfterTransfer(cluster, s);
        MoreSyncEvents(first, more, cluster.status.resourcesReady, s);
        Reassociate(old(w.events), first, more);
        calls := first + more;
        MoreServed(s.replicas, first, calls, old(cluster.status.syncedPods), ledger);
        SparedThrough(PlanIn(s, AdListsIn(cluster.spec)), old(w.lists), mid, w.lists);
        StoredBetween(first, more, s, cluster.status);
    }

    /** When all pods are up, every replica is reached by one of the selected clients. */
    lemma ReplicasHaveClients(cluster: PiHoleCluster, before: Cache, s: Scene)
      requires Set(cluster, s) && Coherent(PodsIn(w.pods, cluster.key.namespace), before, apiClients)
      requires PodsUp(w.pods, cluster.key)
      ensures s.reached && forall p | p in s.replicas :: UrlOf(p.ip) in s.ros
    {
      forall p | p in s.replicas
        ensures p.name in ReplicaNames() && UrlOf(p.ip) in s.ros
      {
        var ordinal :| IsNumeral(ordinal) && p.name == PodName(p.instance, p.role, ordinal);
        ReadOnlySelection(currentClusterName, p.instance, p.role, ordinal);
        assert p in PodsIn(w.pods, cluster.key.namespace);
      }
      assert s.replicas[0] in s.replicas;
    }

    /** When no other cluster's name gets in the way, only the cluster's own replicas are selected. */
    lemma OnlyOwnClients(cluster: PiHoleCluster, before: Cache)
      requires currentClusterName == cluster.key.name
      requires Coherent(PodsIn(w.pods, cluster.key.namespace), before, apiClients)
      requires forall p | p in PodsIn(w.pods, cluster.key.namespace) :: WellNamed(p)
      requires Unambiguous(cluster.key.name, PodsIn(w.pods, cluster.key.namespace))
      ensures forall n | n in ReplicaNames() :: exists p | p in Replicas(cluster) :: p.name == n
      ensures forall p | p in Replicas(cluster) && Usable(p) :: p.name in ReplicaNames()
    {
      var listed := PodsIn(w.pods, cluster.key.namespace);
      SelectsOwnReplicas(cluster.key.name, listed);
      forall n | n in ReplicaNames()
        ensures exists p | p in Replicas(cluster) :: p.name == n
      {
        var p :| p in listed && p.name == n;
        assert p in Replicas(cluster);
      }
      forall p | p in Replicas(cluster) && Usable(p)
        ensures p.name in ReplicaNames()
      {
        assert p in listed;
      }
    }

    /** The read-write server is the listed one whenever its pod is usable. */
    lemma ReadWriteIsListed(cluster: PiHoleCluster, before: Cache, s: Scene, p: Pod)
      requires Set(cluster, s) && Coherent(PodsIn(w.pods, cluster.key.namespace), before, apiClients)
      requires p in PodsIn(w.pods, cluster.key.namespace) && p.name == s.pod && Usable(p)
      ensures s.rw == UrlOf(p.ip)
    {
    }

    lemma SelectedIsReplica(cluster: PiHoleCluster, before: Cache, s: Scene, n: string)
      requires Set(cluster, s) && Coherent(PodsIn(w.pods, cluster.key.namespace), before, apiClients)
      requires Tidy(w.pods, cluster.key) && n in ReplicaNames()
      ensures exists p | p in s.replicas :: apiClients[n].client.baseURL == UrlOf(p.ip)
    {
      OnlyOwnClients(cluster, before);
      var p :| p in s.replicas && p.name == n;
      assert p in PodsIn(w.pods, cluster.key.namespace);
    }

    /** The selected servers are exactly those of the cluster's replicas, at their current addresses. */
    lemma OwnReplicaServers(cluster: PiHoleCluster, before: Cache, s: Scene)
      requires Set(cluster, s) && Coherent(PodsIn(w.pods, cluster.key.namespace), before, apiClients)
      requires Tidy(w.pods, cluster.key)
      ensures s.ros == set p | p in s.replicas :: UrlOf(p.ip)
    {
      ReplicasHaveClients(cluster, before, s);
      forall u | u in s.ros
        ensures exists p | p in s.replicas :: UrlOf(p.ip) == u
      {
        var n :| n in ReplicaNames() && apiClients[n].client.baseURL == u;
        SelectedIsReplica(cluster, before, s, n);
      }
    }

    /** The read-write server is that of the cluster's own read-write pod, at its current address. */
    lemma OwnReadWriteServer(cluster: PiHoleCluster, before: Cache, s: Scene)
      requires Set(cluster, s) && Coherent(PodsIn(w.pods, cluster.key.namespace), before, apiClients)
      requires Tidy(w.pods, cluster.key)
      ensures exists p :: IsOwnReadWrite(p, w.pods, cluster.key) && s.rw == UrlOf(p.ip)
    {
      var p :| p in PodsIn(w.pods, cluster.key.namespace) && p.name == s.pod && Usable(p);
      ReadWriteIsListed(cluster, before, s, p);
      NamedReadWrite(p, w.pods, cluster.key);
    }

    ghost function ReadWriteUrl(): Url
      reads this`apiClients, this`currentClusterName
    {
      UrlUnder(apiClients, ReadWriteName())
    }
  }

  /**
   * The read-write pod and all read-only pods of the cluster are usable, named by their
   * stateful sets, and no two of the read-only ones share an address.
   */
  ghost predicate PodsUp(pods: seq<Pod>, key: ClusterKey) {
    var replicas := PodsOf(pods, key, ReadOnly);
    && replicas != [] && DistinctAddresses(replicas)
    && (forall p | p in replicas :: Usable(p) && WellNamed(p))
    && NamesUsable(PodsIn(pods, key.namespace), ReadWritePod(key.name))
  }

  /** Besides, every pod of the namespace is named by its stateful set, and no other cluster's name is ambiguous. */
  ghost predicate Tidy(pods: seq<Pod>, key: ClusterKey) {
    && PodsUp(pods, key)
    && (forall p | p in PodsIn(pods, key.namespace) :: WellNamed(p))
    && Unambiguous(key.name, PodsIn(pods, key.namespace))
  }

  /** The pods of a cluster of one replica, as its stateful sets make them, are tidy. */
  lemma PairIsTidy(key: ClusterKey, rw: Pod, ro: Pod)
    requires rw.namespace == ro.namespace == key.namespace && rw.instance == ro.instance == key.name
    requires rw.role == ReadWrite && rw.name == PodName(key.name, ReadWrite, "0") && Usable(rw)
    requires ro.role == ReadOnly && ro.name == PodName(key.name, ReadOnly, "0") && Usable(ro)
    ensures Tidy([rw, ro], key)
  {
    var pods := [rw, ro];
    assert IsNumeral("0") && WellNamed(rw) && WellNamed(ro);
    assert rw in PodsIn(pods, key.namespace) && ro in PodsOf(pods, key, ReadOnly);
    assert rw.name == ReadWritePod(key.name) && NamesUsable(PodsIn(pods, key.namespace), ReadWritePod(key.name));
  }

  ghost predicate IsOwnReadWrite(p: Pod, pods: seq<Pod>, key: ClusterKey) {
    p in PodsIn(pods, key.namespace) && p.instance == key.name && p.role == ReadWrite && p.name == ReadWritePod(key.name)
  }

  lemma NamedReadWrite(p: Pod, pods: seq<Pod>, key: ClusterKey)
    requires p in PodsIn(pods, key.namespace) && WellNamed(p) && p.name == ReadWritePod(key.name)
    ensures IsOwnReadWrite(p, pods, key)
  {
    var ordinal :| IsNumeral(ordinal) && p.name == PodName(p.instance, p.role, ordinal);
    ReadWriteSelection(key.name, p.instance, p.role, ordinal);
  }

  /** The read-write server keeps what the resource names or others made, and servers outside the plan keep everything. */
  ghost predicate ListsSpared(p: Plan, before: Fleet, now: Fleet) {
    OnlyAt(before, now, p.Servers()) && WantedKept(p, before, now)
  }

  /** The same when the read-write server can be taken for a replica. */
  ghost predicate ListsSparedUnlessMisread(p: Plan, before: Fleet, now: Fleet) {
    OnlyAt(before, now, p.Servers()) && (p.rw !in p.ros ==> WantedKept(p, before, now))
  }

  lemma SparedThrough(p: Plan, before: Fleet, mid: Fleet, now: Fleet)
    requires OnlyAt(before, mid, p.ros) && ListsSpared(p, mid, now)
    ensures ListsSparedUnlessMisread(p, before, now)
  {
  }

  /** Uploads of these bytes only, to these servers only, and to pods of the map only. */
  ghost predicate UploadsTo(urls: set<Url>, podMap: map<Url, Pod>, data: Blob, uploads: seq<Event>) {
    forall e | e in uploads :: e.Uploaded? && e.data == data && e.url in urls && e.url in podMap
  }

  /** The pods of the map at these addresses that are not in the ledger. */
  ghost function NotSynced(urls: set<Url>, podMap: map<Url, Pod>, ledger: seq<SyncedPod>): set<Url> {
    set u | u in urls && u in podMap && Entry(podMap[u]) !in ledger
  }

  lemma SubsetSize<T>(s: set<T>, t: set<T>)
    requires s <= t
    ensures |s| <= |t|
  {
    assert t == s + (t - s);
  }

  /** The positions of the clients whose pod is in the map. */
  ghost function InMap(clients: seq<APIClient>, podMap: map<Url, Pod>): set<int> {
    set i | 0 <= i < |clients| && clients[i].baseURL in podMap
  }

  lemma InMapOneMore(clients: seq<APIClient>, client: APIClient, podMap: map<Url, Pod>)
    ensures |InMap(clients + [client], podMap)| == |InMap(clients, podMap)| + if client.baseURL in podMap then 1 else 0
  {
    assert InMap(clients + [client], podMap) == InMap(clients, podMap) + if client.baseURL in podMap then {|clients|} else {};
  }

  ghost function NamedInMap(cache: Cache, names: seq<string>, podMap: map<Url, Pod>): set<string> {
    set n | n in names && n in cache && cache[n].client.baseURL in podMap
  }

  lemma NamedOneMore(cache: Cache, names: seq<string>, name: string, podMap: map<Url, Pod>)
    requires name !in names && name in cache
    ensures |NamedInMap(cache, names + [name], podMap)|
         == |NamedInMap(cache, names, podMap)| + if cache[name].client.baseURL in podMap then 1 else 0
  {
    assert NamedInMap(cache, names + [name], podMap)
        == NamedInMap(cache, names, podMap) + if cache[name].client.baseURL in podMap then {name} else {};
  }

  lemma {:induction false} NamesCount(cache: Cache, names: seq<string>, clients: seq<APIClient>, podMap: map<Url, Pod>)
    requires |clients| == |names| && forall i, j | 0 <= i < j < |names| :: names[i] != names[j]
    requires forall i | 0 <= i < |names| :: names[i] in cache && clients[i] == cache[names[i]].client
    ensures |InMap(clients, podMap)| == |NamedInMap(cache, names, podMap)|
  {
    if names != [] {
      var m := |names| - 1;
      NamesCount(cache, names[..m], clients[..m], podMap);
      assert names == names[..m] + [names[m]] && clients == clients[..m] + [clients[m]];
      InMapOneMore(clients[..m], clients[m], podMap);
      NamedOneMore(cache, names[..m], names[m], podMap);
    }
  }

  /** So many turns: each pod of the map was uploaded to or cost a failure, and none else was left out. */
  ghost predicate TurnsTaken(clients: seq<APIClient>, podMap: map<Url, Pod>, ledger: seq<SyncedPod>, uploads: nat, failures: int) {
    && uploads + failures == |InMap(clients, podMap)|
    && |NotSynced(UrlsOf(clients), podMap, ledger)| <= failures
  }

  lemma TurnTaken(clients: seq<APIClient>, client: APIClient, podMap: map<Url, Pod>, before: seq<SyncedPod>, after: seq<SyncedPod>,
                  uploads: nat, uploadsAfter: nat, failures: int, failuresAfter: int)
    requires TurnsTaken(clients, podMap, before, uploads, failures) && before <= after
    requires uploadsAfter + failuresAfter == uploads + failures + if client.baseURL in podMap then 1 else 0
    requires failuresAfter in {failures, failures + 1}
    requires client.baseURL in podMap && failuresAfter == failures ==> Entry(podMap[client.baseURL]) in after
    ensures TurnsTaken(clients + [client], podMap, after, uploadsAfter, failuresAfter)
  {
    var all := clients + [client];
    InMapOneMore(clients, client, podMap);
    var missed := NotSynced(UrlsOf(clients), podMap, before);
    SubsetSize(NotSynced(UrlsOf(all), podMap, after), missed + if failuresAfter == failures then {} else {client.baseURL});
  }

  /** The pods that are not in the ledger. */
  ghost function Behind(pods: seq<Pod>, ledger: seq<SyncedPod>): set<Pod> {
    set p | p in pods && Entry(p) !in ledger
  }

  lemma {:induction false} AsManyUrls(pods: set<Pod>)
    requires forall p, q | p in pods && q in pods && p.ip == q.ip :: p == q
    ensures |set p | p in pods :: UrlOf(p.ip)| == |pods|
  {
    if p :| p in pods {
      var rest := pods - {p};
      AsManyUrls(rest);
      forall q | q in rest ensures UrlOf(q.ip) != UrlOf(p.ip) {
        if UrlOf(q.ip) == UrlOf(p.ip) {
          UrlIsInjective(q.ip, p.ip);
        }
      }
      assert (set q | q in pods :: UrlOf(q.ip)) == (set q | q in rest :: UrlOf(q.ip)) + {UrlOf(p.ip)};
    }
  }

  /** With distinct addresses, all of them selected, no more pods are behind than the map shows. */
  lemma BehindAreShown(pods: seq<Pod>, urls: set<Url>, ledger: seq<SyncedPod>)
    requires DistinctAddresses(pods) && forall p | p in pods :: UrlOf(p.ip) in urls
    ensures |Behind(pods, ledger)| <= |NotSynced(urls, PodMap(pods), ledger)|
  {
    var behind := Behind(pods, ledger);
    AsManyUrls(behind);
    forall p | p in behind ensures UrlOf(p.ip) in NotSynced(urls, PodMap(pods), ledger) {
      PodMapComplete(pods, p);
    }
    SubsetSize(set p | p in behind :: UrlOf(p.ip), NotSynced(urls, PodMap(pods), ledger));
  }

  datatype SyncResult = NotRequired | Completed | Failed

  predicate StatusStored(before: map<ClusterKey, ClusterRecord>, after: map<ClusterKey, ClusterRecord>, key: ClusterKey,
                         status: Status, ok: bool)
  {
    if ok then key in before && after == before[key := before[key].(status := status)] else after == before
  }

  /** The stored record has this status. */
  predicate Stores(clusters: map<ClusterKey, ClusterRecord>, key: ClusterKey, status: Status) {
    key in clusters && clusters[key].status == status
  }

  /** Calls that wrote the status leave its ledger stored. */
  ghost predicate StoredIfWritten(calls: seq<Event>, clusters: map<ClusterKey, ClusterRecord>, key: ClusterKey, status: Status) {
    StatusWritten(status.resourcesReady) in calls ==> key in clusters && clusters[key].status.syncedPods == status.syncedPods
  }

  ghost predicate StoredFirst(calls: seq<Event>, status: Status) {
    calls != [] && calls[0] == StatusWritten(status.resourcesReady)
  }

  predicate IsListCall(e: Event) {
    e.Posted? || e.Deleted? || e.GravityRun?
  }

  /** No ad-list is touched before the ledger is stored. */
  ghost predicate StoredBeforeLists(calls: seq<Event>, status: Status) {
    forall i | 0 <= i < |calls| && IsListCall(calls[i]) ::
      StatusWritten(status.resourcesReady) in calls[..i]
  }

  lemma NoListsYet(calls: seq<Event>, s: Scene, status: Status)
    requires forall e | e in calls :: IsTransferEvent(e, s)
    ensures forall i | 0 <= i < |calls| :: !IsListCall(calls[i])
    ensures StoredBeforeLists(calls, status) && StatusWritten(status.resourcesReady) !in calls
  {
    forall i | 0 <= i < |calls| ensures IsTransferEvent(calls[i], s) {
      assert calls[i] in calls;
    }
  }

  lemma StoredBetween(first: seq<Event>, more: seq<Event>, s: Scene, status: Status)
    requires forall e | e in first :: IsTransferEvent(e, s)
    ensures StoredFirst(more, status) ==> StoredBeforeLists(first + more, status)
    ensures StatusWritten(status.resourcesReady) in first + more <==> StatusWritten(status.resourcesReady) in more
  {
    var calls := first + more;
    NoListsYet(first, s, status);
    if StoredFirst(more, status) {
      forall i | 0 <= i < |calls| && IsListCall(calls[i])
        ensures StatusWritten(status.resourcesReady) in calls[..i]
      {
        assert calls[|first|] == more[0];
      }
    }
  }

  /** `NilDereference` is the panic of reading the ad-lists of an absent configuration block. */
  datatype Outcome = Done | Failure | NilDereference

  /** Ad-lists are to be synchronised from a block that is not there. */
  predicate LacksConfig(spec: Spec) {
    spec.sync.Some? && spec.sync.value.adLists && spec.config.None?
  }

  predicate ListsWanted(spec: Spec) {
    spec.sync.Some? && spec.sync.value.adLists && spec.config.Some? && spec.config.value.adLists != []
  }

  /** Stored resources keep all but one status; its readiness flag and ledger are the old or the given ones. */
  predicate OnlyStatus(before: map<ClusterKey, ClusterRecord>, after: map<ClusterKey, ClusterRecord>, key: ClusterKey, now: Status) {
    && after.Keys == before.Keys
    && (forall k | k in before && k != key :: after[k] == before[k])
    && (key in before ==>
          && after[key] == before[key].(status := after[key].status)
          && after[key].status.resourcesReady in {before[key].status.resourcesReady, now.resourcesReady}
          && after[key].status.syncedPods in {before[key].status.syncedPods, now.syncedPods})
  }

  lemma OnlyStatusTwice(before: map<ClusterKey, ClusterRecord>, mid: map<ClusterKey, ClusterRecord>,
                        after: map<ClusterKey, ClusterRecord>, key: ClusterKey, first: Status, now: Status)
    requires OnlyStatus(before, mid, key, first) && OnlyStatus(mid, after, key, now)
    requires first.resourcesReady == now.resourcesReady && first.syncedPods == now.syncedPods
    ensures OnlyStatus(before, after, key, now)
  {
  }

  /** What stands still while one cluster is synchronised: its replicas, the servers reached, the accepted entries. */
  datatype Scene = Scene(replicas: seq<Pod>, pod: string, rw: Url, ros: set<Url>, reached: bool, known: set<SyncedPod>)

  /** Some replica, as far as the map shows it, is not in the ledger. */
  ghost predicate DueOn(s: Scene, ledger: seq<SyncedPod>) {
    NeedsSync(PodMap(s.replicas), ledger)
  }

  /** The servers and addresses an ad-list run is about. */
  ghost function PlanIn(s: Scene, adLists: seq<Address>): Plan {
    Plan(s.rw, s.ros, set a | a in adLists)
  }

  function AdListsIn(spec: Spec): seq<Address> {
    if spec.config.Some? then spec.config.value.adLists else []
  }

  /** Downloads come from the read-write pod, uploads go to selected replicas. */
  ghost predicate IsTransferEvent(e: Event, s: Scene) {
    || e == ReplicasListed(s.replicas)
    || (e.Downloaded? && e.pod == s.pod && e.url == s.rw)
    || (e.Uploaded? && e.url in s.ros)
  }

  ghost predicate IsSyncEvent(e: Event, ready: bool, s: Scene) {
    || IsTransferEvent(e, s)
    || ((e.Posted? || e.Deleted? || e.GravityRun?) && (e.url == s.rw || e.url in s.ros))
    || e == StatusWritten(ready)
  }

  ghost predicate AreSyncEvents(calls: seq<Event>, ready: bool, s: Scene) {
    forall e | e in calls :: IsSyncEvent(e, ready, s)
  }

  lemma MoreSyncEvents(calls: seq<Event>, more: seq<Event>, ready: bool, s: Scene)
    requires AreSyncEvents(calls, ready, s) && AreSyncEvents(more, ready, s)
    ensures AreSyncEvents(calls + more, ready, s)
  {
  }

  lemma {:induction false} CallsAreSyncEvents(p: Plan, fleet: Fleet, trace: seq<Event>, ready: bool, s: Scene)
    requires Permits(p, fleet, trace) && p.rw == s.rw && p.ros == s.ros
    ensures AreSyncEvents(trace, ready, s) && forall e | e in trace :: !e.StatusWritten?
  {
    if trace != [] {
      CallsAreSyncEvents(p, fleet, trace[..|trace| - 1], ready, s);
      assert trace == trace[..|trace| - 1] + [trace[|trace| - 1]];
    }
  }

  lemma Flatten(events: seq<Event>, e1: Event, e2: Event, more: seq<Event>)
    ensures events + ([e1] + ([e2] + more)) == events + [e1, e2] + more
    ensures forall e | e in more :: e in [e1] + ([e2] + more)
  {
  }

  /** A completed transfer leaves a ledger with evidence, and its new entries were served by it. */
  lemma TransferIsSound(events: seq<Event>, before: seq<SyncedPod>, key: ClusterKey, s: Scene, data: Blob, uploads: seq<Event>,
                        after: seq<SyncedPod>)
    requires Sound(events, before, s.known) && Grown(before, after, PodMap(s.replicas), data, uploads)
    requires UploadsTo(s.ros, PodMap(s.replicas), data, uploads)
    requires s.pod == ReadWritePod(key.name) && SourceShown(events, key, s.rw)
    requires forall p | p in s.replicas :: p.namespace == key.namespace && p.instance == key.name
    ensures var calls := [ReplicasListed(s.replicas)] + ([Downloaded(s.pod, s.rw, data)] + uploads);
            Sound(events + calls, after, s.known) && NewServed(s.replicas, calls, before, after)
  {
    Flatten(events, ReplicasListed(s.replicas), Downloaded(s.pod, s.rw, data), uploads);
    GrownIsSound(events, before, s.known, key, s.replicas, s.pod, s.rw, data, uploads, after);
    GrownIsServed(s.replicas, before, after, data, uploads, [ReplicasListed(s.replicas)] + ([Downloaded(s.pod, s.rw, data)] + uploads));
  }

  /** A sync appends to the ledger and sets the two sync flags, nothing else of the status. */
  ghost predicate StatusLedgerOnly(before: Status, after: Status) {
    && after == before.(syncedPods := after.syncedPods, configSynced := after.configSynced, adListSynced := after.adListSynced)
    && before.syncedPods <= after.syncedPods
    && (NoDuplicates(before.syncedPods) ==> NoDuplicates(after.syncedPods))
  }

  /** The same with the configuration flag set. */
  ghost predicate LedgerGrew(before: Status, after: Status) {
    && after == before.(syncedPods := after.syncedPods, configSynced := true)
    && before.syncedPods <= after.syncedPods
    && (NoDuplicates(before.syncedPods) ==> NoDuplicates(after.syncedPods))
  }

  /** A completed configuration sync changes the ledger and its flag, nothing else of the status. */
  ghost predicate LedgerStep(before: Status, after: Status, podMap: map<Url, Pod>, data: Blob, uploads: seq<Event>) {
    && after == before.(syncedPods := after.syncedPods, configSynced := true)
    && Grown(before.syncedPods, after.syncedPods, podMap, data, uploads)
  }

  method BuildPodMap(pods: seq<Pod>) returns (podMap: map<Url, Pod>)
    ensures podMap == PodMap(pods)
  {
    podMap := map[];
    for i := 0 to |pods|
      invariant podMap == PodMap(pods[..i])
    {
      assert pods[..i + 1][..i] == pods[..i];
      podMap := podMap[UrlOf(pods[i].ip) := pods[i]];
    }
    assert pods[..|pods|] == pods;
  }

  lemma GoalReached(p: Plan, fleet: Fleet, trace: seq<Event>)
    requires Permits(p, fleet, trace)
    requires SettledServers(p, ApplyAll(fleet, trace), Target(p, fleet), p.Servers())
    ensures Converged(p, ApplyAll(fleet, trace)) && ApplyAll(fleet, trace) == Goal(p, fleet)
  {
    RunKeepsTarget(p, fleet, trace);
    RunAccounting(p, fleet, trace);
    ConvergedIffNoDisagreement(p, ApplyAll(fleet, trace));
  }

  lemma UrlsOfNames(cache: Cache, names: seq<string>, found: seq<APIClient>)
    requires |found| == |names| && forall i | 0 <= i < |names| :: names[i] in cache && found[i] == cache[names[i]].client
    ensures UrlsOf(found) == set n | n in names :: cache[n].client.baseURL
    ensures forall c | c in found :: exists n | n in names :: cache[n].client == c
  {
    forall n | n in names
      ensures cache[n].client.baseURL in UrlsOf(found)
    {
      var i :| 0 <= i < |names| && names[i] == n;
      assert found[i] in found;
    }
    forall c | c in found
      ensures exists n | n in names :: cache[n].client == c
    {
      var i :| 0 <= i < |found| && found[i] == c;
      assert names[i] in names;
    }
  }

  /** The addresses of the resource as a set, duplicates merged. */
  method AddressSet(adLists: seq<Address>) returns (crd: set<Address>)
    ensures crd == set a | a in adLists
  {
    crd := {};
    for i := 0 to |adLists|
      invariant crd == set a | a in adLists[..i]
    {
      crd := crd + {adLists[i]};
      assert adLists[..i + 1] == adLists[..i] + [adLists[i]];
    }
    assert adLists[..|adLists|] == adLists;
  }
}
