/** The ad-list loops over one server, as calls that a permitted trace explains. */
module AdListSync {
  import opened Wrappers
  import opened Domain
  import opened Environment
  import opened PiholeApi
  import opened AdListProtocol

  function AddressesOf(answer: seq<AdList>): set<Address> {
    set l | l in answer :: l.address
  }

  lemma AddressesListed(answer: seq<AdList>, store: Store)
    requires ListsExactly(answer, store)
    ensures AddressesOf(answer) == store.Keys
  {
    forall a | a in store ensures a in AddressesOf(answer) {
      assert AdList(a, store[a]) in answer;
    }
  }

  /** The first loop over a server: post what is wanted and not there. */
  method PostMissing(w: World, client: APIClient, wanted: set<Address>, existing: set<Address>)
    returns (ok: bool, ghost sent: seq<Address>)
    requires client.baseURL in w.lists
    modifies client`sessionID, client`validity, w`failures, w`lists, w`events
    ensures w.events == old(w.events) + Posts(client.baseURL, sent)
    ensures w.lists == old(w.lists)[client.baseURL := WithPosted(old(w.lists[client.baseURL]), sent)]
    ensures Distinct(sent) && forall a | a in sent :: a in wanted - existing
    ensures ok ==> forall a | a in wanted - existing :: a in sent
    ensures w.failures == old(w.failures) + if ok then 0 else 1
  {
    var url := client.baseURL;
    var todo := wanted;
    sent := [];
    NoCalls(w.lists, url);
    while todo != {}
      invariant todo <= wanted
      invariant Distinct(sent) && forall a :: a in sent <==> a in wanted - existing && a !in todo
      invariant w.events == old(w.events) + Posts(url, sent)
      invariant w.lists == old(w.lists)[url := WithPosted(old(w.lists[url]), sent)]
      invariant w.failures == old(w.failures)
      decreases todo
    {
      var address :| address in todo;
      todo := todo - {address};
      if address !in existing {
        var auth := w.Authority();
        ok := client.PostAdList(w, address, auth);
        if !ok {
          return;
        }
        OneMorePost(url, old(w.lists[url]), sent, address);
        Reassociate(old(w.events), Posts(url, sent), [Posted(url, address)]);
        sent := sent + [address];
      }
    }
    ok := true;
  }

  /** Which listed ad-lists the second loop deletes. */
  predicate Unwanted(l: AdList, wanted: set<Address>, ownedOnly: bool) {
    (ownedOnly ==> l.comment == Some(OWNED_COMMENT)) && l.address !in wanted
  }

  /** What may have been deleted from a store, and what must have been when the loop was completed. */
  ghost predicate Prunes(store: Store, deleted: seq<Address>, wanted: set<Address>, ownedOnly: bool, complete: bool) {
    && (forall a | a in deleted :: a in store && Unwanted(AdList(a, store[a]), wanted, ownedOnly))
    && (complete ==> forall a | a in store && Unwanted(AdList(a, store[a]), wanted, ownedOnly) :: a in deleted)
  }

  lemma AllPruned(store: Store, answer: seq<AdList>, deleted: seq<Address>, wanted: set<Address>, ownedOnly: bool)
    requires ListsExactly(answer, store) && Prunes(store, deleted, wanted, ownedOnly, false)
    requires forall j | 0 <= j < |answer| && Unwanted(answer[j], wanted, ownedOnly) :: answer[j].address in deleted
    ensures Prunes(store, deleted, wanted, ownedOnly, true)
  {
    forall a | a in store && Unwanted(AdList(a, store[a]), wanted, ownedOnly)
      ensures a in deleted
    {
      assert AdList(a, store[a]) in answer;
    }
  }

  lemma DeletedOneMore(events: seq<Event>, lists: Fleet, url: Url, store: Store, sent: seq<Address>, a: Address)
    ensures events + Deletes(url, sent) + [Deleted(url, a)] == events + Deletes(url, sent + [a])
    ensures Apply(lists[url := WithoutDeleted(store, sent)], Deleted(url, a)) == lists[url := WithoutDeleted(store, sent + [a])]
  {
    OneMoreDelete(url, store, sent, a);
    Reassociate(events, Deletes(url, sent), [Deleted(url, a)]);
  }

  /** The second loop over a server: delete what is listed and not wanted. */
  method DeleteUnwanted(w: World, client: APIClient, answer: seq<AdList>, wanted: set<Address>, ownedOnly: bool)
    returns (ok: bool, ghost sent: seq<Address>)
    requires client.baseURL in w.lists && ListsExactly(answer, w.lists[client.baseURL])
    modifies client`sessionID, client`validity, w`failures, w`lists, w`events
    ensures w.events == old(w.events) + Deletes(client.baseURL, sent)
    ensures w.lists == old(w.lists)[client.baseURL := WithoutDeleted(old(w.lists[client.baseURL]), sent)]
    ensures Distinct(sent) && Prunes(old(w.lists[client.baseURL]), sent, wanted, ownedOnly, ok)
    ensures w.failures == old(w.failures) + if ok then 0 else 1
  {
    var url := client.baseURL;
    ghost var store := w.lists[url];
    sent := [];
    NoCalls(w.lists, url);
    for i := 0 to |answer|
      invariant Distinct(sent) && Prunes(store, sent, wanted, ownedOnly, false)
      invariant forall j | i <= j < |answer| :: answer[j].address !in sent
      invariant forall j | 0 <= j < i && Unwanted(answer[j], wanted, ownedOnly) :: answer[j].address in sent
      invariant w.events == old(w.events) + Deletes(url, sent)
      invariant w.lists == old(w.lists)[url := WithoutDeleted(store, sent)]
      invariant w.failures == old(w.failures)
    {
      var l := answer[i];
      if Unwanted(l, wanted, ownedOnly) {
        var auth := w.Authority();
        ok := client.DeleteAdList(w, l.address, auth);
        if !ok {
          return;
        }
        DeletedOneMore(old(w.events), old(w.lists), url, store, sent, l.address);
        sent := sent + [l.address];
      }
    }
    AllPruned(store, answer, sent, wanted, ownedOnly);
    ok := true;
  }

  /** The second half of a server's turn: refetch, delete, run gravity. */
  method PruneServer(w: World, client: APIClient, wanted: set<Address>, ownedOnly: bool)
    returns (ok: bool, ghost deleted: seq<Address>)
    requires client.baseURL in w.lists
    modifies client`sessionID, client`validity, w`failures, w`lists, w`events
    ensures w.events == old(w.events) + Pruning(client.baseURL, deleted, ok)
    ensures w.lists == old(w.lists)[client.baseURL := WithoutDeleted(old(w.lists[client.baseURL]), deleted)]
    ensures Distinct(deleted) && Prunes(old(w.lists[client.baseURL]), deleted, wanted, ownedOnly, ok)
    ensures w.failures == old(w.failures) + if ok then 0 else 1
  {
    var url := client.baseURL;
    deleted := [];
    NoCalls(w.lists, url);
    var auth := w.Authority();
    var second := client.GetAdLists(w, auth);
    if second.None? {
      return false, deleted;
    }
    ok, deleted := DeleteUnwanted(w, client, second.value, wanted, ownedOnly);
    if ok {
      auth := w.Authority();
      ok := client.RunGravity(w, auth);
    }
  }

  /** The read-write server is given the addresses of the resource, the others the final target. */
  ghost predicate ServerWish(p: Plan, fleet: Fleet, u: Url, wanted: set<Address>, ownedOnly: bool) {
    if ownedOnly then u == p.rw && wanted == p.crd else wanted == Target(p, fleet)
  }

  /** After the additions, the deletions remove exactly what is not in the target. */
  lemma DeletionsAreRight(p: Plan, fleet: Fleet, u: Url, wanted: set<Address>, ownedOnly: bool,
                          posted: seq<Address>, deleted: seq<Address>, complete: bool)
    requires u in fleet && ServerWish(p, fleet, u, wanted, ownedOnly)
    requires forall a :: a in posted <==> a in wanted - fleet[u].Keys
    requires Prunes(WithPosted(fleet[u], posted), deleted, wanted, ownedOnly, complete)
    ensures Target(p, fleet) <= WithPosted(fleet[u], posted).Keys
    ensures forall a | a in deleted :: a !in Target(p, fleet) && a in fleet[u]
    ensures complete ==> WithoutDeleted(WithPosted(fleet[u], posted), deleted).Keys == Target(p, fleet)
  {
    var store := WithPosted(fleet[u], posted);
    assert forall a | a in store :: Unwanted(AdList(a, store[a]), wanted, ownedOnly) <==> a !in Target(p, fleet);
  }

  lemma PostsAreRight(p: Plan, fleet: Fleet, u: Url, wanted: set<Address>, ownedOnly: bool, posted: seq<Address>)
    requires u in fleet && ServerWish(p, fleet, u, wanted, ownedOnly)
    requires forall a | a in posted :: a in wanted - fleet[u].Keys
    ensures forall a | a in posted :: a in Target(p, fleet) && a !in fleet[u]
  {
  }

  /** One server brought to the target: add first, delete second, run gravity last. */
  method ReconcileServer(w: World, client: APIClient, wanted: set<Address>, ownedOnly: bool, ghost p: Plan)
    returns (ok: bool, ghost trace: seq<Event>)
    requires client.baseURL in w.lists ==> InTurn(p, w.lists, client.baseURL)
    requires ServerWish(p, w.lists, client.baseURL, wanted, ownedOnly)
    modifies client`sessionID, client`validity, w`failures, w`lists, w`events
    ensures w.events == old(w.events) + trace
    ensures Permits(p, old(w.lists), trace) && w.lists == ApplyAll(old(w.lists), trace)
    ensures ok ==> client.baseURL in w.lists && w.lists[client.baseURL].Keys == Target(p, old(w.lists))
    ensures ok ==> GravityRun(client.baseURL) in trace
    ensures w.failures == old(w.failures) + if ok then 0 else 1
  {
    trace := [];
    var url := client.baseURL;
    ghost var fleet := w.lists;
    assert ApplyAll(fleet, trace) == fleet;
    var auth := w.Authority();
    var first := client.GetAdLists(w, auth);
    if first.None? {
      return false, trace;
    }
    AddressesListed(first.value, fleet[url]);
    ghost var posted, deleted: seq<Address> := [], [];
    ok, posted := PostMissing(w, client, wanted, AddressesOf(first.value));
    PostsAreRight(p, fleet, url, wanted, ownedOnly, posted);
    if ok {
      ok, deleted := PruneServer(w, client, wanted, ownedOnly);
      DeletionsAreRight(p, fleet, url, wanted, ownedOnly, posted, deleted, ok);
      UpdateTwice(fleet, url, WithPosted(fleet[url], posted), WithoutDeleted(WithPosted(fleet[url], posted), deleted));
    } else {
      NothingPruned(url, WithPosted(fleet[url], posted));
      Reassociate(old(w.events), Posts(url, posted), []);
    }
    Reassociate(old(w.events), Posts(url, posted), Pruning(url, deleted, ok));
    ServerTrace(p, fleet, url, posted, deleted, ok);
    trace := ServerCalls(url, posted, deleted, ok);
  }

  ghost predicate SettledServers(p: Plan, fleet: Fleet, target: set<Address>, settled: set<Url>) {
    settled <= p.Servers() && forall u | u in settled :: u in fleet && StoreAt(fleet, u).Keys == target
  }

  /** A run so far: its trace is permitted, explains the servers, and has settled some of them. */
  ghost predicate OnCourse(p: Plan, fleet: Fleet, trace: seq<Event>, now: Fleet, settled: set<Url>) {
    Permits(p, fleet, trace) && now == ApplyAll(fleet, trace) && SettledServers(p, now, Target(p, fleet), settled)
  }

  lemma StillOnCourse(p: Plan, fleet: Fleet, trace: seq<Event>, mid: Fleet, settled: set<Url>, more: seq<Event>, now: Fleet)
    requires OnCourse(p, fleet, trace, mid, settled)
    requires Permits(p, mid, more) && now == ApplyAll(mid, more)
    ensures OnCourse(p, fleet, trace + more, now, settled)
    ensures Target(p, now) == Target(p, fleet)
  {
    RunKeepsTarget(p, fleet, trace);
    NextTurn(p, fleet, trace, more, settled);
  }

  /** One read-only server's turn. */
  method NextReplica(w: World, client: APIClient, target: set<Address>,
                     ghost p: Plan, ghost fleet: Fleet, ghost trace: seq<Event>, ghost settled: set<Url>)
    returns (ok: bool, ghost longer: seq<Event>)
    requires client.baseURL in p.ros && p.rw in settled
    requires OnCourse(p, fleet, trace, w.lists, settled)
    requires target == Target(p, fleet) == Target(p, w.lists)
    modifies client`sessionID, client`validity, w`failures, w`lists, w`events
    ensures exists more :: longer == trace + more && w.events == old(w.events) + more
    ensures OnCourse(p, fleet, longer, w.lists, settled + if ok then {client.baseURL} else {})
    ensures Target(p, w.lists) == target
    ensures ok ==> GravityRun(client.baseURL) in longer
    ensures w.failures == old(w.failures) + if ok then 0 else 1
  {
    ghost var more;
    ok, more := ReconcileServer(w, client, target, false, p);
    StillOnCourse(p, fleet, trace, old(w.lists), settled, more, w.lists);
    longer := trace + more;
  }

  function UrlsOf(clients: seq<APIClient>): set<Url> {
    set c | c in clients :: c.baseURL
  }

  lemma UrlsOneMore(clients: seq<APIClient>, i: nat)
    requires i < |clients|
    ensures UrlsOf(clients[..i + 1]) == UrlsOf(clients[..i]) + {clients[i].baseURL}
  {
    assert clients[..i + 1] == clients[..i] + [clients[i]];
  }

  /** The servers settled once the first `n` clients had their turn, and the gravity runs made there. */
  ghost predicate TurnsDone(p: Plan, fleet: Fleet, trace: seq<Event>, now: Fleet, clients: seq<APIClient>, n: nat)
    requires n <= |clients|
  {
    && OnCourse(p, fleet, trace, now, {p.rw} + UrlsOf(clients[..n]))
    && forall u | u in UrlsOf(clients[..n]) :: GravityRun(u) in trace
  }

  lemma OneTurnMore(p: Plan, fleet: Fleet, before: seq<Event>, trace: seq<Event>, now: Fleet, clients: seq<APIClient>, i: nat)
    requires i < |clients| && OnCourse(p, fleet, trace, now, {p.rw} + UrlsOf(clients[..i]) + {clients[i].baseURL})
    requires (forall u | u in UrlsOf(clients[..i]) :: GravityRun(u) in before) && before <= trace
    requires GravityRun(clients[i].baseURL) in trace
    ensures TurnsDone(p, fleet, trace, now, clients, i + 1)
  {
    UrlsOneMore(clients, i);
    assert {p.rw} + UrlsOf(clients[..i]) + {clients[i].baseURL} == {p.rw} + UrlsOf(clients[..i + 1]);
  }

  /** The turn of client number `i`. */
  method ReplicaTurn(w: World, clients: seq<APIClient>, ghost i: nat, client: APIClient, target: set<Address>,
                     ghost p: Plan, ghost fleet: Fleet, ghost trace: seq<Event>)
    returns (ok: bool, ghost longer: seq<Event>)
    requires i < |clients| && clients[i] == client && client.baseURL in p.ros
    requires TurnsDone(p, fleet, trace, w.lists, clients, i)
    requires target == Target(p, fleet) == Target(p, w.lists)
    modifies client`sessionID, client`validity, w`failures, w`lists, w`events
    ensures exists more :: longer == trace + more && w.events == old(w.events) + more
    ensures ok ==> TurnsDone(p, fleet, longer, w.lists, clients, i + 1)
    ensures !ok ==> OnCourse(p, fleet, longer, w.lists, {p.rw})
    ensures Target(p, w.lists) == target
    ensures w.failures == old(w.failures) + if ok then 0 else 1
  {
    ghost var settled := {p.rw} + UrlsOf(clients[..i]);
    ok, longer := NextReplica(w, client, target, p, fleet, trace, settled);
    if ok {
      OneTurnMore(p, fleet, trace, longer, w.lists, clients, i);
    } else {
      FewerSettled(p, fleet, longer, w.lists, settled + {}, {p.rw});
    }
  }

  /** The loop over the read-only servers, in whatever order their clients come. */
  method ReconcileReplicas(w: World, clients: seq<APIClient>, target: set<Address>, ghost p: Plan)
    returns (ok: bool, ghost trace: seq<Event>)
    requires forall c | c in clients :: c.baseURL in p.ros
    requires SettledServers(p, w.lists, target, {p.rw}) && target == Target(p, w.lists)
    modifies clients`sessionID, clients`validity, w`failures, w`lists, w`events
    ensures w.events == old(w.events) + trace
    ensures OnCourse(p, old(w.lists), trace, w.lists, {p.rw} + if ok then UrlsOf(clients) else {})
    ensures ok ==> forall u | u in UrlsOf(clients) :: GravityRun(u) in trace
    ensures w.failures == old(w.failures) + if ok then 0 else 1
  {
    ghost var fleet := w.lists;
    trace := [];
    StartOnCourse(p, fleet, {p.rw});
    assert {p.rw} + UrlsOf(clients[..0]) == {p.rw};
    for i := 0 to |clients|
      invariant w.events == old(w.events) + trace
      invariant TurnsDone(p, fleet, trace, w.lists, clients, i)
      invariant Target(p, w.lists) == target
      invariant w.failures == old(w.failures)
    {
      ghost var before := trace;
      ok, trace := ReplicaTurn(w, clients, i, clients[i], target, p, fleet, trace);
      LongerJournal(old(w.events), before, trace, w.events);
      if !ok {
        assert {p.rw} + {} == {p.rw};
        return;
      }
    }
    assert clients[..|clients|] == clients;
    ok := true;
  }

  lemma StartOnCourse(p: Plan, fleet: Fleet, settled: set<Url>)
    requires SettledServers(p, fleet, Target(p, fleet), settled)
    ensures OnCourse(p, fleet, [], fleet, settled)
  {
  }

  lemma FewerSettled(p: Plan, fleet: Fleet, trace: seq<Event>, now: Fleet, settled: set<Url>, fewer: set<Url>)
    requires OnCourse(p, fleet, trace, now, settled) && fewer <= settled
    ensures OnCourse(p, fleet, trace, now, fewer)
  {
  }

  lemma LongerJournal(events: seq<Event>, trace: seq<Event>, longer: seq<Event>, now: seq<Event>)
    requires exists more :: longer == trace + more && now == events + trace + more
    ensures now == events + longer
  {
    var more :| longer == trace + more && now == events + trace + more;
    Reassociate(events, trace, more);
  }
}
