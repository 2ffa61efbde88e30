/**
 * Ad-list reconciliation as a transition system over the whole fleet: which calls a run may
 * make, and what follows for every run, every aborted prefix and every sequence of runs.
 */
module AdListProtocol {
  import opened Wrappers
  import opened Domain

  /** The read-write server, the read-only servers, and the addresses of the custom resource. */
  datatype Plan = Plan(rw: Url, ros: set<Url>, crd: set<Address>) {
    function Servers(): set<Url> {
      {rw} + ros
    }
  }

  /** Lists the operator must leave alone on the read-write server. */
  function Foreign(s: Store): set<Address> {
    set a | a in s && s[a] != Some(OWNED_COMMENT)
  }

  /** The addresses every server should end up with. */
  function Target(p: Plan, fleet: Fleet): set<Address> {
    p.crd + Foreign(StoreAt(fleet, p.rw))
  }

  /** The contents a server should end up with: what it has of the target, and new lists of our own. */
  function Settled(s: Store, target: set<Address>): Store {
    map a | a in target :: if a in s then s[a] else Some(POSTED_COMMENT)
  }

  function Goal(p: Plan, fleet: Fleet): Fleet {
    map u | u in fleet :: if u in p.Servers() then Settled(fleet[u], Target(p, fleet)) else fleet[u]
  }

  ghost predicate Converged(p: Plan, fleet: Fleet) {
    forall u | u in p.Servers() :: u in fleet && fleet[u].Keys == Target(p, fleet)
  }

  /**
   * A call is permitted when it removes a disagreement with the target, when deletions find
   * every addition done, and when a read-only server is touched only after the read-write one
   * has its final addresses.  Gravity is permitted on a server that has its final addresses.
   */
  ghost predicate Permitted(p: Plan, fleet: Fleet, e: Event) {
    && (e.Posted? || e.Deleted? || e.GravityRun?)
    && e.url in p.Servers() && e.url in fleet
    && (e.url != p.rw ==> StoreAt(fleet, p.rw).Keys == Target(p, fleet))
    && match e
       case Posted(u, a) => a in Target(p, fleet) && a !in fleet[u]
       case Deleted(u, a) => a in fleet[u] && a !in Target(p, fleet) && Target(p, fleet) <= fleet[u].Keys
       case GravityRun(u) => fleet[u].Keys == Target(p, fleet)
       case _ => false
  }

  /** The fleet after a trace of calls. */
  function ApplyAll(fleet: Fleet, trace: seq<Event>): Fleet {
    if trace == [] then fleet else Apply(ApplyAll(fleet, trace[..|trace| - 1]), trace[|trace| - 1])
  }

  ghost predicate Permits(p: Plan, fleet: Fleet, trace: seq<Event>) {
    trace != [] ==>
      && Permits(p, fleet, trace[..|trace| - 1])
      && Permitted(p, ApplyAll(fleet, trace[..|trace| - 1]), trace[|trace| - 1])
  }

  ghost predicate Disagrees(p: Plan, fleet: Fleet, u: Url, a: Address) {
    u in p.Servers() && (a in Target(p, fleet) <==> a !in StoreAt(fleet, u))
  }

  /** The disagreements between servers and target, one per server and address. */
  ghost function Disagreements(p: Plan, fleet: Fleet): set<(Url, Address)> {
    set u, a | u in p.Servers() && a in Target(p, fleet) + StoreAt(fleet, u).Keys && Disagrees(p, fleet, u, a) :: (u, a)
  }

  predicate IsEdit(e: Event) {
    e.Posted? || e.Deleted?
  }

  function EditCount(trace: seq<Event>): nat {
    if trace == [] then 0
    else EditCount(trace[..|trace| - 1]) + if IsEdit(trace[|trace| - 1]) then 1 else 0
  }

  function PostCount(trace: seq<Event>, u: Url): nat {
    if trace == [] then 0
    else
      var e := trace[|trace| - 1];
      PostCount(trace[..|trace| - 1], u) + if e.Posted? && e.url == u then 1 else 0
  }

  function DeleteCount(trace: seq<Event>, u: Url): nat {
    if trace == [] then 0
    else
      var e := trace[|trace| - 1];
      DeleteCount(trace[..|trace| - 1], u) + if e.Deleted? && e.url == u then 1 else 0
  }

  /* ---------------------------------- one call ---------------------------------- */

  lemma StepKeepsTarget(p: Plan, fleet: Fleet, e: Event)
    requires Permitted(p, fleet, e)
    ensures Target(p, Apply(fleet, e)) == Target(p, fleet)
  {
    var s, t := StoreAt(fleet, p.rw), StoreAt(Apply(fleet, e), p.rw);
    if IsEdit(e) && e.url == p.rw {
      assert forall a | a != e.address :: a in s <==> a in t;
      assert e.address !in Foreign(s) && e.address !in Foreign(t);
      assert Foreign(t) == Foreign(s);
    }
  }

  /** What a permitted call does to the contents of any one server. */
  lemma StepStore(p: Plan, fleet: Fleet, e: Event, u: Url)
    requires Permitted(p, fleet, e)
    ensures var before, after := StoreAt(fleet, u), StoreAt(Apply(fleet, e), u);
            if e.Posted? && e.url == u then
              e.address !in before && e.address in Target(p, fleet) && after == before[e.address := Some(POSTED_COMMENT)]
            else if e.Deleted? && e.url == u then
              && e.address in before && e.address !in Target(p, fleet) && after == before - {e.address}
              && Target(p, fleet) <= before.Keys
            else
              after == before
  {
  }

  /** The final state is the same whatever permitted call is made. */
  lemma StepKeepsGoal(p: Plan, fleet: Fleet, e: Event)
    requires Permitted(p, fleet, e)
    ensures Goal(p, Apply(fleet, e)) == Goal(p, fleet)
  {
    StepKeepsTarget(p, fleet, e);
    var after := Apply(fleet, e);
    assert after.Keys == fleet.Keys;
    forall u | u in fleet
      ensures Goal(p, after)[u] == Goal(p, fleet)[u]
    {
      if u in p.Servers() {
        assert Settled(after[u], Target(p, fleet)) == Settled(fleet[u], Target(p, fleet));
      }
    }
  }

  lemma DisagreementsAre(p: Plan, fleet: Fleet)
    ensures forall u, a :: (u, a) in Disagreements(p, fleet) <==> Disagrees(p, fleet, u, a)
  {
  }

  lemma StepOnDisagreement(p: Plan, fleet: Fleet, e: Event, u: Url, a: Address)
    requires Permitted(p, fleet, e)
    ensures Disagrees(p, Apply(fleet, e), u, a)
       <==> Disagrees(p, fleet, u, a) && !(IsEdit(e) && e.url == u && e.address == a)
    ensures IsEdit(e) ==> Disagrees(p, fleet, e.url, e.address)
  {
    StepKeepsTarget(p, fleet, e);
    StepStore(p, fleet, e, u);
  }

  function Resolved(e: Event): set<(Url, Address)> {
    if IsEdit(e) then {(e.url, e.address)} else {}
  }

  lemma StepResolves(p: Plan, fleet: Fleet, e: Event)
    requires Permitted(p, fleet, e)
    ensures Resolved(e) <= Disagreements(p, fleet)
    ensures Disagreements(p, Apply(fleet, e)) == Disagreements(p, fleet) - Resolved(e)
  {
    DisagreementsAre(p, fleet);
    DisagreementsAre(p, Apply(fleet, e));
    forall u, a
      ensures (u, a) in Disagreements(p, Apply(fleet, e)) <==> (u, a) in Disagreements(p, fleet) && (u, a) !in Resolved(e)
      ensures (u, a) in Resolved(e) ==> (u, a) in Disagreements(p, fleet)
    {
      StepOnDisagreement(p, fleet, e, u, a);
    }
  }

  /** Every edit removes exactly one disagreement. */
  lemma StepLowersPotential(p: Plan, fleet: Fleet, e: Event)
    requires Permitted(p, fleet, e)
    ensures |Disagreements(p, Apply(fleet, e))| == |Disagreements(p, fleet)| - if IsEdit(e) then 1 else 0
  {
    StepResolves(p, fleet, e);
    SizeOfDifference(Disagreements(p, fleet), Resolved(e));
    assert |Resolved(e)| == if IsEdit(e) then 1 else 0;
  }

  lemma SizeOfDifference<T>(s: set<T>, t: set<T>)
    requires t <= s
    ensures |s - t| == |s| - |t|
  {
    assert s == (s - t) + t;
  }

  /* ---------------------------------- one run, complete or aborted ---------------------------------- */

  lemma {:induction false} RunKeepsTarget(p: Plan, fleet: Fleet, trace: seq<Event>)
    requires Permits(p, fleet, trace)
    ensures Target(p, ApplyAll(fleet, trace)) == Target(p, fleet)
    ensures ApplyAll(fleet, trace).Keys == fleet.Keys
  {
    if trace != [] {
      var front, e := trace[..|trace| - 1], trace[|trace| - 1];
      RunKeepsTarget(p, fleet, front);
      StepKeepsTarget(p, ApplyAll(fleet, front), e);
    }
  }

  /** Accounting over any permitted trace: the goal stands still and edits pay for potential. */
  lemma {:induction false} RunAccounting(p: Plan, fleet: Fleet, trace: seq<Event>)
    requires Permits(p, fleet, trace)
    ensures Goal(p, ApplyAll(fleet, trace)) == Goal(p, fleet)
    ensures |Disagreements(p, ApplyAll(fleet, trace))| + EditCount(trace) == |Disagreements(p, fleet)|
  {
    if trace != [] {
      var front, e := trace[..|trace| - 1], trace[|trace| - 1];
      RunAccounting(p, fleet, front);
      StepKeepsGoal(p, ApplyAll(fleet, front), e);
      StepLowersPotential(p, ApplyAll(fleet, front), e);
    }
  }

  lemma ConvergedIffNoDisagreement(p: Plan, fleet: Fleet)
    requires p.Servers() <= fleet.Keys
    ensures Converged(p, fleet) <==> Disagreements(p, fleet) == {}
    ensures Converged(p, fleet) <==> fleet == Goal(p, fleet)
  {
    var goal := Goal(p, fleet);
    if Disagreements(p, fleet) == {} {
      forall u | u in p.Servers()
        ensures fleet[u].Keys == Target(p, fleet)
      {
        forall a ensures a in fleet[u] <==> a in Target(p, fleet) {
          assert (u, a) !in Disagreements(p, fleet);
        }
      }
    }
    if Converged(p, fleet) {
      forall u | u in fleet ensures fleet[u] == goal[u] {
      }
      assert fleet == goal;
    }
    if fleet == goal {
      forall u | u in p.Servers() ensures fleet[u].Keys == Target(p, fleet) {
        assert goal[u].Keys == Target(p, fleet);
      }
    }
  }

  /**
   * Edit minimality: the calls a converging run made on one server are exactly the missing
   * additions and the superfluous lists, and nothing is ever called twice for nothing.
   */
  lemma {:induction false} CallsPerServer(p: Plan, fleet: Fleet, trace: seq<Event>, u: Url)
    requires Permits(p, fleet, trace)
    ensures PostCount(trace, u) + |Target(p, fleet) - StoreAt(ApplyAll(fleet, trace), u).Keys|
         == |Target(p, fleet) - StoreAt(fleet, u).Keys|
    ensures DeleteCount(trace, u) + |StoreAt(ApplyAll(fleet, trace), u).Keys - Target(p, fleet)|
         == |StoreAt(fleet, u).Keys - Target(p, fleet)|
  {
    if trace != [] {
      var front, e := trace[..|trace| - 1], trace[|trace| - 1];
      CallsPerServer(p, fleet, front, u);
      RunKeepsTarget(p, fleet, front);
      StepOnServer(p, ApplyAll(fleet, front), e, u);
    }
  }

  lemma StepOnServer(p: Plan, fleet: Fleet, e: Event, u: Url)
    requires Permitted(p, fleet, e)
    ensures var target, before, after := Target(p, fleet), StoreAt(fleet, u).Keys, StoreAt(Apply(fleet, e), u).Keys;
            && |target - after| == |target - before| - (if e.Posted? && e.url == u then 1 else 0)
            && |after - target| == |before - target| - (if e.Deleted? && e.url == u then 1 else 0)
  {
    StepStore(p, fleet, e, u);
    var target, before, after := Target(p, fleet), StoreAt(fleet, u).Keys, StoreAt(Apply(fleet, e), u).Keys;
    if e.Posted? && e.url == u {
      assert target - after == (target - before) - {e.address};
      assert after - target == before - target;
    } else if e.Deleted? && e.url == u {
      assert after - target == (before - target) - {e.address};
      assert target - after == target - before;
    }
  }

  lemma ReadWriteEdits(p: Plan, fleet: Fleet)
    ensures var s := StoreAt(fleet, p.rw);
            && Target(p, fleet) - s.Keys == p.crd - s.Keys
            && s.Keys - Target(p, fleet) == (set a | a in s && s[a] == Some(OWNED_COMMENT)) - p.crd
  {
  }

  /** A converging run, counted call by call; `crd` is a set, so duplicates in the resource cost nothing. */
  lemma MinimalEdits(p: Plan, fleet: Fleet, trace: seq<Event>)
    requires Permits(p, fleet, trace) && Converged(p, ApplyAll(fleet, trace))
    ensures var s := StoreAt(fleet, p.rw);
            && PostCount(trace, p.rw) == |p.crd - s.Keys|
            && DeleteCount(trace, p.rw) == |(set a | a in s && s[a] == Some(OWNED_COMMENT)) - p.crd|
    ensures var final := ApplyAll(fleet, trace)[p.rw].Keys;
            forall u | u in p.ros ::
              && PostCount(trace, u) == |final - StoreAt(fleet, u).Keys|
              && DeleteCount(trace, u) == |StoreAt(fleet, u).Keys - final|
  {
    RunKeepsTarget(p, fleet, trace);
    ReadWriteEdits(p, fleet);
    var end, target := ApplyAll(fleet, trace), Target(p, fleet);
    forall u | u in p.Servers()
      ensures PostCount(trace, u) == |target - StoreAt(fleet, u).Keys|
      ensures DeleteCount(trace, u) == |StoreAt(fleet, u).Keys - target|
    {
      CallsPerServer(p, fleet, trace, u);
      assert target - StoreAt(end, u).Keys == {} && StoreAt(end, u).Keys - target == {};
    }
    assert end[p.rw].Keys == target;
  }

  lemma {:induction false} PrefixPermitted(p: Plan, fleet: Fleet, trace: seq<Event>, n: nat)
    requires Permits(p, fleet, trace) && n <= |trace|
    ensures Permits(p, fleet, trace[..n])
  {
    if n < |trace| {
      PrefixPermitted(p, fleet, trace[..|trace| - 1], n);
      assert trace[..|trace| - 1][..n] == trace[..n];
    } else {
      assert trace[..n] == trace;
    }
  }

  /**
   * Everything of the target a server has is kept with its comment, everything new is of the
   * target and carries the operator's comment, and nothing at all is lost before every
   * addition is done.
   */
  ghost predicate Keeps(before: Store, now: Store, target: set<Address>) {
    && (forall a | a in before && a in target :: a in now && now[a] == before[a])
    && (forall a | a in now && a !in before :: a in target && now[a] == Some(POSTED_COMMENT))
    && (before.Keys <= now.Keys || target <= now.Keys)
  }

  lemma KeepsOneMore(before: Store, now: Store, a: Address, target: set<Address>)
    requires Keeps(before, now, target)
    ensures a in target && a !in now ==> Keeps(before, now[a := Some(POSTED_COMMENT)], target)
    ensures a !in target && target <= now.Keys ==> Keeps(before, now - {a}, target)
  {
  }

  lemma {:induction false} NothingWantedIsLost(p: Plan, fleet: Fleet, trace: seq<Event>, u: Url)
    requires Permits(p, fleet, trace)
    ensures Keeps(StoreAt(fleet, u), StoreAt(ApplyAll(fleet, trace), u), Target(p, fleet))
  {
    if trace != [] {
      var front, e := trace[..|trace| - 1], trace[|trace| - 1];
      NothingWantedIsLost(p, fleet, front, u);
      RunKeepsTarget(p, fleet, front);
      var mid := ApplyAll(fleet, front);
      StepStore(p, mid, e, u);
      if IsEdit(e) {
        KeepsOneMore(StoreAt(fleet, u), StoreAt(mid, u), e.address, Target(p, fleet));
      }
    }
  }

  /** Safety at every prefix, so for every point at which a run can abort. */
  lemma PrefixSafety(p: Plan, fleet: Fleet, trace: seq<Event>, n: nat, u: Url)
    requires Permits(p, fleet, trace) && n <= |trace|
    ensures Keeps(StoreAt(fleet, u), StoreAt(ApplyAll(fleet, trace[..n]), u), Target(p, fleet))
    ensures u !in p.Servers() ==> StoreAt(ApplyAll(fleet, trace[..n]), u) == StoreAt(fleet, u)
  {
    PrefixPermitted(p, fleet, trace, n);
    NothingWantedIsLost(p, fleet, trace[..n], u);
    if u !in p.Servers() {
      OthersUntouched(p, fleet, trace[..n], u);
    }
  }

  /** The read-write server has every list it had that the resource names or that is not the operator's. */
  ghost predicate WantedKept(p: Plan, before: Fleet, now: Fleet) {
    var rw, rw' := StoreAt(before, p.rw), StoreAt(now, p.rw);
    forall a | a in rw && (a in p.crd || rw[a] != Some(OWNED_COMMENT)) :: a in rw' && rw'[a] == rw[a]
  }

  /** The same safety for the read-write server, in terms of who made a list and what the resource names. */
  lemma ReadWriteSafety(p: Plan, fleet: Fleet, trace: seq<Event>, n: nat)
    requires Permits(p, fleet, trace) && n <= |trace|
    ensures WantedKept(p, fleet, ApplyAll(fleet, trace[..n]))
  {
    PrefixSafety(p, fleet, trace, n, p.rw);
    var rw := StoreAt(fleet, p.rw);
    assert forall a | a in rw && (a in p.crd || rw[a] != Some(OWNED_COMMENT)) :: a in Target(p, fleet);
  }

  lemma {:induction false} OthersUntouched(p: Plan, fleet: Fleet, trace: seq<Event>, u: Url)
    requires Permits(p, fleet, trace) && u !in p.Servers()
    ensures StoreAt(ApplyAll(fleet, trace), u) == StoreAt(fleet, u)
  {
    if trace != [] {
      var front := trace[..|trace| - 1];
      OthersUntouched(p, fleet, front, u);
      StepStore(p, ApplyAll(fleet, front), trace[|trace| - 1], u);
    }
  }

  /** No server comes or goes, and only the lists of these can differ. */
  ghost predicate OnlyAt(before: Fleet, after: Fleet, urls: set<Url>) {
    after.Keys == before.Keys && forall u | u in after && u !in urls :: after[u] == before[u]
  }

  lemma RunIsLocal(p: Plan, fleet: Fleet, trace: seq<Event>)
    requires Permits(p, fleet, trace)
    ensures OnlyAt(fleet, ApplyAll(fleet, trace), p.Servers())
  {
    RunKeepsTarget(p, fleet, trace);
    forall u | u in fleet && u !in p.Servers()
      ensures ApplyAll(fleet, trace)[u] == fleet[u]
    {
      OthersUntouched(p, fleet, trace, u);
    }
  }

  lemma {:induction false} SettledStays(p: Plan, fleet: Fleet, trace: seq<Event>, u: Url)
    requires Permits(p, fleet, trace) && u in p.Servers()
    requires StoreAt(fleet, u).Keys == Target(p, fleet)
    ensures StoreAt(ApplyAll(fleet, trace), u).Keys == Target(p, fleet)
    ensures forall i | 0 <= i < |trace| && IsEdit(trace[i]) :: trace[i].url != u
  {
    if trace != [] {
      var front, e := trace[..|trace| - 1], trace[|trace| - 1];
      SettledStays(p, fleet, front, u);
      RunKeepsTarget(p, fleet, front);
      StepStore(p, ApplyAll(fleet, front), e, u);
      assert forall i | 0 <= i < |front| :: trace[i] == front[i];
    }
  }

  /** Gravity closes a server: once it ran there, no permitted call edits that server again. */
  lemma GravityRunsLast(p: Plan, fleet: Fleet, before: seq<Event>, u: Url, after: seq<Event>)
    requires Permits(p, fleet, before + [GravityRun(u)])
    requires Permits(p, ApplyAll(fleet, before + [GravityRun(u)]), after)
    ensures forall i | 0 <= i < |after| && IsEdit(after[i]) :: after[i].url != u
  {
    var trace := before + [GravityRun(u)];
    assert trace[..|trace| - 1] == before;
    SettledStays(p, ApplyAll(fleet, trace), after, u);
  }

  /* ---------------------------------- the calls on one server ---------------------------------- */

  function Posts(u: Url, sent: seq<Address>): seq<Event> {
    seq(|sent|, i requires 0 <= i < |sent| => Posted(u, sent[i]))
  }

  function Deletes(u: Url, sent: seq<Address>): seq<Event> {
    seq(|sent|, i requires 0 <= i < |sent| => Deleted(u, sent[i]))
  }

  ghost predicate Distinct(sent: seq<Address>) {
    forall i, j | 0 <= i < j < |sent| :: sent[i] != sent[j]
  }

  function WithPosted(s: Store, sent: seq<Address>): Store {
    s + map a | a in sent :: Some(POSTED_COMMENT)
  }

  function WithoutDeleted(s: Store, sent: seq<Address>): Store {
    s - set a | a in sent
  }

  lemma OneMorePost(u: Url, s: Store, sent: seq<Address>, a: Address)
    ensures Posts(u, sent + [a]) == Posts(u, sent) + [Posted(u, a)]
    ensures WithPosted(s, sent)[a := Some(POSTED_COMMENT)] == WithPosted(s, sent + [a])
  {
  }

  lemma OneMoreDelete(u: Url, s: Store, sent: seq<Address>, a: Address)
    ensures Deletes(u, sent + [a]) == Deletes(u, sent) + [Deleted(u, a)]
    ensures WithoutDeleted(s, sent) - {a} == WithoutDeleted(s, sent + [a])
  {
  }

  lemma NoCalls(fleet: Fleet, u: Url)
    requires u in fleet
    ensures fleet == fleet[u := WithPosted(fleet[u], [])] == fleet[u := WithoutDeleted(fleet[u], [])]
  {
    assert WithPosted(fleet[u], []) == fleet[u] == WithoutDeleted(fleet[u], []);
  }

  /** The server is part of the plan and its turn has come. */
  ghost predicate InTurn(p: Plan, fleet: Fleet, u: Url) {
    u in p.Servers() && u in fleet && (u != p.rw ==> StoreAt(fleet, p.rw).Keys == Target(p, fleet))
  }

  lemma PostAfter(p: Plan, fleet: Fleet, mid: Fleet, u: Url, front: seq<Address>, a: Address)
    requires InTurn(p, fleet, u) && mid == fleet[u := WithPosted(fleet[u], front)] && Target(p, mid) == Target(p, fleet)
    requires a in Target(p, fleet) && a !in fleet[u] && a !in front
    ensures Permitted(p, mid, Posted(u, a))
    ensures Apply(mid, Posted(u, a)) == fleet[u := WithPosted(fleet[u], front + [a])]
  {
    OneMorePost(u, fleet[u], front, a);
    assert a !in mid[u];
  }

  lemma DeleteAfter(p: Plan, fleet: Fleet, mid: Fleet, u: Url, front: seq<Address>, a: Address)
    requires InTurn(p, fleet, u) && mid == fleet[u := WithoutDeleted(fleet[u], front)] && Target(p, mid) == Target(p, fleet)
    requires a !in Target(p, fleet) && a in fleet[u] && a !in front
    requires Target(p, fleet) <= fleet[u].Keys && forall b | b in front :: b !in Target(p, fleet)
    ensures Permitted(p, mid, Deleted(u, a))
    ensures Apply(mid, Deleted(u, a)) == fleet[u := WithoutDeleted(fleet[u], front + [a])]
  {
    OneMoreDelete(u, fleet[u], front, a);
    assert a in mid[u];
  }

  lemma {:induction false} ExtendTrace(p: Plan, fleet: Fleet, trace: seq<Event>, e: Event)
    requires Permits(p, fleet, trace) && Permitted(p, ApplyAll(fleet, trace), e)
    ensures Permits(p, fleet, trace + [e])
    ensures ApplyAll(fleet, trace + [e]) == Apply(ApplyAll(fleet, trace), e)
  {
    var longer := trace + [e];
    assert longer[..|longer| - 1] == trace;
  }

  lemma {:induction false} PostsPermitted(p: Plan, fleet: Fleet, u: Url, sent: seq<Address>)
    requires InTurn(p, fleet, u) && Distinct(sent)
    requires forall a | a in sent :: a in Target(p, fleet) && a !in fleet[u]
    ensures Permits(p, fleet, Posts(u, sent))
    ensures ApplyAll(fleet, Posts(u, sent)) == fleet[u := WithPosted(fleet[u], sent)]
    ensures Target(p, fleet[u := WithPosted(fleet[u], sent)]) == Target(p, fleet)
  {
    if sent == [] {
      NoCalls(fleet, u);
    } else {
      var front, a := sent[..|sent| - 1], sent[|sent| - 1];
      assert sent == front + [a];
      PostsPermitted(p, fleet, u, front);
      PostAfter(p, fleet, ApplyAll(fleet, Posts(u, front)), u, front, a);
      OneMorePost(u, fleet[u], front, a);
      ExtendTrace(p, fleet, Posts(u, front), Posted(u, a));
      RunKeepsTarget(p, fleet, Posts(u, sent));
    }
  }

  lemma {:induction false} DeletesPermitted(p: Plan, fleet: Fleet, u: Url, sent: seq<Address>)
    requires InTurn(p, fleet, u) && Distinct(sent)
    requires sent != [] ==> Target(p, fleet) <= fleet[u].Keys
    requires forall a | a in sent :: a !in Target(p, fleet) && a in fleet[u]
    ensures Permits(p, fleet, Deletes(u, sent))
    ensures ApplyAll(fleet, Deletes(u, sent)) == fleet[u := WithoutDeleted(fleet[u], sent)]
    ensures Target(p, fleet[u := WithoutDeleted(fleet[u], sent)]) == Target(p, fleet)
  {
    if sent == [] {
      NoCalls(fleet, u);
    } else {
      var front, a := sent[..|sent| - 1], sent[|sent| - 1];
      assert sent == front + [a];
      DeletesPermitted(p, fleet, u, front);
      DeleteAfter(p, fleet, ApplyAll(fleet, Deletes(u, front)), u, front, a);
      OneMoreDelete(u, fleet[u], front, a);
      ExtendTrace(p, fleet, Deletes(u, front), Deleted(u, a));
      RunKeepsTarget(p, fleet, Deletes(u, sent));
    }
  }

  function ServerCalls(u: Url, posted: seq<Address>, deleted: seq<Address>, gravity: bool): seq<Event> {
    Posts(u, posted) + Pruning(u, deleted, gravity)
  }

  function Pruning(u: Url, deleted: seq<Address>, gravity: bool): seq<Event> {
    Deletes(u, deleted) + if gravity then [GravityRun(u)] else []
  }

  lemma Reassociate<T>(s1: seq<T>, s2: seq<T>, s3: seq<T>)
    ensures (s1 + s2) + s3 == s1 + (s2 + s3)
    ensures s3 == [] ==> s1 + s2 + s3 == s1 + s2
  {
  }

  lemma PrefixOneMore<T>(s: seq<T>, i: nat)
    requires i < |s|
    ensures s[..i + 1] == s[..i] + [s[i]]
  {
  }

  lemma NothingPruned(u: Url, s: Store)
    ensures Pruning(u, [], false) == [] && WithoutDeleted(s, []) == s
  {
  }

  lemma TurnKept(p: Plan, fleet: Fleet, u: Url, posted: seq<Address>)
    requires InTurn(p, fleet, u) && Target(p, fleet[u := WithPosted(fleet[u], posted)]) == Target(p, fleet)
    ensures InTurn(p, fleet[u := WithPosted(fleet[u], posted)], u)
  {
  }

  lemma PostsThenDeletes(p: Plan, fleet: Fleet, u: Url, posted: seq<Address>, deleted: seq<Address>)
    requires InTurn(p, fleet, u) && Distinct(posted) && Distinct(deleted)
    requires forall a | a in posted :: a in Target(p, fleet) && a !in fleet[u]
    requires forall a | a in deleted :: a !in Target(p, fleet) && a in fleet[u]
    requires deleted != [] ==> Target(p, fleet) <= WithPosted(fleet[u], posted).Keys
    ensures Permits(p, fleet, Posts(u, posted) + Deletes(u, deleted))
    ensures ApplyAll(fleet, Posts(u, posted) + Deletes(u, deleted))
         == fleet[u := WithoutDeleted(WithPosted(fleet[u], posted), deleted)]
  {
    var mid := fleet[u := WithPosted(fleet[u], posted)];
    PostsPermitted(p, fleet, u, posted);
    TurnKept(p, fleet, u, posted);
    DeletesPermitted(p, mid, u, deleted);
    UpdateTwice(fleet, u, WithPosted(fleet[u], posted), WithoutDeleted(mid[u], deleted));
    AppendTo(p, fleet, Posts(u, posted), mid, Deletes(u, deleted), mid[u := WithoutDeleted(mid[u], deleted)]);
  }

  lemma UpdateTwice<K, V>(m: map<K, V>, k: K, v1: V, v2: V)
    ensures m[k := v1][k := v2] == m[k := v2]
  {
  }

  lemma AppendTo(p: Plan, fleet: Fleet, t1: seq<Event>, mid: Fleet, t2: seq<Event>, end: Fleet)
    requires Permits(p, fleet, t1) && ApplyAll(fleet, t1) == mid
    requires Permits(p, mid, t2) && ApplyAll(mid, t2) == end
    ensures Permits(p, fleet, t1 + t2) && ApplyAll(fleet, t1 + t2) == end
  {
    AppendTrace(p, fleet, t1, t2);
  }

  lemma GravityAfter(p: Plan, fleet: Fleet, u: Url, s: Store)
    requires InTurn(p, fleet, u) && s.Keys == Target(p, fleet) == Target(p, fleet[u := s])
    ensures Permitted(p, fleet[u := s], GravityRun(u))
  {
  }

  /** Add first, delete second, gravity last: the calls on one server are a permitted trace. */
  lemma ServerTrace(p: Plan, fleet: Fleet, u: Url, posted: seq<Address>, deleted: seq<Address>, gravity: bool)
    requires InTurn(p, fleet, u) && Distinct(posted) && Distinct(deleted)
    requires forall a | a in posted :: a in Target(p, fleet) && a !in fleet[u]
    requires forall a | a in deleted :: a !in Target(p, fleet) && a in fleet[u]
    requires deleted != [] ==> Target(p, fleet) <= WithPosted(fleet[u], posted).Keys
    requires gravity ==> WithoutDeleted(WithPosted(fleet[u], posted), deleted).Keys == Target(p, fleet)
    ensures Permits(p, fleet, ServerCalls(u, posted, deleted, gravity))
    ensures ApplyAll(fleet, ServerCalls(u, posted, deleted, gravity))
         == fleet[u := WithoutDeleted(WithPosted(fleet[u], posted), deleted)]
  {
    var edits, end := Posts(u, posted) + Deletes(u, deleted), WithoutDeleted(WithPosted(fleet[u], posted), deleted);
    var last := if gravity then [GravityRun(u)] else [];
    PostsThenDeletes(p, fleet, u, posted, deleted);
    RunKeepsTarget(p, fleet, edits);
    if gravity {
      GravityAfter(p, fleet, u, end);
    }
    GravityPermitted(p, fleet[u := end], u, gravity);
    AppendTo(p, fleet, edits, fleet[u := end], last, fleet[u := end]);
    Reassociate(Posts(u, posted), Deletes(u, deleted), last);
  }

  lemma GravityPermitted(p: Plan, fleet: Fleet, u: Url, gravity: bool)
    requires gravity ==> Permitted(p, fleet, GravityRun(u))
    ensures var last := if gravity then [GravityRun(u)] else []; Permits(p, fleet, last) && ApplyAll(fleet, last) == fleet
  {
    if gravity {
      ExtendTrace(p, fleet, [], GravityRun(u));
      assert [] + [GravityRun(u)] == [GravityRun(u)];
    }
  }

  /** The next server's turn extends the run and leaves the servers already settled as they are. */
  lemma NextTurn(p: Plan, fleet: Fleet, t1: seq<Event>, t2: seq<Event>, settled: set<Url>)
    requires Permits(p, fleet, t1) && Permits(p, ApplyAll(fleet, t1), t2)
    requires settled <= p.Servers()
    requires forall u | u in settled :: StoreAt(ApplyAll(fleet, t1), u).Keys == Target(p, fleet)
    ensures Permits(p, fleet, t1 + t2)
    ensures ApplyAll(fleet, t1 + t2) == ApplyAll(ApplyAll(fleet, t1), t2)
    ensures Target(p, ApplyAll(fleet, t1 + t2)) == Target(p, fleet)
    ensures ApplyAll(fleet, t1 + t2).Keys == fleet.Keys
    ensures forall u | u in settled :: StoreAt(ApplyAll(fleet, t1 + t2), u).Keys == Target(p, fleet)
  {
    RunKeepsTarget(p, fleet, t1);
    AppendTrace(p, fleet, t1, t2);
    forall u | u in settled
      ensures StoreAt(ApplyAll(fleet, t1 + t2), u).Keys == Target(p, fleet)
    {
      SettledStays(p, ApplyAll(fleet, t1), t2, u);
    }
    RunKeepsTarget(p, fleet, t1 + t2);
  }

  /* ---------------------------------- any sequence of runs ---------------------------------- */

  function Concat(runs: seq<seq<Event>>): seq<Event> {
    if runs == [] then [] else Concat(runs[..|runs| - 1]) + runs[|runs| - 1]
  }

  /** Each run starts where the one before stopped, wherever that was. */
  ghost predicate Restarts(p: Plan, fleet: Fleet, runs: seq<seq<Event>>) {
    runs != [] ==>
      && Restarts(p, fleet, runs[..|runs| - 1])
      && Permits(p, ApplyAll(fleet, Concat(runs[..|runs| - 1])), runs[|runs| - 1])
  }

  lemma {:induction false} AppendTrace(p: Plan, fleet: Fleet, t1: seq<Event>, t2: seq<Event>)
    ensures ApplyAll(fleet, t1 + t2) == ApplyAll(ApplyAll(fleet, t1), t2)
    ensures Permits(p, fleet, t1) && Permits(p, ApplyAll(fleet, t1), t2) ==> Permits(p, fleet, t1 + t2)
    ensures EditCount(t1 + t2) == EditCount(t1) + EditCount(t2)
  {
    if t2 == [] {
      assert t1 + t2 == t1;
    } else {
      var front := t2[..|t2| - 1];
      AppendTrace(p, fleet, t1, front);
      assert (t1 + t2)[..|t1 + t2| - 1] == t1 + front;
    }
  }

  lemma {:induction false} RestartsIsOneTrace(p: Plan, fleet: Fleet, runs: seq<seq<Event>>)
    requires Restarts(p, fleet, runs)
    ensures Permits(p, fleet, Concat(runs))
  {
    if runs != [] {
      var front := runs[..|runs| - 1];
      RestartsIsOneTrace(p, fleet, front);
      AppendTrace(p, fleet, Concat(front), runs[|runs| - 1]);
    }
  }

  lemma OneMoreRun(p: Plan, fleet: Fleet, runs: seq<seq<Event>>, trace: seq<Event>)
    requires Restarts(p, fleet, runs) && Permits(p, ApplyAll(fleet, Concat(runs)), trace)
    ensures Restarts(p, fleet, runs + [trace]) && Concat(runs + [trace]) == Concat(runs) + trace
    ensures ApplyAll(fleet, Concat(runs + [trace])) == ApplyAll(ApplyAll(fleet, Concat(runs)), trace)
  {
    assert (runs + [trace])[..|runs + [trace]| - 1] == runs;
    AppendTrace(p, fleet, Concat(runs), trace);
  }

  /**
   * Confluence and termination under restarts: over any sequence of runs, each aborted
   * anywhere, the edits never outnumber the initial disagreements; and whenever the fleet has
   * converged it is in the one state `Goal` fixes in advance, addresses and comments, after
   * exactly as many edits as there were disagreements.
   */
  lemma RestartsConverge(p: Plan, fleet: Fleet, runs: seq<seq<Event>>)
    requires Restarts(p, fleet, runs) && p.Servers() <= fleet.Keys
    ensures EditCount(Concat(runs)) <= |Disagreements(p, fleet)|
    ensures var end := ApplyAll(fleet, Concat(runs));
            && (Converged(p, end) <==> end == Goal(p, fleet))
            && (Converged(p, end) <==> EditCount(Concat(runs)) == |Disagreements(p, fleet)|)
  {
    RestartsIsOneTrace(p, fleet, runs);
    RunKeepsTarget(p, fleet, Concat(runs));
    RunAccounting(p, fleet, Concat(runs));
    ConvergedIffNoDisagreement(p, ApplyAll(fleet, Concat(runs)));
  }

  /** Two histories with different failures and different orders end in the same state. */
  lemma Confluence(p: Plan, fleet: Fleet, runs1: seq<seq<Event>>, runs2: seq<seq<Event>>)
    requires p.Servers() <= fleet.Keys
    requires Restarts(p, fleet, runs1) && Converged(p, ApplyAll(fleet, Concat(runs1)))
    requires Restarts(p, fleet, runs2) && Converged(p, ApplyAll(fleet, Concat(runs2)))
    ensures ApplyAll(fleet, Concat(runs1)) == ApplyAll(fleet, Concat(runs2))
    ensures EditCount(Concat(runs1)) == EditCount(Concat(runs2))
  {
    RestartsConverge(p, fleet, runs1);
    RestartsConverge(p, fleet, runs2);
  }

  /** After convergence a further run edits nothing. */
  lemma SecondRunIsSilent(p: Plan, fleet: Fleet, trace: seq<Event>)
    requires Converged(p, fleet) && Permits(p, fleet, trace)
    ensures forall i | 0 <= i < |trace| :: !IsEdit(trace[i])
    ensures ApplyAll(fleet, trace) == fleet
  {
    RunAccounting(p, fleet, trace);
    ConvergedIffNoDisagreement(p, fleet);
    NoEdits(trace);
    Unedited(fleet, trace);
  }

  lemma {:induction false} NoEdits(trace: seq<Event>)
    requires EditCount(trace) == 0
    ensures forall i | 0 <= i < |trace| :: !IsEdit(trace[i])
  {
    if trace != [] {
      NoEdits(trace[..|trace| - 1]);
    }
  }

  lemma {:induction false} Unedited(fleet: Fleet, trace: seq<Event>)
    requires forall i | 0 <= i < |trace| :: !IsEdit(trace[i])
    ensures ApplyAll(fleet, trace) == fleet
  {
    if trace != [] {
      Unedited(fleet, trace[..|trace| - 1]);
    }
  }
}
