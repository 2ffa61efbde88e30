/** Pod names as stateful sets make them, and the name tests that select API clients. */
module PodNames {
  import opened Domain

  function RoleInfix(role: Role): string {
    match role
    case ReadWrite => "-rw-"
    case ReadOnly => "-ro-"
  }

  /** The name of pod number `ordinal` of a cluster's stateful set. */
  function PodName(cluster: string, role: Role, ordinal: string): string {
    cluster + RoleInfix(role) + ordinal
  }

  /** The read-write pod's name. */
  function ReadWritePod(cluster: string): string {
    cluster + "-rw-0"
  }

  predicate IsNumeral(s: string) {
    s != "" && forall i | 0 <= i < |s| :: '0' <= s[i] <= '9'
  }

  function ReadOnlyPrefix(cluster: string): string {
    cluster + "-ro-"
  }

  predicate HasPrefix(s: string, prefix: string) {
    |prefix| <= |s| && s[..|prefix|] == prefix
  }

  /** The pod is named by the stateful set its labels point to. */
  ghost predicate WellNamed(pod: Pod) {
    exists ordinal :: IsNumeral(ordinal) && pod.name == PodName(pod.instance, pod.role, ordinal)
  }

  lemma PrefixByIndex(s: string, prefix: string)
    ensures HasPrefix(s, prefix) <==> |prefix| <= |s| && forall i | 0 <= i < |prefix| :: prefix[i] == s[i]
  {
  }

  /**
   * The exact reach of the read-only name test.  The second case is a false positive: the
   * name of another cluster continues ours with "-ro" or "-ro-...".
   */
  lemma ReadOnlySelection(cluster: string, other: string, role: Role, ordinal: string)
    requires IsNumeral(ordinal)
    ensures HasPrefix(PodName(other, role, ordinal), ReadOnlyPrefix(cluster)) <==>
            (other == cluster && role == ReadOnly) || HasPrefix(other + "-", ReadOnlyPrefix(cluster))
  {
    var name, prefix, d := PodName(other, role, ordinal), ReadOnlyPrefix(cluster), |other|;
    assert name[..d + 1] == other + "-";
    if |prefix| <= d + 1 {
      assert name[..|prefix|] == (other + "-")[..|prefix|];
    } else if |prefix| == d + 4 {
      assert name[..d] == other && prefix[..d] == cluster;
      assert name[..d + 4] == other + RoleInfix(role);
      assert name[d + 1] == RoleInfix(role)[1] && name[d + 2] == RoleInfix(role)[2];
      assert prefix[d + 1] == 'r' && prefix[d + 2] == 'o';
      if HasPrefix(name, prefix) {
        PrefixByIndex(name, prefix);
        assert other == cluster;
      }
    } else {
      var last := |prefix| - 1;
      assert prefix[last] == '-';
      assert last < |name| ==> name[last] != '-' by {
        if last < |name| && last > d + 3 {
          assert name[last] == ordinal[last - d - 4];
        }
      }
      if |prefix| <= |name| {
        assert name[..|prefix|][last] == name[last];
      }
    }
  }

  /** The read-write client is looked up by a name that only the cluster's own first read-write pod can have. */
  lemma ReadWriteSelection(cluster: string, other: string, role: Role, ordinal: string)
    requires IsNumeral(ordinal)
    ensures PodName(other, role, ordinal) == ReadWritePod(cluster) <==> other == cluster && role == ReadWrite && ordinal == "0"
  {
    var name, wanted := PodName(other, role, ordinal), ReadWritePod(cluster);
    var d, k := |other|, |cluster|;
    assert name[d + 3] == '-' && wanted[k + 3] == '-' && wanted[k + 4] == '0' && |wanted| == k + 5;
    assert forall i | d + 4 <= i < |name| :: name[i] == ordinal[i - d - 4];
    assert name[..d] == other && wanted[..k] == cluster;
    assert name[d + 1] == RoleInfix(role)[1] && wanted[k + 1] == 'r' && wanted[k + 2] == 'w';
    if name == wanted {
      assert !(d < k);
      assert !(d > k);
      assert name[d + 1..][..2] == RoleInfix(role)[1..3] && role == ReadWrite;
      assert ordinal == name[d + 4..] == "0";
    }
  }

  /** No other cluster is called `cluster`-ro or `cluster`-ro-... */
  ghost predicate Unambiguous(cluster: string, pods: seq<Pod>) {
    forall p | p in pods && p.instance != cluster :: !HasPrefix(p.instance + "-", ReadOnlyPrefix(cluster))
  }

  ghost predicate IsReplicaOf(cluster: string, pod: Pod) {
    pod.instance == cluster && pod.role == ReadOnly
  }

  /** The test selects exactly the cluster's own read-only pods iff no cluster is called like that. */
  lemma SelectsOwnReplicas(cluster: string, pods: seq<Pod>)
    requires forall p | p in pods :: WellNamed(p)
    ensures (forall p | p in pods :: HasPrefix(p.name, ReadOnlyPrefix(cluster)) <==> IsReplicaOf(cluster, p))
       <==> Unambiguous(cluster, pods)
  {
    forall p | p in pods
      ensures HasPrefix(p.name, ReadOnlyPrefix(cluster)) <==>
              IsReplicaOf(cluster, p) || HasPrefix(p.instance + "-", ReadOnlyPrefix(cluster))
    {
      var ordinal :| IsNumeral(ordinal) && p.name == PodName(p.instance, p.role, ordinal);
      ReadOnlySelection(cluster, p.instance, p.role, ordinal);
    }
    assert forall p | p in pods && p.instance == cluster :: |p.instance + "-"| < |ReadOnlyPrefix(cluster)|;
  }

  /** Without that assumption the test also takes another cluster's read-write pod. */
  lemma AmbiguousNamesAreMisread()
    ensures HasPrefix(PodName("a-ro", ReadWrite, "0"), ReadOnlyPrefix("a"))
  {
    assert PodName("a-ro", ReadWrite, "0")[..5] == "a-ro-";
  }
}
