/** The vocabulary shared by the controller and the systems it talks to. */
module Domain {
  import opened Wrappers

  type Url = string
  type Address = string
  type Blob = string

  /** The ad-lists of one Pi-hole server: address to optional comment. */
  type Store = map<Address, Option<string>>

  /** The servers that can be reached, by base URL. */
  type Fleet = map<Url, Store>

  /** One element of a server's answer to a list query. */
  datatype AdList = AdList(address: Address, comment: Option<string>)

  datatype Role = ReadWrite | ReadOnly

  /** A pod carrying the label app.kubernetes.io/name=pihole. */
  datatype Pod = Pod(namespace: string, name: string, uid: string, ip: string, ready: bool, instance: string, role: Role)

  function UrlOf(ip: string): Url {
    "http://" + ip
  }

  /** A pod the operator keeps an API client for. */
  predicate Usable(p: Pod) {
    p.ready && p.ip != ""
  }

  ghost predicate SomeReady(pods: seq<Pod>) {
    exists p | p in pods :: p.ready
  }

  datatype SyncedPod = SyncedPod(name: string, uid: string)

  /** The kinds of objects a cluster owns. */
  datatype Child =
    | ApiSecret | DataClaim | EnvConfigMap | ReadWriteSet | ReadOnlySet | DnsService | ClusterIngress | ClusterPodMonitor

  datatype Phase = SecretPhase | ClaimPhase | ReadWriteSetPhase | ClientPhase | ResourcesPhase

  /** What the journal records: every effect outside the process, and the reads that gate them. */
  datatype Event =
    | Posted(url: Url, address: Address)
    | Deleted(url: Url, address: Address)
    | GravityRun(url: Url)
    | ReplicasListed(pods: seq<Pod>)
    | Downloaded(pod: string, url: Url, data: Blob)
    | Uploaded(url: Url, data: Blob)
    | ReadWriteListed(pods: seq<Pod>)
    | ReadOnlyChecked(replicas: int, readyReplicas: int, pods: seq<Pod>)
    | ChildWritten(child: Child)
    | PhaseDone(phase: Phase)
    | FinalizersWritten(finalizers: seq<string>)
    | StatusWritten(resourcesReady: bool)

  /** The comment the API client gives to every list it creates. */
  const POSTED_COMMENT := "Created by PiHole operator"

  /** The comment by which the synchronisation recognises its own lists. */
  const OWNED_COMMENT := "Created by PiHole operator"

  function StoreAt(fleet: Fleet, url: Url): Store {
    if url in fleet then fleet[url] else map[]
  }

  /** The effect of one successful call on the servers. */
  function Apply(fleet: Fleet, e: Event): Fleet {
    match e
    case Posted(u, a) => fleet[u := StoreAt(fleet, u)[a := Some(POSTED_COMMENT)]]
    case Deleted(u, a) => fleet[u := StoreAt(fleet, u) - {a}]
    case _ => fleet
  }
}
