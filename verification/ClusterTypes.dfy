/** The PiHoleCluster custom resource: specification, status, and the object a run works on. */
module ClusterTypes {
  import opened Wrappers
  import opened Domain

  datatype IngressSpec = IngressSpec(enabled: bool, domain: string)
  datatype ExporterSpec = ExporterSpec(enabled: bool, settings: string)
  datatype PodMonitorSpec = PodMonitorSpec(enabled: bool)
  datatype MonitoringSpec = MonitoringSpec(exporter: Option<ExporterSpec>, podMonitor: Option<PodMonitorSpec>)
  datatype SyncSpec = SyncSpec(config: bool, adLists: bool)
  datatype ReadOnlyVolumeSpec = ReadOnlyVolumeSpec(
    volumeType: string, size: string, storageClass: Option<string>, accessModes: seq<string>)
  datatype SecretRef = SecretRef(name: string, key: string)
  datatype ConfigSpec = ConfigSpec(
    password: string, secretRef: Option<SecretRef>, env: map<string, string>, adLists: seq<Address>)
  datatype PersistenceSpec = PersistenceSpec(size: string, storageClass: Option<string>, accessModes: seq<string>)

  /** `pods` stands for the fields that only shape pod templates and the DNS service. */
  datatype Spec = Spec(
    replicas: int,
    readOnlyVolume: Option<ReadOnlyVolumeSpec>,
    ingress: Option<IngressSpec>,
    sync: Option<SyncSpec>,
    monitoring: Option<MonitoringSpec>,
    config: Option<ConfigSpec>,
    persistence: Option<PersistenceSpec>,
    pods: string)

  datatype Status = Status(
    resourcesReady: bool, configSynced: bool, adListSynced: bool, syncedPods: seq<SyncedPod>, lastError: string)

  datatype ClusterKey = ClusterKey(namespace: string, name: string)

  /** The resource as the API server stores it. */
  datatype ClusterRecord = ClusterRecord(finalizers: seq<string>, deleting: bool, spec: Spec, status: Status)

  /** The copy one run reads and changes. */
  class PiHoleCluster {
    const key: ClusterKey
    var finalizers: seq<string>
    var deleting: bool
    var spec: Spec
    var status: Status

    constructor (key: ClusterKey, record: ClusterRecord)
      ensures this.key == key && Record() == record
    {
      this.key := key;
      finalizers, deleting, spec, status := record.finalizers, record.deleting, record.spec, record.status;
    }

    function Record(): ClusterRecord
      reads this
    {
      ClusterRecord(finalizers, deleting, spec, status)
    }
  }
}
