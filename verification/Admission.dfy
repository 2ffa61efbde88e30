/** The admission webhooks: what defaulting fills in, and what validation lets through. */
module Admission {
  import opened Wrappers
  import opened ClusterTypes
  import opened Fqdn

  /* ------------------------------ defaulting ------------------------------ */

  const NO_INGRESS := IngressSpec(false, "")
  const NO_EXPORTER := ExporterSpec(false, "")
  const NO_POD_MONITOR := PodMonitorSpec(false)
  const FULL_SYNC := SyncSpec(true, true)
  const EMPTY_DIR := ReadOnlyVolumeSpec("emptyDir", "5Gi", None, ["ReadWriteOnce"])

  /** Fills the unset parts of a specification in place. */
  method Default(cluster: PiHoleCluster)
    modifies cluster`spec
    ensures Fills(old(cluster.spec), cluster.spec) && Complete(cluster.spec)
    ensures old(cluster.spec.ingress).None? ==> !cluster.spec.ingress.value.enabled
    ensures old(cluster.spec.sync).None? ==> cluster.spec.sync.value.config && cluster.spec.sync.value.adLists
    ensures old(cluster.spec.monitoring).None? || old(cluster.spec.monitoring.value.exporter).None? ==>
              !cluster.spec.monitoring.value.exporter.value.enabled
    ensures old(cluster.spec.monitoring).None? || old(cluster.spec.monitoring.value.podMonitor).None? ==>
              !cluster.spec.monitoring.value.podMonitor.value.enabled
    ensures old(cluster.spec.readOnlyVolume).None? || old(cluster.spec.readOnlyVolume.value.volumeType) == "" ==>
              cluster.spec.readOnlyVolume.value.volumeType == "emptyDir"
    ensures old(cluster.spec.readOnlyVolume).None? || old(cluster.spec.readOnlyVolume.value.size) == "" ==>
              cluster.spec.readOnlyVolume.value.size == "5Gi"
    ensures old(cluster.spec.readOnlyVolume).None? || old(cluster.spec.readOnlyVolume.value.accessModes) == [] ==>
              cluster.spec.readOnlyVolume.value.accessModes == ["ReadWriteOnce"]
  {
    if cluster.spec.ingress.None? {
      cluster.spec := cluster.spec.(ingress := Some(NO_INGRESS));
    }
    if cluster.spec.monitoring.None? {
      cluster.spec := cluster.spec.(monitoring := Some(MonitoringSpec(Some(NO_EXPORTER), Some(NO_POD_MONITOR))));
    } else {
      var monitoring := DefaultMonitoring(cluster.spec.monitoring.value);
      cluster.spec := cluster.spec.(monitoring := Some(monitoring));
    }
    if cluster.spec.sync.None? {
      cluster.spec := cluster.spec.(sync := Some(FULL_SYNC));
    }
    if cluster.spec.readOnlyVolume.None? {
      cluster.spec := cluster.spec.(readOnlyVolume := Some(ReadOnlyVolumeSpec("", "", None, [])));
    }
    var volume := DefaultVolume(cluster.spec.readOnlyVolume.value);
    cluster.spec := cluster.spec.(readOnlyVolume := Some(volume));
  }

  method DefaultMonitoring(before: MonitoringSpec) returns (monitoring: MonitoringSpec)
    ensures Fill(before.exporter, monitoring.exporter, NO_EXPORTER) && monitoring.exporter.Some?
    ensures Fill(before.podMonitor, monitoring.podMonitor, NO_POD_MONITOR) && monitoring.podMonitor.Some?
  {
    monitoring := before;
    if monitoring.exporter.None? {
      monitoring := monitoring.(exporter := Some(NO_EXPORTER));
    }
    if monitoring.podMonitor.None? {
      monitoring := monitoring.(podMonitor := Some(NO_POD_MONITOR));
    }
  }

  method DefaultVolume(before: ReadOnlyVolumeSpec) returns (volume: ReadOnlyVolumeSpec)
    ensures FillVolume(before, volume) && volume.volumeType != "" && volume.size != "" && volume.accessModes != []
  {
    volume := before;
    if volume.volumeType == "" {
      volume := volume.(volumeType := EMPTY_DIR.volumeType);
    }
    if volume.size == "" {
      volume := volume.(size := EMPTY_DIR.size);
    }
    if volume.accessModes == [] {
      volume := volume.(accessModes := EMPTY_DIR.accessModes);
    }
  }

  /** A value that was set stays; one that was not may only become the default. */
  predicate Fill<T(==)>(before: Option<T>, after: Option<T>, default: T) {
    after == before || (before.None? && after == Some(default))
  }

  predicate FillVolume(before: ReadOnlyVolumeSpec, after: ReadOnlyVolumeSpec) {
    && after.storageClass == before.storageClass
    && (after.volumeType == before.volumeType || (before.volumeType == "" && after.volumeType == EMPTY_DIR.volumeType))
    && (after.size == before.size || (before.size == "" && after.size == EMPTY_DIR.size))
    && (after.accessModes == before.accessModes || (before.accessModes == [] && after.accessModes == EMPTY_DIR.accessModes))
  }

  /** The second specification is the first with some unset parts given their defaults. */
  predicate Fills(before: Spec, after: Spec) {
    && after == before.(ingress := after.ingress, monitoring := after.monitoring, sync := after.sync,
                        readOnlyVolume := after.readOnlyVolume)
    && Fill(before.ingress, after.ingress, NO_INGRESS)
    && Fill(before.sync, after.sync, FULL_SYNC)
    && (match before.monitoring
        case None => Fill(before.monitoring, after.monitoring, MonitoringSpec(Some(NO_EXPORTER), Some(NO_POD_MONITOR)))
        case Some(m) =>
          && after.monitoring.Some?
          && Fill(m.exporter, after.monitoring.value.exporter, NO_EXPORTER)
          && Fill(m.podMonitor, after.monitoring.value.podMonitor, NO_POD_MONITOR))
    && (match before.readOnlyVolume
        case None => Fill(before.readOnlyVolume, after.readOnlyVolume, EMPTY_DIR)
        case Some(v) => after.readOnlyVolume.Some? && FillVolume(v, after.readOnlyVolume.value))
  }

  /** Nothing that has a default is unset. */
  predicate Complete(spec: Spec) {
    && spec.ingress.Some? && spec.sync.Some?
    && spec.monitoring.Some? && spec.monitoring.value.exporter.Some? && spec.monitoring.value.podMonitor.Some?
    && spec.readOnlyVolume.Some?
    && spec.readOnlyVolume.value.volumeType != "" && spec.readOnlyVolume.value.size != ""
    && spec.readOnlyVolume.value.accessModes != []
  }

  /** What `Default` promises leaves no choice, and applying it again changes nothing. */
  lemma DefaultIsDetermined(spec: Spec, once: Spec, other: Spec)
    requires Fills(spec, once) && Complete(once)
    ensures Fills(spec, other) && Complete(other) ==> other == once
    ensures Fills(once, other) ==> other == once
  {
    if Fills(spec, other) && Complete(other) {
      assert once.monitoring.value == other.monitoring.value;
      assert once.readOnlyVolume.value == other.readOnlyVolume.value;
    }
    if Fills(once, other) {
      assert once.monitoring.value == other.monitoring.value;
      assert once.readOnlyVolume.value == other.readOnlyVolume.value;
    }
  }

  /* ------------------------------ validation ------------------------------ */

  /** `Panicked` is the dereference of an absent exporter while the refusal is worded. */
  datatype Verdict = Admitted | Refused(field: string) | Panicked

  ghost function ValidateIngress(spec: Spec): Verdict {
    if spec.ingress.None? || !spec.ingress.value.enabled then Admitted
    else if spec.ingress.value.domain == "" then Refused("spec.ingress.domain")
    else if !Matches(PATTERN, spec.ingress.value.domain) then Refused("spec.ingress.domain")
    else Admitted
  }

  function ValidateMonitoring(spec: Spec): Verdict {
    if spec.monitoring.None? || (spec.monitoring.value.podMonitor.None? && spec.monitoring.value.exporter.None?) then Admitted
    else
      var m := spec.monitoring.value;
      if m.podMonitor.Some? && m.podMonitor.value.enabled && (m.exporter.None? || !m.exporter.value.enabled) then
        if m.exporter.None? then Panicked else Refused("spec.monitoring.exporter.enabled")
      else Admitted
  }

  ghost function ValidateCreate(spec: Spec): Verdict {
    var ingress, monitoring := ValidateIngress(spec), ValidateMonitoring(spec);
    if ingress != Admitted then ingress
    else if monitoring != Admitted then monitoring
    else if spec.replicas < 0 then Refused("spec.replicas")
    else Admitted
  }

  ghost function ValidateUpdate(stored: Spec, spec: Spec): Verdict {
    var ingress, monitoring := ValidateIngress(spec), ValidateMonitoring(spec);
    if ingress != Admitted then ingress
    else if monitoring != Admitted then monitoring
    else if spec.replicas < 0 then Refused("spec.replicas")
    else Admitted
  }

  predicate MonitorsPods(spec: Spec) {
    spec.monitoring.Some? && spec.monitoring.value.podMonitor.Some? && spec.monitoring.value.podMonitor.value.enabled
  }

  predicate Exports(spec: Spec) {
    spec.monitoring.Some? && spec.monitoring.value.exporter.Some? && spec.monitoring.value.exporter.value.enabled
  }

  predicate Exposes(spec: Spec) {
    spec.ingress.Some? && spec.ingress.value.enabled
  }

  /** Exactly what is admitted, with the domain check in terms of its grammar; on creation and update alike. */
  lemma AdmittedIff(stored: Spec, spec: Spec)
    ensures ValidateCreate(spec) == Admitted <==>
              (Exposes(spec) ==> IsFqdn(spec.ingress.value.domain)) && (MonitorsPods(spec) ==> Exports(spec)) && spec.replicas >= 0
    ensures ValidateUpdate(stored, spec) == ValidateCreate(spec)
  {
    if Exposes(spec) {
      PatternIsGrammar(spec.ingress.value.domain);
      assert FirstDot("") == 0;
    }
  }

  /** Exactly which field a refusal names: the first that is wrong, of ingress, monitoring and replicas. */
  lemma RefusedIff(spec: Spec)
    ensures ValidateCreate(spec) == Refused("spec.ingress.domain") <==> Exposes(spec) && !IsFqdn(spec.ingress.value.domain)
    ensures ValidateCreate(spec) == Refused("spec.monitoring.exporter.enabled") <==>
              && (Exposes(spec) ==> IsFqdn(spec.ingress.value.domain))
              && MonitorsPods(spec) && spec.monitoring.value.exporter.Some? && !Exports(spec)
    ensures ValidateCreate(spec) == Refused("spec.replicas") <==>
              (Exposes(spec) ==> IsFqdn(spec.ingress.value.domain)) && (MonitorsPods(spec) ==> Exports(spec)) && spec.replicas < 0
    ensures ValidateCreate(spec).Refused? ==>
              ValidateCreate(spec).field in {"spec.ingress.domain", "spec.monitoring.exporter.enabled", "spec.replicas"}
  {
    if Exposes(spec) {
      PatternIsGrammar(spec.ingress.value.domain);
      assert FirstDot("") == 0;
    }
    FieldsDiffer();
  }

  lemma FieldsDiffer()
    ensures "spec.ingress.domain" != "spec.monitoring.exporter.enabled"
    ensures "spec.replicas" !in {"spec.ingress.domain", "spec.monitoring.exporter.enabled"}
  {
    assert "spec.ingress.domain"[5] == 'i' && "spec.monitoring.exporter.enabled"[5] == 'm' && "spec.replicas"[5] == 'r';
  }

  /** Exactly when the validators panic. */
  lemma PanicsIff(spec: Spec)
    ensures ValidateCreate(spec).Panicked? <==>
              && (Exposes(spec) ==> IsFqdn(spec.ingress.value.domain))
              && MonitorsPods(spec) && spec.monitoring.value.exporter.None?
  {
    if Exposes(spec) {
      PatternIsGrammar(spec.ingress.value.domain);
      assert FirstDot("") == 0;
    }
  }

  /** Such a specification: an enabled pod monitor and no exporter block. */
  lemma PanicHappens()
    ensures ValidateCreate(Spec(1, None, None, None, Some(MonitoringSpec(None, Some(PodMonitorSpec(true)))), None, None, "")).Panicked?
  {
  }

  /** Defaulting first takes the panic away and otherwise leaves the verdict as it would have been. */
  lemma DefaultThenValidate(spec: Spec, defaulted: Spec)
    requires Fills(spec, defaulted) && Complete(defaulted)
    ensures !ValidateCreate(defaulted).Panicked?
    ensures !ValidateCreate(spec).Panicked? ==> ValidateCreate(defaulted) == ValidateCreate(spec)
    ensures ValidateCreate(spec).Panicked? ==> ValidateCreate(defaulted) == Refused("spec.monitoring.exporter.enabled")
  {
  }
}
