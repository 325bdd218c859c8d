/** Resource types of the operator: specs, statuses, pods and errors. */
module Api {
  import opened Common

  // ---- fixed names ----------------------------------------------------------

  const CONFIG_FILE := "config.yaml"
  const CONFIG_MAP_HASH := "powermonitor.sustainable.computing.io/config-map-hash"
  const SECRET_TLS_HASH := "powermonitor.sustainable.computing.io/secret-tls-hash"
  const SECRET_TOKEN_HASH := "powermonitor.sustainable.computing.io/secret-token-hash"
  const CA_BUNDLE_HASH := "powermonitor.sustainable.computing.io/configmap-ca-bundle"
  const TOKEN_EXPIRATION := "powermonitor.sustainable.computing.io/secret-token-expiration"
  const TLS_CERT_SECRET := "power-monitor-tls"
  const PROXY_CONFIG_SECRET := "power-monitor-kube-rbac-proxy-config"
  const UWM_TOKEN_SECRET := "prometheus-user-workload-token"
  const CA_BUNDLE_CONFIG_MAP := "power-monitor-serving-certs-ca-bundle"
  const TOKEN_KEY := "token"
  const UWM_SERVICE_ACCOUNT := "prometheus-user-workload"
  const UWM_NAMESPACE := "openshift-user-workload-monitoring"
  const DASHBOARD_NAMESPACE := "openshift-config-managed"
  const OVERVIEW_DASHBOARD := "power-monitor-overview"
  const NAMESPACE_DASHBOARD := "power-monitor-namespace-info"
  const FINALIZER := "kepler.system.sustainable.computing.io/finalizer"
  const SYSFS_MOUNT := "/host/sys"
  const PROCFS_MOUNT := "/host/proc"

  // ---- spec -----------------------------------------------------------------

  datatype Platform = Kubernetes | OpenShift

  datatype SecretRef = SecretRef(name: string, mountPath: string, readOnly: Option<bool>)

  datatype Deployment = Deployment(
    image: string,
    proxyImage: string,
    namespace: string,
    nodeSelector: map<string, string>,
    tolerations: seq<string>,
    mode: string,
    allowedSANames: seq<string>,
    secrets: seq<SecretRef>)

  /** Durations are in nanoseconds. */
  datatype ConfigSpec = ConfigSpec(
    logLevel: string,
    additionalConfigMaps: seq<string>,
    metricLevels: seq<string>,
    staleness: Option<int>,
    sampleRate: Option<int>,
    maxTerminated: Option<int>)

  datatype Spec = Spec(deployment: Deployment, config: ConfigSpec, openshift: bool, dashboard: bool)

  predicate EnableRBAC(spec: Spec) {
    spec.deployment.mode == "rbac"
  }

  predicate EnableUWM(spec: Spec) {
    UWM_NAMESPACE + ":" + UWM_SERVICE_ACCOUNT in spec.deployment.allowedSANames
  }

  /** The two mode tests, spelled out. */
  lemma ModesByName(spec: Spec)
    ensures EnableRBAC(spec) <==> spec.deployment.mode == "rbac"
    ensures EnableUWM(spec) <==>
              "openshift-user-workload-monitoring:prometheus-user-workload" in spec.deployment.allowedSANames
  {
    assert UWM_NAMESPACE + ":" + UWM_SERVICE_ACCOUNT == "openshift-user-workload-monitoring:prometheus-user-workload";
  }

  function SecretNames(refs: seq<SecretRef>): (names: seq<string>)
    ensures |names| == |refs|
    ensures forall i :: 0 <= i < |refs| ==> names[i] == refs[i].name
  {
    seq(|refs|, i requires 0 <= i < |refs| => refs[i].name)
  }

  // ---- errors ---------------------------------------------------------------

  datatype Error =
    | ApiError(text: string)
    | ConflictError
    | SecretNotFound(missing: seq<string>, ns: string)
    | OtherError(text: string)

  function Message(e: Error): string {
    match e
    case ApiError(text) => text
    case ConflictError => "the object has been modified; please apply your changes to the latest version"
    case SecretNotFound(missing, ns) =>
      if |missing| == 1 then "secret " + missing[0] + " not found in " + ns + " namespace"
      else "secrets [" + Join(missing, " ") + "] not found in " + ns + " namespace"
    case OtherError(text) => text
  }

  // ---- status ---------------------------------------------------------------

  datatype ConditionType = Reconciled | Available | OtherType(name: string)

  datatype ConditionStatus = IsTrue | IsFalse | IsUnknown | IsDegraded

  datatype Reason =
    | NoReason
    | ReconcileComplete
    | ReconcileError
    | DaemonSetNotFound
    | DaemonSetError
    | DaemonSetOutOfSync
    | DaemonSetPodsNotRunning
    | DaemonSetRolloutInProgress
    | DaemonSetPartiallyAvailable
    | DaemonSetReady
    | SecretMissing
    | InvalidPowerMonitorResource

  datatype Condition = Condition(
    ctype: ConditionType,
    status: ConditionStatus,
    observedGeneration: int,
    lastTransition: int,
    reason: Reason,
    message: string)

  /** The seven DaemonSet counters mirrored into the resource's status. */
  datatype Counters = Counters(
    current: int,
    misscheduled: int,
    desired: int,
    ready: int,
    updated: int,
    available: int,
    unavailable: int)

  datatype Status = Status(kepler: Counters, conditions: seq<Condition>)

  /** A PowerMonitorInternal as stored by the API server. */
  datatype Pmi = Pmi(spec: Spec, generation: int, deleting: bool, finalizers: set<string>, status: Status)

  // ---- pods -----------------------------------------------------------------

  datatype VolumeSource = HostPath(path: string) | ConfigMapVolume(name: string) | SecretVolume(name: string)

  datatype Volume = Volume(name: string, source: VolumeSource)

  datatype Mount = Mount(name: string, path: string, readOnly: bool)

  datatype Container = Container(name: string, image: string, mounts: seq<Mount>)

  datatype PodSpec = PodSpec(
    nodeSelector: map<string, string>,
    tolerations: seq<string>,
    serviceAccount: string,
    containers: seq<Container>,
    volumes: seq<Volume>)
}
