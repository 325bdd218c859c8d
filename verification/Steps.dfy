/** What each reconciler does, as a function of the outside world and the state it meets. */
module Steps {
  import opened Common
  import opened Api
  import opened ClusterModel
  import opened DataHash
  import KC = KeplerConfig
  import PodWiring

  datatype Action = Continue | Requeue | Stop

  /** `Panic` stands for the one nil dereference in the code. */
  datatype Result = Result(action: Action, error: Option<Error>) | Panic

  const OK := Result(Continue, None)

  /** Text functions outside this model: YAML, time stamps and the content hash. */
  datatype Lib = Lib(
    host: KC.Host,
    hash: string -> string,
    formatTime: int -> string,
    parseTime: string -> Option<int>,
    rules: seq<string> -> string)

  /** The resource as read at the start of a reconcile, and the operator's settings. */
  datatype Job = Job(name: string, spec: Spec, deleting: bool, platform: Platform, ttl: int, lib: Lib)

  /** The server and the two in-memory objects that the reconcilers of a run share: the
      annotations of the DaemonSet's pod template and of the ServiceMonitor. */
  datatype World = World(server: Server, template: map<string, string>, monitor: map<string, string>)

  datatype Reconciler =
    | Updater(key: Key, fields: Fields, onError: Action)
    | DaemonSetUpdater
    | Deleter(key: Key, onError: Action, wait: nat)
    | SecretMounter
    | Deployer
    | ProxyConfig
    | CABundle
    | UWMToken
    | ObjectsChecker
    | MonitorStep
    | Finalizer

  const SECOND: int := 1_000_000_000
  const TOKEN_BUFFER: int := 60 * SECOND

  // ---- names and manifests --------------------------------------------------

  function Ns(job: Job): string {
    job.spec.deployment.namespace
  }

  function NamespaceKey(job: Job): Key { Key(Namespace, "", Ns(job)) }
  function RoleKey(job: Job): Key { Key(ClusterRole, "", job.name) }
  function BindingKey(job: Job): Key { Key(ClusterRoleBinding, "", job.name) }
  function SccKey(job: Job): Key { Key(SecurityContextConstraints, "", job.name) }
  function ProxyConfigKey(job: Job): Key { Key(Secret, Ns(job), PROXY_CONFIG_SECRET) }
  function TlsKey(job: Job): Key { Key(Secret, Ns(job), TLS_CERT_SECRET) }
  function TokenSecretKey(job: Job): Key { Key(Secret, Ns(job), UWM_TOKEN_SECRET) }
  function CABundleKey(job: Job): Key { Key(ConfigMap, Ns(job), CA_BUNDLE_CONFIG_MAP) }
  function AccountKey(job: Job): Key { Key(ServiceAccount, Ns(job), job.name) }
  function ServiceKey(job: Job): Key { Key(Service, Ns(job), job.name) }
  function ConfigKey(job: Job): Key { Key(ConfigMap, Ns(job), job.name) }
  function DaemonSetKey(job: Job): Key { Key(DaemonSet, Ns(job), job.name) }
  function MonitorKey(job: Job): Key { Key(ServiceMonitor, Ns(job), job.name) }
  function UwmAccountKey(): Key { Key(ServiceAccount, UWM_NAMESPACE, UWM_SERVICE_ACCOUNT) }
  function DashboardKey(name: string): Key { Key(ConfigMap, DASHBOARD_NAMESPACE, name) }

  function Bare(body: Body): Fields { Fields(NO_MAPS, body) }

  function WithData(key: string, value: string): Fields {
    Fields(NO_MAPS.(data := map[key := value]), Plain)
  }

  function DaemonSetFields(job: Job, template: map<string, string>): Fields {
    Fields(NO_MAPS.(template := template), DaemonSetBody(PodWiring.PodFor(job.name, job.spec)))
  }

  function MonitorFields(job: Job, annotations: map<string, string>): Fields {
    Fields(NO_MAPS.(annotations := annotations), MonitorBody(EnableRBAC(job.spec), job.name + "." + Ns(job) + ".svc"))
  }

  function ServiceFields(job: Job): Fields {
    Fields(NO_MAPS.(annotations := if EnableRBAC(job.spec)
                                   then map["service.beta.openshift.io/serving-cert-secret-name" := TLS_CERT_SECRET]
                                   else map[]),
           ServiceBody(EnableRBAC(job.spec)))
  }

  const CA_BUNDLE_FIELDS :=
    Fields(NO_MAPS.(annotations := map["service.beta.openshift.io/inject-cabundle" := "true"]), Plain)

  function ProxyConfigFields(job: Job): Fields {
    WithData(CONFIG_FILE, job.lib.rules(job.spec.deployment.allowedSANames))
  }

  function TokenFields(token: string, stamp: string): Fields {
    Fields(NO_MAPS.(annotations := map[TOKEN_EXPIRATION := stamp], data := map[TOKEN_KEY := token]), Plain)
  }

  function SecretAnnotation(name: string): string { SECRET_TLS_HASH + "-" + name }
  function ConfigAnnotation(name: string): string { CONFIG_MAP_HASH + "-" + name }

  ghost function ContentHash(lib: Lib, o: Object): string {
    lib.hash(HashInput(Data(o)))
  }

  // ---- single operations ----------------------------------------------------

  function Update(env: Env, s: Server, key: Key, f: Fields, onError: Action): (Result, Server) {
    var (err, s') := PatchCall(env, s, key, f);
    match err
    case None => (OK, s')
    case Some(e) =>
      // a conflict means a stale cache: come back later, without an error
      if e == ConflictError then (Result(Requeue, None), s') else (Result(onError, Some(e)), s')
  }

  function DeleterPolls(wait: nat): nat {
    (if wait > 60 then wait else 60) / 5 + 1
  }

  function Remove(env: Env, s: Server, key: Key, onError: Action, wait: nat): (Result, Server) {
    var (err, s1) := DeleteCall(env, s, key);
    if err.Some? then (Result(onError, err), s1)
    else
      var (gone, s2) := PollAbsent(env, s1, key, DeleterPolls(wait));
      if gone then (OK, s2) else (Result(onError, Some(OtherError("timed out waiting for deletion"))), s2)
  }

  function AwaitPolls(job: Job): nat {
    if job.platform == OpenShift then 60 / 3 + 1 else 6 / 3 + 1
  }

  const TIMEOUT := OtherError("timeout")

  // ---- the reconcilers ------------------------------------------------------

  ghost function MountSecrets(env: Env, job: Job, s: Server, names: seq<string>, template: map<string, string>,
                              missing: seq<string>): (Result, Server, map<string, string>)
    decreases |names|
  {
    if |names| == 0 then
      (Result(Continue, if missing == [] then None else Some(SecretNotFound(missing, Ns(job)))), s, template)
    else
      var (r, s') := GetCall(env, s, Key(Secret, Ns(job), names[0]));
      match r
      case Found(o) =>
        var hash := ContentHash(job.lib, o);
        MountSecrets(env, job, s', names[1..], template[SecretAnnotation(names[0]) := hash], missing)
      case Missing => MountSecrets(env, job, s', names[1..], template, missing + [names[0]])
      case GetFailed(e) =>
        (Result(Stop, Some(OtherError("failed to get secret " + names[0] + ": " + Message(e)))), s', template)
  }

  datatype ReadResult = Read(objects: seq<Object>) | Unread(error: Error)

  function ReadConfigMaps(env: Env, job: Job, s: Server, names: seq<string>, sofar: seq<Object>): (ReadResult, Server)
    decreases |names|
  {
    if |names| == 0 then (Read(sofar), s)
    else
      var (r, s') := GetCall(env, s, Key(ConfigMap, Ns(job), names[0]));
      match r
      case Found(o) => ReadConfigMaps(env, job, s', names[1..], sofar + [o])
      case Missing => (Unread(OtherError("configMap " + names[0] + " not found in " + Ns(job) + " namespace")), s')
      case GetFailed(e) => (Unread(OtherError("failed to get ConfigMap " + names[0] + ": " + Message(e))), s')
  }

  function DocumentOf(o: Object): seq<string> {
    match Lookup(Data(o), CONFIG_FILE)
    case None => []
    case Some(text) => if text == "" then [] else [text]
  }

  function Documents(objects: seq<Object>): seq<string> {
    if |objects| == 0 then [] else Documents(objects[..|objects| - 1]) + DocumentOf(objects[|objects| - 1])
  }

  function ConfigFields(text: string): Fields {
    WithData(CONFIG_FILE, text)
  }

  function Deploy(env: Env, job: Job, w: World): (Result, World) {
    var (read, s1) := ReadConfigMaps(env, job, w.server, job.spec.config.additionalConfigMaps, []);
    var w1 := w.(server := s1);
    if read.Unread? then (Result(Stop, Some(OtherError("error creating config: " + Message(read.error)))), w1)
    else
      match KC.Generate(job.lib.host, job.spec.config, Documents(read.objects))
      case Failed(reason) => (Result(Stop, Some(OtherError("error creating configmap: " + reason))), w1)
      case Generated(text) =>
        var (r, s2) := Update(env, s1, ConfigKey(job), ConfigFields(text), Continue);
        (r, w1.(server := s2, template := w.template[ConfigAnnotation(job.name) := job.lib.hash(text)]))
  }

  datatype Expiration = Unannotated | Malformed | At(time: int)

  function ExpirationOf(lib: Lib, o: Object): Expiration {
    match Lookup(Annotations(o), TOKEN_EXPIRATION)
    case None => Unannotated
    case Some(stamp) =>
      match lib.parseTime(stamp)
      case None => Malformed
      case Some(t) => At(t)
  }

  /** Time stamps have whole seconds (RFC 3339, section 5.6, without a fraction). */
  function FloorSecond(t: int): int {
    t - t % SECOND
  }

  function Issue(env: Env, job: Job, s: Server): (Result, Server) {
    var s1 := Ticked(env, s);
    if env.fault(s.calls) != Healthy then (Result(Stop, Some(FaultError(env.fault(s.calls)))), s1)
    else
      var stamp := job.lib.formatTime(FloorSecond(env.now(s1.calls) + job.ttl));
      Update(env, s1, TokenSecretKey(job), TokenFields(env.token(s.calls), stamp), Continue)
  }

  /** The UWM token step once the stored token, if any, has been read. */
  function RenewToken(env: Env, job: Job, s: Server, stored: Option<Object>): (Result, Server) {
    if stored.None? then Issue(env, job, s)
    else
      match ExpirationOf(job.lib, stored.value)
      case Unannotated => (Panic, s)
      case Malformed => (Result(Stop, Some(OtherError("error occurred while retrieving expiration date"))), s)
      case At(t) => if env.now(s.calls) > t - TOKEN_BUFFER then Issue(env, job, s) else (OK, s)
  }

  function TokenStep(env: Env, job: Job, s: Server): (Result, Server) {
    if !EnableRBAC(job.spec) || !EnableUWM(job.spec) then Remove(env, s, TokenSecretKey(job), Continue, 0)
    else
      var (account, s1) := Await(env, s, UwmAccountKey(), true, AwaitPolls(job), TIMEOUT);
      if !account.Found? then (Result(Stop, Some(if account.GetFailed? then account.error else TIMEOUT)), s1)
      else
        var (stored, s2) := Await(env, s1, TokenSecretKey(job), false, AwaitPolls(job), TIMEOUT);
        match stored
        case GetFailed(e) => (Result(Stop, Some(e)), s2)
        case Missing => RenewToken(env, job, s2, None)
        case Found(o) => RenewToken(env, job, s2, Some(o))
  }

  /** One object that must exist, and where the hash of its content goes. */
  datatype Probe = Probe(key: Key, onMonitor: bool, annotation: string)

  function Probes(job: Job): seq<Probe> {
    [Probe(ProxyConfigKey(job), false, SecretAnnotation(PROXY_CONFIG_SECRET)),
     Probe(TlsKey(job), false, SecretAnnotation(TLS_CERT_SECRET))]
    + if EnableUWM(job.spec) then
        [Probe(CABundleKey(job), true, CA_BUNDLE_HASH + "-" + CA_BUNDLE_CONFIG_MAP),
         Probe(TokenSecretKey(job), true, SECRET_TOKEN_HASH + "-" + UWM_TOKEN_SECRET)]
      else []
  }

  ghost function Annotate(lib: Lib, w: World, p: Probe, o: Object): World {
    if p.onMonitor then w.(monitor := w.monitor[p.annotation := ContentHash(lib, o)])
    else w.(template := w.template[p.annotation := ContentHash(lib, o)])
  }

  ghost function CheckAll(env: Env, job: Job, probes: seq<Probe>, w: World): (Result, World)
    decreases |probes|
  {
    if |probes| == 0 then (OK, w)
    else
      var (r, s') := Await(env, w.server, probes[0].key, true, AwaitPolls(job), TIMEOUT);
      if r.Found? then CheckAll(env, job, probes[1..], Annotate(job.lib, w.(server := s'), probes[0], r.item))
      else (Result(Stop, Some(if r.GetFailed? then r.error else TIMEOUT)), w.(server := s'))
  }

  function FinalizerStep(env: Env, s: Server): (Result, Server) {
    var (r, s1) := GetPmiCall(env, s);
    match r
    case PmiMissing => (OK, s1)
    case PmiFailed(e) => (Result(Requeue, Some(e)), s1)
    case PmiFound(p) =>
      if p.deleting && FINALIZER in p.finalizers then
        var (err, s2) := UpdatePmiCall(env, s1, p, p.(finalizers := p.finalizers - {FINALIZER}));
        (Result(Stop, err), s2)
      else if !p.deleting && FINALIZER !in p.finalizers then
        var (err, s2) := UpdatePmiCall(env, s1, p, p.(finalizers := p.finalizers + {FINALIZER}));
        (Result(Stop, err), s2)
      else (OK, s1)
  }

  function On(w: World, step: (Result, Server)): (Result, World) {
    (step.0, w.(server := step.1))
  }

  ghost function Step(env: Env, job: Job, r: Reconciler, w: World): (Result, World) {
    match r
    case Updater(key, fields, onError) => On(w, Update(env, w.server, key, fields, onError))
    case DaemonSetUpdater => On(w, Update(env, w.server, DaemonSetKey(job), DaemonSetFields(job, w.template), Continue))
    case Deleter(key, onError, wait) => On(w, Remove(env, w.server, key, onError, wait))
    case SecretMounter =>
      var names := SecretNames(job.spec.deployment.secrets);
      var (result, s, template) := MountSecrets(env, job, w.server, names, w.template, []);
      (result, w.(server := s, template := template))
    case Deployer => Deploy(env, job, w)
    case ProxyConfig =>
      if EnableRBAC(job.spec) then On(w, Update(env, w.server, ProxyConfigKey(job), ProxyConfigFields(job), Continue))
      else On(w, Remove(env, w.server, ProxyConfigKey(job), Continue, 0))
    case CABundle =>
      if EnableRBAC(job.spec) && EnableUWM(job.spec) then
        On(w, Update(env, w.server, CABundleKey(job), CA_BUNDLE_FIELDS, Continue))
      else On(w, Remove(env, w.server, CABundleKey(job), Continue, 0))
    case UWMToken => On(w, TokenStep(env, job, w.server))
    case ObjectsChecker => if EnableRBAC(job.spec) then CheckAll(env, job, Probes(job), w) else (OK, w)
    case MonitorStep =>
      if EnableRBAC(job.spec) && !EnableUWM(job.spec) then On(w, Remove(env, w.server, MonitorKey(job), Continue, 0))
      else On(w, Update(env, w.server, MonitorKey(job), MonitorFields(job, w.monitor), Continue))
    case Finalizer => On(w, FinalizerStep(env, w.server))
  }

  // ---- the lists ------------------------------------------------------------

  function Scc(job: Job): seq<Reconciler> {
    if job.platform != OpenShift || !job.spec.openshift then []
    else [Updater(SccKey(job), Bare(SccBody("system:serviceaccount:" + Ns(job) + ":" + job.name)), Continue)]
  }

  function Dashboard(name: string): Fields {
    Fields(NO_MAPS, DashboardBody(name))
  }

  function Dashboards(job: Job): seq<Reconciler> {
    if job.platform != OpenShift || !job.spec.openshift || !job.spec.dashboard then []
    else [Updater(DashboardKey(OVERVIEW_DASHBOARD), Dashboard(OVERVIEW_DASHBOARD), Continue),
          Updater(DashboardKey(NAMESPACE_DASHBOARD), Dashboard(NAMESPACE_DASHBOARD), Continue)]
  }

  function DashboardDeleters(job: Job): seq<Reconciler> {
    if job.platform != OpenShift || !job.spec.openshift || !job.spec.dashboard then []
    else [Deleter(DashboardKey(OVERVIEW_DASHBOARD), Continue, 0),
          Deleter(DashboardKey(NAMESPACE_DASHBOARD), Continue, 0)]
  }

  function ClusterScoped(job: Job): seq<Reconciler> {
    [Updater(RoleKey(job), Bare(RoleBody(EnableRBAC(job.spec))), Continue),
     Updater(BindingKey(job), Bare(BindingBody(job.name, Ns(job))), Continue)]
    + Scc(job)
  }

  function Security(): seq<Reconciler> {
    [ProxyConfig, CABundle, UWMToken]
  }

  function Namespaced(job: Job): seq<Reconciler> {
    [Updater(AccountKey(job), Bare(Plain), Continue), Updater(ServiceKey(job), ServiceFields(job), Continue)]
  }

  function Workload(): seq<Reconciler> {
    [Deployer, ObjectsChecker, DaemonSetUpdater, MonitorStep]
  }

  /** The steps of an update run before the finalizer. */
  function UpdateSteps(job: Job): seq<Reconciler> {
    [Updater(NamespaceKey(job), Bare(Plain), Requeue), SecretMounter]
    + ClusterScoped(job) + Security() + Namespaced(job) + Workload() + Dashboards(job)
  }

  /** The steps of a cleanup run before the finalizer; only the last one can hold it up. */
  function CleanupSteps(job: Job): seq<Reconciler> {
    [Deleter(BindingKey(job), Continue, 0), Deleter(RoleKey(job), Continue, 0)]
    + DashboardDeleters(job)
    + [Deleter(NamespaceKey(job), Requeue, 120)]
  }

  function Reconcilers(job: Job): seq<Reconciler> {
    (if job.deleting then CleanupSteps(job) else UpdateSteps(job)) + [Finalizer]
  }
}
