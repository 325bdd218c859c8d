/** The reconcilers and the runner as the operator executes them, against one cluster and the two
    in-memory objects that the steps of a run share. */
module Reconcilers {
  import opened Common
  import opened Api
  import opened ClusterModel
  import opened Steps
  import opened Runner
  import DataHash
  import KC = KeplerConfig

  /** The annotations of an object that has not been applied yet. */
  class ObjectMeta {
    var annotations: map<string, string>

    constructor ()
      ensures annotations == map[]
    {
      annotations := map[];
    }

    method SetAnnotation(key: string, value: string)
      modifies this
      ensures annotations == old(annotations)[key := value]
    {
      annotations := annotations[key := value];
    }

    /** Annotates with the hash of a Secret's or a whole ConfigMap's data. */
    method AnnotateWithContentHash(key: string, lib: Lib, o: Object)
      modifies this
      ensures annotations == old(annotations)[key := ContentHash(lib, o)]
    {
      var hash := DataHash.ComputeHash(Data(o), lib.hash);
      SetAnnotation(key, hash);
    }
  }

  class Session {
    const job: Job
    const cluster: Cluster
    const template: ObjectMeta
    const monitor: ObjectMeta

    ghost predicate Valid() {
      template != monitor
    }

    ghost function State(): World
      reads cluster, template, monitor
    {
      World(cluster.State(), template.annotations, monitor.annotations)
    }

    constructor (job: Job, cluster: Cluster)
      ensures Valid() && fresh(template) && fresh(monitor)
      ensures this.job == job && this.cluster == cluster
      ensures State() == World(cluster.State(), map[], map[])
    {
      this.job, this.cluster := job, cluster;
      template := new ObjectMeta();
      monitor := new ObjectMeta();
    }

    method Update(key: Key, f: Fields, onError: Action) returns (r: Result)
      modifies cluster
      ensures (r, cluster.State()) == Steps.Update(cluster.env, old(cluster.State()), key, f, onError)
    {
      var err := cluster.Patch(key, f);
      if err.Some? {
        if err.value == ConflictError {
          return Result(Requeue, None);
        }
        return Result(onError, err);
      }
      return OK;
    }

    method Remove(key: Key, onError: Action, wait: nat) returns (r: Result)
      modifies cluster
      ensures (r, cluster.State()) == Steps.Remove(cluster.env, old(cluster.State()), key, onError, wait)
    {
      var err := cluster.Delete(key);
      if err.Some? {
        return Result(onError, err);
      }
      ghost var deleted := cluster.State();
      var attempts := DeleterPolls(wait);
      while attempts > 0
        invariant PollAbsent(cluster.env, deleted, key, DeleterPolls(wait))
             == PollAbsent(cluster.env, cluster.State(), key, attempts)
        decreases attempts
      {
        var got := cluster.Get(key);
        if got == Missing {
          return OK;
        }
        attempts := attempts - 1;
      }
      return Result(onError, Some(OtherError("timed out waiting for deletion")));
    }

    /** retryWithTimeout around a read. */
    method AwaitObject(key: Key, required: bool) returns (r: GetResult)
      modifies cluster
      ensures (r, cluster.State()) == Await(cluster.env, old(cluster.State()), key, required, AwaitPolls(job), TIMEOUT)
    {
      var attempts := AwaitPolls(job);
      var last := TIMEOUT;
      while attempts > 0
        invariant Await(cluster.env, old(cluster.State()), key, required, AwaitPolls(job), TIMEOUT)
               == Await(cluster.env, cluster.State(), key, required, attempts, last)
        decreases attempts
      {
        r := cluster.Get(key);
        if r.Found? || (r.Missing? && !required) {
          return;
        }
        last := if r.Missing? then OtherError("missing " + key.name) else r.error;
        attempts := attempts - 1;
      }
      r := GetFailed(last);
    }

    method MountSecrets() returns (r: Result)
      requires Valid()
      modifies cluster, template
      ensures (r, State()) == Step(cluster.env, job, SecretMounter, old(State()))
    {
      var refs := job.spec.deployment.secrets;
      var names := SecretNames(refs);
      var missing: seq<string> := [];
      for i := 0 to |refs|
        invariant Steps.MountSecrets(cluster.env, job, old(cluster.State()), names, old(template.annotations), [])
               == Steps.MountSecrets(cluster.env, job, cluster.State(), names[i..], template.annotations, missing)
      {
        assert names[i..][1..] == names[i + 1..];
        var got := cluster.Get(Key(Secret, Ns(job), refs[i].name));
        match got {
          case Missing =>
            missing := missing + [refs[i].name];
          case GetFailed(e) =>
            return Result(Stop, Some(OtherError("failed to get secret " + refs[i].name + ": " + Message(e))));
          case Found(o) =>
            template.AnnotateWithContentHash(SecretAnnotation(refs[i].name), job.lib, o);
        }
      }
      if |missing| > 0 {
        return Result(Continue, Some(SecretNotFound(missing, Ns(job))));
      }
      return OK;
    }

    method ReadAdditionalConfigs() returns (read: ReadResult)
      modifies cluster
      ensures (read, cluster.State())
           == ReadConfigMaps(cluster.env, job, old(cluster.State()), job.spec.config.additionalConfigMaps, [])
    {
      var names := job.spec.config.additionalConfigMaps;
      var configMaps: seq<Object> := [];
      for i := 0 to |names|
        invariant ReadConfigMaps(cluster.env, job, old(cluster.State()), names, [])
               == ReadConfigMaps(cluster.env, job, cluster.State(), names[i..], configMaps)
      {
        assert names[i..][1..] == names[i + 1..];
        var got := cluster.Get(Key(ConfigMap, Ns(job), names[i]));
        match got {
          case Missing =>
            return Unread(OtherError("configMap " + names[i] + " not found in " + Ns(job) + " namespace"));
          case GetFailed(e) =>
            return Unread(OtherError("failed to get ConfigMap " + names[i] + ": " + Message(e)));
          case Found(o) =>
            configMaps := configMaps + [o];
        }
      }
      return Read(configMaps);
    }

    method ExtractDocuments(configMaps: seq<Object>) returns (docs: seq<string>)
      ensures docs == Documents(configMaps)
    {
      docs := [];
      for i := 0 to |configMaps|
        invariant docs == Documents(configMaps[..i])
      {
        assert configMaps[..i + 1][..i] == configMaps[..i];
        var data := Data(configMaps[i]);
        if CONFIG_FILE in data && data[CONFIG_FILE] != "" {
          docs := docs + [data[CONFIG_FILE]];
        }
      }
      assert configMaps[..|configMaps|] == configMaps;
    }

    method DeployConfig() returns (r: Result)
      requires Valid()
      modifies cluster, template
      ensures (r, State()) == Step(cluster.env, job, Deployer, old(State()))
    {
      var read := ReadAdditionalConfigs();
      if read.Unread? {
        return Result(Stop, Some(OtherError("error creating config: " + Message(read.error))));
      }
      var docs := ExtractDocuments(read.objects);
      var generation := KC.KeplerConfigFor(job.lib.host, job.spec.config, docs);
      if generation.Failed? {
        return Result(Stop, Some(OtherError("error creating configmap: " + generation.reason)));
      }
      template.SetAnnotation(ConfigAnnotation(job.name), job.lib.hash(generation.text));
      r := Update(ConfigKey(job), ConfigFields(generation.text), Continue);
    }

    method IssueToken() returns (r: Result)
      modifies cluster
      ensures (r, cluster.State()) == Issue(cluster.env, job, old(cluster.State()))
    {
      var call := cluster.calls;
      var fate := cluster.Begin();
      if fate != Healthy {
        return Result(Stop, Some(FaultError(fate)));
      }
      var stamp := job.lib.formatTime(FloorSecond(cluster.env.now(cluster.calls) + job.ttl));
      r := Update(TokenSecretKey(job), TokenFields(cluster.env.token(call), stamp), Continue);
    }

    method ReconcileToken() returns (r: Result)
      modifies cluster
      ensures (r, cluster.State()) == TokenStep(cluster.env, job, old(cluster.State()))
    {
      if !EnableRBAC(job.spec) || !EnableUWM(job.spec) {
        r := Remove(TokenSecretKey(job), Continue, 0);
        return;
      }
      var account := AwaitObject(UwmAccountKey(), true);
      if !account.Found? {
        return Result(Stop, Some(if account.GetFailed? then account.error else TIMEOUT));
      }
      var stored := AwaitObject(TokenSecretKey(job), false);
      if stored.GetFailed? {
        return Result(Stop, Some(stored.error));
      }
      if stored.Found? {
        var expiration := ExpirationOf(job.lib, stored.item);
        if expiration.Malformed? {
          return Result(Stop, Some(OtherError("error occurred while retrieving expiration date")));
        }
        if expiration.Unannotated? {
          return Panic; // the expiration pointer is nil here
        }
        if !(cluster.env.now(cluster.calls) > expiration.time - TOKEN_BUFFER) {
          return OK;
        }
      }
      r := IssueToken();
    }

    method Check() returns (r: Result)
      requires Valid()
      modifies cluster, template, monitor
      ensures (r, State()) == Step(cluster.env, job, ObjectsChecker, old(State()))
    {
      if !EnableRBAC(job.spec) {
        return OK;
      }
      var probes := Probes(job);
      for i := 0 to |probes|
        invariant CheckAll(cluster.env, job, probes, old(State())) == CheckAll(cluster.env, job, probes[i..], State())
      {
        assert probes[i..][1..] == probes[i + 1..];
        var got := AwaitObject(probes[i].key, true);
        if !got.Found? {
          return Result(Stop, Some(if got.GetFailed? then got.error else TIMEOUT));
        }
        if probes[i].onMonitor {
          monitor.AnnotateWithContentHash(probes[i].annotation, job.lib, got.item);
        } else {
          template.AnnotateWithContentHash(probes[i].annotation, job.lib, got.item);
        }
      }
      return OK;
    }

    method Finalize() returns (r: Result)
      modifies cluster
      ensures (r, cluster.State()) == FinalizerStep(cluster.env, old(cluster.State()))
    {
      var got := cluster.GetPmi();
      if got.PmiMissing? {
        return OK;
      }
      if got.PmiFailed? {
        return Result(Requeue, Some(got.error));
      }
      var p := got.pmi;
      if p.deleting && FINALIZER in p.finalizers {
        var err := cluster.UpdatePmi(p, p.(finalizers := p.finalizers - {FINALIZER}));
        return Result(Stop, err);
      }
      if !p.deleting && FINALIZER !in p.finalizers {
        var err := cluster.UpdatePmi(p, p.(finalizers := p.finalizers + {FINALIZER}));
        return Result(Stop, err);
      }
      return OK;
    }

    method Reconcile(reconciler: Reconciler) returns (r: Result)
      requires Valid()
      modifies cluster, template, monitor
      ensures (r, State()) == Step(cluster.env, job, reconciler, old(State()))
    {
      var rbac, uwm := EnableRBAC(job.spec), EnableUWM(job.spec);
      match reconciler {
        case Updater(key, fields, onError) =>
          r := Update(key, fields, onError);
        case DaemonSetUpdater =>
          r := Update(DaemonSetKey(job), DaemonSetFields(job, template.annotations), Continue);
        case Deleter(key, onError, wait) =>
          r := Remove(key, onError, wait);
        case SecretMounter =>
          r := MountSecrets();
        case Deployer =>
          r := DeployConfig();
        case ProxyConfig =>
          if !rbac {
            r := Remove(ProxyConfigKey(job), Continue, 0);
          } else {
            r := Update(ProxyConfigKey(job), ProxyConfigFields(job), Continue);
          }
        case CABundle =>
          if !rbac || !uwm {
            r := Remove(CABundleKey(job), Continue, 0);
          } else {
            r := Update(CABundleKey(job), CA_BUNDLE_FIELDS, Continue);
          }
        case UWMToken =>
          r := ReconcileToken();
        case ObjectsChecker =>
          r := Check();
        case MonitorStep =>
          if rbac && !uwm {
            r := Remove(MonitorKey(job), Continue, 0);
          } else {
            r := Update(MonitorKey(job), MonitorFields(job, monitor.annotations), Continue);
          }
        case Finalizer =>
          r := Finalize();
      }
    }

    /** Runner.Run. */
    method Run(reconcilers: seq<Reconciler>) returns (verdict: Verdict)
      requires Valid()
      modifies cluster, template, monitor
      ensures (verdict, State()) == Runner.Run(cluster.env, job, reconcilers, old(State()))
    {
      var err: Option<Error> := None;
      for i := 0 to |reconcilers|
        invariant Runner.Run(cluster.env, job, reconcilers, old(State()))
               == RunFrom(cluster.env, job, reconcilers[i..], State(), err)
      {
        assert reconcilers[i..][1..] == reconcilers[i + 1..];
        var result := Reconcile(reconcilers[i]);
        if result.Panic? {
          return Panicked;
        }
        if result.error.Some? {
          err := result.error;
        }
        match result.action {
          case Continue =>
          case Stop =>
            return Verdict(err.None?, 0, err);
          case Requeue =>
            return Verdict(false, REQUEUE_DELAY, None);
        }
      }
      return Verdict(false, 0, err);
    }
  }

  // ---- building the lists ---------------------------------------------------

  method OpenShiftClusterResources(job: Job) returns (rs: seq<Reconciler>)
    ensures rs == Scc(job)
  {
    if job.platform != OpenShift || !job.spec.openshift {
      return [];
    }
    return [Updater(SccKey(job), Bare(SccBody("system:serviceaccount:" + Ns(job) + ":" + job.name)), Continue)];
  }

  method OpenShiftDashboards(job: Job) returns (names: seq<string>)
    ensures names == if job.platform != OpenShift || !job.spec.openshift || !job.spec.dashboard then []
                     else [OVERVIEW_DASHBOARD, NAMESPACE_DASHBOARD]
  {
    if job.platform != OpenShift || !job.spec.openshift {
      return [];
    }
    names := [];
    if job.spec.dashboard {
      names := names + [OVERVIEW_DASHBOARD, NAMESPACE_DASHBOARD];
    }
  }

  method PowerMonitorExporters(job: Job) returns (rs: seq<Reconciler>)
    ensures job.deleting ==> rs + [Deleter(NamespaceKey(job), Requeue, 120)] == CleanupSteps(job)
    ensures !job.deleting ==> [Updater(NamespaceKey(job), Bare(Plain), Requeue), SecretMounter] + rs == UpdateSteps(job)
  {
    var dashboards := OpenShiftDashboards(job);
    if job.deleting {
      rs := [Deleter(BindingKey(job), Continue, 0), Deleter(RoleKey(job), Continue, 0)];
      for i := 0 to |dashboards|
        invariant |rs| == 2 + i
        invariant rs[..2] == [Deleter(BindingKey(job), Continue, 0), Deleter(RoleKey(job), Continue, 0)]
        invariant forall j :: 0 <= j < i ==> rs[2 + j] == Deleter(DashboardKey(dashboards[j]), Continue, 0)
      {
        rs := rs + [Deleter(DashboardKey(dashboards[i]), Continue, 0)];
      }
      assert rs == rs[..2] + rs[2..];
      assert rs[2..] == DashboardDeleters(job) by {
        if |dashboards| > 0 {
          assert rs[2 + 0] == Deleter(DashboardKey(dashboards[0]), Continue, 0);
          assert rs[2 + 1] == Deleter(DashboardKey(dashboards[1]), Continue, 0);
        }
      }
      return;
    }
    rs := [Updater(RoleKey(job), Bare(RoleBody(EnableRBAC(job.spec))), Continue),
           Updater(BindingKey(job), Bare(BindingBody(job.name, Ns(job))), Continue)];
    var scc := OpenShiftClusterResources(job);
    rs := rs + scc;
    rs := rs + [ProxyConfig, CABundle, UWMToken];
    rs := rs + [Updater(AccountKey(job), Bare(Plain), Continue),
                Updater(ServiceKey(job), ServiceFields(job), Continue)];
    rs := rs + [Deployer, ObjectsChecker];
    rs := rs + [DaemonSetUpdater];
    rs := rs + [MonitorStep];
    ghost var before := rs;
    for i := 0 to |dashboards|
      invariant |rs| == |before| + i && rs[..|before|] == before
      invariant forall j :: 0 <= j < i ==>
                  rs[|before| + j] == Updater(DashboardKey(dashboards[j]), Dashboard(dashboards[j]), Continue)
    {
      rs := rs + [Updater(DashboardKey(dashboards[i]), Dashboard(dashboards[i]), Continue)];
    }
    assert rs == rs[..|before|] + rs[|before|..];
    assert rs[|before|..] == Dashboards(job) by {
      if |dashboards| > 0 {
        assert rs[|before| + 0] == Updater(DashboardKey(dashboards[0]), Dashboard(dashboards[0]), Continue);
        assert rs[|before| + 1] == Updater(DashboardKey(dashboards[1]), Dashboard(dashboards[1]), Continue);
      }
    }
  }

  method ReconcilersForPowerMonitor(job: Job) returns (rs: seq<Reconciler>)
    ensures rs == Reconcilers(job)
  {
    rs := [];
    if !job.deleting {
      rs := rs + [Updater(NamespaceKey(job), Bare(Plain), Requeue)];
      rs := rs + [SecretMounter];
    }
    var exporters := PowerMonitorExporters(job);
    rs := rs + exporters;
    if job.deleting {
      rs := rs + [Deleter(NamespaceKey(job), Requeue, 120)];
    }
    rs := rs + [Finalizer];
  }
}
