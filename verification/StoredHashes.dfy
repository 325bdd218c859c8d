/** The hashes that a run leaves, by literal names, and the reconcile around the run. */
module StoredHashes {
  import opened Common
  import opened Api
  import opened ClusterModel
  import opened Steps
  import opened Runner
  import opened Frames
  import opened Rollout
  import opened Controller
  import opened StoredObjects
  import DataHash
  import Coherence
  import RbacCoherence
  import MissingSecrets
  import StatusMeaning
  import Verdicts
  import KC = KeplerConfig

  // ---- with RBAC ------------------------------------------------------------

  /** The annotations of the stored DaemonSet's pods, and of the stored ServiceMonitor. */
  function PodAnnotations(job: Job, s: Server): map<string, string> {
    var d := Peek(s, Key(DaemonSet, job.spec.deployment.namespace, job.name));
    if d.Some? then d.value.applied.maps.template else map[]
  }

  function MonitorAnnotations(job: Job, s: Server): map<string, string> {
    var m := Peek(s, Key(ServiceMonitor, job.spec.deployment.namespace, job.name));
    if m.Some? then m.value.applied.maps.annotations else map[]
  }

  /** The annotation is the digest of the stored object's data: its keys in order, each with its value. */
  ghost predicate IsHashOf(job: Job, annotation: Option<string>, s: Server, key: Key) {
    Peek(s, key).Some? && annotation == Some(job.lib.hash(DataHash.HashInput(Data(Peek(s, key).value))))
  }

  /** Where each checked object's hash is kept. */
  lemma ProbesByName(job: Job)
    ensures var ns := job.spec.deployment.namespace;
            && |Probes(job)| == (if EnableUWM(job.spec) then 4 else 2)
            && Probes(job)[0] == Probe(Key(Secret, ns, "power-monitor-kube-rbac-proxy-config"), false,
                 "powermonitor.sustainable.computing.io/secret-tls-hash" + "-" + "power-monitor-kube-rbac-proxy-config")
            && Probes(job)[1] == Probe(Key(Secret, ns, "power-monitor-tls"), false,
                 "powermonitor.sustainable.computing.io/secret-tls-hash" + "-" + "power-monitor-tls")
  {
  }

  lemma MonitorProbesByName(job: Job)
    requires EnableUWM(job.spec)
    ensures var ns := job.spec.deployment.namespace;
            && |Probes(job)| == 4
            && Probes(job)[2] == Probe(Key(ConfigMap, ns, "power-monitor-serving-certs-ca-bundle"), true,
                 "powermonitor.sustainable.computing.io/configmap-ca-bundle" + "-"
                 + "power-monitor-serving-certs-ca-bundle")
            && Probes(job)[3] == Probe(Key(Secret, ns, "prometheus-user-workload-token"), true,
                 "powermonitor.sustainable.computing.io/secret-token-hash" + "-" + "prometheus-user-workload-token")
  {
  }

  /** After an update run with a clean verdict in mode rbac the pods carry the hashes of the proxy's
      rules and of its certificate as they are stored. */
  lemma ProxyHashesStored(env: Env, job: Job, w: World)
    requires !job.deleting && Verdicts.Clean(Run(env, job, Steps.Reconcilers(job), w).0) && Quiet(env)
    requires job.spec.deployment.mode == "rbac"
    ensures var end, ns := EndOf(env, job, w), job.spec.deployment.namespace;
            var prefix := "powermonitor.sustainable.computing.io/secret-tls-hash" + "-";
            && IsHashOf(job, Lookup(PodAnnotations(job, end), prefix + "power-monitor-kube-rbac-proxy-config"), end,
                        Key(Secret, ns, "power-monitor-kube-rbac-proxy-config"))
            && IsHashOf(job, Lookup(PodAnnotations(job, end), prefix + "power-monitor-tls"), end,
                        Key(Secret, ns, "power-monitor-tls"))
  {
    Verdicts.CleanVerdictMeansFine(env, job, w);
    ProbesByName(job);
    RbacCoherence.RbacHashCoherence(env, job, w, 0);
    RbacCoherence.RbacHashCoherence(env, job, w, 1);
  }

  /** With user-workload monitoring the ServiceMonitor carries those of the CA bundle and the token. */
  lemma MonitorHashesStored(env: Env, job: Job, w: World)
    requires !job.deleting && Verdicts.Clean(Run(env, job, Steps.Reconcilers(job), w).0) && Quiet(env)
    requires WantsToken(job)
    ensures var end, ns := EndOf(env, job, w), job.spec.deployment.namespace;
            && IsHashOf(job, Lookup(MonitorAnnotations(job, end),
                                    "powermonitor.sustainable.computing.io/configmap-ca-bundle" + "-"
                                    + "power-monitor-serving-certs-ca-bundle"), end,
                        Key(ConfigMap, ns, "power-monitor-serving-certs-ca-bundle"))
            && IsHashOf(job, Lookup(MonitorAnnotations(job, end),
                                    "powermonitor.sustainable.computing.io/secret-token-hash" + "-"
                                    + "prometheus-user-workload-token"), end,
                        Key(Secret, ns, "prometheus-user-workload-token"))
  {
    Verdicts.CleanVerdictMeansFine(env, job, w);
    ModesByName(job.spec);
    MonitorProbesByName(job);
    RbacCoherence.RbacHashCoherence(env, job, w, 2);
    RbacCoherence.RbacHashCoherence(env, job, w, 3);
  }

  // ---- the configuration's hash, in any mode --------------------------------

  lemma CheckerSparesConfig(env: Env, job: Job, w: World)
    ensures Lookup(Step(env, job, ObjectsChecker, w).1.template, ConfigAnnotation(job.name))
         == Lookup(w.template, ConfigAnnotation(job.name))
  {
    if EnableRBAC(job.spec) {
      Coherence.ConfigAnnotationIsApart(job.name, PROXY_CONFIG_SECRET);
      Coherence.ConfigAnnotationIsApart(job.name, TLS_CERT_SECRET);
      ConfigIsApartFromBundle(job.name);
      RbacCoherence.CheckKeepsOthers(env, job, Probes(job), w, ConfigAnnotation(job.name));
    }
  }

  lemma ConfigIsApartFromBundle(name: string)
    ensures ConfigAnnotation(name) != CA_BUNDLE_HASH + "-" + CA_BUNDLE_CONFIG_MAP
    ensures ConfigAnnotation(name) != SECRET_TOKEN_HASH + "-" + UWM_TOKEN_SECRET
  {
    var at := |"powermonitor.sustainable.computing.io/"|;
    assert ConfigAnnotation(name)[at + 6] == CONFIG_MAP_HASH[at + 6] == '-';
    assert (CA_BUNDLE_HASH + "-" + CA_BUNDLE_CONFIG_MAP)[at + 6] == CA_BUNDLE_HASH[at + 6] == 'm';
    assert (SECRET_TOKEN_HASH + "-" + UWM_TOKEN_SECRET)[at] == SECRET_TOKEN_HASH[at] == 's';
    assert ConfigAnnotation(name)[at] == CONFIG_MAP_HASH[at] == 'c';
  }

  lemma DeployedHash(env: Env, job: Job, w: World) returns (text: string)
    requires Fine(Deploy(env, job, w).0) && Leaves(env, ConfigKey(job))
    ensures var (_, w') := Deploy(env, job, w);
            && AppliedPart(w'.server, ConfigKey(job)) == Some(ConfigFields(text))
            && Lookup(w'.template, ConfigAnnotation(job.name)) == Some(job.lib.hash(text))
  {
    var (read, s1) := ReadConfigMaps(env, job, w.server, job.spec.config.additionalConfigMaps, []);
    text := KC.Generate(job.lib.host, job.spec.config, Documents(read.objects)).text;
    UpdateSettles(env, s1, ConfigKey(job), ConfigFields(text), Continue);
  }

  /** Deployer and checker together leave the stored configuration's hash in the template. */
  lemma ConfigHashAtChecker(env: Env, job: Job, w: World) returns (text: string)
    requires !job.deleting && AllFine(env, job, UpdateSteps(job), w) && Leaves(env, ConfigKey(job))
    requires !IsDashboard(job)
    ensures AppliedPart(EndOf(env, job, w), ConfigKey(job)) == Some(ConfigFields(text))
    ensures Lookup(Exec(env, job, BeforeWorkload(job) + [Deployer, ObjectsChecker], w).template,
                   ConfigAnnotation(job.name)) == Some(job.lib.hash(text))
  {
    var pre := BeforeWorkload(job);
    var before := Exec(env, job, pre, w);
    ConfigIsSettled(job);
    EndsAsLastWritten(env, job, pre, Deployer, [ObjectsChecker, DaemonSetUpdater, MonitorStep] + Dashboards(job), w,
                      ConfigKey(job));
    Coherence.DeployerDeploys(env, job, before);
    text := DeployedHash(env, job, before);
    ExecLast(env, job, pre, Deployer, w);
    RbacCoherence.CheckerInRun(env, job, w);
    CheckerSparesConfig(env, job, Exec(env, job, RbacCoherence.BeforeChecker(job), w));
  }

  /** After an update run with a clean verdict, in any mode, the pods carry the hash of the stored
      configuration. */
  lemma ConfigHashStored(env: Env, job: Job, w: World) returns (text: string)
    requires !job.deleting && Verdicts.Clean(Run(env, job, Steps.Reconcilers(job), w).0) && Quiet(env)
    requires !IsDashboard(job)
    ensures AppliedPart(EndOf(env, job, w), Key(ConfigMap, job.spec.deployment.namespace, job.name))
         == Some(Fields(Maps(map[], map["config.yaml" := text], map[]), Plain))
    ensures Lookup(PodAnnotations(job, EndOf(env, job, w)),
                   "powermonitor.sustainable.computing.io/config-map-hash" + "-" + job.name) == Some(job.lib.hash(text))
  {
    Verdicts.CleanVerdictMeansFine(env, job, w);
    QuietLeaves(env, ConfigKey(job));
    text := ConfigHashAtChecker(env, job, w);
    MissingSecrets.DaemonSetEnds(env, job, w);
  }

  // ---- the reconcile --------------------------------------------------------

  lemma {:induction false} QuietStatusPass(env: Env, setup: Setup, s: Server, recErr: Option<Error>, attempts: nat)
    requires Quiet(env) && attempts > 0
    ensures StatusPass(env, setup, s, recErr, attempts).1.store.objects == s.store.objects
    decreases attempts
  {
    StatusMeaning.QuietAttempt(env, setup, s, recErr);
    if attempts > 1 {
      QuietStatusPass(env, setup, StatusAttempt(env, setup, s, recErr).1, recErr, attempts - 1);
    }
  }

  /** Apart from its run a reconcile writes no object, and a clean verdict is its run's. */
  lemma ReconcileIsItsRun(env: Env, setup: Setup, s: Server, p: Pmi)
    requires Quiet(env) && GetPmiCall(env, s).0 == PmiFound(p) && Verdicts.Clean(Reconcile(env, setup, s).0)
    ensures var job := Job(setup.name, p.spec, p.deleting, setup.platform, setup.ttl, setup.lib);
            var w := World(Ticked(env, s), map[], map[]);
            && Verdicts.Clean(Run(env, job, Steps.Reconcilers(job), w).0)
            && Reconcile(env, setup, s).1.store.objects == EndOf(env, job, w).store.objects
  {
    var job := Job(setup.name, p.spec, p.deleting, setup.platform, setup.ttl, setup.lib);
    var (verdict, w') := Run(env, job, Steps.Reconcilers(job), World(Ticked(env, s), map[], map[]));
    if verdict.Verdict? {
      QuietStatusPass(env, setup, w'.server, verdict.error, STATUS_ATTEMPTS);
    }
  }

  /** What a reconcile of a live resource leaves when it reports nothing but missing Secrets, asks for
      no delay, and nobody else writes objects meanwhile: the access objects, the Service and the
      OpenShift objects, a configuration, and pods that carry its hash. */
  lemma ReconcileStores(env: Env, setup: Setup, s: Server, p: Pmi) returns (text: string)
    requires Quiet(env) && GetPmiCall(env, s).0 == PmiFound(p) && !p.deleting
    requires Verdicts.Clean(Reconcile(env, setup, s).0)
    requires !IsDashboard(JobFor(setup, p))
    ensures var job := Job(setup.name, p.spec, false, setup.platform, setup.ttl, setup.lib);
            var end := Reconcile(env, setup, s).1;
            && AccessStands(job, end)
            && AppliedPart(end, Key(ConfigMap, p.spec.deployment.namespace, setup.name))
                 == Some(Fields(Maps(map[], map["config.yaml" := text], map[]), Plain))
            && Lookup(PodAnnotations(job, end),
                      "powermonitor.sustainable.computing.io/config-map-hash" + "-" + setup.name)
                 == Some(setup.lib.hash(text))
  {
    var job := Job(setup.name, p.spec, false, setup.platform, setup.ttl, setup.lib);
    var w := World(Ticked(env, s), map[], map[]);
    ReconcileIsItsRun(env, setup, s, p);
    AccessStored(env, job, w);
    text := ConfigHashStored(env, job, w);
    SameObjects(job, EndOf(env, job, w), Reconcile(env, setup, s).1);
  }

  lemma SameObjects(job: Job, a: Server, b: Server)
    requires a.store.objects == b.store.objects
    ensures AccessStands(job, a) ==> AccessStands(job, b)
    ensures PodAnnotations(job, a) == PodAnnotations(job, b)
    ensures forall key :: AppliedPart(a, key) == AppliedPart(b, key)
  {
  }
}
