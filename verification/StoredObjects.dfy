/** What stands in the cluster after a run that did its work, object by object. */
module StoredObjects {
  import opened Common
  import opened Api
  import opened ClusterModel
  import opened Steps
  import opened Runner
  import opened Frames
  import opened Rollout
  import ConfigSafety
  import FinalizerSafety
  import Failures
  import Verdicts
  import KC = KeplerConfig
  import PodWiring

  // ---- objects of one updater -----------------------------------------------

  /** The operator's part of a stored object. */
  function AppliedPart(s: Server, key: Key): Option<Fields> {
    if Peek(s, key).Some? then Some(Peek(s, key).value.applied) else None
  }

  predicate IsBare(s: Server, key: Key, body: Body) {
    AppliedPart(s, key) == Some(Fields(Maps(map[], map[], map[]), body))
  }

  /** The run is an update whose verdict reports nothing but missing Secrets, and nobody else
      touches the object. */
  ghost predicate DoneAlone(env: Env, job: Job, w: World, key: Key) {
    !job.deleting && Verdicts.Clean(Run(env, job, Reconcilers(job), w).0) && Leaves(env, key)
  }

  lemma UpdaterStores(env: Env, job: Job, w: World, pre: seq<Reconciler>, f: Fields, onError: Action,
                      post: seq<Reconciler>, key: Key)
    requires DoneAlone(env, job, w, key) && LastWriter(job, pre, Updater(key, f, onError), post, key)
    ensures AppliedPart(EndOf(env, job, w), key) == Some(f)
  {
    Verdicts.CleanVerdictMeansFine(env, job, w);
    EndsAsLastWritten(env, job, pre, Updater(key, f, onError), post, w, key);
    UpdateSettles(env, Exec(env, job, pre, w).server, key, f, onError);
  }

  lemma NamespaceStored(env: Env, job: Job, w: World)
    requires DoneAlone(env, job, w, Key(Namespace, "", job.spec.deployment.namespace))
    ensures IsBare(EndOf(env, job, w), Key(Namespace, "", job.spec.deployment.namespace), Plain)
  {
    FinalizerSafety.NamespaceIsSettled(job);
    UpdaterStores(env, job, w, [], Bare(Plain), Requeue, UpdateSteps(job)[1..], NamespaceKey(job));
  }

  lemma RoleIsLast(job: Job)
    ensures LastWriter(job, [Updater(NamespaceKey(job), Bare(Plain), Requeue), SecretMounter],
                       Updater(RoleKey(job), Bare(RoleBody(EnableRBAC(job.spec))), Continue),
                       ClusterScoped(job)[1..] + Security() + AfterSecurity(job), RoleKey(job))
  {
    assert ClusterScoped(job) == [ClusterScoped(job)[0]] + ClusterScoped(job)[1..];
  }

  /** Access: the role may review tokens exactly with RBAC. */
  lemma RoleStored(env: Env, job: Job, w: World)
    requires DoneAlone(env, job, w, Key(ClusterRole, "", job.name))
    ensures IsBare(EndOf(env, job, w), Key(ClusterRole, "", job.name), RoleBody(job.spec.deployment.mode == "rbac"))
  {
    RoleIsLast(job);
    UpdaterStores(env, job, w, [Updater(NamespaceKey(job), Bare(Plain), Requeue), SecretMounter],
                  Bare(RoleBody(EnableRBAC(job.spec))), Continue,
                  ClusterScoped(job)[1..] + Security() + AfterSecurity(job), RoleKey(job));
  }

  function UntilBinding(job: Job): seq<Reconciler> {
    [Updater(NamespaceKey(job), Bare(Plain), Requeue), SecretMounter,
     Updater(RoleKey(job), Bare(RoleBody(EnableRBAC(job.spec))), Continue)]
  }

  lemma BindingIsLast(job: Job)
    ensures LastWriter(job, UntilBinding(job), Updater(BindingKey(job), Bare(BindingBody(job.name, Ns(job))), Continue),
                       Scc(job) + Security() + AfterSecurity(job), BindingKey(job))
  {
  }

  lemma BindingStored(env: Env, job: Job, w: World)
    requires DoneAlone(env, job, w, Key(ClusterRoleBinding, "", job.name))
    ensures IsBare(EndOf(env, job, w), Key(ClusterRoleBinding, "", job.name),
                   BindingBody(job.name, job.spec.deployment.namespace))
  {
    BindingIsLast(job);
    UpdaterStores(env, job, w, UntilBinding(job), Bare(BindingBody(job.name, Ns(job))), Continue,
                  Scc(job) + Security() + AfterSecurity(job), BindingKey(job));
  }

  function UntilScc(job: Job): seq<Reconciler> {
    UntilBinding(job) + [Updater(BindingKey(job), Bare(BindingBody(job.name, Ns(job))), Continue)]
  }

  lemma SccIsLast(job: Job)
    requires job.platform == OpenShift && job.spec.openshift
    ensures LastWriter(job, UntilScc(job), Scc(job)[0], Security() + AfterSecurity(job), SccKey(job))
  {
    assert Scc(job) == [Scc(job)[0]];
  }

  lemma SccStored(env: Env, job: Job, w: World)
    requires job.platform == OpenShift && job.spec.openshift
    requires DoneAlone(env, job, w, Key(SecurityContextConstraints, "", job.name))
    ensures IsBare(EndOf(env, job, w), Key(SecurityContextConstraints, "", job.name),
                   SccBody("system:serviceaccount:" + job.spec.deployment.namespace + ":" + job.name))
  {
    SccIsLast(job);
    UpdaterStores(env, job, w, UntilScc(job), Bare(SccBody("system:serviceaccount:" + Ns(job) + ":" + job.name)),
                  Continue, Security() + AfterSecurity(job), SccKey(job));
  }

  lemma AccountIsLast(job: Job)
    ensures LastWriter(job, BeforeSecurity(job) + Security(), Updater(AccountKey(job), Bare(Plain), Continue),
                       [Updater(ServiceKey(job), ServiceFields(job), Continue)] + Workload() + Dashboards(job),
                       AccountKey(job))
  {
  }

  lemma AccountStored(env: Env, job: Job, w: World)
    requires DoneAlone(env, job, w, Key(ServiceAccount, job.spec.deployment.namespace, job.name))
    ensures IsBare(EndOf(env, job, w), Key(ServiceAccount, job.spec.deployment.namespace, job.name), Plain)
  {
    AccountIsLast(job);
    UpdaterStores(env, job, w, BeforeSecurity(job) + Security(), Bare(Plain), Continue,
                  [Updater(ServiceKey(job), ServiceFields(job), Continue)] + Workload() + Dashboards(job),
                  AccountKey(job));
  }

  lemma ServiceIsLast(job: Job)
    ensures LastWriter(job, BeforeSecurity(job) + Security() + [Updater(AccountKey(job), Bare(Plain), Continue)],
                       Updater(ServiceKey(job), ServiceFields(job), Continue), Workload() + Dashboards(job),
                       ServiceKey(job))
  {
  }

  /** The Service is secure, and asks for its serving certificate, exactly with RBAC. */
  predicate ServiceStands(job: Job, s: Server) {
    var rbac := job.spec.deployment.mode == "rbac";
    var certificate := map["service.beta.openshift.io/serving-cert-secret-name" := "power-monitor-tls"];
    AppliedPart(s, Key(Service, job.spec.deployment.namespace, job.name))
      == Some(Fields(Maps(if rbac then certificate else map[], map[], map[]), ServiceBody(rbac)))
  }

  lemma ServiceStored(env: Env, job: Job, w: World)
    requires DoneAlone(env, job, w, Key(Service, job.spec.deployment.namespace, job.name))
    ensures ServiceStands(job, EndOf(env, job, w))
  {
    ServiceIsLast(job);
    UpdaterStores(env, job, w, BeforeSecurity(job) + Security() + [Updater(AccountKey(job), Bare(Plain), Continue)],
                  ServiceFields(job), Continue, Workload() + Dashboards(job), ServiceKey(job));
  }

  predicate WantsDashboards(job: Job) {
    job.platform == OpenShift && job.spec.openshift && job.spec.dashboard
  }

  lemma DashboardsAreLast(job: Job)
    requires WantsDashboards(job)
    ensures var pre := BeforeWorkload(job) + Workload();
            && LastWriter(job, pre, Dashboards(job)[0], [Dashboards(job)[1]],
                          Key(ConfigMap, "openshift-config-managed", "power-monitor-overview"))
            && LastWriter(job, pre + [Dashboards(job)[0]], Dashboards(job)[1], [],
                          Key(ConfigMap, "openshift-config-managed", "power-monitor-namespace-info"))
  {
    var pre, d := BeforeWorkload(job) + Workload(), Dashboards(job);
    assert UpdateSteps(job) == pre + d && d == [d[0], d[1]];
    assert pre + d == pre + [d[0]] + [d[1]] == (pre + [d[0]]) + [d[1]] + [];
  }

  predicate DashboardStands(s: Server, name: string) {
    IsBare(s, Key(ConfigMap, "openshift-config-managed", name), DashboardBody(name))
  }

  lemma DashboardsStored(env: Env, job: Job, w: World)
    requires WantsDashboards(job)
    ensures DoneAlone(env, job, w, Key(ConfigMap, "openshift-config-managed", "power-monitor-overview")) ==>
              DashboardStands(EndOf(env, job, w), "power-monitor-overview")
    ensures DoneAlone(env, job, w, Key(ConfigMap, "openshift-config-managed", "power-monitor-namespace-info")) ==>
              DashboardStands(EndOf(env, job, w), "power-monitor-namespace-info")
  {
    var pre, d := BeforeWorkload(job) + Workload(), Dashboards(job);
    DashboardsAreLast(job);
    var overview := Key(ConfigMap, "openshift-config-managed", "power-monitor-overview");
    var info := Key(ConfigMap, "openshift-config-managed", "power-monitor-namespace-info");
    if DoneAlone(env, job, w, overview) {
      UpdaterStores(env, job, w, pre, Dashboard("power-monitor-overview"), Continue, [d[1]], overview);
    }
    if DoneAlone(env, job, w, info) {
      UpdaterStores(env, job, w, pre + [d[0]], Dashboard("power-monitor-namespace-info"), Continue, [], info);
    }
  }

  // ---- objects that depend on the mode --------------------------------------

  /** With RBAC the proxy's Secret holds the rules for the allowed service accounts; otherwise it
      is not there. */
  lemma ProxyConfigStored(env: Env, job: Job, w: World)
    requires DoneAlone(env, job, w, Key(Secret, job.spec.deployment.namespace, "power-monitor-kube-rbac-proxy-config"))
    ensures var key := Key(Secret, job.spec.deployment.namespace, "power-monitor-kube-rbac-proxy-config");
            if job.spec.deployment.mode == "rbac" then
              var rules := job.lib.rules(job.spec.deployment.allowedSANames);
              AppliedPart(EndOf(env, job, w), key)
                == Some(Fields(Maps(map[], map["config.yaml" := rules], map[]), Plain))
            else Peek(EndOf(env, job, w), key) == None
  {
    var pre := BeforeSecurity(job);
    Verdicts.CleanVerdictMeansFine(env, job, w);
    ProxyConfigIsSettled(job);
    EndsAsLastWritten(env, job, pre, ProxyConfig, [CABundle, UWMToken] + AfterSecurity(job), w, ProxyConfigKey(job));
    ModalStores(env, job, ProxyConfig, Exec(env, job, pre, w), ProxyConfigKey(job), ProxyConfigFields(job),
                EnableRBAC(job.spec));
  }

  /** A step that applies an object or deletes it, by the mode, leaves what the mode wants. */
  lemma ModalStores(env: Env, job: Job, r: Reconciler, w: World, key: Key, f: Fields, wanted: bool)
    requires Leaves(env, key) && Fine(Step(env, job, r, w).0)
    requires Step(env, job, r, w) == On(w, if wanted then Update(env, w.server, key, f, Continue)
                                           else Remove(env, w.server, key, Continue, 0))
    ensures var s := Step(env, job, r, w).1.server;
            if wanted then AppliedPart(s, key) == Some(f) else Peek(s, key) == None
  {
    if wanted {
      UpdateSettles(env, w.server, key, f, Continue);
    } else {
      RemoveSettles(env, w.server, key, Continue, 0);
    }
  }

  predicate WantsToken(job: Job) {
    && job.spec.deployment.mode == "rbac"
    && "openshift-user-workload-monitoring:prometheus-user-workload" in job.spec.deployment.allowedSANames
  }

  /** The CA bundle asks for the cluster's certificates where user-workload monitoring scrapes
      through the proxy; otherwise it is not there. */
  lemma CABundleStored(env: Env, job: Job, w: World)
    requires DoneAlone(env, job, w,
                       Key(ConfigMap, job.spec.deployment.namespace, "power-monitor-serving-certs-ca-bundle"))
    requires job.name != "power-monitor-serving-certs-ca-bundle"
    ensures var key := Key(ConfigMap, job.spec.deployment.namespace, "power-monitor-serving-certs-ca-bundle");
            if WantsToken(job) then
              AppliedPart(EndOf(env, job, w), key)
                == Some(Fields(Maps(map["service.beta.openshift.io/inject-cabundle" := "true"], map[], map[]), Plain))
            else Peek(EndOf(env, job, w), key) == None
  {
    var pre := BeforeSecurity(job) + [ProxyConfig];
    ModesByName(job.spec);
    Verdicts.CleanVerdictMeansFine(env, job, w);
    CABundleIsSettled(job);
    EndsAsLastWritten(env, job, pre, CABundle, [UWMToken] + AfterSecurity(job), w, CABundleKey(job));
    ModalStores(env, job, CABundle, Exec(env, job, pre, w), CABundleKey(job), CA_BUNDLE_FIELDS, WantsToken(job));
  }

  /** The ServiceMonitor scrapes the Service by its name, through the proxy exactly with RBAC; with
      RBAC and without user-workload monitoring it is not there. */
  lemma MonitorStored(env: Env, job: Job, w: World)
    requires DoneAlone(env, job, w, Key(ServiceMonitor, job.spec.deployment.namespace, job.name))
    ensures var ns, name, rbac := job.spec.deployment.namespace, job.name, job.spec.deployment.mode == "rbac";
            var end := EndOf(env, job, w);
            if rbac && !WantsToken(job) then Peek(end, Key(ServiceMonitor, ns, name)) == None
            else
              var f := AppliedPart(end, Key(ServiceMonitor, ns, name));
              f.Some? && f.value.body == MonitorBody(rbac, name + "." + ns + ".svc") && f.value.maps.data == map[]
  {
    var pre := BeforeWorkload(job) + [Deployer, ObjectsChecker, DaemonSetUpdater];
    ModesByName(job.spec);
    Verdicts.CleanVerdictMeansFine(env, job, w);
    MonitorIsSettled(job);
    EndsAsLastWritten(env, job, pre, MonitorStep, Dashboards(job), w, MonitorKey(job));
    var at := Exec(env, job, pre, w);
    ModalStores(env, job, MonitorStep, at, MonitorKey(job), MonitorFields(job, at.monitor),
                job.spec.deployment.mode != "rbac" || WantsToken(job));
  }

  // ---- the workload ---------------------------------------------------------

  /** The DaemonSet runs the pod that the spec describes. */
  lemma DaemonSetStored(env: Env, job: Job, w: World)
    requires DoneAlone(env, job, w, Key(DaemonSet, job.spec.deployment.namespace, job.name))
    ensures var f := AppliedPart(EndOf(env, job, w), Key(DaemonSet, job.spec.deployment.namespace, job.name));
            && f.Some? && f.value.body == DaemonSetBody(PodWiring.PodFor(job.name, job.spec))
            && f.value.maps.annotations == map[] && f.value.maps.data == map[]
  {
    var pre := BeforeWorkload(job) + [Deployer, ObjectsChecker];
    Verdicts.CleanVerdictMeansFine(env, job, w);
    DaemonSetIsSettled(job);
    EndsAsLastWritten(env, job, pre, DaemonSetUpdater, [MonitorStep] + Dashboards(job), w, DaemonSetKey(job));
    var at := Exec(env, job, pre, w);
    UpdateSettles(env, at.server, DaemonSetKey(job), DaemonSetFields(job, at.template), Continue);
  }

  /** The ConfigMap holds the rendering of a valid configuration under the name the pod mounts. */
  lemma ConfigStored(env: Env, job: Job, w: World)
    requires DoneAlone(env, job, w, Key(ConfigMap, job.spec.deployment.namespace, job.name)) && !IsDashboard(job)
    ensures exists cfg: KC.Config ::
              && AppliedPart(EndOf(env, job, w), Key(ConfigMap, job.spec.deployment.namespace, job.name))
                   == Some(Fields(Maps(map[], map["config.yaml" := job.lib.host.render(cfg)], map[]), Plain))
              && KC.Acceptable(job.lib.host, cfg) && KC.SpecDecides(cfg, job.spec.config)
  {
    Verdicts.CleanVerdictMeansFine(env, job, w);
    ConfigSafety.StoredByDeployer(env, job, w);
    var stored := Peek(EndOf(env, job, w), ConfigKey(job)).value;
    var cfg: KC.Config :| stored.applied == ConfigFields(job.lib.host.render(cfg))
                          && KC.Acceptable(job.lib.host, cfg) && KC.SpecDecides(cfg, job.spec.config);
    assert ConfigFields(job.lib.host.render(cfg))
        == Fields(Maps(map[], map["config.yaml" := job.lib.host.render(cfg)], map[]), Plain);
  }

  // ---- the token ------------------------------------------------------------

  function TokenOf(o: Object): Option<string> {
    Lookup(Data(o), "token")
  }

  function StampOf(o: Object): Option<string> {
    Lookup(Annotations(o), "powermonitor.sustainable.computing.io/secret-token-expiration")
  }

  /** The object holds the token that call `n` was given, with the end of its life, in whole
      seconds, by the clock after that call. */
  predicate IsIssue(env: Env, job: Job, o: Object, n: nat) {
    var end := env.now(n + 1) + job.ttl;
    && TokenOf(o) == Some(env.token(n))
    && StampOf(o) == Some(job.lib.formatTime(end - end % 1_000_000_000))
  }

  /** The object is a token with more than a minute to live by the clock at `n`. */
  predicate IsGood(env: Env, job: Job, o: Object, n: nat) {
    && StampOf(o).Some? && job.lib.parseTime(StampOf(o).value).Some?
    && env.now(n) <= job.lib.parseTime(StampOf(o).value).value - 60_000_000_000
  }

  function Stamp(env: Env, job: Job, n: nat): string {
    var end := env.now(n + 1) + job.ttl;
    job.lib.formatTime(end - end % 1_000_000_000)
  }

  lemma AppliedIsIssue(env: Env, job: Job, prior: Option<Object>, n: nat)
    ensures IsIssue(env, job, Applied(Secret, prior, TokenFields(env.token(n), Stamp(env, job, n))), n)
  {
    var f := TokenFields(env.token(n), Stamp(env, job, n));
    AppliedEntriesAreVisible(Secret, prior, f, "token");
    AppliedEntriesAreVisible(Secret, prior, f, TOKEN_EXPIRATION);
  }

  lemma IssueApplies(env: Env, job: Job, s: Server) returns (prior: Option<Object>, o: Object)
    requires Fine(Issue(env, job, s).0)
    ensures o == Applied(Secret, prior, TokenFields(env.token(s.calls), Stamp(env, job, s.calls)))
    ensures Peek(Issue(env, job, s).1, TokenSecretKey(job)) == Some(o) && Issue(env, job, s).1.calls == s.calls + 2
    ensures env.fault(s.calls) == Healthy && env.fault(s.calls + 1) == Healthy
  {
    prior := Peek(Ticked(env, Ticked(env, s)), TokenSecretKey(job));
    o := Applied(Secret, prior, TokenFields(env.token(s.calls), Stamp(env, job, s.calls)));
  }

  /** Issuing takes two calls; the token that the first one gives is what the second one stores. */
  lemma IssueStores(env: Env, job: Job, s: Server) returns (o: Object)
    requires Fine(Issue(env, job, s).0)
    ensures Peek(Issue(env, job, s).1, TokenSecretKey(job)) == Some(o) && IsIssue(env, job, o, s.calls)
    ensures Issue(env, job, s).1.calls == s.calls + 2
    ensures env.fault(s.calls) == Healthy && env.fault(s.calls + 1) == Healthy
  {
    var prior;
    prior, o := IssueApplies(env, job, s);
    AppliedIsIssue(env, job, prior, s.calls);
  }

  /** Issuing works exactly when its two calls do; a token that is not given ends the run, one that
      cannot be stored does not. */
  lemma IssueOutcomes(env: Env, job: Job, s: Server)
    ensures var r := Issue(env, job, s).0;
            match (env.fault(s.calls), env.fault(s.calls + 1))
            case (Healthy, Healthy) => r == Result(Continue, None)
            case (Healthy, Failing(text)) => r == Result(Continue, Some(ApiError(text)))
            case (Healthy, Conflicting) => r == Result(Requeue, None)
            case (Failing(text), _) => r == Result(Stop, Some(ApiError(text)))
            case (Conflicting, _) => r == Result(Stop, Some(ConflictError))
  {
  }

  ghost predicate IsGoodOrNew(env: Env, job: Job, was: Option<Object>, now: Option<Object>, calls: nat) {
    || (was.Some? && now == was && IsGood(env, job, was.value, calls))
    || (&& calls >= 2 && now.Some? && IsIssue(env, job, now.value, calls - 2)
        && (was.Some? ==> !IsGood(env, job, was.value, calls - 2)))
  }

  lemma RenewStores(env: Env, job: Job, s: Server)
    requires Fine(RenewToken(env, job, s, Peek(s, TokenSecretKey(job))).0)
    ensures var was, s' := Peek(s, TokenSecretKey(job)), RenewToken(env, job, s, Peek(s, TokenSecretKey(job))).1;
            IsGoodOrNew(env, job, was, Peek(s', TokenSecretKey(job)), s'.calls)
  {
    var was := Peek(s, TokenSecretKey(job));
    if RenewToken(env, job, s, was) == Issue(env, job, s) {
      var o := IssueStores(env, job, s);
    }
  }

  lemma TokenStepRenews(env: Env, job: Job, s: Server) returns (s2: Server)
    requires WantsToken(job) && Leaves(env, TokenSecretKey(job)) && Fine(TokenStep(env, job, s).0)
    ensures Peek(s2, TokenSecretKey(job)) == Peek(s, TokenSecretKey(job))
    ensures TokenStep(env, job, s) == RenewToken(env, job, s2, Peek(s, TokenSecretKey(job)))
  {
    var key := TokenSecretKey(job);
    ModesByName(job.spec);
    var s1 := Await(env, s, UwmAccountKey(), true, AwaitPolls(job), TIMEOUT).1;
    AwaitFrame(env, s, UwmAccountKey(), true, AwaitPolls(job), TIMEOUT, key);
    s2 := Await(env, s1, key, false, AwaitPolls(job), TIMEOUT).1;
    AwaitFrame(env, s1, key, false, AwaitPolls(job), TIMEOUT, key);
    AwaitSees(env, s1, key, false, AwaitPolls(job), TIMEOUT);
  }

  /** What a fine token step leaves where a token is wanted: the stored one, untouched, when it is
      good; otherwise the one it has just been given. */
  lemma TokenStepStores(env: Env, job: Job, s: Server)
    requires WantsToken(job) && Fine(TokenStep(env, job, s).0)
    requires Leaves(env, Key(Secret, job.spec.deployment.namespace, "prometheus-user-workload-token"))
    ensures var key := Key(Secret, job.spec.deployment.namespace, "prometheus-user-workload-token");
            var s' := TokenStep(env, job, s).1;
            IsGoodOrNew(env, job, Peek(s, key), Peek(s', key), s'.calls)
  {
    var s2 := TokenStepRenews(env, job, s);
    RenewStores(env, job, s2);
  }

  /** After an update run with a clean verdict the token, where it is wanted, is the one that was
      stored, if that was still good at the token step, or else the one that the step was given;
      where it is not wanted there is none. */
  lemma TokenStored(env: Env, job: Job, w: World)
    requires DoneAlone(env, job, w, Key(Secret, job.spec.deployment.namespace, "prometheus-user-workload-token"))
    ensures var key := Key(Secret, job.spec.deployment.namespace, "prometheus-user-workload-token");
            var was, now := Peek(w.server, key), Peek(EndOf(env, job, w), key);
            var step := Exec(env, job, BeforeSecurity(job) + [ProxyConfig, CABundle] + [UWMToken], w).server;
            if WantsToken(job) then IsGoodOrNew(env, job, was, now, step.calls) else now == None
  {
    var key, pre := TokenSecretKey(job), BeforeSecurity(job) + [ProxyConfig, CABundle];
    Verdicts.CleanVerdictMeansFine(env, job, w);
    ModesByName(job.spec);
    TokenIsSettled(job);
    EndsAsLastWritten(env, job, pre, UWMToken, AfterSecurity(job), w, key);
    Failures.NotBeforeToken(job, key);
    ExecFrame(env, job, pre, w, key);
    ExecLast(env, job, pre, UWMToken, w);
    TokenStepLeaves(env, job, Exec(env, job, pre, w));
  }

  lemma TokenStepLeaves(env: Env, job: Job, w: World)
    requires Leaves(env, TokenSecretKey(job)) && Fine(Step(env, job, UWMToken, w).0)
    ensures var s := Step(env, job, UWMToken, w).1.server;
            var was, now := Peek(w.server, TokenSecretKey(job)), Peek(s, TokenSecretKey(job));
            if WantsToken(job) then IsGoodOrNew(env, job, was, now, s.calls) else now == None
  {
    ModesByName(job.spec);
    TokenSettles(env, job, w.server);
    if WantsToken(job) {
      TokenStepStores(env, job, w.server);
    }
  }

  // ---- the whole update -----------------------------------------------------

  /** Everything that an update run is to leave, by literal kind and name. */
  ghost predicate AccessStands(job: Job, s: Server) {
    var ns, name, rbac := job.spec.deployment.namespace, job.name, job.spec.deployment.mode == "rbac";
    && IsBare(s, Key(Namespace, "", ns), Plain)
    && IsBare(s, Key(ClusterRole, "", name), RoleBody(rbac))
    && IsBare(s, Key(ClusterRoleBinding, "", name), BindingBody(name, ns))
    && IsBare(s, Key(ServiceAccount, ns, name), Plain) && ServiceStands(job, s)
    && (job.platform == OpenShift && job.spec.openshift ==>
          IsBare(s, Key(SecurityContextConstraints, "", name), SccBody("system:serviceaccount:" + ns + ":" + name)))
    && (WantsDashboards(job) ==>
          DashboardStands(s, "power-monitor-overview") && DashboardStands(s, "power-monitor-namespace-info"))
  }

  /** After an update run with a clean verdict in which nobody else touches the objects, the
      Namespace, the access objects, the Service and the OpenShift objects stand as the spec calls for. */
  lemma AccessStored(env: Env, job: Job, w: World)
    requires !job.deleting && Verdicts.Clean(Run(env, job, Reconcilers(job), w).0) && Quiet(env)
    ensures AccessStands(job, EndOf(env, job, w))
  {
    forall key: Key ensures DoneAlone(env, job, w, key) {
      QuietLeaves(env, key);
    }
    NamespaceStored(env, job, w);
    RoleStored(env, job, w);
    BindingStored(env, job, w);
    AccountStored(env, job, w);
    ServiceStored(env, job, w);
    if job.platform == OpenShift && job.spec.openshift {
      SccStored(env, job, w);
    }
    if WantsDashboards(job) {
      DashboardsStored(env, job, w);
    }
  }

  // ---- the cleanup ----------------------------------------------------------

  /** After a cleanup with a clean verdict nothing is left of the role, its binding, the dashboards
      that are enabled, and the Namespace. */
  lemma CleanupRemoves(env: Env, job: Job, w: World, key: Key)
    requires job.deleting && Verdicts.Clean(Run(env, job, Reconcilers(job), w).0) && Leaves(env, key)
    requires || key == Key(ClusterRoleBinding, "", job.name) || key == Key(ClusterRole, "", job.name)
             || key == Key(Namespace, "", job.spec.deployment.namespace)
             || (WantsDashboards(job)
                 && (key == Key(ConfigMap, "openshift-config-managed", "power-monitor-overview")
                     || key == Key(ConfigMap, "openshift-config-managed", "power-monitor-namespace-info")))
    ensures Peek(EndOf(env, job, w), key) == None
  {
    var steps := CleanupSteps(job);
    Verdicts.CleanCleanupMeansFine(env, job, w);
    var i := SomeDeleter(job, key);
    DeleterSettles(env, job, steps, w, i, key);
    var _ := RunPastFine(env, job, steps, [Finalizer], w, None);
    StepFrame(env, job, Finalizer, Exec(env, job, steps, w), key);
  }

  /** Every such object has its deleter, and no later step of the cleanup writes it. */
  lemma SomeDeleter(job: Job, key: Key) returns (i: nat)
    requires || key == Key(ClusterRoleBinding, "", job.name) || key == Key(ClusterRole, "", job.name)
             || key == Key(Namespace, "", job.spec.deployment.namespace)
             || (WantsDashboards(job)
                 && (key == Key(ConfigMap, "openshift-config-managed", "power-monitor-overview")
                     || key == Key(ConfigMap, "openshift-config-managed", "power-monitor-namespace-info")))
    ensures i < |CleanupSteps(job)| && CleanupSteps(job)[i].Deleter? && CleanupSteps(job)[i].key == key
    ensures NoneTargets(job, CleanupSteps(job)[i + 1..], key)
  {
    var steps := CleanupSteps(job);
    if key.kind == ClusterRoleBinding {
      i := 0;
    } else if key.kind == ClusterRole {
      i := 1;
    } else if key.kind == Namespace {
      i := |steps| - 1;
    } else {
      i := if key.name == "power-monitor-overview" then 2 else 3;
    }
    assert forall j :: i < j < |steps| ==> steps[i + 1..][j - i - 1] == steps[j];
  }

  lemma DeleterSettles(env: Env, job: Job, steps: seq<Reconciler>, w: World, i: nat, key: Key)
    requires i < |steps| && steps[i].Deleter? && steps[i].key == key && NoneTargets(job, steps[i + 1..], key)
    requires AllFine(env, job, steps, w) && Leaves(env, key)
    ensures Peek(Exec(env, job, steps, w).server, key) == None
  {
    assert steps == steps[..i] + [steps[i]] + steps[i + 1..];
    SettledBy(env, job, steps[..i], steps[i], steps[i + 1..], w, key);
    RemoveSettles(env, Exec(env, job, steps[..i], w).server, key, steps[i].onError, steps[i].wait);
  }
}
