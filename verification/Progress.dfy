/** When an update run does its work: the prerequisites, and why they are enough. */
module Progress {
  import opened Common
  import opened Api
  import opened ClusterModel
  import opened Steps
  import opened Runner
  import opened Frames
  import opened Rollout
  import opened Repeat
  import Coherence
  import KC = KeplerConfig

  predicate Deletable(o: Option<Object>) {
    o.Some? ==> !o.value.held
  }

  predicate TokenReady(job: Job, account: Option<Object>, token: Option<Object>) {
    if EnableRBAC(job.spec) && EnableUWM(job.spec) then
      account.Some? && (token.Some? ==> ExpirationOf(job.lib, token.value).At?)
    else Deletable(token)
  }

  /** The objects as the Deployer finds them: the mode installs the CA bundle or deletes it. */
  function AsRead(job: Job, objects: Objects): Objects {
    var key := CABundleKey(job);
    if EnableRBAC(job.spec) && EnableUWM(job.spec) then
      objects[key := Applied(ConfigMap, Lookup(objects, key), CA_BUNDLE_FIELDS)]
    else objects - {key}
  }

  /** What must be in the cluster before the run: a configuration that can be built; the TLS
      Secret for RBAC; the service account and no unreadable token for user-workload monitoring;
      and nothing that holds back the objects the mode does not want. */
  predicate Prerequisites(job: Job, s: Server) {
    var rbac, uwm := EnableRBAC(job.spec), EnableUWM(job.spec);
    && DesiredConfig(job, AsRead(job, s.store.objects)).Some?
    && (rbac ==> Peek(s, TlsKey(job)).Some?)
    && (!rbac ==> Deletable(Peek(s, ProxyConfigKey(job))))
    && (rbac && !uwm ==> Deletable(Peek(s, MonitorKey(job))))
    && (!(rbac && uwm) ==> Deletable(Peek(s, CABundleKey(job))))
    && TokenReady(job, Peek(s, UwmAccountKey()), Peek(s, TokenSecretKey(job)))
  }

  // ---- single steps in a calm world -----------------------------------------

  lemma CalmDeletes(env: Env, s: Server, key: Key, onError: Action, wait: nat)
    requires Calm(env) && Deletable(Peek(s, key))
    ensures Remove(env, s, key, onError, wait).0 == OK
  {
    var s1 := DeleteCall(env, s, key).1;
    assert Peek(s1, key) == None;
    CalmGet(env, s1, key);
  }

  lemma CalmApplies(env: Env, s: Server, key: Key, f: Fields, onError: Action)
    requires Calm(env)
    ensures Update(env, s, key, f, onError).0 == OK
  {
  }

  lemma {:induction false} CalmMounts(env: Env, job: Job, s: Server, names: seq<string>, template: map<string, string>,
                                      missing: seq<string>)
    requires Calm(env)
    ensures Fine(MountSecrets(env, job, s, names, template, missing).0)
    decreases |names|
  {
    if |names| > 0 {
      var (r, s') := GetCall(env, s, Key(Secret, Ns(job), names[0]));
      CalmGet(env, s, Key(Secret, Ns(job), names[0]));
      if r.Found? {
        CalmMounts(env, job, s', names[1..], template[SecretAnnotation(names[0]) := ContentHash(job.lib, r.item)],
                   missing);
      } else {
        CalmMounts(env, job, s', names[1..], template, missing + [names[0]]);
      }
    }
  }

  lemma {:induction false} CalmReads(env: Env, job: Job, s: Server, names: seq<string>, sofar: seq<Object>)
    requires Calm(env) && StoredConfigMaps(job, s.store.objects, names).Some?
    ensures ReadConfigMaps(env, job, s, names, sofar).0
         == Read(sofar + StoredConfigMaps(job, s.store.objects, names).value)
    decreases |names|
  {
    if |names| == 0 {
      assert sofar + [] == sofar;
    } else {
      var key := Key(ConfigMap, Ns(job), names[0]);
      CalmGet(env, s, key);
      var (r, s') := GetCall(env, s, key);
      CalmReads(env, job, s', names[1..], sofar + [r.item]);
      var rest := StoredConfigMaps(job, s.store.objects, names[1..]).value;
      assert sofar + ([r.item] + rest) == (sofar + [r.item]) + rest;
    }
  }

  lemma CalmDeploys(env: Env, job: Job, w: World)
    requires Calm(env) && DesiredConfig(job, w.server.store.objects).Some?
    ensures Deploy(env, job, w).0 == OK
  {
    var names := job.spec.config.additionalConfigMaps;
    var stored := StoredConfigMaps(job, w.server.store.objects, names).value;
    CalmReads(env, job, w.server, names, []);
    assert [] + stored == stored;
    var s1 := ReadConfigMaps(env, job, w.server, names, []).1;
    var text := KC.Generate(job.lib.host, job.spec.config, Documents(stored)).text;
    CalmApplies(env, s1, ConfigKey(job), ConfigFields(text), Continue);
  }

  lemma {:induction false} CalmChecks(env: Env, job: Job, probes: seq<Probe>, w: World)
    requires Calm(env) && forall i :: 0 <= i < |probes| ==> Peek(w.server, probes[i].key).Some?
    ensures CheckAll(env, job, probes, w).0 == OK
    decreases |probes|
  {
    if |probes| > 0 {
      var p := probes[0];
      CalmAwait(env, w.server, p.key, true, AwaitPolls(job), TIMEOUT);
      var (r, s') := Await(env, w.server, p.key, true, AwaitPolls(job), TIMEOUT);
      var w' := Annotate(job.lib, w.(server := s'), p, r.item);
      forall i | 0 <= i < |probes[1..]| ensures Peek(w'.server, probes[1..][i].key).Some? {
        assert probes[1..][i] == probes[i + 1];
        assert Peek(w.server, probes[i + 1].key).Some?;
      }
      CalmChecks(env, job, probes[1..], w');
    }
  }

  lemma CalmToken(env: Env, job: Job, s: Server)
    requires Calm(env) && TokenReady(job, Peek(s, UwmAccountKey()), Peek(s, TokenSecretKey(job)))
    ensures TokenStep(env, job, s).0 == OK
  {
    if EnableRBAC(job.spec) && EnableUWM(job.spec) {
      CalmAwait(env, s, UwmAccountKey(), true, AwaitPolls(job), TIMEOUT);
      CalmAwait(env, s.(calls := s.calls + 1), TokenSecretKey(job), false, AwaitPolls(job), TIMEOUT);
    } else {
      CalmDeletes(env, s, TokenSecretKey(job), Continue, 0);
    }
  }

  // ---- lists ----------------------------------------------------------------

  /** Steps that can only fail when a call does. */
  lemma {:induction false} PlainStepsAreFine(env: Env, job: Job, rs: seq<Reconciler>, w: World)
    requires Calm(env) && forall r :: r in rs ==> r.Updater? || r == DaemonSetUpdater || r == SecretMounter
    ensures AllFine(env, job, rs, w)
    decreases |rs|
  {
    if |rs| > 0 {
      assert rs[0] in rs;
      if rs[0] == SecretMounter {
        CalmMounts(env, job, w.server, SecretNames(job.spec.deployment.secrets), w.template, []);
      }
      PlainStepsAreFine(env, job, rs[1..], Step(env, job, rs[0], w).1);
    }
  }

  /** A fine list goes on being fine with a step that is fine where it ends. */
  lemma FineSnoc(env: Env, job: Job, rs: seq<Reconciler>, r: Reconciler, w: World)
    requires AllFine(env, job, rs, w) && Fine(Step(env, job, r, Exec(env, job, rs, w)).0)
    ensures AllFine(env, job, rs + [r], w)
  {
    AllFineSplits(env, job, rs, [r], w);
    assert [r][1..] == [];
  }

  lemma FineConcat(env: Env, job: Job, a: seq<Reconciler>, b: seq<Reconciler>, w: World)
    requires Calm(env) && AllFine(env, job, a, w)
    requires forall r :: r in b ==> r.Updater? || r == DaemonSetUpdater || r == SecretMounter
    ensures AllFine(env, job, a + b, w)
  {
    AllFineSplits(env, job, a, b, w);
    PlainStepsAreFine(env, job, b, Exec(env, job, a, w));
  }

  lemma FrameFrom(env: Env, job: Job, rs: seq<Reconciler>, w: World, key: Key)
    requires Calm(env) && NoneTargets(job, rs, key)
    ensures Peek(Exec(env, job, rs, w).server, key) == Peek(w.server, key)
  {
    CalmLeaves(env, key);
    ExecFrame(env, job, rs, w, key);
  }

  // ---- one more step --------------------------------------------------------

  /** `pre` has run and done its work, and has not touched the object. */
  ghost predicate Clean(env: Env, job: Job, pre: seq<Reconciler>, w: World, key: Key) {
    Calm(env) && Prerequisites(job, w.server) && AllFine(env, job, pre, w) && NoneTargets(job, pre, key)
  }

  lemma ProxyConfigIsFine(env: Env, job: Job, w: World)
    requires Calm(env) && (!EnableRBAC(job.spec) ==> Deletable(Peek(w.server, ProxyConfigKey(job))))
    ensures Step(env, job, ProxyConfig, w).0 == OK
  {
    if !EnableRBAC(job.spec) {
      CalmDeletes(env, w.server, ProxyConfigKey(job), Continue, 0);
    }
  }

  lemma CABundleIsFine(env: Env, job: Job, w: World)
    requires Calm(env)
    requires (!(EnableRBAC(job.spec) && EnableUWM(job.spec)) ==> Deletable(Peek(w.server, CABundleKey(job))))
    ensures Step(env, job, CABundle, w).0 == OK
  {
    if !(EnableRBAC(job.spec) && EnableUWM(job.spec)) {
      CalmDeletes(env, w.server, CABundleKey(job), Continue, 0);
    }
  }

  lemma TokenIsFine(env: Env, job: Job, w: World)
    requires Calm(env) && TokenReady(job, Peek(w.server, UwmAccountKey()), Peek(w.server, TokenSecretKey(job)))
    ensures Step(env, job, UWMToken, w).0 == OK
  {
    CalmToken(env, job, w.server);
  }

  lemma MonitorIsFine(env: Env, job: Job, w: World)
    requires Calm(env) && (EnableRBAC(job.spec) && !EnableUWM(job.spec) ==> Deletable(Peek(w.server, MonitorKey(job))))
    ensures Step(env, job, MonitorStep, w).0 == OK
  {
    if EnableRBAC(job.spec) && !EnableUWM(job.spec) {
      CalmDeletes(env, w.server, MonitorKey(job), Continue, 0);
    }
  }

  lemma ProxyConfigNext(env: Env, job: Job, pre: seq<Reconciler>, w: World)
    requires Clean(env, job, pre, w, ProxyConfigKey(job))
    ensures AllFine(env, job, pre + [ProxyConfig], w)
  {
    FrameFrom(env, job, pre, w, ProxyConfigKey(job));
    ProxyConfigIsFine(env, job, Exec(env, job, pre, w));
    FineSnoc(env, job, pre, ProxyConfig, w);
  }

  lemma CABundleNext(env: Env, job: Job, pre: seq<Reconciler>, w: World)
    requires Clean(env, job, pre, w, CABundleKey(job))
    ensures AllFine(env, job, pre + [CABundle], w)
  {
    FrameFrom(env, job, pre, w, CABundleKey(job));
    CABundleIsFine(env, job, Exec(env, job, pre, w));
    FineSnoc(env, job, pre, CABundle, w);
  }

  lemma TokenNext(env: Env, job: Job, pre: seq<Reconciler>, w: World)
    requires Calm(env) && AllFine(env, job, pre, w)
    requires TokenReady(job, Peek(w.server, UwmAccountKey()), Peek(w.server, TokenSecretKey(job)))
    requires NoneTargets(job, pre, TokenSecretKey(job)) && NoneTargets(job, pre, UwmAccountKey())
    ensures AllFine(env, job, pre + [UWMToken], w)
  {
    FrameFrom(env, job, pre, w, TokenSecretKey(job));
    FrameFrom(env, job, pre, w, UwmAccountKey());
    TokenIsFine(env, job, Exec(env, job, pre, w));
    FineSnoc(env, job, pre, UWMToken, w);
  }

  lemma DeployerNext(env: Env, job: Job, pre: seq<Reconciler>, w: World)
    requires Calm(env) && AllFine(env, job, pre, w)
    requires DesiredConfig(job, Exec(env, job, pre, w).server.store.objects).Some?
    ensures AllFine(env, job, pre + [Deployer], w)
  {
    CalmDeploys(env, job, Exec(env, job, pre, w));
    FineSnoc(env, job, pre, Deployer, w);
  }

  lemma CheckerNext(env: Env, job: Job, pre: seq<Reconciler>, w: World)
    requires Calm(env) && AllFine(env, job, pre, w)
    requires var at := Exec(env, job, pre, w).server;
             EnableRBAC(job.spec) ==> forall i :: 0 <= i < |Probes(job)| ==> Peek(at, Probes(job)[i].key).Some?
    ensures AllFine(env, job, pre + [ObjectsChecker], w)
  {
    var at := Exec(env, job, pre, w);
    if EnableRBAC(job.spec) {
      CalmChecks(env, job, Probes(job), at);
    }
    FineSnoc(env, job, pre, ObjectsChecker, w);
  }

  lemma MonitorNext(env: Env, job: Job, pre: seq<Reconciler>, w: World)
    requires Clean(env, job, pre, w, MonitorKey(job))
    ensures AllFine(env, job, pre + [MonitorStep], w)
  {
    FrameFrom(env, job, pre, w, MonitorKey(job));
    MonitorIsFine(env, job, Exec(env, job, pre, w));
    FineSnoc(env, job, pre, MonitorStep, w);
  }

  // ---- the update run, part by part -----------------------------------------

  lemma BeforeSecurityIsPlain(job: Job)
    ensures forall r :: r in BeforeSecurity(job) ==> r.Updater? || r == SecretMounter
    ensures NoneTargets(job, BeforeSecurity(job), ProxyConfigKey(job))
    ensures NoneTargets(job, BeforeSecurity(job) + [ProxyConfig], CABundleKey(job))
    ensures NoneTargets(job, BeforeSecurity(job) + [ProxyConfig] + [CABundle], TokenSecretKey(job))
    ensures NoneTargets(job, BeforeSecurity(job) + [ProxyConfig] + [CABundle], UwmAccountKey())
  {
  }

  lemma NamespacedIsPlain(job: Job)
    ensures forall r :: r in Namespaced(job) ==> r.Updater?
    ensures forall r :: r in Dashboards(job) ==> r.Updater?
  {
  }

  lemma SecurityShape(job: Job)
    ensures BeforeSecurity(job) + [ProxyConfig] + [CABundle] + [UWMToken] + Namespaced(job) == BeforeWorkload(job)
    ensures BeforeWorkload(job) + [Deployer] + [ObjectsChecker] + [DaemonSetUpdater]
         == BeforeWorkload(job) + [Deployer, ObjectsChecker, DaemonSetUpdater]
    ensures BeforeWorkload(job) + [Deployer] + [ObjectsChecker] + [DaemonSetUpdater] + [MonitorStep] + Dashboards(job)
         == UpdateSteps(job)
  {
  }

  lemma BeforeWorkloadIsFine(env: Env, job: Job, w: World)
    requires Calm(env) && Prerequisites(job, w.server)
    ensures AllFine(env, job, BeforeWorkload(job), w)
  {
    var pre := BeforeSecurity(job);
    BeforeSecurityIsPlain(job);
    NamespacedIsPlain(job);
    SecurityShape(job);
    PlainStepsAreFine(env, job, pre, w);
    SecurityIsFine(env, job, pre, w);
    FineConcat(env, job, pre + [ProxyConfig] + [CABundle] + [UWMToken], Namespaced(job), w);
  }

  lemma SecurityIsFine(env: Env, job: Job, pre: seq<Reconciler>, w: World)
    requires Clean(env, job, pre, w, ProxyConfigKey(job))
    requires NoneTargets(job, pre + [ProxyConfig], CABundleKey(job))
    requires NoneTargets(job, pre + [ProxyConfig] + [CABundle], TokenSecretKey(job))
    requires NoneTargets(job, pre + [ProxyConfig] + [CABundle], UwmAccountKey())
    ensures AllFine(env, job, pre + [ProxyConfig] + [CABundle] + [UWMToken], w)
  {
    ProxyConfigNext(env, job, pre, w);
    CABundleNext(env, job, pre + [ProxyConfig], w);
    TokenNext(env, job, pre + [ProxyConfig] + [CABundle], w);
  }

  lemma BundleAtDeployer(env: Env, job: Job, w: World)
    requires Calm(env) && AllFine(env, job, BeforeWorkload(job), w)
    ensures Peek(Exec(env, job, BeforeWorkload(job), w).server, CABundleKey(job))
         == Lookup(AsRead(job, w.server.store.objects), CABundleKey(job))
  {
    Coherence.CABundleBeforeWorkload(job);
    BundleBetween(env, job, BeforeSecurity(job) + [ProxyConfig], [UWMToken] + Namespaced(job), w);
  }

  lemma BundleBetween(env: Env, job: Job, pre: seq<Reconciler>, post: seq<Reconciler>, w: World)
    requires Calm(env) && AllFine(env, job, pre + [CABundle] + post, w)
    requires NoneTargets(job, pre, CABundleKey(job)) && NoneTargets(job, post, CABundleKey(job))
    ensures Peek(Exec(env, job, pre + [CABundle] + post, w).server, CABundleKey(job))
         == Lookup(AsRead(job, w.server.store.objects), CABundleKey(job))
  {
    var key, before := CABundleKey(job), Exec(env, job, pre, w).server;
    CalmLeaves(env, key);
    SettledBy(env, job, pre, CABundle, post, w, key);
    ExecFrame(env, job, pre, w, key);
    if EnableRBAC(job.spec) && EnableUWM(job.spec) {
      UpdateSettles(env, before, key, CA_BUNDLE_FIELDS, Continue);
    } else {
      RemoveSettles(env, before, key, Continue, 0);
    }
  }

  /** What the Deployer reads is what the prerequisites are about. */
  lemma ReadAtDeployer(env: Env, job: Job, w: World)
    requires Calm(env) && AllFine(env, job, BeforeWorkload(job), w)
    ensures DesiredConfig(job, Exec(env, job, BeforeWorkload(job), w).server.store.objects)
         == DesiredConfig(job, AsRead(job, w.server.store.objects))
  {
    var names, read := job.spec.config.additionalConfigMaps, AsRead(job, w.server.store.objects);
    var before := Exec(env, job, BeforeWorkload(job), w).server;
    BundleAtDeployer(env, job, w);
    forall i | 0 <= i < |names|
      ensures Peek(before, Key(ConfigMap, Ns(job), names[i])) == Lookup(read, Key(ConfigMap, Ns(job), names[i]))
    {
      CalmLeaves(env, Key(ConfigMap, Ns(job), names[i]));
      if names[i] != CA_BUNDLE_CONFIG_MAP {
        Coherence.ConfigMapAtDeployer(env, job, w, names[i]);
      }
    }
    StoredConfigMapsAgree(job, before.store.objects, read, names);
  }

  lemma DeployerIsFine(env: Env, job: Job, w: World)
    requires Calm(env) && Prerequisites(job, w.server)
    ensures AllFine(env, job, BeforeWorkload(job) + [Deployer], w)
  {
    BeforeWorkloadIsFine(env, job, w);
    ReadAtDeployer(env, job, w);
    DeployerNext(env, job, BeforeWorkload(job), w);
  }

  // ---- the checker finds what it needs --------------------------------------

  /** What a fine step applied is there as long as no later step targets it. */
  lemma ProxyConfigStays(env: Env, job: Job, pre: seq<Reconciler>, post: seq<Reconciler>, w: World)
    requires Calm(env) && AllFine(env, job, pre + [ProxyConfig] + post, w) && EnableRBAC(job.spec)
    requires NoneTargets(job, post, ProxyConfigKey(job))
    ensures Peek(Exec(env, job, pre + [ProxyConfig] + post, w).server, ProxyConfigKey(job)).Some?
  {
    CalmLeaves(env, ProxyConfigKey(job));
    SettledBy(env, job, pre, ProxyConfig, post, w, ProxyConfigKey(job));
    UpdateSettles(env, Exec(env, job, pre, w).server, ProxyConfigKey(job), ProxyConfigFields(job), Continue);
  }

  lemma CABundleStays(env: Env, job: Job, pre: seq<Reconciler>, post: seq<Reconciler>, w: World)
    requires Calm(env) && AllFine(env, job, pre + [CABundle] + post, w) && EnableRBAC(job.spec) && EnableUWM(job.spec)
    requires NoneTargets(job, post, CABundleKey(job))
    ensures Peek(Exec(env, job, pre + [CABundle] + post, w).server, CABundleKey(job)).Some?
  {
    CalmLeaves(env, CABundleKey(job));
    SettledBy(env, job, pre, CABundle, post, w, CABundleKey(job));
    UpdateSettles(env, Exec(env, job, pre, w).server, CABundleKey(job), CA_BUNDLE_FIELDS, Continue);
  }

  lemma TokenStays(env: Env, job: Job, pre: seq<Reconciler>, post: seq<Reconciler>, w: World)
    requires Calm(env) && AllFine(env, job, pre + [UWMToken] + post, w) && EnableRBAC(job.spec) && EnableUWM(job.spec)
    requires NoneTargets(job, post, TokenSecretKey(job))
    ensures Peek(Exec(env, job, pre + [UWMToken] + post, w).server, TokenSecretKey(job)).Some?
  {
    CalmLeaves(env, TokenSecretKey(job));
    SettledBy(env, job, pre, UWMToken, post, w, TokenSecretKey(job));
    TokenSettles(env, job, Exec(env, job, pre, w).server);
  }

  function AtChecker(job: Job): seq<Reconciler> {
    BeforeWorkload(job) + [Deployer]
  }

  function AfterToken(job: Job): seq<Reconciler> {
    Namespaced(job) + [Deployer]
  }

  lemma CheckerShape(job: Job)
    ensures AtChecker(job) == BeforeSecurity(job) + [ProxyConfig] + ([CABundle, UWMToken] + AfterToken(job))
    ensures AtChecker(job) == BeforeSecurity(job) + [ProxyConfig] + [CABundle] + ([UWMToken] + AfterToken(job))
    ensures AtChecker(job) == BeforeSecurity(job) + [ProxyConfig] + [CABundle] + [UWMToken] + AfterToken(job)
  {
  }

  lemma CheckerTargets(job: Job)
    requires job.name != CA_BUNDLE_CONFIG_MAP
    ensures NoneTargets(job, [CABundle, UWMToken] + AfterToken(job), ProxyConfigKey(job))
    ensures NoneTargets(job, [UWMToken] + AfterToken(job), CABundleKey(job))
    ensures NoneTargets(job, AfterToken(job), TokenSecretKey(job))
    ensures NoneTargets(job, AtChecker(job), TlsKey(job))
  {
  }

  lemma RbacIsServed(env: Env, job: Job, w: World)
    requires Calm(env) && Prerequisites(job, w.server) && job.name != CA_BUNDLE_CONFIG_MAP
    requires AllFine(env, job, AtChecker(job), w) && EnableRBAC(job.spec)
    ensures var at := Exec(env, job, AtChecker(job), w).server;
            Peek(at, ProxyConfigKey(job)).Some? && Peek(at, TlsKey(job)).Some?
  {
    CheckerShape(job);
    CheckerTargets(job);
    FrameFrom(env, job, AtChecker(job), w, TlsKey(job));
    ProxyConfigStays(env, job, BeforeSecurity(job), [CABundle, UWMToken] + AfterToken(job), w);
  }

  lemma UwmIsServed(env: Env, job: Job, w: World)
    requires Calm(env) && job.name != CA_BUNDLE_CONFIG_MAP
    requires AllFine(env, job, AtChecker(job), w) && EnableRBAC(job.spec) && EnableUWM(job.spec)
    ensures var at := Exec(env, job, AtChecker(job), w).server;
            Peek(at, CABundleKey(job)).Some? && Peek(at, TokenSecretKey(job)).Some?
  {
    CheckerShape(job);
    CheckerTargets(job);
    CABundleStays(env, job, BeforeSecurity(job) + [ProxyConfig], [UWMToken] + AfterToken(job), w);
    TokenStays(env, job, BeforeSecurity(job) + [ProxyConfig] + [CABundle], AfterToken(job), w);
  }

  lemma CheckerIsServed(env: Env, job: Job, w: World)
    requires Calm(env) && Prerequisites(job, w.server) && job.name != CA_BUNDLE_CONFIG_MAP
    requires AllFine(env, job, AtChecker(job), w) && EnableRBAC(job.spec)
    ensures var at := Exec(env, job, AtChecker(job), w).server;
            forall i :: 0 <= i < |Probes(job)| ==> Peek(at, Probes(job)[i].key).Some?
  {
    RbacIsServed(env, job, w);
    if EnableUWM(job.spec) {
      UwmIsServed(env, job, w);
    }
    ProbesArePresent(job, Exec(env, job, AtChecker(job), w).server);
  }

  lemma ProbesArePresent(job: Job, at: Server)
    requires Peek(at, ProxyConfigKey(job)).Some? && Peek(at, TlsKey(job)).Some?
    requires EnableUWM(job.spec) ==> Peek(at, CABundleKey(job)).Some? && Peek(at, TokenSecretKey(job)).Some?
    ensures forall i :: 0 <= i < |Probes(job)| ==> Peek(at, Probes(job)[i].key).Some?
  {
    forall i | 0 <= i < |Probes(job)| ensures Peek(at, Probes(job)[i].key).Some? {
      assert i == 0 || i == 1 || i == 2 || i == 3;
    }
  }

  lemma MonitorNotBefore(job: Job)
    ensures NoneTargets(job, BeforeWorkload(job) + [Deployer, ObjectsChecker, DaemonSetUpdater], MonitorKey(job))
  {
  }

  lemma BeforeMonitorIsFine(env: Env, job: Job, w: World)
    requires Calm(env) && Prerequisites(job, w.server) && job.name != CA_BUNDLE_CONFIG_MAP
    ensures AllFine(env, job, BeforeWorkload(job) + [Deployer] + [ObjectsChecker] + [DaemonSetUpdater], w)
  {
    DeployerIsFine(env, job, w);
    if EnableRBAC(job.spec) {
      CheckerIsServed(env, job, w);
    }
    CheckerNext(env, job, AtChecker(job), w);
    FineConcat(env, job, AtChecker(job) + [ObjectsChecker], [DaemonSetUpdater], w);
  }

  /** Progress: in a calm world an update run whose prerequisites are there does all its work. */
  lemma PrerequisitesSuffice(env: Env, job: Job, w: World)
    requires Calm(env) && Prerequisites(job, w.server) && job.name != CA_BUNDLE_CONFIG_MAP
    ensures AllFine(env, job, UpdateSteps(job), w)
  {
    var pre := BeforeWorkload(job) + [Deployer] + [ObjectsChecker] + [DaemonSetUpdater];
    BeforeMonitorIsFine(env, job, w);
    SecurityShape(job);
    MonitorNotBefore(job);
    MonitorNext(env, job, pre, w);
    NamespacedIsPlain(job);
    FineConcat(env, job, pre + [MonitorStep], Dashboards(job), w);
  }
}
