/** Only valid configurations are rolled out. */
module ConfigSafety {
  import opened Common
  import opened Api
  import opened ClusterModel
  import opened Steps
  import opened Runner
  import opened Frames
  import opened Rollout
  import Coherence
  import KC = KeplerConfig

  /** The operator's part of a stored ConfigMap is the rendering of an acceptable configuration
      whose spec settings follow this job's spec. */
  ghost predicate HoldsValidConfig(job: Job, o: Object) {
    exists cfg: KC.Config ::
      && o.applied == ConfigFields(job.lib.host.render(cfg))
      && KC.Acceptable(job.lib.host, cfg) && KC.SpecDecides(cfg, job.spec.config)
  }

  ghost predicate KeptOrValid(job: Job, before: Server, after: Server) {
    || Peek(after, ConfigKey(job)) == Peek(before, ConfigKey(job))
    || (Peek(after, ConfigKey(job)).Some? && HoldsValidConfig(job, Peek(after, ConfigKey(job)).value))
  }

  lemma DeployKeepsOrWritesValid(env: Env, job: Job, w: World)
    requires Leaves(env, ConfigKey(job))
    ensures KeptOrValid(job, w.server, Deploy(env, job, w).1.server)
  {
    var (read, s1) := ReadConfigMaps(env, job, w.server, job.spec.config.additionalConfigMaps, []);
    ReadFrame(env, job, w.server, job.spec.config.additionalConfigMaps, [], ConfigKey(job));
    if read.Read? {
      var docs := Documents(read.objects);
      var g := KC.Generate(job.lib.host, job.spec.config, docs);
      if g.Generated? {
        KC.GeneratedIsValidAndFollowsSpec(job.lib.host, job.spec.config, docs);
        TickFrame(env, s1, ConfigKey(job));
      }
    }
  }

  lemma {:induction false} ExecKeepsOrWritesValid(env: Env, job: Job, rs: seq<Reconciler>, w: World)
    requires Leaves(env, ConfigKey(job))
    requires forall r :: r in rs && r != Deployer ==> Target(job, r) != Some(ConfigKey(job))
    ensures KeptOrValid(job, w.server, Exec(env, job, rs, w).server)
    decreases |rs|
  {
    if |rs| > 0 {
      assert rs[0] in rs;
      if rs[0] == Deployer {
        DeployKeepsOrWritesValid(env, job, w);
      } else {
        StepFrame(env, job, rs[0], w, ConfigKey(job));
      }
      ExecKeepsOrWritesValid(env, job, rs[1..], Step(env, job, rs[0], w).1);
    }
  }

  lemma OnlyDeployerWritesConfig(job: Job)
    requires job.name != CA_BUNDLE_CONFIG_MAP && !IsDashboard(job)
    ensures forall r :: r in Reconcilers(job) && r != Deployer ==> Target(job, r) != Some(ConfigKey(job))
  {
  }

  /** Whatever fails and wherever it stops, a run leaves the stored configuration as it was, or
      holding the rendering of a configuration that passes validation and follows the spec. */
  lemma OnlyValidConfigIsRolledOut(env: Env, job: Job, w: World)
    requires Leaves(env, ConfigKey(job))
    requires job.name != CA_BUNDLE_CONFIG_MAP && !IsDashboard(job)
    ensures KeptOrValid(job, w.server, EndOf(env, job, w))
  {
    var n := RunMeaning(env, job, Reconcilers(job), w);
    OnlyDeployerWritesConfig(job);
    assert forall r :: r in Reconcilers(job)[..n] ==> r in Reconcilers(job);
    ExecKeepsOrWritesValid(env, job, Reconcilers(job)[..n], w);
  }

  // ---- a configuration that cannot be built ---------------------------------

  lemma RolloutKeysNotBefore(job: Job)
    ensures NoneTargets(job, BeforeWorkload(job), DaemonSetKey(job))
    ensures NoneTargets(job, BeforeWorkload(job), MonitorKey(job))
    ensures job.name != CA_BUNDLE_CONFIG_MAP ==> NoneTargets(job, BeforeWorkload(job), ConfigKey(job))
  {
  }

  lemma ReconcilersShape(job: Job)
    requires !job.deleting
    ensures Reconcilers(job) == BeforeWorkload(job) + [Deployer]
              + ([ObjectsChecker, DaemonSetUpdater, MonitorStep] + Dashboards(job) + [Finalizer])
  {
  }

  /** Nothing new to read: the object is gone or says what it said. */
  predicate GoneOrSame(was: Option<Object>, now: Option<Object>) {
    now.Some? ==> was.Some? && Data(was.value) == Data(now.value)
  }

  lemma {:induction false} SameDocuments(a: seq<Object>, b: seq<Object>)
    requires |a| == |b| && forall i :: 0 <= i < |a| ==> Data(a[i]) == Data(b[i])
    ensures Documents(a) == Documents(b)
  {
    if |a| > 0 {
      SameDocuments(a[..|a| - 1], b[..|b| - 1]);
    }
  }

  lemma {:induction false} ReadTheSame(job: Job, was: Objects, now: Objects, names: seq<string>)
    requires forall i :: 0 <= i < |names| ==>
               GoneOrSame(Lookup(was, Key(ConfigMap, Ns(job), names[i])),
                          Lookup(now, Key(ConfigMap, Ns(job), names[i])))
    requires StoredConfigMaps(job, now, names).Some?
    ensures StoredConfigMaps(job, was, names).Some?
    ensures var a, b := StoredConfigMaps(job, was, names).value, StoredConfigMaps(job, now, names).value;
            |a| == |b| && forall i :: 0 <= i < |a| ==> Data(a[i]) == Data(b[i])
  {
    if |names| > 0 {
      var key := Key(ConfigMap, Ns(job), names[0]);
      assert GoneOrSame(Lookup(was, key), Lookup(now, key));
      assert forall i :: 0 <= i < |names[1..]| ==> names[1..][i] == names[i + 1];
      ReadTheSame(job, was, now, names[1..]);
    }
  }

  lemma RemoveAddsNothing(env: Env, s: Server, key: Key, onError: Action, wait: nat)
    requires Leaves(env, key)
    ensures GoneOrSame(Peek(s, key), Peek(Remove(env, s, key, onError, wait).1, key))
  {
    TickFrame(env, s, key);
    PollFrame(env, DeleteCall(env, s, key).1, key, DeleterPolls(wait), key);
  }

  /** Unless this mode wants the CA bundle, it reaches the Deployer as it was, or not at all. */
  lemma BundleAtDeployer(env: Env, job: Job, w: World)
    requires Leaves(env, CABundleKey(job)) && !(EnableRBAC(job.spec) && EnableUWM(job.spec))
    ensures GoneOrSame(Peek(w.server, CABundleKey(job)),
                       Peek(Exec(env, job, BeforeWorkload(job), w).server, CABundleKey(job)))
  {
    var key, pre, post := CABundleKey(job), BeforeSecurity(job) + [ProxyConfig], [UWMToken] + Namespaced(job);
    Coherence.CABundleBeforeWorkload(job);
    BundleAround(env, job, pre, post, w);
  }

  lemma BundleAround(env: Env, job: Job, pre: seq<Reconciler>, post: seq<Reconciler>, w: World)
    requires Leaves(env, CABundleKey(job)) && !(EnableRBAC(job.spec) && EnableUWM(job.spec))
    requires NoneTargets(job, pre, CABundleKey(job)) && NoneTargets(job, post, CABundleKey(job))
    ensures GoneOrSame(Peek(w.server, CABundleKey(job)),
                       Peek(Exec(env, job, pre + [CABundle] + post, w).server, CABundleKey(job)))
  {
    var key := CABundleKey(job);
    assert pre + [CABundle] + post == pre + ([CABundle] + post);
    ExecSplits(env, job, pre, [CABundle] + post, w);
    assert ([CABundle] + post)[1..] == post;
    var before := Exec(env, job, pre, w);
    ExecFrame(env, job, pre, w, key);
    RemoveAddsNothing(env, before.server, key, Continue, 0);
    ExecFrame(env, job, post, Step(env, job, CABundle, before).1, key);
  }

  /** The run supplies a listed ConfigMap itself only where it installs the CA bundle. */
  predicate SuppliesListed(job: Job) {
    EnableRBAC(job.spec) && EnableUWM(job.spec) && CA_BUNDLE_CONFIG_MAP in job.spec.config.additionalConfigMaps
  }

  /** A configuration that cannot be built at the start cannot be built at the Deployer either. */
  lemma BadConfigStaysBad(env: Env, job: Job, w: World)
    requires DesiredConfig(job, w.server.store.objects) == None && !SuppliesListed(job)
    requires LeavesConfigMaps(env, job, job.spec.config.additionalConfigMaps)
    ensures DesiredConfig(job, Exec(env, job, BeforeWorkload(job), w).server.store.objects) == None
  {
    var names := job.spec.config.additionalConfigMaps;
    var was, now := w.server, Exec(env, job, BeforeWorkload(job), w).server;
    forall i | 0 <= i < |names|
      ensures GoneOrSame(Peek(was, Key(ConfigMap, Ns(job), names[i])), Peek(now, Key(ConfigMap, Ns(job), names[i])))
    {
      if names[i] == CA_BUNDLE_CONFIG_MAP {
        BundleAtDeployer(env, job, w);
      } else {
        Coherence.ConfigMapAtDeployer(env, job, w, names[i]);
      }
    }
    if StoredConfigMaps(job, now.store.objects, names).Some? {
      ReadTheSame(job, was.store.objects, now.store.objects, names);
      SameDocuments(StoredConfigMaps(job, was.store.objects, names).value,
                    StoredConfigMaps(job, now.store.objects, names).value);
    }
  }

  /** A run that has to stop at a step executes no step after it. */
  lemma StopsAt(env: Env, job: Job, pre: seq<Reconciler>, r: Reconciler, rest: seq<Reconciler>, w: World)
    returns (n: nat)
    requires !Continues(Step(env, job, r, Exec(env, job, pre, w)).0)
    ensures n <= |pre| + 1
    ensures Run(env, job, pre + [r] + rest, w).1 == Exec(env, job, (pre + [r])[..n], w)
  {
    var rs, at := pre + [r] + rest, |pre|;
    n := RunMeaning(env, job, rs, w);
    assert rs[..at] == pre && rs[at] == r;
    assert !Continues(ResultAt(env, job, rs, w, at));
    if n > at + 1 {
      assert false;
    }
    assert rs[..n] == (pre + [r])[..n];
  }

  lemma StopsAtDeployer(env: Env, job: Job, w: World) returns (n: nat)
    requires !job.deleting
    requires var r := Deploy(env, job, Exec(env, job, BeforeWorkload(job), w)).0; !Continues(r)
    ensures n <= |BeforeWorkload(job)| + 1
    ensures EndOf(env, job, w) == Exec(env, job, (BeforeWorkload(job) + [Deployer])[..n], w).server
  {
    var rest := [ObjectsChecker, DaemonSetUpdater, MonitorStep] + Dashboards(job) + [Finalizer];
    ReconcilersShape(job);
    Coherence.DeployerDeploys(env, job, Exec(env, job, BeforeWorkload(job), w));
    n := StopsAt(env, job, BeforeWorkload(job), Deployer, rest, w);
  }

  /** A missing additional ConfigMap, a document that does not parse or a merge that does not
      validate leaves the stored configuration, DaemonSet and ServiceMonitor untouched, in any
      security mode and whatever else fails, unless the run itself supplies a listed ConfigMap. */
  lemma BadConfigHoldsRollout(env: Env, job: Job, w: World, key: Key)
    requires !job.deleting && DesiredConfig(job, w.server.store.objects) == None && !SuppliesListed(job)
    requires LeavesConfigMaps(env, job, job.spec.config.additionalConfigMaps)
    requires Leaves(env, ConfigKey(job)) && Leaves(env, key)
    requires key == DaemonSetKey(job) || key == MonitorKey(job)
             || (key == ConfigKey(job) && job.name != CA_BUNDLE_CONFIG_MAP)
    ensures Peek(EndOf(env, job, w), key) == Peek(w.server, key)
  {
    BadConfigStaysBad(env, job, w);
    RolloutKeysNotBefore(job);
    StopsWith(env, job, w, key);
  }

  /** A run that cannot build the configuration leaves an object as the steps before the Deployer
      find it, if they do not write it. */
  lemma StopsWith(env: Env, job: Job, w: World, key: Key)
    requires !job.deleting && LeavesConfigMaps(env, job, job.spec.config.additionalConfigMaps)
    requires DesiredConfig(job, Exec(env, job, BeforeWorkload(job), w).server.store.objects) == None
    requires Leaves(env, ConfigKey(job)) && Leaves(env, key) && NoneTargets(job, BeforeWorkload(job), key)
    ensures Peek(EndOf(env, job, w), key) == Peek(w.server, key)
  {
    var pre := BeforeWorkload(job);
    var before := Exec(env, job, pre, w);
    DeployMeaning(env, job, before);
    var n := StopsAtDeployer(env, job, w);
    StoppedPrefix(env, job, pre, n, w, key);
  }

  lemma StoppedPrefix(env: Env, job: Job, pre: seq<Reconciler>, n: nat, w: World, key: Key)
    requires n <= |pre| + 1 && Leaves(env, key) && NoneTargets(job, pre, key)
    requires var before := Exec(env, job, pre, w);
             Peek(Deploy(env, job, before).1.server, ConfigKey(job)) == Peek(before.server, ConfigKey(job))
    ensures Peek(Exec(env, job, (pre + [Deployer])[..n], w).server, key) == Peek(w.server, key)
  {
    if n <= |pre| {
      assert (pre + [Deployer])[..n] == pre[..n];
      assert forall r :: r in pre[..n] ==> r in pre;
      ExecFrame(env, job, pre[..n], w, key);
    } else {
      assert (pre + [Deployer])[..n] == pre + [Deployer];
      ExecLast(env, job, pre, Deployer, w);
      ExecFrame(env, job, pre, w, key);
      HeldDeployerFrame(env, job, Exec(env, job, pre, w), key);
    }
  }

  lemma HeldDeployerFrame(env: Env, job: Job, w: World, key: Key)
    requires Leaves(env, key) && Peek(Deploy(env, job, w).1.server, ConfigKey(job)) == Peek(w.server, ConfigKey(job))
    ensures Peek(Step(env, job, Deployer, w).1.server, key) == Peek(w.server, key)
  {
    Coherence.DeployerDeploys(env, job, w);
    if key != ConfigKey(job) {
      StepFrame(env, job, Deployer, w, key);
    }
  }

  // ---- where the conditions matter ------------------------------------------

  /** Where the run installs the CA bundle and the spec lists it, a run that starts without it can
      roll out: the listed ConfigMap is missing only until the run's own step. */
  lemma ListedBundleIsSupplied(env: Env, job: Job, w: World)
    requires !job.deleting && SuppliesListed(job) && AllFine(env, job, UpdateSteps(job), w)
    requires Peek(w.server, CABundleKey(job)) == None && Leaves(env, ConfigKey(job)) && !IsDashboard(job)
    ensures DesiredConfig(job, w.server.store.objects) == None
    ensures var stored := Peek(EndOf(env, job, w), ConfigKey(job));
            stored.Some? && HoldsValidConfig(job, stored.value)
  {
    var names := job.spec.config.additionalConfigMaps;
    var i :| 0 <= i < |names| && names[i] == CA_BUNDLE_CONFIG_MAP;
    Coherence.StoredNeedsAll(job, w.server.store.objects, names, i);
    StoredByDeployer(env, job, w);
  }

  /** What a run that did its work stores is a valid configuration. */
  lemma StoredByDeployer(env: Env, job: Job, w: World)
    requires !job.deleting && AllFine(env, job, UpdateSteps(job), w)
    requires Leaves(env, ConfigKey(job)) && !IsDashboard(job)
    ensures var stored := Peek(EndOf(env, job, w), ConfigKey(job));
            stored.Some? && HoldsValidConfig(job, stored.value)
  {
    var pre, post := BeforeWorkload(job), [ObjectsChecker, DaemonSetUpdater, MonitorStep] + Dashboards(job);
    ConfigIsSettled(job);
    EndsAsLastWritten(env, job, pre, Deployer, post, w, ConfigKey(job));
    FineDeployWritesValid(env, job, Exec(env, job, pre, w));
  }

  lemma FineDeployWritesValid(env: Env, job: Job, w: World)
    requires Leaves(env, ConfigKey(job)) && Fine(Step(env, job, Deployer, w).0)
    ensures var stored := Peek(Step(env, job, Deployer, w).1.server, ConfigKey(job));
            stored.Some? && HoldsValidConfig(job, stored.value)
  {
    var (read, s1) := ReadConfigMaps(env, job, w.server, job.spec.config.additionalConfigMaps, []);
    Coherence.DeployerDeploys(env, job, w);
    ValidText(job, Documents(read.objects));
    var text := KC.Generate(job.lib.host, job.spec.config, Documents(read.objects)).text;
    UpdateSettles(env, s1, ConfigKey(job), ConfigFields(text), Continue);
  }

  lemma ValidText(job: Job, docs: seq<string>)
    requires KC.Generate(job.lib.host, job.spec.config, docs).Generated?
    ensures forall o: Object :: o.applied == ConfigFields(KC.Generate(job.lib.host, job.spec.config, docs).text) ==>
              HoldsValidConfig(job, o)
  {
    KC.GeneratedIsValidAndFollowsSpec(job.lib.host, job.spec.config, docs);
  }

  /** A resource called like the CA bundle: the step that removes the bundle takes the stored
      configuration with it, and a configuration that cannot be built does not bring it back. */
  lemma BundleNameLosesConfig(env: Env, job: Job, w: World)
    requires !job.deleting && job.name == CA_BUNDLE_CONFIG_MAP && !(EnableRBAC(job.spec) && EnableUWM(job.spec))
    requires AllFine(env, job, BeforeWorkload(job), w) && Leaves(env, ConfigKey(job))
    requires LeavesConfigMaps(env, job, job.spec.config.additionalConfigMaps)
    requires DesiredConfig(job, Exec(env, job, BeforeWorkload(job), w).server.store.objects) == None
    ensures Peek(EndOf(env, job, w), ConfigKey(job)) == None
  {
    var pre := BeforeWorkload(job);
    var before := Exec(env, job, pre, w);
    Coherence.CABundleGoneAtDeployer(env, job, w);
    DeployMeaning(env, job, before);
    ReconcilersShape(job);
    var rest := [ObjectsChecker, DaemonSetUpdater, MonitorStep] + Dashboards(job) + [Finalizer];
    Coherence.DeployerDeploys(env, job, before);
    RunStops(env, job, pre, Deployer, rest, w, Deploy(env, job, before).0.error.value);
  }

  /** A resource called like a dashboard, in the dashboards' namespace: the dashboard takes the
      place of its configuration. */
  lemma DashboardNameLosesConfig(env: Env, job: Job, w: World)
    requires !job.deleting && IsDashboard(job) && AllFine(env, job, UpdateSteps(job), w) && Leaves(env, ConfigKey(job))
    ensures var stored := Peek(EndOf(env, job, w), ConfigKey(job));
            stored.Some? && !HoldsValidConfig(job, stored.value)
  {
    var pre := BeforeWorkload(job) + Workload();
    var overview := Updater(DashboardKey(OVERVIEW_DASHBOARD), Dashboard(OVERVIEW_DASHBOARD), Continue);
    var info := Updater(DashboardKey(NAMESPACE_DASHBOARD), Dashboard(NAMESPACE_DASHBOARD), Continue);
    var key := ConfigKey(job);
    assert UpdateSteps(job) == pre + [overview] + [info];
    assert UpdateSteps(job) == (pre + [overview]) + [info] + [];
    if job.name == OVERVIEW_DASHBOARD {
      assert NoneTargets(job, [info], key);
      EndsAsLastWritten(env, job, pre, overview, [info], w, key);
      UpdateSettles(env, Exec(env, job, pre, w).server, key, Dashboard(OVERVIEW_DASHBOARD), Continue);
    } else {
      EndsAsLastWritten(env, job, pre + [overview], info, [], w, key);
      UpdateSettles(env, Exec(env, job, pre + [overview], w).server, key, Dashboard(NAMESPACE_DASHBOARD), Continue);
    }
  }
}
