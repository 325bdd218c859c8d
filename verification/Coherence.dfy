/** The rollout and the contents it was made from. */
module Coherence {
  import opened Common
  import opened Api
  import opened ClusterModel
  import opened Steps
  import opened Runner
  import opened Frames
  import opened Rollout
  import opened Lockstep

  // ---- the rollout in mode none ---------------------------------------------

  ghost predicate LeavesInputs(env: Env, job: Job) {
    && LeavesSecrets(env, job, SecretNames(job.spec.deployment.secrets))
    && LeavesConfigMaps(env, job, job.spec.config.additionalConfigMaps)
    && Leaves(env, ConfigKey(job)) && Leaves(env, DaemonSetKey(job)) && Leaves(env, CABundleKey(job))
  }

  /** The steps between mounting the Secrets and deploying the configuration. */
  function BetweenMountAndDeploy(job: Job): seq<Reconciler> {
    ClusterScoped(job) + Security() + Namespaced(job)
  }

  function FirstStep(job: Job): seq<Reconciler> {
    [Updater(NamespaceKey(job), Bare(Plain), Requeue)]
  }

  lemma PrefixShape(job: Job)
    ensures BeforeWorkload(job) == FirstStep(job) + [SecretMounter] + BetweenMountAndDeploy(job)
    ensures forall r :: r in BetweenMountAndDeploy(job) ==> !TouchesTemplate(r)
  {
  }

  /** The template on arrival at the Deployer: the hashes of the Secrets stored at the start. */
  lemma TemplateAtDeployer(env: Env, job: Job, w: World)
    requires AllFine(env, job, BeforeWorkload(job), w)
    requires LeavesInputs(env, job) && w.template == map[]
    ensures Exec(env, job, BeforeWorkload(job), w).template
         == SecretHashes(job, w.server.store.objects, SecretNames(job.spec.deployment.secrets))
  {
    var names := SecretNames(job.spec.deployment.secrets);
    var first, rest := FirstStep(job), BetweenMountAndDeploy(job);
    PrefixShape(job);
    assert first + [SecretMounter] + rest == first + ([SecretMounter] + rest);
    AllFineSplits(env, job, first, [SecretMounter] + rest, w);
    ExecSplits(env, job, first, [SecretMounter] + rest, w);
    assert ([SecretMounter] + rest)[1..] == rest;
    var w1 := Exec(env, job, first, w);
    assert w1.template == w.template by {
      TemplateFrame(env, job, first, w);
    }
    forall i | 0 <= i < |names|
      ensures Lookup(w1.server.store.objects, Key(Secret, Ns(job), names[i]))
           == Lookup(w.server.store.objects, Key(Secret, Ns(job), names[i]))
    {
      ExecFrame(env, job, first, w, Key(Secret, Ns(job), names[i]));
    }
    AgreementDecides(job, w1.server.store.objects, w.server.store.objects, names);
    MountAnnotates(env, job, w1.server, names, map[], []);
    TemplateFrame(env, job, rest, Step(env, job, SecretMounter, w1).1);
    UpdateThenRest(map[], "", "", SecretHashes(job, w.server.store.objects, names));
  }

  lemma CABundleBeforeWorkload(job: Job)
    ensures BeforeWorkload(job) == BeforeSecurity(job) + [ProxyConfig] + [CABundle] + ([UWMToken] + Namespaced(job))
    ensures NoneTargets(job, BeforeSecurity(job) + [ProxyConfig], CABundleKey(job))
    ensures NoneTargets(job, [UWMToken] + Namespaced(job), CABundleKey(job))
  {
  }

  /** Where the mode does not want it, the CA bundle is gone before the Deployer runs. */
  lemma CABundleGoneAtDeployer(env: Env, job: Job, w: World)
    requires AllFine(env, job, BeforeWorkload(job), w) && !(EnableRBAC(job.spec) && EnableUWM(job.spec))
    requires Leaves(env, CABundleKey(job))
    ensures Peek(Exec(env, job, BeforeWorkload(job), w).server, CABundleKey(job)) == None
  {
    var pre, post := BeforeSecurity(job) + [ProxyConfig], [UWMToken] + Namespaced(job);
    CABundleBeforeWorkload(job);
    SettledBy(env, job, pre, CABundle, post, w, CABundleKey(job));
    RemoveSettles(env, Exec(env, job, pre, w).server, CABundleKey(job), Continue, 0);
  }

  lemma {:induction false} StoredNeedsAll(job: Job, objects: Objects, names: seq<string>, i: nat)
    requires i < |names| && Key(ConfigMap, Ns(job), names[i]) !in objects
    ensures StoredConfigMaps(job, objects, names) == None
  {
    if i > 0 {
      StoredNeedsAll(job, objects, names[1..], i - 1);
    }
  }

  lemma OnlyCABundleBeforeWorkload(job: Job, name: string)
    requires name != CA_BUNDLE_CONFIG_MAP
    ensures NoneTargets(job, BeforeWorkload(job), Key(ConfigMap, Ns(job), name))
  {
  }

  lemma DaemonSetNotBefore(job: Job)
    ensures NoneTargets(job, BeforeWorkload(job) + [Deployer, ObjectsChecker], DaemonSetKey(job))
  {
  }

  lemma ConfigMapAtDeployer(env: Env, job: Job, w: World, name: string)
    requires Leaves(env, Key(ConfigMap, Ns(job), name)) && name != CA_BUNDLE_CONFIG_MAP
    ensures Peek(Exec(env, job, BeforeWorkload(job), w).server, Key(ConfigMap, Ns(job), name))
         == Peek(w.server, Key(ConfigMap, Ns(job), name))
  {
    OnlyCABundleBeforeWorkload(job, name);
    ExecFrame(env, job, BeforeWorkload(job), w, Key(ConfigMap, Ns(job), name));
  }

  /** The additional ConfigMaps that the Deployer reads are those stored at the start. */
  lemma ConfigMapsAtDeployer(env: Env, job: Job, w: World)
    requires AllFine(env, job, BeforeWorkload(job), w) && !EnableRBAC(job.spec)
    requires LeavesInputs(env, job)
    requires DesiredConfig(job, Exec(env, job, BeforeWorkload(job), w).server.store.objects).Some?
    ensures DesiredConfig(job, Exec(env, job, BeforeWorkload(job), w).server.store.objects)
         == DesiredConfig(job, w.server.store.objects)
  {
    var names := job.spec.config.additionalConfigMaps;
    var before := Exec(env, job, BeforeWorkload(job), w).server;
    assert AgreeOnConfigMaps(job, before.store.objects, w.server.store.objects, names) by {
      forall i | 0 <= i < |names|
        ensures Lookup(before.store.objects, Key(ConfigMap, Ns(job), names[i]))
             == Lookup(w.server.store.objects, Key(ConfigMap, Ns(job), names[i]))
      {
        if names[i] == CA_BUNDLE_CONFIG_MAP {
          CABundleGoneAtDeployer(env, job, w);
          StoredNeedsAll(job, before.store.objects, names, i);
        } else {
          ConfigMapAtDeployer(env, job, w, names[i]);
        }
      }
    }
    StoredConfigMapsAgree(job, before.store.objects, w.server.store.objects, names);
  }

  ghost predicate UpdateRunInModeNone(env: Env, job: Job, w: World) {
    && !job.deleting && !EnableRBAC(job.spec) && !IsDashboard(job) && job.name != CA_BUNDLE_CONFIG_MAP
    && AllFine(env, job, UpdateSteps(job), w) && w.template == map[]
    && LeavesInputs(env, job)
  }

  /** The Deployer's part in such a run. */
  lemma DeployerInRun(env: Env, job: Job, w: World)
    requires UpdateRunInModeNone(env, job, w)
    ensures var before := Exec(env, job, BeforeWorkload(job), w);
            && AllFine(env, job, BeforeWorkload(job), w)
            && Fine(Step(env, job, Deployer, before).0)
            && Peek(EndOf(env, job, w), ConfigKey(job))
              == Peek(Step(env, job, Deployer, before).1.server, ConfigKey(job))
  {
    ConfigIsSettled(job);
    EndsAsLastWritten(env, job, BeforeWorkload(job), Deployer,
                      [ObjectsChecker, DaemonSetUpdater, MonitorStep] + Dashboards(job), w, ConfigKey(job));
  }

  lemma DeployerDeploys(env: Env, job: Job, w: World)
    ensures Step(env, job, Deployer, w) == Deploy(env, job, w)
  {
  }

  lemma ConfigAchieved(env: Env, job: Job, w: World)
    requires UpdateRunInModeNone(env, job, w)
    ensures var start, end := w.server, EndOf(env, job, w);
            var text := DesiredConfig(job, start.store.objects);
            && text.Some?
            && Peek(end, ConfigKey(job))
              == Some(Applied(ConfigMap, Peek(start, ConfigKey(job)), ConfigFields(text.value)))
            && Deploy(env, job, Exec(env, job, BeforeWorkload(job), w)).1.template
              == DesiredTemplate(job, start.store.objects, text.value)
  {
    DeployerInRun(env, job, w);
    DeployerDeploys(env, job, Exec(env, job, BeforeWorkload(job), w));
    ConfigMapAtDeployer(env, job, w, job.name);
    DeployMeaning(env, job, Exec(env, job, BeforeWorkload(job), w));
    ConfigMapsAtDeployer(env, job, w);
    TemplateAtDeployer(env, job, w);
  }

  lemma DaemonSetAchieved(env: Env, job: Job, w: World)
    requires UpdateRunInModeNone(env, job, w)
    ensures Peek(EndOf(env, job, w), DaemonSetKey(job)) == Some(Applied(DaemonSet, Peek(w.server, DaemonSetKey(job)),
              DaemonSetFields(job, Exec(env, job, BeforeWorkload(job) + [Deployer, ObjectsChecker], w).template)))
  {
    var pre := BeforeWorkload(job) + [Deployer, ObjectsChecker];
    DaemonSetIsSettled(job);
    EndsAsLastWritten(env, job, pre, DaemonSetUpdater, [MonitorStep] + Dashboards(job), w, DaemonSetKey(job));
    DaemonSetNotBefore(job);
    ExecFrame(env, job, pre, w, DaemonSetKey(job));
    var atDs := Exec(env, job, pre, w);
    UpdateSettles(env, atDs.server, DaemonSetKey(job), DaemonSetFields(job, atDs.template), Continue);
  }

  /** After an update run in mode none whose steps did their work, the stored ConfigMap and
      DaemonSet are exactly what the contents of the referenced objects call for. */
  lemma RolloutAchieved(env: Env, job: Job, w: World)
    requires UpdateRunInModeNone(env, job, w)
    ensures var start, end := w.server, EndOf(env, job, w);
            var text := DesiredConfig(job, start.store.objects);
            && text.Some?
            && Peek(end, ConfigKey(job))
              == Some(Applied(ConfigMap, Peek(start, ConfigKey(job)), ConfigFields(text.value)))
            && Peek(end, DaemonSetKey(job)) == Some(Applied(DaemonSet, Peek(start, DaemonSetKey(job)),
                 DaemonSetFields(job, DesiredTemplate(job, start.store.objects, text.value))))
  {
    ConfigAchieved(env, job, w);
    DaemonSetAchieved(env, job, w);
    TemplateAtDaemonSet(env, job, w);
  }

  lemma TemplateAtDaemonSet(env: Env, job: Job, w: World)
    requires !EnableRBAC(job.spec)
    ensures Exec(env, job, BeforeWorkload(job) + [Deployer, ObjectsChecker], w).template
         == Deploy(env, job, Exec(env, job, BeforeWorkload(job), w)).1.template
  {
    DeployThenCheckAfter(env, job, BeforeWorkload(job), w);
  }

  lemma DeployThenCheckAfter(env: Env, job: Job, pre: seq<Reconciler>, w: World)
    requires !EnableRBAC(job.spec)
    ensures Exec(env, job, pre + [Deployer, ObjectsChecker], w).template
         == Deploy(env, job, Exec(env, job, pre, w)).1.template
  {
    ExecSplits(env, job, pre, [Deployer, ObjectsChecker], w);
    DeployThenCheck(env, job, Exec(env, job, pre, w));
  }

  lemma DeployThenCheck(env: Env, job: Job, w: World)
    requires !EnableRBAC(job.spec)
    ensures Exec(env, job, [Deployer, ObjectsChecker], w).template == Step(env, job, Deployer, w).1.template
  {
    var w1 := Step(env, job, Deployer, w).1;
    assert [Deployer, ObjectsChecker][1..] == [ObjectsChecker];
    assert [ObjectsChecker][1..] == [];
    assert Step(env, job, ObjectsChecker, w1).1 == w1;
  }

  // ---- hash coherence -------------------------------------------------------

  /** `names` are the referenced Secrets; the template carries one hash annotation for each of
      them that exists, with the hash of its stored content, one for the configuration, and
      nothing else. */
  ghost predicate Coherent(job: Job, objects: Objects, names: seq<string>, template: map<string, string>,
                           text: string) {
    && (forall i :: 0 <= i < |names| ==>
          var key := Key(Secret, Ns(job), names[i]);
          Lookup(template, SecretAnnotation(names[i]))
            == if key in objects then Some(ContentHash(job.lib, objects[key])) else None)
    && Lookup(template, ConfigAnnotation(job.name)) == Some(job.lib.hash(text))
    && (forall a :: a in template ==>
          a == ConfigAnnotation(job.name) || exists i :: 0 <= i < |names| && a == SecretAnnotation(names[i]))
  }

  lemma ConfigAnnotationIsApart(m: string, n: string)
    ensures ConfigAnnotation(m) != SecretAnnotation(n)
  {
    var at := |"powermonitor.sustainable.computing.io/"|;
    assert ConfigAnnotation(m)[at] == CONFIG_MAP_HASH[at] == 'c';
    assert SecretAnnotation(n)[at] == SECRET_TLS_HASH[at] == 's';
  }

  lemma MonitorAnnotationsAreApart(n: string)
    ensures CA_BUNDLE_HASH + "-" + CA_BUNDLE_CONFIG_MAP != SecretAnnotation(n)
    ensures SECRET_TOKEN_HASH + "-" + UWM_TOKEN_SECRET != SecretAnnotation(n)
  {
    var at := |"powermonitor.sustainable.computing.io/"|;
    assert SecretAnnotation(n)[at] == SECRET_TLS_HASH[at] == 's';
    assert SecretAnnotation(n)[at + 8] == SECRET_TLS_HASH[at + 8] == 'l';
    assert (CA_BUNDLE_HASH + "-" + CA_BUNDLE_CONFIG_MAP)[at] == CA_BUNDLE_HASH[at] == 'c';
    assert (SECRET_TOKEN_HASH + "-" + UWM_TOKEN_SECRET)[at + 8] == SECRET_TOKEN_HASH[at + 8] == 'o';
  }

  /** The hash annotations by reference: the annotation of a name decides the name. */
  lemma {:induction false} SecretHashesMeaning(job: Job, objects: Objects, names: seq<string>)
    ensures forall i :: 0 <= i < |names| ==>
              var key := Key(Secret, Ns(job), names[i]);
              Lookup(SecretHashes(job, objects, names), SecretAnnotation(names[i]))
                == if key in objects then Some(ContentHash(job.lib, objects[key])) else None
    ensures forall a :: a in SecretHashes(job, objects, names) ==>
              exists i :: 0 <= i < |names| && a == SecretAnnotation(names[i])
  {
    if |names| > 0 {
      var rest := names[1..];
      SecretHashesMeaning(job, objects, rest);
      assert forall i :: 0 <= i < |rest| ==> rest[i] == names[i + 1];
      forall i | 0 <= i < |names|
        ensures var key := Key(Secret, Ns(job), names[i]);
                Lookup(SecretHashes(job, objects, names), SecretAnnotation(names[i]))
                  == if key in objects then Some(ContentHash(job.lib, objects[key])) else None
      {
        SecretAnnotationInjective(names[0], names[i]);
        if i > 0 {
          assert rest[i - 1] == names[i];
        } else if SecretAnnotation(names[0]) in SecretHashes(job, objects, rest) {
          var j :| 0 <= j < |rest| && SecretAnnotation(names[0]) == SecretAnnotation(rest[j]);
          SecretAnnotationInjective(names[0], rest[j]);
        }
      }
      forall a | a in SecretHashes(job, objects, names)
        ensures exists i :: 0 <= i < |names| && a == SecretAnnotation(names[i])
      {
        if a in SecretHashes(job, objects, rest) {
          var j :| 0 <= j < |rest| && a == SecretAnnotation(rest[j]);
          assert a == SecretAnnotation(names[j + 1]);
        } else {
          assert a == SecretAnnotation(names[0]);
        }
      }
    }
  }

  lemma DesiredTemplateIsCoherent(job: Job, objects: Objects, text: string)
    ensures Coherent(job, objects, SecretNames(job.spec.deployment.secrets), DesiredTemplate(job, objects, text), text)
  {
    var names := SecretNames(job.spec.deployment.secrets);
    SecretHashesMeaning(job, objects, names);
    forall i | 0 <= i < |names|
      ensures var key := Key(Secret, Ns(job), names[i]);
              Lookup(DesiredTemplate(job, objects, text), SecretAnnotation(names[i]))
                == if key in objects then Some(ContentHash(job.lib, objects[key])) else None
    {
      ConfigAnnotationIsApart(job.name, names[i]);
    }
  }

  lemma SecretsAreUntouched(job: Job, name: string)
    requires name != PROXY_CONFIG_SECRET && name != UWM_TOKEN_SECRET
    ensures NoneTargets(job, UpdateSteps(job), Key(Secret, Ns(job), name))
  {
  }

  lemma SecretOutlastsRun(env: Env, job: Job, w: World, name: string)
    requires !job.deleting && AllFine(env, job, UpdateSteps(job), w)
    requires name != PROXY_CONFIG_SECRET && name != UWM_TOKEN_SECRET
    requires Leaves(env, Key(Secret, Ns(job), name))
    ensures Peek(EndOf(env, job, w), Key(Secret, Ns(job), name)) == Peek(w.server, Key(Secret, Ns(job), name))
  {
    var key := Key(Secret, Ns(job), name);
    SecretsAreUntouched(job, name);
    ExecFrame(env, job, UpdateSteps(job), w, key);
    EndIsEndOfSteps(env, job, w, key);
  }

  predicate IsOperatorSecret(name: string) {
    name == PROXY_CONFIG_SECRET || name == UWM_TOKEN_SECRET
  }

  /** No reference is to a stored Secret that the operator is about to delete. */
  predicate NoDoomedReference(objects: Objects, job: Job, names: seq<string>) {
    forall i :: 0 <= i < |names| && IsOperatorSecret(names[i]) ==> Key(Secret, Ns(job), names[i]) !in objects
  }

  ghost predicate LeavesOperatorSecrets(env: Env, job: Job) {
    Leaves(env, ProxyConfigKey(job)) && Leaves(env, TokenSecretKey(job))
  }

  /** In mode none a referenced Secret ends as it was, unless it is one of the operator's own. */
  lemma SecretAtEnd(env: Env, job: Job, w: World, name: string)
    requires UpdateRunInModeNone(env, job, w) && LeavesOperatorSecrets(env, job)
    requires Leaves(env, Key(Secret, Ns(job), name))
    ensures Peek(EndOf(env, job, w), Key(Secret, Ns(job), name))
         == if IsOperatorSecret(name) then None else Peek(w.server, Key(Secret, Ns(job), name))
  {
    if name == PROXY_CONFIG_SECRET {
      ProxyConfigFollowsMode(env, job, w);
    } else if name == UWM_TOKEN_SECRET {
      TokenFollowsMode(env, job, w);
    } else {
      SecretOutlastsRun(env, job, w, name);
    }
  }

  /** The template made from the Secrets at the start tells of those at the end exactly when no
      doomed Secret was referenced. */
  lemma CoherentAtEnd(job: Job, start: Objects, end: Objects, text: string)
    requires forall i :: 0 <= i < |job.spec.deployment.secrets| ==>
               var name := job.spec.deployment.secrets[i].name;
               var key := Key(Secret, Ns(job), name);
               Lookup(end, key) == if IsOperatorSecret(name) then None else Lookup(start, key)
    ensures var names := SecretNames(job.spec.deployment.secrets);
            Coherent(job, end, names, DesiredTemplate(job, start, text), text) <==> NoDoomedReference(start, job, names)
  {
    var names := SecretNames(job.spec.deployment.secrets);
    var template := DesiredTemplate(job, start, text);
    DesiredTemplateIsCoherent(job, start, text);
    forall i | 0 <= i < |names|
      ensures var key := Key(Secret, Ns(job), names[i]);
              Lookup(template, SecretAnnotation(names[i]))
                == (if key in end then Some(ContentHash(job.lib, end[key])) else None)
              <==> (IsOperatorSecret(names[i]) ==> key !in start)
    {
      assert names[i] == job.spec.deployment.secrets[i].name;
    }
  }

  /** What such a run stores, as readers see it. */
  lemma RolledOut(env: Env, job: Job, w: World) returns (text: string)
    requires UpdateRunInModeNone(env, job, w)
    ensures var end := EndOf(env, job, w);
            var ds, cm := Peek(end, DaemonSetKey(job)), Peek(end, ConfigKey(job));
            && ds.Some? && cm.Some? && Lookup(Data(cm.value), CONFIG_FILE) == Some(text)
            && ds.value.applied.maps.template == DesiredTemplate(job, w.server.store.objects, text)
            && forall a :: a in ds.value.applied.maps.template ==>
                 Lookup(Template(ds.value), a) == Some(ds.value.applied.maps.template[a])
  {
    RolloutAchieved(env, job, w);
    text := DesiredConfig(job, w.server.store.objects).value;
    AppliedEntriesAreVisible(ConfigMap, Peek(w.server, ConfigKey(job)), ConfigFields(text), CONFIG_FILE);
  }

  /** Rollout hash coherence: after an update run in mode none whose steps did their work, the
      stored DaemonSet's pod template carries the hash of the stored configuration, which readers
      see; and it agrees, annotation by annotation, with the stored Secrets exactly when no
      reference was to a stored Secret of the operator's own, which this mode deletes. */
  lemma HashCoherence(env: Env, job: Job, w: World)
    requires UpdateRunInModeNone(env, job, w) && LeavesOperatorSecrets(env, job)
    ensures var end, names := EndOf(env, job, w), SecretNames(job.spec.deployment.secrets);
            var ds, cm := Peek(end, DaemonSetKey(job)), Peek(end, ConfigKey(job));
            && ds.Some? && cm.Some? && Lookup(Data(cm.value), CONFIG_FILE).Some?
            && var template, text := ds.value.applied.maps.template, Data(cm.value)[CONFIG_FILE];
               && (forall a :: a in template ==> Lookup(Template(ds.value), a) == Some(template[a]))
               && Lookup(template, ConfigAnnotation(job.name)) == Some(job.lib.hash(text))
               && (Coherent(job, end.store.objects, names, template, text)
                   <==> NoDoomedReference(w.server.store.objects, job, names))
  {
    var text := RolledOut(env, job, w);
    SecretsAtEnd(env, job, w);
    CoherentAtEnd(job, w.server.store.objects, EndOf(env, job, w).store.objects, text);
  }

  lemma SecretsAtEnd(env: Env, job: Job, w: World)
    requires UpdateRunInModeNone(env, job, w) && LeavesOperatorSecrets(env, job)
    ensures forall i :: 0 <= i < |job.spec.deployment.secrets| ==>
              var name := job.spec.deployment.secrets[i].name;
              var key := Key(Secret, Ns(job), name);
              Lookup(EndOf(env, job, w).store.objects, key)
                == if IsOperatorSecret(name) then None else Lookup(w.server.store.objects, key)
  {
    var refs := job.spec.deployment.secrets;
    forall i | 0 <= i < |refs|
      ensures Peek(EndOf(env, job, w), Key(Secret, Ns(job), refs[i].name))
           == if IsOperatorSecret(refs[i].name) then None else Peek(w.server, Key(Secret, Ns(job), refs[i].name))
    {
      assert SecretNames(refs)[i] == refs[i].name;
      SecretAtEnd(env, job, w, refs[i].name);
    }
  }

  /** The case that breaks it: a referenced Secret of the operator's own, stored when a run in
      mode none starts, is gone at the end, but the DaemonSet carries its hash. */
  lemma HashOfDeletedSecret(env: Env, job: Job, w: World, i: nat)
    requires UpdateRunInModeNone(env, job, w) && LeavesOperatorSecrets(env, job)
    requires i < |job.spec.deployment.secrets| && IsOperatorSecret(job.spec.deployment.secrets[i].name)
    requires Peek(w.server, Key(Secret, Ns(job), job.spec.deployment.secrets[i].name)).Some?
    ensures var name := job.spec.deployment.secrets[i].name;
            var key := Key(Secret, Ns(job), name);
            var ds := Peek(EndOf(env, job, w), DaemonSetKey(job));
            && Peek(EndOf(env, job, w), key) == None && ds.Some?
            && Lookup(ds.value.applied.maps.template, SecretAnnotation(name))
                 == Some(ContentHash(job.lib, Peek(w.server, key).value))
  {
    var names := SecretNames(job.spec.deployment.secrets);
    RolloutAchieved(env, job, w);
    var text := DesiredConfig(job, w.server.store.objects).value;
    DesiredTemplateIsCoherent(job, w.server.store.objects, text);
    assert names[i] == job.spec.deployment.secrets[i].name;
    SecretAtEnd(env, job, w, names[i]);
  }
}
