/** What a run of an update list leaves in the cluster. */
module Rollout {
  import opened Common
  import opened Api
  import opened ClusterModel
  import opened Steps
  import opened Runner
  import opened Frames
  import KC = KeplerConfig

  ghost function EndOf(env: Env, job: Job, w: World): Server {
    Run(env, job, Reconcilers(job), w).1.server
  }

  // ---- where each object is settled -----------------------------------------

  function BeforeSecurity(job: Job): seq<Reconciler> {
    [Updater(NamespaceKey(job), Bare(Plain), Requeue), SecretMounter] + ClusterScoped(job)
  }

  function BeforeWorkload(job: Job): seq<Reconciler> {
    BeforeSecurity(job) + Security() + Namespaced(job)
  }

  function AfterSecurity(job: Job): seq<Reconciler> {
    Namespaced(job) + Workload() + Dashboards(job)
  }

  /** `r` is a step of the update run that writes `key`, and no later step does. */
  ghost predicate LastWriter(job: Job, pre: seq<Reconciler>, r: Reconciler, post: seq<Reconciler>, key: Key) {
    UpdateSteps(job) == pre + [r] + post && NoneTargets(job, post, key)
  }

  lemma ProxyConfigIsSettled(job: Job)
    ensures LastWriter(job, BeforeSecurity(job), ProxyConfig, [CABundle, UWMToken] + AfterSecurity(job),
                       ProxyConfigKey(job))
  {
  }

  lemma CABundleIsSettled(job: Job)
    requires job.name != CA_BUNDLE_CONFIG_MAP
    ensures LastWriter(job, BeforeSecurity(job) + [ProxyConfig], CABundle, [UWMToken] + AfterSecurity(job),
                       CABundleKey(job))
  {
  }

  lemma TokenIsSettled(job: Job)
    ensures LastWriter(job, BeforeSecurity(job) + [ProxyConfig, CABundle], UWMToken, AfterSecurity(job),
                       TokenSecretKey(job))
  {
  }

  /** The resource's own ConfigMap has the key of a dashboard that the run writes. */
  predicate IsDashboard(job: Job) {
    && Dashboards(job) != []
    && Ns(job) == DASHBOARD_NAMESPACE && (job.name == OVERVIEW_DASHBOARD || job.name == NAMESPACE_DASHBOARD)
  }

  lemma ConfigIsSettled(job: Job)
    requires !IsDashboard(job)
    ensures LastWriter(job, BeforeWorkload(job), Deployer,
                       [ObjectsChecker, DaemonSetUpdater, MonitorStep] + Dashboards(job), ConfigKey(job))
  {
  }

  lemma DaemonSetIsSettled(job: Job)
    ensures LastWriter(job, BeforeWorkload(job) + [Deployer, ObjectsChecker], DaemonSetUpdater,
                       [MonitorStep] + Dashboards(job), DaemonSetKey(job))
  {
  }

  lemma MonitorIsSettled(job: Job)
    ensures LastWriter(job, BeforeWorkload(job) + [Deployer, ObjectsChecker, DaemonSetUpdater], MonitorStep,
                       Dashboards(job), MonitorKey(job))
  {
  }

  /** In a run whose steps did their work an object ends as its last writer left it. */
  lemma EndsAsLastWritten(env: Env, job: Job, pre: seq<Reconciler>, r: Reconciler, post: seq<Reconciler>, w: World,
                          key: Key)
    requires !job.deleting && AllFine(env, job, UpdateSteps(job), w)
    requires Leaves(env, key) && LastWriter(job, pre, r, post, key)
    ensures var before := Exec(env, job, pre, w);
            && AllFine(env, job, pre, w)
            && Fine(Step(env, job, r, before).0)
            && Peek(EndOf(env, job, w), key) == Peek(Step(env, job, r, before).1.server, key)
  {
    SettledBy(env, job, pre, r, post, w, key);
    EndIsEndOfSteps(env, job, w, key);
  }

  lemma EndIsEndOfSteps(env: Env, job: Job, w: World, key: Key)
    requires !job.deleting && AllFine(env, job, UpdateSteps(job), w) && Leaves(env, key)
    ensures Peek(EndOf(env, job, w), key) == Peek(Exec(env, job, UpdateSteps(job), w).server, key)
  {
    var _ := RunPastFine(env, job, UpdateSteps(job), [Finalizer], w, None);
    StepFrame(env, job, Finalizer, Exec(env, job, UpdateSteps(job), w), key);
  }

  // ---- history independence -------------------------------------------------

  lemma ProxyConfigFollowsMode(env: Env, job: Job, w: World)
    requires !job.deleting && AllFine(env, job, UpdateSteps(job), w)
    requires Leaves(env, ProxyConfigKey(job))
    ensures Peek(EndOf(env, job, w), ProxyConfigKey(job)).Some? <==> EnableRBAC(job.spec)
  {
    var key, pre := ProxyConfigKey(job), BeforeSecurity(job);
    ProxyConfigIsSettled(job);
    EndsAsLastWritten(env, job, pre, ProxyConfig, [CABundle, UWMToken] + AfterSecurity(job), w, key);
    var before := Exec(env, job, pre, w);
    if EnableRBAC(job.spec) {
      UpdateSettles(env, before.server, key, ProxyConfigFields(job), Continue);
    } else {
      RemoveSettles(env, before.server, key, Continue, 0);
    }
  }

  lemma CABundleFollowsMode(env: Env, job: Job, w: World)
    requires !job.deleting && AllFine(env, job, UpdateSteps(job), w)
    requires Leaves(env, CABundleKey(job)) && job.name != CA_BUNDLE_CONFIG_MAP
    ensures Peek(EndOf(env, job, w), CABundleKey(job)).Some? <==> EnableRBAC(job.spec) && EnableUWM(job.spec)
  {
    CABundleIsSettled(job);
    CABundleAfter(env, job, BeforeSecurity(job) + [ProxyConfig], [UWMToken] + AfterSecurity(job), w);
  }

  lemma CABundleAfter(env: Env, job: Job, pre: seq<Reconciler>, post: seq<Reconciler>, w: World)
    requires !job.deleting && AllFine(env, job, UpdateSteps(job), w)
    requires Leaves(env, CABundleKey(job)) && LastWriter(job, pre, CABundle, post, CABundleKey(job))
    ensures Peek(EndOf(env, job, w), CABundleKey(job)).Some? <==> EnableRBAC(job.spec) && EnableUWM(job.spec)
  {
    var key := CABundleKey(job);
    EndsAsLastWritten(env, job, pre, CABundle, post, w, key);
    var before := Exec(env, job, pre, w);
    if EnableRBAC(job.spec) && EnableUWM(job.spec) {
      UpdateSettles(env, before.server, key, CA_BUNDLE_FIELDS, Continue);
    } else {
      RemoveSettles(env, before.server, key, Continue, 0);
    }
  }

  lemma TokenFollowsMode(env: Env, job: Job, w: World)
    requires !job.deleting && AllFine(env, job, UpdateSteps(job), w)
    requires Leaves(env, TokenSecretKey(job))
    ensures Peek(EndOf(env, job, w), TokenSecretKey(job)).Some? <==> EnableRBAC(job.spec) && EnableUWM(job.spec)
  {
    var key, pre := TokenSecretKey(job), BeforeSecurity(job) + [ProxyConfig, CABundle];
    TokenIsSettled(job);
    EndsAsLastWritten(env, job, pre, UWMToken, AfterSecurity(job), w, key);
    TokenSettles(env, job, Exec(env, job, pre, w).server);
  }

  lemma MonitorFollowsMode(env: Env, job: Job, w: World)
    requires !job.deleting && AllFine(env, job, UpdateSteps(job), w)
    requires Leaves(env, MonitorKey(job))
    ensures Peek(EndOf(env, job, w), MonitorKey(job)).Some? <==> !EnableRBAC(job.spec) || EnableUWM(job.spec)
  {
    MonitorIsSettled(job);
    MonitorAfter(env, job, BeforeWorkload(job) + [Deployer, ObjectsChecker, DaemonSetUpdater], Dashboards(job), w);
  }

  lemma MonitorAfter(env: Env, job: Job, pre: seq<Reconciler>, post: seq<Reconciler>, w: World)
    requires !job.deleting && AllFine(env, job, UpdateSteps(job), w)
    requires Leaves(env, MonitorKey(job)) && LastWriter(job, pre, MonitorStep, post, MonitorKey(job))
    ensures Peek(EndOf(env, job, w), MonitorKey(job)).Some? <==> !EnableRBAC(job.spec) || EnableUWM(job.spec)
  {
    var key := MonitorKey(job);
    EndsAsLastWritten(env, job, pre, MonitorStep, post, w, key);
    var before := Exec(env, job, pre, w);
    if EnableRBAC(job.spec) && !EnableUWM(job.spec) {
      RemoveSettles(env, before.server, key, Continue, 0);
    } else {
      UpdateSettles(env, before.server, key, MonitorFields(job, before.monitor), Continue);
    }
  }

  /** History independence: whatever the cluster held before, and whatever security modes it
      went through, after a run whose steps did their work the security objects and the
      ServiceMonitor exist exactly as the current mode wants. */
  lemma HistoryIndependence(env: Env, job: Job, w: World)
    requires !job.deleting && AllFine(env, job, UpdateSteps(job), w)
    requires job.name != CA_BUNDLE_CONFIG_MAP
    requires Leaves(env, ProxyConfigKey(job)) && Leaves(env, CABundleKey(job))
    requires Leaves(env, TokenSecretKey(job)) && Leaves(env, MonitorKey(job))
    ensures var rbac, uwm, end := EnableRBAC(job.spec), EnableUWM(job.spec), EndOf(env, job, w);
            && (Peek(end, ProxyConfigKey(job)).Some? <==> rbac)
            && (Peek(end, CABundleKey(job)).Some? <==> rbac && uwm)
            && (Peek(end, TokenSecretKey(job)).Some? <==> rbac && uwm)
            && (Peek(end, MonitorKey(job)).Some? <==> !rbac || uwm)
  {
    ProxyConfigFollowsMode(env, job, w);
    CABundleFollowsMode(env, job, w);
    TokenFollowsMode(env, job, w);
    MonitorFollowsMode(env, job, w);
  }

  /** The one name the property excludes: a resource called like the CA bundle has its own
      ConfigMap in the bundle's place, so the object exists in every mode. */
  lemma CABundleNameClash(env: Env, job: Job, w: World)
    requires !job.deleting && AllFine(env, job, UpdateSteps(job), w)
    requires Leaves(env, CABundleKey(job)) && job.name == CA_BUNDLE_CONFIG_MAP
    ensures Peek(EndOf(env, job, w), CABundleKey(job)).Some?
  {
    var key, pre := ConfigKey(job), BeforeWorkload(job);
    ConfigIsSettled(job);
    EndsAsLastWritten(env, job, pre, Deployer, [ObjectsChecker, DaemonSetUpdater, MonitorStep] + Dashboards(job), w,
                      key);
    var before := Exec(env, job, pre, w);
    var (read, s1) := ReadConfigMaps(env, job, before.server, job.spec.config.additionalConfigMaps, []);
    var text := KC.Generate(job.lib.host, job.spec.config, Documents(read.objects)).text;
    UpdateSettles(env, s1, key, ConfigFields(text), Continue);
  }

  // ---- the desired rollout --------------------------------------------------

  type Objects = map<Key, Object>

  /** The hash annotations of the referenced Secrets that exist. */
  ghost function SecretHashes(job: Job, objects: Objects, names: seq<string>): map<string, string> {
    if |names| == 0 then map[]
    else
      var key := Key(Secret, Ns(job), names[0]);
      (if key in objects then map[SecretAnnotation(names[0]) := ContentHash(job.lib, objects[key])] else map[])
      + SecretHashes(job, objects, names[1..])
  }

  function MissingNames(job: Job, objects: Objects, names: seq<string>): seq<string> {
    if |names| == 0 then []
    else (if Key(Secret, Ns(job), names[0]) in objects then [] else [names[0]]) + MissingNames(job, objects, names[1..])
  }

  ghost predicate LeavesSecrets(env: Env, job: Job, names: seq<string>) {
    forall i :: 0 <= i < |names| ==> Leaves(env, Key(Secret, Ns(job), names[i]))
  }

  ghost predicate AgreeOnSecrets(job: Job, a: Objects, b: Objects, names: seq<string>) {
    forall i :: 0 <= i < |names| ==>
      Lookup(a, Key(Secret, Ns(job), names[i])) == Lookup(b, Key(Secret, Ns(job), names[i]))
  }

  lemma {:induction false} AgreementDecides(job: Job, a: Objects, b: Objects, names: seq<string>)
    requires AgreeOnSecrets(job, a, b, names)
    ensures SecretHashes(job, a, names) == SecretHashes(job, b, names)
    ensures MissingNames(job, a, names) == MissingNames(job, b, names)
  {
    if |names| > 0 {
      var key := Key(Secret, Ns(job), names[0]);
      assert Lookup(a, key) == Lookup(b, key);
      AgreementDecides(job, a, b, names[1..]);
    }
  }

  /** A call made while reading the Secrets does not change what the rest of them say. */
  lemma SecretsOutlastCall(env: Env, job: Job, s: Server, names: seq<string>)
    requires LeavesSecrets(env, job, names) && |names| > 0
    ensures var before, after, rest := s.store.objects, Ticked(env, s).store.objects, names[1..];
            && Lookup(after, Key(Secret, Ns(job), names[0])) == Lookup(before, Key(Secret, Ns(job), names[0]))
            && LeavesSecrets(env, job, rest)
            && SecretHashes(job, after, rest) == SecretHashes(job, before, rest)
            && MissingNames(job, after, rest) == MissingNames(job, before, rest)
  {
    var rest := names[1..];
    TickFrame(env, s, Key(Secret, Ns(job), names[0]));
    forall i | 0 <= i < |rest|
      ensures Leaves(env, Key(Secret, Ns(job), rest[i]))
      ensures Lookup(Ticked(env, s).store.objects, Key(Secret, Ns(job), rest[i]))
           == Lookup(s.store.objects, Key(Secret, Ns(job), rest[i]))
    {
      assert rest[i] == names[i + 1];
      TickFrame(env, s, Key(Secret, Ns(job), rest[i]));
    }
    AgreementDecides(job, Ticked(env, s).store.objects, s.store.objects, rest);
  }

  lemma UpdateThenRest(m: map<string, string>, k: string, v: string, rest: map<string, string>)
    ensures m[k := v] + rest == m + (map[k := v] + rest)
    ensures map[] + rest == rest
  {
  }

  /** Mounting annotates with exactly the hashes of the Secrets that exist. */
  lemma {:induction false} MountAnnotates(env: Env, job: Job, s: Server, names: seq<string>,
                                          template: map<string, string>, missing: seq<string>)
    requires LeavesSecrets(env, job, names)
    requires Fine(MountSecrets(env, job, s, names, template, missing).0)
    ensures MountSecrets(env, job, s, names, template, missing).2
         == template + SecretHashes(job, s.store.objects, names)
    decreases |names|
  {
    if |names| > 0 {
      SecretsOutlastCall(env, job, s, names);
      var (got, s') := GetCall(env, s, Key(Secret, Ns(job), names[0]));
      var rest := SecretHashes(job, s.store.objects, names[1..]);
      var annotation := SecretAnnotation(names[0]);
      if got.Found? {
        var hash := ContentHash(job.lib, got.item);
        UpdateThenRest(template, annotation, hash, rest);
        MountAnnotates(env, job, s', names[1..], template[annotation := hash], missing);
      } else {
        UpdateThenRest(template, annotation, "", rest);
        MountAnnotates(env, job, s', names[1..], template, missing + [names[0]]);
      }
    }
  }

  /** Mounting reports exactly the missing Secrets, in the order of the references. */
  lemma {:induction false} MountReports(env: Env, job: Job, s: Server, names: seq<string>,
                                        template: map<string, string>, missing: seq<string>)
    requires LeavesSecrets(env, job, names)
    requires Fine(MountSecrets(env, job, s, names, template, missing).0)
    ensures MountSecrets(env, job, s, names, template, missing).0.error
         == var all := missing + MissingNames(job, s.store.objects, names);
            if all == [] then None else Some(SecretNotFound(all, Ns(job)))
    decreases |names|
  {
    if |names| == 0 {
      assert missing + [] == missing;
    } else {
      SecretsOutlastCall(env, job, s, names);
      var (got, s') := GetCall(env, s, Key(Secret, Ns(job), names[0]));
      var tail := MissingNames(job, s.store.objects, names[1..]);
      if got.Found? {
        assert [] + tail == tail;
        MountReports(env, job, s', names[1..], template[SecretAnnotation(names[0]) := ContentHash(job.lib, got.item)],
                     missing);
      } else {
        assert missing + ([names[0]] + tail) == (missing + [names[0]]) + tail;
        MountReports(env, job, s', names[1..], template, missing + [names[0]]);
      }
    }
  }

  ghost predicate AgreeOnConfigMaps(job: Job, a: Objects, b: Objects, names: seq<string>) {
    forall i :: 0 <= i < |names| ==>
      Lookup(a, Key(ConfigMap, Ns(job), names[i])) == Lookup(b, Key(ConfigMap, Ns(job), names[i]))
  }

  ghost predicate LeavesConfigMaps(env: Env, job: Job, names: seq<string>) {
    forall i :: 0 <= i < |names| ==> Leaves(env, Key(ConfigMap, Ns(job), names[i]))
  }

  /** The stored ConfigMaps of these names, in order; None when one is missing. */
  function StoredConfigMaps(job: Job, objects: Objects, names: seq<string>): Option<seq<Object>> {
    if |names| == 0 then Some([])
    else
      match (Lookup(objects, Key(ConfigMap, Ns(job), names[0])), StoredConfigMaps(job, objects, names[1..]))
      case (Some(o), Some(rest)) => Some([o] + rest)
      case _ => None
  }

  lemma {:induction false} StoredConfigMapsAgree(job: Job, a: Objects, b: Objects, names: seq<string>)
    requires AgreeOnConfigMaps(job, a, b, names)
    ensures StoredConfigMaps(job, a, names) == StoredConfigMaps(job, b, names)
  {
    if |names| > 0 {
      assert Lookup(a, Key(ConfigMap, Ns(job), names[0])) == Lookup(b, Key(ConfigMap, Ns(job), names[0]));
      StoredConfigMapsAgree(job, a, b, names[1..]);
    }
  }

  lemma {:induction false} ReadMeaning(env: Env, job: Job, s: Server, names: seq<string>, sofar: seq<Object>)
    requires LeavesConfigMaps(env, job, names)
    ensures var (r, _) := ReadConfigMaps(env, job, s, names, sofar);
            var stored := StoredConfigMaps(job, s.store.objects, names);
            r.Read? ==> stored.Some? && r.objects == sofar + stored.value
    decreases |names|
  {
    if |names| == 0 {
      assert sofar + [] == sofar;
    } else {
      var key := Key(ConfigMap, Ns(job), names[0]);
      TickFrame(env, s, key);
      var (got, s') := GetCall(env, s, key);
      var rest := names[1..];
      forall i | 0 <= i < |rest|
        ensures Lookup(s'.store.objects, Key(ConfigMap, Ns(job), rest[i]))
             == Lookup(s.store.objects, Key(ConfigMap, Ns(job), rest[i]))
      {
        assert rest[i] == names[i + 1];
        TickFrame(env, s, Key(ConfigMap, Ns(job), rest[i]));
      }
      StoredConfigMapsAgree(job, s'.store.objects, s.store.objects, rest);
      if got.Found? {
        ReadMeaning(env, job, s', rest, sofar + [got.item]);
        var stored := StoredConfigMaps(job, s.store.objects, rest);
        if stored.Some? {
          assert sofar + ([got.item] + stored.value) == (sofar + [got.item]) + stored.value;
        }
      }
    }
  }

  lemma {:induction false} DocumentsAppend(a: seq<Object>, b: seq<Object>)
    ensures Documents(a + b) == Documents(a) + Documents(b)
    decreases |b|
  {
    if |b| == 0 {
      assert a + b == a;
    } else {
      var n, c := |b| - 1, a + b;
      DocumentsAppend(a, b[..n]);
      assert c[..|c| - 1] == a + b[..n] && c[|c| - 1] == b[n];
      Concat3(Documents(a), Documents(b[..n]), DocumentOf(b[n]));
    }
  }

  lemma Concat3<T>(x: seq<T>, y: seq<T>, z: seq<T>)
    ensures (x + y) + z == x + (y + z)
  {
  }

  lemma DocumentsOfOne(o: Object)
    ensures Documents([o]) == DocumentOf(o)
  {
    assert [o][..0] == [];
    assert [] + DocumentOf(o) == DocumentOf(o);
  }

  /** A listed ConfigMap contributes the text of its `config.yaml`, in its place in the list; one
      without that entry, or with an empty one, makes no difference. */
  lemma DocumentInPlace(before: seq<Object>, o: Object, after: seq<Object>)
    ensures var text := Lookup(Data(o), "config.yaml");
            Documents(before + [o] + after)
              == if text.Some? && text.value != "" then Documents(before) + [text.value] + Documents(after)
                 else Documents(before + after)
  {
    DocumentsAppend(before, [o]);
    DocumentsAppend(before + [o], after);
    DocumentsAppend(before, after);
    DocumentsOfOne(o);
    var text := Lookup(Data(o), "config.yaml");
    if text.Some? && text.value != "" {
      assert DocumentOf(o) == [text.value];
    } else {
      assert DocumentOf(o) == [];
      assert Documents(before) + [] == Documents(before);
    }
  }

  /** The configuration text the cluster's contents call for; None when it cannot be built. */
  function DesiredConfig(job: Job, objects: Objects): Option<string> {
    match StoredConfigMaps(job, objects, job.spec.config.additionalConfigMaps)
    case None => None
    case Some(maps) =>
      match KC.Generate(job.lib.host, job.spec.config, Documents(maps))
      case Failed(_) => None
      case Generated(text) => Some(text)
  }

  function ReadStored(job: Job, objects: Objects, names: seq<string>, sofar: seq<Object>): ReadResult
    decreases |names|
  {
    if |names| == 0 then Read(sofar)
    else
      match Lookup(objects, Key(ConfigMap, Ns(job), names[0]))
      case Some(o) => ReadStored(job, objects, names[1..], sofar + [o])
      case None => Unread(OtherError("configMap " + names[0] + " not found in " + Ns(job) + " namespace"))
  }

  /** What the Deployer reports about the stored contents when no API call fails. */
  function DeployError(job: Job, objects: Objects): Option<Error> {
    match ReadStored(job, objects, job.spec.config.additionalConfigMaps, [])
    case Unread(e) => Some(OtherError("error creating config: " + Message(e)))
    case Read(maps) =>
      match KC.Generate(job.lib.host, job.spec.config, Documents(maps))
      case Failed(reason) => Some(OtherError("error creating configmap: " + reason))
      case Generated(_) => None
  }

  lemma {:induction false} ReadStoredAgrees(job: Job, a: Objects, b: Objects, names: seq<string>, sofar: seq<Object>)
    requires AgreeOnConfigMaps(job, a, b, names)
    ensures ReadStored(job, a, names, sofar) == ReadStored(job, b, names, sofar)
    decreases |names|
  {
    if |names| > 0 {
      var key := Key(ConfigMap, Ns(job), names[0]);
      assert Lookup(a, key) == Lookup(b, key);
      assert forall i :: 0 <= i < |names[1..]| ==> names[1..][i] == names[i + 1];
      if key in a {
        ReadStoredAgrees(job, a, b, names[1..], sofar + [a[key]]);
      }
    }
  }

  /** No API call fails. */
  ghost predicate Faultless(env: Env) {
    forall n: nat :: env.fault(n) == Healthy
  }

  lemma {:induction false} FaultlessRead(env: Env, job: Job, s: Server, names: seq<string>, sofar: seq<Object>)
    requires Faultless(env) && LeavesConfigMaps(env, job, names)
    ensures ReadConfigMaps(env, job, s, names, sofar).0 == ReadStored(job, s.store.objects, names, sofar)
    decreases |names|
  {
    if |names| > 0 {
      var key, rest := Key(ConfigMap, Ns(job), names[0]), names[1..];
      TickFrame(env, s, key);
      var (got, s') := GetCall(env, s, key);
      forall i | 0 <= i < |rest|
        ensures Leaves(env, Key(ConfigMap, Ns(job), rest[i]))
        ensures Peek(s', Key(ConfigMap, Ns(job), rest[i])) == Peek(s, Key(ConfigMap, Ns(job), rest[i]))
      {
        assert rest[i] == names[i + 1];
        TickFrame(env, s, Key(ConfigMap, Ns(job), rest[i]));
      }
      if got.Found? {
        FaultlessRead(env, job, s', rest, sofar + [got.item]);
        ReadStoredAgrees(job, s'.store.objects, s.store.objects, rest, sofar + [got.item]);
      }
    }
  }

  /** When no API call fails, the Deployer stops exactly with the error that the contents cause. */
  lemma DeployReports(env: Env, job: Job, w: World)
    requires Faultless(env) && LeavesConfigMaps(env, job, job.spec.config.additionalConfigMaps)
    ensures var err := DeployError(job, w.server.store.objects);
            Deploy(env, job, w).0 == if err.Some? then Result(Stop, err) else OK
  {
    FaultlessRead(env, job, w.server, job.spec.config.additionalConfigMaps, []);
  }

  /** The pod-template annotations the cluster's contents call for in mode none. */
  ghost function DesiredTemplate(job: Job, objects: Objects, text: string): map<string, string> {
    var hashes := SecretHashes(job, objects, SecretNames(job.spec.deployment.secrets));
    hashes[ConfigAnnotation(job.name) := job.lib.hash(text)]
  }

  /** A Deployer that continues has applied the desired configuration and annotated the
      template with its hash; one that does not is a missing ConfigMap or a bad configuration,
      an API failure or a conflict. */
  lemma DeployMeaning(env: Env, job: Job, w: World)
    requires LeavesConfigMaps(env, job, job.spec.config.additionalConfigMaps) && Leaves(env, ConfigKey(job))
    ensures var (r, w') := Deploy(env, job, w);
            var desired := DesiredConfig(job, w.server.store.objects);
            && (Fine(r) ==>
                  && desired.Some?
                  && Peek(w'.server, ConfigKey(job))
                    == Some(Applied(ConfigMap, Peek(w.server, ConfigKey(job)), ConfigFields(desired.value)))
                  && w'.template == w.template[ConfigAnnotation(job.name) := job.lib.hash(desired.value)])
            && (desired.None? ==>
                  && r.Result? && r.action == Stop && r.error.Some?
                  && Peek(w'.server, ConfigKey(job)) == Peek(w.server, ConfigKey(job)))
  {
    var names := job.spec.config.additionalConfigMaps;
    var (read, s1) := ReadConfigMaps(env, job, w.server, names, []);
    ReadMeaning(env, job, w.server, names, []);
    ReadFrame(env, job, w.server, names, [], ConfigKey(job));
    if read.Read? {
      var stored := StoredConfigMaps(job, w.server.store.objects, names);
      assert [] + stored.value == stored.value;
      var g := KC.Generate(job.lib.host, job.spec.config, Documents(read.objects));
      if g.Generated? && Fine(Deploy(env, job, w).0) {
        UpdateSettles(env, s1, ConfigKey(job), ConfigFields(g.text), Continue);
      }
    }
  }
}
