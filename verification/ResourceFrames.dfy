/** Only the finalizer step writes the resource's own record; between the operator's writes a
    property of the record lasts as long as the other writers keep it. */
module ResourceFrames {
  import opened Common
  import opened Api
  import opened ClusterModel
  import opened Steps
  import opened Runner
  import KC = KeplerConfig

  type Property = Option<Pmi> -> bool

  /** Other writers keep the property. */
  ghost predicate Keeps(env: Env, P: Property) {
    forall n: nat, st: Store :: P(st.pmi) ==> P(env.tick(n, st).pmi)
  }

  lemma TickKeeps(env: Env, P: Property, s: Server)
    requires Keeps(env, P) && P(s.store.pmi)
    ensures P(Ticked(env, s).store.pmi)
  {
  }

  lemma {:induction false} PollKeeps(env: Env, P: Property, s: Server, key: Key, attempts: nat)
    requires Keeps(env, P) && P(s.store.pmi)
    ensures P(PollAbsent(env, s, key, attempts).1.store.pmi)
    decreases attempts
  {
    if attempts > 0 {
      TickKeeps(env, P, s);
      PollKeeps(env, P, GetCall(env, s, key).1, key, attempts - 1);
    }
  }

  lemma {:induction false} AwaitKeeps(env: Env, P: Property, s: Server, key: Key, required: bool, attempts: nat,
                                      last: Error)
    requires Keeps(env, P) && P(s.store.pmi)
    ensures P(Await(env, s, key, required, attempts, last).1.store.pmi)
    decreases attempts
  {
    if attempts > 0 {
      TickKeeps(env, P, s);
      var (r, s') := GetCall(env, s, key);
      var e := if r.GetFailed? then r.error else OtherError("missing " + key.name);
      AwaitKeeps(env, P, s', key, required, attempts - 1, e);
    }
  }

  lemma {:induction false} MountKeeps(env: Env, P: Property, job: Job, s: Server, names: seq<string>,
                                      template: map<string, string>, missing: seq<string>)
    requires Keeps(env, P) && P(s.store.pmi)
    ensures P(MountSecrets(env, job, s, names, template, missing).1.store.pmi)
    decreases |names|
  {
    if |names| > 0 {
      TickKeeps(env, P, s);
      var (r, s') := GetCall(env, s, Key(Secret, Ns(job), names[0]));
      match r
      case Found(o) =>
        MountKeeps(env, P, job, s', names[1..], template[SecretAnnotation(names[0]) := ContentHash(job.lib, o)],
                   missing);
      case Missing => MountKeeps(env, P, job, s', names[1..], template, missing + [names[0]]);
      case GetFailed(_) =>
    }
  }

  lemma {:induction false} ReadKeeps(env: Env, P: Property, job: Job, s: Server, names: seq<string>, sofar: seq<Object>)
    requires Keeps(env, P) && P(s.store.pmi)
    ensures P(ReadConfigMaps(env, job, s, names, sofar).1.store.pmi)
    decreases |names|
  {
    if |names| > 0 {
      TickKeeps(env, P, s);
      var (r, s') := GetCall(env, s, Key(ConfigMap, Ns(job), names[0]));
      if r.Found? {
        ReadKeeps(env, P, job, s', names[1..], sofar + [r.item]);
      }
    }
  }

  lemma {:induction false} CheckKeeps(env: Env, P: Property, job: Job, probes: seq<Probe>, w: World)
    requires Keeps(env, P) && P(w.server.store.pmi)
    ensures P(CheckAll(env, job, probes, w).1.server.store.pmi)
    decreases |probes|
  {
    if |probes| > 0 {
      var (r, s') := Await(env, w.server, probes[0].key, true, AwaitPolls(job), TIMEOUT);
      AwaitKeeps(env, P, w.server, probes[0].key, true, AwaitPolls(job), TIMEOUT);
      if r.Found? {
        CheckKeeps(env, P, job, probes[1..], Annotate(job.lib, w.(server := s'), probes[0], r.item));
      }
    }
  }

  lemma UpdateKeeps(env: Env, P: Property, s: Server, key: Key, f: Fields, onError: Action)
    requires Keeps(env, P) && P(s.store.pmi)
    ensures P(Update(env, s, key, f, onError).1.store.pmi)
  {
    TickKeeps(env, P, s);
  }

  lemma RemoveKeeps(env: Env, P: Property, s: Server, key: Key, onError: Action, wait: nat)
    requires Keeps(env, P) && P(s.store.pmi)
    ensures P(Remove(env, s, key, onError, wait).1.store.pmi)
  {
    TickKeeps(env, P, s);
    PollKeeps(env, P, DeleteCall(env, s, key).1, key, DeleterPolls(wait));
  }

  lemma TokenKeeps(env: Env, P: Property, job: Job, s: Server)
    requires Keeps(env, P) && P(s.store.pmi)
    ensures P(TokenStep(env, job, s).1.store.pmi)
  {
    var key := TokenSecretKey(job);
    if !EnableRBAC(job.spec) || !EnableUWM(job.spec) {
      RemoveKeeps(env, P, s, key, Continue, 0);
    } else {
      AwaitKeeps(env, P, s, UwmAccountKey(), true, AwaitPolls(job), TIMEOUT);
      var s1 := Await(env, s, UwmAccountKey(), true, AwaitPolls(job), TIMEOUT).1;
      AwaitKeeps(env, P, s1, key, false, AwaitPolls(job), TIMEOUT);
      var s2 := Await(env, s1, key, false, AwaitPolls(job), TIMEOUT).1;
      TickKeeps(env, P, s2);
      var s3 := Ticked(env, s2);
      var stamp := job.lib.formatTime(FloorSecond(env.now(s3.calls) + job.ttl));
      UpdateKeeps(env, P, s3, key, TokenFields(env.token(s2.calls), stamp), Continue);
    }
  }

  lemma DeployKeeps(env: Env, P: Property, job: Job, w: World)
    requires Keeps(env, P) && P(w.server.store.pmi)
    ensures P(Deploy(env, job, w).1.server.store.pmi)
  {
    var (read, s1) := ReadConfigMaps(env, job, w.server, job.spec.config.additionalConfigMaps, []);
    ReadKeeps(env, P, job, w.server, job.spec.config.additionalConfigMaps, []);
    if read.Read? {
      var g := KC.Generate(job.lib.host, job.spec.config, Documents(read.objects));
      if g.Generated? {
        UpdateKeeps(env, P, s1, ConfigKey(job), ConfigFields(g.text), Continue);
      }
    }
  }

  lemma StepKeeps(env: Env, P: Property, job: Job, r: Reconciler, w: World)
    requires Keeps(env, P) && P(w.server.store.pmi) && r != Finalizer
    ensures P(Step(env, job, r, w).1.server.store.pmi)
  {
    var s := w.server;
    match r
    case Updater(key, f, e) => UpdateKeeps(env, P, s, key, f, e);
    case DaemonSetUpdater => UpdateKeeps(env, P, s, DaemonSetKey(job), DaemonSetFields(job, w.template), Continue);
    case Deleter(key, e, wait) => RemoveKeeps(env, P, s, key, e, wait);
    case SecretMounter => MountKeeps(env, P, job, s, SecretNames(job.spec.deployment.secrets), w.template, []);
    case Deployer => DeployKeeps(env, P, job, w);
    case ProxyConfig =>
      UpdateKeeps(env, P, s, ProxyConfigKey(job), ProxyConfigFields(job), Continue);
      RemoveKeeps(env, P, s, ProxyConfigKey(job), Continue, 0);
    case CABundle =>
      UpdateKeeps(env, P, s, CABundleKey(job), CA_BUNDLE_FIELDS, Continue);
      RemoveKeeps(env, P, s, CABundleKey(job), Continue, 0);
    case UWMToken => TokenKeeps(env, P, job, s);
    case ObjectsChecker => CheckKeeps(env, P, job, Probes(job), w);
    case MonitorStep =>
      UpdateKeeps(env, P, s, MonitorKey(job), MonitorFields(job, w.monitor), Continue);
      RemoveKeeps(env, P, s, MonitorKey(job), Continue, 0);
  }

  /** A property that other writers keep lasts through every list without the finalizer. */
  lemma {:induction false} ExecKeeps(env: Env, P: Property, job: Job, rs: seq<Reconciler>, w: World)
    requires Keeps(env, P) && P(w.server.store.pmi) && Finalizer !in rs
    ensures P(Exec(env, job, rs, w).server.store.pmi)
    decreases |rs|
  {
    if |rs| > 0 {
      assert rs[0] in rs;
      StepKeeps(env, P, job, rs[0], w);
      ExecKeeps(env, P, job, rs[1..], Step(env, job, rs[0], w).1);
    }
  }
}
