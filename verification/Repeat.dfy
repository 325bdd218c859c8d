/** Running the steps again: in a calm world a step that has done its work finds nothing to do. */
module Repeat {
  import opened Common
  import opened Api
  import opened ClusterModel
  import opened Steps
  import opened Runner
  import opened Frames
  import opened Rollout
  import opened MissingSecrets
  import KC = KeplerConfig

  /** No other writer acts and no call fails. */
  ghost predicate Calm(env: Env) {
    && (forall n: nat, st: Store :: env.tick(n, st) == st)
    && (forall n: nat :: env.fault(n) == Healthy)
  }

  lemma CalmLeaves(env: Env, key: Key)
    requires Calm(env)
    ensures Leaves(env, key)
  {
  }

  // ---- single operations ----------------------------------------------------

  lemma CalmGet(env: Env, s: Server, key: Key)
    requires Calm(env)
    ensures GetCall(env, s, key)
         == (if Peek(s, key).Some? then Found(Peek(s, key).value) else Missing, s.(calls := s.calls + 1))
  {
  }

  lemma CalmUpdate(env: Env, s: Server, key: Key, f: Fields, onError: Action, prior: Option<Object>)
    requires Calm(env) && Peek(s, key) == Some(Applied(key.kind, prior, f))
    ensures Update(env, s, key, f, onError).0 == OK
    ensures Update(env, s, key, f, onError).1.store == s.store
  {
    ApplyIsIdempotent(key.kind, prior, f);
    assert s.store.objects[key := Applied(key.kind, Peek(s, key), f)] == s.store.objects;
  }

  lemma CalmRemove(env: Env, s: Server, key: Key, onError: Action, wait: nat)
    requires Calm(env) && Peek(s, key) == None
    ensures Remove(env, s, key, onError, wait).0 == OK
    ensures Remove(env, s, key, onError, wait).1.store == s.store
  {
    var s1 := DeleteCall(env, s, key).1;
    CalmGet(env, s1, key);
  }

  lemma CalmAwait(env: Env, s: Server, key: Key, required: bool, attempts: nat, last: Error)
    requires Calm(env) && attempts > 0 && (required ==> Peek(s, key).Some?)
    ensures Await(env, s, key, required, attempts, last)
         == (if Peek(s, key).Some? then Found(Peek(s, key).value) else Missing, s.(calls := s.calls + 1))
  {
    CalmGet(env, s, key);
  }

  // ---- step by step ---------------------------------------------------------

  lemma UpdateRepeats(env1: Env, env2: Env, s1: Server, s2: Server, key: Key, f: Fields, onError: Action)
    requires Leaves(env1, key) && Fine(Update(env1, s1, key, f, onError).0)
    requires Calm(env2) && Peek(s2, key) == Peek(Update(env1, s1, key, f, onError).1, key)
    ensures Update(env2, s2, key, f, onError).0 == OK
    ensures Update(env2, s2, key, f, onError).1.store == s2.store
  {
    UpdateSettles(env1, s1, key, f, onError);
    CalmUpdate(env2, s2, key, f, onError, Peek(s1, key));
  }

  lemma RemoveRepeats(env1: Env, env2: Env, s1: Server, s2: Server, key: Key, onError: Action, wait: nat)
    requires Fine(Remove(env1, s1, key, onError, wait).0)
    requires Calm(env2) && Peek(s2, key) == Peek(Remove(env1, s1, key, onError, wait).1, key)
    ensures Remove(env2, s2, key, onError, wait).0 == OK
    ensures Remove(env2, s2, key, onError, wait).1.store == s2.store
  {
    RemoveSettles(env1, s1, key, onError, wait);
    CalmRemove(env2, s2, key, onError, wait);
  }

  ghost predicate SameSecrets(job: Job, a: Server, b: Server, names: seq<string>) {
    forall i :: 0 <= i < |names| ==> Peek(a, Key(Secret, Ns(job), names[i])) == Peek(b, Key(Secret, Ns(job), names[i]))
  }

  ghost predicate SameConfigMaps(job: Job, a: Server, b: Server, names: seq<string>) {
    forall i :: 0 <= i < |names| ==>
      Peek(a, Key(ConfigMap, Ns(job), names[i])) == Peek(b, Key(ConfigMap, Ns(job), names[i]))
  }

  lemma {:induction false} MountRepeats(env1: Env, env2: Env, job: Job, s1: Server, s2: Server, names: seq<string>,
                                        template: map<string, string>, missing: seq<string>)
    requires LeavesSecrets(env1, job, names) && Fine(MountSecrets(env1, job, s1, names, template, missing).0)
    requires Calm(env2) && SameSecrets(job, s1, s2, names)
    ensures var (r1, _, t1) := MountSecrets(env1, job, s1, names, template, missing);
            var (r2, s2', t2) := MountSecrets(env2, job, s2, names, template, missing);
            r1 == r2 && t1 == t2 && s2'.store == s2.store
    decreases |names|
  {
    if |names| > 0 {
      var key, rest := Key(Secret, Ns(job), names[0]), names[1..];
      TickFrame(env1, s1, key);
      CalmGet(env2, s2, key);
      var (got, s1') := GetCall(env1, s1, key);
      var s2' := GetCall(env2, s2, key).1;
      forall i | 0 <= i < |rest|
        ensures Leaves(env1, Key(Secret, Ns(job), rest[i]))
        ensures Peek(s1', Key(Secret, Ns(job), rest[i])) == Peek(s2', Key(Secret, Ns(job), rest[i]))
      {
        assert rest[i] == names[i + 1];
        TickFrame(env1, s1, Key(Secret, Ns(job), rest[i]));
      }
      if got.Found? {
        MountRepeats(env1, env2, job, s1', s2', rest,
                     template[SecretAnnotation(names[0]) := ContentHash(job.lib, got.item)], missing);
      } else {
        MountRepeats(env1, env2, job, s1', s2', rest, template, missing + [names[0]]);
      }
    }
  }

  lemma {:induction false} ReadRepeats(env1: Env, env2: Env, job: Job, s1: Server, s2: Server, names: seq<string>,
                                       sofar: seq<Object>)
    requires LeavesConfigMaps(env1, job, names) && ReadConfigMaps(env1, job, s1, names, sofar).0.Read?
    requires Calm(env2) && SameConfigMaps(job, s1, s2, names)
    ensures ReadConfigMaps(env2, job, s2, names, sofar).0 == ReadConfigMaps(env1, job, s1, names, sofar).0
    ensures ReadConfigMaps(env2, job, s2, names, sofar).1.store == s2.store
    decreases |names|
  {
    if |names| > 0 {
      var key, rest := Key(ConfigMap, Ns(job), names[0]), names[1..];
      TickFrame(env1, s1, key);
      CalmGet(env2, s2, key);
      var (got, s1') := GetCall(env1, s1, key);
      var s2' := GetCall(env2, s2, key).1;
      forall i | 0 <= i < |rest|
        ensures Leaves(env1, Key(ConfigMap, Ns(job), rest[i]))
        ensures Peek(s1', Key(ConfigMap, Ns(job), rest[i])) == Peek(s2', Key(ConfigMap, Ns(job), rest[i]))
      {
        assert rest[i] == names[i + 1];
        TickFrame(env1, s1, Key(ConfigMap, Ns(job), rest[i]));
      }
      ReadRepeats(env1, env2, job, s1', s2', rest, sofar + [got.item]);
    }
  }

  lemma DeployRepeats(env1: Env, env2: Env, job: Job, w1: World, w2: World)
    requires LeavesConfigMaps(env1, job, job.spec.config.additionalConfigMaps) && Leaves(env1, ConfigKey(job))
    requires Fine(Deploy(env1, job, w1).0)
    requires Calm(env2) && SameConfigMaps(job, w1.server, w2.server, job.spec.config.additionalConfigMaps)
    requires w1.template == w2.template && w1.monitor == w2.monitor
    requires Peek(w2.server, ConfigKey(job)) == Peek(Deploy(env1, job, w1).1.server, ConfigKey(job))
    ensures Deploy(env2, job, w2).0 == OK && Deploy(env2, job, w2).1.server.store == w2.server.store
    ensures Deploy(env2, job, w2).1.template == Deploy(env1, job, w1).1.template
    ensures Deploy(env2, job, w2).1.monitor == Deploy(env1, job, w1).1.monitor
  {
    var names := job.spec.config.additionalConfigMaps;
    var (read, s1) := ReadConfigMaps(env1, job, w1.server, names, []);
    ReadRepeats(env1, env2, job, w1.server, w2.server, names, []);
    var s2 := ReadConfigMaps(env2, job, w2.server, names, []).1;
    var text := KC.Generate(job.lib.host, job.spec.config, Documents(read.objects)).text;
    UpdateRepeats(env1, env2, s1, s2, ConfigKey(job), ConfigFields(text), Continue);
  }

  lemma {:induction false} CheckRepeats(env1: Env, env2: Env, job: Job, probes: seq<Probe>, w1: World, w2: World)
    requires Fine(CheckAll(env1, job, probes, w1).0)
    requires forall i :: 0 <= i < |probes| ==>
               Leaves(env1, probes[i].key) && Peek(w1.server, probes[i].key) == Peek(w2.server, probes[i].key)
    requires Calm(env2) && w1.template == w2.template && w1.monitor == w2.monitor
    ensures CheckAll(env2, job, probes, w2).0 == OK && CheckAll(env2, job, probes, w2).1.server.store == w2.server.store
    ensures CheckAll(env2, job, probes, w2).1.template == CheckAll(env1, job, probes, w1).1.template
    ensures CheckAll(env2, job, probes, w2).1.monitor == CheckAll(env1, job, probes, w1).1.monitor
    decreases |probes|
  {
    if |probes| > 0 {
      var p, rest := probes[0], probes[1..];
      var (r, s1') := Await(env1, w1.server, p.key, true, AwaitPolls(job), TIMEOUT);
      AwaitFrame(env1, w1.server, p.key, true, AwaitPolls(job), TIMEOUT, p.key);
      AwaitSees(env1, w1.server, p.key, true, AwaitPolls(job), TIMEOUT);
      CalmAwait(env2, w2.server, p.key, true, AwaitPolls(job), TIMEOUT);
      var s2' := Await(env2, w2.server, p.key, true, AwaitPolls(job), TIMEOUT).1;
      forall i | 0 <= i < |rest|
        ensures Leaves(env1, rest[i].key) && Peek(s1', rest[i].key) == Peek(s2', rest[i].key)
      {
        assert rest[i] == probes[i + 1];
        AwaitFrame(env1, w1.server, p.key, true, AwaitPolls(job), TIMEOUT, rest[i].key);
      }
      CheckRepeats(env1, env2, job, rest, Annotate(job.lib, w1.(server := s1'), p, r.item),
                   Annotate(job.lib, w2.(server := s2'), p, r.item));
    }
  }

  /** When the mode wants a token, its account exists and it is good at every moment of the run. */
  ghost predicate TokenLasts(env: Env, job: Job, s: Server) {
    EnableRBAC(job.spec) && EnableUWM(job.spec) ==>
      var token := Peek(s, TokenSecretKey(job));
      && Peek(s, UwmAccountKey()).Some? && token.Some? && ExpirationOf(job.lib, token.value).At?
      && forall n: nat :: env.now(n) <= ExpirationOf(job.lib, token.value).time - TOKEN_BUFFER
  }

  lemma TokenRepeats(env1: Env, env2: Env, job: Job, s1: Server, s2: Server)
    requires Leaves(env1, TokenSecretKey(job)) && Fine(TokenStep(env1, job, s1).0)
    requires Calm(env2) && TokenLasts(env2, job, s2)
    requires Peek(s2, TokenSecretKey(job)) == Peek(TokenStep(env1, job, s1).1, TokenSecretKey(job))
    ensures TokenStep(env2, job, s2).0 == OK && TokenStep(env2, job, s2).1.store == s2.store
  {
    var key := TokenSecretKey(job);
    if !EnableRBAC(job.spec) || !EnableUWM(job.spec) {
      RemoveRepeats(env1, env2, s1, s2, key, Continue, 0);
    } else {
      CalmAwait(env2, s2, UwmAccountKey(), true, AwaitPolls(job), TIMEOUT);
      var s := Await(env2, s2, UwmAccountKey(), true, AwaitPolls(job), TIMEOUT).1;
      CalmAwait(env2, s, key, false, AwaitPolls(job), TIMEOUT);
    }
  }

  // ---- any step -------------------------------------------------------------

  /** The objects that the spec refers to and the step reads. */
  predicate Refers(job: Job, r: Reconciler, key: Key) {
    match r
    case SecretMounter =>
      key.kind == Secret && key.ns == Ns(job) && key.name in SecretNames(job.spec.deployment.secrets)
    case Deployer =>
      key.kind == ConfigMap && key.ns == Ns(job) && key.name in job.spec.config.additionalConfigMaps
    case _ => false
  }

  /** The objects that the checker hashes. */
  ghost predicate Checks(job: Job, r: Reconciler, key: Key) {
    r == ObjectsChecker && exists i :: 0 <= i < |Probes(job)| && Probes(job)[i].key == key
  }

  /** What a step uses but does not write: contents that decide its work. */
  ghost predicate Uses(job: Job, r: Reconciler, key: Key) {
    Refers(job, r, key) || Checks(job, r, key)
  }

  ghost predicate Ready(env1: Env, env2: Env, job: Job, r: Reconciler, w1: World, w2: World) {
    && Fine(Step(env1, job, r, w1).0)
    && w1.template == w2.template && w1.monitor == w2.monitor
    && (forall key :: Uses(job, r, key) ==> Peek(w1.server, key) == Peek(w2.server, key))
    && (Target(job, r).Some? ==>
          var key := Target(job, r).value;
          Peek(w2.server, key) == Peek(Step(env1, job, r, w1).1.server, key))
    && TokenLasts(env2, job, w2.server)
  }

  ghost predicate Repeated(env1: Env, env2: Env, job: Job, r: Reconciler, w1: World, w2: World) {
    var (r1, w1') := Step(env1, job, r, w1);
    var (r2, w2') := Step(env2, job, r, w2);
    r2 == r1 && w2'.server.store == w2.server.store && w2'.template == w1'.template && w2'.monitor == w1'.monitor
  }

  lemma PlainRepeats(env1: Env, env2: Env, job: Job, r: Reconciler, w1: World, w2: World)
    requires Quiet(env1) && Calm(env2) && Ready(env1, env2, job, r, w1, w2)
    requires r.Updater? || r.DaemonSetUpdater? || r.Deleter?
    ensures Repeated(env1, env2, job, r, w1, w2)
  {
    var s1, s2 := w1.server, w2.server;
    QuietLeaves(env1, Target(job, r).value);
    match r
    case Updater(key, f, e) => UpdateRepeats(env1, env2, s1, s2, key, f, e);
    case DaemonSetUpdater =>
      UpdateRepeats(env1, env2, s1, s2, DaemonSetKey(job), DaemonSetFields(job, w1.template), Continue);
    case Deleter(key, e, wait) => RemoveRepeats(env1, env2, s1, s2, key, e, wait);
  }

  lemma ModalRepeats(env1: Env, env2: Env, job: Job, r: Reconciler, w1: World, w2: World)
    requires Quiet(env1) && Calm(env2) && Ready(env1, env2, job, r, w1, w2)
    requires r.ProxyConfig? || r.CABundle? || r.MonitorStep?
    ensures Repeated(env1, env2, job, r, w1, w2)
  {
    var s1, s2 := w1.server, w2.server;
    QuietLeaves(env1, Target(job, r).value);
    match r
    case ProxyConfig =>
      if EnableRBAC(job.spec) {
        UpdateRepeats(env1, env2, s1, s2, ProxyConfigKey(job), ProxyConfigFields(job), Continue);
      } else {
        RemoveRepeats(env1, env2, s1, s2, ProxyConfigKey(job), Continue, 0);
      }
    case CABundle =>
      if EnableRBAC(job.spec) && EnableUWM(job.spec) {
        UpdateRepeats(env1, env2, s1, s2, CABundleKey(job), CA_BUNDLE_FIELDS, Continue);
      } else {
        RemoveRepeats(env1, env2, s1, s2, CABundleKey(job), Continue, 0);
      }
    case MonitorStep =>
      if EnableRBAC(job.spec) && !EnableUWM(job.spec) {
        RemoveRepeats(env1, env2, s1, s2, MonitorKey(job), Continue, 0);
      } else {
        UpdateRepeats(env1, env2, s1, s2, MonitorKey(job), MonitorFields(job, w1.monitor), Continue);
      }
  }

  lemma MounterRepeats(env1: Env, env2: Env, job: Job, w1: World, w2: World)
    requires Quiet(env1) && Calm(env2) && Ready(env1, env2, job, SecretMounter, w1, w2)
    ensures Repeated(env1, env2, job, SecretMounter, w1, w2)
  {
    var names := SecretNames(job.spec.deployment.secrets);
    forall i | 0 <= i < |names|
      ensures Leaves(env1, Key(Secret, Ns(job), names[i]))
      ensures Peek(w1.server, Key(Secret, Ns(job), names[i])) == Peek(w2.server, Key(Secret, Ns(job), names[i]))
    {
      QuietLeaves(env1, Key(Secret, Ns(job), names[i]));
      assert Uses(job, SecretMounter, Key(Secret, Ns(job), names[i]));
    }
    MountRepeats(env1, env2, job, w1.server, w2.server, names, w1.template, []);
  }

  lemma DeployerRepeats(env1: Env, env2: Env, job: Job, w1: World, w2: World)
    requires Quiet(env1) && Calm(env2) && Ready(env1, env2, job, Deployer, w1, w2)
    ensures Repeated(env1, env2, job, Deployer, w1, w2)
  {
    var names := job.spec.config.additionalConfigMaps;
    QuietLeaves(env1, ConfigKey(job));
    forall i | 0 <= i < |names|
      ensures Leaves(env1, Key(ConfigMap, Ns(job), names[i]))
      ensures Peek(w1.server, Key(ConfigMap, Ns(job), names[i])) == Peek(w2.server, Key(ConfigMap, Ns(job), names[i]))
    {
      QuietLeaves(env1, Key(ConfigMap, Ns(job), names[i]));
      assert Uses(job, Deployer, Key(ConfigMap, Ns(job), names[i]));
    }
    DeployRepeats(env1, env2, job, w1, w2);
    OnlyMounterReports(env1, job, Deployer, w1);
  }

  lemma CheckerRepeats(env1: Env, env2: Env, job: Job, w1: World, w2: World)
    requires Quiet(env1) && Calm(env2) && Ready(env1, env2, job, ObjectsChecker, w1, w2)
    ensures Repeated(env1, env2, job, ObjectsChecker, w1, w2)
  {
    if EnableRBAC(job.spec) {
      var probes := Probes(job);
      forall i | 0 <= i < |probes|
        ensures Leaves(env1, probes[i].key) && Peek(w1.server, probes[i].key) == Peek(w2.server, probes[i].key)
      {
        QuietLeaves(env1, probes[i].key);
        assert Uses(job, ObjectsChecker, probes[i].key);
      }
      CheckRepeats(env1, env2, job, probes, w1, w2);
      OnlyMounterReports(env1, job, ObjectsChecker, w1);
    }
  }

  lemma TokenStepRepeats(env1: Env, env2: Env, job: Job, w1: World, w2: World)
    requires Quiet(env1) && Calm(env2) && Ready(env1, env2, job, UWMToken, w1, w2)
    ensures Repeated(env1, env2, job, UWMToken, w1, w2)
  {
    QuietLeaves(env1, TokenSecretKey(job));
    ReadyForToken(env1, env2, job, w1, w2);
    TokenRepeats(env1, env2, job, w1.server, w2.server);
  }

  lemma ReadyForToken(env1: Env, env2: Env, job: Job, w1: World, w2: World)
    requires Ready(env1, env2, job, UWMToken, w1, w2)
    ensures Fine(TokenStep(env1, job, w1.server).0)
    ensures Step(env1, job, UWMToken, w1) == (OK, w1.(server := TokenStep(env1, job, w1.server).1))
    ensures Peek(w2.server, TokenSecretKey(job)) == Peek(TokenStep(env1, job, w1.server).1, TokenSecretKey(job))
  {
    OnlyMounterReports(env1, job, UWMToken, w1);
  }

  /** A step that has done its work, met again with its inputs and its own object as it left
      them, gives the same result, annotates the same, and leaves the store as it is. */
  lemma StepRepeats(env1: Env, env2: Env, job: Job, r: Reconciler, w1: World, w2: World)
    requires Quiet(env1) && Calm(env2) && Ready(env1, env2, job, r, w1, w2) && r != Finalizer
    ensures Repeated(env1, env2, job, r, w1, w2)
  {
    match r
    case SecretMounter => MounterRepeats(env1, env2, job, w1, w2);
    case Deployer => DeployerRepeats(env1, env2, job, w1, w2);
    case UWMToken => TokenStepRepeats(env1, env2, job, w1, w2);
    case ObjectsChecker => CheckerRepeats(env1, env2, job, w1, w2);
    case ProxyConfig => ModalRepeats(env1, env2, job, r, w1, w2);
    case CABundle => ModalRepeats(env1, env2, job, r, w1, w2);
    case MonitorStep => ModalRepeats(env1, env2, job, r, w1, w2);
    case _ => PlainRepeats(env1, env2, job, r, w1, w2);
  }
}
