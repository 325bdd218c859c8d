/** What a step leaves alone and what it settles. */
module Frames {
  import opened Common
  import opened Api
  import opened ClusterModel
  import opened Steps
  import opened Runner
  import KC = KeplerConfig

  /** The one object a reconciler may write. */
  function Target(job: Job, r: Reconciler): Option<Key> {
    match r
    case Updater(key, _, _) => Some(key)
    case DaemonSetUpdater => Some(DaemonSetKey(job))
    case Deleter(key, _, _) => Some(key)
    case SecretMounter => None
    case Deployer => Some(ConfigKey(job))
    case ProxyConfig => Some(ProxyConfigKey(job))
    case CABundle => Some(CABundleKey(job))
    case UWMToken => Some(TokenSecretKey(job))
    case ObjectsChecker => None
    case MonitorStep => Some(MonitorKey(job))
    case Finalizer => None
  }

  /** No other writer touches the object while the operator runs. */
  ghost predicate Leaves(env: Env, key: Key) {
    forall n: nat, st: Store :: Lookup(env.tick(n, st).objects, key) == Lookup(st.objects, key)
  }

  /** No other writer touches any object; the resource's own record may still change. */
  ghost predicate Quiet(env: Env) {
    forall n: nat, st: Store :: env.tick(n, st).objects == st.objects
  }

  lemma QuietLeaves(env: Env, key: Key)
    requires Quiet(env)
    ensures Leaves(env, key)
  {
    forall n: nat, st: Store ensures Lookup(env.tick(n, st).objects, key) == Lookup(st.objects, key) {
      assert env.tick(n, st).objects == st.objects;
    }
  }

  // ---- frames ---------------------------------------------------------------

  lemma TickFrame(env: Env, s: Server, key: Key)
    requires Leaves(env, key)
    ensures Peek(Ticked(env, s), key) == Peek(s, key)
  {
  }

  lemma {:induction false} PollFrame(env: Env, s: Server, k: Key, attempts: nat, key: Key)
    requires Leaves(env, key)
    ensures Peek(PollAbsent(env, s, k, attempts).1, key) == Peek(s, key)
    decreases attempts
  {
    if attempts > 0 {
      TickFrame(env, s, key);
      PollFrame(env, GetCall(env, s, k).1, k, attempts - 1, key);
    }
  }

  lemma {:induction false} AwaitFrame(env: Env, s: Server, k: Key, required: bool, attempts: nat, last: Error, key: Key)
    requires Leaves(env, key)
    ensures Peek(Await(env, s, k, required, attempts, last).1, key) == Peek(s, key)
    decreases attempts
  {
    if attempts > 0 {
      TickFrame(env, s, key);
      var (r, s') := GetCall(env, s, k);
      var e := if r.GetFailed? then r.error else OtherError("missing " + k.name);
      AwaitFrame(env, s', k, required, attempts - 1, e, key);
    }
  }

  lemma {:induction false} MountFrame(env: Env, job: Job, s: Server, names: seq<string>, template: map<string, string>,
                                      missing: seq<string>, key: Key)
    requires Leaves(env, key)
    ensures Peek(MountSecrets(env, job, s, names, template, missing).1, key) == Peek(s, key)
    decreases |names|
  {
    if |names| > 0 {
      TickFrame(env, s, key);
      var (r, s') := GetCall(env, s, Key(Secret, Ns(job), names[0]));
      match r
      case Found(o) =>
        MountFrame(env, job, s', names[1..], template[SecretAnnotation(names[0]) := ContentHash(job.lib, o)], missing,
                   key);
      case Missing => MountFrame(env, job, s', names[1..], template, missing + [names[0]], key);
      case GetFailed(_) =>
    }
  }

  lemma {:induction false} ReadFrame(env: Env, job: Job, s: Server, names: seq<string>, sofar: seq<Object>, key: Key)
    requires Leaves(env, key)
    ensures Peek(ReadConfigMaps(env, job, s, names, sofar).1, key) == Peek(s, key)
    decreases |names|
  {
    if |names| > 0 {
      TickFrame(env, s, key);
      var (r, s') := GetCall(env, s, Key(ConfigMap, Ns(job), names[0]));
      if r.Found? {
        ReadFrame(env, job, s', names[1..], sofar + [r.item], key);
      }
    }
  }

  lemma {:induction false} CheckFrame(env: Env, job: Job, probes: seq<Probe>, w: World, key: Key)
    requires Leaves(env, key)
    ensures Peek(CheckAll(env, job, probes, w).1.server, key) == Peek(w.server, key)
    decreases |probes|
  {
    if |probes| > 0 {
      var (r, s') := Await(env, w.server, probes[0].key, true, AwaitPolls(job), TIMEOUT);
      AwaitFrame(env, w.server, probes[0].key, true, AwaitPolls(job), TIMEOUT, key);
      if r.Found? {
        CheckFrame(env, job, probes[1..], Annotate(job.lib, w.(server := s'), probes[0], r.item), key);
      }
    }
  }

  lemma UpdateFrame(env: Env, s: Server, k: Key, f: Fields, onError: Action, key: Key)
    requires Leaves(env, key) && k != key
    ensures Peek(Update(env, s, k, f, onError).1, key) == Peek(s, key)
  {
    TickFrame(env, s, key);
  }

  lemma RemoveFrame(env: Env, s: Server, k: Key, onError: Action, wait: nat, key: Key)
    requires Leaves(env, key) && k != key
    ensures Peek(Remove(env, s, k, onError, wait).1, key) == Peek(s, key)
  {
    TickFrame(env, s, key);
    var (err, s1) := DeleteCall(env, s, k);
    assert Peek(s1, key) == Peek(s, key);
    PollFrame(env, s1, k, DeleterPolls(wait), key);
  }

  lemma IssueFrame(env: Env, job: Job, s: Server, key: Key)
    requires Leaves(env, key) && TokenSecretKey(job) != key
    ensures Peek(Issue(env, job, s).1, key) == Peek(s, key)
  {
    TickFrame(env, s, key);
    var s1 := Ticked(env, s);
    var stamp := job.lib.formatTime(FloorSecond(env.now(s1.calls) + job.ttl));
    UpdateFrame(env, s1, TokenSecretKey(job), TokenFields(env.token(s.calls), stamp), Continue, key);
  }

  lemma TokenFrame(env: Env, job: Job, s: Server, key: Key)
    requires Leaves(env, key) && TokenSecretKey(job) != key
    ensures Peek(TokenStep(env, job, s).1, key) == Peek(s, key)
  {
    if !EnableRBAC(job.spec) || !EnableUWM(job.spec) {
      RemoveFrame(env, s, TokenSecretKey(job), Continue, 0, key);
    } else {
      var s1 := Await(env, s, UwmAccountKey(), true, AwaitPolls(job), TIMEOUT).1;
      AwaitFrame(env, s, UwmAccountKey(), true, AwaitPolls(job), TIMEOUT, key);
      var s2 := Await(env, s1, TokenSecretKey(job), false, AwaitPolls(job), TIMEOUT).1;
      AwaitFrame(env, s1, TokenSecretKey(job), false, AwaitPolls(job), TIMEOUT, key);
      IssueFrame(env, job, s2, key);
    }
  }

  /** A step changes no object but its target. */
  lemma StepFrame(env: Env, job: Job, r: Reconciler, w: World, key: Key)
    requires Leaves(env, key) && Target(job, r) != Some(key)
    ensures Peek(Step(env, job, r, w).1.server, key) == Peek(w.server, key)
  {
    var s := w.server;
    match r
    case Updater(k, f, a) => UpdateFrame(env, s, k, f, a, key);
    case DaemonSetUpdater => UpdateFrame(env, s, DaemonSetKey(job), DaemonSetFields(job, w.template), Continue, key);
    case Deleter(k, a, wait) => RemoveFrame(env, s, k, a, wait, key);
    case SecretMounter => MountFrame(env, job, s, SecretNames(job.spec.deployment.secrets), w.template, [], key);
    case Deployer =>
      var (read, s1) := ReadConfigMaps(env, job, s, job.spec.config.additionalConfigMaps, []);
      ReadFrame(env, job, s, job.spec.config.additionalConfigMaps, [], key);
      if read.Read? {
        var g := KC.Generate(job.lib.host, job.spec.config, Documents(read.objects));
        if g.Generated? {
          UpdateFrame(env, s1, ConfigKey(job), ConfigFields(g.text), Continue, key);
        }
      }
    case ProxyConfig =>
      UpdateFrame(env, s, ProxyConfigKey(job), ProxyConfigFields(job), Continue, key);
      RemoveFrame(env, s, ProxyConfigKey(job), Continue, 0, key);
    case CABundle =>
      UpdateFrame(env, s, CABundleKey(job), CA_BUNDLE_FIELDS, Continue, key);
      RemoveFrame(env, s, CABundleKey(job), Continue, 0, key);
    case UWMToken => TokenFrame(env, job, s, key);
    case ObjectsChecker => CheckFrame(env, job, Probes(job), w, key);
    case MonitorStep =>
      UpdateFrame(env, s, MonitorKey(job), MonitorFields(job, w.monitor), Continue, key);
      RemoveFrame(env, s, MonitorKey(job), Continue, 0, key);
    case Finalizer =>
      TickFrame(env, s, key);
      TickFrame(env, GetPmiCall(env, s).1, key);
  }

  ghost predicate NoneTargets(job: Job, rs: seq<Reconciler>, key: Key) {
    forall r :: r in rs ==> Target(job, r) != Some(key)
  }

  lemma {:induction false} ExecFrame(env: Env, job: Job, rs: seq<Reconciler>, w: World, key: Key)
    requires Leaves(env, key) && NoneTargets(job, rs, key)
    ensures Peek(Exec(env, job, rs, w).server, key) == Peek(w.server, key)
    decreases |rs|
  {
    if |rs| > 0 {
      assert rs[0] in rs;
      StepFrame(env, job, rs[0], w, key);
      ExecFrame(env, job, rs[1..], Step(env, job, rs[0], w).1, key);
    }
  }

  /** Running a list is running up to a step, the step, and the rest; what the rest does not
      target stays as the step left it. */
  lemma SettledBy(env: Env, job: Job, pre: seq<Reconciler>, r: Reconciler, post: seq<Reconciler>, w: World, key: Key)
    requires Leaves(env, key) && NoneTargets(job, post, key)
    requires AllFine(env, job, pre + [r] + post, w)
    ensures var before := Exec(env, job, pre, w);
            && AllFine(env, job, pre, w)
            && Fine(Step(env, job, r, before).0)
            && Peek(Exec(env, job, pre + [r] + post, w).server, key) == Peek(Step(env, job, r, before).1.server, key)
  {
    var before := Exec(env, job, pre, w);
    assert pre + [r] + post == pre + ([r] + post);
    AllFineSplits(env, job, pre, [r] + post, w);
    ExecSplits(env, job, pre, [r] + post, w);
    assert ([r] + post)[1..] == post;
    ExecFrame(env, job, post, Step(env, job, r, before).1, key);
  }

  // ---- what a fine step settles ---------------------------------------------

  lemma UpdateSettles(env: Env, s: Server, key: Key, f: Fields, onError: Action)
    requires Leaves(env, key) && Fine(Update(env, s, key, f, onError).0)
    ensures Peek(Update(env, s, key, f, onError).1, key) == Some(Applied(key.kind, Peek(s, key), f))
  {
    TickFrame(env, s, key);
  }

  lemma {:induction false} PolledAbsent(env: Env, s: Server, key: Key, attempts: nat)
    requires PollAbsent(env, s, key, attempts).0
    ensures Peek(PollAbsent(env, s, key, attempts).1, key) == None
    decreases attempts
  {
    var (r, s') := GetCall(env, s, key);
    if r != Missing {
      PolledAbsent(env, s', key, attempts - 1);
    }
  }

  lemma RemoveSettles(env: Env, s: Server, key: Key, onError: Action, wait: nat)
    requires Fine(Remove(env, s, key, onError, wait).0)
    ensures Peek(Remove(env, s, key, onError, wait).1, key) == None
  {
    var (err, s1) := DeleteCall(env, s, key);
    PolledAbsent(env, s1, key, DeleterPolls(wait));
  }

  lemma {:induction false} AwaitSees(env: Env, s: Server, key: Key, required: bool, attempts: nat, last: Error)
    ensures var (r, s') := Await(env, s, key, required, attempts, last);
            && (r.Found? ==> Peek(s', key) == Some(r.item))
            && (r.Missing? ==> Peek(s', key) == None && !required)
    decreases attempts
  {
    if attempts > 0 {
      var (r, s') := GetCall(env, s, key);
      var e := if r.GetFailed? then r.error else OtherError("missing " + key.name);
      AwaitSees(env, s', key, required, attempts - 1, e);
    }
  }

  /** A fine token step leaves the stored token absent, as it was (when still good), or newly
      issued. */
  lemma TokenSettles(env: Env, job: Job, s: Server)
    requires Leaves(env, TokenSecretKey(job)) && Fine(TokenStep(env, job, s).0)
    ensures var after := Peek(TokenStep(env, job, s).1, TokenSecretKey(job));
            if !EnableRBAC(job.spec) || !EnableUWM(job.spec) then after == None
            else
              || (after.Some? && after == Peek(s, TokenSecretKey(job)) && ExpirationOf(job.lib, after.value).At?)
              || (exists token: string, t: int :: after == Some(Applied(Secret, Peek(s, TokenSecretKey(job)),
                                                         TokenFields(token, job.lib.formatTime(FloorSecond(t))))))
  {
    var key := TokenSecretKey(job);
    if !EnableRBAC(job.spec) || !EnableUWM(job.spec) {
      RemoveSettles(env, s, key, Continue, 0);
    } else {
      var (account, s1) := Await(env, s, UwmAccountKey(), true, AwaitPolls(job), TIMEOUT);
      AwaitFrame(env, s, UwmAccountKey(), true, AwaitPolls(job), TIMEOUT, key);
      var (stored, s2) := Await(env, s1, key, false, AwaitPolls(job), TIMEOUT);
      AwaitFrame(env, s1, key, false, AwaitPolls(job), TIMEOUT, key);
      AwaitSees(env, s1, key, false, AwaitPolls(job), TIMEOUT);
      var after := Peek(TokenStep(env, job, s).1, key);
      if TokenStep(env, job, s) == Issue(env, job, s2) {
        TickFrame(env, s2, key);
        var s3 := Ticked(env, s2);
        var t := env.now(s3.calls) + job.ttl;
        UpdateSettles(env, s3, key, TokenFields(env.token(s2.calls), job.lib.formatTime(FloorSecond(t))), Continue);
        var fields := TokenFields(env.token(s2.calls), job.lib.formatTime(FloorSecond(t)));
        assert after == Some(Applied(Secret, Peek(s, key), fields));
      }
    }
  }

  // ---- the in-memory objects ------------------------------------------------

  predicate TouchesTemplate(r: Reconciler) {
    r == SecretMounter || r == Deployer || r == ObjectsChecker
  }

  lemma {:induction false} TemplateFrame(env: Env, job: Job, rs: seq<Reconciler>, w: World)
    requires forall r :: r in rs ==> !TouchesTemplate(r)
    ensures Exec(env, job, rs, w).template == w.template
    decreases |rs|
  {
    if |rs| > 0 {
      assert rs[0] in rs;
      TemplateFrame(env, job, rs[1..], Step(env, job, rs[0], w).1);
    }
  }
}
