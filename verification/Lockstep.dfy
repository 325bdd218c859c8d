/** Two runs side by side: as long as the clusters agree on what the steps read, the runs make
    the same calls, get the same results and write the same things. */
module Lockstep {
  import opened Common
  import opened Api
  import opened ClusterModel
  import opened Steps
  import opened Runner
  import opened Frames
  import KC = KeplerConfig

  ghost predicate Agree(shared: iset<Key>, a: Server, b: Server) {
    a.calls == b.calls && forall key :: key in shared ==> Peek(a, key) == Peek(b, key)
  }

  /** The clusters agree on the shared objects; the first run's template lacks exactly the
      hidden annotations of the second's. */
  ghost predicate InStep(shared: iset<Key>, hidden: set<string>, a: World, b: World) {
    Agree(shared, a.server, b.server) && a.monitor == b.monitor && a.template == b.template - hidden
  }

  // ---- single calls ---------------------------------------------------------

  lemma TickAgrees(env: Env, shared: iset<Key>, a: Server, b: Server)
    requires Quiet(env) && Agree(shared, a, b)
    ensures Agree(shared, Ticked(env, a), Ticked(env, b))
  {
    assert env.tick(a.calls, a.store).objects == a.store.objects;
    assert env.tick(b.calls, b.store).objects == b.store.objects;
    forall key | key in shared ensures Peek(Ticked(env, a), key) == Peek(Ticked(env, b), key) {
      assert Peek(a, key) == Peek(b, key);
    }
  }

  lemma GetAgrees(env: Env, shared: iset<Key>, a: Server, b: Server, key: Key)
    requires Quiet(env) && Agree(shared, a, b) && key in shared
    ensures GetCall(env, a, key).0 == GetCall(env, b, key).0
    ensures Agree(shared, GetCall(env, a, key).1, GetCall(env, b, key).1)
  {
    TickAgrees(env, shared, a, b);
    assert Peek(Ticked(env, a), key) == Peek(Ticked(env, b), key);
  }

  lemma PutAgrees(shared: iset<Key>, a: Server, b: Server, key: Key, x: Object, y: Object)
    requires Agree(shared, a, b) && (key in shared ==> x == y)
    ensures Agree(shared, Put(a, key, x), Put(b, key, y))
  {
    forall k | k in shared ensures Peek(Put(a, key, x), k) == Peek(Put(b, key, y), k) {
      assert Peek(a, k) == Peek(b, k);
    }
  }

  lemma UpdateAgrees(env: Env, shared: iset<Key>, a: Server, b: Server, key: Key, f: Fields, g: Fields, onError: Action)
    requires Quiet(env) && Agree(shared, a, b) && (key in shared ==> f == g)
    ensures Update(env, a, key, f, onError).0 == Update(env, b, key, g, onError).0
    ensures Agree(shared, Update(env, a, key, f, onError).1, Update(env, b, key, g, onError).1)
  {
    TickAgrees(env, shared, a, b);
    var a', b' := Ticked(env, a), Ticked(env, b);
    assert key in shared ==> Peek(a', key) == Peek(b', key);
    PutAgrees(shared, a', b', key, Applied(key.kind, Peek(a', key), f), Applied(key.kind, Peek(b', key), g));
  }

  lemma {:induction false} PollAgrees(env: Env, shared: iset<Key>, a: Server, b: Server, key: Key, attempts: nat)
    requires Quiet(env) && Agree(shared, a, b) && key in shared
    ensures PollAbsent(env, a, key, attempts).0 == PollAbsent(env, b, key, attempts).0
    ensures Agree(shared, PollAbsent(env, a, key, attempts).1, PollAbsent(env, b, key, attempts).1)
    decreases attempts
  {
    if attempts > 0 {
      GetAgrees(env, shared, a, b, key);
      PollAgrees(env, shared, GetCall(env, a, key).1, GetCall(env, b, key).1, key, attempts - 1);
    }
  }

  lemma DeleteAgrees(env: Env, shared: iset<Key>, a: Server, b: Server, key: Key)
    requires Quiet(env) && Agree(shared, a, b) && key in shared
    ensures DeleteCall(env, a, key).0 == DeleteCall(env, b, key).0
    ensures Agree(shared, DeleteCall(env, a, key).1, DeleteCall(env, b, key).1)
  {
    TickAgrees(env, shared, a, b);
    var a', b' := Ticked(env, a), Ticked(env, b);
    assert Peek(a', key) == Peek(b', key);
    forall k | k in shared ensures Peek(DeleteCall(env, a, key).1, k) == Peek(DeleteCall(env, b, key).1, k) {
      assert Peek(a', k) == Peek(b', k);
    }
  }

  lemma RemoveAgrees(env: Env, shared: iset<Key>, a: Server, b: Server, key: Key, onError: Action, wait: nat)
    requires Quiet(env) && Agree(shared, a, b) && key in shared
    ensures Remove(env, a, key, onError, wait).0 == Remove(env, b, key, onError, wait).0
    ensures Agree(shared, Remove(env, a, key, onError, wait).1, Remove(env, b, key, onError, wait).1)
  {
    DeleteAgrees(env, shared, a, b, key);
    PollAgrees(env, shared, DeleteCall(env, a, key).1, DeleteCall(env, b, key).1, key, DeleterPolls(wait));
  }

  lemma {:induction false} AwaitAgrees(env: Env, shared: iset<Key>, a: Server, b: Server, key: Key, required: bool,
                                       attempts: nat, last: Error)
    requires Quiet(env) && Agree(shared, a, b) && key in shared
    ensures Await(env, a, key, required, attempts, last).0 == Await(env, b, key, required, attempts, last).0
    ensures Agree(shared, Await(env, a, key, required, attempts, last).1,
                  Await(env, b, key, required, attempts, last).1)
    decreases attempts
  {
    if attempts > 0 {
      GetAgrees(env, shared, a, b, key);
      var (r, a') := GetCall(env, a, key);
      var e := if r.GetFailed? then r.error else OtherError("missing " + key.name);
      AwaitAgrees(env, shared, a', GetCall(env, b, key).1, key, required, attempts - 1, e);
    }
  }

  // ---- the steps ------------------------------------------------------------

  ghost predicate SharesConfigMaps(job: Job, shared: iset<Key>, names: seq<string>) {
    forall i :: 0 <= i < |names| ==> Key(ConfigMap, Ns(job), names[i]) in shared
  }

  lemma {:induction false} ReadAgrees(env: Env, job: Job, shared: iset<Key>, a: Server, b: Server, names: seq<string>,
                                      sofar: seq<Object>)
    requires Quiet(env) && Agree(shared, a, b) && SharesConfigMaps(job, shared, names)
    ensures ReadConfigMaps(env, job, a, names, sofar).0 == ReadConfigMaps(env, job, b, names, sofar).0
    ensures Agree(shared, ReadConfigMaps(env, job, a, names, sofar).1, ReadConfigMaps(env, job, b, names, sofar).1)
    decreases |names|
  {
    if |names| > 0 {
      var key := Key(ConfigMap, Ns(job), names[0]);
      GetAgrees(env, shared, a, b, key);
      var (r, a') := GetCall(env, a, key);
      if r.Found? {
        assert forall i :: 0 <= i < |names[1..]| ==> names[1..][i] == names[i + 1];
        ReadAgrees(env, job, shared, a', GetCall(env, b, key).1, names[1..], sofar + [r.item]);
      }
    }
  }

  lemma UpdateHiddenTemplate(t: map<string, string>, hidden: set<string>, k: string, v: string)
    ensures k !in hidden ==> t[k := v] - hidden == (t - hidden)[k := v]
    ensures k in hidden ==> t[k := v] - hidden == t - hidden
  {
  }

  lemma DeployInStep(env: Env, job: Job, shared: iset<Key>, hidden: set<string>, a: World, b: World)
    requires Quiet(env) && InStep(shared, hidden, a, b)
    requires SharesConfigMaps(job, shared, job.spec.config.additionalConfigMaps)
    requires ConfigAnnotation(job.name) !in hidden
    ensures Deploy(env, job, a).0 == Deploy(env, job, b).0
    ensures InStep(shared, hidden, Deploy(env, job, a).1, Deploy(env, job, b).1)
  {
    var names := job.spec.config.additionalConfigMaps;
    ReadAgrees(env, job, shared, a.server, b.server, names, []);
    var (read, sa) := ReadConfigMaps(env, job, a.server, names, []);
    var sb := ReadConfigMaps(env, job, b.server, names, []).1;
    if read.Read? {
      var g := KC.Generate(job.lib.host, job.spec.config, Documents(read.objects));
      if g.Generated? {
        UpdateAgrees(env, shared, sa, sb, ConfigKey(job), ConfigFields(g.text), ConfigFields(g.text), Continue);
        UpdateHiddenTemplate(b.template, hidden, ConfigAnnotation(job.name), job.lib.hash(g.text));
      }
    }
  }

  lemma {:induction false} CheckInStep(env: Env, job: Job, probes: seq<Probe>, shared: iset<Key>, hidden: set<string>,
                                       a: World, b: World)
    requires Quiet(env) && InStep(shared, hidden, a, b)
    requires forall i :: 0 <= i < |probes| ==> probes[i].key in shared && probes[i].annotation !in hidden
    ensures CheckAll(env, job, probes, a).0 == CheckAll(env, job, probes, b).0
    ensures InStep(shared, hidden, CheckAll(env, job, probes, a).1, CheckAll(env, job, probes, b).1)
    decreases |probes|
  {
    if |probes| > 0 {
      AwaitAgrees(env, shared, a.server, b.server, probes[0].key, true, AwaitPolls(job), TIMEOUT);
      var (r, sa) := Await(env, a.server, probes[0].key, true, AwaitPolls(job), TIMEOUT);
      var sb := Await(env, b.server, probes[0].key, true, AwaitPolls(job), TIMEOUT).1;
      if r.Found? {
        UpdateHiddenTemplate(b.template, hidden, probes[0].annotation, ContentHash(job.lib, r.item));
        assert forall i :: 0 <= i < |probes[1..]| ==> probes[1..][i] == probes[i + 1];
        CheckInStep(env, job, probes[1..], shared, hidden, Annotate(job.lib, a.(server := sa), probes[0], r.item),
                    Annotate(job.lib, b.(server := sb), probes[0], r.item));
      }
    }
  }

  lemma IssueAgrees(env: Env, job: Job, shared: iset<Key>, a: Server, b: Server)
    requires Quiet(env) && Agree(shared, a, b)
    ensures Issue(env, job, a).0 == Issue(env, job, b).0
    ensures Agree(shared, Issue(env, job, a).1, Issue(env, job, b).1)
  {
    TickAgrees(env, shared, a, b);
    var a', b' := Ticked(env, a), Ticked(env, b);
    var f := TokenFields(env.token(a.calls), job.lib.formatTime(FloorSecond(env.now(a'.calls) + job.ttl)));
    UpdateAgrees(env, shared, a', b', TokenSecretKey(job), f, f, Continue);
  }

  lemma TokenAgrees(env: Env, job: Job, shared: iset<Key>, a: Server, b: Server)
    requires Quiet(env) && Agree(shared, a, b)
    requires UwmAccountKey() in shared && TokenSecretKey(job) in shared
    ensures TokenStep(env, job, a).0 == TokenStep(env, job, b).0
    ensures Agree(shared, TokenStep(env, job, a).1, TokenStep(env, job, b).1)
  {
    var key := TokenSecretKey(job);
    if !EnableRBAC(job.spec) || !EnableUWM(job.spec) {
      RemoveAgrees(env, shared, a, b, key, Continue, 0);
    } else {
      AwaitAgrees(env, shared, a, b, UwmAccountKey(), true, AwaitPolls(job), TIMEOUT);
      var a1 := Await(env, a, UwmAccountKey(), true, AwaitPolls(job), TIMEOUT).1;
      var b1 := Await(env, b, UwmAccountKey(), true, AwaitPolls(job), TIMEOUT).1;
      AwaitAgrees(env, shared, a1, b1, key, false, AwaitPolls(job), TIMEOUT);
      IssueAgrees(env, job, shared, Await(env, a1, key, false, AwaitPolls(job), TIMEOUT).1,
                  Await(env, b1, key, false, AwaitPolls(job), TIMEOUT).1);
    }
  }

  /** What a step must be able to read; the Secrets that are mounted are treated apart. */
  ghost predicate Reads(job: Job, r: Reconciler, key: Key) {
    match r
    case Deleter(k, _, _) => key == k
    case Deployer => key.kind == ConfigMap && key.ns == Ns(job) && key.name in job.spec.config.additionalConfigMaps
    case ProxyConfig => key == ProxyConfigKey(job)
    case CABundle => key == CABundleKey(job)
    case UWMToken => key == UwmAccountKey() || key == TokenSecretKey(job)
    case ObjectsChecker => EnableRBAC(job.spec) && exists i :: 0 <= i < |Probes(job)| && Probes(job)[i].key == key
    case MonitorStep => key == MonitorKey(job)
    case _ => false
  }

  ghost predicate Annotates(job: Job, annotation: string) {
    || annotation == ConfigAnnotation(job.name)
    || (EnableRBAC(job.spec) && exists i :: 0 <= i < |Probes(job)| && Probes(job)[i].annotation == annotation)
  }

  lemma StepInStep(env: Env, job: Job, r: Reconciler, shared: iset<Key>, hidden: set<string>, a: World, b: World)
    requires Quiet(env) && InStep(shared, hidden, a, b)
    requires r != SecretMounter && r != Finalizer && (r == DaemonSetUpdater ==> DaemonSetKey(job) !in shared)
    requires forall key :: Reads(job, r, key) ==> key in shared
    requires forall annotation :: Annotates(job, annotation) ==> annotation !in hidden
    ensures Step(env, job, r, a).0 == Step(env, job, r, b).0
    ensures InStep(shared, hidden, Step(env, job, r, a).1, Step(env, job, r, b).1)
  {
    var sa, sb := a.server, b.server;
    match r
    case Updater(k, f, e) => UpdateAgrees(env, shared, sa, sb, k, f, f, e);
    case DaemonSetUpdater =>
      UpdateAgrees(env, shared, sa, sb, DaemonSetKey(job), DaemonSetFields(job, a.template),
                   DaemonSetFields(job, b.template), Continue);
    case Deleter(k, e, wait) =>
      assert Reads(job, r, k);
      RemoveAgrees(env, shared, sa, sb, k, e, wait);
    case Deployer =>
      assert SharesConfigMaps(job, shared, job.spec.config.additionalConfigMaps) by {
        forall i | 0 <= i < |job.spec.config.additionalConfigMaps|
          ensures Key(ConfigMap, Ns(job), job.spec.config.additionalConfigMaps[i]) in shared
        {
          assert Reads(job, r, Key(ConfigMap, Ns(job), job.spec.config.additionalConfigMaps[i]));
        }
      }
      assert Annotates(job, ConfigAnnotation(job.name));
      DeployInStep(env, job, shared, hidden, a, b);
    case ProxyConfig =>
      assert Reads(job, r, ProxyConfigKey(job));
      RemoveAgrees(env, shared, sa, sb, ProxyConfigKey(job), Continue, 0);
      UpdateAgrees(env, shared, sa, sb, ProxyConfigKey(job), ProxyConfigFields(job), ProxyConfigFields(job), Continue);
    case CABundle =>
      assert Reads(job, r, CABundleKey(job));
      RemoveAgrees(env, shared, sa, sb, CABundleKey(job), Continue, 0);
      UpdateAgrees(env, shared, sa, sb, CABundleKey(job), CA_BUNDLE_FIELDS, CA_BUNDLE_FIELDS, Continue);
    case UWMToken =>
      assert Reads(job, r, UwmAccountKey()) && Reads(job, r, TokenSecretKey(job));
      TokenAgrees(env, job, shared, sa, sb);
    case ObjectsChecker =>
      if EnableRBAC(job.spec) {
        var probes := Probes(job);
        forall i | 0 <= i < |probes| ensures probes[i].key in shared && probes[i].annotation !in hidden {
          assert Reads(job, r, probes[i].key);
          assert Annotates(job, probes[i].annotation);
        }
        CheckInStep(env, job, probes, shared, hidden, a, b);
      }
    case MonitorStep =>
      assert Reads(job, r, MonitorKey(job));
      RemoveAgrees(env, shared, sa, sb, MonitorKey(job), Continue, 0);
      UpdateAgrees(env, shared, sa, sb, MonitorKey(job), MonitorFields(job, a.monitor), MonitorFields(job, b.monitor),
                   Continue);
  }

  ghost predicate CanFollow(job: Job, rs: seq<Reconciler>, shared: iset<Key>) {
    forall r :: r in rs ==>
      && r != SecretMounter && r != Finalizer
      && (r == DaemonSetUpdater ==> DaemonSetKey(job) !in shared)
      && forall key :: Reads(job, r, key) ==> key in shared
  }

  /** Lists that read only shared objects run in step. */
  lemma {:induction false} ExecInStep(env: Env, job: Job, rs: seq<Reconciler>, shared: iset<Key>, hidden: set<string>,
                                      a: World, b: World)
    requires Quiet(env) && InStep(shared, hidden, a, b) && CanFollow(job, rs, shared)
    requires forall annotation :: Annotates(job, annotation) ==> annotation !in hidden
    ensures InStep(shared, hidden, Exec(env, job, rs, a), Exec(env, job, rs, b))
    ensures AllFine(env, job, rs, a) <==> AllFine(env, job, rs, b)
    decreases |rs|
  {
    if |rs| > 0 {
      assert rs[0] in rs;
      StepInStep(env, job, rs[0], shared, hidden, a, b);
      assert forall r :: r in rs[1..] ==> r in rs;
      ExecInStep(env, job, rs[1..], shared, hidden, Step(env, job, rs[0], a).1, Step(env, job, rs[0], b).1);
    }
  }

  // ---- removing what one cluster lacks --------------------------------------

  lemma {:induction false} PresentIsPolled(env: Env, s: Server, key: Key, attempts: nat)
    requires Quiet(env) && Peek(s, key).Some?
    ensures !PollAbsent(env, s, key, attempts).0
    decreases attempts
  {
    if attempts > 0 {
      QuietLeaves(env, key);
      TickFrame(env, s, key);
      PresentIsPolled(env, GetCall(env, s, key).1, key, attempts - 1);
    }
  }

  /** A removal that works out, where the object is stored, goes the same where it is not. */
  lemma LostRemovalAgrees(env: Env, shared: iset<Key>, a: Server, b: Server, key: Key, onError: Action, wait: nat)
    requires Quiet(env) && Agree(shared, a, b) && Peek(a, key) == None
    requires Fine(Remove(env, b, key, onError, wait).0)
    ensures Remove(env, a, key, onError, wait).0 == Remove(env, b, key, onError, wait).0
    ensures Agree(shared, Remove(env, a, key, onError, wait).1, Remove(env, b, key, onError, wait).1)
  {
    var a1, b1 := DeleteCall(env, a, key).1, DeleteCall(env, b, key).1;
    TickAgrees(env, shared, a, b);
    QuietLeaves(env, key);
    TickFrame(env, a, key);
    if Peek(b1, key).Some? {
      PresentIsPolled(env, b1, key, DeleterPolls(wait));
    }
    var both := shared + iset{key};
    forall k | k in both ensures Peek(a1, k) == Peek(b1, k) {
      if k != key {
        assert Peek(Ticked(env, a), k) == Peek(Ticked(env, b), k);
      }
    }
    PollAgrees(env, both, a1, b1, key, DeleterPolls(wait));
  }

  /** The security steps that remove their object in this mode. */
  predicate Removes(job: Job, r: Reconciler) {
    || (r == ProxyConfig && !EnableRBAC(job.spec))
    || (r == UWMToken && !(EnableRBAC(job.spec) && EnableUWM(job.spec)))
  }

  lemma LostStepInStep(env: Env, job: Job, r: Reconciler, shared: iset<Key>, hidden: set<string>, a: World, b: World)
    requires Quiet(env) && InStep(shared, hidden, a, b) && Removes(job, r)
    requires Target(job, r).Some? && Peek(a.server, Target(job, r).value) == None
    requires Fine(Step(env, job, r, b).0)
    ensures Step(env, job, r, a).0 == Step(env, job, r, b).0
    ensures InStep(shared, hidden, Step(env, job, r, a).1, Step(env, job, r, b).1)
  {
    LostRemovalAgrees(env, shared, a.server, b.server, Target(job, r).value, Continue, 0);
  }

  // ---- mounting -------------------------------------------------------------

  /** Each referenced Secret is shared, or lost to the first cluster and hidden. */
  ghost predicate MountsInStep(job: Job, shared: iset<Key>, lost: set<string>, a: Server, names: seq<string>) {
    forall i :: 0 <= i < |names| ==>
      if names[i] in lost then Peek(a, Key(Secret, Ns(job), names[i])) == None
      else Key(Secret, Ns(job), names[i]) in shared
  }

  ghost function Hidden(lost: set<string>): set<string> {
    set n | n in lost :: SecretAnnotation(n)
  }

  lemma SecretAnnotationInjective(m: string, n: string)
    ensures SecretAnnotation(m) == SecretAnnotation(n) ==> m == n
  {
    var p := SECRET_TLS_HASH + "-";
    assert SecretAnnotation(m)[|p|..] == m && SecretAnnotation(n)[|p|..] == n;
  }

  lemma HiddenExactly(lost: set<string>, n: string)
    ensures SecretAnnotation(n) in Hidden(lost) <==> n in lost
  {
    forall m | m in lost && SecretAnnotation(m) == SecretAnnotation(n) ensures n in lost {
      SecretAnnotationInjective(m, n);
    }
  }

  /** Same calls and, but for the lost Secrets, same annotations; an API failure hits both. */
  lemma {:induction false} MountInStep(env: Env, job: Job, shared: iset<Key>, lost: set<string>, a: Server, b: Server,
                                       names: seq<string>, ta: map<string, string>, tb: map<string, string>,
                                       ma: seq<string>, mb: seq<string>)
    requires Quiet(env) && Agree(shared, a, b) && MountsInStep(job, shared, lost, a, names)
    requires ta == tb - Hidden(lost)
    ensures var (ra, a', ta') := MountSecrets(env, job, a, names, ta, ma);
            var (rb, b', tb') := MountSecrets(env, job, b, names, tb, mb);
            Agree(shared, a', b') && ta' == tb' - Hidden(lost) && (Fine(ra) <==> Fine(rb))
            && (lost == {} && ma == mb ==> ra == rb)
    decreases |names|
  {
    if |names| > 0 {
      var key := Key(Secret, Ns(job), names[0]);
      TickAgrees(env, shared, a, b);
      var (got, a') := GetCall(env, a, key);
      var (got', b') := GetCall(env, b, key);
      assert a'.store.objects == a.store.objects;
      HiddenExactly(lost, names[0]);
      assert MountsInStep(job, shared, lost, a', names[1..]) by {
        assert forall i :: 0 <= i < |names[1..]| ==> names[1..][i] == names[i + 1];
        assert forall k :: Peek(a', k) == Peek(a, k);
      }
      if names[0] !in lost {
        GetAgrees(env, shared, a, b, key);
      }
      var annotation := SecretAnnotation(names[0]);
      var ta' := if got.Found? then ta[annotation := ContentHash(job.lib, got.item)] else ta;
      var tb' := if got'.Found? then tb[annotation := ContentHash(job.lib, got'.item)] else tb;
      if got'.Found? {
        UpdateHiddenTemplate(tb, Hidden(lost), annotation, ContentHash(job.lib, got'.item));
      }
      if !got.GetFailed? {
        MountInStep(env, job, shared, lost, a', b', names[1..], ta', tb',
                    if got.Found? then ma else ma + [names[0]], if got'.Found? then mb else mb + [names[0]]);
      }
    }
  }
}
