/** What failing calls do to a run. */
module Failures {
  import opened Common
  import opened Api
  import opened ClusterModel
  import opened Steps
  import opened Runner
  import opened Frames
  import opened Verdicts
  import ConfigSafety
  import MissingSecrets
  import FinalizerSafety
  import Rollout

  // ---- calls that change nothing --------------------------------------------

  /** The server after `n` calls in which only other writers act. */
  function OnlyOthers(env: Env, s: Server, n: nat): Server
    decreases n
  {
    if n == 0 then s else OnlyOthers(env, Ticked(env, s), n - 1)
  }

  lemma {:induction false} OnlyOthersLeave(env: Env, s: Server, n: nat, key: Key)
    requires Leaves(env, key)
    ensures Peek(OnlyOthers(env, s, n), key) == Peek(s, key)
    decreases n
  {
    if n > 0 {
      TickFrame(env, s, key);
      OnlyOthersLeave(env, Ticked(env, s), n - 1, key);
    }
  }

  function FaultText(f: Fault): string {
    match f
    case Failing(text) => text
    case _ => "the object has been modified; please apply your changes to the latest version"
  }

  // ---- an unreadable Secret -------------------------------------------------

  /** The calls from `first` up to `k` succeed, and call `k` fails. */
  ghost predicate FirstFault(env: Env, first: nat, k: nat) {
    first <= k && env.fault(k) != Healthy && forall c :: first <= c < k ==> env.fault(c) == Healthy
  }

  lemma {:induction false} SomeFirstFault(env: Env, first: nat, k: nat) returns (c: nat)
    requires first <= k && env.fault(k) != Healthy
    ensures c <= k && FirstFault(env, first, c)
    decreases k - first
  {
    if env.fault(first) != Healthy {
      c := first;
    } else {
      c := SomeFirstFault(env, first + 1, k);
    }
  }

  function CannotRead(name: string, fault: Fault): Error {
    OtherError("failed to get secret " + name + ": " + FaultText(fault))
  }

  lemma ReadFails(env: Env, s: Server, key: Key)
    requires env.fault(s.calls) != Healthy
    ensures GetCall(env, s, key).0 == GetFailed(FaultError(env.fault(s.calls)))
    ensures Message(FaultError(env.fault(s.calls))) == FaultText(env.fault(s.calls))
  {
  }

  lemma MountFails(env: Env, job: Job, s: Server, names: seq<string>, template: map<string, string>,
                   missing: seq<string>, e: Error)
    requires |names| > 0 && GetCall(env, s, Key(Secret, Ns(job), names[0])).0 == GetFailed(e)
    ensures MountSecrets(env, job, s, names, template, missing)
         == (Result(Stop, Some(OtherError("failed to get secret " + names[0] + ": " + Message(e)))), Ticked(env, s),
             template)
  {
  }

  /** A reference that can be read leads to the next one, whatever was found. */
  lemma MountGoesOn(env: Env, job: Job, s: Server, names: seq<string>, template: map<string, string>,
                    missing: seq<string>) returns (template': map<string, string>, missing': seq<string>)
    requires |names| > 0 && env.fault(s.calls) == Healthy
    ensures MountSecrets(env, job, s, names, template, missing)
         == MountSecrets(env, job, Ticked(env, s), names[1..], template', missing')
  {
    template', missing' := template, missing;
    match GetCall(env, s, Key(Secret, Ns(job), names[0])).0
    case Found(o) => template' := template[SecretAnnotation(names[0]) := ContentHash(job.lib, o)];
    case Missing => missing' := missing + [names[0]];
  }

  lemma MountStopsHere(env: Env, job: Job, s: Server, names: seq<string>, template: map<string, string>,
                       missing: seq<string>)
    requires |names| > 0 && env.fault(s.calls) != Healthy
    ensures var (r, s', _) := MountSecrets(env, job, s, names, template, missing);
            s' == Ticked(env, s) && r == Result(Stop, Some(CannotRead(names[0], env.fault(s.calls))))
  {
    ReadFails(env, s, Key(Secret, Ns(job), names[0]));
    MountFails(env, job, s, names, template, missing, FaultError(env.fault(s.calls)));
  }

  /** Mounting reads one reference a call; the first that cannot be read ends it. */
  lemma {:induction false} MountStopsAt(env: Env, job: Job, s: Server, names: seq<string>,
                                        template: map<string, string>, missing: seq<string>, k: nat)
    requires FirstFault(env, s.calls, k) && k < s.calls + |names|
    ensures var (r, s', _) := MountSecrets(env, job, s, names, template, missing);
            && s' == OnlyOthers(env, s, k - s.calls + 1)
            && r == Result(Stop, Some(CannotRead(names[k - s.calls], env.fault(k))))
    decreases |names|
  {
    if k == s.calls {
      MountStopsHere(env, job, s, names, template, missing);
      assert OnlyOthers(env, s, 1) == OnlyOthers(env, Ticked(env, s), 0);
    } else {
      var template', missing' := MountGoesOn(env, job, s, names, template, missing);
      MountStopsAt(env, job, Ticked(env, s), names[1..], template', missing', k);
    }
  }

  lemma NamespaceThenMounter(job: Job)
    requires !job.deleting
    ensures |Reconcilers(job)| > 2
    ensures Reconcilers(job)[0] == Updater(Key(Namespace, "", job.spec.deployment.namespace), Bare(Plain), Requeue)
    ensures Reconcilers(job)[1] == SecretMounter
  {
  }

  lemma MounterMounts(env: Env, job: Job, w: World, r: Result, s': Server)
    requires var mounted := MountSecrets(env, job, w.server, SecretNames(job.spec.deployment.secrets), w.template, []);
             mounted.0 == r && mounted.1 == s'
    ensures Step(env, job, SecretMounter, w).0 == r && Step(env, job, SecretMounter, w).1.server == s'
  {
  }

  lemma MounterStopsAt(env: Env, job: Job, w: World, k: nat)
    requires FirstFault(env, w.server.calls, k) && k < w.server.calls + |job.spec.deployment.secrets|
    ensures var name := job.spec.deployment.secrets[k - w.server.calls].name;
            var (r, w') := Step(env, job, SecretMounter, w);
            && r == Result(Stop, Some(CannotRead(name, env.fault(k))))
            && w'.server == OnlyOthers(env, w.server, k - w.server.calls + 1)
  {
    var names := SecretNames(job.spec.deployment.secrets);
    MountStopsAt(env, job, w.server, names, w.template, [], k);
    MounterMounts(env, job, w, Result(Stop, Some(CannotRead(names[k - w.server.calls], env.fault(k)))),
                  OnlyOthers(env, w.server, k - w.server.calls + 1));
  }

  lemma NamespaceFirst(env: Env, job: Job, w: World)
    requires !job.deleting && env.fault(w.server.calls) == Healthy
    ensures var rs := Reconcilers(job);
            && |rs| > 2 && rs[1] == SecretMounter && Continues(ResultAt(env, job, rs, w, 0))
            && Exec(env, job, rs[..1], w).server
                 == PatchCall(env, w.server, Key(Namespace, "", job.spec.deployment.namespace), Bare(Plain)).1
  {
    NamespaceThenMounter(job);
    var rs := Reconcilers(job);
    assert rs[..1] == [rs[0]] && rs[..0] == [] && [rs[0]][1..] == [];
  }

  /** When reading some referenced Secret fails, the run ends there with the first such failure:
      after the Namespace has been applied nothing is written any more, whatever is stored. */
  lemma UnreadableSecretHoldsRollout(env: Env, job: Job, w: World, any: nat) returns (k: nat)
    requires !job.deleting && env.fault(w.server.calls) == Healthy
    requires w.server.calls < any <= w.server.calls + |job.spec.deployment.secrets| && env.fault(any) != Healthy
    ensures k <= any && FirstFault(env, w.server.calls + 1, k)
    ensures var (verdict, w') := Run(env, job, Reconcilers(job), w);
            var i, namespace := k - w.server.calls - 1, Key(Namespace, "", job.spec.deployment.namespace);
            && verdict == Verdict(false, 0, Some(CannotRead(job.spec.deployment.secrets[i].name, env.fault(k))))
            && w'.server == OnlyOthers(env, PatchCall(env, w.server, namespace, Bare(Plain)).1, i + 1)
            && forall key :: key != namespace && Leaves(env, key) ==> Peek(w'.server, key) == Peek(w.server, key)
  {
    var rs, namespace := Reconcilers(job), Key(Namespace, "", job.spec.deployment.namespace);
    k := SomeFirstFault(env, w.server.calls + 1, any);
    NamespaceFirst(env, job, w);
    var w1 := Exec(env, job, rs[..1], w);
    MounterStopsAt(env, job, w1, k);
    EndsAt(env, job, rs, w, 1);
    forall key | key != namespace && Leaves(env, key)
      ensures Peek(OnlyOthers(env, w1.server, k - w.server.calls), key) == Peek(w.server, key)
    {
      UpdateFrame(env, w.server, namespace, Bare(Plain), Requeue, key);
      OnlyOthersLeave(env, w1.server, k - w.server.calls, key);
    }
  }

  // ---- applies that fail ----------------------------------------------------

  /** The step applies an object as its first call. */
  predicate Applies(job: Job, r: Reconciler) {
    var rbac := job.spec.deployment.mode == "rbac";
    var uwm := "openshift-user-workload-monitoring:prometheus-user-workload" in job.spec.deployment.allowedSANames;
    || r.Updater? || r == DaemonSetUpdater
    || (r == ProxyConfig && rbac) || (r == CABundle && rbac && uwm) || (r == MonitorStep && (!rbac || uwm))
  }

  /** The step's only way to go wrong is a failed call, which does not end the run. */
  predicate Optional(r: Reconciler) {
    r !in {SecretMounter, Deployer, UWMToken, ObjectsChecker, Finalizer}
  }

  lemma ApplyOutcomes(env: Env, job: Job, r: Reconciler, w: World)
    requires Applies(job, r) && (r.Updater? ==> r.onError == Continue)
    ensures var (result, w') := Step(env, job, r, w);
            match env.fault(w.server.calls)
            case Healthy => result == Result(Continue, None)
            case Conflicting => result == Result(Requeue, None) && w'.server == Ticked(env, w.server)
            case Failing(text) =>
              result == Result(Continue, Some(ApiError(text))) && w'.server == Ticked(env, w.server)
  {
    ModesByName(job.spec);
    match r
    case Updater(key, f, e) => UpdateOutcomes(env, w.server, key, f, e);
    case DaemonSetUpdater =>
      UpdateOutcomes(env, w.server, DaemonSetKey(job), DaemonSetFields(job, w.template), Continue);
    case ProxyConfig => UpdateOutcomes(env, w.server, ProxyConfigKey(job), ProxyConfigFields(job), Continue);
    case CABundle => UpdateOutcomes(env, w.server, CABundleKey(job), CA_BUNDLE_FIELDS, Continue);
    case MonitorStep => UpdateOutcomes(env, w.server, MonitorKey(job), MonitorFields(job, w.monitor), Continue);
  }

  lemma RemoveContinues(env: Env, job: Job, r: Reconciler, w: World)
    requires Optional(r) && !Applies(job, r) && (r.Deleter? ==> r.onError == Continue)
    ensures Continues(Step(env, job, r, w).0)
    ensures env.fault(w.server.calls).Failing? ==>
              Step(env, job, r, w).0.error == Some(ApiError(env.fault(w.server.calls).text))
  {
    ModesByName(job.spec);
  }

  lemma StepsOfRun(job: Job, i: nat)
    requires !job.deleting && i < |UpdateSteps(job)|
    ensures i < |Reconcilers(job)| && Reconcilers(job)[i] == UpdateSteps(job)[i]
    ensures Reconcilers(job)[..i] == UpdateSteps(job)[..i]
  {
  }

  /** A run that cannot apply the Namespace has done nothing, reports nothing, and is repeated after
      five seconds. */
  lemma UnappliedNamespaceDelays(env: Env, job: Job, w: World)
    requires !job.deleting && env.fault(w.server.calls) != Healthy
    ensures Run(env, job, Reconcilers(job), w)
         == (Verdict(false, FIVE_SECONDS, None), w.(server := Ticked(env, w.server)))
  {
    var rs := Reconcilers(job);
    NamespaceThenMounter(job);
    assert rs[..0] == [];
    UpdateOutcomes(env, w.server, NamespaceKey(job), Bare(Plain), Requeue);
    EndsAt(env, job, rs, w, 0);
  }

  /** Any other object that cannot be applied is skipped, and the failure is kept for the verdict;
      but a conflict ends the run without an error, to be repeated after five seconds. */
  lemma UnappliedObject(env: Env, job: Job, w: World, i: nat)
    requires !job.deleting && 0 < i < |UpdateSteps(job)| && Applies(job, UpdateSteps(job)[i])
    ensures var at, next := Exec(env, job, Reconcilers(job)[..i], w), Exec(env, job, Reconcilers(job)[..i + 1], w);
            match env.fault(at.server.calls)
            case Healthy => ResultAt(env, job, Reconcilers(job), w, i) == Result(Continue, None)
            case Failing(text) =>
              && ResultAt(env, job, Reconcilers(job), w, i) == Result(Continue, Some(ApiError(text)))
              && next.server == Ticked(env, at.server)
            case Conflicting =>
              (forall j :: 0 <= j < i ==> Continues(ResultAt(env, job, Reconcilers(job), w, j))) ==>
                && Run(env, job, Reconcilers(job), w).0 == Verdict(false, FIVE_SECONDS, None)
                && Run(env, job, Reconcilers(job), w).1.server == Ticked(env, at.server)
  {
    var rs := Reconcilers(job);
    UpdateListActions(job);
    StepsOfRun(job, i);
    var at := Exec(env, job, rs[..i], w);
    ApplyOutcomes(env, job, rs[i], at);
    ExecSnoc(env, job, rs, w, i);
    if env.fault(at.server.calls) == Conflicting
       && forall j :: 0 <= j < i ==> Continues(ResultAt(env, job, Reconcilers(job), w, j)) {
      EndsAt(env, job, rs, w, i);
    }
  }

  /** So is an object that is not wanted and cannot be deleted, or stays: nothing ends the run there. */
  lemma UndeletedObject(env: Env, job: Job, w: World, i: nat)
    requires !job.deleting && 0 < i < |UpdateSteps(job)| && Optional(UpdateSteps(job)[i])
    requires !Applies(job, UpdateSteps(job)[i])
    ensures Continues(ResultAt(env, job, Reconcilers(job), w, i))
    ensures var at := Exec(env, job, Reconcilers(job)[..i], w);
            env.fault(at.server.calls).Failing? ==>
              ResultAt(env, job, Reconcilers(job), w, i).error == Some(ApiError(env.fault(at.server.calls).text))
  {
    UpdateListActions(job);
    StepsOfRun(job, i);
    var at := Exec(env, job, Reconcilers(job)[..i], w);
    RemoveContinues(env, job, UpdateSteps(job)[i], at);
  }

  // ---- steps that hold up the rest ------------------------------------------

  /** What neither the steps before a stop nor the stopping step write stays as it was. */
  lemma HeldBack(env: Env, job: Job, pre: seq<Reconciler>, r: Reconciler, rest: seq<Reconciler>, w: World, key: Key)
    requires Reconcilers(job) == pre + [r] + rest && !Continues(Step(env, job, r, Exec(env, job, pre, w)).0)
    requires Leaves(env, key) && NoneTargets(job, pre, key) && Target(job, r) != Some(key)
    ensures Peek(Run(env, job, Reconcilers(job), w).1.server, key) == Peek(w.server, key)
  {
    var n := ConfigSafety.StopsAt(env, job, pre, r, rest, w);
    assert forall q :: q in (pre + [r])[..n] ==> q in pre || q == r;
    ExecFrame(env, job, (pre + [r])[..n], w, key);
  }

  lemma {:induction false} NeverThere(env: Env, s: Server, key: Key, attempts: nat, last: Error)
    requires Leaves(env, key) && Peek(s, key) == None
    ensures Await(env, s, key, true, attempts, last).0.GetFailed?
    decreases attempts
  {
    if attempts > 0 {
      TickFrame(env, s, key);
      var (r, s') := GetCall(env, s, key);
      var e := if r.GetFailed? then r.error else OtherError("missing " + key.name);
      NeverThere(env, s', key, attempts - 1, e);
    }
  }

  /** The keys of the workload: the rollout itself, and how it is scraped. */
  predicate IsWorkload(job: Job, key: Key) {
    var ns, name := job.spec.deployment.namespace, job.name;
    key == Key(DaemonSet, ns, name) || key == Key(ServiceMonitor, ns, name)
  }

  lemma UntilChecker(job: Job)
    requires !job.deleting
    ensures var pre := Rollout.BeforeWorkload(job) + [Deployer];
            var rest := [DaemonSetUpdater, MonitorStep] + Dashboards(job);
            && UpdateSteps(job) == pre + [ObjectsChecker] + rest
            && Reconcilers(job) == pre + [ObjectsChecker] + (rest + [Finalizer])
  {
  }

  lemma NotBeforeChecker(job: Job, key: Key)
    requires IsWorkload(job, key) || key == Key(Secret, job.spec.deployment.namespace, "power-monitor-tls")
    ensures NoneTargets(job, Rollout.BeforeWorkload(job) + [Deployer], key)
  {
  }

  lemma CheckerMissesTls(env: Env, job: Job, w: World)
    requires job.spec.deployment.mode == "rbac"
    requires var tls := Key(Secret, job.spec.deployment.namespace, "power-monitor-tls");
             Leaves(env, tls) && Peek(w.server, tls) == None
    ensures !Continues(Step(env, job, ObjectsChecker, w).0)
  {
    var proxy, tls := Probes(job)[0], Probes(job)[1];
    var (r, s') := Await(env, w.server, proxy.key, true, AwaitPolls(job), TIMEOUT);
    AwaitFrame(env, w.server, proxy.key, true, AwaitPolls(job), TIMEOUT, tls.key);
    NeverThere(env, s', tls.key, AwaitPolls(job), TIMEOUT);
    if r.Found? {
      var w' := Annotate(job.lib, w.(server := s'), proxy, r.item);
      assert Probes(job)[1..][0] == tls;
      assert !Continues(CheckAll(env, job, Probes(job)[1..], w').0);
    }
  }

  /** With RBAC and without the TLS Secret no DaemonSet and no ServiceMonitor is rolled out, and the
      run says so, whatever else fails. */
  lemma MissingTlsHoldsRollout(env: Env, job: Job, w: World, key: Key)
    requires !job.deleting && job.spec.deployment.mode == "rbac" && IsWorkload(job, key) && Leaves(env, key)
    requires var tls := Key(Secret, job.spec.deployment.namespace, "power-monitor-tls");
             Leaves(env, tls) && Peek(w.server, tls) == None
    ensures Peek(Run(env, job, Reconcilers(job), w).1.server, key) == Peek(w.server, key)
    ensures !Clean(Run(env, job, Reconcilers(job), w).0)
  {
    var tls := Key(Secret, job.spec.deployment.namespace, "power-monitor-tls");
    var pre, rest := Rollout.BeforeWorkload(job) + [Deployer], [DaemonSetUpdater, MonitorStep] + Dashboards(job);
    UntilChecker(job);
    NotBeforeChecker(job, key);
    NotBeforeChecker(job, tls);
    ExecFrame(env, job, pre, w, tls);
    CheckerMissesTls(env, job, Exec(env, job, pre, w));
    HeldBack(env, job, pre, ObjectsChecker, rest + [Finalizer], w, key);
    StopIsReported(env, job, pre, ObjectsChecker, rest, w);
  }

  lemma StopIsReported(env: Env, job: Job, pre: seq<Reconciler>, r: Reconciler, rest: seq<Reconciler>, w: World)
    requires !job.deleting && UpdateSteps(job) == pre + [r] + rest
    requires !Continues(Step(env, job, r, Exec(env, job, pre, w)).0)
    ensures !Clean(Run(env, job, Reconcilers(job), w).0)
  {
    MissingSecrets.SplitAround(env, job, pre, r, rest, w);
    if Clean(Run(env, job, Reconcilers(job), w).0) {
      CleanVerdictMeansFine(env, job, w);
    }
  }

  // ---- a token that cannot be made or read ----------------------------------

  const TOKEN_ACCOUNT := Key(ServiceAccount, "openshift-user-workload-monitoring", "prometheus-user-workload")

  function TokenSecret(job: Job): Key {
    Key(Secret, job.spec.deployment.namespace, "prometheus-user-workload-token")
  }

  predicate Unreadable(lib: Lib, o: Object) {
    var stamp := Lookup(Annotations(o), "powermonitor.sustainable.computing.io/secret-token-expiration");
    stamp.Some? && lib.parseTime(stamp.value).None?
  }

  /** Nothing to make a token for, or a stored token whose expiry cannot be read. */
  ghost predicate TokenTrouble(env: Env, job: Job, s: Server) {
    || (Leaves(env, TOKEN_ACCOUNT) && Peek(s, TOKEN_ACCOUNT) == None)
    || (Leaves(env, TokenSecret(job)) && Peek(s, TokenSecret(job)).Some?
        && Unreadable(job.lib, Peek(s, TokenSecret(job)).value))
  }

  lemma TokenStops(env: Env, job: Job, w: World)
    requires job.spec.deployment.mode == "rbac" && TokenTrouble(env, job, w.server)
    requires "openshift-user-workload-monitoring:prometheus-user-workload" in job.spec.deployment.allowedSANames
    ensures !Continues(Step(env, job, UWMToken, w).0)
  {
    ModesByName(job.spec);
    var (account, s1) := Await(env, w.server, TOKEN_ACCOUNT, true, AwaitPolls(job), TIMEOUT);
    if Leaves(env, TOKEN_ACCOUNT) && Peek(w.server, TOKEN_ACCOUNT) == None {
      NeverThere(env, w.server, TOKEN_ACCOUNT, AwaitPolls(job), TIMEOUT);
    } else if account.Found? {
      AwaitFrame(env, w.server, TOKEN_ACCOUNT, true, AwaitPolls(job), TIMEOUT, TokenSecret(job));
      AwaitFrame(env, s1, TokenSecret(job), false, AwaitPolls(job), TIMEOUT, TokenSecret(job));
      AwaitSees(env, s1, TokenSecret(job), false, AwaitPolls(job), TIMEOUT);
    }
  }

  lemma UntilToken(job: Job)
    requires !job.deleting
    ensures var pre, rest := Rollout.BeforeSecurity(job) + [ProxyConfig, CABundle], Rollout.AfterSecurity(job);
            && UpdateSteps(job) == pre + [UWMToken] + rest
            && Reconcilers(job) == pre + [UWMToken] + (rest + [Finalizer])
  {
  }

  lemma NotBeforeToken(job: Job, key: Key)
    requires IsWorkload(job, key) || key == Key(Service, job.spec.deployment.namespace, job.name)
             || key == TOKEN_ACCOUNT || key == TokenSecret(job)
    ensures NoneTargets(job, Rollout.BeforeSecurity(job) + [ProxyConfig, CABundle], key)
  {
  }

  /** Where user-workload monitoring wants a token and it cannot be had, the run ends before the
      Service, the DaemonSet and the ServiceMonitor, and says so. */
  lemma TokenTroubleHoldsRollout(env: Env, job: Job, w: World, key: Key)
    requires !job.deleting && job.spec.deployment.mode == "rbac" && TokenTrouble(env, job, w.server)
    requires "openshift-user-workload-monitoring:prometheus-user-workload" in job.spec.deployment.allowedSANames
    requires IsWorkload(job, key) || key == Key(Service, job.spec.deployment.namespace, job.name)
    requires Leaves(env, key)
    ensures Peek(Run(env, job, Reconcilers(job), w).1.server, key) == Peek(w.server, key)
    ensures !Clean(Run(env, job, Reconcilers(job), w).0)
  {
    var pre, rest := Rollout.BeforeSecurity(job) + [ProxyConfig, CABundle], Rollout.AfterSecurity(job);
    UntilToken(job);
    NotBeforeToken(job, key);
    TroubleStays(env, job, pre, w);
    TokenStops(env, job, Exec(env, job, pre, w));
    HeldBack(env, job, pre, UWMToken, rest + [Finalizer], w, key);
    StopIsReported(env, job, pre, UWMToken, rest, w);
  }

  lemma TroubleStays(env: Env, job: Job, pre: seq<Reconciler>, w: World)
    requires pre == Rollout.BeforeSecurity(job) + [ProxyConfig, CABundle] && TokenTrouble(env, job, w.server)
    ensures TokenTrouble(env, job, Exec(env, job, pre, w).server)
  {
    NotBeforeToken(job, TOKEN_ACCOUNT);
    NotBeforeToken(job, TokenSecret(job));
    if Leaves(env, TOKEN_ACCOUNT) {
      ExecFrame(env, job, pre, w, TOKEN_ACCOUNT);
    }
    if Leaves(env, TokenSecret(job)) {
      ExecFrame(env, job, pre, w, TokenSecret(job));
    }
  }

  // ---- polls ----------------------------------------------------------------

  /** Polling an object that stays takes every attempt, and changes nothing. */
  lemma {:induction false} PollsRunOut(env: Env, s: Server, key: Key, attempts: nat)
    requires Leaves(env, key) && Peek(s, key).Some?
    ensures PollAbsent(env, s, key, attempts) == (false, OnlyOthers(env, s, attempts))
    decreases attempts
  {
    if attempts > 0 {
      TickFrame(env, s, key);
      PollsRunOut(env, GetCall(env, s, key).1, key, attempts - 1);
    }
  }

  /** One answer among the attempts is enough to see that an object is gone. */
  lemma {:induction false} PollsSeeAbsence(env: Env, s: Server, key: Key, attempts: nat, c: nat)
    requires Leaves(env, key) && Peek(s, key) == None
    requires s.calls <= c < s.calls + attempts && env.fault(c) == Healthy
    ensures PollAbsent(env, s, key, attempts).0
    decreases attempts
  {
    TickFrame(env, s, key);
    if env.fault(s.calls) != Healthy {
      PollsSeeAbsence(env, GetCall(env, s, key).1, key, attempts - 1, c);
    }
  }

  /** And to read one that is there. */
  lemma {:induction false} AwaitFindsStored(env: Env, s: Server, key: Key, required: bool, attempts: nat, last: Error,
                                            c: nat)
    requires Leaves(env, key) && Peek(s, key).Some?
    requires s.calls <= c < s.calls + attempts && env.fault(c) == Healthy
    ensures Await(env, s, key, required, attempts, last).0 == Found(Peek(s, key).value)
    decreases attempts
  {
    TickFrame(env, s, key);
    var (r, s') := GetCall(env, s, key);
    if env.fault(s.calls) != Healthy {
      AwaitFindsStored(env, s', key, required, attempts - 1, r.error, c);
    }
  }

  lemma {:induction false} AwaitRunsOut(env: Env, s: Server, key: Key, attempts: nat, last: Error)
    requires Leaves(env, key) && Peek(s, key) == None
    ensures Await(env, s, key, true, attempts, last).1 == OnlyOthers(env, s, attempts)
    decreases attempts
  {
    if attempts > 0 {
      TickFrame(env, s, key);
      var (r, s') := GetCall(env, s, key);
      var e := if r.GetFailed? then r.error else OtherError("missing " + key.name);
      AwaitRunsOut(env, s', key, attempts - 1, e);
    }
  }

  /** A required object that is missing is looked for every three seconds: for a minute on
      OpenShift, where other operators make it, and for six seconds elsewhere. */
  lemma MissingObjectTimesOut(env: Env, job: Job, s: Server, key: Key)
    requires Leaves(env, key) && Peek(s, key) == None
    ensures var (r, s') := Await(env, s, key, true, AwaitPolls(job), TIMEOUT);
            r.GetFailed? && s' == OnlyOthers(env, s, if job.platform == OpenShift then 21 else 3)
  {
    NeverThere(env, s, key, AwaitPolls(job), TIMEOUT);
    AwaitRunsOut(env, s, key, AwaitPolls(job), TIMEOUT);
  }

  /** An object that others hold back is marked, looked at every five seconds (for one minute, or
      for two where the deleter says so), and then reported. */
  lemma HeldObjectTimesOut(env: Env, s: Server, key: Key, onError: Action, wait: nat)
    requires Leaves(env, key) && env.fault(s.calls) == Healthy
    requires Peek(s, key).Some? && Peek(s, key).value.held && wait in {0, 120}
    ensures var (r, s') := Remove(env, s, key, onError, wait);
            && r == Result(onError, Some(OtherError("timed out waiting for deletion")))
            && s' == OnlyOthers(env, DeleteCall(env, s, key).1, if wait == 120 then 25 else 13)
            && Peek(s', key) == Some(Peek(s, key).value.(deleting := true))
  {
    TickFrame(env, s, key);
    var s1 := DeleteCall(env, s, key).1;
    var polls := if wait == 120 then 25 else 13;
    PollsRunOut(env, s1, key, polls);
    OnlyOthersLeave(env, s1, polls, key);
  }

  /** So a cleanup whose Namespace is held back keeps the finalizer and is repeated after five
      seconds, whatever became of the other objects. */
  lemma HeldNamespaceDelays(env: Env, job: Job, w: World)
    requires job.deleting && Leaves(env, Key(Namespace, "", job.spec.deployment.namespace))
    requires var namespace := Peek(w.server, Key(Namespace, "", job.spec.deployment.namespace));
             namespace.Some? && namespace.value.held
    ensures Run(env, job, Reconcilers(job), w).0 == Verdict(false, FIVE_SECONDS, None)
  {
    var rs, pre := Reconcilers(job), FinalizerSafety.BeforeNamespace(job);
    var key, n := Key(Namespace, "", job.spec.deployment.namespace), |FinalizerSafety.BeforeNamespace(job)|;
    CleanupOrder(job);
    ExecFrame(env, job, pre, w, key);
    var at := Exec(env, job, pre, w);
    NamespaceIsHeld(env, job, at);
    forall j | 0 <= j < n ensures Continues(ResultAt(env, job, rs, w, j)) {
      assert rs[j] == pre[j];
      OtherDeletersContinue(env, job, pre[j], Exec(env, job, rs[..j], w));
    }
    EndsAt(env, job, rs, w, n);
  }

  lemma CleanupOrder(job: Job)
    requires job.deleting
    ensures var pre := FinalizerSafety.BeforeNamespace(job);
            && |Reconcilers(job)| > |pre| && Reconcilers(job)[..|pre|] == pre
            && Reconcilers(job)[|pre|] == Deleter(Key(Namespace, "", job.spec.deployment.namespace), Requeue, 120)
            && NoneTargets(job, pre, Key(Namespace, "", job.spec.deployment.namespace))
  {
  }

  lemma OtherDeletersContinue(env: Env, job: Job, r: Reconciler, w: World)
    requires r in FinalizerSafety.BeforeNamespace(job)
    ensures Continues(Step(env, job, r, w).0)
  {
  }

  lemma NamespaceIsHeld(env: Env, job: Job, w: World)
    requires Leaves(env, Key(Namespace, "", job.spec.deployment.namespace))
    requires var namespace := Peek(w.server, Key(Namespace, "", job.spec.deployment.namespace));
             namespace.Some? && namespace.value.held
    ensures var r := Deleter(Key(Namespace, "", job.spec.deployment.namespace), Requeue, 120);
            Step(env, job, r, w).0.Result? && Step(env, job, r, w).0.action == Requeue
  {
    var key := Key(Namespace, "", job.spec.deployment.namespace);
    if env.fault(w.server.calls) == Healthy {
      HeldObjectTimesOut(env, w.server, key, Requeue, 120);
    }
  }


  // ---- the last step --------------------------------------------------------

  const OUR_FINALIZER := "kepler.system.sustainable.computing.io/finalizer"

  /** The resource has the finalizer just when it is not being deleted. */
  predicate Settled(p: Pmi) {
    p.deleting <==> OUR_FINALIZER !in p.finalizers
  }

  /** The resource as the step wants it: with the finalizer while it lives, without it afterwards. */
  function WithFinalizer(p: Pmi): Pmi {
    p.(finalizers := if p.deleting then p.finalizers - {OUR_FINALIZER} else p.finalizers + {OUR_FINALIZER})
  }

  lemma FinalizerOutcomes(env: Env, s: Server)
    ensures var (r, s') := FinalizerStep(env, s);
            var read := Ticked(env, s).store.pmi;
            if env.fault(s.calls) != Healthy then r.Result? && r.action == Requeue
            else if read == None || Settled(read.value) then r == Result(Continue, None) && s' == Ticked(env, s)
            else
              && r.Result? && r.action == Stop && s'.calls == s.calls + 2
              && match env.fault(s.calls + 1)
                 case Failing(text) => r.error == Some(ApiError(text))
                 case Conflicting => r.error == Some(ConflictError)
                 case Healthy =>
                   env.tick(s.calls + 1, Ticked(env, s).store).pmi == read ==>
                     r.error == None && s'.store.pmi == (var next := WithFinalizer(read.value);
                       if next.deleting && next.finalizers == {} then None else Some(next))
  {
  }

  /** How the last step ends a run that did its work: a resource that cannot be read delays it by five
      seconds; one that has to be written ends it, to be repeated at once when there is nothing to
      report; one that is as it should be, or gone, adds nothing. */
  lemma FinalizerEndsRun(env: Env, job: Job, w: World)
    requires AllFine(env, job, if job.deleting then CleanupSteps(job) else UpdateSteps(job), w)
    ensures var at := Exec(env, job, if job.deleting then CleanupSteps(job) else UpdateSteps(job), w).server;
            var verdict, read := Run(env, job, Reconcilers(job), w).0, Ticked(env, at).store.pmi;
            if env.fault(at.calls) != Healthy then verdict == Verdict(false, FIVE_SECONDS, None)
            else if read == None || Settled(read.value) then verdict.Verdict? && !verdict.requeue && Clean(verdict)
            else
              match env.fault(at.calls + 1)
              case Failing(text) => verdict == Verdict(false, 0, Some(ApiError(text)))
              case Conflicting => verdict == Verdict(false, 0, Some(ConflictError))
              case Healthy =>
                env.tick(at.calls + 1, Ticked(env, at).store).pmi == read ==>
                  Clean(verdict) && (verdict.requeue <==> verdict.error.None?)
  {
    var steps := if job.deleting then CleanupSteps(job) else UpdateSteps(job);
    var at := Exec(env, job, steps, w);
    var err := RunPastFine(env, job, steps, [Finalizer], w, None);
    FinalizerOutcomes(env, at.server);
    LastStep(env, job, at, err);
  }

  lemma LastStep(env: Env, job: Job, w: World, err: Option<Error>)
    ensures var r := FinalizerStep(env, w.server).0;
            r.Result? ==>
              var e := if r.error.Some? then r.error else err;
              RunFrom(env, job, [Finalizer], w, err).0
                == if r.action == Requeue then Verdict(false, FIVE_SECONDS, None)
                   else Verdict(r.action == Stop && e.None?, 0, e)
  {
    assert [Finalizer][1..] == [];
  }
}
