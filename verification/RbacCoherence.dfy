/** The rollout and what it was made from, with RBAC. */
module RbacCoherence {
  import opened Common
  import opened Api
  import opened ClusterModel
  import opened Steps
  import opened Runner
  import opened Frames
  import opened Rollout
  import opened Coherence
  import MissingSecrets
  import Lockstep

  // ---- what the checker annotates -------------------------------------------

  function AnnotationsFor(w: World, p: Probe): map<string, string> {
    if p.onMonitor then w.monitor else w.template
  }

  predicate AllDiffer(probes: seq<Probe>) {
    forall i, j :: 0 <= i < j < |probes| ==> probes[i].annotation != probes[j].annotation
  }

  lemma {:induction false} CheckKeepsOthers(env: Env, job: Job, probes: seq<Probe>, w: World, annotation: string)
    requires forall i :: 0 <= i < |probes| ==> probes[i].annotation != annotation
    ensures var w' := CheckAll(env, job, probes, w).1;
            && Lookup(w'.template, annotation) == Lookup(w.template, annotation)
            && Lookup(w'.monitor, annotation) == Lookup(w.monitor, annotation)
    decreases |probes|
  {
    if |probes| > 0 {
      var (r, s') := Await(env, w.server, probes[0].key, true, AwaitPolls(job), TIMEOUT);
      if r.Found? {
        var w' := Annotate(job.lib, w.(server := s'), probes[0], r.item);
        assert forall i :: 0 <= i < |probes[1..]| ==> probes[1..][i] == probes[i + 1];
        CheckKeepsOthers(env, job, probes[1..], w', annotation);
      }
    }
  }

  /** A checker that continues found every object and put the hash of its content where it belongs. */
  lemma {:induction false} CheckAnnotates(env: Env, job: Job, probes: seq<Probe>, w: World, i: nat)
    requires i < |probes| && AllDiffer(probes) && Leaves(env, probes[i].key)
    requires Fine(CheckAll(env, job, probes, w).0)
    ensures var stored := Peek(w.server, probes[i].key);
            && stored.Some?
            && Lookup(AnnotationsFor(CheckAll(env, job, probes, w).1, probes[i]), probes[i].annotation)
                 == Some(ContentHash(job.lib, stored.value))
    decreases |probes|
  {
    var (r, s') := Await(env, w.server, probes[0].key, true, AwaitPolls(job), TIMEOUT);
    AwaitFrame(env, w.server, probes[0].key, true, AwaitPolls(job), TIMEOUT, probes[i].key);
    AwaitSees(env, w.server, probes[0].key, true, AwaitPolls(job), TIMEOUT);
    var w', rest := Annotate(job.lib, w.(server := s'), probes[0], r.item), probes[1..];
    assert forall j :: 0 <= j < |rest| ==> rest[j] == probes[j + 1];
    if i == 0 {
      CheckKeepsOthers(env, job, rest, w', probes[0].annotation);
    } else {
      CheckAnnotates(env, job, rest, w', i - 1);
    }
  }

  lemma ProbesDiffer(job: Job)
    ensures AllDiffer(Probes(job))
  {
    Lockstep.SecretAnnotationInjective(PROXY_CONFIG_SECRET, TLS_CERT_SECRET);
    MonitorAnnotationsAreApart(PROXY_CONFIG_SECRET);
    MonitorAnnotationsAreApart(TLS_CERT_SECRET);
    var at := |"powermonitor.sustainable.computing.io/"|;
    assert (CA_BUNDLE_HASH + "-" + CA_BUNDLE_CONFIG_MAP)[at] == CA_BUNDLE_HASH[at] == 'c';
    assert (SECRET_TOKEN_HASH + "-" + UWM_TOKEN_SECRET)[at] == SECRET_TOKEN_HASH[at] == 's';
  }

  // ---- the checker in a run -------------------------------------------------

  function BeforeChecker(job: Job): seq<Reconciler> {
    BeforeWorkload(job) + [Deployer]
  }

  function AfterChecker(job: Job): seq<Reconciler> {
    [DaemonSetUpdater, MonitorStep] + Dashboards(job)
  }

  lemma CheckerShape(job: Job)
    ensures UpdateSteps(job) == BeforeChecker(job) + [ObjectsChecker] + AfterChecker(job)
    ensures BeforeChecker(job) + [ObjectsChecker] == BeforeWorkload(job) + [Deployer, ObjectsChecker]
  {
  }

  lemma ProbesAreLeftAlone(job: Job, i: nat)
    requires i < |Probes(job)|
    ensures NoneTargets(job, [ObjectsChecker] + AfterChecker(job), Probes(job)[i].key)
  {
    assert i == 0 || i == 1 || i == 2 || i == 3;
  }

  /** In a run that did its work the checker did its, on objects that stay as it saw them. */
  lemma CheckerInRun(env: Env, job: Job, w: World)
    requires AllFine(env, job, UpdateSteps(job), w)
    ensures AllFine(env, job, BeforeChecker(job), w)
    ensures Fine(Step(env, job, ObjectsChecker, Exec(env, job, BeforeChecker(job), w)).0)
    ensures Exec(env, job, BeforeWorkload(job) + [Deployer, ObjectsChecker], w)
         == Step(env, job, ObjectsChecker, Exec(env, job, BeforeChecker(job), w)).1
  {
    CheckerShape(job);
    MissingSecrets.SplitAround(env, job, BeforeChecker(job), ObjectsChecker, AfterChecker(job), w);
    ExecLast(env, job, BeforeChecker(job), ObjectsChecker, w);
  }

  lemma SeenByCheckerIsStored(env: Env, job: Job, w: World, key: Key)
    requires !job.deleting && AllFine(env, job, UpdateSteps(job), w) && Leaves(env, key)
    requires NoneTargets(job, [ObjectsChecker] + AfterChecker(job), key)
    ensures Peek(EndOf(env, job, w), key) == Peek(Exec(env, job, BeforeChecker(job), w).server, key)
  {
    var pre, post := BeforeChecker(job), [ObjectsChecker] + AfterChecker(job);
    CheckerShape(job);
    assert UpdateSteps(job) == pre + post;
    ExecSplits(env, job, pre, post, w);
    ExecFrame(env, job, post, Exec(env, job, pre, w), key);
    EndIsEndOfSteps(env, job, w, key);
  }

  /** The checker's work, by stored objects. */
  lemma CheckedInRun(env: Env, job: Job, w: World, i: nat)
    requires !job.deleting && EnableRBAC(job.spec) && AllFine(env, job, UpdateSteps(job), w)
    requires i < |Probes(job)| && Leaves(env, Probes(job)[i].key)
    ensures var p := Probes(job)[i];
            var checked := Exec(env, job, BeforeWorkload(job) + [Deployer, ObjectsChecker], w);
            var stored := Peek(EndOf(env, job, w), p.key);
            && stored.Some?
            && Lookup(AnnotationsFor(checked, p), p.annotation) == Some(ContentHash(job.lib, stored.value))
  {
    var at := Exec(env, job, BeforeChecker(job), w);
    CheckerInRun(env, job, w);
    ProbesDiffer(job);
    ProbesAreLeftAlone(job, i);
    SeenByCheckerIsStored(env, job, w, Probes(job)[i].key);
    CheckerChecks(env, job, at);
    CheckAnnotates(env, job, Probes(job), at, i);
  }

  lemma CheckerChecks(env: Env, job: Job, w: World)
    requires EnableRBAC(job.spec)
    ensures Step(env, job, ObjectsChecker, w) == CheckAll(env, job, Probes(job), w)
  {
  }

  // ---- the stored DaemonSet and ServiceMonitor ------------------------------

  lemma MonitorFromChecker(env: Env, job: Job, w: World)
    requires !job.deleting && EnableRBAC(job.spec) && EnableUWM(job.spec) && AllFine(env, job, UpdateSteps(job), w)
    requires Leaves(env, MonitorKey(job))
    ensures var monitor := Peek(EndOf(env, job, w), MonitorKey(job));
            && monitor.Some?
            && monitor.value.applied.maps.annotations
                 == Exec(env, job, BeforeWorkload(job) + [Deployer, ObjectsChecker], w).monitor
  {
    var checked := BeforeWorkload(job) + [Deployer, ObjectsChecker];
    var pre := BeforeWorkload(job) + [Deployer, ObjectsChecker, DaemonSetUpdater];
    MonitorIsSettled(job);
    EndsAsLastWritten(env, job, pre, MonitorStep, Dashboards(job), w, MonitorKey(job));
    assert pre == checked + [DaemonSetUpdater];
    ExecLast(env, job, checked, DaemonSetUpdater, w);
    MonitorApplied(env, job, Exec(env, job, pre, w));
  }

  lemma MonitorApplied(env: Env, job: Job, w: World)
    requires EnableRBAC(job.spec) && EnableUWM(job.spec) && Leaves(env, MonitorKey(job))
    requires Fine(Step(env, job, MonitorStep, w).0)
    ensures var monitor := Peek(Step(env, job, MonitorStep, w).1.server, MonitorKey(job));
            monitor.Some? && monitor.value.applied.maps.annotations == w.monitor
  {
    UpdateSettles(env, w.server, MonitorKey(job), MonitorFields(job, w.monitor), Continue);
  }

  /** Where a probe's hash is kept. */
  function Holder(job: Job, p: Probe): Key {
    if p.onMonitor then MonitorKey(job) else DaemonSetKey(job)
  }

  function HeldAnnotations(p: Probe, o: Object): map<string, string> {
    if p.onMonitor then o.applied.maps.annotations else o.applied.maps.template
  }

  /** With RBAC: after an update run whose steps did their work the DaemonSet carries the hashes of
      the stored proxy configuration and TLS Secrets and, with user-workload monitoring, the
      ServiceMonitor those of the stored CA bundle and token. */
  lemma RbacHashCoherence(env: Env, job: Job, w: World, i: nat)
    requires !job.deleting && EnableRBAC(job.spec) && Quiet(env) && AllFine(env, job, UpdateSteps(job), w)
    requires i < |Probes(job)|
    ensures var p, end := Probes(job)[i], EndOf(env, job, w);
            var holder, stored := Peek(end, Holder(job, p)), Peek(end, p.key);
            && holder.Some? && stored.Some?
            && Lookup(HeldAnnotations(p, holder.value), p.annotation) == Some(ContentHash(job.lib, stored.value))
  {
    var p := Probes(job)[i];
    QuietLeaves(env, p.key);
    CheckedInRun(env, job, w, i);
    if p.onMonitor {
      QuietLeaves(env, MonitorKey(job));
      MonitorFromChecker(env, job, w);
    } else {
      MissingSecrets.DaemonSetEnds(env, job, w);
    }
  }

  // ---- the other referenced Secrets -----------------------------------------

  lemma DeployerAnnotates(env: Env, job: Job, w: World, annotation: string)
    requires annotation != ConfigAnnotation(job.name)
    ensures Lookup(Deploy(env, job, w).1.template, annotation) == Lookup(w.template, annotation)
  {
  }

  lemma HashAtChecker(env: Env, job: Job, w: World, name: string)
    ensures Lookup(Exec(env, job, BeforeChecker(job), w).template, SecretAnnotation(name))
         == Lookup(Exec(env, job, BeforeWorkload(job), w).template, SecretAnnotation(name))
  {
    var before := Exec(env, job, BeforeWorkload(job), w);
    ExecLast(env, job, BeforeWorkload(job), Deployer, w);
    ConfigAnnotationIsApart(job.name, name);
    DeployerDeploys(env, job, before);
    DeployerAnnotates(env, job, before, SecretAnnotation(name));
  }

  lemma CheckerSparesOthers(env: Env, job: Job, w: World, name: string)
    requires name != PROXY_CONFIG_SECRET && name != TLS_CERT_SECRET
    ensures Lookup(Step(env, job, ObjectsChecker, w).1.template, SecretAnnotation(name))
         == Lookup(w.template, SecretAnnotation(name))
  {
    Lockstep.SecretAnnotationInjective(PROXY_CONFIG_SECRET, name);
    Lockstep.SecretAnnotationInjective(TLS_CERT_SECRET, name);
    MonitorAnnotationsAreApart(name);
    if EnableRBAC(job.spec) {
      CheckKeepsOthers(env, job, Probes(job), w, SecretAnnotation(name));
    }
  }

  lemma UncheckedHash(env: Env, job: Job, w: World, name: string)
    requires AllFine(env, job, UpdateSteps(job), w)
    requires name != PROXY_CONFIG_SECRET && name != TLS_CERT_SECRET
    ensures Lookup(Exec(env, job, BeforeWorkload(job) + [Deployer, ObjectsChecker], w).template, SecretAnnotation(name))
         == Lookup(Exec(env, job, BeforeWorkload(job), w).template, SecretAnnotation(name))
  {
    CheckerInRun(env, job, w);
    HashAtChecker(env, job, w, name);
    CheckerSparesOthers(env, job, Exec(env, job, BeforeChecker(job), w), name);
  }

  lemma MountedHashAtDeployer(env: Env, job: Job, w: World, i: nat)
    requires !job.deleting && AllFine(env, job, UpdateSteps(job), w) && Quiet(env) && w.template == map[]
    requires i < |job.spec.deployment.secrets|
    ensures var name := job.spec.deployment.secrets[i].name;
            var stored := Peek(w.server, Key(Secret, Ns(job), name));
            Lookup(Exec(env, job, BeforeWorkload(job), w).template, SecretAnnotation(name))
              == if stored.Some? then Some(ContentHash(job.lib, stored.value)) else None
  {
    var names := SecretNames(job.spec.deployment.secrets);
    CheckerShape(job);
    AllFineSplits(env, job, BeforeWorkload(job), [Deployer, ObjectsChecker] + AfterChecker(job), w);
    assert UpdateSteps(job) == BeforeWorkload(job) + ([Deployer, ObjectsChecker] + AfterChecker(job));
    QuietLeavesInputs(env, job);
    TemplateAtDeployer(env, job, w);
    SecretHashesMeaning(job, w.server.store.objects, names);
    assert names[i] == job.spec.deployment.secrets[i].name;
  }

  lemma QuietLeavesInputs(env: Env, job: Job)
    requires Quiet(env)
    ensures LeavesInputs(env, job)
  {
    forall key: Key ensures Leaves(env, key) {
      QuietLeaves(env, key);
    }
  }

  /** With RBAC, too, every referenced Secret that is not the token ends with the DaemonSet
      carrying the hash of its stored content, or none when it is not stored. */
  lemma RbacSecretHashes(env: Env, job: Job, w: World, i: nat)
    requires !job.deleting && EnableRBAC(job.spec) && Quiet(env) && AllFine(env, job, UpdateSteps(job), w)
    requires w.template == map[]
    requires i < |job.spec.deployment.secrets| && job.spec.deployment.secrets[i].name != UWM_TOKEN_SECRET
    ensures var name, end := job.spec.deployment.secrets[i].name, EndOf(env, job, w);
            var ds, stored := Peek(end, DaemonSetKey(job)), Peek(end, Key(Secret, Ns(job), name));
            && ds.Some?
            && Lookup(ds.value.applied.maps.template, SecretAnnotation(name))
                 == if stored.Some? then Some(ContentHash(job.lib, stored.value)) else None
  {
    var name := job.spec.deployment.secrets[i].name;
    if name == PROXY_CONFIG_SECRET {
      RbacHashCoherence(env, job, w, 0);
    } else if name == TLS_CERT_SECRET {
      RbacHashCoherence(env, job, w, 1);
    } else {
      QuietLeaves(env, Key(Secret, Ns(job), name));
      SecretOutlastsRun(env, job, w, name);
      MountedHashAtDeployer(env, job, w, i);
      UncheckedHash(env, job, w, name);
      MissingSecrets.DaemonSetEnds(env, job, w);
    }
  }

  // ---- the one Secret that blocks -------------------------------------------

  lemma RbacNeedsTls(env: Env, job: Job, w: World)
    requires !job.deleting && EnableRBAC(job.spec) && AllFine(env, job, UpdateSteps(job), w) && Leaves(env, TlsKey(job))
    ensures Peek(w.server, TlsKey(job)).Some?
  {
    CheckedInRun(env, job, w, 1);
    SecretOutlastsRun(env, job, w, TLS_CERT_SECRET);
  }

  /** With RBAC the TLS Secret blocks the rollout when it is missing, referenced or not: no run
      without it does its work. */
  lemma MissingTlsBlocks(env: Env, job: Job, w: World)
    requires !job.deleting && EnableRBAC(job.spec) && Leaves(env, TlsKey(job)) && Peek(w.server, TlsKey(job)) == None
    ensures !AllFine(env, job, UpdateSteps(job), w)
  {
    if AllFine(env, job, UpdateSteps(job), w) {
      RbacNeedsTls(env, job, w);
    }
  }
}
