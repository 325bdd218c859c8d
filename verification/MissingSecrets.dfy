/** Missing referenced Secrets are reported but never hold up the rollout. */
module MissingSecrets {
  import opened Common
  import opened Api
  import opened ClusterModel
  import opened Steps
  import opened Runner
  import opened Frames
  import opened Rollout
  import opened Lockstep
  import Coherence

  // ---- the error of a run ---------------------------------------------------

  lemma {:induction false} AwaitErrors(env: Env, s: Server, key: Key, required: bool, attempts: nat, last: Error)
    requires !last.SecretNotFound?
    ensures var r := Await(env, s, key, required, attempts, last).0; r.GetFailed? ==> !r.error.SecretNotFound?
    decreases attempts
  {
    if attempts > 0 {
      var (r, s') := GetCall(env, s, key);
      var e := if r.GetFailed? then r.error else OtherError("missing " + key.name);
      AwaitErrors(env, s', key, required, attempts - 1, e);
    }
  }

  lemma {:induction false} CheckErrors(env: Env, job: Job, probes: seq<Probe>, w: World)
    ensures Fine(CheckAll(env, job, probes, w).0) ==> CheckAll(env, job, probes, w).0 == OK
    decreases |probes|
  {
    if |probes| > 0 {
      var (r, s') := Await(env, w.server, probes[0].key, true, AwaitPolls(job), TIMEOUT);
      if r.Found? {
        CheckErrors(env, job, probes[1..], Annotate(job.lib, w.(server := s'), probes[0], r.item));
      }
    }
  }

  /** Only the mounter reports missing Secrets; any other fine step reports nothing. */
  lemma OnlyMounterReports(env: Env, job: Job, r: Reconciler, w: World)
    requires r != SecretMounter && Fine(Step(env, job, r, w).0)
    ensures Step(env, job, r, w).0 == OK
  {
    if r == ObjectsChecker {
      CheckErrors(env, job, Probes(job), w);
    }
  }

  lemma {:induction false} RunPastSilent(env: Env, job: Job, a: seq<Reconciler>, b: seq<Reconciler>, w: World,
                                         err: Option<Error>)
    requires AllFine(env, job, a, w) && SecretMounter !in a
    ensures RunFrom(env, job, a + b, w, err) == RunFrom(env, job, b, Exec(env, job, a, w), err)
    decreases |a|
  {
    if |a| == 0 {
      assert a + b == b;
    } else {
      assert (a + b)[1..] == a[1..] + b;
      OnlyMounterReports(env, job, a[0], w);
      RunPastSilent(env, job, a[1..], b, Step(env, job, a[0], w).1, err);
    }
  }

  function AfterMount(job: Job): seq<Reconciler> {
    ClusterScoped(job) + Security() + Namespaced(job) + Workload() + Dashboards(job)
  }

  lemma UpdateShape(job: Job)
    ensures UpdateSteps(job) == Coherence.FirstStep(job) + [SecretMounter] + AfterMount(job)
    ensures UpdateSteps(job) + [Finalizer]
         == Coherence.FirstStep(job) + ([SecretMounter] + (AfterMount(job) + [Finalizer]))
    ensures SecretMounter !in AfterMount(job) && Finalizer !in AfterMount(job)
  {
  }

  ghost function MissingError(job: Job, objects: Objects): Option<Error> {
    var missing := MissingNames(job, objects, SecretNames(job.spec.deployment.secrets));
    if missing == [] then None else Some(SecretNotFound(missing, Ns(job)))
  }

  lemma MountedAfterFirst(env: Env, job: Job, w: World)
    requires LeavesSecrets(env, job, SecretNames(job.spec.deployment.secrets))
    requires Fine(Step(env, job, SecretMounter, Exec(env, job, Coherence.FirstStep(job), w)).0)
    ensures Step(env, job, SecretMounter, Exec(env, job, Coherence.FirstStep(job), w)).0
         == Result(Continue, MissingError(job, w.server.store.objects))
  {
    var names := SecretNames(job.spec.deployment.secrets);
    var first := Coherence.FirstStep(job);
    var w1 := Exec(env, job, first, w);
    forall i | 0 <= i < |names|
      ensures Lookup(w1.server.store.objects, Key(Secret, Ns(job), names[i]))
           == Lookup(w.server.store.objects, Key(Secret, Ns(job), names[i]))
    {
      ExecFrame(env, job, first, w, Key(Secret, Ns(job), names[i]));
    }
    AgreementDecides(job, w1.server.store.objects, w.server.store.objects, names);
    MountReports(env, job, w1.server, names, w1.template, []);
    var all := MissingNames(job, w.server.store.objects, names);
    assert [] + all == all;
  }

  /** An update run whose steps did their work reaches the finalizer with exactly one error:
      the referenced Secrets missing at the start, in order, if there are any. */
  lemma RunReportsMissing(env: Env, job: Job, w: World)
    requires !job.deleting && AllFine(env, job, UpdateSteps(job), w)
    requires LeavesSecrets(env, job, SecretNames(job.spec.deployment.secrets))
    ensures Run(env, job, Reconcilers(job), w)
         == RunFrom(env, job, [Finalizer], Exec(env, job, UpdateSteps(job), w),
                    MissingError(job, w.server.store.objects))
  {
    var first, rest := Coherence.FirstStep(job), AfterMount(job);
    UpdateShape(job);
    var w1 := Exec(env, job, first, w);
    assert first + [SecretMounter] + rest == first + ([SecretMounter] + rest);
    AllFineSplits(env, job, first, [SecretMounter] + rest, w);
    ExecSplits(env, job, first, [SecretMounter] + rest, w);
    assert ([SecretMounter] + rest)[1..] == rest;
    MountedAfterFirst(env, job, w);
    RunPastSilent(env, job, first, [SecretMounter] + (rest + [Finalizer]), w, None);
    assert ([SecretMounter] + (rest + [Finalizer]))[1..] == rest + [Finalizer];
    RunPastSilent(env, job, rest, [Finalizer], Step(env, job, SecretMounter, w1).1,
                  MissingError(job, w.server.store.objects));
  }

  // ---- with and without the Secrets -----------------------------------------

  /** The two clusters differ in nothing but the lost Secrets, which are the references that the
      first one lacks; the second one has every reference. */
  ghost predicate Without(job: Job, lost: set<string>, a: World, b: World) {
    var names := SecretNames(job.spec.deployment.secrets);
    && a.server.calls == b.server.calls && a.template == b.template == map[] && a.monitor == b.monitor
    && (forall n :: n in lost ==> n in names)
    && (forall i :: 0 <= i < |names| ==>
          && (names[i] in lost <==> Peek(a.server, Key(Secret, Ns(job), names[i])) == None)
          && Peek(b.server, Key(Secret, Ns(job), names[i])).Some?)
    && (forall key :: !IsLost(job, lost, key) ==> Peek(a.server, key) == Peek(b.server, key))
  }

  predicate IsLost(job: Job, lost: set<string>, key: Key) {
    key.kind == Secret && key.ns == Ns(job) && key.name in lost
  }

  ghost function Others(job: Job, lost: set<string>): iset<Key> {
    iset key: Key | key != DaemonSetKey(job) && !IsLost(job, lost, key)
  }

  /** With RBAC the run itself needs the TLS Secret and writes the proxy's, and with user-workload
      monitoring the token; without RBAC every reference can be spared. */
  predicate Spares(job: Job, lost: set<string>) {
    && (EnableRBAC(job.spec) ==> PROXY_CONFIG_SECRET !in lost && TLS_CERT_SECRET !in lost)
    && (EnableRBAC(job.spec) && EnableUWM(job.spec) ==> UWM_TOKEN_SECRET !in lost)
  }

  lemma AnnotationsNotHidden(job: Job, lost: set<string>)
    requires Spares(job, lost)
    ensures forall annotation :: Annotates(job, annotation) ==> annotation !in Hidden(lost)
  {
    forall annotation, n | Annotates(job, annotation) && n in lost ensures annotation != SecretAnnotation(n) {
      Coherence.ConfigAnnotationIsApart(job.name, n);
      SecretAnnotationInjective(PROXY_CONFIG_SECRET, n);
      SecretAnnotationInjective(TLS_CERT_SECRET, n);
      Coherence.MonitorAnnotationsAreApart(n);
      if annotation != ConfigAnnotation(job.name) {
        var i :| 0 <= i < |Probes(job)| && Probes(job)[i].annotation == annotation;
        assert i == 0 || i == 1 || i == 2 || i == 3;
      }
    }
  }

  lemma ListsAreFollowed(job: Job, lost: set<string>)
    requires Spares(job, lost)
    ensures CanFollow(job, Coherence.FirstStep(job), Others(job, lost))
    ensures CanFollow(job, ClusterScoped(job), Others(job, lost))
    ensures CanFollow(job, AfterSecurity(job), Others(job, lost))
  {
    forall r, key | r in AfterSecurity(job) && Reads(job, r, key) ensures key in Others(job, lost) {
      if r == ObjectsChecker {
        var i :| 0 <= i < |Probes(job)| && Probes(job)[i].key == key;
        assert i == 0 || i == 1 || i == 2 || i == 3;
      }
      assert !IsLost(job, lost, key) && key != DaemonSetKey(job);
    }
  }

  // ---- the security steps ---------------------------------------------------

  /** The lost Secrets are absent from the first cluster, and the mode lets them be. */
  ghost predicate Lost(job: Job, lost: set<string>, a: World) {
    && Spares(job, lost)
    && forall n :: n in lost ==> Peek(a.server, Key(Secret, Ns(job), n)) == None
  }

  lemma SecurityStepInStep(env: Env, job: Job, r: Reconciler, lost: set<string>, a: World, b: World)
    requires Quiet(env) && InStep(Others(job, lost), Hidden(lost), a, b) && Lost(job, lost, a)
    requires r in Security() && Fine(Step(env, job, r, b).0)
    ensures Step(env, job, r, a).0 == Step(env, job, r, b).0
    ensures InStep(Others(job, lost), Hidden(lost), Step(env, job, r, a).1, Step(env, job, r, b).1)
  {
    AnnotationsNotHidden(job, lost);
    var key := Target(job, r).value;
    if IsLost(job, lost, key) {
      assert key == Key(Secret, Ns(job), key.name);
      LostStepInStep(env, job, r, Others(job, lost), Hidden(lost), a, b);
    } else {
      StepInStep(env, job, r, Others(job, lost), Hidden(lost), a, b);
    }
  }

  lemma StaysLost(env: Env, job: Job, rs: seq<Reconciler>, lost: set<string>, a: World)
    requires Quiet(env) && Lost(job, lost, a)
    requires forall n :: n in lost ==> NoneTargets(job, rs, Key(Secret, Ns(job), n))
    ensures Lost(job, lost, Exec(env, job, rs, a))
  {
    forall n | n in lost ensures Peek(Exec(env, job, rs, a).server, Key(Secret, Ns(job), n)) == None {
      QuietLeaves(env, Key(Secret, Ns(job), n));
      ExecFrame(env, job, rs, a, Key(Secret, Ns(job), n));
    }
  }

  /** A security step leaves what was lost absent: its own object it removes. */
  lemma SecurityStaysLost(env: Env, job: Job, r: Reconciler, lost: set<string>, a: World)
    requires Quiet(env) && Lost(job, lost, a) && r in Security() && Fine(Step(env, job, r, a).0)
    ensures Lost(job, lost, Step(env, job, r, a).1)
  {
    forall n | n in lost ensures Peek(Step(env, job, r, a).1.server, Key(Secret, Ns(job), n)) == None {
      var key := Key(Secret, Ns(job), n);
      QuietLeaves(env, key);
      if Target(job, r) == Some(key) {
        RemoveSettles(env, a.server, key, Continue, 0);
      } else {
        StepFrame(env, job, r, a, key);
      }
    }
  }

  lemma {:induction false} SecurityInStep(env: Env, job: Job, rs: seq<Reconciler>, lost: set<string>, a: World,
                                          b: World)
    requires Quiet(env) && InStep(Others(job, lost), Hidden(lost), a, b) && Lost(job, lost, a)
    requires (forall r :: r in rs ==> r in Security()) && AllFine(env, job, rs, b)
    ensures AllFine(env, job, rs, a)
    ensures InStep(Others(job, lost), Hidden(lost), Exec(env, job, rs, a), Exec(env, job, rs, b))
    decreases |rs|
  {
    if |rs| > 0 {
      assert rs[0] in rs;
      SecurityStepInStep(env, job, rs[0], lost, a, b);
      SecurityStaysLost(env, job, rs[0], lost, a);
      SecurityInStep(env, job, rs[1..], lost, Step(env, job, rs[0], a).1, Step(env, job, rs[0], b).1);
    }
  }

  // ---- whole runs -----------------------------------------------------------

  lemma AfterMountInStep(env: Env, job: Job, lost: set<string>, a: World, b: World)
    requires Quiet(env) && InStep(Others(job, lost), Hidden(lost), a, b) && Lost(job, lost, a)
    requires AllFine(env, job, AfterMount(job), b)
    ensures AllFine(env, job, AfterMount(job), a)
    ensures InStep(Others(job, lost), Hidden(lost), Exec(env, job, AfterMount(job), a),
                   Exec(env, job, AfterMount(job), b))
  {
    var cluster, security, rest := ClusterScoped(job), Security(), AfterSecurity(job);
    ListsAreFollowed(job, lost);
    AnnotationsNotHidden(job, lost);
    assert AfterMount(job) == cluster + (security + rest);
    AllFineSplits(env, job, cluster, security + rest, a);
    AllFineSplits(env, job, cluster, security + rest, b);
    ExecSplits(env, job, cluster, security + rest, a);
    ExecSplits(env, job, cluster, security + rest, b);
    ExecInStep(env, job, cluster, Others(job, lost), Hidden(lost), a, b);
    ClusterScopedSparesSecrets(job);
    StaysLost(env, job, cluster, lost, a);
    FromSecurityInStep(env, job, lost, Exec(env, job, cluster, a), Exec(env, job, cluster, b));
  }

  lemma ClusterScopedSparesSecrets(job: Job)
    ensures forall n :: NoneTargets(job, ClusterScoped(job), Key(Secret, Ns(job), n))
    ensures forall n :: NoneTargets(job, Coherence.FirstStep(job) + [SecretMounter], Key(Secret, Ns(job), n))
  {
  }

  lemma FromSecurityInStep(env: Env, job: Job, lost: set<string>, a: World, b: World)
    requires Quiet(env) && InStep(Others(job, lost), Hidden(lost), a, b) && Lost(job, lost, a)
    requires AllFine(env, job, Security() + AfterSecurity(job), b)
    ensures AllFine(env, job, Security() + AfterSecurity(job), a)
    ensures InStep(Others(job, lost), Hidden(lost), Exec(env, job, Security() + AfterSecurity(job), a),
                   Exec(env, job, Security() + AfterSecurity(job), b))
  {
    var security, rest := Security(), AfterSecurity(job);
    ListsAreFollowed(job, lost);
    AnnotationsNotHidden(job, lost);
    AllFineSplits(env, job, security, rest, a);
    AllFineSplits(env, job, security, rest, b);
    ExecSplits(env, job, security, rest, a);
    ExecSplits(env, job, security, rest, b);
    SecurityInStep(env, job, security, lost, a, b);
    ExecInStep(env, job, rest, Others(job, lost), Hidden(lost), Exec(env, job, security, a),
               Exec(env, job, security, b));
  }

  lemma UntilMountInStep(env: Env, job: Job, lost: set<string>, a: World, b: World)
    requires Quiet(env) && Without(job, lost, a, b) && Spares(job, lost)
    ensures var shared, hidden, first := Others(job, lost), Hidden(lost), Coherence.FirstStep(job);
            var a1, b1 := Exec(env, job, first, a), Exec(env, job, first, b);
            && (AllFine(env, job, first, a) <==> AllFine(env, job, first, b))
            && (Fine(Step(env, job, SecretMounter, a1).0) <==> Fine(Step(env, job, SecretMounter, b1).0))
            && InStep(shared, hidden, Step(env, job, SecretMounter, a1).1, Step(env, job, SecretMounter, b1).1)
  {
    var shared, hidden := Others(job, lost), Hidden(lost);
    var first, names := Coherence.FirstStep(job), SecretNames(job.spec.deployment.secrets);
    ListsAreFollowed(job, lost);
    AnnotationsNotHidden(job, lost);
    assert InStep(shared, hidden, a, b);
    ExecInStep(env, job, first, shared, hidden, a, b);
    var a1, b1 := Exec(env, job, first, a), Exec(env, job, first, b);
    forall i | 0 <= i < |names|
      ensures if names[i] in lost then Peek(a1.server, Key(Secret, Ns(job), names[i])) == None
              else Key(Secret, Ns(job), names[i]) in shared
    {
      var key := Key(Secret, Ns(job), names[i]);
      QuietLeaves(env, key);
      ExecFrame(env, job, first, a, key);
      assert key != DaemonSetKey(job) && (IsLost(job, lost, key) <==> names[i] in lost);
    }
    MountInStep(env, job, shared, lost, a1.server, b1.server, names, a1.template, b1.template, [], []);
  }

  lemma LostAfterMount(env: Env, job: Job, lost: set<string>, a: World, b: World)
    requires Quiet(env) && Without(job, lost, a, b) && Spares(job, lost)
    ensures Lost(job, lost, Step(env, job, SecretMounter, Exec(env, job, Coherence.FirstStep(job), a)).1)
  {
    var first, names := Coherence.FirstStep(job), SecretNames(job.spec.deployment.secrets);
    forall n | n in lost ensures Peek(a.server, Key(Secret, Ns(job), n)) == None {
      var i :| 0 <= i < |names| && names[i] == n;
    }
    ClusterScopedSparesSecrets(job);
    StaysLost(env, job, first + [SecretMounter], lost, a);
    ExecSplits(env, job, first, [SecretMounter], a);
    assert [SecretMounter][1..] == [];
  }

  /** If the run with all Secrets does its work, so does the run without the lost ones, in step. */
  lemma RunInStep(env: Env, job: Job, lost: set<string>, a: World, b: World)
    requires Quiet(env) && Without(job, lost, a, b) && Spares(job, lost)
    requires AllFine(env, job, UpdateSteps(job), b)
    ensures AllFine(env, job, UpdateSteps(job), a)
    ensures InStep(Others(job, lost), Hidden(lost), Exec(env, job, UpdateSteps(job), a),
                   Exec(env, job, UpdateSteps(job), b))
  {
    SplitAtMount(env, job, a);
    SplitAtMount(env, job, b);
    UntilMountInStep(env, job, lost, a, b);
    LostAfterMount(env, job, lost, a, b);
    var first := Coherence.FirstStep(job);
    AfterMountInStep(env, job, lost, Step(env, job, SecretMounter, Exec(env, job, first, a)).1,
                     Step(env, job, SecretMounter, Exec(env, job, first, b)).1);
  }

  lemma SplitAtMount(env: Env, job: Job, w: World)
    ensures var w1 := Exec(env, job, Coherence.FirstStep(job), w);
            var w2 := Step(env, job, SecretMounter, w1).1;
            && Exec(env, job, UpdateSteps(job), w) == Exec(env, job, AfterMount(job), w2)
            && (AllFine(env, job, UpdateSteps(job), w) <==>
                  && AllFine(env, job, Coherence.FirstStep(job), w)
                  && Fine(Step(env, job, SecretMounter, w1).0)
                  && AllFine(env, job, AfterMount(job), w2))
  {
    UpdateShape(job);
    SplitAround(env, job, Coherence.FirstStep(job), SecretMounter, AfterMount(job), w);
  }

  lemma SplitAround(env: Env, job: Job, first: seq<Reconciler>, r: Reconciler, rest: seq<Reconciler>, w: World)
    ensures var w1 := Exec(env, job, first, w);
            var w2 := Step(env, job, r, w1).1;
            && Exec(env, job, first + [r] + rest, w) == Exec(env, job, rest, w2)
            && (AllFine(env, job, first + [r] + rest, w) <==>
                  AllFine(env, job, first, w) && Fine(Step(env, job, r, w1).0) && AllFine(env, job, rest, w2))
  {
    assert first + [r] + rest == first + ([r] + rest);
    ExecSplits(env, job, first, [r] + rest, w);
    AllFineSplits(env, job, first, [r] + rest, w);
    assert ([r] + rest)[1..] == rest;
  }

  lemma BeforeDaemonSetInStep(env: Env, job: Job, lost: set<string>, a: World, b: World)
    requires Quiet(env) && Without(job, lost, a, b) && Spares(job, lost) && AllFine(env, job, UpdateSteps(job), b)
    ensures var pre := BeforeWorkload(job) + [Deployer, ObjectsChecker];
            Exec(env, job, pre, a).template == Exec(env, job, pre, b).template - Hidden(lost)
  {
    // the steps after the DaemonSet's do not touch the template
    RunInStep(env, job, lost, a, b);
    TemplateAtEnd(env, job, a);
    TemplateAtEnd(env, job, b);
  }

  lemma TemplateAtEnd(env: Env, job: Job, w: World)
    ensures Exec(env, job, UpdateSteps(job), w).template
         == Exec(env, job, BeforeWorkload(job) + [Deployer, ObjectsChecker], w).template
  {
    var pre := BeforeWorkload(job) + [Deployer, ObjectsChecker];
    var post := [DaemonSetUpdater, MonitorStep] + Dashboards(job);
    assert UpdateSteps(job) == pre + post;
    ExecSplits(env, job, pre, post, w);
    TemplateFrame(env, job, post, Exec(env, job, pre, w));
  }

  lemma DaemonSetEnds(env: Env, job: Job, w: World)
    requires !job.deleting && AllFine(env, job, UpdateSteps(job), w) && Quiet(env)
    ensures Peek(EndOf(env, job, w), DaemonSetKey(job)) == Some(Applied(DaemonSet, Peek(w.server, DaemonSetKey(job)),
              DaemonSetFields(job, Exec(env, job, BeforeWorkload(job) + [Deployer, ObjectsChecker], w).template)))
  {
    var pre := BeforeWorkload(job) + [Deployer, ObjectsChecker];
    QuietLeaves(env, DaemonSetKey(job));
    DaemonSetIsSettled(job);
    EndsAsLastWritten(env, job, pre, DaemonSetUpdater, [MonitorStep] + Dashboards(job), w, DaemonSetKey(job));
    Coherence.DaemonSetNotBefore(job);
    ExecFrame(env, job, pre, w, DaemonSetKey(job));
    var atDs := Exec(env, job, pre, w);
    UpdateSettles(env, atDs.server, DaemonSetKey(job), DaemonSetFields(job, atDs.template), Continue);
  }

  /** For any subset of missing references that the mode can spare (without RBAC any at all): if
      the run would do its work with all Secrets present, it does so without them; every object
      but the lost Secrets and the DaemonSet ends the same; and the two DaemonSets are applied
      from one template, less exactly the hash annotations of the lost Secrets. */
  lemma MissingSecretsNeverBlock(env: Env, job: Job, lost: set<string>, a: World, b: World)
    requires !job.deleting && Quiet(env) && Without(job, lost, a, b) && Spares(job, lost)
    requires AllFine(env, job, UpdateSteps(job), b)
    ensures AllFine(env, job, UpdateSteps(job), a)
    ensures forall key :: key != DaemonSetKey(job) && !IsLost(job, lost, key) ==>
              Peek(EndOf(env, job, a), key) == Peek(EndOf(env, job, b), key)
    ensures exists template: map<string, string> ::
              && Peek(EndOf(env, job, b), DaemonSetKey(job))
                   == Some(Applied(DaemonSet, Peek(b.server, DaemonSetKey(job)), DaemonSetFields(job, template)))
              && Peek(EndOf(env, job, a), DaemonSetKey(job))
                   == Some(Applied(DaemonSet, Peek(b.server, DaemonSetKey(job)),
                                   DaemonSetFields(job, template - Hidden(lost))))
  {
    RunInStep(env, job, lost, a, b);
    forall key | key != DaemonSetKey(job) && !IsLost(job, lost, key)
      ensures Peek(EndOf(env, job, a), key) == Peek(EndOf(env, job, b), key)
    {
      QuietLeaves(env, key);
      EndIsEndOfSteps(env, job, a, key);
      EndIsEndOfSteps(env, job, b, key);
      assert key in Others(job, lost);
    }
    BeforeDaemonSetInStep(env, job, lost, a, b);
    DaemonSetEnds(env, job, a);
    DaemonSetEnds(env, job, b);
    assert !IsLost(job, lost, DaemonSetKey(job));
  }
}
