/** Once a reconcile has done its work, the next ones find nothing to do. */
module Convergence {
  import opened Common
  import opened Api
  import opened ClusterModel
  import opened Steps
  import opened Runner
  import opened Frames
  import opened Rollout
  import opened MissingSecrets
  import opened Repeat
  import opened Order
  import opened Progress
  import opened ResourceFrames
  import opened Conditions
  import opened Controller
  import StatusProtocol
  import Coherence

  // ---- whole reconciles -----------------------------------------------------

  lemma CalmFinalizer(env: Env, s: Server, p: Pmi)
    requires Calm(env) && s.store.pmi == Some(p) && !p.deleting
    ensures FinalizerStep(env, s).0 == if FINALIZER in p.finalizers then OK else Result(Stop, None)
    ensures FinalizerStep(env, s).1.store == s.store.(pmi := Some(p.(finalizers := p.finalizers + {FINALIZER})))
  {
    if FINALIZER in p.finalizers {
      assert p.finalizers + {FINALIZER} == p.finalizers;
    }
  }

  function SeenIn(setup: Setup, p: Pmi, s: Server): DaemonSetSeen {
    var key := DaemonSetOf(setup, p);
    SeenAs(key, if Peek(s, key).Some? then Found(Peek(s, key).value) else Missing)
  }

  function InputOf(env: Env, setup: Setup, p: Pmi, s: Server, recErr: Option<Error>): PassInput {
    PassInput(p.generation, SeenIn(setup, p, s), recErr, env.now(s.calls + 1), env.coin(s.calls + 1))
  }

  /** In a calm world a status pass completes at the first attempt. */
  lemma CalmStatus(env: Env, setup: Setup, s: Server, p: Pmi, recErr: Option<Error>)
    requires Calm(env) && s.store.pmi == Some(p) && !p.deleting
    ensures var (r, s') := StatusPass(env, setup, s, recErr, STATUS_ATTEMPTS);
            match Pass(p.status, InputOf(env, setup, p, s, recErr))
            case None => r == Crashed
            case Some(status) => r == Recorded(None) && s'.store == s.store.(pmi := Some(p.(status := status)))
  {
    CalmAttempt(env, setup, s, p, recErr);
  }

  lemma CalmAttempt(env: Env, setup: Setup, s: Server, p: Pmi, recErr: Option<Error>)
    requires Calm(env) && s.store.pmi == Some(p) && !p.deleting
    ensures var (r, s') := StatusAttempt(env, setup, s, recErr);
            match Pass(p.status, InputOf(env, setup, p, s, recErr))
            case None => r == Crashed
            case Some(status) => r == Recorded(None) && s'.store == s.store.(pmi := Some(p.(status := status)))
  {
    var s1 := s.(calls := s.calls + 1);
    assert GetPmiCall(env, s) == (PmiFound(p), s1);
    CalmSees(env, setup, s1, p);
    SeenByObjects(setup, p, s1, s);
    var next := Pass(p.status, InputOf(env, setup, p, s, recErr));
    if next.Some? {
      CalmRecord(env, s1.(calls := s1.calls + 1), p, next.value);
    }
  }

  lemma CalmRecord(env: Env, s: Server, p: Pmi, next: Status)
    requires Calm(env) && s.store.pmi == Some(p) && !p.deleting
    ensures Record(env, s, p, next).0 == Recorded(None)
    ensures Record(env, s, p, next).1.store == s.store.(pmi := Some(p.(status := next)))
  {
  }

  lemma CalmSees(env: Env, setup: Setup, s: Server, p: Pmi)
    requires Calm(env)
    ensures SeenAs(DaemonSetOf(setup, p), GetCall(env, s, DaemonSetOf(setup, p)).0) == SeenIn(setup, p, s)
    ensures GetCall(env, s, DaemonSetOf(setup, p)).1 == s.(calls := s.calls + 1)
  {
    CalmGet(env, s, DaemonSetOf(setup, p));
  }

  lemma CalmStepsKeepResource(env: Env, job: Job, w: World)
    requires Calm(env)
    ensures Exec(env, job, UpdateSteps(job), w).server.store.pmi == w.server.store.pmi
  {
    var kept := w.server.store.pmi;
    UpdateShape(job);
    ExecKeeps(env, p => p == kept, job, UpdateSteps(job), w);
  }

  /** The live resource `p` is reconciled in a calm world by a run whose steps do their work. */
  ghost predicate Works(env: Env, setup: Setup, s: Server, p: Pmi) {
    && Calm(env) && s.store.pmi == Some(p) && !p.deleting
    && AllFine(env, JobFor(setup, p), UpdateSteps(JobFor(setup, p)), ReadyForRun(s.(calls := s.calls + 1)))
  }

  /** The server and error when the run of such a reconcile ends. */
  lemma CalmRun(env: Env, setup: Setup, s: Server, p: Pmi)
    requires Works(env, setup, s, p)
    ensures var job, s0 := JobFor(setup, p), s.(calls := s.calls + 1);
            var end := Exec(env, job, UpdateSteps(job), ReadyForRun(s0)).server;
            var err := MissingError(job, s.store.objects);
            var (verdict, w) := Run(env, job, Steps.Reconcilers(job), ReadyForRun(s0));
            && GetPmiCall(env, s) == (PmiFound(p), s0)
            && verdict == Verdict(FINALIZER !in p.finalizers && err.None?, 0, err)
            && w.server.store == Store(end.store.objects, Some(p.(finalizers := p.finalizers + {FINALIZER})))
  {
    var job := JobFor(setup, p);
    var w := ReadyForRun(s.(calls := s.calls + 1));
    var names := SecretNames(job.spec.deployment.secrets);
    forall i | 0 <= i < |names| ensures Leaves(env, Key(Secret, Ns(job), names[i])) {
      CalmLeaves(env, Key(Secret, Ns(job), names[i]));
    }
    RunReportsMissing(env, job, w);
    CalmStepsKeepResource(env, job, w);
    var end := Exec(env, job, UpdateSteps(job), w);
    CalmFinalizer(env, end.server, p);
    RunFinalizer(env, job, end, MissingError(job, s.store.objects), p);
  }

  /** The facts that such a reconcile records. */
  ghost function RecordedFacts(env: Env, setup: Setup, s: Server, p: Pmi): PassInput {
    var job := JobFor(setup, p);
    var after := Run(env, job, Steps.Reconcilers(job), ReadyForRun(s.(calls := s.calls + 1))).1.server;
    InputOf(env, setup, p, after, MissingError(job, s.store.objects))
  }

  /** A calm reconcile that reads the resource and does not panic records the outcome of its run. */
  lemma CalmOutcome(env: Env, setup: Setup, s: Server, p: Pmi, s0: Server, verdict: Verdict, w: World, q: Pmi)
    requires Calm(env) && GetPmiCall(env, s) == (PmiFound(p), s0) && verdict.Verdict?
    requires Run(env, JobFor(setup, p), Steps.Reconcilers(JobFor(setup, p)), ReadyForRun(s0)) == (verdict, w)
    requires w.server.store.pmi == Some(q) && !q.deleting
    ensures match Pass(q.status, InputOf(env, setup, q, w.server, verdict.error))
            case None => Reconcile(env, setup, s).0 == Panicked
            case Some(status) =>
              && Reconcile(env, setup, s).0 == verdict
              && Reconcile(env, setup, s).1.store == w.server.store.(pmi := Some(q.(status := status)))
  {
    CalmStatus(env, setup, w.server, q, verdict.error);
  }

  /** Such a reconcile leaves the objects as its steps do, gives the resource the finalizer,
      and records the status for the run's one possible error, missing Secrets. */
  lemma CalmReconcile(env: Env, setup: Setup, s: Server, p: Pmi)
    requires Works(env, setup, s, p)
    ensures var job := JobFor(setup, p);
            var end := Exec(env, job, UpdateSteps(job), ReadyForRun(s.(calls := s.calls + 1))).server;
            var err := MissingError(job, s.store.objects);
            var facts := RecordedFacts(env, setup, s, p);
            && facts.generation == p.generation && facts.seen == SeenIn(setup, p, end) && facts.recErr == err
            && match Pass(p.status, facts)
               case None => Reconcile(env, setup, s).0 == Panicked
               case Some(status) =>
                 && Reconcile(env, setup, s).0 == Verdict(FINALIZER !in p.finalizers && err.None?, 0, err)
                 && Reconcile(env, setup, s).1.store
                      == Store(end.store.objects, Some(p.(finalizers := p.finalizers + {FINALIZER}, status := status)))
  {
    var job := JobFor(setup, p);
    CalmRun(env, setup, s, p);
    var s0, pf := s.(calls := s.calls + 1), p.(finalizers := p.finalizers + {FINALIZER});
    var (verdict, w) := Run(env, job, Steps.Reconcilers(job), ReadyForRun(s0));
    CalmOutcome(env, setup, s, p, s0, verdict, w, pf);
    SameFacts(env, setup, p, pf, w.server, verdict.error);
    SeenByObjects(setup, p, w.server, Exec(env, job, UpdateSteps(job), ReadyForRun(s0)).server);
  }

  lemma SameFacts(env: Env, setup: Setup, p: Pmi, q: Pmi, s: Server, recErr: Option<Error>)
    requires q.spec == p.spec && q.generation == p.generation
    ensures InputOf(env, setup, q, s, recErr) == InputOf(env, setup, p, s, recErr)
  {
  }

  lemma SeenByObjects(setup: Setup, p: Pmi, a: Server, b: Server)
    requires a.store.objects == b.store.objects
    ensures SeenIn(setup, p, a) == SeenIn(setup, p, b)
  {
  }

  lemma RunFinalizer(env: Env, job: Job, w: World, err: Option<Error>, p: Pmi)
    requires Calm(env) && w.server.store.pmi == Some(p) && !p.deleting
    ensures RunFrom(env, job, [Finalizer], w, err).0 == Verdict(FINALIZER !in p.finalizers && err.None?, 0, err)
    ensures RunFrom(env, job, [Finalizer], w, err).1.server == FinalizerStep(env, w.server).1
  {
    CalmFinalizer(env, w.server, p);
    assert [Finalizer][1..] == [];
  }

  // ---- what the spec refers to ----------------------------------------------

  /** What the spec refers to is in `b` as in `a`, but for the CA bundle, which is the run's own. */
  predicate ReferencesUnchanged(job: Job, a: Server, b: Server) {
    && (forall n :: n in SecretNames(job.spec.deployment.secrets) ==>
          Peek(a, Key(Secret, Ns(job), n)) == Peek(b, Key(Secret, Ns(job), n)))
    && (forall n :: n in job.spec.config.additionalConfigMaps && n != CA_BUNDLE_CONFIG_MAP ==>
          Peek(a, Key(ConfigMap, Ns(job), n)) == Peek(b, Key(ConfigMap, Ns(job), n)))
  }

  lemma MissingStays(job: Job, a: Server, b: Server)
    requires ReferencesUnchanged(job, a, b)
    ensures MissingError(job, b.store.objects) == MissingError(job, a.store.objects)
  {
    var names := SecretNames(job.spec.deployment.secrets);
    forall i | 0 <= i < |names|
      ensures Peek(b, Key(Secret, Ns(job), names[i])) == Peek(a, Key(Secret, Ns(job), names[i]))
    {
    }
    AgreementDecides(job, b.store.objects, a.store.objects, names);
  }

  lemma OneMounter(job: Job, i: nat)
    requires i < |UpdateSteps(job)| && UpdateSteps(job)[i] == SecretMounter
    ensures UpdateSteps(job)[..i] == Coherence.FirstStep(job)
  {
    UpdateShape(job);
    OnlyPlace(Coherence.FirstStep(job), SecretMounter, AfterMount(job), i);
  }

  lemma OnlyPlace(pre: seq<Reconciler>, r: Reconciler, post: seq<Reconciler>, i: nat)
    requires r !in pre && r !in post
    requires i < |pre + [r] + post| && (pre + [r] + post)[i] == r
    ensures i == |pre| && (pre + [r] + post)[..i] == pre
  {
    assert forall j :: 0 <= j < |pre| ==> (pre + [r] + post)[j] == pre[j];
    assert forall j :: 0 <= j < |post| ==> (pre + [r] + post)[|pre| + 1 + j] == post[j];
    assert i > |pre| ==> i == |pre| + 1 + (i - |pre| - 1);
  }

  lemma DeployerShape(job: Job)
    ensures UpdateSteps(job)
         == BeforeWorkload(job) + [Deployer] + ([ObjectsChecker, DaemonSetUpdater, MonitorStep] + Dashboards(job))
    ensures Deployer !in BeforeWorkload(job)
    ensures Deployer !in [ObjectsChecker, DaemonSetUpdater, MonitorStep] + Dashboards(job)
  {
  }

  lemma OneDeployer(job: Job, i: nat)
    requires i < |UpdateSteps(job)| && UpdateSteps(job)[i] == Deployer
    ensures UpdateSteps(job)[..i] == BeforeWorkload(job)
  {
    var pre, post := BeforeWorkload(job), [ObjectsChecker, DaemonSetUpdater, MonitorStep] + Dashboards(job);
    DeployerShape(job);
    OnlyPlace(pre, Deployer, post, i);
  }

  lemma BundleStaysFromDeployer(job: Job)
    requires OwnKeysDiffer(job)
    ensures NoneTargets(job, [Deployer] + ([ObjectsChecker, DaemonSetUpdater, MonitorStep] + Dashboards(job)),
                        CABundleKey(job))
  {
  }

  lemma BundleAtEnd(env: Env, job: Job, w: World)
    requires Calm(env) && OwnKeysDiffer(job)
    ensures Peek(Exec(env, job, BeforeWorkload(job), w).server, CABundleKey(job))
         == Peek(Exec(env, job, UpdateSteps(job), w).server, CABundleKey(job))
  {
    var pre := BeforeWorkload(job);
    var post := [Deployer] + ([ObjectsChecker, DaemonSetUpdater, MonitorStep] + Dashboards(job));
    DeployerShape(job);
    BundleStaysFromDeployer(job);
    assert UpdateSteps(job) == pre + post;
    ExecSplits(env, job, pre, post, w);
    CalmLeaves(env, CABundleKey(job));
    ExecFrame(env, job, post, Exec(env, job, pre, w), CABundleKey(job));
  }

  /** References that are at the end as at the start are so when the steps read them. */
  lemma ReferencesHoldInRun(env: Env, job: Job, w: World, end: Server)
    requires Calm(env) && OwnKeysDiffer(job) && ReferencesUnchanged(job, w.server, end)
    requires end.store.objects == Exec(env, job, UpdateSteps(job), w).server.store.objects
    ensures ReferencesHold(env, job, UpdateSteps(job), w, end)
  {
    var rs := UpdateSteps(job);
    forall i, key | 0 <= i < |rs| && Refers(job, rs[i], key)
      ensures Peek(Exec(env, job, rs[..i], w).server, key) == Peek(end, key)
    {
      CalmLeaves(env, key);
      if rs[i] == SecretMounter {
        OneMounter(job, i);
        ExecFrame(env, job, Coherence.FirstStep(job), w, key);
      } else {
        OneDeployer(job, i);
        if key.name == CA_BUNDLE_CONFIG_MAP {
          BundleAtEnd(env, job, w);
        } else {
          Coherence.ConfigMapAtDeployer(env, job, w, key.name);
        }
      }
    }
  }

  /** Convergence: after a reconcile whose steps did their work in a calm world and left what the
      spec refers to as it was, every later calm reconcile that starts from what it left writes
      nothing, in no step, as long as the stored token lasts; and with no referenced Secret missing
      it returns an empty result. */
  lemma LaterReconcilesAreIdle(env1: Env, env2: Env, setup: Setup, s: Server, p: Pmi, s2: Server)
    requires Works(env1, setup, s, p) && OwnKeysDiffer(JobFor(setup, p))
    requires Reconcile(env1, setup, s).0.Verdict?
    requires Calm(env2) && s2.store == Reconcile(env1, setup, s).1.store
    requires ReferencesUnchanged(JobFor(setup, p), s, s2) && TokenLasts(env2, JobFor(setup, p), s2)
    ensures Reconcile(env2, setup, s2).1.store == s2.store
    ensures Silent(env2, JobFor(setup, p), UpdateSteps(JobFor(setup, p)), ReadyForRun(s2.(calls := s2.calls + 1)))
    ensures Reconcile(env2, setup, s2).0 == Verdict(false, 0, MissingError(JobFor(setup, p), s.store.objects))
  {
    var job := JobFor(setup, p);
    CalmReconcile(env1, setup, s, p);
    MissingStays(job, s, s2);
    StepsAreSilent(env1, env2, job, s.(calls := s.calls + 1), s2.(calls := s2.calls + 1));
    IdleAgain(env2, setup, s2, s2.store.pmi.value, RecordedFacts(env1, setup, s, p), p.status);
  }

  lemma StepsAreSilent(env1: Env, env2: Env, job: Job, s: Server, s2: Server)
    requires Calm(env1) && Calm(env2) && OwnKeysDiffer(job)
    requires AllFine(env1, job, UpdateSteps(job), ReadyForRun(s))
    requires s2.store.objects == Exec(env1, job, UpdateSteps(job), ReadyForRun(s)).server.store.objects
    requires ReferencesUnchanged(job, s, s2) && TokenLasts(env2, job, s2)
    ensures AllFine(env2, job, UpdateSteps(job), ReadyForRun(s2))
    ensures Silent(env2, job, UpdateSteps(job), ReadyForRun(s2))
    ensures Exec(env2, job, UpdateSteps(job), ReadyForRun(s2)).server.store == s2.store
  {
    UpdateStepsAreOrdered(job);
    UpdateShape(job);
    ReferencesHoldInRun(env1, job, ReadyForRun(s), s2);
    ListRepeats(env1, env2, job, UpdateSteps(job), ReadyForRun(s), ReadyForRun(s2));
  }

  /** A calm reconcile whose steps change nothing and whose facts have been recorded is idle. */
  lemma IdleAgain(env: Env, setup: Setup, s: Server, p: Pmi, input: PassInput, earlier: Status)
    requires Works(env, setup, s, p) && FINALIZER in p.finalizers
    requires var job, w := JobFor(setup, p), ReadyForRun(s.(calls := s.calls + 1));
             Exec(env, job, UpdateSteps(job), w).server.store == s.store
    requires input.generation == p.generation && input.seen == SeenIn(setup, p, s)
    requires input.recErr == MissingError(JobFor(setup, p), s.store.objects)
    requires Pass(earlier, input) == Some(p.status)
    ensures Reconcile(env, setup, s).1.store == s.store
    ensures Reconcile(env, setup, s).0 == Verdict(false, 0, input.recErr)
  {
    CalmReconcile(env, setup, s, p);
    var job := JobFor(setup, p);
    SeenByObjects(setup, p, Exec(env, job, UpdateSteps(job), ReadyForRun(s.(calls := s.calls + 1))).server, s);
    NothingToRecord(p, earlier, input, RecordedFacts(env, setup, s, p));
  }

  lemma NothingToRecord(p: Pmi, earlier: Status, input: PassInput, facts: PassInput)
    requires facts == input.(now := facts.now, reconciledFirst := facts.reconciledFirst)
    requires Pass(earlier, input) == Some(p.status) && FINALIZER in p.finalizers
    ensures Pass(p.status, facts) == Some(p.status)
    ensures p.(finalizers := p.finalizers + {FINALIZER}, status := p.status) == p
  {
    StatusProtocol.PassIsIdempotent(earlier, input, facts.now, facts.reconciledFirst);
    assert p.finalizers + {FINALIZER} == p.finalizers;
  }

  // ---- from prerequisites to rest -------------------------------------------

  /** A live resource with everything it needs: own objects that do not clash, the prerequisites of
      a run, and conditions that no pass panics on. */
  predicate Startable(setup: Setup, s: Server, p: Pmi) {
    var job, cs := JobFor(setup, p), p.status.conditions;
    && s.store.pmi == Some(p) && !p.deleting
    && OwnKeysDiffer(job) && Prerequisites(job, s)
    && !(|cs| == 2 && !(Has(cs, Reconciled) && Has(cs, Available)))
  }

  lemma StartableWorks(env: Env, setup: Setup, s: Server, p: Pmi)
    requires Calm(env) && Startable(setup, s, p)
    ensures Works(env, setup, s, p)
    ensures Reconcile(env, setup, s).0.Verdict?
  {
    PrerequisitesSuffice(env, JobFor(setup, p), ReadyForRun(s.(calls := s.calls + 1)));
    CalmReconcile(env, setup, s, p);
    StatusProtocol.PanicsExactlyWhen(p.status, RecordedFacts(env, setup, s, p));
  }

  /** Convergence from the prerequisites alone: whatever the cluster held before, when what the
      spec refers to does not change, the second of two consecutive calm reconciles writes nothing
      and, when no referenced Secret is missing, returns an empty result without error. */
  lemma SecondReconcileIsIdle(env1: Env, env2: Env, setup: Setup, s: Server, p: Pmi)
    requires Calm(env1) && Calm(env2) && Startable(setup, s, p)
    requires var s1 := Reconcile(env1, setup, s).1;
             ReferencesUnchanged(JobFor(setup, p), s, s1) && TokenLasts(env2, JobFor(setup, p), s1)
    ensures var (_, s1) := Reconcile(env1, setup, s);
            var (verdict, s2) := Reconcile(env2, setup, s1);
            s2.store == s1.store && verdict == Verdict(false, 0, MissingError(JobFor(setup, p), s.store.objects))
  {
    StartableWorks(env1, setup, s, p);
    LaterReconcilesAreIdle(env1, env2, setup, s, p, Reconcile(env1, setup, s).1);
  }

  // ---- when the references do not change ------------------------------------

  /** The listed ConfigMaps are not objects that the run writes after it has read them. */
  predicate ConfigMapsApart(job: Job) {
    && job.name !in job.spec.config.additionalConfigMaps
    && (Ns(job) == DASHBOARD_NAMESPACE && Dashboards(job) != [] ==>
          && OVERVIEW_DASHBOARD !in job.spec.config.additionalConfigMaps
          && NAMESPACE_DASHBOARD !in job.spec.config.additionalConfigMaps)
  }

  /** Nor are the referenced Secrets the operator's own. */
  predicate DistinctNames(job: Job) {
    && ConfigMapsApart(job)
    && PROXY_CONFIG_SECRET !in SecretNames(job.spec.deployment.secrets)
    && UWM_TOKEN_SECRET !in SecretNames(job.spec.deployment.secrets)
  }

  lemma ListedAreUntouched(job: Job, name: string)
    requires ConfigMapsApart(job) && name in job.spec.config.additionalConfigMaps && name != CA_BUNDLE_CONFIG_MAP
    ensures NoneTargets(job, UpdateSteps(job), Key(ConfigMap, Ns(job), name))
  {
  }

  /** It is enough that the names do not clash, which the spec alone decides. */
  lemma DistinctNamesKeepReferences(env: Env, setup: Setup, s: Server, p: Pmi)
    requires Works(env, setup, s, p) && DistinctNames(JobFor(setup, p)) && Reconcile(env, setup, s).0.Verdict?
    ensures ReferencesUnchanged(JobFor(setup, p), s, Reconcile(env, setup, s).1)
  {
    var job := JobFor(setup, p);
    CalmReconcile(env, setup, s, p);
    ListedStay(env, job, ReadyForRun(s.(calls := s.calls + 1)));
    var end := Exec(env, job, UpdateSteps(job), ReadyForRun(s.(calls := s.calls + 1))).server;
    forall n | n in SecretNames(job.spec.deployment.secrets)
      ensures Peek(s, Key(Secret, Ns(job), n)) == Peek(end, Key(Secret, Ns(job), n))
    {
      Coherence.SecretsAreUntouched(job, n);
      FrameFrom(env, job, UpdateSteps(job), ReadyForRun(s.(calls := s.calls + 1)), Key(Secret, Ns(job), n));
    }
  }

  lemma ListedStay(env: Env, job: Job, w: World)
    requires Calm(env) && ConfigMapsApart(job)
    ensures forall n :: n in job.spec.config.additionalConfigMaps && n != CA_BUNDLE_CONFIG_MAP ==>
              Peek(w.server, Key(ConfigMap, Ns(job), n))
                == Peek(Exec(env, job, UpdateSteps(job), w).server, Key(ConfigMap, Ns(job), n))
  {
    forall n | n in job.spec.config.additionalConfigMaps && n != CA_BUNDLE_CONFIG_MAP
      ensures Peek(w.server, Key(ConfigMap, Ns(job), n))
           == Peek(Exec(env, job, UpdateSteps(job), w).server, Key(ConfigMap, Ns(job), n))
    {
      ListedAreUntouched(job, n);
      FrameFrom(env, job, UpdateSteps(job), w, Key(ConfigMap, Ns(job), n));
    }
  }

  // ---- any number of reconciles ---------------------------------------------

  /** The store after one reconcile in each world, in order. */
  ghost function ReconcileAll(envs: seq<Env>, setup: Setup, store: Store): Store
    decreases |envs|
  {
    if |envs| == 0 then store else ReconcileAll(envs[1..], setup, Reconcile(envs[0], setup, Server(store, 0)).1.store)
  }

  /** However often the resource is reconciled again, nothing is written any more. */
  lemma {:induction false} IdleForever(env1: Env, envs: seq<Env>, setup: Setup, s: Server, p: Pmi)
    requires Works(env1, setup, s, p) && OwnKeysDiffer(JobFor(setup, p))
    requires Reconcile(env1, setup, s).0.Verdict?
    requires ReferencesUnchanged(JobFor(setup, p), s, Reconcile(env1, setup, s).1)
    requires forall i :: 0 <= i < |envs| ==>
               Calm(envs[i]) && TokenLasts(envs[i], JobFor(setup, p), Reconcile(env1, setup, s).1)
    ensures var store := Reconcile(env1, setup, s).1.store; ReconcileAll(envs, setup, store) == store
    decreases |envs|
  {
    if |envs| > 0 {
      var store := Reconcile(env1, setup, s).1.store;
      LaterReconcilesAreIdle(env1, envs[0], setup, s, p, Server(store, 0));
      assert forall i :: 0 <= i < |envs[1..]| ==> envs[1..][i] == envs[i + 1];
      IdleForever(env1, envs[1..], setup, s, p);
    }
  }

  // ---- missing Secrets, end to end ------------------------------------------

  /** A reconcile with missing Secrets does all its work, returns the error that lists them in
      order, and records it: Reconciled is false and Available, once there is a DaemonSet,
      degraded, both with the error's text. */
  lemma MissingSecretsAreRecorded(env: Env, setup: Setup, s: Server, p: Pmi)
    requires Works(env, setup, s, p)
    requires p.status.conditions == [] || StatusProtocol.IsPair(p.status.conditions)
    requires MissingError(JobFor(setup, p), s.store.objects).Some?
    ensures var err := MissingError(JobFor(setup, p), s.store.objects);
            var (verdict, s') := Reconcile(env, setup, s);
            && verdict == Verdict(false, 0, err)
            && s'.store.pmi.Some? && StatusProtocol.IsPair(s'.store.pmi.value.status.conditions)
            && var cs := s'.store.pmi.value.status.conditions;
               && cs[0].status == IsFalse && cs[0].reason == ReconcileError && cs[0].message == Message(err.value)
               && (DaemonSetOf(setup, p) in s'.store.objects ==>
                     cs[1].status == IsDegraded && cs[1].reason == SecretMissing && cs[1].message == Message(err.value))
  {
    CalmReconcile(env, setup, s, p);
    RecordsMissing(p.status, RecordedFacts(env, setup, s, p));
  }

  lemma RecordsMissing(status: Status, facts: PassInput)
    requires status.conditions == [] || StatusProtocol.IsPair(status.conditions)
    requires facts.recErr.Some? && facts.recErr.value.SecretNotFound?
    ensures Pass(status, facts).Some? && StatusProtocol.IsPair(Pass(status, facts).value.conditions)
    ensures var cs := Pass(status, facts).value.conditions;
            && cs[0].status == IsFalse && cs[0].reason == ReconcileError && cs[0].message == Message(facts.recErr.value)
            && (facts.seen.Seen? ==>
                  && cs[1].status == IsDegraded && cs[1].reason == SecretMissing
                  && cs[1].message == Message(facts.recErr.value))
  {
    StatusProtocol.PassOnPair(status, facts);
  }
}
