/** Convergence in mode none, exactly: which references keep the operator from coming to rest. */
module ModeNone {
  import opened Common
  import opened Api
  import opened ClusterModel
  import opened Steps
  import opened Runner
  import opened Frames
  import opened Rollout
  import opened Coherence
  import opened Repeat
  import opened Progress
  import opened Conditions
  import opened Controller
  import opened Convergence
  import StatusProtocol

  /** A startable resource in mode none whose listed ConfigMaps are not the run's own. */
  predicate StartableInModeNone(setup: Setup, s: Server, p: Pmi) {
    Startable(setup, s, p) && !EnableRBAC(p.spec) && ConfigMapsApart(JobFor(setup, p))
  }

  lemma RunsInModeNone(env: Env, setup: Setup, s: Server, p: Pmi)
    requires Calm(env) && StartableInModeNone(setup, s, p)
    ensures Works(env, setup, s, p) && Reconcile(env, setup, s).0.Verdict?
    ensures UpdateRunInModeNone(env, JobFor(setup, p), ReadyForRun(s.(calls := s.calls + 1)))
    ensures LeavesOperatorSecrets(env, JobFor(setup, p))
  {
    StartableWorks(env, setup, s, p);
    forall key: Key ensures Leaves(env, key) {
      CalmLeaves(env, key);
    }
  }

  /** The objects that the reconcile leaves are those at the end of its run. */
  lemma StoredIsEndOfRun(env: Env, setup: Setup, s: Server, p: Pmi, key: Key)
    requires Works(env, setup, s, p) && Reconcile(env, setup, s).0.Verdict?
    ensures Peek(Reconcile(env, setup, s).1, key)
         == Peek(EndOf(env, JobFor(setup, p), ReadyForRun(s.(calls := s.calls + 1))), key)
  {
    CalmReconcile(env, setup, s, p);
    CalmLeaves(env, key);
    EndIsEndOfSteps(env, JobFor(setup, p), ReadyForRun(s.(calls := s.calls + 1)), key);
  }

  lemma SecretAfter(env: Env, setup: Setup, s: Server, p: Pmi, name: string)
    requires Calm(env) && StartableInModeNone(setup, s, p)
    ensures var key := Key(Secret, Ns(JobFor(setup, p)), name);
            Peek(Reconcile(env, setup, s).1, key) == if IsOperatorSecret(name) then None else Peek(s, key)
  {
    var key := Key(Secret, Ns(JobFor(setup, p)), name);
    RunsInModeNone(env, setup, s, p);
    StoredIsEndOfRun(env, setup, s, p, key);
    CalmLeaves(env, key);
    SecretAtEnd(env, JobFor(setup, p), ReadyForRun(s.(calls := s.calls + 1)), name);
  }

  lemma ListedAfter(env: Env, setup: Setup, s: Server, p: Pmi)
    requires Calm(env) && StartableInModeNone(setup, s, p)
    ensures forall n :: n in p.spec.config.additionalConfigMaps && n != CA_BUNDLE_CONFIG_MAP ==>
              var key := Key(ConfigMap, Ns(JobFor(setup, p)), n);
              Peek(s, key) == Peek(Reconcile(env, setup, s).1, key)
  {
    RunsInModeNone(env, setup, s, p);
    CalmReconcile(env, setup, s, p);
    ListedStay(env, JobFor(setup, p), ReadyForRun(s.(calls := s.calls + 1)));
  }

  // ---- without a doomed reference -------------------------------------------

  lemma UnchangedExactlyWhen(env: Env, setup: Setup, s: Server, p: Pmi)
    requires Calm(env) && StartableInModeNone(setup, s, p)
    ensures var job := JobFor(setup, p);
            var names := SecretNames(job.spec.deployment.secrets);
            ReferencesUnchanged(job, s, Reconcile(env, setup, s).1) <==> NoDoomedReference(s.store.objects, job, names)
  {
    var job := JobFor(setup, p);
    var names, s1 := SecretNames(job.spec.deployment.secrets), Reconcile(env, setup, s).1;
    ListedAfter(env, setup, s, p);
    forall n
      ensures var key := Key(Secret, Ns(job), n);
              Peek(s1, key) == if IsOperatorSecret(n) then None else Peek(s, key)
    {
      SecretAfter(env, setup, s, p, n);
    }
    if ReferencesUnchanged(job, s, s1) {
      forall i | 0 <= i < |names| && IsOperatorSecret(names[i])
        ensures Key(Secret, Ns(job), names[i]) !in s.store.objects
      {
        assert names[i] in names;
      }
    }
    if NoDoomedReference(s.store.objects, job, names) {
      forall n | n in names
        ensures Peek(s, Key(Secret, Ns(job), n)) == Peek(s1, Key(Secret, Ns(job), n))
      {
        var i :| 0 <= i < |names| && names[i] == n;
      }
    }
  }

  // ---- with one -------------------------------------------------------------

  /** After its first reconcile the resource is startable again. */
  lemma StartableAgain(env: Env, setup: Setup, s: Server, p: Pmi) returns (p1: Pmi)
    requires Calm(env) && StartableInModeNone(setup, s, p)
    ensures StartableInModeNone(setup, Reconcile(env, setup, s).1, p1) && JobFor(setup, p1) == JobFor(setup, p)
  {
    var job, s1 := JobFor(setup, p), Reconcile(env, setup, s).1;
    RunsInModeNone(env, setup, s, p);
    CalmReconcile(env, setup, s, p);
    p1 := s1.store.pmi.value;
    SaneAfterPass(p.status, RecordedFacts(env, setup, s, p));
    PrerequisitesAgain(env, setup, s, p);
  }

  lemma SaneAfterPass(status: Status, facts: PassInput)
    requires Pass(status, facts).Some?
    ensures var cs := Pass(status, facts).value.conditions; !(|cs| == 2 && !(Has(cs, Reconciled) && Has(cs, Available)))
  {
    StatusProtocol.PassIsIdempotent(status, facts, facts.now, facts.reconciledFirst);
    StatusProtocol.PanicsExactlyWhen(Pass(status, facts).value, facts);
  }

  lemma PrerequisitesAgain(env: Env, setup: Setup, s: Server, p: Pmi)
    requires Calm(env) && StartableInModeNone(setup, s, p)
    ensures Prerequisites(JobFor(setup, p), Reconcile(env, setup, s).1)
  {
    var job, s1 := JobFor(setup, p), Reconcile(env, setup, s).1;
    var names := job.spec.config.additionalConfigMaps;
    ListedAfter(env, setup, s, p);
    var was, now := AsRead(job, s.store.objects), AsRead(job, s1.store.objects);
    forall i | 0 <= i < |names|
      ensures Lookup(now, Key(ConfigMap, Ns(job), names[i])) == Lookup(was, Key(ConfigMap, Ns(job), names[i]))
    {
      if names[i] != CA_BUNDLE_CONFIG_MAP {
        assert Peek(s, Key(ConfigMap, Ns(job), names[i])) == Peek(s1, Key(ConfigMap, Ns(job), names[i]));
      }
    }
    StoredConfigMapsAgree(job, now, was, names);
    SecretAfter(env, setup, s, p, PROXY_CONFIG_SECRET);
    SecretAfter(env, setup, s, p, UWM_TOKEN_SECRET);
    BundleAfter(env, setup, s, p);
  }

  lemma BundleAfter(env: Env, setup: Setup, s: Server, p: Pmi)
    requires Calm(env) && StartableInModeNone(setup, s, p)
    ensures Peek(Reconcile(env, setup, s).1, CABundleKey(JobFor(setup, p))) == None
  {
    var job, w := JobFor(setup, p), ReadyForRun(s.(calls := s.calls + 1));
    RunsInModeNone(env, setup, s, p);
    StoredIsEndOfRun(env, setup, s, p, CABundleKey(job));
    CABundleFollowsMode(env, job, w);
  }

  /** The hash that the stored DaemonSet carries for a reference is of the Secret at the start. */
  lemma HashAfter(env: Env, setup: Setup, s: Server, p: Pmi, i: nat)
    requires Calm(env) && StartableInModeNone(setup, s, p) && i < |p.spec.deployment.secrets|
    ensures var job, name := JobFor(setup, p), p.spec.deployment.secrets[i].name;
            var ds, was := Peek(Reconcile(env, setup, s).1, DaemonSetKey(job)), Peek(s, Key(Secret, Ns(job), name));
            && ds.Some?
            && Lookup(ds.value.applied.maps.template, SecretAnnotation(name))
                 == if was.Some? then Some(ContentHash(job.lib, was.value)) else None
  {
    var job, w := JobFor(setup, p), ReadyForRun(s.(calls := s.calls + 1));
    RunsInModeNone(env, setup, s, p);
    StoredIsEndOfRun(env, setup, s, p, DaemonSetKey(job));
    var text := RolledOut(env, job, w);
    DesiredTemplateIsCoherent(job, s.store.objects, text);
    assert SecretNames(job.spec.deployment.secrets)[i] == p.spec.deployment.secrets[i].name;
  }

  /** The case that breaks convergence: the first reconcile deletes a referenced Secret that it has
      hashed, so the second one takes the hash out of the DaemonSet again. */
  lemma DoomedReferenceUnsettles(env1: Env, env2: Env, setup: Setup, s: Server, p: Pmi, i: nat)
    requires Calm(env1) && Calm(env2) && StartableInModeNone(setup, s, p)
    requires i < |p.spec.deployment.secrets| && IsOperatorSecret(p.spec.deployment.secrets[i].name)
    requires Peek(s, Key(Secret, Ns(JobFor(setup, p)), p.spec.deployment.secrets[i].name)).Some?
    ensures var s1 := Reconcile(env1, setup, s).1;
            var s2 := Reconcile(env2, setup, s1).1;
            Peek(s2, DaemonSetKey(JobFor(setup, p))) != Peek(s1, DaemonSetKey(JobFor(setup, p)))
  {
    var s1 := Reconcile(env1, setup, s).1;
    HashAfter(env1, setup, s, p, i);
    SecretAfter(env1, setup, s, p, p.spec.deployment.secrets[i].name);
    var p1 := StartableAgain(env1, setup, s, p);
    HashAfter(env2, setup, s1, p1, i);
  }

  /** Convergence in mode none, exactly: of two consecutive calm reconciles from the prerequisites
      the second writes nothing if and only if no referenced Secret stored at the start is one of
      the operator's own, which this mode deletes. */
  lemma SecondIsIdleExactlyWhen(env1: Env, env2: Env, setup: Setup, s: Server, p: Pmi)
    requires Calm(env1) && Calm(env2) && StartableInModeNone(setup, s, p)
    ensures var s1, names := Reconcile(env1, setup, s).1, SecretNames(p.spec.deployment.secrets);
            var idle := Reconcile(env2, setup, s1).1.store == s1.store;
            idle <==> NoDoomedReference(s.store.objects, JobFor(setup, p), names)
  {
    var names := SecretNames(p.spec.deployment.secrets);
    if NoDoomedReference(s.store.objects, JobFor(setup, p), names) {
      UnchangedExactlyWhen(env1, setup, s, p);
      SecondReconcileIsIdle(env1, env2, setup, s, p);
    } else {
      var i :| 0 <= i < |names| && IsOperatorSecret(names[i])
               && Key(Secret, Ns(JobFor(setup, p)), names[i]) in s.store.objects;
      assert names[i] == p.spec.deployment.secrets[i].name;
      DoomedReferenceUnsettles(env1, env2, setup, s, p, i);
    }
  }
}
