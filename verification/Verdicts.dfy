/** What the verdict of a run says about its steps. */
module Verdicts {
  import opened Common
  import opened Api
  import opened ClusterModel
  import opened Steps
  import opened Runner
  import MissingSecrets

  const FIVE_SECONDS := 5_000_000_000

  // ---- where a run ends -----------------------------------------------------

  /** A run whose first step that does not continue is the i-th ends there. */
  lemma EndsAt(env: Env, job: Job, rs: seq<Reconciler>, w: World, i: nat)
    requires i < |rs| && (forall j :: 0 <= j < i ==> Continues(ResultAt(env, job, rs, w, j)))
    requires ResultAt(env, job, rs, w, i).Result? && !Continues(ResultAt(env, job, rs, w, i))
    ensures var (verdict, w') := Run(env, job, rs, w);
            && w' == Step(env, job, rs[i], Exec(env, job, rs[..i], w)).1
            && (ResultAt(env, job, rs, w, i).action == Requeue ==> verdict == Verdict(false, FIVE_SECONDS, None))
            && (ResultAt(env, job, rs, w, i).action == Stop && ResultAt(env, job, rs, w, i).error.Some? ==>
                  verdict == Verdict(false, 0, ResultAt(env, job, rs, w, i).error))
  {
    var n := RunMeaning(env, job, rs, w);
    if n <= i {
      assert false;
    }
    if n > i + 1 {
      assert false;
    }
    ExecSnoc(env, job, rs, w, i);
  }

  // ---- the steps of the lists -----------------------------------------------

  lemma UpdateOutcomes(env: Env, s: Server, key: Key, f: Fields, onError: Action)
    ensures var (r, s') := Update(env, s, key, f, onError);
            match env.fault(s.calls)
            case Healthy => r == Result(Continue, None)
            case Conflicting => r == Result(Requeue, None) && s' == Ticked(env, s)
            case Failing(text) => r == Result(onError, Some(ApiError(text))) && s' == Ticked(env, s)
  {
  }

  lemma UpdateListActions(job: Job)
    ensures |UpdateSteps(job)| > 1 && UpdateSteps(job)[1] == SecretMounter
    ensures UpdateSteps(job)[0] == Updater(Key(Namespace, "", job.spec.deployment.namespace), Bare(Plain), Requeue)
    ensures forall i :: 0 < i < |UpdateSteps(job)| && UpdateSteps(job)[i].Updater? ==>
              UpdateSteps(job)[i].onError == Continue
    ensures forall i :: 0 <= i < |UpdateSteps(job)| ==> !UpdateSteps(job)[i].Deleter? && !UpdateSteps(job)[i].Finalizer?
  {
    forall i | 0 <= i < |UpdateSteps(job)|
      ensures !UpdateSteps(job)[i].Deleter? && !UpdateSteps(job)[i].Finalizer?
      ensures 0 < i && UpdateSteps(job)[i].Updater? ==> UpdateSteps(job)[i].onError == Continue
    {
      var first := [Updater(NamespaceKey(job), Bare(Plain), Requeue), SecretMounter];
      var rest := ClusterScoped(job) + Security() + Namespaced(job) + Workload() + Dashboards(job);
      assert UpdateSteps(job) == first + rest;
      if i >= 2 {
        RestActions(job, rest[i - 2]);
      }
    }
  }

  lemma RestActions(job: Job, r: Reconciler)
    requires r in ClusterScoped(job) + Security() + Namespaced(job) + Workload() + Dashboards(job)
    ensures !r.Deleter? && !r.Finalizer? && !r.SecretMounter? && (r.Updater? ==> r.onError == Continue)
  {
  }

  // ---- clean verdicts -------------------------------------------------------

  /** The verdict asks for no delay and reports nothing but missing referenced Secrets. */
  predicate Clean(v: Verdict) {
    v.Verdict? && v.requeueAfter == 0 && (v.error.None? || v.error.value.SecretNotFound?)
  }

  lemma {:induction false} FineByPosition(env: Env, job: Job, rs: seq<Reconciler>, w: World)
    requires forall i :: 0 <= i < |rs| ==> Fine(ResultAt(env, job, rs, w, i))
    ensures AllFine(env, job, rs, w)
    decreases |rs|
  {
    if |rs| > 0 {
      var w' := Step(env, job, rs[0], w).1;
      assert rs[..0] == [];
      assert Fine(ResultAt(env, job, rs, w, 0));
      forall i | 0 <= i < |rs[1..]| ensures Fine(ResultAt(env, job, rs[1..], w', i)) {
        assert rs[..i + 1][1..] == rs[1..][..i];
        assert ResultAt(env, job, rs[1..], w', i) == ResultAt(env, job, rs, w, i + 1);
      }
      FineByPosition(env, job, rs[1..], w');
    }
  }

  predicate ReportsMissing(r: Result) {
    r.Result? && r.error.Some? && r.error.value.SecretNotFound?
  }

  predicate Reports(r: Result) {
    r.Result? && r.error.Some?
  }

  predicate StopsWithError(r: Result) {
    r.Result? && r.action == Stop ==> r.error.Some? && !r.error.value.SecretNotFound?
  }

  lemma {:induction false} MountIsHonest(env: Env, job: Job, s: Server, names: seq<string>,
                                         template: map<string, string>, missing: seq<string>)
    ensures StopsWithError(MountSecrets(env, job, s, names, template, missing).0)
    decreases |names|
  {
    if |names| > 0 {
      var (got, s') := GetCall(env, s, Key(Secret, Ns(job), names[0]));
      match got
      case Found(o) =>
        MountIsHonest(env, job, s', names[1..], template[SecretAnnotation(names[0]) := ContentHash(job.lib, o)],
                      missing);
      case Missing => MountIsHonest(env, job, s', names[1..], template, missing + [names[0]]);
      case GetFailed(_) =>
    }
  }

  lemma {:induction false} CheckIsHonest(env: Env, job: Job, probes: seq<Probe>, w: World)
    ensures var r := CheckAll(env, job, probes, w).0; StopsWithError(r) && !ReportsMissing(r)
    decreases |probes|
  {
    if |probes| > 0 {
      var (r, s') := Await(env, w.server, probes[0].key, true, AwaitPolls(job), TIMEOUT);
      MissingSecrets.AwaitErrors(env, w.server, probes[0].key, true, AwaitPolls(job), TIMEOUT);
      if r.Found? {
        CheckIsHonest(env, job, probes[1..], Annotate(job.lib, w.(server := s'), probes[0], r.item));
      }
    }
  }

  lemma TokenIsHonest(env: Env, job: Job, s: Server)
    ensures var r := TokenStep(env, job, s).0; StopsWithError(r) && !ReportsMissing(r)
  {
    var s1 := Await(env, s, UwmAccountKey(), true, AwaitPolls(job), TIMEOUT).1;
    MissingSecrets.AwaitErrors(env, s, UwmAccountKey(), true, AwaitPolls(job), TIMEOUT);
    MissingSecrets.AwaitErrors(env, s1, TokenSecretKey(job), false, AwaitPolls(job), TIMEOUT);
  }

  /** Only the mounter reports missing Secrets, and a step stops only with an error. */
  lemma HonestStep(env: Env, job: Job, r: Reconciler, w: World)
    requires r != Finalizer && ((r.Updater? || r.Deleter?) ==> r.onError != Stop)
    ensures ReportsMissing(Step(env, job, r, w).0) ==> r == SecretMounter
    ensures StopsWithError(Step(env, job, r, w).0)
  {
    match r
    case SecretMounter =>
      MountIsHonest(env, job, w.server, SecretNames(job.spec.deployment.secrets), w.template, []);
    case ObjectsChecker => CheckIsHonest(env, job, Probes(job), w);
    case UWMToken => TokenIsHonest(env, job, w.server);
    case _ =>
  }

  /** The steps before the finalizer are such that only the finalizer can end a clean run. */
  ghost predicate Honest(env: Env, job: Job, rs: seq<Reconciler>, w: World) {
    forall i :: 0 <= i < |rs| ==> StopsWithError(ResultAt(env, job, rs, w, i))
  }

  /** A run with a clean verdict ran every step before the finalizer, and each of them continued;
      one that reported an error reported missing Secrets, or a later one did. */
  lemma CleanRunsAll(env: Env, job: Job, steps: seq<Reconciler>, w: World)
    requires Honest(env, job, steps, w) && Clean(Run(env, job, steps + [Finalizer], w).0)
    ensures forall i :: 0 <= i < |steps| ==> Continues(ResultAt(env, job, steps, w, i))
    ensures forall i :: 0 <= i < |steps| && Reports(ResultAt(env, job, steps, w, i)) ==>
              exists k :: i <= k < |steps| && ReportsMissing(ResultAt(env, job, steps, w, k))
  {
    var rs := steps + [Finalizer];
    var verdict := Run(env, job, rs, w).0;
    var n := RunMeaning(env, job, rs, w);
    assert forall i :: 0 <= i < |steps| ==> rs[i] == steps[i] && rs[..i] == steps[..i];
    assert forall i :: 0 <= i < |steps| ==> ResultAt(env, job, rs, w, i) == ResultAt(env, job, steps, w, i);
    if n <= |steps| {
      EndedEarly(env, job, rs, steps, w, n, verdict);
      assert false;
    }
    FinalizerReportsOthers(env, job, Exec(env, job, rs[..|steps|], w));
    assert rs[|steps|] == Finalizer;
    LastErrorOfSteps(env, job, rs, steps, w, verdict.error);
  }

  lemma EndedEarly(env: Env, job: Job, rs: seq<Reconciler>, steps: seq<Reconciler>, w: World, n: nat, verdict: Verdict)
    requires rs == steps + [Finalizer] && n <= |steps| && RunsExactly(env, job, rs, w, n)
    requires Explains(env, job, rs, w, n, verdict) && Honest(env, job, steps, w)
    requires forall i :: 0 <= i < |steps| ==> ResultAt(env, job, rs, w, i) == ResultAt(env, job, steps, w, i)
    ensures !Clean(verdict)
  {
    assert StopsWithError(ResultAt(env, job, steps, w, n - 1));
  }

  lemma FinalizerReportsOthers(env: Env, job: Job, w: World)
    ensures Step(env, job, Finalizer, w).0.Result? && !ReportsMissing(Step(env, job, Finalizer, w).0)
  {
  }

  lemma LastErrorOfSteps(env: Env, job: Job, rs: seq<Reconciler>, steps: seq<Reconciler>, w: World, e: Option<Error>)
    requires rs == steps + [Finalizer] && (e.None? || e.value.SecretNotFound?)
    requires forall i :: 0 <= i < |rs| ==> ResultAt(env, job, rs, w, i).Result?
    requires IsLastError(env, job, rs, w, |rs|, e)
    requires forall i :: 0 <= i < |steps| ==> ResultAt(env, job, rs, w, i) == ResultAt(env, job, steps, w, i)
    ensures forall i :: 0 <= i < |steps| && Reports(ResultAt(env, job, steps, w, i)) ==>
              exists k :: i <= k < |steps| && ReportsMissing(ResultAt(env, job, steps, w, k))
  {
    if e.Some? {
      var k :| 0 <= k < |rs| && ResultAt(env, job, rs, w, k).error == e
               && forall i :: k < i < |rs| ==> ResultAt(env, job, rs, w, i).error == None;
      FinalizerReportsOthers(env, job, Exec(env, job, rs[..|steps|], w));
      assert rs[|steps|] == Finalizer;
      assert k < |steps| && ReportsMissing(ResultAt(env, job, steps, w, k));
      forall i | 0 <= i < |steps| && Reports(ResultAt(env, job, steps, w, i))
        ensures i <= k < |steps| && ReportsMissing(ResultAt(env, job, steps, w, k))
      {
        assert ResultAt(env, job, rs, w, i).error.Some?;
      }
    }
  }

  lemma UpdateStepsAreHonest(env: Env, job: Job, w: World)
    ensures Honest(env, job, UpdateSteps(job), w)
    ensures forall i :: 0 <= i < |UpdateSteps(job)| && ReportsMissing(ResultAt(env, job, UpdateSteps(job), w, i)) ==>
              UpdateSteps(job)[i] == SecretMounter
  {
    UpdateListActions(job);
    forall i | 0 <= i < |UpdateSteps(job)|
      ensures StopsWithError(ResultAt(env, job, UpdateSteps(job), w, i))
      ensures ReportsMissing(ResultAt(env, job, UpdateSteps(job), w, i)) ==> UpdateSteps(job)[i] == SecretMounter
    {
      HonestStep(env, job, UpdateSteps(job)[i], Exec(env, job, UpdateSteps(job)[..i], w));
    }
  }

  lemma FirstStepIsSilent(env: Env, job: Job, w: World)
    requires Continues(ResultAt(env, job, UpdateSteps(job), w, 0))
    ensures ResultAt(env, job, UpdateSteps(job), w, 0).error.None?
  {
    UpdateListActions(job);
    assert UpdateSteps(job)[..0] == [];
    UpdateOutcomes(env, w.server, NamespaceKey(job), Bare(Plain), Requeue);
  }

  lemma MounterIsSecond(job: Job, k: nat)
    requires k < |UpdateSteps(job)| && UpdateSteps(job)[k] == SecretMounter
    ensures k == 1
  {
    var first := [Updater(NamespaceKey(job), Bare(Plain), Requeue), SecretMounter];
    var rest := ClusterScoped(job) + Security() + Namespaced(job) + Workload() + Dashboards(job);
    assert UpdateSteps(job) == first + rest;
    if k >= 2 {
      RestActions(job, rest[k - 2]);
      assert false;
    }
  }

  /** With nothing but missing Secrets reported last, nothing else was reported before. */
  lemma OnlyMissingReported(env: Env, job: Job, w: World, i: nat, k: nat)
    requires i <= k < |UpdateSteps(job)| && Reports(ResultAt(env, job, UpdateSteps(job), w, i))
    requires ReportsMissing(ResultAt(env, job, UpdateSteps(job), w, k))
    requires Continues(ResultAt(env, job, UpdateSteps(job), w, 0))
    ensures ReportsMissing(ResultAt(env, job, UpdateSteps(job), w, i))
  {
    UpdateStepsAreHonest(env, job, w);
    MounterIsSecond(job, k);
    FirstStepIsSilent(env, job, w);
  }

  lemma FineAt(env: Env, job: Job, w: World, i: nat)
    requires i < |UpdateSteps(job)| && Continues(ResultAt(env, job, UpdateSteps(job), w, i))
    requires Continues(ResultAt(env, job, UpdateSteps(job), w, 0))
    requires Reports(ResultAt(env, job, UpdateSteps(job), w, i)) ==>
               exists k :: i <= k < |UpdateSteps(job)| && ReportsMissing(ResultAt(env, job, UpdateSteps(job), w, k))
    ensures Fine(ResultAt(env, job, UpdateSteps(job), w, i))
  {
    if Reports(ResultAt(env, job, UpdateSteps(job), w, i)) {
      var k :| i <= k < |UpdateSteps(job)| && ReportsMissing(ResultAt(env, job, UpdateSteps(job), w, k));
      OnlyMissingReported(env, job, w, i, k);
    }
  }

  /** The verdict is honest: an update run that asks for no delay and reports nothing but missing
      Secrets has done all its work, whatever failed or was changed meanwhile. */
  lemma CleanVerdictMeansFine(env: Env, job: Job, w: World)
    requires !job.deleting && Clean(Run(env, job, Reconcilers(job), w).0)
    ensures AllFine(env, job, UpdateSteps(job), w)
  {
    var steps := UpdateSteps(job);
    UpdateStepsAreHonest(env, job, w);
    CleanRunsAll(env, job, steps, w);
    UpdateIsNotEmpty(job);
    forall i | 0 <= i < |steps| ensures Fine(ResultAt(env, job, steps, w, i)) {
      FineAt(env, job, w, i);
    }
    FineByPosition(env, job, steps, w);
  }

  lemma UpdateIsNotEmpty(job: Job)
    ensures |UpdateSteps(job)| > 0
  {
  }

  lemma CleanupActions(job: Job)
    ensures forall i :: 0 <= i < |CleanupSteps(job)| ==>
              CleanupSteps(job)[i].Deleter? && CleanupSteps(job)[i].onError != Stop
  {
  }

  /** A cleanup with a clean verdict has seen every object it deletes gone. */
  lemma CleanCleanupMeansFine(env: Env, job: Job, w: World)
    requires job.deleting && Clean(Run(env, job, Reconcilers(job), w).0)
    ensures AllFine(env, job, CleanupSteps(job), w)
  {
    var steps := CleanupSteps(job);
    CleanupActions(job);
    forall i | 0 <= i < |steps|
      ensures StopsWithError(ResultAt(env, job, steps, w, i)) && !ReportsMissing(ResultAt(env, job, steps, w, i))
    {
      HonestStep(env, job, steps[i], Exec(env, job, steps[..i], w));
    }
    CleanRunsAll(env, job, steps, w);
    FineByPosition(env, job, steps, w);
  }
}
