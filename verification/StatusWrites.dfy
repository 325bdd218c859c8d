/** A reconcile changes the stored status by at most one status pass, so that every history of
    reconciles and edits is a history of passes. */
module StatusWrites {
  import opened Common
  import opened Api
  import opened ClusterModel
  import opened Steps
  import opened Runner
  import opened ResourceFrames
  import opened Conditions
  import opened Controller
  import FinalizerSafety

  /** A resource that is still there has this status and at least this generation. */
  predicate StatusIs(resource: Option<Pmi>, status: Status, generation: int) {
    resource.Some? ==> resource.value.status == status && resource.value.generation >= generation
  }

  /** The status is the operator's alone. */
  ghost predicate StatusIsOurs(env: Env, status: Status, generation: int) {
    Keeps(env, o => StatusIs(o, status, generation))
  }

  /** `input` is a pass over `status` for the stored generation, and `after` its result. */
  predicate IsPassOf(status: Status, generation: int, input: PassInput, after: Option<Pmi>) {
    && Pass(status, input).Some? && after.Some?
    && after.value.generation == input.generation >= generation
    && after.value.status == Pass(status, input).value
  }

  /** The stored status is `status`, or what one pass makes of it. */
  ghost predicate AtMostAPass(status: Status, generation: int, recErr: Option<Error>, after: Option<Pmi>) {
    || StatusIs(after, status, generation)
    || exists input: PassInput :: input.recErr == recErr && IsPassOf(status, generation, input, after)
  }

  lemma CallKeepsStatus(env: Env, s: Server, key: Key, status: Status, generation: int)
    requires StatusIsOurs(env, status, generation) && StatusIs(s.store.pmi, status, generation)
    ensures StatusIs(GetCall(env, s, key).1.store.pmi, status, generation)
    ensures StatusIs(GetPmiCall(env, s).1.store.pmi, status, generation)
    ensures GetPmiCall(env, s).0.PmiFound? ==> GetPmiCall(env, s).0.pmi.status == status
  {
    TickKeeps(env, o => StatusIs(o, status, generation), s);
  }

  lemma WriteIsAPass(env: Env, s: Server, read: Pmi, status: Status, generation: int, input: PassInput)
    requires StatusIsOurs(env, status, generation) && StatusIs(s.store.pmi, status, generation) && !read.deleting
    requires input.generation == read.generation >= generation && Pass(status, input).Some?
    ensures var (err, s') := UpdatePmiCall(env, s, read, read.(status := Pass(status, input).value));
            && AtMostAPass(status, generation, input.recErr, s'.store.pmi)
            && (err == Some(ConflictError) ==> StatusIs(s'.store.pmi, status, generation))
  {
    TickKeeps(env, o => StatusIs(o, status, generation), s);
    var (err, s') := UpdatePmiCall(env, s, read, read.(status := Pass(status, input).value));
    if err.None? {
      assert IsPassOf(status, generation, input, s'.store.pmi);
    }
  }

  lemma AttemptIsAtMostAPass(env: Env, setup: Setup, s: Server, recErr: Option<Error>, status: Status, generation: int)
    requires StatusIsOurs(env, status, generation) && StatusIs(s.store.pmi, status, generation)
    ensures var (r, s') := StatusAttempt(env, setup, s, recErr);
            && AtMostAPass(status, generation, recErr, s'.store.pmi)
            && (r == Recorded(Some(ConflictError)) ==> StatusIs(s'.store.pmi, status, generation))
  {
    var (r, s1) := GetPmiCall(env, s);
    CallKeepsStatus(env, s, UwmAccountKey(), status, generation);
    if r.PmiFound? && !r.pmi.deleting {
      var key := DaemonSetOf(setup, r.pmi);
      CallKeepsStatus(env, s1, key, status, generation);
      var (got, s2) := GetCall(env, s1, key);
      var input := PassInput(r.pmi.generation, SeenAs(key, got), recErr, env.now(s1.calls), env.coin(s1.calls));
      if Pass(status, input).Some? {
        WriteIsAPass(env, s2, r.pmi, status, generation, input);
      }
    }
  }

  lemma {:induction false} StatusPassIsAtMostAPass(env: Env, setup: Setup, s: Server, recErr: Option<Error>,
                                                   attempts: nat, status: Status, generation: int)
    requires StatusIsOurs(env, status, generation) && StatusIs(s.store.pmi, status, generation) && attempts > 0
    ensures AtMostAPass(status, generation, recErr, StatusPass(env, setup, s, recErr, attempts).1.store.pmi)
    decreases attempts
  {
    AttemptIsAtMostAPass(env, setup, s, recErr, status, generation);
    var (r, s') := StatusAttempt(env, setup, s, recErr);
    if r == Recorded(Some(ConflictError)) && attempts > 1 {
      StatusPassIsAtMostAPass(env, setup, s', recErr, attempts - 1, status, generation);
    }
  }

  lemma FinalizerKeepsStatus(env: Env, s: Server, status: Status, generation: int)
    requires StatusIsOurs(env, status, generation) && StatusIs(s.store.pmi, status, generation)
    ensures StatusIs(FinalizerStep(env, s).1.store.pmi, status, generation)
  {
    CallKeepsStatus(env, s, UwmAccountKey(), status, generation);
    TickKeeps(env, o => StatusIs(o, status, generation), GetPmiCall(env, s).1);
  }

  lemma ListKeepsStatus(env: Env, job: Job, steps: seq<Reconciler>, w: World, status: Status, generation: int)
    requires StatusIsOurs(env, status, generation) && StatusIs(w.server.store.pmi, status, generation)
    requires Finalizer !in steps
    ensures StatusIs(Exec(env, job, steps, w).server.store.pmi, status, generation)
    ensures StatusIs(Exec(env, job, steps + [Finalizer], w).server.store.pmi, status, generation)
  {
    ExecKeeps(env, o => StatusIs(o, status, generation), job, steps, w);
    ExecSplits(env, job, steps, [Finalizer], w);
    assert [Finalizer][1..] == [];
    FinalizerKeepsStatus(env, Exec(env, job, steps, w).server, status, generation);
  }

  lemma RunKeepsStatus(env: Env, job: Job, w: World, status: Status, generation: int)
    requires StatusIsOurs(env, status, generation) && StatusIs(w.server.store.pmi, status, generation)
    ensures StatusIs(Run(env, job, Steps.Reconcilers(job), w).1.server.store.pmi, status, generation)
  {
    var rs := Steps.Reconcilers(job);
    var steps := if job.deleting then CleanupSteps(job) else UpdateSteps(job);
    FinalizerSafety.ListShape(job);
    var n := RunMeaning(env, job, rs, w);
    if n < |rs| {
      assert rs[..n] == steps[..n];
      ListKeepsStatus(env, job, steps[..n], w, status, generation);
    } else {
      assert rs[..n] == steps + [Finalizer];
      ListKeepsStatus(env, job, steps, w, status, generation);
    }
  }

  /** The error that the reconcile's run ends with. */
  ghost function RunError(env: Env, setup: Setup, s: Server): Option<Error> {
    var (r, s1) := GetPmiCall(env, s);
    if !r.PmiFound? then None
    else
      var verdict := Run(env, JobFor(setup, r.pmi), Steps.Reconcilers(JobFor(setup, r.pmi)), ReadyForRun(s1)).0;
      if verdict.Verdict? then verdict.error else None
  }

  /** Whatever fails, and whoever else edits the resource meanwhile, a reconcile leaves its status
      as it was or as one pass makes it, for the error that the run ended with and the generation
      that is then stored. */
  lemma ReconcileIsAtMostAPass(env: Env, setup: Setup, s: Server, status: Status, generation: int)
    requires StatusIsOurs(env, status, generation) && StatusIs(s.store.pmi, status, generation)
    ensures AtMostAPass(status, generation, RunError(env, setup, s), Reconcile(env, setup, s).1.store.pmi)
  {
    var (r, s1) := GetPmiCall(env, s);
    CallKeepsStatus(env, s, UwmAccountKey(), status, generation);
    if r.PmiFound? {
      var job := JobFor(setup, r.pmi);
      RunKeepsStatus(env, job, ReadyForRun(s1), status, generation);
      var (verdict, w) := Run(env, job, Steps.Reconcilers(job), ReadyForRun(s1));
      if verdict.Verdict? {
        StatusPassIsAtMostAPass(env, setup, w.server, verdict.error, STATUS_ATTEMPTS, status, generation);
        assert Reconcile(env, setup, s).1 == StatusPass(env, setup, w.server, verdict.error, STATUS_ATTEMPTS).1;
      }
    }
  }
}
