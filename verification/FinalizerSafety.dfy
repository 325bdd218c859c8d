/** A resource that carries the operator's finalizer leaves only after its Namespace has been
    seen gone. */
module FinalizerSafety {
  import opened Common
  import opened Api
  import opened ClusterModel
  import opened Steps
  import opened Runner
  import opened Frames
  import opened Rollout
  import opened ResourceFrames
  import opened Conditions
  import opened Controller

  predicate Holds(resource: Option<Pmi>) {
    resource.Some? && FINALIZER in resource.value.finalizers
  }

  predicate Guarded(resource: Option<Pmi>, deleting: bool) {
    Holds(resource) && resource.value.deleting == deleting
  }

  // ---- what others may do ---------------------------------------------------

  /** Nobody but the operator removes its finalizer, and a deletion is never taken back. */
  predicate Lawful(before: Option<Pmi>, after: Option<Pmi>) {
    Holds(before) ==> Holds(after) && (before.value.deleting ==> after.value.deleting)
  }

  /** During a reconcile, moreover, nobody deletes the resource. */
  ghost predicate DeletesWait(env: Env) {
    forall n: nat, st: Store ::
      var after := env.tick(n, st).pmi;
      && Lawful(st.pmi, after)
      && (after.Some? && after.value.deleting ==> st.pmi.Some? && st.pmi.value.deleting)
  }

  lemma GuardIsKept(env: Env, deleting: bool)
    requires DeletesWait(env)
    ensures Keeps(env, o => Guarded(o, deleting))
  {
    forall n: nat, st: Store | Guarded(st.pmi, deleting) ensures Guarded(env.tick(n, st).pmi, deleting) {
      assert Lawful(st.pmi, env.tick(n, st).pmi);
    }
  }

  // ---- one reconcile --------------------------------------------------------

  /** Everything a cleanup does before it deletes the Namespace. */
  function BeforeNamespace(job: Job): seq<Reconciler> {
    [Deleter(BindingKey(job), Continue, 0), Deleter(RoleKey(job), Continue, 0)] + DashboardDeleters(job)
  }

  function NamespaceDeleter(job: Job): Reconciler {
    Deleter(NamespaceKey(job), Requeue, 120)
  }

  /** The reconcile is a cleanup whose Namespace deleter found the Namespace absent. */
  ghost predicate SawNamespaceGone(env: Env, setup: Setup, s: Server) {
    var (r, s1) := GetPmiCall(env, s);
    && r.PmiFound? && r.pmi.deleting
    && var job := JobFor(setup, r.pmi);
       var (result, w) := Step(env, job, NamespaceDeleter(job), Exec(env, job, BeforeNamespace(job), ReadyForRun(s1)));
       result == OK && Peek(w.server, NamespaceKey(job)) == None
  }

  lemma StatusWriteKeepsGuard(env: Env, s: Server, read: Pmi, status: Status, deleting: bool)
    requires DeletesWait(env) && Guarded(s.store.pmi, deleting)
    ensures Guarded(UpdatePmiCall(env, s, read, read.(status := status)).1.store.pmi, deleting)
  {
    GuardIsKept(env, deleting);
    TickKeeps(env, o => Guarded(o, deleting), s);
  }

  lemma ReadKeepsGuard(env: Env, s: Server, key: Key, deleting: bool)
    requires DeletesWait(env) && Guarded(s.store.pmi, deleting)
    ensures Guarded(GetCall(env, s, key).1.store.pmi, deleting)
    ensures Guarded(GetPmiCall(env, s).1.store.pmi, deleting)
  {
    GuardIsKept(env, deleting);
    TickKeeps(env, o => Guarded(o, deleting), s);
  }

  lemma StatusKeepsGuard(env: Env, setup: Setup, s: Server, recErr: Option<Error>, deleting: bool)
    requires DeletesWait(env) && Guarded(s.store.pmi, deleting)
    ensures Guarded(StatusAttempt(env, setup, s, recErr).1.store.pmi, deleting)
  {
    var (r, s1) := GetPmiCall(env, s);
    ReadKeepsGuard(env, s, UwmAccountKey(), deleting);
    if r.PmiFound? && !r.pmi.deleting {
      var key := DaemonSetOf(setup, r.pmi);
      ReadKeepsGuard(env, s1, key, deleting);
      var (got, s2) := GetCall(env, s1, key);
      var input := PassInput(r.pmi.generation, SeenAs(key, got), recErr, env.now(s1.calls), env.coin(s1.calls));
      var next := Pass(r.pmi.status, input);
      if next.Some? {
        StatusWriteKeepsGuard(env, s2, r.pmi, next.value, deleting);
      }
    }
  }

  lemma {:induction false} StatusPassKeepsGuard(env: Env, setup: Setup, s: Server, recErr: Option<Error>,
                                                attempts: nat, deleting: bool)
    requires DeletesWait(env) && Guarded(s.store.pmi, deleting) && attempts > 0
    ensures Guarded(StatusPass(env, setup, s, recErr, attempts).1.store.pmi, deleting)
    decreases attempts
  {
    StatusKeepsGuard(env, setup, s, recErr, deleting);
    if attempts > 1 {
      StatusPassKeepsGuard(env, setup, StatusAttempt(env, setup, s, recErr).1, recErr, attempts - 1, deleting);
    }
  }

  /** The finalizer stays while the resource is live. */
  lemma FinalizerKeepsLive(env: Env, s: Server)
    requires DeletesWait(env) && Guarded(s.store.pmi, false)
    ensures Guarded(FinalizerStep(env, s).1.store.pmi, false)
  {
    GuardIsKept(env, false);
    TickKeeps(env, o => Guarded(o, false), s);
  }

  lemma ListShape(job: Job)
    ensures Finalizer !in UpdateSteps(job)
    ensures Finalizer !in CleanupSteps(job)
    ensures CleanupSteps(job) == BeforeNamespace(job) + [NamespaceDeleter(job)]
  {
  }

  /** A run of a live resource never removes the finalizer. */
  lemma UpdateRunKeepsGuard(env: Env, job: Job, w: World)
    requires DeletesWait(env) && !job.deleting && Guarded(w.server.store.pmi, false)
    ensures Guarded(Run(env, job, Steps.Reconcilers(job), w).1.server.store.pmi, false)
  {
    var rs, steps := Steps.Reconcilers(job), UpdateSteps(job);
    ListShape(job);
    var n := RunMeaning(env, job, rs, w);
    GuardIsKept(env, false);
    if n < |rs| {
      assert rs[..n] == steps[..n];
      ExecKeeps(env, o => Guarded(o, false), job, steps[..n], w);
    } else {
      assert rs[..n] == steps + [Finalizer];
      WholeListKeepsLive(env, job, steps, w);
    }
  }

  lemma WholeListKeepsLive(env: Env, job: Job, steps: seq<Reconciler>, w: World)
    requires DeletesWait(env) && Guarded(w.server.store.pmi, false) && Finalizer !in steps
    ensures Guarded(Exec(env, job, steps + [Finalizer], w).server.store.pmi, false)
  {
    GuardIsKept(env, false);
    ExecSplits(env, job, steps, [Finalizer], w);
    assert [Finalizer][1..] == [];
    ExecKeeps(env, o => Guarded(o, false), job, steps, w);
    FinalizerKeepsLive(env, Exec(env, job, steps, w).server);
  }

  /** A cleanup run that gets past its steps has seen the Namespace gone. */
  lemma CleanupRunKeepsGuard(env: Env, job: Job, w: World)
    requires DeletesWait(env) && job.deleting && Guarded(w.server.store.pmi, true)
    ensures var before := Exec(env, job, BeforeNamespace(job), w);
            || Guarded(Run(env, job, Steps.Reconcilers(job), w).1.server.store.pmi, true)
            || (var (r, after) := Step(env, job, NamespaceDeleter(job), before);
                r == OK && Peek(after.server, NamespaceKey(job)) == None)
  {
    var rs, steps := Steps.Reconcilers(job), CleanupSteps(job);
    ListShape(job);
    var n := RunMeaning(env, job, rs, w);
    if n < |rs| {
      GuardIsKept(env, true);
      assert rs[..n] == steps[..n];
      ExecKeeps(env, o => Guarded(o, true), job, steps[..n], w);
    } else {
      var k := |BeforeNamespace(job)|;
      assert rs[k] == NamespaceDeleter(job) && rs[..k] == BeforeNamespace(job) && k < n - 1;
      assert Continues(ResultAt(env, job, rs, w, k));
      RemoveSettles(env, Exec(env, job, BeforeNamespace(job), w).server, NamespaceKey(job), Requeue, 120);
    }
  }

  /** A reconcile after which the resource is gone, or without the finalizer it had, was the
      cleanup of a deleted resource and saw the Namespace absent, whatever else failed. */
  lemma LeavesOnlyAfterCleanup(env: Env, setup: Setup, s: Server)
    requires DeletesWait(env) && Holds(s.store.pmi)
    ensures Holds(Reconcile(env, setup, s).1.store.pmi) || SawNamespaceGone(env, setup, s)
    ensures Holds(Reconcile(env, setup, s).1.store.pmi) || s.store.pmi.value.deleting
  {
    var deleting := s.store.pmi.value.deleting;
    GuardIsKept(env, deleting);
    TickKeeps(env, o => Guarded(o, deleting), s);
    var (r, s1) := GetPmiCall(env, s);
    if r.PmiFound? {
      var job := JobFor(setup, r.pmi);
      var (verdict, w) := Run(env, job, Steps.Reconcilers(job), ReadyForRun(s1));
      if deleting {
        CleanupRunKeepsGuard(env, job, ReadyForRun(s1));
      } else {
        UpdateRunKeepsGuard(env, job, ReadyForRun(s1));
      }
      if Guarded(w.server.store.pmi, deleting) && verdict.Verdict? {
        StatusPassKeepsGuard(env, setup, w.server, verdict.error, STATUS_ATTEMPTS, deleting);
      }
    }
  }

  // ---- every history --------------------------------------------------------

  /** Others change the store between reconciles, or the operator reconciles. */
  datatype Move = Others(next: Store) | Reconciles(env: Env)

  ghost function Play(setup: Setup, moves: seq<Move>, store: Store): Store
    decreases |moves|
  {
    if |moves| == 0 then store
    else
      match moves[0]
      case Others(next) => Play(setup, moves[1..], next)
      case Reconciles(env) => Play(setup, moves[1..], Reconcile(env, setup, Server(store, 0)).1.store)
  }

  ghost predicate Allowed(setup: Setup, moves: seq<Move>, store: Store)
    decreases |moves|
  {
    |moves| == 0
    || match moves[0]
       case Others(next) => Lawful(store.pmi, next.pmi) && Allowed(setup, moves[1..], next)
       case Reconciles(env) =>
         DeletesWait(env) && Allowed(setup, moves[1..], Reconcile(env, setup, Server(store, 0)).1.store)
  }

  /** Finalizer safety over all runs: in every history in which users delete only between
      reconciles, a resource that had the finalizer and is gone or without it at the end left
      through a reconcile that saw its Namespace absent. */
  lemma {:induction false} FinalizerSafety(setup: Setup, moves: seq<Move>, store: Store) returns (i: nat)
    requires Allowed(setup, moves, store) && Holds(store.pmi) && !Holds(Play(setup, moves, store).pmi)
    ensures i < |moves| && moves[i].Reconciles?
    ensures SawNamespaceGone(moves[i].env, setup, Server(Play(setup, moves[..i], store), 0))
    decreases |moves|
  {
    var next := if moves[0].Others? then moves[0].next else Reconcile(moves[0].env, setup, Server(store, 0)).1.store;
    if Holds(next.pmi) {
      var k := FinalizerSafety(setup, moves[1..], next);
      i := k + 1;
      assert moves[..i][1..] == moves[1..][..k];
    } else {
      i := 0;
      LeavesOnlyAfterCleanup(moves[0].env, setup, Server(store, 0));
    }
  }

  // ---- a delete in the middle of an update ----------------------------------

  /** Why the deletes have to wait: an update run that did its work keeps the finalizer exactly
      when the resource is not marked for deletion as the finalizer step reads it; otherwise the
      finalizer goes although the run has just applied the Namespace. */
  lemma MidRunDeleteSkipsCleanup(env: Env, job: Job, w: World, q: Pmi)
    requires !job.deleting && AllFine(env, job, UpdateSteps(job), w) && Leaves(env, NamespaceKey(job))
    requires var at := Exec(env, job, UpdateSteps(job), w).server;
             && GetPmiCall(env, at).0 == PmiFound(q) && FINALIZER in q.finalizers
             && env.fault(at.calls + 1) == Healthy
             && env.tick(at.calls + 1, GetPmiCall(env, at).1.store).pmi == Some(q)
    ensures Peek(EndOf(env, job, w), NamespaceKey(job)).Some?
    ensures Holds(EndOf(env, job, w).store.pmi) <==> !q.deleting
  {
    var key, first := NamespaceKey(job), Updater(NamespaceKey(job), Bare(Plain), Requeue);
    NamespaceIsSettled(job);
    EndsAsLastWritten(env, job, [], first, UpdateSteps(job)[1..], w, key);
    UpdateSettles(env, w.server, key, Bare(Plain), Requeue);
    var err := RunPastFine(env, job, UpdateSteps(job), [Finalizer], w, None);
    var at := Exec(env, job, UpdateSteps(job), w);
    assert [Finalizer][1..] == [];
    assert EndOf(env, job, w) == FinalizerStep(env, at.server).1;
  }

  lemma NamespaceIsSettled(job: Job)
    ensures LastWriter(job, [], Updater(NamespaceKey(job), Bare(Plain), Requeue), UpdateSteps(job)[1..],
                       NamespaceKey(job))
  {
  }
}
