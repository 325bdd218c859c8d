/** The order of the update list, and what it is worth: running the list again. */
module Order {
  import opened Common
  import opened Api
  import opened ClusterModel
  import opened Steps
  import opened Runner
  import opened Frames
  import opened Rollout
  import opened Repeat

  // ---- lists in which no step undoes another --------------------------------

  /** No step writes what an earlier one wrote or checked. */
  ghost predicate Ordered(job: Job, rs: seq<Reconciler>) {
    forall i, j :: 0 <= i <= j < |rs| && Target(job, rs[j]).Some? ==>
      (i < j ==> Target(job, rs[i]) != Target(job, rs[j])) && !Checks(job, rs[i], Target(job, rs[j]).value)
  }

  /** No step of `b` writes what a step of `a` wrote or checked. */
  ghost predicate Apart(job: Job, a: seq<Reconciler>, b: seq<Reconciler>) {
    forall r, q :: r in a && q in b && Target(job, q).Some? ==>
      Target(job, r) != Target(job, q) && !Checks(job, r, Target(job, q).value)
  }

  lemma OrderedConcat(job: Job, a: seq<Reconciler>, b: seq<Reconciler>)
    requires Ordered(job, a) && Ordered(job, b) && Apart(job, a, b)
    ensures Ordered(job, a + b)
  {
    var c := a + b;
    forall i, j | 0 <= i <= j < |c| && Target(job, c[j]).Some?
      ensures (i < j ==> Target(job, c[i]) != Target(job, c[j])) && !Checks(job, c[i], Target(job, c[j]).value)
    {
      if i < |a| && j >= |a| {
        assert c[i] in a && c[j] in b;
      }
    }
  }

  /** No two of the run's own objects have one key. */
  predicate OwnKeysDiffer(job: Job) {
    job.name != CA_BUNDLE_CONFIG_MAP && !IsDashboard(job)
  }

  lemma FirstPartOrdered(job: Job)
    ensures Ordered(job, [Updater(NamespaceKey(job), Bare(Plain), Requeue), SecretMounter])
  {
  }

  lemma ClusterScopedOrdered(job: Job)
    ensures Ordered(job, ClusterScoped(job))
  {
  }

  lemma SecurityOrdered(job: Job)
    ensures Ordered(job, Security())
  {
  }

  lemma NamespacedOrdered(job: Job)
    ensures Ordered(job, Namespaced(job))
  {
  }

  lemma WorkloadOrdered(job: Job)
    ensures Ordered(job, Workload())
  {
  }

  lemma DashboardsOrdered(job: Job)
    ensures Ordered(job, Dashboards(job))
  {
  }

  function AfterClusterScoped(job: Job): seq<Reconciler> {
    Security() + Namespaced(job) + Workload() + Dashboards(job)
  }

  /** What the namespaced steps write. */
  lemma NamespacedTargets(job: Job)
    ensures forall q :: q in AfterClusterScoped(job) && Target(job, q).Some? ==>
              var key := Target(job, q).value;
              && key.kind != Namespace && key.kind != ClusterRole && key.kind != ClusterRoleBinding
              && key.kind != SecurityContextConstraints
  {
  }

  lemma ClusterScopedTargets(job: Job)
    ensures forall r :: r in ClusterScoped(job) ==>
              && r.Updater?
              && r.key.kind in {ClusterRole, ClusterRoleBinding, SecurityContextConstraints}
  {
  }

  lemma FirstApart(job: Job)
    ensures Apart(job, [Updater(NamespaceKey(job), Bare(Plain), Requeue), SecretMounter],
                  ClusterScoped(job) + AfterClusterScoped(job))
  {
    NamespacedTargets(job);
    ClusterScopedTargets(job);
  }

  lemma ClusterScopedApart(job: Job)
    ensures Apart(job, ClusterScoped(job), AfterClusterScoped(job))
  {
    NamespacedTargets(job);
    ClusterScopedTargets(job);
  }

  lemma SecurityApart(job: Job)
    requires OwnKeysDiffer(job)
    ensures Apart(job, Security(), Namespaced(job) + Workload() + Dashboards(job))
  {
  }

  lemma NamespacedApart(job: Job)
    ensures Apart(job, Namespaced(job), Workload() + Dashboards(job))
  {
  }

  lemma WorkloadApart(job: Job)
    requires OwnKeysDiffer(job)
    ensures Apart(job, Workload(), Dashboards(job))
  {
  }

  lemma UpdateStepsAreOrdered(job: Job)
    requires OwnKeysDiffer(job)
    ensures Ordered(job, UpdateSteps(job))
  {
    var first := [Updater(NamespaceKey(job), Bare(Plain), Requeue), SecretMounter];
    var d := Dashboards(job);
    var w := Workload() + d;
    var n := Namespaced(job) + w;
    var s := Security() + n;
    var c := ClusterScoped(job) + s;
    DashboardsOrdered(job);
    WorkloadOrdered(job);
    WorkloadApart(job);
    OrderedConcat(job, Workload(), d);
    NamespacedOrdered(job);
    NamespacedApart(job);
    OrderedConcat(job, Namespaced(job), w);
    SecurityOrdered(job);
    SecurityApart(job);
    assert Namespaced(job) + Workload() + d == n;
    OrderedConcat(job, Security(), n);
    ClusterScopedOrdered(job);
    ClusterScopedApart(job);
    assert AfterClusterScoped(job) == s;
    OrderedConcat(job, ClusterScoped(job), s);
    FirstPartOrdered(job);
    FirstApart(job);
    assert ClusterScoped(job) + AfterClusterScoped(job) == c;
    OrderedConcat(job, first, c);
    assert UpdateSteps(job) == first + c;
  }

  // ---- running a list again -------------------------------------------------

  /** What the spec refers to is at the end as it was when the steps read it. */
  ghost predicate ReferencesHold(env: Env, job: Job, rs: seq<Reconciler>, w: World, end: Server) {
    forall i, key :: 0 <= i < |rs| && Refers(job, rs[i], key) ==>
      Peek(Exec(env, job, rs[..i], w).server, key) == Peek(end, key)
  }

  /** No prefix of the list has changed the store. */
  ghost predicate Silent(env: Env, job: Job, rs: seq<Reconciler>, w: World) {
    forall n :: 0 <= n <= |rs| ==> Exec(env, job, rs[..n], w).server.store == w.server.store
  }

  lemma TailHolds(env: Env, job: Job, rs: seq<Reconciler>, w: World, end: Server)
    requires |rs| > 0 && ReferencesHold(env, job, rs, w, end)
    ensures ReferencesHold(env, job, rs[1..], Step(env, job, rs[0], w).1, end)
  {
    var rest, w' := rs[1..], Step(env, job, rs[0], w).1;
    forall i, key | 0 <= i < |rest| && Refers(job, rest[i], key)
      ensures Peek(Exec(env, job, rest[..i], w').server, key) == Peek(end, key)
    {
      assert rs[i + 1] == rest[i];
      assert rs[..i + 1][1..] == rest[..i];
    }
  }

  lemma SilentCons(env: Env, job: Job, rs: seq<Reconciler>, w: World)
    requires |rs| > 0 && Step(env, job, rs[0], w).1.server.store == w.server.store
    requires Silent(env, job, rs[1..], Step(env, job, rs[0], w).1)
    ensures Silent(env, job, rs, w)
  {
    var rest, w' := rs[1..], Step(env, job, rs[0], w).1;
    forall n | 0 <= n <= |rs| ensures Exec(env, job, rs[..n], w).server.store == w.server.store {
      if n > 0 {
        assert rs[..n][1..] == rest[..n - 1];
        assert Exec(env, job, rest[..n - 1], w').server.store == w'.server.store;
      }
    }
  }

  /** A list that has done its work in a quiet world does all of it again, in a calm one, without
      a single write. */
  lemma {:induction false} ListRepeats(env1: Env, env2: Env, job: Job, rs: seq<Reconciler>, w1: World, w2: World)
    requires Quiet(env1) && Calm(env2) && Ordered(job, rs) && Finalizer !in rs && AllFine(env1, job, rs, w1)
    requires w2.server.store.objects == Exec(env1, job, rs, w1).server.store.objects
    requires w2.template == w1.template && w2.monitor == w1.monitor
    requires TokenLasts(env2, job, w2.server) && ReferencesHold(env1, job, rs, w1, w2.server)
    ensures AllFine(env2, job, rs, w2) && Silent(env2, job, rs, w2)
    ensures Exec(env2, job, rs, w2).server.store == w2.server.store
    decreases |rs|
  {
    if |rs| > 0 {
      var r, rest := rs[0], rs[1..];
      var w1', w2' := Step(env1, job, r, w1).1, Step(env2, job, r, w2).1;
      HeadIsReady(env1, env2, job, rs, w1, w2);
      StepRepeats(env1, env2, job, r, w1, w2);
      assert Ordered(job, rest) by {
        assert forall i :: 0 <= i < |rest| ==> rest[i] == rs[i + 1];
      }
      TailHolds(env1, job, rs, w1, w2.server);
      HoldsByStore(env1, job, rest, w1', w2.server, w2'.server);
      ListRepeats(env1, env2, job, rest, w1', w2');
      SilentCons(env2, job, rs, w2);
    }
  }

  lemma HoldsByStore(env: Env, job: Job, rs: seq<Reconciler>, w: World, a: Server, b: Server)
    requires ReferencesHold(env, job, rs, w, a) && a.store == b.store
    ensures ReferencesHold(env, job, rs, w, b)
  {
    forall i, key | 0 <= i < |rs| && Refers(job, rs[i], key)
      ensures Peek(Exec(env, job, rs[..i], w).server, key) == Peek(b, key)
    {
      assert Peek(Exec(env, job, rs[..i], w).server, key) == Peek(a, key);
    }
  }

  lemma HeadIsReady(env1: Env, env2: Env, job: Job, rs: seq<Reconciler>, w1: World, w2: World)
    requires |rs| > 0 && rs[0] != Finalizer
    requires Quiet(env1) && Ordered(job, rs) && AllFine(env1, job, rs, w1)
    requires w2.server.store.objects == Exec(env1, job, rs, w1).server.store.objects
    requires w2.template == w1.template && w2.monitor == w1.monitor
    requires TokenLasts(env2, job, w2.server) && ReferencesHold(env1, job, rs, w1, w2.server)
    ensures Ready(env1, env2, job, rs[0], w1, w2)
  {
    var r, rest := rs[0], rs[1..];
    forall key | Uses(job, r, key) ensures Peek(w1.server, key) == Peek(w2.server, key) {
      if Refers(job, r, key) {
        assert rs[..0] == [];
      } else {
        QuietLeaves(env1, key);
        assert NoneTargets(job, rs, key);
        ExecFrame(env1, job, rs, w1, key);
      }
    }
    if Target(job, r).Some? {
      var key := Target(job, r).value;
      QuietLeaves(env1, key);
      assert NoneTargets(job, rest, key) by {
        forall q | q in rest ensures Target(job, q) != Some(key) {
          var j :| 0 <= j < |rest| && rest[j] == q;
          assert rs[j + 1] == q;
        }
      }
      ExecFrame(env1, job, rest, Step(env1, job, r, w1).1, key);
    }
  }
}
