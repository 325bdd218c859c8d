/** One reconcile of a PowerMonitorInternal: read it, run its reconcilers, record the status. */
module Controller {
  import opened Common
  import opened Api
  import opened ClusterModel
  import opened Steps
  import opened Runner
  import opened Reconcilers
  import opened Conditions

  /** The operator's settings and the resource's name. */
  datatype Setup = Setup(name: string, platform: Platform, ttl: int, lib: Lib)

  function JobFor(setup: Setup, p: Pmi): Job {
    Job(setup.name, p.spec, p.deleting, setup.platform, setup.ttl, setup.lib)
  }

  function ReadyForRun(s: Server): World {
    World(s, map[], map[])
  }

  // ---- the status pass ------------------------------------------------------

  function DaemonSetOf(setup: Setup, p: Pmi): Key {
    Key(DaemonSet, p.spec.deployment.namespace, setup.name)
  }

  function SeenAs(key: Key, r: GetResult): DaemonSetSeen {
    match r
    case Found(o) => Seen(key.ns + "/" + key.name, o.generation, o.rollout.observedGeneration, o.rollout.counters)
    case Missing => Absent("daemonsets.apps \"" + key.name + "\" not found")
    case GetFailed(e) => Unreadable(Message(e))
  }

  datatype Recorded = Recorded(error: Option<Error>) | Crashed

  function Record(env: Env, s: Server, p: Pmi, next: Status): (Recorded, Server) {
    if next == p.status then (Recorded(None), s)
    else
      var (err, s') := UpdatePmiCall(env, s, p, p.(status := next));
      (Recorded(err), s')
  }

  /** One attempt; a resource that is gone, unreadable or being deleted is skipped. */
  function StatusAttempt(env: Env, setup: Setup, s: Server, recErr: Option<Error>): (Recorded, Server) {
    var (r, s1) := GetPmiCall(env, s);
    if !r.PmiFound? || r.pmi.deleting then (Recorded(None), s1)
    else
      var first, now := env.coin(s1.calls), env.now(s1.calls);
      var (got, s2) := GetCall(env, s1, DaemonSetOf(setup, r.pmi));
      var input := PassInput(r.pmi.generation, SeenAs(DaemonSetOf(setup, r.pmi), got), recErr, now, first);
      match Pass(r.pmi.status, input)
      case None => (Crashed, if Has(Sanitized(r.pmi.status.conditions, first), Reconciled) then s2 else s1)
      case Some(next) => Record(env, s2, r.pmi, next)
  }

  const STATUS_ATTEMPTS := 4

  /** Attempts are repeated on conflicts only. */
  function StatusPass(env: Env, setup: Setup, s: Server, recErr: Option<Error>, attempts: nat): (Recorded, Server)
    requires attempts > 0
    decreases attempts
  {
    var (r, s') := StatusAttempt(env, setup, s, recErr);
    if r == Recorded(Some(ConflictError)) && attempts > 1 then
      StatusPass(env, setup, s', recErr, attempts - 1)
    else (r, s')
  }

  // ---- the reconcile --------------------------------------------------------

  ghost function Reconcile(env: Env, setup: Setup, s: Server): (Verdict, Server) {
    var (r, s1) := GetPmiCall(env, s);
    match r
    case PmiFailed(e) => (Verdict(false, 0, Some(e)), s1)
    case PmiMissing => (Verdict(false, 0, None), s1)
    case PmiFound(p) =>
      var job := JobFor(setup, p);
      var (verdict, w) := Run(env, job, Steps.Reconcilers(job), ReadyForRun(s1));
      if verdict.Panicked? then (Panicked, w.server)
      else
        var (recorded, s2) := StatusPass(env, setup, w.server, verdict.error, STATUS_ATTEMPTS);
        if recorded.Crashed? then (Panicked, s2)
        else if verdict.error.Some? then (verdict, s2)
        else (verdict.(error := recorded.error), s2)
  }

  method WriteIfChanged(cluster: Cluster, p: Pmi, changed: bool, next: Status) returns (r: Recorded)
    requires changed <==> next != p.status
    modifies cluster
    ensures (r, cluster.State()) == Record(cluster.env, old(cluster.State()), p, next)
  {
    if !changed {
      return Recorded(None);
    }
    var err := cluster.UpdatePmi(p, p.(status := next));
    return Recorded(err);
  }

  method AttemptStatus(cluster: Cluster, setup: Setup, recErr: Option<Error>) returns (r: Recorded)
    modifies cluster
    ensures (r, cluster.State()) == StatusAttempt(cluster.env, setup, old(cluster.State()), recErr)
  {
    var got := cluster.GetPmi();
    if !got.PmiFound? || got.pmi.deleting {
      return Recorded(None);
    }
    var p := got.pmi;
    var record := new StatusRecord(p.generation, p.status);
    var first := cluster.env.coin(cluster.calls);
    record.Sanitize(first);
    var now := cluster.env.now(cluster.calls);
    var panics, reconciledChanged := record.UpdateReconciledStatus(recErr, now);
    if panics {
      return Crashed;
    }
    ghost var c1 := record.conditions[..];
    var ds := cluster.Get(DaemonSetOf(setup, p));
    var availableChanged;
    panics, availableChanged := record.UpdateAvailableStatus(SeenAs(DaemonSetOf(setup, p), ds), recErr, now);
    if panics {
      return Crashed;
    }
    ghost var input := PassInput(p.generation, SeenAs(DaemonSetOf(setup, p), ds), recErr, now, first);
    PassByParts(p.status, input, c1, record.conditions[..]);
    var changed := reconciledChanged || availableChanged;
    r := WriteIfChanged(cluster, p, changed,
                        if changed then Status(record.kepler, record.conditions[..]) else p.status);
  }

  method RecordStatus(cluster: Cluster, setup: Setup, recErr: Option<Error>) returns (r: Recorded)
    modifies cluster
    ensures (r, cluster.State()) == StatusPass(cluster.env, setup, old(cluster.State()), recErr, STATUS_ATTEMPTS)
  {
    var attempts: nat := STATUS_ATTEMPTS;
    r := AttemptStatus(cluster, setup, recErr);
    while r == Recorded(Some(ConflictError)) && attempts > 1
      invariant attempts > 0
      invariant StatusPass(cluster.env, setup, old(cluster.State()), recErr, STATUS_ATTEMPTS)
             == if r == Recorded(Some(ConflictError)) && attempts > 1
                then StatusPass(cluster.env, setup, cluster.State(), recErr, attempts - 1) else (r, cluster.State())
      decreases attempts
    {
      attempts := attempts - 1;
      r := AttemptStatus(cluster, setup, recErr);
    }
  }

  method ReconcileResource(cluster: Cluster, setup: Setup) returns (result: Verdict)
    modifies cluster
    ensures (result, cluster.State()) == Reconcile(cluster.env, setup, old(cluster.State()))
  {
    var got := cluster.GetPmi();
    if got.PmiFailed? {
      return Verdict(false, 0, Some(got.error));
    }
    if got.PmiMissing? {
      return Verdict(false, 0, None);
    }
    var job := JobFor(setup, got.pmi);
    var reconcilers := ReconcilersForPowerMonitor(job);
    var session := new Session(job, cluster);
    result := session.Run(reconcilers);
    if result.Panicked? {
      return;
    }
    var recorded := RecordStatus(cluster, setup, result.error);
    if recorded.Crashed? {
      return Panicked;
    }
    if result.error.None? {
      result := result.(error := recorded.error);
    }
  }
}
