/** Running a list of reconcilers, and what the loop amounts to. */
module Runner {
  import opened Common
  import opened Api
  import opened ClusterModel
  import opened Steps

  const REQUEUE_DELAY := 5 * SECOND

  /** What a reconcile reports to the work queue; delays are in nanoseconds. */
  datatype Verdict = Verdict(requeue: bool, requeueAfter: int, error: Option<Error>) | Panicked

  function Later(error: Option<Error>, newer: Option<Error>): Option<Error> {
    if newer.Some? then newer else error
  }

  /** The loop, with the error that has survived so far. */
  ghost function RunFrom(env: Env, job: Job, rs: seq<Reconciler>, w: World, err: Option<Error>): (Verdict, World)
    decreases |rs|
  {
    if |rs| == 0 then (Verdict(false, 0, err), w)
    else
      var (r, w') := Step(env, job, rs[0], w);
      if r.Panic? then (Panicked, w')
      else
        var err' := Later(err, r.error);
        match r.action
        case Continue => RunFrom(env, job, rs[1..], w', err')
        case Stop => (Verdict(err'.None?, 0, err'), w')
        case Requeue => (Verdict(false, REQUEUE_DELAY, None), w')
  }

  ghost function Run(env: Env, job: Job, rs: seq<Reconciler>, w: World): (Verdict, World) {
    RunFrom(env, job, rs, w, None)
  }

  // ---- an independent reading -----------------------------------------------

  /** The state after all of `rs` in order, whatever their results. */
  ghost function Exec(env: Env, job: Job, rs: seq<Reconciler>, w: World): World
    decreases |rs|
  {
    if |rs| == 0 then w else Exec(env, job, rs[1..], Step(env, job, rs[0], w).1)
  }

  /** The result of the i-th reconciler when all before it have run. */
  ghost function ResultAt(env: Env, job: Job, rs: seq<Reconciler>, w: World, i: nat): Result
    requires i < |rs|
  {
    Step(env, job, rs[i], Exec(env, job, rs[..i], w)).0
  }

  predicate Continues(r: Result) {
    r.Result? && r.action == Continue
  }

  /** `n` reconcilers run: each but the last continues, and the list ends there or the last
      one does not continue. */
  ghost predicate RunsExactly(env: Env, job: Job, rs: seq<Reconciler>, w: World, n: nat) {
    && n <= |rs|
    && (forall i :: 0 <= i < n - 1 ==> Continues(ResultAt(env, job, rs, w, i)))
    && (n < |rs| ==> n > 0 && !Continues(ResultAt(env, job, rs, w, n - 1)))
  }

  /** `e` is the error of the last of the first `n` reconcilers that reports one. */
  ghost predicate IsLastError(env: Env, job: Job, rs: seq<Reconciler>, w: World, n: nat, e: Option<Error>)
    requires n <= |rs|
    requires forall i :: 0 <= i < n ==> ResultAt(env, job, rs, w, i).Result?
  {
    match e
    case None => forall i :: 0 <= i < n ==> ResultAt(env, job, rs, w, i).error == None
    case Some(_) =>
      exists k :: 0 <= k < n && ResultAt(env, job, rs, w, k).error == e
                  && forall i :: k < i < n ==> ResultAt(env, job, rs, w, i).error == None
  }

  lemma {:induction false} ExecSplits(env: Env, job: Job, a: seq<Reconciler>, b: seq<Reconciler>, w: World)
    ensures Exec(env, job, a + b, w) == Exec(env, job, b, Exec(env, job, a, w))
    decreases |a|
  {
    if |a| == 0 {
      assert a + b == b;
    } else {
      assert (a + b)[1..] == a[1..] + b;
      ExecSplits(env, job, a[1..], b, Step(env, job, a[0], w).1);
    }
  }

  lemma ExecLast(env: Env, job: Job, rs: seq<Reconciler>, r: Reconciler, w: World)
    ensures Exec(env, job, rs + [r], w) == Step(env, job, r, Exec(env, job, rs, w)).1
  {
    ExecSplits(env, job, rs, [r], w);
    assert [r][1..] == [];
  }

  lemma ExecSnoc(env: Env, job: Job, rs: seq<Reconciler>, w: World, n: nat)
    requires n < |rs|
    ensures Exec(env, job, rs[..n + 1], w) == Step(env, job, rs[n], Exec(env, job, rs[..n], w)).1
  {
    assert rs[..n + 1] == rs[..n] + [rs[n]];
    ExecLast(env, job, rs[..n], rs[n], w);
  }

  /** The first `k` reconcilers have continued, the last of their errors being `err`. */
  ghost predicate Reached(env: Env, job: Job, rs: seq<Reconciler>, w: World, k: nat, err: Option<Error>) {
    && k <= |rs|
    && (forall i :: 0 <= i < k ==> Continues(ResultAt(env, job, rs, w, i)))
    && IsLastError(env, job, rs, w, k, err)
  }

  lemma LastErrorSnoc(env: Env, job: Job, rs: seq<Reconciler>, w: World, k: nat, err: Option<Error>)
    requires Reached(env, job, rs, w, k, err) && k < |rs| && ResultAt(env, job, rs, w, k).Result?
    ensures IsLastError(env, job, rs, w, k + 1, Later(err, ResultAt(env, job, rs, w, k).error))
  {
    var newer := ResultAt(env, job, rs, w, k).error;
    if newer.None? && err.Some? {
      var j :| 0 <= j < k && ResultAt(env, job, rs, w, j).error == err
               && forall i :: j < i < k ==> ResultAt(env, job, rs, w, i).error == None;
      assert forall i :: j < i < k + 1 ==> ResultAt(env, job, rs, w, i).error == None;
    }
  }

  /** How the loop's outcome follows from the results of the `n` reconcilers that ran. */
  ghost predicate Explains(env: Env, job: Job, rs: seq<Reconciler>, w: World, n: nat, verdict: Verdict)
    requires n <= |rs|
  {
    if n > 0 && ResultAt(env, job, rs, w, n - 1).Panic? then verdict == Panicked
    else
      && verdict.Verdict?
      && (forall i :: 0 <= i < n ==> ResultAt(env, job, rs, w, i).Result?)
      && if n > 0 && ResultAt(env, job, rs, w, n - 1).action == Requeue then
           verdict == Verdict(false, REQUEUE_DELAY, None)
         else
           && verdict.requeueAfter == 0
           && IsLastError(env, job, rs, w, n, verdict.error)
           && (verdict.requeue <==> n > 0 && ResultAt(env, job, rs, w, n - 1).action == Stop && verdict.error == None)
  }

  /** The loop's next turn, by position. */
  lemma Turn(env: Env, job: Job, rs: seq<Reconciler>, w: World, k: nat, err: Option<Error>)
    requires k < |rs|
    ensures var r, w' := ResultAt(env, job, rs, w, k), Exec(env, job, rs[..k + 1], w);
            var turn :=
              if r.Panic? then (Panicked, w')
              else if r.action == Continue then RunFrom(env, job, rs[k + 1..], w', Later(err, r.error))
              else if r.action == Stop then (Verdict(Later(err, r.error).None?, 0, Later(err, r.error)), w')
              else (Verdict(false, REQUEUE_DELAY, None), w');
            RunFrom(env, job, rs[k..], Exec(env, job, rs[..k], w), err) == turn
  {
    ExecSnoc(env, job, rs, w, k);
    assert rs[k..][1..] == rs[k + 1..];
  }

  lemma EndsHere(env: Env, job: Job, rs: seq<Reconciler>, w: World, k: nat, err: Option<Error>)
    requires Reached(env, job, rs, w, k, err) && k < |rs| && !Continues(ResultAt(env, job, rs, w, k))
    ensures RunsExactly(env, job, rs, w, k + 1)
    ensures Explains(env, job, rs, w, k + 1, RunFrom(env, job, rs[k..], Exec(env, job, rs[..k], w), err).0)
  {
    Turn(env, job, rs, w, k, err);
    if ResultAt(env, job, rs, w, k).Result? {
      LastErrorSnoc(env, job, rs, w, k, err);
    }
  }

  lemma {:induction false} RunFromMeaning(env: Env, job: Job, rs: seq<Reconciler>, w: World, k: nat, err: Option<Error>)
    returns (n: nat)
    requires Reached(env, job, rs, w, k, err)
    ensures k <= n && RunsExactly(env, job, rs, w, n)
    ensures var (verdict, w') := RunFrom(env, job, rs[k..], Exec(env, job, rs[..k], w), err);
            w' == Exec(env, job, rs[..n], w) && Explains(env, job, rs, w, n, verdict)
    decreases |rs| - k
  {
    if k == |rs| {
      n := k;
    } else {
      Turn(env, job, rs, w, k, err);
      var r := ResultAt(env, job, rs, w, k);
      if Continues(r) {
        LastErrorSnoc(env, job, rs, w, k, err);
        n := RunFromMeaning(env, job, rs, w, k + 1, Later(err, r.error));
      } else {
        n := k + 1;
        EndsHere(env, job, rs, w, k, err);
      }
    }
  }

  /** For every list, cluster and outside world, a run executes exactly the shortest prefix
      that ends with a reconciler that does not continue (or the whole list), composes their
      effects in order, and reports: nothing but a five-second delay if it ended by Requeue;
      otherwise the last error of the prefix, asking to be requeued at once exactly when it
      ended by Stop without any error. */
  lemma RunMeaning(env: Env, job: Job, rs: seq<Reconciler>, w: World) returns (n: nat)
    ensures RunsExactly(env, job, rs, w, n)
    ensures Run(env, job, rs, w).1 == Exec(env, job, rs[..n], w)
    ensures Explains(env, job, rs, w, n, Run(env, job, rs, w).0)
  {
    assert rs[0..] == rs;
    n := RunFromMeaning(env, job, rs, w, 0, None);
  }

  // ---- runs in which every step does its work -------------------------------

  /** A step that does all its work. Missing referenced Secrets are reported, not fatal. */
  predicate Fine(r: Result) {
    r.Result? && r.action == Continue && (r.error == None || r.error.value.SecretNotFound?)
  }

  ghost predicate AllFine(env: Env, job: Job, rs: seq<Reconciler>, w: World)
    decreases |rs|
  {
    |rs| == 0 || (Fine(Step(env, job, rs[0], w).0) && AllFine(env, job, rs[1..], Step(env, job, rs[0], w).1))
  }

  lemma {:induction false} AllFineSplits(env: Env, job: Job, a: seq<Reconciler>, b: seq<Reconciler>, w: World)
    ensures AllFine(env, job, a + b, w) <==> AllFine(env, job, a, w) && AllFine(env, job, b, Exec(env, job, a, w))
    decreases |a|
  {
    if |a| == 0 {
      assert a + b == b;
    } else {
      assert (a + b)[1..] == a[1..] + b;
      AllFineSplits(env, job, a[1..], b, Step(env, job, a[0], w).1);
    }
  }

  /** A run whose first part is fine goes on with the second part. */
  lemma {:induction false} RunPastFine(env: Env, job: Job, a: seq<Reconciler>, b: seq<Reconciler>, w: World,
                                       err: Option<Error>)
    returns (err': Option<Error>)
    requires AllFine(env, job, a, w)
    ensures RunFrom(env, job, a + b, w, err) == RunFrom(env, job, b, Exec(env, job, a, w), err')
    ensures err' == err || (err'.Some? && err'.value.SecretNotFound?)
    decreases |a|
  {
    if |a| == 0 {
      assert a + b == b;
      err' := err;
    } else {
      assert (a + b)[1..] == a[1..] + b;
      var (r, w') := Step(env, job, a[0], w);
      err' := RunPastFine(env, job, a[1..], b, w', Later(err, r.error));
    }
  }

  /** A run whose first part is fine and whose next step stops with an error ends there with it. */
  lemma RunStops(env: Env, job: Job, pre: seq<Reconciler>, r: Reconciler, rest: seq<Reconciler>, w: World, e: Error)
    requires AllFine(env, job, pre, w)
    requires Step(env, job, r, Exec(env, job, pre, w)).0 == Result(Stop, Some(e))
    ensures Run(env, job, pre + [r] + rest, w)
         == (Verdict(false, 0, Some(e)), Step(env, job, r, Exec(env, job, pre, w)).1)
  {
    assert pre + [r] + rest == pre + ([r] + rest);
    var err := RunPastFine(env, job, pre, [r] + rest, w, None);
  }
}
