/** The controller that deletes the token Secret before the token expires. */
module TokenExpiry {
  import opened Common
  import opened Api
  import opened ClusterModel
  import opened Steps
  import opened Runner
  import opened Reconcilers
  import opened Frames
  import opened Repeat

  const MALFORMED_DELAY := 300 * SECOND

  /** The refresh interval is `refresh`; a token is due for deletion two intervals early. */
  predicate TooOld(expiry: int, now: int, refresh: int) {
    now > expiry - refresh * 2
  }

  ghost function DeleteSecret(env: Env, job: Job, s: Server, key: Key): (Verdict, Server) {
    var (verdict, w) := Run(env, job, [Deleter(key, Continue, 0)], World(s, map[], map[]));
    (verdict, w.server)
  }

  ghost function Check(env: Env, job: Job, refresh: int, s: Server, key: Key): (Verdict, Server) {
    var (r, s1) := GetCall(env, s, key);
    match r
    case Missing => (Verdict(false, 0, None), s1)
    case GetFailed(e) => (Verdict(false, 0, Some(e)), s1)
    case Found(o) =>
      match ExpirationOf(job.lib, o)
      case Unannotated => DeleteSecret(env, job, s1, key)
      case Malformed => (Verdict(false, MALFORMED_DELAY, None), s1)
      case At(t) =>
        if TooOld(t, env.now(s1.calls), refresh) then DeleteSecret(env, job, s1, key)
        else (Verdict(false, refresh, None), s1)
  }

  method DeleteResources(session: Session, keys: seq<Key>) returns (verdict: Verdict)
    requires session.Valid()
    modifies session.cluster, session.template, session.monitor
    ensures (verdict, session.State())
         == Run(session.cluster.env, session.job,
                seq(|keys|, i requires 0 <= i < |keys| => Deleter(keys[i], Continue, 0)), old(session.State()))
  {
    var reconcilers: seq<Reconciler> := [];
    for i := 0 to |keys|
      invariant |reconcilers| == i && forall j :: 0 <= j < i ==> reconcilers[j] == Deleter(keys[j], Continue, 0)
    {
      reconcilers := reconcilers + [Deleter(keys[i], Continue, 0)];
    }
    assert reconcilers == seq(|keys|, i requires 0 <= i < |keys| => Deleter(keys[i], Continue, 0));
    verdict := session.Run(reconcilers);
  }

  method ReconcileSecret(cluster: Cluster, job: Job, refresh: int, key: Key) returns (verdict: Verdict)
    modifies cluster
    ensures (verdict, cluster.State()) == Check(cluster.env, job, refresh, old(cluster.State()), key)
  {
    var got := cluster.Get(key);
    if got.Missing? {
      return Verdict(false, 0, None);
    }
    if got.GetFailed? {
      return Verdict(false, 0, Some(got.error));
    }
    var expiration := ExpirationOf(job.lib, got.item);
    var expired := expiration.Unannotated?;
    if expiration.Malformed? {
      return Verdict(false, MALFORMED_DELAY, None);
    }
    if expiration.At? {
      expired := cluster.env.now(cluster.calls) > expiration.time - refresh * 2;
    }
    if expired {
      var session := new Session(job, cluster);
      assert seq(|[key]|, i requires 0 <= i < |[key]| => Deleter([key][i], Continue, 0)) == [Deleter(key, Continue, 0)];
      verdict := DeleteResources(session, [key]);
      return;
    }
    return Verdict(false, refresh, None);
  }

  // ---- what a check does ----------------------------------------------------

  /** A stored Secret is deleted when its token is too old or its expiry unknown. */
  predicate Doomed(lib: Lib, o: Object, now: int, refresh: int) {
    match ExpirationOf(lib, o)
    case Unannotated => true
    case Malformed => false
    case At(t) => TooOld(t, now, refresh)
  }

  lemma DeleteMeaning(env: Env, job: Job, s: Server, key: Key)
    requires DeleteSecret(env, job, s, key).0.Verdict? && DeleteSecret(env, job, s, key).0.error.None?
    ensures Peek(DeleteSecret(env, job, s, key).1, key) == None
    ensures DeleteSecret(env, job, s, key).0 == Verdict(false, 0, None)
  {
    var r := Deleter(key, Continue, 0);
    var (result, w) := Step(env, job, r, World(s, map[], map[]));
    assert [r][1..] == [];
    assert RunFrom(env, job, [], w, Later(None, result.error)) == (Verdict(false, 0, result.error), w);
    RemoveSettles(env, s, key, Continue, 0);
  }

  /** A check that ends without error has left a Secret as it was, or absent exactly when it was
      doomed at the time of the check; only a kept and readable token asks to be checked again
      after one interval. */
  lemma CheckMeaning(env: Env, job: Job, refresh: int, s: Server, key: Key)
    requires Leaves(env, key)
    ensures var (verdict, s') := Check(env, job, refresh, s, key);
            var stored, now := Peek(s, key), env.now(s.calls + 1);
            verdict.Verdict? && verdict.error.None? ==>
              && Peek(s', key) == (if stored.Some? && Doomed(job.lib, stored.value, now, refresh) then None else stored)
              && (Peek(s', key).Some? ==>
                    var readable := ExpirationOf(job.lib, stored.value).At?;
                    verdict.requeueAfter == if readable then refresh else MALFORMED_DELAY)
  {
    TickFrame(env, s, key);
    var s1 := GetCall(env, s, key).1;
    var verdict := DeleteSecret(env, job, s1, key).0;
    if verdict.Verdict? && verdict.error.None? {
      DeleteMeaning(env, job, s1, key);
    }
  }

  /** A Secret whose annotation is not a time is left alone and looked at again after five minutes;
      one that cannot be read is an error, and one that is gone is not. */
  lemma CheckLeaves(env: Env, job: Job, refresh: int, s: Server, key: Key)
    ensures match GetCall(env, s, key).0
            case Missing => Check(env, job, refresh, s, key) == (Verdict(false, 0, None), Ticked(env, s))
            case GetFailed(e) => Check(env, job, refresh, s, key) == (Verdict(false, 0, Some(e)), Ticked(env, s))
            case Found(o) =>
              var stamp := Lookup(Annotations(o), "powermonitor.sustainable.computing.io/secret-token-expiration");
              stamp.Some? && job.lib.parseTime(stamp.value).None? ==>
                Check(env, job, refresh, s, key) == (Verdict(false, 300_000_000_000, None), Ticked(env, s))
  {
  }

  // ---- the token step's one panic -------------------------------------------

  /** In a calm world the token step panics exactly when the mode wants a token, the service
      account exists, and the stored Secret has no expiration annotation. */
  lemma PanicsExactlyWhen(env: Env, job: Job, s: Server)
    requires Calm(env)
    ensures TokenStep(env, job, s).0.Panic? <==>
              && EnableRBAC(job.spec) && EnableUWM(job.spec)
              && Peek(s, UwmAccountKey()).Some?
              && Peek(s, TokenSecretKey(job)).Some?
              && ExpirationOf(job.lib, Peek(s, TokenSecretKey(job)).value).Unannotated?
  {
    if EnableRBAC(job.spec) && EnableUWM(job.spec) {
      var account := Peek(s, UwmAccountKey());
      if account.Some? {
        CalmAwait(env, s, UwmAccountKey(), true, AwaitPolls(job), TIMEOUT);
        CalmAwait(env, s.(calls := s.calls + 1), TokenSecretKey(job), false, AwaitPolls(job), TIMEOUT);
      } else {
        AwaitKeepsLooking(env, s, UwmAccountKey(), AwaitPolls(job), TIMEOUT);
      }
    }
  }

  lemma {:induction false} AwaitKeepsLooking(env: Env, s: Server, key: Key, attempts: nat, last: Error)
    requires Calm(env) && Peek(s, key) == None
    ensures Await(env, s, key, true, attempts, last).0.GetFailed?
    decreases attempts
  {
    if attempts > 0 {
      CalmGet(env, s, key);
      AwaitKeepsLooking(env, s.(calls := s.calls + 1), key, attempts - 1, OtherError("missing " + key.name));
    }
  }
}
