/** The token as a timed protocol of two controllers: one issues, the other deletes in time.
    Times and durations are in nanoseconds. */
module TokenLifecycle {
  import opened Common
  import opened Api
  import opened ClusterModel
  import opened Steps
  import opened Runner
  import opened Repeat
  import opened TokenExpiry

  // ---- what the two controllers do to the stored expiry ----------------------

  /** `refresh` is the check interval, `late` the most a check can be late, `ttl` the lifetime
      that new tokens are given. */
  datatype Timing = Timing(refresh: int, late: int, ttl: int)

  function Renewed(stored: Option<int>, now: int, ttl: int): Option<int> {
    if stored.None? || now > stored.value - TOKEN_BUFFER then Some(FloorSecond(now + ttl)) else stored
  }

  function Checked(stored: Option<int>, now: int, refresh: int): Option<int> {
    if stored.Some? && TooOld(stored.value, now, refresh) then None else stored
  }

  function StoredExpiry(lib: Lib, s: Server, key: Key): Option<int> {
    match Peek(s, key)
    case None => None
    case Some(o) => if ExpirationOf(lib, o).At? then Some(ExpirationOf(lib, o).time) else None
  }

  /** Nobody interferes, nothing fails, and all of it happens at one moment. */
  ghost predicate Moment(env: Env, now: int) {
    Calm(env) && forall n: nat :: env.now(n) == now
  }

  /** Time stamps of whole seconds survive being written and read. */
  ghost predicate StampsReadBack(lib: Lib) {
    forall t: int :: lib.parseTime(lib.formatTime(FloorSecond(t))) == Some(FloorSecond(t))
  }

  /** The token step, when RBAC and user-workload monitoring are on, renews the stored expiry. */
  lemma TokenStepRenews(env: Env, job: Job, s: Server, now: int)
    requires Moment(env, now) && StampsReadBack(job.lib)
    requires EnableRBAC(job.spec) && EnableUWM(job.spec) && Peek(s, UwmAccountKey()).Some?
    requires var token := Peek(s, TokenSecretKey(job)); token.Some? ==> ExpirationOf(job.lib, token.value).At?
    ensures var (r, s') := TokenStep(env, job, s);
            var key := TokenSecretKey(job);
            r == OK && StoredExpiry(job.lib, s', key) == Renewed(StoredExpiry(job.lib, s, key), now, job.ttl)
  {
    var key := TokenSecretKey(job);
    CalmAwait(env, s, UwmAccountKey(), true, AwaitPolls(job), TIMEOUT);
    var s1 := s.(calls := s.calls + 1);
    CalmAwait(env, s1, key, false, AwaitPolls(job), TIMEOUT);
    var s2 := s1.(calls := s1.calls + 1);
    var stored := StoredExpiry(job.lib, s, key);
    if stored.None? || now > stored.value - TOKEN_BUFFER {
      IssueSets(env, job, s2, now);
    }
  }

  lemma IssueSets(env: Env, job: Job, s: Server, now: int)
    requires Moment(env, now) && StampsReadBack(job.lib)
    ensures Issue(env, job, s).0 == OK
    ensures StoredExpiry(job.lib, Issue(env, job, s).1, TokenSecretKey(job)) == Some(FloorSecond(now + job.ttl))
  {
    var key := TokenSecretKey(job);
    var stamp := job.lib.formatTime(FloorSecond(now + job.ttl));
    AppliedEntriesAreVisible(Secret, Peek(s, key), TokenFields(env.token(s.calls), stamp), TOKEN_EXPIRATION);
    assert env.now(s.calls + 1) == now;
  }

  /** A check of an annotated Secret that nothing holds back checks the stored expiry. */
  lemma CheckChecks(env: Env, job: Job, refresh: int, s: Server, key: Key, now: int)
    requires Moment(env, now)
    requires Peek(s, key).Some? ==> !Peek(s, key).value.held && ExpirationOf(job.lib, Peek(s, key).value).At?
    ensures var (verdict, s') := Check(env, job, refresh, s, key);
            && verdict.Verdict? && verdict.error.None?
            && StoredExpiry(job.lib, s', key) == Checked(StoredExpiry(job.lib, s, key), now, refresh)
  {
    var s1 := s.(calls := s.calls + 1);
    CalmGet(env, s, key);
    CalmDelete(env, job, s1, key);
    CalmLeaves(env, key);
    CheckMeaning(env, job, refresh, s, key);
    assert env.now(s.calls + 1) == now;
  }

  lemma CalmDelete(env: Env, job: Job, s: Server, key: Key)
    requires Calm(env) && (Peek(s, key).Some? ==> !Peek(s, key).value.held)
    ensures DeleteSecret(env, job, s, key).0 == Verdict(false, 0, None)
  {
    var s1 := DeleteCall(env, s, key).1;
    assert Peek(s1, key) == None;
    CalmGet(env, s1, key);
    var r := Deleter(key, Continue, 0);
    assert [r][1..] == [];
    var (result, w) := Step(env, job, r, World(s, map[], map[]));
    assert result == OK;
    assert RunFrom(env, job, [], w, Later(None, result.error)) == (Verdict(false, 0, None), w);
  }

  // ---- histories ------------------------------------------------------------

  /** The operator reconciles, the expiry controller checks, the token disappears (with a change of
      mode, or by another hand), or time just passes. */
  datatype Act = Reconcile(at: int) | CheckToken(at: int) | Vanish(at: int) | Wait(at: int)

  /** `due` is when the stored token is next to be checked; `issues` are the times of issue. */
  datatype Clocked = Clocked(now: int, stored: Option<int>, due: int, issues: seq<int>)

  const IDLE := Clocked(0, None, 0, [])

  function After(p: Timing, c: Clocked, a: Act): Clocked {
    match a
    case Wait(at) => c.(now := at)
    case Vanish(at) => c.(now := at, stored := None)
    case CheckToken(at) => Clocked(at, Checked(c.stored, at, p.refresh), at + p.refresh, c.issues)
    case Reconcile(at) =>
      if c.stored.None? || at > c.stored.value - TOKEN_BUFFER then
        Clocked(at, Renewed(c.stored, at, p.ttl), at, c.issues + [at])
      else c.(now := at)
  }

  /** Time goes forward, and not past the latest moment for the check that is due. */
  predicate Punctual(p: Timing, c: Clocked, a: Act) {
    c.now <= a.at && (c.stored.Some? ==> a.at <= c.due + p.late)
  }

  function Play(p: Timing, acts: seq<Act>): Clocked {
    if |acts| == 0 then IDLE else After(p, Play(p, acts[..|acts| - 1]), acts[|acts| - 1])
  }

  predicate AllPunctual(p: Timing, acts: seq<Act>) {
    forall i {:trigger acts[i]} :: 0 <= i < |acts| ==> Punctual(p, Play(p, acts[..i]), acts[i])
  }

  lemma LastAct(p: Timing, acts: seq<Act>)
    requires |acts| > 0 && AllPunctual(p, acts)
    ensures var n := |acts| - 1;
            AllPunctual(p, acts[..n]) && Punctual(p, Play(p, acts[..n]), acts[n])
            && Play(p, acts) == After(p, Play(p, acts[..n]), acts[n])
  {
    var n := |acts| - 1;
    forall i {:trigger acts[..n][i]} | 0 <= i < n ensures Punctual(p, Play(p, acts[..n][..i]), acts[..n][i]) {
      assert acts[..n][..i] == acts[..i] && acts[..n][i] == acts[i];
    }
    assert acts[n] == acts[n];
  }

  lemma FloorBounds(t: int)
    ensures t - SECOND < FloorSecond(t) <= t
  {
  }

  // ---- safety ---------------------------------------------------------------

  /** The next check is due at least one interval before the expiry. */
  predicate CheckedInTime(p: Timing, c: Clocked) {
    c.stored.Some? ==> c.due <= c.stored.value - p.refresh && c.now <= c.due + p.late
  }

  lemma ActKeepsInTime(p: Timing, c: Clocked, a: Act)
    requires 0 <= p.late < p.refresh && p.ttl >= p.refresh + SECOND
    requires CheckedInTime(p, c) && Punctual(p, c, a)
    ensures CheckedInTime(p, After(p, c, a))
  {
    FloorBounds(a.at + p.ttl);
  }

  /** Timed token safety: with checks at most `late` late, late < refresh and a lifetime of at
      least one interval and a second, whatever the controllers do and when, a stored token has
      never less than refresh - late to live; so no expired token is ever stored. */
  lemma {:induction false} StoredTokenIsAlive(p: Timing, acts: seq<Act>)
    requires 0 <= p.late < p.refresh && p.ttl >= p.refresh + SECOND
    requires AllPunctual(p, acts)
    ensures var c := Play(p, acts);
            CheckedInTime(p, c) && (c.stored.Some? ==> c.now <= c.stored.value - p.refresh + p.late < c.stored.value)
    decreases |acts|
  {
    if |acts| > 0 {
      LastAct(p, acts);
      StoredTokenIsAlive(p, acts[..|acts| - 1]);
      ActKeepsInTime(p, Play(p, acts[..|acts| - 1]), acts[|acts| - 1]);
    }
  }

  // ---- churn ----------------------------------------------------------------

  /** The first check after an issue keeps the token when the lifetime leaves room for two
      intervals, a second and the lateness; with a lifetime under two intervals it deletes it. */
  lemma FirstCheck(p: Timing, issued: int, at: int)
    requires 0 <= p.late && issued <= at <= issued + p.late
    ensures var token := Some(FloorSecond(issued + p.ttl));
            && (p.ttl >= 2 * p.refresh + SECOND + p.late ==> Checked(token, at, p.refresh) == token)
            && (p.ttl < 2 * p.refresh ==> Checked(token, at, p.refresh) == None)
  {
    FloorBounds(issued + p.ttl);
  }

  function Gap(p: Timing): int {
    p.ttl - 2 * p.refresh - SECOND
  }

  predicate Spread(issues: seq<int>, gap: int) {
    forall i :: 0 <= i < |issues| - 1 ==> issues[i + 1] - issues[i] > gap
  }

  /** Two issues are far apart, and the last one is far back as soon as another can follow. */
  predicate Spaced(p: Timing, c: Clocked) {
    && Spread(c.issues, Gap(p))
    && (|c.issues| == 0 ==> c.stored.None?)
    && (|c.issues| > 0 ==>
          var last := c.issues[|c.issues| - 1];
          && last <= c.now
          && (if c.stored.Some? then c.stored.value == FloorSecond(last + p.ttl)
              else c.now > FloorSecond(last + p.ttl) - 2 * p.refresh))
  }

  lemma SpreadGrows(issues: seq<int>, gap: int, at: int)
    requires Spread(issues, gap) && (|issues| > 0 ==> at - issues[|issues| - 1] > gap)
    ensures Spread(issues + [at], gap)
  {
  }

  lemma ActKeepsSpaced(p: Timing, c: Clocked, a: Act)
    requires 2 * p.refresh >= TOKEN_BUFFER && !a.Vanish?
    requires Spaced(p, c) && Punctual(p, c, a)
    ensures Spaced(p, After(p, c, a))
  {
    if |c.issues| > 0 {
      FloorBounds(c.issues[|c.issues| - 1] + p.ttl);
    }
    if a.Reconcile? && (c.stored.None? || a.at > c.stored.value - TOKEN_BUFFER) {
      SpreadGrows(c.issues, Gap(p), a.at);
    }
  }

  /** RBAC and user-workload monitoring stay on, and nobody else deletes the token. */
  predicate StaysWanted(acts: seq<Act>) {
    forall i :: 0 <= i < |acts| ==> !acts[i].Vanish?
  }

  /** Churn: with at least a minute in two intervals, any two consecutive issues are more than
      ttl - 2 refresh - 1s apart, whatever the controllers do and when, while the token stays
      wanted. */
  lemma {:induction false} IssuesAreSpread(p: Timing, acts: seq<Act>)
    requires 2 * p.refresh >= TOKEN_BUFFER && AllPunctual(p, acts) && StaysWanted(acts)
    ensures Spaced(p, Play(p, acts)) && Spread(Play(p, acts).issues, Gap(p))
    decreases |acts|
  {
    if |acts| > 0 {
      LastAct(p, acts);
      IssuesAreSpread(p, acts[..|acts| - 1]);
      ActKeepsSpaced(p, Play(p, acts[..|acts| - 1]), acts[|acts| - 1]);
    }
  }

  lemma {:induction false} SpreadAddsUp(issues: seq<int>, gap: int, i: nat, j: nat)
    requires Spread(issues, gap) && i <= j < |issues|
    ensures issues[j] - issues[i] >= (j - i) * gap + (j - i)
    decreases j - i
  {
    if i < j {
      SpreadAddsUp(issues, gap, i, j - 1);
      assert issues[(j - 1) + 1] - issues[j - 1] > gap;
      assert (j - i) * gap == (j - 1 - i) * gap + gap;
    }
  }

  lemma ScaleUp(a: int, b: int, g: int)
    requires a <= b && g > 0
    ensures a * g <= b * g
  {
  }

  lemma Quotient(h: nat, gap: int, k: nat)
    requires gap > 0 && k * gap <= h
    ensures k <= h / gap
  {
    var q := h / gap;
    assert h == q * gap + h % gap && h % gap < gap;
    assert (q + 1) * gap == q * gap + gap;
    if q + 1 <= k {
      ScaleUp(q + 1, k, gap);
    }
  }

  lemma SpreadCount(issues: seq<int>, gap: int, i: nat, j: nat, h: nat)
    requires Spread(issues, gap) && gap > 0 && i <= j < |issues| && issues[j] - issues[i] <= h
    ensures j - i <= h / gap
  {
    SpreadAddsUp(issues, gap, i, j);
    Quotient(h, gap, j - i);
  }

  /** Any stretch of issues within a horizon h numbers at most h / gap + 1. */
  lemma IssuesInHorizon(p: Timing, acts: seq<Act>, i: nat, j: nat, h: nat)
    requires 2 * p.refresh >= TOKEN_BUFFER && Gap(p) > 0 && AllPunctual(p, acts) && StaysWanted(acts)
    requires i <= j < |Play(p, acts).issues| && Play(p, acts).issues[j] - Play(p, acts).issues[i] <= h
    ensures j - i + 1 <= h / Gap(p) + 1
  {
    IssuesAreSpread(p, acts);
    SpreadCount(Play(p, acts).issues, Gap(p), i, j, h);
  }
}
