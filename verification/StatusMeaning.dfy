/** What the recorded status says of the stored DaemonSet, and what becomes of a failed write. */
module StatusMeaning {
  import opened Common
  import opened Api
  import opened ClusterModel
  import opened Steps
  import opened Runner
  import opened Frames
  import opened ResourceFrames
  import opened Repeat
  import opened Decimal
  import opened Conditions
  import opened Controller
  import StatusProtocol
  import FinalizerSafety

  // ---- one attempt ----------------------------------------------------------

  /** Nobody else writes the resource's own record. */
  ghost predicate LeavesRecord(env: Env) {
    forall n: nat, st: Store :: env.tick(n, st).pmi == st.pmi
  }

  /** A live resource whose stored conditions are as the operator leaves them. */
  ghost predicate Live(s: Server, p: Pmi) {
    && s.store.pmi == Some(p) && !p.deleting
    && (p.status.conditions == [] || StatusProtocol.IsPair(p.status.conditions))
  }

  /** Nobody else writes the resource or its DaemonSet, and reading and writing the resource works;
      whether the DaemonSet can be read is open. */
  ghost predicate Undisturbed(env: Env, setup: Setup, s: Server, p: Pmi) {
    && Live(s, p) && LeavesRecord(env) && Leaves(env, Key(DaemonSet, p.spec.deployment.namespace, setup.name))
    && env.fault(s.calls) == Healthy && env.fault(s.calls + 2) == Healthy
  }

  /** The DaemonSet controller has seen the latest generation, and every scheduled pod is updated,
      available and none is missing. */
  predicate RolledOut(d: Object) {
    var c := d.rollout.counters;
    && d.generation <= d.rollout.observedGeneration
    && c.ready != 0 && c.desired != 0
    && c.updated >= c.desired && c.available >= c.desired && c.unavailable <= 0
  }

  /** Status and reason that the rollout alone calls for. */
  predicate ShowsRollout(d: Object, status: ConditionStatus, reason: Reason) {
    var c := d.rollout.counters;
    var seen := d.rollout.observedGeneration >= d.generation;
    var running := seen && c.ready != 0 && c.desired != 0;
    var updated := running && c.updated >= c.desired;
    var available := updated && c.available >= c.desired;
    && (!seen ==> status == IsUnknown && reason == DaemonSetOutOfSync)
    && (seen && !running ==> status == IsFalse && reason == DaemonSetPodsNotRunning)
    && (running && !updated ==> status == IsUnknown && reason == DaemonSetRolloutInProgress)
    && (updated && !available ==> status == IsUnknown && reason == DaemonSetPartiallyAvailable)
    && (available && c.unavailable > 0 ==> status == IsFalse && reason == DaemonSetPartiallyAvailable)
    && (available && c.unavailable <= 0 ==> status == IsTrue && reason == DaemonSetReady)
  }

  /** What Available says of a DaemonSet that was found. */
  predicate ShowsFound(a: Condition, d: Object, recErr: Option<Error>, generation: int) {
    match recErr
    case None => ShowsRollout(d, a.status, a.reason) && a.observedGeneration == generation
    case Some(SecretNotFound(missing, ns)) =>
      && a.status == IsDegraded && a.reason == SecretMissing && a.observedGeneration == 0
      && a.message == Message(SecretNotFound(missing, ns))
    case Some(_) => a.status == IsDegraded && a.reason == ReconcileError && a.observedGeneration == 0
  }

  /** What Available says after the DaemonSet was read, or could not be. */
  predicate ShowsAvailable(a: Condition, fate: Fault, d: Option<Object>, recErr: Option<Error>, generation: int) {
    if fate != Healthy then
      && a.status == IsUnknown && a.reason == DaemonSetError && a.observedGeneration == 0
      && (fate.Failing? ==> a.message == fate.text)
    else
      match d
      case None => a.status == IsFalse && a.reason == DaemonSetNotFound && a.observedGeneration == 0
      case Some(o) => ShowsFound(a, o, recErr, generation)
  }

  predicate ShowsReconciled(r: Condition, recErr: Option<Error>, generation: int) {
    && r.observedGeneration == generation
    && match recErr
       case None => r.status == IsTrue && r.reason == ReconcileComplete && r.message == "Reconcile succeeded"
       case Some(e) => r.status == IsFalse && r.reason == ReconcileError && r.message == Message(e)
  }

  /** An attempt as a pass over the facts that its calls meet. */
  function FactsOf(env: Env, setup: Setup, s: Server, p: Pmi, recErr: Option<Error>): PassInput {
    var key := DaemonSetOf(setup, p);
    var got := GetCall(env, Ticked(env, s), key).0;
    PassInput(p.generation, SeenAs(key, got), recErr, env.now(s.calls + 1), env.coin(s.calls + 1))
  }

  lemma AttemptIsAPass(env: Env, setup: Setup, s: Server, p: Pmi, recErr: Option<Error>)
    returns (s2: Server, next: Status)
    requires Live(s, p) && LeavesRecord(env) && env.fault(s.calls) == Healthy
    ensures s2.store.pmi == Some(p) && s2.calls == s.calls + 2
    ensures FactsOf(env, setup, s, p, recErr).now == env.now(s.calls + 1)
    ensures Pass(p.status, FactsOf(env, setup, s, p, recErr)) == Some(next)
    ensures StatusAttempt(env, setup, s, recErr) == Record(env, s2, p, next)
  {
    var facts := FactsOf(env, setup, s, p, recErr);
    StatusProtocol.PassOnPair(p.status, facts);
    s2, next := GetCall(env, Ticked(env, s), DaemonSetOf(setup, p)).1, Pass(p.status, facts).value;
  }

  lemma RolloutShows(name: string, d: Object)
    ensures var c := RolloutState(Seen(name, d.generation, d.rollout.observedGeneration, d.rollout.counters));
            ShowsRollout(d, c.status, c.reason) && c.observedGeneration == 0
  {
    var c := d.rollout.counters;
    var seen := Seen(name, d.generation, d.rollout.observedGeneration, c);
    if d.rollout.observedGeneration < d.generation {
      assert RolloutState(seen).reason == DaemonSetOutOfSync;
    } else if c.ready == 0 || c.desired == 0 {
      assert RolloutState(seen).reason == DaemonSetPodsNotRunning;
    } else if c.updated < c.desired {
      assert RolloutState(seen).reason == DaemonSetRolloutInProgress;
    } else if c.available < c.desired {
      assert RolloutState(seen).status == IsUnknown;
    } else if c.unavailable > 0 {
      assert RolloutState(seen).status == IsFalse;
    } else {
      assert RolloutState(seen).status == IsTrue;
    }
  }

  lemma FoundShows(name: string, d: Object, recErr: Option<Error>, generation: int)
    ensures ShowsFound(AvailableNow(generation, Seen(name, d.generation, d.rollout.observedGeneration,
                                                     d.rollout.counters), recErr), d, recErr, generation)
  {
    RolloutShows(name, d);
  }

  lemma UnfoundShows(text: string, fate: Fault, recErr: Option<Error>, generation: int)
    ensures ShowsAvailable(AvailableNow(generation, Absent(text), recErr), Healthy, None, recErr, generation)
    ensures fate != Healthy ==> forall d: Option<Object> ::
              ShowsAvailable(AvailableNow(generation, Unreadable(Message(FaultError(fate))), recErr), fate, d, recErr,
                             generation)
  {
  }

  lemma SeenInAttempt(env: Env, setup: Setup, s: Server, p: Pmi, recErr: Option<Error>)
    requires Undisturbed(env, setup, s, p)
    ensures var fate, d := env.fault(s.calls + 1), Peek(s, Key(DaemonSet, p.spec.deployment.namespace, setup.name));
            var seen := FactsOf(env, setup, s, p, recErr).seen;
            if fate != Healthy then seen == Unreadable(Message(FaultError(fate)))
            else if d.None? then seen.Absent?
            else seen.Seen? && seen == Seen(seen.name, d.value.generation, d.value.rollout.observedGeneration,
                                            d.value.rollout.counters)
  {
    var key := DaemonSetOf(setup, p);
    TickFrame(env, s, key);
    TickFrame(env, Ticked(env, s), key);
  }

  lemma FactsShow(env: Env, setup: Setup, s: Server, p: Pmi, recErr: Option<Error>)
    requires Undisturbed(env, setup, s, p)
    ensures var d := Peek(s, Key(DaemonSet, p.spec.deployment.namespace, setup.name));
            ShowsAvailable(AvailableNow(p.generation, FactsOf(env, setup, s, p, recErr).seen, recErr),
                           env.fault(s.calls + 1), d, recErr, p.generation)
  {
    var fate, seen := env.fault(s.calls + 1), FactsOf(env, setup, s, p, recErr).seen;
    var d := Peek(s, Key(DaemonSet, p.spec.deployment.namespace, setup.name));
    SeenInAttempt(env, setup, s, p, recErr);
    if fate == Healthy && d.Some? {
      FoundShows(seen.name, d.value, recErr, p.generation);
    } else if fate == Healthy {
      UnfoundShows(seen.text, fate, recErr, p.generation);
    } else {
      UnfoundShows("", fate, recErr, p.generation);
    }
  }

  /** What the attempt leaves stored, read off the stored DaemonSet. */
  ghost predicate Records(env: Env, setup: Setup, s: Server, p: Pmi, recErr: Option<Error>, after: Status) {
    var d := Peek(s, Key(DaemonSet, p.spec.deployment.namespace, setup.name));
    && |after.conditions| == 2 && after.conditions[0].ctype == Reconciled && after.conditions[1].ctype == Available
    && ShowsReconciled(after.conditions[0], recErr, p.generation)
    && ShowsAvailable(after.conditions[1], env.fault(s.calls + 1), d, recErr, p.generation)
    && (after.conditions == p.status.conditions ==> after == p.status)
    && (after.conditions != p.status.conditions ==>
          after.kepler == if env.fault(s.calls + 1) == Healthy && d.Some? then d.value.rollout.counters
                          else p.status.kepler)
  }

  lemma RecordStores(env: Env, s: Server, p: Pmi, next: Status)
    requires s.store.pmi == Some(p) && !p.deleting && LeavesRecord(env) && env.fault(s.calls) == Healthy
    ensures Record(env, s, p, next).0 == Recorded(None)
    ensures Record(env, s, p, next).1.store.pmi == Some(p.(status := next))
  {
  }

  /** A status attempt that nobody disturbs records what the stored DaemonSet shows: the whole
      table of conditions, and the DaemonSet's own counters whenever it writes. */
  lemma AttemptRecordsDaemonSet(env: Env, setup: Setup, s: Server, p: Pmi, recErr: Option<Error>)
    requires Undisturbed(env, setup, s, p)
    ensures var (r, s') := StatusAttempt(env, setup, s, recErr);
            && r == Recorded(None)
            && s'.store.pmi.Some? && s'.store.pmi.value == p.(status := s'.store.pmi.value.status)
            && Records(env, setup, s, p, recErr, s'.store.pmi.value.status)
  {
    var facts := FactsOf(env, setup, s, p, recErr);
    var s2, next := AttemptIsAPass(env, setup, s, p, recErr);
    RecordStores(env, s2, p, next);
    PassRecords(env, setup, s, p, recErr, facts);
  }

  lemma PassRecords(env: Env, setup: Setup, s: Server, p: Pmi, recErr: Option<Error>, facts: PassInput)
    requires Undisturbed(env, setup, s, p) && facts == FactsOf(env, setup, s, p, recErr)
    ensures Pass(p.status, facts).Some? && Records(env, setup, s, p, recErr, Pass(p.status, facts).value)
  {
    FactsShow(env, setup, s, p, recErr);
    SeenInAttempt(env, setup, s, p, recErr);
    StatusProtocol.PassOnPair(p.status, facts);
    var prior := StatusProtocol.Prior(p.status.conditions);
    StatusProtocol.RevisedIsSame(prior[0], ReconciledNow(p.generation, recErr), facts.now);
    StatusProtocol.RevisedIsSame(prior[1], AvailableNow(p.generation, facts.seen, recErr), facts.now);
  }

  /** A resource that is gone, unreadable or being deleted gets no status, and that is no error. */
  lemma SkipsWithoutError(env: Env, setup: Setup, s: Server, recErr: Option<Error>)
    requires env.fault(s.calls) != Healthy || Ticked(env, s).store.pmi == None
             || Ticked(env, s).store.pmi.value.deleting
    ensures StatusPass(env, setup, s, recErr, STATUS_ATTEMPTS) == (Recorded(None), Ticked(env, s))
  {
  }

  lemma RecordedAvailability(env: Env, setup: Setup, s: Server, p: Pmi, recErr: Option<Error>, after: Status)
    requires Records(env, setup, s, p, recErr, after)
    ensures var d := Peek(s, Key(DaemonSet, p.spec.deployment.namespace, setup.name));
            after.conditions[1].status == IsTrue <==>
              recErr.None? && env.fault(s.calls + 1) == Healthy && d.Some? && RolledOut(d.value)
  {
  }

  /** Available becomes true exactly when the run had no error and the stored DaemonSet could be
      read and is rolled out. */
  lemma AvailableExactlyWhen(env: Env, setup: Setup, s: Server, p: Pmi, recErr: Option<Error>) returns (after: Status)
    requires Undisturbed(env, setup, s, p)
    ensures StatusAttempt(env, setup, s, recErr).1.store.pmi == Some(p.(status := after))
    ensures |after.conditions| == 2 && after.conditions[1].ctype == Available
    ensures var d := Peek(s, Key(DaemonSet, p.spec.deployment.namespace, setup.name));
            after.conditions[1].status == IsTrue <==>
              recErr.None? && env.fault(s.calls + 1) == Healthy && d.Some? && RolledOut(d.value)
  {
    AttemptRecordsDaemonSet(env, setup, s, p, recErr);
    after := StatusAttempt(env, setup, s, recErr).1.store.pmi.value.status;
    RecordedAvailability(env, setup, s, p, recErr, after);
  }

  /** The texts that name the DaemonSet and its counters. */
  lemma AttemptSaysWhich(env: Env, setup: Setup, s: Server, p: Pmi)
    requires Undisturbed(env, setup, s, p) && env.fault(s.calls + 1) == Healthy
    ensures var ns, name := p.spec.deployment.namespace, setup.name;
            var d, after := Peek(s, Key(DaemonSet, ns, name)), StatusAttempt(env, setup, s, None).1.store.pmi;
            && after.Some? && |after.value.status.conditions| == 2
            && (d.None? ==> after.value.status.conditions[1].message == "daemonsets.apps \"" + name + "\" not found")
            && (d.Some? && RolledOut(d.value) ==>
                  after.value.status.conditions[1].message
                    == "power-monitor daemonset \"" + (ns + "/" + name)
                       + "\" is deployed to all nodes and available; ready" + " "
                       + Itoa(d.value.rollout.counters.ready) + "/" + Itoa(d.value.rollout.counters.desired))
  {
    var facts := FactsOf(env, setup, s, p, None);
    var prior := StatusProtocol.Prior(p.status.conditions);
    var s2, next := AttemptIsAPass(env, setup, s, p, None);
    RecordStores(env, s2, p, next);
    SeenInAttempt(env, setup, s, p, None);
    StatusProtocol.PassOnPair(p.status, facts);
    StatusProtocol.RevisedIsSame(prior[1], AvailableNow(p.generation, facts.seen, None), facts.now);
  }

  /** A condition that changed has the time of the attempt, one that did not has its own. */
  predicate Stamped(before: seq<Condition>, after: seq<Condition>, now: int)
    requires (before == [] || |before| == 2) && |after| == 2
  {
    forall i :: 0 <= i < 2 ==>
      if before != [] && SameState(before[i], after[i]) then after[i] == before[i] else after[i].lastTransition == now
  }

  lemma RevisedIsStamped(before: seq<Condition>, r: Condition, a: Condition, now: int)
    requires (before == [] || StatusProtocol.IsPair(before)) && r.reason != NoReason && a.reason != NoReason
    ensures var prior := StatusProtocol.Prior(before);
            Stamped(before, [Revised(prior[0], r, now), Revised(prior[1], a, now)], now)
  {
  }

  lemma PassIsStamped(status: Status, facts: PassInput)
    requires status.conditions == [] || StatusProtocol.IsPair(status.conditions)
    ensures Pass(status, facts).Some? && |Pass(status, facts).value.conditions| == 2
    ensures Stamped(status.conditions, Pass(status, facts).value.conditions, facts.now)
  {
    StatusProtocol.PassOnPair(status, facts);
    StatusProtocol.WantedTypes(facts);
    var next := Pass(status, facts).value.conditions;
    RevisedIsStamped(status.conditions, ReconciledNow(facts.generation, facts.recErr),
                     AvailableNow(facts.generation, facts.seen, facts.recErr), facts.now);
    assert next == [next[0], next[1]];
  }

  lemma AttemptStores(env: Env, setup: Setup, s: Server, p: Pmi, recErr: Option<Error>)
    returns (facts: PassInput, next: Status)
    requires Undisturbed(env, setup, s, p)
    ensures facts.now == env.now(s.calls + 1) && Pass(p.status, facts) == Some(next)
    ensures StatusAttempt(env, setup, s, recErr).1.store.pmi == Some(p.(status := next))
  {
    var s2;
    facts := FactsOf(env, setup, s, p, recErr);
    s2, next := AttemptIsAPass(env, setup, s, p, recErr);
    RecordStores(env, s2, p, next);
  }

  /** The attempt reads the clock once, after the resource, and stamps what it changes with it. */
  lemma AttemptStampsChanges(env: Env, setup: Setup, s: Server, p: Pmi, recErr: Option<Error>) returns (next: Status)
    requires Undisturbed(env, setup, s, p)
    ensures StatusAttempt(env, setup, s, recErr).1.store.pmi == Some(p.(status := next))
    ensures |next.conditions| == 2 && Stamped(p.status.conditions, next.conditions, env.now(s.calls + 1))
  {
    var facts;
    facts, next := AttemptStores(env, setup, s, p, recErr);
    PassIsStamped(p.status, facts);
  }

  // ---- writes that fail -----------------------------------------------------

  /** The stored Reconciled condition does not say yet what the run's end calls for. */
  predicate Outdated(p: Pmi, recErr: Option<Error>) {
    p.status.conditions == []
    || (|p.status.conditions| == 2 && !ShowsReconciled(p.status.conditions[0], recErr, p.generation))
  }

  lemma OutdatedIsWritten(p: Pmi, recErr: Option<Error>, facts: PassInput)
    requires p.status.conditions == [] || StatusProtocol.IsPair(p.status.conditions)
    requires Outdated(p, recErr) && facts.generation == p.generation && facts.recErr == recErr
    ensures Pass(p.status, facts).Some? && Pass(p.status, facts).value != p.status
  {
    StatusProtocol.PassOnPair(p.status, facts);
    var prior := StatusProtocol.Prior(p.status.conditions);
    StatusProtocol.RevisedIsSame(prior[0], ReconciledNow(p.generation, recErr), facts.now);
  }

  /** How an attempt, or a sequence of them, ends whose last write met `fate`. */
  predicate Ends(fate: Fault, p: Pmi, r: Recorded, after: Option<Pmi>) {
    match fate
    case Healthy => r == Recorded(None) && after.Some? && after.value.status != p.status
    case Failing(text) => r == Recorded(Some(ApiError(text))) && after == Some(p)
    case Conflicting => r == Recorded(Some(ConflictError)) && after == Some(p)
  }

  predicate EndsAttempt(env: Env, p: Pmi, call: nat, r: Recorded, s': Server) {
    s'.calls == call + 3 && Ends(env.fault(call + 2), p, r, s'.store.pmi)
  }

  lemma RecordEnds(env: Env, s: Server, p: Pmi, next: Status)
    requires s.store.pmi == Some(p) && !p.deleting && LeavesRecord(env) && next != p.status
    ensures var (r, s') := Record(env, s, p, next);
            s'.calls == s.calls + 1 && Ends(env.fault(s.calls), p, r, s'.store.pmi)
  {
  }

  lemma OutdatedAttempt(env: Env, setup: Setup, s: Server, p: Pmi, recErr: Option<Error>)
    returns (s2: Server, next: Status)
    requires Live(s, p) && LeavesRecord(env) && Outdated(p, recErr) && env.fault(s.calls) == Healthy
    ensures s2.store.pmi == Some(p) && s2.calls == s.calls + 2 && next != p.status
    ensures StatusAttempt(env, setup, s, recErr) == Record(env, s2, p, next)
  {
    var facts := FactsOf(env, setup, s, p, recErr);
    s2, next := AttemptIsAPass(env, setup, s, p, recErr);
    OutdatedIsWritten(p, recErr, facts);
  }

  lemma AttemptEnds(env: Env, setup: Setup, s: Server, p: Pmi, recErr: Option<Error>)
    requires Live(s, p) && LeavesRecord(env) && Outdated(p, recErr) && env.fault(s.calls) == Healthy
    ensures var (r, s') := StatusAttempt(env, setup, s, recErr); EndsAttempt(env, p, s.calls, r, s')
  {
    var s2, next := OutdatedAttempt(env, setup, s, p, recErr);
    RecordEnds(env, s2, p, next);
  }

  // ---- retries --------------------------------------------------------------

  type Attempt = Server -> (Recorded, Server)

  /** Retrying on conflicts, for any kind of attempt. */
  ghost function Retrying(attempt: Attempt, s: Server, attempts: nat): (Recorded, Server)
    requires attempts > 0
    decreases attempts
  {
    var (r, s') := attempt(s);
    if r == Recorded(Some(ConflictError)) && attempts > 1 then Retrying(attempt, s', attempts - 1) else (r, s')
  }

  lemma {:induction false} StatusPassIsRetrying(env: Env, setup: Setup, s: Server, recErr: Option<Error>, attempts: nat,
                                                attempt: Attempt)
    requires attempts > 0 && forall at :: attempt(at) == StatusAttempt(env, setup, at, recErr)
    ensures StatusPass(env, setup, s, recErr, attempts) == Retrying(attempt, s, attempts)
    decreases attempts
  {
    var (r, s') := attempt(s);
    if r == Recorded(Some(ConflictError)) && attempts > 1 {
      StatusPassIsRetrying(env, setup, s', recErr, attempts - 1, attempt);
    }
  }

  /** From the resource `p` an attempt ends as its write does. */
  ghost predicate Behaves(env: Env, p: Pmi, attempt: Attempt) {
    forall s: Server :: s.store.pmi == Some(p) && env.fault(s.calls) == Healthy ==>
      EndsAttempt(env, p, s.calls, attempt(s).0, attempt(s).1)
  }

  /** The attempt that starts with this call reads the resource and meets a conflict. */
  predicate Conflicted(env: Env, call: nat) {
    env.fault(call) == Healthy && env.fault(call + 2) == Conflicting
  }

  /** So do the first `n` attempts, of three calls each. */
  predicate Conflicts(env: Env, call: nat, n: nat)
    decreases n
  {
    n == 0 || (Conflicted(env, call) && Conflicts(env, call + 3, n - 1))
  }

  lemma {:induction false} RetriesEnd(env: Env, p: Pmi, attempt: Attempt, s: Server, n: nat, attempts: nat)
    requires Behaves(env, p, attempt) && s.store.pmi == Some(p) && Conflicts(env, s.calls, n) && n < attempts
    requires var last := s.calls + 3 * n;
             env.fault(last) == Healthy && (env.fault(last + 2) == Conflicting ==> attempts == n + 1)
    ensures var (r, s') := Retrying(attempt, s, attempts); EndsAttempt(env, p, s.calls + 3 * n, r, s')
    decreases n
  {
    assert EndsAttempt(env, p, s.calls, attempt(s).0, attempt(s).1);
    if n > 0 {
      RetriesEnd(env, p, attempt, attempt(s).1, n - 1, attempts - 1);
    }
  }

  lemma AttemptsBehave(env: Env, setup: Setup, p: Pmi, recErr: Option<Error>, attempt: Attempt)
    requires !p.deleting && (p.status.conditions == [] || StatusProtocol.IsPair(p.status.conditions))
    requires LeavesRecord(env) && Outdated(p, recErr)
    requires forall at :: attempt(at) == StatusAttempt(env, setup, at, recErr)
    ensures Behaves(env, p, attempt)
  {
    forall s: Server | s.store.pmi == Some(p) && env.fault(s.calls) == Healthy
      ensures EndsAttempt(env, p, s.calls, attempt(s).0, attempt(s).1)
    {
      AttemptEnds(env, setup, s, p, recErr);
    }
  }

  /** A write gets four attempts: three conflicts in a row are survived, a fourth is reported, and
      any other failure ends the retries at once. */
  lemma FourAttempts(env: Env, setup: Setup, s: Server, p: Pmi, recErr: Option<Error>, n: nat)
    requires Live(s, p) && LeavesRecord(env) && Outdated(p, recErr) && n <= 3 && Conflicts(env, s.calls, n)
    requires var last := s.calls + 3 * n; env.fault(last) == Healthy && (env.fault(last + 2) == Conflicting ==> n == 3)
    ensures var (r, s') := StatusPass(env, setup, s, recErr, STATUS_ATTEMPTS);
            EndsAttempt(env, p, s.calls + 3 * n, r, s')
  {
    var attempt: Attempt := at => StatusAttempt(env, setup, at, recErr);
    AttemptsBehave(env, setup, p, recErr, attempt);
    StatusPassIsRetrying(env, setup, s, recErr, STATUS_ATTEMPTS, attempt);
    RetriesEnd(env, p, attempt, s, n, STATUS_ATTEMPTS);
  }

  // ---- whole reconciles -----------------------------------------------------

  /** A reconcile returns its run's error; only when there is none, that of the status update. */
  lemma StatusErrorIsReturned(env: Env, setup: Setup, s: Server, q: Pmi, verdict: Verdict, w: World, p: Pmi,
                              text: string)
    requires GetPmiCall(env, s).0 == PmiFound(q) && verdict.Verdict?
    requires Run(env, JobFor(setup, q), Steps.Reconcilers(JobFor(setup, q)), ReadyForRun(GetPmiCall(env, s).1))
          == (verdict, w)
    requires Live(w.server, p) && LeavesRecord(env) && Outdated(p, verdict.error)
    requires env.fault(w.server.calls) == Healthy && env.fault(w.server.calls + 2) == Failing(text)
    ensures Reconcile(env, setup, s).0
         == Verdict(verdict.requeue, verdict.requeueAfter,
                    if verdict.error.Some? then verdict.error else Some(ApiError(text)))
    ensures Reconcile(env, setup, s).1.store.pmi == Some(p)
  {
    FourAttempts(env, setup, w.server, p, verdict.error, 0);
  }

  /** A resource that is gone is no error, and one that cannot be read is; neither starts a run. */
  lemma UnreadResourceIsLeft(env: Env, setup: Setup, s: Server)
    ensures var (verdict, s') := Reconcile(env, setup, s);
            match env.fault(s.calls)
            case Failing(text) => verdict == Verdict(false, 0, Some(ApiError(text))) && s' == Ticked(env, s)
            case Conflicting => verdict == Verdict(false, 0, Some(ConflictError)) && s' == Ticked(env, s)
            case Healthy =>
              Ticked(env, s).store.pmi == None ==> verdict == Verdict(false, 0, None) && s' == Ticked(env, s)
  {
  }

  predicate SameButFinalizers(resource: Option<Pmi>, p: Pmi) {
    resource.Some? && resource.value.(finalizers := p.finalizers) == p
  }

  lemma FinalizerOnly(env: Env, s: Server, p: Pmi)
    requires Calm(env) && SameButFinalizers(s.store.pmi, p) && !p.deleting
    ensures SameButFinalizers(FinalizerStep(env, s).1.store.pmi, p)
  {
  }

  lemma CalmRunKeepsRecord(env: Env, job: Job, w: World, p: Pmi)
    requires Calm(env) && !job.deleting && w.server.store.pmi == Some(p) && !p.deleting
    ensures SameButFinalizers(Run(env, job, Steps.Reconcilers(job), w).1.server.store.pmi, p)
  {
    var rs, steps := Steps.Reconcilers(job), UpdateSteps(job);
    FinalizerSafety.ListShape(job);
    var n := RunMeaning(env, job, rs, w);
    if n < |rs| {
      assert rs[..n] == steps[..n];
      ExecKeeps(env, o => SameButFinalizers(o, p), job, steps[..n], w);
    } else {
      assert rs[..n] == steps + [Finalizer];
      ExecKeeps(env, o => SameButFinalizers(o, p), job, steps, w);
      ExecLast(env, job, steps, Finalizer, w);
      FinalizerOnly(env, Exec(env, job, steps, w).server, p);
    }
  }

  /** Every calm reconcile of a live resource that gets to its end, whatever its steps reported,
      records what the then stored DaemonSet shows; so Available is true exactly when the reconcile
      returns no error and that DaemonSet is rolled out. */
  lemma ReconcileRecordsDaemonSet(env: Env, setup: Setup, s: Server, p: Pmi)
    requires Calm(env) && Live(s, p) && Reconcile(env, setup, s).0.Verdict?
    ensures var (verdict, s') := Reconcile(env, setup, s);
            var d := Peek(s', Key(DaemonSet, p.spec.deployment.namespace, setup.name));
            && s'.store.pmi.Some? && |s'.store.pmi.value.status.conditions| == 2
            && ShowsReconciled(s'.store.pmi.value.status.conditions[0], verdict.error, p.generation)
            && ShowsAvailable(s'.store.pmi.value.status.conditions[1], Healthy, d, verdict.error, p.generation)
            && (s'.store.pmi.value.status.conditions[1].status == IsTrue <==>
                  verdict.error.None? && d.Some? && RolledOut(d.value))
  {
    var job, s1 := JobFor(setup, p), s.(calls := s.calls + 1);
    var (verdict, w) := Run(env, job, Steps.Reconcilers(job), ReadyForRun(s1));
    CalmRunKeepsRecord(env, job, ReadyForRun(s1), p);
    var q := w.server.store.pmi.value;
    CalmAttemptRecords(env, setup, w.server, q, verdict.error);
    var after := StatusPass(env, setup, w.server, verdict.error, STATUS_ATTEMPTS).1.store.pmi.value.status;
    RecordedAvailability(env, setup, w.server, q, verdict.error, after);
  }

  lemma QuietRecord(env: Env, s: Server, p: Pmi, next: Status)
    requires Quiet(env)
    ensures Record(env, s, p, next).1.store.objects == s.store.objects
  {
  }

  lemma QuietAttempt(env: Env, setup: Setup, s: Server, recErr: Option<Error>)
    requires Quiet(env)
    ensures StatusAttempt(env, setup, s, recErr).1.store.objects == s.store.objects
  {
    var (r, s1) := GetPmiCall(env, s);
    if r.PmiFound? && !r.pmi.deleting {
      var key := DaemonSetOf(setup, r.pmi);
      var (got, s2) := GetCall(env, s1, key);
      var input := PassInput(r.pmi.generation, SeenAs(key, got), recErr, env.now(s1.calls), env.coin(s1.calls));
      var next := Pass(r.pmi.status, input);
      if next.Some? {
        QuietRecord(env, s2, r.pmi, next.value);
      }
    }
  }

  lemma CalmAttemptRecords(env: Env, setup: Setup, s: Server, p: Pmi, recErr: Option<Error>)
    requires Calm(env) && Live(s, p)
    ensures var (r, s') := StatusPass(env, setup, s, recErr, STATUS_ATTEMPTS);
            && r == Recorded(None) && s'.store.objects == s.store.objects
            && s'.store.pmi.Some? && Records(env, setup, s, p, recErr, s'.store.pmi.value.status)
  {
    CalmLeaves(env, DaemonSetOf(setup, p));
    AttemptRecordsDaemonSet(env, setup, s, p, recErr);
    QuietAttempt(env, setup, s, recErr);
  }
}
