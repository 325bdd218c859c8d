/** The status protocol over every history of spec edits, status passes and mirror passes. */
module StatusProtocol {
  import opened Common
  import opened Api
  import opened Decimal
  import opened Conditions
  import Mirror

  // ---- one pass -------------------------------------------------------------

  lemma WantedTypes(p: PassInput)
    ensures var r := ReconciledNow(p.generation, p.recErr); r.ctype == Reconciled && r.reason != NoReason
    ensures var a := AvailableNow(p.generation, p.seen, p.recErr); a.ctype == Available && a.reason != NoReason
  {
  }

  lemma SanitizedHasBoth(conditions: seq<Condition>, reconciledFirst: bool)
    ensures var c0 := Sanitized(conditions, reconciledFirst);
            && (|conditions| == 2 ==> c0 == conditions)
            && (|conditions| != 2 ==> Has(c0, Reconciled) && Has(c0, Available))
  {
    var c0 := Sanitized(conditions, reconciledFirst);
    if |conditions| == 0 {
      assert c0[0].ctype == Reconciled && c0[1].ctype == Available;
    } else if |conditions| != 2 {
      forall t | t == Reconciled || t == Available ensures Has(c0, t) {
        if Has(conditions, t) {
          var i :| 0 <= i < |conditions| && conditions[i].ctype == t;
          assert c0[i].ctype == t;
        } else {
          assert Blank(t) in c0;
          var i :| 0 <= i < |c0| && c0[i] == Blank(t);
        }
      }
    }
  }

  /** Where the two updates land, for any list that has both types. */
  lemma BothUpdatedMeaning(c0: seq<Condition>, r: Condition, a: Condition, now: int) returns (i: nat, j: nat)
    requires r.ctype == Reconciled && a.ctype == Available && Has(c0, Reconciled) && Has(c0, Available)
    ensures IndexOf(c0, Reconciled) == Some(i) && IndexOf(c0, Available) == Some(j) && i != j
    ensures BothUpdated(c0, r, a, now) == Some(c0[i := Revised(c0[i], r, now)][j := Revised(c0[j], a, now)])
  {
    i, j := IndexOf(c0, Reconciled).value, IndexOf(c0, Available).value;
    var c1 := c0[i := Revised(c0[i], r, now)];
    assert forall k :: 0 <= k < |c0| ==> c1[k].ctype == c0[k].ctype;
    FirstIsIndex(c1, Available, j);
  }

  lemma UpdateKeepsTypes(c0: seq<Condition>, latest: Condition, now: int, t: ConditionType)
    requires Updated(c0, latest, now).Some?
    ensures Has(Updated(c0, latest, now).value, t) <==> Has(c0, t)
  {
    var c1 := Updated(c0, latest, now).value;
    assert forall k :: 0 <= k < |c0| ==> c1[k].ctype == c0[k].ctype;
  }

  lemma PanicOnLists(c0: seq<Condition>, r: Condition, a: Condition, now: int)
    requires r.ctype == Reconciled && a.ctype == Available
    ensures BothUpdated(c0, r, a, now) == None <==> !(Has(c0, Reconciled) && Has(c0, Available))
  {
    if Has(c0, Reconciled) {
      UpdateKeepsTypes(c0, r, now, Available);
    }
  }

  /** A pass panics exactly on a list of two conditions that lacks one of the two types. */
  lemma PanicsExactlyWhen(status: Status, p: PassInput)
    ensures var cs := status.conditions;
            Pass(status, p) == None <==> |cs| == 2 && !(Has(cs, Reconciled) && Has(cs, Available))
  {
    WantedTypes(p);
    SanitizedHasBoth(status.conditions, p.reconciledFirst);
    PanicOnLists(Sanitized(status.conditions, p.reconciledFirst), ReconciledNow(p.generation, p.recErr),
                 AvailableNow(p.generation, p.seen, p.recErr), p.now);
  }

  ghost predicate IsPair(conditions: seq<Condition>) {
    |conditions| == 2 && conditions[0].ctype == Reconciled && conditions[1].ctype == Available
  }

  ghost function Prior(conditions: seq<Condition>): seq<Condition> {
    if |conditions| == 0 then [Blank(Reconciled), Blank(Available)] else conditions
  }

  lemma PairUpdated(c: seq<Condition>, r: Condition, a: Condition, now: int)
    requires IsPair(c) && r.ctype == Reconciled && a.ctype == Available
    ensures BothUpdated(c, r, a, now) == Some([Revised(c[0], r, now), Revised(c[1], a, now)])
  {
    assert c[0].ctype == Reconciled && c[1].ctype == Available;
    var i, j := BothUpdatedMeaning(c, r, a, now);
    FirstIsIndex(c, Reconciled, 0);
    FirstIsIndex(c, Available, 1);
    var x, y := Revised(c[0], r, now), Revised(c[1], a, now);
    assert c[0 := x][1 := y] == [x, y];
  }

  /** On an empty list or a pair a pass revises each condition on its own. */
  lemma PassOnPair(status: Status, p: PassInput)
    requires status.conditions == [] || IsPair(status.conditions)
    ensures Pass(status, p).Some?
    ensures var prior, next := Prior(status.conditions), Pass(status, p).value;
            && IsPair(next.conditions)
            && next.conditions[0] == Revised(prior[0], ReconciledNow(p.generation, p.recErr), p.now)
            && next.conditions[1] == Revised(prior[1], AvailableNow(p.generation, p.seen, p.recErr), p.now)
            && next.kepler == if next.conditions != prior && p.seen.Seen? then p.seen.counters else status.kepler
  {
    var prior := Prior(status.conditions);
    var r, a := ReconciledNow(p.generation, p.recErr), AvailableNow(p.generation, p.seen, p.recErr);
    WantedTypes(p);
    assert Sanitized(status.conditions, p.reconciledFirst) == prior;
    PairUpdated(prior, r, a, p.now);
    var c2 := [Revised(prior[0], r, p.now), Revised(prior[1], a, p.now)];
    assert status.conditions == [] ==> c2[0].reason != prior[0].reason;
  }

  lemma RevisedAgain(prior: Condition, latest: Condition, now: int, later: int)
    requires prior.ctype == latest.ctype
    ensures Revised(Revised(prior, latest, now), latest, later) == Revised(prior, latest, now)
  {
  }

  lemma IndexByTypes(c: seq<Condition>, d: seq<Condition>, t: ConditionType)
    requires |c| == |d| && forall k :: 0 <= k < |c| ==> c[k].ctype == d[k].ctype
    ensures IndexOf(c, t) == IndexOf(d, t)
  {
    if IndexOf(c, t).Some? {
      FirstIsIndex(d, t, IndexOf(c, t).value);
    } else if IndexOf(d, t).Some? {
      FirstIsIndex(c, t, IndexOf(d, t).value);
    }
  }

  lemma BothUpdatedAgain(c0: seq<Condition>, r: Condition, a: Condition, now: int, later: int)
    requires r.ctype == Reconciled && a.ctype == Available && Has(c0, Reconciled) && Has(c0, Available)
    ensures var c2 := BothUpdated(c0, r, a, now);
            && c2.Some? && Has(c2.value, Reconciled) && Has(c2.value, Available)
            && BothUpdated(c2.value, r, a, later) == c2
  {
    var i, j := BothUpdatedMeaning(c0, r, a, now);
    var x, y := Revised(c0[i], r, now), Revised(c0[j], a, now);
    var c2 := c0[i := x][j := y];
    SameTypesAndPlaces(c0, i, j, x, y);
    var i', j' := BothUpdatedMeaning(c2, r, a, later);
    RevisedAgain(c0[i], r, now, later);
    RevisedAgain(c0[j], a, now, later);
  }

  lemma SameTypesAndPlaces(c0: seq<Condition>, i: nat, j: nat, x: Condition, y: Condition)
    requires IndexOf(c0, Reconciled) == Some(i) && IndexOf(c0, Available) == Some(j)
    requires x.ctype == Reconciled && y.ctype == Available
    ensures var c2 := c0[i := x][j := y];
            && IndexOf(c2, Reconciled) == Some(i) && IndexOf(c2, Available) == Some(j)
            && c2[i] == x && c2[j] == y && c2[i := x][j := y] == c2
  {
    var c2 := c0[i := x][j := y];
    IndexByTypes(c0, c2, Reconciled);
    IndexByTypes(c0, c2, Available);
  }

  /** A list that sanitising extends has a condition without a reason, which no pass leaves. */
  lemma ExtendedHasBlank(conditions: seq<Condition>, reconciledFirst: bool, i: nat, j: nat)
    requires var c0 := Sanitized(conditions, reconciledFirst);
             c0 != conditions && IndexOf(c0, Reconciled) == Some(i) && IndexOf(c0, Available) == Some(j)
    ensures var c0 := Sanitized(conditions, reconciledFirst); c0[i].reason == NoReason || c0[j].reason == NoReason
  {
    var c0 := Sanitized(conditions, reconciledFirst);
    SanitizedExtends(conditions, reconciledFirst);
    if i < |conditions| {
      assert conditions[i] == c0[i];
      assert Has(conditions, Reconciled);
    }
    if j < |conditions| {
      assert conditions[j] == c0[j];
      assert Has(conditions, Available);
    }
  }

  lemma UnchangedHasReasons(c0: seq<Condition>, r: Condition, a: Condition, now: int, i: nat, j: nat)
    requires r.ctype == Reconciled && a.ctype == Available && r.reason != NoReason && a.reason != NoReason
    requires IndexOf(c0, Reconciled) == Some(i) && IndexOf(c0, Available) == Some(j)
    requires BothUpdated(c0, r, a, now) == Some(c0)
    ensures c0[i].reason != NoReason && c0[j].reason != NoReason
  {
    var i', j' := BothUpdatedMeaning(c0, r, a, now);
    assert c0[i] == Revised(c0[i], r, now) && c0[j] == Revised(c0[j], a, now);
  }

  /** A second pass over the same facts changes nothing, whenever it happens. */
  lemma PassIsIdempotent(status: Status, p: PassInput, now: int, reconciledFirst: bool)
    requires Pass(status, p).Some?
    ensures Pass(Pass(status, p).value, p.(now := now, reconciledFirst := reconciledFirst)) == Pass(status, p)
  {
    var c0 := Sanitized(status.conditions, p.reconciledFirst);
    var r, a := ReconciledNow(p.generation, p.recErr), AvailableNow(p.generation, p.seen, p.recErr);
    WantedTypes(p);
    PanicOnLists(c0, r, a, p.now);
    BothUpdatedAgain(c0, r, a, p.now, now);
    var c2 := BothUpdated(c0, r, a, p.now).value;
    if c2 == c0 {
      var i, j := BothUpdatedMeaning(c0, r, a, p.now);
      UnchangedHasReasons(c0, r, a, p.now, i, j);
      if c0 != status.conditions {
        ExtendedHasBlank(status.conditions, p.reconciledFirst, i, j);
        assert false;
      }
    }
    BothTypesAreSane(c2, reconciledFirst);
  }

  lemma BothTypesAreSane(c: seq<Condition>, reconciledFirst: bool)
    requires Has(c, Reconciled) && Has(c, Available)
    ensures Sanitized(c, reconciledFirst) == c
  {
    assert c + [] + [] == c;
  }

  // ---- histories ------------------------------------------------------------

  /** What happens to the pair of resources after their creation. A `Passed` is a status pass
      of the internal controller that completed; a `Mirrored` is a status pass of the outer one. */
  datatype Event =
    | SpecEdit
    | OuterEdit
    | Passed(seen: DaemonSetSeen, recErr: Option<Error>, now: int, reconciledFirst: bool)
    | Mirrored

  datatype State = State(generation: int, status: Status, outerGeneration: int, mirror: Option<Status>)

  const START := State(1, Status(NO_COUNTERS, []), 1, None)

  function InputAt(s: State, e: Event): PassInput
    requires e.Passed?
  {
    PassInput(s.generation, e.seen, e.recErr, e.now, e.reconciledFirst)
  }

  ghost function Next(s: State, e: Event): Option<State> {
    match e
    case SpecEdit => Some(s.(generation := s.generation + 1))
    case OuterEdit => Some(s.(outerGeneration := s.outerGeneration + 1))
    case Passed(_, _, _, _) =>
      (match Pass(s.status, InputAt(s, e))
       case None => None
       case Some(status) => Some(s.(status := status)))
    case Mirrored =>
      if Mirror.HasChanged(s.status.conditions, s.generation) then
        Some(s.(mirror := Some(Mirror.Copied(s.status, s.outerGeneration))))
      else Some(s)
  }

  /** The state after a history; None after a panic. */
  ghost function After(es: seq<Event>): Option<State> {
    if |es| == 0 then Some(START)
    else
      match After(es[..|es| - 1])
      case None => None
      case Some(s) => Next(s, es[|es| - 1])
  }

  /** The last completed status pass, with the generation it saw. */
  ghost function LastPass(es: seq<Event>): Option<PassInput> {
    if |es| == 0 then None
    else
      var before, e := After(es[..|es| - 1]), es[|es| - 1];
      if e.Passed? && before.Some? then Some(InputAt(before.value, e)) else LastPass(es[..|es| - 1])
  }

  /** The stored conditions are the pair the last pass called for, up to their time stamps. */
  ghost predicate ReflectsLast(s: State, last: Option<PassInput>) {
    && s.generation >= 1
    && match last
       case None => s.status == START.status
       case Some(p) =>
         && 1 <= p.generation <= s.generation
         && IsPair(s.status.conditions)
         && SameState(s.status.conditions[0], ReconciledNow(p.generation, p.recErr))
         && SameState(s.status.conditions[1], AvailableNow(p.generation, p.seen, p.recErr))
  }

  lemma RevisedIsSame(prior: Condition, latest: Condition, now: int)
    ensures SameState(Revised(prior, latest, now), latest) && Revised(prior, latest, now).ctype == prior.ctype
  {
  }

  lemma NextReflects(s: State, last: Option<PassInput>, e: Event)
    requires ReflectsLast(s, last)
    ensures Next(s, e).Some?
    ensures ReflectsLast(Next(s, e).value, if e.Passed? then Some(InputAt(s, e)) else last)
  {
    if e.Passed? {
      var p := InputAt(s, e);
      PassOnPair(s.status, p);
      var prior := Prior(s.status.conditions);
      RevisedIsSame(prior[0], ReconciledNow(p.generation, p.recErr), p.now);
      RevisedIsSame(prior[1], AvailableNow(p.generation, p.seen, p.recErr), p.now);
    }
  }

  /** The invariant of every history: the panic is unreachable, the list is empty until the
      first pass and from then on exactly Reconciled and Available, and both say what the last
      completed pass found. */
  lemma {:induction false} ConditionsReflectLastPass(es: seq<Event>)
    ensures After(es).Some? && ReflectsLast(After(es).value, LastPass(es))
    decreases |es|
  {
    if |es| > 0 {
      ConditionsReflectLastPass(es[..|es| - 1]);
      NextReflects(After(es[..|es| - 1]).value, LastPass(es[..|es| - 1]), es[|es| - 1]);
    }
  }

  // ---- the generation protocol ----------------------------------------------

  lemma WantedGenerations(p: PassInput)
    ensures ReconciledNow(p.generation, p.recErr).observedGeneration == p.generation
    ensures var g := AvailableNow(p.generation, p.seen, p.recErr).observedGeneration;
            g == if p.seen.Seen? && p.recErr.None? then p.generation else 0
  {
  }

  lemma ReflectedGenerations(s: State, p: PassInput)
    requires ReflectsLast(s, Some(p))
    ensures s.status.conditions[0].observedGeneration == p.generation
    ensures s.status.conditions[1].observedGeneration in {0, p.generation}
  {
    WantedGenerations(p);
  }

  lemma ChangedOnPair(conditions: seq<Condition>, observed: int, current: int)
    requires |conditions| == 2 && conditions[0].observedGeneration == observed
    requires conditions[1].observedGeneration in {0, observed}
    requires current >= 1
    ensures Mirror.HasChanged(conditions, current) <==> observed == current
  {
    assert conditions[0].observedGeneration == observed;
  }

  /** Reconciled has observed the generation of the last pass, Available that one or none; so
      "the status has changed" holds exactly when the current generation has had a pass. */
  lemma GenerationProtocol(es: seq<Event>)
    ensures After(es).Some?
    ensures var s, last := After(es).value, LastPass(es);
            && (last.Some? ==>
                  && IsPair(s.status.conditions)
                  && s.status.conditions[0].observedGeneration == last.value.generation
                  && s.status.conditions[1].observedGeneration in {0, last.value.generation})
            && (Mirror.HasChanged(s.status.conditions, s.generation)
                <==> last.Some? && last.value.generation == s.generation)
  {
    ConditionsReflectLastPass(es);
    var s, last := After(es).value, LastPass(es);
    if last.Some? {
      ReflectedGenerations(s, last.value);
      ChangedOnPair(s.status.conditions, last.value.generation, s.generation);
    }
  }

  /** `mirror` copies the status after `es`, whose generation had had a pass. */
  ghost predicate CopiesAfter(mirror: Option<Status>, es: seq<Event>) {
    && After(es).Some? && LastPass(es).Some?
    && LastPass(es).value.generation == After(es).value.generation
    && mirror == Some(Mirror.Copied(After(es).value.status, After(es).value.outerGeneration))
  }

  lemma NextMirror(s: State, e: Event)
    requires Next(s, e).Some?
    ensures Next(s, e).value.mirror
         == if e == Mirrored && Mirror.HasChanged(s.status.conditions, s.generation)
           then Some(Mirror.Copied(s.status, s.outerGeneration))
            else s.mirror
  {
  }

  /** The mirror, once written, is a copy of a status that was stored when its generation had
      just been observed, stamped with the PowerMonitor's generation at that time. */
  lemma {:induction false} MirrorCopiesReachedStatus(es: seq<Event>) returns (k: nat)
    ensures After(es).Some?
    ensures After(es).value.mirror.Some? ==> k < |es| && CopiesAfter(After(es).value.mirror, es[..k])
    decreases |es|
  {
    ConditionsReflectLastPass(es);
    k := 0;
    if |es| > 0 {
      var before := es[..|es| - 1];
      k := MirrorCopiesReachedStatus(before);
      var s, e := After(before).value, es[|es| - 1];
      NextMirror(s, e);
      if e == Mirrored && Mirror.HasChanged(s.status.conditions, s.generation) {
        k := |es| - 1;
        JustMirrored(before);
      } else if s.mirror.Some? {
        assert before[..k] == es[..k];
      }
    }
  }

  lemma JustMirrored(es: seq<Event>)
    requires After(es).Some? && Mirror.HasChanged(After(es).value.status.conditions, After(es).value.generation)
    ensures CopiesAfter(Some(Mirror.Copied(After(es).value.status, After(es).value.outerGeneration)), es)
  {
    GenerationProtocol(es);
  }

  // ---- transition times -----------------------------------------------------

  /** Status passes happen at times that never decrease. */
  ghost predicate Monotone(es: seq<Event>) {
    forall i, j :: 0 <= i <= j < |es| && es[i].Passed? && es[j].Passed? ==> 0 <= es[i].now <= es[j].now
  }

  ghost predicate StampedBy(status: Status, now: int) {
    forall i :: 0 <= i < |status.conditions| ==> status.conditions[i].lastTransition <= now
  }

  lemma RevisedStamp(prior: Condition, latest: Condition, now: int)
    ensures var r := Revised(prior, latest, now);
            if SameState(prior, r) then r == prior else r.lastTransition == now
  {
  }

  lemma NextStamps(s: State, last: Option<PassInput>, e: Event, now: int)
    requires ReflectsLast(s, last) && Next(s, e).Some?
    requires StampedBy(s.status, now) && 0 <= now && (e.Passed? ==> e.now <= now)
    ensures StampedBy(Next(s, e).value.status, now)
  {
    if e.Passed? {
      var p, prior := InputAt(s, e), Prior(s.status.conditions);
      PassOnPair(s.status, p);
      RevisedStamp(prior[0], ReconciledNow(p.generation, p.recErr), p.now);
      RevisedStamp(prior[1], AvailableNow(p.generation, p.seen, p.recErr), p.now);
    }
  }

  lemma {:induction false} StampsAreNotInTheFuture(es: seq<Event>, now: int)
    requires 0 <= now && forall i :: 0 <= i < |es| && es[i].Passed? ==> es[i].now <= now
    ensures After(es).Some? && StampedBy(After(es).value.status, now)
    decreases |es|
  {
    ConditionsReflectLastPass(es);
    if |es| > 0 {
      var n := |es| - 1;
      assert forall i :: 0 <= i < n ==> es[..n][i] == es[i];
      StampsAreNotInTheFuture(es[..n], now);
      ConditionsReflectLastPass(es[..n]);
      NextStamps(After(es[..n]).value, LastPass(es[..n]), es[n], now);
    }
  }

  /** With a monotone clock a transition time never decreases, and a pass moves it, to its own
      time, exactly when generation, status, reason or message changes. */
  lemma TransitionsOnlyOnChange(es: seq<Event>, e: Event)
    requires Monotone(es + [e])
    ensures After(es).Some? && After(es + [e]).Some?
    ensures var cs, ds := Prior(After(es).value.status.conditions), After(es + [e]).value.status.conditions;
            if !e.Passed? then ds == After(es).value.status.conditions
            else
              && IsPair(cs) && IsPair(ds)
              && forall i :: 0 <= i < 2 ==>
                   && cs[i].lastTransition <= ds[i].lastTransition
                   && (if SameState(cs[i], ds[i]) then ds[i] == cs[i] else ds[i].lastTransition == e.now)
  {
    ConditionsReflectLastPass(es);
    assert (es + [e])[..|es|] == es && (es + [e])[|es|] == e;
    var s := After(es).value;
    ConditionsReflectLastPass(es + [e]);
    if e.Passed? {
      var p, prior := InputAt(s, e), Prior(s.status.conditions);
      PassOnPair(s.status, p);
      RevisedStamp(prior[0], ReconciledNow(p.generation, p.recErr), p.now);
      RevisedStamp(prior[1], AvailableNow(p.generation, p.seen, p.recErr), p.now);
      assert forall i :: 0 <= i < |es| ==> (es + [e])[i] == es[i];
      assert (es + [e])[|es|].Passed?;
      StampsAreNotInTheFuture(es, e.now);
    }
  }

  // ---- availability ---------------------------------------------------------

  /** Every test that a rolled-out DaemonSet passes. */
  predicate FullyRolledOut(seen: DaemonSetSeen) {
    && seen.Seen?
    && seen.generation <= seen.observedGeneration
    && seen.counters.ready != 0 && seen.counters.desired != 0
    && seen.counters.updated >= seen.counters.desired
    && seen.counters.available >= seen.counters.desired
    && seen.counters.unavailable <= 0
  }

  lemma WantedAvailability(p: PassInput)
    ensures var a := AvailableNow(p.generation, p.seen, p.recErr);
            && (a.status == IsTrue <==> p.recErr.None? && FullyRolledOut(p.seen))
            && (a.reason == DaemonSetReady <==> p.recErr.None? && FullyRolledOut(p.seen))
            && (a.reason == DaemonSetReady ==>
                  a.message == ReadyMessage(p.seen.name, p.seen.counters.ready, p.seen.counters.desired))
  {
  }

  /** Available is true exactly when the last pass found the DaemonSet, fully rolled out, after
      a run without error. */
  lemma AvailabilitySoundness(es: seq<Event>)
    requires LastPass(es).Some?
    ensures After(es).Some? && IsPair(After(es).value.status.conditions)
    ensures var p := LastPass(es).value;
            After(es).value.status.conditions[1].status == IsTrue <==> p.recErr.None? && FullyRolledOut(p.seen)
  {
    ConditionsReflectLastPass(es);
    WantedAvailability(LastPass(es).value);
  }

  /** After a run that failed, Reconciled is false with the run's error and Available is never
      true; missing Secrets show as a degraded Available with their own reason. */
  lemma FailuresAreReported(es: seq<Event>)
    requires LastPass(es).Some? && LastPass(es).value.recErr.Some?
    ensures After(es).Some? && IsPair(After(es).value.status.conditions)
    ensures var p, cs := LastPass(es).value, After(es).value.status.conditions;
            && cs[0].status == IsFalse && cs[0].reason == ReconcileError && cs[0].message == Message(p.recErr.value)
            && cs[1].status != IsTrue
            && (p.seen.Seen? ==> cs[1].status == IsDegraded)
            && (p.seen.Seen? && p.recErr.value.SecretNotFound? ==>
                  cs[1].reason == SecretMissing && cs[1].message == Message(p.recErr.value))
  {
    ConditionsReflectLastPass(es);
    WantedAvailability(LastPass(es).value);
  }

  lemma ReadyMessageInjective(n1: string, r1: int, d1: int, n2: string, r2: int, d2: int)
    requires ReadyMessage(n1, r1, d1) == ReadyMessage(n2, r2, d2)
    ensures r1 == r2 && d1 == d2
  {
    var head1 := "power-monitor daemonset \"" + n1 + "\" is deployed to all nodes and available; ready";
    var head2 := "power-monitor daemonset \"" + n2 + "\" is deployed to all nodes and available; ready";
    ItoaInjective(r1, r2);
    ItoaInjective(r2, r1);
    ItoaInjective(d1, d2);
    ItoaInjective(d2, d1);
    assert ReadyMessage(n1, r1, d1) == head1 + [' '] + Itoa(r1) + ['/'] + Itoa(d1);
    assert ReadyMessage(n2, r2, d2) == head2 + [' '] + Itoa(r2) + ['/'] + Itoa(d2);
    LastPieceUnique(head1 + [' '] + Itoa(r1), head2 + [' '] + Itoa(r2), '/', Itoa(d1), Itoa(d2));
    LastPieceUnique(head1, head2, ' ', Itoa(r1), Itoa(r2));
  }

  /** While the stored reason is DaemonSetReady, the stored counters of ready and desired pods
      are those of the last pass, although passes that change no condition write nothing. */
  lemma {:induction false} ReadyCountersAreCurrent(es: seq<Event>)
    requires LastPass(es).Some?
    ensures After(es).Some? && IsPair(After(es).value.status.conditions)
    ensures var p, status := LastPass(es).value, After(es).value.status;
            status.conditions[1].reason == DaemonSetReady ==>
              && p.seen.Seen?
              && status.kepler.ready == p.seen.counters.ready && status.kepler.desired == p.seen.counters.desired
    decreases |es|
  {
    ConditionsReflectLastPass(es);
    WantedAvailability(LastPass(es).value);
    var n := |es| - 1;
    ConditionsReflectLastPass(es[..n]);
    var s, e := After(es[..n]).value, es[n];
    if !e.Passed? {
      ReadyCountersAreCurrent(es[..n]);
    } else {
      var p := InputAt(s, e);
      PassOnPair(s.status, p);
      var unwritten := After(es).value.status == s.status;
      if LastPass(es[..n]).Some? && unwritten && s.status.conditions[1].reason == DaemonSetReady {
        ReadyCountersAreCurrent(es[..n]);
        var q := LastPass(es[..n]).value;
        WantedAvailability(q);
        ReadyMessageInjective(p.seen.name, p.seen.counters.ready, p.seen.counters.desired,
                              q.seen.name, q.seen.counters.ready, q.seen.counters.desired);
      }
    }
  }
}
