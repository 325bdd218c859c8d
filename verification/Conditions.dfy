/** The status protocol of the internal controller: conditions and mirrored counters. */
module Conditions {
  import opened Common
  import opened Api
  import opened Decimal

  const NO_COUNTERS := Counters(0, 0, 0, 0, 0, 0, 0)

  /** What reading the DaemonSet gave. `name` is its namespace and name. */
  datatype DaemonSetSeen =
    | Seen(name: string, generation: int, observedGeneration: int, counters: Counters)
    | Absent(text: string)
    | Unreadable(text: string)

  // ---- the conditions a pass wants ------------------------------------------

  function Blank(t: ConditionType): Condition {
    Condition(t, IsFalse, 0, 0, NoReason, "")
  }

  function ReconciledNow(generation: int, recErr: Option<Error>): Condition {
    match recErr
    case None => Condition(Reconciled, IsTrue, generation, 0, ReconcileComplete, "Reconcile succeeded")
    case Some(e) => Condition(Reconciled, IsFalse, generation, 0, ReconcileError, Message(e))
  }

  function ReadyMessage(name: string, ready: int, desired: int): string {
    "power-monitor daemonset \"" + name + "\" is deployed to all nodes and available; ready"
    + " " + Itoa(ready) + "/" + Itoa(desired)
  }

  function RolloutState(seen: DaemonSetSeen): Condition
    requires seen.Seen?
  {
    var ds, quoted := seen.counters, "\"" + seen.name + "\"";
    var c := Blank(Available);
    if seen.generation > seen.observedGeneration then
      c.(status := IsUnknown, reason := DaemonSetOutOfSync,
         message := "Generation " + Itoa(seen.generation) + " of power-monitor daemonset " + quoted
                    + " is out of sync with the observed generation: " + Itoa(seen.observedGeneration))
    else if ds.ready == 0 || ds.desired == 0 then
      c.(status := IsFalse, reason := DaemonSetPodsNotRunning,
         message := "power-monitor daemonset " + quoted
                    + " is not rolled out to any node; check nodeSelector and tolerations")
    else if ds.updated < ds.desired then
      c.(status := IsUnknown, reason := DaemonSetRolloutInProgress,
         message := "Waiting for power-monitor daemonset " + quoted
                    + " rollout to finish: " + Itoa(ds.updated) + " out of "
                    + Itoa(ds.desired) + " new pods have been updated")
    else if ds.available < ds.desired then
      c.(status := IsUnknown, reason := DaemonSetPartiallyAvailable,
         message := "Rollout of power-monitor daemonset " + quoted + " is in progress: " + Itoa(ds.available) + " of "
                    + Itoa(ds.desired) + " updated pods are available")
    else if ds.unavailable > 0 then
      c.(status := IsFalse, reason := DaemonSetPartiallyAvailable,
         message := "Waiting for power-monitor daemonset " + quoted
                    + " to rollout on " + Itoa(ds.unavailable) + " nodes")
    else
      c.(status := IsTrue, reason := DaemonSetReady, message := ReadyMessage(seen.name, ds.ready, ds.desired))
  }

  function AvailableNow(generation: int, seen: DaemonSetSeen, recErr: Option<Error>): Condition {
    match seen
    case Absent(text) => Blank(Available).(reason := DaemonSetNotFound, message := text)
    case Unreadable(text) => Blank(Available).(status := IsUnknown, reason := DaemonSetError, message := text)
    case Seen(_, _, _, _) =>
      var c := RolloutState(seen);
      match recErr
      case None => c.(observedGeneration := generation)
      case Some(e) =>
        if e.SecretNotFound? then c.(status := IsDegraded, reason := SecretMissing, message := Message(e))
        else c.(status := IsDegraded, reason := ReconcileError)
  }

  // ---- updating the list ----------------------------------------------------

  predicate Has(conditions: seq<Condition>, t: ConditionType) {
    exists i :: 0 <= i < |conditions| && conditions[i].ctype == t
  }

  function BlankIfMissing(conditions: seq<Condition>, t: ConditionType): seq<Condition> {
    if Has(conditions, t) then [] else [Blank(t)]
  }

  /** Lists of two are taken as they are; otherwise missing types are appended in the order in
      which the runtime walks a map, which is a coin toss. */
  function Sanitized(conditions: seq<Condition>, reconciledFirst: bool): seq<Condition> {
    if |conditions| == 2 then conditions
    else if |conditions| == 0 then [Blank(Reconciled), Blank(Available)]
    else if reconciledFirst then
      conditions + BlankIfMissing(conditions, Reconciled) + BlankIfMissing(conditions, Available)
    else conditions + BlankIfMissing(conditions, Available) + BlankIfMissing(conditions, Reconciled)
  }

  predicate SameState(a: Condition, b: Condition) {
    && a.observedGeneration == b.observedGeneration && a.status == b.status
    && a.reason == b.reason && a.message == b.message
  }

  function Revised(prior: Condition, latest: Condition, now: int): Condition {
    if SameState(prior, latest) then prior else latest.(ctype := prior.ctype, lastTransition := now)
  }

  predicate IsFirst(conditions: seq<Condition>, t: ConditionType, i: nat) {
    i < |conditions| && conditions[i].ctype == t && forall j :: 0 <= j < i ==> conditions[j].ctype != t
  }

  function IndexOf(conditions: seq<Condition>, t: ConditionType): (i: Option<nat>)
    ensures i.Some? ==> IsFirst(conditions, t, i.value)
    ensures i.None? <==> !Has(conditions, t)
  {
    if |conditions| == 0 then None
    else if conditions[0].ctype == t then Some(0)
    else
      match IndexOf(conditions[1..], t)
      case None => None
      case Some(i) => Some(i + 1)
  }

  /** None stands for the panic when the type is not in the list. */
  function Updated(conditions: seq<Condition>, latest: Condition, now: int): Option<seq<Condition>> {
    match IndexOf(conditions, latest.ctype)
    case None => None
    case Some(i) => Some(conditions[i := Revised(conditions[i], latest, now)])
  }

  lemma {:induction false} FirstIsIndex(conditions: seq<Condition>, t: ConditionType, i: nat)
    requires IsFirst(conditions, t, i)
    ensures IndexOf(conditions, t) == Some(i)
  {
    if i > 0 {
      assert conditions[0].ctype != t;
      forall j | 0 <= j < i - 1 ensures conditions[1..][j].ctype != t {
        assert conditions[1..][j] == conditions[j + 1];
      }
      FirstIsIndex(conditions[1..], t, i - 1);
    }
  }

  // ---- one pass -------------------------------------------------------------

  datatype PassInput = PassInput(generation: int, seen: DaemonSetSeen, recErr: Option<Error>, now: int,
                                 reconciledFirst: bool)

  /** Both conditions updated, one after the other. */
  function BothUpdated(conditions: seq<Condition>, reconciled: Condition, available: Condition, now: int)
    : Option<seq<Condition>>
  {
    match Updated(conditions, reconciled, now)
    case None => None
    case Some(c) => Updated(c, available, now)
  }

  /** The status after a pass; None stands for a panic. Nothing is written, not even counters,
      when no condition changed. */
  function Pass(status: Status, p: PassInput): Option<Status> {
    var c0 := Sanitized(status.conditions, p.reconciledFirst);
    match BothUpdated(c0, ReconciledNow(p.generation, p.recErr), AvailableNow(p.generation, p.seen, p.recErr), p.now)
    case None => None
    case Some(c2) =>
      if c2 == c0 then Some(status) else Some(Status(if p.seen.Seen? then p.seen.counters else status.kepler, c2))
  }

  lemma SanitizedExtends(conditions: seq<Condition>, reconciledFirst: bool)
    ensures var c0 := Sanitized(conditions, reconciledFirst);
            && |conditions| <= |c0| && c0[..|conditions|] == conditions
            && (forall k :: |conditions| <= k < |c0| ==> c0[k].reason == NoReason)
            && (Has(conditions, Reconciled) && Has(conditions, Available) ==> c0 == conditions)
  {
    if Has(conditions, Reconciled) && Has(conditions, Available) {
      assert conditions + [] + [] == conditions;
    }
  }

  lemma UpdatesAreApart(c0: seq<Condition>, r: Condition, a: Condition, now: int, c1: seq<Condition>,
                        c2: seq<Condition>)
    requires r.ctype != a.ctype && Updated(c0, r, now) == Some(c1) && Updated(c1, a, now) == Some(c2)
    ensures c2 == c0 <==> c1 == c0 && c2 == c1
  {
    var i := IndexOf(c0, r.ctype).value;
    assert c2[i] == c1[i];
  }

  /** Nothing was written exactly when neither update changed the list. */
  lemma PassByParts(status: Status, p: PassInput, c1: seq<Condition>, c2: seq<Condition>)
    requires Updated(Sanitized(status.conditions, p.reconciledFirst), ReconciledNow(p.generation, p.recErr), p.now)
         == Some(c1)
    requires Updated(c1, AvailableNow(p.generation, p.seen, p.recErr), p.now) == Some(c2)
    ensures Pass(status, p).Some?
    ensures var c0 := Sanitized(status.conditions, p.reconciledFirst);
            && (Pass(status, p).value == status <==> c1 == c0 && c2 == c1)
            && (Pass(status, p).value != status ==>
                  Pass(status, p).value == Status(if p.seen.Seen? then p.seen.counters else status.kepler, c2))
  {
    var c0 := Sanitized(status.conditions, p.reconciledFirst);
    UpdatesAreApart(c0, ReconciledNow(p.generation, p.recErr), AvailableNow(p.generation, p.seen, p.recErr), p.now, c1,
                    c2);
    SanitizedExtends(status.conditions, p.reconciledFirst);
  }

  // ---- the same on the resource in memory -----------------------------------

  /** The blank conditions added for the missing types among `done`. */
  ghost predicate AddedFor(added: seq<Condition>, conditions: seq<Condition>, done: set<ConditionType>,
                           reconciledFirst: bool) {
    var r := if Reconciled in done then BlankIfMissing(conditions, Reconciled) else [];
    var a := if Available in done then BlankIfMissing(conditions, Available) else [];
    added == if reconciledFirst then r + a else a + r
  }

  lemma AddedGrows(added: seq<Condition>, conditions: seq<Condition>, done: set<ConditionType>, t: ConditionType,
                   reconciledFirst: bool)
    requires AddedFor(added, conditions, done, reconciledFirst) && t !in done
    requires t == Reconciled || t == Available || Has(conditions, t)
    requires t == Reconciled && !reconciledFirst ==> Available in done
    requires t == Available && reconciledFirst ==> Reconciled in done
    requires t == Reconciled && reconciledFirst ==> Available !in done
    requires t == Available && !reconciledFirst ==> Reconciled !in done
    ensures AddedFor(if Has(conditions, t) then added else added + [Blank(t)], conditions, done + {t}, reconciledFirst)
  {
  }

  method RequiredTypes(conditions: array<Condition>) returns (required: map<ConditionType, bool>)
    ensures Reconciled in required && Available in required
    ensures forall t :: t in required ==> (required[t] <==> Has(conditions[..], t))
    ensures forall t :: t in required && t != Reconciled && t != Available ==> required[t]
  {
    required := map[Reconciled := false, Available := false];
    for i := 0 to conditions.Length
      invariant Reconciled in required && Available in required
      invariant forall t :: t in required && t != Reconciled && t != Available ==> required[t]
      invariant forall t :: t in required ==> (required[t] <==> exists j :: 0 <= j < i && conditions[j].ctype == t)
    {
      required := required[conditions[i].ctype := true];
    }
    assert forall j :: 0 <= j < conditions.Length ==> conditions[..][j] == conditions[j];
  }

  /** Walks the map of required types in any order, of which only the places of the two required
      types matter. */
  method MissingTypes(required: map<ConditionType, bool>, ghost list: seq<Condition>, reconciledFirst: bool)
    returns (added: seq<Condition>)
    requires Reconciled in required && Available in required
    requires forall t :: t in required ==> (required[t] <==> Has(list, t))
    requires forall t :: t in required && t != Reconciled && t != Available ==> required[t]
    ensures added == if reconciledFirst then BlankIfMissing(list, Reconciled) + BlankIfMissing(list, Available)
                     else BlankIfMissing(list, Available) + BlankIfMissing(list, Reconciled)
  {
    added := [];
    var walk := required.Keys;
    var sooner := if reconciledFirst then Reconciled else Available;
    var later := if reconciledFirst then Available else Reconciled;
    while walk != {}
      invariant walk <= required.Keys
      invariant sooner in walk ==> later in walk
      invariant AddedFor(added, list, required.Keys - walk, reconciledFirst)
      decreases |walk|
    {
      ghost var any :| any in walk;
      assert sooner in walk || (any in walk && sooner !in walk);
      var t :| t in walk && (t == later ==> sooner !in walk);
      AddedGrows(added, list, required.Keys - walk, t, reconciledFirst);
      assert required.Keys - (walk - {t}) == (required.Keys - walk) + {t};
      walk := walk - {t};
      if !required[t] {
        added := added + [Blank(t)];
      }
    }
    assert required.Keys - walk == required.Keys;
  }

  /** The status of a fetched resource while a pass works on it. */
  class StatusRecord {
    const generation: int
    var kepler: Counters
    var conditions: array<Condition>

    ghost function Value(): Status
      reads this, conditions
    {
      Status(kepler, conditions[..])
    }

    constructor (generation: int, status: Status)
      ensures this.generation == generation && Value() == status && fresh(conditions)
    {
      this.generation, kepler := generation, status.kepler;
      var list := status.conditions;
      conditions := new Condition[|list|](i requires 0 <= i < |list| => list[i]);
    }

    /** sanitizePowerMonitorConditions */
    method Sanitize(reconciledFirst: bool)
      modifies this`conditions
      ensures conditions == old(conditions) || fresh(conditions)
      ensures conditions[..] == Sanitized(old(conditions[..]), reconciledFirst)
    {
      if conditions.Length == 2 {
        return;
      }
      if conditions.Length == 0 {
        conditions := new Condition[] [Blank(Reconciled), Blank(Available)];
        assert conditions[..] == [Blank(Reconciled), Blank(Available)];
        return;
      }
      var required := RequiredTypes(conditions);
      var added := MissingTypes(required, conditions[..], reconciledFirst);
      var extended := conditions[..] + added;
      conditions := new Condition[|extended|](i requires 0 <= i < |extended| => extended[i]);
      assert conditions[..] == extended;
    }

    /** findPowerMonitorCondition; the place of the condition, or -1. */
    method Find(t: ConditionType) returns (place: int)
      ensures -1 <= place < conditions.Length
      ensures IndexOf(conditions[..], t) == if place < 0 then None else Some(place)
    {
      for i := 0 to conditions.Length
        invariant forall j :: 0 <= j < i ==> conditions[j].ctype != t
      {
        if conditions[i].ctype == t {
          FirstIsIndex(conditions[..], t, i);
          return i;
        }
      }
      return -1;
    }

    /** updatePowerMonitorCondition, writing through a pointer into the list. */
    method UpdateCondition(latest: Condition, now: int) returns (panics: bool, changed: bool)
      modifies conditions
      ensures panics <==> Updated(old(conditions[..]), latest, now) == None
      ensures !panics ==> Some(conditions[..]) == Updated(old(conditions[..]), latest, now)
      ensures !panics ==> (changed <==> conditions[..] != old(conditions[..]))
    {
      var place := Find(latest.ctype);
      if place < 0 {
        return true, false;
      }
      ghost var list := conditions[..];
      var prior := conditions[place];
      if SameState(prior, latest) {
        assert list[place := prior] == list;
        return false, false;
      }
      conditions[place] := prior.(observedGeneration := latest.observedGeneration, status := latest.status,
                                  reason := latest.reason, message := latest.message, lastTransition := now);
      assert conditions[..] == list[place := conditions[place]];
      assert conditions[..][place] != list[place];
      return false, true;
    }

    method UpdateReconciledStatus(recErr: Option<Error>, now: int) returns (panics: bool, changed: bool)
      modifies conditions
      ensures panics <==> Updated(old(conditions[..]), ReconciledNow(generation, recErr), now) == None
      ensures !panics ==> Some(conditions[..]) == Updated(old(conditions[..]), ReconciledNow(generation, recErr), now)
      ensures !panics ==> (changed <==> conditions[..] != old(conditions[..]))
    {
      var reconciled := Condition(Reconciled, IsTrue, generation, 0, ReconcileComplete, "Reconcile succeeded");
      if recErr.Some? {
        reconciled := reconciled.(status := IsFalse, reason := ReconcileError, message := Message(recErr.value));
      }
      panics, changed := UpdateCondition(reconciled, now);
    }

    method UpdateAvailableStatus(seen: DaemonSetSeen, recErr: Option<Error>, now: int)
      returns (panics: bool, changed: bool)
      modifies this`kepler, conditions
      ensures kepler == if seen.Seen? then seen.counters else old(kepler)
      ensures panics <==> Updated(old(conditions[..]), AvailableNow(generation, seen, recErr), now) == None
      ensures !panics ==>
                Some(conditions[..]) == Updated(old(conditions[..]), AvailableNow(generation, seen, recErr), now)
      ensures !panics ==> (changed <==> conditions[..] != old(conditions[..]))
    {
      var available;
      if seen.Seen? {
        kepler := seen.counters;
        available := RolloutState(seen);
        if recErr.None? {
          available := available.(observedGeneration := generation);
        } else {
          available := available.(status := IsDegraded);
          if recErr.value.SecretNotFound? {
            available := available.(reason := SecretMissing, message := Message(recErr.value));
          } else {
            available := available.(reason := ReconcileError);
          }
        }
      } else if seen.Absent? {
        available := Blank(Available).(reason := DaemonSetNotFound, message := seen.text);
      } else {
        available := Blank(Available).(status := IsUnknown, reason := DaemonSetError, message := seen.text);
      }
      panics, changed := UpdateCondition(available, now);
    }
  }
}
