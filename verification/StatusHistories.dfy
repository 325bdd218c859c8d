/** Histories of reconciles and edits are histories of status passes, so what holds after every one
    of the latter holds of every status the operator stores. */
module StatusHistories {
  import opened Common
  import opened Api
  import opened ClusterModel
  import opened Steps
  import opened Conditions
  import opened Controller
  import opened FinalizerSafety
  import opened StatusProtocol
  import opened StatusWrites

  /** Others edit or delete the resource, but neither write its status nor lower its generation. */
  predicate EditsOnly(before: Option<Pmi>, after: Option<Pmi>) {
    after.Some? ==>
      && before.Some?
      && after.value.status == before.value.status && after.value.generation >= before.value.generation
  }

  ghost predicate OthersEdit(env: Env) {
    forall n: nat, st: Store :: EditsOnly(st.pmi, env.tick(n, st).pmi)
  }

  ghost predicate AllEdit(setup: Setup, moves: seq<Move>, store: Store)
    decreases |moves|
  {
    |moves| == 0
    || match moves[0]
       case Others(next) => EditsOnly(store.pmi, next.pmi) && AllEdit(setup, moves[1..], next)
       case Reconciles(env) =>
         OthersEdit(env) && AllEdit(setup, moves[1..], Controller.Reconcile(env, setup, Server(store, 0)).1.store)
  }

  /** The history of passes and edits ends with the stored status and generation. */
  ghost predicate Tells(es: seq<Event>, resource: Option<Pmi>) {
    && After(es).Some?
    && (resource.Some? ==>
          After(es).value.status == resource.value.status && After(es).value.generation == resource.value.generation)
  }

  // ---- edits ----------------------------------------------------------------

  function Edits(k: nat): seq<Event> {
    if k == 0 then [] else Edits(k - 1) + [SpecEdit]
  }

  lemma AfterSnoc(es: seq<Event>, e: Event)
    requires After(es).Some?
    ensures After(es + [e]) == Next(After(es).value, e)
  {
    assert (es + [e])[..|es|] == es;
  }

  lemma {:induction false} AfterEdits(es: seq<Event>, k: nat)
    requires After(es).Some?
    ensures After(es + Edits(k)) == Some(After(es).value.(generation := After(es).value.generation + k))
    decreases k
  {
    if k == 0 {
      assert es + [] == es;
    } else {
      AfterEdits(es, k - 1);
      assert es + Edits(k) == es + Edits(k - 1) + [SpecEdit];
      AfterSnoc(es + Edits(k - 1), SpecEdit);
    }
  }

  lemma TellEdits(es: seq<Event>, before: Pmi, after: Option<Pmi>) returns (longer: seq<Event>)
    requires Tells(es, Some(before)) && StatusIs(after, before.status, before.generation)
    ensures Tells(longer, after)
  {
    longer := es;
    if after.Some? {
      var k := after.value.generation - before.generation;
      AfterEdits(es, k);
      longer := es + Edits(k);
    }
  }

  lemma TellPass(es: seq<Event>, before: Pmi, after: Option<Pmi>, input: PassInput) returns (longer: seq<Event>)
    requires Tells(es, Some(before)) && IsPassOf(before.status, before.generation, input, after)
    ensures Tells(longer, after)
  {
    var k := input.generation - before.generation;
    AfterEdits(es, k);
    var edited := es + Edits(k);
    var e := Passed(input.seen, input.recErr, input.now, input.reconciledFirst);
    AfterSnoc(edited, e);
    assert InputAt(After(edited).value, e) == input;
    longer := edited + [e];
  }

  // ---- one move -------------------------------------------------------------

  lemma AbsentStaysAbsent(env: Env, setup: Setup, store: Store)
    requires OthersEdit(env) && store.pmi == None
    ensures Controller.Reconcile(env, setup, Server(store, 0)).1.store.pmi == None
  {
    assert EditsOnly(store.pmi, env.tick(0, store).pmi);
  }

  lemma OursAlone(env: Env, status: Status, generation: int)
    requires OthersEdit(env)
    ensures StatusIsOurs(env, status, generation)
  {
    forall n: nat, st: Store | StatusIs(st.pmi, status, generation)
      ensures StatusIs(env.tick(n, st).pmi, status, generation)
    {
      assert EditsOnly(st.pmi, env.tick(n, st).pmi);
    }
  }

  lemma TellReconcile(es: seq<Event>, env: Env, setup: Setup, store: Store) returns (longer: seq<Event>)
    requires Tells(es, store.pmi) && OthersEdit(env)
    ensures Tells(longer, Controller.Reconcile(env, setup, Server(store, 0)).1.store.pmi)
  {
    var after := Controller.Reconcile(env, setup, Server(store, 0)).1.store.pmi;
    if store.pmi.None? {
      AbsentStaysAbsent(env, setup, store);
      longer := es;
    } else {
      var p := store.pmi.value;
      OursAlone(env, p.status, p.generation);
      ReconcileIsAtMostAPass(env, setup, Server(store, 0), p.status, p.generation);
      if StatusIs(after, p.status, p.generation) {
        longer := TellEdits(es, p, after);
      } else {
        var input: PassInput :| IsPassOf(p.status, p.generation, input, after);
        longer := TellPass(es, p, after, input);
      }
    }
  }

  lemma TellOthers(es: seq<Event>, before: Option<Pmi>, after: Option<Pmi>) returns (longer: seq<Event>)
    requires Tells(es, before) && EditsOnly(before, after)
    ensures Tells(longer, after)
  {
    longer := es;
    if after.Some? {
      longer := TellEdits(es, before.value, after);
    }
  }

  // ---- every history --------------------------------------------------------

  lemma {:induction false} TellHistory(es: seq<Event>, setup: Setup, moves: seq<Move>, store: Store)
    returns (longer: seq<Event>)
    requires Tells(es, store.pmi) && AllEdit(setup, moves, store)
    ensures Tells(longer, Play(setup, moves, store).pmi)
    decreases |moves|
  {
    if |moves| == 0 {
      longer := es;
    } else {
      match moves[0]
      case Others(next) =>
        var es1 := TellOthers(es, store.pmi, next.pmi);
        longer := TellHistory(es1, setup, moves[1..], next);
      case Reconciles(env) =>
        var es1 := TellReconcile(es, env, setup, store);
        longer := TellHistory(es1, setup, moves[1..], Controller.Reconcile(env, setup, Server(store, 0)).1.store);
    }
  }

  predicate Fresh(p: Pmi) {
    p.status == START.status && p.generation == START.generation
  }

  /** From a resource's creation, whatever fails and however reconciles and edits interleave, the
      stored status is one that a history of passes and edits reaches at the stored generation. */
  lemma EveryStatusIsReachedByPasses(setup: Setup, moves: seq<Move>, store: Store) returns (es: seq<Event>)
    requires store.pmi.Some? && Fresh(store.pmi.value) && AllEdit(setup, moves, store)
    ensures Tells(es, Play(setup, moves, store).pmi)
  {
    es := TellHistory([], setup, moves, store);
  }

  /** So in every such history the stored conditions are none, or exactly Reconciled and Available;
      and no later status pass can panic. */
  lemma StoredConditionsAreAPair(setup: Setup, moves: seq<Move>, store: Store, input: PassInput)
    requires store.pmi.Some? && Fresh(store.pmi.value) && AllEdit(setup, moves, store)
    ensures var resource := Play(setup, moves, store).pmi;
            resource.Some? ==>
              && (resource.value.status.conditions == [] || IsPair(resource.value.status.conditions))
              && Pass(resource.value.status, input).Some?
  {
    var es := EveryStatusIsReachedByPasses(setup, moves, store);
    ConditionsReflectLastPass(es);
    if Play(setup, moves, store).pmi.Some? {
      PassOnPair(Play(setup, moves, store).pmi.value.status, input);
    }
  }
}
