/** The API server as the operator sees it: a store of objects, calls that can fail, and other
    writers that may act before every call. */
module ClusterModel {
  import opened Common
  import opened Api

  datatype Kind =
    | Namespace | ClusterRole | ClusterRoleBinding | SecurityContextConstraints | Secret | ConfigMap
    | ServiceAccount | Service | DaemonSet | ServiceMonitor

  datatype Key = Key(kind: Kind, ns: string, name: string)

  /** Everything in a manifest that is not a string map. */
  datatype Body =
    | Plain
    | RoleBody(tokenReviews: bool)
    | BindingBody(account: string, ns: string)
    | SccBody(user: string)
    | ServiceBody(secure: bool)
    | DaemonSetBody(pod: PodSpec)
    | MonitorBody(secure: bool, serverName: string)
    | DashboardBody(dashboard: string)

  datatype Maps = Maps(annotations: map<string, string>, data: map<string, string>, template: map<string, string>)

  const NO_MAPS := Maps(map[], map[], map[])

  /** What one field manager sets; `template` holds the pod template's annotations. */
  datatype Fields = Fields(maps: Maps, body: Body)

  datatype Rollout = Rollout(observedGeneration: int, counters: Counters)

  const NO_ROLLOUT := Rollout(0, Counters(0, 0, 0, 0, 0, 0, 0))

  /** `applied` are the operator's fields, `foreign` those of every other manager. An object
      that is `held` stays after a delete, marked as deleting, until its holders let go. */
  datatype Object = Object(
    applied: Fields,
    foreign: Maps,
    deleting: bool,
    held: bool,
    generation: int,
    rollout: Rollout)

  function Data(o: Object): map<string, string> {
    o.foreign.data + o.applied.maps.data
  }

  function Annotations(o: Object): map<string, string> {
    o.foreign.annotations + o.applied.maps.annotations
  }

  function Template(o: Object): map<string, string> {
    o.foreign.template + o.applied.maps.template
  }

  function Minus(m: Maps, taken: Maps): Maps {
    Maps(m.annotations - taken.annotations.Keys, m.data - taken.data.Keys, m.template - taken.template.Keys)
  }

  /** Server-side apply with forced ownership: the operator's previous fields are replaced,
      other managers lose exactly the entries the operator now sets. */
  function Applied(kind: Kind, prior: Option<Object>, f: Fields): Object {
    match prior
    case None => Object(f, NO_MAPS, false, kind == Namespace, 1, NO_ROLLOUT)
    case Some(o) =>
      var next := o.(applied := f, foreign := Minus(o.foreign, f.maps));
      if Template(next) == Template(o) && f.body == o.applied.body then next
      else next.(generation := o.generation + 1)
  }

  lemma ApplyIsIdempotent(kind: Kind, prior: Option<Object>, f: Fields)
    ensures Applied(kind, Some(Applied(kind, prior, f)), f) == Applied(kind, prior, f)
  {
    var once := Applied(kind, prior, f);
    assert Minus(once.foreign, f.maps) == once.foreign;
  }

  /** Applied entries are what readers see. */
  lemma AppliedEntriesAreVisible(kind: Kind, prior: Option<Object>, f: Fields, k: string)
    ensures k in f.maps.data ==> Lookup(Data(Applied(kind, prior, f)), k) == Some(f.maps.data[k])
    ensures k in f.maps.template ==> Lookup(Template(Applied(kind, prior, f)), k) == Some(f.maps.template[k])
    ensures k in f.maps.annotations ==> Lookup(Annotations(Applied(kind, prior, f)), k) == Some(f.maps.annotations[k])
  {
  }

  datatype Store = Store(objects: map<Key, Object>, pmi: Option<Pmi>)

  datatype Fault = Healthy | Conflicting | Failing(text: string)

  /** The outside world during a run. Before the n-th API call other writers may change the
      store in any way, `tick(n, store)`; the call then meets `fault(n)`. */
  datatype Env = Env(
    tick: (nat, Store) -> Store,
    fault: nat -> Fault,
    now: nat -> int,
    token: nat -> string,
    coin: nat -> bool)

  datatype Server = Server(store: Store, calls: nat)

  function Ticked(env: Env, s: Server): Server {
    Server(env.tick(s.calls, s.store), s.calls + 1)
  }

  function Put(s: Server, key: Key, o: Object): Server {
    s.(store := s.store.(objects := s.store.objects[key := o]))
  }

  function Peek(s: Server, key: Key): Option<Object> {
    Lookup(s.store.objects, key)
  }

  // ---- calls ----------------------------------------------------------------

  datatype GetResult = Found(item: Object) | Missing | GetFailed(error: Error)

  function FaultError(f: Fault): Error {
    if f.Failing? then ApiError(f.text) else ConflictError
  }

  function GetCall(env: Env, s: Server, key: Key): (GetResult, Server) {
    var s' := Ticked(env, s);
    if env.fault(s.calls) != Healthy then (GetFailed(FaultError(env.fault(s.calls))), s')
    else match Peek(s', key)
      case None => (Missing, s')
      case Some(o) => (Found(o), s')
  }

  function PatchCall(env: Env, s: Server, key: Key, f: Fields): (Option<Error>, Server) {
    var s' := Ticked(env, s);
    if env.fault(s.calls) != Healthy then (Some(FaultError(env.fault(s.calls))), s')
    else (None, Put(s', key, Applied(key.kind, Peek(s', key), f)))
  }

  /** Not-found is no error, since every caller ignores it. */
  function DeleteCall(env: Env, s: Server, key: Key): (Option<Error>, Server) {
    var s' := Ticked(env, s);
    if env.fault(s.calls) != Healthy then (Some(FaultError(env.fault(s.calls))), s')
    else match Peek(s', key)
      case None => (None, s')
      case Some(o) =>
        if o.held then (None, Put(s', key, o.(deleting := true)))
        else (None, s'.(store := s'.store.(objects := s'.store.objects - {key})))
  }

  datatype PmiResult = PmiFound(pmi: Pmi) | PmiMissing | PmiFailed(error: Error)

  function GetPmiCall(env: Env, s: Server): (PmiResult, Server) {
    var s' := Ticked(env, s);
    if env.fault(s.calls) != Healthy then (PmiFailed(FaultError(env.fault(s.calls))), s')
    else match s'.store.pmi
      case None => (PmiMissing, s')
      case Some(p) => (PmiFound(p), s')
  }

  /** A resource marked for deletion disappears with its last finalizer. */
  function Settle(p: Pmi): Option<Pmi> {
    if p.deleting && p.finalizers == {} then None else Some(p)
  }

  const PMI_NOT_FOUND := ApiError("the PowerMonitorInternal is not found")

  /** Optimistic concurrency: the write is refused when the stored resource is no longer the
      one that was read. */
  function UpdatePmiCall(env: Env, s: Server, read: Pmi, next: Pmi): (Option<Error>, Server) {
    var s' := Ticked(env, s);
    if env.fault(s.calls) != Healthy then (Some(FaultError(env.fault(s.calls))), s')
    else if s'.store.pmi == None then (Some(PMI_NOT_FOUND), s')
    else if s'.store.pmi != Some(read) then (Some(ConflictError), s')
    else (None, s'.(store := s'.store.(pmi := Settle(next))))
  }

  /** Polls until the object is reported absent; false when the attempts run out. */
  function PollAbsent(env: Env, s: Server, key: Key, attempts: nat): (bool, Server)
    decreases attempts
  {
    if attempts == 0 then (false, s)
    else
      var (r, s') := GetCall(env, s, key);
      if r == Missing then (true, s') else PollAbsent(env, s', key, attempts - 1)
  }

  /** Retries a read until it succeeds (and, when required, finds the object); otherwise the
      last failure. */
  function Await(env: Env, s: Server, key: Key, required: bool, attempts: nat, last: Error): (GetResult, Server)
    decreases attempts
  {
    if attempts == 0 then (GetFailed(last), s)
    else
      var (r, s') := GetCall(env, s, key);
      match r
      case Found(_) => (r, s')
      case Missing =>
        if required then Await(env, s', key, required, attempts - 1, OtherError("missing " + key.name)) else (r, s')
      case GetFailed(e) => Await(env, s', key, required, attempts - 1, e)
  }

  class Cluster {
    const env: Env
    var store: Store
    var calls: nat

    ghost function State(): Server
      reads this
    {
      Server(store, calls)
    }

    constructor (env: Env, store: Store)
      ensures this.env == env && State() == Server(store, 0)
    {
      this.env, this.store, this.calls := env, store, 0;
    }

    /** Other writers act, then the call takes its turn; the result is the call's fate. */
    method Begin() returns (fate: Fault)
      modifies this
      ensures State() == Ticked(env, old(State()))
      ensures fate == env.fault(old(calls))
    {
      fate := env.fault(calls);
      store := env.tick(calls, store);
      calls := calls + 1;
    }

    method Get(key: Key) returns (r: GetResult)
      modifies this
      ensures (r, State()) == GetCall(env, old(State()), key)
    {
      var fate := Begin();
      if fate != Healthy {
        return GetFailed(FaultError(fate));
      }
      if key !in store.objects {
        return Missing;
      }
      return Found(store.objects[key]);
    }

    method Patch(key: Key, f: Fields) returns (err: Option<Error>)
      modifies this
      ensures (err, State()) == PatchCall(env, old(State()), key, f)
    {
      var fate := Begin();
      if fate != Healthy {
        return Some(FaultError(fate));
      }
      store := store.(objects := store.objects[key := Applied(key.kind, Lookup(store.objects, key), f)]);
      return None;
    }

    method Delete(key: Key) returns (err: Option<Error>)
      modifies this
      ensures (err, State()) == DeleteCall(env, old(State()), key)
    {
      var fate := Begin();
      if fate != Healthy {
        return Some(FaultError(fate));
      }
      if key in store.objects {
        var o := store.objects[key];
        if o.held {
          store := store.(objects := store.objects[key := o.(deleting := true)]);
        } else {
          store := store.(objects := store.objects - {key});
        }
      }
      return None;
    }

    method GetPmi() returns (r: PmiResult)
      modifies this
      ensures (r, State()) == GetPmiCall(env, old(State()))
    {
      var fate := Begin();
      if fate != Healthy {
        return PmiFailed(FaultError(fate));
      }
      if store.pmi.None? {
        return PmiMissing;
      }
      return PmiFound(store.pmi.value);
    }

    method UpdatePmi(read: Pmi, next: Pmi) returns (err: Option<Error>)
      modifies this
      ensures (err, State()) == UpdatePmiCall(env, old(State()), read, next)
    {
      var fate := Begin();
      if fate != Healthy {
        return Some(FaultError(fate));
      }
      if store.pmi == None {
        return Some(PMI_NOT_FOUND);
      }
      if store.pmi != Some(read) {
        return Some(ConflictError);
      }
      store := store.(pmi := Settle(next));
      return None;
    }
  }
}
