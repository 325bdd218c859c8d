/** Which events enqueue a resource, and why those are enough. */
module Watches {
  import opened Common
  import opened Api
  import opened ClusterModel
  import opened Steps
  import opened Runner
  import opened Frames
  import opened Rollout
  import opened Lockstep
  import Coherence
  import ConfigSafety
  import MissingSecrets

  datatype Listed = Listed(name: string, spec: Spec)

  method IndexConfigMaps(spec: Spec) returns (keys: seq<string>)
    ensures keys == spec.config.additionalConfigMaps
  {
    keys := [];
    var refs := spec.config.additionalConfigMaps;
    for i := 0 to |refs|
      invariant keys == refs[..i]
    {
      keys := keys + [refs[i]];
    }
  }

  method IndexSecrets(spec: Spec) returns (keys: seq<string>)
    ensures keys == SecretNames(spec.deployment.secrets)
  {
    keys := [];
    var refs := spec.deployment.secrets;
    for i := 0 to |refs|
      invariant keys == SecretNames(refs[..i])
    {
      keys := keys + [refs[i].name];
    }
    assert refs[..|refs|] == refs;
  }

  /** The index looks at the kind and the name of the changed object, not at its namespace. */
  predicate Enqueues(spec: Spec, key: Key) {
    || (key.kind == ConfigMap && key.name in spec.config.additionalConfigMaps)
    || (key.kind == Secret && key.name in SecretNames(spec.deployment.secrets))
  }

  function Requests(all: seq<Listed>, key: Key): seq<string> {
    if |all| == 0 then []
    else Requests(all[..|all| - 1], key) + if Enqueues(all[|all| - 1].spec, key) then [all[|all| - 1].name] else []
  }

  /** The two map functions: list by index, one request for each match; none when listing fails. */
  method MapToRequests(listing: Option<seq<Listed>>, key: Key) returns (requests: seq<string>)
    requires key.kind == ConfigMap || key.kind == Secret
    ensures requests == if listing.Some? then Requests(listing.value, key) else []
  {
    requests := [];
    if listing.None? {
      return;
    }
    var all := listing.value;
    for i := 0 to |all|
      invariant requests == Requests(all[..i], key)
    {
      assert all[..i + 1][..i] == all[..i];
      var keys: seq<string>;
      if key.kind == ConfigMap {
        keys := IndexConfigMaps(all[i].spec);
      } else {
        keys := IndexSecrets(all[i].spec);
      }
      if key.name in keys {
        requests := requests + [all[i].name];
      }
    }
    assert all[..|all|] == all;
  }

  /** A resource is requested exactly when one of its references has the object's name. */
  lemma {:induction false} RequestedExactlyWhen(all: seq<Listed>, key: Key, name: string)
    ensures name in Requests(all, key)
       <==> exists i :: 0 <= i < |all| && all[i].name == name && Enqueues(all[i].spec, key)
  {
    if |all| > 0 {
      var n := |all| - 1;
      RequestedExactlyWhen(all[..n], key, name);
      if name in Requests(all[..n], key) {
        var i :| 0 <= i < n && all[..n][i].name == name && Enqueues(all[..n][i].spec, key);
        assert all[i] == all[..n][i];
      }
      forall i | 0 <= i < |all| && all[i].name == name && Enqueues(all[i].spec, key)
        ensures name in Requests(all, key)
      {
        if i < n {
          assert all[..n][i] == all[i];
        }
      }
    }
  }

  // ---- non-interference -----------------------------------------------------

  /** The clusters agree on every object whose event would enqueue the resource. */
  ghost predicate AgreeOnWatched(spec: Spec, a: Objects, b: Objects) {
    forall key :: Enqueues(spec, key) ==> Lookup(a, key) == Lookup(b, key)
  }

  ghost function Watched(spec: Spec): iset<Key> {
    iset key: Key | Enqueues(spec, key)
  }

  lemma WatchedCoversReferences(job: Job)
    ensures SharesConfigMaps(job, Watched(job.spec), job.spec.config.additionalConfigMaps)
    ensures forall s :: MountsInStep(job, Watched(job.spec), {}, s, SecretNames(job.spec.deployment.secrets))
  {
  }

  lemma MountersAgree(env: Env, job: Job, shared: iset<Key>, a: World, b: World)
    requires Quiet(env) && Agree(shared, a.server, b.server) && a.template == b.template
    requires MountsInStep(job, shared, {}, a.server, SecretNames(job.spec.deployment.secrets))
    ensures var (ra, a') := Step(env, job, SecretMounter, a);
            var (rb, b') := Step(env, job, SecretMounter, b);
            ra == rb && a'.template == b'.template && Agree(shared, a'.server, b'.server)
  {
    assert Hidden({}) == {};
    NothingHidden(b.template);
    MountInStep(env, job, shared, {}, a.server, b.server, SecretNames(job.spec.deployment.secrets), a.template,
                b.template, [], []);
    NothingHidden(Step(env, job, SecretMounter, b).1.template);
  }

  lemma DeployersAgree(env: Env, job: Job, shared: iset<Key>, a: World, b: World)
    requires Quiet(env) && Agree(shared, a.server, b.server) && a.template == b.template && a.monitor == b.monitor
    requires SharesConfigMaps(job, shared, job.spec.config.additionalConfigMaps)
    ensures Step(env, job, Deployer, a).0 == Step(env, job, Deployer, b).0
    ensures Step(env, job, Deployer, a).1.template == Step(env, job, Deployer, b).1.template
  {
    NothingHidden(b.template);
    DeployInStep(env, job, shared, {}, a, b);
    NothingHidden(Deploy(env, job, b).1.template);
  }

  lemma NothingHidden(m: map<string, string>)
    ensures m - {} == m
  {
  }

  /** Watch coverage for the mounter followed by the Deployer, whatever API failures occur: two clusters that agree on
      the watched objects mount the same hashes, report the same missing Secrets, and deploy the
      same configuration with the same annotations or fail with the same error. */
  lemma WatchedObjectsDecideSteps(env: Env, job: Job, a: World, b: World)
    requires Quiet(env)
    requires a.server.calls == b.server.calls && a.template == b.template && a.monitor == b.monitor
    requires AgreeOnWatched(job.spec, a.server.store.objects, b.server.store.objects)
    ensures var (ra, a') := Step(env, job, SecretMounter, a);
            var (rb, b') := Step(env, job, SecretMounter, b);
            && ra == rb && a'.template == b'.template
            && Step(env, job, Deployer, a').0 == Step(env, job, Deployer, b').0
            && Step(env, job, Deployer, a').1.template == Step(env, job, Deployer, b').1.template
  {
    var shared := Watched(job.spec);
    assert Agree(shared, a.server, b.server) by {
      forall key | key in shared ensures Peek(a.server, key) == Peek(b.server, key) {
        assert Enqueues(job.spec, key);
      }
    }
    WatchedCoversReferences(job);
    MountersAgree(env, job, shared, a, b);
    DeployersAgree(env, job, shared, Step(env, job, SecretMounter, a).1, Step(env, job, SecretMounter, b).1);
  }

  lemma WatchedDecidesDesired(job: Job, a: Objects, b: Objects)
    requires AgreeOnWatched(job.spec, a, b)
    ensures DesiredConfig(job, a) == DesiredConfig(job, b)
    ensures forall text :: DesiredTemplate(job, a, text) == DesiredTemplate(job, b, text)
    ensures MissingSecrets.MissingError(job, a) == MissingSecrets.MissingError(job, b)
    ensures DeployError(job, a) == DeployError(job, b)
  {
    var names, maps := SecretNames(job.spec.deployment.secrets), job.spec.config.additionalConfigMaps;
    forall i | 0 <= i < |names|
      ensures Lookup(a, Key(Secret, Ns(job), names[i])) == Lookup(b, Key(Secret, Ns(job), names[i]))
    {
      assert Enqueues(job.spec, Key(Secret, Ns(job), names[i]));
    }
    forall i | 0 <= i < |maps|
      ensures Lookup(a, Key(ConfigMap, Ns(job), maps[i])) == Lookup(b, Key(ConfigMap, Ns(job), maps[i]))
    {
      assert Enqueues(job.spec, Key(ConfigMap, Ns(job), maps[i]));
    }
    AgreementDecides(job, a, b, names);
    StoredConfigMapsAgree(job, a, b, maps);
    ReadStoredAgrees(job, a, b, maps, []);
  }

  lemma AppliedInModeNone(env: Env, job: Job, w: World)
    requires Coherence.UpdateRunInModeNone(env, job, w)
    ensures var end, objects := EndOf(env, job, w), w.server.store.objects;
            var text := DesiredConfig(job, objects);
            && text.Some?
            && Peek(end, ConfigKey(job)).Some? && Peek(end, ConfigKey(job)).value.applied == ConfigFields(text.value)
            && Peek(end, DaemonSetKey(job)).Some?
            && Peek(end, DaemonSetKey(job)).value.applied
              == DaemonSetFields(job, DesiredTemplate(job, objects, text.value))
  {
    Coherence.RolloutAchieved(env, job, w);
  }

  /** Watch coverage for whole runs in mode none: over clusters that agree on the watched
      objects, and under any two outside worlds, runs whose steps did their work store the same
      generated ConfigMap and the same DaemonSet, and arrive at the finalizer with the same error. */
  lemma WatchedObjectsDecideRollout(env1: Env, env2: Env, job: Job, a: World, b: World)
    requires Coherence.UpdateRunInModeNone(env1, job, a) && Coherence.UpdateRunInModeNone(env2, job, b)
    requires AgreeOnWatched(job.spec, a.server.store.objects, b.server.store.objects)
    ensures var enda, endb := EndOf(env1, job, a), EndOf(env2, job, b);
            && Peek(enda, ConfigKey(job)).Some? && Peek(endb, ConfigKey(job)).Some?
            && Peek(enda, ConfigKey(job)).value.applied == Peek(endb, ConfigKey(job)).value.applied
            && Peek(enda, DaemonSetKey(job)).Some? && Peek(endb, DaemonSetKey(job)).Some?
            && Peek(enda, DaemonSetKey(job)).value.applied == Peek(endb, DaemonSetKey(job)).value.applied
    ensures var err := MissingSecrets.MissingError(job, a.server.store.objects);
            && Run(env1, job, Reconcilers(job), a)
                 == RunFrom(env1, job, [Finalizer], Exec(env1, job, UpdateSteps(job), a), err)
            && Run(env2, job, Reconcilers(job), b)
                 == RunFrom(env2, job, [Finalizer], Exec(env2, job, UpdateSteps(job), b), err)
  {
    AppliedInModeNone(env1, job, a);
    AppliedInModeNone(env2, job, b);
    WatchedDecidesDesired(job, a.server.store.objects, b.server.store.objects);
    MissingSecrets.RunReportsMissing(env1, job, a);
    MissingSecrets.RunReportsMissing(env2, job, b);
  }

  // ---- runs that fail at the Deployer ---------------------------------------

  /** A run in mode none that has done its work as far as the Deployer, with no API failure there. */
  ghost predicate ReachesDeployer(env: Env, job: Job, w: World) {
    && !job.deleting && !EnableRBAC(job.spec) && Faultless(env)
    && AllFine(env, job, BeforeWorkload(job), w)
    && LeavesConfigMaps(env, job, job.spec.config.additionalConfigMaps) && Leaves(env, CABundleKey(job))
  }

  lemma WatchedAtDeployer(env1: Env, env2: Env, job: Job, a: World, b: World)
    requires ReachesDeployer(env1, job, a) && ReachesDeployer(env2, job, b)
    requires AgreeOnWatched(job.spec, a.server.store.objects, b.server.store.objects)
    ensures DeployError(job, Exec(env1, job, BeforeWorkload(job), a).server.store.objects)
         == DeployError(job, Exec(env2, job, BeforeWorkload(job), b).server.store.objects)
  {
    var names := job.spec.config.additionalConfigMaps;
    var sa, sb := Exec(env1, job, BeforeWorkload(job), a).server, Exec(env2, job, BeforeWorkload(job), b).server;
    forall i | 0 <= i < |names|
      ensures Peek(sa, Key(ConfigMap, Ns(job), names[i])) == Peek(sb, Key(ConfigMap, Ns(job), names[i]))
    {
      if names[i] == CA_BUNDLE_CONFIG_MAP {
        Coherence.CABundleGoneAtDeployer(env1, job, a);
        Coherence.CABundleGoneAtDeployer(env2, job, b);
      } else {
        Coherence.ConfigMapAtDeployer(env1, job, a, names[i]);
        Coherence.ConfigMapAtDeployer(env2, job, b, names[i]);
        assert Enqueues(job.spec, Key(ConfigMap, Ns(job), names[i]));
      }
    }
    ReadStoredAgrees(job, sa.store.objects, sb.store.objects, names, []);
  }

  lemma StopsWithDeployError(env: Env, job: Job, w: World)
    requires ReachesDeployer(env, job, w)
    requires DeployError(job, Exec(env, job, BeforeWorkload(job), w).server.store.objects).Some?
    ensures var err := DeployError(job, Exec(env, job, BeforeWorkload(job), w).server.store.objects);
            Run(env, job, Reconcilers(job), w).0 == Verdict(false, 0, err)
  {
    var pre := BeforeWorkload(job);
    var rest := [ObjectsChecker, DaemonSetUpdater, MonitorStep] + Dashboards(job) + [Finalizer];
    ConfigSafety.ReconcilersShape(job);
    DeployReports(env, job, Exec(env, job, pre, w));
    Coherence.DeployerDeploys(env, job, Exec(env, job, pre, w));
    var err := DeployError(job, Exec(env, job, pre, w).server.store.objects);
    RunStops(env, job, pre, Deployer, rest, w, err.value);
  }

  /** The same for runs that fail: over clusters that agree on the watched objects, and under any
      two outside worlds, a run that reaches the Deployer stops there in one exactly when it does
      in the other, and the two return the same error. */
  lemma WatchedObjectsDecideFailure(env1: Env, env2: Env, job: Job, a: World, b: World)
    requires ReachesDeployer(env1, job, a) && ReachesDeployer(env2, job, b)
    requires AgreeOnWatched(job.spec, a.server.store.objects, b.server.store.objects)
    ensures var ra := Step(env1, job, Deployer, Exec(env1, job, BeforeWorkload(job), a)).0;
            var rb := Step(env2, job, Deployer, Exec(env2, job, BeforeWorkload(job), b)).0;
            && ra == rb
            && (!Fine(ra) ==> Run(env1, job, Reconcilers(job), a).0 == Run(env2, job, Reconcilers(job), b).0)
  {
    var wa, wb := Exec(env1, job, BeforeWorkload(job), a), Exec(env2, job, BeforeWorkload(job), b);
    WatchedAtDeployer(env1, env2, job, a, b);
    DeployReports(env1, job, wa);
    DeployReports(env2, job, wb);
    Coherence.DeployerDeploys(env1, job, wa);
    Coherence.DeployerDeploys(env2, job, wb);
    if DeployError(job, wa.server.store.objects).Some? {
      StopsWithDeployError(env1, job, a);
      StopsWithDeployError(env2, job, b);
    }
  }

  /** A change of an object that enqueues nothing does not change what is to be rolled out, nor what
      is reported about it. */
  lemma UnwatchedChangeIsIrrelevant(job: Job, objects: Objects, key: Key, change: Option<Object>)
    requires !Enqueues(job.spec, key)
    ensures var changed := if change.Some? then objects[key := change.value] else objects - {key};
            && DesiredConfig(job, changed) == DesiredConfig(job, objects)
            && (forall text :: DesiredTemplate(job, changed, text) == DesiredTemplate(job, objects, text))
            && MissingSecrets.MissingError(job, changed) == MissingSecrets.MissingError(job, objects)
            && DeployError(job, changed) == DeployError(job, objects)
  {
    var changed := if change.Some? then objects[key := change.value] else objects - {key};
    assert AgreeOnWatched(job.spec, changed, objects);
    WatchedDecidesDesired(job, changed, objects);
  }
}
