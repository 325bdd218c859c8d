# A verified model of the Kepler operator

The Kepler operator keeps a DaemonSet of power monitors, its configuration, its access rights and its
credentials in line with a `PowerMonitorInternal` resource, and mirrors that resource's status into the
user-facing `PowerMonitor`. This project models the parts of the operator in which the steps of different
reconcilers, controllers and runs have to fit together, and proves what they amount to.

## What is modelled

* **The API server** (`Cluster.dfy`). A store maps kind, namespace and name to objects, and holds the
  resource itself. Objects separate what the operator applied from what other managers set; applying replaces
  the former and takes over exactly the entries it sets. Before every API call other writers may change the
  store in any way, and the call may fail or meet a conflict: both are functions of the call's number, so a
  statement over all of these functions is a statement over all interleavings and all failures. Class
  `Cluster` is the server as the imperative code sees it.
* **The reconcilers and the runner** (`Steps.dfy`, `Runner.dfy`, `Reconcilers.dfy`). `Steps` gives, for each
  reconciler, its result and effect as a function of the world; `Reconcilers.Session` holds the imperative
  versions, sharing the in-memory DaemonSet and ServiceMonitor, each proved equal to its function. `Runner`
  states what the loop over a list amounts to without mentioning the loop.
* **What a run does when calls fail, and what it leaves when they do not** (`Verdicts.dfy`, `Failures.dfy`,
  `StoredObjects.dfy`, `StoredHashes.dfy`). A clean verdict means that all the work was done; which failures delay, stop
  or only mark a run; and then, object by object and by literal names, what is stored.
* **Whole runs.** `Frames.dfy`, `ResourceFrames.dfy` and `Lockstep.dfy` are the general theory: what a step
  leaves alone, what it settles, and when two runs go side by side. On top of it stand history independence
  (`Rollout.dfy`), hash coherence (`Coherence.dfy`, `RbacCoherence.dfy`), missing Secrets (`MissingSecrets.dfy`),
  configuration safety (`ConfigSafety.dfy`), watch coverage (`Watches.dfy`), convergence (`Repeat.dfy`, `Order.dfy`,
  `Progress.dfy`, `Convergence.dfy`, and exactly for mode none `ModeNone.dfy`) and finalizer safety over all histories
  (`FinalizerSafety.dfy`).
* **The status protocol** (`Conditions.dfy`, `Mirror.dfy`, `Controller.dfy`, `StatusProtocol.dfy`,
  `StatusMeaning.dfy`, `StatusWrites.dfy`, `StatusHistories.dfy`). What a status attempt records of the stored
  DaemonSet, the retrying writer around it, the invariants of every history of edits, passes and mirror writes, and the
  proof that every history of reconciles and edits is one of those.
* **The token lifecycle** (`TokenExpiry.dfy`, `TokenLifecycle.dfy`). The deleting controller on the cluster, and
  the two controllers as a timed protocol in nanoseconds.
* **Data cores** (`MetricLevels.dfy`, `KeplerConfig.dfy`, `Merging.dfy`, `DataHash.dfy`, `PodWiring.dfy`).

A run is called *fine* when every step before the finalizer continues and reports nothing but missing referenced
Secrets (`Runner.AllFine`), and its verdict *clean* when it asks for no delay and reports nothing else
(`Verdicts.Clean`). `Frames.Leaves(env, key)` says that no other writer touches one object during the run,
`Frames.Quiet(env)` that none touches any, `Repeat.Calm(env)` that no other writer acts and no call fails.

Where code and comments disagree, the code is followed:

* `LastTransitionTime` moves when generation, reason or message changes, not only with the status as a comment
  says (power_monitor_internal.go:702); `StatusProtocol.TransitionsOnlyOnChange` states when.
* Any list of two conditions passes sanitising unchanged, so "this should never happen" (line 687) is true of the
  states the operator itself reaches (`ConditionsReflectLastPass`) and false in general (`PanicsExactlyWhen`).
* An annotated token Secret is assumed by the issuing step; `TokenExpiry.PanicsExactlyWhen` states when it is not.

Results that hold only under a condition, with the exact condition or the case that breaks it:

* The YAML and text round trips of a metric level: exactly when it has a named bit (`YamlRoundTrip`, `TextRoundTrip`).
* Pairwise different volume names: exactly when the Secret names differ and avoid the reserved ones
  (`VolumeNamesDistinctExactlyWhen`).
* A status pass without a panic, the token step without one: `StatusProtocol.PanicsExactlyWhen`,
  `TokenExpiry.PanicsExactlyWhen`.
* Cleanup before the finalizer goes: exactly when no delete lands in the middle of an update run
  (`MidRunDeleteSkipsCleanup`).
* Hash coherence of Secrets in mode none: exactly when no reference is to a stored Secret of the operator's own, which
  this mode deletes (`HashCoherence`; `HashOfDeletedSecret` is the case that breaks it). With RBAC it holds for every
  reference but the token's (`RbacSecretHashes`), whose hash is taken before the token may be renewed.
* Missing Secrets do not block: without RBAC for every subset of the references; with RBAC for every subset that spares
  the Secrets the run itself works on (`Spares`). A missing TLS Secret blocks every run with RBAC (`MissingTlsBlocks`).
  The proxy's Secret and, with user-workload monitoring, the token are written by the run, so what is said of their
  hashes is `RbacHashCoherence` instead.
* Only valid configurations are rolled out, and the security objects follow the mode: unless the resource's own
  ConfigMap has the key of the CA bundle or of a dashboard (`CABundleNameClash`, `BundleNameLosesConfig`,
  `DashboardNameLosesConfig`).
* A configuration that cannot be built holds up the rollout: unless the mode installs the CA bundle and the spec lists
  it, so that the run supplies it (`ListedBundleIsSupplied`); and the stored ConfigMap itself is kept unless the
  resource is called like the bundle (`BundleNameLosesConfig`).
* Convergence: as long as what the spec refers to does not change, which different names guarantee
  (`DistinctNamesKeepReferences`). In mode none the second reconcile is idle exactly when no reference is to a stored
  Secret of the operator's own (`SecondIsIdleExactlyWhen`; `DoomedReferenceUnsettles` is the case that breaks it).
* The churn bound of the token: while it stays wanted and nobody else deletes it; its safety needs neither.

## Model

| member | source | states |
|---|---|---|
| `Reconcilers.ObjectMeta.AnnotateWithContentHash` | pkg/components/power-monitor/deployment.go:562-609 | sets exactly one annotation, to the hash of the object's whole data |
| `Reconcilers.Session.Update` | pkg/reconciler/updater.go:26-57 | a conflict becomes a requeue without error, another failure keeps its error with the caller's action |
| `Reconcilers.Session.Remove` | pkg/reconciler/deleter.go:24-50 | deletes, then polls until absent or out of attempts |
| `Reconcilers.Session.AwaitObject` | pkg/reconciler/security.go:364-383 | retries a read until it succeeds, else the last failure |
| `Reconcilers.Session.MountSecrets` | pkg/reconciler/power-monitor.go:107-151 | the loop over references equals its specification: annotations, collected names, first hard failure |
| `Reconcilers.Session.ReadAdditionalConfigs` | pkg/reconciler/power-monitor.go:49-71 | the loop over ConfigMaps equals its specification, stopping at the first missing one |
| `Reconcilers.Session.ExtractDocuments` | pkg/reconciler/power-monitor.go:73-82 | the non-empty configuration documents, in order |
| `Reconcilers.Session.DeployConfig` | pkg/reconciler/power-monitor.go:30-46 | reads, generates, annotates and applies, or stops with the error |
| `Reconcilers.Session.IssueToken` | pkg/reconciler/security.go:170-197 | requests a token and applies the Secret with an expiry of whole seconds |
| `Reconcilers.Session.ReconcileToken` | pkg/reconciler/security.go:89-197 | deletes, keeps or renews the token by mode, expiry and clock, with every error path |
| `Reconcilers.Session.Check` | pkg/reconciler/security.go:209-361 | waits for each required object and annotates with its hash, or stops |
| `Reconcilers.Session.Finalize` | pkg/reconciler/finalizer.go:24-62 | adds or removes the finalizer on a freshly read resource |
| `Reconcilers.Session.Reconcile` | internal/controller/power_monitor_internal.go:473-532 | every kind of reconciler acts as its specification says, mode branches included |
| `Reconcilers.Session.Run` | pkg/reconciler/runner.go:23-55 | the loop equals the specified run |
| `Reconcilers.OpenShiftClusterResources` | internal/controller/power_monitor_internal.go:409-418 | the security context constraints, only on OpenShift with the option on |
| `Reconcilers.OpenShiftDashboards` | internal/controller/power_monitor_internal.go:420-435 | the two dashboards, only when enabled on OpenShift |
| `Reconcilers.PowerMonitorExporters` | internal/controller/power_monitor_internal.go:460-533 | the exporter part of the list for updates and cleanups |
| `Reconcilers.ReconcilersForPowerMonitor` | internal/controller/power_monitor_internal.go:535-587 | the whole list, for every platform, mode and deletion state |
| `Runner.RunMeaning` | pkg/reconciler/runner.go:23-55 | a run executes exactly the shortest prefix ending at a step that does not continue, composes the effects in order, and reports the last error unless it ended by Requeue, asking for an immediate requeue exactly when it ended by Stop without error |
| `Runner.RunPastFine` | pkg/reconciler/runner.go:26-42 | a run whose first part is fine is the run of the second part from where the first one ended |
| `Verdicts.CleanVerdictMeansFine` | pkg/reconciler/runner.go:23-55 | an update run whose verdict asks for no delay and reports nothing but missing Secrets has done all its work, whatever failed meanwhile |
| `Verdicts.CleanCleanupMeansFine` | internal/controller/power_monitor_internal.go:461-471 | a cleanup with such a verdict has seen every object it deletes gone |
| `Failures.UnreadableSecretHoldsRollout` | pkg/reconciler/power-monitor.go:117-129 | when reading some referenced Secret fails the run ends with the first such failure, and after the Namespace nothing is written but by others |
| `Failures.UnappliedNamespaceDelays` | internal/controller/power_monitor_internal.go:538-547 | a Namespace that cannot be applied ends the run before anything else, without an error, for five seconds |
| `Failures.UnappliedObject` | pkg/reconciler/updater.go:41-57 | any other object that cannot be applied is skipped and its error kept; a conflict ends the run for five seconds without one |
| `Failures.UndeletedObject` | pkg/reconciler/deleter.go:24-50 | an unwanted object that cannot be deleted is reported and ends nothing |
| `Failures.MissingTlsHoldsRollout` | pkg/reconciler/security.go:250-280 | with RBAC and without the TLS Secret the DaemonSet and the ServiceMonitor stay as they were, and the verdict is not clean |
| `Failures.TokenTroubleHoldsRollout` | pkg/reconciler/security.go:98-167 | without the service account, or with an unreadable expiry, the run ends before Service, DaemonSet and ServiceMonitor |
| `Failures.HeldObjectTimesOut` | pkg/reconciler/deleter.go:24-50 | an object that others hold back is marked, polled 13 or 25 times, and reported |
| `Failures.HeldNamespaceDelays` | internal/controller/power_monitor_internal.go:571-577 | a cleanup whose Namespace is held back ends without an error and is repeated after five seconds |
| `Failures.PollsSeeAbsence` | pkg/reconciler/deleter.go:36-41 | one answered poll is enough to see an object gone |
| `Failures.AwaitFindsStored` | pkg/reconciler/security.go:363-383 | one answered attempt is enough to read a stored object |
| `Failures.MissingObjectTimesOut` | pkg/reconciler/security.go:363-383 | a missing object is looked for 21 times on OpenShift and 3 times elsewhere |
| `Failures.FinalizerEndsRun` | pkg/reconciler/finalizer.go:24-62 | how the finalizer ends a run that did its work: delayed when the resource cannot be read, repeated at once after adding or removing the finalizer, with the error when that fails |
| `Frames.StepFrame` | internal/controller/power_monitor_internal.go:460-587 | no step changes an object other than its one target, whatever fails |
| `Frames.TokenSettles` | pkg/reconciler/security.go:98-197 | a fine token step leaves the token absent, as it was and readable, or newly issued, by mode |
| `ResourceFrames.ExecKeeps` | pkg/reconciler/finalizer.go:24-62 | no step but the finalizer changes the resource's own record |
| `Rollout.EndsAsLastWritten` | internal/controller/power_monitor_internal.go:473-532 | after a fine run an object is as the last step that targets it left it |
| `Rollout.HistoryIndependence` | pkg/reconciler/security.go:40-197 | after a fine run from any cluster, proxy Secret, CA bundle, token Secret and ServiceMonitor exist exactly as the current mode wants |
| `Rollout.MonitorFollowsMode` | pkg/reconciler/service_monitor.go:22-28 | the ServiceMonitor exists exactly without RBAC or with user-workload monitoring |
| `Rollout.CABundleNameClash` | pkg/reconciler/security.go:66-87 | the excluded name: a resource called like the bundle has its ConfigMap there in every mode |
| `Rollout.MountAnnotates` | pkg/reconciler/power-monitor.go:117-136 | mounting adds exactly the hashes of the stored referenced Secrets |
| `Rollout.MountReports` | pkg/reconciler/power-monitor.go:138-151 | mounting reports exactly the missing references, in order |
| `Rollout.DeployMeaning` | pkg/reconciler/power-monitor.go:30-46 | a deployer that continues applied what the stored documents call for; one that cannot leaves the ConfigMap alone |
| `Rollout.DocumentInPlace` | pkg/reconciler/power-monitor.go:73-82 | a listed ConfigMap contributes its text in its place, one without text nothing |
| `StoredObjects.AccessStored` | internal/controller/power_monitor_internal.go:484-531 | after an update run with a clean verdict the Namespace, role, binding, account, Service, security context constraints and dashboards stand with the literal names and content that mode, platform and options call for |
| `StoredObjects.ServiceStored` | pkg/components/power-monitor/deployment.go:156-194 | the Service is secure and carries the serving-certificate annotation exactly with RBAC |
| `StoredObjects.ProxyConfigStored` | pkg/reconciler/security.go:40-64 | the proxy Secret holds the rules for the allowed accounts with RBAC, and is absent otherwise |
| `StoredObjects.CABundleStored` | pkg/reconciler/security.go:66-87 | the CA bundle asks for injection with user-workload monitoring, and is absent otherwise |
| `StoredObjects.MonitorStored` | pkg/reconciler/service_monitor.go:22-28 | the ServiceMonitor scrapes the Service by name, through the proxy exactly with RBAC; absent with RBAC alone |
| `StoredObjects.DaemonSetStored` | internal/controller/power_monitor_internal.go:518-519 | the DaemonSet runs the pod for the spec |
| `StoredObjects.ConfigStored` | pkg/reconciler/power-monitor.go:30-46 | the ConfigMap holds the rendering of a valid configuration |
| `StoredObjects.CleanupRemoves` | internal/controller/power_monitor_internal.go:461-577 | after a cleanup with a clean verdict nothing is stored under the keys of the role, binding, enabled dashboards and Namespace |
| `StoredHashes.ConfigHashStored` | pkg/components/power-monitor/deployment.go:888-896 | in any mode the pods carry the hash of the stored configuration |
| `StoredHashes.ProxyHashesStored` | pkg/reconciler/security.go:219-280 | with RBAC the pods carry, under literal names, the digests of the stored proxy and TLS Secrets |
| `StoredHashes.MonitorHashesStored` | pkg/reconciler/security.go:281-361 | with user-workload monitoring the ServiceMonitor carries those of the stored CA bundle and token |
| `StoredHashes.ReconcileIsItsRun` | internal/controller/power_monitor_internal.go:348-376 | outside its run a reconcile writes no object, and a clean verdict is its run's |
| `StoredHashes.ReconcileStores` | internal/controller/power_monitor_internal.go:348-376 | what a reconcile with a clean verdict leaves: access objects, Service, a configuration, and pods with its hash |
| `Coherence.RolloutAchieved` | pkg/reconciler/power-monitor.go:30-151 | in mode none a fine run ends with the ConfigMap and DaemonSet that the contents stored at its start call for |
| `Coherence.HashCoherence` | pkg/components/power-monitor/deployment.go:562-649 | in mode none the stored DaemonSet carries the hash of the stored configuration, and its Secret hashes are those of the stored referenced Secrets exactly when no reference was to a stored Secret of the operator's own |
| `Coherence.HashOfDeletedSecret` | pkg/reconciler/power-monitor.go:117-136 | the breaking case: a referenced operator Secret is hashed by the mounter and then deleted, and the hash stays |
| `RbacCoherence.RbacHashCoherence` | pkg/reconciler/security.go:209-361 | with RBAC the DaemonSet carries the hashes of the stored proxy and TLS Secrets and, with user-workload monitoring, the ServiceMonitor those of the stored CA bundle and token |
| `RbacCoherence.RbacSecretHashes` | pkg/reconciler/power-monitor.go:117-136 | with RBAC the DaemonSet's hash for every reference but the token is that of the stored Secret |
| `Lockstep.ExecInStep` | internal/controller/power_monitor_internal.go:460-533 | over clusters that agree on what the steps read, two runs make the same calls with the same results |
| `MissingSecrets.RunReportsMissing` | pkg/reconciler/runner.go:29-32 | a fine run reaches the finalizer with exactly the missing-Secrets error |
| `MissingSecrets.MissingSecretsNeverBlock` | pkg/reconciler/power-monitor.go:107-151 | for any subset of missing references, without RBAC any at all and with RBAC any that spares the Secrets the run works on, the run still does its work and leaves everything as with all Secrets, but for the missing hash annotations |
| `RbacCoherence.MissingTlsBlocks` | pkg/reconciler/security.go:250-280 | the breaking case: with RBAC no run without the TLS Secret does its work |
| `Convergence.MissingSecretsAreRecorded` | internal/controller/power_monitor_internal.go:656-742 | the reconcile returns that error and records it: Reconciled false, Available degraded for missing Secrets |
| `ConfigSafety.OnlyValidConfigIsRolledOut` | pkg/components/power-monitor/deployment.go:204-235 | whatever fails, the stored ConfigMap is as before or holds a validated configuration that follows the spec, unless its key is the bundle's or a dashboard's |
| `ConfigSafety.BundleNameLosesConfig` | pkg/reconciler/security.go:66-87 | a resource called like the CA bundle loses its stored configuration and, when it cannot be built, does not get it back |
| `ConfigSafety.DashboardNameLosesConfig` | internal/controller/power_monitor_internal.go:420-435 | a resource called like a dashboard ends with the dashboard in its configuration's place |
| `ConfigSafety.BadConfigHoldsRollout` | pkg/reconciler/power-monitor.go:30-46 | a missing document, a parse failure or an invalid merge leaves ConfigMap, DaemonSet and ServiceMonitor untouched, unless the run itself supplies a listed ConfigMap |
| `ConfigSafety.ListedBundleIsSupplied` | pkg/reconciler/security.go:66-87 | where the mode installs the CA bundle and the spec lists it, a run that starts without it rolls out |
| `Watches.IndexConfigMaps` | internal/controller/power_monitor_internal.go:70-88 | the index keys are the referenced names |
| `Watches.IndexSecrets` | internal/controller/power_monitor_internal.go:90-107 | the same for Secrets |
| `Watches.MapToRequests` | internal/controller/power_monitor_internal.go:179-225 | an event requests one reconcile for each resource indexed under the object's name, and none when listing fails |
| `Watches.RequestedExactlyWhen` | internal/controller/power_monitor_internal.go:179-225 | a resource is requested exactly when it references the changed name |
| `Watches.WatchedObjectsDecideSteps` | pkg/reconciler/power-monitor.go:30-151 | for the mounter followed by the deployer: clusters that agree on the watched objects give the same hashes, the same configuration or the same error, under every API failure |
| `Watches.WatchedObjectsDecideRollout` | pkg/reconciler/power-monitor.go:30-151 | in mode none fine runs over such clusters store the same ConfigMap and DaemonSet and reach the finalizer with the same error |
| `Watches.WatchedObjectsDecideFailure` | pkg/reconciler/power-monitor.go:30-46 | in mode none runs over such clusters that reach the deployer stop there both or neither, and return the same error |
| `Watches.UnwatchedChangeIsIrrelevant` | internal/controller/power_monitor_internal.go:179-225 | a change that enqueues nothing changes neither what is to be rolled out nor the errors that are reported |
| `Repeat.StepRepeats` | internal/controller/power_monitor_internal.go:460-533 | a step met again with its inputs and object as it left them repeats its result and writes nothing |
| `Order.UpdateStepsAreOrdered` | internal/controller/power_monitor_internal.go:460-533 | when the run's own objects have different keys, no step of the update list writes what an earlier one wrote or checked |
| `Order.ListRepeats` | internal/controller/power_monitor_internal.go:460-533 | an ordered list that has done its work does it again without a single write, as long as what the spec refers to holds |
| `Progress.PrerequisitesSuffice` | internal/controller/power_monitor_internal.go:473-587 | in a calm world, a configuration that can be built once the mode has installed or deleted the CA bundle, the TLS Secret for RBAC, the service account and a readable token or none for user-workload monitoring, and nothing holding back unwanted objects make every step do its work |
| `Convergence.SecondReconcileIsIdle` | internal/controller/power_monitor_internal.go:348-376 | from those prerequisites, and with unchanged references, the second of two consecutive calm reconciles writes nothing, and returns an empty result when no Secret is missing |
| `Convergence.DistinctNamesKeepReferences` | internal/controller/power_monitor_internal.go:460-533 | names that do not clash, which the spec alone decides, keep the references unchanged |
| `ModeNone.SecondIsIdleExactlyWhen` | internal/controller/power_monitor_internal.go:348-376 | in mode none the second reconcile writes nothing if and only if no reference is to a stored Secret of the operator's own |
| `ModeNone.DoomedReferenceUnsettles` | pkg/reconciler/security.go:40-64 | the breaking case: the first reconcile deletes what it hashed, so the second changes the DaemonSet |
| `Convergence.LaterReconcilesAreIdle` | internal/controller/power_monitor_internal.go:348-376 | after any calm reconcile that did its work and left the references unchanged, one that starts from what it left writes nothing in any step, whenever it comes |
| `Convergence.IdleForever` | internal/controller/power_monitor_internal.go:348-376 | the same for any number of further reconciles |
| `FinalizerSafety.UpdateRunKeepsGuard` | pkg/reconciler/finalizer.go:45-61 | a run of a live resource never removes the finalizer while deletes wait |
| `FinalizerSafety.CleanupRunKeepsGuard` | internal/controller/power_monitor_internal.go:461-471 | a cleanup keeps the finalizer or has seen the Namespace absent, even if its other deletes failed |
| `FinalizerSafety.FinalizerSafety` | internal/controller/power_monitor_internal.go:571-585 | in every history a resource with the finalizer leaves only through a reconcile that saw its Namespace absent |
| `FinalizerSafety.MidRunDeleteSkipsCleanup` | pkg/reconciler/finalizer.go:32-51 | an update run drops the finalizer exactly when the resource is found marked at the end, with the Namespace still there |
| `Conditions.StatusRecord.Sanitize` | internal/controller/power_monitor_internal.go:621-654 | adds the missing types, in whichever order the map is walked; lists of two stay |
| `Conditions.StatusRecord.Find` | internal/controller/power_monitor_internal.go:674-681 | the place of the first condition of the type, or none |
| `Conditions.StatusRecord.UpdateCondition` | internal/controller/power_monitor_internal.go:684-704 | rewrites one condition in place, says whether anything changed, panics when the type is missing |
| `Conditions.StatusRecord.UpdateReconciledStatus` | internal/controller/power_monitor_internal.go:656-672 | the Reconciled condition for the run's error |
| `Conditions.StatusRecord.UpdateAvailableStatus` | internal/controller/power_monitor_internal.go:706-742 | copies the counters and updates Available from DaemonSet and error |
| `Conditions.PassByParts` | internal/controller/power_monitor_internal.go:602-617 | a pass writes nothing exactly when neither update changed its condition |
| `Mirror.HasPowerMonitorInternalStatusChanged` | internal/controller/power_monitor.go:155-162 | some condition has observed the current generation |
| `Mirror.PowerMonitor.CopyStatus` | internal/controller/power_monitor.go:117-151 | copies exactly when both resources are live and the status has changed, stamping its own generation |
| `Controller.AttemptStatus` | internal/controller/power_monitor_internal.go:594-618 | one attempt equals its specification: skips, panics, skipped writes and write |
| `Controller.RecordStatus` | internal/controller/power_monitor_internal.go:589-619 | attempts repeat on conflicts only, four in all |
| `Controller.ReconcileResource` | internal/controller/power_monitor_internal.go:348-407 | the whole reconcile equals its specification; the run's error wins over the status error |
| `StatusMeaning.AttemptRecordsDaemonSet` | internal/controller/power_monitor_internal.go:602-742 | an attempt on a resource that nobody else writes stores the two conditions that the stored DaemonSet, read at that call, and the run's error call for, branch by branch, and the DaemonSet's own counters whenever it writes |
| `StatusMeaning.AvailableExactlyWhen` | internal/controller/power_monitor_internal.go:706-832 | Available becomes true exactly when the run had no error and the stored DaemonSet can be read and is rolled out at its latest generation |
| `StatusMeaning.AttemptSaysWhich` | internal/controller/power_monitor_internal.go:744-832 | the messages name the missing DaemonSet, and the ready one with its counters |
| `StatusMeaning.AttemptStampsChanges` | internal/controller/power_monitor_internal.go:602-704 | changed conditions get the time of one clock reading, unchanged ones keep theirs |
| `StatusMeaning.SkipsWithoutError` | internal/controller/power_monitor_internal.go:594-600 | a resource that is gone, unreadable or being deleted gets no status and no error |
| `StatusMeaning.FourAttempts` | internal/controller/power_monitor_internal.go:589-619 | three conflicts in a row are survived, a fourth is reported, any other failure ends the attempts at once |
| `StatusMeaning.StatusErrorIsReturned` | internal/controller/power_monitor_internal.go:370-376 | the error of the status update is returned exactly when the run had none |
| `StatusMeaning.UnreadResourceIsLeft` | internal/controller/power_monitor_internal.go:354-368 | a missing resource is no error, an unreadable one is; neither starts a run |
| `StatusMeaning.ReconcileRecordsDaemonSet` | internal/controller/power_monitor_internal.go:348-376 | a calm reconcile that gets to its end, whatever its steps reported, records what the then stored DaemonSet shows: Available is true exactly when it returns no error and the DaemonSet is rolled out |
| `StatusWrites.ReconcileIsAtMostAPass` | internal/controller/power_monitor_internal.go:348-376 | whatever fails, a reconcile changes the stored status by at most one pass, for the run's error and the stored generation |
| `StatusHistories.EveryStatusIsReachedByPasses` | internal/controller/power_monitor_internal.go:589-619 | from creation on, the status after any history of reconciles and edits is one that a history of passes reaches, at the stored generation |
| `StatusHistories.StoredConditionsAreAPair` | internal/controller/power_monitor_internal.go:621-688 | so the stored conditions are none or exactly Reconciled and Available, and no pass panics on them |
| `StatusProtocol.PanicsExactlyWhen` | internal/controller/power_monitor_internal.go:621-688 | a pass panics exactly on a list of two that lacks a required type |
| `StatusProtocol.PassIsIdempotent` | internal/controller/power_monitor_internal.go:602-617 | a second pass over the same facts changes nothing, from any list |
| `StatusProtocol.ConditionsReflectLastPass` | internal/controller/power_monitor_internal.go:602-704 | in every history no panic, an empty list or exactly Reconciled then Available, saying what the last pass found |
| `StatusProtocol.GenerationProtocol` | internal/controller/power_monitor.go:153-162 | Reconciled has the last pass's generation, Available that or zero, and "changed" holds exactly when the current generation has had a pass |
| `StatusProtocol.MirrorCopiesReachedStatus` | internal/controller/power_monitor.go:133-151 | a written mirror copies a status whose generation had just been observed, restamped |
| `StatusProtocol.TransitionsOnlyOnChange` | internal/controller/power_monitor_internal.go:684-704 | with a monotone clock a transition time never decreases and moves exactly on a change of generation, status, reason or message |
| `StatusProtocol.AvailabilitySoundness` | internal/controller/power_monitor_internal.go:706-832 | Available is true exactly when the last pass found a fully rolled out DaemonSet after a run without error |
| `StatusProtocol.FailuresAreReported` | internal/controller/power_monitor_internal.go:656-742 | after a failed run Reconciled is false with its error and Available is not true |
| `StatusProtocol.ReadyCountersAreCurrent` | internal/controller/power_monitor_internal.go:611-617 | while the reason is DaemonSetReady the stored ready and desired counters are the last pass's, despite skipped writes |
| `Decimal.ItoaInjective` | internal/controller/power_monitor_internal.go:829-830 | printed counters determine the numbers |
| `TokenExpiry.DeleteResources` | internal/controller/token_expiry.go:85-95 | runs one deleter for each object |
| `TokenExpiry.ReconcileSecret` | internal/controller/token_expiry.go:97-147 | the expiry check equals its specification |
| `TokenExpiry.CheckMeaning` | internal/controller/token_expiry.go:97-147 | a check without error leaves the Secret absent exactly when it was too old or unannotated, and otherwise unchanged with the right next check |
| `TokenExpiry.PanicsExactlyWhen` | pkg/reconciler/security.go:157-168 | the issuing step panics exactly on a stored token Secret without the annotation, in the mode that wants one |
| `StoredObjects.IssueStores` | pkg/reconciler/security.go:174-197 | the stored Secret holds the token that the request returned and the end of its life in whole seconds |
| `StoredObjects.IssueOutcomes` | pkg/reconciler/security.go:177-197 | a refused token stops the run, an unapplied one is skipped, a conflict requeues |
| `StoredObjects.TokenStepStores` | pkg/reconciler/security.go:98-197 | a fine token step leaves a good stored token untouched, and otherwise the token of the step's own request |
| `StoredObjects.TokenStored` | pkg/reconciler/security.go:89-197 | the same for the whole run; without RBAC and user-workload monitoring there is no token |
| `TokenExpiry.CheckLeaves` | internal/controller/token_expiry.go:97-137 | what a check leaves alone: an unreadable expiry, to be looked at after five minutes, and a Secret that is gone or unreadable |
| `TokenLifecycle.TokenStepRenews` | pkg/reconciler/security.go:156-196 | the issuing step acts on the stored expiry as the timed protocol says |
| `TokenLifecycle.CheckChecks` | internal/controller/token_expiry.go:115-147 | so does the deleting controller |
| `TokenLifecycle.StoredTokenIsAlive` | internal/controller/token_expiry.go:115-147 | with checks at most L late, L < R and TTL at least R + 1s, a stored token always has at least R - L to live, whatever the controllers and others do, so none is stored past expiry |
| `TokenLifecycle.FirstCheck` | internal/controller/token_expiry.go:138-147 | the first check keeps a token with TTL at least 2R + 1s + L and deletes one with TTL under 2R |
| `TokenLifecycle.IssuesAreSpread` | pkg/reconciler/security.go:156-196 | with 2R at least a minute and the token wanted throughout, issues are more than TTL - 2R - 1s apart |
| `TokenLifecycle.IssuesInHorizon` | pkg/reconciler/security.go:156-196 | so a horizon H sees at most H / (TTL - 2R - 1s) + 1 of them |
| `MetricLevels.ParseLevel` | internal/config/level.go:73-97 | the parsing loop equals its specification |
| `MetricLevels.ParseMeaning` | internal/config/level.go:73-97 | parsing succeeds exactly on known names and returns exactly the named levels |
| `MetricLevels.NormalIgnoresSpaceAndCase` | internal/config/level.go:78-80 | outer white space and letter case do not matter |
| `MetricLevels.EntryParsesExactlyWhen` | internal/config/level.go:73-97 | an entry parses as a level, by its number, exactly when it is the level's name in any letter case with any outer white space |
| `MetricLevels.ParseDependsOnNamesOnly` | internal/config/level.go:73-97 | nor do order and repetition |
| `MetricLevels.String` | internal/config/level.go:27-45 | the printed form equals its specification |
| `MetricLevels.MarshalYaml` | internal/config/level.go:105-128 | one name, or a list of names, in the fixed order |
| `MetricLevels.YamlRoundTrip` | internal/config/level.go:105-155 | the YAML form reads back as the known bits exactly when there is one; otherwise as all levels |
| `MetricLevels.TextRoundTrip` | internal/config/level.go:27-97 | the same for the comma-separated text, which otherwise does not parse |
| `MetricLevels.MetricsLevelValue.Set` | internal/config/config.go:214-230 | one occurrence of the flag replaces all levels or adds to the rest; a bad value changes nothing |
| `MetricLevels.FlagMeaning` | internal/config/config.go:214-230 | after accepted occurrences the value is the union of those since it last stood at all levels |
| `KeplerConfig.Builder.Build` | internal/config/builder.go:34-57 | documents merge in order over the base; one that does not parse fails the build |
| `KeplerConfig.ValidateExperimentalConfig` | internal/config/config.go:900-920 | the problems of the experimental settings, under the skips |
| `KeplerConfig.Validate` | internal/config/config.go:794-897 | the list of problems, block by block, for any skips |
| `KeplerConfig.NoProblemsIffAcceptable` | internal/config/config.go:794-989 | no problem exactly when every requirement holds |
| `KeplerConfig.NoProblemsExactlyWhen` | internal/config/config.go:794-920 | the same for any choice of what to skip |
| `KeplerConfig.KeplerConfigFor` | pkg/components/power-monitor/deployment.go:830-885 | generation equals its specification |
| `KeplerConfig.GeneratedIsValidAndFollowsSpec` | pkg/components/power-monitor/deployment.go:830-885 | any generated configuration is valid, and seven settings come from the spec alone |
| `KeplerConfig.GenerationSucceedsExactlyWhen` | pkg/components/power-monitor/deployment.go:830-885 | when generation succeeds, in terms of documents, spec values and the rest of the merge |
| `KeplerConfig.LastDocumentWins` | internal/config/builder.go:34-57 | a setting has the value of the last document that sets it, else of the base |
| `KeplerConfig.LogFormatFollowsDocuments` | pkg/components/power-monitor/deployment.go:830-885 | so a generated configuration's log format is that of the last document that sets one |
| `Merging.GeneratedFollowsDocuments` | internal/config/builder.go:34-57 | in a generated configuration any setting that merges on its own and that the spec leaves alone is that of the last document that sets it |
| `Merging.DocumentsDecideTheRest` | pkg/components/power-monitor/deployment.go:830-885 | seven settings of a generated configuration are the spec's; each of the others, the experimental section and its nine nested settings included, is that of the last document that sets it, or a literal default |
| `Merging.SpecLevelMeaning` | pkg/components/power-monitor/deployment.go:847-857 | the metric levels are those the spec names; node, vm and pod when it names none or an unknown one |
| `DataHash.Sort` | pkg/components/power-monitor/deployment.go:614-618 | sorting gives the one ascending sequence of the key set |
| `DataHash.ComputeHash` | pkg/components/power-monitor/deployment.go:611-649 | whatever order the map is walked in, the hash is of a text that depends on the data alone |
| `DataHash.IterationOrderIsIrrelevant` | pkg/components/power-monitor/deployment.go:611-649 | two sorted walks over the same keys are one sequence |
| `DataHash.HashInputSeesChange` | pkg/components/power-monitor/deployment.go:611-626 | changing one value always changes the hashed text |
| `DataHash.HashInputMissesBoundaries` | pkg/components/power-monitor/deployment.go:611-626 | moving a boundary between key and value does not, since nothing separates them |
| `PodWiring.BuildVolumeMounts` | pkg/components/power-monitor/deployment.go:748-769 | the mounts of the Kepler container |
| `PodWiring.NewPod` | pkg/components/power-monitor/deployment.go:97-154 | the pod for any Secret list and security mode |
| `PodWiring.MountsAreDeclared` | pkg/components/power-monitor/deployment.go:97-154 | every mount names a declared volume, and the i-th Secret is volume and mount 3 + i |
| `PodWiring.KeplerFindsItsFiles` | pkg/components/power-monitor/deployment.go:97-112 | Kepler finds the host's /sys and /proc, its ConfigMap and each referenced Secret at their paths |
| `PodWiring.ProxyFindsItsFiles` | pkg/components/power-monitor/deployment.go:115-122 | with RBAC the proxy finds its rules and its certificate |
| `PodWiring.PodPlacement` | pkg/components/power-monitor/deployment.go:142-149 | nodes, tolerations and service account of the pod |
| `PodWiring.VolumeNamesDistinctExactlyWhen` | pkg/components/power-monitor/deployment.go:97-154 | volume names differ exactly when Secret names differ and avoid the reserved ones |

## Left out

- The manager, flags, webhooks, leader election, logging and certificates: plumbing.
- Work queue, caches and predicates of the controller library: events are steps of a history, the field index is a filter by name, and coverage of the RBAC objects' watches is not claimed.
- The API server beyond apply, delete, finalizers, generations and optimistic concurrency: a conflict is a resource that is no longer the one read, compared by value instead of by version.
- Wall-clock timeouts of polls and retries: the number of attempts is timeout / interval + 1.
- Failures of owner references, YAML marshalling and reflection-based merging, which need malformed types to occur.
- The texts that wrap a failed apply's error (resource kind and step) and the audience of a token request.
- Labels and constant manifest text (rules, ports, dashboards' JSON): a body keeps only what depends on the spec. Other PowerMonitorInternals are among the other writers.
- YAML text, xxhash and RFC 3339 formatting are uninterpreted functions; no hash is claimed to be injective, and time stamps are only said to keep whole seconds.
- Host files, directories and address syntax are oracles; Redfish, hwmon and GPU flag overlays would add only field copies.
- Case folding covers the characters that can become ASCII letters; nil and empty maps or lists are one value.
- The outer PowerMonitor's own reconciler list, its invalid-name status and the construction of its PowerMonitorInternal: field copies. That its finalizer waits for the inner resource is not claimed, since its deleter continues on a timeout.
- SCC and dashboards are never removed when switched off, so they are not part of history independence.
- Watches.WatchedObjectsDecideSteps: puts the mounter and the deployer back to back; with the steps between them, which act on unwatched objects and so may take different calls, see `WatchedObjectsDecideRollout` and `WatchedObjectsDecideFailure`.
- TokenLifecycle.StoredTokenIsAlive: is about tokens with a readable annotation and checks that complete; a malformed annotation is only looked at again every five minutes.
