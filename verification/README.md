# A verified model of the Percona XtraDB operator

This project models how the KubeDB operator for Percona XtraDB reconciles its databases, admits changes to
them and writes their StatefulSets, and proves what the operator keeps over every run. `dafny verify
dfyconfig.toml` checks everything.

## What is modelled

**The namespace and the passes.** `Cluster.dfy` has what the API server stores (databases with their whole
version history, secrets, PVCs and the other offshoots with labels and owner references), how far the
informer has come in each history, and the operator's one shared field, the governing service.
`Passes.dfy` is a step relation over it. One step of a pass is one API call, which may succeed, fail, or
take effect with its reply lost; between two calls any number of other passes, users, controllers, the
garbage collector, the informer or a crash of the operator may act. A run is any sequence of such steps
from an empty namespace, with any number of databases.

**The operator's code.** `Controller.dfy` has the passes as the source has them: one class, one method per
function, sending its requests to the stores and setting the shared field, with its loops over services, PVCs
and secrets. Between two calls anybody else may act on the same stores: users, other workers' passes, other
controllers, the informer, garbage collection, a crash. Every method is proved to take exactly the machine's
steps among those of the others (`RunPerconaXtraDB`), so what is proved of all runs of the machine holds of
that code.

**Properties of all runs.**

- `Dispatching.dfy`: which pass a reconcile becomes, what its status writes say, and when the process goes down.
- `Finalizers.dfy`: a database that got the finalizer leaves the store only after a `terminate` pass of it
  finished its ownership step; after `terminate` was entered no pass of that uid is in `create` or `halt`.
- `Ownership.dfy`: at the removal of the finalizer, owner references are those of the policy in force,
  however many earlier passes failed midway under other policies; what the policy dooms is collectable. Which
  patches from outdated copies would spoil that is characterised exactly.
- `WipeOuts.dfy`: only databases being deleted own secrets; a WipeOut pass that found its secret unused has
  marked it when it removes the finalizer; when the secret can be collected once the database is gone.
- `Terminations.dfy`: an uninterrupted `terminate` from beginning to end, policy by policy.
- `SharedSecrets.dfy`: garbage collection never takes a secret that a live database refers to. The two guards
  of that theorem are proved to be exactly what each step needs.
- `Credentials.dfy`: a password is generated at most once per secret, bindings are for good, a recreated
  database is bound to the same secret, and unmarked PVCs stay. `Passwords.dfy`: what a generated secret has,
  and keeps.
- `Provisioning.dfy`: the initial restore gate, and whose governing service a StatefulSet carries although
  all passes share one field, with the exact condition.
- `Offshoots.dfy`: the objects of the create pass with their owners, labels and payloads, call by call and
  after a whole pass, and exactly when garbage collection takes them.
- `Restart.dfy`: restartability of the create pass from any cut-off point, each attempt drawing its own
  passwords. `Upgrades.dfy`: the one state in which it fails, with the if and only if.
- `Halting.dfy`: what halting leaves alone, with the exact exception, and what is gone when it reports.
  `Sweeps.dfy`: what halting deletes, and that it comes to an end.
- `Hazards.dfy`: runs that show the provisos of these results to be needed.

**Admission** (`Admission.dfy`) is a machine whose answers depend on its history, because the set of frozen
fields is a package-level variable; `Requests.dfy` puts it in front of the API server and ties it to the users'
steps of the machine. **The StatefulSet transform** (`StatefulSets.dfy` over `Upserts.dfy`, its result spelled
out in `Workloads.dfy`),
**monitor switching** (`Monitoring.dfy`), **hook registration** (`Hooks.dfy`) and the **Galera address**
(`Galera.dfy`) are imperative code proved against specification functions.

## Where the code and its description differ

- Owner-reference loops go on after an item's error and report at the end
  (`vendor/kmodules.xyz/client-go/dynamic/kubernetes.go:200-329`), and each patch is computed from a copy
  read earlier and carries no version. `Hazards.StalePatchMarksForeign` is the consequence;
  `Ownership.KeptExactly` says which patches do such harm. The results about owner references are about runs
  without those, and a patch of an object nobody has changed since it was read is never one
  (`Ownership.FreshIsHarmless`).
- `pushFailureEvent` dereferences a nil result when the status cannot be read, which takes the operator down
  (`pkg/controller/controller.go:169-194`); the machine does the same.
- The last two wait loops take the empty list that comes with an error for "deleted"
  (`pkg/controller/dormant.go:72-90`): `Halting.HaltOkExactly`.
- `haltDatabase` deletes services by the names it listed; a service that changed hands meanwhile is deleted
  all the same: `Halting.HaltConservesExactly`.
- The pass that binds an existing secret from before 0.9.0 goes past its upgrade, so a second pass changes
  more than the first: `Upgrades.BindingSkipsUpgrade`. Restartability fails there and only there:
  `Upgrades.RetryDiffersExactly`.
- A container field left empty keeps the stored value when merged, so variables removed from a standalone
  database's spec stay: `StatefulSets.EnvPrecedenceExactly`, `StatefulSets.StaleVariableStays`. A probe or
  lifecycle hook that is given replaces the stored one as a whole, since merging with overwrite sets the
  pointer (`vendor/github.com/imdario/mergo/merge.go:155-166`).
- A deletion whose review names no database is let through without a look at any policy
  (`pkg/admission/validator.go:108`): `Requests.TakenExactly`.
- Once an update with Provisioned has been reviewed, `spec.init` is frozen for every database:
  `Admission.HistoryMattersExactly`.
- Besides the deletion of the old agent, its look-up must succeed for a monitor switch to be clean:
  `Monitoring.SwitchesExactly`. An agent type that passes validation but is not implemented crashes the
  operator, at the end of create, halt and terminate: `Monitoring.UnknownAgentCrashes`,
  `Controllers.Controller.DeleteMonitor`.

## Model

| member | source | states |
|---|---|---|
| Controllers.Controller.RunPerconaXtraDB | pkg/controller/workqueue.go:40-95 | one reconcile of a key among any steps of others, with its private copy of the cached object: for all outcomes of all calls and a crash at any point, the stores end as the step machine's do after taking the key, the same calls and all the others' steps, in the order in which they happened; reachable stays reachable; and unless the turns ran out the machine's pass is over too |
| Controllers.Controller.Await | pkg/controller/workqueue.go:40-95 | between two calls the others' steps are taken, none left out; they leave the pass as it is or take the process down |
| Controllers.Controller.AddFinalizer | pkg/controller/workqueue.go:67-91 | the finalizer is stored before any pass begins; then paused ends the reconcile, halted goes to halt (or to the failure event if the policy is not Halt), anything else to create |
| Controllers.Controller.RemoveFinalizer | pkg/controller/workqueue.go:60-64 | reached only behind the ownership step; ends the reconcile |
| Controllers.Controller.Create | pkg/controller/percona_xtradb.go:38-187 | the ordered create pass takes the machine's steps from validation to the stats service, ends where the restore gates end it, goes down on an agent without implementation, and fails to the failure event |
| Controllers.Controller.HaltPass | pkg/controller/percona_xtradb.go:189-209 | deletes, waits, then reports Halted, as the machine does; refuses another policy than Halt |
| Controllers.Controller.Terminate | pkg/controller/percona_xtradb.go:211-234 | returns without error only with the machine before the removal of the finalizer, and never with an agent without implementation |
| Controllers.Controller.DeleteMonitor | pkg/controller/monitor.go:35-64 | an agent that nothing implements takes the process down before the finalizer is removed |
| Controllers.Controller.SetOwnerReferenceToOffshoots | pkg/controller/percona_xtradb.go:236-266 | secrets first (marked under WipeOut, stripped otherwise), then every selected PVC marked |
| Controllers.Controller.RemoveOwnerReferenceFromOffshoots | pkg/controller/percona_xtradb.go:268-291 | every selected PVC stripped, then the secret |
| Controllers.Controller.OwnerReferenceForSelector | vendor/kmodules.xyz/client-go/dynamic/kubernetes.go:200-329 | lists by label, patches each item from the listed copy in any order, goes on after an item's error and reports it at the end |
| Controllers.Controller.OwnerReferenceForItems | vendor/kmodules.xyz/client-go/dynamic/kubernetes.go:200-329 | skips a missing secret, sends nothing when the reference is as wanted, patches from the copy read |
| Controllers.Controller.WipeOutDatabase | pkg/controller/dormant.go:215-228 | marks the database's own secret only if the lister shows no other database referring to it |
| Controllers.Controller.SecretsUsedByPeers | pkg/controller/dormant.go:232-245 | the loop's set is exactly the secrets that cached databases of other names refer to |
| Controllers.Controller.HaltDatabase | pkg/controller/dormant.go:92-212 | the seven collection deletions in order, each deleting any part of its collection when it fails, then the services |
| Controllers.Controller.DeleteServices | pkg/controller/dormant.go:187-201 | the loop deletes each listed service by name, and fails on one that is gone |
| Controllers.Controller.WaitUntilPaused | pkg/controller/dormant.go:37-90 | five wait loops in order, the last two taking a failed list for an empty one |
| Controllers.Controller.EnsureDatabaseSecret | pkg/controller/secret.go:37-55 | an unbound database is bound in the store and in the pass's copy, a bound one has its secret upgraded |
| Controllers.Controller.CreateDatabaseSecret | pkg/controller/secret.go:57-84 | a password is generated only when no secret of that name was found |
| Controllers.Controller.UpgradeDatabaseSecret | pkg/controller/secret.go:88-103 | adds the user name key from the old one and nothing else |
| Controllers.Controller.CreateGoverningService | pkg/controller/service.go:167-201 | an existing service counts as created; the shared field is set only on success |
| Controllers.Controller.EnsureService | pkg/controller/service.go:44-64 | refuses a name that another database's service has |
| Controllers.Controller.EnsurePerconaXtraDB | pkg/controller/statefulset.go:69-198 | the StatefulSet is written with what the shared field holds when it is read |
| Controllers.Controller.EnsureStatefulSet | pkg/controller/statefulset.go:366-384 | pods are waited for only when this very pass created or changed the StatefulSet |
| Controllers.Controller.EnsureAppBinding | pkg/controller/appbinding.go:62-129 | the binding carries the secret the pass has bound; then the standalone restore gate |
| Controllers.Controller.PushFailureEvent | pkg/controller/controller.go:169-194 | writes NotReady, or goes down when the database cannot be read |
| Dispatching.StartChooses | pkg/controller/workqueue.go:67-91 | with the finalizer stored: paused ends the reconcile, not halted goes to create, halted to halt under policy Halt and to the failure event otherwise, as if-and-only-ifs |
| Dispatching.PassesChosen | pkg/controller/workqueue.go:54-91 | over all runs: creating passes read a database that was not halted, halting ones one that was halted, not paused and had policy Halt, terminating ones one being deleted; all of them with the finalizer |
| Dispatching.InvalidEnds | pkg/controller/percona_xtradb.go:39-49 | a pass whose validation fails or whose secret is missing writes nothing |
| Dispatching.PhasesWritten | pkg/controller/percona_xtradb.go:51-60 | each status call that gets through writes its phase (Provisioning, Ready, Halted, NotReady) and nothing else |
| Dispatching.FailureReported | pkg/controller/controller.go:169-194 | a failure is reported only if the database can be read, else every pass is gone with the process |
| Dispatching.NilAgentKeepsFinalizer | pkg/controller/percona_xtradb.go:227-232 | with an agent nobody implements, `terminate` goes down and the finalizer stays |
| Offshoots.WritesExactly | pkg/controller/service.go:44-201 | at each call of a create pass, for every object: the one it is about gets the database's uid beside its old owners and the label, unless the call fails, the name is another's or (for the governing service) it is there; every other object is untouched |
| Offshoots.OwnersStay | pkg/controller/statefulset.go:297 | no step of anybody takes an owner off an object that stays |
| Offshoots.ObjectCollectedExactly | pkg/controller/statefulset.go:297 | over all runs: what a pass wrote and is still there is collected if and only if that very database and all other owners are gone |
| Offshoots.CreateLeaves | pkg/controller/percona_xtradb.go:82-187 | an uninterrupted create pass, for every database that can be created: each offshoot by kind and name with owners, label and payload, the secret, the binding and Ready; nothing else touched |
| Offshoots.CreateOwns | pkg/controller/rbac.go:33-116 | every object it leaves has the database among its owners, but for a governing service that was there before |
| Offshoots.PodsAwaitedExactly | pkg/controller/statefulset.go:366-384 | pods are waited for if and only if the StatefulSet was created or changed |
| Offshoots.FieldSetExactly | pkg/controller/percona_xtradb.go:83-87 | the shared field gets the own governing service if and only if that call succeeds |
| Finalizers.LeavesOnlyReleased | pkg/controller/workqueue.go:54-64 | over all runs: whoever held the finalizer and is gone was released by a `terminate` of its own uid |
| Finalizers.TerminationIsFinal | pkg/controller/workqueue.go:42-91 | over all runs: after `terminate` was entered for a uid, every later pass of it is in `terminate` |
| Finalizers.ActsOnlyFinalized | pkg/controller/workqueue.go:67-91 | over all runs: a pass that acts does so for a database that has held the finalizer |
| Finalizers.ProtocolHolds | pkg/controller/workqueue.go:40-95 | the inductive invariant of the finalizer protocol with stale informers, recreation and crashes |
| Ownership.ReferencesMatchPolicy | pkg/controller/percona_xtradb.go:211-291 | before the finalizer is removed, with no harmful patch since references were in order: under Halt nothing refers to the database; otherwise exactly the selected PVCs still there do; the secret is referred to under WipeOut if the pass read it, else never |
| Ownership.KeptExactly | vendor/kmodules.xyz/client-go/dynamic/kubernetes.go:200-329 | from a state in which owner references are in order for every pass, a step keeps them so if and only if its patch is harmless: of PVCs by what bears the listed name now, its label and who relies on its owners, of secrets by where the copy differs about a pass that is done with it |
| Ownership.FreshIsHarmless | vendor/kmodules.xyz/client-go/dynamic/kubernetes.go:200-329 | a patch of an object that is as it was read is harmless |
| Ownership.WipeOutReadsExactly | pkg/controller/dormant.go:215-228 | under WipeOut the pass goes on to its secret if and only if the lister shows no peer using it |
| Ownership.SelectedPvcsCollectable | pkg/controller/percona_xtradb.go:258-265 | once the database is gone, every PVC it selected under Delete or WipeOut can be collected |
| Ownership.SelectsLabelled | pkg/controller/percona_xtradb.go:236-266 | the selection is every PVC with the database's label |
| Ownership.OwnershipHolds | pkg/controller/percona_xtradb.go:211-291 | the invariant, through listing, patching and failing midway, over every stretch of a run with harmless patches |
| WipeOuts.OwnersBeingDeleted | pkg/controller/dormant.go:215-228 | over all runs, whatever copies patches were made from: a stored database that owns a secret is being deleted |
| WipeOuts.UnusedSecretMarked | pkg/controller/dormant.go:215-228 | over a whole WipeOut pass: if the lister showed no peer and the same secret is still there when the finalizer is about to be removed, the database is one of its owners |
| WipeOuts.SecretCollectable | pkg/controller/percona_xtradb.go:240-257 | once the database is gone, a marked secret can be collected if and only if no other owner is left; under other policies if and only if it could be anyway |
| Terminations.TerminateCompletes | pkg/controller/workqueue.go:54-64 | an uninterrupted `terminate` of a database being deleted: it is gone; it owns its labelled PVCs under any policy but Halt, none under Halt, its secret under WipeOut unless a peer is listed, and not under another policy; nothing else has changed |
| SharedSecrets.UsedSecretsSurvive | pkg/controller/dormant.go:215-245 | from a safe state, the empty namespace among them, over all steps that keep the guards: collection never takes a secret a live database refers to |
| SharedSecrets.CurrentListerProtects | pkg/controller/dormant.go:232-245 | the same over all runs in which the lister is current when a pass asks it and nobody comes to refer to a claimed secret |
| SharedSecrets.SafeExactly | pkg/controller/dormant.go:215-245 | from a safe state the next one is safe if and only if the step keeps both guards |
| SharedSecrets.CurrentListerSuffices | pkg/controller/dormant.go:232-245 | a lister that is current about the referring databases gives the first guard |
| SharedSecrets.WipeOutNeverStrips | pkg/controller/dormant.go:220-227 | a retry of a WipeOut pass never takes back a reference set earlier |
| Hazards.StaleListerLosesSecret | pkg/controller/dormant.go:232-245 | a run in which a stale lister costs a live database its secret |
| Hazards.StalePatchMarksForeign | vendor/kmodules.xyz/client-go/dynamic/kubernetes.go:200-329 | a run in which a patch from a listed copy marks another database's PVC |
| Hazards.SharedFieldMixesServices | pkg/cmds/server/options.go:70 | two workers: a run in which a StatefulSet carries another database's governing service |
| Credentials.GeneratedOnce | pkg/controller/secret.go:57-84 | over every stretch of a run that starts with the secret unclaimed and neither deletes nor wipes it out: it is the same object with the same password |
| Credentials.BoundForGood | pkg/admission/validator.go:132-136 | a database bound to a secret stays bound to it |
| Credentials.BindsExistingSecret | pkg/controller/secret.go:37-84 | over such a stretch, the secret a database is bound to exists and carries its label when the spec is patched |
| Credentials.RecreatedBindsSame | pkg/controller/secret.go:37-119 | whichever incarnation of a name is bound, it is bound to the secret and password any earlier point since has seen, whatever had become of the name before |
| Credentials.DataSurvives | pkg/controller/percona_xtradb.go:214-217 | an unmarked PVC outlives every stretch of a run in which no marking pass lists it, nobody deletes it and no stale patch lands on it |
| Passwords.LooksUpFirst | pkg/controller/secret.go:57-63 | the creation follows the look-up if and only if the secret is missing; another's secret is an error |
| Passwords.GeneratesCredential | pkg/controller/secret.go:64-79 | if the secret is missing and the call gets through, it has the generated password, the user name, the label and no owner; else no secret changes |
| Passwords.GeneratedKeeps | pkg/controller/secret.go:57-103 | over all runs: a generated secret has that password, the user name and the label for as long as it is there |
| Passwords.BindsGenerated | pkg/controller/secret.go:37-84 | while it is neither deleted nor wiped out, it is there with its password whenever the database is about to be bound, and is what it is bound to |
| Provisioning.WorkloadOnlyAfterRestore | pkg/controller/percona_xtradb.go:66-80 | whoever waits for the restore as a cluster has its StatefulSet written only after a stored version of that very database (its uid) had the restore over |
| Provisioning.ReadyOnlyAfterRestore | pkg/controller/percona_xtradb.go:135-159 | Ready is written only then too, for clusters and standalone databases, across spec changes between passes |
| Provisioning.OwnGoverningService | pkg/controller/statefulset.go:187 | in runs without disturbed windows every stored StatefulSet names its own database's service |
| Provisioning.GovernedExactly | pkg/controller/percona_xtradb.go:83-87 | the step invariant behind it is kept if and only if no pass sets the field inside another's window |
| Provisioning.SerialisedSuffices | pkg/controller/percona_xtradb.go:83-87 | passes that never overlap do not disturb each other |
| Restart.Restartable | pkg/controller/percona_xtradb.go:82-159 | after any number of cut-off passes, with any outcomes, crashes and passwords, one more uninterrupted pass ends with the same offshoots and spec as every uninterrupted one from the start, in phase Ready, and with the same secrets as one of them with some password |
| Upgrades.RetryDiffersExactly | pkg/controller/secret.go:37-103 | for a database that can otherwise be created and whose informer is current: some attempts exist after which the next pass ends with secrets no uninterrupted pass leaves, if and only if it is unbound and its own secret lacks the user name key |
| Restart.CurrentInformerSuffices | pkg/controller/percona_xtradb.go:38-65 | what restartability asks of the informer's copies holds when it has seen everything |
| Restart.CallKeepsUnderway | pkg/controller/percona_xtradb.go:38-187 | every call, whatever becomes of it, keeps the values an uninterrupted pass will leave |
| Restart.OnePassReaches | pkg/controller/percona_xtradb.go:82-159 | an uninterrupted pass reaches those values |
| Upgrades.BindingSkipsUpgrade | pkg/controller/secret.go:37-55 | the pass that binds such a database goes past the upgrade |
| Upgrades.LegacyUpgraded | pkg/controller/secret.go:88-103 | a pass after the binding does upgrade that secret |
| Halting.HaltConservesExactly | pkg/controller/dormant.go:92-212 | a call of a halting pass leaves PVCs, secrets and other databases' objects unchanged and adds nothing, if and only if it does not delete a listed service that became another's |
| Halting.HaltConserves | pkg/controller/dormant.go:92-212 | the same over any prefix of the pass, for every order of the loop and every outcome |
| Halting.ConservedShrinks | pkg/controller/dormant.go:92-212 | so every labelled collection only shrinks, and other databases' collections and PVCs stay as they are |
| Halting.HaltedMeansGone | pkg/controller/percona_xtradb.go:189-209 | when Halted is written no labelled pod, service, StatefulSet or deployment and no service account of the name is left, if since any point before the wait loops were passed none arrived after its loop and failed lists hid nothing |
| Halting.HaltOkExactly | pkg/controller/dormant.go:37-90 | a step keeps what the wait loops have established if and only if nothing awaited arrives behind them and no failed list hides something |
| Sweeps.HaltDeletes | pkg/controller/dormant.go:92-201 | over every stretch of a run in which nobody brings objects back: after the seven deletions no unheld binding, budget, StatefulSet, deployment, role binding, role or service account of the database is left and held ones are dying; after the service loop no service either |
| Sweeps.SweepsExactly | pkg/controller/dormant.go:92-201 | a step keeps what has been deleted gone if and only if it does not bring any of it back |
| Sweeps.HaltCompletes | pkg/controller/percona_xtradb.go:189-209 | an uninterrupted halt of a database without pods and held objects ends with the phase Halted, everything it deletes gone, and nothing else touched |
| Admission.Validator.Admit | pkg/admission/validator.go:90-149 | the answer and the frozen set afterwards, as functions of the request and the set before; a deletion is refused if and only if it names a database stored with DoNotTerminate and that can be read |
| Requests.DeleteAnswered | pkg/admission/validator.go:107-117 | the three answers to a deletion, each with its exact condition |
| Requests.TakenExactly | pkg/admission/validator.go:107-117 | a request takes a stored database away if and only if it deletes it by name, can be checked and the policy is another than DoNotTerminate, or deletes its whole collection |
| Requests.ProtectedStays | pkg/admission/validator.go:107-117 | over all sequences of requests: a database with DoNotTerminate is never taken away, unless an update changes its policy or its collection is deleted |
| Requests.UpdateAnswered | pkg/admission/validator.go:123-146 | an update is allowed if and only if identity, storage and node selector are kept, a set secret too, `spec.init` once frozen, and the new spec is valid |
| Requests.CreateAnswered | pkg/admission/validator.go:90-146 | a creation is allowed if and only if the object decodes and is valid; requests about anything else always are |
| Requests.ValidatesExactly | pkg/admission/validator.go:152-251 | all conditions under which a spec is valid, strictly or not |
| Requests.MutatesExactly | pkg/admission/mutator.go:114-129 | when mutation refuses, and every default it gives |
| Requests.DeleteAsMachine | pkg/admission/validator.go:107-117 | a user's deletion takes effect in the machine if and only if the validator allows it |
| Requests.UpdateAsMachine | pkg/admission/validator.go:132-136 | an update the validator allows keeps a secret that is set, as the machine asks of updates |
| Admission.FrozenFields.GetPreconditionFunc | pkg/admission/validator.go:265-284 | the four identity preconditions and one for each frozen field, after freezing `spec.init` |
| Admission.FrozenFields.ValidateUpdate | pkg/admission/validator.go:253-263 | accepts if and only if identity and all frozen fields are kept |
| Admission.FrozenExactly | pkg/admission/validator.go:273-291 | after any requests the set is the base fields, with `spec.init` if and only if some compared update carried Provisioned |
| Admission.FrozenGrows | pkg/admission/validator.go:265-291 | the set only grows |
| Admission.ProvisionedKeepsInit | pkg/admission/validator.go:138 | no accepted update carrying Provisioned changes `spec.init` |
| Admission.HistoryMattersExactly | pkg/admission/validator.go:265-291 | the answer differs from a fresh validator's if and only if `spec.init` is frozen and the update changes only that, unprovisioned |
| Admission.ChainKeeps | pkg/admission/validator.go:123-141 | along all stored versions: halted implies policy Halt and durable storage, and identity, storage, node selector and a set database secret never change |
| Admission.AcceptedReplicas | pkg/admission/validator.go:152-189 | a spec accepted with some replica count is accepted with another if and only if that is below two, or above two and the rest fits a cluster (short name, no script, cluster version) |
| Admission.SetDefaultValues | pkg/admission/mutator.go:114-129 | defaults in place, or refuses and leaves the object alone |
| Admission.MutationIdempotent | pkg/admission/mutator.go:114-129 | mutating a mutated object changes nothing |
| Admission.DefaultsFillOnly | vendor/kubedb.dev/apimachinery/apis/kubedb/v1alpha2/perconaxtradb_helpers.go:157-217 | defaulting is idempotent and leaves fields that are set alone |
| StatefulSets.StatefulSet.Transform | pkg/controller/statefulset.go:294-362 | the rewriting in place has the value of the composed upserts; replicas, service name, node selector, service account and owner are the database's, the scheduler too if it names one; the claim's access modes are filled in in the spec |
| Workloads.FieldsConverge | pkg/controller/statefulset.go:296-354 | stored values that differ only in the plain fields become the same, with the spec's replicas and node selector, the governing service, the service account and the scheduler; the database is an owner beside the old ones |
| Workloads.DbContainerRuns | pkg/controller/statefulset.go:75-125 | image, command, arguments, ports, probes, hooks and resources of the database container, for clusters and standalone |
| Workloads.DbContainerMounts | pkg/controller/statefulset.go:128-140 | it mounts data, configuration and script where they belong |
| Workloads.ExporterRuns | pkg/controller/statefulset.go:150-180 | the exporter's image, command and port |
| Workloads.RootCredentials | pkg/controller/statefulset.go:442-475 | both containers find password and user name in the database's secret |
| Workloads.LostFoundRuns | pkg/controller/statefulset.go:75-95 | the init container that clears the data directory, also over a stored one of its name |
| Workloads.VolumesThere | pkg/controller/statefulset.go:218-246 | the volumes and the claim behind the mounts |
| StatefulSets.StatefulSet.UpsertEnv | pkg/controller/statefulset.go:442-475 | the loop gives both containers, and no other, the two root variables |
| StatefulSets.StatefulSet.UpsertDataVolume | pkg/controller/statefulset.go:387-439 | mount, and emptyDir volume or claim template, by storage type |
| StatefulSets.StatefulSet.UpsertCustomConfig | pkg/controller/statefulset.go:218-246 | the configuration's mount and volume |
| StatefulSets.TransformIdempotent | pkg/controller/statefulset.go:294-362 | transforming again changes nothing, for every stored StatefulSet with unique names and every workload and spec |
| StatefulSets.TransformKeepsUnique | pkg/controller/statefulset.go:294-362 | container, volume, claim, mount and variable names stay unique, given that the exporter's variables, taken from the user as they are, are |
| StatefulSets.EnvPrecedenceExactly | pkg/controller/statefulset.go:319 | root names to the secret, others to the user's last value, else the operator's default: for all names, if and only if no stale variable is inherited |
| StatefulSets.StaleVariableStays | pkg/controller/statefulset.go:310-325 | a variable taken out of a standalone database's spec stays |
| StatefulSets.OneDataVolumeAlways | pkg/controller/statefulset.go:387-439 | over all admitted versions of a database, bound from the start or later by the operator, written in any order and removed in between: its StatefulSet never has both the emptyDir volume and the claim template, and after a write the one of its storage type |
| Upserts.UpsertEntries | vendor/kmodules.xyz/client-go/core/v1/kubernetes.go:71-190 | the loop is the keyed upsert: first of the name overwritten in place, else appended |
| Upserts.LastWins | vendor/kmodules.xyz/client-go/core/v1/kubernetes.go:71-190 | the last value given for a name wins, other names keep theirs |
| Upserts.ReplacingIdempotent | vendor/kmodules.xyz/client-go/core/v1/kubernetes.go:71-190 | replacing upserts of distinct names are idempotent on every list |
| Upserts.MergingIdempotent | vendor/kmodules.xyz/client-go/core/v1/kubernetes.go:71-90 | merging upserts are idempotent even with a name given several times |
| Monitoring.Monitor.ManageMonitor | pkg/controller/monitor.go:89-108 | the switch call by call, cut off anywhere |
| Monitoring.SwitchesExactly | pkg/controller/monitor.go:66-108 | a pass that ends well leaves exactly the spec's agent, or none, if and only if the old agent did not stay for want of look-up or deletion |
| Monitoring.LiveAgents | pkg/controller/monitor.go:66-108 | over any number of cut-off attempts the live agents are among the annotated one and the spec's |
| Monitoring.ChangedRetryLeaksAgent | pkg/controller/monitor.go:89-108 | attempts that leave two agents because the spec changed after a crash |
| Monitoring.UnknownAgentCrashes | pkg/controller/monitor.go:35-55 | every agent type of the vendor that is not one of the two implemented passes validation and takes the operator down |
| Monitoring.CrashesExactly | pkg/controller/monitor.go:35-108 | when no call is cut off, the switch goes down if and only if the spec asks for Prometheus monitoring with a type nobody implements |
| Hooks.AdmissionHooksByGroupThenVersion | pkg/server/server.go:277-290 | every hook in the bucket of its group and version, in order, and no other bucket |
| Hooks.BucketsPartition | pkg/server/server.go:277-290 | each hook lands in its own bucket as often as it was given, and in no other |
| Hooks.BucketInOrder | pkg/server/server.go:277-290 | a bucket keeps the order given |
| Hooks.AppendUniqueGroupVersion | pkg/server/server.go:252-265 | no duplicates, and just the versions of both lists |
| Hooks.Register | pkg/server/server.go:160-194 | every resource served under its version by the last hook for it; version lists are exact and without duplicates |
| Galera.GetGarbdConfig | pkg/controller/appbinding.go:41-60 | no address for a standalone database; else the prefix and the peers by number |
| Galera.AddressReadsBack | pkg/controller/appbinding.go:46-56 | splitting the address gives back exactly the peers, all distinct |

## Left out

- Clients, informers, queues, webhook serving, command line: wiring. The queue's promise that a key is never processed twice at once is `Begin`'s guard.
- JSON and strategic merge patches: a patch is a change of fields, a precondition an equality of fields.
- Atomicity of calls: a `CreateOrPatch` is one step, although the client reads and then patches; only the owner-reference patches are two.
- The calls of `manageMonitor` in create and of `deleteMonitor` in halt and terminate: their errors are only logged there, so that of them the machine has just the panic of an agent without implementation; `Monitoring.dfy` has them call by call.
- StatefulSets.StatefulSet.Transform: leaves out the fields copied as they are and never merged (labels, annotations, affinity, tolerations, pull secrets, priority, security context, update strategy).
- Labels other than the database's name, annotations, ports, images, probe constants, resource quantities, `observedGeneration`, events and logs.
- Contents of roles and role bindings: each is an upsert of one object.
- Password randomness: a fresh password is an arbitrary value.
- The environment: pods, PVCs and conditions are created and changed by arbitrary steps; scheduling, Galera replication, Stash and the StatefulSet watcher are not modelled further.
- Other finalizers on a database: without the operator's own, a database being deleted is gone.
- Aliasing of Go slices and maps, and data races at memory level.
- Restart.Restartable: assumes the informer's copies differ from the stored database only in an unbound secret, that no name is taken by another database's object, and that an unbound database's own secret is not one from before 0.9.0, where it is false (`Upgrades.RetryDiffersExactly`).
- Ownership.ReferencesMatchPolicy: assumes harmless patches; `Ownership.KeptExactly` shows that no weaker condition on the steps keeps the invariant behind it, `Hazards.StalePatchMarksForeign` a run that breaks it.
- Credentials.DataSurvives: assumes that no patch from an outdated copy lands on the PVC, which would give it the owners of that copy.
- Hooks.AppendUniqueGroupVersion: the order of the result is left open, as it is in the source, which ranges over a map.
