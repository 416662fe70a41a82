# Verification of the Kode operator's reconcile protocol

A Dafny model of the operator's two controllers that work on a `Kode` (a development environment in
Kubernetes): the Kode controller with its eight-phase state machine, and the EntryPoint controller, which
holds its own copy of the Kode and writes the whole status back. Verify it with `dafny verify dfyconfig.toml`.

## How it is modelled

**The cluster** (`Cluster.dfy`) holds the stored Kode (spec, generation, deletion timestamp, finalizer,
status), the children (secrets, service, stateful set, claims, pods, and which of them are terminating), the
owner references that ensure steps have set (`owned`), the HTTPRoute, and the EntryPoint controller's
reconcile in flight with its copy of the Kode. Once the Kode is gone, the garbage collector may take any child
that carries an owner reference.

**Interleaving and failure.** A `Setting` carries a script with one entry per API call of the Kode
controller: the steps the others take just before that call (user edits and deletion, pods, readiness,
binding, terminating objects disappearing, garbage collection, any number of single calls of the EntryPoint
controller, each succeeding or failing), and whether the call itself gets through. A theorem about all settings is therefore
about every interleaving at the granularity of API calls and every failure point. The number of calls made
is the clock. `log` lists the statuses the Kode controller has stored.

**Two forms.** The controllers change things step by step, so they are modelled as imperative classes and
methods: `Client.ApiClient`, `Client.KodeObject`, `Controller.StateMachine` and the methods of `Controller`,
`ChildResources`, `Views`, `EntryPointController`, `Conditions` and `Templates`, with the loops of the
source. Each method is proved equal to a function of the same name on values (`Handlers`, `Resources`,
`Desired`, `Cluster`, `Conditions`), and the properties are proved about those functions. A nil dereference
is the error `NilPointer`, which ends a reconcile with nothing written.

**Map of the files.** Model: `KodeTypes`, `Conditions`, `PodTemplateHash`, `Templates`, `Desired`, `Views`,
`Cluster`, `Resources`, `Handlers`, `Client`, `ChildResources`, `Controller`, `EntryPointController`.
Proofs over all runs: `Invariants`, `Safety`, `HandlerSafety`, `ReconcileSafety`, `Runs`, `HandlerRuns`,
`Episodes`, `Decisions`, `Urls`. Deletion: `Deletion`, `DeletionSteps`, `DeletionEnds`, `Orphan`, `Volumes`, `WritesLeft`, `StaleWrites`.
Detect, apply, validate, ready: `Convergence`, `Agreement`, `HashDetection`, `Fields`, `Configurable`.
One reconcile, exactly: `QuietPhases`. Progress: `Startup`, `Steady`, `Updating`.

## What was found

* Claims that hold in every run: conditions always there when they are dereferenced, the transition table,
  recovery bounded by five stored attempts per episode, no lost wakeup, and published URLs that are served.
  Every change of phase is characterised exactly, under any interleaving and any failing calls
  (`PhasesChangeExactly`), and so is all that one reconcile leaves in a quiet cluster (`QuietPhases`).
* Configuring never succeeds while something is wrong that the operator does not repair: a secret with another
  template's labels, a stateful set scaled away from one replica, a claim of another class or with other modes,
  storage given but empty (`ConfigurableExactly`).
* Deletion does not always end. When no call fails, the environment finishes every deletion before the next
  call, nobody edits, and the EntryPoint controller does not act, it ends within seven rounds if and only if every
  required child that exists is terminating already, or is in a cleanup still to come that does not spare it;
  otherwise the finalizer stays for ever (`DeletionEndsExactly`, and with the EntryPoint controller about
  `IdleDeletionEndsExactly`). The two ways to get there are a kept, managed volume (`KeptVolumeBlocks`) and a
  cleanup one of whose deletes fails, since the deletion cycle is stored all the same (`FailedCleanupBlocks`).
* An EntryPoint copy in flight writes an old status over the deletion. While the EntryPoint controller's calls
  get through this costs at most seven rounds for each of at most four writes (`ServedDeletionEnds`), and it
  even undoes a missed cleanup, because it turns the deletion cycle back (`StaleWriteReopens`). But when its
  write after the route gets through and its write of the URL is refused, over and over, the Kode becomes Active
  again before every reconcile, and the deletion never gets past catching up with the generation
  (`RefusedWritesBlock`, with concrete values `RefusedWritesHappen`).
* Children can outlive the finalizer, in any run only a renamed secret and a claim no longer managed
  (`OnlyRenamedAreLeft`, `NoOrphans`). When deletion ends in that way, a child is left behind if and only if it exists, is
  not terminating, and is not required absent by the spec of that moment (`OrphansExactly`,
  `SecretOrphanedExactly`, `ClaimOrphanedExactly`); a run from a new Kode that ends there is given
  (`EditThenDeleteOrphans`). What is left is left to the garbage collector, which takes it by its owner
  reference (`CollectorTakesOrphans`).
* Error atomicity fails for the Unknown phase, exactly when the state machine's second write of the
  determined phase fails (`UnknownErrorsChangePhase`); a run in which it does is `UnknownIsNotAtomic`.
* Active does not mean ready: a reconcile of an Updating Kode stores Active without readiness if and only if
  nothing is stale and the children are not ready (`ActiveWithoutReadyExactly`).
* With an existing secret: cleanup deletes the user's secret (`CleanupTakesUsersSecret`), and detection never
  settles (`ExistingSecretNeverSettles`).
* A secret's labels are written once, so a renamed template never validates (`RenamedTemplateNeverValidates`);
  storage given but empty asks for a claim that nobody makes (`FreshChildrenAgree`); storage without
  resources ends in a nil dereference (`FreshChildrenAgree`); moving to another claim is not detected
  (`MovedClaimIsMissed`).
* The reset of LastError in `UpdateStatus` compares after assigning and never fires: the method is proved to
  leave the copy unchanged.
* The branch of the template manager that stops retrying on NotFound is never taken
  (`NotFoundNeverStopsRetries`); its comment says it is.
* Where documentation and code differ the code was followed: a cleanup that finds nothing to delete still
  asks to be called again after a second, although a comment calls that case "all resources already deleted"
  (`HandlerSafety.CleanupHolds`).

## Model

The properties come first. The last group of rows, from `PodTemplateHash.CalculatePodTemplateHash` on, is the
imperative forms: each of these methods does what its function on values does, and the properties are about
those functions.

| member | source | states |
|---|---|---|
| Runs.NoOrphans | internal/controllers/kode/handlers.go:421-479 | in every run in which no edit renames the children, a Kode that is gone or has no finalizer has no stateful set, service or own secret, and outside test mode no own claim (with renaming edits: OnlyRenamedAreLeft and OrphansExactly) |
| Runs.ReleasedMeansGone | internal/controllers/kode/check_resources.go:59-119 | whatever is edited, once the operator took the finalizer off the Kode is gone and so is every child named by the reconcile that did it |
| Runs.OnlyRenamedAreLeft | internal/controllers/kode/handlers.go:421-479 | in every run, whatever is edited and whichever calls fail: an own child that exists although the Kode is gone or has no finalizer is never the stateful set or the service; it is the secret, and the spec at the release names another one, or the claim, and that spec manages none or test mode is on; and it carries the owner reference |
| Runs.EveryStatusIsOk | internal/controllers/kode/handlers.go:275-291 | in every run the stored status and the EntryPoint controller's copy have Ready, Available and Progressing in the five settled phases, a retry count in 0..5, deletion cycle 0 outside Deleting; a copy about to be written as Failed has retry count 0 |
| HandlerRuns.HandlersGetGoodCopies | internal/controllers/kode/reconciler.go:72-151 | in every run a handler is only ever called with the generation observed, the finalizer on, a phase that has a handler, Deleting exactly for a deleting Kode, retry count 0 unless Failed |
| HandlerRuns.ActiveNeverPanics | internal/controllers/kode/handlers.go:275-291 | in no run does a reconcile of an Active Kode end in a nil dereference |
| HandlerRuns.HandlerIsFound | internal/statemachine/statemachine.go:48-53 | in every run the reconcile of a Kode whose initialising write was lost fails only by a refused call and stores nothing but Updating: a handler is never missing |
| HandlerRuns.ActiveExactlyWhenChecked | internal/controllers/kode/handlers.go:139-202 | in every run a reconcile that calls the Provisioning handler stores Active if and only if the template is fetched, every check gets through and finds its part ready at its own call, and the two calls that store get through |
| Decisions.PhasesChangeExactly | internal/controllers/kode/handlers.go:37-698 | in every run a reconcile that calls a handler stores its next phase if and only if: Pending, every init plugin has an image; Configuring, fetch, detection, apply and validation succeed in turn; Provisioning, the template is fetched and every check said yes at its own call; Active (to Updating), one check said no after all before it said yes; Updating, nothing is found stale, or it is applied, valid and every check says yes; Failed with attempts left, Provisioning on a no and Pending otherwise, once the attempt is stored; Unknown, by the same answers; and in each case the calls that store get through |
| Decisions.RecoveryDecides | internal/controllers/kode/handlers.go:664-698 | recovery asks for Provisioning exactly if the attempt is stored and a check says no, and for Pending if it is stored and the fetch or a check is refused, the template is missing, or all is ready |
| Decisions.StateIsDetermined | internal/controllers/kode/handlers.go:629-661 | an Unknown Kode is Active on a yes, Provisioning on a no, Pending without template and Configuring if a check is refused |
| Agreement.ChecksDeny | internal/controllers/kode/check_resources.go:24-57 | the answer is no if and only if one check got through and found its part not ready at its own call, all before it having said yes |
| QuietPhases.PendingExactly | internal/controllers/kode/handlers.go:37-67 | in a quiet cluster: Configuring with Ready and Available False and Progressing True if and only if every init plugin has an image; otherwise Pending with the error |
| QuietPhases.ConfiguringExactly | internal/controllers/kode/handlers.go:70-136 | Provisioning if and only if the template is there, detection succeeds, what is stale is applied and the children are then valid; otherwise Configuring with all three conditions False and the error; with the children left |
| QuietPhases.ProvisioningExactly | internal/controllers/kode/handlers.go:139-202 | Active with the template's port if and only if template and readiness are there; otherwise Provisioning, with the error or to be polled after the interval |
| QuietPhases.ActiveExactly | internal/controllers/kode/handlers.go:205-301 | Updating with Ready and Available False and Progressing True if and only if the template is there and the children are not ready; Active, healthy and with the template's port if they are; without template Active with the error; the children unchanged |
| QuietPhases.UpdatingExactly | internal/controllers/kode/handlers.go:304-397 | each end of the handler with its phase, conditions, port, result and children: nothing stale is Active and Ready at once, otherwise apply, validity and readiness decide |
| QuietPhases.FailedExactly | internal/controllers/kode/handlers.go:485-547 | with attempts left one attempt more, no error, and Provisioning if and only if the template is there and the children are not ready, else Pending; without, Failed with all three conditions False |
| QuietPhases.UnknownExactly | internal/controllers/kode/handlers.go:550-626 | Pending without template, else Active or Provisioning by readiness, all three conditions Unknown |
| QuietPhases.DeletingExactly | internal/controllers/kode/handlers.go:400-483 | the Kode is let go if and only if all that is required absent is absent; otherwise one cycle more, looked at again after a second the first time and after the interval from then on |
| QuietPhases.NewExactly | internal/controllers/kode/reconciler.go:99-117 | finalizer, Pending and the generation observed, and nothing else |
| QuietPhases.MismatchExactly | internal/controllers/kode/utils.go:156-182 | Updating with the generation observed, Ready and Available False, Progressing True |
| Runs.StoredPhases | internal/controllers/kode/reconciler.go:72-151 | every status any reconcile of any run stores follows the transition table from the Kode it read; Failed is never newly entered; Deleting is stored exactly for a deleting Kode |
| HandlerRuns.RecoveryIsBounded | internal/controllers/kode/handlers.go:485-547 | in every run a reconcile of a recovering Kode stores only statuses with one attempt more, up to five; with five it stores only Failed and does not fail |
| Episodes.EpisodeStep | internal/controllers/kode/handlers.go:496-547 | one event of an episode raises the stored retry count by one if it stores a recovery attempt, and otherwise leaves it |
| Episodes.EpisodeIsShort | internal/controllers/kode/handlers.go:496-547 | while a Kode stays Failed with no other writer in flight, over any events, its stored retry count is the one at the start plus the attempts stored since, never above five: at most five attempts are stored |
| Episodes.EpisodeStartsAtZero | internal/controllers/entrypoint/reconciler.go:97-116 | in every run, of all that the others do only a write of the EntryPoint controller makes the stored status a new Failed one, and it has retry count 0 |
| Runs.NoLostWakeup | internal/controllers/kode/reconciler.go:72-151 | with positive intervals, no error and an empty result mean that the finalizer is off or the Kode gone, or that the last stored phase differs from the one read |
| Runs.ErrorsAreAtomic | internal/statemachine/statemachine.go:55-68 | a failed reconcile has stored only the phase it works in and the generation it read, except for phase Unknown |
| HandlerRuns.ErrorsAreReported | internal/controllers/kode/utils.go:97-113 | in every run a handler's error other than a nil dereference, which writes nothing, leaves Ready, Available and Progressing False and LastError set in its copy, and in the stored Kode if the last write got through, for every handler and failure point |
| HandlerRuns.UnknownErrorsChangePhase | internal/controllers/kode/handlers.go:550-626 | in every run a reconcile that calls the Unknown handler fails if and only if the handler's first write and its write of the determined phase get through and the very next call does not; a phase other than Unknown has then been stored |
| Runs.UnknownIsNotAtomic | internal/controllers/kode/handlers.go:550-626 | a run from a Kode somebody set to Unknown and whose template does not exist: the reconcile fails at call 4, the state machine's second write of Pending, with Pending already stored |
| Runs.UrlIsServed | internal/controllers/entrypoint/reconciler.go:92-188 | while the template reference stays, a URL in the stored status or in any copy has its host routed, and the backend is the Kode's service at its only port (what the URL is: UrlsFollowTheEntryPoint) |
| Urls.UrlsFollowTheEntryPoint | api/v1alpha2/kode_types.go:313-344 | in every run in which the template reference stays, a URL in the stored status or a copy has the gateway's protocol; with subdomain routing the host name.baseDomain and path /, with path routing the host baseDomain and path /name; with any other routing there is none; and its host is the route's |
| Urls.RouteFollowsTheEntryPoint | internal/controllers/entrypoint/ensure_routes.go:37-75 | so is the host of the route, with the Kode's service as backend |
| Urls.NoSharedUrl | api/v1alpha2/kode_types.go:313-344 | in no two runs do Kodes of different names with the same template have the same stored URL |
| Urls.EntryPointPublishes | internal/controllers/entrypoint/reconciler.go:92-188 | a whole reconcile whose calls get through changes nothing if the URL is published or there is no port; otherwise there is a route and the status is the old one with the URL, Ready and Available True, Progressing False |
| Urls.EntryPointFails | internal/controllers/entrypoint/reconciler.go:92-188 | one whose call before the last is refused makes the Kode Failed with the error and no other condition changed; a refused last call changes nothing |
| Urls.UnknownRoutingFails | api/v1alpha2/kode_types.go:338-343 | with a routing that is neither, the Kode becomes Failed and no route is made |
| ReconcileSafety.ReconcileKeeps | internal/controllers/kode/reconciler.go:72-151 | one reconcile under any interleaving and failures keeps every invariant and satisfies the stored-status, wakeup and atomicity claims |
| ReconcileSafety.FreshHolds | internal/controllers/kode/reconciler.go:119-130 | past the gates a handler's copy has its generation observed and retry count 0 unless Failed |
| ReconcileSafety.MismatchKeeps | internal/controllers/kode/utils.go:156-182 | the generation step stores Updating, or Deleting for a deleting Kode, with the generation observed, or nothing |
| ReconcileSafety.InitialiseKeeps | internal/controllers/kode/reconciler.go:99-117 | adding the finalizer and initialising keeps the invariants and stores Pending with the generation observed |
| ReconcileSafety.DeterminedHolds | internal/controllers/kode/handlers.go:629-661 | under the generation gate the Unknown handler never determines Updating (what it determines: StateIsDetermined) |
| HandlerSafety.PendingKept | internal/controllers/kode/handlers.go:37-67 | the Pending handler keeps the invariants, stores only Pending, and asks for Configuring or fails |
| HandlerSafety.ConfiguringKept | internal/controllers/kode/handlers.go:70-136 | likewise; it asks for Provisioning or fails (which: PhasesChangeExactly) |
| HandlerSafety.ProvisioningKept | internal/controllers/kode/handlers.go:139-202 | likewise; it asks for Provisioning or Active or fails |
| HandlerSafety.ActiveKept | internal/controllers/kode/handlers.go:205-301 | likewise; it asks for Active or Updating or fails (which: PhasesChangeExactly) |
| HandlerSafety.UpdatingKept | internal/controllers/kode/handlers.go:304-397 | likewise; it asks for Updating or Active or fails, and never leaves Active without its three conditions |
| HandlerSafety.DeletingKept | internal/controllers/kode/handlers.go:400-483 | likewise; it stays in Deleting and takes the finalizer off only when all that is required absent is absent |
| HandlerSafety.FailedKept | internal/controllers/kode/handlers.go:485-547 | likewise; everything it stores has the retry count one higher, up to five |
| HandlerSafety.RecoveryHolds | internal/controllers/kode/handlers.go:664-698 | recovery from Failed asks only for Pending or Provisioning (which: RecoveryDecides) |
| HandlerSafety.CleanupHolds | internal/cleanup/cleanup_manager.go:62-91 | a successful cleanup always asks to be called again after one second |
| HandlerSafety.RefreshAllMeaning | internal/controllers/kode/handlers.go:271-291 | with the three conditions present the comparisons end with Ready and Available True and Progressing False, nothing else changed |
| Invariants.OthersKeep | internal/controllers/entrypoint/reconciler.go:92-188 | any number of steps of the user, the environment and the EntryPoint controller with its stale copy keeps every invariant |
| Invariants.EpKeepsStatusInv | internal/controllers/entrypoint/reconciler.go:97-116 | every call of the EntryPoint controller keeps the status invariant of the stored Kode and of its copy |
| Invariants.EpKeepsUrlInv | internal/controllers/entrypoint/ensure_routes.go:37-104 | every call of the EntryPoint controller keeps the URL invariant |
| Safety.DetectHolds | internal/controllers/kode/configure_resources.go:76-114 | detection keeps the invariants at each of its calls |
| Safety.ApplyHolds | internal/controllers/kode/configure_resources.go:36-74 | every write of an apply keeps the invariants, also when it stops half way |
| Safety.FetchCopies | internal/controllers/kode/utils.go:35-95 | fetching the template changes nothing of the copy but its runtime and never dereferences nil |
| Deletion.DeletingCreatesNothing | internal/controllers/kode/reconciler.go:86-97 | a reconcile that reads a deletion timestamp creates no child, under any interleaving and failures |
| Deletion.KeptVolumeBlocks | internal/controllers/kode/cleanup.go:69-81 | outside test mode, while every spec manages a claim and has keepVolume true, in no run does a deleting Kode with an existing, not terminating claim lose its finalizer, nor is that claim ever put on its way |
| Volumes.SparedExactly | internal/controllers/kode/cleanup.go:69-81 | what the operator spares is exactly the claims of a Kode whose storage says keepVolume true |
| Volumes.CleanupSparesClaims | internal/controllers/kode/cleanup.go:69-81 | with keepVolume true no cleanup puts a claim on its way, whatever the others do and whichever calls fail |
| Volumes.KeptVolumesAreSpared | internal/controllers/kode/handlers.go:400-483 | nor does any reconcile of the deleting Kode |
| Volumes.CleanupTakesVolume | internal/controllers/kode/cleanup.go:34-81 | with managed storage and any other value a successful cleanup leaves the claim terminating or gone |
| Volumes.VolumeGoes | internal/controllers/kode/handlers.go:428-447 | so does the first reconcile of a deletion in which no call fails |
| Deletion.MissedCleanupBlocks | internal/controllers/kode/handlers.go:428-467 | from a deleting Kode past cycle 0 with no EntryPoint copy in flight: in no run does it lose its finalizer while any child required absent is there and nobody is deleting it, unless an edit stops requiring that child |
| Deletion.FailedCleanupStoresCycle | internal/controllers/kode/handlers.go:429-438 | a first cleanup one of whose deletes fails, whichever it is, stores cycle 1 and leaves that child as it was |
| Deletion.FailedCleanupBlocks | internal/controllers/kode/handlers.go:400-467 | with no EntryPoint copy in flight and nobody acting meanwhile, a reconcile that starts the deletion and fails at any one delete of its cleanup is followed by no run in which the finalizer comes off, if that child is required absent, stands, and no edit stops requiring it |
| Deletion.CleanupTakesUsersSecret | internal/controllers/kode/cleanup.go:34-67 | after a successful cleanup the secret the user named is gone or being deleted, whatever the others do meanwhile |
| DeletionSteps.CleanupCoversRequired | internal/controllers/kode/cleanup.go:34-81 | the delete set covers the set required absent if and only if there is no managed claim with keepVolume true outside test mode |
| DeletionSteps.ReconcileWorks | internal/controllers/kode/handlers.go:400-483 | an error-free reconcile of a deleting Kode only catches up with the generation, or stores one more cycle having seen a required child and, at cycle 0, deleting exactly what its cleanup does not spare, or lets the Kode go with everything required absent |
| DeletionEnds.RoundDecreases | internal/controllers/kode/handlers.go:421-479 | each round decreases the rank made of generation mismatch, cleanup to do and required children left |
| DeletionEnds.DeletionTerminates | internal/controllers/kode/handlers.go:400-483 | with no failing call, nothing held, and an environment that removes a terminating required child per pause, the Kode is gone after at most seven rounds |
| DeletionEnds.DeletionEndsExactly | internal/controllers/kode/handlers.go:400-483 | with no failing call and an environment that finishes every deletion before the next call, a deleting Kode is gone after seven rounds if and only if every required child that exists is terminating already or is in a cleanup still to come that does not spare it; otherwise it is there after any number of rounds |
| DeletionEnds.SurvivesExactly | internal/controllers/kode/handlers.go:421-479 | with the hypotheses of DeletionEndsExactly: at the moment the Kode goes a child exists if and only if, when first looked at, it existed, was not terminating, and no cleanup that would delete it was to come |
| DeletionEnds.OrphansExactly | internal/controllers/kode/handlers.go:421-479 | so a child is left behind at that moment if and only if it exists, is not terminating and is not required absent by the spec (in test mode: for all but claims) |
| DeletionEnds.SecretOrphanedExactly | api/v1alpha2/kode_types.go:262-268 | so the operator's own standing secret is left behind if and only if the spec names another secret by then |
| DeletionEnds.ClaimOrphanedExactly | internal/controllers/kode/check_resources.go:92-112 | so outside test mode its own standing claim is left behind if and only if the spec no longer manages one |
| StaleWrites.ServedDeletionEnds | internal/controllers/entrypoint/reconciler.go:92-188 | with no failing call of either controller (or an idle EntryPoint controller), swept children, no edit, and nothing held, a deleting Kode is gone within seven rounds and seven more for each write the EntryPoint controller has left, of which there are at most four, whatever copy it has in flight |
| StaleWrites.IdleDeletionEndsExactly | internal/controllers/kode/handlers.go:400-483 | the condition of DeletionEndsExactly is also exact while the EntryPoint controller acts, its calls failing or not, if at first it has no copy and the Kode is not Active |
| StaleWrites.HeldBlocks | internal/controllers/kode/handlers.go:428-467 | a child that the operator spares, or any held child while the EntryPoint controller is idle, keeps the Kode there for any number of rounds |
| StaleWrites.StaleWriteReopens | internal/controllers/entrypoint/reconciler.go:97-188 | a write of a stale EntryPoint copy leaves deletion cycle 0, so that only what the operator spares still holds the Kode; if from then on nobody edits, all calls get through and children are swept, the deletion ends within 35 rounds if and only if no required child that stands is spared, whatever an earlier cleanup missed |
| StaleWrites.RefusedWritesBlock | internal/controllers/entrypoint/reconciler.go:92-188 | from an Active Kode with an unpublished URL, deleted while its copy is about to be written: if before every reconcile the first write of a copy gets through and the second is refused, then for any number of reconciles no child is touched and the finalizer stays, although no call of the Kode controller fails |
| StaleWrites.RefusedWritesHappen | internal/controllers/entrypoint/reconciler.go:92-188 | concrete values for which that happens |
| WritesLeft.EpMoves | internal/controllers/entrypoint/reconciler.go:92-188 | no call of the EntryPoint controller that gets through raises the number of writes it has left, counting those of reconciles its own writes cause to start, and one that does not lower it leaves the Kode as it is; it never changes children, spec or finalizer |
| WritesLeft.RoundsMirror | internal/controllers/kode/reconciler.go:72-151 | over any number of rounds in which no such write is spent, a run is, but for route and copy, the run of the same script without the EntryPoint controller |
| Orphan.EditThenDeleteOrphans | internal/controllers/kode/handlers.go:400-483 | a run from a new Kode: five reconciles, one failed call, one edit and one deletion by the user, and the Kode is gone with its secret still there and owned |
| Convergence.DetectMeaning | internal/controllers/kode/configure_resources.go:76-339 | detection reports exactly the parts that are stale and changes nothing but pods |
| Convergence.CurrentPodsStay | internal/controllers/kode/configure_resources.go:245-274 | a pod that shares its name with no outdated one is left, whichever deletions fail |
| Updating.OutdatedPodsGo | internal/controllers/kode/configure_resources.go:245-274 | with no failing call exactly the outdated pods are gone |
| Convergence.EnsureFixes | internal/controllers/kode/ensure_container_statefulset.go:40-80 | an ensure step makes its part no longer stale, up to outdated pods and a claim's immutable fields, and leaves the staleness of the others alone |
| Convergence.DetectAfterApply | internal/controllers/kode/configure_resources.go:36-114 | after detect and a successful apply, a second detect reports exactly the residues, whichever pod deletions failed |
| Convergence.ApplyReachesFixpoint | internal/controllers/kode/configure_resources.go:36-339 | with no failing call, a known type and resources wherever a claim is wanted, detection and apply succeed and the second detection reports exactly this: the stateful set if there was none but outdated pods were there, and the claim if it existed with other access modes or class |
| Convergence.ApplyIsResumable | internal/controllers/kode/configure_resources.go:36-74 | after a failed apply the next detection reports exactly the stale parts from the failing one on: a subset of what was reported, strictly smaller once the apply has written any of it |
| Agreement.ValidateMeaning | internal/controllers/kode/validate_resources.go:34-203 | validation passes exactly when the children are valid, whatever the environment does meanwhile |
| Agreement.ReadyAtEachCall | internal/controllers/kode/check_resources.go:24-57 | whatever happens between the five checks and whichever calls fail, the answer is yes if and only if every check got through and found its part ready at its own call |
| Agreement.ReadyMeaning | internal/controllers/kode/check_resources.go:24-57 | in a quiet cluster, where there is one state to speak of, the answer is exactly whether the children are ready |
| Agreement.MadeAgrees | internal/controllers/kode/ensure_container_statefulset.go:82-199 | for freshly made children, a claim the user names existing or not and with any contents, validity holds unless storage is given empty, and readiness is left to replicas, binding and pods |
| Agreement.FreshChildrenAgree | internal/controllers/kode/ensure_container_pvc.go:141-158 | from nothing of the operator's own, while the environment and the EntryPoint controller act: detection asks for all parts, the apply succeeds or fails by unknown type or nil resources, and then validation passes if and only if storage is not given empty; a claim the user names may exist, with any contents |
| Agreement.RenamedTemplateNeverValidates | internal/controllers/kode/ensure_container_secret.go:72-85 | no apply makes a secret with the old template's labels pass validation |
| Agreement.ExistingSecretNeverSettles | internal/controllers/kode/ensure_container_secret.go:50-70 | an existing secret is never written and is stale after every apply if and only if its data are not exactly the credentials of the spec |
| Configurable.ConfigurableExactly | internal/controllers/kode/validate_resources.go:34-203 | with a secret of the operator's own, Configuring succeeds if and only if the type is known, a wanted claim has resources, the secret's labels are this template's, a stateful set that is not stale has one replica and the storage mount, and the claim has the class and modes asked for, or for empty storage exists with none |
| Configurable.EmptyStorageStaysConfiguring | internal/controllers/kode/handlers.go:118-121 | storage given but empty, without a claim: the Kode stays Configuring, all three conditions False, the error reported |
| Configurable.ApplyLeaves | internal/controllers/kode/configure_resources.go:36-74 | an apply leaves pods, foreign secrets and claims, ready replicas, binding, modes and class of a claim and labels of a secret as they were; a wanted claim that was reported has the size asked for |
| Configurable.SecretsUserRuns | internal/controllers/kode/ensure_container_secret.go:50-70 | with an existing secret an apply succeeds only with a username in it, leaves the secrets alone, and the stateful set it makes runs as that user |
| Fields.ReadyByFields | internal/controllers/kode/check_resources.go:122-329 | readiness on the objects' fields: secret with its keys, service port, replicas, own claim bound, some pod of the Kode and all of them running with their first Ready condition True |
| Fields.StaleByFields | internal/controllers/kode/configure_resources.go:116-339 | what detection reports, on the objects' fields and the spec's |
| Fields.ValidByFields | internal/controllers/kode/validate_resources.go:66-229 | what validation asks for, on the objects' fields: keys and labels of the secret, port and selector, replicas, image and mount, class, modes and size |
| Fields.DesiredByFields | internal/controllers/kode/ensure_container_statefulset.go:82-199 | one replica, the main container with image, environment (each name once, PASSWORD exactly with builtin auth and a password) and mount, then sidecars; init containers in order; the volume of the user's or the own claim; runtime class |
| Fields.MadeByFields | internal/controllers/kode/config.go:26-64 | freshly made children hold the user's credentials, or abc without a password, the labels, the template's port, and the claim asked for |
| Fields.StartedByFields | internal/controllers/kode/handlers.go:37-202 | so does a new Kode that has become Active |
| HashDetection.NewPluginIsDetected | internal/controllers/kode/ensure_container_statefulset.go:149-160 | with a digest free of collisions one more init plugin makes the running stateful set outdated |
| HashDetection.MovedClaimIsMissed | internal/controllers/kode/ensure_container_statefulset.go:312-338 | moving storage to another claim changes the volume and is not detected, whatever the digest |
| PodTemplateHash.OneChangeIsSeen | internal/controllers/kode/ensure_container_statefulset.go:312-338 | replacing one fed string anywhere keeps the bytes if and only if it is the same string |
| PodTemplateHash.OneMoreInitIsSeen | internal/controllers/kode/ensure_container_statefulset.go:149-157 | appending one named init container lengthens the bytes |
| PodTemplateHash.OnlyFedFieldsMatter | internal/controllers/kode/ensure_container_statefulset.go:312-338 | templates that agree on images, names, environments and volume names have the same bytes |
| PodTemplateHash.NotInjective | internal/controllers/kode/ensure_container_statefulset.go:316-325 | two different templates have the same bytes |
| Startup.StartupReachesActive | internal/controllers/kode/handlers.go:37-202 | with no failing call of the Kode controller, while the environment and the EntryPoint controller act, a new Kode is Pending, Configuring and Provisioning after reconciles 1, 2 and 3, and Active after 4 + k for k polls that found it not ready, with its children made; a claim the user names may exist, with any contents |
| Steady.SteadyForever | internal/controllers/kode/handlers.go:231-301 | in a quiet cluster one reconcile of a ready Active Kode settles stored status and children for every later run, transition times included |
| Steady.SteadyStays | internal/controllers/kode/handlers.go:271-301 | a steady reconcile changes nothing, yet stores the status again while a reason differs |
| Steady.SteadyRefresh | api/v1alpha2/condition.go:41-47 | when the statuses are right the refresh changes no condition, and asks for a write exactly when a reason differs |
| Steady.ProvisioningWaitsForReadiness | internal/controllers/kode/handlers.go:139-202 | in a quiet cluster a Provisioning Kode becomes Active if and only if its children are ready, and its three conditions and port say so |
| Updating.UpdatingGoesActiveExactly | internal/controllers/kode/handlers.go:304-397 | in a quiet cluster a reconcile of an Updating Kode stores Active if and only if detection succeeds and either nothing is stale, a condition on the children before the call, or what is stale is applied, is valid and is ready, which is the apply replayed on values; otherwise it stays Updating |
| Updating.ActiveWithoutReadyExactly | internal/controllers/kode/handlers.go:332-343 | it stores Active with children that are not ready if and only if detection succeeds, nothing is stale, and they are not ready before |
| Updating.UpdatingSkipsReadiness | internal/controllers/kode/handlers.go:332-343 | for one: with nothing stale, a stateful set that lacks ready replicas ends in Active with Ready True |
| Templates.CacheIsInvisible | internal/template/template.go:36-82 | with an unchanged store every sequence of fetches answers as uncached ones would, whichever reads fail |
| Templates.CacheKeyInjective | internal/template/template.go:76-82 | on kinds and namespaces without slash the key is injective |
| Templates.SlashInNamespaceCollides | internal/template/template.go:76-82 | without that pattern two references share a key |
| Templates.NotFoundNeverStopsRetries | internal/template/template.go:36-74 | no attempt ever ends in the error that would stop the retries |
| Templates.CacheHidesChanges | internal/template/template.go:36-74 | a cached template hides every later change of the store |
| Urls.VisibleExactly | internal/template/template.go:84-184 | a template is seen exactly if the reference has a name and names one: by namespace and name, or cluster-wide by name |
| Urls.AttemptExactly | internal/template/template.go:84-192 | an attempt succeeds exactly if the template's read gets through and, where it names an entry point, that read too; an entry point that is missing is no failure |
| Urls.FetchExactly | internal/template/template.go:36-74 | an uncached fetch succeeds if and only if the reference names a template and one of five attempts gets its reads through |
| Views.MatchingIsPermutation | internal/controllers/kode/validate_resources.go:215-229 | for required modes without duplicates the test holds if and only if actual is a permutation of required |
| Views.DuplicatesFool | internal/controllers/kode/validate_resources.go:215-229 | with duplicates it can hold for different multisets |
| Conditions.SetMeaning | api/v1alpha2/condition.go:31-51 | afterwards the type has the status, other types are untouched, and with the status already there nothing changes, reason and time included |
| Conditions.SetKeepsUnique | api/v1alpha2/condition.go:31-51 | no type is ever listed twice |
| Conditions.DeleteUndoesSet | api/v1alpha2/condition.go:62-70 | deleting after setting is deleting |
| Conditions.Delete | api/v1alpha2/condition.go:62-70 | the type is gone and every other type is found as before |
| Controller.RegisteredHandles | internal/controllers/kode/reconciler.go:132-140 | the registered map has a handler for every phase but the empty one, and it is the right one |
| EntryPointController.EpFinish | internal/controllers/entrypoint/reconciler.go:92-188 | a reconcile in flight always ends, within five calls |
| PodTemplateHash.CalculatePodTemplateHash | internal/controllers/kode/ensure_container_statefulset.go:312-338 | the loops feed the hasher exactly the bytes of containers, init containers and volumes |
| Templates.TemplateManager.FetchRef | internal/template/template.go:36-74 | the cached fetch with its retries is the specified fetch, cache included |
| Views.HasMatchingAccessModes | internal/controllers/kode/validate_resources.go:215-229 | the two loops compute equal length and membership of every required mode |
| Views.HasRequiredLabels | internal/controllers/kode/validate_resources.go:206-213 | the loop answers whether every required label is carried |
| Views.CheckPods | internal/controllers/kode/check_resources.go:280-318 | true exactly when a pod is listed and all listed pods run and are ready |
| Views.IsPodReady | internal/controllers/kode/check_resources.go:321-328 | the first condition of type Ready decides |
| Views.ImagesMismatch | internal/controllers/kode/configure_resources.go:218-234 | true exactly when some container has another image than the desired one at its index |
| Views.ServiceIsValid | internal/controllers/kode/validate_resources.go:93-121 | true exactly when the port is there and the selector carries the labels |
| Views.SetIsValid | internal/controllers/kode/validate_resources.go:123-165 | true exactly for one replica, the template's image and, with storage, the storage mount |
| Views.ClaimError | internal/controllers/kode/validate_resources.go:167-203 | the claim's first mismatch, a nil dereference when a class is wanted and the claim has none |
| Views.KodeIsValid | pkg/validation/kode.go:26-45 | a Kode is valid exactly when every init plugin has an image |
| Views.ConstructStatefulSetSpec | internal/controllers/kode/ensure_container_statefulset.go:82-199 | the constructed stateful set with its hash, or an error for an unknown type |
| Conditions.ConditionedStatus.SetCondition | api/v1alpha2/condition.go:31-51 | the loop over the slice is the specified update |
| Conditions.ConditionedStatus.GetCondition | api/v1alpha2/condition.go:53-60 | the loop finds the first condition of the type |
| Conditions.ConditionedStatus.DeleteCondition | api/v1alpha2/condition.go:62-70 | the loop keeps exactly the other types |
| Client.KodeObject.UpdateStatus | api/v1alpha2/kode_types.go:195-218 | the stored status becomes the copy's, a missing Kode is no error, and the copy is unchanged: the LastError reset never fires |
| Client.KodeObject.AddFinalizer | api/v1alpha2/kode_types.go:236-247 | the finalizer is put on the latest object |
| Client.KodeObject.RemoveFinalizer | api/v1alpha2/kode_types.go:249-260 | the finalizer is taken off the latest object, which is gone if it was being deleted |
| Client.KodeObject.SetConditions | internal/controllers/kode/handlers.go:55-57 | three conditions set one after the other |
| ChildResources.DetectSecret | internal/controllers/kode/configure_resources.go:116-153 | reports the secret exactly when it is missing or its data differ from the configured credentials, labels not compared; a failed read is an error |
| ChildResources.DetectService | internal/controllers/kode/configure_resources.go:155-196 | reports the service exactly when it is missing or its ports or selector differ |
| ChildResources.DetectSet | internal/controllers/kode/configure_resources.go:198-277 | reports the stateful set exactly when it is missing, an image or the hash differs, or a listed pod is outdated; outdated pods are deleted on the way |
| ChildResources.DeleteOutdatedPods | internal/controllers/kode/configure_resources.go:245-274 | the loop deletes outdated pods call by call, ignoring failures, and says whether there was one |
| ChildResources.DetectClaim | internal/controllers/kode/configure_resources.go:279-339 | reports a managed claim exactly when it is missing or size, access modes or a wanted class differ; without resources on an existing claim it dereferences nil |
| ChildResources.DetectChanges | internal/controllers/kode/configure_resources.go:76-114 | the set of reported parts, in the source's order of calls, ending at the first error; the claim is looked at only for storage that is not empty |
| ChildResources.EnsureSecret | internal/controllers/kode/ensure_container_secret.go:34-91 | writes the configured data and the owner reference, labels only on creation, or loads the credentials of an existing secret and writes nothing |
| ChildResources.EnsureService | internal/controllers/kode/ensure_container_service.go:34-68 | the service becomes the desired one, with the owner reference |
| ChildResources.EnsureStatefulSet | internal/controllers/kode/ensure_container_statefulset.go:40-80 | the spec becomes the desired one, with the owner reference, and the ready replicas stay; an unknown type fails before any call |
| ChildResources.EnsurePersistentVolumeClaim | internal/controllers/kode/ensure_container_pvc.go:37-139 | a missing claim is created, an existing one only resized, both with the owner reference; claims the user named and absent storage are left alone |
| ChildResources.ApplyConfiguration | internal/controllers/kode/configure_resources.go:36-74 | the reported parts are ensured in the order secret, service, stateful set, claim, up to the first failure |
| ChildResources.ValidateConfiguration | internal/controllers/kode/validate_resources.go:34-64 | the first part that is missing or invalid is the error |
| ChildResources.CheckResourcesReady | internal/controllers/kode/check_resources.go:24-57 | the loop over the checks stops at the first failure or not-ready answer |
| ChildResources.CheckResourcesDeleted | internal/controllers/kode/check_resources.go:59-119 | the loop over the keys stops at the first failure or existing child |
| ChildResources.GetResources | internal/controllers/kode/cleanup.go:34-67 | the delete list, with the claim only when the operator manages it |
| ChildResources.CleanupChildren | internal/cleanup/cleanup_manager.go:62-114 | the loop of deletes with its flag, up to the first failure, sparing claims exactly where keepVolume is true |
| Controller.HandleReconcileError | internal/controllers/kode/utils.go:97-113 | three conditions False, LastError and its time, one status write whose failure is ignored, phase Failed and the error itself; a nil dereference writes nothing |
| Controller.FetchTemplatesWithRetry | internal/controllers/kode/utils.go:35-95 | the template, with its runtime stored in the status at once, or the error with the copy as it is then |
| Controller.HandleGenerationMismatch | internal/controllers/kode/utils.go:156-182 | the generation is observed, the phase becomes Updating unless Deleting, in one write; it always asks to be called again |
| Controller.HandlePendingState | internal/controllers/kode/handlers.go:37-67 | performs exactly the calls, writes, results and failure exits that PendingExactly and PhasesChangeExactly are about |
| Controller.HandleConfiguringState | internal/controllers/kode/handlers.go:70-136 | performs exactly the calls, writes, results and failure exits that ConfiguringExactly and PhasesChangeExactly are about |
| Controller.HandleProvisioningState | internal/controllers/kode/handlers.go:139-202 | performs exactly the calls, writes, results and failure exits that ProvisioningExactly and PhasesChangeExactly are about |
| Controller.HandleActiveState | internal/controllers/kode/handlers.go:205-301 | performs exactly the calls, writes, results and failure exits that ActiveExactly and PhasesChangeExactly are about |
| Controller.HandleUpdatingState | internal/controllers/kode/handlers.go:304-397 | performs exactly the calls, writes, results and failure exits that UpdatingExactly and PhasesChangeExactly are about |
| Controller.HandleDeletingState | internal/controllers/kode/handlers.go:400-483 | performs exactly the calls, writes, results and failure exits that DeletingExactly, ReconcileWorks and DeletingKept are about |
| Controller.HandleFailedState | internal/controllers/kode/handlers.go:485-547 | performs exactly the calls, writes, results and failure exits that FailedExactly and PhasesChangeExactly are about |
| Controller.HandleUnknownState | internal/controllers/kode/handlers.go:550-626 | performs exactly the calls, writes, results and failure exits that UnknownExactly and PhasesChangeExactly are about |
| Controller.DetermineResourceState | internal/controllers/kode/handlers.go:629-661 | Pending without template, Updating on a generation mismatch, Configuring on a failed check, else Provisioning or Active by readiness |
| Controller.DetermineRecoveryPhase | internal/controllers/kode/handlers.go:664-698 | Pending without template or on a failed check, Provisioning when not ready, Configuring on a generation mismatch, else Pending |
| Controller.StateMachine.RegisterHandler | internal/statemachine/statemachine.go:44-46 | the handler map is updated at one phase |
| Controller.StateMachine.HandleState | internal/statemachine/statemachine.go:48-71 | a missing handler changes nothing; otherwise the handler runs and a new phase is stored when it did not fail |
| Controller.Reconcile | internal/controllers/kode/reconciler.go:72-151 | performs exactly the reconcile that ReconcileKeeps and the theorems of Runs are about: deletion gate, finalizer, generation gate, retry reset, dispatch |
| EntryPointController.EntryPointReconciler.ReconcileKode | internal/controllers/entrypoint/reconciler.go:92-188 | with everyone else acting before each call, the method does exactly the steps the invariants are proved for, and nothing for a Kode that is not Active |
| EntryPointController.EntryPointReconciler.EnsureHTTPRoutes | internal/controllers/entrypoint/ensure_routes.go:37-75 | route, policy where there is one, conditions and status write, with the call that failed |

## Left out

- Log messages, events, condition messages: a `Reason` stands for a reason together with the message every call site pairs it with.
- Clocks: transition times are the number of API calls made; `path.Join`, number formatting and SHA-256 are parameters.
- Client internals: conflicts and their retries, the informer cache, server-side defaulting; UpdateStatus (read and patch) is one atomic call, so an interleaving between the read and the patch, and a call that takes effect although it reports failure, are not modelled.
- CreateOrPatch and the reads inside it are one call; fetching the template with all its retries is one call that gets through or not (the retries and the cache are modelled in Templates).
- A Kode that is deleted and created again under the same name, and foreign edits of children.
- Several Kodes: one Kode and its namespace; child names other than its own are kept only for existing secrets and claims.
- Labels of stateful set, service and claim objects, the service name of the stateful set (never set by the source), ports, commands and probes of containers; environment variables with a reference as value have the empty value the hasher sees.
- `pkg/envoy`: the sidecar containers are part of the template.
- The EntryPoint object: security policy contents, gateway references, path matching (the route matches every path) and its own status; the entry point and template reads of reconcileKode are one call.
- The credentials object shared by pointer between spec and configuration: the configuration is a value that ensureSecret returns.
- QuietPhases: the reasons of conditions and the times of errors are in the model, but only the statuses are stated phase by phase.
- Machine integers: counters and ports are unbounded.
- Unused code: determineCurrentState, the reconciler's own HandleReconcileError, states.go of the EntryPoint controller, and its cleanup.
- The two fallbacks of the Unknown handler to Pending, which determineResourceState never triggers.
- Owner references: SetControllerReference on a child that another controller owns fails; no child is modelled with another controller. The references on route and security policy are the EntryPoint object's.
- Runs.NoOrphans: an edit that renames the children (existing secret, managed claim) is excluded; OnlyRenamedAreLeft says what can be left under any edits, and OrphansExactly what is left when nobody but the environment and the collector acts during the deletion.
- DeletionEnds.DeletionEndsExactly: no EntryPoint call, edit or failing call during the deletion. With EntryPoint calls: ServedDeletionEnds, IdleDeletionEndsExactly and, where there is no bound, RefusedWritesBlock. With any calls failing and any edits that keep the requirement: KeptVolumeBlocks, and MissedCleanupBlocks as long as no EntryPoint copy is in flight.
- StaleWrites.ServedDeletionEnds: a Kode held by a missed cleanup with an EntryPoint copy in flight is not decided before the copy is written; StaleWriteReopens says what holds once it is.
- Agreement.ReadyMeaning: with steps between the checks there is no single state to be ready in; ReadyAtEachCall covers every interleaving.
- Updating.UpdatingGoesActiveExactly: in a quiet cluster only; with interleavings PhasesChangeExactly holds of every run.
- Runs.UrlIsServed: an edit of the template reference, and edits of templates and entry points, are excluded, since an existing route is never updated.
- Startup.StartupReachesActive: nothing may be terminating at the start, so that the environment cannot remove a child just made. Nothing is said once Active is stored.
