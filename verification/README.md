# Compass Manager: a verified model of the reconcile protocol

Compass Manager watches Kyma resources. For every Kyma with the application-connector module it creates a
CompassManagerMapping, registers a runtime in the Compass Director, writes the runtime's id into the mapping,
configures the runtime agent in the client cluster, and when the Kyma goes away it deregisters the runtime and
releases the mapping. One `Reconcile` does at most one of these phases, and any of its calls can fail before
or after it took effect. This project models the reconciler, the clients below it and everything they talk to,
and proves what holds over whole runs.

## How the model is built

* `Worlds` is everything outside the process as one value (Kymas, kubeconfig secrets, mappings, Director
  runtimes, agent secrets, history), with the atomic steps that can change it: six of the environment,
  thirteen of the controller, and one that records a failed call. `Enabled` is when the protocol permits a
  step, `Apply` what the step does. A client cluster is configured only through a kubeconfig that the Kyma has,
  or has had in the run.
* `Protocol` has the inductive invariant over these steps, and `Runs` what it means for every log of steps:
  conservation of runtimes, deletion only after deregistration, the write-once id, Ready means configured.
* `PhaseMachine` is the abstract machine of phases, with its rank and its convergence.
* `Platform` is the world as an object. During every call to the control plane's API server the environment
  takes any number of steps, before every call to a client cluster others may change agent secrets, and every
  call may fail with or without having taken effect. The object keeps the log of all that happened, and
  `Valid` says that the log is a legal run; so every theorem of `Runs` holds of whatever the code below does.
  The `deeds` are the steps of the log outside the control plane. A method that does not list them under
  `modifies` makes none, and every other one says exactly which.
* `OAuth`, `AppErrors`, `Director`, `Retry`, `Registrator`, `Configurator`, `ControlPlane` and `Reconciler`
  are the source's own layers, as classes and methods with the source's branches. The preconditions that speak
  of the protocol (`Enabled`, `Permitted`, `ConfigureDue`, ...) are discharged at every call, up to
  `Reconcile`, which requires nothing but the wiring.
* The closures that `RetryOnError` is given are objects of class `Retry.Attempt`: the variables they capture,
  what one call does, and the record of the calls.
* `Rely` is the contract between the parties: what the environment may do to a Kyma's objects while it is
  being reconciled, and what a reconciliation may do to other Kymas (nothing).
* `Registration` is what a registration does to the world as a function of what becomes of its attempts.
* `Ledger` bounds what one reconciliation does to the Director's runtimes.
* `Operation` runs the reconciler: any keys, in any order, any number of times.
* `EventFilter` is which changes of a Kyma trigger a reconciliation.

`Outside.focus` names the Kyma being reconciled, and the ghost `base` is the world when its reconciliation began.

## Failed calls

Whether a call fails is settled when it is made, and a call that fails leaves an entry `CallFails` in the log
with the kind of the request. `Outside.luck` says for every moment of the run, before it begins, whether a call
made then can fail. It is an arbitrary constant, which the layers above never look at, and `Valid` demands that
the log has such entries only where `luck` permits them. So no code can cause an entry, and "without a failed
call" always means a part of the log without such an entry (`Runs.Smooth`). A failed call is

* a request to the control plane that is refused or gets no answer, with or without an effect, and an update of an
  object that somebody changed since it was read; "not found" in answer to a read or a delete is an answer, no
  failure;
* a request to the Director without the answer that the controller is after: an acknowledgement with a new UUID
  (the Director may have none left, which is an entry too), a confirmed deletion, an acceptable one-time token;
  and the building of a request's input that does not succeed;
* a request to the token endpoint without a token that is still valid when the clock is next read;
* a client that can not be built from the kubeconfig, and a read or a write in the client cluster that does not
  succeed, for instance because somebody created or deleted the secret between the two.

## Assumptions

* Reads see the latest committed objects, and one worker handles a key at a time. An update is refused when
  the stored object is no longer the one that was read.
* The mapping's status is a subresource (api/v1beta1/compassmanagermapping_types.go:19): a created mapping
  starts with an empty status, and status and object updates leave each other's part alone. Deleting an object
  that has finalizers only marks it, and it disappears with its last finalizer.
* A Kyma's kyma-name label equals its name (README.md:86, README.md:95), a Kyma name always carries the same
  labels, and the name is not used again while its mapping exists.
* Nobody else creates mappings, edits their labels or status, or adds or removes the cm-protection finalizer.
  Anybody may request a mapping's deletion and change other finalizers at any time.
* The Director uses an id once, changes runtimes only on requests of this client, and does not lie: it
  reports an id as created or deleted only if it was, and "not found" only if the tenant has no such
  runtime. Its answers may be lost, and every request to it may fail.
* Convergence is stated for a *steady* Kyma: the environment leaves the Kyma and its kubeconfig in place, and
  the Kyma has a global account. Everything else may still happen, and any call may fail.

## Where the code differs from what is written about it

* The Registrator interface asks RegisterInCompass to be idempotent (controllers/compassmanager_controller.go:72).
  It is not. `Registration.Registering` gives the world after a call for every way its attempts can go: each
  create arrives at the Director or not, and is acknowledged or not. The method is proved to lead there and
  nowhere else, and every such way is a run of the protocol. A successful call adds exactly one runtime if and
  only if no attempt before the first acknowledged one arrives (`Registration.OneRuntimeExactly`); a second
  successful call always adds another, even when nothing is lost (`Registration.SecondCallAddsAnother`,
  `Registrator.RegisterTwice`); a repeated call is harmless if and only if none of its creates arrives, and
  then it fails (`Registration.HarmlessExactly`). `Registration.FailingDeliveries` has the failing calls at a
  concrete reachable state.
* A Kyma without global account is "done, no requeue" without an error, because the error that
  controllers/compassmanager_controller.go:171 wraps is nil. If no call fails, the key of a Kyma that is there to
  stay is dropped without anything having been done for it if and only if the label is missing
  (`Operation.QuietExactly`; the branch itself is in `Reconciler.CompassManagerReconciler.ReconcileMapping`).
  `Operation.NeverMapped` has a world in which that happens although no call can fail.
* GetCompassRuntimeID is said to return errNotFound for a mapping without the id label
  (controllers/compassmanager_controller.go:607); it returns the empty string and no error.
* GetKubeconfig returns no bytes with any error, so controllers/compassmanager_controller.go:158-160 can not be
  reached: every such error is a requeue without an error.
* Do looks for an int64 error code (internal/graphql/client.go:69) where JSON yields a float64, and so wraps every
  error of a graceful call; DeleteRuntime still recognises "not found", because the wrapping hides nothing from
  errors.As. `AppErrors.NotFoundSurvives` says exactly when.
* The branch of UpsertCompassMapping that creates a mapping is dead: the mapping was read before and is
  protected.

## Model

| member | source | states |
|---|---|---|
| StatusCode.Decode | controllers/status/status.go:38-56 | each bit of the mask is set exactly by its part of the stored status, and there are no other bits |
| StatusCode.Number | controllers/status/status.go:38-56 | the accumulating code computes that mask |
| StatusCode.RoundTripExactly | controllers/status/status.go:23-56 | storing a mask and reading it back is the identity if and only if the mask is one of the consistent ones |
| StatusCode.RoundTripNormalises | controllers/status/status.go:23-56 | for every mask: the low bits survive, Failed beats Processing, everything else reads as Failed, never as Empty, and a second round trip changes nothing |
| StatusCode.WrittenStatusesRoundTrip | controllers/compassmanager_controller.go:185-202 | the five statuses that the reconciler writes survive storage |
| Protocol.StepKeepsInv | controllers/compassmanager_controller.go:126-325 | every step of environment or controller, in any order and with any outcome, keeps the invariant of the protocol |
| Protocol.ReachableStatesSatisfyInv | controllers/compassmanager_controller.go:126-325 | so the invariant holds in every state of every run |
| Protocol.CutTwice | controllers/compassmanager_controller.go:501-506 | cutting the protection finalizer leaves none to cut |
| Runs.RuntimesAreConserved | controllers/compassmanager_controller.go:264-290 | in every reachable state a Kyma's live runtimes are the one its mapping names plus a disjoint set of orphans; without orphans at most one; without a mapping only orphans; while the Kyma exists its named runtime is alive |
| Runs.FateIsLogged | controllers/registrator.go:34-51 | a runtime is orphaned only by a create that was never acknowledged or a returned id that no mapping was ever given |
| Runs.DismissedHasOnlyOrphans | controllers/compassmanager_controller.go:209-250 | once a mapping is gone or unprotected, no runtime of its Kyma is alive but orphans |
| Runs.DeregistrationIsPaired | controllers/compassmanager_controller.go:222-232 | every deregistration of an id for a tenant comes after a registration that returned this id for this tenant, and with the Kyma gone |
| Runs.RemovedOnlyAfterDeregistration | controllers/compassmanager_controller.go:209-250 | under any deletion requests and failures, a mapping disappears only if its id is empty or was successfully deregistered before, and then the runtime is deleted |
| Runs.IdIsWriteOnce | controllers/compassmanager_controller.go:536-605 | while a mapping exists its id label changes at most once, from the empty string |
| Runs.IdIsRegistered | internal/director/directorclient.go:88-95 | the id in a mapping is a UUID that a registration of this Kyma for its global account returned |
| Runs.ReadyMeansConfigured | controllers/compassmanager_controller.go:292-317 | when a mapping is Ready, the Kyma's last Configure call succeeded with the mapping's current id and the Kyma's global account, in a cluster whose kubeconfig the Kyma had, for a steady Kyma the one that it has from the beginning; the agent secret there then had exactly four keys, with these two and the connector URL and the token of the Director's last answer for that Kyma, which was accepted |
| Runs.OwnClusterIsConfigured | controllers/compassmanager_controller.go:150-206 | every write of an agent secret and every Configure call of a run goes through a kubeconfig that was the data of that Kyma's first kubeconfig secret before; for a steady Kyma it is that one from the beginning |
| Runs.StatusesAreConsistent | controllers/compassmanager_controller.go:183-206 | the decoded status is always one of six; Empty and Failed have no id, Registered has one, Configured holds exactly in state Ready |
| Runs.SecretIsLastWritten | controllers/configurator.go:75-85 | an agent secret that others leave alone is the initial one, and was never written, or it is exactly what the last write put |
| Runs.WriteIsFetched | controllers/configurator.go:41-65 | every write puts exactly four keys: under CONNECTOR_URL and TOKEN the URL and the token of the Director's last answer for that Kyma, accepted by suffix and length, and under RUNTIME_ID and TENANT the id and tenant that the request was for, which are the mapping's id and the Kyma's global account |
| Runs.AgentSecretsStayWhole | controllers/configurator.go:41-116 | over any run an agent secret that others leave alone is the initial one or exactly the four keys of the last fetch before its last write |
| Runs.DryRunStaysInside | controllers/dryrun.go:16-29 | a dry run never reaches the Director or a client cluster |
| Runs.SameStageSameMapping | controllers/compassmanager_controller.go:542-550 | in the same stage a dry and a real run have the same status and the same labels but for the id and the dry-run label |
| Runs.LabelsAreTheKymas | controllers/compassmanager_controller.go:536-605 | in every reachable state each label of a mapping is the Kyma's label of its own key, or empty where the Kyma has none; managed-by is always there, and the dry-run mark exactly in a dry run |
| Registration.OneRuntimeExactly | controllers/registrator.go:41-50 | for every way the attempts can go: a successful call adds exactly one runtime if and only if no attempt before the first acknowledged one arrives |
| Registration.SecondCallAddsAnother | controllers/registrator.go:34-51 | in every world and for all ways their attempts can go, two successful calls leave at least two more live runtimes, two of them with different returned ids |
| Registration.HarmlessExactly | controllers/registrator.go:34-51 | a repeated call leaves the Kyma's live runtimes as they were if and only if none of its creates arrives; and then it fails |
| Registration.EveryCallIsPossible | controllers/registrator.go:34-51 | whatever becomes of the attempts, the call is a run of the protocol that leads where the function says |
| Registration.RegistrationIsNotIdempotent | controllers/compassmanager_controller.go:72-73 | from every reachable state in which registration is due, two successful calls are a run that leaves at least two more live runtimes |
| Registration.FailingDeliveries | controllers/compassmanager_controller.go:72-73 | from a concrete initial state: one call with one lost answer, and two calls without a loss, each leave two runtimes |
| Registration.RegistrationComesDue | controllers/compassmanager_controller.go:196-198 | from every initial state of a real run with registration on, every existing or appearing Kyma comes to the moment where a registration is due |
| PhaseMachine.MoveChangesRank | controllers/compassmanager_controller.go:163-206 | a fault-free reconciliation lowers the rank by one until Ready, any other raises it by at most one |
| PhaseMachine.RunReachesReady | controllers/compassmanager_controller.go:163-206 | once fault-free reconciliations outnumber faulty ones by the rank of the start, at most 5, the run has been Ready |
| PhaseMachine.FaultFreeRunIsExact | controllers/compassmanager_controller.go:163-206 | a fault-free run is first Ready exactly when its rank is used up |
| PhaseMachine.ReadyIsRefreshed | controllers/compassmanager_controller.go:200-206 | two fault-free moves of the machine from Ready lead to Ready, with one Configure call and no registration among their calls |
| Rely.EnvironmentStep | controllers/compassmanager_controller.go:126-147 | what other parties may do while a Kyma is reconciled: no mapping appears, a protected one stays, labels and status stay |
| Rely.ControllerStep | controllers/compassmanager_controller.go:443-474 | a step for one Kyma leaves every other Kyma's mapping, runtimes and last call alone |
| Platform.Select | controllers/compassmanager_controller.go:443-464 | the label selector finds exactly the mapping of that name, in whatever order it lists |
| Platform.LabelsAreNames | controllers/compassmanager_controller.go:587-599 | in every reachable state a mapping's kyma-name label is its name |
| Platform.Outside.CreateObject | controllers/compassmanager_controller.go:597-604 | one create, refused when the object exists, with any outcome; an error is that, or one failed call |
| Platform.Outside.UpdateObject | controllers/compassmanager_controller.go:572-578 | one conflict-checked update: not done, or done to the object that was read; an error is one failed call, so without one nobody wrote the object in between |
| Platform.Outside.UpdateObjectStatus | controllers/compassmanager_controller.go:634 | the same for the status |
| Platform.Outside.DeleteObject | controllers/compassmanager_controller.go:492 | one deletion, only of an unprotected mapping whose Kyma is gone; an error is one failed call, or the object is gone already |
| AppErrors.AppError.Append | internal/apperrors/apperrors.go:100-105 | wrapping keeps code and cause |
| AppErrors.RewrapKeepsExtension | internal/graphql/client.go:62-78 | what Do does to an error hides nothing from errors.As |
| AppErrors.MapDirectorError | internal/director/directorclient.go:200-234 | each error code exactly for its codes of the Director, and each cause |
| AppErrors.NotFoundSurvives | internal/director/directorclient.go:189-195 | the "runtime not found" cause comes out of a call if and only if the call was graceful and the Director's code arrived as a float64 NotFound |
| OAuth.Wrap64 | internal/oauth/client.go:88 | int64 addition wraps, and from the range's lower end up never yields more than the true sum |
| OAuth.OAuthClient.GetAuthorizationToken | internal/oauth/client.go:42-91 | the computed expiration is no later than the issue time plus the granted lifetime (section 5.1 of RFC 6749); unless the call fails there is a token, still valid when the clock is next read |
| Director.Ask | internal/director/directorclient.go:189 | a request may be lost before or after its effect; the effect is at most one runtime more or less, or one token handed out, and the log has it; it fails exactly when there is no good answer |
| Director.DirectorClient.GetToken | internal/director/directorclient.go:163-175 | the cached token is replaced only by one that is neither empty nor expired, otherwise kept; and it is replaced unless the request to the token endpoint fails |
| Director.DirectorClient.EnsureToken | internal/director/directorclient.go:178-183 | a refresh happens only when the cached token is empty or expired; after success the token is non-empty and within its lifetime; only a failed request to the token endpoint is an error |
| Director.DirectorClient.Execute | internal/director/directorclient.go:177-198 | every request ever sent carried a non-empty token within its lifetime; a failed refresh sends nothing and changes nothing; without a good answer there is a failed call in the log, of the request or of what precedes it |
| Director.DirectorClient.CreateRuntime | internal/director/directorclient.go:57-96 | success if and only if the answer acknowledges with a UUID, which then names the runtime that this very call created |
| Director.DirectorClient.GetConnectionToken | internal/director/directorclient.go:119-135 | success if and only if the answer has a token, which is then the one that the Director handed out for this id and tenant; an error returns none and nothing is handed out |
| Director.DirectorClient.DeleteRuntime | internal/director/directorclient.go:137-161 | success if and only if the Director confirmed the deletion or has no such runtime; then the runtime is gone |
| Retry.RetryIsExact | internal/util/retry.go:10-21 | for every stream of outcomes: success if and only if one of the first count calls succeeds, no call after the first success, otherwise the last error after count calls |
| Retry.RetryOnError | internal/util/retry.go:10-21 | the loop makes exactly such a sequence of calls |
| Retry.Attempt.Create | controllers/registrator.go:41-44 | each attempt creates at most one runtime and succeeds exactly when the Director acknowledges it; the record says of each whether its create arrived and was acknowledged, and the captured id is that of the acknowledged one |
| Retry.Attempt.Delete | controllers/registrator.go:54-57 | an attempt succeeds exactly when its answer confirms; over all attempts the runtime is deleted at most once, and is gone after a success |
| Retry.Attempt.Fetch | controllers/configurator.go:98-101 | an attempt succeeds exactly when the answer has a token, and the captured token is that one |
| Registrator.CompassRegistrator.RegisterInCompass | controllers/registrator.go:34-51 | succeeds if and only if the Director acknowledges one of at most three attempts, none being made after it, and returns its id; a failure takes three; world and log are the function of what became of the attempts, and the logged call has the seven labels of the Kyma; every failed attempt has its failed call in the log, and as many requests went out as were answered |
| Registrator.RegisterTwice | controllers/compassmanager_controller.go:72-73 | two calls in a row leave two new live runtimes of the Kyma whenever both succeed, and without a failed call they do |
| Registrator.CompassRegistrator.DeregisterFromCompass | controllers/registrator.go:53-62 | succeeds if and only if one of the first three answers confirms a deletion or that there is no such runtime; then the runtime is gone, whichever answers were lost; it is deleted at most once and nothing else changes; as many requests went out as were answered, and an attempt without an answer is a failed refresh of the access token |
| Registrator.GoneIsDeleted | controllers/registrator.go:53-62 | not visible to its own tenant is the same as deleted |
| Configurator.RuntimeAgentConfigurator.FetchCompassToken | controllers/configurator.go:96-116 | a token is fetched if and only if one of at most three answers has one, and is what the Director handed out; it is accepted if and only if its connector URL has the expected suffix and it has at most 100 bytes |
| Configurator.RuntimeAgentConfigurator.UpsertSecret | controllers/configurator.go:59-86 | the agent secret is as others left it or replaced as a whole by exactly four keys, CONNECTOR_URL, RUNTIME_ID, TENANT and TOKEN, each with its own value; success means replaced; others may interfere between the read and the write; it fails only if the write does, or the read does and there is no secret to update |
| Configurator.RuntimeAgentConfigurator.ConfigureCompassRuntimeAgent | controllers/configurator.go:41-57 | whatever fails, the secret is as others left it or complete for this id and tenant with the token fetched in this call; success means complete; it fails only for an unusable kubeconfig, for want of an answered token, for a refused token, or when the client cluster fails to be read or written; the log has exactly these steps |
| Configurator.ConfigureIsIdempotent | controllers/compassmanager_controller.go:66-67 | whatever became of a first call, a second one that succeeds leaves what it would have left alone: the four keys of the token fetched last |
| Configurator.ConfigureTwice | controllers/compassmanager_controller.go:66-67 | the same of two calls of the code; without a failed call both succeed |
| Configurator.DryRunner.RegisterInCompass | controllers/dryrun.go:21-25 | succeeds with a UUID and changes nothing |
| Configurator.DryRunner.ConfigureCompassRuntimeAgent | controllers/dryrun.go:16-19 | succeeds and writes no secret |
| ControlPlane.CutFinalizer | controllers/compassmanager_controller.go:501-506 | the slice cut removes the first protection finalizer and nothing else |
| ControlPlane.CutAt | controllers/compassmanager_controller.go:501-506 | cutting at the first occurrence is what the recursive definition does |
| ControlPlane.ControlPlaneInterface.GetCompassMapping | controllers/compassmanager_controller.go:443-474 | the first item is the mapping of that name, and "not found" means there is none |
| ControlPlane.ControlPlaneInterface.GetKubeconfig | controllers/compassmanager_controller.go:511-534 | the bytes of the first of the Kyma's secrets or none; no bytes with any error; "not found" exactly when that secret lacks the key |
| ControlPlane.ControlPlaneInterface.GetCompassRuntimeID | controllers/compassmanager_controller.go:608-614 | the id label of the mapping, empty when it is missing |
| ControlPlane.ControlPlaneInterface.MakeLabels | controllers/compassmanager_controller.go:587-595 | the labels filled in one by one are the six of a mapping, each with the Kyma label of its own key or empty |
| ControlPlane.ControlPlaneInterface.CreateCompassMapping | controllers/compassmanager_controller.go:581-605 | on success a protected mapping without id and status exists; on failure that, or nothing |
| ControlPlane.ControlPlaneInterface.UpsertCompassMapping | controllers/compassmanager_controller.go:536-579 | on success the id is the label and its runtime is claimed, all else is as it was; on failure that, or nothing |
| ControlPlane.ControlPlaneInterface.SetCompassMappingStatus | controllers/compassmanager_controller.go:618-641 | on success the status is the encoded mask and labels, finalizers and runtimes are as they were; on failure that, or nothing |
| ControlPlane.ControlPlaneInterface.RemoveCMFinalizer | controllers/compassmanager_controller.go:495-509 | the mapping loses its protection or stays as it was; only a released mapping may lose it |
| ControlPlane.ControlPlaneInterface.DeleteCompassMapping | controllers/compassmanager_controller.go:476-493 | on success the mapping is gone, or unprotected and marked for deletion |
| Ledger.LedgerWithClaim | controllers/compassmanager_controller.go:267-289 | a registration whose id reached the mapping orphans only lost runtimes, at most three runtimes in all |
| Ledger.LedgerWithoutClaim | controllers/compassmanager_controller.go:269-286 | one whose id did not, or that failed, orphans what it created, at most three |
| Ledger.RegistrationIsHonest | controllers/compassmanager_controller.go:267 | the account of a registration agrees with the log, and it is one registration call |
| Reconciler.BitsTellStage | controllers/compassmanager_controller.go:183-203 | the bit tests on the decoded status tell the phase, and the cleared and set bits are the next one |
| Reconciler.MayFollow | controllers/compassmanager_controller.go:185-203 | each status write of Reconcile is one the protocol permits and one move of the phase machine |
| Reconciler.CreateCompassRuntimeLabels | controllers/compassmanager_controller.go:398-409 | exactly seven labels, each with the Kyma label it stands for |
| Reconciler.OnlyPendingCreates | controllers/compassmanager_controller.go:183-206 | a reconciliation from any phase but Pending creates no runtime and returns none |
| Reconciler.CompassManagerReconciler.MakeNewCompassMappingAndRequeue | controllers/compassmanager_controller.go:252-262 | one move of the phase machine, complete exactly when no error is returned |
| Reconciler.CompassManagerReconciler.SetStatusAndRequeue | controllers/compassmanager_controller.go:319-325 | a status write that the protocol permits is one move of the phase machine, complete exactly when no error is returned, and never the last one |
| Reconciler.CompassManagerReconciler.RegisterRuntimeInCompassAndRequeue | controllers/compassmanager_controller.go:264-290 | one move from Pending with one registration, complete exactly when no error is returned; if the registration failed the mapping is Failed, unless reading it or writing its status failed; only lost creates and, after a failure, the registered runtime are orphaned |
| Reconciler.CompassManagerReconciler.ConfigureRuntimeAndSetMappingStatus | controllers/compassmanager_controller.go:292-317 | one move from Registered; the steps that it adds to the log have exactly one Configure call, for the mapping's id and account, through the given kubeconfig and no other; if it failed the mapping is Registered and Failed, unless reading it or writing its status failed; no further run is asked for exactly when it ends in Ready |
| Reconciler.CompassManagerReconciler.DeregisterIfRegistered | controllers/compassmanager_controller.go:222-243 | without an error the mapping may be released: it has no id, or its runtime is deregistered; an error means a failed call or a missing account label; it is the Director's exactly when the deregistration was not confirmed |
| Reconciler.CompassManagerReconciler.HandleKymaDeletion | controllers/compassmanager_controller.go:209-250 | without an error the mapping is gone or only waits for others; an error means a failed call or a mapping that vanished meanwhile; no runtime is created or orphaned |
| Reconciler.CompassManagerReconciler.FollowStatus | controllers/compassmanager_controller.go:185-206 | one move of the phase machine; after it the next run is asked for after the interval, and none exactly when Ready was entered; only the cluster of the given kubeconfig is configured; failures are noted in the status |
| Reconciler.CompassManagerReconciler.ReconcileMapping | controllers/compassmanager_controller.go:163-206 | one move of the phase machine although the mapping is read twice; without a global account only the environment takes steps, and the key is done, without an error, if and only if no call failed |
| Reconciler.CompassManagerReconciler.ReconcileKyma | controllers/compassmanager_controller.go:149-206 | one move of the phase machine; the kubeconfig is the one the Kyma had when it was read, and only its cluster is configured; a missing, empty or unreadable one is answered by exactly "run again after the kubeconfig interval" without an error; an error means a failed call or a Kyma that went away |
| Reconciler.CompassManagerReconciler.ReconcileDeleted | controllers/compassmanager_controller.go:131-143 | done exactly when the deletion succeeded, so when the mapping is gone or only waits for others; run again after the interval, without an error, exactly when the Director did not confirm the deregistration; any other failure is an error |
| Reconciler.CompassManagerReconciler.Reconcile | controllers/compassmanager_controller.go:126-207 | from any state, with any interference and failures: other Kymas are untouched, an existing Kyma makes one move of the phase machine whose calls are the ones in the log, only clusters whose kubeconfig it had meanwhile are configured, failed registrations and configurations are noted, at most three runtimes are created and none without a registration call; the deletion is handled if the Kyma is absent throughout and no call fails; the answer is fixed: "done" only when Ready, without account, or deleted, otherwise after which interval or with an error, and an error for an existing Kyma means a failed call or that it went away |
| Operation.Launch | main.go:119-145 | from every initial world, whatever calls will fail, the wired parts satisfy what all the other members require |
| Operation.Turn | controllers/compassmanager_controller.go:126-207 | reconciling another Kyma does not change a steady Kyma's stage; its own reconciliation is a move whose calls are those of the log segment, faulty only with a failed call in the segment |
| Operation.Operate | controllers/compassmanager_controller.go:126-207 | amortised convergence of the code: whatever else is reconciled, a Kyma that is reconciled its rank plus twice the number of its faulty reconciliations has been Ready, and these are no more than the failed calls in the log |
| Operation.Drain | controllers/compassmanager_controller.go:126-325 | re-run for as long as it asks for it, a steady Kyma's key is dropped only when Ready, and without a failed call in the log after exactly the expected number of runs |
| Operation.Refresh | controllers/compassmanager_controller.go:200-206 | two reconciliations of a Ready Kyma without a failed call in the log lead to Ready again, and add to it exactly one Configure call, for this Kyma, no registration, and no step that creates or returns a runtime |
| Operation.DryRunMirrors | controllers/dryrun.go:16-29 | for every dry and every real run from the same stage without faulty reconciliations: after each reconciliation the mappings exist alike, with equal status and labels up to the id and the dry-run label, and the dry log has no step to the Director or a client cluster |
| Operation.Rehearse | controllers/compassmanager_controller.go:101-124 | the same of two managers, one dry and one real, whatever else they reconcile, as long as no call fails in either log |
| Operation.Retire | controllers/compassmanager_controller.go:209-250 | deletion converges: two reconciliations without a failed call in the log end with the mapping gone or only waiting for others, and no runtime left but orphans, unless the Kyma existed at some moment meanwhile |
| Operation.QuietExactly | controllers/compassmanager_controller.go:169-172 | without a failed call, the key of a Kyma that is there to stay is dropped with nothing done for it if and only if the Kyma has no global account |
| Operation.NeverMapped | controllers/compassmanager_controller.go:169-172 | a concrete Kyma without global account: no call can fail, and its key is dropped without an error and without a mapping |
| Operation.AwaitsKubeconfig | controllers/compassmanager_controller.go:150-156 | a Kyma that is there to stay and has no kubeconfig is answered by exactly the kubeconfig interval and no error, unless reading the Kyma failed |
| EventFilter.CreateFunc | controllers/compassmanager_controller.go:344-360 | accepts exactly Kymas with the module |
| EventFilter.GetModuleNames | controllers/compassmanager_controller.go:380-386 | the names in order |
| EventFilter.UpdateFunc | controllers/compassmanager_controller.go:362-378 | accepts exactly the appearance of the module |
| EventFilter.CountTriggers | controllers/compassmanager_controller.go:344-396 | over a whole life of a Kyma it is triggered once for every maximal block of versions with the module and once more by its deletion, with or without the module |
| EventFilter.CountAccepted | controllers/compassmanager_controller.go:344-386 | over a create event and any updates, the accepted events are as many as the maximal blocks of versions with the module |
| EventFilter.OneMoreVersion | controllers/compassmanager_controller.go:374-377 | a version adds a maximal block exactly when the module appears in it |

## Left out

- ControlPlane.ControlPlaneInterface.UpsertCompassMapping: is stated for a mapping that exists and is protected, because its only caller has just read it; the creating branch can then not be reached.
- ControlPlane.ControlPlaneInterface.SetCompassMappingStatus: is stated for the status changes of the protocol, because the reconciler makes no others.
- Reconciler.CompassManagerReconciler.SetStatusAndRequeue: is stated for the status writes that lead to a next phase, because Reconcile makes no others.
- Registrator.CompassRegistrator.RegisterInCompass: is stated for the seven labels of the Kyma, because its only caller hands it these.
- Operation.Operate: convergence needs the Kyma and its kubeconfig to stay, because without them Reconcile waits or deletes.
- OAuth.OAuthClient.GetAuthorizationToken: a wrapped int64 expiration is modelled, an overflow inside Go's time.Unix is not; the clock stays below the last second that an int64 can count.
- Configurator.DryRunner.RegisterInCompass: that a random UUID is new is not modelled; a dry run does not depend on it.
- Stale informer caches: a read that misses an earlier write could register a Kyma twice; the claims are for fresh reads.
- Resource versions: a stored object counts as changed when it differs from the one that was read.
- HTTP, TLS, JSON and the GraphQL text; kubeconfig parsing and client construction: each is an outcome.
- Text forms of a UUID other than the canonical one, which uuid.Parse accepts too.
- createRuntimeInput and the random suffix of a runtime's name: its error path needs labels that are not a map, and the name has no property here.
- Lengths of texts are lengths of byte strings.
- Logging, metrics, leader election, configuration, real durations and the work queue's back-off.
- GetRuntime, RefreshCompassToken and error presentation: nothing in the reconciler calls them.
