# Verified model of the OSB provider's two controllers

provider-osb reconciles two Kubernetes kinds against a broker that speaks the
Open Service Broker API v2.17. This project models both state machines in Dafny
and proves properties of their whole runs.

* **ServiceBinding** — bind, asynchronous poll, renewal and rotation
  (`predecessor_binding_id`), unbind, the async-deletion finalizer.
* **ServiceInstance** — provision, update, asynchronous poll, drift comparison,
  deprovision, release.

## How the model is laid out

| file | content |
|---|---|
| `Results.dfy`, `JsonValues.dfy`, `OsbApi.dfy` | results, JSON and the library functions taken as parameters, the shared API and condition types |
| `Marshalling.dfy` | the map-marshalling loops of `util.go` |
| `BindingModel.dfy`, `InstanceModel.dfy` | the objects as values, requests and guards, and one outcome function per operation over (object in memory, object stored, broker log) |
| `ServiceBinding.dfy`, `ServiceInstance.dfy` | the classes: objects, broker and Kubernetes clients, `external` controllers, updated in place and proved against the outcome functions |
| `BindingRuns.dfy`, `BindingDeletion.dfy`, `BindingSteps.dfy`, `BindingHealth.dfy`, `BindingLifecycle.dfy`, `BindingRequests.dfy`, `BindingResults.dfy` | what holds of every run, of every reconcile and of several in a row of a binding |
| `InstanceRuns.dfy`, `InstanceConvergence.dfy`, `InstanceResults.dfy` | the same for an instance |
| `FailingBindingRuns.dfy`, `FailingInstanceRuns.dfy` | concrete runs that go wrong |

A run is any sequence of user edits, deletions and reconciles. What the outside
world answers during one reconcile is one record (`BindingAnswers`,
`InstanceAnswers`): the broker's answer to each kind of request (synchronous or
not, with or without an operation key, 404/410, another error, nil where the
code guards against nil), the UUID drawn, each clock reading, whether each API
server call succeeds, and an edit that lands just before a refetch. Lemmas
quantify over all such records, so the broker is adversarial. The broker log
holds every request with its answer; the run theorems judge it by folds over the
log alone (head of the rotation chain, last operation key, outstanding
asynchronous operation, what an echoing broker holds).

`GetLatestKubeObject` reads into the pointer it is given: `latest` and the
receiver are one heap object in the classes as well.

## Assumptions

* The driver's contract is the one stated at
  `hack/helpers/controller/KIND_LOWER/KIND_LOWER.go.tmpl:166-174`: observe; delete
  a deleted object that exists and release one that does not; otherwise create a
  missing one and update an outdated one. At the end of every reconcile that does
  not release the object it writes back status, conditions and the external-name
  annotation. Finalizers reach the store only by the code's own `kube.Update`,
  which writes metadata and spec and leaves the object in memory as it is.
* UUIDs are non-empty and never repeat (`BindingRuns.Fresh`).
* Encoded JSON decodes to what was encoded, nil and empty maps kept apart, and
  empty text is not JSON (`Codec.RoundTrips`); required only where stated.
* Status writes preserve the context value they are given.
* The broker client returns an error or a response. Nil responses are modelled
  where the code guards against them (Bind, Unbind, GetInstance).

## What turned out not to hold

The code is modelled as it is; each statement below is a theorem of the table,
and `FailingBindingRuns.dfy` and `FailingInstanceRuns.dfy` hold concrete runs for
the worst of them.

* The async-deletion finalizer is removed only by a poll answered 404/410. Once
  the last operation is reported as anything but in progress it stays, also when
  the driver releases the object (`FinalizerIsStuck`, `FinalizerRemovedIff`), and
  `FinalizerGetsStuckIff` says exactly which reconcile brings that about.
* A deleted binding's Unbind is sent again in every reconcile whose poll is
  answered, in progress included, if the refetch succeeds and the request builds
  (`AnsweredPollUnbindsAgain`); an instance's deprovision likewise, unless the poll
  says succeeded or bindings are active (`DeprovisionedTwiceIff`).
* Metadata with an empty `renew_before` hides parameter drift
  (`DriftReportedIff`).
* A warning that the binding expires is never taken off, not by a rotation nor by
  a later renewal date (`WarningsStay`).
* An asynchronous rotation of a binding whose plan or service ID is empty is
  accepted and can then not be polled for: the binding is stranded until its spec
  is edited (`RotationMovesOn`, `UnpollableIsStranded`).
* Ready does not mirror the polled state, of a binding or of an instance
  (`BindingSteps.AnsweredPollIsReady`, `InstanceRuns.AnsweredPollIsReady`).
* A deleted instance without a recorded key is released with no broker call, and
  one is deprovisioned only while its last operation is not reported succeeded
  (`KeylessDeletionSkipsBroker`, `DeprovisionNeedsKey`, `DeprovisionIff`).
* A deprovision accepted asynchronously with an empty operation key erases the
  recorded key: the next reconcile releases the object without a call while the
  broker is still deprovisioning (`AcceptedDeletionIsPolled`).
* Without a key an instance has no single flight: a provision accepted
  asynchronously is followed by a read, and by the same provision again when the
  broker does not show the instance yet (`ProvisionedTwiceIff`).
* A non-empty operation key ends all updates of an instance, and only an
  asynchronous answer with the empty key brings them back (`KeyEndsUpdates`,
  `KeyErasedIff`).
* The controller compares the context with the one it recorded, not with the
  broker's. After the instance ID is edited to one that is held already, with
  another context, the difference is never seen (`StaleContextRun`), and only then
  (`ContextIsRecorded`).
* Convergence fails exactly for parameters that are empty, unparseable, or `null`
  where the broker holds some, for another plan than the broker's, and for specs
  whose provision (nothing held yet) or needed update cannot be requested: an empty
  ID, or for an update an empty originating identity; and for a stale context
  (`ConvergenceIff`). With empty or unreachable `null` parameters an update is sent
  at every reconcile for ever whenever one can be requested (`UpdatesEndIff`).

Where comments and code disagree the code is followed:
`HandleRenewalBindings` is documented as rotating when the binding has expired
and rotates once the renewal date has passed; the switch in the binding's
`ObserveState` describes metadata without renewal data as falling through to the
comparison, which `RenewalData` skips; `handlePollError` is documented as also
removing a finalizer of the instance, and `ObserveState` as adding one, and they
do not; the instance's `ObserveState` is documented as polling by state and polls
by recorded key; `IsDeletable` is documented for the deleting state and tests for
succeeded.

## Model

| member | source | states |
|---|---|---|
| BindingRuns.RunsFollowProtocol | apis/binding/v1alpha1/servicebinding_methods.go:400-478 | in every run each broker call is one the earlier log allows: Bind, GetBinding, poll and Unbind carry the head of the rotation chain, a rotation names the head as predecessor and an unused successor, polls carry the last key handed out, nothing but polls and Unbind goes out while an asynchronous Bind or rotation is outstanding; the stored external name and key equal the log's folds |
| BindingRuns.ReconcileKeepsInv | internal/controller/servicebinding/servicebinding.go:190-225 | one reconcile, whatever the world answers, keeps that invariant through Observe, Create, Update and Delete |
| BindingRuns.BindRetriesKeepTheirId | apis/binding/v1alpha1/servicebinding_methods.go:647-655 | however often Bind fails, is asynchronous or is repeated after the broker lost the binding, all Binds between two accepted rotations ask for one ID |
| BindingRuns.RotationIdsAreNew | apis/binding/v1alpha1/servicebinding_methods.go:611-625 | no rotation of a run asks for an ID any earlier Bind or rotation asked for, accepted or not, nor for its predecessor's |
| BindingRuns.SingleFlight | apis/binding/v1alpha1/servicebinding_methods.go:406-414 | between an asynchronously accepted Bind or rotation and the next Bind, rotation or GetBinding some poll was answered with another state than in progress |
| BindingRuns.GetBindingKeeps | apis/binding/v1alpha1/servicebinding_methods.go:436-457 | whatever GetBinding answers, ID, finalizers, spec, store, log and the four last-operation fields survive it |
| BindingDeletion.FinalizerRemovedIff | apis/binding/v1alpha1/servicebinding_methods.go:310-322 | a stored finalizer is removed by a reconcile if and only if the object is deleted and in progress, its poll goes out and is answered 404/410, and the write succeeds; that poll is then the only call and the object is released |
| BindingDeletion.FinalizerAddedIff | apis/binding/v1alpha1/servicebinding_methods.go:532-540 | the finalizer is stored if and only if the reconcile's last call is an Unbind accepted asynchronously and the write succeeds |
| BindingDeletion.FinalizerIsJustified | apis/binding/v1alpha1/servicebinding_methods.go:518-543 | in every run a stored finalizer means the object is deleted and an asynchronous Unbind of its very binding was accepted |
| BindingDeletion.FinalizerRemovalIsConfirmed | apis/binding/v1alpha1/servicebinding_methods.go:346-363 | over every run, the poll that takes the finalizer off was answered 404/410 and names the binding ID, and with IDs unedited the instance, plan and service, of an asynchronously accepted Unbind |
| BindingDeletion.FinalizerIsStuck | apis/binding/v1alpha1/servicebinding_methods.go:365-372 | a deleted, settled binding keeps the finalizer through every run in which no Unbind is accepted asynchronously again |
| BindingDeletion.RemovableIff | apis/binding/v1alpha1/servicebinding_methods.go:310-322 | some further run without another asynchronously accepted Unbind takes the finalizer of a deleted binding off if and only if its last operation is in progress |
| BindingDeletion.FinalizerGetsStuckIff | apis/binding/v1alpha1/servicebinding_methods.go:365-372 | a reconcile that polls for a deleted binding leaves its finalizer in place for good (but for another asynchronous Unbind) if and only if the poll is answered with another state than in progress, the refetch succeeds and the Unbind sent then is not accepted asynchronously |
| FailingBindingRuns.FinalizerGetsStuckRun | apis/binding/v1alpha1/servicebinding_methods.go:365-372 | a concrete run from a fresh binding: bind, delete, unbind asynchronously, poll succeeded, then an Unbind answered 410; the finalizer can no longer come off and the object is released with it |
| BindingDeletion.ReleasedIff | internal/controller/servicebinding/servicebinding.go:202-206 | a deleted binding is released if and only if it never had an ID or the broker answers 404/410 about it (finalizer written off first) |
| BindingDeletion.ReleaseIsConfirmed | apis/binding/v1alpha1/servicebinding_methods.go:427-434 | over every run, unless no call was ever made, the releasing reconcile's only call names the head of the chain and is answered 404/410 |
| BindingDeletion.DeletedRuns | apis/binding/v1alpha1/servicebinding_methods.go:400-420 | through every further run a deleted binding keeps its ID and is never bound or rotated |
| BindingDeletion.AnsweredPollUnbindsAgain | internal/controller/servicebinding/servicebinding.go:297-319 | a reconcile of an in-progress binding sends an Unbind after its poll if and only if the poll goes out and is answered, with whatever state, the refetch succeeds and shows a deletion, and the Unbind request builds |
| BindingDeletion.AcceptedUnbindIsPolled | apis/binding/v1alpha1/servicebinding_methods.go:518-543 | every Unbind ends Ready=Deleting, and one accepted asynchronously is polled for by the next reconcile with the same binding, instance, plan and service and the right key |
| BindingDeletion.RunsKeepService | apis/binding/v1alpha1/servicebinding_methods.go:669-676 | with IDs unedited every call of every run names the same instance, plan and service and the controller's identity, and allows asynchronous work only when enabled |
| BindingSteps.StoredComparisonIsDirect | apis/binding/v1alpha1/servicebinding_methods.go:221-237 | comparing the refreshed serialized status with the spec is comparing the broker's parameters with the parsed spec, nil and empty maps apart |
| BindingSteps.ResponseDataRoundTrips | apis/binding/v1alpha1/servicebinding_methods.go:179-209 | what a response writes into the status can be read back from it in full, and the last-operation fields are untouched |
| BindingSteps.ObserveComparesDirectly | apis/binding/v1alpha1/servicebinding_methods.go:466-477 | on the comparison path Observe succeeds if and only if the spec parses to the broker's parameters |
| BindingSteps.EchoedBindHasNoDrift | apis/binding/v1alpha1/servicebinding_methods.go:832-848 | a broker that gives back the Bind request's parameters is observed as up to date with the spec they came from |
| BindingSteps.DriftReportedIff | apis/binding/v1alpha1/servicebinding_methods.go:452-475 | drift is reported if and only if the spec parses to other parameters and no renewal is due by metadata and clocks; with an empty renewal date the binding is up to date whatever the parameters |
| BindingSteps.RotationIsJustified | internal/controller/servicebinding/servicebinding.go:274-292 | a reconcile rotates if and only if the binding is live and settled, rotation is enabled, this reconcile's GetBinding shows a renewal date strictly past and a readable expiry, and the request builds |
| BindingHealth.ExpiryIsTotal | apis/binding/v1alpha1/servicebinding_methods.go:935-972 | for any metadata and clocks, each verdict of the renewal check and the one warning it may write are decided by the two dates, the two clock readings and whether rotation is on |
| BindingHealth.ExpiryOnlyAdvances | apis/binding/v1alpha1/servicebinding_methods.go:804-825 | with rotation off, as clocks advance what metadata makes the controller report only moves from none to expiring soon to expired, in whichever order the dates lie |
| BindingHealth.HealthStep | apis/binding/v1alpha1/servicebinding_methods.go:804-825 | a reconcile stores exactly the warning the metadata of this reconcile's GetBinding calls for, and without one leaves the stored warning alone |
| BindingHealth.WarningsStay | apis/binding/v1alpha1/servicebinding_methods.go:951-971 | no run takes a stored warning off again, and it stays unchanged, date included, through every run in which no renewal is due |
| BindingHealth.StoredExpiryOnlyAdvances | apis/binding/v1alpha1/servicebinding_methods.go:951-971 | over every run that starts without a warning, rotation off, metadata unchanged and clocks not running backwards, the stored warning only moves from none to expiring soon to expired |
| BindingSteps.ObserveIsIdempotent | apis/binding/v1alpha1/servicebinding_methods.go:416-478 | observing a settled binding again, same answer and same side of both dates, gives the same result and the same object and never touches the last operation |
| BindingSteps.UpToDateIsFixpoint | internal/controller/servicebinding/servicebinding.go:212-221 | after an up-to-date reconcile a second one only reads the binding and leaves the stored object as it is |
| BindingSteps.InProgressOnlyPolls | apis/binding/v1alpha1/servicebinding_methods.go:407-414 | while a live binding is in progress the whole reconcile sends at most its poll |
| BindingSteps.InProgressIsPollable | apis/binding/v1alpha1/servicebinding_methods.go:766-800 | in every run an in-progress binding's poll request builds if and only if identity and the spec's IDs are filled in, and names the chain head and last key |
| BindingSteps.UnpollableIsStranded | apis/binding/v1alpha1/servicebinding_methods.go:346-352 | an in-progress binding whose poll request does not build stays exactly as it is, with no call made, through any number of reconciles |
| FailingBindingRuns.RotationStrandsRun | apis/binding/v1alpha1/servicebinding_methods.go:259-288 | a concrete run from a fresh binding: bind, an edit emptying the plan ID, an accepted asynchronous rotation; no reconcile changes anything from there on |
| BindingSteps.AnsweredPollIsReady | internal/controller/util/util.go:240-256 | an answered poll of a live binding records state and description and ends Ready=Available, whatever the state |
| BindingLifecycle.AsyncBindCompletes | apis/binding/v1alpha1/servicebinding_methods.go:882-890 | after an asynchronously accepted Bind, first or repeated, any number of edits and of polls that fail or report in progress, a poll reporting anything else and a GetBinding giving back what was bound lead to up to date with the credentials; every call after the Bind names its ID, which is the object's or a new one, and every poll its key |
| BindingLifecycle.AsyncRotationCompletes | apis/binding/v1alpha1/servicebinding_methods.go:629-640 | after an asynchronously accepted rotation of a binding with a filled-in spec, the same wait and a GetBinding giving back the spec's parameters lead to up to date with the successor's credentials; every poll and the read name the successor |
| BindingLifecycle.WaitingPolls | apis/binding/v1alpha1/servicebinding_methods.go:406-414 | while polls fail or report in progress an asynchronously bound object stays in progress under its ID and every call is a poll for that ID with the key handed out |
| BindingLifecycle.RotationMovesOn | apis/binding/v1alpha1/servicebinding_methods.go:624-640 | after an accepted rotation the very next reconcile reads the successor (synchronous), or polls for it with the right key and a reset description and poll time (asynchronous) if and only if the spec's IDs are filled in; if not, no reconcile does anything until the spec is edited |
| BindingLifecycle.BindRetriesAreIdentical | apis/binding/v1alpha1/servicebinding_methods.go:657-682 | over every run with the spec unedited all Binds between two accepted rotations are the same request, carrying the spec's IDs, application, route, context and parsed parameters |
| BindingResults.SynchronousBindIsRecorded | internal/controller/servicebinding/servicebinding.go:229-268 | a synchronous Bind hands out exactly its credentials, each encoded, and the status reads back as its endpoints, volume mounts, both URLs and metadata, field by field, beside the parameters already there, if these parse and everything encodes; if not, the error says which and nothing is recorded |
| BindingResults.OtherBindIsHandedOn | internal/controller/servicebinding/servicebinding.go:236-247 | any other Bind leaves what it left, its error handed on or, asynchronous, nothing handed out |
| BindingRequests.BindIsGuarded | apis/binding/v1alpha1/servicebinding_methods.go:485-505 | Bind does nothing unless parameters parse and identity and spec IDs are filled in, the first empty one named; otherwise it sends the whole spec under the ID it had or a new one, which it keeps, and a refusal or nil is an error |
| BindingRequests.RequestsAreGuarded | apis/binding/v1alpha1/servicebinding_methods.go:728-800 | GetBinding, rotation, poll and Unbind are built exactly when the parts each needs are non-empty, with every field from its place in the object, and the first empty part is named |
| BindingResults.RefusedReadChangesNothing | apis/binding/v1alpha1/servicebinding_methods.go:427-434 | a GetBinding refused with 404/410 says the binding does not exist; refused otherwise Observe is that error, and the whole reconcile only logs the call |
| BindingResults.ReadDecides | apis/binding/v1alpha1/servicebinding_methods.go:436-477 | every outcome of an answered GetBinding: rotation due, up to date with exactly this answer's credentials, or the error saying what cannot be encoded, parsed or compared |
| BindingResults.AnsweredReadIsStored | apis/binding/v1alpha1/servicebinding_methods.go:131-209 | after any reconcile with a storable GetBinding answer the stored status reads back as that answer, field by field |
| BindingResults.FailedPollChangesNothing | apis/binding/v1alpha1/servicebinding_methods.go:346-363 | a poll refused (but for 404/410 of a deleted binding) or not refetched is an error, and the whole reconcile only logs the call |
| BindingResults.AnsweredPollIsRecorded | internal/controller/util/util.go:230-256 | an answered, refetched poll leaves the refetched object with the state and description polled and the readiness the state stands for |
| BindingResults.GonePollDecides | apis/binding/v1alpha1/servicebinding_methods.go:310-322 | 404/410 to the poll of a deleted binding says it does not exist, unless the finalizer cannot be written off, which changes nothing |
| BindingResults.RotationAnswers | apis/binding/v1alpha1/servicebinding_methods.go:611-640 | a rotation in full: refused it changes nothing; accepted it renames, and hands out nothing yet (asynchronous, operation recorded) or exactly the successor's credentials, each encoded, or an error when one does not encode |
| BindingResults.UnbindAnswers | apis/binding/v1alpha1/servicebinding_methods.go:518-543 | an Unbind in full, under Ready=Deleting: refusal and nil are errors and change nothing else, as does a synchronous answer; an asynchronous one records operation, key and finalizer, and fails only if the finalizer cannot be written |
| BindingController.ServiceBinding.ObserveState | apis/binding/v1alpha1/servicebinding_methods.go:400-478 | in place, on object, store and log: exactly the observation the run theorems are about |
| BindingController.ServiceBinding.HandleLastOperationInProgress | apis/binding/v1alpha1/servicebinding_methods.go:346-373 | in place, through the refetch into the receiver: exactly the poll the finalizer and polling theorems are about |
| BindingController.ServiceBinding.HandlePollError | apis/binding/v1alpha1/servicebinding_methods.go:310-322 | handled exactly for a gone resource on a deleted object; unhandled errors change nothing |
| BindingController.ServiceBinding.Bind | apis/binding/v1alpha1/servicebinding_methods.go:485-505 | in place: exactly the bind the protocol theorems are about, keeping an existing ID |
| BindingController.ServiceBinding.HandleBindRequest | apis/binding/v1alpha1/servicebinding_methods.go:868-890 | one call is logged; an error-free synchronous answer is never nil; an asynchronous one marks the object in progress |
| BindingController.ServiceBinding.EnsureBindingUUID | apis/binding/v1alpha1/servicebinding_methods.go:648-655 | an existing external name is never replaced |
| BindingController.ServiceBinding.TriggerRotation | apis/binding/v1alpha1/servicebinding_methods.go:611-640 | in place: exactly the rotation the chain theorems are about; the name moves only on an accepted request |
| BindingController.ServiceBinding.UnBind | apis/binding/v1alpha1/servicebinding_methods.go:562-575 | in place: exactly the unbind the finalizer theorems are about |
| BindingController.ServiceBinding.SetResponseDataInStatus | apis/binding/v1alpha1/servicebinding_methods.go:179-209 | all fields are stored or, when one cannot be encoded, none |
| BindingController.ServiceBinding.HandleRenewalBindings | apis/binding/v1alpha1/servicebinding_methods.go:935-972 | in place: exactly the renewal verdict and condition the expiry and rotation theorems are about |
| BindingController.ServiceBinding.HandleFinalizer | internal/controller/util/util.go:405-411 | the object is written exactly when its finalizers change |
| BindingController.ServiceBinding.HandleAsyncStatus | internal/controller/util/util.go:272-280 | a missing key keeps the recorded one; the state becomes in progress |
| BindingController.ServiceBinding.ExtractCredentials | apis/binding/v1alpha1/servicebinding_methods.go:578-588 | in any iteration order: all entries encoded, or nothing |
| BindingController.BindingKube.Get | internal/controller/util/util.go:217-223 | a refetch overwrites the very object it is given with the stored one |
| BindingController.BindingExternal.Observe | internal/controller/servicebinding/servicebinding.go:190-225 | in place: the action as existence and up-to-date verdict |
| BindingController.BindingExternal.Create | internal/controller/servicebinding/servicebinding.go:229-268 | in place: bind, then the status from the response, never from a nil one |
| BindingController.BindingExternal.Delete | internal/controller/servicebinding/servicebinding.go:297-319 | in place: the deleting condition, then unbind |
| BindingController.BindingExternal.Reconcile | hack/helpers/controller/KIND_LOWER/KIND_LOWER.go.tmpl:166-174 | the driver's whole reconcile over store and broker is the step every run is made of |
| Marshalling.MarshalMapValues | internal/controller/util/util.go:284-294 | in any iteration order: exactly the input's keys with each value encoded, or nothing when some value cannot be |
| Marshalling.GetCredsFromResponse | internal/controller/util/util.go:299-311 | agrees with the other two loops on every map and order; nil counts as empty |
| Marshalling.MarshalBindingCredentials | internal/controller/util/util.go:413-424 | nil credentials stay nil, others are all encoded or an error |
| InstanceRuns.RunsFollowProtocol | apis/instance/v1alpha1/serviceinstance_methods.go:634-682 | in every run the recorded key is the last one handed out and alone routes the calls: with a key a poll carrying it, then provision only after 404/410 and deprovision only after an answer; without one a read, then provision only after 404/410 and update only for an answered instance |
| InstanceRuns.KeyEndsUpdates | apis/instance/v1alpha1/serviceinstance_methods.go:640-648 | once a non-empty key was handed out, and until an answer carries the empty key, no run reads or updates the instance again, and none provisions it but directly after a poll answered 404/410 |
| InstanceRuns.KeyErasedIff | apis/instance/v1alpha1/serviceinstance_methods.go:386-391 | a reconcile erases a recorded key if and only if it provisions or deprovisions, by the exact guards for that, and the answer is asynchronous with the empty key |
| InstanceRuns.ProvisionIff | internal/controller/serviceinstance/serviceinstance.go:197-211 | a reconcile provisions if and only if the instance is live, its first call (a poll with a key, a read without) is answered 404/410 and the request builds; these are then its two calls |
| InstanceRuns.ProvisionedTwiceIff | apis/instance/v1alpha1/serviceinstance_methods.go:547-575 | after an asynchronously accepted provision the next reconcile polls if a non-empty key is recorded and else just reads; it sends the same provision again if and only if that call is answered 404/410 |
| FailingInstanceRuns.ProvisionsTwiceRun | apis/instance/v1alpha1/serviceinstance_methods.go:547-575 | a concrete run from a fresh instance whose two reconciles send one provision request twice, the first one accepted |
| InstanceRuns.DeprovisionNeedsKey | apis/instance/v1alpha1/serviceinstance_methods.go:439-476 | every deprovision of every run directly follows an answered poll carrying a non-empty key handed out earlier |
| InstanceRuns.DeprovisionIff | internal/controller/serviceinstance/serviceinstance.go:230-244 | a reconcile deprovisions if and only if its poll is answered, the refetched object is deleted, has no active bindings and is not reported succeeded, the status is written and the request builds; the poll and the deprovision of the refetched spec are then its two calls |
| InstanceRuns.ReleasedIff | apis/instance/v1alpha1/serviceinstance_methods.go:479-504 | an instance with an ID is released if and only if it is deleted and has no key (its status written), or its poll is answered 404/410, or succeeded with no active bindings |
| InstanceRuns.KeylessDeletionSkipsBroker | apis/instance/v1alpha1/serviceinstance_methods.go:650-656 | over every run without a non-empty key a deleted instance with an ID is released with no broker call once its status is written |
| InstanceRuns.PollThroughAlias | apis/instance/v1alpha1/serviceinstance_methods.go:495-511 | after an answered poll and refetch the verdict is gone if and only if the refetched object is deleted, succeeded and unbound; otherwise the store is the refetched object but for state, description and conditions |
| InstanceRuns.AnsweredPollIsReady | internal/controller/util/util.go:240-256 | an answered poll of a live instance records the state and ends Ready=Available, whatever the state, with no other call |
| InstanceRuns.NeedToUpdateHasInstance | apis/instance/v1alpha1/serviceinstance_methods.go:171-192 | verdict NeedToUpdate comes with a non-nil answered instance, of a live object without a key |
| InstanceRuns.AcceptedDeletionIsPolled | apis/instance/v1alpha1/serviceinstance_methods.go:386-391 | an asynchronously accepted deprovision is recorded as deleting and the next reconcile polls, with its key or the one recorded before, if and only if the answer does not carry the empty key; with the empty key the next reconcile makes no call and, its status written, releases the object |
| InstanceRuns.DeprovisionedTwiceIff | apis/instance/v1alpha1/serviceinstance_methods.go:439-476 | after an asynchronously accepted deprovision the next reconcile deprovisions again, after only its poll, if and only if the key answered is not empty, the poll is answered with anything but succeeded, refetch and status write succeed, no bindings are active and the request builds |
| FailingInstanceRuns.ReleasedWhileDeprovisioningRun | apis/instance/v1alpha1/serviceinstance_methods.go:650-656 | a concrete run from a fresh instance: provision with a key, delete, deprovision accepted with the empty key; the next reconcile releases it without a call |
| InstanceRuns.AnswerIsStored | apis/instance/v1alpha1/serviceinstance_methods.go:590-598 | an answered provision or update is in the store when the reconcile ends (context, dashboard, state, Ready), whether or not the code's own status write succeeded |
| InstanceResults.RequestsAreGuarded | apis/instance/v1alpha1/serviceinstance_methods.go:193-288 | all five requests are built exactly when the parts each needs are non-empty (and parameters parse), with every field from its place, updates and provisions with context and parameters; the first empty part is named |
| InstanceResults.ReconcileCarriesSpec | apis/instance/v1alpha1/serviceinstance_methods.go:240-288 | every provision or update a reconcile sends carries the context and the parsed parameters of the stored spec |
| InstanceResults.RefusedReadChangesNothing | apis/instance/v1alpha1/serviceinstance_methods.go:659-672 | a GetInstance refused with 404/410 says the instance does not exist; refused otherwise Observe is that error, and the whole reconcile only logs the call |
| InstanceResults.ReadDecides | internal/controller/serviceinstance/serviceinstance.go:166-195 | every outcome of an answered GetInstance, by plan, parameters and recorded context: unparseable, to be updated with its dashboard URL, or up to date |
| InstanceResults.IdleReadEnds | internal/controller/serviceinstance/serviceinstance.go:178-183 | where no update is called for the whole reconcile makes only the read and ends Ready=Available, or unchanged if the spec does not parse |
| InstanceResults.FailedPollChangesNothing | apis/instance/v1alpha1/serviceinstance_methods.go:479-498 | a poll refused with 404/410 says the instance does not exist; refused otherwise or not refetched it is an error, and the whole reconcile only logs the call |
| InstanceResults.PolledReadiness | internal/controller/util/util.go:230-256 | when the status write after a poll fails the object stored is the refetched one with the state and description polled and the readiness that state stands for |
| InstanceResults.ActiveBindingsBlock | apis/instance/v1alpha1/serviceinstance_methods.go:439-452 | active bindings, recorded before or by an edit just before the refetch, keep a polled instance from being deprovisioned and from being released |
| InstanceResults.UnwrittenDeletionChangesNothing | apis/instance/v1alpha1/serviceinstance_methods.go:650-656 | a deleted instance without a key is released if its status is written and else stays as it is |
| InstanceResults.ProvisionAnswers | apis/instance/v1alpha1/serviceinstance_methods.go:547-575 | a provision in full: failed guards change nothing, a refusal only the log, an answer is recorded (context, URL, state, key, readiness) in memory and, if it can be written, in the store |
| InstanceResults.UpdateAnswers | apis/instance/v1alpha1/serviceinstance_methods.go:577-599 | the same of an update |
| InstanceResults.DeprovisionAnswers | apis/instance/v1alpha1/serviceinstance_methods.go:439-476 | a deprovision in full, under Ready=Deleting: nothing without an ID, refused with active bindings, done on 404/410 or synchronously, recorded as deleting with its key when asynchronous |
| InstanceResults.DeprovisionEndsDeleting | internal/controller/serviceinstance/serviceinstance.go:230-244 | a reconcile that deprovisions keeps the instance and ends Ready=Deleting, whatever the answer |
| InstanceRuns.RunsKeepService | apis/instance/v1alpha1/serviceinstance_methods.go:220-228 | with IDs unedited every call of every run names the same instance, plan, service, organization and space, and allows asynchronous work only when enabled |
| InstanceConvergence.ConvergenceIff | apis/instance/v1alpha1/serviceinstance_methods.go:152-192 | after any history of edits and reconciles against a synchronous broker that echoes what it holds per instance ID, reconciling after the last edit ends with plan, context and parameters held, recorded and asked for agreeing if and only if the edited parameters are non-empty and parse and either nothing is held and the spec's five IDs are filled in, or the plan agrees, `null` need not erase held parameters, and an update called for can be requested, one not called for hides no stale context; then at most one update was sent |
| InstanceConvergence.ContextIsRecorded | apis/instance/v1alpha1/serviceinstance_methods.go:325-340 | over every run against the echoing broker with the instance ID unedited, the context held is the recorded one |
| InstanceConvergence.SettledOnlyReads | internal/controller/serviceinstance/serviceinstance.go:178-183 | from then on every reconcile only reads the instance and finds nothing to do |
| InstanceConvergence.UpdatesEndIff | apis/instance/v1alpha1/serviceinstance_methods.go:240-288 | after the last edit every reconcile (but a first one that provisions) sends an update for ever if the update request builds and parameters are empty or an unreachable `null`; otherwise at most one update is sent, by the first reconcile |
| FailingInstanceRuns.EmptyParametersNeverSettle | apis/instance/v1alpha1/serviceinstance_methods.go:152-155 | a fresh instance with empty parameters gets an update from every reconcile but the first |
| FailingInstanceRuns.EmptyServiceIdNeverConverges | apis/instance/v1alpha1/serviceinstance_methods.go:193-213 | a fresh instance without a service ID never converges |
| FailingInstanceRuns.StaleContextRun | apis/instance/v1alpha1/serviceinstance_methods.go:186-189 | a concrete run from a fresh instance, provisioned, edited to another ID and namespace, provisioned, and edited back: the broker holds the first namespace and the controller finds nothing to do |
| InstanceConvergence.EchoReconcile | apis/instance/v1alpha1/serviceinstance_methods.go:547-599 | one reconcile against the echoing broker, for any spec, provisions, updates or changes nothing exactly as comparison and request guards call for, in what is held, the recorded context and the count of updates |
| OsbApi.ContextToMapTellsApart | apis/common/common_types.go:97-111 | the JSON members of a context tell any two contexts apart, but for nil and empty annotation maps |
| InstanceConvergence.ContextIsNeverEmpty | apis/common/common_types.go:153-163 | a context always has JSON members, so the empty-context guard of provisioning never fires |
| InstanceController.ServiceInstance.HandleLastOperationInProgress | apis/instance/v1alpha1/serviceinstance_methods.go:479-512 | in place, with `latest` an alias of the receiver: exactly the poll the alias and release theorems are about |
| InstanceController.ServiceInstance.ObserveState | apis/instance/v1alpha1/serviceinstance_methods.go:634-682 | in place: exactly the observation the run theorems are about |
| InstanceController.ServiceInstance.Provision | apis/instance/v1alpha1/serviceinstance_methods.go:547-575 | in place: exactly the provision the convergence theorems are about |
| InstanceController.ServiceInstance.Update | apis/instance/v1alpha1/serviceinstance_methods.go:577-599 | in place: exactly the update the convergence theorems are about |
| InstanceController.ServiceInstance.Deprovision | apis/instance/v1alpha1/serviceinstance_methods.go:439-476 | in place: exactly the deprovision the deletion theorems are about |
| InstanceController.ServiceInstance.UpdateStatusFromOSB | apis/instance/v1alpha1/serviceinstance_methods.go:325-340 | the context is recorded; a missing key keeps the recorded one |
| InstanceController.ServiceInstance.UpdateStatusForAsyncDeletion | apis/instance/v1alpha1/serviceinstance_methods.go:386-391 | the state becomes deleting; a missing key keeps the recorded one |
| InstanceController.InstanceExternal.Observe | internal/controller/serviceinstance/serviceinstance.go:158-195 | in place: the action as verdict; the dereferenced response is never nil |
| InstanceController.InstanceExternal.Reconcile | hack/helpers/controller/KIND_LOWER/KIND_LOWER.go.tmpl:166-174 | the driver's whole reconcile over store and broker is the step every run is made of |

## Left out

- Controller setup, connectors, provider-config resolution, credential extraction, client construction, metrics, logging: plumbing over libraries.
- JSON, base64, time parsing and formatting, UUID generation: library code, parameters of the model.
- API-server effects not visible in the sources: resource versions, the response of `kube.Update` overwriting the object in memory, which annotations the driver writes, merging of a refetch into an object.
- Reconciles of one object do not interleave; the only concurrency is an edit before a refetch.
- Edits by hand of the external-name annotation, the finalizers or a binding's status.
- Error texts and wrapping: a failure names the guard or call that stopped the operation.
- Fields of the instance status that no modelled code reads or writes; the service-broker `accepts_incomplete` of rotate and unbind, which is constant.
- Nil responses of GetBinding, both polls, rotate, provision, update and deprovision, which the code dereferences unguarded.
- Generated code, accessors, CRDs, mocks, scripts.
