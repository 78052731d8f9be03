// What the broker's answers lead to, in full: the result each operation of a
// binding hands back, what it records, and that failures leave no trace.
module BindingResults {
  import opened Results
  import opened JsonValues
  import opened OsbApi
  import opened Marshalling
  import opened BindingModel
  import opened BindingDeletion
  import opened BindingSteps

  /******* Reading the binding *******/

  // Everything in the answer has a JSON text.
  predicate Storable(codec: Codec, resp: GetBindingResponse) {
    && codec.encodeParams(resp.parameters).Some?
    && codec.encodeValue(resp.endpoints).Some? && codec.encodeValue(resp.volumeMounts).Some?
    && (resp.credentials.Some? ==>
          forall k | k in resp.credentials.value :: codec.encodeValue(resp.credentials.value[k]).Some?)
  }

  predicate Reads(obj: BindingObject) {
    !obj.InProgress() && obj.externalName != "" && obj.spec.instanceId != ""
  }

  function ReadOf(obj: BindingObject, a: BindingAnswers): BindingEvent {
    GetSent(GetBindingRequest(obj.spec.instanceId, obj.externalName), a.get)
  }

  // A refused read says that the binding does not exist when it is answered 404 or
  // 410, and is an error otherwise; then the whole reconcile does nothing else.
  lemma RefusedReadChangesNothing(cfg: BindingConfig, w: BindingWorld, a: BindingAnswers)
    requires Reads(w.stored) && a.get.Refused?
    ensures var o, gone := ObserveOutcome(cfg, BindingState(w.stored, w.stored, w.log), a),
                           a.get.error == HttpError(404) || a.get.error == HttpError(410);
      && o.state == BindingState(w.stored, w.stored, w.log + [ReadOf(w.stored, a)])
      && o.result == (if gone then Ok(Observation(false, false, None)) else Err(BrokerFailed(a.get.error)))
      && (!gone ==> ReconcileOutcome(cfg, w, a) ==
                    Reconciled(BindingWorld(w.stored, w.log + [ReadOf(w.stored, a)]), false))
  {
  }

  // A binding that has an ID and no instance ID cannot be read, and stays as it is.
  lemma UnreadableChangesNothing(cfg: BindingConfig, w: BindingWorld, a: BindingAnswers)
    requires !w.stored.InProgress() && w.stored.externalName != "" && w.stored.spec.instanceId == ""
    ensures ObserveOutcome(cfg, BindingState(w.stored, w.stored, w.log), a).result == Err(EmptyInstanceId)
    ensures ReconcileOutcome(cfg, w, a) == Reconciled(w, false)
  {
  }

  // What an answered read comes to: an update when a rotation is due, up to date
  // with the credentials of this very answer when no renewal date is given or the
  // parameters are the spec's, and otherwise the error that says why not.
  lemma ReadDecides(cfg: BindingConfig, s: BindingState, a: BindingAnswers)
    requires cfg.codec.RoundTrips() && Reads(s.obj) && a.get.Answered?
    ensures var o, resp := ObserveOutcome(cfg, s, a), a.get.value;
      var wanted := cfg.codec.decodeParams(s.obj.spec.parameters);
      && o.state.log == s.log + [ReadOf(s.obj, a)] && o.state.stored == s.stored
      && (if !Storable(cfg.codec, resp) then o.result == Err(CannotEncode)
          else if cfg.rotateBinding && RenewalPassed(cfg.codec, resp.metadata, a) then
            o.result == Ok(Observation(true, false, None))
          else if NoRenewalDate(resp.metadata) ||
                  (NoRenewalDue(cfg, resp.metadata, a) && wanted == Some(resp.parameters)) then
            && o.result.Ok? && o.result.value.resourceExists && o.result.value.resourceUpToDate
            && HandsOut(cfg.codec, resp.credentials, o.result.value.connectionDetails)
          else
            o.result == Err(if !NoRenewalDue(cfg, resp.metadata, a) then CannotParseTime
                            else if wanted.None? then CannotDecode else ParametersDiffer))
  {
    if Storable(cfg.codec, a.get.value) {
      StorableIsEncodable(cfg.codec, a.get.value);
      StoredComparisonIsDirect(cfg.codec, s.obj.atProvider, CreateResponseData(a.get.value), s.obj.spec.parameters);
    }
  }

  lemma StorableIsEncodable(codec: Codec, resp: GetBindingResponse)
    ensures Storable(codec, resp) <==>
      EncodableData(codec, CreateResponseData(resp)) && MarshalledCredentials(codec, resp.credentials).Ok?
  {
  }

  // Whatever a reconcile does after an answered read, the stored status can be read
  // back as that answer, field by field.
  lemma AnsweredReadIsStored(cfg: BindingConfig, w: BindingWorld, a: BindingAnswers)
    requires cfg.codec.RoundTrips() && Reads(w.stored) && a.get.Answered? && Storable(cfg.codec, a.get.value)
    ensures var resp, r := a.get.value, ReconcileOutcome(cfg, w, a);
      && !r.released
      && ReadBack(cfg.codec, r.world.stored.atProvider) ==
         Some(ResponseData(resp.parameters, resp.endpoints, resp.volumeMounts,
                           resp.routeServiceUrl, resp.syslogDrainUrl, resp.metadata))
  {
    var data := CreateResponseData(a.get.value);
    StorableIsEncodable(cfg.codec, a.get.value);
    ResponseDataRoundTrips(cfg.codec, w.stored.atProvider, data);
    var s := BindingState(w.stored, w.stored, w.log);
    GetBindingShape(cfg, s.Sent(ReadOf(w.stored, a)), a.get.value, a);
    var o := ObserveOutcome(cfg, s, a);
    assert o.state.obj.atProvider == WithResponseData(cfg.codec, w.stored.atProvider, data);
    RotationKeepsData(cfg, o.state, a);
    DeleteKeepsData(cfg, o.state, a);
  }

  predicate SameData(x: BindingObservation, y: BindingObservation) {
    && x.parameters == y.parameters && x.endpoints == y.endpoints && x.volumeMounts == y.volumeMounts
    && x.routeServiceUrl == y.routeServiceUrl && x.syslogDrainUrl == y.syslogDrainUrl && x.metadata == y.metadata
  }

  lemma RotationKeepsData(cfg: BindingConfig, s: BindingState, a: BindingAnswers)
    ensures SameData(RotationOutcome(cfg, s, a).state.obj.atProvider, s.obj.atProvider)
  {
  }

  lemma DeleteKeepsData(cfg: BindingConfig, s: BindingState, a: BindingAnswers)
    ensures SameData(DeleteOutcome(cfg, s, a).state.obj.atProvider, s.obj.atProvider)
  {
  }

  /******* Polling *******/

  function PollOf(cfg: BindingConfig, obj: BindingObject, a: BindingAnswers): BindingEvent {
    PollSent(PollRequest(obj.spec.instanceId, obj.externalName, obj.spec.serviceId, obj.spec.planId, cfg.oid,
                         obj.atProvider.lastOperationKey), a.poll)
  }

  predicate Polls(cfg: BindingConfig, obj: BindingObject) {
    && obj.InProgress() && obj.externalName != "" && cfg.oid.platform != "" && cfg.oid.value != ""
    && obj.spec.instanceId != "" && obj.spec.planId != "" && obj.spec.serviceId != ""
  }

  // The poll was refused, but not with 404 or 410 for a deleted binding, or its
  // answer cannot be looked at: the reconcile reports why and does nothing else.
  lemma FailedPollChangesNothing(cfg: BindingConfig, w: BindingWorld, a: BindingAnswers)
    requires Polls(cfg, w.stored)
    requires if a.poll.Answered? then !a.refetchOk
             else !w.stored.deleted || (a.poll.error != HttpError(404) && a.poll.error != HttpError(410))
    ensures ObserveOutcome(cfg, BindingState(w.stored, w.stored, w.log), a).result ==
      Err(if a.poll.Answered? then StoreFailed else BrokerFailed(a.poll.error))
    ensures ReconcileOutcome(cfg, w, a) ==
      Reconciled(BindingWorld(w.stored, w.log + [PollOf(cfg, w.stored, a)]), false)
  {
  }

  // A poll that is answered and looked at finds the refetched object, edits
  // included, and records state, description and the readiness the state stands for;
  // to Observe the binding then exists and is up to date, whatever the state.
  lemma AnsweredPollIsRecorded(cfg: BindingConfig, s: BindingState, a: BindingAnswers)
    requires Polls(cfg, s.obj) && a.poll.Answered? && a.refetchOk
    ensures var o, resp := LastOperationOutcome(cfg, s, a), a.poll.value;
      var seen := s.stored.(spec := if a.concurrent.spec.Some? then a.concurrent.spec.value else s.stored.spec,
                            deleted := s.stored.deleted || a.concurrent.delete);
      && o.result == Ok(NothingToDo)
      && o.state == BindingState(
           seen.(atProvider := seen.atProvider.(
                   lastOperationState := resp.state,
                   lastOperationDescription := if resp.description.Some? then resp.description.value
                                               else seen.atProvider.lastOperationDescription),
                 conditions :=
                   if resp.state == StateSucceeded then seen.conditions[Ready := Available]
                   else if resp.state in {StateInProgress, StateDeleting, StateFailed} then
                     seen.conditions[Ready := Unavailable]
                   else seen.conditions),
           seen, s.log + [PollOf(cfg, s.obj, a)])
    ensures ObserveOutcome(cfg, s, a).result == Ok(Observation(true, true, None))
  {
  }

  // A poll of a deleted binding answered 404 or 410 says that the binding does not
  // exist, unless its finalizer cannot be written off.
  lemma GonePollDecides(cfg: BindingConfig, w: BindingWorld, a: BindingAnswers)
    requires Polls(cfg, w.stored) && w.stored.deleted
    requires a.poll == Refused(HttpError(404)) || a.poll == Refused(HttpError(410))
    ensures ObserveOutcome(cfg, BindingState(w.stored, w.stored, w.log), a).result ==
      if HasFinalizer(w) && !a.updateOk then Err(StoreFailed) else Ok(Observation(false, false, None))
    ensures HasFinalizer(w) && !a.updateOk ==>
      ReconcileOutcome(cfg, w, a) == Reconciled(BindingWorld(w.stored, w.log + [PollOf(cfg, w.stored, a)]), false)
  {
  }

  /******* Bind *******/

  // What is handed out for credentials of a Bind or rotation: nil counts as empty.
  predicate HandsOutAll(codec: Codec, credentials: Params, details: Option<map<string, string>>) {
    details.Some? && codec.Encodes(if credentials.Some? then credentials.value else map[], details.value)
  }

  predicate AllEncodable(codec: Codec, credentials: Params) {
    credentials.Some? ==> forall k | k in credentials.value :: codec.encodeValue(credentials.value[k]).Some?
  }

  lemma MarshalledIsAll(codec: Codec, credentials: Params)
    ensures codec.Marshalled(Entries(credentials)).Some? <==> AllEncodable(codec, credentials)
    ensures AllEncodable(codec, credentials) ==>
      HandsOutAll(codec, credentials, codec.Marshalled(Entries(credentials)))
  {
  }

  // A synchronous Bind, in full. Its credentials are handed out and the rest of the
  // response is recorded field by field, beside the parameters that were there, if
  // these can be read and everything has a JSON text; if not, nothing is recorded.
  lemma SynchronousBindIsRecorded(cfg: BindingConfig, s: BindingState, a: BindingAnswers)
    requires cfg.codec.RoundTrips()
    requires var r := BindOutcome(cfg, s, a).result; r.Ok? && r.value.Some?
    ensures a.bind.Answered? && a.bind.value.Some? && !a.bind.value.value.async
    ensures var o, resp, text := CreateOutcome(cfg, s, a), a.bind.value.value, s.obj.atProvider.parameters;
      var params := if text == "" then Some(Some(map[])) else cfg.codec.decodeParams(text);
      if !AllEncodable(cfg.codec, resp.credentials) then
        o.result == Err(CannotEncode) && o.state.obj.atProvider == s.obj.atProvider
      else if params.None? then
        o.result == Err(CannotDecode) && o.state.obj.atProvider == s.obj.atProvider
      else if cfg.codec.encodeParams(params.value).None? || cfg.codec.encodeValue(resp.endpoints).None? ||
              cfg.codec.encodeValue(resp.volumeMounts).None? then
        o.result == Err(CannotEncode) && o.state.obj.atProvider == s.obj.atProvider
      else
        && o.result.Ok? && HandsOutAll(cfg.codec, resp.credentials, o.result.value)
        && ReadBack(cfg.codec, o.state.obj.atProvider) ==
           Some(ResponseData(params.value, resp.endpoints, resp.volumeMounts,
                             resp.routeServiceUrl, resp.syslogDrainUrl, resp.metadata))
        && o.state.obj.atProvider.lastOperationState == s.obj.atProvider.lastOperationState
        && o.state.obj.atProvider.lastOperationKey == s.obj.atProvider.lastOperationKey
  {
    var resp := a.bind.value.value;
    MarshalledIsAll(cfg.codec, resp.credentials);
    var data := CreateResponseDataWithBindingParameters(cfg.codec, s.obj.atProvider, resp);
    if data.Ok? && EncodableData(cfg.codec, data.value) {
      ResponseDataRoundTrips(cfg.codec, s.obj.atProvider, data.value);
    }
  }

  // Any other Bind: Create hands on its error, and hands out nothing when the
  // broker works asynchronously; either way it leaves what Bind left.
  lemma OtherBindIsHandedOn(cfg: BindingConfig, s: BindingState, a: BindingAnswers)
    requires var r := BindOutcome(cfg, s, a).result; r.Err? || r.value.None?
    ensures var o, bound := CreateOutcome(cfg, s, a), BindOutcome(cfg, s, a);
      && o.state == bound.state
      && o.result == if bound.result.Err? then Err(bound.result.error) else Ok(None)
  {
  }

  /******* Rotation *******/

  // A rotation, in full. A refusal changes nothing. An accepted one renames the
  // binding; asynchronously it hands out nothing yet and records the operation,
  // synchronously it hands out the successor's credentials if they can be encoded.
  lemma RotationAnswers(cfg: BindingConfig, s: BindingState, a: BindingAnswers)
    ensures var o, req := RotationOutcome(cfg, s, a), BuildRotateBindingRequest(s.obj, cfg.oid, a.newUuid);
      if req.Err? then o == Outcome(s, Err(req.error))
      else
        && o.state.log == s.log + [RotateSent(req.value, a.rotate)] && o.state.stored == s.stored
        && match a.rotate {
             case Refused(error) => o.state.obj == s.obj && o.result == Err(BrokerFailed(error))
             case Answered(resp) =>
               if resp.async then
                 && o.result == Ok(None)
                 && o.state.obj == s.obj.(externalName := a.newUuid, atProvider := s.obj.atProvider.(
                      lastOperationState := StateInProgress,
                      lastOperationKey := KeyAfter(s.obj.atProvider.lastOperationKey, resp.operationKey),
                      lastOperationDescription := "", lastOperationPolledTime := a.polledTime))
               else
                 && o.state.obj == s.obj.(externalName := a.newUuid)
                 && if AllEncodable(cfg.codec, resp.credentials)
                    then o.result.Ok? && HandsOutAll(cfg.codec, resp.credentials, o.result.value)
                    else o.result == Err(CannotEncode)
           }
  {
    if a.rotate.Answered? {
      MarshalledIsAll(cfg.codec, a.rotate.value.credentials);
    }
  }

  /******* Unbind *******/

  // An Unbind, in full, always under Ready=Deleting. Refusals and nil are errors
  // and change nothing else, and neither does a synchronous answer. An asynchronous
  // one records the operation, and fails only if the finalizer cannot be written.
  lemma UnbindAnswers(cfg: BindingConfig, s: BindingState, a: BindingAnswers)
    ensures var o, req := DeleteOutcome(cfg, s, a), BuildUnbindRequest(s.obj, cfg.oid);
      var deleting := s.obj.(conditions := s.obj.conditions[Ready := Deleting]);
      if req.Err? then o == Outcome(s.(obj := deleting), Err(req.error))
      else
        && o.state.log == s.log + [UnbindSent(req.value, a.unbind)]
        && match a.unbind {
             case Refused(error) =>
               o.state.obj == deleting && o.state.stored == s.stored && o.result == Err(BrokerFailed(error))
             case Answered(None) =>
               o.state.obj == deleting && o.state.stored == s.stored && o.result == Err(NilResponse)
             case Answered(Some(resp)) =>
               if !resp.async then o.state.obj == deleting && o.state.stored == s.stored && o.result == Ok(false)
               else
                 && o.state.obj == deleting.(
                      finalizers := s.obj.finalizers + {ASYNC_DELETION_FINALIZER},
                      atProvider := s.obj.atProvider.(
                        lastOperationState := StateInProgress,
                        lastOperationKey := KeyAfter(s.obj.atProvider.lastOperationKey, resp.operationKey)))
                 && o.state.stored ==
                    (if ASYNC_DELETION_FINALIZER in s.obj.finalizers || !a.updateOk then s.stored
                     else s.stored.(externalName := s.obj.externalName, spec := s.obj.spec,
                                    finalizers := o.state.obj.finalizers))
                 && o.result == if ASYNC_DELETION_FINALIZER in s.obj.finalizers || a.updateOk then Ok(true)
                                else Err(StoreFailed)
           }
  {
    assert ASYNC_DELETION_FINALIZER in s.obj.finalizers ==>
        s.obj.finalizers + {ASYNC_DELETION_FINALIZER} == s.obj.finalizers;
  }
}
