// What each request of an instance consists of, and what the broker's answers lead
// to, in full: the result each operation hands back, what it records, and that
// failures leave no trace.
module InstanceResults {
  import opened Results
  import opened JsonValues
  import opened OsbApi
  import opened InstanceModel
  import opened InstanceRuns

  /******* Requests *******/

  function ParametersOf(codec: Codec, spec: InstanceSpec): Option<Params> {
    if spec.parameters == "" then Some(Some(map[])) else codec.decodeParams(spec.parameters)
  }

  function Optional(part: string): Option<string> {
    if part == "" then None else Some(part)
  }

  // Every request is built from the object exactly so. Provisioning and updating
  // need parameters that parse and carry them with the context; all but reading
  // and provisioning need the identity; a poll carries the key there is.
  lemma RequestsAreGuarded(cfg: InstanceConfig, obj: InstanceObject, params: Params)
    ensures var spec := obj.spec;
      && BuildGetInstanceRequest(spec) ==
         Unless(spec.instanceId, EmptyInstanceId,
                Ok(GetInstanceRequest(spec.instanceId, spec.serviceId, spec.planId)))
      && BuildPollLastOperationRequest(obj, cfg.oid) ==
         Unless(spec.instanceId, EmptyInstanceId, IfIdentified(cfg.oid,
                Ok(LastOperationRequest(spec.instanceId, cfg.oid, Optional(spec.serviceId), Optional(spec.planId),
                                        Optional(obj.atProvider.lastOperationKey)))))
      && BuildDeprovisionRequest(cfg, spec) ==
         Unless(spec.instanceId, EmptyInstanceId, Unless(spec.serviceId, EmptyServiceId,
                Unless(spec.planId, EmptyPlanId, IfIdentified(cfg.oid,
                Ok(DeprovisionRequest(spec.instanceId, spec.serviceId, spec.planId, !cfg.disableAsync, cfg.oid))))))
      && BuildProvisionRequest(spec, params, ContextToMap(spec.context), cfg.disableAsync) ==
         Unless(spec.instanceId, EmptyInstanceId, Unless(spec.planId, EmptyPlanId,
                Unless(spec.serviceId, EmptyServiceId, Unless(spec.organizationGuid, EmptyOrganizationGuid,
                Unless(spec.spaceGuid, EmptySpaceGuid,
                Ok(ProvisionRequest(spec.instanceId, spec.serviceId, spec.planId, spec.organizationGuid,
                                    spec.spaceGuid, !cfg.disableAsync, Some(ContextToMap(spec.context)), params)))))))
      && BuildUpdateInstanceRequest(cfg, spec) ==
         match ParametersOf(cfg.codec, spec) {
           case None => Err(CannotDecode)
           case Some(parameters) =>
             Unless(spec.instanceId, EmptyInstanceId, Unless(spec.serviceId, EmptyServiceId, IfIdentified(cfg.oid,
                    Ok(UpdateRequest(spec.instanceId, spec.serviceId, !cfg.disableAsync, cfg.oid,
                                     Optional(spec.planId), Some(ContextToMap(spec.context)), parameters)))))
         }
  {
    assert "platform" in ContextToMap(obj.spec.context);
  }

  // The last call's context and parameters, if it has any.
  predicate CarriesSpec(cfg: InstanceConfig, spec: InstanceSpec, e: InstanceEvent) {
    match e
    case ProvisionSent(req, _) =>
      req.context == Some(ContextToMap(spec.context)) && Some(req.parameters) == ParametersOf(cfg.codec, spec)
    case UpdateSent(req, _) =>
      req.context == Some(ContextToMap(spec.context)) && Some(req.parameters) == ParametersOf(cfg.codec, spec)
    case _ => true
  }

  // Whatever a reconcile provisions or updates, the request carries context and
  // parameters of the stored spec.
  lemma ReconcileCarriesSpec(cfg: InstanceConfig, w: InstanceWorld, a: InstanceAnswers, i: nat)
    requires |w.log| <= i < |ReconcileOutcome(cfg, w, a).world.log|
    ensures CarriesSpec(cfg, w.stored.spec, ReconcileOutcome(cfg, w, a).world.log[i])
  {
    var o := ObserveOutcome(cfg, Starting(w), a);
    ObserveSends(cfg, w, a, o);
    ReconcileSends(cfg, w, a, o, ReconcileOutcome(cfg, w, a).world);
    ActingObject(cfg, w, a, o);
    SecondCallCarriesSpec(cfg, o, a);
  }

  lemma SecondCallCarriesSpec(cfg: InstanceConfig, o: Outcome<Observation>, a: InstanceAnswers)
    ensures var call := SecondCall(cfg, o, a); call.Some? ==> CarriesSpec(cfg, o.state.obj.spec, call.value)
    ensures var call := SecondCall(cfg, o, a);
      call.Some? && (call.value.ProvisionSent? || call.value.UpdateSent?) ==>
        && o.result.Ok? && !o.state.obj.deleted
        && (o.result.value.resourceExists ==> !o.result.value.resourceUpToDate)
  {
    assert "platform" in ContextToMap(o.state.obj.spec.context);
  }

  /******* Reading the instance *******/

  predicate Reads(obj: InstanceObject) {
    !obj.deleted && obj.atProvider.lastOperationKey == "" && obj.spec.instanceId != ""
  }

  function ReadOf(obj: InstanceObject, a: InstanceAnswers): InstanceEvent {
    GetSent(GetInstanceRequest(obj.spec.instanceId, obj.spec.serviceId, obj.spec.planId), a.get)
  }

  // A refused read says that the instance does not exist when it is answered 404
  // or 410, and is an error otherwise; then the whole reconcile does nothing else.
  lemma RefusedReadChangesNothing(cfg: InstanceConfig, w: InstanceWorld, a: InstanceAnswers)
    requires Reads(w.stored) && a.get.Refused?
    ensures var o, gone := ObserveOutcome(cfg, Starting(w), a),
                           a.get.error == HttpError(404) || a.get.error == HttpError(410);
      && o.state == InstanceState(w.stored, w.stored, w.log + [ReadOf(w.stored, a)])
      && o.result == (if gone then Ok(Observation(false, false, None)) else Err(BrokerFailed(a.get.error)))
      && (!gone ==> ReconcileOutcome(cfg, w, a) ==
                    Reconciled(InstanceWorld(w.stored, w.log + [ReadOf(w.stored, a)]), false))
  {
  }

  // An instance without an ID is neither read nor polled nor released.
  lemma NamelessChangesNothing(cfg: InstanceConfig, w: InstanceWorld, a: InstanceAnswers)
    requires w.stored.spec.instanceId == ""
    ensures ObserveOutcome(cfg, Starting(w), a).result == Err(EmptyInstanceId)
    ensures ReconcileOutcome(cfg, w, a) == Reconciled(w, false)
  {
  }

  // Whether the answered instance calls for an update: nil and another plan hide
  // everything, empty parameters always do, and so does another context than the
  // recorded one.
  predicate CallsForUpdate(codec: Codec, obj: InstanceObject, instance: GetInstanceResponse) {
    && (obj.spec.planId == "" || obj.spec.planId == instance.planId)
    && (|| obj.spec.parameters == ""
        || (codec.decodeParams(obj.spec.parameters).Some? &&
            (codec.decodeParams(obj.spec.parameters).value != instance.parameters ||
             obj.spec.context != obj.atProvider.context)))
  }

  predicate Unparseable(codec: Codec, obj: InstanceObject, instance: GetInstanceResponse) {
    && (obj.spec.planId == "" || obj.spec.planId == instance.planId)
    && obj.spec.parameters != "" && codec.decodeParams(obj.spec.parameters).None?
  }

  // What an answered read comes to; only an update hands out the dashboard URL.
  lemma ReadDecides(cfg: InstanceConfig, w: InstanceWorld, a: InstanceAnswers)
    requires Reads(w.stored) && a.get.Answered?
    ensures var o, instance := ObserveOutcome(cfg, Starting(w), a), a.get.value;
      && o.state.log == w.log + [ReadOf(w.stored, a)] && o.state.stored == w.stored
      && o.state.obj.atProvider == w.stored.atProvider && o.state.obj.spec == w.stored.spec
      && o.result ==
         if instance.Some? && Unparseable(cfg.codec, w.stored, instance.value) then Err(CannotDecode)
         else if instance.Some? && CallsForUpdate(cfg.codec, w.stored, instance.value) then
           Ok(Observation(true, false, Some(instance.value.dashboardUrl)))
         else Ok(Observation(true, true, None))
  {
  }

  // Where no update is called for the reconcile ends Ready=Available, and an
  // unparseable spec changes nothing; the read is the only call in both.
  lemma IdleReadEnds(cfg: InstanceConfig, w: InstanceWorld, a: InstanceAnswers)
    requires Reads(w.stored) && a.get.Answered?
    requires a.get.value.Some? ==> !CallsForUpdate(cfg.codec, w.stored, a.get.value.value)
    ensures var stored := w.stored;
      var fails := a.get.value.Some? && Unparseable(cfg.codec, stored, a.get.value.value);
      ReconcileOutcome(cfg, w, a) ==
        Reconciled(InstanceWorld(if fails then stored else stored.(conditions := stored.conditions[Ready := Available]),
                                 w.log + [ReadOf(stored, a)]), false)
  {
    ReadDecides(cfg, w, a);
  }

  // A deleted instance without a key whose status cannot be written is kept.
  lemma UnwrittenDeletionChangesNothing(cfg: InstanceConfig, w: InstanceWorld, a: InstanceAnswers)
    requires w.stored.deleted && w.stored.atProvider.lastOperationKey == "" && w.stored.spec.instanceId != ""
    ensures ObserveOutcome(cfg, Starting(w), a).result ==
      if a.observeWriteOk then Ok(Observation(false, false, None)) else Err(StoreFailed)
    ensures ReconcileOutcome(cfg, w, a) == Reconciled(w, a.observeWriteOk)
  {
  }

  /******* Polling *******/

  predicate Polls(cfg: InstanceConfig, obj: InstanceObject) {
    && obj.atProvider.lastOperationKey != "" && obj.spec.instanceId != ""
    && cfg.oid.platform != "" && cfg.oid.value != ""
  }

  function PollOf(cfg: InstanceConfig, obj: InstanceObject, a: InstanceAnswers): InstanceEvent {
    PollSent(LastOperationRequest(obj.spec.instanceId, cfg.oid, Optional(obj.spec.serviceId),
                                  Optional(obj.spec.planId), Some(obj.atProvider.lastOperationKey)), a.poll)
  }

  // A poll refused with 404 or 410 says that the instance does not exist. Refused
  // otherwise, or answered but not to be looked at, it is an error, and the whole
  // reconcile does nothing else.
  lemma FailedPollChangesNothing(cfg: InstanceConfig, w: InstanceWorld, a: InstanceAnswers)
    requires Polls(cfg, w.stored) && (a.poll.Answered? ==> !a.refetchOk)
    ensures var o, gone := ObserveOutcome(cfg, Starting(w), a),
                           a.poll == Refused(HttpError(404)) || a.poll == Refused(HttpError(410));
      && o.state == InstanceState(w.stored, w.stored, w.log + [PollOf(cfg, w.stored, a)])
      && o.result == (if gone then Ok(Observation(false, false, None))
                      else if a.poll.Answered? then Err(StoreFailed) else Err(BrokerFailed(a.poll.error)))
      && (!gone ==> ReconcileOutcome(cfg, w, a) ==
                    Reconciled(InstanceWorld(w.stored, w.log + [PollOf(cfg, w.stored, a)]), false))
  {
  }

  // Without an originating identity an instance with a key stays as it is.
  lemma UnpollableChangesNothing(cfg: InstanceConfig, w: InstanceWorld, a: InstanceAnswers)
    requires w.stored.atProvider.lastOperationKey != "" && (cfg.oid.platform == "" || cfg.oid.value == "")
    ensures ReconcileOutcome(cfg, w, a) == Reconciled(w, false)
  {
  }

  // The readiness a polled state stands for. It survives the reconcile only when
  // the status write fails: then nothing is done and this is what the driver stores.
  lemma PolledReadiness(cfg: InstanceConfig, w: InstanceWorld, a: InstanceAnswers)
    requires Polls(cfg, w.stored) && a.poll.Answered? && a.refetchOk && !a.observeWriteOk
    requires var seen := Edited(w.stored, a.concurrent);
      !(seen.deleted && a.poll.value.state == StateSucceeded && !seen.atProvider.hasActiveBindings)
    ensures var seen, state := Edited(w.stored, a.concurrent), a.poll.value.state;
      && ObserveOutcome(cfg, Starting(w), a).result == Err(StoreFailed)
      && ReconcileOutcome(cfg, w, a) == Reconciled(InstanceWorld(
           seen.(atProvider := seen.atProvider.(
                   lastOperationState := state,
                   lastOperationDescription :=
                     if a.poll.value.description.Some? then a.poll.value.description.value
                     else seen.atProvider.lastOperationDescription),
                 conditions :=
                   if state == StateSucceeded then seen.conditions[Ready := Available]
                   else if state in {StateInProgress, StateDeleting, StateFailed} then
                     seen.conditions[Ready := Unavailable]
                   else seen.conditions),
           w.log + [PollOf(cfg, w.stored, a)]), false)
  {
  }

  // Active bindings, recorded before or by an edit just before the refetch, keep a
  // polled instance from being deprovisioned and from being released.
  lemma ActiveBindingsBlock(cfg: InstanceConfig, w: InstanceWorld, a: InstanceAnswers)
    requires Polls(cfg, w.stored) && a.poll.Answered?
    requires if a.concurrent.activeBindings.Some? then a.concurrent.activeBindings.value
             else w.stored.atProvider.hasActiveBindings
    ensures var r := ReconcileOutcome(cfg, w, a);
      !r.released && r.world.log == w.log + [PollOf(cfg, w.stored, a)]
  {
  }

  /******* Provisioning, updating, deprovisioning *******/

  // What an answered provision or update records.
  function Recorded(obj: InstanceObject, resp: OsbAsyncResponse): InstanceObject {
    obj.(atProvider := obj.atProvider.(
           context := obj.spec.context, dashboardUrl := resp.dashboardUrl,
           lastOperationState := if resp.async then StateInProgress else StateSucceeded,
           lastOperationKey := if resp.async then KeyAfter(obj.atProvider.lastOperationKey, resp.operationKey)
                               else obj.atProvider.lastOperationKey),
         conditions := obj.conditions[Ready := if resp.async then Creating else Available])
  }

  // How provision and update answer: a failed guard changes nothing, a refusal only
  // the log; an answer is recorded, and in the store as well if it can be written.
  predicate Acts(s: InstanceState, call: Result<InstanceEvent, Failure>, reply: Reply<OsbAsyncResponse>,
      writeOk: bool, o: Outcome<()>)
  {
    match call
    case Err(f) => o == Outcome(s, Err(f))
    case Ok(e) =>
      && o.state.log == s.log + [e]
      && match reply {
           case Refused(error) =>
             o.state.obj == s.obj && o.state.stored == s.stored && o.result == Err(BrokerFailed(error))
           case Answered(resp) =>
             && o.state.obj == Recorded(s.obj, resp)
             && o.result == (if writeOk then Ok(()) else Err(StoreFailed))
             && o.state.stored == if writeOk then s.stored.(atProvider := o.state.obj.atProvider,
                                                            conditions := o.state.obj.conditions)
                                  else s.stored
         }
  }

  lemma ProvisionAnswers(cfg: InstanceConfig, s: InstanceState, a: InstanceAnswers)
    ensures var params := ParametersOf(cfg.codec, s.obj.spec);
      var req := if params.None? then Err(CannotDecode)
                 else BuildProvisionRequest(s.obj.spec, params.value, ContextToMap(s.obj.spec.context),
                                            cfg.disableAsync);
      Acts(s, if req.Ok? then Ok(ProvisionSent(req.value, a.provision)) else Err(req.error),
           a.provision, a.actWriteOk, ProvisionOutcome(cfg, s, a))
  {
  }

  lemma UpdateAnswers(cfg: InstanceConfig, s: InstanceState, a: InstanceAnswers)
    ensures var req := BuildUpdateInstanceRequest(cfg, s.obj.spec);
      Acts(s, if req.Ok? then Ok(UpdateSent(req.value, a.update)) else Err(req.error),
           a.update, a.actWriteOk, UpdateOutcome(cfg, s, a))
  {
  }

  // A deprovision, in full, always under Ready=Deleting: nothing to do without an
  // ID, refused while bindings are active, done when the broker does not know the
  // instance or answers synchronously, and recorded as deleting when it works
  // asynchronously.
  lemma DeprovisionAnswers(cfg: InstanceConfig, s: InstanceState, a: InstanceAnswers)
    ensures var o, req := DeleteOutcome(cfg, s, a), BuildDeprovisionRequest(cfg, s.obj.spec);
      var deleting := s.obj.(conditions := s.obj.conditions[Ready := Deleting]);
      if s.obj.spec.instanceId == "" then o == Outcome(s.(obj := deleting), Ok(()))
      else if s.obj.atProvider.hasActiveBindings then o == Outcome(s.(obj := deleting), Err(ActiveBindings))
      else if req.Err? then o == Outcome(s.(obj := deleting), Err(req.error))
      else
        && o.state.log == s.log + [DeprovisionSent(req.value, a.deprovision)]
        && match a.deprovision {
             case Refused(error) =>
               && o.state.obj == deleting && o.state.stored == s.stored
               && o.result == if error == HttpError(404) || error == HttpError(410) then Ok(())
                              else Err(BrokerFailed(error))
             case Answered(resp) =>
               if !resp.async then o.state.obj == deleting && o.state.stored == s.stored && o.result == Ok(())
               else
                 && o.state.obj == deleting.(atProvider := s.obj.atProvider.(
                      lastOperationState := StateDeleting,
                      lastOperationKey := KeyAfter(s.obj.atProvider.lastOperationKey, resp.operationKey)))
                 && o.result == (if a.actWriteOk then Ok(()) else Err(StoreFailed))
                 && o.state.stored == if a.actWriteOk then s.stored.(atProvider := o.state.obj.atProvider,
                                                                     conditions := o.state.obj.conditions)
                                      else s.stored
           }
  {
  }

  // Whatever a deprovision is answered, the reconcile that sends it ends with the
  // instance kept, and Ready=Deleting.
  lemma DeprovisionEndsDeleting(cfg: InstanceConfig, w: InstanceWorld, a: InstanceAnswers)
    requires Deprovisions(cfg, w, a)
    ensures var r := ReconcileOutcome(cfg, w, a);
      !r.released && Ready in r.world.stored.conditions && r.world.stored.conditions[Ready] == Deleting
  {
    var o := ObserveOutcome(cfg, Starting(w), a);
    DeleteVerdictIff(cfg, w, a, o);
    DeprovisionAnswers(cfg, o.state, a);
  }
}
