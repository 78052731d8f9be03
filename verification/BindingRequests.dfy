// What each request of the binding controller consists of, and which empty part
// of identity or object keeps it from being built.
module BindingRequests {
  import opened Results
  import opened JsonValues
  import opened OsbApi
  import opened BindingModel

  // The guards of the spec's IDs, in the order in which they are tried.
  function IfFilledIn<T>(spec: BindingSpec, next: Result<T, Failure>): Result<T, Failure> {
    Unless(spec.instanceId, EmptyInstanceId, Unless(spec.planId, EmptyPlanId,
           Unless(spec.serviceId, EmptyServiceId, next)))
  }

  // Every request but Bind is built from the object exactly so: GetBinding needs
  // the instance and binding ID, a rotation the identity and a new ID as well, and
  // polls and Unbind the identity and all IDs.
  lemma RequestsAreGuarded(obj: BindingObject, oid: OriginatingIdentity, newUuid: string)
    ensures var spec, id := obj.spec, obj.externalName;
      && BuildGetBindingRequest(obj) ==
         Unless(spec.instanceId, EmptyInstanceId, Unless(id, EmptyBindingId,
                Ok(GetBindingRequest(spec.instanceId, id))))
      && BuildRotateBindingRequest(obj, oid, newUuid) ==
         IfIdentified(oid, Unless(spec.instanceId, EmptyInstanceId, Unless(id, EmptyBindingId,
                      Unless(newUuid, EmptyNewBindingId, Ok(RotateRequest(spec.instanceId, newUuid, id, oid))))))
      && BuildBindingLastOperationRequest(obj, oid) ==
         IfIdentified(oid, IfFilledIn(spec, Unless(id, EmptyBindingId,
                      Ok(PollRequest(spec.instanceId, id, spec.serviceId, spec.planId, oid,
                                     obj.atProvider.lastOperationKey)))))
      && BuildUnbindRequest(obj, oid) ==
         IfIdentified(oid, IfFilledIn(spec, Unless(id, EmptyBindingId,
                      Ok(UnbindRequest(spec.instanceId, id, spec.serviceId, spec.planId, oid)))))
  {
  }

  // What Bind sends first: the ID it has or a new one, and all of the spec.
  function FirstBind(cfg: BindingConfig, obj: BindingObject, parameters: Params, newUuid: string): BindRequest {
    var spec := obj.spec;
    BindRequest(if obj.externalName == "" then newUuid else obj.externalName,
                spec.instanceId, spec.planId, spec.serviceId, !cfg.disableAsync,
                if spec.appGuid == "" then None else Some(spec.appGuid), spec.route,
                Some(ContextToMap(spec.context)), parameters, cfg.oid)
  }

  // Bind is guarded by the parameters and by all IDs but the binding's, and does
  // nothing when a guard fails. Otherwise it sends that request, under an ID the
  // object keeps, and answers by the broker: refusals and nil are errors, and only
  // a synchronous answer is handed on.
  lemma BindIsGuarded(cfg: BindingConfig, s: BindingState, a: BindingAnswers)
    ensures var o, params := BindOutcome(cfg, s, a), cfg.codec.decodeParams(s.obj.spec.parameters);
      var guarded := if params.None? then Err(CannotDecode)
                     else IfIdentified(cfg.oid, IfFilledIn(s.obj.spec,
                            Ok(FirstBind(cfg, s.obj, params.value, a.newUuid))));
      if guarded.Err? then o == Outcome(s, Err(guarded.error))
      else
        && o.state.log == s.log + [BindSent(guarded.value, a.bind)] && o.state.stored == s.stored
        && o.state.obj.externalName == guarded.value.bindingId
        && match a.bind {
             case Refused(error) => o.result == Err(BrokerFailed(error))
             case Answered(None) => o.result == Err(NilResponse)
             case Answered(Some(resp)) => o.result == Ok(if resp.async then None else Some(resp))
           }
        && (a.bind.Answered? && a.bind.value.Some? && a.bind.value.value.async ==>
              && o.state.obj.InProgress()
              && o.state.obj.atProvider.lastOperationKey ==
                 KeyAfter(s.obj.atProvider.lastOperationKey, a.bind.value.value.operationKey))
        && (o.result.Err? || o.result.value.Some? ==> o.state.obj.atProvider == s.obj.atProvider)
  {
  }
}
