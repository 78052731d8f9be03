// The ServiceBinding object, its controller and the clients they call, as they
// update their fields in place. Each method is proved against the outcome
// function of BindingModel that carries its properties.
module BindingController {
  import opened Results
  import opened JsonValues
  import opened OsbApi
  import opened Marshalling
  import opened BindingModel

  // The broker client: it answers what the outside world answers and keeps a
  // log of every call.
  class BindingBroker {
    var log: seq<BindingEvent>

    constructor ()
      ensures log == []
    {
      log := [];
    }

    method Bind(req: BindRequest, a: BindingAnswers) returns (r: Reply<Option<BindResponse>>)
      modifies this
      ensures r == a.bind && log == old(log) + [BindSent(req, r)]
    {
      r := a.bind;
      log := log + [BindSent(req, r)];
    }

    method GetBinding(req: GetBindingRequest, a: BindingAnswers) returns (r: Reply<GetBindingResponse>)
      modifies this
      ensures r == a.get && log == old(log) + [GetSent(req, r)]
    {
      r := a.get;
      log := log + [GetSent(req, r)];
    }

    method PollBindingLastOperation(req: PollRequest, a: BindingAnswers) returns (r: Reply<LastOperationResponse>)
      modifies this
      ensures r == a.poll && log == old(log) + [PollSent(req, r)]
    {
      r := a.poll;
      log := log + [PollSent(req, r)];
    }

    method RotateBinding(req: RotateRequest, a: BindingAnswers) returns (r: Reply<BindResponse>)
      modifies this
      ensures r == a.rotate && log == old(log) + [RotateSent(req, r)]
    {
      r := a.rotate;
      log := log + [RotateSent(req, r)];
    }

    method Unbind(req: UnbindRequest, a: BindingAnswers) returns (r: Reply<Option<UnbindResponse>>)
      modifies this
      ensures r == a.unbind && log == old(log) + [UnbindSent(req, r)]
    {
      r := a.unbind;
      log := log + [UnbindSent(req, r)];
    }
  }

  // The Kubernetes client, holding the stored version of one binding.
  class BindingKube {
    var stored: BindingObject

    constructor (o: BindingObject)
      ensures stored == o
    {
      stored := o;
    }

    // Reads into the very object it is given, after any edit that got in first.
    method Get(obj: ServiceBinding, a: BindingAnswers) returns (ok: bool)
      modifies this, obj
      ensures ok == a.refetchOk
      ensures ok ==> stored == Edited(old(stored), a.concurrent) && obj.View() == stored
      ensures !ok ==> stored == old(stored) && obj.View() == old(obj.View())
    {
      ok := a.refetchOk;
      if ok {
        stored := Edited(stored, a.concurrent);
        obj.Load(stored);
      }
    }

    method Update(obj: ServiceBinding, a: BindingAnswers) returns (ok: bool)
      modifies this
      ensures ok == a.updateOk
      ensures stored == if ok then Updated(old(stored), obj.View()) else old(stored)
    {
      ok := a.updateOk;
      if ok {
        stored := stored.(externalName := obj.externalName, finalizers := obj.finalizers, spec := obj.spec);
      }
    }

    // The driver's writes: the status and the external-name annotation.
    method Persist(obj: ServiceBinding)
      modifies this
      ensures stored == Persisted(old(stored), obj.View())
    {
      stored := stored.(externalName := obj.externalName);
      stored := stored.(atProvider := obj.atProvider, conditions := obj.conditions);
    }
  }

  ghost function StateOf(sb: ServiceBinding, kube: BindingKube, osb: BindingBroker): BindingState
    reads sb, kube, osb
  {
    BindingState(sb.View(), kube.stored, osb.log)
  }

  datatype FinalizerMod = AddFinalizerIfNotExists | RemoveFinalizerIfExists

  class ServiceBinding {
    var externalName: string
    var deleted: bool
    var finalizers: set<string>
    var spec: BindingSpec
    var atProvider: BindingObservation
    var conditions: Conditions

    function View(): BindingObject
      reads this
    {
      BindingObject(externalName, deleted, finalizers, spec, atProvider, conditions)
    }

    constructor (o: BindingObject)
      ensures View() == o
    {
      externalName, deleted, finalizers := o.externalName, o.deleted, o.finalizers;
      spec, atProvider, conditions := o.spec, o.atProvider, o.conditions;
    }

    method Load(o: BindingObject)
      modifies this
      ensures View() == o
    {
      externalName, deleted, finalizers := o.externalName, o.deleted, o.finalizers;
      spec, atProvider, conditions := o.spec, o.atProvider, o.conditions;
    }

    method SetConditions(c: Condition)
      modifies this`conditions
      ensures conditions == WithCondition(old(conditions), c)
    {
      conditions := conditions[c.Type() := c];
    }

    method SetLastOperationState(state: OperationState)
      modifies this`atProvider
      ensures atProvider == old(atProvider).(lastOperationState := state)
    {
      atProvider := atProvider.(lastOperationState := state);
    }

    // util.UpdateStatusFromLastOp, at ServiceBinding
    method UpdateStatusFromLastOp(resp: LastOperationResponse)
      modifies this`atProvider, this`conditions
      ensures View() == AfterLastOperation(old(View()), resp)
    {
      SetLastOperationState(resp.state);
      if resp.description.Some? {
        atProvider := atProvider.(lastOperationDescription := resp.description.value);
      }
      match resp.state {
        case StateSucceeded => SetConditions(Available);
        case StateInProgress => SetConditions(Unavailable);
        case StateDeleting => SetConditions(Unavailable);
        case StateFailed => SetConditions(Unavailable);
        case StateUnset =>
        case StateOther(_) =>
      }
    }

    // util.HandleAsyncStatus, at ServiceBinding
    method HandleAsyncStatus(operationKey: Option<OperationKey>)
      modifies this`atProvider
      ensures View() == AfterAsync(old(View()), operationKey)
    {
      if operationKey.Some? {
        atProvider := atProvider.(lastOperationKey := operationKey.value);
      }
      SetLastOperationState(StateInProgress);
    }

    // util.HandleFinalizer: the object is written back only when it changed.
    method HandleFinalizer(kube: BindingKube, name: string, mod: FinalizerMod, a: BindingAnswers) returns (ok: bool)
      modifies this`finalizers, kube
      ensures finalizers == if mod.AddFinalizerIfNotExists? then old(finalizers) + {name} else old(finalizers) - {name}
      ensures finalizers == old(finalizers) ==> ok && kube.stored == old(kube.stored)
      ensures finalizers != old(finalizers) ==>
        && ok == a.updateOk
        && kube.stored == if ok then Updated(old(kube.stored), View()) else old(kube.stored)
    {
      var changed: bool;
      match mod {
        case AddFinalizerIfNotExists =>
          changed := name !in finalizers;
          if changed { finalizers := finalizers + {name}; }
        case RemoveFinalizerIfExists =>
          changed := name in finalizers;
          if changed { finalizers := finalizers - {name}; }
      }
      if changed {
        ok := kube.Update(this, a);
      } else {
        ok := true;
      }
    }

    method SetResponseDataInStatus(codec: Codec, data: ResponseData) returns (r: Result<(), Failure>)
      modifies this`atProvider
      ensures r == if EncodableData(codec, data) then Ok(()) else Err(CannotEncode)
      ensures r.Ok? ==> atProvider == WithResponseData(codec, old(atProvider), data)
      ensures r.Err? ==> atProvider == old(atProvider)
    {
      var params := codec.encodeParams(data.parameters);
      if params.None? { return Err(CannotEncode); }
      var endpoints := codec.encodeValue(data.endpoints);
      if endpoints.None? { return Err(CannotEncode); }
      var volumeMounts := codec.encodeValue(data.volumeMounts);
      if volumeMounts.None? { return Err(CannotEncode); }
      // a whole new observation: the last four fields are carried over
      atProvider := BindingObservation(
        params.value, data.routeServiceUrl, endpoints.value, volumeMounts.value, data.syslogDrainUrl, data.metadata,
        atProvider.lastOperationState, atProvider.lastOperationKey,
        atProvider.lastOperationDescription, atProvider.lastOperationPolledTime);
      return Ok(());
    }

    // `handled` is false when the poll error is for the caller to report.
    method HandlePollError(kube: BindingKube, error: OsbError, a: BindingAnswers)
      returns (handled: bool, r: Result<Action, Failure>)
      modifies this`finalizers, kube
      ensures handled == (IsResourceGone(error) && deleted)
      ensures !handled ==> View() == old(View()) && kube.stored == old(kube.stored)
      ensures handled ==> forall log ::
        Outcome(BindingState(View(), kube.stored, log), r)
        == PollErrorOutcome(BindingState(old(View()), old(kube.stored), log), error, a)
    {
      if IsResourceGone(error) && deleted {
        var ok := HandleFinalizer(kube, ASYNC_DELETION_FINALIZER, RemoveFinalizerIfExists, a);
        if !ok { return true, Err(StoreFailed); }
        return true, Ok(NeedToCreate);
      }
      return false, Ok(NeedToCreate);
    }

    method HandleLastOperationInProgress(cfg: BindingConfig, kube: BindingKube, osb: BindingBroker, a: BindingAnswers)
      returns (r: Result<Action, Failure>)
      modifies this, kube, osb
      ensures Outcome(StateOf(this, kube, osb), r) == LastOperationOutcome(cfg, old(StateOf(this, kube, osb)), a)
    {
      var req := BuildBindingLastOperationRequest(View(), cfg.oid);
      if req.Err? { return Err(req.error); }
      var resp := osb.PollBindingLastOperation(req.value, a);
      if resp.Refused? {
        var handled, action := HandlePollError(kube, resp.error, a);
        if handled { return action; }
        return Err(BrokerFailed(resp.error));
      }
      var latest := this;
      var ok := kube.Get(latest, a);
      if !ok { return Err(StoreFailed); }
      latest.UpdateStatusFromLastOp(resp.value);
      return Ok(NothingToDo);
    }

    method MarkBindingIfExpired(expiresAt: int, now: int) returns (expired: bool)
      modifies this`conditions
      ensures expired == (expiresAt < now)
      ensures conditions == if expired then WithCondition(old(conditions), Expired(expiresAt)) else old(conditions)
    {
      expired := expiresAt < now;
      if expired {
        SetConditions(Expired(expiresAt));
      }
    }

    method HandleRenewalBindings(cfg: BindingConfig, metadata: Option<BindingMetadata>, a: BindingAnswers)
      returns (r: Result<BindingAction, Failure>)
      modifies this`conditions
      ensures (conditions, r) == RenewalOutcome(cfg, old(conditions), metadata, a)
    {
      if metadata.None? { return Ok(NoRenewal); }
      if metadata.value.renewBefore == "" { return Ok(RenewalData); }
      var renewBefore := cfg.codec.parseTime(metadata.value.renewBefore);
      if renewBefore.None? { return Err(CannotParseTime); }
      if renewBefore.value < a.renewClock {
        var expiresAt := cfg.codec.parseTime(metadata.value.expiresAt);
        if expiresAt.None? { return Err(CannotParseTime); }
        var expired := MarkBindingIfExpired(expiresAt.value, a.expiryClock);
        if cfg.rotateBinding {
          return Ok(RotateBinding);
        } else if !expired {
          SetConditions(ExpiringSoon(expiresAt.value));
        }
      }
      return Ok(NoRenewal);
    }

    method ObserveState(cfg: BindingConfig, kube: BindingKube, osb: BindingBroker, a: BindingAnswers)
      returns (r: Result<Observed, Failure>)
      modifies this, kube, osb
      ensures Outcome(StateOf(this, kube, osb), r) == ObserveStateOutcome(cfg, old(StateOf(this, kube, osb)), a)
    {
      if atProvider.lastOperationState == StateInProgress {
        var action := HandleLastOperationInProgress(cfg, kube, osb, a);
        if action.Err? { return Err(action.error); }
        return Ok(Observed(action.value, None));
      }
      if externalName == "" {
        return Ok(Observed(NeedToCreate, None));
      }
      var req := BuildGetBindingRequest(View());
      if req.Err? { return Err(req.error); }
      var resp := osb.GetBinding(req.value, a);
      if resp.Refused? {
        if IsResourceGone(resp.error) {
          return Ok(Observed(NeedToCreate, None));
        }
        return Err(BrokerFailed(resp.error));
      }
      var updated := SetResponseDataInStatus(cfg.codec, CreateResponseData(resp.value));
      if updated.Err? { return Err(updated.error); }
      var credentials := MarshalBindingCredentials(cfg.codec, resp.value.credentials);
      if credentials.Err? { return Err(CannotEncode); }
      var action := HandleRenewalBindings(cfg, resp.value.metadata, a);
      if action.Err? { return Err(action.error); }
      match action.value {
        case RenewalData => return Ok(Observed(NothingToDo, credentials.value));
        case RotateBinding => return Ok(Observed(NeedToUpdate, credentials.value));
        case NoRenewal =>
      }
      var differ := IsStatusParametersNotLikeSpecParameters(cfg.codec, atProvider.parameters, spec.parameters);
      if differ.Err? { return Err(differ.error); }
      if differ.value { return Err(ParametersDiffer); }
      return Ok(Observed(NothingToDo, credentials.value));
    }

    // The existing ID is kept: an ID is drawn only for a binding without one.
    method EnsureBindingUUID(a: BindingAnswers) returns (id: string)
      modifies this`externalName
      ensures id == externalName
      ensures externalName == if old(externalName) != "" then old(externalName) else a.newUuid
    {
      if externalName != "" { return externalName; }
      externalName := a.newUuid;
      return externalName;
    }

    method HandleBindRequest(osb: BindingBroker, req: BindRequest, a: BindingAnswers)
      returns (r: Result<Option<BindResponse>, Failure>)
      modifies this`atProvider, osb
      ensures osb.log == old(osb.log) + [BindSent(req, a.bind)]
      ensures r.Err? <==> a.bind.Refused? || a.bind.value.None?
      ensures r.Err? ==> r.error == if a.bind.Refused? then BrokerFailed(a.bind.error) else NilResponse
      ensures r.Ok? ==> r.value == if a.bind.value.value.async then None else a.bind.value
      ensures View() == if r.Ok? && r.value.None? then AfterAsync(old(View()), a.bind.value.value.operationKey)
                        else old(View())
    {
      var resp := osb.Bind(req, a);
      if resp.Refused? { return Err(BrokerFailed(resp.error)); }
      if resp.value.None? { return Err(NilResponse); }
      if resp.value.value.async {
        HandleAsyncStatus(resp.value.value.operationKey);
        return Ok(None);
      }
      return Ok(resp.value);
    }

    method Bind(cfg: BindingConfig, kube: BindingKube, osb: BindingBroker, a: BindingAnswers)
      returns (r: Result<Option<BindResponse>, Failure>)
      modifies this, osb
      ensures Outcome(StateOf(this, kube, osb), r) == BindOutcome(cfg, old(StateOf(this, kube, osb)), a)
    {
      var params := cfg.codec.decodeParams(spec.parameters);
      if params.None? { return Err(CannotDecode); }
      var invalid := ValidateInputs(spec, cfg.oid);
      if invalid.Some? { return Err(invalid.value); }
      var bindingId := EnsureBindingUUID(a);
      var req := BindRequest(bindingId, spec.instanceId, spec.planId, spec.serviceId, !cfg.disableAsync,
                             None, spec.route, None, None, cfg.oid);
      if spec.appGuid != "" {
        req := req.(appGuid := Some(spec.appGuid));
      }
      req := req.(context := Some(ContextToMap(spec.context)));
      if params.value.Some? {
        req := req.(parameters := params.value);
      }
      r := HandleBindRequest(osb, req, a);
    }

    // extractCredentials
    static method ExtractCredentials(codec: Codec, resp: BindResponse) returns (r: Option<map<string, string>>)
      ensures r == codec.Marshalled(Entries(resp.credentials))
      ensures r.Some? ==> codec.Encodes(Entries(resp.credentials), r.value)
      ensures r.None? ==> exists k :: k in Entries(resp.credentials) &&
                                      codec.encodeValue(Entries(resp.credentials)[k]).None?
    {
      var entries := Entries(resp.credentials);
      var creds: map<string, string> := map[];
      var remaining := entries.Keys;
      while remaining != {}
        invariant remaining <= entries.Keys
        invariant creds.Keys == entries.Keys - remaining
        invariant forall k | k in creds :: codec.encodeValue(entries[k]) == Some(creds[k])
        decreases |remaining|
      {
        var key :| key in remaining;
        var data := codec.encodeValue(entries[key]);
        if data.None? { return None; }
        creds := creds[key := data.value];
        remaining := remaining - {key};
      }
      IsMarshalled(codec, entries, creds);
      return Some(creds);
    }

    method TriggerRotation(cfg: BindingConfig, kube: BindingKube, osb: BindingBroker, a: BindingAnswers)
      returns (r: Result<Option<map<string, string>>, Failure>)
      modifies this, osb
      ensures Outcome(StateOf(this, kube, osb), r) == RotationOutcome(cfg, old(StateOf(this, kube, osb)), a)
    {
      var newUuid := a.newUuid;
      var req := BuildRotateBindingRequest(View(), cfg.oid, newUuid);
      if req.Err? { return Err(req.error); }
      var resp := osb.RotateBinding(req.value, a);
      if resp.Refused? { return Err(BrokerFailed(resp.error)); }
      externalName := newUuid;
      if !resp.value.async {
        var creds := ExtractCredentials(cfg.codec, resp.value);
        if creds.None? { return Err(CannotEncode); }
        return Ok(creds);
      }
      HandleAsyncStatus(resp.value.operationKey);
      atProvider := atProvider.(lastOperationPolledTime := a.polledTime);
      atProvider := atProvider.(lastOperationDescription := "");
      return Ok(None);
    }

    method HandleUnBindRequest(kube: BindingKube, osb: BindingBroker, req: UnbindRequest, a: BindingAnswers)
      returns (r: Result<bool, Failure>)
      modifies this, kube, osb
      ensures osb.log == old(osb.log) + [UnbindSent(req, a.unbind)]
      ensures r.Ok? ==> a.unbind.Answered? && a.unbind.value.Some? && r.value == a.unbind.value.value.async
      ensures var s := BindingState(old(View()), old(kube.stored), old(osb.log));
        BuildUnbindRequest(s.obj, req.oid) == Ok(req) ==>
        forall cfg: BindingConfig | cfg.oid == req.oid ::
          Outcome(StateOf(this, kube, osb), r) == UnbindOutcome(cfg, s, a)
    {
      var resp := osb.Unbind(req, a);
      if resp.Refused? { return Err(BrokerFailed(resp.error)); }
      if resp.value.None? { return Err(NilResponse); }
      if resp.value.value.async {
        HandleAsyncStatus(resp.value.value.operationKey);
        var ok := HandleFinalizer(kube, ASYNC_DELETION_FINALIZER, AddFinalizerIfNotExists, a);
        if !ok { return Err(StoreFailed); }
        return Ok(true);
      }
      return Ok(false);
    }

    method UnBind(cfg: BindingConfig, kube: BindingKube, osb: BindingBroker, a: BindingAnswers)
      returns (r: Result<bool, Failure>)
      modifies this, kube, osb
      ensures Outcome(StateOf(this, kube, osb), r) == UnbindOutcome(cfg, old(StateOf(this, kube, osb)), a)
    {
      var req := BuildUnbindRequest(View(), cfg.oid);
      if req.Err? { return Err(req.error); }
      r := HandleUnBindRequest(kube, osb, req.value, a);
    }
  }

  // The controller's external client.
  class BindingExternal {
    const kube: BindingKube
    const osb: BindingBroker
    const cfg: BindingConfig

    constructor (kube: BindingKube, osb: BindingBroker, cfg: BindingConfig)
      ensures this.kube == kube && this.osb == osb && this.cfg == cfg
    {
      this.kube, this.osb, this.cfg := kube, osb, cfg;
    }

    method Observe(binding: ServiceBinding, a: BindingAnswers) returns (r: Result<Observation, Failure>)
      modifies binding, kube, osb
      ensures Outcome(StateOf(binding, kube, osb), r) == ObserveOutcome(cfg, old(StateOf(binding, kube, osb)), a)
    {
      var o := binding.ObserveState(cfg, kube, osb, a);
      if o.Err? { return Err(o.error); }
      match o.value.action {
        case NeedToCreate => return Ok(Observation(false, false, None));
        case NeedToUpdate => return Ok(Observation(true, false, None));
        case NothingToDo =>
          binding.SetConditions(Available);
          return Ok(Observation(true, true, o.value.credentials));
      }
    }

    method Create(binding: ServiceBinding, a: BindingAnswers) returns (r: Result<Option<map<string, string>>, Failure>)
      modifies binding, osb
      ensures Outcome(StateOf(binding, kube, osb), r) == CreateOutcome(cfg, old(StateOf(binding, kube, osb)), a)
    {
      var bound := binding.Bind(cfg, kube, osb, a);
      if bound.Err? { return Err(bound.error); }
      if bound.value.None? { return Ok(None); }
      var creds := GetCredsFromResponse(cfg.codec, bound.value.value.credentials);
      if creds.None? { return Err(CannotEncode); }
      var data := CreateResponseDataWithBindingParameters(cfg.codec, binding.atProvider, bound.value.value);
      if data.Err? { return Err(data.error); }
      var stored := binding.SetResponseDataInStatus(cfg.codec, data.value);
      if stored.Err? { return Err(stored.error); }
      return Ok(creds);
    }

    method Update(binding: ServiceBinding, a: BindingAnswers) returns (r: Result<Option<map<string, string>>, Failure>)
      modifies binding, osb
      ensures Outcome(StateOf(binding, kube, osb), r) == RotationOutcome(cfg, old(StateOf(binding, kube, osb)), a)
    {
      r := binding.TriggerRotation(cfg, kube, osb, a);
    }

    method Delete(binding: ServiceBinding, a: BindingAnswers) returns (r: Result<bool, Failure>)
      modifies binding, kube, osb
      ensures Outcome(StateOf(binding, kube, osb), r) == DeleteOutcome(cfg, old(StateOf(binding, kube, osb)), a)
    {
      binding.SetConditions(Deleting);
      r := binding.UnBind(cfg, kube, osb, a);
    }

    // The managed-resource driver's contract: observe, then delete or release a
    // deleted object, otherwise create or update it, and write back its status.
    method Reconcile(a: BindingAnswers) returns (released: bool)
      modifies kube, osb
      ensures Reconciled(BindingWorld(kube.stored, osb.log), released)
        == ReconcileOutcome(cfg, old(BindingWorld(kube.stored, osb.log)), a)
    {
      var binding := new ServiceBinding(kube.stored);
      var observation := Observe(binding, a);
      if observation.Ok? {
        if binding.deleted {
          if !observation.value.resourceExists { return true; }
          var _ := Delete(binding, a);
        } else if !observation.value.resourceExists {
          var _ := Create(binding, a);
        } else if !observation.value.resourceUpToDate {
          var _ := Update(binding, a);
        }
      }
      kube.Persist(binding);
      return false;
    }
  }
}
