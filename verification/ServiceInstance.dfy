// The ServiceInstance object, its controller and the clients they call, as they
// update their fields in place. Each method is proved against the outcome
// function of InstanceModel that carries its properties.
module InstanceController {
  import opened Results
  import opened OsbApi
  import opened InstanceModel

  class InstanceBroker {
    var log: seq<InstanceEvent>

    constructor ()
      ensures log == []
    {
      log := [];
    }

    method ProvisionInstance(req: ProvisionRequest, a: InstanceAnswers) returns (r: Reply<OsbAsyncResponse>)
      modifies this
      ensures r == a.provision && log == old(log) + [ProvisionSent(req, r)]
    {
      r := a.provision;
      log := log + [ProvisionSent(req, r)];
    }

    method UpdateInstance(req: UpdateRequest, a: InstanceAnswers) returns (r: Reply<OsbAsyncResponse>)
      modifies this
      ensures r == a.update && log == old(log) + [UpdateSent(req, r)]
    {
      r := a.update;
      log := log + [UpdateSent(req, r)];
    }

    method DeprovisionInstance(req: DeprovisionRequest, a: InstanceAnswers) returns (r: Reply<DeprovisionResponse>)
      modifies this
      ensures r == a.deprovision && log == old(log) + [DeprovisionSent(req, r)]
    {
      r := a.deprovision;
      log := log + [DeprovisionSent(req, r)];
    }

    method PollLastOperation(req: LastOperationRequest, a: InstanceAnswers) returns (r: Reply<LastOperationResponse>)
      modifies this
      ensures r == a.poll && log == old(log) + [PollSent(req, r)]
    {
      r := a.poll;
      log := log + [PollSent(req, r)];
    }

    method GetInstance(req: GetInstanceRequest, a: InstanceAnswers) returns (r: Reply<Option<GetInstanceResponse>>)
      modifies this
      ensures r == a.get && log == old(log) + [GetSent(req, r)]
    {
      r := a.get;
      log := log + [GetSent(req, r)];
    }
  }

  // The Kubernetes client, holding the stored version of one instance.
  class InstanceKube {
    var stored: InstanceObject

    constructor (o: InstanceObject)
      ensures stored == o
    {
      stored := o;
    }

    // Reads into the very object it is given, after any edit that got in first.
    method Get(obj: ServiceInstance, a: InstanceAnswers) returns (ok: bool)
      modifies this, obj
      ensures ok == a.refetchOk
      ensures ok ==> stored == Edited(old(stored), a.concurrent) && obj.View() == stored
      ensures !ok ==> stored == old(stored) && obj.View() == old(obj.View())
    {
      ok := a.refetchOk;
      if ok {
        stored := Edited(stored, a.concurrent);
        obj.Load(stored);
      }
    }

    method StatusUpdate(obj: ServiceInstance, ok: bool)
      modifies this
      ensures stored == if ok then StatusWritten(old(stored), obj.View()) else old(stored)
    {
      if ok {
        stored := stored.(atProvider := obj.atProvider);
        stored := stored.(conditions := obj.conditions);
      }
    }
  }

  ghost function StateOf(si: ServiceInstance, kube: InstanceKube, osb: InstanceBroker): InstanceState
    reads si, kube, osb
  {
    InstanceState(si.View(), kube.stored, osb.log)
  }

  class ServiceInstance {
    var deleted: bool
    var spec: InstanceSpec
    var atProvider: InstanceObservation
    var conditions: Conditions

    function View(): InstanceObject
      reads this
    {
      InstanceObject(deleted, spec, atProvider, conditions)
    }

    constructor (o: InstanceObject)
      ensures View() == o
    {
      deleted, spec, atProvider, conditions := o.deleted, o.spec, o.atProvider, o.conditions;
    }

    method Load(o: InstanceObject)
      modifies this
      ensures View() == o
    {
      deleted, spec, atProvider, conditions := o.deleted, o.spec, o.atProvider, o.conditions;
    }

    method SetConditions(c: Condition)
      modifies this`conditions
      ensures conditions == WithCondition(old(conditions), c)
    {
      conditions := conditions[c.Type() := c];
    }

    method SetLastOperationState(state: OperationState)
      modifies this`atProvider
      ensures atProvider == old(atProvider).(lastOperationState := state)
    {
      atProvider := atProvider.(lastOperationState := state);
    }

    method SetLastOperationKey(key: OperationKey)
      modifies this`atProvider
      ensures atProvider == old(atProvider).(lastOperationKey := key)
    {
      atProvider := atProvider.(lastOperationKey := key);
    }

    // util.UpdateStatusFromLastOp, at ServiceInstance
    method UpdateStatusFromLastOp(resp: LastOperationResponse)
      modifies this`atProvider, this`conditions
      ensures View() == AfterLastOperation(old(View()), resp)
    {
      SetLastOperationState(resp.state);
      if resp.description.Some? {
        atProvider := atProvider.(lastOperationDescription := resp.description.value);
      }
      match resp.state {
        case StateSucceeded => SetConditions(Available);
        case StateInProgress => SetConditions(Unavailable);
        case StateDeleting => SetConditions(Unavailable);
        case StateFailed => SetConditions(Unavailable);
        case StateUnset =>
        case StateOther(_) =>
      }
    }

    method UpdateStatusFromOSB(resp: OsbAsyncResponse)
      modifies this`atProvider, this`conditions
      ensures View() == AfterOsb(old(View()), resp)
    {
      atProvider := atProvider.(context := spec.context);
      atProvider := atProvider.(dashboardUrl := resp.dashboardUrl);
      if resp.async {
        SetConditions(Creating);
        SetLastOperationState(StateInProgress);
        if resp.operationKey.Some? {
          SetLastOperationKey(resp.operationKey.value);
        }
        return;
      }
      SetConditions(Available);
      SetLastOperationState(StateSucceeded);
    }

    method UpdateStatusForAsyncDeletion(resp: DeprovisionResponse)
      modifies this`atProvider
      ensures View() == AfterAsyncDeletion(old(View()), resp)
    {
      SetLastOperationState(StateDeleting);
      if resp.operationKey.Some? {
        SetLastOperationKey(resp.operationKey.value);
      }
    }

    method HandleLastOperationInProgress(cfg: InstanceConfig, kube: InstanceKube, osb: InstanceBroker,
        a: InstanceAnswers)
      returns (r: Result<Action, Failure>)
      modifies this, kube, osb
      ensures Outcome(StateOf(this, kube, osb), r) == LastOperationOutcome(cfg, old(StateOf(this, kube, osb)), a)
    {
      var req := BuildPollLastOperationRequest(View(), cfg.oid);
      if req.Err? { return Err(req.error); }
      var resp := osb.PollLastOperation(req.value, a);
      if resp.Refused? {
        if IsResourceGone(resp.error) { return Ok(NeedToCreate); }
        return Err(BrokerFailed(resp.error));
      }
      var latest := this;
      var ok := kube.Get(latest, a);
      if !ok { return Err(StoreFailed); }
      latest.UpdateStatusFromLastOp(resp.value);
      // `this` is the refetched object: `latest` is an alias
      if View().IsDeletable() { return Ok(NeedToCreate); }
      kube.StatusUpdate(latest, a.observeWriteOk);
      if !a.observeWriteOk { return Err(StoreFailed); }
      return Ok(NothingToDo);
    }

    method ObserveState(cfg: InstanceConfig, kube: InstanceKube, osb: InstanceBroker, a: InstanceAnswers)
      returns (r: Result<Observed, Failure>)
      modifies this, kube, osb
      ensures Outcome(StateOf(this, kube, osb), r) == ObserveStateOutcome(cfg, old(StateOf(this, kube, osb)), a)
    {
      if atProvider.lastOperationKey != "" {
        var action := HandleLastOperationInProgress(cfg, kube, osb, a);
        if action.Err? { return Err(action.error); }
        return Ok(Observed(action.value, None));
      }
      if deleted {
        kube.StatusUpdate(this, a.observeWriteOk);
        if !a.observeWriteOk { return Err(StoreFailed); }
        return Ok(Observed(NeedToCreate, None));
      }
      var req := BuildGetInstanceRequest(spec);
      if req.Err? { return Err(req.error); }
      var instance := osb.GetInstance(req.value, a);
      if instance.Refused? {
        if IsResourceGone(instance.error) { return Ok(Observed(NeedToCreate, None)); }
        return Err(BrokerFailed(instance.error));
      }
      var action := CompareSpecWithOSB(cfg.codec, View(), instance.value);
      if action.Err? { return Err(action.error); }
      return Ok(Observed(action.value, instance.value));
    }

    method Provision(cfg: InstanceConfig, kube: InstanceKube, osb: InstanceBroker, a: InstanceAnswers)
      returns (r: Result<(), Failure>)
      modifies this, kube, osb
      ensures Outcome(StateOf(this, kube, osb), r) == ProvisionOutcome(cfg, old(StateOf(this, kube, osb)), a)
    {
      var params := cfg.codec.ToParameters(spec.parameters);
      if params.None? { return Err(CannotDecode); }
      var req := BuildProvisionRequest(spec, params.value, ContextToMap(spec.context), cfg.disableAsync);
      if req.Err? { return Err(req.error); }
      var resp := osb.ProvisionInstance(req.value, a);
      if resp.Refused? { return Err(BrokerFailed(resp.error)); }
      UpdateStatusFromOSB(resp.value);
      kube.StatusUpdate(this, a.actWriteOk);
      if !a.actWriteOk { return Err(StoreFailed); }
      return Ok(());
    }

    method Update(cfg: InstanceConfig, kube: InstanceKube, osb: InstanceBroker, a: InstanceAnswers)
      returns (r: Result<(), Failure>)
      modifies this, kube, osb
      ensures Outcome(StateOf(this, kube, osb), r) == UpdateOutcome(cfg, old(StateOf(this, kube, osb)), a)
    {
      var req := BuildUpdateInstanceRequest(cfg, spec);
      if req.Err? { return Err(req.error); }
      var resp := osb.UpdateInstance(req.value, a);
      if resp.Refused? { return Err(BrokerFailed(resp.error)); }
      UpdateStatusFromOSB(resp.value);
      kube.StatusUpdate(this, a.actWriteOk);
      if !a.actWriteOk { return Err(StoreFailed); }
      return Ok(());
    }

    method Deprovision(cfg: InstanceConfig, kube: InstanceKube, osb: InstanceBroker, a: InstanceAnswers)
      returns (r: Result<(), Failure>)
      modifies this, kube, osb
      ensures Outcome(StateOf(this, kube, osb), r) == DeprovisionOutcome(cfg, old(StateOf(this, kube, osb)), a)
    {
      if spec.instanceId == "" { return Ok(()); }
      if atProvider.hasActiveBindings { return Err(ActiveBindings); }
      var req := BuildDeprovisionRequest(cfg, spec);
      if req.Err? { return Err(req.error); }
      var resp := osb.DeprovisionInstance(req.value, a);
      if resp.Refused? {
        if IsResourceGone(resp.error) { return Ok(()); }
        return Err(BrokerFailed(resp.error));
      }
      if resp.value.async {
        UpdateStatusForAsyncDeletion(resp.value);
        kube.StatusUpdate(this, a.actWriteOk);
        if !a.actWriteOk { return Err(StoreFailed); }
      }
      return Ok(());
    }
  }

  // The controller's external client.
  class InstanceExternal {
    const kube: InstanceKube
    const osb: InstanceBroker
    const cfg: InstanceConfig

    constructor (kube: InstanceKube, osb: InstanceBroker, cfg: InstanceConfig)
      ensures this.kube == kube && this.osb == osb && this.cfg == cfg
    {
      this.kube, this.osb, this.cfg := kube, osb, cfg;
    }

    method Observe(instance: ServiceInstance, a: InstanceAnswers) returns (r: Result<Observation, Failure>)
      modifies instance, kube, osb
      ensures Outcome(StateOf(instance, kube, osb), r) == ObserveOutcome(cfg, old(StateOf(instance, kube, osb)), a)
    {
      if instance.spec.instanceId == "" { return Err(EmptyInstanceId); }
      var o := instance.ObserveState(cfg, kube, osb, a);
      if o.Err? { return Err(o.error); }
      match o.value.action {
        case NeedToCreate => return Ok(Observation(false, false, None));
        case NothingToDo =>
          instance.SetConditions(Available);
          return Ok(Observation(true, true, None));
        case NeedToUpdate =>
          // the response is dereferenced: it is never nil here
          return Ok(Observation(true, false, Some(o.value.instance.value.dashboardUrl)));
      }
    }

    method Create(instance: ServiceInstance, a: InstanceAnswers) returns (r: Result<(), Failure>)
      modifies instance, kube, osb
      ensures Outcome(StateOf(instance, kube, osb), r) == ProvisionOutcome(cfg, old(StateOf(instance, kube, osb)), a)
    {
      r := instance.Provision(cfg, kube, osb, a);
    }

    method Update(instance: ServiceInstance, a: InstanceAnswers) returns (r: Result<(), Failure>)
      modifies instance, kube, osb
      ensures Outcome(StateOf(instance, kube, osb), r) == UpdateOutcome(cfg, old(StateOf(instance, kube, osb)), a)
    {
      r := instance.Update(cfg, kube, osb, a);
    }

    method Delete(instance: ServiceInstance, a: InstanceAnswers) returns (r: Result<(), Failure>)
      modifies instance, kube, osb
      ensures Outcome(StateOf(instance, kube, osb), r) == DeleteOutcome(cfg, old(StateOf(instance, kube, osb)), a)
    {
      instance.SetConditions(Deleting);
      r := instance.Deprovision(cfg, kube, osb, a);
    }

    // The managed-resource driver's contract: observe, then delete or release a
    // deleted object, otherwise create or update it, and write back its status.
    method Reconcile(a: InstanceAnswers) returns (released: bool)
      modifies kube, osb
      ensures Reconciled(InstanceWorld(kube.stored, osb.log), released)
        == ReconcileOutcome(cfg, old(InstanceWorld(kube.stored, osb.log)), a)
    {
      var instance := new ServiceInstance(kube.stored);
      var observation := Observe(instance, a);
      if observation.Ok? {
        if instance.deleted {
          if !observation.value.resourceExists { return true; }
          var _ := Delete(instance, a);
        } else if !observation.value.resourceExists {
          var _ := Create(instance, a);
        } else if !observation.value.resourceUpToDate {
          var _ := Update(instance, a);
        }
      }
      kube.StatusUpdate(instance, true);
      return false;
    }
  }
}
