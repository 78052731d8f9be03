// ServiceInstance as a value: its requests and their guards, and what every
// operation of the instance controller does to (object in memory, object stored
// in Kubernetes, log of broker calls), given what the outside world answers.
module InstanceModel {
  import opened Results
  import opened JsonValues
  import opened OsbApi

  /******* Kubernetes object *******/

  datatype InstanceSpec = InstanceSpec(
    instanceId: string, planId: string, serviceId: string,
    organizationGuid: string, spaceGuid: string,
    context: Context, parameters: string)

  datatype InstanceObservation = InstanceObservation(
    context: Context,
    dashboardUrl: Option<string>,
    lastOperationState: OperationState,
    lastOperationKey: OperationKey,
    lastOperationDescription: string,
    hasActiveBindings: bool)

  datatype InstanceObject = InstanceObject(
    deleted: bool, spec: InstanceSpec, atProvider: InstanceObservation, conditions: Conditions)
  {
    predicate HasLastOperation() { atProvider.lastOperationKey != "" }

    predicate IsDeletable() {
      deleted && atProvider.lastOperationState == StateSucceeded && !atProvider.hasActiveBindings
    }
  }

  /******* Broker protocol *******/

  datatype ProvisionRequest = ProvisionRequest(
    instanceId: string, serviceId: string, planId: string,
    organizationGuid: string, spaceGuid: string,
    acceptsIncomplete: bool, context: Params, parameters: Params)

  datatype UpdateRequest = UpdateRequest(
    instanceId: string, serviceId: string, acceptsIncomplete: bool, oid: OriginatingIdentity,
    planId: Option<string>, context: Params, parameters: Params)

  datatype DeprovisionRequest = DeprovisionRequest(
    instanceId: string, serviceId: string, planId: string, acceptsIncomplete: bool, oid: OriginatingIdentity)

  datatype LastOperationRequest = LastOperationRequest(
    instanceId: string, oid: OriginatingIdentity,
    serviceId: Option<string>, planId: Option<string>, operationKey: Option<OperationKey>)

  datatype GetInstanceRequest = GetInstanceRequest(instanceId: string, serviceId: string, planId: string)

  datatype GetInstanceResponse = GetInstanceResponse(planId: string, parameters: Params, dashboardUrl: string)

  // Provision and update answers (OSBAsyncResponse).
  datatype OsbAsyncResponse =
    OsbAsyncResponse(async: bool, operationKey: Option<OperationKey>, dashboardUrl: Option<string>)

  datatype DeprovisionResponse = DeprovisionResponse(async: bool, operationKey: Option<OperationKey>)

  // A broker call with its answer. A nil instance without an error is None.
  datatype InstanceEvent =
    | ProvisionSent(provision: ProvisionRequest, provisioned: Reply<OsbAsyncResponse>)
    | UpdateSent(update: UpdateRequest, updated: Reply<OsbAsyncResponse>)
    | DeprovisionSent(deprovision: DeprovisionRequest, deprovisioned: Reply<DeprovisionResponse>)
    | PollSent(poll: LastOperationRequest, polled: Reply<LastOperationResponse>)
    | GetSent(get: GetInstanceRequest, got: Reply<Option<GetInstanceResponse>>)

  // An edit from outside the controller: a new spec, a deletion, a change of the
  // active-bindings flag (which the controller itself only reads).
  datatype UserEdit = UserEdit(spec: Option<InstanceSpec>, delete: bool, activeBindings: Option<bool>)

  // What the outside world answers during one reconcile. Status is written back
  // at most once while observing and once while acting.
  datatype InstanceAnswers = InstanceAnswers(
    provision: Reply<OsbAsyncResponse>,
    update: Reply<OsbAsyncResponse>,
    deprovision: Reply<DeprovisionResponse>,
    poll: Reply<LastOperationResponse>,
    get: Reply<Option<GetInstanceResponse>>,
    refetchOk: bool,
    observeWriteOk: bool,
    actWriteOk: bool,
    concurrent: UserEdit)

  datatype InstanceConfig = InstanceConfig(oid: OriginatingIdentity, disableAsync: bool, codec: Codec)

  datatype InstanceState = InstanceState(obj: InstanceObject, stored: InstanceObject, log: seq<InstanceEvent>)
  {
    function Sent(e: InstanceEvent): InstanceState { this.(log := log + [e]) }
  }

  datatype Outcome<+T> = Outcome(state: InstanceState, result: Result<T, Failure>)

  /******* API server *******/

  function Edited(stored: InstanceObject, edit: UserEdit): InstanceObject {
    stored.(spec := if edit.spec.Some? then edit.spec.value else stored.spec,
            deleted := stored.deleted || edit.delete,
            atProvider := if edit.activeBindings.Some?
                          then stored.atProvider.(hasActiveBindings := edit.activeBindings.value)
                          else stored.atProvider)
  }

  // kube.Status().Update, also how the driver writes back at the end of a reconcile.
  function StatusWritten(stored: InstanceObject, obj: InstanceObject): InstanceObject {
    stored.(atProvider := obj.atProvider, conditions := obj.conditions)
  }

  /******* Status setters *******/

  function AfterLastOperation(obj: InstanceObject, resp: LastOperationResponse): InstanceObject {
    obj.(atProvider := obj.atProvider.(
           lastOperationState := resp.state,
           lastOperationDescription :=
             if resp.description.Some? then resp.description.value
             else obj.atProvider.lastOperationDescription),
         conditions := ConditionsAfterPoll(obj.conditions, resp.state))
  }

  function WithKey(atProvider: InstanceObservation, key: Option<OperationKey>): InstanceObservation {
    if key.Some? then atProvider.(lastOperationKey := key.value) else atProvider
  }

  // UpdateStatusFromOSB
  function AfterOsb(obj: InstanceObject, resp: OsbAsyncResponse): InstanceObject {
    var seen := obj.atProvider.(context := obj.spec.context, dashboardUrl := resp.dashboardUrl);
    if resp.async then
      obj.(atProvider := WithKey(seen.(lastOperationState := StateInProgress), resp.operationKey),
           conditions := WithCondition(obj.conditions, Creating))
    else
      obj.(atProvider := seen.(lastOperationState := StateSucceeded),
           conditions := WithCondition(obj.conditions, Available))
  }

  function AfterAsyncDeletion(obj: InstanceObject, resp: DeprovisionResponse): InstanceObject {
    obj.(atProvider := WithKey(obj.atProvider.(lastOperationState := StateDeleting), resp.operationKey))
  }

  /******* Request builders *******/

  function NonEmpty(s: string): Option<string> {
    if s != "" then Some(s) else None
  }

  function BuildProvisionRequest(spec: InstanceSpec, params: Params, ctx: map<string, Json>, disableAsync: bool)
    : Result<ProvisionRequest, Failure>
  {
    if spec.instanceId == "" then Err(EmptyInstanceId)
    else if spec.planId == "" then Err(EmptyPlanId)
    else if spec.serviceId == "" then Err(EmptyServiceId)
    else if spec.organizationGuid == "" then Err(EmptyOrganizationGuid)
    else if spec.spaceGuid == "" then Err(EmptySpaceGuid)
    else if ctx == map[] then Err(EmptyContext)
    else Ok(ProvisionRequest(spec.instanceId, spec.serviceId, spec.planId, spec.organizationGuid, spec.spaceGuid,
                             !disableAsync, Some(ctx), params))
  }

  function BuildUpdateInstanceRequest(cfg: InstanceConfig, spec: InstanceSpec): Result<UpdateRequest, Failure> {
    var params, ctx := cfg.codec.ToParameters(spec.parameters), ContextToMap(spec.context);
    if params.None? then Err(CannotDecode)
    else if spec.instanceId == "" then Err(EmptyInstanceId)
    else if spec.serviceId == "" then Err(EmptyServiceId)
    else if OidGuard(cfg.oid).Some? then Err(OidGuard(cfg.oid).value)
    else Ok(UpdateRequest(spec.instanceId, spec.serviceId, !cfg.disableAsync, cfg.oid, NonEmpty(spec.planId),
                          if ctx != map[] then Some(ctx) else None, params.value))
  }

  function BuildPollLastOperationRequest(obj: InstanceObject, oid: OriginatingIdentity)
    : Result<LastOperationRequest, Failure>
  {
    if obj.spec.instanceId == "" then Err(EmptyInstanceId)
    else if OidGuard(oid).Some? then Err(OidGuard(oid).value)
    else Ok(LastOperationRequest(obj.spec.instanceId, oid, NonEmpty(obj.spec.serviceId), NonEmpty(obj.spec.planId),
                                 NonEmpty(obj.atProvider.lastOperationKey)))
  }

  function BuildDeprovisionRequest(cfg: InstanceConfig, spec: InstanceSpec): Result<DeprovisionRequest, Failure> {
    if spec.instanceId == "" then Err(EmptyInstanceId)
    else if spec.serviceId == "" then Err(EmptyServiceId)
    else if spec.planId == "" then Err(EmptyPlanId)
    else if OidGuard(cfg.oid).Some? then Err(OidGuard(cfg.oid).value)
    else Ok(DeprovisionRequest(spec.instanceId, spec.serviceId, spec.planId, !cfg.disableAsync, cfg.oid))
  }

  function BuildGetInstanceRequest(spec: InstanceSpec): Result<GetInstanceRequest, Failure> {
    if spec.instanceId == "" then Err(EmptyInstanceId)
    else Ok(GetInstanceRequest(spec.instanceId, spec.serviceId, spec.planId))
  }

  /******* Comparison *******/

  function CompareParametersWithOSB(codec: Codec, text: string, seen: Params): Result<Action, Failure> {
    if text == "" then Ok(NeedToUpdate)
    else
      var params := codec.ToParameters(text);
      if params.None? then Err(CannotDecode)
      else Ok(if params.value != seen then NeedToUpdate else NothingToDo)
  }

  // A different plan hides every other difference.
  function CompareSpecWithOSB(codec: Codec, obj: InstanceObject, instance: Option<GetInstanceResponse>)
    : Result<Action, Failure>
  {
    if instance.None? then Ok(NothingToDo)
    else if obj.spec.planId != "" && obj.spec.planId != instance.value.planId then Ok(NothingToDo)
    else
      var params := CompareParametersWithOSB(codec, obj.spec.parameters, instance.value.parameters);
      if params.Err? || params.value == NeedToUpdate then params
      else Ok(if obj.spec.context != obj.atProvider.context then NeedToUpdate else NothingToDo)
  }

  /******* Observe *******/

  function LastOperationOutcome(cfg: InstanceConfig, s: InstanceState, a: InstanceAnswers): Outcome<Action> {
    match BuildPollLastOperationRequest(s.obj, cfg.oid)
    case Err(f) => Outcome(s, Err(f))
    case Ok(req) =>
      var polled := s.Sent(PollSent(req, a.poll));
      match a.poll
      case Refused(error) =>
        Outcome(polled, if IsResourceGone(error) then Ok(NeedToCreate) else Err(BrokerFailed(error)))
      case Answered(resp) =>
        if !a.refetchOk then Outcome(polled, Err(StoreFailed))
        else
          // the refetch overwrites the object in memory
          var stored := Edited(polled.stored, a.concurrent);
          var obj := AfterLastOperation(stored, resp);
          var seen := polled.(obj := obj, stored := stored);
          if obj.IsDeletable() then Outcome(seen, Ok(NeedToCreate))
          else if !a.observeWriteOk then Outcome(seen, Err(StoreFailed))
          else Outcome(seen.(stored := StatusWritten(stored, obj)), Ok(NothingToDo))
  }

  datatype Observed = Observed(action: Action, instance: Option<GetInstanceResponse>)

  function ObserveStateOutcome(cfg: InstanceConfig, s: InstanceState, a: InstanceAnswers): Outcome<Observed> {
    if s.obj.HasLastOperation() then
      var o := LastOperationOutcome(cfg, s, a);
      Outcome(o.state, if o.result.Ok? then Ok(Observed(o.result.value, None)) else Err(o.result.error))
    else if s.obj.deleted then
      if !a.observeWriteOk then Outcome(s, Err(StoreFailed))
      else Outcome(s.(stored := StatusWritten(s.stored, s.obj)), Ok(Observed(NeedToCreate, None)))
    else
      match BuildGetInstanceRequest(s.obj.spec)
      case Err(f) => Outcome(s, Err(f))
      case Ok(req) =>
        var s1 := s.Sent(GetSent(req, a.get));
        match a.get
        case Refused(error) =>
          Outcome(s1, if IsResourceGone(error) then Ok(Observed(NeedToCreate, None)) else Err(BrokerFailed(error)))
        case Answered(instance) =>
          match CompareSpecWithOSB(cfg.codec, s1.obj, instance)
          case Err(f) => Outcome(s1, Err(f))
          case Ok(action) => Outcome(s1, Ok(Observed(action, instance)))
  }

  // managed.ExternalObservation; the dashboard URL is its only detail.
  datatype Observation = Observation(resourceExists: bool, resourceUpToDate: bool, dashboardUrl: Option<string>)

  function ObserveOutcome(cfg: InstanceConfig, s: InstanceState, a: InstanceAnswers): Outcome<Observation> {
    if s.obj.spec.instanceId == "" then Outcome(s, Err(EmptyInstanceId))
    else
      var o := ObserveStateOutcome(cfg, s, a);
      match o.result
      case Err(f) => Outcome(o.state, Err(f))
      case Ok(Observed(NeedToCreate, _)) => Outcome(o.state, Ok(Observation(false, false, None)))
      case Ok(Observed(NothingToDo, _)) =>
        Outcome(o.state.(obj := o.state.obj.(conditions := WithCondition(o.state.obj.conditions, Available))),
                Ok(Observation(true, true, None)))
      case Ok(Observed(NeedToUpdate, instance)) =>
        Outcome(o.state, Ok(Observation(true, false,
          if instance.Some? then Some(instance.value.dashboardUrl) else None)))
  }

  /******* Create, Update, Delete *******/

  // Status in memory and, when the write succeeds, in the store.
  function WriteStatus(s: InstanceState, ok: bool): Outcome<()> {
    if ok then Outcome(s.(stored := StatusWritten(s.stored, s.obj)), Ok(())) else Outcome(s, Err(StoreFailed))
  }

  function ProvisionOutcome(cfg: InstanceConfig, s: InstanceState, a: InstanceAnswers): Outcome<()> {
    var params := cfg.codec.ToParameters(s.obj.spec.parameters);
    if params.None? then Outcome(s, Err(CannotDecode))
    else
      match BuildProvisionRequest(s.obj.spec, params.value, ContextToMap(s.obj.spec.context), cfg.disableAsync)
      case Err(f) => Outcome(s, Err(f))
      case Ok(req) =>
        var s1 := s.Sent(ProvisionSent(req, a.provision));
        match a.provision
        case Refused(error) => Outcome(s1, Err(BrokerFailed(error)))
        case Answered(resp) => WriteStatus(s1.(obj := AfterOsb(s1.obj, resp)), a.actWriteOk)
  }

  function UpdateOutcome(cfg: InstanceConfig, s: InstanceState, a: InstanceAnswers): Outcome<()> {
    match BuildUpdateInstanceRequest(cfg, s.obj.spec)
    case Err(f) => Outcome(s, Err(f))
    case Ok(req) =>
      var s1 := s.Sent(UpdateSent(req, a.update));
      match a.update
      case Refused(error) => Outcome(s1, Err(BrokerFailed(error)))
      case Answered(resp) => WriteStatus(s1.(obj := AfterOsb(s1.obj, resp)), a.actWriteOk)
  }

  function DeprovisionOutcome(cfg: InstanceConfig, s: InstanceState, a: InstanceAnswers): Outcome<()> {
    if s.obj.spec.instanceId == "" then Outcome(s, Ok(()))
    else if s.obj.atProvider.hasActiveBindings then Outcome(s, Err(ActiveBindings))
    else
      match BuildDeprovisionRequest(cfg, s.obj.spec)
      case Err(f) => Outcome(s, Err(f))
      case Ok(req) =>
        var s1 := s.Sent(DeprovisionSent(req, a.deprovision));
        match a.deprovision
        case Refused(error) => Outcome(s1, if IsResourceGone(error) then Ok(()) else Err(BrokerFailed(error)))
        case Answered(resp) =>
          if resp.async then WriteStatus(s1.(obj := AfterAsyncDeletion(s1.obj, resp)), a.actWriteOk)
          else Outcome(s1, Ok(()))
  }

  function DeleteOutcome(cfg: InstanceConfig, s: InstanceState, a: InstanceAnswers): Outcome<()> {
    DeprovisionOutcome(cfg, s.(obj := s.obj.(conditions := WithCondition(s.obj.conditions, Deleting))), a)
  }

  /******* The driver: one reconcile *******/

  datatype InstanceWorld = InstanceWorld(stored: InstanceObject, log: seq<InstanceEvent>)

  // `released`: the driver let go of a deleted object because it no longer exists.
  datatype Reconciled = Reconciled(world: InstanceWorld, released: bool)

  function Kept(s: InstanceState): Reconciled {
    Reconciled(InstanceWorld(StatusWritten(s.stored, s.obj), s.log), false)
  }

  function Starting(w: InstanceWorld): InstanceState {
    InstanceState(w.stored, w.stored, w.log)
  }

  function ReconcileOutcome(cfg: InstanceConfig, w: InstanceWorld, a: InstanceAnswers): Reconciled {
    var o := ObserveOutcome(cfg, Starting(w), a);
    if o.result.Err? then Kept(o.state)
    else if o.state.obj.deleted then
      if o.result.value.resourceExists then Kept(DeleteOutcome(cfg, o.state, a).state)
      else Reconciled(InstanceWorld(o.state.stored, o.state.log), true)
    else if !o.result.value.resourceExists then Kept(ProvisionOutcome(cfg, o.state, a).state)
    else if !o.result.value.resourceUpToDate then Kept(UpdateOutcome(cfg, o.state, a).state)
    else Kept(o.state)
  }
}
