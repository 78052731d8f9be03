// ServiceBinding as a value: its requests and their guards, and what every
// operation of the binding controller does to (object in memory, object stored
// in Kubernetes, log of broker calls), given what the outside world answers.
module BindingModel {
  import opened Results
  import opened JsonValues
  import opened OsbApi
  import opened Marshalling

  /******* Kubernetes object *******/

  const ASYNC_DELETION_FINALIZER := "binding.osb.provider.crossplane.io/async-deletion"

  datatype BindingSpec = BindingSpec(
    instanceId: string, planId: string, serviceId: string,
    appGuid: string, route: string, context: Context, parameters: string)

  datatype BindingMetadata = BindingMetadata(expiresAt: string, renewBefore: string)

  datatype BindingObservation = BindingObservation(
    parameters: string,
    routeServiceUrl: Option<string>,
    endpoints: string,
    volumeMounts: string,
    syslogDrainUrl: Option<string>,
    metadata: Option<BindingMetadata>,
    lastOperationState: OperationState,
    lastOperationKey: OperationKey,
    lastOperationDescription: string,
    lastOperationPolledTime: string)

  datatype BindingObject = BindingObject(
    externalName: string,
    deleted: bool,
    finalizers: set<string>,
    spec: BindingSpec,
    atProvider: BindingObservation,
    conditions: Conditions)
  {
    predicate InProgress() { atProvider.lastOperationState == StateInProgress }
  }

  /******* Broker protocol *******/

  datatype BindRequest = BindRequest(
    bindingId: string, instanceId: string, planId: string, serviceId: string,
    acceptsIncomplete: bool, appGuid: Option<string>, route: string,
    context: Params, parameters: Params, oid: OriginatingIdentity)

  datatype GetBindingRequest = GetBindingRequest(instanceId: string, bindingId: string)

  datatype PollRequest = PollRequest(
    instanceId: string, bindingId: string, serviceId: string, planId: string,
    oid: OriginatingIdentity, operationKey: OperationKey)

  datatype RotateRequest = RotateRequest(
    instanceId: string, bindingId: string, predecessorBindingId: string, oid: OriginatingIdentity)

  datatype UnbindRequest = UnbindRequest(
    instanceId: string, bindingId: string, serviceId: string, planId: string, oid: OriginatingIdentity)

  datatype GetBindingResponse = GetBindingResponse(
    credentials: Params, parameters: Params, endpoints: Json, volumeMounts: Json,
    routeServiceUrl: Option<string>, syslogDrainUrl: Option<string>, metadata: Option<BindingMetadata>)

  datatype BindResponse = BindResponse(
    async: bool, operationKey: Option<OperationKey>,
    credentials: Params, endpoints: Json, volumeMounts: Json,
    routeServiceUrl: Option<string>, syslogDrainUrl: Option<string>, metadata: Option<BindingMetadata>)

  datatype UnbindResponse = UnbindResponse(async: bool, operationKey: Option<OperationKey>)

  // A broker call with its answer. A nil response without an error is None.
  datatype BindingEvent =
    | BindSent(bind: BindRequest, bound: Reply<Option<BindResponse>>)
    | GetSent(get: GetBindingRequest, got: Reply<GetBindingResponse>)
    | PollSent(poll: PollRequest, polled: Reply<LastOperationResponse>)
    | RotateSent(rotate: RotateRequest, rotated: Reply<BindResponse>)
    | UnbindSent(unbind: UnbindRequest, unbound: Reply<Option<UnbindResponse>>)

  // An edit a user can make: a new spec, a deletion, both or neither.
  datatype UserEdit = UserEdit(spec: Option<BindingSpec>, delete: bool)

  // What the outside world answers during one reconcile: the broker to each
  // kind of request, the UUID generator, the clock at each reading, and the
  // API server (with an edit that lands just before a refetch).
  datatype BindingAnswers = BindingAnswers(
    bind: Reply<Option<BindResponse>>,
    get: Reply<GetBindingResponse>,
    poll: Reply<LastOperationResponse>,
    rotate: Reply<BindResponse>,
    unbind: Reply<Option<UnbindResponse>>,
    newUuid: string,
    renewClock: int,
    expiryClock: int,
    polledTime: string,
    refetchOk: bool,
    updateOk: bool,
    concurrent: UserEdit)

  // The controller's `external` struct, with the library functions it calls.
  datatype BindingConfig = BindingConfig(
    oid: OriginatingIdentity, disableAsync: bool, rotateBinding: bool, codec: Codec)

  datatype BindingState = BindingState(obj: BindingObject, stored: BindingObject, log: seq<BindingEvent>)
  {
    function Sent(e: BindingEvent): BindingState { this.(log := log + [e]) }
  }

  datatype Outcome<+T> = Outcome(state: BindingState, result: Result<T, Failure>)

  /******* API server *******/

  function Edited(stored: BindingObject, edit: UserEdit): BindingObject {
    stored.(spec := if edit.spec.Some? then edit.spec.value else stored.spec,
            deleted := stored.deleted || edit.delete)
  }

  // kube.Update: metadata and spec are written, the status subresource is not.
  function Updated(stored: BindingObject, obj: BindingObject): BindingObject {
    stored.(externalName := obj.externalName, finalizers := obj.finalizers, spec := obj.spec)
  }

  // What the driver writes back at the end of a reconcile.
  function Persisted(stored: BindingObject, obj: BindingObject): BindingObject {
    stored.(externalName := obj.externalName, atProvider := obj.atProvider, conditions := obj.conditions)
  }

  /******* Status setters *******/

  function AfterLastOperation(obj: BindingObject, resp: LastOperationResponse): BindingObject {
    obj.(atProvider := obj.atProvider.(
           lastOperationState := resp.state,
           lastOperationDescription :=
             if resp.description.Some? then resp.description.value
             else obj.atProvider.lastOperationDescription),
         conditions := ConditionsAfterPoll(obj.conditions, resp.state))
  }

  function AfterAsync(obj: BindingObject, key: Option<OperationKey>): BindingObject {
    obj.(atProvider := obj.atProvider.(
           lastOperationState := StateInProgress,
           lastOperationKey := if key.Some? then key.value else obj.atProvider.lastOperationKey))
  }

  datatype ResponseData = ResponseData(
    parameters: Params, endpoints: Json, volumeMounts: Json,
    routeServiceUrl: Option<string>, syslogDrainUrl: Option<string>, metadata: Option<BindingMetadata>)

  function CreateResponseData(resp: GetBindingResponse): ResponseData {
    ResponseData(resp.parameters, resp.endpoints, resp.volumeMounts,
                 resp.routeServiceUrl, resp.syslogDrainUrl, resp.metadata)
  }

  function CreateResponseDataWithBindingParameters(codec: Codec, atProvider: BindingObservation, resp: BindResponse)
    : Result<ResponseData, Failure>
  {
    var params := codec.ToParameters(atProvider.parameters);
    if params.None? then Err(CannotDecode)
    else Ok(ResponseData(params.value, resp.endpoints, resp.volumeMounts,
                         resp.routeServiceUrl, resp.syslogDrainUrl, resp.metadata))
  }

  predicate EncodableData(codec: Codec, data: ResponseData) {
    && codec.encodeParams(data.parameters).Some?
    && codec.encodeValue(data.endpoints).Some?
    && codec.encodeValue(data.volumeMounts).Some?
  }

  // Everything but the four last-operation fields comes from the response.
  function WithResponseData(codec: Codec, atProvider: BindingObservation, data: ResponseData): BindingObservation
    requires EncodableData(codec, data)
  {
    atProvider.(parameters := codec.encodeParams(data.parameters).value,
                endpoints := codec.encodeValue(data.endpoints).value,
                volumeMounts := codec.encodeValue(data.volumeMounts).value,
                routeServiceUrl := data.routeServiceUrl,
                syslogDrainUrl := data.syslogDrainUrl,
                metadata := data.metadata)
  }

  // Bindings are not updatable: observed and desired parameters are compared,
  // and a difference is an error of Observe.
  function IsStatusParametersNotLikeSpecParameters(codec: Codec, statusText: string, specText: string)
    : Result<bool, Failure>
  {
    if statusText == "" then Err(EmptyStatusParameters)
    else
      var statusParams, specParams := codec.decodeParams(statusText), codec.decodeParams(specText);
      if statusParams.None? || specParams.None? then Err(CannotDecode)
      else Ok(statusParams != specParams)
  }

  /******* Request builders *******/

  function SpecGuard(spec: BindingSpec): Option<Failure> {
    if spec.instanceId == "" then Some(EmptyInstanceId)
    else if spec.planId == "" then Some(EmptyPlanId)
    else if spec.serviceId == "" then Some(EmptyServiceId)
    else None
  }

  function ValidateInputs(spec: BindingSpec, oid: OriginatingIdentity): Option<Failure> {
    if OidGuard(oid).Some? then OidGuard(oid) else SpecGuard(spec)
  }

  function BuildGetBindingRequest(obj: BindingObject): Result<GetBindingRequest, Failure> {
    if obj.spec.instanceId == "" then Err(EmptyInstanceId)
    else if obj.externalName == "" then Err(EmptyBindingId)
    else Ok(GetBindingRequest(obj.spec.instanceId, obj.externalName))
  }

  // Note that the plan and service IDs are not checked here.
  function BuildRotateBindingRequest(obj: BindingObject, oid: OriginatingIdentity, newUuid: string)
    : Result<RotateRequest, Failure>
  {
    if OidGuard(oid).Some? then Err(OidGuard(oid).value)
    else if obj.spec.instanceId == "" then Err(EmptyInstanceId)
    else if obj.externalName == "" then Err(EmptyBindingId)
    else if newUuid == "" then Err(EmptyNewBindingId)
    else Ok(RotateRequest(obj.spec.instanceId, newUuid, obj.externalName, oid))
  }

  function BuildUnbindRequest(obj: BindingObject, oid: OriginatingIdentity): Result<UnbindRequest, Failure> {
    if ValidateInputs(obj.spec, oid).Some? then Err(ValidateInputs(obj.spec, oid).value)
    else if obj.externalName == "" then Err(EmptyBindingId)
    else Ok(UnbindRequest(obj.spec.instanceId, obj.externalName, obj.spec.serviceId, obj.spec.planId, oid))
  }

  function BuildBindingLastOperationRequest(obj: BindingObject, oid: OriginatingIdentity)
    : Result<PollRequest, Failure>
  {
    if ValidateInputs(obj.spec, oid).Some? then Err(ValidateInputs(obj.spec, oid).value)
    else if obj.externalName == "" then Err(EmptyBindingId)
    else Ok(PollRequest(obj.spec.instanceId, obj.externalName, obj.spec.serviceId, obj.spec.planId, oid,
                        obj.atProvider.lastOperationKey))
  }

  // The Bind request once the binding has its ID.
  function BindRequestFor(cfg: BindingConfig, obj: BindingObject, parameters: Params): BindRequest {
    BindRequest(obj.externalName, obj.spec.instanceId, obj.spec.planId, obj.spec.serviceId,
                !cfg.disableAsync,
                if obj.spec.appGuid != "" then Some(obj.spec.appGuid) else None, obj.spec.route,
                Some(ContextToMap(obj.spec.context)), parameters, cfg.oid)
  }

  /******* Renewal *******/

  datatype BindingAction = RenewalData | RotateBinding | NoRenewal

  function RenewalOutcome(cfg: BindingConfig, conditions: Conditions, metadata: Option<BindingMetadata>,
      a: BindingAnswers)
    : (Conditions, Result<BindingAction, Failure>)
  {
    if metadata.None? then (conditions, Ok(NoRenewal))
    else if metadata.value.renewBefore == "" then (conditions, Ok(RenewalData))
    else
      var renewBefore := cfg.codec.parseTime(metadata.value.renewBefore);
      if renewBefore.None? then (conditions, Err(CannotParseTime))
      else if renewBefore.value >= a.renewClock then (conditions, Ok(NoRenewal))
      else
        var expiresAt := cfg.codec.parseTime(metadata.value.expiresAt);
        if expiresAt.None? then (conditions, Err(CannotParseTime))
        else if expiresAt.value < a.expiryClock then
          (WithCondition(conditions, Expired(expiresAt.value)),
           Ok(if cfg.rotateBinding then RotateBinding else NoRenewal))
        else if cfg.rotateBinding then (conditions, Ok(RotateBinding))
        else (WithCondition(conditions, ExpiringSoon(expiresAt.value)), Ok(NoRenewal))
  }

  /******* Observe *******/

  datatype Observed = Observed(action: Action, credentials: Option<map<string, string>>)

  function PollErrorOutcome(s: BindingState, error: OsbError, a: BindingAnswers): Outcome<Action> {
    if !(IsResourceGone(error) && s.obj.deleted) then Outcome(s, Err(BrokerFailed(error)))
    else if ASYNC_DELETION_FINALIZER !in s.obj.finalizers then Outcome(s, Ok(NeedToCreate))
    else
      var obj := s.obj.(finalizers := s.obj.finalizers - {ASYNC_DELETION_FINALIZER});
      if a.updateOk then Outcome(s.(obj := obj, stored := Updated(s.stored, obj)), Ok(NeedToCreate))
      else Outcome(s.(obj := obj), Err(StoreFailed))
  }

  function LastOperationOutcome(cfg: BindingConfig, s: BindingState, a: BindingAnswers): Outcome<Action> {
    match BuildBindingLastOperationRequest(s.obj, cfg.oid)
    case Err(f) => Outcome(s, Err(f))
    case Ok(req) =>
      var polled := s.Sent(PollSent(req, a.poll));
      match a.poll
      case Refused(error) => PollErrorOutcome(polled, error, a)
      case Answered(resp) =>
        if !a.refetchOk then Outcome(polled, Err(StoreFailed))
        else
          // the refetch overwrites the object in memory
          var stored := Edited(polled.stored, a.concurrent);
          Outcome(polled.(stored := stored, obj := AfterLastOperation(stored, resp)), Ok(NothingToDo))
  }

  function CompareOutcome(cfg: BindingConfig, s: BindingState, credentials: Option<map<string, string>>)
    : Outcome<Observed>
  {
    match IsStatusParametersNotLikeSpecParameters(cfg.codec, s.obj.atProvider.parameters, s.obj.spec.parameters)
    case Err(f) => Outcome(s, Err(f))
    case Ok(differ) => Outcome(s, if differ then Err(ParametersDiffer) else Ok(Observed(NothingToDo, credentials)))
  }

  function GetBindingOutcome(cfg: BindingConfig, s: BindingState, resp: GetBindingResponse, a: BindingAnswers)
    : Outcome<Observed>
  {
    var data := CreateResponseData(resp);
    if !EncodableData(cfg.codec, data) then Outcome(s, Err(CannotEncode))
    else
      var s1 := s.(obj := s.obj.(atProvider := WithResponseData(cfg.codec, s.obj.atProvider, data)));
      match MarshalledCredentials(cfg.codec, resp.credentials)
      case Err(_) => Outcome(s1, Err(CannotEncode))
      case Ok(credentials) =>
        var (conditions, action) := RenewalOutcome(cfg, s1.obj.conditions, resp.metadata, a);
        var s2 := s1.(obj := s1.obj.(conditions := conditions));
        match action
        case Err(f) => Outcome(s2, Err(f))
        case Ok(RenewalData) => Outcome(s2, Ok(Observed(NothingToDo, credentials)))
        case Ok(RotateBinding) => Outcome(s2, Ok(Observed(NeedToUpdate, credentials)))
        case Ok(NoRenewal) => CompareOutcome(cfg, s2, credentials)
  }

  function ObserveStateOutcome(cfg: BindingConfig, s: BindingState, a: BindingAnswers): Outcome<Observed> {
    if s.obj.InProgress() then
      var o := LastOperationOutcome(cfg, s, a);
      Outcome(o.state, if o.result.Ok? then Ok(Observed(o.result.value, None)) else Err(o.result.error))
    else if s.obj.externalName == "" then Outcome(s, Ok(Observed(NeedToCreate, None)))
    else
      match BuildGetBindingRequest(s.obj)
      case Err(f) => Outcome(s, Err(f))
      case Ok(req) =>
        var s1 := s.Sent(GetSent(req, a.get));
        match a.get
        case Refused(error) =>
          Outcome(s1, if IsResourceGone(error) then Ok(Observed(NeedToCreate, None)) else Err(BrokerFailed(error)))
        case Answered(resp) => GetBindingOutcome(cfg, s1, resp, a)
  }

  // managed.ExternalObservation
  datatype Observation =
    Observation(resourceExists: bool, resourceUpToDate: bool, connectionDetails: Option<map<string, string>>)

  function ObserveOutcome(cfg: BindingConfig, s: BindingState, a: BindingAnswers): Outcome<Observation> {
    var o := ObserveStateOutcome(cfg, s, a);
    match o.result
    case Err(f) => Outcome(o.state, Err(f))
    case Ok(Observed(NeedToCreate, _)) => Outcome(o.state, Ok(Observation(false, false, None)))
    case Ok(Observed(NeedToUpdate, _)) => Outcome(o.state, Ok(Observation(true, false, None)))
    case Ok(Observed(NothingToDo, credentials)) =>
      Outcome(o.state.(obj := o.state.obj.(conditions := WithCondition(o.state.obj.conditions, Available))),
              Ok(Observation(true, true, credentials)))
  }

  /******* Create, Update, Delete *******/

  // The response of a synchronous Bind; None when the broker works asynchronously.
  function BindOutcome(cfg: BindingConfig, s: BindingState, a: BindingAnswers): Outcome<Option<BindResponse>> {
    var params := cfg.codec.decodeParams(s.obj.spec.parameters);
    if params.None? then Outcome(s, Err(CannotDecode))
    else if ValidateInputs(s.obj.spec, cfg.oid).Some? then Outcome(s, Err(ValidateInputs(s.obj.spec, cfg.oid).value))
    else
      var named := if s.obj.externalName != "" then s.obj else s.obj.(externalName := a.newUuid);
      var s1 := s.(obj := named).Sent(BindSent(BindRequestFor(cfg, named, params.value), a.bind));
      match a.bind
      case Refused(error) => Outcome(s1, Err(BrokerFailed(error)))
      case Answered(None) => Outcome(s1, Err(NilResponse))
      case Answered(Some(resp)) =>
        if resp.async then Outcome(s1.(obj := AfterAsync(s1.obj, resp.operationKey)), Ok(None))
        else Outcome(s1, Ok(Some(resp)))
  }

  function CreateOutcome(cfg: BindingConfig, s: BindingState, a: BindingAnswers): Outcome<Option<map<string, string>>> {
    var o := BindOutcome(cfg, s, a);
    match o.result
    case Err(f) => Outcome(o.state, Err(f))
    case Ok(None) => Outcome(o.state, Ok(None))
    case Ok(Some(resp)) =>
      if !cfg.codec.Encodable(Entries(resp.credentials)) then Outcome(o.state, Err(CannotEncode))
      else
        match CreateResponseDataWithBindingParameters(cfg.codec, o.state.obj.atProvider, resp)
        case Err(f) => Outcome(o.state, Err(f))
        case Ok(data) =>
          if !EncodableData(cfg.codec, data) then Outcome(o.state, Err(CannotEncode))
          else
            var obj := o.state.obj.(atProvider := WithResponseData(cfg.codec, o.state.obj.atProvider, data));
            Outcome(o.state.(obj := obj), Ok(cfg.codec.Marshalled(Entries(resp.credentials))))
  }

  function RotationOutcome(cfg: BindingConfig, s: BindingState, a: BindingAnswers)
    : Outcome<Option<map<string, string>>>
  {
    match BuildRotateBindingRequest(s.obj, cfg.oid, a.newUuid)
    case Err(f) => Outcome(s, Err(f))
    case Ok(req) =>
      var s1 := s.Sent(RotateSent(req, a.rotate));
      match a.rotate
      case Refused(error) => Outcome(s1, Err(BrokerFailed(error)))
      case Answered(resp) =>
        var renamed := s1.obj.(externalName := a.newUuid);
        if !resp.async then
          var creds := cfg.codec.Marshalled(Entries(resp.credentials));
          Outcome(s1.(obj := renamed), if creds.None? then Err(CannotEncode) else Ok(creds))
        else
          var obj := AfterAsync(renamed, resp.operationKey);
          Outcome(s1.(obj := obj.(atProvider := obj.atProvider.(
                    lastOperationPolledTime := a.polledTime, lastOperationDescription := ""))), Ok(None))
  }

  // True when the broker unbinds asynchronously.
  function UnbindOutcome(cfg: BindingConfig, s: BindingState, a: BindingAnswers): Outcome<bool> {
    match BuildUnbindRequest(s.obj, cfg.oid)
    case Err(f) => Outcome(s, Err(f))
    case Ok(req) =>
      var s1 := s.Sent(UnbindSent(req, a.unbind));
      match a.unbind
      case Refused(error) => Outcome(s1, Err(BrokerFailed(error)))
      case Answered(None) => Outcome(s1, Err(NilResponse))
      case Answered(Some(resp)) =>
        if !resp.async then Outcome(s1, Ok(false))
        else
          var pending := AfterAsync(s1.obj, resp.operationKey);
          if ASYNC_DELETION_FINALIZER in pending.finalizers then Outcome(s1.(obj := pending), Ok(true))
          else
            var obj := pending.(finalizers := pending.finalizers + {ASYNC_DELETION_FINALIZER});
            if a.updateOk then Outcome(s1.(obj := obj, stored := Updated(s1.stored, obj)), Ok(true))
            else Outcome(s1.(obj := obj), Err(StoreFailed))
  }

  function DeleteOutcome(cfg: BindingConfig, s: BindingState, a: BindingAnswers): Outcome<bool> {
    UnbindOutcome(cfg, s.(obj := s.obj.(conditions := WithCondition(s.obj.conditions, Deleting))), a)
  }

  /******* The driver: one reconcile *******/

  datatype BindingWorld = BindingWorld(stored: BindingObject, log: seq<BindingEvent>)

  // `released`: the driver let go of a deleted object because it no longer exists.
  datatype Reconciled = Reconciled(world: BindingWorld, released: bool)

  function Kept(s: BindingState): Reconciled {
    Reconciled(BindingWorld(Persisted(s.stored, s.obj), s.log), false)
  }

  function ReconcileOutcome(cfg: BindingConfig, w: BindingWorld, a: BindingAnswers): Reconciled {
    var o := ObserveOutcome(cfg, BindingState(w.stored, w.stored, w.log), a);
    if o.result.Err? then Kept(o.state)
    else if o.state.obj.deleted then
      if o.result.value.resourceExists then Kept(DeleteOutcome(cfg, o.state, a).state)
      else Reconciled(BindingWorld(o.state.stored, o.state.log), true)
    else if !o.result.value.resourceExists then Kept(CreateOutcome(cfg, o.state, a).state)
    else if !o.result.value.resourceUpToDate then Kept(RotationOutcome(cfg, o.state, a).state)
    else Kept(o.state)
  }
}
