// The part of the Open Service Broker API v2.17 and of the Kubernetes object
// model both controllers share.
module OsbApi {
  import opened Results
  import opened JsonValues

  datatype OperationState =
    | StateUnset
    | StateInProgress
    | StateSucceeded
    | StateFailed
    | StateDeleting
    | StateOther(name: string)

  type OperationKey = string

  // The key recorded once an asynchronous answer came, with or without one.
  function KeyAfter(key: OperationKey, answered: Option<OperationKey>): OperationKey {
    if answered.Some? then answered.value else key
  }

  datatype OsbError = HttpError(statusCode: int) | OtherError

  // An error means "gone" only when it carries HTTP status 404 or 410.
  predicate IsResourceGone(err: OsbError)
    ensures IsResourceGone(err) <==> err == HttpError(404) || err == HttpError(410)
  {
    err.HttpError? && (err.statusCode == 410 || err.statusCode == 404)
  }

  // What the broker client returns for a request.
  datatype Reply<+T> = Answered(value: T) | Refused(error: OsbError)

  predicate IsGoneReply<T>(reply: Reply<T>) {
    reply.Refused? && IsResourceGone(reply.error)
  }

  datatype OriginatingIdentity = OriginatingIdentity(platform: string, value: string)

  datatype LastOperationResponse =
    LastOperationResponse(state: OperationState, description: Option<string>)

  // Which guard or call stopped an operation.
  datatype Failure =
    | EmptyOidPlatform
    | EmptyOidValue
    | EmptyInstanceId
    | EmptyPlanId
    | EmptyServiceId
    | EmptyBindingId
    | EmptyNewBindingId
    | EmptyOrganizationGuid
    | EmptySpaceGuid
    | EmptyContext
    | EmptyStatusParameters
    | CannotEncode
    | CannotDecode
    | CannotParseTime
    | ParametersDiffer
    | NilResponse
    | BrokerFailed(error: OsbError)
    | StoreFailed
    | ActiveBindings

  // The first empty part of the originating identity, if any.
  function OidGuard(oid: OriginatingIdentity): Option<Failure> {
    if oid.platform == "" then Some(EmptyOidPlatform)
    else if oid.value == "" then Some(EmptyOidValue)
    else None
  }

  // How requests are guarded: part by part, and the first empty one is named.
  function Unless<T>(part: string, failure: Failure, next: Result<T, Failure>): Result<T, Failure> {
    if part == "" then Err(failure) else next
  }

  // The guards of the identity.
  function IfIdentified<T>(oid: OriginatingIdentity, next: Result<T, Failure>): Result<T, Failure> {
    Unless(oid.platform, EmptyOidPlatform, Unless(oid.value, EmptyOidValue, next))
  }

  // What ObserveState tells the controller to do next.
  datatype Action = NothingToDo | NeedToCreate | NeedToUpdate

  // KubernetesOSBContext, with Go's nil-able annotation maps.
  datatype Context = Context(
    platform: string,
    namespace: string,
    namespaceAnnotations: Option<map<string, string>>,
    instanceAnnotations: Option<map<string, string>>,
    clusterId: string,
    instanceName: string)

  function AnnotationMember(key: string, annotations: Option<map<string, string>>): map<string, Json> {
    // omitempty: nil and empty annotation maps leave no member behind
    if annotations.None? || annotations.value == map[] then map[]
    else map[key := JObject(map k | k in annotations.value :: JString(annotations.value[k]))]
  }

  // KubernetesOSBContext.ToMap: the struct's JSON members.
  function ContextToMap(c: Context): map<string, Json> {
    map["platform" := JString(c.platform),
        "namespace" := JString(c.namespace),
        "clusterId" := JString(c.clusterId),
        "instanceName" := JString(c.instanceName)]
    + AnnotationMember("namespaceAnnotations", c.namespaceAnnotations)
    + AnnotationMember("instanceAnnotations", c.instanceAnnotations)
  }

  function Annotations(annotations: Option<map<string, string>>): map<string, string> {
    if annotations.Some? then annotations.value else map[]
  }

  // The JSON members tell any two contexts apart, but for nil and empty
  // annotation maps.
  lemma ContextToMapTellsApart(c: Context, d: Context)
    requires ContextToMap(c) == ContextToMap(d)
    ensures c.platform == d.platform && c.namespace == d.namespace
    ensures c.clusterId == d.clusterId && c.instanceName == d.instanceName
    ensures Annotations(c.namespaceAnnotations) == Annotations(d.namespaceAnnotations)
    ensures Annotations(c.instanceAnnotations) == Annotations(d.instanceAnnotations)
  {
    Members(c);
    Members(d);
    var m, n := ContextToMap(c), ContextToMap(d);
    SameMember("namespaceAnnotations", m, n, c.namespaceAnnotations, d.namespaceAnnotations);
    SameMember("instanceAnnotations", m, n, c.instanceAnnotations, d.instanceAnnotations);
  }

  // The members under the part of the context each comes from.
  lemma Members(c: Context)
    ensures var m := ContextToMap(c);
      && m["platform"] == JString(c.platform) && m["namespace"] == JString(c.namespace)
      && m["clusterId"] == JString(c.clusterId) && m["instanceName"] == JString(c.instanceName)
      && AnnotationMember("namespaceAnnotations", c.namespaceAnnotations) == MemberOf("namespaceAnnotations", m)
      && AnnotationMember("instanceAnnotations", c.instanceAnnotations) == MemberOf("instanceAnnotations", m)
  {
  }

  function MemberOf(key: string, m: map<string, Json>): map<string, Json> {
    if key in m then map[key := m[key]] else map[]
  }

  lemma SameMember(key: string, m: map<string, Json>, n: map<string, Json>,
                   a: Option<map<string, string>>, b: Option<map<string, string>>)
    requires m == n && AnnotationMember(key, a) == MemberOf(key, m) && AnnotationMember(key, b) == MemberOf(key, n)
    ensures Annotations(a) == Annotations(b)
  {
    if key in m {
      assert key in AnnotationMember(key, a) && key in AnnotationMember(key, b);
      var x, y := AnnotationMember(key, a)[key].members, AnnotationMember(key, b)[key].members;
      assert x == y;
      forall k | k in a.value ensures k in b.value && a.value[k] == b.value[k] {
        assert k in x;
        assert x[k] == JString(a.value[k]);
      }
      forall k | k in b.value ensures k in a.value {
        assert k in y;
      }
    } else {
      assert key !in AnnotationMember(key, a) && key !in AnnotationMember(key, b);
    }
  }

  // Status conditions: one per type, as SetConditions keeps them.
  datatype ConditionType = Ready | Healthy

  datatype Condition =
    | Available
    | Unavailable
    | Creating
    | Deleting
    | Expired(at: int)
    | ExpiringSoon(at: int)
  {
    function Type(): ConditionType {
      if Expired? || ExpiringSoon? then Healthy else Ready
    }
  }

  type Conditions = map<ConditionType, Condition>

  function WithCondition(conditions: Conditions, c: Condition): Conditions {
    conditions[c.Type() := c]
  }

  // The readiness a polled state stands for; an unknown state leaves it alone.
  function ConditionsAfterPoll(conditions: Conditions, state: OperationState): Conditions {
    match state
    case StateSucceeded => WithCondition(conditions, Available)
    case StateInProgress => WithCondition(conditions, Unavailable)
    case StateDeleting => WithCondition(conditions, Unavailable)
    case StateFailed => WithCondition(conditions, Unavailable)
    case StateUnset => conditions
    case StateOther(_) => conditions
  }
}
