// What one reconcile of a binding decides, exactly: when it rotates, when it
// reports drift, how expiry is classified, that observing twice changes nothing
// more, and that an in-progress binding can always be polled.
module BindingSteps {
  import opened Results
  import opened JsonValues
  import opened OsbApi
  import opened Marshalling
  import opened BindingModel
  import opened BindingRuns
  import opened BindingDeletion

  /******* Parameters: the stored comparison is the direct one *******/

  // Comparing the serialized status, once refreshed from a response, with the
  // serialized spec decides whether the broker's parameters are the spec's, nil
  // and empty maps told apart.
  lemma StoredComparisonIsDirect(codec: Codec, atProvider: BindingObservation, data: ResponseData, specText: string)
    requires codec.RoundTrips() && EncodableData(codec, data)
    ensures
      IsStatusParametersNotLikeSpecParameters(codec, WithResponseData(codec, atProvider, data).parameters, specText) ==
      (var spec := codec.decodeParams(specText);
       if spec.None? then Err(CannotDecode) else Ok(data.parameters != spec.value))
  {
    var text := codec.encodeParams(data.parameters).value;
    assert codec.decodeParams(text) == Some(data.parameters);
  }

  // Reading the status back: the serialized fields decoded.
  function ReadBack(codec: Codec, atProvider: BindingObservation): Option<ResponseData> {
    var parameters := codec.ToParameters(atProvider.parameters);
    var endpoints, volumeMounts := codec.decodeValue(atProvider.endpoints), codec.decodeValue(atProvider.volumeMounts);
    if parameters.None? || endpoints.None? || volumeMounts.None? then None
    else Some(ResponseData(parameters.value, endpoints.value, volumeMounts.value,
                           atProvider.routeServiceUrl, atProvider.syslogDrainUrl, atProvider.metadata))
  }

  // What a response writes into the status can be read back from it in full,
  // and the last operation is not part of what it writes.
  lemma ResponseDataRoundTrips(codec: Codec, atProvider: BindingObservation, data: ResponseData)
    requires codec.RoundTrips() && EncodableData(codec, data)
    ensures var seen := WithResponseData(codec, atProvider, data);
      && ReadBack(codec, seen) == Some(data)
      && seen.lastOperationState == atProvider.lastOperationState
      && seen.lastOperationKey == atProvider.lastOperationKey
      && seen.lastOperationDescription == atProvider.lastOperationDescription
      && seen.lastOperationPolledTime == atProvider.lastOperationPolledTime
  {
    var text := codec.encodeParams(data.parameters).value;
    assert codec.decodeParams(text) == Some(data.parameters);
    assert codec.decodeValue(codec.encodeValue(data.endpoints).value) == Some(data.endpoints);
    assert codec.decodeValue(codec.encodeValue(data.volumeMounts).value) == Some(data.volumeMounts);
  }

  // The GetBinding answer of a settled, named binding can be stored and its
  // credentials encoded.
  predicate Answers(cfg: BindingConfig, obj: BindingObject, a: BindingAnswers) {
    && !obj.InProgress()
    && BuildGetBindingRequest(obj).Ok? && a.get.Answered?
    && EncodableData(cfg.codec, CreateResponseData(a.get.value))
    && MarshalledCredentials(cfg.codec, a.get.value.credentials).Ok?
  }

  // The renewal check has nothing to say: there is no metadata, or its renewal
  // date can be read and has not passed, or it has, the expiry can be read as
  // well and rotation is off.
  predicate NoRenewalDue(cfg: BindingConfig, metadata: Option<BindingMetadata>, a: BindingAnswers) {
    metadata.None? ||
    var renewal := cfg.codec.parseTime(metadata.value.renewBefore);
    var expiry := cfg.codec.parseTime(metadata.value.expiresAt);
    && metadata.value.renewBefore != "" && renewal.Some?
    && (a.renewClock <= renewal.value || (expiry.Some? && !cfg.rotateBinding))
  }

  predicate NoRenewalDate(metadata: Option<BindingMetadata>) {
    metadata.Some? && metadata.value.renewBefore == ""
  }

  // On the comparison path Observe succeeds exactly when the broker's
  // parameters are those the spec decodes to.
  lemma ObserveComparesDirectly(cfg: BindingConfig, s: BindingState, a: BindingAnswers)
    requires cfg.codec.RoundTrips() && Answers(cfg, s.obj, a)
    requires NoRenewalDue(cfg, a.get.value.metadata, a)
    ensures ObserveOutcome(cfg, s, a).result.Ok? <==>
      cfg.codec.decodeParams(s.obj.spec.parameters) == Some(a.get.value.parameters)
  {
    StoredComparisonIsDirect(cfg.codec, s.obj.atProvider, CreateResponseData(a.get.value), s.obj.spec.parameters);
  }

  lemma ObservesNoDrift(cfg: BindingConfig, s: BindingState, a: BindingAnswers)
    requires cfg.codec.RoundTrips() && Answers(cfg, s.obj, a)
    requires NoRenewalDue(cfg, a.get.value.metadata, a)
    requires cfg.codec.decodeParams(s.obj.spec.parameters) == Some(a.get.value.parameters)
    ensures ObserveOutcome(cfg, s, a).result ==
      Ok(Observation(true, true, MarshalledCredentials(cfg.codec, a.get.value.credentials).value))
  {
    ObserveComparesDirectly(cfg, s, a);
  }

  // A binding observes as equal to what it was bound with: when the broker gives
  // back the parameters of the Bind request, the comparison path finds no drift.
  lemma EchoedBindHasNoDrift(cfg: BindingConfig, bound: BindingObject, b: BindingAnswers, s: BindingState,
      a: BindingAnswers)
    requires cfg.codec.RoundTrips() && CreateCall(cfg, bound, b).Some?
    requires s.obj.spec.parameters == bound.spec.parameters
    requires Answers(cfg, s.obj, a) && NoRenewalDue(cfg, a.get.value.metadata, a)
    requires a.get.value.parameters == CreateCall(cfg, bound, b).value.bind.parameters
    ensures ObserveOutcome(cfg, s, a).result ==
      Ok(Observation(true, true, MarshalledCredentials(cfg.codec, a.get.value.credentials).value))
  {
    ObservesNoDrift(cfg, s, a);
  }

  // A difference between broker and spec is reported exactly when the spec
  // decodes and no renewal is due. Metadata without a renewal date hides it: the
  // binding is then up to date whatever the two sides hold.
  lemma DriftReportedIff(cfg: BindingConfig, s: BindingState, a: BindingAnswers)
    requires cfg.codec.RoundTrips() && Answers(cfg, s.obj, a)
    ensures ObserveOutcome(cfg, s, a).result == Err(ParametersDiffer) <==>
      && NoRenewalDue(cfg, a.get.value.metadata, a)
      && cfg.codec.decodeParams(s.obj.spec.parameters).Some?
      && cfg.codec.decodeParams(s.obj.spec.parameters).value != a.get.value.parameters
    ensures NoRenewalDate(a.get.value.metadata) ==>
      ObserveOutcome(cfg, s, a).result ==
      Ok(Observation(true, true, MarshalledCredentials(cfg.codec, a.get.value.credentials).value))
  {
    StoredComparisonIsDirect(cfg.codec, s.obj.atProvider, CreateResponseData(a.get.value), s.obj.spec.parameters);
  }

  /******* Rotation *******/

  predicate RenewalPassed(codec: Codec, metadata: Option<BindingMetadata>, a: BindingAnswers) {
    && metadata.Some? && metadata.value.renewBefore != ""
    && codec.parseTime(metadata.value.renewBefore).Some?
    && codec.parseTime(metadata.value.renewBefore).value < a.renewClock
    && codec.parseTime(metadata.value.expiresAt).Some?
  }

  predicate EndsWithRotation(w: BindingWorld, w': BindingWorld) {
    |w'.log| > |w.log| && w'.log[|w'.log| - 1].RotateSent?
  }

  // A reconcile sends a rotation exactly when the object is not deleted, no
  // operation is in progress, rotation is enabled, the GetBinding of this very
  // reconcile was answered with a renewal date strictly in the past and a
  // readable expiry, and the request can be built.
  lemma RotationIsJustified(cfg: BindingConfig, w: BindingWorld, a: BindingAnswers)
    ensures EndsWithRotation(w, ReconcileOutcome(cfg, w, a).world) <==>
      && !w.stored.deleted && Answers(cfg, w.stored, a)
      && cfg.rotateBinding && RenewalPassed(cfg.codec, a.get.value.metadata, a)
      && BuildRotateBindingRequest(w.stored, cfg.oid, a.newUuid).Ok?
  {
    var s := BindingState(w.stored, w.stored, w.log);
    var o := ObserveOutcome(cfg, s, a);
    var w' := ReconcileOutcome(cfg, w, a).world;
    ObserveFrame(cfg, w, a, o);
    ReconcileFrame(cfg, w, a, o, w');
    UpdateVerdictIff(cfg, s, a, o);
    if SecondCall(cfg, o, a).Some? && SecondCall(cfg, o, a).value.RotateSent? {
      assert o.result == Ok(Observation(true, false, None));
    }
    if !w.stored.InProgress() && BuildGetBindingRequest(w.stored).Ok? && a.get.Answered? {
      GetBindingKeeps(cfg, s.Sent(GetSent(BuildGetBindingRequest(w.stored).value, a.get)), a.get.value, a);
    }
  }

  lemma UpdateVerdictIff(cfg: BindingConfig, s: BindingState, a: BindingAnswers, o: Outcome<Observation>)
    requires o == ObserveOutcome(cfg, s, a)
    ensures o.result == Ok(Observation(true, false, None)) <==>
      Answers(cfg, s.obj, a) && cfg.rotateBinding && RenewalPassed(cfg.codec, a.get.value.metadata, a)
    ensures o.result.Ok? && o.result.value.resourceExists && !o.result.value.resourceUpToDate ==>
      o.result == Ok(Observation(true, false, None)) && o.state.obj.spec == s.obj.spec
  {
  }

  /******* Observing twice *******/

  // Both sets of clock readings fall on the same side of both dates.
  predicate SameTime(codec: Codec, metadata: Option<BindingMetadata>, a: BindingAnswers, b: BindingAnswers) {
    metadata.Some? ==>
      var renewal, expiry := codec.parseTime(metadata.value.renewBefore), codec.parseTime(metadata.value.expiresAt);
      && (renewal.Some? ==> (renewal.value < a.renewClock <==> renewal.value < b.renewClock))
      && (expiry.Some? ==> (expiry.value < a.expiryClock <==> expiry.value < b.expiryClock))
  }

  lemma RenewalTwice(cfg: BindingConfig, conditions: Conditions, metadata: Option<BindingMetadata>,
      a: BindingAnswers, b: BindingAnswers)
    requires SameTime(cfg.codec, metadata, a, b)
    ensures var first := RenewalOutcome(cfg, conditions, metadata, a);
      && RenewalOutcome(cfg, first.0, metadata, b) == first
      && RenewalOutcome(cfg, WithCondition(first.0, Available), metadata, b) ==
         (WithCondition(first.0, Available), first.1)
  {
    var first := RenewalOutcome(cfg, conditions, metadata, a);
    var ready := WithCondition(first.0, Available);
    if first.0 != conditions {
      var c := first.0[Healthy];
      assert first.0 == WithCondition(conditions, c);
      assert WithCondition(first.0, c) == first.0;
      assert WithCondition(ready, c) == ready;
    } else if metadata.Some? {
      var expiry := cfg.codec.parseTime(metadata.value.expiresAt);
      if expiry.Some? {
        RewriteCondition(conditions, Expired(expiry.value));
        RewriteCondition(conditions, ExpiringSoon(expiry.value));
      }
    }
  }

  // A condition already in place is written again without effect, also under
  // a readiness that was set since.
  lemma RewriteCondition(conditions: Conditions, c: Condition)
    requires c.Type() == Healthy
    ensures WithCondition(conditions, c) == conditions ==>
      WithCondition(WithCondition(conditions, Available), c) == WithCondition(conditions, Available)
  {
    if WithCondition(conditions, c) == conditions {
      assert conditions[Healthy] == c;
      var ready := WithCondition(conditions, Available);
      assert WithCondition(ready, c) == ready;
    }
  }

  // Observing a settled binding twice, with the same broker answer and the
  // clocks on the same side of both dates, gives the same result, leaves the
  // same object, and never touches the last operation.
  lemma ObserveIsIdempotent(cfg: BindingConfig, s: BindingState, a: BindingAnswers, b: BindingAnswers)
    requires !s.obj.InProgress() && a.get == b.get
    requires a.get.Answered? ==> SameTime(cfg.codec, a.get.value.metadata, a, b)
    ensures var first := ObserveOutcome(cfg, s, a);
      var second := ObserveOutcome(cfg, first.state, b);
      && second.result == first.result
      && second.state.obj == first.state.obj && second.state.stored == first.state.stored
      && first.state.obj.atProvider.lastOperationState == s.obj.atProvider.lastOperationState
      && first.state.obj.atProvider.lastOperationKey == s.obj.atProvider.lastOperationKey
      && first.state.obj.atProvider.lastOperationDescription == s.obj.atProvider.lastOperationDescription
      && first.state.obj.atProvider.lastOperationPolledTime == s.obj.atProvider.lastOperationPolledTime
  {
    if BuildGetBindingRequest(s.obj).Ok? && a.get.Answered? {
      var req := BuildGetBindingRequest(s.obj).value;
      var s1 := s.Sent(GetSent(req, a.get));
      GetBindingKeeps(cfg, s1, a.get.value, a);
      var first := ObserveOutcome(cfg, s, a);
      var s2 := first.state.Sent(GetSent(req, a.get));
      GetBindingTwice(cfg, s1, s2, a.get.value, a, b);
    }
  }

  lemma GetBindingTwice(cfg: BindingConfig, s: BindingState, t: BindingState, resp: GetBindingResponse,
      a: BindingAnswers, b: BindingAnswers)
    requires SameTime(cfg.codec, resp.metadata, a, b)
    requires var o := GetBindingOutcome(cfg, s, resp, a);
      var ready := WithCondition(o.state.obj.conditions, Available);
      t.obj == if o.result.Ok? && o.result.value.action == NothingToDo then o.state.obj.(conditions := ready)
               else o.state.obj
    ensures var o, p := GetBindingOutcome(cfg, s, resp, a), GetBindingOutcome(cfg, t, resp, b);
      && p.result == o.result && p.state.obj == t.obj && p.state.stored == t.stored
  {
    RenewalTwice(cfg, s.obj.conditions, resp.metadata, a, b);
    var data := CreateResponseData(resp);
    if EncodableData(cfg.codec, data) {
      var seen := WithResponseData(cfg.codec, s.obj.atProvider, data);
      assert WithResponseData(cfg.codec, seen, data) == seen;
      GetBindingShape(cfg, s, resp, a);
      GetBindingShape(cfg, t, resp, b);
    }
  }

  // A GetBinding outcome in one piece: which object it leaves, and what decides
  // the result.
  lemma GetBindingShape(cfg: BindingConfig, s: BindingState, resp: GetBindingResponse, a: BindingAnswers)
    requires EncodableData(cfg.codec, CreateResponseData(resp))
    ensures var o, creds := GetBindingOutcome(cfg, s, resp, a), MarshalledCredentials(cfg.codec, resp.credentials);
      var seen := WithResponseData(cfg.codec, s.obj.atProvider, CreateResponseData(resp));
      var (conditions, action) := RenewalOutcome(cfg, s.obj.conditions, resp.metadata, a);
      && o.state == s.(obj := s.obj.(atProvider := seen,
                                     conditions := if creds.Ok? then conditions else s.obj.conditions))
      && o.result == if creds.Err? then Err(CannotEncode)
                     else Verdict(cfg, action, seen.parameters, s.obj.spec.parameters, creds.value)
  {
  }

  function Verdict(cfg: BindingConfig, action: Result<BindingAction, Failure>, status: string, spec: string,
      credentials: Option<map<string, string>>)
    : Result<Observed, Failure>
  {
    match action
    case Err(f) => Err(f)
    case Ok(RenewalData) => Ok(Observed(NothingToDo, credentials))
    case Ok(RotateBinding) => Ok(Observed(NeedToUpdate, credentials))
    case Ok(NoRenewal) =>
      match IsStatusParametersNotLikeSpecParameters(cfg.codec, status, spec)
      case Err(f) => Err(f)
      case Ok(differ) => if differ then Err(ParametersDiffer) else Ok(Observed(NothingToDo, credentials))
  }

  lemma GetBindingIgnoresStore(cfg: BindingConfig, s: BindingState, t: BindingState, resp: GetBindingResponse,
      a: BindingAnswers)
    requires t.obj == s.obj
    ensures var o, p := GetBindingOutcome(cfg, s, resp, a), GetBindingOutcome(cfg, t, resp, a);
      p.result == o.result && p.state.obj == o.state.obj
  {
  }

  lemma ObserveIgnoresStore(cfg: BindingConfig, s: BindingState, t: BindingState, a: BindingAnswers)
    requires !s.obj.InProgress() && t.obj == s.obj
    ensures var o, p := ObserveOutcome(cfg, s, a), ObserveOutcome(cfg, t, a);
      p.result == o.result && p.state.obj == o.state.obj
  {
    if BuildGetBindingRequest(s.obj).Ok? && a.get.Answered? {
      var sent := GetSent(BuildGetBindingRequest(s.obj).value, a.get);
      GetBindingIgnoresStore(cfg, s.Sent(sent), t.Sent(sent), a.get.value, a);
    }
  }

  // The fixpoint: once a reconcile finds a settled binding up to date, a second
  // one, with the same broker answer and the clocks on the same side of both
  // dates, only reads the binding again and leaves the stored object as it is.
  lemma UpToDateIsFixpoint(cfg: BindingConfig, w: BindingWorld, a: BindingAnswers, b: BindingAnswers)
    requires !w.stored.InProgress() && !w.stored.deleted
    requires a.get.Answered? && a.get == b.get && SameTime(cfg.codec, a.get.value.metadata, a, b)
    requires var r := ObserveOutcome(cfg, BindingState(w.stored, w.stored, w.log), a).result;
      r.Ok? && r.value.resourceUpToDate
    ensures var w1 := ReconcileOutcome(cfg, w, a).world;
      var w2 := ReconcileOutcome(cfg, w1, b).world;
      && w2.stored == w1.stored
      && w2.log == w1.log + [GetSent(BuildGetBindingRequest(w.stored).value, a.get)]
  {
    var s := BindingState(w.stored, w.stored, w.log);
    var o := ObserveOutcome(cfg, s, a);
    var w1 := ReconcileOutcome(cfg, w, a).world;
    var s1 := s.Sent(GetSent(BuildGetBindingRequest(w.stored).value, a.get));
    GetBindingKeeps(cfg, s1, a.get.value, a);
    assert w1 == BindingWorld(o.state.obj, o.state.log);
    ObserveIsIdempotent(cfg, s, a, b);
    ObserveIgnoresStore(cfg, o.state, BindingState(w1.stored, w1.stored, w1.log), b);
    ObserveFrame(cfg, w1, b, ObserveOutcome(cfg, BindingState(w1.stored, w1.stored, w1.log), b));
  }

  /******* Polling *******/

  // Ready does not mirror the polled state: any answered poll of a binding that
  // is not deleted ends with Ready set to Available, a failed one too.
  lemma AnsweredPollIsReady(cfg: BindingConfig, w: BindingWorld, a: BindingAnswers)
    requires w.stored.InProgress() && BuildBindingLastOperationRequest(w.stored, cfg.oid).Ok?
    requires a.poll.Answered? && a.refetchOk && !Edited(w.stored, a.concurrent).deleted
    ensures var w' := ReconcileOutcome(cfg, w, a).world;
      && w'.stored.atProvider.lastOperationState == a.poll.value.state
      && Ready in w'.stored.conditions && w'.stored.conditions[Ready] == Available
      && w'.stored.atProvider.lastOperationDescription ==
         (if a.poll.value.description.Some? then a.poll.value.description.value
          else w.stored.atProvider.lastOperationDescription)
  {
  }

  // An in-progress binding that is not deleted: the whole reconcile sends at
  // most one call, and that is the poll for its binding and key.
  lemma InProgressOnlyPolls(cfg: BindingConfig, w: BindingWorld, a: BindingAnswers)
    requires w.stored.InProgress() && !ReconcileOutcome(cfg, w, a).world.stored.deleted
    ensures var w', req := ReconcileOutcome(cfg, w, a).world, BuildBindingLastOperationRequest(w.stored, cfg.oid);
      w'.log == if req.Ok? then w.log + [PollSent(req.value, a.poll)] else w.log
  {
    var s := BindingState(w.stored, w.stored, w.log);
    var o := ObserveOutcome(cfg, s, a);
    ObserveFrame(cfg, w, a, o);
    ObserveSends(cfg, s, a);
    ReconcileFrame(cfg, w, a, o, ReconcileOutcome(cfg, w, a).world);
  }

  // Without a broker call, the state is the one the run started with.
  predicate UncalledInv(origin: BindingObject, w: BindingWorld) {
    w.log == [] ==> w.stored.atProvider.lastOperationState == origin.atProvider.lastOperationState
  }

  lemma ReconcileKeepsUncalled(cfg: BindingConfig, origin: BindingObject, w: BindingWorld, a: BindingAnswers)
    requires UncalledInv(origin, w) && a.newUuid != ""
    ensures UncalledInv(origin, ReconcileOutcome(cfg, w, a).world)
  {
    var s := BindingState(w.stored, w.stored, w.log);
    var o := ObserveOutcome(cfg, s, a);
    var w' := ReconcileOutcome(cfg, w, a).world;
    ObserveFrame(cfg, w, a, o);
    ReconcileFrame(cfg, w, a, o, w');
    if w'.log == [] {
      ObserveSends(cfg, s, a);
      SilentSecondHalf(cfg, w, o, a, w');
    }
  }

  // A reconcile that makes no second call leaves the state observing left.
  lemma SilentSecondHalf(cfg: BindingConfig, w: BindingWorld, o: Outcome<Observation>, a: BindingAnswers,
      w': BindingWorld)
    requires a.newUuid != "" && SecondCall(cfg, o, a).None?
    requires o == ObserveOutcome(cfg, BindingState(w.stored, w.stored, w.log), a)
    requires w' == ReconcileOutcome(cfg, w, a).world
    ensures w'.stored.atProvider.lastOperationState == o.state.obj.atProvider.lastOperationState
      || w'.stored.atProvider.lastOperationState == o.state.stored.atProvider.lastOperationState
  {
    if o.result.Ok? {
      if o.state.obj.deleted { DeleteSends(cfg, o.state, a); }
      else if !o.result.value.resourceExists { CreateSends(cfg, o.state, a); }
    }
  }

  // In every run, the poll request of a binding recorded as in progress builds
  // exactly when the originating identity and the spec's IDs are filled in (the
  // binding's own ID always is), and names the head of the chain and the last
  // operation key.
  lemma InProgressIsPollable(cfg: BindingConfig, origin: BindingObject, steps: seq<Step>)
    requires AllFresh(cfg, origin, steps)
    requires origin.InProgress() ==> origin.externalName != ""
    ensures var w := RunFrom(cfg, origin, steps);
      var req := BuildBindingLastOperationRequest(w.stored, cfg.oid);
      w.stored.InProgress() ==>
        && (req.Ok? <==> OidGuard(cfg.oid).None? && SpecGuard(w.stored.spec).None?)
        && (req.Ok? ==>
              && req.value.bindingId == Head(origin.externalName, w.log)
              && req.value.operationKey == LastKey(origin.atProvider.lastOperationKey, w.log))
  {
    var w := RunFrom(cfg, origin, steps);
    RunsFollowProtocol(cfg, origin, steps);
    RunsKeepUncalled(cfg, origin, steps);
    if w.log != [] {
      CalledIsNamed(origin, w.log);
    }
  }

  lemma {:induction false} RunsKeepUncalled(cfg: BindingConfig, origin: BindingObject, steps: seq<Step>)
    requires AllFresh(cfg, origin, steps)
    ensures UncalledInv(origin, RunFrom(cfg, origin, steps))
  {
    if steps != [] {
      var before, last := steps[..|steps| - 1], steps[|steps| - 1];
      RunsKeepUncalled(cfg, origin, before);
      if last.Reconcile? {
        ReconcileKeepsUncalled(cfg, origin, RunFrom(cfg, origin, before), last.answers);
      }
    }
  }

  predicate OnlyReconciles(steps: seq<Step>) {
    forall i | 0 <= i < |steps| :: steps[i].Reconcile?
  }

  // One that cannot be polled is stranded: until the user edits the spec, no
  // reconcile sends anything or changes the stored object.
  lemma {:induction false} UnpollableIsStranded(cfg: BindingConfig, w: BindingWorld, steps: seq<Step>)
    requires w.stored.InProgress() && BuildBindingLastOperationRequest(w.stored, cfg.oid).Err?
    requires OnlyReconciles(steps)
    ensures Run(cfg, w, steps) == w
  {
    if steps != [] {
      UnpollableIsStranded(cfg, w, steps[..|steps| - 1]);
      assert steps[|steps| - 1].Reconcile?;
    }
  }
}
