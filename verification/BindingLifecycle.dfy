// Several reconciles of a binding in a row: what an answered Bind or rotation
// leads to next.
module BindingLifecycle {
  import opened Results
  import opened JsonValues
  import opened OsbApi
  import opened Marshalling
  import opened BindingModel
  import opened BindingRuns
  import opened BindingDeletion
  import opened BindingSteps

  /******* Rotation *******/

  // After a rotation the broker accepts, the very next reconcile asks about the
  // successor: it reads it when the rotation is synchronous, and otherwise polls
  // for it with the key handed out (or the one it had) - if and only if the spec's
  // IDs are filled in, which rotating does not check. If they are not, the binding
  // is stranded: reconciles do nothing at all until the spec is edited.
  lemma RotationMovesOn(cfg: BindingConfig, w: BindingWorld, a: BindingAnswers, b: BindingAnswers, w1: BindingWorld)
    requires w1 == ReconcileOutcome(cfg, w, a).world && EndsWithRotation(w, w1) && a.rotate.Answered?
    ensures var call := ObserveCall(cfg, w1.stored, b);
      if a.rotate.value.async then
        && (call.Some? <==> SpecGuard(w.stored.spec).None?)
        && (call.Some? ==> call.value.PollSent? && AsksFor(a, w, call.value.poll))
        && w1.stored.atProvider.lastOperationDescription == ""
        && w1.stored.atProvider.lastOperationPolledTime == a.polledTime
      else call.Some? && call.value.GetSent? && call.value.get.bindingId == a.newUuid
    ensures a.rotate.value.async && SpecGuard(w.stored.spec).Some? ==>
      forall steps | OnlyReconciles(steps) :: Run(cfg, w1, steps) == w1
  {
    RotationLeaves(cfg, w, a, w1);
    if a.rotate.value.async && SpecGuard(w.stored.spec).Some? {
      forall steps | OnlyReconciles(steps) ensures Run(cfg, w1, steps) == w1 {
        UnpollableIsStranded(cfg, w1, steps);
      }
    }
  }

  // The object an accepted rotation leaves.
  lemma RotationLeaves(cfg: BindingConfig, w: BindingWorld, a: BindingAnswers, w1: BindingWorld)
    requires w1 == ReconcileOutcome(cfg, w, a).world && EndsWithRotation(w, w1) && a.rotate.Answered?
    ensures a.newUuid != "" && w.stored.spec.instanceId != "" && OidGuard(cfg.oid).None?
    ensures !w1.stored.deleted && w1.stored.spec == w.stored.spec && w1.stored.externalName == a.newUuid
    ensures var seen := w1.stored.atProvider;
      if a.rotate.value.async then
        && w1.stored.InProgress()
        && seen.lastOperationKey == KeyAfter(w.stored.atProvider.lastOperationKey, a.rotate.value.operationKey)
        && seen.lastOperationDescription == "" && seen.lastOperationPolledTime == a.polledTime
      else !w1.stored.InProgress()
  {
    RotationIsJustified(cfg, w, a);
    var s := BindingState(w.stored, w.stored, w.log);
    var o := ObserveOutcome(cfg, s, a);
    UpdateVerdictIff(cfg, s, a, o);
    GetBindingKeeps(cfg, s.Sent(GetSent(BuildGetBindingRequest(w.stored).value, a.get)), a.get.value, a);
    RotationResult(cfg, o.state, a);
  }

  predicate AsksFor(a: BindingAnswers, w: BindingWorld, poll: PollRequest)
    requires a.rotate.Answered?
  {
    && poll.bindingId == a.newUuid
    && poll.operationKey == KeyAfter(w.stored.atProvider.lastOperationKey, a.rotate.value.operationKey)
  }

  lemma RotationResult(cfg: BindingConfig, s: BindingState, a: BindingAnswers)
    requires BuildRotateBindingRequest(s.obj, cfg.oid, a.newUuid).Ok? && a.rotate.Answered?
    ensures var s' := RotationOutcome(cfg, s, a).state;
      && s'.obj.externalName == a.newUuid && s'.obj.spec == s.obj.spec && s'.stored == s.stored
      && if a.rotate.value.async then
           && s'.obj.InProgress()
           && s'.obj.atProvider.lastOperationKey ==
              KeyAfter(s.obj.atProvider.lastOperationKey, a.rotate.value.operationKey)
           && s'.obj.atProvider.lastOperationDescription == ""
           && s'.obj.atProvider.lastOperationPolledTime == a.polledTime
         else s'.obj.atProvider == s.obj.atProvider
  {
  }

  /******* Bind *******/

  // The Bind carries all of the spec: its IDs, its application and route, its
  // context and its decoded parameters.
  predicate CarriesSpec(cfg: BindingConfig, spec: BindingSpec, e: BindingEvent) {
    e.BindSent? ==>
      && cfg.codec.decodeParams(spec.parameters).Some?
      && e.bind == BindRequest(e.bind.bindingId, spec.instanceId, spec.planId, spec.serviceId, !cfg.disableAsync,
                     if spec.appGuid == "" then None else Some(spec.appGuid), spec.route,
                     Some(ContextToMap(spec.context)), cfg.codec.decodeParams(spec.parameters).value, cfg.oid)
  }

  predicate EditKeepsSpec(spec: BindingSpec, edit: UserEdit) {
    edit.spec.Some? ==> edit.spec.value == spec
  }

  // No edit changes the spec.
  predicate KeepsSpec(spec: BindingSpec, steps: seq<Step>) {
    forall i | 0 <= i < |steps| :: EditKeepsSpec(spec, EditOf(steps[i]))
  }

  predicate OneSpec(cfg: BindingConfig, spec: BindingSpec, w: BindingWorld) {
    w.stored.spec == spec && forall i | 0 <= i < |w.log| :: CarriesSpec(cfg, spec, w.log[i])
  }

  lemma ObserveKeepsSpec(cfg: BindingConfig, w: BindingWorld, a: BindingAnswers, o: Outcome<Observation>)
    requires o == ObserveOutcome(cfg, BindingState(w.stored, w.stored, w.log), a)
    requires EditKeepsSpec(w.stored.spec, a.concurrent)
    ensures o.state.obj.spec == w.stored.spec == o.state.stored.spec
  {
    if !w.stored.InProgress() && BuildGetBindingRequest(w.stored).Ok? && a.get.Answered? {
      var s := BindingState(w.stored, w.stored, w.log);
      GetBindingKeeps(cfg, s.Sent(GetSent(BuildGetBindingRequest(w.stored).value, a.get)), a.get.value, a);
    }
  }

  lemma ReconcileKeepsSpec(cfg: BindingConfig, spec: BindingSpec, w: BindingWorld, a: BindingAnswers)
    requires OneSpec(cfg, spec, w) && EditKeepsSpec(spec, a.concurrent)
    ensures OneSpec(cfg, spec, ReconcileOutcome(cfg, w, a).world)
  {
    var o := ObserveOutcome(cfg, BindingState(w.stored, w.stored, w.log), a);
    ObserveFrame(cfg, w, a, o);
    ObserveKeepsSpec(cfg, w, a, o);
    ReconcileFrame(cfg, w, a, o, ReconcileOutcome(cfg, w, a).world);
  }

  lemma {:induction false} RunsKeepSpec(cfg: BindingConfig, origin: BindingObject, steps: seq<Step>)
    requires KeepsSpec(origin.spec, steps)
    ensures OneSpec(cfg, origin.spec, RunFrom(cfg, origin, steps))
  {
    if steps != [] {
      var before, last := steps[..|steps| - 1], steps[|steps| - 1];
      assert KeepsSpec(origin.spec, before);
      RunsKeepSpec(cfg, origin, before);
      assert EditKeepsSpec(origin.spec, EditOf(last));
      if last.Reconcile? {
        ReconcileKeepsSpec(cfg, origin.spec, RunFrom(cfg, origin, before), last.answers);
      }
    }
  }

  // Retries are identical: with the spec unedited, all Binds of a run between two
  // accepted rotations are one and the same request, and it carries the spec.
  lemma BindRetriesAreIdentical(cfg: BindingConfig, origin: BindingObject, steps: seq<Step>, i: nat, j: nat)
    requires AllFresh(cfg, origin, steps) && KeepsSpec(origin.spec, steps)
    requires var log := RunFrom(cfg, origin, steps).log;
      i < j < |log| && log[i].BindSent? && log[j].BindSent? && NoRotation(log, i, j)
    ensures var log := RunFrom(cfg, origin, steps).log;
      log[j].bind == log[i].bind && CarriesSpec(cfg, origin.spec, log[i])
  {
    BindRetriesKeepTheirId(cfg, origin, steps, i, j);
    RunsKeepSpec(cfg, origin, steps);
    var log := RunFrom(cfg, origin, steps).log;
    assert CarriesSpec(cfg, origin.spec, log[i]) && CarriesSpec(cfg, origin.spec, log[j]);
  }

  // The reconcile's last call is this Bind, and the broker takes it on asynchronously.
  predicate BindsAsync(w: BindingWorld, w': BindingWorld, bind: BindRequest, resp: BindResponse) {
    |w'.log| > |w.log| && w'.log[|w'.log| - 1] == BindSent(bind, Answered(Some(resp))) && resp.async
  }

  lemma AsyncBindStep(cfg: BindingConfig, w: BindingWorld, a: BindingAnswers, bind: BindRequest, resp: BindResponse)
    requires BindsAsync(w, ReconcileOutcome(cfg, w, a).world, bind, resp) && a.newUuid != ""
    ensures var w1 := ReconcileOutcome(cfg, w, a).world;
      && w1.stored.InProgress()
      && Bound(cfg, w1.stored, AwaitedBind(w, bind, resp))
      && bind.bindingId == if w.stored.externalName != "" then w.stored.externalName else a.newUuid
  {
    var o := ObserveOutcome(cfg, BindingState(w.stored, w.stored, w.log), a);
    BindIsSecondCall(cfg, w, a, o, bind, resp);
    CreateVerdict(cfg, w, a, o);
    CreateRecords(cfg, o.state, a, bind, resp);
  }

  lemma BindIsSecondCall(cfg: BindingConfig, w: BindingWorld, a: BindingAnswers, o: Outcome<Observation>,
      bind: BindRequest, resp: BindResponse)
    requires o == ObserveOutcome(cfg, BindingState(w.stored, w.stored, w.log), a)
    requires BindsAsync(w, ReconcileOutcome(cfg, w, a).world, bind, resp)
    ensures o.result.Ok? && !o.state.obj.deleted && !o.result.value.resourceExists && !o.state.stored.deleted
    ensures CreateCall(cfg, o.state.obj, a) == Some(BindSent(bind, Answered(Some(resp))))
  {
    ObserveFrame(cfg, w, a, o);
    ReconcileFrame(cfg, w, a, o, ReconcileOutcome(cfg, w, a).world);
  }

  lemma CreateRecords(cfg: BindingConfig, s: BindingState, a: BindingAnswers, bind: BindRequest, resp: BindResponse)
    requires CreateCall(cfg, s.obj, a) == Some(BindSent(bind, Answered(Some(resp)))) && resp.async
    requires a.newUuid != "" && s.obj.spec == s.stored.spec && !s.stored.deleted
    ensures var seen := Persisted(s.stored, CreateOutcome(cfg, s, a).state.obj);
      && CreateOutcome(cfg, s, a).state.stored == s.stored
      && seen.InProgress() && Bound(cfg, seen, AwaitedBind(BindingWorld(s.obj, s.log), bind, resp))
  {
  }

  lemma CreateVerdict(cfg: BindingConfig, w: BindingWorld, a: BindingAnswers, o: Outcome<Observation>)
    requires o == ObserveOutcome(cfg, BindingState(w.stored, w.stored, w.log), a)
    ensures o.result.Ok? && !o.state.obj.deleted && !o.result.value.resourceExists ==>
      o.state.obj == w.stored == o.state.stored
  {
    ObserveVerdict(cfg, w, a, o);
  }

  function AwaitedBind(w: BindingWorld, bind: BindRequest, resp: BindResponse): Awaited {
    Awaited(bind.bindingId, KeyAfter(w.stored.atProvider.lastOperationKey, resp.operationKey),
            Ids(bind.instanceId, bind.planId, bind.serviceId), bind.parameters)
  }

  /******* Waiting for an asynchronous Bind or rotation *******/

  // What is waited for.
  datatype Awaited = Awaited(bindingId: string, key: OperationKey, ids: Ids, parameters: Params)

  // The object it is waited for with: live, pollable, with this ID and key, and a
  // spec with these IDs and parameters.
  predicate Bound(cfg: BindingConfig, obj: BindingObject, x: Awaited) {
    && obj.externalName == x.bindingId != "" && obj.atProvider.lastOperationKey == x.key && !obj.deleted
    && cfg.codec.decodeParams(obj.spec.parameters) == Some(x.parameters) && IdsOf(obj.spec) == x.ids
    && ValidateInputs(obj.spec, cfg.oid).None?
  }

  // An edit that leaves alone what was bound.
  predicate EditKeepsBound(spec: BindingSpec, edit: UserEdit) {
    !edit.delete &&
    (edit.spec.Some? ==> IdsOf(edit.spec.value) == IdsOf(spec) && edit.spec.value.parameters == spec.parameters)
  }

  // A step that does not end the wait: an edit, or a reconcile whose poll fails,
  // reports in progress, or is not looked at because the refetch fails.
  predicate Waits(spec: BindingSpec, step: Step) {
    EditKeepsBound(spec, EditOf(step)) &&
    (step.Reconcile? ==>
       step.answers.poll.Refused? || !step.answers.refetchOk || step.answers.poll.value.state == StateInProgress)
  }

  predicate AllPollFor(log: seq<BindingEvent>, i: nat, x: Awaited) {
    forall k | i <= k < |log| ::
      log[k].PollSent? && log[k].poll.bindingId == x.bindingId && log[k].poll.operationKey == x.key
  }

  lemma PollStep(cfg: BindingConfig, w: BindingWorld, a: BindingAnswers, x: Awaited)
    requires w.stored.InProgress() && Bound(cfg, w.stored, x) && EditKeepsBound(w.stored.spec, a.concurrent)
    ensures var w1 := ReconcileOutcome(cfg, w, a).world;
      && Bound(cfg, w1.stored, x) && w1.stored.spec.parameters == w.stored.spec.parameters
      && w1.stored.atProvider.lastOperationState ==
         (if a.poll.Answered? && a.refetchOk then a.poll.value.state else StateInProgress)
      && w1.log == w.log + [PollSent(BuildBindingLastOperationRequest(w.stored, cfg.oid).value, a.poll)]
  {
  }

  // While nothing ends the wait, the binding stays in progress under its ID, and
  // every call is a poll for that ID with the key handed out.
  lemma {:induction false} WaitingPolls(cfg: BindingConfig, w: BindingWorld, steps: seq<Step>, x: Awaited)
    requires w.stored.InProgress() && Bound(cfg, w.stored, x)
    requires forall i | 0 <= i < |steps| :: Waits(w.stored.spec, steps[i])
    ensures var w' := Run(cfg, w, steps);
      && w'.stored.InProgress() && Bound(cfg, w'.stored, x)
      && w'.stored.spec.parameters == w.stored.spec.parameters
      && |w.log| <= |w'.log| && w'.log[..|w.log|] == w.log && AllPollFor(w'.log, |w.log|, x)
  {
    if steps != [] {
      var before, last := steps[..|steps| - 1], steps[|steps| - 1];
      WaitingPolls(cfg, w, before, x);
      assert Waits(w.stored.spec, last);
      if last.Reconcile? {
        PollStep(cfg, Run(cfg, w, before), last.answers, x);
      }
    }
  }

  // The poll that ends the wait reports anything but in progress, and the next
  // GetBinding gives back these parameters, usable credentials and no due renewal.
  predicate Finishes(cfg: BindingConfig, spec: BindingSpec, b: BindingAnswers, c: BindingAnswers, parameters: Params) {
    && b.poll.Answered? && b.poll.value.state != StateInProgress && b.refetchOk && EditKeepsBound(spec, b.concurrent)
    && c.get.Answered? && c.get.value.parameters == parameters
    && NoRenewalDue(cfg, c.get.value.metadata, c)
    && EncodableData(cfg.codec, CreateResponseData(c.get.value))
    && MarshalledCredentials(cfg.codec, c.get.value.credentials).Ok?
  }

  // From w on only polls were sent; the next Observe reads the binding by its ID,
  // finds it up to date and hands out its credentials.
  predicate ReadsUpToDate(cfg: BindingConfig, w: BindingWorld, w': BindingWorld, c: BindingAnswers, x: Awaited)
    requires c.get.Answered? && MarshalledCredentials(cfg.codec, c.get.value.credentials).Ok?
  {
    && |w.log| < |w'.log| && w'.log[..|w.log|] == w.log && AllPollFor(w'.log, |w.log|, x)
    && ObserveCall(cfg, w'.stored, c) == Some(GetSent(GetBindingRequest(x.ids.instanceId, x.bindingId), c.get))
    && ObserveOutcome(cfg, BindingState(w'.stored, w'.stored, w'.log), c).result ==
       Ok(Observation(true, true, MarshalledCredentials(cfg.codec, c.get.value.credentials).value))
  }

  lemma FinishedRead(cfg: BindingConfig, w: BindingWorld, b: BindingAnswers, c: BindingAnswers, x: Awaited)
    requires cfg.codec.RoundTrips() && w.stored.InProgress() && Bound(cfg, w.stored, x)
    requires Finishes(cfg, w.stored.spec, b, c, x.parameters)
    ensures ReadsUpToDate(cfg, w, ReconcileOutcome(cfg, w, b).world, c, x)
  {
    var w' := ReconcileOutcome(cfg, w, b).world;
    PollStep(cfg, w, b, x);
    ObservesNoDrift(cfg, BindingState(w'.stored, w'.stored, w'.log), c);
  }

  lemma WaitCompletes(cfg: BindingConfig, w: BindingWorld, waiting: seq<Step>, b: BindingAnswers, c: BindingAnswers,
      x: Awaited)
    requires cfg.codec.RoundTrips() && w.stored.InProgress() && Bound(cfg, w.stored, x)
    requires forall i | 0 <= i < |waiting| :: Waits(w.stored.spec, waiting[i])
    requires Finishes(cfg, w.stored.spec, b, c, x.parameters)
    ensures ReadsUpToDate(cfg, w, ReconcileOutcome(cfg, Run(cfg, w, waiting), b).world, c, x)
  {
    WaitingPolls(cfg, w, waiting, x);
    FinishedRead(cfg, Run(cfg, w, waiting), b, c, x);
  }

  // An asynchronous Bind completes. However many polls fail or report in progress,
  // once one reports anything else and the broker gives back what was bound, with
  // no renewal due, the next Observe finds the binding up to date and hands out
  // its credentials. Every call from the Bind on names the ID that was bound.
  lemma AsyncBindCompletes(cfg: BindingConfig, w: BindingWorld, a: BindingAnswers, bind: BindRequest,
      resp: BindResponse, waiting: seq<Step>, b: BindingAnswers, c: BindingAnswers)
    requires cfg.codec.RoundTrips() && a.newUuid != ""
    requires var w1 := ReconcileOutcome(cfg, w, a).world;
      && BindsAsync(w, w1, bind, resp)
      && (forall i | 0 <= i < |waiting| :: Waits(w1.stored.spec, waiting[i]))
      && Finishes(cfg, w1.stored.spec, b, c, bind.parameters)
    ensures bind.bindingId == if w.stored.externalName != "" then w.stored.externalName else a.newUuid
    ensures var w1 := ReconcileOutcome(cfg, w, a).world;
      ReadsUpToDate(cfg, w1, ReconcileOutcome(cfg, Run(cfg, w1, waiting), b).world, c, AwaitedBind(w, bind, resp))
  {
    AsyncBindStep(cfg, w, a, bind, resp);
    WaitCompletes(cfg, ReconcileOutcome(cfg, w, a).world, waiting, b, c, AwaitedBind(w, bind, resp));
  }

  // So does an asynchronous rotation of a binding whose spec is filled in and
  // parses, under the successor's ID, once the broker gives back the parameters
  // the spec asks for.
  lemma AsyncRotationCompletes(cfg: BindingConfig, w: BindingWorld, a: BindingAnswers, w1: BindingWorld,
      waiting: seq<Step>, b: BindingAnswers, c: BindingAnswers, parameters: Params)
    requires cfg.codec.RoundTrips()
    requires w1 == ReconcileOutcome(cfg, w, a).world && EndsWithRotation(w, w1)
    requires a.rotate.Answered? && a.rotate.value.async
    requires SpecGuard(w.stored.spec).None? && cfg.codec.decodeParams(w.stored.spec.parameters) == Some(parameters)
    requires forall i | 0 <= i < |waiting| :: Waits(w1.stored.spec, waiting[i])
    requires Finishes(cfg, w1.stored.spec, b, c, parameters)
    ensures ReadsUpToDate(cfg, w1, ReconcileOutcome(cfg, Run(cfg, w1, waiting), b).world, c,
                          AwaitedRotation(w, a, parameters))
  {
    RotationLeaves(cfg, w, a, w1);
    WaitCompletes(cfg, w1, waiting, b, c, AwaitedRotation(w, a, parameters));
  }

  function AwaitedRotation(w: BindingWorld, a: BindingAnswers, parameters: Params): Awaited
    requires a.rotate.Answered?
  {
    Awaited(a.newUuid, KeyAfter(w.stored.atProvider.lastOperationKey, a.rotate.value.operationKey),
            IdsOf(w.stored.spec), parameters)
  }
}
