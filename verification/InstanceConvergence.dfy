// Convergence of an instance against a synchronous broker that stores what it is
// sent and echoes it: exactly when reconciling settles after the last edit, and
// how many updates it takes.
module InstanceConvergence {
  import opened Results
  import opened JsonValues
  import opened OsbApi
  import opened InstanceModel
  import opened InstanceRuns

  /******* The echoing broker *******/

  // An instance as the broker holds it.
  datatype Held = Held(planId: string, context: Params, parameters: Params)

  // The instances held, by ID. Members left out of an update keep their value.
  function HeldAfter(held: map<string, Held>, e: InstanceEvent): map<string, Held> {
    match e
    case ProvisionSent(req, Answered(_)) => held[req.instanceId := Held(req.planId, req.context, req.parameters)]
    case UpdateSent(req, Answered(_)) =>
      if req.instanceId !in held then held
      else
        var was := held[req.instanceId];
        held[req.instanceId := Held(if req.planId.Some? then req.planId.value else was.planId,
                                    if req.context.Some? then req.context else was.context,
                                    if req.parameters.Some? then req.parameters else was.parameters)]
    case _ => held
  }

  function HeldBy(log: seq<InstanceEvent>): map<string, Held> {
    if log == [] then map[] else HeldAfter(HeldBy(log[..|log| - 1]), log[|log| - 1])
  }

  // What the broker holds under the object's instance ID.
  function Holding(w: InstanceWorld): Option<Held> {
    var held, id := HeldBy(w.log), w.stored.spec.instanceId;
    if id in held then Some(held[id]) else None
  }

  // Answers of a synchronous broker holding `held`; status writes succeed.
  predicate Echoes(held: Option<Held>, a: InstanceAnswers) {
    && a.provision.Answered? && !a.provision.value.async
    && a.update.Answered? && !a.update.value.async
    && a.observeWriteOk && a.actWriteOk
    && if held.None? then a.get == Refused(HttpError(404))
       else && a.get.Answered? && a.get.value.Some?
            && a.get.value.value.planId == held.value.planId
            && a.get.value.value.parameters == held.value.parameters
  }

  // A run against the echoing broker in which nobody deletes the object.
  predicate EchoRun(cfg: InstanceConfig, origin: InstanceObject, steps: seq<Step>) {
    steps == [] ||
    var before := steps[..|steps| - 1];
    && EchoRun(cfg, origin, before)
    && match steps[|steps| - 1] {
         case User(edit) => !edit.delete
         case Reconcile(a) => Echoes(Holding(RunFrom(cfg, origin, before)), a)
       }
  }

  function Updates(log: seq<InstanceEvent>): nat {
    if log == [] then 0 else Updates(log[..|log| - 1]) + if log[|log| - 1].UpdateSent? then 1 else 0
  }

  lemma Extend(log: seq<InstanceEvent>, e: InstanceEvent)
    ensures HeldBy(log + [e]) == HeldAfter(HeldBy(log), e)
    ensures Updates(log + [e]) == Updates(log) + if e.UpdateSent? then 1 else 0
  {
    assert (log + [e])[..|log|] == log;
  }

  /******* Settling *******/

  // What building a provision request demands of the spec.
  predicate ProvisionGuards(spec: InstanceSpec) {
    && spec.instanceId != "" && spec.planId != "" && spec.serviceId != ""
    && spec.organizationGuid != "" && spec.spaceGuid != ""
  }

  // What building an update request demands.
  predicate UpdateGuards(cfg: InstanceConfig, spec: InstanceSpec) {
    OidGuard(cfg.oid).None? && spec.instanceId != "" && spec.serviceId != ""
  }

  // A spec without a plan goes with every plan.
  predicate PlanAgrees(spec: InstanceSpec, held: Held) {
    spec.planId == "" || spec.planId == held.planId
  }

  // A live object no operation key is recorded for.
  predicate Synchronous(w: InstanceWorld) {
    !w.stored.deleted && !w.stored.HasLastOperation()
  }

  // Broker and status hold what the spec asks for.
  predicate Converged(cfg: InstanceConfig, w: InstanceWorld) {
    var held, spec := Holding(w), w.stored.spec;
    && spec.instanceId != "" && held.Some? && PlanAgrees(spec, held.value)
    && held.value.context == Some(ContextToMap(spec.context)) && w.stored.atProvider.context == spec.context
    && spec.parameters != "" && cfg.codec.ToParameters(spec.parameters) == Some(held.value.parameters)
  }

  // The broker holds another context than the recorded one, which is all that the
  // controller compares with: the instance ID was edited to one that is held
  // already, with the recorded context another instance's.
  predicate StaleContext(w: InstanceWorld) {
    Holding(w).Some? && Holding(w).value.context != Some(ContextToMap(w.stored.atProvider.context))
  }

  // What a caller can check of an edited spec: its parameters are not empty text
  // and parse; a first provision of it can be requested; and if the broker holds
  // the instance already, the plan is the broker's, parameters spelled `null` do
  // not have to erase held ones, an update that is called for can be requested,
  // and one that is not called for hides no stale context.
  predicate Convergeable(cfg: InstanceConfig, w: InstanceWorld) {
    var held, spec := Holding(w), w.stored.spec;
    var params := cfg.codec.ToParameters(spec.parameters);
    && spec.parameters != "" && params.Some?
    && (held.None? ==> ProvisionGuards(spec))
    && (held.Some? ==>
          && PlanAgrees(spec, held.value) && (params.value.Some? || held.value.parameters.None?)
          && if UpdateWanted(cfg, w) then UpdateGuards(cfg, spec) else spec.instanceId != "" && !StaleContext(w))
  }

  lemma ContextIsNeverEmpty(c: Context)
    ensures ContextToMap(c) != map[]
  {
    assert "platform" in ContextToMap(c);
  }

  // The broker holds the instance under the spec's plan, and parameters or
  // context differ (or the parameters are empty text, which always differs).
  predicate UpdateWanted(cfg: InstanceConfig, w: InstanceWorld) {
    var held, spec := Holding(w), w.stored.spec;
    var params := cfg.codec.ToParameters(spec.parameters);
    && held.Some? && PlanAgrees(spec, held.value) && params.Some?
    && (|| spec.parameters == "" || params.value != held.value.parameters
        || spec.context != w.stored.atProvider.context)
  }

  predicate SendsUpdate(cfg: InstanceConfig, w: InstanceWorld) {
    UpdateWanted(cfg, w) && UpdateGuards(cfg, w.stored.spec)
  }

  predicate SendsProvision(cfg: InstanceConfig, w: InstanceWorld) {
    && Holding(w).None? && cfg.codec.ToParameters(w.stored.spec.parameters).Some?
    && ProvisionGuards(w.stored.spec)
  }

  // What one reconcile against the echoing broker comes to.
  predicate EchoStep(cfg: InstanceConfig, w: InstanceWorld, w': InstanceWorld) {
    var held, spec := Holding(w), w.stored.spec;
    var params := cfg.codec.ToParameters(spec.parameters);
    && Synchronous(w') && w'.stored.spec == spec
    && if SendsUpdate(cfg, w) then
         && Holding(w') ==
            Some(Held(held.value.planId, Some(ContextToMap(spec.context)),
                      if params.value.Some? then params.value else held.value.parameters))
         && w'.stored.atProvider.context == spec.context && Updates(w'.log) == Updates(w.log) + 1
       else if SendsProvision(cfg, w) then
         && Holding(w') == Some(Held(spec.planId, Some(ContextToMap(spec.context)), params.value))
         && w'.stored.atProvider.context == spec.context && Updates(w'.log) == Updates(w.log)
       else
         && Holding(w') == held
         && w'.stored.atProvider.context == w.stored.atProvider.context && Updates(w'.log) == Updates(w.log)
  }

  lemma EchoObserves(cfg: InstanceConfig, w: InstanceWorld, a: InstanceAnswers, o: Outcome<Observation>)
    requires Synchronous(w) && w.stored.spec.instanceId != "" && Echoes(Holding(w), a)
    requires o == ObserveOutcome(cfg, Starting(w), a)
    ensures o.state.obj.spec == w.stored.spec == o.state.stored.spec && !o.state.obj.deleted
    ensures o.state.obj.atProvider == w.stored.atProvider == o.state.stored.atProvider
    ensures !o.state.stored.deleted
    ensures o.state.log == w.log + [GetSent(BuildGetInstanceRequest(w.stored.spec).value, a.get)]
    ensures Holding(w).None? <==> o.result == Ok(Observation(false, false, None))
    ensures UpdateWanted(cfg, w) <==> o.result.Ok? && o.result.value.resourceExists && !o.result.value.resourceUpToDate
    ensures Converged(cfg, w) <==>
      && Holding(w).Some? && PlanAgrees(w.stored.spec, Holding(w).value)
      && Holding(w).value.context == Some(ContextToMap(w.stored.spec.context))
      && o.result == Ok(Observation(true, true, None))
  {
  }

  lemma EchoProvisions(cfg: InstanceConfig, s: InstanceState, a: InstanceAnswers)
    requires a.provision.Answered? && !a.provision.value.async && a.actWriteOk
    requires cfg.codec.ToParameters(s.obj.spec.parameters).Some?
    ensures var s', call := ProvisionOutcome(cfg, s, a).state, CreateCall(cfg, s.obj, a);
      && (call.Some? <==> ProvisionGuards(s.obj.spec))
      && (call.None? ==> s' == s)
      && (call.Some? ==>
            && s'.log == s.log + [call.value]
            && s'.obj.spec == s.obj.spec && s'.stored.spec == s.stored.spec && s'.stored.deleted == s.stored.deleted
            && s'.obj.atProvider.context == s.obj.spec.context
            && s'.obj.atProvider.lastOperationKey == s.obj.atProvider.lastOperationKey)
  {
    ContextIsNeverEmpty(s.obj.spec.context);
  }

  lemma EchoUpdates(cfg: InstanceConfig, s: InstanceState, a: InstanceAnswers)
    requires a.update.Answered? && !a.update.value.async && a.actWriteOk
    requires cfg.codec.ToParameters(s.obj.spec.parameters).Some?
    ensures var s', call := UpdateOutcome(cfg, s, a).state, UpdateCall(cfg, s.obj, a);
      && (call.Some? <==> UpdateGuards(cfg, s.obj.spec))
      && (call.None? ==> s' == s)
      && (call.Some? ==>
            && s'.log == s.log + [call.value]
            && s'.obj.spec == s.obj.spec && s'.stored.spec == s.stored.spec && s'.stored.deleted == s.stored.deleted
            && s'.obj.atProvider.context == s.obj.spec.context
            && s'.obj.atProvider.lastOperationKey == s.obj.atProvider.lastOperationKey)
  {
  }

  // What a provision that goes out makes of what is held.
  lemma ProvisionHolds(cfg: InstanceConfig, obj: InstanceObject, a: InstanceAnswers, log: seq<InstanceEvent>)
    requires a.provision.Answered? && CreateCall(cfg, obj, a).Some?
    ensures var log', params := log + [CreateCall(cfg, obj, a).value], cfg.codec.ToParameters(obj.spec.parameters);
      && params.Some? && Updates(log') == Updates(log)
      && HeldBy(log') == HeldBy(log)[obj.spec.instanceId :=
           Held(obj.spec.planId, Some(ContextToMap(obj.spec.context)), params.value)]
  {
    Extend(log, CreateCall(cfg, obj, a).value);
  }

  // What an update that goes out makes of what is held, under the same plan.
  lemma UpdateHolds(cfg: InstanceConfig, obj: InstanceObject, a: InstanceAnswers, log: seq<InstanceEvent>)
    requires a.update.Answered? && UpdateCall(cfg, obj, a).Some?
    requires obj.spec.instanceId in HeldBy(log) && PlanAgrees(obj.spec, HeldBy(log)[obj.spec.instanceId])
    ensures var log', params := log + [UpdateCall(cfg, obj, a).value], cfg.codec.ToParameters(obj.spec.parameters);
      var was := HeldBy(log)[obj.spec.instanceId];
      && params.Some? && Updates(log') == Updates(log) + 1
      && HeldBy(log') == HeldBy(log)[obj.spec.instanceId :=
           Held(was.planId, Some(ContextToMap(obj.spec.context)),
                if params.value.Some? then params.value else was.parameters)]
  {
    ContextIsNeverEmpty(obj.spec.context);
    Extend(log, UpdateCall(cfg, obj, a).value);
  }

  lemma EchoCreateStep(cfg: InstanceConfig, w: InstanceWorld, a: InstanceAnswers, w': InstanceWorld)
    requires Synchronous(w) && w.stored.spec.instanceId != "" && Echoes(Holding(w), a)
    requires Holding(w).None? && cfg.codec.ToParameters(w.stored.spec.parameters).Some?
    requires w' == ReconcileOutcome(cfg, w, a).world
    ensures EchoStep(cfg, w, w')
  {
    var o := ObserveOutcome(cfg, Starting(w), a);
    EchoObserves(cfg, w, a, o);
    assert w' == Kept(ProvisionOutcome(cfg, o.state, a).state).world;
    Extend(w.log, GetSent(BuildGetInstanceRequest(w.stored.spec).value, a.get));
    EchoProvisions(cfg, o.state, a);
    if ProvisionGuards(w.stored.spec) {
      ProvisionHolds(cfg, o.state.obj, a, o.state.log);
    }
  }

  lemma EchoUpdateStep(cfg: InstanceConfig, w: InstanceWorld, a: InstanceAnswers, w': InstanceWorld)
    requires Synchronous(w) && w.stored.spec.instanceId != "" && Echoes(Holding(w), a)
    requires UpdateWanted(cfg, w)
    requires w' == ReconcileOutcome(cfg, w, a).world
    ensures EchoStep(cfg, w, w')
  {
    var o := ObserveOutcome(cfg, Starting(w), a);
    EchoObserves(cfg, w, a, o);
    assert w' == Kept(UpdateOutcome(cfg, o.state, a).state).world;
    Extend(w.log, GetSent(BuildGetInstanceRequest(w.stored.spec).value, a.get));
    EchoUpdates(cfg, o.state, a);
    if UpdateGuards(cfg, w.stored.spec) {
      UpdateHolds(cfg, o.state.obj, a, o.state.log);
    }
  }

  // One reconcile against the echoing broker, from any synchronous world.
  lemma EchoReconcile(cfg: InstanceConfig, w: InstanceWorld, a: InstanceAnswers, w': InstanceWorld)
    requires Synchronous(w) && Echoes(Holding(w), a)
    requires w' == ReconcileOutcome(cfg, w, a).world
    ensures EchoStep(cfg, w, w')
    ensures Converged(cfg, w) ==> w'.log == w.log + [GetSent(BuildGetInstanceRequest(w.stored.spec).value, a.get)]
  {
    if w.stored.spec.instanceId == "" {
      assert w'.log == w.log;
    } else if UpdateWanted(cfg, w) {
      EchoUpdateStep(cfg, w, a, w');
    } else if Holding(w).None? && cfg.codec.ToParameters(w.stored.spec.parameters).Some? {
      EchoCreateStep(cfg, w, a, w');
    } else {
      EchoObserves(cfg, w, a, ObserveOutcome(cfg, Starting(w), a));
      Extend(w.log, GetSent(BuildGetInstanceRequest(w.stored.spec).value, a.get));
    }
  }

  // A convergeable spec is settled by one step, and no step makes another spec
  // convergeable.
  lemma EchoStepSettles(cfg: InstanceConfig, w: InstanceWorld, w': InstanceWorld)
    requires EchoStep(cfg, w, w')
    ensures Convergeable(cfg, w) ==> Converged(cfg, w')
    ensures Convergeable(cfg, w') <==> Convergeable(cfg, w)
    ensures Updates(w'.log) <= Updates(w.log) + 1
    ensures Converged(cfg, w) ==> Updates(w'.log) == Updates(w.log)
  {
  }

  // Updates that can be requested and bring nothing in line: the parameters are
  // empty text, or spelled `null` while the broker holds some.
  predicate Endless(cfg: InstanceConfig, w: InstanceWorld) {
    var held, spec := Holding(w), w.stored.spec;
    && UpdateGuards(cfg, spec)
    && if held.None? then ProvisionGuards(spec) && spec.parameters == ""
       else && PlanAgrees(spec, held.value)
            && (|| spec.parameters == ""
                || (cfg.codec.ToParameters(spec.parameters) == Some(None) && held.value.parameters.Some?))
  }

  lemma EndlessStep(cfg: InstanceConfig, w: InstanceWorld, w': InstanceWorld)
    requires EchoStep(cfg, w, w')
    ensures Endless(cfg, w') <==> Endless(cfg, w)
    ensures Endless(cfg, w) ==>
      Holding(w').Some? && Updates(w'.log) == Updates(w.log) + if Holding(w).Some? then 1 else 0
    ensures !Endless(cfg, w) ==> !SendsUpdate(cfg, w')
  {
  }

  /******* Main results *******/

  // From position n on, the run is reconciles only.
  predicate QuietFrom(steps: seq<Step>, n: nat) {
    forall i | n <= i < |steps| :: steps[i].Reconcile?
  }

  lemma {:induction false} EchoRunsStaySynchronous(cfg: InstanceConfig, origin: InstanceObject, steps: seq<Step>)
    requires EchoRun(cfg, origin, steps) && Synchronous(InstanceWorld(origin, []))
    ensures Synchronous(RunFrom(cfg, origin, steps))
  {
    if steps != [] {
      var before, last := steps[..|steps| - 1], steps[|steps| - 1];
      EchoRunsStaySynchronous(cfg, origin, before);
      if last.Reconcile? {
        EchoKeepsSynchronous(cfg, RunFrom(cfg, origin, before), last.answers);
      }
    }
  }

  lemma EchoKeepsSynchronous(cfg: InstanceConfig, w: InstanceWorld, a: InstanceAnswers)
    requires Synchronous(w) && Echoes(Holding(w), a)
    ensures Synchronous(ReconcileOutcome(cfg, w, a).world)
  {
  }

  // Convergence, exactly. Whatever was edited and reconciled before, at least one
  // reconcile after the last edit leaves broker, status and spec agreeing if and
  // only if the edited spec is convergeable; then at most one update was sent since.
  lemma {:induction false} ConvergenceIff(cfg: InstanceConfig, origin: InstanceObject, steps: seq<Step>, n: nat)
    requires EchoRun(cfg, origin, steps) && Synchronous(InstanceWorld(origin, []))
    requires n < |steps| && QuietFrom(steps, n)
    ensures var edited, w := RunFrom(cfg, origin, steps[..n]), RunFrom(cfg, origin, steps);
      && Synchronous(w) && w.stored.spec == edited.stored.spec
      && (Converged(cfg, w) <==> Convergeable(cfg, edited))
      && (Convergeable(cfg, edited) <==> Convergeable(cfg, w))
      && (Convergeable(cfg, edited) ==> Updates(w.log) <= Updates(edited.log) + 1)
  {
    var before, last := steps[..|steps| - 1], steps[|steps| - 1];
    var mid := RunFrom(cfg, origin, before);
    assert before[..n] == steps[..n];
    EchoRunsStaySynchronous(cfg, origin, before);
    if n < |steps| - 1 {
      ConvergenceIff(cfg, origin, before, n);
    } else {
      assert before == steps[..n];
    }
    var w := ReconcileOutcome(cfg, mid, last.answers).world;
    EchoReconcile(cfg, mid, last.answers, w);
    EchoStepSettles(cfg, mid, w);
    ConvergedIsConvergeable(cfg, w);
  }

  lemma ConvergedIsConvergeable(cfg: InstanceConfig, w: InstanceWorld)
    ensures Converged(cfg, w) ==> Convergeable(cfg, w)
  {
  }

  // The held context is stale only after an edit of the instance ID.
  lemma {:induction false} ContextIsRecorded(cfg: InstanceConfig, origin: InstanceObject, steps: seq<Step>)
    requires EchoRun(cfg, origin, steps) && Synchronous(InstanceWorld(origin, []))
    requires forall i | 0 <= i < |steps| && steps[i].User? ::
      KeepsInstance(origin.spec.instanceId, steps[i].edit)
    ensures var w := RunFrom(cfg, origin, steps);
      w.stored.spec.instanceId == origin.spec.instanceId && !StaleContext(w)
  {
    if steps != [] {
      var before, last := steps[..|steps| - 1], steps[|steps| - 1];
      var mid := RunFrom(cfg, origin, before);
      ContextIsRecorded(cfg, origin, before);
      if last.Reconcile? {
        EchoRunsStaySynchronous(cfg, origin, before);
        EchoReconcile(cfg, mid, last.answers, RunFrom(cfg, origin, steps));
      } else {
        assert KeepsInstance(origin.spec.instanceId, last.edit);
      }
    }
  }

  predicate KeepsInstance(id: string, edit: UserEdit) {
    edit.spec.Some? ==> edit.spec.value.instanceId == id
  }

  // The fixpoint: from the second reconcile after the last edit of a convergeable
  // spec on, every reconcile only reads the instance and finds nothing to do.
  lemma SettledOnlyReads(cfg: InstanceConfig, origin: InstanceObject, steps: seq<Step>, n: nat, a: InstanceAnswers)
    requires EchoRun(cfg, origin, steps) && Synchronous(InstanceWorld(origin, []))
    requires n < |steps| && QuietFrom(steps, n)
    requires Convergeable(cfg, RunFrom(cfg, origin, steps[..n]))
    requires Echoes(Holding(RunFrom(cfg, origin, steps)), a)
    ensures var w := RunFrom(cfg, origin, steps);
      && ObserveOutcome(cfg, Starting(w), a).result == Ok(Observation(true, true, None))
      && ReconcileOutcome(cfg, w, a).world.log == w.log + [GetSent(BuildGetInstanceRequest(w.stored.spec).value, a.get)]
  {
    ConvergenceIff(cfg, origin, steps, n);
    var w := RunFrom(cfg, origin, steps);
    EchoObserves(cfg, w, a, ObserveOutcome(cfg, Starting(w), a));
    EchoReconcile(cfg, w, a, ReconcileOutcome(cfg, w, a).world);
  }

  // How many updates the reconciles after the last edit send: one each, for ever,
  // if the edited spec is endless (but for a first one that has to provision), and
  // otherwise at most one, and none from the second reconcile on.
  lemma {:induction false} UpdatesEndIff(cfg: InstanceConfig, origin: InstanceObject, steps: seq<Step>, n: nat)
    requires EchoRun(cfg, origin, steps) && Synchronous(InstanceWorld(origin, []))
    requires n < |steps| && QuietFrom(steps, n)
    ensures var edited, w := RunFrom(cfg, origin, steps[..n]), RunFrom(cfg, origin, steps);
      var sent := Updates(w.log) - Updates(edited.log);
      && (Endless(cfg, w) <==> Endless(cfg, edited))
      && if Endless(cfg, edited) then
           Holding(w).Some? && sent == |steps| - n - if Holding(edited).Some? then 0 else 1
         else !SendsUpdate(cfg, w) && sent == if SendsUpdate(cfg, edited) then 1 else 0
  {
    var before, last := steps[..|steps| - 1], steps[|steps| - 1];
    var mid := RunFrom(cfg, origin, before);
    assert before[..n] == steps[..n];
    EchoRunsStaySynchronous(cfg, origin, before);
    if n < |steps| - 1 {
      UpdatesEndIff(cfg, origin, before, n);
    } else {
      assert before == steps[..n];
    }
    var w := ReconcileOutcome(cfg, mid, last.answers).world;
    EchoReconcile(cfg, mid, last.answers, w);
    EndlessStep(cfg, mid, w);
  }
}
