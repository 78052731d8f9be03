// Concrete runs of a fresh instance that go wrong, each step included.
module FailingInstanceRuns {
  import opened Results
  import opened JsonValues
  import opened OsbApi
  import opened InstanceModel
  import opened InstanceRuns
  import opened InstanceConvergence

  function SomeConfig(): InstanceConfig {
    var codec := Codec(v => Some("json"), t => Some(JNull), p => Some("json"), t => Some(None), t => Some(0));
    InstanceConfig(OriginatingIdentity("kubernetes", "user"), false, codec)
  }

  function FreshInstance(): InstanceObject {
    var context := Context("kubernetes", "ns", None, None, "c", "i");
    InstanceObject(false, InstanceSpec("instance", "plan", "service", "org", "space", context, ""),
                   InstanceObservation(context, None, StateUnset, "", "", false), map[])
  }

  // A broker that works asynchronously, provisions with this key and deprovisions
  // with the empty one.
  function AsyncBroker(key: Option<OperationKey>): InstanceAnswers {
    InstanceAnswers(
      provision := Answered(OsbAsyncResponse(true, key, None)),
      update := Refused(OtherError),
      deprovision := Answered(DeprovisionResponse(true, Some(""))),
      poll := Answered(LastOperationResponse(StateInProgress, None)),
      get := Refused(HttpError(404)),
      refetchOk := true, observeWriteOk := true, actWriteOk := true,
      concurrent := UserEdit(None, false, None))
  }

  lemma RunOneMore(cfg: InstanceConfig, origin: InstanceObject, steps: seq<Step>, last: Step)
    ensures RunFrom(cfg, origin, steps + [last]) == Next(cfg, RunFrom(cfg, origin, steps), last)
  {
    assert (steps + [last])[..|steps|] == steps;
  }

  lemma RunOfThree(cfg: InstanceConfig, origin: InstanceObject, x: Step, y: Step, z: Step)
    ensures RunFrom(cfg, origin, [x, y, z]) == Next(cfg, Next(cfg, Next(cfg, InstanceWorld(origin, []), x), y), z)
  {
    RunOneMore(cfg, origin, [], x);
    RunOneMore(cfg, origin, [x], y);
    RunOneMore(cfg, origin, [x, y], z);
    assert [] + [x] == [x] && [x] + [y] == [x, y] && [x, y] + [z] == [x, y, z];
  }

  // Without an operation key two reconciles provision the same instance twice.
  lemma ProvisionsTwiceRun() returns (steps: seq<Step>)
    ensures var log := RunFrom(SomeConfig(), FreshInstance(), steps).log;
      && |log| == 4 && log[0].GetSent? && log[1].ProvisionSent? && log[2].GetSent? && log[3].ProvisionSent?
      && log[1].provision == log[3].provision && log[1].provisioned.Answered?
  {
    var cfg, origin, again := SomeConfig(), FreshInstance(), Reconcile(AsyncBroker(None));
    steps := [again, again];
    RunOneMore(cfg, origin, [], again);
    RunOneMore(cfg, origin, [again], again);
    assert [] + [again] == [again] && [again] + [again] == steps;
    var w, a := RunFrom(cfg, origin, []), AsyncBroker(None);
    var w1, w2 := RunFrom(cfg, origin, [again]), RunFrom(cfg, origin, steps);
    ContextIsNeverEmpty(origin.spec.context);
    ProvisionIff(cfg, w, a, w1);
    ProvisionedTwiceIff(cfg, w, a, a, w1, w2);
  }

  // Provision with a key, delete, deprovision with the empty key: the next
  // reconcile releases the instance without a call.
  lemma ReleasedWhileDeprovisioningRun() returns (steps: seq<Step>)
    ensures var w := RunFrom(SomeConfig(), FreshInstance(), steps);
      var r := ReconcileOutcome(SomeConfig(), w, AsyncBroker(Some("k")));
      && w.stored.atProvider.lastOperationState == StateDeleting
      && w.log != [] && w.log[|w.log| - 1].DeprovisionSent? && w.log[|w.log| - 1].deprovisioned.Answered?
      && r.released && r.world.log == w.log
  {
    var cfg, origin, a := SomeConfig(), FreshInstance(), AsyncBroker(Some("k"));
    var again, delete := Reconcile(a), User(UserEdit(None, true, None));
    steps := [again, delete, again];
    var w := InstanceWorld(origin, []);
    var w1 := Next(cfg, w, again);
    ContextIsNeverEmpty(origin.spec.context);
    ProvisionIff(cfg, w, a, w1);
    ProvisionLeaves(cfg, w, a, w1);
    var w2 := Next(cfg, w1, delete);
    assert !w2.stored.atProvider.hasActiveBindings;
    DeprovisionIff(cfg, w2, a);
    AcceptedDeletionIsPolled(cfg, w2, a, a, Next(cfg, w2, again));
    RunOfThree(cfg, origin, again, delete, again);
  }

  // A fresh instance with empty parameters: against a broker that stores and echoes
  // what it is sent, every reconcile but the first, which provisions, sends an
  // update.
  lemma EmptyParametersNeverSettle(steps: seq<Step>)
    requires EchoRun(SomeConfig(), FreshInstance(), steps) && QuietFrom(steps, 0) && steps != []
    ensures Updates(RunFrom(SomeConfig(), FreshInstance(), steps).log) == |steps| - 1
  {
    EndlessFromStart(SomeConfig(), FreshInstance(), steps);
  }

  lemma EndlessFromStart(cfg: InstanceConfig, origin: InstanceObject, steps: seq<Step>)
    requires EchoRun(cfg, origin, steps) && Synchronous(InstanceWorld(origin, []))
    requires QuietFrom(steps, 0) && steps != [] && Endless(cfg, InstanceWorld(origin, []))
    ensures Updates(RunFrom(cfg, origin, steps).log) == |steps| - 1
  {
    UpdatesEndIff(cfg, origin, steps, 0);
  }

  // A fresh instance without a service ID is never provisioned.
  lemma EmptyServiceIdNeverConverges(steps: seq<Step>)
    requires EchoRun(SomeConfig(), WithoutService(), steps) && QuietFrom(steps, 0) && steps != []
    ensures !Converged(SomeConfig(), RunFrom(SomeConfig(), WithoutService(), steps))
  {
    DivergesFromStart(SomeConfig(), WithoutService(), steps);
  }

  lemma DivergesFromStart(cfg: InstanceConfig, origin: InstanceObject, steps: seq<Step>)
    requires EchoRun(cfg, origin, steps) && Synchronous(InstanceWorld(origin, []))
    requires QuietFrom(steps, 0) && steps != [] && !Convergeable(cfg, InstanceWorld(origin, []))
    ensures !Converged(cfg, RunFrom(cfg, origin, steps))
  {
    ConvergenceIff(cfg, origin, steps, 0);
  }

  function WithoutService(): InstanceObject {
    FreshInstance().(spec := FreshInstance().spec.(serviceId := "", parameters := "{}"))
  }

  /******* A context the broker never hears of *******/

  function SpecOf(id: string, namespace: string): InstanceSpec {
    InstanceSpec(id, "plan", "service", "org", "space", Context("kubernetes", namespace, None, None, "c", "i"), "{}")
  }

  function Bare(): InstanceObject {
    FreshInstance().(spec := SpecOf("A", "a"))
  }

  // A synchronous broker that does not hold the instance, or does.
  function SyncBroker(held: bool): InstanceAnswers {
    AsyncBroker(None).(
      provision := Answered(OsbAsyncResponse(false, None, None)),
      update := Answered(OsbAsyncResponse(false, None, None)),
      get := if held then Answered(Some(GetInstanceResponse("plan", None, ""))) else Refused(HttpError(404)))
  }

  lemma SyncProvision(w: InstanceWorld, id: string, namespace: string)
    requires Synchronous(w) && w.stored.spec == SpecOf(id, namespace) && id != "" && id !in HeldBy(w.log)
    ensures var w' := ReconcileOutcome(SomeConfig(), w, SyncBroker(false)).world;
      && Synchronous(w') && w'.stored.spec == w.stored.spec && w'.stored.atProvider.context == w.stored.spec.context
      && HeldBy(w'.log) == HeldBy(w.log)[id := Held("plan", Some(ContextToMap(w.stored.spec.context)), None)]
  {
    var cfg, a := SomeConfig(), SyncBroker(false);
    var w' := ReconcileOutcome(cfg, w, a).world;
    ContextIsNeverEmpty(w.stored.spec.context);
    EchoReconcile(cfg, w, a, w');
    ProvisionIff(cfg, w, a, w');
    var read, call := ObserveCall(cfg, w.stored, a).value, CreateCall(cfg, w.stored, a).value;
    Extend(w.log, read);
    Extend(w.log + [read], call);
    assert w'.log == w.log + [read] + [call];
  }

  // Provision A in one namespace; edit ID and namespace, and provision B; edit the
  // ID back to A. The broker still holds A with the first namespace, but every
  // further reconcile finds nothing to do.
  lemma StaleContextRun() returns (steps: seq<Step>)
    ensures EchoRun(SomeConfig(), Bare(), steps)
    ensures var w := RunFrom(SomeConfig(), Bare(), steps);
      && !Converged(SomeConfig(), w) && StaleContext(w)
      && ObserveOutcome(SomeConfig(), Starting(w), SyncBroker(true)).result == Ok(Observation(true, true, None))
      && Echoes(Holding(w), SyncBroker(true))
  {
    var cfg, origin, provision := SomeConfig(), Bare(), Reconcile(SyncBroker(false));
    var away := User(UserEdit(Some(SpecOf("B", "b")), false, None));
    var back := User(UserEdit(Some(SpecOf("A", "b")), false, None));
    steps := [provision, away, provision] + [back];
    var w3 := Next(cfg, Next(cfg, Next(cfg, InstanceWorld(origin, []), provision), away), provision);
    TwoProvisions();
    ThreeEcho(cfg, origin, provision, away, provision);
    RunOfThree(cfg, origin, provision, away, provision);
    RunOneMore(cfg, origin, [provision, away, provision], back);
    EditEcho(cfg, origin, [provision, away, provision], back);
    StaleEnd(Next(cfg, w3, back));
  }

  lemma TwoProvisions()
    ensures var w2 := ProvisionedAway();
      var w3 := ReconcileOutcome(SomeConfig(), w2, SyncBroker(false)).world;
      && Echoes(Holding(InstanceWorld(Bare(), [])), SyncBroker(false)) && Echoes(Holding(w2), SyncBroker(false))
      && Synchronous(w3) && w3.stored.atProvider.context == SpecOf("B", "b").context
      && "A" in HeldBy(w3.log)
      && HeldBy(w3.log)["A"] == Held("plan", Some(ContextToMap(SpecOf("A", "a").context)), None)
  {
    SyncProvision(InstanceWorld(Bare(), []), "A", "a");
    SyncProvision(ProvisionedAway(), "B", "b");
  }

  function ProvisionedAway(): InstanceWorld {
    var w1 := ReconcileOutcome(SomeConfig(), InstanceWorld(Bare(), []), SyncBroker(false)).world;
    w1.(stored := Edited(w1.stored, UserEdit(Some(SpecOf("B", "b")), false, None)))
  }

  lemma StaleEnd(w: InstanceWorld)
    requires Synchronous(w) && w.stored.spec == SpecOf("A", "b") && w.stored.atProvider.context == w.stored.spec.context
    requires Holding(w) == Some(Held("plan", Some(ContextToMap(SpecOf("A", "a").context)), None))
    ensures !Converged(SomeConfig(), w) && StaleContext(w) && Echoes(Holding(w), SyncBroker(true))
    ensures ObserveOutcome(SomeConfig(), Starting(w), SyncBroker(true)).result == Ok(Observation(true, true, None))
  {
    DifferentNamespaces();
  }

  lemma EditEcho(cfg: InstanceConfig, origin: InstanceObject, steps: seq<Step>, last: Step)
    requires EchoRun(cfg, origin, steps) && last.User? && !last.edit.delete
    ensures EchoRun(cfg, origin, steps + [last])
  {
    assert (steps + [last])[..|steps|] == steps;
  }

  lemma ThreeEcho(cfg: InstanceConfig, origin: InstanceObject, x: Step, y: Step, z: Step)
    requires x.Reconcile? && y.User? && !y.edit.delete && z.Reconcile?
    requires Echoes(Holding(InstanceWorld(origin, [])), x.answers)
    requires Echoes(Holding(Next(cfg, Next(cfg, InstanceWorld(origin, []), x), y)), z.answers)
    ensures EchoRun(cfg, origin, [x, y, z])
  {
    RunOneMore(cfg, origin, [], x);
    RunOneMore(cfg, origin, [x], y);
    assert [] + [x] == [x] && [x] + [y] == [x, y];
    assert [x][..0] == [] && [x, y][..1] == [x] && [x, y, z][..2] == [x, y];
    assert EchoRun(cfg, origin, [x]);
    assert EchoRun(cfg, origin, [x, y]);
  }

  lemma DifferentNamespaces()
    ensures ContextToMap(SpecOf("A", "a").context) != ContextToMap(SpecOf("A", "b").context)
  {
    Members(SpecOf("A", "a").context);
    Members(SpecOf("A", "b").context);
  }
}
