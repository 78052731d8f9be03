// Concrete runs of a fresh binding that go wrong, each step included.
module FailingBindingRuns {
  import opened Results
  import opened JsonValues
  import opened OsbApi
  import opened BindingModel
  import opened BindingRuns
  import opened BindingDeletion
  import opened BindingSteps
  import BindingLifecycle

  function SomeCodec(): Codec {
    Codec(v => Some("json"), t => Some(JNull), p => Some("json"), t => Some(None), t => Some(0))
  }

  function SomeConfig(): BindingConfig {
    BindingConfig(OriginatingIdentity("kubernetes", "user"), false, true, SomeCodec())
  }

  function SomeSpec(): BindingSpec {
    BindingSpec("instance", "plan", "service", "", "", Context("kubernetes", "ns", None, None, "c", "i"), "{}")
  }

  function FreshBinding(): BindingObject {
    var seen := BindingObservation("", None, "", "", None, None, StateUnset, "", "", "");
    BindingObject("", false, {}, SomeSpec(), seen, map[])
  }

  // A broker that does everything asynchronously, and reports it done at once.
  function AsyncBroker(): BindingAnswers {
    BindingAnswers(
      bind := Answered(Some(BindResponse(true, Some("k"), None, JNull, JNull, None, None, None))),
      get := Refused(HttpError(404)),
      poll := Answered(LastOperationResponse(StateSucceeded, None)),
      rotate := Answered(BindResponse(true, Some("k"), None, JNull, JNull, None, None, None)),
      unbind := Answered(Some(UnbindResponse(true, Some("k")))),
      newUuid := "b", renewClock := 1, expiryClock := 1, polledTime := "now",
      refetchOk := true, updateOk := true, concurrent := UserEdit(None, false))
  }

  lemma RunOneMore(cfg: BindingConfig, origin: BindingObject, steps: seq<Step>, last: Step)
    ensures RunFrom(cfg, origin, steps + [last]) == Next(cfg, RunFrom(cfg, origin, steps), last)
  {
    assert (steps + [last])[..|steps|] == steps;
  }

  lemma RunOfThree(cfg: BindingConfig, origin: BindingObject, x: Step, y: Step, z: Step)
    ensures RunFrom(cfg, origin, [x, y, z]) == Next(cfg, Next(cfg, Next(cfg, BindingWorld(origin, []), x), y), z)
  {
    RunOneMore(cfg, origin, [], x);
    RunOneMore(cfg, origin, [x], y);
    RunOneMore(cfg, origin, [x, y], z);
    assert [] + [x] == [x] && [x] + [y] == [x, y] && [x, y] + [z] == [x, y, z];
  }

  // The broker forgets the binding once it is unbound.
  function Unbound(): BindingAnswers {
    AsyncBroker().(unbind := Refused(HttpError(410)))
  }

  // Bind, delete, unbind asynchronously, poll "succeeded": the Unbind sent after
  // that poll is answered 410, and the finalizer is stuck. The next reconcile
  // releases the object with the finalizer still on it.
  lemma FinalizerGetsStuckRun() returns (steps: seq<Step>)
    ensures var w := RunFrom(SomeConfig(), FreshBinding(), steps);
      var r := ReconcileOutcome(SomeConfig(), w, Unbound());
      HasFinalizer(w) && !Removable(SomeConfig(), w) && r.released && HasFinalizer(r.world)
  {
    var cfg := SomeConfig();
    var bind, delete, settle := Reconcile(AsyncBroker()), User(UserEdit(None, true)), Reconcile(Unbound());
    steps := [bind, delete, bind] + [settle];
    var w1 := Next(cfg, BindingWorld(FreshBinding(), []), bind);
    BindsInProgress();
    var w2 := Next(cfg, w1, delete);
    UnbindAddsFinalizer(w2);
    Settles(Next(cfg, w2, bind));
    RunOfThree(cfg, FreshBinding(), bind, delete, bind);
    RunOneMore(cfg, FreshBinding(), [bind, delete, bind], settle);
  }

  predicate Bound(w: BindingWorld) {
    w.stored.externalName == "b" && w.stored.InProgress() && w.stored.spec == SomeSpec()
  }

  lemma BindsInProgress()
    ensures var w := ReconcileOutcome(SomeConfig(), BindingWorld(FreshBinding(), []), AsyncBroker()).world;
      Bound(w) && !HasFinalizer(w)
  {
  }

  lemma UnbindAddsFinalizer(w: BindingWorld)
    requires Bound(w) && w.stored.deleted && !HasFinalizer(w)
    ensures var w' := ReconcileOutcome(SomeConfig(), w, AsyncBroker()).world;
      Bound(w') && w'.stored.deleted && HasFinalizer(w')
  {
  }

  lemma Settles(w: BindingWorld)
    requires Bound(w) && w.stored.deleted && HasFinalizer(w)
    ensures var w' := ReconcileOutcome(SomeConfig(), w, Unbound()).world;
      var r := ReconcileOutcome(SomeConfig(), w', Unbound());
      HasFinalizer(w') && !Removable(SomeConfig(), w') && r.released && HasFinalizer(r.world)
  {
    var cfg := SomeConfig();
    var w' := ReconcileOutcome(cfg, w, Unbound()).world;
    FinalizerGetsStuckIff(cfg, w, Unbound());
    SettlesIff(cfg, w, Unbound());
    DeletedReconcile(cfg, w, Unbound());
    SpecStays(w);
    ReleasedIff(cfg, w', Unbound());
    FinalizerRemovedIff(cfg, w', Unbound());
  }

  lemma SpecStays(w: BindingWorld)
    requires Bound(w) && w.stored.deleted
    ensures ReconcileOutcome(SomeConfig(), w, Unbound()).world.stored.spec == SomeSpec()
  {
  }

  // A broker that binds at once and shows a binding whose renewal date has passed.
  function RenewingBroker(): BindingAnswers {
    AsyncBroker().(
      bind := Answered(Some(BindResponse(false, None, None, JNull, JNull, None, None, None))),
      get := Answered(GetBindingResponse(None, None, JNull, JNull, None, None, Some(BindingMetadata("t", "t")))))
  }

  // Bind, take the plan ID out of the spec, rotate asynchronously: from there on
  // no reconcile does anything.
  lemma RotationStrandsRun() returns (steps: seq<Step>)
    ensures var w := RunFrom(SomeConfig(), FreshBinding(), steps);
      && w.log != [] && w.log[|w.log| - 1].RotateSent? && w.log[|w.log| - 1].rotated.Answered?
      && Stranded(w)
  {
    var cfg := SomeConfig();
    var again, edit := Reconcile(RenewingBroker()), User(UserEdit(Some(SomeSpec().(planId := "")), false));
    var rotate := Reconcile(RenewingBroker().(newUuid := "c"));
    steps := [again, edit, rotate];
    var w1 := Next(cfg, BindingWorld(FreshBinding(), []), again);
    BindsAtOnce();
    var w2 := Next(cfg, w1, edit);
    Strands(w2);
    RunOfThree(cfg, FreshBinding(), again, edit, rotate);
  }

  lemma BindsAtOnce()
    ensures var w := ReconcileOutcome(SomeConfig(), BindingWorld(FreshBinding(), []), RenewingBroker()).world;
      && w.stored.externalName == "b" && !w.stored.InProgress() && !w.stored.deleted && w.stored.spec == SomeSpec()
  {
  }

  lemma Strands(w: BindingWorld)
    requires w.stored.externalName == "b" && !w.stored.InProgress() && !w.stored.deleted
    requires w.stored.spec == SomeSpec().(planId := "")
    ensures var w' := ReconcileOutcome(SomeConfig(), w, RenewingBroker().(newUuid := "c")).world;
      EndsWithRotation(w, w') && w'.log[|w'.log| - 1].rotated.Answered? && Stranded(w')
  {
    Rotates(w);
    var w' := ReconcileOutcome(SomeConfig(), w, RenewingBroker().(newUuid := "c")).world;
    forall more | OnlyReconciles(more) ensures Run(SomeConfig(), w', more) == w' {
      UnpollableIsStranded(SomeConfig(), w', more);
    }
  }

  // No number of reconciles changes anything.
  ghost predicate Stranded(w: BindingWorld) {
    forall more | OnlyReconciles(more) :: Run(SomeConfig(), w, more) == w
  }

  lemma Rotates(w: BindingWorld)
    requires w.stored.externalName == "b" && !w.stored.InProgress() && !w.stored.deleted
    requires w.stored.spec == SomeSpec().(planId := "")
    ensures var w' := ReconcileOutcome(SomeConfig(), w, RenewingBroker().(newUuid := "c")).world;
      && EndsWithRotation(w, w') && w'.log[|w'.log| - 1].rotated.Answered?
      && w'.stored.InProgress() && w'.stored.spec.planId == ""
  {
    var cfg, a := SomeConfig(), RenewingBroker().(newUuid := "c");
    var w' := ReconcileOutcome(cfg, w, a).world;
    RotationIsJustified(cfg, w, a);
    BindingLifecycle.RotationLeaves(cfg, w, a, w');
    var o := ObserveOutcome(cfg, BindingState(w.stored, w.stored, w.log), a);
    ObserveFrame(cfg, w, a, o);
    ReconcileFrame(cfg, w, a, o, w');
  }
}
