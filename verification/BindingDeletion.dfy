// Deletion of a binding: what is sent for a deleted object, when the
// async-deletion finalizer comes and goes, and when the object is released.
module BindingDeletion {
  import opened Results
  import opened OsbApi
  import opened BindingModel
  import opened BindingRuns

  predicate HasFinalizer(w: BindingWorld) {
    ASYNC_DELETION_FINALIZER in w.stored.finalizers
  }

  predicate AcceptedUnbind(e: BindingEvent) {
    e.UnbindSent? && e.unbound.Answered? && e.unbound.value.Some? && e.unbound.value.value.async
  }

  predicate EndsWithAcceptedUnbind(log: seq<BindingEvent>) {
    log != [] && AcceptedUnbind(log[|log| - 1])
  }

  // The poll of a deleted, in-progress binding goes out and is answered 404 or 410.
  predicate PollConfirmsGone(cfg: BindingConfig, obj: BindingObject, a: BindingAnswers) {
    && obj.deleted && obj.InProgress()
    && BuildBindingLastOperationRequest(obj, cfg.oid).Ok?
    && IsGoneReply(a.poll)
  }

  // The GetBinding of a settled binding goes out and is answered 404 or 410.
  predicate GetConfirmsGone(obj: BindingObject, a: BindingAnswers) {
    !obj.InProgress() && BuildGetBindingRequest(obj).Ok? && IsGoneReply(a.get)
  }

  /******* One reconcile *******/

  // Where observing leaves the stored object and the log.
  lemma ObserveFrame(cfg: BindingConfig, w: BindingWorld, a: BindingAnswers, o: Outcome<Observation>)
    requires o == ObserveOutcome(cfg, BindingState(w.stored, w.stored, w.log), a)
    ensures o.state.obj.deleted == o.state.stored.deleted
    ensures w.stored.deleted ==> o.state.stored.deleted
    ensures o.state.obj.externalName == w.stored.externalName == o.state.stored.externalName
    ensures var call := ObserveCall(cfg, w.stored, a);
      o.state.log == if call.Some? then w.log + [call.value] else w.log
    ensures PollConfirmsGone(cfg, w.stored, a) && HasFinalizer(w) && a.updateOk ==>
      && o.state.stored.finalizers == w.stored.finalizers - {ASYNC_DELETION_FINALIZER}
      && o.result == Ok(Observation(false, false, None)) && o.state.obj.deleted
    ensures !(PollConfirmsGone(cfg, w.stored, a) && HasFinalizer(w) && a.updateOk) ==>
      && o.state.stored.finalizers == w.stored.finalizers
      && (o.result.Ok? ==> o.state.obj.finalizers == w.stored.finalizers)
  {
    var s := BindingState(w.stored, w.stored, w.log);
    if w.stored.InProgress() {
      PollFrame(cfg, w, a, LastOperationOutcome(cfg, s, a));
    } else if BuildGetBindingRequest(w.stored).Ok? && a.get.Answered? {
      GetBindingKeeps(cfg, s.Sent(GetSent(BuildGetBindingRequest(w.stored).value, a.get)), a.get.value, a);
    }
  }

  lemma PollFrame(cfg: BindingConfig, w: BindingWorld, a: BindingAnswers, o: Outcome<Action>)
    requires w.stored.InProgress()
    requires o == LastOperationOutcome(cfg, BindingState(w.stored, w.stored, w.log), a)
    ensures o.state.obj.deleted == o.state.stored.deleted
    ensures w.stored.deleted ==> o.state.stored.deleted
    ensures o.state.obj.externalName == w.stored.externalName == o.state.stored.externalName
    ensures var call := ObserveCall(cfg, w.stored, a);
      o.state.log == if call.Some? then w.log + [call.value] else w.log
    ensures PollConfirmsGone(cfg, w.stored, a) && HasFinalizer(w) && a.updateOk ==>
      && o.state.stored.finalizers == w.stored.finalizers - {ASYNC_DELETION_FINALIZER}
      && o.result == Ok(NeedToCreate) && o.state.obj.deleted
    ensures !(PollConfirmsGone(cfg, w.stored, a) && HasFinalizer(w) && a.updateOk) ==>
      && o.state.stored.finalizers == w.stored.finalizers
      && (o.result.Ok? ==> o.state.obj.finalizers == w.stored.finalizers)
  {
  }

  lemma ObserveVerdict(cfg: BindingConfig, w: BindingWorld, a: BindingAnswers, o: Outcome<Observation>)
    requires o == ObserveOutcome(cfg, BindingState(w.stored, w.stored, w.log), a)
    ensures o.result.Ok? && !o.result.value.resourceExists <==>
      || (!w.stored.InProgress() && w.stored.externalName == "")
      || GetConfirmsGone(w.stored, a)
      || (PollConfirmsGone(cfg, w.stored, a) && (HasFinalizer(w) ==> a.updateOk))
  {
    if !w.stored.InProgress() && BuildGetBindingRequest(w.stored).Ok? && a.get.Answered? {
      var s := BindingState(w.stored, w.stored, w.log);
      GetBindingVerdict(cfg, s.Sent(GetSent(BuildGetBindingRequest(w.stored).value, a.get)), a.get.value, a);
    }
  }

  // An asynchronously accepted Unbind adds the finalizer, if the write succeeds.
  function FinalizersAfter(call: Option<BindingEvent>, s: BindingState, a: BindingAnswers): set<string> {
    if call.Some? && AcceptedUnbind(call.value) && a.updateOk && ASYNC_DELETION_FINALIZER !in s.obj.finalizers
    then s.obj.finalizers + {ASYNC_DELETION_FINALIZER} else s.stored.finalizers
  }

  lemma DeleteFrame(cfg: BindingConfig, s: BindingState, a: BindingAnswers, d: Outcome<bool>)
    requires d == DeleteOutcome(cfg, s, a)
    ensures d.state.obj.externalName == s.obj.externalName
    ensures d.state.stored.deleted == s.stored.deleted
    ensures d.state.stored.spec == s.stored.spec || d.state.stored.spec == s.obj.spec
    ensures var call := DeleteCall(cfg, s.obj, a);
      && d.state.log == (if call.Some? then s.log + [call.value] else s.log)
      && d.state.stored.finalizers == FinalizersAfter(call, s, a)
  {
  }

  lemma CreateFrame(cfg: BindingConfig, s: BindingState, a: BindingAnswers)
    ensures CreateOutcome(cfg, s, a).state.stored == s.stored
    ensures var call := CreateCall(cfg, s.obj, a);
      CreateOutcome(cfg, s, a).state.log == if call.Some? then s.log + [call.value] else s.log
  {
  }

  lemma RotationFrame(cfg: BindingConfig, s: BindingState, a: BindingAnswers)
    ensures RotationOutcome(cfg, s, a).state.stored == s.stored
    ensures var call := RotationCall(cfg, s.obj, a);
      RotationOutcome(cfg, s, a).state.log == if call.Some? then s.log + [call.value] else s.log
  {
  }

  // The call a reconcile can make after observing.
  function SecondCall(cfg: BindingConfig, o: Outcome<Observation>, a: BindingAnswers): Option<BindingEvent> {
    if o.result.Err? then None
    else if o.state.obj.deleted then if o.result.value.resourceExists then DeleteCall(cfg, o.state.obj, a) else None
    else if !o.result.value.resourceExists then CreateCall(cfg, o.state.obj, a)
    else if !o.result.value.resourceUpToDate then RotationCall(cfg, o.state.obj, a)
    else None
  }

  // What a reconcile adds to observing.
  lemma ReconcileFrame(cfg: BindingConfig, w: BindingWorld, a: BindingAnswers, o: Outcome<Observation>,
      w': BindingWorld)
    requires o == ObserveOutcome(cfg, BindingState(w.stored, w.stored, w.log), a)
    requires w' == ReconcileOutcome(cfg, w, a).world
    ensures var call := SecondCall(cfg, o, a);
      && w'.log == (if call.Some? then o.state.log + [call.value] else o.state.log)
      && w'.stored.deleted == o.state.stored.deleted
      && (w'.stored.spec == o.state.stored.spec || w'.stored.spec == o.state.obj.spec)
      && (o.state.obj.deleted && o.state.obj.externalName == o.state.stored.externalName ==>
            w'.stored.externalName == o.state.obj.externalName)
      && w'.stored.finalizers == FinalizersAfter(call, o.state, a)
  {
    if o.result.Ok? {
      if o.state.obj.deleted {
        if o.result.value.resourceExists {
          DeleteFrame(cfg, o.state, a, DeleteOutcome(cfg, o.state, a));
        }
      } else if !o.result.value.resourceExists {
        CreateFrame(cfg, o.state, a);
      } else if !o.result.value.resourceUpToDate {
        RotationFrame(cfg, o.state, a);
      }
    }
  }

  // The finalizer is removed exactly when a poll of the deleted binding is
  // answered 404 or 410 and the write succeeds.
  lemma FinalizerRemovedIff(cfg: BindingConfig, w: BindingWorld, a: BindingAnswers)
    requires HasFinalizer(w)
    ensures !HasFinalizer(ReconcileOutcome(cfg, w, a).world) <==> PollConfirmsGone(cfg, w.stored, a) && a.updateOk
    ensures !HasFinalizer(ReconcileOutcome(cfg, w, a).world) ==>
      && ReconcileOutcome(cfg, w, a).released
      && ReconcileOutcome(cfg, w, a).world.log ==
         w.log + [PollSent(BuildBindingLastOperationRequest(w.stored, cfg.oid).value, a.poll)]
  {
    var o := ObserveOutcome(cfg, BindingState(w.stored, w.stored, w.log), a);
    ObserveFrame(cfg, w, a, o);
    ReconcileFrame(cfg, w, a, o, ReconcileOutcome(cfg, w, a).world);
  }

  // The finalizer is added exactly when the reconcile's last call is an Unbind
  // the broker takes on asynchronously, and the write succeeds.
  lemma FinalizerAddedIff(cfg: BindingConfig, w: BindingWorld, a: BindingAnswers)
    requires !HasFinalizer(w)
    ensures var w' := ReconcileOutcome(cfg, w, a).world;
      HasFinalizer(w') <==> |w'.log| > |w.log| && EndsWithAcceptedUnbind(w'.log) && a.updateOk
  {
    var o := ObserveOutcome(cfg, BindingState(w.stored, w.stored, w.log), a);
    ObserveFrame(cfg, w, a, o);
    ReconcileFrame(cfg, w, a, o, ReconcileOutcome(cfg, w, a).world);
  }

  // A deleted binding is released exactly when it never had an ID, or the
  // broker answers 404 or 410 about it (and the finalizer, if there, is off).
  lemma ReleasedIff(cfg: BindingConfig, w: BindingWorld, a: BindingAnswers)
    ensures ReconcileOutcome(cfg, w, a).released <==>
      && w.stored.deleted
      && (|| (!w.stored.InProgress() && w.stored.externalName == "")
          || GetConfirmsGone(w.stored, a)
          || (PollConfirmsGone(cfg, w.stored, a) && (HasFinalizer(w) ==> a.updateOk)))
  {
    var o := ObserveOutcome(cfg, BindingState(w.stored, w.stored, w.log), a);
    ObserveFrame(cfg, w, a, o);
    ObserveVerdict(cfg, w, a, o);
  }

  predicate AboutDeletion(e: BindingEvent) {
    e.GetSent? || e.PollSent? || e.UnbindSent?
  }

  // Deletion is for good: a deleted binding keeps its ID, and is never bound or
  // rotated again.
  lemma DeletedReconcile(cfg: BindingConfig, w: BindingWorld, a: BindingAnswers)
    requires w.stored.deleted
    ensures var w' := ReconcileOutcome(cfg, w, a).world;
      && w'.stored.deleted && w'.stored.externalName == w.stored.externalName
      && |w.log| <= |w'.log| <= |w.log| + 2 && w'.log[..|w.log|] == w.log
      && forall i | |w.log| <= i < |w'.log| :: AboutDeletion(w'.log[i])
  {
    var o := ObserveOutcome(cfg, BindingState(w.stored, w.stored, w.log), a);
    ObserveFrame(cfg, w, a, o);
    ReconcileFrame(cfg, w, a, o, ReconcileOutcome(cfg, w, a).world);
  }

  // There is no single flight for deleted bindings: a reconcile of an in-progress
  // binding sends an Unbind exactly when its poll goes out and is answered,
  // whatever state it reports, the refetched object is deleted and the request can
  // be built.
  lemma AnsweredPollUnbindsAgain(cfg: BindingConfig, w: BindingWorld, a: BindingAnswers)
    requires w.stored.InProgress()
    ensures var w' := ReconcileOutcome(cfg, w, a).world;
      var seen := Edited(w.stored, a.concurrent);
      |w'.log| == |w.log| + 2 && w'.log[|w.log| + 1].UnbindSent? <==>
        && BuildBindingLastOperationRequest(w.stored, cfg.oid).Ok? && a.poll.Answered?
        && a.refetchOk && seen.deleted && BuildUnbindRequest(seen, cfg.oid).Ok?
    ensures |ReconcileOutcome(cfg, w, a).world.log| <= |w.log| + 2
  {
    var o := ObserveOutcome(cfg, BindingState(w.stored, w.stored, w.log), a);
    ObserveFrame(cfg, w, a, o);
    ReconcileFrame(cfg, w, a, o, ReconcileOutcome(cfg, w, a).world);
    PolledObject(cfg, w, a, o);
  }

  lemma PolledObject(cfg: BindingConfig, w: BindingWorld, a: BindingAnswers, o: Outcome<Observation>)
    requires w.stored.InProgress() && o == ObserveOutcome(cfg, BindingState(w.stored, w.stored, w.log), a)
    ensures var polled := BuildBindingLastOperationRequest(w.stored, cfg.oid).Ok? && a.poll.Answered? && a.refetchOk;
      && (polled ==> o.result == Ok(Observation(true, true, None)) && o.state.obj.deleted == o.state.stored.deleted)
      && (polled ==> o.state.obj.spec == Edited(w.stored, a.concurrent).spec)
      && (polled ==> o.state.obj.deleted == Edited(w.stored, a.concurrent).deleted)
      && (o.result.Ok? && o.state.obj.deleted && o.result.value.resourceExists ==> polled)
  {
  }

  function PollAfter(cfg: BindingConfig, w: BindingWorld, e: BindingEvent): PollRequest
    requires AcceptedUnbind(e)
  {
    PollRequest(e.unbind.instanceId, e.unbind.bindingId, e.unbind.serviceId, e.unbind.planId, cfg.oid,
                KeyAfter(w.stored.atProvider.lastOperationKey, e.unbound.value.value.operationKey))
  }

  // Every Unbind ends Ready=Deleting. One the broker takes on asynchronously is
  // polled for by the next reconcile, for the same binding, instance, plan and
  // service, with its key or the one recorded before.
  lemma AcceptedUnbindIsPolled(cfg: BindingConfig, w: BindingWorld, a: BindingAnswers, b: BindingAnswers,
      w': BindingWorld)
    requires w' == ReconcileOutcome(cfg, w, a).world
    requires |w'.log| > |w.log| && w'.log[|w'.log| - 1].UnbindSent?
    ensures Ready in w'.stored.conditions && w'.stored.conditions[Ready] == Deleting
    ensures var last := w'.log[|w'.log| - 1];
      AcceptedUnbind(last) ==> ObserveCall(cfg, w'.stored, b) == Some(PollSent(PollAfter(cfg, w, last), b.poll))
  {
    var o := ObserveOutcome(cfg, BindingState(w.stored, w.stored, w.log), a);
    ObserveFrame(cfg, w, a, o);
    ReconcileFrame(cfg, w, a, o, w');
    ObserveAgrees(cfg, w, a, o);
    UnbindRecords(cfg, o.state, a);
  }

  lemma ObserveAgrees(cfg: BindingConfig, w: BindingWorld, a: BindingAnswers, o: Outcome<Observation>)
    requires o == ObserveOutcome(cfg, BindingState(w.stored, w.stored, w.log), a)
    ensures o.state.obj.atProvider.lastOperationKey == w.stored.atProvider.lastOperationKey
    ensures o.state.obj.spec == o.state.stored.spec
  {
    if !w.stored.InProgress() && BuildGetBindingRequest(w.stored).Ok? && a.get.Answered? {
      var s := BindingState(w.stored, w.stored, w.log);
      GetBindingKeeps(cfg, s.Sent(GetSent(BuildGetBindingRequest(w.stored).value, a.get)), a.get.value, a);
    }
  }

  lemma UnbindRecords(cfg: BindingConfig, s: BindingState, a: BindingAnswers)
    requires BuildUnbindRequest(s.obj, cfg.oid).Ok?
    ensures var s' := DeleteOutcome(cfg, s, a).state;
      && Ready in s'.obj.conditions && s'.obj.conditions[Ready] == Deleting
      && s'.obj.spec == s.obj.spec && (s'.stored.spec == s.stored.spec || s'.stored.spec == s.obj.spec)
      && (a.unbind.Answered? && a.unbind.value.Some? && a.unbind.value.value.async ==>
            s'.obj.atProvider == AfterAsync(s.obj, a.unbind.value.value.operationKey).atProvider)
  {
  }

  /******* Whole runs *******/

  lemma {:induction false} DeletedRuns(cfg: BindingConfig, w: BindingWorld, steps: seq<Step>)
    requires w.stored.deleted
    ensures var w' := Run(cfg, w, steps);
      && w'.stored.deleted && w'.stored.externalName == w.stored.externalName
      && |w.log| <= |w'.log| && w'.log[..|w.log|] == w.log
      && forall i | |w.log| <= i < |w'.log| :: AboutDeletion(w'.log[i])
  {
    if steps != [] {
      var before := steps[..|steps| - 1];
      DeletedRuns(cfg, w, before);
      match steps[|steps| - 1] {
        case User(_) =>
        case Reconcile(a) =>
          var mid := Run(cfg, w, before);
          DeletedReconcile(cfg, mid, a);
          var w' := ReconcileOutcome(cfg, mid, a).world;
          assert w'.log[..|w.log|] == w'.log[..|mid.log|][..|w.log|];
          forall i | |w.log| <= i < |w'.log| ensures AboutDeletion(w'.log[i]) {
            if i < |mid.log| { assert w'.log[i] == mid.log[i]; }
          }
      }
    }
  }

  // Some Unbind of the object's binding was accepted asynchronously.
  predicate UnbindAcceptedFor(w: BindingWorld) {
    exists i :: 0 <= i < |w.log| && AcceptedUnbind(w.log[i]) && w.log[i].unbind.bindingId == w.stored.externalName
  }

  predicate FinalizerInv(w: BindingWorld) {
    HasFinalizer(w) ==> w.stored.deleted && UnbindAcceptedFor(w)
  }

  lemma ReconcileKeepsFinalizerInv(cfg: BindingConfig, w: BindingWorld, a: BindingAnswers)
    requires FinalizerInv(w)
    ensures FinalizerInv(ReconcileOutcome(cfg, w, a).world)
  {
    var w' := ReconcileOutcome(cfg, w, a).world;
    if HasFinalizer(w) {
      DeletedReconcile(cfg, w, a);
      var i :| 0 <= i < |w.log| && AcceptedUnbind(w.log[i]) && w.log[i].unbind.bindingId == w.stored.externalName;
      assert w'.log[i] == w'.log[..|w.log|][i];
    } else if HasFinalizer(w') {
      FinalizerAddedIff(cfg, w, a);
      var o := ObserveOutcome(cfg, BindingState(w.stored, w.stored, w.log), a);
      ObserveFrame(cfg, w, a, o);
      ReconcileFrame(cfg, w, a, o, w');
      assert AcceptedUnbind(w'.log[|w'.log| - 1]);
    }
  }

  // In every run, a stored finalizer means the object is deleted and the broker
  // has accepted an asynchronous Unbind of its very binding.
  lemma {:induction false} FinalizerIsJustified(cfg: BindingConfig, origin: BindingObject, steps: seq<Step>)
    requires ASYNC_DELETION_FINALIZER !in origin.finalizers
    ensures FinalizerInv(RunFrom(cfg, origin, steps))
  {
    if steps != [] {
      var before := steps[..|steps| - 1];
      FinalizerIsJustified(cfg, origin, before);
      var w := RunFrom(cfg, origin, before);
      match steps[|steps| - 1] {
        case User(edit) =>
          if HasFinalizer(w) {
            var i :| 0 <= i < |w.log| && AcceptedUnbind(w.log[i]) && w.log[i].unbind.bindingId == w.stored.externalName;
            assert Next(cfg, w, User(edit)).log[i] == w.log[i];
          }
        case Reconcile(a) => ReconcileKeepsFinalizerInv(cfg, w, a);
      }
    }
  }

  datatype Ids = Ids(instanceId: string, planId: string, serviceId: string)

  function IdsOf(spec: BindingSpec): Ids {
    Ids(spec.instanceId, spec.planId, spec.serviceId)
  }

  // The call names these IDs, as far as it has them, is made for the
  // controller's identity, and allows an asynchronous Bind only when enabled.
  predicate Names(cfg: BindingConfig, ids: Ids, e: BindingEvent) {
    match e
    case BindSent(req, _) =>
      && Ids(req.instanceId, req.planId, req.serviceId) == ids && req.oid == cfg.oid
      && req.acceptsIncomplete != cfg.disableAsync
    case GetSent(req, _) => req.instanceId == ids.instanceId
    case PollSent(req, _) => Ids(req.instanceId, req.planId, req.serviceId) == ids && req.oid == cfg.oid
    case RotateSent(req, _) => req.instanceId == ids.instanceId && req.oid == cfg.oid
    case UnbindSent(req, _) => Ids(req.instanceId, req.planId, req.serviceId) == ids && req.oid == cfg.oid
  }

  function EditOf(step: Step): UserEdit {
    match step
    case User(edit) => edit
    case Reconcile(a) => a.concurrent
  }

  predicate EditKeepsIds(ids: Ids, edit: UserEdit) {
    edit.spec.Some? ==> IdsOf(edit.spec.value) == ids
  }

  // No edit changes the instance, plan or service ID.
  predicate KeepsIds(ids: Ids, steps: seq<Step>) {
    forall i | 0 <= i < |steps| :: EditKeepsIds(ids, EditOf(steps[i]))
  }

  predicate AllName(cfg: BindingConfig, ids: Ids, log: seq<BindingEvent>) {
    forall i | 0 <= i < |log| :: Names(cfg, ids, log[i])
  }

  predicate OneService(cfg: BindingConfig, ids: Ids, w: BindingWorld) {
    IdsOf(w.stored.spec) == ids && AllName(cfg, ids, w.log)
  }

  lemma ReconcileKeepsService(cfg: BindingConfig, ids: Ids, w: BindingWorld, a: BindingAnswers)
    requires OneService(cfg, ids, w) && EditKeepsIds(ids, a.concurrent)
    ensures OneService(cfg, ids, ReconcileOutcome(cfg, w, a).world)
  {
    var o := ObserveOutcome(cfg, BindingState(w.stored, w.stored, w.log), a);
    ObserveFrame(cfg, w, a, o);
    ObserveIds(cfg, ids, w, a, o);
    assert AllName(cfg, ids, o.state.log);
    SecondCallNames(cfg, ids, o, a);
    ReconcileFrame(cfg, w, a, o, ReconcileOutcome(cfg, w, a).world);
  }

  lemma SecondCallNames(cfg: BindingConfig, ids: Ids, o: Outcome<Observation>, a: BindingAnswers)
    requires IdsOf(o.state.obj.spec) == ids
    ensures var call := SecondCall(cfg, o, a); call.Some? ==> Names(cfg, ids, call.value)
  {
  }

  lemma ObserveIds(cfg: BindingConfig, ids: Ids, w: BindingWorld, a: BindingAnswers, o: Outcome<Observation>)
    requires o == ObserveOutcome(cfg, BindingState(w.stored, w.stored, w.log), a)
    requires IdsOf(w.stored.spec) == ids && EditKeepsIds(ids, a.concurrent)
    ensures IdsOf(o.state.obj.spec) == ids && IdsOf(o.state.stored.spec) == ids
  {
    if !w.stored.InProgress() && BuildGetBindingRequest(w.stored).Ok? && a.get.Answered? {
      var s := BindingState(w.stored, w.stored, w.log);
      GetBindingKeeps(cfg, s.Sent(GetSent(BuildGetBindingRequest(w.stored).value, a.get)), a.get.value, a);
    }
  }

  // Unless an edit changes them, every call of every run names the same
  // instance, plan and service, on behalf of the controller's identity.
  lemma {:induction false} RunsKeepService(cfg: BindingConfig, origin: BindingObject, steps: seq<Step>)
    requires KeepsIds(IdsOf(origin.spec), steps)
    ensures OneService(cfg, IdsOf(origin.spec), RunFrom(cfg, origin, steps))
  {
    if steps != [] {
      var before, last := steps[..|steps| - 1], steps[|steps| - 1];
      var ids := IdsOf(origin.spec);
      assert KeepsIds(ids, before);
      RunsKeepService(cfg, origin, before);
      assert EditKeepsIds(ids, EditOf(last));
      if last.Reconcile? {
        ReconcileKeepsService(cfg, ids, RunFrom(cfg, origin, before), last.answers);
      }
    }
  }

  // Async-unbind safety. If a reconcile of any run takes the finalizer off, its
  // only call is a poll answered 404 or 410, the object is deleted, and that
  // poll names the binding ID (and, IDs unedited, the instance, plan and service)
  // of an Unbind the broker accepted asynchronously.
  lemma FinalizerRemovalIsConfirmed(cfg: BindingConfig, origin: BindingObject, steps: seq<Step>, a: BindingAnswers)
    returns (i: nat, poll: PollRequest)
    requires ASYNC_DELETION_FINALIZER !in origin.finalizers
    requires var w := RunFrom(cfg, origin, steps); HasFinalizer(w) && !HasFinalizer(ReconcileOutcome(cfg, w, a).world)
    ensures var w := RunFrom(cfg, origin, steps);
      && w.stored.deleted
      && ReconcileOutcome(cfg, w, a).world.log == w.log + [PollSent(poll, a.poll)] && IsGoneReply(a.poll)
      && i < |w.log| && AcceptedUnbind(w.log[i])
      && w.log[i].unbind.bindingId == poll.bindingId
      && (KeepsIds(IdsOf(origin.spec), steps) ==>
            && w.log[i].unbind.instanceId == poll.instanceId
            && w.log[i].unbind.planId == poll.planId && w.log[i].unbind.serviceId == poll.serviceId)
  {
    var w := RunFrom(cfg, origin, steps);
    FinalizerRemovedIff(cfg, w, a);
    FinalizerIsJustified(cfg, origin, steps);
    poll := BuildBindingLastOperationRequest(w.stored, cfg.oid).value;
    i :| 0 <= i < |w.log| && AcceptedUnbind(w.log[i]) && w.log[i].unbind.bindingId == w.stored.externalName;
    if KeepsIds(IdsOf(origin.spec), steps) {
      RunsKeepService(cfg, origin, steps);
      assert Names(cfg, IdsOf(origin.spec), w.log[i]);
    }
  }

  predicate NoneAcceptedSince(n: nat, log: seq<BindingEvent>) {
    forall i | n <= i < |log| :: !AcceptedUnbind(log[i])
  }

  // The finalizer is stuck once the last operation is reported as anything but
  // in progress: it stays through every run in which no Unbind is accepted
  // asynchronously again, even when the object is released.
  lemma {:induction false} FinalizerIsStuck(cfg: BindingConfig, w: BindingWorld, steps: seq<Step>)
    requires HasFinalizer(w) && w.stored.deleted && !w.stored.InProgress()
    requires NoneAcceptedSince(|w.log|, Run(cfg, w, steps).log)
    ensures HasFinalizer(Run(cfg, w, steps)) && !Run(cfg, w, steps).stored.InProgress()
  {
    if steps != [] {
      var before, last := steps[..|steps| - 1], steps[|steps| - 1];
      var mid := Run(cfg, w, before);
      DeletedRuns(cfg, w, before);
      if last.Reconcile? {
        StuckStep(cfg, |w.log|, mid, last.answers);
      }
      FinalizerIsStuck(cfg, w, before);
    }
  }

  // The finalizer can still come off: some further run without another
  // asynchronously accepted Unbind removes it.
  ghost predicate Removable(cfg: BindingConfig, w: BindingWorld) {
    exists steps :: NoneAcceptedSince(|w.log|, Run(cfg, w, steps).log) && !HasFinalizer(Run(cfg, w, steps))
  }

  function GoneAnswers(): BindingAnswers {
    BindingAnswers(Refused(OtherError), Refused(OtherError), Refused(HttpError(404)), Refused(OtherError),
                   Refused(OtherError), "", 0, 0, "", true, true, UserEdit(None, false))
  }

  // A deleted binding's finalizer can come off exactly while its last operation
  // is recorded as in progress.
  lemma RemovableIff(cfg: BindingConfig, w: BindingWorld)
    requires HasFinalizer(w) && w.stored.deleted
    requires w.stored.externalName != "" && OidGuard(cfg.oid).None?
    ensures Removable(cfg, w) <==> w.stored.InProgress()
  {
    if w.stored.InProgress() {
      var spec := if SpecGuard(w.stored.spec).None? then w.stored.spec
                  else w.stored.spec.(instanceId := "i", planId := "p", serviceId := "s");
      var steps := [User(UserEdit(Some(spec), false)), Reconcile(GoneAnswers())];
      var mid := Next(cfg, w, steps[0]);
      assert steps[..1][..0] == [] && steps[..1][0] == steps[0];
      assert Run(cfg, w, steps[..1]) == mid;
      assert Run(cfg, w, steps) == ReconcileOutcome(cfg, mid, GoneAnswers()).world;
      FinalizerRemovedIff(cfg, mid, GoneAnswers());
    } else if Removable(cfg, w) {
      var steps :| NoneAcceptedSince(|w.log|, Run(cfg, w, steps).log) && !HasFinalizer(Run(cfg, w, steps));
      FinalizerIsStuck(cfg, w, steps);
      assert false;
    }
  }

  // How it gets stuck. A reconcile that polls for a deleted binding leaves the
  // finalizer for ever (but for another asynchronous Unbind) exactly when the
  // poll is answered with a state other than in progress, the object can be
  // refetched, and the Unbind sent then is not accepted asynchronously.
  lemma FinalizerGetsStuckIff(cfg: BindingConfig, w: BindingWorld, a: BindingAnswers)
    requires HasFinalizer(w) && w.stored.deleted && w.stored.InProgress()
    requires BuildBindingLastOperationRequest(w.stored, cfg.oid).Ok?
    ensures var w' := ReconcileOutcome(cfg, w, a).world;
      HasFinalizer(w') && !Removable(cfg, w') <==>
        && a.poll.Answered? && a.refetchOk && a.poll.value.state != StateInProgress
        && !(BuildUnbindRequest(Edited(w.stored, a.concurrent), cfg.oid).Ok? && AcceptsUnbind(a))
  {
    var w' := ReconcileOutcome(cfg, w, a).world;
    SettlesIff(cfg, w, a);
    DeletedReconcile(cfg, w, a);
    if HasFinalizer(w') {
      RemovableIff(cfg, w');
    }
  }

  predicate AcceptsUnbind(a: BindingAnswers) {
    a.unbind.Answered? && a.unbind.value.Some? && a.unbind.value.value.async
  }

  lemma SettlesIff(cfg: BindingConfig, w: BindingWorld, a: BindingAnswers)
    requires HasFinalizer(w) && w.stored.deleted && w.stored.InProgress()
    requires BuildBindingLastOperationRequest(w.stored, cfg.oid).Ok?
    ensures var w' := ReconcileOutcome(cfg, w, a).world;
      HasFinalizer(w') && !w'.stored.InProgress() <==>
        && a.poll.Answered? && a.refetchOk && a.poll.value.state != StateInProgress
        && !(BuildUnbindRequest(Edited(w.stored, a.concurrent), cfg.oid).Ok? && AcceptsUnbind(a))
  {
    FinalizerRemovedIff(cfg, w, a);
  }

  lemma StuckStep(cfg: BindingConfig, n: nat, w: BindingWorld, a: BindingAnswers)
    requires n <= |w.log| && w.stored.deleted
    requires NoneAcceptedSince(n, ReconcileOutcome(cfg, w, a).world.log)
    ensures NoneAcceptedSince(n, w.log)
    ensures HasFinalizer(w) && !w.stored.InProgress() ==>
      HasFinalizer(ReconcileOutcome(cfg, w, a).world) && !ReconcileOutcome(cfg, w, a).world.stored.InProgress()
  {
    var log' := ReconcileOutcome(cfg, w, a).world.log;
    DeletedReconcile(cfg, w, a);
    forall i | n <= i < |w.log| ensures !AcceptedUnbind(w.log[i]) {
      assert log'[i] == log'[..|w.log|][i];
    }
    if HasFinalizer(w) && !w.stored.InProgress() {
      FinalizerRemovedIff(cfg, w, a);
      SettledStaysSettled(cfg, w, a);
    }
  }

  lemma SettledStaysSettled(cfg: BindingConfig, w: BindingWorld, a: BindingAnswers)
    requires w.stored.deleted && !w.stored.InProgress()
    requires var w' := ReconcileOutcome(cfg, w, a).world;
      |w'.log| == |w.log| || !EndsWithAcceptedUnbind(w'.log)
    ensures !ReconcileOutcome(cfg, w, a).world.stored.InProgress()
  {
    var o := ObserveOutcome(cfg, BindingState(w.stored, w.stored, w.log), a);
    ObserveFrame(cfg, w, a, o);
    ObserveSettled(cfg, w, a, o);
    if o.result.Ok? && o.result.value.resourceExists {
      DeleteSettled(cfg, o.state, a, DeleteOutcome(cfg, o.state, a));
    }
  }

  lemma ObserveSettled(cfg: BindingConfig, w: BindingWorld, a: BindingAnswers, o: Outcome<Observation>)
    requires !w.stored.InProgress()
    requires o == ObserveOutcome(cfg, BindingState(w.stored, w.stored, w.log), a)
    ensures !o.state.obj.InProgress() && !o.state.stored.InProgress()
  {
    if BuildGetBindingRequest(w.stored).Ok? && a.get.Answered? {
      var s := BindingState(w.stored, w.stored, w.log);
      GetBindingKeeps(cfg, s.Sent(GetSent(BuildGetBindingRequest(w.stored).value, a.get)), a.get.value, a);
    }
  }

  lemma DeleteSettled(cfg: BindingConfig, s: BindingState, a: BindingAnswers, d: Outcome<bool>)
    requires !s.obj.InProgress() && d == DeleteOutcome(cfg, s, a)
    ensures d.state.obj.InProgress() ==> d.state.log != [] && EndsWithAcceptedUnbind(d.state.log)
    ensures d.state.log == s.log || |d.state.log| > |s.log|
  {
  }

  // Unless the broker was never called at all, a run releases the object only
  // in a reconcile whose only call names its binding and is answered 404 or 410.
  lemma ReleaseIsConfirmed(cfg: BindingConfig, origin: BindingObject, steps: seq<Step>, a: BindingAnswers)
    requires AllFresh(cfg, origin, steps)
    requires ReconcileOutcome(cfg, RunFrom(cfg, origin, steps), a).released
    ensures var w := RunFrom(cfg, origin, steps);
      var log', head := ReconcileOutcome(cfg, w, a).world.log, Head(origin.externalName, w.log);
      || log' == w.log == []
      || (exists req :: log' == w.log + [GetSent(req, a.get)] && req.bindingId == head && IsGoneReply(a.get))
      || (exists req :: log' == w.log + [PollSent(req, a.poll)] && req.bindingId == head && IsGoneReply(a.poll))
  {
    var w := RunFrom(cfg, origin, steps);
    RunsFollowProtocol(cfg, origin, steps);
    ReleasedIff(cfg, w, a);
    var o := ObserveOutcome(cfg, BindingState(w.stored, w.stored, w.log), a);
    ObserveFrame(cfg, w, a, o);
    ReleaseAddsNothing(cfg, w, a, o);
    var get, poll := BuildGetBindingRequest(w.stored), BuildBindingLastOperationRequest(w.stored, cfg.oid);
    if GetConfirmsGone(w.stored, a) {
      assert o.state.log == w.log + [GetSent(get.value, a.get)];
    } else if PollConfirmsGone(cfg, w.stored, a) {
      assert o.state.log == w.log + [PollSent(poll.value, a.poll)];
    } else if w.log != [] {
      CalledIsNamed(origin, w.log);
      assert false;
    }
  }

  lemma ReleaseAddsNothing(cfg: BindingConfig, w: BindingWorld, a: BindingAnswers, o: Outcome<Observation>)
    requires o == ObserveOutcome(cfg, BindingState(w.stored, w.stored, w.log), a)
    requires ReconcileOutcome(cfg, w, a).released
    ensures ReconcileOutcome(cfg, w, a).world.log == o.state.log
  {
  }

  // Every call of the protocol has a binding to name.
  lemma CalledIsNamed(origin: BindingObject, log: seq<BindingEvent>)
    requires Protocol(origin, log) && log != []
    ensures Head(origin.externalName, log) != ""
  {
    assert Allowed(origin, log[..|log| - 1], log[|log| - 1]);
  }
}
