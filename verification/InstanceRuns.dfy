// Whole runs of the instance controller: any sequence of outside edits and
// reconciles against any broker. The log of broker calls is judged by the last
// operation key it holds: that key alone decides which calls are possible.
module InstanceRuns {
  import opened Results
  import opened OsbApi
  import opened InstanceModel

  /******* Runs *******/

  datatype Step = User(edit: UserEdit) | Reconcile(answers: InstanceAnswers)

  function Next(cfg: InstanceConfig, w: InstanceWorld, step: Step): InstanceWorld {
    match step
    case User(edit) => w.(stored := Edited(w.stored, edit))
    case Reconcile(a) => ReconcileOutcome(cfg, w, a).world
  }

  function Run(cfg: InstanceConfig, start: InstanceWorld, steps: seq<Step>): InstanceWorld {
    if steps == [] then start
    else Next(cfg, Run(cfg, start, steps[..|steps| - 1]), steps[|steps| - 1])
  }

  function RunFrom(cfg: InstanceConfig, origin: InstanceObject, steps: seq<Step>): InstanceWorld {
    Run(cfg, InstanceWorld(origin, []), steps)
  }

  /******* What the log alone says *******/

  function AsyncKey(e: InstanceEvent): Option<OperationKey> {
    match e
    case ProvisionSent(_, Answered(r)) => if r.async then r.operationKey else None
    case UpdateSent(_, Answered(r)) => if r.async then r.operationKey else None
    case DeprovisionSent(_, Answered(r)) => if r.async then r.operationKey else None
    case _ => None
  }

  // The last key any asynchronous answer carried.
  function LastKey(key: OperationKey, log: seq<InstanceEvent>): OperationKey {
    if log == [] then key
    else
      var k := AsyncKey(log[|log| - 1]);
      if k.Some? then k.value else LastKey(key, log[..|log| - 1])
  }

  predicate EndsWithGonePoll(log: seq<InstanceEvent>) {
    log != [] && log[|log| - 1].PollSent? && IsGoneReply(log[|log| - 1].polled)
  }

  predicate EndsWithAnsweredPoll(log: seq<InstanceEvent>) {
    log != [] && log[|log| - 1].PollSent? && log[|log| - 1].polled.Answered?
  }

  predicate EndsWithGoneGet(log: seq<InstanceEvent>) {
    log != [] && log[|log| - 1].GetSent? && IsGoneReply(log[|log| - 1].got)
  }

  // A broker-held instance, not a nil answer.
  predicate EndsWithInstance(log: seq<InstanceEvent>) {
    log != [] && log[|log| - 1].GetSent? && log[|log| - 1].got.Answered? && log[|log| - 1].got.value.Some?
  }

  // What every broker call must be, given only the calls before it. With a key
  // recorded the controller polls, and provisions or deprovisions on what the
  // poll says; without one it reads the instance, and provisions or updates.
  predicate Allowed(origin: InstanceObject, past: seq<InstanceEvent>, e: InstanceEvent) {
    var key := LastKey(origin.atProvider.lastOperationKey, past);
    match e
    case PollSent(req, _) => key != "" && req.operationKey == Some(key)
    case GetSent(_, _) => key == ""
    case ProvisionSent(_, _) => if key == "" then EndsWithGoneGet(past) else EndsWithGonePoll(past)
    case UpdateSent(_, _) => key == "" && EndsWithInstance(past)
    case DeprovisionSent(_, _) => key != "" && EndsWithAnsweredPoll(past)
  }

  predicate Protocol(origin: InstanceObject, log: seq<InstanceEvent>) {
    forall j | 0 <= j < |log| :: Allowed(origin, log[..j], log[j])
  }

  /******* Invariant *******/

  predicate Agrees(origin: InstanceObject, obj: InstanceObject, log: seq<InstanceEvent>) {
    && obj.atProvider.lastOperationKey == LastKey(origin.atProvider.lastOperationKey, log)
    && Protocol(origin, log)
  }

  predicate Inv(origin: InstanceObject, w: InstanceWorld) {
    Agrees(origin, w.stored, w.log)
  }

  // An operation that sends nothing leaves the key alone; one that sends e
  // leaves the key e's answer carried, if any.
  predicate Sends(s: InstanceState, call: Option<InstanceEvent>, s': InstanceState) {
    if call.None? then
      s'.log == s.log && s'.obj.atProvider.lastOperationKey == s.obj.atProvider.lastOperationKey
    else
      && s'.log == s.log + [call.value]
      && s'.obj.atProvider.lastOperationKey ==
         if AsyncKey(call.value).Some? then AsyncKey(call.value).value else s.obj.atProvider.lastOperationKey
  }

  lemma SendsAgrees(origin: InstanceObject, s: InstanceState, call: Option<InstanceEvent>, s': InstanceState)
    requires Agrees(origin, s.obj, s.log) && Sends(s, call, s')
    requires call.Some? ==> Allowed(origin, s.log, call.value)
    ensures Agrees(origin, s'.obj, s'.log)
  {
    if call.Some? {
      assert s'.log[..|s.log|] == s.log;
      forall j | 0 <= j < |s'.log| ensures Allowed(origin, s'.log[..j], s'.log[j]) {
        if j < |s.log| {
          assert s'.log[..j] == s.log[..j];
        }
      }
    }
  }

  /******* One reconcile *******/

  function ObserveCall(cfg: InstanceConfig, obj: InstanceObject, a: InstanceAnswers): Option<InstanceEvent> {
    if obj.spec.instanceId == "" then None
    else if obj.HasLastOperation() then
      var req := BuildPollLastOperationRequest(obj, cfg.oid);
      if req.Ok? then Some(PollSent(req.value, a.poll)) else None
    else if obj.deleted then None
    else
      var req := BuildGetInstanceRequest(obj.spec);
      if req.Ok? then Some(GetSent(req.value, a.get)) else None
  }

  // Whether the poll was answered and the refetched object can be looked at.
  predicate PollSeen(cfg: InstanceConfig, obj: InstanceObject, a: InstanceAnswers) {
    && obj.spec.instanceId != "" && obj.HasLastOperation()
    && BuildPollLastOperationRequest(obj, cfg.oid).Ok?
    && a.poll.Answered? && a.refetchOk
  }

  function Refetched(w: InstanceWorld, a: InstanceAnswers): InstanceObject
    requires a.poll.Answered?
  {
    AfterLastOperation(Edited(w.stored, a.concurrent), a.poll.value)
  }

  // What the call Observe made must have been answered for its verdict.
  predicate JustifiedVerdict(keyed: bool, o: Outcome<Observation>) {
    o.result.Ok? ==>
      var log, deleted, verdict := o.state.log, o.state.obj.deleted, o.result.value;
      && (!verdict.resourceExists && !deleted ==> if keyed then EndsWithGonePoll(log) else EndsWithGoneGet(log))
      && (verdict.resourceExists && !verdict.resourceUpToDate ==> !keyed && EndsWithInstance(log))
      && (verdict.resourceExists && deleted ==> keyed && EndsWithAnsweredPoll(log))
  }

  lemma ObserveSends(cfg: InstanceConfig, w: InstanceWorld, a: InstanceAnswers, o: Outcome<Observation>)
    requires o == ObserveOutcome(cfg, Starting(w), a)
    ensures Sends(Starting(w), ObserveCall(cfg, w.stored, a), o.state)
    ensures Sends(Starting(w), ObserveCall(cfg, w.stored, a), o.state.(obj := o.state.stored))
    ensures o.state.obj.deleted == o.state.stored.deleted
    ensures JustifiedVerdict(w.stored.HasLastOperation(), o)
    ensures o.result.Ok? && o.result.value.resourceExists && o.state.obj.deleted ==> PollSeen(cfg, w.stored, a)
  {
  }

  // Which instance verdict NeedToUpdate comes with: the answer is never nil.
  lemma NeedToUpdateHasInstance(cfg: InstanceConfig, s: InstanceState, a: InstanceAnswers)
    ensures var r := ObserveStateOutcome(cfg, s, a).result;
      r.Ok? && r.value.action == NeedToUpdate ==>
        && r.value.instance.Some?
        && !s.obj.HasLastOperation() && !s.obj.deleted
        && a.get == Answered(r.value.instance)
        && (s.obj.spec.instanceId != "" ==>
              ObserveOutcome(cfg, s, a).result ==
              Ok(Observation(true, false, Some(r.value.instance.value.dashboardUrl))))
  {
  }

  function SecondCall(cfg: InstanceConfig, o: Outcome<Observation>, a: InstanceAnswers): Option<InstanceEvent> {
    if o.result.Err? then None
    else if o.state.obj.deleted then
      if o.result.value.resourceExists then DeleteCall(cfg, o.state.obj, a) else None
    else if !o.result.value.resourceExists then CreateCall(cfg, o.state.obj, a)
    else if !o.result.value.resourceUpToDate then UpdateCall(cfg, o.state.obj, a)
    else None
  }

  function CreateCall(cfg: InstanceConfig, obj: InstanceObject, a: InstanceAnswers): Option<InstanceEvent> {
    var params := cfg.codec.ToParameters(obj.spec.parameters);
    if params.None? then None
    else
      var req := BuildProvisionRequest(obj.spec, params.value, ContextToMap(obj.spec.context), cfg.disableAsync);
      if req.Ok? then Some(ProvisionSent(req.value, a.provision)) else None
  }

  function UpdateCall(cfg: InstanceConfig, obj: InstanceObject, a: InstanceAnswers): Option<InstanceEvent> {
    var req := BuildUpdateInstanceRequest(cfg, obj.spec);
    if req.Ok? then Some(UpdateSent(req.value, a.update)) else None
  }

  function DeleteCall(cfg: InstanceConfig, obj: InstanceObject, a: InstanceAnswers): Option<InstanceEvent> {
    if obj.spec.instanceId == "" || obj.atProvider.hasActiveBindings then None
    else
      var req := BuildDeprovisionRequest(cfg, obj.spec);
      if req.Ok? then Some(DeprovisionSent(req.value, a.deprovision)) else None
  }

  lemma ProvisionSends(cfg: InstanceConfig, s: InstanceState, a: InstanceAnswers)
    ensures Sends(s, CreateCall(cfg, s.obj, a), ProvisionOutcome(cfg, s, a).state)
    ensures ProvisionOutcome(cfg, s, a).state.stored.deleted == s.stored.deleted
    ensures ProvisionOutcome(cfg, s, a).state.stored.spec == s.stored.spec
  {
  }

  lemma UpdateSends(cfg: InstanceConfig, s: InstanceState, a: InstanceAnswers)
    ensures Sends(s, UpdateCall(cfg, s.obj, a), UpdateOutcome(cfg, s, a).state)
    ensures UpdateOutcome(cfg, s, a).state.stored.deleted == s.stored.deleted
    ensures UpdateOutcome(cfg, s, a).state.stored.spec == s.stored.spec
  {
  }

  lemma DeleteSends(cfg: InstanceConfig, s: InstanceState, a: InstanceAnswers)
    ensures Sends(s, DeleteCall(cfg, s.obj, a), DeleteOutcome(cfg, s, a).state)
    ensures DeleteOutcome(cfg, s, a).state.stored.deleted == s.stored.deleted
    ensures DeleteOutcome(cfg, s, a).state.stored.spec == s.stored.spec
  {
  }

  lemma ReconcileSends(cfg: InstanceConfig, w: InstanceWorld, a: InstanceAnswers, o: Outcome<Observation>,
      w': InstanceWorld)
    requires o == ObserveOutcome(cfg, Starting(w), a) && w' == ReconcileOutcome(cfg, w, a).world
    ensures || Sends(o.state, SecondCall(cfg, o, a), InstanceState(w'.stored, w'.stored, w'.log))
            || (w'.stored == o.state.stored && w'.log == o.state.log && SecondCall(cfg, o, a).None?)
    ensures w'.stored.deleted == o.state.stored.deleted && w'.stored.spec == o.state.stored.spec
  {
    if o.result.Ok? {
      if o.state.obj.deleted {
        if o.result.value.resourceExists { DeleteSends(cfg, o.state, a); }
      } else if !o.result.value.resourceExists {
        ProvisionSends(cfg, o.state, a);
      } else if !o.result.value.resourceUpToDate {
        UpdateSends(cfg, o.state, a);
      }
    }
  }

  lemma FirstCallAllowed(cfg: InstanceConfig, origin: InstanceObject, w: InstanceWorld, a: InstanceAnswers)
    requires Inv(origin, w)
    ensures var call := ObserveCall(cfg, w.stored, a); call.Some? ==> Allowed(origin, w.log, call.value)
  {
  }

  lemma ReconcileKeepsInv(cfg: InstanceConfig, origin: InstanceObject, w: InstanceWorld, a: InstanceAnswers)
    requires Inv(origin, w)
    ensures Inv(origin, ReconcileOutcome(cfg, w, a).world)
  {
    var o := ObserveOutcome(cfg, Starting(w), a);
    var w' := ReconcileOutcome(cfg, w, a).world;
    var first, second := ObserveCall(cfg, w.stored, a), SecondCall(cfg, o, a);
    FirstCallAllowed(cfg, origin, w, a);
    ObserveSends(cfg, w, a, o);
    SendsAgrees(origin, Starting(w), first, o.state);
    SendsAgrees(origin, Starting(w), first, o.state.(obj := o.state.stored));
    SecondCallAllowed(cfg, origin, a, o);
    ReconcileSends(cfg, w, a, o, w');
    var s' := InstanceState(w'.stored, w'.stored, w'.log);
    if Sends(o.state, second, s') { SendsAgrees(origin, o.state, second, s'); }
  }

  lemma SecondCallAllowed(cfg: InstanceConfig, origin: InstanceObject, a: InstanceAnswers, o: Outcome<Observation>)
    requires Agrees(origin, o.state.obj, o.state.log)
    requires JustifiedVerdict(o.state.obj.HasLastOperation(), o)
    ensures var call := SecondCall(cfg, o, a); call.Some? ==> Allowed(origin, o.state.log, call.value)
  {
  }

  /******* Main results over runs *******/

  // In every run, every broker call is one the log before it allows, and the
  // recorded key is the last one the broker handed out. In particular the very
  // first call of each reconcile is a poll exactly when that key is not empty.
  lemma {:induction false} RunsFollowProtocol(cfg: InstanceConfig, origin: InstanceObject, steps: seq<Step>)
    ensures Inv(origin, RunFrom(cfg, origin, steps))
  {
    if steps != [] {
      var before, last := steps[..|steps| - 1], steps[|steps| - 1];
      RunsFollowProtocol(cfg, origin, before);
      if last.Reconcile? {
        ReconcileKeepsInv(cfg, origin, RunFrom(cfg, origin, before), last.answers);
      }
    }
  }

  // No answer in the log between i and j replaces the key by an empty one.
  predicate KeyStays(log: seq<InstanceEvent>, i: nat, j: nat)
    requires i <= j <= |log|
  {
    forall k | i <= k < j :: AsyncKey(log[k]) != Some("")
  }

  lemma {:induction false} KeyIsKept(key: OperationKey, log: seq<InstanceEvent>, i: nat, j: nat)
    requires i <= j <= |log| && KeyStays(log, i, j) && LastKey(key, log[..i]) != ""
    ensures LastKey(key, log[..j]) != ""
  {
    if i < j {
      KeyIsKept(key, log, i, j - 1);
      assert log[..j][..j - 1] == log[..j - 1];
    }
  }

  // Single flight, once the broker has handed out a non-empty key: no run reads
  // the instance or updates it again, and none provisions it unless the call just
  // before is a poll answered 404 or 410 - as long as no asynchronous answer
  // carries the empty key.
  lemma KeyEndsUpdates(cfg: InstanceConfig, origin: InstanceObject, steps: seq<Step>, i: nat, j: nat)
    requires var log := RunFrom(cfg, origin, steps).log;
      i < j < |log| && KeyStays(log, i + 1, j) && AsyncKey(log[i]).Some? && AsyncKey(log[i]).value != ""
    ensures var log := RunFrom(cfg, origin, steps).log;
      && !log[j].UpdateSent? && !log[j].GetSent?
      && (log[j].ProvisionSent? ==> i < j - 1 && log[j - 1].PollSent? && IsGoneReply(log[j - 1].polled))
  {
    RunsFollowProtocol(cfg, origin, steps);
    KeyRoutes(origin, RunFrom(cfg, origin, steps).log, i, j);
  }

  lemma KeyRoutes(origin: InstanceObject, log: seq<InstanceEvent>, i: nat, j: nat)
    requires Protocol(origin, log) && i < j < |log|
    requires KeyStays(log, i + 1, j) && AsyncKey(log[i]).Some? && AsyncKey(log[i]).value != ""
    ensures !log[j].UpdateSent? && !log[j].GetSent?
    ensures log[j].ProvisionSent? ==> i < j - 1 && log[j - 1].PollSent? && IsGoneReply(log[j - 1].polled)
  {
    assert log[..i + 1][..i] == log[..i];
    KeyIsKept(origin.atProvider.lastOperationKey, log, i + 1, j);
    assert Allowed(origin, log[..j], log[j]);
    assert log[..j][|log[..j]| - 1] == log[j - 1];
  }

  lemma {:induction false} KeyHasSource(log: seq<InstanceEvent>) returns (i: nat)
    requires LastKey("", log) != ""
    ensures i < |log| && AsyncKey(log[i]) == Some(LastKey("", log))
  {
    i := |log| - 1;
    if AsyncKey(log[i]).None? {
      i := KeyHasSource(log[..i]);
    }
  }

  // Every deprovision of every run follows an answered poll, and an earlier
  // asynchronous answer with a non-empty key: an instance the broker handles
  // synchronously is never deprovisioned.
  lemma DeprovisionNeedsKey(cfg: InstanceConfig, origin: InstanceObject, steps: seq<Step>, j: nat) returns (i: nat)
    requires origin.atProvider.lastOperationKey == ""
    requires var log := RunFrom(cfg, origin, steps).log; j < |log| && log[j].DeprovisionSent?
    ensures var log := RunFrom(cfg, origin, steps).log;
      && i < j - 1 && AsyncKey(log[i]).Some? && AsyncKey(log[i]).value != ""
      && log[j - 1].PollSent? && log[j - 1].polled.Answered?
      && log[j - 1].poll.operationKey == AsyncKey(log[i])
  {
    RunsFollowProtocol(cfg, origin, steps);
    var log := RunFrom(cfg, origin, steps).log;
    assert Allowed(origin, log[..j], log[j]);
    assert log[..j][|log[..j]| - 1] == log[j - 1];
    assert Allowed(origin, log[..j - 1], log[j - 1]);
    i := KeyHasSource(log[..j - 1]);
  }

  /******* Deletion, exactly *******/

  predicate EndsWithDeprovision(w: InstanceWorld, w': InstanceWorld) {
    |w'.log| > |w.log| && w'.log[|w'.log| - 1].DeprovisionSent?
  }

  // The poll is answered, the refetched object is deleted, has no active bindings
  // and is NOT reported succeeded, the status could be written, and the request
  // can be built.
  predicate Deprovisions(cfg: InstanceConfig, w: InstanceWorld, a: InstanceAnswers) {
    && PollSeen(cfg, w.stored, a) && a.observeWriteOk
    && var seen := Refetched(w, a);
       && seen.deleted && !seen.atProvider.hasActiveBindings
       && seen.atProvider.lastOperationState != StateSucceeded
       && BuildDeprovisionRequest(cfg, seen.spec).Ok?
  }

  // Exactly then does a reconcile deprovision.
  lemma DeprovisionIff(cfg: InstanceConfig, w: InstanceWorld, a: InstanceAnswers)
    ensures EndsWithDeprovision(w, ReconcileOutcome(cfg, w, a).world) <==> Deprovisions(cfg, w, a)
    ensures Deprovisions(cfg, w, a) ==>
      var seen := Refetched(w, a);
      ReconcileOutcome(cfg, w, a).world.log ==
        w.log + [PollSent(BuildPollLastOperationRequest(w.stored, cfg.oid).value, a.poll),
                 DeprovisionSent(BuildDeprovisionRequest(cfg, seen.spec).value, a.deprovision)]
  {
    var o := ObserveOutcome(cfg, Starting(w), a);
    var w' := ReconcileOutcome(cfg, w, a).world;
    ObserveSends(cfg, w, a, o);
    ReconcileSends(cfg, w, a, o, w');
    DeleteVerdictIff(cfg, w, a, o);
  }

  lemma DeleteVerdictIff(cfg: InstanceConfig, w: InstanceWorld, a: InstanceAnswers, o: Outcome<Observation>)
    requires o == ObserveOutcome(cfg, Starting(w), a)
    ensures PollSeen(cfg, w.stored, a) ==> o.state.obj.spec == Refetched(w, a).spec
    ensures PollSeen(cfg, w.stored, a) ==> o.state.obj.atProvider == Refetched(w, a).atProvider
    ensures o.result.Ok? && o.state.obj.deleted && o.result.value.resourceExists <==>
      && PollSeen(cfg, w.stored, a) && a.observeWriteOk
      && Refetched(w, a).deleted && !Refetched(w, a).IsDeletable()
  {
  }

  // A deprovision the broker takes on asynchronously is recorded as deleting, and
  // the next reconcile polls for it, with its key or the one recorded before, if
  // and only if the answer does not carry the empty key. With the empty key the
  // next reconcile releases the object while the broker is still deprovisioning.
  lemma AcceptedDeletionIsPolled(cfg: InstanceConfig, w: InstanceWorld, a: InstanceAnswers, b: InstanceAnswers,
      w': InstanceWorld)
    requires w' == ReconcileOutcome(cfg, w, a).world && EndsWithDeprovision(w, w')
    requires a.deprovision.Answered? && a.deprovision.value.async
    ensures w'.stored.atProvider.lastOperationState == StateDeleting
    ensures var call, answered := ObserveCall(cfg, w'.stored, b), a.deprovision.value.operationKey;
      && (call.Some? <==> answered != Some(""))
      && (call.Some? ==>
            && call.value.PollSent?
            && call.value.poll.operationKey == Some(KeyAfter(w.stored.atProvider.lastOperationKey, answered)))
    ensures a.deprovision.value.operationKey == Some("") ==>
      && ReconcileOutcome(cfg, w', b).world.log == w'.log
      && (ReconcileOutcome(cfg, w', b).released <==> b.observeWriteOk)
  {
    DeprovisionIff(cfg, w, a);
    var o := ObserveOutcome(cfg, Starting(w), a);
    var seen := Refetched(w, a);
    assert o.state.obj.spec == seen.spec == o.state.stored.spec && o.state.obj.atProvider == seen.atProvider;
    DeletionRecords(cfg, o.state, a);
    ObserveSends(cfg, w, a, o);
    ReconcileSends(cfg, w, a, o, w');
    if a.deprovision.value.operationKey == Some("") {
      KeylessDeletedSends(cfg, w', b);
      ReleasedIff(cfg, w', b);
    }
  }

  // A deleted instance without a recorded key makes no broker call.
  lemma KeylessDeletedSends(cfg: InstanceConfig, w: InstanceWorld, a: InstanceAnswers)
    requires w.stored.deleted && !w.stored.HasLastOperation()
    ensures ReconcileOutcome(cfg, w, a).world.log == w.log
  {
  }

  lemma DeletionRecords(cfg: InstanceConfig, s: InstanceState, a: InstanceAnswers)
    requires s.obj.spec.instanceId != "" && !s.obj.atProvider.hasActiveBindings
    requires BuildDeprovisionRequest(cfg, s.obj.spec).Ok?
    requires a.deprovision.Answered? && a.deprovision.value.async
    ensures var s' := DeleteOutcome(cfg, s, a).state;
      && s'.obj.atProvider == AfterAsyncDeletion(s.obj, a.deprovision.value).atProvider
      && s'.stored.spec == s.stored.spec
  {
  }

  // An instance is released exactly when it is deleted without a recorded key
  // (then without any broker call), or its poll is answered 404 or 410, or its
  // poll reports success and no bindings are active.
  lemma ReleasedIff(cfg: InstanceConfig, w: InstanceWorld, a: InstanceAnswers)
    ensures ReconcileOutcome(cfg, w, a).released <==>
      && w.stored.spec.instanceId != ""
      && if w.stored.HasLastOperation() then
           && BuildPollLastOperationRequest(w.stored, cfg.oid).Ok?
           && (|| (w.stored.deleted && IsGoneReply(a.poll))
               || (PollSeen(cfg, w.stored, a) && Refetched(w, a).IsDeletable()))
         else w.stored.deleted && a.observeWriteOk
    ensures ReconcileOutcome(cfg, w, a).released ==>
      var call := ObserveCall(cfg, w.stored, a);
      ReconcileOutcome(cfg, w, a).world.log == if call.Some? then w.log + [call.value] else w.log
  {
  }

  // Over every run: a deleted instance the broker never gave a non-empty key is
  // released by the next reconcile, with no broker call at all.
  lemma KeylessDeletionSkipsBroker(cfg: InstanceConfig, origin: InstanceObject, steps: seq<Step>, a: InstanceAnswers)
    requires origin.atProvider.lastOperationKey == ""
    requires var w := RunFrom(cfg, origin, steps);
      && w.stored.deleted && w.stored.spec.instanceId != "" && a.observeWriteOk
      && forall i | 0 <= i < |w.log| :: AsyncKey(w.log[i]).None? || AsyncKey(w.log[i]) == Some("")
    ensures var w := RunFrom(cfg, origin, steps);
      ReconcileOutcome(cfg, w, a).released && ReconcileOutcome(cfg, w, a).world.log == w.log
  {
    var w := RunFrom(cfg, origin, steps);
    RunsFollowProtocol(cfg, origin, steps);
    if LastKey("", w.log) != "" {
      var i := KeyHasSource(w.log);
      assert false;
    }
    ReleasedIff(cfg, w, a);
  }

  /******* What an answer leaves behind *******/

  function Answer(e: InstanceEvent): Option<OsbAsyncResponse> {
    match e
    case ProvisionSent(_, Answered(r)) => Some(r)
    case UpdateSent(_, Answered(r)) => Some(r)
    case _ => None
  }

  // An answered provision or update is in the store when the reconcile ends,
  // whether or not the code's own status write succeeded: the context it was
  // made for, the dashboard, and an operation in progress or done.
  lemma AnswerIsStored(cfg: InstanceConfig, w: InstanceWorld, a: InstanceAnswers, w': InstanceWorld,
      resp: OsbAsyncResponse)
    requires w' == ReconcileOutcome(cfg, w, a).world
    requires EndsWithAnswer(w, w', resp)
    ensures RecordsAnswer(w, w', resp)
  {
    var o := ObserveOutcome(cfg, Starting(w), a);
    AnswerIsSecondCall(cfg, w, a, o, w', resp);
    ActingObject(cfg, w, a, o);
    if !o.result.value.resourceExists {
      ProvisionRecords(cfg, o.state, a);
    } else {
      UpdateRecords(cfg, o.state, a);
    }
    assert w'.stored.atProvider == AfterOsb(w.stored, resp).atProvider;
  }

  lemma AnswerIsSecondCall(cfg: InstanceConfig, w: InstanceWorld, a: InstanceAnswers, o: Outcome<Observation>,
      w': InstanceWorld, resp: OsbAsyncResponse)
    requires o == ObserveOutcome(cfg, Starting(w), a) && w' == ReconcileOutcome(cfg, w, a).world
    requires EndsWithAnswer(w, w', resp)
    ensures o.result.Ok? && !o.state.obj.deleted
    ensures o.result.value.resourceExists ==> !o.result.value.resourceUpToDate
    ensures if !o.result.value.resourceExists
            then CreateCall(cfg, o.state.obj, a).Some? && a.provision == Answered(resp)
            else UpdateCall(cfg, o.state.obj, a).Some? && a.update == Answered(resp)
  {
    ObserveSends(cfg, w, a, o);
    ReconcileSends(cfg, w, a, o, w');
    SecondCallKinds(cfg, o, a);
  }

  lemma SecondCallKinds(cfg: InstanceConfig, o: Outcome<Observation>, a: InstanceAnswers)
    ensures var call := SecondCall(cfg, o, a);
      call.Some? && Answer(call.value).Some? ==>
        && o.result.Ok? && !o.state.obj.deleted
        && (o.result.value.resourceExists ==> !o.result.value.resourceUpToDate)
        && if !o.result.value.resourceExists
           then call == CreateCall(cfg, o.state.obj, a) && a.provision == Answered(Answer(call.value).value)
           else call == UpdateCall(cfg, o.state.obj, a) && a.update == Answered(Answer(call.value).value)
  {
  }

  predicate EndsWithAnswer(w: InstanceWorld, w': InstanceWorld, resp: OsbAsyncResponse) {
    |w'.log| > |w.log| && Answer(w'.log[|w'.log| - 1]) == Some(resp)
  }

  predicate RecordsAnswer(w: InstanceWorld, w': InstanceWorld, resp: OsbAsyncResponse) {
    var seen := w'.stored.atProvider;
    && seen.context == w.stored.spec.context && seen.dashboardUrl == resp.dashboardUrl
    && seen.lastOperationState == (if resp.async then StateInProgress else StateSucceeded)
    && Ready in w'.stored.conditions
    && w'.stored.conditions[Ready] == if resp.async then Creating else Available
  }

  lemma ProvisionRecords(cfg: InstanceConfig, s: InstanceState, a: InstanceAnswers)
    ensures CreateCall(cfg, s.obj, a).Some? && a.provision.Answered? ==>
      ProvisionOutcome(cfg, s, a).state.obj == AfterOsb(s.obj, a.provision.value)
  {
  }

  lemma UpdateRecords(cfg: InstanceConfig, s: InstanceState, a: InstanceAnswers)
    ensures UpdateCall(cfg, s.obj, a).Some? && a.update.Answered? ==>
      UpdateOutcome(cfg, s, a).state.obj == AfterOsb(s.obj, a.update.value)
  {
  }

  // What is created or updated is the stored object itself.
  lemma ActingObject(cfg: InstanceConfig, w: InstanceWorld, a: InstanceAnswers, o: Outcome<Observation>)
    requires o == ObserveOutcome(cfg, Starting(w), a)
    ensures o.result.Ok? && !o.state.obj.deleted ==>
      (o.result.value.resourceExists && o.result.value.resourceUpToDate) || o.state.obj == w.stored
  {
  }

  predicate EndsWithProvision(w: InstanceWorld, w': InstanceWorld) {
    |w'.log| > |w.log| && w'.log[|w'.log| - 1].ProvisionSent?
  }

  // The first call of a reconcile goes out and is answered 404 or 410.
  predicate FirstCallGone(cfg: InstanceConfig, obj: InstanceObject, a: InstanceAnswers) {
    obj.spec.instanceId != "" &&
    if obj.HasLastOperation() then OidGuard(cfg.oid).None? && IsGoneReply(a.poll)
    else !obj.deleted && IsGoneReply(a.get)
  }

  // The instance is live, the broker answers 404 or 410 about it, and the request
  // can be built.
  predicate Provisions(cfg: InstanceConfig, w: InstanceWorld, a: InstanceAnswers) {
    !w.stored.deleted && FirstCallGone(cfg, w.stored, a) && CreateCall(cfg, w.stored, a).Some?
  }

  // Exactly then does a reconcile provision.
  lemma ProvisionIff(cfg: InstanceConfig, w: InstanceWorld, a: InstanceAnswers, w': InstanceWorld)
    requires w' == ReconcileOutcome(cfg, w, a).world
    ensures EndsWithProvision(w, w') <==> Provisions(cfg, w, a)
    ensures EndsWithProvision(w, w') ==>
      && ObserveCall(cfg, w.stored, a).Some?
      && w'.log == w.log + [ObserveCall(cfg, w.stored, a).value, CreateCall(cfg, w.stored, a).value]
  {
    var o := ObserveOutcome(cfg, Starting(w), a);
    ObserveSends(cfg, w, a, o);
    ReconcileSends(cfg, w, a, o, w');
    ActingObject(cfg, w, a, o);
    CreateVerdictIff(cfg, w, a, o);
    SecondIsProvision(cfg, o, a);
  }

  lemma SecondIsProvision(cfg: InstanceConfig, o: Outcome<Observation>, a: InstanceAnswers)
    ensures var call, creates := SecondCall(cfg, o, a),
                                 o.result.Ok? && !o.state.obj.deleted && !o.result.value.resourceExists;
      && (call.Some? && call.value.ProvisionSent? <==> creates && CreateCall(cfg, o.state.obj, a).Some?)
      && (creates ==> call == CreateCall(cfg, o.state.obj, a))
  {
  }

  lemma CreateVerdictIff(cfg: InstanceConfig, w: InstanceWorld, a: InstanceAnswers, o: Outcome<Observation>)
    requires o == ObserveOutcome(cfg, Starting(w), a)
    ensures o.result.Ok? && !o.state.obj.deleted && !o.result.value.resourceExists <==>
      !w.stored.deleted && FirstCallGone(cfg, w.stored, a)
    ensures FirstCallGone(cfg, w.stored, a) ==> ObserveCall(cfg, w.stored, a).Some?
  {
  }

  // There is no single flight without a key. After a provision the broker takes
  // on asynchronously, the next reconcile polls if a non-empty key is recorded by
  // then, and otherwise just reads the instance. It provisions again, with the
  // same request and nothing in between, exactly when that is answered 404 or 410.
  lemma ProvisionedTwiceIff(cfg: InstanceConfig, w: InstanceWorld, a: InstanceAnswers, b: InstanceAnswers,
      w': InstanceWorld, w'': InstanceWorld)
    requires w' == ReconcileOutcome(cfg, w, a).world && EndsWithProvision(w, w')
    requires a.provision.Answered? && a.provision.value.async
    requires w'' == ReconcileOutcome(cfg, w', b).world
    ensures var key := KeyAfter(w.stored.atProvider.lastOperationKey, a.provision.value.operationKey);
      var call := ObserveCall(cfg, w'.stored, b);
      && (if key != "" then call.Some? <==> OidGuard(cfg.oid).None? else call.Some?)
      && (call.Some? ==> if key != "" then call.value.PollSent? else call.value.GetSent?)
      && (EndsWithProvision(w', w'') <==>
            if key != "" then OidGuard(cfg.oid).None? && IsGoneReply(b.poll) else IsGoneReply(b.get))
      && (EndsWithProvision(w', w'') ==>
            && call.Some? && w'.log[|w'.log| - 1].ProvisionSent?
            && w''.log == w'.log + [call.value, ProvisionSent(w'.log[|w'.log| - 1].provision, b.provision)])
  {
    ProvisionIff(cfg, w, a, w');
    ProvisionLeaves(cfg, w, a, w');
    ProvisionIff(cfg, w', b, w'');
  }

  lemma ProvisionLeaves(cfg: InstanceConfig, w: InstanceWorld, a: InstanceAnswers, w': InstanceWorld)
    requires w' == ReconcileOutcome(cfg, w, a).world && EndsWithProvision(w, w')
    requires a.provision.Answered? && a.provision.value.async
    ensures w'.stored.spec == w.stored.spec && !w'.stored.deleted
    ensures w'.stored.atProvider.lastOperationKey ==
      KeyAfter(w.stored.atProvider.lastOperationKey, a.provision.value.operationKey)
  {
    var o := ObserveOutcome(cfg, Starting(w), a);
    ProvisionIsSecondCall(cfg, w, a, o, w');
    ActingObject(cfg, w, a, o);
    ObserveSends(cfg, w, a, o);
    ProvisionRecords(cfg, o.state, a);
  }

  lemma ProvisionIsSecondCall(cfg: InstanceConfig, w: InstanceWorld, a: InstanceAnswers, o: Outcome<Observation>,
      w': InstanceWorld)
    requires o == ObserveOutcome(cfg, Starting(w), a) && w' == ReconcileOutcome(cfg, w, a).world
    requires EndsWithProvision(w, w')
    ensures o.result.Ok? && !o.state.obj.deleted && !o.result.value.resourceExists
    ensures CreateCall(cfg, o.state.obj, a) == Some(w'.log[|w'.log| - 1])
    ensures w'.stored.deleted == o.state.stored.deleted && w'.stored.spec == o.state.stored.spec
    ensures w'.stored.atProvider == ProvisionOutcome(cfg, o.state, a).state.obj.atProvider
  {
    ObserveSends(cfg, w, a, o);
    ReconcileSends(cfg, w, a, o, w');
  }

  // A reconcile erases a recorded key exactly when it provisions or deprovisions
  // and that is answered asynchronously with the empty key: its last call is then
  // answered so.
  lemma KeyErasedIff(cfg: InstanceConfig, w: InstanceWorld, a: InstanceAnswers, w': InstanceWorld)
    requires w.stored.HasLastOperation() && w' == ReconcileOutcome(cfg, w, a).world
    ensures !w'.stored.HasLastOperation() <==>
      || (Provisions(cfg, w, a) && a.provision.Answered? &&
          a.provision.value.async && a.provision.value.operationKey == Some(""))
      || (Deprovisions(cfg, w, a) && a.deprovision.Answered? &&
          a.deprovision.value.async && a.deprovision.value.operationKey == Some(""))
    ensures !w'.stored.HasLastOperation() <==> |w'.log| > |w.log| && AsyncKey(w'.log[|w'.log| - 1]) == Some("")
  {
    KeyErasedByLog(cfg, w, a, w');
    ProvisionIff(cfg, w, a, w');
    DeprovisionIff(cfg, w, a);
    if |w'.log| > |w.log| {
      LastCallKinds(cfg, w, a, w');
    }
  }

  lemma KeyErasedByLog(cfg: InstanceConfig, w: InstanceWorld, a: InstanceAnswers, w': InstanceWorld)
    requires w.stored.HasLastOperation() && w' == ReconcileOutcome(cfg, w, a).world
    ensures !w'.stored.HasLastOperation() <==> |w'.log| > |w.log| && AsyncKey(w'.log[|w'.log| - 1]) == Some("")
  {
    var o := ObserveOutcome(cfg, Starting(w), a);
    ObserveSends(cfg, w, a, o);
    ReconcileSends(cfg, w, a, o, w');
  }

  // Whose answer the last call of a keyed reconcile carries.
  lemma LastCallKinds(cfg: InstanceConfig, w: InstanceWorld, a: InstanceAnswers, w': InstanceWorld)
    requires w.stored.HasLastOperation() && w' == ReconcileOutcome(cfg, w, a).world && |w'.log| > |w.log|
    ensures var last := w'.log[|w'.log| - 1];
      && (last.ProvisionSent? || last.DeprovisionSent? || last.PollSent?)
      && (last.ProvisionSent? ==> last.provisioned == a.provision)
      && (last.DeprovisionSent? ==> last.deprovisioned == a.deprovision)
  {
    var o := ObserveOutcome(cfg, Starting(w), a);
    ObserveSends(cfg, w, a, o);
    ReconcileSends(cfg, w, a, o, w');
  }

  // There is no single flight for a deleted instance. After a deprovision the
  // broker takes on asynchronously, not with the empty key, the next reconcile
  // deprovisions again, with nothing but its poll in between, exactly when that
  // poll is answered with anything but succeeded - in progress included - and
  // refetch, active bindings, status write and request let it.
  lemma DeprovisionedTwiceIff(cfg: InstanceConfig, w: InstanceWorld, a: InstanceAnswers, b: InstanceAnswers,
      w': InstanceWorld, w'': InstanceWorld)
    requires w' == ReconcileOutcome(cfg, w, a).world && EndsWithDeprovision(w, w')
    requires a.deprovision.Answered? && a.deprovision.value.async
    requires w'' == ReconcileOutcome(cfg, w', b).world
    ensures EndsWithDeprovision(w', w'') <==>
      && a.deprovision.value.operationKey != Some("")
      && b.poll.Answered? && b.poll.value.state != StateSucceeded && b.refetchOk && b.observeWriteOk
      && var seen := Edited(w'.stored, b.concurrent);
         !seen.atProvider.hasActiveBindings && BuildDeprovisionRequest(cfg, seen.spec).Ok?
    ensures EndsWithDeprovision(w', w'') ==>
      |w''.log| == |w'.log| + 2 && w''.log[|w'.log|].PollSent? && w''.log[..|w'.log|] == w'.log
  {
    AcceptedDeletionIsPolled(cfg, w, a, b, w');
    DeprovisionIff(cfg, w, a);
    DeprovisionIff(cfg, w', b);
    DeletionLeaves(cfg, w, a, w');
  }

  lemma DeletionLeaves(cfg: InstanceConfig, w: InstanceWorld, a: InstanceAnswers, w': InstanceWorld)
    requires w' == ReconcileOutcome(cfg, w, a).world && Deprovisions(cfg, w, a)
    ensures w'.stored.deleted && w'.stored.spec.instanceId != ""
  {
    var o := ObserveOutcome(cfg, Starting(w), a);
    ObserveSends(cfg, w, a, o);
    ReconcileSends(cfg, w, a, o, w');
    RefetchedStays(cfg, w, a, o);
  }

  lemma RefetchedStays(cfg: InstanceConfig, w: InstanceWorld, a: InstanceAnswers, o: Outcome<Observation>)
    requires o == ObserveOutcome(cfg, Starting(w), a) && PollSeen(cfg, w.stored, a)
    ensures o.state.stored.deleted == Refetched(w, a).deleted && o.state.stored.spec == Refetched(w, a).spec
  {
  }

  /******* Whose service *******/

  datatype Ids = Ids(instanceId: string, planId: string, serviceId: string, organizationGuid: string, spaceGuid: string)

  function IdsOf(spec: InstanceSpec): Ids {
    Ids(spec.instanceId, spec.planId, spec.serviceId, spec.organizationGuid, spec.spaceGuid)
  }

  // The call names these IDs, as far as it has them (optional members are left
  // out only when the ID is empty), is made for the controller's identity, and
  // allows asynchronous work only when enabled.
  predicate Names(cfg: InstanceConfig, ids: Ids, e: InstanceEvent) {
    match e
    case ProvisionSent(req, _) =>
      && Ids(req.instanceId, req.planId, req.serviceId, req.organizationGuid, req.spaceGuid) == ids
      && req.acceptsIncomplete != cfg.disableAsync
    case UpdateSent(req, _) =>
      && req.instanceId == ids.instanceId && req.serviceId == ids.serviceId && req.planId == NonEmpty(ids.planId)
      && req.oid == cfg.oid && req.acceptsIncomplete != cfg.disableAsync
    case DeprovisionSent(req, _) =>
      && req.instanceId == ids.instanceId && req.planId == ids.planId && req.serviceId == ids.serviceId
      && req.oid == cfg.oid && req.acceptsIncomplete != cfg.disableAsync
    case PollSent(req, _) =>
      && req.instanceId == ids.instanceId && req.oid == cfg.oid
      && req.planId == NonEmpty(ids.planId) && req.serviceId == NonEmpty(ids.serviceId)
    case GetSent(req, _) =>
      req.instanceId == ids.instanceId && req.planId == ids.planId && req.serviceId == ids.serviceId
  }

  function EditOf(step: Step): UserEdit {
    match step
    case User(edit) => edit
    case Reconcile(a) => a.concurrent
  }

  predicate EditKeepsIds(ids: Ids, edit: UserEdit) {
    edit.spec.Some? ==> IdsOf(edit.spec.value) == ids
  }

  predicate KeepsIds(ids: Ids, steps: seq<Step>) {
    forall i | 0 <= i < |steps| :: EditKeepsIds(ids, EditOf(steps[i]))
  }

  predicate OneService(cfg: InstanceConfig, ids: Ids, w: InstanceWorld) {
    && IdsOf(w.stored.spec) == ids
    && forall i | 0 <= i < |w.log| :: Names(cfg, ids, w.log[i])
  }

  lemma ObserveIds(cfg: InstanceConfig, ids: Ids, w: InstanceWorld, a: InstanceAnswers, o: Outcome<Observation>)
    requires o == ObserveOutcome(cfg, Starting(w), a)
    requires IdsOf(w.stored.spec) == ids && EditKeepsIds(ids, a.concurrent)
    ensures IdsOf(o.state.obj.spec) == ids && IdsOf(o.state.stored.spec) == ids
    ensures var call := ObserveCall(cfg, w.stored, a); call.Some? ==> Names(cfg, ids, call.value)
  {
  }

  lemma SecondCallNames(cfg: InstanceConfig, ids: Ids, o: Outcome<Observation>, a: InstanceAnswers)
    requires IdsOf(o.state.obj.spec) == ids
    ensures var call := SecondCall(cfg, o, a); call.Some? ==> Names(cfg, ids, call.value)
  {
  }

  lemma ReconcileKeepsService(cfg: InstanceConfig, ids: Ids, w: InstanceWorld, a: InstanceAnswers)
    requires OneService(cfg, ids, w) && EditKeepsIds(ids, a.concurrent)
    ensures OneService(cfg, ids, ReconcileOutcome(cfg, w, a).world)
  {
    var o := ObserveOutcome(cfg, Starting(w), a);
    ObserveSends(cfg, w, a, o);
    ObserveIds(cfg, ids, w, a, o);
    SecondCallNames(cfg, ids, o, a);
    ReconcileSends(cfg, w, a, o, ReconcileOutcome(cfg, w, a).world);
  }

  // Unless an edit changes them, every call of every run names the same
  // instance, plan, service, organization and space.
  lemma {:induction false} RunsKeepService(cfg: InstanceConfig, origin: InstanceObject, steps: seq<Step>)
    requires KeepsIds(IdsOf(origin.spec), steps)
    ensures OneService(cfg, IdsOf(origin.spec), RunFrom(cfg, origin, steps))
  {
    if steps != [] {
      var before, last := steps[..|steps| - 1], steps[|steps| - 1];
      var ids := IdsOf(origin.spec);
      assert KeepsIds(ids, before);
      RunsKeepService(cfg, origin, before);
      assert EditKeepsIds(ids, EditOf(last));
      if last.Reconcile? {
        ReconcileKeepsService(cfg, ids, RunFrom(cfg, origin, before), last.answers);
      }
    }
  }

  /******* Polling through the alias *******/

  // An answered poll whose refetch succeeds says "gone" exactly when the
  // refetched object is deleted, the polled state is succeeded and no bindings
  // are active. Otherwise, once the status is written, the stored object is the
  // refetched one but for its last-operation state, description and conditions.
  lemma PollThroughAlias(cfg: InstanceConfig, w: InstanceWorld, a: InstanceAnswers)
    requires PollSeen(cfg, w.stored, a)
    ensures var o := LastOperationOutcome(cfg, Starting(w), a);
      var stored := Edited(w.stored, a.concurrent);
      && (o.result == Ok(NeedToCreate) <==>
            stored.deleted && a.poll.value.state == StateSucceeded && !stored.atProvider.hasActiveBindings)
      && (o.result == Ok(NothingToDo) ==>
            && o.state.stored.atProvider.lastOperationState == a.poll.value.state
            && o.state.stored.atProvider.lastOperationDescription ==
               (if a.poll.value.description.Some? then a.poll.value.description.value
                else stored.atProvider.lastOperationDescription)
            && o.state.stored.atProvider == stored.atProvider.(
                 lastOperationState := o.state.stored.atProvider.lastOperationState,
                 lastOperationDescription := o.state.stored.atProvider.lastOperationDescription)
            && o.state.stored ==
               stored.(atProvider := o.state.stored.atProvider, conditions := o.state.stored.conditions)
            && o.state.obj == o.state.stored)
      && (o.result.Err? ==> o.state.stored == stored)
  {
  }

  // Ready does not mirror the polled state: an answered poll of a live instance
  // ends with Ready set to Available, a failed or unfinished one too.
  lemma AnsweredPollIsReady(cfg: InstanceConfig, w: InstanceWorld, a: InstanceAnswers)
    requires PollSeen(cfg, w.stored, a) && a.observeWriteOk && !Edited(w.stored, a.concurrent).deleted
    ensures var w' := ReconcileOutcome(cfg, w, a).world;
      && w'.stored.atProvider.lastOperationState == a.poll.value.state
      && Ready in w'.stored.conditions && w'.stored.conditions[Ready] == Available
      && w'.log == w.log + [PollSent(BuildPollLastOperationRequest(w.stored, cfg.oid).value, a.poll)]
  {
  }
}
