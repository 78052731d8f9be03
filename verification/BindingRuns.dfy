// Whole runs of the binding controller: any sequence of user edits and
// reconciles against any broker. The log of broker calls is judged by folds over
// the log alone (the head of the rotation chain, the last operation key, whether
// an asynchronous operation is outstanding), which know nothing of the object.
module BindingRuns {
  import opened Results
  import opened OsbApi
  import opened BindingModel

  /******* Runs *******/

  datatype Step = User(edit: UserEdit) | Reconcile(answers: BindingAnswers)

  function Next(cfg: BindingConfig, w: BindingWorld, step: Step): BindingWorld {
    match step
    case User(edit) => w.(stored := Edited(w.stored, edit))
    case Reconcile(a) => ReconcileOutcome(cfg, w, a).world
  }

  function Run(cfg: BindingConfig, start: BindingWorld, steps: seq<Step>): BindingWorld {
    if steps == [] then start
    else Next(cfg, Run(cfg, start, steps[..|steps| - 1]), steps[|steps| - 1])
  }

  function RunFrom(cfg: BindingConfig, origin: BindingObject, steps: seq<Step>): BindingWorld {
    Run(cfg, BindingWorld(origin, []), steps)
  }

  // UUIDs are non-empty and never drawn twice.
  predicate Fresh(origin: BindingObject, log: seq<BindingEvent>, a: BindingAnswers) {
    a.newUuid != "" && a.newUuid !in UsedIds(origin.externalName, log)
  }

  predicate AllFresh(cfg: BindingConfig, origin: BindingObject, steps: seq<Step>) {
    steps == [] ||
    var before := steps[..|steps| - 1];
    && AllFresh(cfg, origin, before)
    && match steps[|steps| - 1] {
         case User(_) => true
         case Reconcile(a) => Fresh(origin, RunFrom(cfg, origin, before).log, a)
       }
  }

  /******* What the log alone says *******/

  function HeadAfter(head: string, e: BindingEvent): string {
    match e
    case BindSent(req, _) => if head == "" then req.bindingId else head
    case RotateSent(req, Answered(_)) => req.bindingId
    case _ => head
  }

  // The binding the broker is meant to hold: the first ID bound, moved on by
  // every rotation the broker accepted.
  function Head(name: string, log: seq<BindingEvent>): string {
    if log == [] then name else HeadAfter(Head(name, log[..|log| - 1]), log[|log| - 1])
  }

  function AsyncKey(e: BindingEvent): Option<OperationKey> {
    match e
    case BindSent(_, Answered(Some(r))) => if r.async then r.operationKey else None
    case RotateSent(_, Answered(r)) => if r.async then r.operationKey else None
    case UnbindSent(_, Answered(Some(r))) => if r.async then r.operationKey else None
    case _ => None
  }

  // The last key any asynchronous answer carried.
  function LastKey(key: OperationKey, log: seq<BindingEvent>): OperationKey {
    if log == [] then key
    else
      var k := AsyncKey(log[|log| - 1]);
      if k.Some? then k.value else LastKey(key, log[..|log| - 1])
  }

  // A Bind or rotation the broker took on asynchronously.
  predicate AcceptedAsync(e: BindingEvent) {
    match e
    case BindSent(_, Answered(Some(r))) => r.async
    case RotateSent(_, Answered(r)) => r.async
    case _ => false
  }

  predicate ReportedDone(e: BindingEvent) {
    e.PollSent? && e.polled.Answered? && e.polled.value.state != StateInProgress
  }

  // An asynchronous Bind or rotation has been accepted and no poll since has
  // been answered with anything but "in progress".
  predicate Pending(log: seq<BindingEvent>) {
    log != [] &&
    (AcceptedAsync(log[|log| - 1]) || (!ReportedDone(log[|log| - 1]) && Pending(log[..|log| - 1])))
  }

  function UsedIds(name: string, log: seq<BindingEvent>): set<string> {
    if log == [] then {name}
    else
      UsedIds(name, log[..|log| - 1]) +
      match log[|log| - 1] {
        case BindSent(req, _) => {req.bindingId}
        case RotateSent(req, _) => {req.bindingId}
        case _ => {}
      }
  }

  predicate EndsWithGoneBinding(log: seq<BindingEvent>) {
    log != [] && log[|log| - 1].GetSent? && IsGoneReply(log[|log| - 1].got)
  }

  // What every broker call must be, given only the calls before it.
  predicate Allowed(origin: BindingObject, past: seq<BindingEvent>, e: BindingEvent) {
    var head := Head(origin.externalName, past);
    match e
    case BindSent(req, _) =>
      && !Pending(past)
      && req.bindingId != ""
      && if head == "" then req.bindingId !in UsedIds(origin.externalName, past)
         else req.bindingId == head && EndsWithGoneBinding(past)
    case GetSent(req, _) => !Pending(past) && head != "" && req.bindingId == head
    case PollSent(req, _) =>
      && head != "" && req.bindingId == head
      && req.operationKey == LastKey(origin.atProvider.lastOperationKey, past)
    case RotateSent(req, _) =>
      && !Pending(past)
      && head != "" && req.predecessorBindingId == head
      && req.bindingId != "" && req.bindingId !in UsedIds(origin.externalName, past)
    case UnbindSent(req, _) => head != "" && req.bindingId == head
  }

  predicate Protocol(origin: BindingObject, log: seq<BindingEvent>) {
    forall j | 0 <= j < |log| :: Allowed(origin, log[..j], log[j])
  }

  /******* Invariant *******/

  // The object agrees with the log.
  predicate Agrees(origin: BindingObject, obj: BindingObject, log: seq<BindingEvent>) {
    && obj.externalName == Head(origin.externalName, log)
    && obj.atProvider.lastOperationKey == LastKey(origin.atProvider.lastOperationKey, log)
    && (Pending(log) ==> obj.InProgress())
  }

  predicate Inv(origin: BindingObject, w: BindingWorld) {
    Agrees(origin, w.stored, w.log) && Protocol(origin, w.log)
  }

  predicate StateInv(origin: BindingObject, s: BindingState) {
    Agrees(origin, s.obj, s.log) && Protocol(origin, s.log)
  }

  // One more call: the folds take one step.
  lemma Extend(origin: BindingObject, log: seq<BindingEvent>, e: BindingEvent)
    ensures var name, key, log' := origin.externalName, origin.atProvider.lastOperationKey, log + [e];
      && Head(name, log') == HeadAfter(Head(name, log), e)
      && LastKey(key, log') == (if AsyncKey(e).Some? then AsyncKey(e).value else LastKey(key, log))
      && Pending(log') == (AcceptedAsync(e) || (!ReportedDone(e) && Pending(log)))
      && EndsWithGoneBinding(log') == (e.GetSent? && IsGoneReply(e.got))
    ensures Protocol(origin, log) && Allowed(origin, log, e) ==> Protocol(origin, log + [e])
  {
    var log' := log + [e];
    assert log'[..|log|] == log;
    if Protocol(origin, log) && Allowed(origin, log, e) {
      forall j | 0 <= j < |log'| ensures Allowed(origin, log'[..j], log'[j]) {
        if j < |log| {
          assert log'[..j] == log[..j];
        }
      }
    }
  }

  // What one broker call does to the object, as far as the log can tell.
  predicate Applied(obj: BindingObject, e: BindingEvent, obj': BindingObject) {
    && obj'.externalName == HeadAfter(obj.externalName, e)
    && obj'.atProvider.lastOperationKey ==
       (if AsyncKey(e).Some? then AsyncKey(e).value else obj.atProvider.lastOperationKey)
    && (AcceptedAsync(e) ==> obj'.InProgress())
    && (obj.InProgress() && !ReportedDone(e) ==> obj'.InProgress())
  }

  lemma AppliedAgrees(origin: BindingObject, obj: BindingObject, log: seq<BindingEvent>, e: BindingEvent,
      obj': BindingObject)
    requires Agrees(origin, obj, log) && Protocol(origin, log)
    requires Allowed(origin, log, e) && Applied(obj, e, obj')
    ensures Agrees(origin, obj', log + [e]) && Protocol(origin, log + [e])
  {
    Extend(origin, log, e);
  }

  // An operation that sends nothing leaves the name, key and state alone; one
  // that sends e applies e.
  predicate Sends(s: BindingState, call: Option<BindingEvent>, s': BindingState) {
    if call.None? then
      && s'.log == s.log
      && s'.obj.externalName == s.obj.externalName
      && s'.obj.atProvider.lastOperationKey == s.obj.atProvider.lastOperationKey
      && s'.obj.atProvider.lastOperationState == s.obj.atProvider.lastOperationState
    else
      s'.log == s.log + [call.value] && Applied(s.obj, call.value, s'.obj)
  }

  lemma SendsKeepsInv(origin: BindingObject, s: BindingState, call: Option<BindingEvent>, s': BindingState)
    requires StateInv(origin, s) && Sends(s, call, s')
    requires call.Some? ==> Allowed(origin, s.log, call.value)
    ensures StateInv(origin, s')
  {
    if call.Some? { AppliedAgrees(origin, s.obj, s.log, call.value, s'.obj); }
  }

  // The one call Observe can make.
  function ObserveCall(cfg: BindingConfig, obj: BindingObject, a: BindingAnswers): Option<BindingEvent> {
    if obj.InProgress() then
      var req := BuildBindingLastOperationRequest(obj, cfg.oid);
      if req.Ok? then Some(PollSent(req.value, a.poll)) else None
    else
      var req := BuildGetBindingRequest(obj);
      if req.Ok? then Some(GetSent(req.value, a.get)) else None
  }

  // A GetBinding answer rewrites the observation and the conditions only, and
  // of the observation everything but the last operation.
  lemma GetBindingKeeps(cfg: BindingConfig, s: BindingState, resp: GetBindingResponse, a: BindingAnswers)
    ensures var s' := GetBindingOutcome(cfg, s, resp, a).state;
      && s' == s.(obj := s.obj.(atProvider := s'.obj.atProvider, conditions := s'.obj.conditions))
      && s'.obj.atProvider.lastOperationState == s.obj.atProvider.lastOperationState
      && s'.obj.atProvider.lastOperationKey == s.obj.atProvider.lastOperationKey
      && s'.obj.atProvider.lastOperationDescription == s.obj.atProvider.lastOperationDescription
      && s'.obj.atProvider.lastOperationPolledTime == s.obj.atProvider.lastOperationPolledTime
  {
  }

  lemma GetBindingVerdict(cfg: BindingConfig, s: BindingState, resp: GetBindingResponse, a: BindingAnswers)
    ensures var r := GetBindingOutcome(cfg, s, resp, a).result; r.Ok? ==> r.value.action != NeedToCreate
  {
  }

  lemma PollSends(cfg: BindingConfig, s: BindingState, a: BindingAnswers)
    requires s.obj == s.stored && s.obj.InProgress()
    ensures var o, call := LastOperationOutcome(cfg, s, a), ObserveCall(cfg, s.obj, a);
      && Sends(s, call, o.state)
      && Sends(s, call, o.state.(obj := o.state.stored))
      && (o.result.Ok? && !o.state.obj.deleted ==> o.result.value == NothingToDo)
  {
  }

  lemma ObserveSends(cfg: BindingConfig, s: BindingState, a: BindingAnswers)
    requires s.obj == s.stored
    ensures var o, call := ObserveOutcome(cfg, s, a), ObserveCall(cfg, s.obj, a);
      && Sends(s, call, o.state)
      && Sends(s, call, o.state.(obj := o.state.stored))
      && (o.result.Ok? && !o.state.obj.deleted && !o.result.value.resourceUpToDate ==> !s.obj.InProgress())
      && (o.result.Ok? && !o.state.obj.deleted && !o.result.value.resourceExists && s.obj.externalName != "" ==>
            call.Some? && call.value.GetSent? && IsGoneReply(call.value.got))
  {
    if s.obj.InProgress() {
      PollSends(cfg, s, a);
    } else if BuildGetBindingRequest(s.obj).Ok? && a.get.Answered? {
      var s1 := s.Sent(GetSent(BuildGetBindingRequest(s.obj).value, a.get));
      GetBindingKeeps(cfg, s1, a.get.value, a);
      GetBindingVerdict(cfg, s1, a.get.value, a);
    }
  }

  lemma ObserveKeepsInv(cfg: BindingConfig, origin: BindingObject, w: BindingWorld, a: BindingAnswers,
      o: Outcome<Observation>)
    requires Inv(origin, w)
    requires o == ObserveOutcome(cfg, BindingState(w.stored, w.stored, w.log), a)
    ensures StateInv(origin, o.state) && StateInv(origin, o.state.(obj := o.state.stored))
    ensures o.result.Ok? && !o.state.obj.deleted && !o.result.value.resourceUpToDate ==> !Pending(o.state.log)
    ensures o.result.Ok? && !o.state.obj.deleted && !o.result.value.resourceExists && o.state.obj.externalName != "" ==>
              EndsWithGoneBinding(o.state.log)
  {
    var s := BindingState(w.stored, w.stored, w.log);
    var call := ObserveCall(cfg, s.obj, a);
    ObserveSends(cfg, s, a);
    SendsKeepsInv(origin, s, call, o.state);
    SendsKeepsInv(origin, s, call, o.state.(obj := o.state.stored));
    if call.Some? { Extend(origin, s.log, call.value); }
  }

  function CreateCall(cfg: BindingConfig, obj: BindingObject, a: BindingAnswers): Option<BindingEvent> {
    var params := cfg.codec.decodeParams(obj.spec.parameters);
    if params.None? || ValidateInputs(obj.spec, cfg.oid).Some? then None
    else
      var named := if obj.externalName != "" then obj else obj.(externalName := a.newUuid);
      Some(BindSent(BindRequestFor(cfg, named, params.value), a.bind))
  }

  lemma CreateSends(cfg: BindingConfig, s: BindingState, a: BindingAnswers)
    requires a.newUuid != ""
    ensures Sends(s, CreateCall(cfg, s.obj, a), CreateOutcome(cfg, s, a).state)
  {
  }

  lemma CreateKeepsInv(cfg: BindingConfig, origin: BindingObject, s: BindingState, a: BindingAnswers)
    requires StateInv(origin, s) && !Pending(s.log) && Fresh(origin, s.log, a)
    requires s.obj.externalName != "" ==> EndsWithGoneBinding(s.log)
    ensures StateInv(origin, CreateOutcome(cfg, s, a).state)
  {
    CreateSends(cfg, s, a);
    SendsKeepsInv(origin, s, CreateCall(cfg, s.obj, a), CreateOutcome(cfg, s, a).state);
  }

  function RotationCall(cfg: BindingConfig, obj: BindingObject, a: BindingAnswers): Option<BindingEvent> {
    var req := BuildRotateBindingRequest(obj, cfg.oid, a.newUuid);
    if req.Ok? then Some(RotateSent(req.value, a.rotate)) else None
  }

  lemma RotationKeepsInv(cfg: BindingConfig, origin: BindingObject, s: BindingState, a: BindingAnswers)
    requires StateInv(origin, s) && !Pending(s.log) && Fresh(origin, s.log, a)
    ensures StateInv(origin, RotationOutcome(cfg, s, a).state)
  {
    SendsKeepsInv(origin, s, RotationCall(cfg, s.obj, a), RotationOutcome(cfg, s, a).state);
  }

  function DeleteCall(cfg: BindingConfig, obj: BindingObject, a: BindingAnswers): Option<BindingEvent> {
    var req := BuildUnbindRequest(obj, cfg.oid);
    if req.Ok? then Some(UnbindSent(req.value, a.unbind)) else None
  }

  lemma DeleteSends(cfg: BindingConfig, s: BindingState, a: BindingAnswers)
    ensures Sends(s, DeleteCall(cfg, s.obj, a), DeleteOutcome(cfg, s, a).state)
  {
  }

  lemma DeleteKeepsInv(cfg: BindingConfig, origin: BindingObject, s: BindingState, a: BindingAnswers)
    requires StateInv(origin, s)
    ensures StateInv(origin, DeleteOutcome(cfg, s, a).state)
  {
    DeleteSends(cfg, s, a);
    SendsKeepsInv(origin, s, DeleteCall(cfg, s.obj, a), DeleteOutcome(cfg, s, a).state);
  }

  lemma ObserveLog(cfg: BindingConfig, s: BindingState, a: BindingAnswers)
    ensures var call := ObserveCall(cfg, s.obj, a);
      ObserveOutcome(cfg, s, a).state.log == if call.Some? then s.log + [call.value] else s.log
  {
    if !s.obj.InProgress() && BuildGetBindingRequest(s.obj).Ok? && a.get.Answered? {
      GetBindingKeeps(cfg, s.Sent(GetSent(BuildGetBindingRequest(s.obj).value, a.get)), a.get.value, a);
    }
  }

  // Observing draws no ID, so what was fresh before it is fresh after it.
  lemma ObserveKeepsFresh(cfg: BindingConfig, origin: BindingObject, s: BindingState, a: BindingAnswers)
    requires Fresh(origin, s.log, a)
    ensures Fresh(origin, ObserveOutcome(cfg, s, a).state.log, a)
  {
    ObserveLog(cfg, s, a);
    var call := ObserveCall(cfg, s.obj, a);
    if call.Some? {
      UsesNothing(origin.externalName, s.log, call.value);
    }
  }

  lemma UsesNothing(name: string, log: seq<BindingEvent>, e: BindingEvent)
    requires e.GetSent? || e.PollSent?
    ensures UsedIds(name, log + [e]) == UsedIds(name, log)
  {
    assert (log + [e])[..|log|] == log;
  }

  lemma ReconcileKeepsInv(cfg: BindingConfig, origin: BindingObject, w: BindingWorld, a: BindingAnswers)
    requires Inv(origin, w) && Fresh(origin, w.log, a)
    ensures Inv(origin, ReconcileOutcome(cfg, w, a).world)
  {
    var s := BindingState(w.stored, w.stored, w.log);
    var o := ObserveOutcome(cfg, s, a);
    ObserveKeepsInv(cfg, origin, w, a, o);
    ObserveKeepsFresh(cfg, origin, s, a);
    if o.result.Ok? {
      if o.state.obj.deleted {
        DeleteKeepsInv(cfg, origin, o.state, a);
      } else if !o.result.value.resourceExists {
        CreateKeepsInv(cfg, origin, o.state, a);
      } else if !o.result.value.resourceUpToDate {
        RotationKeepsInv(cfg, origin, o.state, a);
      }
    }
  }

  /******* Main results over runs *******/

  // In every run, every broker call is one the log before it allows, and the
  // stored object is what the log says: its external name is the head of the
  // rotation chain, its operation key the last one the broker handed out.
  lemma {:induction false} RunsFollowProtocol(cfg: BindingConfig, origin: BindingObject, steps: seq<Step>)
    requires AllFresh(cfg, origin, steps)
    ensures Inv(origin, RunFrom(cfg, origin, steps))
  {
    if steps != [] {
      var before := steps[..|steps| - 1];
      RunsFollowProtocol(cfg, origin, before);
      match steps[|steps| - 1] {
        case User(_) =>
        case Reconcile(a) => ReconcileKeepsInv(cfg, origin, RunFrom(cfg, origin, before), a);
      }
    }
  }

  // The log between positions i and j holds no rotation the broker accepted.
  predicate NoRotation(log: seq<BindingEvent>, i: nat, j: nat)
    requires i <= j <= |log|
  {
    forall k | i <= k < j :: !(log[k].RotateSent? && log[k].rotated.Answered?)
  }

  lemma {:induction false} HeadStaysWithoutRotation(name: string, log: seq<BindingEvent>, i: nat, j: nat)
    requires i <= j <= |log|
    requires Head(name, log[..i]) != "" && NoRotation(log, i, j)
    ensures Head(name, log[..j]) == Head(name, log[..i])
  {
    if i < j {
      HeadStaysWithoutRotation(name, log, i, j - 1);
      assert log[..j][..j - 1] == log[..j - 1];
    }
  }

  lemma BindsBetweenRotations(origin: BindingObject, log: seq<BindingEvent>, i: nat, j: nat)
    requires Protocol(origin, log)
    requires i < j < |log| && log[i].BindSent? && log[j].BindSent? && NoRotation(log, i, j)
    ensures log[j].bind.bindingId == log[i].bind.bindingId
  {
    assert Allowed(origin, log[..i], log[i]) && Allowed(origin, log[..j], log[j]);
    assert log[..i + 1][..i] == log[..i];
    HeadStaysWithoutRotation(origin.externalName, log, i + 1, j);
  }

  // However often Bind is retried, and however often the binding is created
  // again because the broker lost it, every Bind between two accepted rotations
  // asks for the same binding ID.
  lemma BindRetriesKeepTheirId(cfg: BindingConfig, origin: BindingObject, steps: seq<Step>, i: nat, j: nat)
    requires AllFresh(cfg, origin, steps)
    requires var log := RunFrom(cfg, origin, steps).log;
      i < j < |log| && log[i].BindSent? && log[j].BindSent? && NoRotation(log, i, j)
    ensures var log := RunFrom(cfg, origin, steps).log;
      log[j].bind.bindingId == log[i].bind.bindingId
  {
    RunsFollowProtocol(cfg, origin, steps);
    BindsBetweenRotations(origin, RunFrom(cfg, origin, steps).log, i, j);
  }

  lemma {:induction false} UsedIdsGrow(name: string, log: seq<BindingEvent>, i: nat, j: nat)
    requires i <= j <= |log|
    ensures UsedIds(name, log[..i]) <= UsedIds(name, log[..j])
  {
    if i < j {
      UsedIdsGrow(name, log, i, j - 1);
      assert log[..j][..j - 1] == log[..j - 1];
    }
  }

  lemma RotationIdIsNew(origin: BindingObject, log: seq<BindingEvent>, i: nat, j: nat)
    requires Protocol(origin, log) && i < j < |log| && log[j].RotateSent?
    ensures log[i].RotateSent? ==> log[i].rotate.bindingId != log[j].rotate.bindingId
    ensures log[i].BindSent? ==> log[i].bind.bindingId != log[j].rotate.bindingId
    ensures log[j].rotate.bindingId != log[j].rotate.predecessorBindingId
  {
    assert Allowed(origin, log[..j], log[j]);
    assert log[..i + 1][..i] == log[..i];
    UsedIdsGrow(origin.externalName, log, i + 1, j);
    HeadIsUsed(origin.externalName, log[..j]);
  }

  // No rotation ever asks for an ID any earlier Bind or rotation asked for,
  // accepted or not, nor for its own predecessor's.
  lemma RotationIdsAreNew(cfg: BindingConfig, origin: BindingObject, steps: seq<Step>, i: nat, j: nat)
    requires AllFresh(cfg, origin, steps)
    requires var log := RunFrom(cfg, origin, steps).log; i < j < |log| && log[j].RotateSent?
    ensures var log := RunFrom(cfg, origin, steps).log;
      && (log[i].RotateSent? ==> log[i].rotate.bindingId != log[j].rotate.bindingId)
      && (log[i].BindSent? ==> log[i].bind.bindingId != log[j].rotate.bindingId)
      && log[j].rotate.bindingId != log[j].rotate.predecessorBindingId
  {
    RunsFollowProtocol(cfg, origin, steps);
    RotationIdIsNew(origin, RunFrom(cfg, origin, steps).log, i, j);
  }

  lemma {:induction false} HeadIsUsed(name: string, log: seq<BindingEvent>)
    ensures Head(name, log) in UsedIds(name, log)
  {
    if log != [] {
      HeadIsUsed(name, log[..|log| - 1]);
    }
  }

  // Not pending any more: some poll since has reported the operation done.
  lemma {:induction false} PendingUntilReported(log: seq<BindingEvent>, i: nat, j: nat) returns (k: nat)
    requires i < j <= |log| && AcceptedAsync(log[i]) && !Pending(log[..j])
    ensures i < k < j && ReportedDone(log[k])
  {
    assert log[..j][..j - 1] == log[..j - 1];
    if ReportedDone(log[j - 1]) {
      k := j - 1;
    } else {
      k := PendingUntilReported(log, i, j - 1);
    }
  }

  // Single flight: between a Bind or rotation the broker accepted
  // asynchronously and the next Bind, rotation or GetBinding of any run, the
  // broker has answered a poll with something other than "in progress".
  lemma SingleFlight(cfg: BindingConfig, origin: BindingObject, steps: seq<Step>, i: nat, j: nat) returns (k: nat)
    requires AllFresh(cfg, origin, steps)
    requires var log := RunFrom(cfg, origin, steps).log;
      && i < j < |log| && AcceptedAsync(log[i])
      && (log[j].BindSent? || log[j].RotateSent? || log[j].GetSent?)
    ensures var log := RunFrom(cfg, origin, steps).log; i < k < j && ReportedDone(log[k])
  {
    RunsFollowProtocol(cfg, origin, steps);
    var log := RunFrom(cfg, origin, steps).log;
    assert Allowed(origin, log[..j], log[j]);
    k := PendingUntilReported(log, i, j);
  }
}
