// The Healthy condition stored on a binding over whole runs: it is only ever
// written by a GetBinding answer whose renewal date has passed, and never taken
// off again.
module BindingHealth {
  import opened Results
  import opened OsbApi
  import opened Marshalling
  import opened BindingModel
  import opened BindingRuns
  import opened BindingSteps

  function StoredHealth(w: BindingWorld): Option<Condition> {
    if Healthy in w.stored.conditions then Some(w.stored.conditions[Healthy]) else None
  }

  // What metadata makes the controller report: nothing before the renewal date;
  // then that the binding expires soon, unless it is rotated instead; and that it
  // has expired once the expiry has passed as well.
  function HealthReport(cfg: BindingConfig, metadata: Option<BindingMetadata>, a: BindingAnswers): Option<Condition> {
    if !RenewalPassed(cfg.codec, metadata, a) then None
    else
      var expiry := cfg.codec.parseTime(metadata.value.expiresAt).value;
      if expiry < a.expiryClock then Some(Expired(expiry))
      else if cfg.rotateBinding then None
      else Some(ExpiringSoon(expiry))
  }

  // The renewal check in full, for any metadata and clock readings: the one
  // warning it may write on the Healthy condition, and each of its verdicts.
  lemma ExpiryIsTotal(cfg: BindingConfig, conditions: Conditions, metadata: Option<BindingMetadata>, a: BindingAnswers)
    ensures var (after, verdict) := RenewalOutcome(cfg, conditions, metadata, a);
      var report := HealthReport(cfg, metadata, a);
      && after == (if report.Some? then conditions[Healthy := report.value] else conditions)
      && (verdict == Ok(NoRenewal) <==> NoRenewalDue(cfg, metadata, a))
      && (verdict == Ok(RotateBinding) <==> cfg.rotateBinding && RenewalPassed(cfg.codec, metadata, a))
      && (verdict == Ok(RenewalData) <==> NoRenewalDate(metadata))
      && (verdict.Err? ==> verdict.error == CannotParseTime)
  {
  }

  // What this reconcile reports.
  function Report(cfg: BindingConfig, w: BindingWorld, a: BindingAnswers): Option<Condition> {
    if Answers(cfg, w.stored, a) then HealthReport(cfg, a.get.value.metadata, a) else None
  }

  // A reconcile stores its report, and without one leaves the stored report alone.
  lemma HealthStep(cfg: BindingConfig, w: BindingWorld, a: BindingAnswers)
    ensures StoredHealth(ReconcileOutcome(cfg, w, a).world) ==
      if Report(cfg, w, a).Some? then Report(cfg, w, a) else StoredHealth(w)
  {
    var s := BindingState(w.stored, w.stored, w.log);
    var o := ObserveOutcome(cfg, s, a);
    ObserveHealth(cfg, w, a, o);
    if o.result.Ok? {
      if o.state.obj.deleted {
        DeleteKeepsHealth(cfg, o.state, a);
      } else if !o.result.value.resourceExists {
        CreateKeepsHealth(cfg, o.state, a);
      } else if !o.result.value.resourceUpToDate {
        RotationKeepsHealth(cfg, o.state, a);
      }
    }
  }

  predicate SameHealth(c: Conditions, d: Conditions) {
    (Healthy in c <==> Healthy in d) && (Healthy in c ==> c[Healthy] == d[Healthy])
  }

  lemma ObserveHealth(cfg: BindingConfig, w: BindingWorld, a: BindingAnswers, o: Outcome<Observation>)
    requires o == ObserveOutcome(cfg, BindingState(w.stored, w.stored, w.log), a)
    ensures SameHealth(o.state.stored.conditions, w.stored.conditions)
    ensures var report := Report(cfg, w, a);
      && SameHealth(o.state.obj.conditions,
                    if report.Some? then w.stored.conditions[Healthy := report.value] else w.stored.conditions)
      && (report.Some? ==> o.result.Ok? ==> o.result.value.resourceExists)
  {
    if w.stored.InProgress() {
      PollKeepsHealth(cfg, w, a);
    } else if BuildGetBindingRequest(w.stored).Ok? && a.get.Answered? {
      var s := BindingState(w.stored, w.stored, w.log);
      ReadHealth(cfg, s.Sent(GetSent(BuildGetBindingRequest(w.stored).value, a.get)), a.get.value, a);
    }
  }

  lemma ReadHealth(cfg: BindingConfig, s: BindingState, resp: GetBindingResponse, a: BindingAnswers)
    ensures var o, report := GetBindingOutcome(cfg, s, resp, a), HealthReport(cfg, resp.metadata, a);
      && o.state.stored == s.stored && (o.result.Ok? ==> o.result.value.action != NeedToCreate)
      && o.state.obj.conditions ==
         if EncodableData(cfg.codec, CreateResponseData(resp)) &&
            MarshalledCredentials(cfg.codec, resp.credentials).Ok? && report.Some?
         then s.obj.conditions[Healthy := report.value] else s.obj.conditions
  {
  }

  lemma PollKeepsHealth(cfg: BindingConfig, w: BindingWorld, a: BindingAnswers)
    requires w.stored.InProgress()
    ensures var s' := ObserveOutcome(cfg, BindingState(w.stored, w.stored, w.log), a).state;
      SameHealth(s'.stored.conditions, w.stored.conditions) && SameHealth(s'.obj.conditions, w.stored.conditions)
  {
  }

  lemma DeleteKeepsHealth(cfg: BindingConfig, s: BindingState, a: BindingAnswers)
    ensures SameHealth(DeleteOutcome(cfg, s, a).state.obj.conditions, s.obj.conditions)
  {
  }

  lemma CreateKeepsHealth(cfg: BindingConfig, s: BindingState, a: BindingAnswers)
    ensures CreateOutcome(cfg, s, a).state.obj.conditions == s.obj.conditions
  {
  }

  lemma RotationKeepsHealth(cfg: BindingConfig, s: BindingState, a: BindingAnswers)
    ensures RotationOutcome(cfg, s, a).state.obj.conditions == s.obj.conditions
  {
  }

  // No GetBinding answer of these steps has anything to report, as after a
  // renewal date was moved to the future.
  predicate NothingDue(cfg: BindingConfig, steps: seq<Step>) {
    forall i | 0 <= i < |steps| && steps[i].Reconcile? && steps[i].answers.get.Answered? ::
      HealthReport(cfg, steps[i].answers.get.value.metadata, steps[i].answers) == None
  }

  // No run takes a stored warning off again. Only a new report replaces it, so
  // when the renewal date moves the old warning stays, date and all, through
  // every run in which nothing is due, rotations included.
  lemma {:induction false} WarningsStay(cfg: BindingConfig, w: BindingWorld, steps: seq<Step>)
    ensures StoredHealth(w).Some? ==> StoredHealth(Run(cfg, w, steps)).Some?
    ensures NothingDue(cfg, steps) ==> StoredHealth(Run(cfg, w, steps)) == StoredHealth(w)
  {
    if steps != [] {
      var before, last := steps[..|steps| - 1], steps[|steps| - 1];
      WarningsStay(cfg, w, before);
      if last.Reconcile? {
        HealthStep(cfg, Run(cfg, w, before), last.answers);
      }
    }
  }

  function Rank(health: Option<Condition>): nat {
    match health
    case None => 0
    case Some(c) => if c.Expired? then 2 else 1
  }

  // No clock of a later reconcile is behind that of an earlier one.
  predicate ClocksAdvance(steps: seq<Step>) {
    forall i, j | 0 <= i < j < |steps| && steps[i].Reconcile? && steps[j].Reconcile? ::
      && steps[i].answers.renewClock <= steps[j].answers.renewClock
      && steps[i].answers.expiryClock <= steps[j].answers.expiryClock
  }

  predicate GetsShow(metadata: BindingMetadata, steps: seq<Step>) {
    forall i | 0 <= i < |steps| && steps[i].Reconcile? && steps[i].answers.get.Answered? ::
      steps[i].answers.get.value.metadata == Some(metadata)
  }

  // As the clocks advance, what metadata makes the controller report only moves
  // from nothing to expiring soon to expired, whichever of the two dates comes
  // first.
  lemma ExpiryOnlyAdvances(cfg: BindingConfig, metadata: Option<BindingMetadata>, a: BindingAnswers, b: BindingAnswers)
    requires !cfg.rotateBinding && a.renewClock <= b.renewClock && a.expiryClock <= b.expiryClock
    ensures Rank(HealthReport(cfg, metadata, a)) <= Rank(HealthReport(cfg, metadata, b))
  {
  }

  // One reconcile: what it stores is at least what was stored and at most what
  // any later reading of the clocks reports.
  lemma StoredStep(cfg: BindingConfig, w: BindingWorld, metadata: BindingMetadata, a: BindingAnswers)
    requires !cfg.rotateBinding && (a.get.Answered? ==> a.get.value.metadata == Some(metadata))
    ensures var was, next := StoredHealth(w), StoredHealth(ReconcileOutcome(cfg, w, a).world);
      var report := HealthReport(cfg, Some(metadata), a);
      && Rank(next) <= (if Rank(was) < Rank(report) then Rank(report) else Rank(was))
      && (Rank(was) <= Rank(report) ==> Rank(was) <= Rank(next))
  {
    HealthStep(cfg, w, a);
  }

  // What is stored never outranks what a later reading of the clocks reports.
  lemma {:induction false} StoredIsBehind(cfg: BindingConfig, w: BindingWorld, steps: seq<Step>,
      metadata: BindingMetadata, n: nat, m: nat)
    requires !cfg.rotateBinding && StoredHealth(w) == None && ClocksAdvance(steps) && GetsShow(metadata, steps)
    requires n <= m < |steps| && steps[m].Reconcile?
    ensures Rank(StoredHealth(Run(cfg, w, steps[..n]))) <= Rank(HealthReport(cfg, Some(metadata), steps[m].answers))
  {
    if n > 0 {
      StoredIsBehind(cfg, w, steps, metadata, n - 1, m);
      RunStep(cfg, w, steps, n - 1);
      if steps[n - 1].Reconcile? {
        var a := steps[n - 1].answers;
        StoredStep(cfg, Run(cfg, w, steps[..n - 1]), metadata, a);
        ExpiryOnlyAdvances(cfg, Some(metadata), a, steps[m].answers);
      }
    }
  }

  lemma RunStep(cfg: BindingConfig, w: BindingWorld, steps: seq<Step>, n: nat)
    requires n < |steps|
    ensures Run(cfg, w, steps[..n + 1]) == Next(cfg, Run(cfg, w, steps[..n]), steps[n])
  {
    assert steps[..n + 1][..n] == steps[..n];
  }

  // Over every run that starts without a warning, rotation off and the metadata
  // unchanged, the warning stored on the object only moves from none to expiring
  // soon to expired.
  lemma StoredExpiryOnlyAdvances(cfg: BindingConfig, w: BindingWorld, steps: seq<Step>,
      metadata: BindingMetadata, i: nat, j: nat)
    requires !cfg.rotateBinding && StoredHealth(w) == None && ClocksAdvance(steps) && GetsShow(metadata, steps)
    requires i <= j <= |steps|
    ensures Rank(StoredHealth(Run(cfg, w, steps[..i]))) <= Rank(StoredHealth(Run(cfg, w, steps[..j])))
  {
    var ranks := seq(|steps| + 1, k requires 0 <= k <= |steps| => Rank(StoredHealth(Run(cfg, w, steps[..k]))));
    forall k | 0 <= k < |steps| ensures ranks[k] <= ranks[k + 1] {
      NextOnlyAdvances(cfg, w, steps, metadata, k);
    }
    NeverFalls(ranks, i, j);
  }

  lemma {:induction false} NeverFalls(ranks: seq<nat>, i: nat, j: nat)
    requires forall k | 0 <= k < |ranks| - 1 :: ranks[k] <= ranks[k + 1]
    requires i <= j < |ranks|
    ensures ranks[i] <= ranks[j]
  {
    if i < j {
      NeverFalls(ranks, i, j - 1);
    }
  }

  lemma NextOnlyAdvances(cfg: BindingConfig, w: BindingWorld, steps: seq<Step>, metadata: BindingMetadata, n: nat)
    requires !cfg.rotateBinding && StoredHealth(w) == None && ClocksAdvance(steps) && GetsShow(metadata, steps)
    requires n < |steps|
    ensures Rank(StoredHealth(Run(cfg, w, steps[..n]))) <= Rank(StoredHealth(Run(cfg, w, steps[..n + 1])))
  {
    RunStep(cfg, w, steps, n);
    if steps[n].Reconcile? {
      StoredIsBehind(cfg, w, steps, metadata, n, n);
      StoredStep(cfg, Run(cfg, w, steps[..n]), metadata, steps[n].answers);
    }
  }
}
