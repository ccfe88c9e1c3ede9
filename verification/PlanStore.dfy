// The plan store: one file per revision, and the workflow that appends to it. A save looks for the
// file, writes a temporary one and renames it into place; what workers that interleave inside that
// window can and cannot do to the history is proved here.
module PlanStore {
  import opened Prelude
  import opened History
  import opened Identity
  import opened DeploymentPlan

  datatype StoreError = MissingPlan | InvalidPlan | InvalidPlanPath | ImmutableConflict | Io | Refused(reason: PlanError)

  // File name (a revision number) to stored plan.
  type Files = map<nat, Plan>

  predicate Valid(plan: Plan, profile: Profile) {
    BelongsTo(plan, profile) && exists k: nat :: k <= |plan.steps| && InShape(plan, k)
  }

  predicate StageIs(plan: Plan, profile: Profile, k: nat) {
    BelongsTo(plan, profile) && InShape(plan, k) && plan.revision == k
  }

  datatype Work = Work(step: StepId, value: EvidenceValue)

  function NextPlan(plan: Plan, work: Work): Option<Plan> {
    var next := Complete(plan, work.step, work.value);
    if next.Ok? then Some(next.value) else None
  }

  // The plans of a profile as numbered files.
  function PlanKind(profile: Profile): Kind<Plan, Work> {
    Kind(Built(profile), (plan: Plan) => plan.revision, (plan: Plan) => Valid(plan, profile),
         (plan: Plan) => StageIs(plan, profile, plan.revision), (plan: Plan, work: Work) => NextPlan(plan, work))
  }

  // ---------------------------------------------------------------- one save

  function Settled(landing: Landing): Result<(), StoreError> {
    match landing case Stored => Ok(()) case Clash => Err(ImmutableConflict) case Failed => Err(Io)
  }

  // A whole save; `byThen` is what the files are at its rename, after what others stored.
  function SavedPlan(files: Files, profile: Profile, plan: Plan, byThen: Files, outcome: WriteOutcome): (Result<(), StoreError>, Files) {
    match Looked(files, plan, PlanKind(profile))
    case Refused => (Err(InvalidPlan), files)
    case Same => (Ok(()), files)
    case Differs => (Err(ImmutableConflict), files)
    case Absent =>
      var (landing, after) := Landed(byThen, plan.revision, plan, outcome);
      (Settled(landing), after)
  }

  // Recording a step: the plan in hand moves on only once its next revision is stored.
  function Recorded(files: Files, profile: Profile, plan: Plan, step: StepId, value: EvidenceValue, byThen: Files, outcome: WriteOutcome)
    : (Result<Plan, StoreError>, Files)
  {
    var next := Complete(plan, step, value);
    if next.Err? then (Err(StoreError.Refused(next.error)), files)
    else
      var (saved, after) := SavedPlan(files, profile, next.value, byThen, outcome);
      if saved.Err? then (Err(saved.error), after) else (Ok(next.value), after)
  }

  class DeploymentStore {
    var files: Files

    constructor ()
      ensures files == map[]
    {
      files := map[];
    }

    // Others may store revisions of their own once the look found nothing; `byThen` is what the files
    // are at the rename.
    method SavePlan(profile: Profile, plan: Plan, byThen: Files, outcome: WriteOutcome) returns (r: Result<(), StoreError>)
      modifies this
      ensures (r, files) == SavedPlan(old(files), profile, plan, byThen, outcome)
    {
      var checked := ValidateFor(plan, profile);
      if checked.Err? { return Err(InvalidPlan); }
      ghost var k: nat :| InShape(plan, k);
      if plan.revision in files {
        if files[plan.revision] == plan { return Ok(()); } else { return Err(ImmutableConflict); }
      }
      files := byThen;
      if outcome.NotWritten? { return Err(Io); }
      if outcome.RenameRefused? {
        if plan.revision !in files { return Err(Io); }
        if files[plan.revision] == plan { return Ok(()); } else { return Err(ImmutableConflict); }
      }
      files := files[plan.revision := plan];
      return Ok(());
    }

    // The scan over the revision files, in any order.
    method LoadPlan(profile: Profile) returns (r: Result<Plan, StoreError>)
      ensures r.Ok? ==> Readable(files, profile) && r.value.revision in files && files[r.value.revision] == r.value
                        && forall n :: n in files ==> n <= r.value.revision
      ensures r.Err? ==> files == map[] || !Readable(files, profile)
    {
      var latest: Option<Plan> := None;
      var rest := files.Keys;
      while rest != {}
        invariant rest <= files.Keys
        invariant forall n :: n in files && n !in rest ==> Valid(files[n], profile) && files[n].revision == n
        invariant latest.None? ==> rest == files.Keys
        invariant latest.Some? ==> latest.value.revision in files && files[latest.value.revision] == latest.value
                                   && forall n :: n in files && n !in rest ==> n <= latest.value.revision
        decreases |rest|
      {
        var n :| n in rest;
        var plan := files[n];
        var checked := ValidateFor(plan, profile);
        if checked.Err? { return Err(InvalidPlan); }
        if n != plan.revision { return Err(InvalidPlanPath); }
        if latest.None? || plan.revision > latest.value.revision {
          latest := Some(plan);
        }
        rest := rest - {n};
      }
      if latest.None? { return Err(MissingPlan); }
      return Ok(latest.value);
    }
  }

  predicate Readable(files: Files, profile: Profile) {
    forall n :: n in files ==> Valid(files[n], profile) && files[n].revision == n
  }

  class DeploymentWorkflow {
    const store: DeploymentStore
    const profile: Profile
    var plan: Plan

    constructor (store: DeploymentStore, profile: Profile, plan: Plan)
      requires Valid(plan, profile)
      ensures this.store == store && this.profile == profile && this.plan == plan
    {
      this.store, this.profile, this.plan := store, profile, plan;
    }

    method RecordStep(step: StepId, value: EvidenceValue, byThen: Files, outcome: WriteOutcome) returns (r: Result<(), StoreError>)
      modifies this, store
      ensures var (recorded, files) := Recorded(old(store.files), profile, old(plan), step, value, byThen, outcome);
              && store.files == files
              && plan == (if recorded.Ok? then recorded.value else old(plan))
              && r == (if recorded.Ok? then Ok(()) else Err(recorded.error))
    {
      var next := Complete(plan, step, value);
      if next.Err? { return Err(StoreError.Refused(next.error)); }
      r := store.SavePlan(profile, next.value, byThen, outcome);
      if r.Err? { return r; }
      plan := next.value;
    }
  }

  // ---------------------------------------------------------------- one line of history

  // Each stored plan is the one before with one more step completed, and its revision number counts
  // its completed steps.
  ghost predicate Linear(files: Files, profile: Profile) { Line(files, PlanKind(profile)) }

  lemma StageAdvances(plan: Plan, k: nat, step: StepId, value: EvidenceValue, profile: Profile)
    requires StageIs(plan, profile, k) && Complete(plan, step, value).Ok?
    ensures StageIs(Complete(plan, step, value).value, profile, k + 1)
    ensures Valid(Complete(plan, step, value).value, profile)
  {
    CompleteAdvances(plan, k, step, value);
  }

  lemma KindIsLawful(profile: Profile)
    ensures Lawful(PlanKind(profile))
  {
    BuiltIsFresh(profile);
    var kind := PlanKind(profile);
    forall plan: Plan | StageIs(plan, profile, plan.revision)
      ensures Valid(plan, profile)
    {
      assert InShape(plan, plan.revision);
    }
    forall plan: Plan, work: Work | StageIs(plan, profile, plan.revision) && Complete(plan, work.step, work.value).Ok?
      ensures StageIs(Complete(plan, work.step, work.value).value, profile, plan.revision as nat + 1)
    {
      StageAdvances(plan, plan.revision, work.step, work.value, profile);
    }
  }

  lemma KeepsItsEvidence(profile: Profile, plan: Plan, next: Plan)
    requires StageIs(plan, profile, plan.revision) && Follows(PlanKind(profile), plan, next)
    ensures StageIs(next, profile, plan.revision as nat + 1) && next == plan.(steps := next.steps, revision := next.revision)
    ensures plan.revision as nat < |plan.steps| == |next.steps|
    ensures forall i :: 0 <= i < |plan.steps| && i != plan.revision as nat ==> next.steps[i].evidence == plan.steps[i].evidence
  {
    var work :| PlanKind(profile).next(plan, work) == Some(next);
    StageAdvances(plan, plan.revision, work.step, work.value, profile);
    CompleteAdvances(plan, plan.revision, work.step, work.value);
  }

  // Two plans completed from one, of which the same plan follows, are the same: it still carries the
  // evidence in which they could differ.
  lemma SameFollower(profile: Profile, base: Plan, a: Plan, b: Plan, later: Plan)
    requires var kind := PlanKind(profile);
             kind.inLine(base) && Follows(kind, base, a) && Follows(kind, base, b) && Follows(kind, a, later) && Follows(kind, b, later)
    ensures a == b
  {
    KeepsItsEvidence(profile, base, a);
    KeepsItsEvidence(profile, base, b);
    KeepsItsEvidence(profile, a, later);
    KeepsItsEvidence(profile, b, later);
    forall i | 0 <= i < |a.steps|
      ensures a.steps[i] == b.steps[i]
    {
      ShapeAt(a, a.revision, i);
      ShapeAt(b, b.revision, i);
      assert a.steps[i].id == b.steps[i].id == StepAt(profile.board, i);
    }
    assert a.steps == b.steps;
  }

  lemma PlansFork(profile: Profile)
    ensures Forks(PlanKind(profile))
  {
    var kind := PlanKind(profile);
    forall base, a, b, later | kind.inLine(base) && Follows(kind, base, a) && Follows(kind, base, b) && Follows(kind, a, later) && Follows(kind, b, later)
      ensures a == b
    {
      SameFollower(profile, base, a, b, later);
    }
  }

  lemma StoredStage(files: Files, profile: Profile, n: nat)
    requires Linear(files, profile) && n in files
    ensures StageIs(files[n], profile, n)
  {
    assert PlanKind(profile).inLine(files[n]) && PlanKind(profile).num(files[n]) == n;
  }

  lemma LinearIsReadable(files: Files, profile: Profile)
    requires Linear(files, profile)
    ensures Readable(files, profile)
  {
    forall n | n in files
      ensures Valid(files[n], profile)
    {
      StoredStage(files, profile, n);
    }
  }

  // Recording is saving the next plan.
  lemma RecordingSaves(files: Files, profile: Profile, plan: Plan, step: StepId, value: EvidenceValue, byThen: Files, outcome: WriteOutcome)
    ensures var (r, after) := Recorded(files, profile, plan, step, value, byThen, outcome);
            var next := Complete(plan, step, value);
            if next.Err? then r.Err? && after == files
            else var (ok, saved) := SavedItem(files, next.value, byThen, outcome, PlanKind(profile));
                 after == saved && if ok then r == Ok(next.value) else r.Err?
  {
  }

  // A worker whose plan is some stored revision, however old, saves the next one while others add to
  // the line. It keeps the line and all that is stored exactly unless its rename displaces what one of
  // them stored for the same revision in the meantime.
  lemma RecordingKeepsHistory(files: Files, profile: Profile, plan: Plan, step: StepId, value: EvidenceValue, byThen: Files, outcome: WriteOutcome)
    requires Linear(files, profile) && IsStored(files, plan, PlanKind(profile)) && Complete(plan, step, value).Ok?
    requires Linear(byThen, profile) && Keeps(files, byThen)
    ensures var next := Complete(plan, step, value).value;
            var (ok, after) := SavedItem(files, next, byThen, outcome, PlanKind(profile));
            && (ok ==> IsStored(after, next, PlanKind(profile)) && next.revision == plan.revision + 1)
            && if DisplacesOthers(files, next, byThen, outcome, PlanKind(profile)) then !Keeps(byThen, after)
               else Linear(after, profile) && Keeps(files, after)
  {
    RecordedMayLand(files, profile, plan, step, value);
    SavingKeepsLine(files, Complete(plan, step, value).value, byThen, outcome, PlanKind(profile));
  }

  lemma RecordedMayLand(files: Files, profile: Profile, plan: Plan, step: StepId, value: EvidenceValue)
    requires Linear(files, profile) && IsStored(files, plan, PlanKind(profile)) && Complete(plan, step, value).Ok?
    ensures MayLand(files, Complete(plan, step, value).value, PlanKind(profile))
    ensures Complete(plan, step, value).value.revision == plan.revision + 1
  {
    KindIsLawful(profile);
    NextMayLand(files, plan, Work(step, value), PlanKind(profile));
  }

  // ---------------------------------------------------------------- many workers

  // From the empty store, over every interleaving of workers: the revisions stay one line of history
  // with nothing lost or changed exactly when no worker lands other contents than another one landed
  // for that revision since it looked. Then every worker holds a revision of that line.
  lemma HistoryStaysLinear(moves: seq<Move<Work>>, profile: Profile)
    ensures var kind := PlanKind(profile);
            && (StaysLine(Nobody(), moves, kind) <==> NoneOverwritten(Nobody(), moves, kind))
            && (NoneOverwritten(Nobody(), moves, kind) ==> Consistent(AfterMoves(Nobody(), moves, kind), kind))
  {
    KindIsLawful(profile);
    NobodyIsConsistent(PlanKind(profile));
    RunKeepsLine(Nobody(), moves, PlanKind(profile));
  }

  // Once a revision is stored, a worker that looks afterwards from the revision before is turned away
  // with different evidence, whatever happens in between short of an overwrite.
  lemma NoFork(w: Workers<Plan>, plan: Plan, stored: Plan, between: seq<Move<Work>>, worker: nat, step: StepId, value: EvidenceValue, profile: Profile)
    requires var kind := PlanKind(profile);
             Consistent(w, kind) && IsStored(w.files, stored, kind) && kind.inLine(plan) && NoneOverwritten(w, between, kind)
    requires stored.revision == plan.revision + 1
    ensures var later := AfterMoves(w, between, PlanKind(profile));
            worker in later.held && later.held[worker] == plan && worker !in later.landing ==>
              Moved(later, Check(worker, Work(step, value)), PlanKind(profile))
              == if Complete(plan, step, value) == Ok(stored) then later.(held := later.held[worker := stored]) else later
  {
    KindIsLawful(profile);
    TakenStaysTaken(w, plan, stored, between, worker, Work(step, value), PlanKind(profile));
  }

  // An overwrite leaves one line of history exactly while nothing was recorded on top of the revision
  // it displaces; either way the revision a worker was told is stored is gone.
  lemma OverwriteSplitsHistory(w: Workers<Plan>, worker: nat, profile: Profile)
    requires Consistent(w, PlanKind(profile)) && Overwrites(w, Land(worker, Renamed), PlanKind(profile))
    ensures var plan := w.landing[worker];
            var after := Moved(w, Land(worker, Renamed), PlanKind(profile)).files;
            && plan.revision as nat in w.files
            && (Linear(after, profile) <==> plan.revision as nat == |w.files| - 1)
            && !IsStored(after, w.files[plan.revision], PlanKind(profile))
  {
    PlansFork(profile);
    OverwriteBreaksLine(w, worker, PlanKind(profile));
    StoredStage(w.files, profile, w.landing[worker].revision);
  }

  // ---------------------------------------------------------------- a losing run

  // The profile's texts stand as evidence as they are.
  predicate PlainTexts(profile: Profile) {
    Trim(profile.profileId) == profile.profileId != "" && Trim(profile.recovery) == profile.recovery != ""
  }

  function FirstSteps(profile: Profile): seq<Work> {
    [Work(VerifyProfile, Text(profile.profileId)), Work(ConfirmRecovery, Text(profile.recovery)),
     Work(PreserveOriginalFirmware, Hash(profile.originalFirmware))]
  }

  lemma Completes(plan: Plan, k: nat, work: Work, profile: Profile)
    requires StageIs(plan, profile, k) && k < |plan.steps| && StepAt(profile.board, k) == work.step
    requires NewEvidence(ExpectedEvidence(work.step), work.value).Ok?
    requires EvidenceProblem(plan, work.step, NewEvidence(ExpectedEvidence(work.step), work.value).value).None?
    ensures NextPlan(plan, work).Some? && StageIs(NextPlan(plan, work).value, profile, k + 1)
  {
    CompleteAdvances(plan, k, work.step, work.value);
    StageAdvances(plan, k, work.step, work.value, profile);
  }

  // Any hash of a prepared driver and of what comes after it is accepted.
  lemma DriverHashes(plan: Plan, profile: Profile, digest: Digest) returns (next: Plan)
    requires StageIs(plan, profile, 3)
    ensures NextPlan(plan, Work(PrepareRustDriver, Hash(digest))) == Some(next) && StageIs(next, profile, 4)
    ensures next.steps[3].evidence == Some(Evidence(RustDriverSha256, Hash(digest)))
    ensures NextPlan(next, Work(StepAt(profile.board, 4), Hash(digest))).Some?
  {
    Completes(plan, 3, Work(PrepareRustDriver, Hash(digest)), profile);
    CompleteAdvances(plan, 3, PrepareRustDriver, Hash(digest));
    next := NextPlan(plan, Work(PrepareRustDriver, Hash(digest))).value;
    Completes(next, 4, Work(StepAt(profile.board, 4), Hash(digest)), profile);
  }

  // One worker alone, so many steps in.
  ghost predicate AloneAt(w: Workers<Plan>, profile: Profile, k: nat) {
    var kind := PlanKind(profile);
    Reached(w, kind) && Consistent(w, kind) && AtTip(w, 1, kind) && w.landing == map[] && StageIs(w.held[1], profile, k)
  }

  lemma AloneFurther(w: Workers<Plan>, profile: Profile, k: nat, work: Work) returns (after: Workers<Plan>)
    requires AloneAt(w, profile, k) && NextPlan(w.held[1], work).Some? && StageIs(NextPlan(w.held[1], work).value, profile, k + 1)
    ensures AloneAt(after, profile, k + 1)
  {
    KindIsLawful(profile);
    after := GoesOnAlone(w, 1, work, NextPlan(w.held[1], work).value, PlanKind(profile));
  }

  lemma AloneAtStart(profile: Profile)
    ensures AloneAt(Workers(map[0 := Built(profile)], map[1 := Built(profile)], map[]), profile, 0)
  {
    KindIsLawful(profile);
    BuiltIsFresh(profile);
    StartsAlone(1, PlanKind(profile));
  }

  lemma FirstStepsComplete(plan: Plan, profile: Profile, k: nat)
    requires PlainTexts(profile) && k < 3 && StageIs(plan, profile, k)
    ensures NextPlan(plan, FirstSteps(profile)[k]).Some? && StageIs(NextPlan(plan, FirstSteps(profile)[k]).value, profile, k + 1)
  {
    Completes(plan, k, FirstSteps(profile)[k], profile);
  }

  lemma ThreeStepsIn(profile: Profile) returns (w: Workers<Plan>)
    requires PlainTexts(profile)
    ensures var kind := PlanKind(profile);
            && Reached(w, kind) && Consistent(w, kind) && AtTip(w, 1, kind) && AtTip(w, 2, kind)
            && w.held[1] == w.held[2] && StageIs(w.held[1], profile, 3)
  {
    AloneAtStart(profile);
    w := Workers(map[0 := Built(profile)], map[1 := Built(profile)], map[]);
    for k := 0 to 3
      invariant AloneAt(w, profile, k)
    {
      FirstStepsComplete(w.held[1], profile, k);
      w := AloneFurther(w, profile, k, FirstSteps(profile)[k]);
    }
    KindIsLawful(profile);
    w := LoadsTip(w, 1, 2, PlanKind(profile));
  }

  // The condition is needed: two preparations with different drivers at one revision both look before
  // either lands. Both are told they succeeded; the first records another step and then the second
  // lands, and the stored revisions are no longer one line.
  lemma TwoPreparationsLoseOne(profile: Profile)
    requires PlainTexts(profile)
    ensures exists moves :: !Linear(AfterMoves(Nobody(), moves, PlanKind(profile)).files, profile)
  {
    var kind := PlanKind(profile);
    KindIsLawful(profile);
    PlansFork(profile);
    var w := ThreeStepsIn(profile);
    var mine := DriverHashes(w.held[1], profile, Sha256([1]));
    var theirs := DriverHashes(w.held[1], profile, Sha256([2]));
    var more := Work(StepAt(profile.board, 4), Hash(Sha256([1])));
    assert mine != theirs by { assert mine.steps[3].evidence != theirs.steps[3].evidence; }
    var one, other := Work(PrepareRustDriver, Hash(Sha256([1]))), Work(PrepareRustDriver, Hash(Sha256([2])));
    var moves := ForkBegins(1, 2, one, other, ForkEnds(1, 2, more));
    ForkBreaksLine(w, 1, 2, one, other, more, mine, theirs, NextPlan(mine, more).value, kind);
    ReachesFurther(w, moves, kind);
  }
}
