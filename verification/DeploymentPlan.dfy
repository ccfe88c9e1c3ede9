// The deployment plan: a fixed list of steps completed one after the other, each with evidence.
module DeploymentPlan {
  import opened Prelude
  import opened Identity

  datatype BoardPath = NativeResizableBar | LegacyAbove4g

  datatype StepId =
    | VerifyProfile | ConfirmRecovery | PreserveOriginalFirmware | PrepareRustDriver | ApplyLegacyBoardPatches
    | VerifyPatchedArtifact | FlashWithVendorRoute | ConfigureFirmwareSetup | RebootAfterFirmware
    | VerifyDriverLoaded | WriteNvstrapsConfiguration | RebootAfterConfiguration | VerifyResizableBar
    | ConfigureNvidiaApplications

  datatype StepState = Ready | Pending | Completed

  datatype EvidenceKind =
    | ExactProfileMatch | RecoveryRouteConfirmed | OriginalFirmwareSha256 | RustDriverSha256 | LegacyPatchReceipt
    | PatchedFirmwareSha256 | VendorFlashReceipt | FirmwareSettingsConfirmed | BootObserved | DriverStatus
    | ConfigurationReadback | ResizableBarObserved | NvidiaPolicyObserved

  datatype BootObservation = BootObservation(observedAt: u64, identity: Pinned)

  // The text of a piece of evidence, by what it is read as: a digest, a canonical boot observation,
  // a driver status, a time, an operator's confirmation, or anything else.
  datatype EvidenceValue =
    | Hash(digest: Digest)
    | Boot(observation: BootObservation)
    | Status(raw: u64)
    | Moment(ms: u64)
    | Attested(ms: u64)
    | Text(text: string)

  datatype Evidence = Evidence(kind: EvidenceKind, value: EvidenceValue)

  datatype Step = Step(id: StepId, state: StepState, evidence: Option<Evidence>)

  // The parts of a machine profile the plan and its commands depend on.
  datatype Profile = Profile(
    profileId: string,
    board: BoardPath,
    identity: Pinned,
    originalFirmware: Digest,
    recovery: string,
    hasInstallRoute: bool)

  datatype Plan = Plan(
    profileId: string,
    originalFirmware: Digest,
    recovery: string,
    revision: u32,
    steps: seq<Step>)

  datatype PlanError =
    | AlreadyComplete | OutOfOrder(expected: StepId, actual: StepId) | WrongEvidence | MissingEvidence
    | MalformedDigest | MalformedBootObservation | EvidenceValueMismatch(step: StepId) | StepNotCompleted(step: StepId)
    | UnknownStep(step: StepId) | ProfileMismatch | InvalidStepSequence | InvalidStepState

  // ---------------------------------------------------------------- the canonical plan

  function StepCount(board: BoardPath): nat { if board.LegacyAbove4g? then 14 else 13 }

  // The i-th step of the plan; a legacy board has one more, after the driver is prepared.
  function StepAt(board: BoardPath, i: nat): StepId
    requires i < StepCount(board)
  {
    if i == 0 then VerifyProfile
    else if i == 1 then ConfirmRecovery
    else if i == 2 then PreserveOriginalFirmware
    else if i == 3 then PrepareRustDriver
    else if board.LegacyAbove4g? && i == 4 then ApplyLegacyBoardPatches
    else
      var later := if board.LegacyAbove4g? then i - 1 else i;
      if later == 4 then VerifyPatchedArtifact
      else if later == 5 then FlashWithVendorRoute
      else if later == 6 then ConfigureFirmwareSetup
      else if later == 7 then RebootAfterFirmware
      else if later == 8 then VerifyDriverLoaded
      else if later == 9 then WriteNvstrapsConfiguration
      else if later == 10 then RebootAfterConfiguration
      else if later == 11 then VerifyResizableBar
      else ConfigureNvidiaApplications
  }

  lemma StepsAreDistinct(board: BoardPath, i: nat, j: nat)
    requires i < j < StepCount(board)
    ensures StepAt(board, i) != StepAt(board, j)
  {
  }

  function ExpectedEvidence(step: StepId): EvidenceKind {
    match step
    case VerifyProfile => ExactProfileMatch
    case ConfirmRecovery => RecoveryRouteConfirmed
    case PreserveOriginalFirmware => OriginalFirmwareSha256
    case PrepareRustDriver => RustDriverSha256
    case ApplyLegacyBoardPatches => LegacyPatchReceipt
    case VerifyPatchedArtifact => PatchedFirmwareSha256
    case FlashWithVendorRoute => VendorFlashReceipt
    case ConfigureFirmwareSetup => FirmwareSettingsConfirmed
    case RebootAfterFirmware => BootObserved
    case RebootAfterConfiguration => BootObserved
    case VerifyDriverLoaded => DriverStatus
    case WriteNvstrapsConfiguration => ConfigurationReadback
    case VerifyResizableBar => ResizableBarObserved
    case ConfigureNvidiaApplications => NvidiaPolicyObserved
  }

  function Built(profile: Profile): Plan {
    var count := StepCount(profile.board);
    Plan(profile.profileId, profile.originalFirmware, profile.recovery, 0,
         seq(count, i requires 0 <= i < count => Step(StepAt(profile.board, i), if i == 0 then Ready else Pending, None)))
  }

  // ---------------------------------------------------------------- evidence

  function NewEvidence(kind: EvidenceKind, value: EvidenceValue): Result<Evidence, PlanError> {
    if value.Text? && Trim(value.text) == "" then Err(MissingEvidence)
    else if kind in {OriginalFirmwareSha256, RustDriverSha256, LegacyPatchReceipt, PatchedFirmwareSha256} && !value.Hash?
    then Err(MalformedDigest)
    else Ok(Evidence(kind, if value.Text? then Text(Trim(value.text)) else value))
  }

  predicate ValidObservation(value: EvidenceValue) { value.Boot? && value.observation.observedAt != 0 }

  function EvidenceProblem(plan: Plan, step: StepId, evidence: Evidence): Option<PlanError> {
    match step
    case VerifyProfile => if evidence.value == Text(plan.profileId) then None else Some(EvidenceValueMismatch(step))
    case PreserveOriginalFirmware =>
      if evidence.value == Hash(plan.originalFirmware) then None else Some(EvidenceValueMismatch(step))
    case ConfirmRecovery => if evidence.value == Text(plan.recovery) then None else Some(EvidenceValueMismatch(step))
    case RebootAfterFirmware | RebootAfterConfiguration =>
      if ValidObservation(evidence.value) then None else Some(MalformedBootObservation)
    case _ => None
  }

  // Evidence that completing the step accepts and that reading the stored plan accepts again.
  predicate Proves(plan: Plan, step: StepId, evidence: Evidence) {
    && evidence.kind == ExpectedEvidence(step)
    && NewEvidence(evidence.kind, evidence.value) == Ok(evidence)
    && EvidenceProblem(plan, step, evidence).None?
  }

  // ---------------------------------------------------------------- reading and completing

  function ReadyIndex(steps: seq<Step>): (r: Option<nat>)
    ensures r.Some? ==> r.value < |steps| && steps[r.value].state == Ready && forall i :: 0 <= i < r.value ==> steps[i].state != Ready
    ensures r.None? ==> forall i :: 0 <= i < |steps| ==> steps[i].state != Ready
  {
    if steps == [] then None
    else if steps[0].state == Ready then Some(0)
    else
      var rest := ReadyIndex(steps[1..]);
      if rest.None? then None else Some(rest.value + 1)
  }

  function Active(plan: Plan): Option<StepId> {
    var index := ReadyIndex(plan.steps);
    if index.None? then None else Some(plan.steps[index.value].id)
  }

  function RequireActive(plan: Plan, step: StepId): Option<PlanError> {
    if Active(plan).None? then Some(AlreadyComplete)
    else if Active(plan).value == step then None
    else Some(OutOfOrder(Active(plan).value, step))
  }

  predicate IsCompleted(plan: Plan, step: StepId) {
    exists s :: s in plan.steps && s.id == step && s.state == Completed
  }

  function FindStep(steps: seq<Step>, id: StepId): Option<Step> {
    if steps == [] then None else if steps[0].id == id then Some(steps[0]) else FindStep(steps[1..], id)
  }

  lemma {:induction false} FindsFirst(steps: seq<Step>, i: nat, id: StepId)
    requires i < |steps| && steps[i].id == id
    requires forall j :: 0 <= j < i ==> steps[j].id != id
    ensures FindStep(steps, id) == Some(steps[i])
  {
    if i > 0 {
      FindsFirst(steps[1..], i - 1, id);
    }
  }

  function CompletedEvidence(plan: Plan, step: StepId): Result<Evidence, PlanError> {
    var found := FindStep(plan.steps, step);
    if found.None? then Err(UnknownStep(step))
    else if found.value.state != Completed then Err(StepNotCompleted(step))
    else if found.value.evidence.None? then Err(MissingEvidence)
    else if found.value.evidence.value.kind != ExpectedEvidence(step) then Err(WrongEvidence)
    else Ok(found.value.evidence.value)
  }

  function LastBoot(steps: seq<Step>): Option<Step> {
    if steps == [] then None
    else
      var last := steps[|steps| - 1];
      if last.state == Completed && (last.id == RebootAfterFirmware || last.id == RebootAfterConfiguration) then Some(last)
      else LastBoot(steps[..|steps| - 1])
  }

  // The identity seen at the last recorded boot, if any.
  function LatestBoot(plan: Plan): Result<Option<BootObservation>, PlanError> {
    var step := LastBoot(plan.steps);
    if step.None? then Ok(None)
    else if step.value.evidence.None? then Err(MissingEvidence)
    else if !ValidObservation(step.value.evidence.value.value) then Err(MalformedBootObservation)
    else Ok(Some(step.value.evidence.value.value.observation))
  }

  const MAX_REVISION: u32 := 0xFFFF_FFFF

  function NextRevision(revision: u32): u32 {
    if revision == MAX_REVISION then revision else revision + 1
  }

  function Advanced(steps: seq<Step>, index: nat, evidence: Evidence): seq<Step>
    requires index < |steps|
  {
    var done := steps[index := steps[index].(state := Completed, evidence := Some(evidence))];
    if index + 1 < |done| then done[index + 1 := done[index + 1].(state := Ready)] else done
  }

  function Complete(plan: Plan, step: StepId, value: EvidenceValue): Result<Plan, PlanError> {
    var evidence := NewEvidence(ExpectedEvidence(step), value);
    if evidence.Err? then Err(evidence.error)
    else
      var index := ReadyIndex(plan.steps);
      if index.None? then Err(AlreadyComplete)
      else if plan.steps[index.value].id != step then Err(OutOfOrder(plan.steps[index.value].id, step))
      else if EvidenceProblem(plan, step, evidence.value).Some? then Err(EvidenceProblem(plan, step, evidence.value).value)
      else Ok(plan.(steps := Advanced(plan.steps, index.value, evidence.value), revision := NextRevision(plan.revision)))
  }

  // ---------------------------------------------------------------- the shape of a plan

  // Exactly the first k steps are completed, with evidence that proves them; the next one is ready.
  predicate InShape(plan: Plan, k: nat) {
    && k <= |plan.steps|
    && (forall i :: 0 <= i < |plan.steps| ==>
          var s := plan.steps[i];
          if i < k then s.state == Completed && s.evidence.Some? && Proves(plan, s.id, s.evidence.value)
          else s.state == (if i == k then Ready else Pending) && s.evidence.None?)
  }

  predicate BelongsTo(plan: Plan, profile: Profile) {
    && plan.profileId == profile.profileId
    && plan.originalFirmware == profile.originalFirmware
    && plan.recovery == profile.recovery
    && |plan.steps| == StepCount(profile.board)
    && (forall i :: 0 <= i < |plan.steps| ==> plan.steps[i].id == StepAt(profile.board, i))
  }

  // Given the completed steps at the front and a clean slate behind them, the plan is in shape
  // exactly when the next step is the one ready step.
  predicate StartsDone(plan: Plan, done: nat, end: nat) {
    && done <= end <= |plan.steps|
    && (forall j :: 0 <= j < done ==> plan.steps[j].state == Completed && StepDone(plan, j))
    && (forall j :: done <= j < end ==> plan.steps[j].state != Completed && plan.steps[j].evidence.None?)
  }

  predicate StepDone(plan: Plan, i: nat)
    requires i < |plan.steps|
  {
    var s := plan.steps[i];
    s.state == Completed && s.evidence.Some? && Proves(plan, s.id, s.evidence.value)
  }

  predicate OnlyNextIsReady(plan: Plan, done: nat) {
    forall j :: done <= j < |plan.steps| ==> plan.steps[j].state == if j == done then Ready else Pending
  }

  lemma ShapeAt(plan: Plan, k: nat, i: nat)
    requires InShape(plan, k) && i < |plan.steps|
    ensures plan.steps[i].state == if i < k then Completed else if i == k then Ready else Pending
    ensures if i < k then StepDone(plan, i) else plan.steps[i].evidence.None?
  {
  }

  lemma ShapeIsOfDone(plan: Plan, done: nat)
    requires StartsDone(plan, done, |plan.steps|)
    ensures (exists k: nat :: InShape(plan, k)) <==> OnlyNextIsReady(plan, done)
  {
    if OnlyNextIsReady(plan, done) {
      assert InShape(plan, done);
    }
    if k: nat :| InShape(plan, k) {
      if done < |plan.steps| {
        ShapeAt(plan, k, done);
      }
      if k < |plan.steps| {
        ShapeAt(plan, k, k);
      }
      assert k == done;
    }
  }

  lemma CompletedAfterGap(plan: Plan, gap: nat, i: nat)
    requires gap < i < |plan.steps| && plan.steps[gap].state != Completed && plan.steps[i].state == Completed
    ensures forall k: nat :: !InShape(plan, k)
  {
  }

  lemma BadStep(plan: Plan, i: nat)
    requires i < |plan.steps|
    requires if plan.steps[i].state == Completed then !StepDone(plan, i) else plan.steps[i].evidence.Some?
    ensures forall k: nat :: !InShape(plan, k)
  {
  }

  // The loop over the steps: completed ones first, then at most one ready, then pending ones.
  method ValidateSteps(plan: Plan) returns (r: Result<(), PlanError>)
    ensures r.Ok? <==> exists k: nat :: InShape(plan, k)
  {
    var pendingStarted, readyCount := false, 0;
    ghost var done, ready, again := 0, 0, 0;
    for i := 0 to |plan.steps|
      invariant StartsDone(plan, done, i) && (pendingStarted <==> done < i)
      invariant ReadySoFar(plan, done, i, readyCount, ready, again)
    {
      var step := plan.steps[i];
      if step.state == Completed {
        if pendingStarted { CompletedAfterGap(plan, done, i); return Err(InvalidStepState); }
        var problem := CompletedProblem(plan, step);
        if problem.Some? { BadStep(plan, i); return Err(problem.value); }
        done := done + 1;
      } else {
        pendingStarted := true;
        if step.evidence.Some? { BadStep(plan, i); return Err(InvalidStepState); }
        if step.state == Ready {
          if readyCount == 0 { ready := i; } else { again := i; }
          readyCount := readyCount + 1;
        }
      }
    }
    ShapeIsOfDone(plan, done);
    if readyCount > 1 || (readyCount == 0 && !AllCompleted(plan)) {
      ReadyTwiceOrNever(plan, done, readyCount, ready, again);
      return Err(InvalidStepState);
    }
    var first := ReadyIndex(plan.steps);
    if first.Some? && exists i :: 0 <= i < first.value && plan.steps[i].state != Completed { return Err(InvalidStepState); }
    ReadyOnce(plan, done, readyCount, ready, again);
    return Ok(());
  }

  // The check every stored plan is read and written through: a plan passes exactly when it has the
  // profile's steps and some number of them completed in order.
  method ValidateFor(plan: Plan, profile: Profile) returns (r: Result<(), PlanError>)
    ensures r.Ok? <==> BelongsTo(plan, profile) && exists k: nat :: InShape(plan, k)
  {
    if plan.profileId != profile.profileId || plan.originalFirmware != profile.originalFirmware || plan.recovery != profile.recovery {
      return Err(ProfileMismatch);
    }
    if |plan.steps| != StepCount(profile.board) { return Err(InvalidStepSequence); }
    if exists i :: 0 <= i < |plan.steps| && plan.steps[i].id != StepAt(profile.board, i) { return Err(InvalidStepSequence); }
    r := ValidateSteps(plan);
  }

  // The objection to a step that claims to be completed.
  function CompletedProblem(plan: Plan, step: Step): (r: Option<PlanError>)
    ensures r.None? <==> step.evidence.Some? && Proves(plan, step.id, step.evidence.value)
  {
    if step.evidence.None? then Some(MissingEvidence)
    else
      var evidence := step.evidence.value;
      var rebuilt := NewEvidence(evidence.kind, evidence.value);
      if evidence.kind != ExpectedEvidence(step.id) then Some(WrongEvidence)
      else if rebuilt.Err? then Some(rebuilt.error)
      else if rebuilt.value != evidence then Some(EvidenceValueMismatch(step.id))
      else EvidenceProblem(plan, step.id, evidence)
  }

  predicate AllCompleted(plan: Plan) { forall i :: 0 <= i < |plan.steps| ==> plan.steps[i].state == Completed }

  // Where the first ready step is, and another one if there is another.
  predicate ReadySoFar(plan: Plan, done: nat, end: nat, count: nat, ready: nat, again: nat)
    requires done <= end <= |plan.steps|
  {
    && (count >= 1 ==> done <= ready < end && plan.steps[ready].state == Ready)
    && (count > 1 ==> ready < again < end && plan.steps[again].state == Ready)
    && (count <= 1 ==> forall j :: done <= j < end && !(count == 1 && j == ready) ==> plan.steps[j].state != Ready)
  }

  lemma ReadyTwiceOrNever(plan: Plan, done: nat, count: nat, ready: nat, again: nat)
    requires StartsDone(plan, done, |plan.steps|) && ReadySoFar(plan, done, |plan.steps|, count, ready, again)
    requires count > 1 || (count == 0 && !AllCompleted(plan))
    ensures !OnlyNextIsReady(plan, done)
  {
    if count == 0 {
      var j :| 0 <= j < |plan.steps| && plan.steps[j].state != Completed;
      assert done <= j;
      assert plan.steps[done].state != Ready;
    }
  }

  lemma ReadyOnce(plan: Plan, done: nat, count: nat, ready: nat, again: nat)
    requires StartsDone(plan, done, |plan.steps|) && ReadySoFar(plan, done, |plan.steps|, count, ready, again)
    requires count == 1 || (count == 0 && AllCompleted(plan))
    requires var first := ReadyIndex(plan.steps); first.Some? ==> forall i :: 0 <= i < first.value ==> plan.steps[i].state == Completed
    ensures OnlyNextIsReady(plan, done)
  {
    if count == 1 {
      var first := ReadyIndex(plan.steps).value;
      assert first == ready;
      assert plan.steps[done].state == Completed || done == ready;
    }
  }

  // ---------------------------------------------------------------- advancing

  lemma BuiltIsFresh(profile: Profile)
    ensures BelongsTo(Built(profile), profile) && InShape(Built(profile), 0) && Built(profile).revision == 0
  {
  }

  lemma ShapeReady(plan: Plan, k: nat)
    requires InShape(plan, k)
    ensures ReadyIndex(plan.steps) == if k < |plan.steps| then Some(k) else None
    ensures Active(plan) == if k < |plan.steps| then Some(plan.steps[k].id) else None
  {
    if k < |plan.steps| {
      assert plan.steps[k].state == Ready;
    }
  }

  // Completing succeeds exactly for the one ready step with evidence that proves it, and moves the
  // plan on by that step: everything before and after stays as it was.
  lemma CompleteAdvances(plan: Plan, k: nat, step: StepId, value: EvidenceValue)
    requires InShape(plan, k)
    ensures var evidence := NewEvidence(ExpectedEvidence(step), value);
            var next := Complete(plan, step, value);
            && (next.Ok? <==> k < |plan.steps| && plan.steps[k].id == step && evidence.Ok? && EvidenceProblem(plan, step, evidence.value).None?)
            && (next.Ok? ==>
                  && InShape(next.value, k + 1)
                  && next.value == plan.(steps := next.value.steps, revision := NextRevision(plan.revision))
                  && |next.value.steps| == |plan.steps|
                  && (forall i :: 0 <= i < |plan.steps| ==> next.value.steps[i].id == plan.steps[i].id)
                  && (forall i :: 0 <= i < |plan.steps| && i != k ==> next.value.steps[i].evidence == plan.steps[i].evidence)
                  && next.value.steps[k].evidence == Some(evidence.value))
  {
    ShapeReady(plan, k);
    TrimIsTrimmed(value);
    var next := Complete(plan, step, value);
    if next.Ok? {
      var evidence := NewEvidence(ExpectedEvidence(step), value).value;
      forall i | 0 <= i < |plan.steps|
        ensures StepMoved(plan, k, evidence, next.value, i)
      {
        AdvancedAt(plan, k, evidence, next.value, i);
      }
      MovedIsInShape(plan, k, evidence, next.value);
    }
  }

  predicate StepMoved(plan: Plan, k: nat, evidence: Evidence, next: Plan, i: nat)
    requires i < |plan.steps| == |next.steps|
  {
    && next.steps[i].id == plan.steps[i].id
    && next.steps[i].state == (if i <= k then Completed else if i == k + 1 then Ready else Pending)
    && next.steps[i].evidence == (if i == k then Some(evidence) else plan.steps[i].evidence)
    && if i <= k then StepDone(next, i) else next.steps[i].evidence.None?
  }

  lemma AdvancedAt(plan: Plan, k: nat, evidence: Evidence, next: Plan, i: nat)
    requires InShape(plan, k) && k < |plan.steps| && i < |plan.steps| && Proves(plan, plan.steps[k].id, evidence)
    requires next == plan.(steps := Advanced(plan.steps, k, evidence), revision := next.revision)
    ensures StepMoved(plan, k, evidence, next, i)
  {
    ShapeAt(plan, k, i);
  }

  lemma MovedIsInShape(plan: Plan, k: nat, evidence: Evidence, next: Plan)
    requires k < |plan.steps| == |next.steps|
    requires forall i :: 0 <= i < |plan.steps| ==> next.steps[i].id == plan.steps[i].id && StepMoved(plan, k, evidence, next, i)
    ensures InShape(next, k + 1)
    ensures forall i :: 0 <= i < |plan.steps| && i != k ==> next.steps[i].evidence == plan.steps[i].evidence
    ensures next.steps[k].evidence == Some(evidence)
  {
  }

  lemma {:induction false} TrimEndOnce(text: string)
    ensures TrimEnd(TrimEnd(text)) == TrimEnd(text)
  {
    if text != [] && IsSpace(text[|text| - 1]) {
      TrimEndOnce(text[..|text| - 1]);
    }
  }

  lemma {:induction false} TrimStartOnce(text: string)
    ensures TrimStart(text) == [] || !IsSpace(TrimStart(text)[0])
  {
    if text != [] && IsSpace(text[0]) {
      TrimStartOnce(text[1..]);
    }
  }

  lemma {:induction false} TrimEndKeepsStart(text: string)
    ensures TrimEnd(text) == [] || (text != [] && TrimEnd(text)[0] == text[0])
  {
    if text != [] && IsSpace(text[|text| - 1]) {
      TrimEndKeepsStart(text[..|text| - 1]);
    }
  }

  // Trimming twice is trimming once, so stored evidence rebuilds to itself.
  lemma TrimIsTrimmed(value: EvidenceValue)
    ensures value.Text? ==> Trim(Trim(value.text)) == Trim(value.text)
  {
    if value.Text? {
      TrimStartOnce(value.text);
      TrimEndKeepsStart(TrimStart(value.text));
      TrimEndOnce(TrimStart(value.text));
    }
  }

  // One plan is a later state of another: the same plan with at least the same steps completed on
  // the same evidence.
  predicate Extends(earlier: Plan, later: Plan) {
    && later == earlier.(revision := later.revision, steps := later.steps)
    && |later.steps| == |earlier.steps|
    && (forall i :: 0 <= i < |earlier.steps| ==>
          && later.steps[i].id == earlier.steps[i].id
          && (earlier.steps[i].state == Completed ==>
                later.steps[i].state == Completed && later.steps[i].evidence == earlier.steps[i].evidence))
  }

  lemma CompleteExtends(plan: Plan, k: nat, step: StepId, value: EvidenceValue)
    requires InShape(plan, k) && Complete(plan, step, value).Ok?
    ensures Extends(plan, Complete(plan, step, value).value)
  {
    CompleteAdvances(plan, k, step, value);
    var next := Complete(plan, step, value).value;
    forall i | 0 <= i < |plan.steps| && plan.steps[i].state == Completed
      ensures next.steps[i].state == Completed && next.steps[i].evidence == plan.steps[i].evidence
    {
      ShapeAt(plan, k, i);
      ShapeAt(next, k + 1, i);
    }
  }

  lemma ExtendsFurther(a: Plan, b: Plan, c: Plan)
    requires Extends(a, b) && Extends(b, c)
    ensures Extends(a, c)
  {
  }
}
