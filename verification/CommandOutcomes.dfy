// What each guarded command leaves on record when it goes through, and exactly when that is.
module CommandOutcomes {
  import opened Prelude
  import opened Hardware
  import opened BarRules
  import opened CoreConfig
  import opened Recommendation
  import opened Identity
  import opened DeploymentPlan
  import opened PlanStore
  import opened Workflow
  import opened WorkflowRuns
  import opened DeploymentRuns
  import Saving = SaveSettings

  // ---------------------------------------------------------------- one finding

  // A command that records one finding goes through exactly if its step is the next one, the evidence
  // holds up and the disk takes the record; then the plan is one step further with that evidence.
  predicate OneRecorded(profile: Profile, plan: Plan, i: nat, value: EvidenceValue, after: Plan) {
    StageIs(after, profile, i + 1) && Extends(plan, after) && Holds(after, i, value)
  }

  predicate NeedsNoProof(step: StepId) {
    step == FlashWithVendorRoute || step == ConfigureFirmwareSetup || step == WriteNvstrapsConfiguration || step == VerifyResizableBar
    || step == ConfigureNvidiaApplications || step == VerifyDriverLoaded
  }

  lemma OneFinding(profile: Profile, plan: Plan, finding: Finding, diskWrites: nat)
    requires StageIs(plan, profile, plan.revision) && NeedsNoProof(finding.step) && !finding.value.Text?
    ensures var (ok, after) := RecordAll(plan, [finding], diskWrites);
            && (ok <==> Active(plan) == Some(finding.step) && diskWrites >= 1)
            && (ok ==> OneRecorded(profile, plan, plan.revision, finding.value, after))
            && (!ok ==> after == plan)
  {
    RecordOne(plan, finding, diskWrites);
    ShapeReady(plan, plan.revision);
    CompleteAdvances(plan, plan.revision, finding.step, finding.value);
    if Complete(plan, finding.step, finding.value).Ok? {
      CompletesOneMore(profile, plan, finding);
    }
  }

  // ---------------------------------------------------------------- the guarded save

  lemma MaySaveMeans(profile: Profile, d: Deployment, w: World, draft: ConfigDraft, registry: Registry)
    requires StageIs(d.plan, profile, d.plan.revision) && LoadExact(profile, d.plan, w).Some?
    ensures MaySave(d.plan, w, LoadExact(profile, d.plan, w).value, draft, registry) <==>
              && d.plan.revision == ConfigAt(profile) && w.devices.Some? && w.devicesAtWrite == w.devices
              && Recommendable(w.devices.value, registry) && draft == RecommendedDraft(w.devices.value, registry)
  {
    ActiveStep(profile, d.plan);
    StepPlaces(profile);
  }

  lemma SavingRuns(profile: Profile, registry: Registry, d: Deployment, w: World, draft: ConfigDraft)
    requires LoadExact(profile, d.plan, w).Some?
    ensures var exact := LoadExact(profile, d.plan, w).value;
            && exact.devices == w.devices.value
            && Run(SaveConfig(draft), w, profile, registry, d) == SavingConfig(profile, draft, w, exact, registry, d)
  {
    var exact := LoadExact(profile, d.plan, w).value;
    ExactDevices(profile, d.plan, w);
    RunsOnceLoaded(profile, registry, d, SaveConfig(draft), w, exact);
    SaveIsAdmitted(profile, registry, d, w, draft, exact);
  }

  lemma SaveIsAdmitted(profile: Profile, registry: Registry, d: Deployment, w: World, draft: ConfigDraft, exact: Exact)
    ensures Admitted(SaveConfig(draft), w, profile, exact, registry, d) == SavingConfig(profile, draft, w, exact, registry, d)
  {
  }

  lemma SavingRecordsTime(profile: Profile, registry: Registry, d: Deployment, w: World, draft: ConfigDraft, exact: Exact)
    ensures var outcome := SavingConfig(profile, draft, w, exact, registry, d);
            var (ok, after) := RecordAll(d.plan, [Finding(WriteNvstrapsConfiguration, Moment(w.savedAt))], w.diskWrites);
            if MaySave(d.plan, w, exact, draft, registry)
               && Saving.SavedForDevices(draft, exact.devices, w.around, registry, d.saved).0.Ok?
            then outcome.ok == ok && outcome.after.plan == after && outcome.wroteConfig
            else !outcome.ok && outcome.after.plan == d.plan
  {
  }

  // The guarded save goes through exactly if its step is the active one, the inventory is the one the
  // command started from, the draft is the recommended one, the write went through, and the disk takes
  // the record.
  lemma SavingSucceeds(profile: Profile, registry: Registry, d: Deployment, w: World, draft: ConfigDraft)
    requires StageIs(d.plan, profile, d.plan.revision) && LoadExact(profile, d.plan, w).Some?
    ensures Run(SaveConfig(draft), w, profile, registry, d).ok <==>
              && d.plan.revision == ConfigAt(profile) && w.devices.Some? && w.devicesAtWrite == w.devices
              && Recommendable(w.devices.value, registry) && draft == RecommendedDraft(w.devices.value, registry)
              && Saving.SavedForDevices(draft, w.devices.value, w.around, registry, d.saved).0.Ok?
              && w.diskWrites >= 1
  {
    var exact := LoadExact(profile, d.plan, w).value;
    MaySaveMeans(profile, d, w, draft, registry);
    SavingRuns(profile, registry, d, w, draft);
    SavingRecordsTime(profile, registry, d, w, draft, exact);
    SaveFinding(profile, d.plan, w);
  }

  lemma SaveFinding(profile: Profile, plan: Plan, w: World)
    requires StageIs(plan, profile, plan.revision)
    ensures var (ok, after) := RecordAll(plan, [Finding(WriteNvstrapsConfiguration, Moment(w.savedAt))], w.diskWrites);
            && (ok <==> plan.revision == ConfigAt(profile) && w.diskWrites >= 1)
            && (if ok then OneRecorded(profile, plan, ConfigAt(profile), Moment(w.savedAt), after) else after == plan)
  {
    ActiveStep(profile, plan);
    StepPlaces(profile);
    OneFinding(profile, plan, Finding(WriteNvstrapsConfiguration, Moment(w.savedAt)), w.diskWrites);
  }

  // It then leaves the time of that save as the next evidence; and whenever it does not go through,
  // the plan stays as it was.
  lemma SavingLeaves(profile: Profile, registry: Registry, d: Deployment, w: World, draft: ConfigDraft)
    requires StageIs(d.plan, profile, d.plan.revision)
    ensures var outcome := Run(SaveConfig(draft), w, profile, registry, d);
            if outcome.ok then
              OneRecorded(profile, d.plan, ConfigAt(profile), Moment(w.savedAt), outcome.after.plan)
              && d.plan.revision == ConfigAt(profile) && outcome.wroteConfig
            else outcome.after.plan == d.plan
  {
    if LoadExact(profile, d.plan, w).None? {
      assert Run(SaveConfig(draft), w, profile, registry, d) == Workflow.Refused(d);
    } else {
      SavingRuns(profile, registry, d, w, draft);
      SavingRecordsTime(profile, registry, d, w, draft, LoadExact(profile, d.plan, w).value);
      SaveFinding(profile, d.plan, w);
    }
  }

  // ---------------------------------------------------------------- operator steps and observations

  lemma ManualRuns(profile: Profile, registry: Registry, d: Deployment, w: World, step: StepId, token: ConfirmationToken, confirmed: bool)
    requires LoadExact(profile, d.plan, w).Some?
    ensures Run(ConfirmManual(step, token, confirmed), w, profile, registry, d)
         == Recording(d, ManualFindings(profile, d.plan, w, ConfirmManual(step, token, confirmed)), w)
  {
    RunsOnceLoaded(profile, registry, d, ConfirmManual(step, token, confirmed), w, LoadExact(profile, d.plan, w).value);
  }

  // An operator's confirmation goes through exactly if its step is active and one of the three operator
  // steps, it was given, its token names that step in this profile's plan at this revision, the firmware
  // to be flashed and its route are in order, and the disk takes the record.
  lemma ManualSucceeds(profile: Profile, registry: Registry, d: Deployment, w: World, step: StepId, token: ConfirmationToken, confirmed: bool)
    requires StageIs(d.plan, profile, d.plan.revision) && LoadExact(profile, d.plan, w).Some?
    ensures Run(ConfirmManual(step, token, confirmed), w, profile, registry, d).ok <==>
              && Active(d.plan) == Some(step) && confirmed && w.diskWrites >= 1
              && token.step == step && token.profileId == profile.profileId && token.revision == d.plan.revision
              && (|| step == ConfigureFirmwareSetup || step == ConfigureNvidiaApplications
                  || (step == FlashWithVendorRoute && w.artifactsValid && profile.hasInstallRoute))
  {
    var command := ConfirmManual(step, token, confirmed);
    ManualRuns(profile, registry, d, w, step, token, confirmed);
    RecordingIs(d, ManualFindings(profile, d.plan, w, command), w);
    if ManualFindings(profile, d.plan, w, command).Some? {
      OneFinding(profile, d.plan, Finding(step, Attested(w.now)), w.diskWrites);
    }
  }

  lemma ManualLeaves(profile: Profile, registry: Registry, d: Deployment, w: World, step: StepId, token: ConfirmationToken, confirmed: bool)
    requires StageIs(d.plan, profile, d.plan.revision)
    ensures var outcome := Run(ConfirmManual(step, token, confirmed), w, profile, registry, d);
            && (if outcome.ok then OneRecorded(profile, d.plan, d.plan.revision, Attested(w.now), outcome.after.plan)
                else outcome.after.plan == d.plan)
            && outcome.after.saved == d.saved
  {
    if LoadExact(profile, d.plan, w).Some? {
      var command := ConfirmManual(step, token, confirmed);
      ManualRuns(profile, registry, d, w, step, token, confirmed);
      if ManualFindings(profile, d.plan, w, command).Some? {
        OneFinding(profile, d.plan, Finding(step, Attested(w.now)), w.diskWrites);
      }
    }
  }

  lemma BarRuns(profile: Profile, registry: Registry, d: Deployment, w: World, digest: Digest)
    requires LoadExact(profile, d.plan, w).Some?
    ensures Run(CollectBarEvidence(digest), w, profile, registry, d) == Recording(d, BarFindings(d.plan, digest), w)
  {
    var exact := LoadExact(profile, d.plan, w).value;
    RunsOnceLoaded(profile, registry, d, CollectBarEvidence(digest), w, exact);
    BarIsAdmitted(profile, registry, d, w, digest, exact);
  }

  lemma BarIsAdmitted(profile: Profile, registry: Registry, d: Deployment, w: World, digest: Digest, exact: Exact)
    ensures Admitted(CollectBarEvidence(digest), w, profile, exact, registry, d) == Recording(d, BarFindings(d.plan, digest), w)
  {
  }

  // The observed BAR sizes are recorded, under their digest, exactly while their step is active and the
  // disk takes the record.
  lemma BarEvidenceRecorded(profile: Profile, registry: Registry, d: Deployment, w: World, digest: Digest)
    requires StageIs(d.plan, profile, d.plan.revision) && LoadExact(profile, d.plan, w).Some?
    ensures var outcome := Run(CollectBarEvidence(digest), w, profile, registry, d);
            && (outcome.ok <==> Active(d.plan) == Some(VerifyResizableBar) && w.diskWrites >= 1)
            && (if outcome.ok then OneRecorded(profile, d.plan, d.plan.revision, Hash(digest), outcome.after.plan)
                else outcome.after.plan == d.plan)
  {
    BarRuns(profile, registry, d, w, digest);
    OneFinding(profile, d.plan, Finding(VerifyResizableBar, Hash(digest)), w.diskWrites);
  }

  // ---------------------------------------------------------------- driver verification

  // Entered before the firmware boot is on record, driver verification records that boot with the
  // identity it saw, and then the status.
  lemma DriverVerificationLeaves(profile: Profile, registry: Registry, d: Deployment, w: World)
    requires StageIs(d.plan, profile, d.plan.revision) && LoadExact(profile, d.plan, w).Some? && Run(VerifyDriver, w, profile, registry, d).ok
    ensures var after := Run(VerifyDriver, w, profile, registry, d).after.plan;
            && Extends(d.plan, after)
            && (d.plan.revision == FirmwareBootAt(profile) ==>
                  Holds(after, FirmwareBootAt(profile), Boot(BootObservation(w.now, LoadExact(profile, d.plan, w).value.identity))))
  {
    var exact := LoadExact(profile, d.plan, w).value;
    VerificationsRecord(profile, registry, d, w, exact);
    RecordingIs(d, DriverFindings(d.plan, w, exact), w);
    DriverRecorded(profile, d.plan, w, exact);
  }

  lemma DriverRecorded(profile: Profile, plan: Plan, w: World, exact: Exact)
    requires StageIs(plan, profile, plan.revision) && DriverFindings(plan, w, exact).Some?
    requires RecordAll(plan, DriverFindings(plan, w, exact).value, w.diskWrites).0
    ensures var after := RecordAll(plan, DriverFindings(plan, w, exact).value, w.diskWrites).1;
            && Extends(plan, after)
            && (plan.revision == FirmwareBootAt(profile) ==> Holds(after, FirmwareBootAt(profile), Boot(BootObservation(w.now, exact.identity))))
  {
    ActiveStep(profile, plan);
    StepPlaces(profile);
    var status := Finding(VerifyDriverLoaded, Status(DriverStatusRaw(w).value));
    if Active(plan) == Some(VerifyDriverLoaded) {
      assert DriverFindings(plan, w, exact).value == [status];
      OneFinding(profile, plan, status, w.diskWrites);
    } else {
      BootThenStatus(profile, plan, BootObservation(w.now, exact.identity), status, w.diskWrites);
    }
  }

  lemma BootThenStatus(profile: Profile, plan: Plan, boot: BootObservation, status: Finding, diskWrites: nat)
    requires StageIs(plan, profile, plan.revision) && plan.revision == FirmwareBootAt(profile)
    requires status.step == VerifyDriverLoaded && status.value.Status?
    requires RecordAll(plan, [Finding(RebootAfterFirmware, Boot(boot)), status], diskWrites).0
    ensures var after := RecordAll(plan, [Finding(RebootAfterFirmware, Boot(boot)), status], diskWrites).1;
            Extends(plan, after) && Holds(after, FirmwareBootAt(profile), Boot(boot))
  {
    var finding := Finding(RebootAfterFirmware, Boot(boot));
    FirstRecorded(plan, [finding, status], diskWrites);
    assert [finding, status][1..] == [status];
    CompletesOneMore(profile, plan, finding);
    var next := Complete(plan, finding.step, finding.value).value;
    OneFinding(profile, next, status, diskWrites - 1);
    HasValue(profile, next, FirmwareBootAt(profile));
  }

  // ---------------------------------------------------------------- provisioning

  lemma IsDone(profile: Profile, plan: Plan, i: nat)
    requires StageIs(plan, profile, plan.revision) && i < |plan.steps|
    ensures IsCompleted(plan, StepAt(profile.board, i)) <==> i < plan.revision
  {
    if i < plan.revision {
      ShapeAt(plan, plan.revision, i);
      assert plan.steps[i] in plan.steps;
    } else if IsCompleted(plan, StepAt(profile.board, i)) {
      var s :| s in plan.steps && s.id == StepAt(profile.board, i) && s.state == Completed;
      var j :| 0 <= j < |plan.steps| && plan.steps[j] == s;
      ShapeAt(plan, plan.revision, j);
      StepsAreDistinct(profile.board, j, i);
    }
  }

  predicate Plain(text: string) { Trim(text) == text != "" }

  // The evidence of the first three steps.
  function EntryEvidence(profile: Profile, i: nat): EvidenceValue {
    if i == 0 then Text(profile.profileId) else if i == 1 then Text(profile.recovery) else Hash(profile.originalFirmware)
  }

  predicate EntryHoldsUp(profile: Profile, i: nat) {
    (i == 0 ==> Plain(profile.profileId)) && (i == 1 ==> Plain(profile.recovery))
  }

  lemma EntryCompletes(profile: Profile, plan: Plan, i: nat)
    requires StageIs(plan, profile, plan.revision) && plan.revision == i < 3
    ensures var next := Complete(plan, StepAt(profile.board, i), EntryEvidence(profile, i));
            && (next.Ok? <==> EntryHoldsUp(profile, i))
            && (next.Ok? ==> OneRecorded(profile, plan, i, EntryEvidence(profile, i), next.value))
  {
    var step, value := StepAt(profile.board, i), EntryEvidence(profile, i);
    CompleteAdvances(plan, i, step, value);
    if Complete(plan, step, value).Ok? {
      CompletesOneMore(profile, plan, Finding(step, value));
    }
  }

  // The entries still to be made, from the i-th on.
  function EntriesFrom(profile: Profile, i: nat): seq<Finding>
    decreases 3 - i
  {
    if i >= 3 then [] else [Finding(StepAt(profile.board, i), EntryEvidence(profile, i))] + EntriesFrom(profile, i + 1)
  }

  lemma ProvisioningRecordsEntries(profile: Profile, plan: Plan)
    requires StageIs(plan, profile, plan.revision)
    ensures ProvisionFindings(profile, plan) == EntriesFrom(profile, plan.revision)
  {
    IsDone(profile, plan, 0);
    IsDone(profile, plan, 1);
    IsDone(profile, plan, 2);
    assert EntriesFrom(profile, 3) == [];
  }

  predicate EntriesHoldUp(profile: Profile, i: nat) {
    (i <= 0 ==> EntryHoldsUp(profile, 0)) && (i <= 1 ==> EntryHoldsUp(profile, 1))
  }

  ghost predicate EntriesMade(profile: Profile, plan: Plan, after: Plan) {
    && StageIs(after, profile, if plan.revision < 3 then 3 else plan.revision) && Extends(plan, after)
    && forall i :: plan.revision as int <= i < 3 ==> Holds(after, i, EntryEvidence(profile, i))
  }

  ghost predicate EntriesEnd(profile: Profile, plan: Plan, diskWrites: nat, ok: bool, after: Plan) {
    && (ok <==> EntriesHoldUp(profile, plan.revision) && diskWrites as int >= 3 - plan.revision as int)
    && (ok ==> EntriesMade(profile, plan, after))
  }

  lemma {:induction false} EntriesRecord(profile: Profile, plan: Plan, diskWrites: nat)
    requires StageIs(plan, profile, plan.revision)
    ensures var (ok, after) := RecordAll(plan, EntriesFrom(profile, plan.revision), diskWrites);
            EntriesEnd(profile, plan, diskWrites, ok, after)
    decreases 3 - plan.revision as int
  {
    if plan.revision >= 3 {
      ExtendsItself(plan);
    } else {
      var entry := Finding(StepAt(profile.board, plan.revision), EntryEvidence(profile, plan.revision));
      var rest := EntriesFrom(profile, plan.revision + 1);
      EntryCompletes(profile, plan, plan.revision);
      RecordsRest(plan, entry, rest, diskWrites);
      if Complete(plan, entry.step, entry.value).Ok? && diskWrites > 0 {
        var next := Complete(plan, entry.step, entry.value).value;
        EntriesRecord(profile, next, diskWrites - 1);
        var (ok, after) := RecordAll(next, rest, diskWrites - 1);
        EntriesEndFurther(profile, plan, next, diskWrites, ok, after);
      }
    }
  }

  lemma EntriesEndFurther(profile: Profile, plan: Plan, next: Plan, diskWrites: nat, ok: bool, after: Plan)
    requires StageIs(plan, profile, plan.revision) && plan.revision < 3 && EntryHoldsUp(profile, plan.revision) && diskWrites > 0
    requires OneRecorded(profile, plan, plan.revision, EntryEvidence(profile, plan.revision), next)
    requires EntriesEnd(profile, next, diskWrites - 1, ok, after)
    ensures EntriesEnd(profile, plan, diskWrites, ok, after)
  {
    EntriesGoOn(profile, plan, next, after);
  }

  lemma EntriesGoOn(profile: Profile, plan: Plan, next: Plan, after: Plan)
    requires StageIs(plan, profile, plan.revision) && plan.revision < 3
    requires OneRecorded(profile, plan, plan.revision, EntryEvidence(profile, plan.revision), next)
    ensures EntriesMade(profile, next, after) ==> EntriesMade(profile, plan, after)
  {
    if EntriesMade(profile, next, after) {
      StillHolds(profile, next, after, plan.revision, EntryEvidence(profile, plan.revision));
      ExtendsFurther(plan, next, after);
    }
  }

  lemma ExtendsFurther(a: Plan, b: Plan, c: Plan)
    requires Extends(a, b) && Extends(b, c)
    ensures Extends(a, c)
  {
  }

  lemma ExtendsItself(plan: Plan)
    ensures Extends(plan, plan)
  {
  }

  // Provisioning goes through exactly if the texts still to be recorded stand as they are and the disk
  // takes the open ones of the first three steps; it then leaves those steps completed on the profile's
  // id, recovery note and original firmware, and nothing else changed.
  lemma ProvisioningLeaves(profile: Profile, registry: Registry, d: Deployment, w: World)
    requires StageIs(d.plan, profile, d.plan.revision)
    ensures var outcome := Run(Provision, w, profile, registry, d);
            && (outcome.ok <==> EntriesHoldUp(profile, d.plan.revision) && w.diskWrites as int >= 3 - d.plan.revision as int)
            && (outcome.ok ==> EntriesMade(profile, d.plan, outcome.after.plan))
            && outcome.after.saved == d.saved
  {
    ProvisioningRecordsEntries(profile, d.plan);
    EntriesRecord(profile, d.plan, w.diskWrites);
  }

  // ---------------------------------------------------------------- what completed steps stand on

  // In a plan in shape, whatever wrote it, the first three steps stand on the profile's own id, recovery
  // note and firmware, prepared images on a digest, and restarts on a dated boot.
  lemma CompletedStepsStandOn(profile: Profile, plan: Plan, i: nat)
    requires StageIs(plan, profile, plan.revision) && i < plan.revision
    ensures i < |plan.steps| && plan.steps[i].evidence.Some? && plan.steps[i].evidence.value.kind == ExpectedEvidence(StepAt(profile.board, i))
    ensures i < 3 ==> ValueAt(plan, i) == EntryEvidence(profile, i)
    ensures IsPreparation(StepAt(profile.board, i)) ==> ValueAt(plan, i).Hash?
    ensures i == FirmwareBootAt(profile) || i == ConfigBootAt(profile) ==>
              ValueAt(plan, i).Boot? && ValueAt(plan, i).observation.observedAt > 0
    ensures ValueAt(plan, i).Text? ==> Plain(ValueAt(plan, i).text)
  {
    ShapeAt(plan, plan.revision, i);
    StepPlaces(profile);
    assert plan.steps[i].id == StepAt(profile.board, i);
  }

  // ---------------------------------------------------------------- refused commands

  // A command the gate does not let through changes nothing; every other one but provisioning is marked
  // as let through, whatever becomes of it.
  lemma GateComesFirst(command: Command, w: World, profile: Profile, registry: Registry, d: Deployment)
    requires !command.Provision?
    ensures var outcome := Run(command, w, profile, registry, d);
            && (outcome.admitted <==> LoadExact(profile, d.plan, w).Some?)
            && (!outcome.admitted ==> !outcome.ok && !outcome.wroteConfig && outcome.after == d)
  {
  }

  // ---------------------------------------------------------------- the save behind a restart

  // The first action of a run that takes the plan past the write step is a guarded save that went
  // through, and the time on record is its own.
  ghost predicate SavedIn(actions: seq<Action>, profile: Profile, registry: Registry, d: Deployment, savedAt: u64) {
    exists i :: 0 <= i < |actions| && SavesAt(actions, i, profile, registry, d, savedAt)
  }

  predicate SavesAt(actions: seq<Action>, i: nat, profile: Profile, registry: Registry, d: Deployment, savedAt: u64)
    requires i < |actions|
  {
    && actions[i].command.SaveConfig? && actions[i].world.savedAt == savedAt
    && Run(actions[i].command, actions[i].world, profile, registry, AfterActions(actions[..i], profile, registry, d)).ok
  }

  predicate NoSaveAmong(findings: seq<Finding>) { forall f :: f in findings ==> f.step != WriteNvstrapsConfiguration }

  // The write step is only completed by its own finding.
  lemma NotPastSave(profile: Profile, plan: Plan, findings: seq<Finding>, diskWrites: nat)
    requires StageIs(plan, profile, plan.revision) && plan.revision <= ConfigAt(profile) && NoSaveAmong(findings)
    ensures var after := RecordAll(plan, findings, diskWrites).1;
            StageIs(after, profile, after.revision) && after.revision <= ConfigAt(profile)
  {
    var kept := (p: Plan) => StageIs(p, profile, p.revision) && p.revision <= ConfigAt(profile);
    forall p, f | kept(p) && f in findings && Complete(p, f.step, f.value).Ok?
      ensures kept(Complete(p, f.step, f.value).value)
    {
      CompletesOneMore(profile, p, f);
      StepPlaces(profile);
    }
    RecordAllKeeps(plan, findings, diskWrites, kept);
  }

  lemma GuardedDoNotSave(command: Command, world: World, profile: Profile, exact: Exact, registry: Registry, plan: Plan)
    requires !command.SaveConfig? && !command.Provision?
    ensures NoSaveAmong(GuardedFindings(command, world, profile, exact, registry, plan))
  {
    match command
    case Prepare(digests) =>
      PreparesOnly(plan.steps);
      FindsOnly(OpenPreparation(plan.steps), digests);
    case ConfirmManual(_, _, _) => ManualDoNotSave(profile, plan, world, command);
    case _ =>
  }

  lemma ManualDoNotSave(profile: Profile, plan: Plan, world: World, command: Command)
    requires command.ConfirmManual?
    ensures NoSaveAmong(Decided(ManualFindings(profile, plan, world, command)))
  {
  }

  lemma ProvisioningDoesNotSave(profile: Profile, plan: Plan)
    ensures NoSaveAmong(ProvisionFindings(profile, plan))
  {
  }

  lemma OthersDoNotSave(command: Command, world: World, profile: Profile, registry: Registry, plan: Plan)
    requires !command.SaveConfig?
    ensures NoSaveAmong(FindingsOf(command, world, profile, registry, plan))
  {
    if command.Provision? {
      ProvisioningDoesNotSave(profile, plan);
    } else if LoadExact(profile, plan, world).Some? {
      GuardedDoNotSave(command, world, profile, LoadExact(profile, plan, world).value, registry, plan);
    }
  }

  lemma PastSaveAtOnce(action: Action, profile: Profile, registry: Registry, d: Deployment)
    requires Evidenced(profile, d.plan) && d.plan.revision <= ConfigAt(profile)
    requires Run(action.command, action.world, profile, registry, d).after.plan.revision > ConfigAt(profile)
    ensures action.command.SaveConfig? && Run(action.command, action.world, profile, registry, d).ok
    ensures Holds(Run(action.command, action.world, profile, registry, d).after.plan, ConfigAt(profile), Moment(action.world.savedAt))
  {
    if action.command.SaveConfig? {
      SavingLeaves(profile, registry, d, action.world, action.command.draft);
    } else {
      var writes := CommandRecords(action.command, action.world, profile, registry, d);
      OthersDoNotSave(action.command, action.world, profile, registry, d.plan);
      NotPastSave(profile, d.plan, FindingsOf(action.command, action.world, profile, registry, d.plan), writes);
    }
  }

  lemma {:induction false} RunSaves(actions: seq<Action>, profile: Profile, registry: Registry, d: Deployment) returns (savedAt: u64)
    requires Evidenced(profile, d.plan) && d.plan.revision <= ConfigAt(profile)
    requires AfterActions(actions, profile, registry, d).plan.revision > ConfigAt(profile)
    ensures SavedIn(actions, profile, registry, d, savedAt)
    ensures Holds(AfterActions(actions, profile, registry, d).plan, ConfigAt(profile), Moment(savedAt))
    decreases |actions|
  {
    var next := Run(actions[0].command, actions[0].world, profile, registry, d).after;
    CommandKeepsEvidence(actions[0].command, actions[0].world, profile, registry, d);
    if next.plan.revision > ConfigAt(profile) {
      SavedAtOnce(actions, profile, registry, d);
      savedAt := actions[0].world.savedAt;
    } else {
      savedAt := RunSaves(actions[1..], profile, registry, next);
      SavedLater(actions, profile, registry, d, savedAt);
    }
  }

  lemma SavedAtOnce(actions: seq<Action>, profile: Profile, registry: Registry, d: Deployment)
    requires actions != [] && Evidenced(profile, d.plan) && d.plan.revision <= ConfigAt(profile)
    requires Run(actions[0].command, actions[0].world, profile, registry, d).after.plan.revision > ConfigAt(profile)
    ensures SavedIn(actions, profile, registry, d, actions[0].world.savedAt)
    ensures Holds(AfterActions(actions, profile, registry, d).plan, ConfigAt(profile), Moment(actions[0].world.savedAt))
  {
    var first := actions[0];
    var next := Run(first.command, first.world, profile, registry, d).after;
    CommandKeepsEvidence(first.command, first.world, profile, registry, d);
    PastSaveAtOnce(first, profile, registry, d);
    assert actions[..0] == [];
    assert SavesAt(actions, 0, profile, registry, d, first.world.savedAt);
    ActionsKeepEvidence(actions[1..], profile, registry, next);
    StillHolds(profile, next.plan, AfterActions(actions[1..], profile, registry, next).plan, ConfigAt(profile), Moment(first.world.savedAt));
  }

  lemma SavedLater(actions: seq<Action>, profile: Profile, registry: Registry, d: Deployment, savedAt: u64)
    requires actions != []
    requires SavedIn(actions[1..], profile, registry, Run(actions[0].command, actions[0].world, profile, registry, d).after, savedAt)
    ensures SavedIn(actions, profile, registry, d, savedAt)
  {
    var next := Run(actions[0].command, actions[0].world, profile, registry, d).after;
    var i :| 0 <= i < |actions[1..]| && SavesAt(actions[1..], i, profile, registry, next, savedAt);
    SavesShift(actions, i, profile, registry, d, savedAt);
  }

  lemma SavesShift(actions: seq<Action>, i: nat, profile: Profile, registry: Registry, d: Deployment, savedAt: u64)
    requires i + 1 < |actions|
    requires SavesAt(actions[1..], i, profile, registry, Run(actions[0].command, actions[0].world, profile, registry, d).after, savedAt)
    ensures SavesAt(actions, i + 1, profile, registry, d, savedAt)
  {
    AfterTail(actions, i, profile, registry, d);
  }

  lemma AfterTail(actions: seq<Action>, i: nat, profile: Profile, registry: Registry, d: Deployment)
    requires i < |actions|
    ensures AfterActions(actions[..i + 1], profile, registry, d)
         == AfterActions(actions[1..][..i], profile, registry, Run(actions[0].command, actions[0].world, profile, registry, d).after)
  {
    assert actions[..i + 1][0] == actions[0] && actions[..i + 1][1..] == actions[1..][..i];
  }

  lemma StillHolds(profile: Profile, plan: Plan, after: Plan, i: nat, value: EvidenceValue)
    requires StageIs(plan, profile, plan.revision) && Extends(plan, after) && i < plan.revision && Holds(plan, i, value)
    ensures Holds(after, i, value)
  {
    HasValue(profile, plan, i);
  }

  // The restart on record is a boot later than that save, whose time is on record.
  ghost predicate RestartedAfter(profile: Profile, plan: Plan, savedAt: u64) {
    && Holds(plan, ConfigAt(profile), Moment(savedAt))
    && exists boot: BootObservation :: Holds(plan, ConfigBootAt(profile), Boot(boot)) && boot.observedAt > savedAt
  }

  lemma RestartOnRecord(profile: Profile, plan: Plan, savedAt: u64)
    requires Evidenced(profile, plan) && plan.revision > ConfigBootAt(profile) && Holds(plan, ConfigAt(profile), Moment(savedAt))
    ensures RestartedAfter(profile, plan, savedAt)
  {
    SoundRestart(profile, plan);
  }

  // Over every run: a completed configuration restart is a boot later than the time of a guarded save
  // that went through in that run, which is the time on record.
  lemma RestartIsAfterItsSave(actions: seq<Action>, profile: Profile, registry: Registry, saved: Saving.State)
    ensures var start := Deployment(Built(profile), saved);
            var plan := AfterActions(actions, profile, registry, start).plan;
            plan.revision > ConfigBootAt(profile) ==>
              exists savedAt: u64 :: SavedIn(actions, profile, registry, start, savedAt) && RestartedAfter(profile, plan, savedAt)
  {
    var start := Deployment(Built(profile), saved);
    var plan := AfterActions(actions, profile, registry, start).plan;
    BuiltIsSound(profile);
    ActionsKeepEvidence(actions, profile, registry, start);
    if plan.revision > ConfigBootAt(profile) {
      var savedAt := RunSaves(actions, profile, registry, start);
      RestartOnRecord(profile, plan, savedAt);
    }
  }
}
