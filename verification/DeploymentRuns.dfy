// Whole runs of deployment commands: which identity fields can move when, and what the order of the
// recorded evidence guarantees.
module DeploymentRuns {
  import opened Prelude
  import opened Hardware
  import opened BarRules
  import opened CoreConfig
  import opened Recommendation
  import opened DriverEvidence
  import opened Identity
  import opened DeploymentPlan
  import opened PlanStore
  import opened Workflow
  import opened WorkflowRuns
  import Saving = SaveSettings

  datatype Action = Action(command: Command, world: World)

  function AfterActions(actions: seq<Action>, profile: Profile, registry: Registry, d: Deployment): Deployment
    decreases |actions|
  {
    if actions == [] then d
    else AfterActions(actions[1..], profile, registry, Run(actions[0].command, actions[0].world, profile, registry, d).after)
  }

  // A deployment that started from the profile's fresh plan and went through any commands at all.
  ghost predicate Reachable(profile: Profile, registry: Registry, d: Deployment) {
    exists actions, saved :: d == AfterActions(actions, profile, registry, Deployment(Built(profile), saved))
  }

  lemma {:induction false} ActionsKeepEvidence(actions: seq<Action>, profile: Profile, registry: Registry, d: Deployment)
    requires Evidenced(profile, d.plan)
    ensures Later(profile, d.plan, AfterActions(actions, profile, registry, d).plan)
    decreases |actions|
  {
    if actions == [] {
      LaterItself(profile, d.plan);
    } else {
      var next := Run(actions[0].command, actions[0].world, profile, registry, d).after;
      CommandKeepsEvidence(actions[0].command, actions[0].world, profile, registry, d);
      ActionsKeepEvidence(actions[1..], profile, registry, next);
      LaterStill(profile, d.plan, next.plan, AfterActions(actions[1..], profile, registry, next).plan);
    }
  }

  lemma {:induction false} ActionsKeepAnchors(actions: seq<Action>, profile: Profile, registry: Registry, d: Deployment)
    requires Anchored(profile, d.plan) && DistinctParts(profile.identity.gpus)
    ensures LaterAnchored(profile, d.plan, AfterActions(actions, profile, registry, d).plan)
    decreases |actions|
  {
    if actions == [] {
      AnchoredItself(profile, d.plan);
    } else {
      var next := Run(actions[0].command, actions[0].world, profile, registry, d).after;
      CommandKeepsAnchors(actions[0].command, actions[0].world, profile, registry, d);
      ActionsKeepAnchors(actions[1..], profile, registry, next);
      AnchoredStill(profile, d.plan, next.plan, AfterActions(actions[1..], profile, registry, next).plan);
    }
  }

  lemma ReachableIsEvidenced(profile: Profile, registry: Registry, d: Deployment)
    requires Reachable(profile, registry, d)
    ensures Evidenced(profile, d.plan)
  {
    var actions, saved :| d == AfterActions(actions, profile, registry, Deployment(Built(profile), saved));
    BuiltIsSound(profile);
    ActionsKeepEvidence(actions, profile, registry, Deployment(Built(profile), saved));
  }

  // ---------------------------------------------------------------- the pinned machine

  predicate Admits(action: Action, profile: Profile, d: Deployment) {
    !action.command.Provision? && LoadExact(profile, d.plan, action.world).Some?
  }

  function Seen(action: Action, profile: Profile, d: Deployment): Pinned
    requires Admits(action, profile, d)
  {
    LoadExact(profile, d.plan, action.world).value.identity
  }

  lemma BootsAreKept(profile: Profile, p: Plan, q: Plan)
    requires Anchored(profile, p) && LaterAnchored(profile, p, q)
    ensures p.revision > FirmwareBootAt(profile) ==> FirmwareBoot(profile, q) == FirmwareBoot(profile, p)
    ensures p.revision > ConfigBootAt(profile) ==> ConfigBoot(profile, q) == ConfigBoot(profile, p)
  {
    StepPlaces(profile);
    if p.revision > FirmwareBootAt(profile) {
      HasValue(profile, p, FirmwareBootAt(profile));
    }
    if p.revision > ConfigBootAt(profile) {
      HasValue(profile, p, ConfigBootAt(profile));
    }
  }

  predicate SameRanges(a: Pinned, b: Pinned) { a.gpus == b.gpus }

  // From the first recorded boot on, the revision is that of the recorded boot.
  lemma RevisionAfterBoot(profile: Profile, p: Plan, seen: Pinned)
    requires Anchored(profile, p) && Relates(profile, p, seen) && Segment(profile, p) >= 2
    ensures SameRevision(FirmwareBoot(profile, p).identity, seen)
  {
    if p.revision > ConfigBootAt(profile) {
      SameRevisionFurther(FirmwareBoot(profile, p).identity, ConfigBoot(profile, p).identity, seen);
    }
  }

  lemma RevisionStays(profile: Profile, p: Plan, q: Plan, first: Pinned, second: Pinned)
    requires Anchored(profile, p) && LaterAnchored(profile, p, q)
    requires Relates(profile, p, first) && Relates(profile, q, second)
    ensures Segment(profile, p) <= Segment(profile, q)
    ensures Segment(profile, p) >= 2 ==> SameRevision(first, second)
  {
    BootsAreKept(profile, p, q);
    if Segment(profile, p) >= 2 {
      RevisionAfterBoot(profile, p, first);
      RevisionAfterBoot(profile, q, second);
      SameRevisionBoth(FirmwareBoot(profile, p).identity, first, second);
    }
  }

  lemma RangesStay(profile: Profile, p: Plan, q: Plan, first: Pinned, second: Pinned)
    requires Anchored(profile, p) && LaterAnchored(profile, p, q)
    requires Relates(profile, p, first) && Relates(profile, q, second)
    ensures var s := Segment(profile, p);
            s == Segment(profile, q) && (s == 0 || s == 2 || s == 4) ==> SameRanges(first, second)
  {
    BootsAreKept(profile, p, q);
  }

  // For any two admitted commands of any run: both saw the pinned board, BIOS vendor, GPU models
  // and slots. The BIOS version and date differ from the profile, or between them, only if the first
  // came before the recorded firmware boot; address ranges differ only if the window or the
  // configuration restart lies between them, or one of them is in it.
  lemma IdentityOverRun(before: seq<Action>, first: Action, between: seq<Action>, second: Action,
                        profile: Profile, registry: Registry, saved: Saving.State)
    requires DistinctParts(profile.identity.gpus)
    ensures var d := AfterActions(before, profile, registry, Deployment(Built(profile), saved));
            var e := AfterActions(between, profile, registry, Run(first.command, first.world, profile, registry, d).after);
            Admits(first, profile, d) && Admits(second, profile, e) ==>
              var a, b := Seen(first, profile, d), Seen(second, profile, e);
              var s, t := Segment(profile, d.plan), Segment(profile, e.plan);
              && SameMachine(profile.identity, a) && SameMachine(profile.identity, b) && SameMachine(a, b)
              && s <= t
              && (s == 0 ==> SameRevision(profile.identity, a) && SameRanges(profile.identity, a))
              && (s >= 2 ==> SameRevision(a, b))
              && (s == t && (s == 0 || s == 2 || s == 4) ==> SameRanges(a, b) && SameRevision(a, b))
  {
    var start := Deployment(Built(profile), saved);
    var d := AfterActions(before, profile, registry, start);
    var after := Run(first.command, first.world, profile, registry, d).after;
    var e := AfterActions(between, profile, registry, after);
    BuiltIsSound(profile);
    ActionsKeepAnchors(before, profile, registry, start);
    CommandKeepsAnchors(first.command, first.world, profile, registry, d);
    ActionsKeepAnchors(between, profile, registry, after);
    AnchoredStill(profile, d.plan, after.plan, e.plan);
    if Admits(first, profile, d) && Admits(second, profile, e) {
      PairOfCommands(profile, d.plan, first.world, e.plan, second.world);
    }
  }

  // A profile pinned from GPUs at pairwise distinct locations meets the condition on its GPUs.
  lemma CollectedPartsAreDistinct(texts: FirmwareTexts, devices: seq<GpuDevice>)
    requires DistinctSlots(devices)
    requires Normalized(CollectIdentity(texts, devices)).Ok?
    ensures DistinctParts(Normalized(CollectIdentity(texts, devices)).value.gpus)
  {
    var raw := CollectIdentity(texts, devices);
    var gpus := Normalized(raw).value.gpus;
    forall a, b | a in gpus && b in gpus && StablePart(a) == StablePart(b)
      ensures a == b
    {
      var i :| 0 <= i < |raw.gpus| && raw.gpus[i] == a;
      var j :| 0 <= j < |raw.gpus| && raw.gpus[j] == b;
      assert devices[i].Id() == devices[j].Id();
    }
  }

  lemma PairOfCommands(profile: Profile, p: Plan, first: World, q: Plan, second: World)
    requires DistinctParts(profile.identity.gpus) && Anchored(profile, p) && LaterAnchored(profile, p, q)
    requires LoadExact(profile, p, first).Some? && LoadExact(profile, q, second).Some?
    ensures var a, b := LoadExact(profile, p, first).value.identity, LoadExact(profile, q, second).value.identity;
            var s, t := Segment(profile, p), Segment(profile, q);
            && SameMachine(profile.identity, a) && SameMachine(profile.identity, b) && SameMachine(a, b)
            && s <= t
            && (s == 0 ==> SameRevision(profile.identity, a) && SameRanges(profile.identity, a))
            && (s >= 2 ==> SameRevision(a, b))
            && (s == t && (s == 0 || s == 2 || s == 4) ==> SameRanges(a, b) && SameRevision(a, b))
  {
    var a, b := LoadExact(profile, p, first).value.identity, LoadExact(profile, q, second).value.identity;
    AdmittedRelates(profile, p, first);
    AdmittedRelates(profile, q, second);
    AdmittedIsPinnedMachine(profile, p, a);
    AdmittedIsPinnedMachine(profile, q, b);
    SameMachineBoth(profile.identity, a, b);
    RevisionStays(profile, p, q, a, b);
    RangesStay(profile, p, q, a, b);
    if Segment(profile, p) == 0 && Segment(profile, q) == 0 {
      SameRevisionBoth(profile.identity, a, b);
    }
  }

  // ---------------------------------------------------------------- order of the evidence

  predicate Holds(plan: Plan, i: nat, value: EvidenceValue) {
    i < |plan.steps| && plan.steps[i].evidence.Some? && ValueAt(plan, i) == value
  }

  ghost predicate DriverProven(profile: Profile, plan: Plan) {
    exists raw :: Holds(plan, DriverAt(profile), Status(raw)) && ProvesDriverLoaded(StatusCode(raw))
  }

  ghost predicate RestartedAfterSave(profile: Profile, plan: Plan) {
    exists savedAt, boot: BootObservation ::
      Holds(plan, ConfigAt(profile), Moment(savedAt)) && Holds(plan, ConfigBootAt(profile), Boot(boot)) && boot.observedAt > savedAt
  }

  lemma SoundDriver(profile: Profile, plan: Plan)
    requires Evidenced(profile, plan) && plan.revision > DriverAt(profile)
    ensures DriverProven(profile, plan)
  {
    var raw := ValueAt(plan, DriverAt(profile)).raw;
    assert Holds(plan, DriverAt(profile), Status(raw));
  }

  lemma SoundRestart(profile: Profile, plan: Plan)
    requires Evidenced(profile, plan) && plan.revision > ConfigBootAt(profile)
    ensures RestartedAfterSave(profile, plan)
  {
    StepPlaces(profile);
    HasValue(profile, plan, ConfigBootAt(profile));
    assert plan.steps[ConfigBootAt(profile)].id == StepAt(profile.board, ConfigBootAt(profile));
    assert Holds(plan, ConfigAt(profile), Moment(ValueAt(plan, ConfigAt(profile)).ms));
    assert Holds(plan, ConfigBootAt(profile), Boot(ConfigBoot(profile, plan)));
  }

  // In every reachable plan the completed steps are the first ones, in order and once, and the
  // revision counts them; the driver step holds a status that proves the driver loaded, and a
  // completed configuration restart is a boot strictly later than the recorded save.
  lemma ReachablePlans(profile: Profile, registry: Registry, d: Deployment)
    requires Reachable(profile, registry, d)
    ensures BelongsTo(d.plan, profile) && InShape(d.plan, d.plan.revision)
    ensures d.plan.revision > DriverAt(profile) ==> DriverProven(profile, d.plan)
    ensures d.plan.revision > ConfigBootAt(profile) ==> RestartedAfterSave(profile, d.plan)
  {
    ReachableIsEvidenced(profile, registry, d);
    if d.plan.revision > DriverAt(profile) {
      SoundDriver(profile, d.plan);
    }
    if d.plan.revision > ConfigBootAt(profile) {
      SoundRestart(profile, d.plan);
    }
  }

  lemma SavingConditions(profile: Profile, draft: ConfigDraft, world: World, exact: Exact, registry: Registry, d: Deployment)
    requires SavingConfig(profile, draft, world, exact, registry, d).wroteConfig
    ensures MaySave(d.plan, world, exact, draft, registry)
    ensures var (save, saved) := Saving.SavedForDevices(draft, exact.devices, world.around, registry, d.saved);
            save.Ok? && SavingConfig(profile, draft, world, exact, registry, d).after.saved == saved
  {
  }

  lemma ExactDevices(profile: Profile, plan: Plan, world: World)
    requires LoadExact(profile, plan, world).Some?
    ensures world.devices == Some(LoadExact(profile, plan, world).value.devices)
  {
  }

  lemma RecordingWritesNoConfig(d: Deployment, findings: Option<seq<Finding>>, world: World)
    ensures !Recording(d, findings, world).wroteConfig
  {
  }

  lemma OtherCommandsWriteNothing(profile: Profile, exact: Exact, registry: Registry, d: Deployment, command: Command, world: World)
    requires !command.Provision? && !command.SaveConfig?
    ensures !Admitted(command, world, profile, exact, registry, d).wroteConfig
  {
    match command {
      case Prepare(digests) => RecordingWritesNoConfig(d, Some(PreparationFindings(OpenPreparation(d.plan.steps), digests)), world);
      case ConfirmManual(_, _, _) => RecordingWritesNoConfig(d, ManualFindings(profile, d.plan, world, command), world);
      case VerifyDriver => RecordingWritesNoConfig(d, DriverFindings(d.plan, world, exact), world);
      case VerifyConfigurationReboot => RecordingWritesNoConfig(d, RebootFindings(d.plan, world, exact), world);
      case CollectBarEvidence(digest) => RecordingWritesNoConfig(d, BarFindings(d.plan, digest), world);
      case LookOnly =>
    }
  }

  // Only the guarded save writes a configuration.
  lemma OnlySaveWrites(profile: Profile, registry: Registry, d: Deployment, command: Command, world: World)
    requires Run(command, world, profile, registry, d).wroteConfig
    ensures command.SaveConfig? && LoadExact(profile, d.plan, world).Some?
    ensures Run(command, world, profile, registry, d)
         == SavingConfig(profile, command.draft, world, LoadExact(profile, d.plan, world).value, registry, d)
  {
    if !command.Provision? && !command.SaveConfig? && LoadExact(profile, d.plan, world).Some? {
      OtherCommandsWriteNothing(profile, LoadExact(profile, d.plan, world).value, registry, d, command, world);
    }
  }

  // The configuration is written only while its step is the active one: after the driver was proven
  // loaded, and with the draft the backend recommends for the devices present.
  lemma ConfigWrittenAfterDriver(profile: Profile, registry: Registry, d: Deployment, command: Command, world: World)
    requires Reachable(profile, registry, d)
    requires Run(command, world, profile, registry, d).wroteConfig
    ensures d.plan.revision == ConfigAt(profile) && DriverProven(profile, d.plan)
    ensures command.SaveConfig? && world.devices.Some? && world.devicesAtWrite == world.devices
    ensures command.draft == RecommendedDraft(world.devices.value, registry)
    ensures Run(command, world, profile, registry, d).after.saved.backend.config == Some(FullConfig(command.draft, world.devices.value, registry))
  {
    OnlySaveWrites(profile, registry, d, command, world);
    ExactDevices(profile, d.plan, world);
    SavingConditions(profile, command.draft, world, LoadExact(profile, d.plan, world).value, registry, d);
    Saving.SavedIsFull(command.draft, world.devices.value, world.around, registry, d.saved);
    ReachableIsEvidenced(profile, registry, d);
    ActiveStep(profile, d.plan);
    StepPlaces(profile);
    SoundDriver(profile, d.plan);
  }

  // Nothing but that command touches the stored configuration.
  lemma OnlySaveTouchesConfig(profile: Profile, registry: Registry, d: Deployment, command: Command, world: World)
    ensures Run(command, world, profile, registry, d).after.saved != d.saved ==>
              command.SaveConfig? && Active(d.plan) == Some(WriteNvstrapsConfiguration)
  {
  }

  lemma RunsOnceLoaded(profile: Profile, registry: Registry, d: Deployment, command: Command, w: World, exact: Exact)
    requires !command.Provision? && LoadExact(profile, d.plan, w) == Some(exact)
    ensures Run(command, w, profile, registry, d) == Admitted(command, w, profile, exact, registry, d)
  {
  }

  lemma VerificationsAre(profile: Profile, registry: Registry, d: Deployment, w: World, exact: Exact)
    ensures Admitted(VerifyDriver, w, profile, exact, registry, d) == Recording(d, DriverFindings(d.plan, w, exact), w)
    ensures Admitted(VerifyConfigurationReboot, w, profile, exact, registry, d) == Recording(d, RebootFindings(d.plan, w, exact), w)
  {
  }

  // The two verifications record what they found, once the identity gate let them through.
  lemma VerificationsRecord(profile: Profile, registry: Registry, d: Deployment, w: World, exact: Exact)
    requires LoadExact(profile, d.plan, w) == Some(exact)
    ensures Run(VerifyDriver, w, profile, registry, d) == Recording(d, DriverFindings(d.plan, w, exact), w)
    ensures Run(VerifyConfigurationReboot, w, profile, registry, d) == Recording(d, RebootFindings(d.plan, w, exact), w)
  {
    RunsOnceLoaded(profile, registry, d, VerifyDriver, w, exact);
    RunsOnceLoaded(profile, registry, d, VerifyConfigurationReboot, w, exact);
    VerificationsAre(profile, registry, d, w, exact);
  }

  lemma RefusedIsNotOk(profile: Profile, registry: Registry, d: Deployment, w: World)
    requires LoadExact(profile, d.plan, w).None?
    ensures !Run(VerifyDriver, w, profile, registry, d).ok
  {
  }

  lemma RecordingIs(d: Deployment, findings: Option<seq<Finding>>, w: World)
    ensures var outcome := Recording(d, findings, w);
            if findings.None? then !outcome.ok
            else (outcome.ok, outcome.after.plan) == RecordAll(d.plan, findings.value, w.diskWrites)
  {
  }

  // Driver verification entered before or after its boot record ends in the same place, with the
  // status it read recorded.
  lemma DriverVerificationConverges(profile: Profile, registry: Registry, d: Deployment, w: World)
    requires StageIs(d.plan, profile, d.plan.revision) && Run(VerifyDriver, w, profile, registry, d).ok
    ensures Active(d.plan) == Some(RebootAfterFirmware) || Active(d.plan) == Some(VerifyDriverLoaded)
    ensures ShowsLoadedDriver(w)
    ensures DriverStatusRaw(w).Some? && DriverStatusRaw(w).value as int == FromLe(w.status.value.bytes)
    ensures EndsAfterDriver(profile, Run(VerifyDriver, w, profile, registry, d).after.plan, DriverStatusRaw(w).value)
  {
    StatusIsRead(w);
    if LoadExact(profile, d.plan, w).None? {
      RefusedIsNotOk(profile, registry, d, w);
    } else {
      var exact := LoadExact(profile, d.plan, w).value;
      VerificationsRecord(profile, registry, d, w, exact);
      RecordingIs(d, DriverFindings(d.plan, w, exact), w);
      DriverRecords(profile, d.plan, w, exact);
    }
  }

  // The status variable held eight bytes, little-endian, with a code that proves the driver loaded.
  predicate ShowsLoadedDriver(w: World) {
    match w.status
    case Some(Present(bytes)) => |bytes| == 8 && ProvesDriverLoaded(FromLe(bytes) % 0x1_0000_0000)
    case _ => false
  }

  lemma StatusIsRead(w: World)
    ensures DriverStatusRaw(w).Some? && ProvesDriverLoaded(StatusCode(DriverStatusRaw(w).value)) <==> ShowsLoadedDriver(w)
    ensures ShowsLoadedDriver(w) ==> DriverStatusRaw(w).value as int == FromLe(w.status.value.bytes)
  {
    if w.status.Some? && w.status.value.Present? && |w.status.value.bytes| == 8 {
      assert w.status.value.bytes[0..8] == w.status.value.bytes;
    }
  }

  // And it gets there exactly when an entry step is active, eight status bytes prove the driver
  // loaded, the boot can be dated, and the disk takes the records.
  lemma DriverVerificationSucceeds(profile: Profile, registry: Registry, d: Deployment, w: World)
    requires StageIs(d.plan, profile, d.plan.revision) && LoadExact(profile, d.plan, w).Some?
    ensures Run(VerifyDriver, w, profile, registry, d).ok <==>
              && ShowsLoadedDriver(w)
              && (|| (Active(d.plan) == Some(VerifyDriverLoaded) && w.diskWrites >= 1)
                  || (Active(d.plan) == Some(RebootAfterFirmware) && w.now != 0 && w.diskWrites >= 2))
  {
    var exact := LoadExact(profile, d.plan, w).value;
    StatusIsRead(w);
    VerificationsRecord(profile, registry, d, w, exact);
    RecordingIs(d, DriverFindings(d.plan, w, exact), w);
    if DriverFindings(d.plan, w, exact).Some? {
      DriverRecordsAll(profile, d.plan, w, exact);
    }
  }

  lemma DriverRecordsAll(profile: Profile, plan: Plan, w: World, exact: Exact)
    requires StageIs(plan, profile, plan.revision) && DriverFindings(plan, w, exact).Some?
    ensures RecordAll(plan, DriverFindings(plan, w, exact).value, w.diskWrites).0 <==>
              if Active(plan) == Some(VerifyDriverLoaded) then w.diskWrites >= 1 else w.now != 0 && w.diskWrites >= 2
  {
    var findings := DriverFindings(plan, w, exact).value;
    var status := Finding(VerifyDriverLoaded, Status(DriverStatusRaw(w).value));
    if Active(plan) == Some(VerifyDriverLoaded) {
      assert findings == [status];
      StatusCompletes(profile, plan, status);
      RecordOne(plan, status, w.diskWrites);
    } else {
      assert findings == [findings[0], status];
      BootAndStatusComplete(profile, plan, findings[0], status, w.diskWrites);
    }
  }

  lemma BootAndStatusComplete(profile: Profile, plan: Plan, boot: Finding, status: Finding, diskWrites: nat)
    requires StageIs(plan, profile, plan.revision) && Active(plan) == Some(RebootAfterFirmware)
    requires boot.step == RebootAfterFirmware && boot.value.Boot? && status.step == VerifyDriverLoaded && status.value.Status?
    ensures RecordAll(plan, [boot, status], diskWrites).0 <==> boot.value.observation.observedAt != 0 && diskWrites >= 2
  {
    assert [boot] + [status] == [boot, status];
    RecordsRest(plan, boot, [status], diskWrites);
    BootCompletes(profile, plan, boot);
    var next := Complete(plan, boot.step, boot.value);
    if next.Ok? && diskWrites > 0 {
      StatusCompletes(profile, next.value, status);
      RecordOne(next.value, status, diskWrites - 1);
    }
  }

  lemma StatusCompletes(profile: Profile, plan: Plan, status: Finding)
    requires StageIs(plan, profile, plan.revision) && Active(plan) == Some(VerifyDriverLoaded)
    requires status.step == VerifyDriverLoaded && status.value.Status?
    ensures Complete(plan, status.step, status.value).Ok?
  {
    ShapeReady(plan, plan.revision);
    CompleteAdvances(plan, plan.revision, status.step, status.value);
  }

  // A boot completes its step exactly if it can be dated; after the firmware's boot the driver step is
  // the next one.
  lemma BootCompletes(profile: Profile, plan: Plan, boot: Finding)
    requires StageIs(plan, profile, plan.revision) && Active(plan) == Some(boot.step) && boot.value.Boot?
    requires boot.step == RebootAfterFirmware || boot.step == RebootAfterConfiguration
    ensures Complete(plan, boot.step, boot.value).Ok? <==> boot.value.observation.observedAt != 0
    ensures Complete(plan, boot.step, boot.value).Ok? ==>
              var next := Complete(plan, boot.step, boot.value).value;
              StageIs(next, profile, next.revision) && (boot.step == RebootAfterFirmware ==> Active(next) == Some(VerifyDriverLoaded))
  {
    ShapeReady(plan, plan.revision);
    CompleteAdvances(plan, plan.revision, boot.step, boot.value);
    if Complete(plan, boot.step, boot.value).Ok? {
      CompletesOneMore(profile, plan, boot);
      if boot.step == RebootAfterFirmware {
        DriverStepIsNext(profile, plan, boot);
      }
    }
  }

  lemma DriverStepIsNext(profile: Profile, plan: Plan, boot: Finding)
    requires StageIs(plan, profile, plan.revision) && boot.step == RebootAfterFirmware && Complete(plan, boot.step, boot.value).Ok?
    ensures Active(Complete(plan, boot.step, boot.value).value) == Some(VerifyDriverLoaded)
  {
    CompletesOneMore(profile, plan, boot);
    StepPlaces(profile);
    ActiveStep(profile, plan);
    ActiveStep(profile, Complete(plan, boot.step, boot.value).value);
  }

  // The configuration restart is accepted exactly if its step is the active one, Windows booted
  // strictly later than the save time on record, and the disk takes the record.
  lemma RebootVerificationSucceeds(profile: Profile, registry: Registry, d: Deployment, w: World)
    requires StageIs(d.plan, profile, d.plan.revision) && LoadExact(profile, d.plan, w).Some?
    ensures Run(VerifyConfigurationReboot, w, profile, registry, d).ok <==>
              && d.plan.revision == ConfigBootAt(profile) && w.diskWrites >= 1
              && exists savedAt: u64 :: Holds(d.plan, ConfigAt(profile), Moment(savedAt)) && w.bootTime.Some? && w.bootTime.value > savedAt
  {
    RestartRecords(profile, registry, d, w, LoadExact(profile, d.plan, w).value);
    RestartIsActive(profile, d.plan);
  }

  // It then leaves that boot, with the identity seen, as the next piece of evidence.
  lemma RebootVerificationLeaves(profile: Profile, registry: Registry, d: Deployment, w: World)
    requires StageIs(d.plan, profile, d.plan.revision) && LoadExact(profile, d.plan, w).Some?
    requires Run(VerifyConfigurationReboot, w, profile, registry, d).ok
    ensures var after := Run(VerifyConfigurationReboot, w, profile, registry, d).after.plan;
            && StageIs(after, profile, ConfigBootAt(profile) + 1) && Extends(d.plan, after) && w.bootTime.Some?
            && Holds(after, ConfigBootAt(profile), Boot(BootObservation(w.bootTime.value, LoadExact(profile, d.plan, w).value.identity)))
            && RestartedAfterSave(profile, after)
  {
    var exact := LoadExact(profile, d.plan, w).value;
    RestartRecords(profile, registry, d, w, exact);
    RestartIsActive(profile, d.plan);
    RestartCompleted(profile, d.plan, ConfigurationSavedAt(d.plan).value, RestartFinding(w, exact).value.observation);
  }

  lemma RestartCompleted(profile: Profile, plan: Plan, savedAt: u64, boot: BootObservation)
    requires StageIs(plan, profile, plan.revision) && plan.revision == ConfigBootAt(profile)
    requires Holds(plan, ConfigAt(profile), Moment(savedAt)) && boot.observedAt > savedAt
    requires Complete(plan, RebootAfterConfiguration, Boot(boot)).Ok?
    ensures var after := Complete(plan, RebootAfterConfiguration, Boot(boot)).value;
            && StageIs(after, profile, ConfigBootAt(profile) + 1) && Extends(plan, after)
            && Holds(after, ConfigBootAt(profile), Boot(boot)) && RestartedAfterSave(profile, after)
  {
    CompletesOneMore(profile, plan, Finding(RebootAfterConfiguration, Boot(boot)));
    StepPlaces(profile);
    HasValue(profile, plan, ConfigAt(profile));
    var after := Complete(plan, RebootAfterConfiguration, Boot(boot)).value;
    assert Holds(after, ConfigAt(profile), Moment(savedAt));
    assert Holds(after, ConfigBootAt(profile), Boot(boot));
  }

  function RestartFinding(w: World, exact: Exact): Finding
    requires w.bootTime.Some?
  {
    Finding(RebootAfterConfiguration, Boot(BootObservation(w.bootTime.value, exact.identity)))
  }

  lemma RestartIsActive(profile: Profile, plan: Plan)
    requires StageIs(plan, profile, plan.revision)
    ensures Active(plan) == Some(RebootAfterConfiguration) <==> plan.revision == ConfigBootAt(profile)
    ensures plan.revision == ConfigBootAt(profile) ==>
              forall savedAt: u64 :: Holds(plan, ConfigAt(profile), Moment(savedAt)) <==> ConfigurationSavedAt(plan) == Some(savedAt)
  {
    ActiveStep(profile, plan);
    StepPlaces(profile);
    if plan.revision == ConfigBootAt(profile) {
      SavedTimeIsRecorded(profile, plan);
    }
  }

  predicate RestartFits(plan: Plan, w: World) {
    && Active(plan) == Some(RebootAfterConfiguration) && ConfigurationSavedAt(plan).Some? && w.bootTime.Some?
    && w.bootTime.value > ConfigurationSavedAt(plan).value
  }

  lemma RestartFindings(plan: Plan, w: World, exact: Exact)
    ensures RebootFindings(plan, w, exact) == if RestartFits(plan, w) then Some([RestartFinding(w, exact)]) else None
  {
  }

  lemma RestartRecords(profile: Profile, registry: Registry, d: Deployment, w: World, exact: Exact)
    requires StageIs(d.plan, profile, d.plan.revision) && LoadExact(profile, d.plan, w) == Some(exact)
    ensures var outcome := Run(VerifyConfigurationReboot, w, profile, registry, d);
            && (outcome.ok <==> RestartFits(d.plan, w) && w.diskWrites > 0)
            && (outcome.ok ==> Complete(d.plan, RebootAfterConfiguration, RestartFinding(w, exact).value) == Ok(outcome.after.plan))
  {
    VerificationsRecord(profile, registry, d, w, exact);
    RecordingIs(d, RebootFindings(d.plan, w, exact), w);
    RestartFindings(d.plan, w, exact);
    if RestartFits(d.plan, w) {
      RecordOne(d.plan, RestartFinding(w, exact), w.diskWrites);
      BootCompletes(profile, d.plan, RestartFinding(w, exact));
    }
  }

  // The plan after driver verification: its step next, the status recorded.
  predicate EndsAfterDriver(profile: Profile, plan: Plan, raw: u64) {
    && StageIs(plan, profile, ConfigAt(profile))
    && Active(plan) == Some(WriteNvstrapsConfiguration)
    && Holds(plan, DriverAt(profile), Status(raw))
  }

  lemma DriverRecords(profile: Profile, plan: Plan, w: World, exact: Exact)
    requires StageIs(plan, profile, plan.revision) && DriverFindings(plan, w, exact).Some?
    requires RecordAll(plan, DriverFindings(plan, w, exact).value, w.diskWrites).0
    ensures EndsAfterDriver(profile, RecordAll(plan, DriverFindings(plan, w, exact).value, w.diskWrites).1, DriverStatusRaw(w).value)
  {
    var findings := DriverFindings(plan, w, exact).value;
    var status := Finding(VerifyDriverLoaded, Status(DriverStatusRaw(w).value));
    if Active(plan) == Some(VerifyDriverLoaded) {
      assert findings == [status];
      StatusRecorded(profile, plan, status, w.diskWrites);
    } else {
      assert findings == [findings[0], status];
      BootThenStatusRecorded(profile, plan, findings[0], status, w.diskWrites);
    }
  }

  lemma BootThenStatusRecorded(profile: Profile, plan: Plan, boot: Finding, status: Finding, diskWrites: nat)
    requires StageIs(plan, profile, plan.revision) && status.step == VerifyDriverLoaded && status.value.Status?
    requires RecordAll(plan, [boot, status], diskWrites).0
    ensures EndsAfterDriver(profile, RecordAll(plan, [boot, status], diskWrites).1, status.value.raw)
  {
    assert [boot, status][1..] == [status];
    FirstRecorded(plan, [boot, status], diskWrites);
    CompletesOneMore(profile, plan, boot);
    StatusRecorded(profile, Complete(plan, boot.step, boot.value).value, status, diskWrites - 1);
  }

  lemma FirstRecorded(plan: Plan, findings: seq<Finding>, diskWrites: nat)
    requires findings != [] && RecordAll(plan, findings, diskWrites).0
    ensures Complete(plan, findings[0].step, findings[0].value).Ok? && diskWrites > 0
    ensures RecordAll(plan, findings, diskWrites)
         == RecordAll(Complete(plan, findings[0].step, findings[0].value).value, findings[1..], diskWrites - 1)
  {
  }

  lemma StatusRecorded(profile: Profile, plan: Plan, status: Finding, diskWrites: nat)
    requires StageIs(plan, profile, plan.revision) && status.step == VerifyDriverLoaded && status.value.Status?
    requires RecordAll(plan, [status], diskWrites).0
    ensures EndsAfterDriver(profile, RecordAll(plan, [status], diskWrites).1, status.value.raw)
  {
    RecordOne(plan, status, diskWrites);
    CompletesOneMore(profile, plan, status);
    StepPlaces(profile);
    ActiveStep(profile, Complete(plan, status.step, status.value).value);
  }
}
