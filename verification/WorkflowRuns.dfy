// What every run of deployment commands keeps: steps in order, evidence that means what it says, and
// the machine the profile pinned.
module WorkflowRuns {
  import opened Prelude
  import opened Hardware
  import opened BarRules
  import opened CoreConfig
  import opened Recommendation
  import opened DriverEvidence
  import opened Identity
  import opened DeploymentPlan
  import opened PlanStore
  import opened Workflow
  import Saving = SaveSettings

  // ---------------------------------------------------------------- where the steps are

  function Shift(profile: Profile): nat { if profile.board.LegacyAbove4g? then 1 else 0 }
  function FlashAt(profile: Profile): nat { 5 + Shift(profile) }
  function FirmwareBootAt(profile: Profile): nat { 7 + Shift(profile) }
  function DriverAt(profile: Profile): nat { 8 + Shift(profile) }
  function ConfigAt(profile: Profile): nat { 9 + Shift(profile) }
  function ConfigBootAt(profile: Profile): nat { 10 + Shift(profile) }

  lemma StepPlaces(profile: Profile)
    ensures StepCount(profile.board) == 13 + Shift(profile)
    ensures forall i :: 0 <= i < StepCount(profile.board) ==>
                          var step := StepAt(profile.board, i);
                          && (step == FlashWithVendorRoute <==> i == FlashAt(profile))
                          && (step == ConfigureFirmwareSetup <==> i == FlashAt(profile) + 1)
                          && (step == RebootAfterFirmware <==> i == FirmwareBootAt(profile))
                          && (step == VerifyDriverLoaded <==> i == DriverAt(profile))
                          && (step == WriteNvstrapsConfiguration <==> i == ConfigAt(profile))
                          && (step == RebootAfterConfiguration <==> i == ConfigBootAt(profile))
  {
  }

  // Before the flash; the flash, setup and first-boot window; up to the configuration restart; that
  // restart; afterwards.
  function Segment(profile: Profile, plan: Plan): nat {
    if plan.revision < FlashAt(profile) then 0
    else if plan.revision <= FirmwareBootAt(profile) then 1
    else if plan.revision < ConfigBootAt(profile) then 2
    else if plan.revision == ConfigBootAt(profile) then 3
    else 4
  }

  lemma ActiveStep(profile: Profile, plan: Plan)
    requires StageIs(plan, profile, plan.revision)
    ensures Active(plan) == if plan.revision < |plan.steps| then Some(StepAt(profile.board, plan.revision)) else None
    ensures AllowedWhile(Active(plan)) == match Segment(profile, plan)
                                          case 1 => FirmwareRevisionAndBar0
                                          case 3 => Bar0Relocation
                                          case _ => Nothing
  {
    StepPlaces(profile);
    ShapeReady(plan, plan.revision);
  }

  // ---------------------------------------------------------------- what recorded evidence means

  function ValueAt(plan: Plan, i: nat): EvidenceValue
    requires i < |plan.steps| && plan.steps[i].evidence.Some?
  {
    plan.steps[i].evidence.value.value
  }

  lemma HasValue(profile: Profile, plan: Plan, i: nat)
    requires StageIs(plan, profile, plan.revision) && i < plan.revision
    ensures i < |plan.steps| && plan.steps[i].state == Completed && plan.steps[i].evidence.Some?
    ensures StepDone(plan, i)
  {
    ShapeAt(plan, plan.revision, i);
  }

  function FirmwareBoot(profile: Profile, plan: Plan): BootObservation
    requires StageIs(plan, profile, plan.revision) && plan.revision > FirmwareBootAt(profile)
  {
    StepPlaces(profile);
    HasValue(profile, plan, FirmwareBootAt(profile));
    ValueAt(plan, FirmwareBootAt(profile)).observation
  }

  function ConfigBoot(profile: Profile, plan: Plan): BootObservation
    requires StageIs(plan, profile, plan.revision) && plan.revision > ConfigBootAt(profile)
  {
    StepPlaces(profile);
    HasValue(profile, plan, ConfigBootAt(profile));
    ValueAt(plan, ConfigBootAt(profile)).observation
  }

  ghost predicate FirmwareBootSound(profile: Profile, plan: Plan)
    requires StageIs(plan, profile, plan.revision)
  {
    plan.revision > FirmwareBootAt(profile) ==>
      var seen := FirmwareBoot(profile, plan).identity;
      SameMachine(profile.identity, seen) && DistinctParts(seen.gpus)
  }

  ghost predicate DriverSound(profile: Profile, plan: Plan)
    requires StageIs(plan, profile, plan.revision)
  {
    plan.revision > DriverAt(profile) ==>
      && DriverAt(profile) < |plan.steps| && plan.steps[DriverAt(profile)].evidence.Some?
      && ValueAt(plan, DriverAt(profile)).Status?
      && ProvesDriverLoaded(StatusCode(ValueAt(plan, DriverAt(profile)).raw))
  }

  ghost predicate ConfigSound(profile: Profile, plan: Plan)
    requires StageIs(plan, profile, plan.revision)
  {
    plan.revision > ConfigAt(profile) ==>
      ConfigAt(profile) < |plan.steps| && plan.steps[ConfigAt(profile)].evidence.Some? && ValueAt(plan, ConfigAt(profile)).Moment?
  }

  ghost predicate RestartSound(profile: Profile, plan: Plan)
    requires StageIs(plan, profile, plan.revision) && ConfigSound(profile, plan)
  {
    plan.revision > ConfigBootAt(profile) ==> ConfigBoot(profile, plan).observedAt > ValueAt(plan, ConfigAt(profile)).ms
  }

  ghost predicate ConfigBootSound(profile: Profile, plan: Plan)
    requires StageIs(plan, profile, plan.revision)
  {
    plan.revision > ConfigBootAt(profile) ==>
      var before, seen := FirmwareBoot(profile, plan).identity, ConfigBoot(profile, plan).identity;
      SameMachine(before, seen) && SameRevision(before, seen) && DistinctParts(seen.gpus)
  }

  // Steps completed in order and once, the revision counting them, and the evidence of the later
  // steps meaning what the commands checked.
  ghost predicate Evidenced(profile: Profile, plan: Plan) {
    StageIs(plan, profile, plan.revision) && DriverSound(profile, plan) && ConfigSound(profile, plan) && RestartSound(profile, plan)
  }

  // The recorded boots saw the machine the profile pinned.
  ghost predicate Anchored(profile: Profile, plan: Plan) {
    StageIs(plan, profile, plan.revision) && FirmwareBootSound(profile, plan) && ConfigBootSound(profile, plan)
  }

  lemma BuiltIsSound(profile: Profile)
    ensures Evidenced(profile, Built(profile)) && Anchored(profile, Built(profile))
  {
    BuiltIsFresh(profile);
  }

  // ---------------------------------------------------------------- the last recorded boot

  lemma {:induction false} LastBootIs(steps: seq<Step>, i: nat)
    requires i < |steps| && IsBoot(steps[i])
    requires forall j :: i < j < |steps| ==> !IsBoot(steps[j])
    ensures LastBoot(steps) == Some(steps[i])
    decreases |steps|
  {
    if i < |steps| - 1 {
      LastBootIs(steps[..|steps| - 1], i);
    }
  }

  predicate IsBoot(step: Step) {
    step.state == Completed && (step.id == RebootAfterFirmware || step.id == RebootAfterConfiguration)
  }

  lemma {:induction false} NoBoot(steps: seq<Step>)
    requires forall j :: 0 <= j < |steps| ==> !IsBoot(steps[j])
    ensures LastBoot(steps) == None
  {
    if steps != [] {
      NoBoot(steps[..|steps| - 1]);
    }
  }

  // A boot step of the plan is completed at one of its two places only.
  lemma BootPlaces(profile: Profile, plan: Plan, j: nat)
    requires StageIs(plan, profile, plan.revision) && j < |plan.steps|
    ensures IsBoot(plan.steps[j]) <==> j < plan.revision && (j == FirmwareBootAt(profile) || j == ConfigBootAt(profile))
  {
    StepPlaces(profile);
    ShapeAt(plan, plan.revision, j);
  }

  lemma LastBootOf(profile: Profile, plan: Plan)
    requires StageIs(plan, profile, plan.revision)
    ensures ConfigBootAt(profile) < |plan.steps|
    ensures LastBoot(plan.steps) == if plan.revision <= FirmwareBootAt(profile) then None
                                    else if plan.revision <= ConfigBootAt(profile) then Some(plan.steps[FirmwareBootAt(profile)])
                                    else Some(plan.steps[ConfigBootAt(profile)])
  {
    StepPlaces(profile);
    forall j | 0 <= j < |plan.steps|
      ensures IsBoot(plan.steps[j]) <==> j < plan.revision && (j == FirmwareBootAt(profile) || j == ConfigBootAt(profile))
    {
      BootPlaces(profile, plan, j);
    }
    if plan.revision <= FirmwareBootAt(profile) {
      NoBoot(plan.steps);
    } else if plan.revision <= ConfigBootAt(profile) {
      LastBootIs(plan.steps, FirmwareBootAt(profile));
    } else {
      LastBootIs(plan.steps, ConfigBootAt(profile));
    }
  }

  lemma RecordedBoot(profile: Profile, plan: Plan, i: nat)
    requires StageIs(plan, profile, plan.revision) && i < plan.revision && (i == FirmwareBootAt(profile) || i == ConfigBootAt(profile))
    ensures i < |plan.steps| && plan.steps[i].evidence.Some? && ValidObservation(ValueAt(plan, i))
  {
    StepPlaces(profile);
    HasValue(profile, plan, i);
  }

  lemma BootOnRecord(plan: Plan, i: nat)
    requires i < |plan.steps| && LastBoot(plan.steps) == Some(plan.steps[i])
    requires plan.steps[i].evidence.Some? && ValidObservation(ValueAt(plan, i))
    ensures LatestBoot(plan) == Ok(Some(ValueAt(plan, i).observation))
  {
  }

  // A guarded command compares against the profile until the first boot is recorded, then against
  // the latest recorded boot.
  lemma Anchor(profile: Profile, plan: Plan)
    requires StageIs(plan, profile, plan.revision)
    ensures ExpectedIdentity(profile, plan) ==
              Ok(if plan.revision <= FirmwareBootAt(profile) then profile.identity
                 else if plan.revision <= ConfigBootAt(profile) then FirmwareBoot(profile, plan).identity
                 else ConfigBoot(profile, plan).identity)
  {
    LastBootOf(profile, plan);
    if plan.revision > FirmwareBootAt(profile) {
      var i := if plan.revision > ConfigBootAt(profile) then ConfigBootAt(profile) else FirmwareBootAt(profile);
      RecordedBoot(profile, plan, i);
      BootOnRecord(plan, i);
    }
  }

  // ---------------------------------------------------------------- what the identity gate lets through

  // How an admitted identity relates to the expected one in each segment.
  ghost predicate Relates(profile: Profile, plan: Plan, seen: Pinned)
    requires StageIs(plan, profile, plan.revision)
  {
    var expected := if plan.revision <= FirmwareBootAt(profile) then profile.identity
                    else if plan.revision <= ConfigBootAt(profile) then FirmwareBoot(profile, plan).identity
                    else ConfigBoot(profile, plan).identity;
    && SameMachine(expected, seen) && DistinctParts(seen.gpus)
    && (Segment(profile, plan) != 1 ==> SameRevision(expected, seen))
    && (Segment(profile, plan) != 1 && Segment(profile, plan) != 3 ==> expected.gpus == seen.gpus)
  }

  lemma AdmittedRelates(profile: Profile, plan: Plan, world: World)
    requires Anchored(profile, plan) && DistinctParts(profile.identity.gpus)
    requires LoadExact(profile, plan, world).Some?
    ensures Relates(profile, plan, LoadExact(profile, plan, world).value.identity)
  {
    Anchor(profile, plan);
    ActiveStep(profile, plan);
    var expected := ExpectedIdentity(profile, plan).value;
    var current := CollectIdentity(world.texts.value, world.devices.value);
    ComparesExactly(expected, current, AllowedWhile(Active(plan)));
    assert Compare(expected, current, AllowedWhile(Active(plan))) == [];
  }

  predicate IsFingerprintOf(gpu: GpuFingerprint, d: GpuDevice) {
    && gpu.vendorId == d.vendorId && gpu.deviceId == d.deviceId && gpu.subVendor == d.subVendor && gpu.subDevice == d.subDevice
    && gpu.location == Slot(d.bus, d.device, d.fn) && gpu.bridge == Slot(d.bridge.bus, d.bridge.device, d.bridge.fn)
    && gpu.bar0Base == d.bar0Base && gpu.bar0Top == d.bar0Top
  }

  // What the firmware texts and the devices of a machine give as its identity.
  ghost predicate Observes(texts: FirmwareTexts, devices: seq<GpuDevice>, seen: Pinned) {
    && Stripped(texts.boardManufacturer, seen.boardManufacturer) && Stripped(texts.boardProduct, seen.boardProduct)
    && Stripped(texts.boardVersion, seen.boardVersion) && Stripped(texts.biosVendor, seen.biosVendor)
    && Stripped(texts.biosVersion, seen.biosVersion) && Stripped(texts.biosReleaseDate, seen.biosReleaseDate)
    && (forall d :: d in devices ==> exists gpu :: gpu in seen.gpus && IsFingerprintOf(gpu, d))
    && (forall gpu :: gpu in seen.gpus ==> exists d :: d in devices && IsFingerprintOf(gpu, d))
  }

  predicate HasIdentity(texts: FirmwareTexts, devices: seq<GpuDevice>) {
    && !Blank(texts.boardManufacturer) && !Blank(texts.boardProduct) && !Blank(texts.boardVersion)
    && !Blank(texts.biosVendor) && !Blank(texts.biosVersion) && !Blank(texts.biosReleaseDate)
    && devices != []
    && forall d :: d in devices ==> d.device <= 31 && d.fn <= 7 && d.bridge.device <= 31 && d.bridge.fn <= 7 && d.bar0Base <= d.bar0Top
  }

  lemma CollectedGpus(texts: FirmwareTexts, devices: seq<GpuDevice>)
    ensures var gpus := CollectIdentity(texts, devices).gpus;
            && (forall d :: d in devices ==> FingerprintOf(d) in gpus && IsFingerprintOf(FingerprintOf(d), d))
            && (forall gpu :: gpu in gpus ==> exists d :: d in devices && IsFingerprintOf(gpu, d))
  {
    var gpus := CollectIdentity(texts, devices).gpus;
    forall d | d in devices
      ensures FingerprintOf(d) in gpus && IsFingerprintOf(FingerprintOf(d), d)
    {
      var i :| 0 <= i < |devices| && devices[i] == d;
      assert gpus[i] == FingerprintOf(d);
    }
    forall gpu | gpu in gpus
      ensures exists d :: d in devices && IsFingerprintOf(gpu, d)
    {
      var i :| 0 <= i < |gpus| && gpus[i] == gpu;
      assert devices[i] in devices && IsFingerprintOf(gpu, devices[i]);
    }
  }

  lemma CollectedMeans(texts: FirmwareTexts, devices: seq<GpuDevice>)
    ensures Normalized(CollectIdentity(texts, devices)).Ok? <==> HasIdentity(texts, devices)
    ensures Normalized(CollectIdentity(texts, devices)).Ok? ==> Observes(texts, devices, Normalized(CollectIdentity(texts, devices)).value)
  {
    NormalizedMeans(CollectIdentity(texts, devices));
    CollectedGpus(texts, devices);
  }

  // The gate lets a machine through exactly if the built-in profile stands, the firmware kept with it
  // is intact, the machine has an identity, and that identity relates to the expected one as the
  // segment of the plan says; what it hands on is that identity and those devices.
  lemma AdmitsExactly(profile: Profile, plan: Plan, world: World)
    requires Anchored(profile, plan) && DistinctParts(profile.identity.gpus)
    ensures LoadExact(profile, plan, world).Some? <==> MayPass(profile, plan, world)
    ensures LoadExact(profile, plan, world).Some? ==>
              var exact := LoadExact(profile, plan, world).value;
              && world.devices == Some(exact.devices) && world.texts.Some?
              && Observes(world.texts.value, exact.devices, exact.identity) && Relates(profile, plan, exact.identity)
  {
    if world.devices.Some? && world.texts.Some? {
      CollectedMeans(world.texts.value, world.devices.value);
      Anchor(profile, plan);
      ActiveStep(profile, plan);
      GateIs(profile, plan, world);
      ComparesExactly(ExpectedIdentity(profile, plan).value, CollectIdentity(world.texts.value, world.devices.value), AllowedWhile(Active(plan)));
    }
  }

  ghost predicate MayPass(profile: Profile, plan: Plan, world: World)
    requires StageIs(plan, profile, plan.revision)
  {
    && world.profileStands && world.originalIntact && world.devices.Some? && world.texts.Some?
    && HasIdentity(world.texts.value, world.devices.value)
    && var now := Normalized(CollectIdentity(world.texts.value, world.devices.value)); now.Ok? && Relates(profile, plan, now.value)
  }

  lemma GateIs(profile: Profile, plan: Plan, world: World)
    requires world.devices.Some? && world.texts.Some? && ExpectedIdentity(profile, plan).Ok?
    ensures var current := CollectIdentity(world.texts.value, world.devices.value);
            var exact := LoadExact(profile, plan, world);
            && (exact.Some? <==>
                  && world.profileStands && world.originalIntact && Normalized(current).Ok?
                  && Compare(ExpectedIdentity(profile, plan).value, current, AllowedWhile(Active(plan))) == [])
            && (exact.Some? ==> exact == Some(Exact(world.devices.value, Normalized(current).value)))
  {
  }

  lemma SameMachineFurther(a: Pinned, b: Pinned, c: Pinned)
    requires SameMachine(a, b) && SameMachine(b, c)
    ensures SameMachine(a, c) && SameMachine(b, a)
  {
    AlikeFurther(a.boardManufacturer, b.boardManufacturer, c.boardManufacturer);
    AlikeFurther(a.boardProduct, b.boardProduct, c.boardProduct);
    AlikeFurther(a.boardVersion, b.boardVersion, c.boardVersion);
    AlikeFurther(a.biosVendor, b.biosVendor, c.biosVendor);
  }

  lemma SameRevisionFurther(a: Pinned, b: Pinned, c: Pinned)
    requires SameRevision(a, b) && SameRevision(b, c)
    ensures SameRevision(a, c) && SameRevision(b, a)
  {
    AlikeFurther(a.biosVersion, b.biosVersion, c.biosVersion);
    AlikeFurther(a.biosReleaseDate, b.biosReleaseDate, c.biosReleaseDate);
  }

  // What two identities share with a third they share with each other.
  lemma SameMachineBoth(base: Pinned, a: Pinned, b: Pinned)
    requires SameMachine(base, a) && SameMachine(base, b)
    ensures SameMachine(a, b)
  {
    AlikeBoth(base.boardManufacturer, a.boardManufacturer, b.boardManufacturer);
    AlikeBoth(base.boardProduct, a.boardProduct, b.boardProduct);
    AlikeBoth(base.boardVersion, a.boardVersion, b.boardVersion);
    AlikeBoth(base.biosVendor, a.biosVendor, b.biosVendor);
  }

  lemma SameRevisionBoth(base: Pinned, a: Pinned, b: Pinned)
    requires SameRevision(base, a) && SameRevision(base, b)
    ensures SameRevision(a, b)
  {
    AlikeBoth(base.biosVersion, a.biosVersion, b.biosVersion);
    AlikeBoth(base.biosReleaseDate, a.biosReleaseDate, b.biosReleaseDate);
  }

  // Whatever is admitted is the pinned machine.
  lemma AdmittedIsPinnedMachine(profile: Profile, plan: Plan, seen: Pinned)
    requires Anchored(profile, plan) && Relates(profile, plan, seen)
    ensures SameMachine(profile.identity, seen)
  {
    if plan.revision > FirmwareBootAt(profile) {
      if plan.revision > ConfigBootAt(profile) {
        SameMachineFurther(FirmwareBoot(profile, plan).identity, ConfigBoot(profile, plan).identity, seen);
      }
      SameMachineFurther(profile.identity, FirmwareBoot(profile, plan).identity, seen);
    }
  }

  // ---------------------------------------------------------------- what a command records

  function Decided(findings: Option<seq<Finding>>): seq<Finding> { if findings.None? then [] else findings.value }

  // The findings of the command itself, once the identity gate let it through.
  function GuardedFindings(command: Command, world: World, profile: Profile, exact: Exact, registry: Registry, plan: Plan): seq<Finding>
    requires !command.Provision?
  {
    match command
    case Prepare(digests) => PreparationFindings(OpenPreparation(plan.steps), digests)
    case ConfirmManual(_, _, _) => Decided(ManualFindings(profile, plan, world, command))
    case VerifyDriver => Decided(DriverFindings(plan, world, exact))
    case SaveConfig(draft) =>
      if MaySave(plan, world, exact, draft, registry) then [Finding(WriteNvstrapsConfiguration, Moment(world.savedAt))] else []
    case VerifyConfigurationReboot => Decided(RebootFindings(plan, world, exact))
    case CollectBarEvidence(digest) => Decided(BarFindings(plan, digest))
    case LookOnly => []
  }

  function FindingsOf(command: Command, world: World, profile: Profile, registry: Registry, plan: Plan): seq<Finding> {
    if command.Provision? then ProvisionFindings(profile, plan)
    else
      var exact := LoadExact(profile, plan, world);
      if exact.None? then [] else GuardedFindings(command, world, profile, exact.value, registry, plan)
  }

  lemma RecordingRecords(d: Deployment, findings: Option<seq<Finding>>, world: World)
    ensures Recording(d, findings, world).after.plan == RecordAll(d.plan, Decided(findings), world.diskWrites).1
  {
  }

  lemma NothingRecorded(plan: Plan, findings: seq<Finding>)
    ensures RecordAll(plan, findings, 0).1 == plan
  {
  }

  lemma SavingRecords(profile: Profile, draft: ConfigDraft, world: World, exact: Exact, registry: Registry, d: Deployment) returns (writes: nat)
    ensures SavingConfig(profile, draft, world, exact, registry, d).after.plan
         == RecordAll(d.plan, GuardedFindings(SaveConfig(draft), world, profile, exact, registry, d.plan), writes).1
  {
    var findings := [Finding(WriteNvstrapsConfiguration, Moment(world.savedAt))];
    writes := if MaySave(d.plan, world, exact, draft, registry)
                 && Saving.SavedForDevices(draft, exact.devices, world.around, registry, d.saved).0.Ok? then world.diskWrites else 0;
    NothingRecorded(d.plan, findings);
  }

  lemma AdmittedRecords(command: Command, world: World, profile: Profile, exact: Exact, registry: Registry, d: Deployment) returns (writes: nat)
    requires !command.Provision?
    ensures Admitted(command, world, profile, exact, registry, d).after.plan
         == RecordAll(d.plan, GuardedFindings(command, world, profile, exact, registry, d.plan), writes).1
  {
    writes := world.diskWrites;
    match command
    case Prepare(digests) => RecordingRecords(d, Some(PreparationFindings(OpenPreparation(d.plan.steps), digests)), world);
    case ConfirmManual(_, _, _) => RecordingRecords(d, ManualFindings(profile, d.plan, world, command), world);
    case VerifyDriver => RecordingRecords(d, DriverFindings(d.plan, world, exact), world);
    case SaveConfig(draft) => writes := SavingRecords(profile, draft, world, exact, registry, d);
    case VerifyConfigurationReboot => RecordingRecords(d, RebootFindings(d.plan, world, exact), world);
    case CollectBarEvidence(digest) => RecordingRecords(d, BarFindings(d.plan, digest), world);
    case LookOnly =>
  }

  // Whatever becomes of a command, its plan is the one it loaded with the first few of its findings
  // recorded.
  lemma CommandRecords(command: Command, world: World, profile: Profile, registry: Registry, d: Deployment) returns (writes: nat)
    ensures Run(command, world, profile, registry, d).after.plan
         == RecordAll(d.plan, FindingsOf(command, world, profile, registry, d.plan), writes).1
  {
    writes := world.diskWrites;
    if !command.Provision? && LoadExact(profile, d.plan, world).Some? {
      writes := AdmittedRecords(command, world, profile, LoadExact(profile, d.plan, world).value, registry, d);
    }
  }

  // One more step: the evidence already there stays, and the new one is the finding's.
  ghost predicate OneMore(profile: Profile, plan: Plan, finding: Finding, next: Plan) {
    && StageIs(plan, profile, plan.revision) && StageIs(next, profile, next.revision)
    && next.revision == plan.revision + 1
    && plan.revision < |plan.steps| == |next.steps|
    && StepAt(profile.board, plan.revision) == finding.step
    && (forall i :: 0 <= i < plan.revision ==> next.steps[i].evidence == plan.steps[i].evidence)
    && next.steps[plan.revision].evidence.Some?
    && (!finding.value.Text? ==> ValueAt(next, plan.revision) == finding.value)
  }

  lemma CompletesOneMore(profile: Profile, plan: Plan, finding: Finding)
    requires StageIs(plan, profile, plan.revision) && Complete(plan, finding.step, finding.value).Ok?
    ensures OneMore(profile, plan, finding, Complete(plan, finding.step, finding.value).value)
    ensures Extends(plan, Complete(plan, finding.step, finding.value).value)
  {
    StageAdvances(plan, plan.revision, finding.step, finding.value, profile);
    CompleteAdvances(plan, plan.revision, finding.step, finding.value);
    CompleteExtends(plan, plan.revision, finding.step, finding.value);
  }

  // What completing any of the findings keeps, recording them all keeps.
  lemma {:induction false} RecordAllKeeps(plan: Plan, findings: seq<Finding>, diskWrites: nat, kept: Plan -> bool)
    requires kept(plan)
    requires forall p, f :: kept(p) && f in findings && Complete(p, f.step, f.value).Ok? ==> kept(Complete(p, f.step, f.value).value)
    ensures kept(RecordAll(plan, findings, diskWrites).1)
    decreases |findings|
  {
    if findings != [] && Complete(plan, findings[0].step, findings[0].value).Ok? && diskWrites > 0 {
      RecordAllKeeps(Complete(plan, findings[0].step, findings[0].value).value, findings[1..], diskWrites - 1, kept);
    }
  }

  lemma {:induction false} PreparesOnly(steps: seq<Step>)
    ensures forall s :: s in OpenPreparation(steps) ==> IsPreparation(s)
  {
    if steps != [] {
      PreparesOnly(steps[1..]);
    }
  }

  lemma {:induction false} FindsOnly(steps: seq<StepId>, digests: seq<Digest>)
    ensures forall f :: f in PreparationFindings(steps, digests) ==> f.step in steps
  {
    if steps != [] && digests != [] {
      FindsOnly(steps[1..], digests[1..]);
    }
  }

  lemma PreparationIsPlain(steps: seq<Step>, digests: seq<Digest>)
    ensures forall f :: f in PreparationFindings(OpenPreparation(steps), digests) ==> IsPreparation(f.step)
  {
    PreparesOnly(steps);
    FindsOnly(OpenPreparation(steps), digests);
  }

  // ---------------------------------------------------------------- every command keeps the evidence sound

  // A later state of a plan, with its evidence sound.
  ghost predicate Later(profile: Profile, plan: Plan, after: Plan) {
    Evidenced(profile, after) && Extends(plan, after) && after.revision >= plan.revision
  }

  lemma LaterItself(profile: Profile, plan: Plan)
    requires Evidenced(profile, plan)
    ensures Later(profile, plan, plan)
  {
  }

  lemma LaterStill(profile: Profile, a: Plan, b: Plan, c: Plan)
    requires Later(profile, a, b) && Later(profile, b, c)
    ensures Later(profile, a, c)
  {
    ExtendsFurther(a, b, c);
  }

  // What a command checked before it records a step, judged by the plan it loaded.
  ghost predicate Proven(profile: Profile, loaded: Plan, finding: Finding)
    requires Evidenced(profile, loaded)
  {
    match finding.step
    case VerifyDriverLoaded => finding.value.Status? && ProvesDriverLoaded(StatusCode(finding.value.raw))
    case WriteNvstrapsConfiguration => finding.value.Moment?
    case RebootAfterConfiguration =>
      && loaded.revision == ConfigBootAt(profile) && finding.value.Boot?
      && finding.value.observation.observedAt > ValueAt(loaded, ConfigAt(profile)).ms
    case _ => true
  }

  lemma DriverStaysSound(profile: Profile, plan: Plan, finding: Finding, next: Plan)
    requires Evidenced(profile, plan) && OneMore(profile, plan, finding, next)
    requires finding.step == VerifyDriverLoaded ==> finding.value.Status? && ProvesDriverLoaded(StatusCode(finding.value.raw))
    requires finding.step == WriteNvstrapsConfiguration ==> finding.value.Moment?
    ensures DriverSound(profile, next) && ConfigSound(profile, next)
  {
    StepPlaces(profile);
    if plan.revision > DriverAt(profile) {
      HasValue(profile, plan, DriverAt(profile));
    }
    if plan.revision > ConfigAt(profile) {
      HasValue(profile, plan, ConfigAt(profile));
    }
  }

  lemma RestartStaysSound(profile: Profile, plan: Plan, finding: Finding, next: Plan)
    requires Evidenced(profile, plan) && OneMore(profile, plan, finding, next) && ConfigSound(profile, next)
    requires finding.step == RebootAfterConfiguration ==> Proven(profile, plan, finding)
    ensures RestartSound(profile, next)
  {
    StepPlaces(profile);
    if next.revision > ConfigBootAt(profile) {
      HasValue(profile, plan, ConfigAt(profile));
      assert ValueAt(next, ConfigAt(profile)) == ValueAt(plan, ConfigAt(profile));
      if plan.revision > ConfigBootAt(profile) {
        HasValue(profile, plan, ConfigBootAt(profile));
        assert ConfigBoot(profile, next) == ConfigBoot(profile, plan);
      }
    }
  }

  // The restart is proven by a later state too: the saved time on record is still the same.
  lemma ProvenLater(profile: Profile, loaded: Plan, plan: Plan, finding: Finding)
    requires Evidenced(profile, loaded) && Proven(profile, loaded, finding) && Later(profile, loaded, plan)
    requires Complete(plan, finding.step, finding.value).Ok?
    ensures Proven(profile, plan, finding)
  {
    if finding.step == RebootAfterConfiguration {
      CompletesOneMore(profile, plan, finding);
      StepPlaces(profile);
      HasValue(profile, loaded, ConfigAt(profile));
    }
  }

  lemma CompleteKeepsEvidence(profile: Profile, loaded: Plan, plan: Plan, finding: Finding)
    requires Evidenced(profile, loaded) && Proven(profile, loaded, finding) && Later(profile, loaded, plan)
    requires Complete(plan, finding.step, finding.value).Ok?
    ensures Later(profile, loaded, Complete(plan, finding.step, finding.value).value)
  {
    var next := Complete(plan, finding.step, finding.value).value;
    CompletesOneMore(profile, plan, finding);
    ProvenLater(profile, loaded, plan, finding);
    DriverStaysSound(profile, plan, finding, next);
    RestartStaysSound(profile, plan, finding, next);
    ExtendsFurther(loaded, plan, next);
  }

  lemma RecordAllKeepsEvidence(profile: Profile, plan: Plan, findings: seq<Finding>, diskWrites: nat)
    requires Evidenced(profile, plan) && forall f :: f in findings ==> Proven(profile, plan, f)
    ensures Later(profile, plan, RecordAll(plan, findings, diskWrites).1)
  {
    forall p, f | Later(profile, plan, p) && f in findings && Complete(p, f.step, f.value).Ok?
      ensures Later(profile, plan, Complete(p, f.step, f.value).value)
    {
      CompleteKeepsEvidence(profile, plan, p, f);
    }
    LaterItself(profile, plan);
    RecordAllKeeps(plan, findings, diskWrites, p => Later(profile, plan, p));
  }

  // The recorded save time is the one the configuration step carries.
  lemma SavedTimeIsRecorded(profile: Profile, plan: Plan)
    requires StageIs(plan, profile, plan.revision) && plan.revision > ConfigAt(profile)
    ensures ConfigAt(profile) < |plan.steps| && plan.steps[ConfigAt(profile)].evidence.Some?
    ensures var value := ValueAt(plan, ConfigAt(profile)); ConfigurationSavedAt(plan) == if value.Moment? then Some(value.ms) else None
  {
    StepPlaces(profile);
    HasValue(profile, plan, ConfigAt(profile));
    forall j | 0 <= j < ConfigAt(profile)
      ensures plan.steps[j].id != WriteNvstrapsConfiguration
    {
      assert plan.steps[j].id == StepAt(profile.board, j);
    }
    assert plan.steps[ConfigAt(profile)].id == StepAt(profile.board, ConfigAt(profile));
    FindsFirst(plan.steps, ConfigAt(profile), WriteNvstrapsConfiguration);
  }

  lemma RebootIsProven(profile: Profile, plan: Plan, world: World, exact: Exact)
    requires Evidenced(profile, plan)
    ensures forall f :: f in Decided(RebootFindings(plan, world, exact)) ==> Proven(profile, plan, f)
  {
    if RebootFindings(plan, world, exact).Some? {
      ActiveStep(profile, plan);
      StepPlaces(profile);
      assert plan.revision == ConfigBootAt(profile);
      SavedTimeIsRecorded(profile, plan);
    }
  }

  lemma ManualIsProven(profile: Profile, plan: Plan, world: World, command: Command)
    requires Evidenced(profile, plan) && command.ConfirmManual?
    ensures forall f :: f in Decided(ManualFindings(profile, plan, world, command)) ==> Proven(profile, plan, f)
  {
  }

  lemma DriverIsProven(profile: Profile, plan: Plan, world: World, exact: Exact)
    requires Evidenced(profile, plan)
    ensures forall f :: f in Decided(DriverFindings(plan, world, exact)) ==> Proven(profile, plan, f)
  {
  }

  lemma FindingsAreProven(command: Command, world: World, profile: Profile, exact: Exact, registry: Registry, plan: Plan)
    requires Evidenced(profile, plan) && !command.Provision?
    ensures forall f :: f in GuardedFindings(command, world, profile, exact, registry, plan) ==> Proven(profile, plan, f)
  {
    match command
    case Prepare(digests) => PreparationIsPlain(plan.steps, digests);
    case ConfirmManual(_, _, _) => ManualIsProven(profile, plan, world, command);
    case VerifyDriver => DriverIsProven(profile, plan, world, exact);
    case VerifyConfigurationReboot => RebootIsProven(profile, plan, world, exact);
    case _ =>
  }

  // Every command, accepted, refused or cut short by the disk, leaves a later plan with sound
  // evidence, whatever the machine's GPUs are.
  lemma CommandKeepsEvidence(command: Command, world: World, profile: Profile, registry: Registry, d: Deployment)
    requires Evidenced(profile, d.plan)
    ensures Later(profile, d.plan, Run(command, world, profile, registry, d).after.plan)
  {
    var writes := CommandRecords(command, world, profile, registry, d);
    if !command.Provision? && LoadExact(profile, d.plan, world).Some? {
      FindingsAreProven(command, world, profile, LoadExact(profile, d.plan, world).value, registry, d.plan);
    }
    RecordAllKeepsEvidence(profile, d.plan, FindingsOf(command, world, profile, registry, d.plan), writes);
  }

  // ---------------------------------------------------------------- every command keeps the boots anchored

  // A later state of a plan, with its recorded boots those of the pinned machine.
  ghost predicate LaterAnchored(profile: Profile, plan: Plan, after: Plan) {
    Anchored(profile, after) && Extends(plan, after) && after.revision >= plan.revision
  }

  lemma AnchoredItself(profile: Profile, plan: Plan)
    requires Anchored(profile, plan)
    ensures LaterAnchored(profile, plan, plan)
  {
  }

  lemma AnchoredStill(profile: Profile, a: Plan, b: Plan, c: Plan)
    requires LaterAnchored(profile, a, b) && LaterAnchored(profile, b, c)
    ensures LaterAnchored(profile, a, c)
  {
    ExtendsFurther(a, b, c);
  }

  // The identity a boot is recorded with, judged by the plan the command loaded.
  ghost predicate Matched(profile: Profile, loaded: Plan, finding: Finding)
    requires Anchored(profile, loaded)
  {
    match finding.step
    case RebootAfterFirmware =>
      finding.value.Boot? && SameMachine(profile.identity, finding.value.observation.identity)
      && DistinctParts(finding.value.observation.identity.gpus)
    case RebootAfterConfiguration =>
      && loaded.revision == ConfigBootAt(profile) && finding.value.Boot?
      && var before, seen := FirmwareBoot(profile, loaded).identity, finding.value.observation.identity;
      SameMachine(before, seen) && SameRevision(before, seen) && DistinctParts(seen.gpus)
    case _ => true
  }

  lemma FirmwareBootStaysSound(profile: Profile, plan: Plan, finding: Finding, next: Plan)
    requires Anchored(profile, plan) && OneMore(profile, plan, finding, next)
    requires finding.step == RebootAfterFirmware ==> Matched(profile, plan, finding)
    ensures FirmwareBootSound(profile, next)
  {
    StepPlaces(profile);
    if plan.revision > FirmwareBootAt(profile) {
      HasValue(profile, plan, FirmwareBootAt(profile));
      assert FirmwareBoot(profile, next) == FirmwareBoot(profile, plan);
    }
  }

  lemma ConfigBootStaysSound(profile: Profile, plan: Plan, finding: Finding, next: Plan)
    requires Anchored(profile, plan) && OneMore(profile, plan, finding, next)
    requires finding.step == RebootAfterConfiguration ==> Matched(profile, plan, finding)
    ensures ConfigBootSound(profile, next)
  {
    StepPlaces(profile);
    if next.revision > ConfigBootAt(profile) {
      HasValue(profile, plan, FirmwareBootAt(profile));
      assert FirmwareBoot(profile, next) == FirmwareBoot(profile, plan);
      if plan.revision > ConfigBootAt(profile) {
        HasValue(profile, plan, ConfigBootAt(profile));
        assert ConfigBoot(profile, next) == ConfigBoot(profile, plan);
      }
    }
  }

  lemma MatchedLater(profile: Profile, loaded: Plan, plan: Plan, finding: Finding)
    requires Anchored(profile, loaded) && Matched(profile, loaded, finding) && LaterAnchored(profile, loaded, plan)
    requires Complete(plan, finding.step, finding.value).Ok?
    ensures Matched(profile, plan, finding)
  {
    if finding.step == RebootAfterConfiguration {
      CompletesOneMore(profile, plan, finding);
      StepPlaces(profile);
      HasValue(profile, loaded, FirmwareBootAt(profile));
    }
  }

  lemma CompleteKeepsAnchors(profile: Profile, loaded: Plan, plan: Plan, finding: Finding)
    requires Anchored(profile, loaded) && Matched(profile, loaded, finding) && LaterAnchored(profile, loaded, plan)
    requires Complete(plan, finding.step, finding.value).Ok?
    ensures LaterAnchored(profile, loaded, Complete(plan, finding.step, finding.value).value)
  {
    var next := Complete(plan, finding.step, finding.value).value;
    CompletesOneMore(profile, plan, finding);
    MatchedLater(profile, loaded, plan, finding);
    FirmwareBootStaysSound(profile, plan, finding, next);
    ConfigBootStaysSound(profile, plan, finding, next);
    ExtendsFurther(loaded, plan, next);
  }

  lemma RecordAllKeepsAnchors(profile: Profile, plan: Plan, findings: seq<Finding>, diskWrites: nat)
    requires Anchored(profile, plan) && forall f :: f in findings ==> Matched(profile, plan, f)
    ensures LaterAnchored(profile, plan, RecordAll(plan, findings, diskWrites).1)
  {
    forall p, f | LaterAnchored(profile, plan, p) && f in findings && Complete(p, f.step, f.value).Ok?
      ensures LaterAnchored(profile, plan, Complete(p, f.step, f.value).value)
    {
      CompleteKeepsAnchors(profile, plan, p, f);
    }
    AnchoredItself(profile, plan);
    RecordAllKeeps(plan, findings, diskWrites, p => LaterAnchored(profile, plan, p));
  }

  lemma RebootMatches(profile: Profile, plan: Plan, world: World, exact: Exact)
    requires Anchored(profile, plan) && Relates(profile, plan, exact.identity)
    ensures forall f :: f in Decided(RebootFindings(plan, world, exact)) ==> Matched(profile, plan, f)
  {
    if RebootFindings(plan, world, exact).Some? {
      ActiveStep(profile, plan);
      StepPlaces(profile);
      assert plan.revision == ConfigBootAt(profile);
    }
  }

  lemma DriverMatches(profile: Profile, plan: Plan, world: World, exact: Exact)
    requires Anchored(profile, plan) && Relates(profile, plan, exact.identity)
    ensures forall f :: f in Decided(DriverFindings(plan, world, exact)) ==> Matched(profile, plan, f)
  {
    AdmittedIsPinnedMachine(profile, plan, exact.identity);
  }

  lemma FindingsMatch(command: Command, world: World, profile: Profile, exact: Exact, registry: Registry, plan: Plan)
    requires Anchored(profile, plan) && Relates(profile, plan, exact.identity) && !command.Provision?
    ensures forall f :: f in GuardedFindings(command, world, profile, exact, registry, plan) ==> Matched(profile, plan, f)
  {
    match command
    case Prepare(digests) => PreparationIsPlain(plan.steps, digests);
    case VerifyDriver => DriverMatches(profile, plan, world, exact);
    case VerifyConfigurationReboot => RebootMatches(profile, plan, world, exact);
    case _ =>
  }

  // Every command keeps the recorded boots those of the pinned machine.
  lemma CommandKeepsAnchors(command: Command, world: World, profile: Profile, registry: Registry, d: Deployment)
    requires Anchored(profile, d.plan) && DistinctParts(profile.identity.gpus)
    ensures LaterAnchored(profile, d.plan, Run(command, world, profile, registry, d).after.plan)
  {
    var writes := CommandRecords(command, world, profile, registry, d);
    if !command.Provision? && LoadExact(profile, d.plan, world).Some? {
      AdmittedRelates(profile, d.plan, world);
      FindingsMatch(command, world, profile, LoadExact(profile, d.plan, world).value, registry, d.plan);
    }
    RecordAllKeepsAnchors(profile, d.plan, FindingsOf(command, world, profile, registry, d.plan), writes);
  }
}
