// The guarded deployment commands: each re-checks the machine against the last recorded boot before
// it looks at its own evidence, and the plan moves on one durable step at a time.
module Workflow {
  import opened Prelude
  import opened Hardware
  import opened BarRules
  import opened CoreConfig
  import opened ConfigCodec
  import opened Recommendation
  import opened DriverEvidence
  import opened Identity
  import opened DeploymentPlan
  import Saving = SaveSettings

  // ---------------------------------------------------------------- what a command sees

  datatype FirmwareTexts = FirmwareTexts(
    boardManufacturer: string,
    boardProduct: string,
    boardVersion: string,
    biosVendor: string,
    biosVersion: string,
    biosReleaseDate: string)

  function FingerprintOf(gpu: GpuDevice): GpuFingerprint {
    GpuFingerprint(gpu.vendorId, gpu.deviceId, gpu.subVendor, gpu.subDevice, gpu.Id(),
                   Slot(gpu.bridge.bus, gpu.bridge.device, gpu.bridge.fn), gpu.bar0Base, gpu.bar0Top)
  }

  function CollectIdentity(texts: FirmwareTexts, devices: seq<GpuDevice>): MachineIdentity {
    MachineIdentity(texts.boardManufacturer, texts.boardProduct, texts.boardVersion, texts.biosVendor, texts.biosVersion,
                    texts.biosReleaseDate, seq(|devices|, i requires 0 <= i < |devices| => FingerprintOf(devices[i])))
  }

  // The surroundings during one command: None is a call that failed, `profileStands` says the built-in
  // patch authority still stands by the profile. Plan writes succeed until the disk gives out after
  // `diskWrites` of them.
  datatype World = World(
    profileStands: bool,
    devices: Option<seq<GpuDevice>>,
    texts: Option<FirmwareTexts>,
    originalIntact: bool,
    artifactsValid: bool,
    now: u64,
    bootTime: Option<u64>,
    status: Option<StatusObservation>,
    devicesAtWrite: Option<seq<GpuDevice>>,
    around: Saving.Surroundings,
    savedAt: u64,
    diskWrites: nat)

  // The token of a manual step: printed from the step, the profile and the plan revision.
  datatype ConfirmationToken = ConfirmationToken(step: StepId, profileId: string, revision: u32)

  datatype Command =
    | Provision
    | Prepare(digests: seq<Digest>)
    | ConfirmManual(step: StepId, token: ConfirmationToken, confirmed: bool)
    | VerifyDriver
    | SaveConfig(draft: ConfigDraft)
    | VerifyConfigurationReboot
    | CollectBarEvidence(digest: Digest)
    | LookOnly

  // ---------------------------------------------------------------- the identity gate

  function AllowedWhile(active: Option<StepId>): AllowedChange {
    match active
    case Some(FlashWithVendorRoute) | Some(ConfigureFirmwareSetup) | Some(RebootAfterFirmware) => FirmwareRevisionAndBar0
    case Some(RebootAfterConfiguration) => Bar0Relocation
    case _ => Nothing
  }

  function ExpectedIdentity(profile: Profile, plan: Plan): Result<Pinned, PlanError> {
    var boot := LatestBoot(plan);
    if boot.Err? then Err(boot.error) else Ok(if boot.value.Some? then boot.value.value.identity else profile.identity)
  }

  datatype Exact = Exact(devices: seq<GpuDevice>, identity: Pinned)

  // What a guarded command starts from: the devices and the identity of a machine that is still the
  // expected one, as far as the active step asks.
  function LoadExact(profile: Profile, plan: Plan, world: World): Option<Exact> {
    if !world.profileStands || world.devices.None? || world.texts.None? || ExpectedIdentity(profile, plan).Err? then None
    else
      var current := CollectIdentity(world.texts.value, world.devices.value);
      var differences := Compare(ExpectedIdentity(profile, plan).value, current, AllowedWhile(Active(plan)))
                         + if world.originalIntact then [] else [FirmwareImage];
      if differences != [] || Normalized(current).Err? then None
      else Some(Exact(world.devices.value, Normalized(current).value))
  }

  // ---------------------------------------------------------------- recording

  datatype Finding = Finding(step: StepId, value: EvidenceValue)

  // Records findings one durable revision at a time, until one is refused or the disk gives out.
  function RecordAll(plan: Plan, findings: seq<Finding>, diskWrites: nat): (bool, Plan)
    decreases |findings|
  {
    if findings == [] then (true, plan)
    else
      var next := Complete(plan, findings[0].step, findings[0].value);
      if next.Err? || diskWrites == 0 then (false, plan)
      else RecordAll(next.value, findings[1..], diskWrites - 1)
  }

  lemma RecordOne(plan: Plan, finding: Finding, diskWrites: nat)
    ensures var next := Complete(plan, finding.step, finding.value);
            RecordAll(plan, [finding], diskWrites) == if next.Ok? && diskWrites > 0 then (true, next.value) else (false, plan)
  {
    var next := Complete(plan, finding.step, finding.value);
    if next.Ok? && diskWrites > 0 {
      assert [finding][1..] == [];
      assert RecordAll(next.value, [], diskWrites - 1) == (true, next.value);
    }
  }

  lemma RecordsRest(plan: Plan, finding: Finding, rest: seq<Finding>, diskWrites: nat)
    ensures var next := Complete(plan, finding.step, finding.value);
            RecordAll(plan, [finding] + rest, diskWrites)
            == if next.Err? || diskWrites == 0 then (false, plan) else RecordAll(next.value, rest, diskWrites - 1)
  {
    assert ([finding] + rest)[1..] == rest;
  }

  predicate IsManual(step: StepId) {
    step == FlashWithVendorRoute || step == ConfigureFirmwareSetup || step == ConfigureNvidiaApplications
  }

  predicate IsPreparation(step: StepId) {
    step == PrepareRustDriver || step == ApplyLegacyBoardPatches || step == VerifyPatchedArtifact
  }

  function ProvisionFindings(profile: Profile, plan: Plan): seq<Finding> {
    (if IsCompleted(plan, VerifyProfile) then [] else [Finding(VerifyProfile, Text(profile.profileId))])
    + (if IsCompleted(plan, ConfirmRecovery) then [] else [Finding(ConfirmRecovery, Text(profile.recovery))])
    + (if IsCompleted(plan, PreserveOriginalFirmware) then [] else [Finding(PreserveOriginalFirmware, Hash(profile.originalFirmware))])
  }

  // The raw status, when exactly eight bytes were read.
  function DriverStatusRaw(world: World): Option<u64> {
    match world.status
    case Some(Present(bytes)) => if |bytes| == 8 then Some(U64At(bytes, 0)) else None
    case _ => None
  }

  function PreparationFindings(steps: seq<StepId>, digests: seq<Digest>): seq<Finding> {
    if steps == [] || digests == [] then []
    else [Finding(steps[0], Hash(digests[0]))] + PreparationFindings(steps[1..], digests[1..])
  }

  // The preparation steps still open, in plan order.
  function OpenPreparation(steps: seq<Step>): seq<StepId> {
    if steps == [] then []
    else (if IsPreparation(steps[0].id) && steps[0].state != Completed then [steps[0].id] else []) + OpenPreparation(steps[1..])
  }

  function ManualFindings(profile: Profile, plan: Plan, world: World, command: Command): Option<seq<Finding>>
    requires command.ConfirmManual?
  {
    var active := Active(plan);
    if active.None? || !IsManual(active.value) then None
    else if active.value == FlashWithVendorRoute && !(world.artifactsValid && profile.hasInstallRoute) then None
    else if !command.confirmed || command.step != active.value then None
    else if command.token != ConfirmationToken(active.value, profile.profileId, plan.revision) then None
    else Some([Finding(command.step, Attested(world.now))])
  }

  function DriverFindings(plan: Plan, world: World, exact: Exact): Option<seq<Finding>> {
    var active := Active(plan);
    var raw := DriverStatusRaw(world);
    if !(active == Some(RebootAfterFirmware) || active == Some(VerifyDriverLoaded)) then None
    else if raw.None? || !ProvesDriverLoaded(StatusCode(raw.value)) then None
    else
      var boot := Finding(RebootAfterFirmware, Boot(BootObservation(world.now, exact.identity)));
      Some((if active == Some(RebootAfterFirmware) then [boot] else []) + [Finding(VerifyDriverLoaded, Status(raw.value))])
  }

  // When the configuration was written, from the plan's own evidence.
  function ConfigurationSavedAt(plan: Plan): Option<u64> {
    var evidence := CompletedEvidence(plan, WriteNvstrapsConfiguration);
    if evidence.Ok? && evidence.value.value.Moment? then Some(evidence.value.value.ms) else None
  }

  function RebootFindings(plan: Plan, world: World, exact: Exact): Option<seq<Finding>> {
    if Active(plan) != Some(RebootAfterConfiguration) then None
    else if ConfigurationSavedAt(plan).None? || world.bootTime.None? then None
    else if world.bootTime.value <= ConfigurationSavedAt(plan).value then None
    else Some([Finding(RebootAfterConfiguration, Boot(BootObservation(world.bootTime.value, exact.identity)))])
  }

  function BarFindings(plan: Plan, digest: Digest): Option<seq<Finding>> {
    if Active(plan) != Some(VerifyResizableBar) then None else Some([Finding(VerifyResizableBar, Hash(digest))])
  }

  // ---------------------------------------------------------------- one command

  datatype Deployment = Deployment(plan: Plan, saved: Saving.State)

  // `admitted` says the command passed the identity gate; `wroteConfig` that it stored a configuration.
  datatype Outcome = Outcome(ok: bool, admitted: bool, wroteConfig: bool, after: Deployment)

  function Recording(d: Deployment, findings: Option<seq<Finding>>, world: World): Outcome {
    if findings.None? then Outcome(false, true, false, d)
    else
      var (ok, plan) := RecordAll(d.plan, findings.value, world.diskWrites);
      Outcome(ok, true, false, d.(plan := plan))
  }

  predicate MaySave(plan: Plan, world: World, exact: Exact, draft: ConfigDraft, registry: Registry) {
    && Active(plan) == Some(WriteNvstrapsConfiguration)
    && world.devicesAtWrite == Some(exact.devices)
    && Recommendable(exact.devices, registry)
    && draft == RecommendedDraft(exact.devices, registry)
  }

  function SavingConfig(profile: Profile, draft: ConfigDraft, world: World, exact: Exact, registry: Registry, d: Deployment): Outcome {
    if !MaySave(d.plan, world, exact, draft, registry) then Outcome(false, true, false, d)
    else
      var (save, saved) := Saving.SavedForDevices(draft, exact.devices, world.around, registry, d.saved);
      if save.Err? then Outcome(false, true, false, d.(saved := saved))
      else
        var (ok, plan) := RecordAll(d.plan, [Finding(WriteNvstrapsConfiguration, Moment(world.savedAt))], world.diskWrites);
        Outcome(ok, true, true, Deployment(plan, saved))
  }

  // The command itself, once the identity gate let it through.
  function Admitted(command: Command, world: World, profile: Profile, exact: Exact, registry: Registry, d: Deployment): Outcome
    requires !command.Provision?
  {
    match command
    case Prepare(digests) => Recording(d, Some(PreparationFindings(OpenPreparation(d.plan.steps), digests)), world)
    case ConfirmManual(_, _, _) => Recording(d, ManualFindings(profile, d.plan, world, command), world)
    case VerifyDriver => Recording(d, DriverFindings(d.plan, world, exact), world)
    case SaveConfig(draft) => SavingConfig(profile, draft, world, exact, registry, d)
    case VerifyConfigurationReboot => Recording(d, RebootFindings(d.plan, world, exact), world)
    case CollectBarEvidence(digest) => Recording(d, BarFindings(d.plan, digest), world)
    case LookOnly => Outcome(true, true, false, d)
  }

  function Provisioned(profile: Profile, world: World, d: Deployment): Outcome {
    var (ok, plan) := RecordAll(d.plan, ProvisionFindings(profile, d.plan), world.diskWrites);
    Outcome(ok, false, false, d.(plan := plan))
  }

  function Refused(d: Deployment): Outcome { Outcome(false, false, false, d) }

  function Run(command: Command, world: World, profile: Profile, registry: Registry, d: Deployment): Outcome {
    if command.Provision? then Provisioned(profile, world, d)
    else
      var exact := LoadExact(profile, d.plan, world);
      if exact.None? then Refused(d) else Admitted(command, world, profile, exact.value, registry, d)
  }
}
