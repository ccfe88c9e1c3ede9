// The deployment commands as the backend runs them: on the plan store, the application state and the
// firmware variable, through a workflow that advances one stored revision at a time.
module Commands {
  import opened Prelude
  import opened History
  import opened Hardware
  import opened BarRules
  import opened CoreConfig
  import opened ConfigCodec
  import opened Recommendation
  import opened DriverEvidence
  import opened Identity
  import opened DeploymentPlan
  import opened PlanStore
  import opened Workflow
  import Saving = SaveSettings

  // The plan a load returns: the highest revision.
  function Tip(files: Files): Plan
    requires |files| - 1 in files
  {
    files[|files| - 1]
  }

  ghost predicate HasLine(files: Files, profile: Profile) {
    Linear(files, profile) && |files| - 1 in files
  }

  lemma HasLineMeans(files: Files, profile: Profile)
    requires Linear(files, profile)
    ensures HasLine(files, profile) <==> files != map[]
  {
    if files != map[] {
      var n :| n in files;
      assert |files| - 1 in files;
    }
  }

  lemma TipIsStage(files: Files, profile: Profile)
    requires HasLine(files, profile)
    ensures StageIs(Tip(files), profile, |files| - 1) && Valid(Tip(files), profile) && Tip(files).revision == |files| - 1
  {
    StoredStage(files, profile, |files| - 1);
  }

  lemma AppendsToTip(files: Files, profile: Profile, next: Plan)
    requires Linear(files, profile) && MayLand(files, next, PlanKind(profile)) && next.revision as nat == |files|
    ensures Looked(files, next, PlanKind(profile)).Absent?
    ensures HasLine(files[|files| := next], profile) && Tip(files[|files| := next]) == next
  {
    KindIsLawful(profile);
    assert |files| !in files;
    AppendKeepsLine(files, next, PlanKind(profile));
    FilesGrow(files, |files|, next);
  }

  // At the tip, with nobody else at work, recording succeeds exactly when the step completes and the
  // disk works.
  lemma RecordAtTip(files: Files, profile: Profile, step: StepId, value: EvidenceValue, diskWorks: bool)
    requires HasLine(files, profile)
    ensures var next := Complete(Tip(files), step, value);
            var (r, after) := Recorded(files, profile, Tip(files), step, value, files, OutcomeIf(diskWorks));
            if next.Ok? && diskWorks then r == Ok(next.value) && after == files[|files| := next.value] && HasLine(after, profile) && Tip(after) == next.value
            else r.Err? && after == files
  {
    RecordingSaves(files, profile, Tip(files), step, value, files, OutcomeIf(diskWorks));
    if Complete(Tip(files), step, value).Ok? {
      NextAtTip(files, profile, step, value);
      SavesAtTip(files, profile, Complete(Tip(files), step, value).value, diskWorks);
    }
  }

  lemma SavesAtTip(files: Files, profile: Profile, next: Plan, diskWorks: bool)
    requires Linear(files, profile) && MayLand(files, next, PlanKind(profile)) && next.revision as nat == |files|
    ensures SavedItem(files, next, files, OutcomeIf(diskWorks), PlanKind(profile)) == (diskWorks, if diskWorks then files[|files| := next] else files)
    ensures HasLine(files[|files| := next], profile) && Tip(files[|files| := next]) == next
  {
    KindIsLawful(profile);
    SavesNext(files, next, diskWorks, PlanKind(profile));
    AppendsToTip(files, profile, next);
  }

  lemma NextAtTip(files: Files, profile: Profile, step: StepId, value: EvidenceValue)
    requires HasLine(files, profile) && Complete(Tip(files), step, value).Ok?
    ensures MayLand(files, Complete(Tip(files), step, value).value, PlanKind(profile))
    ensures Complete(Tip(files), step, value).value.revision as nat == |files|
  {
    TipIsStage(files, profile);
    RecordedMayLand(files, profile, Tip(files), step, value);
  }

  // The first revision of an empty store.
  lemma FirstPlan(profile: Profile, diskWorks: bool)
    ensures var (r, after) := SavedPlan(map[], profile, Built(profile), map[], OutcomeIf(diskWorks));
            if diskWorks then r.Ok? && HasLine(after, profile) && Tip(after) == Built(profile) else r.Err? && after == map[]
  {
    KindIsLawful(profile);
    var none: Files := map[];
    AppendsToTip(none, profile, Built(profile));
  }

  class Backend {
    const profile: Profile
    const registry: Registry
    const store: DeploymentStore
    const app: Saving.AppState
    const firmware: Saving.Firmware

    constructor (profile: Profile, registry: Registry, store: DeploymentStore, app: Saving.AppState, firmware: Saving.Firmware)
      ensures this.profile == profile && this.registry == registry && this.store == store && this.app == app && this.firmware == firmware
    {
      this.profile, this.registry, this.store, this.app, this.firmware := profile, registry, store, app, firmware;
    }

    ghost predicate Ready()
      reads store
    {
      HasLine(store.files, profile)
    }

    ghost function Now(): Deployment
      reads store, app, firmware
      requires Ready()
    {
      Deployment(Tip(store.files), Saving.State(app.Value(), firmware.configVariable))
    }

    // Loads the latest plan and refuses a machine that is not the expected one.
    method LoadExactDeployment(world: World) returns (plan: Plan, exact: Option<Exact>)
      requires Ready()
      ensures plan == Tip(store.files) && exact == LoadExact(profile, plan, world)
    {
      LinearIsReadable(store.files, profile);
      var loaded := store.LoadPlan(profile);
      TipIsStage(store.files, profile);
      assert loaded.Ok? && loaded.value.revision == |store.files| - 1;
      return loaded.value, LoadExact(profile, loaded.value, world);
    }

    // One durable step, counted against what the disk still takes.
    method RecordStep(workflow: DeploymentWorkflow, finding: Finding, diskWrites: nat) returns (ok: bool)
      requires Ready() && workflow.store == store && workflow.profile == profile && workflow.plan == Tip(store.files)
      modifies workflow, store
      ensures Ready() && workflow.plan == Tip(store.files)
      ensures (ok, workflow.plan) == RecordAll(old(workflow.plan), [finding], diskWrites)
    {
      RecordAtTip(store.files, profile, finding.step, finding.value, diskWrites > 0);
      RecordOne(workflow.plan, finding, diskWrites);
      var recorded := workflow.RecordStep(finding.step, finding.value, store.files, OutcomeIf(diskWrites > 0));
      return recorded.Ok?;
    }

    // A command that records a single step through a workflow of its own.
    method RecordOnly(plan: Plan, step: StepId, value: EvidenceValue, diskWrites: nat) returns (ok: bool)
      requires Ready() && plan == Tip(store.files)
      modifies store
      ensures Ready()
      ensures (ok, Tip(store.files)) == RecordAll(plan, [Finding(step, value)], diskWrites)
    {
      TipIsStage(store.files, profile);
      var workflow := new DeploymentWorkflow(store, profile, plan);
      ok := RecordStep(workflow, Finding(step, value), diskWrites);
    }

    // What provisioning starts from: the latest plan, or the first one of an empty store, which takes
    // a write.
    ghost function Start(diskWrites: nat): Option<(Deployment, nat)>
      reads store, app, firmware
    {
      if Ready() then Some((Now(), diskWrites))
      else if diskWrites == 0 then None
      else Some((Deployment(Built(profile), Saving.State(app.Value(), firmware.configVariable)), diskWrites - 1))
    }

    method LoadOrCreate(diskWrites: nat) returns (plan: Option<Plan>, left: nat)
      requires Linear(store.files, profile)
      modifies store
      ensures var start := old(Start(diskWrites));
              if start.None? then plan.None? && store.files == map[]
              else plan.Some? && Ready() && plan.value == Tip(store.files) && (Now(), left) == start.value
    {
      HasLineMeans(store.files, profile);
      LinearIsReadable(store.files, profile);
      left := diskWrites;
      var loaded := store.LoadPlan(profile);
      if loaded.Ok? {
        TipIsStage(store.files, profile);
        assert loaded.value.revision == |store.files| - 1;
        return Some(loaded.value), left;
      }
      FirstPlan(profile, left > 0);
      var saved := store.SavePlan(profile, Built(profile), store.files, OutcomeIf(left > 0));
      if saved.Err? { return None, left; }
      return Some(Built(profile)), left - 1;
    }

    // The last part of provisioning: the first plan where there is none yet, and then each of the
    // first three steps that is still open.
    method Provision(world: World) returns (ok: bool)
      requires Linear(store.files, profile)
      modifies store
      ensures var start := old(Start(world.diskWrites));
              if start.None? then !ok && store.files == map[]
              else Ready() && (ok, Now()) == Ended(Provisioned(profile, world.(diskWrites := start.value.1), start.value.0))
    {
      var plan, left := LoadOrCreate(world.diskWrites);
      if plan.None? { return false; }
      var found := world.(diskWrites := left);
      ProvisioningRecords(profile, found, Now());
      ok := RecordDecision(plan.value, Some(ProvisionFindings(profile, plan.value)), found);
    }

    method RecordEach(workflow: DeploymentWorkflow, findings: seq<Finding>, diskWrites: nat) returns (ok: bool)
      requires Ready() && workflow.store == store && workflow.profile == profile && workflow.plan == Tip(store.files)
      modifies workflow, store
      ensures Ready() && workflow.plan == Tip(store.files)
      ensures (ok, workflow.plan) == RecordAll(old(workflow.plan), findings, diskWrites)
    {
      var rest, left := findings, diskWrites;
      ghost var wanted := RecordAll(workflow.plan, findings, diskWrites);
      while rest != []
        invariant Ready() && workflow.plan == Tip(store.files)
        invariant RecordAll(workflow.plan, rest, left) == wanted
        decreases |rest|
      {
        ok, rest, left := RecordNext(workflow, rest, left);
        if !ok { return; }
      }
      return true;
    }

    // One turn of that loop: what is still to record, and what the disk still takes.
    method RecordNext(workflow: DeploymentWorkflow, findings: seq<Finding>, diskWrites: nat) returns (ok: bool, rest: seq<Finding>, left: nat)
      requires Ready() && workflow.store == store && workflow.profile == profile && workflow.plan == Tip(store.files)
      requires findings != []
      modifies workflow, store
      ensures Ready() && workflow.plan == Tip(store.files)
      ensures RecordAll(old(workflow.plan), findings, diskWrites) == if ok then RecordAll(workflow.plan, rest, left) else (false, workflow.plan)
      ensures |rest| < |findings|
    {
      RecordsFirst(workflow.plan, findings, diskWrites);
      ok := RecordStep(workflow, findings[0], diskWrites);
      rest, left := findings[1..], if ok then diskWrites - 1 else diskWrites;
    }

    // Records what a command decided on, if anything.
    method RecordDecision(plan: Plan, decided: Option<seq<Finding>>, world: World) returns (ok: bool)
      requires Ready() && plan == Tip(store.files)
      modifies store
      ensures Ready()
      ensures (ok, Now()) == Ended(Recording(old(Now()), decided, world))
    {
      if decided.None? { return false; }
      TipIsStage(store.files, profile);
      var workflow := new DeploymentWorkflow(store, profile, plan);
      ok := RecordEach(workflow, decided.value, world.diskWrites);
    }

    method ConfirmManualStep(world: World, step: StepId, token: ConfirmationToken, confirmed: bool) returns (ok: bool)
      requires Ready()
      modifies store
      ensures Ready()
      ensures if LoadExact(profile, old(Now()).plan, world).None? then !ok && Now() == old(Now())
              else (ok, Now()) == Ended(Recording(old(Now()), ManualFindings(profile, old(Now()).plan, world, ConfirmManual(step, token, confirmed)), world))
    {
      var plan, exact := LoadExactDeployment(world);
      if exact.None? { return false; }
      var decided := DecideManualStep(profile, plan, world, step, token, confirmed);
      ok := RecordDecision(plan, decided, world);
    }

    method VerifyDeploymentDriver(world: World) returns (ok: bool)
      requires Ready()
      modifies store
      ensures Ready()
      ensures var exact := LoadExact(profile, old(Now()).plan, world);
              if exact.None? then !ok && Now() == old(Now())
              else (ok, Now()) == Ended(Recording(old(Now()), DriverFindings(old(Now()).plan, world, exact.value), world))
    {
      var plan, exact := LoadExactDeployment(world);
      if exact.None? { return false; }
      var decided := DecideDriver(plan, world, exact.value);
      ok := RecordDecision(plan, decided, world);
    }

    method SaveDeploymentConfig(world: World, draft: ConfigDraft) returns (ok: bool)
      requires Ready()
      modifies store, app, firmware
      ensures Ready()
      ensures var exact := LoadExact(profile, old(Now()).plan, world);
              if exact.None? then !ok && Now() == old(Now())
              else (ok, Now()) == Ended(SavingConfig(profile, draft, world, exact.value, registry, old(Now())))
    {
      var plan, exact := LoadExactDeployment(world);
      if exact.None? { return false; }
      var go := DecideSave(plan, world, exact.value, draft, registry);
      if !go { return false; }
      ok := WriteAndRecord(plan, world, exact.value, draft);
    }

    // The write with its read-back, and then the record of it.
    method WriteAndRecord(plan: Plan, world: World, exact: Exact, draft: ConfigDraft) returns (ok: bool)
      requires Ready() && plan == Tip(store.files) && MaySave(plan, world, exact, draft, registry)
      modifies store, app, firmware
      ensures Ready()
      ensures (ok, Now()) == Ended(SavingConfig(profile, draft, world, exact, registry, old(Now())))
    {
      var devices := world.devicesAtWrite.value;
      var save := app.SaveConfigForDevices(draft, devices, world.around, registry, firmware);
      if save.Err? { return false; }
      ok := RecordOnly(plan, WriteNvstrapsConfiguration, Moment(world.savedAt), world.diskWrites);
    }

    method VerifyReboot(world: World) returns (ok: bool)
      requires Ready()
      modifies store
      ensures Ready()
      ensures var exact := LoadExact(profile, old(Now()).plan, world);
              if exact.None? then !ok && Now() == old(Now())
              else (ok, Now()) == Ended(Recording(old(Now()), RebootFindings(old(Now()).plan, world, exact.value), world))
    {
      var plan, exact := LoadExactDeployment(world);
      if exact.None? { return false; }
      var decided := DecideReboot(plan, world, exact.value);
      ok := RecordDecision(plan, decided, world);
    }

    method CollectNvidiaSmiEvidence(world: World, digest: Digest) returns (ok: bool)
      requires Ready()
      modifies store
      ensures Ready()
      ensures if LoadExact(profile, old(Now()).plan, world).None? then !ok && Now() == old(Now())
              else (ok, Now()) == Ended(Recording(old(Now()), BarFindings(old(Now()).plan, digest), world))
    {
      var plan, exact := LoadExactDeployment(world);
      if exact.None? { return false; }
      var decided := DecideBarEvidence(plan, digest);
      ok := RecordDecision(plan, decided, world);
    }
  }

  // ---------------------------------------------------------------- the checks of each command, in their order

  method DecideManualStep(profile: Profile, plan: Plan, world: World, step: StepId, token: ConfirmationToken, confirmed: bool)
    returns (decided: Option<seq<Finding>>)
    ensures decided == ManualFindings(profile, plan, world, ConfirmManual(step, token, confirmed))
  {
    var active := Active(plan);
    if active == Some(FlashWithVendorRoute) && !world.artifactsValid { return None; }
    if active.None? || !IsManual(active.value) { return None; }
    if active == Some(FlashWithVendorRoute) && !profile.hasInstallRoute { return None; }
    if !confirmed { return None; }
    if step != active.value { return None; }
    if token != ConfirmationToken(active.value, profile.profileId, plan.revision) { return None; }
    return Some([Finding(step, Attested(world.now))]);
  }

  method DecideDriver(plan: Plan, world: World, exact: Exact) returns (decided: Option<seq<Finding>>)
    ensures decided == DriverFindings(plan, world, exact)
  {
    var active := Active(plan);
    if active.None? { return None; }
    var recordsBoot;
    match active.value {
      case RebootAfterFirmware => recordsBoot := true;
      case VerifyDriverLoaded => recordsBoot := false;
      case _ => return None;
    }
    var raw := DriverStatusRaw(world);
    if raw.None? || !ProvesDriverLoaded(StatusCode(raw.value)) { return None; }
    var findings := if recordsBoot then [Finding(RebootAfterFirmware, Boot(BootObservation(world.now, exact.identity)))] else [];
    findings := findings + [Finding(VerifyDriverLoaded, Status(raw.value))];
    return Some(findings);
  }

  method DecideBarEvidence(plan: Plan, digest: Digest) returns (decided: Option<seq<Finding>>)
    ensures decided == BarFindings(plan, digest)
  {
    if RequireActive(plan, VerifyResizableBar).Some? { return None; }
    return Some([Finding(VerifyResizableBar, Hash(digest))]);
  }

  // Whether the guarded write may go ahead: its step is active, the inventory is still the one the
  // preflight saw, and the draft is what the backend recommends for it.
  method DecideSave(plan: Plan, world: World, exact: Exact, draft: ConfigDraft, registry: Registry) returns (go: bool)
    ensures go <==> MaySave(plan, world, exact, draft, registry)
  {
    if RequireActive(plan, WriteNvstrapsConfiguration).Some? { return false; }
    if world.devicesAtWrite.None? { return false; }
    if exact.devices != world.devicesAtWrite.value { return false; }
    go := RequireRecommended(draft, world.devicesAtWrite.value, registry);
  }

  method DecideReboot(plan: Plan, world: World, exact: Exact) returns (decided: Option<seq<Finding>>)
    ensures decided == RebootFindings(plan, world, exact)
  {
    if RequireActive(plan, RebootAfterConfiguration).Some? { return None; }
    var savedAt := ConfigurationSavedAt(plan);
    if savedAt.None? || world.bootTime.None? { return None; }
    if world.bootTime.value <= savedAt.value { return None; }
    return Some([Finding(RebootAfterConfiguration, Boot(BootObservation(world.bootTime.value, exact.identity)))]);
  }

  function Ended(outcome: Outcome): (bool, Deployment) { (outcome.ok, outcome.after) }

  lemma ProvisioningRecords(profile: Profile, world: World, d: Deployment)
    ensures Ended(Provisioned(profile, world, d)) == Ended(Recording(d, Some(ProvisionFindings(profile, d.plan)), world))
  {
  }

  // Recording a list is recording its first finding and then the rest.
  lemma RecordsFirst(plan: Plan, findings: seq<Finding>, diskWrites: nat)
    requires findings != []
    ensures var (ok, next) := RecordAll(plan, [findings[0]], diskWrites);
            if ok then diskWrites > 0 && RecordAll(plan, findings, diskWrites) == RecordAll(next, findings[1..], diskWrites - 1)
            else RecordAll(plan, findings, diskWrites) == (false, plan) && next == plan
  {
    RecordOne(plan, findings[0], diskWrites);
  }
}
