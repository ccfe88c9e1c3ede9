// What a preparation that got through leaves on disk and on record, and when a stage writes nothing.
module PreparationOutcome {
  import opened Prelude
  import opened DeploymentPlan
  import opened Preparation
  import opened Resumption

  predicate OnRecord(plan: Plan, step: StepId, digest: Digest) {
    exists s :: s in plan.steps && s.id == step && s.state == Completed && s.evidence.Some? && s.evidence.value.value == Hash(digest)
  }

  lemma {:induction false} FoundIsThere(steps: seq<Step>, id: StepId)
    ensures FindStep(steps, id).Some? ==> FindStep(steps, id).value in steps && FindStep(steps, id).value.id == id
  {
    if steps != [] && steps[0].id != id {
      FoundIsThere(steps[1..], id);
    }
  }

  lemma ValueIsOnRecord(plan: Plan, step: StepId, digest: Digest)
    requires RequireCompletedValue(plan, step, digest).None?
    ensures OnRecord(plan, step, digest)
  {
    FoundIsThere(plan.steps, step);
    var s := FindStep(plan.steps, step).value;
    assert s in plan.steps && s.evidence.value.value == Hash(digest);
  }

  predicate Stored(disk: Disk, kind: ArtifactKind) { kind in disk.artifacts && disk.artifacts[kind] != [] }

  // The driver on disk is a valid one and its digest is the one on record.
  predicate DriverKept(disk: Disk, tools: Tools, driver: Digest) {
    && Stored(disk, RustDriverFfs) && tools.driverIsValid(disk.artifacts[RustDriverFfs])
    && driver == Sha256(disk.artifacts[RustDriverFfs]) && OnRecord(disk.plan, PrepareRustDriver, driver)
  }

  // The patched firmware on disk is one the patch authority stands by under the receipt kept with it,
  // whose digest is the one on record.
  predicate LegacyKept(disk: Disk, tools: Tools, legacy: Legacy) {
    && Stored(disk, LegacyPatchedFirmware) && Stored(disk, LegacyReceiptFile)
    && legacy.firmware == Sha256(disk.artifacts[LegacyPatchedFirmware])
    && legacy.receiptFile == Sha256(disk.artifacts[LegacyReceiptFile])
    && tools.decodeLegacy(disk.artifacts[LegacyReceiptFile]) == Some(legacy.receipt)
    && tools.legacyReceiptIsValid(legacy.firmware, legacy.receipt)
    && OnRecord(disk.plan, ApplyLegacyBoardPatches, legacy.receiptFile)
  }

  // What the driver goes into: on a legacy board the patched firmware, else the original's payload.
  predicate IsBase(disk: Disk, board: BoardPath, tools: Tools, base: Bytes) {
    if board.LegacyAbove4g? then Stored(disk, LegacyPatchedFirmware) && base == disk.artifacts[LegacyPatchedFirmware]
    else tools.original.Some? && tools.payload(tools.original.value) == Some(base)
  }

  // The firmware to flash is, byte for byte, that base with the driver on disk injected; its digest is
  // on record, and the receipt kept with it names that digest and the places it was injected at.
  ghost predicate InjectionKept(disk: Disk, board: BoardPath, tools: Tools, injected: Injected) {
    && Stored(disk, RustDriverFfs) && Stored(disk, PatchedFirmware) && Stored(disk, InjectionReceiptFile)
    && injected.firmware == Sha256(disk.artifacts[PatchedFirmware])
    && injected.receiptFile == Sha256(disk.artifacts[InjectionReceiptFile])
    && injected.receipt.patchedFirmware == injected.firmware
    && tools.decodeInjection(disk.artifacts[InjectionReceiptFile]) == Some(injected.receipt)
    && OnRecord(disk.plan, VerifyPatchedArtifact, injected.firmware)
    && exists base ::
         && IsBase(disk, board, tools, base)
         && tools.inject(base, disk.artifacts[RustDriverFfs]) == Some((disk.artifacts[PatchedFirmware], injected.receipt.targets))
  }

  lemma DriverDoneIsKept(disk: Disk, tools: Tools, driver: Digest)
    requires DriverDone(disk, tools, driver)
    ensures DriverKept(disk, tools, driver)
  {
    ValueIsOnRecord(disk.plan, PrepareRustDriver, driver);
  }

  lemma LegacyDoneIsKept(disk: Disk, tools: Tools, legacy: Legacy)
    requires LegacyDone(disk, tools, legacy)
    ensures LegacyKept(disk, tools, legacy)
  {
    ValueIsOnRecord(disk.plan, ApplyLegacyBoardPatches, legacy.receiptFile);
  }

  lemma InjectionDoneIsKept(disk: Disk, board: BoardPath, tools: Tools, injected: Injected)
    requires InjectionDone(disk, board, tools, injected)
    ensures InjectionKept(disk, board, tools, injected)
  {
    ValueIsOnRecord(disk.plan, VerifyPatchedArtifact, injected.firmware);
    var base := BaseFirmware(disk, board, tools).value;
    assert IsBase(disk, board, tools, base);
  }

  ghost predicate WellPrepared(disk: Disk, board: BoardPath, tools: Tools, prepared: Prepared) {
    && prepared.plan == disk.plan
    && DriverKept(disk, tools, prepared.driver)
    && (prepared.legacy.Some? <==> board.LegacyAbove4g?)
    && (prepared.legacy.Some? ==> LegacyKept(disk, tools, prepared.legacy.value))
    && InjectionKept(disk, board, tools, prepared.injected)
  }

  // Whenever a preparation gets through, with any disk before it and however it was cut off earlier,
  // the disk holds a valid driver, on a legacy board the patched firmware with its receipt, and the base
  // firmware with that driver injected with its receipt; each recorded step names the digest of what is
  // there, and the result names the same.
  lemma PreparedFirmwareIsRight(disk: Disk, bundled: Bytes, tools: Tools, budget: Budget, profile: DeploymentPlan.Profile)
    requires Sane(disk, profile) && Dependable(tools) && Prepare(disk, profile.board, bundled, tools, budget).result.Ok?
    ensures var after := Prepare(disk, profile.board, bundled, tools, budget);
            WellPrepared(after.disk, profile.board, tools, after.result.value)
  {
    AllStagesLawful(bundled, tools, profile);
    var stages := AllStages(profile.board, bundled, tools);
    DoneAtAnyBudget(stages, SaneFor(profile), AllDone(profile.board, tools), Grows, disk, budget);
    var done := stages(disk, budget);
    DriverDoneIsKept(done.disk, tools, done.result.value.0.0);
    if profile.board.LegacyAbove4g? {
      LegacyDoneIsKept(done.disk, tools, done.result.value.0.1.value);
    }
    InjectionDoneIsKept(done.disk, profile.board, tools, done.result.value.1);
  }

  lemma DoneAtAnyBudget<T(!new)>(stage: Stage<T>, pre: Disk -> bool, done: (Disk, T) -> bool, grows: (Disk, Disk) -> bool, d: Disk,
                                 budget: Budget)
    requires Lawful(stage, pre, done, grows) && pre(d) && stage(d, budget).result.Ok?
    ensures done(stage(d, budget).disk, stage(d, budget).result.value)
  {
    assert Law(stage, pre, done, grows, d, if budget.Some? then budget.value else 0);
  }

  // ---------------------------------------------------------------- a stage of its own

  predicate Due(plan: Plan, step: StepId) { Active(plan) == Some(step) }

  // A stage whose step is neither completed nor the active one writes nothing.
  lemma NotDueWritesNothing(disk: Disk, board: BoardPath, bundled: Bytes, tools: Tools, budget: Budget)
    ensures !IsCompleted(disk.plan, PrepareRustDriver) && !Due(disk.plan, PrepareRustDriver) ==>
              DriverStage(disk, bundled, tools, budget).result.Err? && DriverStage(disk, bundled, tools, budget).disk == disk
    ensures !IsCompleted(disk.plan, ApplyLegacyBoardPatches) && !Due(disk.plan, ApplyLegacyBoardPatches) ==>
              LegacyStage(disk, tools, budget).result.Err? && LegacyStage(disk, tools, budget).disk == disk
    ensures !IsCompleted(disk.plan, VerifyPatchedArtifact) && !Due(disk.plan, VerifyPatchedArtifact) ==>
              InjectionStage(disk, board, tools, budget).result.Err? && InjectionStage(disk, board, tools, budget).disk == disk
  {
  }

  // A step already completed is only read again.
  lemma CompletedWritesNothing(disk: Disk, board: BoardPath, bundled: Bytes, tools: Tools, budget: Budget)
    ensures IsCompleted(disk.plan, PrepareRustDriver) ==> DriverStage(disk, bundled, tools, budget).disk == disk
    ensures IsCompleted(disk.plan, ApplyLegacyBoardPatches) ==> LegacyStage(disk, tools, budget).disk == disk
    ensures IsCompleted(disk.plan, VerifyPatchedArtifact) ==> InjectionStage(disk, board, tools, budget).disk == disk
  {
  }

  // A driver stage that does its step takes the bundled driver, and only a valid one.
  lemma FreshDriver(disk: Disk, bundled: Bytes, tools: Tools, budget: Budget)
    requires !IsCompleted(disk.plan, PrepareRustDriver) && Due(disk.plan, PrepareRustDriver)
    ensures var stage := DriverStage(disk, bundled, tools, budget);
            && (stage.result.Ok? ==> tools.driverIsValid(bundled) && stage.result.value == Sha256(bundled))
            && (!tools.driverIsValid(bundled) ==> stage.result == Err(InvalidDriver) && stage.disk == disk)
  {
  }

  // A legacy stage that does its step takes what the patcher makes of the original's payload, and only
  // with a receipt for those bytes.
  lemma FreshLegacy(disk: Disk, tools: Tools, budget: Budget)
    requires !IsCompleted(disk.plan, ApplyLegacyBoardPatches) && Due(disk.plan, ApplyLegacyBoardPatches)
    ensures var stage := LegacyStage(disk, tools, budget);
            stage.result.Ok? ==>
              && tools.original.Some? && tools.payload(tools.original.value).Some?
              && tools.patch(tools.payload(tools.original.value).value).Some?
              && var (firmware, receipt) := tools.patch(tools.payload(tools.original.value).value).value;
              && receipt.patchedFirmware == Sha256(firmware)
              && stage.result.value == Legacy(Sha256(firmware), Sha256(tools.encodeLegacy(receipt)), receipt)
  {
  }

  // An injection that would take the driver twice is refused before anything is written.
  lemma FreshInjection(disk: Disk, board: BoardPath, tools: Tools, budget: Budget)
    requires !IsCompleted(disk.plan, VerifyPatchedArtifact) && Due(disk.plan, VerifyPatchedArtifact) && Stored(disk, RustDriverFfs)
    ensures var stage := InjectionStage(disk, board, tools, budget);
            && (stage.result.Ok? ==>
                  exists base, firmware, targets ::
                    && IsBase(disk, board, tools, base) && tools.inject(base, disk.artifacts[RustDriverFfs]) == Some((firmware, targets))
                    && tools.refusesDuplicate(firmware, disk.artifacts[RustDriverFfs])
                    && stage.result.value.receipt == InjectionReceipt(Sha256(firmware), targets))
            && (forall base :: IsBase(disk, board, tools, base) && base != [] && tools.inject(base, disk.artifacts[RustDriverFfs]).Some?
                               && !tools.refusesDuplicate(tools.inject(base, disk.artifacts[RustDriverFfs]).value.0, disk.artifacts[RustDriverFfs])
                  ==> stage == Progress(Err(AcceptsDuplicate), disk, budget))
  {
    var stage := InjectionStage(disk, board, tools, budget);
    if stage.result.Ok? {
      var base := BaseFirmware(disk, board, tools).value;
      var (firmware, targets) := Rebuilt(disk, board, tools).value;
      assert IsBase(disk, board, tools, base) && tools.inject(base, disk.artifacts[RustDriverFfs]) == Some((firmware, targets));
    }
  }
}
