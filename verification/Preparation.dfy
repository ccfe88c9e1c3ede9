// Preparing the firmware: a pipeline of "persist an artifact, then record its step" that can be cut
// off between any two durable writes and started again.
module Preparation {
  import opened Prelude
  import opened DeploymentPlan

  datatype ArtifactKind = RustDriverFfs | LegacyPatchedFirmware | LegacyReceiptFile | PatchedFirmware | InjectionReceiptFile

  datatype LegacyReceipt = LegacyReceipt(patchedFirmware: Digest, applications: Bytes)
  datatype InjectionReceipt = InjectionReceipt(patchedFirmware: Digest, targets: Bytes)

  // The injector, the legacy patcher, the receipt encodings and the preserved original, as functions
  // of their inputs alone. None is a refusal.
  datatype Tools = Tools(
    profileStands: bool,
    original: Option<Bytes>,
    payload: Bytes -> Option<Bytes>,
    driverIsValid: Bytes -> bool,
    patch: Bytes -> Option<(Bytes, LegacyReceipt)>,
    legacyReceiptIsValid: (Digest, LegacyReceipt) -> bool,
    encodeLegacy: LegacyReceipt -> Bytes,
    decodeLegacy: Bytes -> Option<LegacyReceipt>,
    inject: (Bytes, Bytes) -> Option<(Bytes, Bytes)>,
    refusesDuplicate: (Bytes, Bytes) -> bool,
    encodeInjection: InjectionReceipt -> Bytes,
    decodeInjection: Bytes -> Option<InjectionReceipt>)

  // What the pipeline needs of them: receipts decode to what was encoded, and the patch authority
  // stands by the receipts it issues.
  ghost predicate Dependable(tools: Tools) {
    && (forall r :: tools.decodeLegacy(tools.encodeLegacy(r)) == Some(r))
    && (forall r :: tools.decodeInjection(tools.encodeInjection(r)) == Some(r))
    && (forall base :: tools.patch(base).Some? ==>
          tools.legacyReceiptIsValid(Sha256(tools.patch(base).value.0), tools.patch(base).value.1))
  }

  // What survives the process: the stored plan and the artifacts, each written once.
  datatype Disk = Disk(plan: Plan, artifacts: map<ArtifactKind, Bytes>)

  datatype PrepareError =
    | Cut | ProfileRefused | EmptyArtifact | ImmutableConflict | MissingArtifact | Refused(reason: PlanError)
    | InvalidDriver | OriginalUnavailable | UnusablePayload | PatchRefused | ReceiptMismatch
    | InvalidReceipt | InjectionRefused | AcceptsDuplicate | RebuildDiffers

  // How many more durable writes happen before the process is cut off; None is as many as needed.
  type Budget = Option<nat>

  function Spend(budget: Budget): Budget
    requires budget != Some(0)
  {
    if budget.None? then None else Some(budget.value - 1)
  }

  datatype Progress<+T> = Progress(result: Result<T, PrepareError>, disk: Disk, budget: Budget)

  // ---------------------------------------------------------------- durable writes

  function Preserve(disk: Disk, kind: ArtifactKind, bytes: Bytes, budget: Budget): Progress<Digest> {
    if bytes == [] then Progress(Err(EmptyArtifact), disk, budget)
    else if kind in disk.artifacts then
      Progress(if disk.artifacts[kind] == bytes then Ok(Sha256(bytes)) else Err(ImmutableConflict), disk, budget)
    else if budget == Some(0) then Progress(Err(Cut), disk, budget)
    else Progress(Ok(Sha256(bytes)), disk.(artifacts := disk.artifacts[kind := bytes]), Spend(budget))
  }

  function RecordDigest(disk: Disk, step: StepId, digest: Digest, budget: Budget): Progress<()> {
    var next := Complete(disk.plan, step, Hash(digest));
    if next.Err? then Progress(Err(Refused(next.error)), disk, budget)
    else if budget == Some(0) then Progress(Err(Cut), disk, budget)
    else Progress(Ok(()), disk.(plan := next.value), Spend(budget))
  }

  datatype Artifact = Artifact(kind: ArtifactKind, bytes: Bytes)

  // Artifacts one after the other, then the step they belong to.
  function WriteAll(disk: Disk, files: seq<Artifact>, step: StepId, digest: Digest, budget: Budget): Progress<()>
    decreases |files|
  {
    if files == [] then RecordDigest(disk, step, digest, budget)
    else
      var kept := Preserve(disk, files[0].kind, files[0].bytes, budget);
      if kept.result.Err? then Progress(Err(kept.result.error), kept.disk, kept.budget)
      else WriteAll(kept.disk, files[1..], step, digest, kept.budget)
  }

  function Yield<T>(written: Progress<()>, value: T): Progress<T> {
    Progress(if written.result.Ok? then Ok(value) else Err(written.result.error), written.disk, written.budget)
  }

  function LoadArtifact(disk: Disk, kind: ArtifactKind): Result<Bytes, PrepareError> {
    if kind !in disk.artifacts then Err(MissingArtifact)
    else if disk.artifacts[kind] == [] then Err(EmptyArtifact)
    else Ok(disk.artifacts[kind])
  }

  function RequireCompletedValue(plan: Plan, step: StepId, digest: Digest): Option<PlanError> {
    var evidence := CompletedEvidence(plan, step);
    if evidence.Err? then Some(evidence.error)
    else if evidence.value.value == Hash(digest) then None
    else Some(EvidenceValueMismatch(step))
  }

  // ---------------------------------------------------------------- first stage: the driver

  function LoadedDriver(disk: Disk, tools: Tools): Result<Digest, PrepareError> {
    var bytes := LoadArtifact(disk, RustDriverFfs);
    if bytes.Err? then Err(bytes.error)
    else if !tools.driverIsValid(bytes.value) then Err(InvalidDriver)
    else
      var mismatch := RequireCompletedValue(disk.plan, PrepareRustDriver, Sha256(bytes.value));
      if mismatch.Some? then Err(Refused(mismatch.value)) else Ok(Sha256(bytes.value))
  }

  function DriverStage(disk: Disk, bundled: Bytes, tools: Tools, budget: Budget): Progress<Digest> {
    if IsCompleted(disk.plan, PrepareRustDriver) then Progress(LoadedDriver(disk, tools), disk, budget)
    else if RequireActive(disk.plan, PrepareRustDriver).Some? then
      Progress(Err(Refused(RequireActive(disk.plan, PrepareRustDriver).value)), disk, budget)
    else if !tools.driverIsValid(bundled) then Progress(Err(InvalidDriver), disk, budget)
    else
      Yield(WriteAll(disk, [Artifact(RustDriverFfs, bundled)], PrepareRustDriver, Sha256(bundled), budget), Sha256(bundled))
  }

  // ---------------------------------------------------------------- second stage: legacy patches

  datatype Legacy = Legacy(firmware: Digest, receiptFile: Digest, receipt: LegacyReceipt)

  function LoadedLegacy(disk: Disk, tools: Tools): Result<Legacy, PrepareError> {
    var patched := LoadArtifact(disk, LegacyPatchedFirmware);
    if patched.Err? then Err(patched.error)
    else
      var file := LoadArtifact(disk, LegacyReceiptFile);
      if file.Err? then Err(file.error)
      else
        var mismatch := RequireCompletedValue(disk.plan, ApplyLegacyBoardPatches, Sha256(file.value));
        var receipt := tools.decodeLegacy(file.value);
        if mismatch.Some? then Err(Refused(mismatch.value))
        else if receipt.None? || !tools.legacyReceiptIsValid(Sha256(patched.value), receipt.value) then Err(InvalidReceipt)
        else Ok(Legacy(Sha256(patched.value), Sha256(file.value), receipt.value))
  }

  // The bytes the patcher or the injector starts from on a board without legacy patches.
  function BasePayload(tools: Tools): Result<Bytes, PrepareError> {
    if tools.original.None? then Err(OriginalUnavailable)
    else if tools.payload(tools.original.value).None? then Err(UnusablePayload)
    else Ok(tools.payload(tools.original.value).value)
  }

  function PatchedLegacy(tools: Tools): Result<(Bytes, LegacyReceipt), PrepareError> {
    var base := BasePayload(tools);
    if base.Err? then Err(base.error)
    else if tools.patch(base.value).None? then Err(PatchRefused)
    else Ok(tools.patch(base.value).value)
  }

  function LegacyStage(disk: Disk, tools: Tools, budget: Budget): Progress<Legacy> {
    if IsCompleted(disk.plan, ApplyLegacyBoardPatches) then Progress(LoadedLegacy(disk, tools), disk, budget)
    else if RequireActive(disk.plan, ApplyLegacyBoardPatches).Some? then
      Progress(Err(Refused(RequireActive(disk.plan, ApplyLegacyBoardPatches).value)), disk, budget)
    else
      var made := PatchedLegacy(tools);
      if made.Err? then Progress(Err(made.error), disk, budget)
      else LegacyWrites(disk, made.value.0, made.value.1, tools, budget)
  }

  // A receipt for other bytes is noticed once the patched firmware is stored.
  function LegacyWrites(disk: Disk, firmware: Bytes, receipt: LegacyReceipt, tools: Tools, budget: Budget): Progress<Legacy> {
    var file := tools.encodeLegacy(receipt);
    if receipt.patchedFirmware != Sha256(firmware) then
      var kept := Preserve(disk, LegacyPatchedFirmware, firmware, budget);
      Progress(Err(if kept.result.Err? then kept.result.error else ReceiptMismatch), kept.disk, kept.budget)
    else
      Yield(WriteAll(disk, [Artifact(LegacyPatchedFirmware, firmware), Artifact(LegacyReceiptFile, file)],
                     ApplyLegacyBoardPatches, Sha256(file), budget),
            Legacy(Sha256(firmware), Sha256(file), receipt))
  }

  // ---------------------------------------------------------------- third stage: injection

  datatype Injected = Injected(firmware: Digest, receiptFile: Digest, receipt: InjectionReceipt)

  function BaseFirmware(disk: Disk, board: BoardPath, tools: Tools): Result<Bytes, PrepareError> {
    if board.LegacyAbove4g? then LoadArtifact(disk, LegacyPatchedFirmware) else BasePayload(tools)
  }

  // The injection of the persisted driver into the base firmware.
  function Rebuilt(disk: Disk, board: BoardPath, tools: Tools): Result<(Bytes, Bytes), PrepareError> {
    var driver := LoadArtifact(disk, RustDriverFfs);
    if driver.Err? then Err(driver.error)
    else
      var base := BaseFirmware(disk, board, tools);
      if base.Err? then Err(base.error)
      else if tools.inject(base.value, driver.value).None? then Err(InjectionRefused)
      else Ok(tools.inject(base.value, driver.value).value)
  }

  // The persisted driver once more, its recorded digest checked first.
  function DriverOnRecord(disk: Disk, tools: Tools): Result<Digest, PrepareError> {
    var bytes := LoadArtifact(disk, RustDriverFfs);
    if bytes.Err? then Err(bytes.error)
    else
      var mismatch := RequireCompletedValue(disk.plan, PrepareRustDriver, Sha256(bytes.value));
      if mismatch.Some? then Err(Refused(mismatch.value))
      else if !tools.driverIsValid(bytes.value) then Err(InvalidDriver)
      else Ok(Sha256(bytes.value))
  }

  // The persisted artifact must be, byte for byte, what the injector builds today.
  function LoadedInjection(disk: Disk, board: BoardPath, tools: Tools): Result<Injected, PrepareError> {
    var driver := DriverOnRecord(disk, tools);
    if driver.Err? then Err(driver.error)
    else if board.LegacyAbove4g? && LoadedLegacy(disk, tools).Err? then Err(LoadedLegacy(disk, tools).error)
    else
      var expected := Rebuilt(disk, board, tools);
      var patched := LoadArtifact(disk, PatchedFirmware);
      if expected.Err? then Err(expected.error)
      else if patched.Err? then Err(patched.error)
      else
        var digest := Sha256(patched.value);
        var mismatch := RequireCompletedValue(disk.plan, VerifyPatchedArtifact, digest);
        var file := LoadArtifact(disk, InjectionReceiptFile);
        if mismatch.Some? then Err(Refused(mismatch.value))
        else if patched.value != expected.value.0 then Err(RebuildDiffers)
        else if file.Err? then Err(file.error)
        else if tools.decodeInjection(file.value) != Some(InjectionReceipt(digest, expected.value.1)) then Err(RebuildDiffers)
        else Ok(Injected(digest, Sha256(file.value), InjectionReceipt(digest, expected.value.1)))
  }

  function InjectionStage(disk: Disk, board: BoardPath, tools: Tools, budget: Budget): Progress<Injected> {
    if IsCompleted(disk.plan, VerifyPatchedArtifact) then Progress(LoadedInjection(disk, board, tools), disk, budget)
    else if RequireActive(disk.plan, VerifyPatchedArtifact).Some? then
      Progress(Err(Refused(RequireActive(disk.plan, VerifyPatchedArtifact).value)), disk, budget)
    else
      var built := Rebuilt(disk, board, tools);
      if built.Err? then Progress(Err(built.error), disk, budget)
      else if !tools.refusesDuplicate(built.value.0, DriverBytes(disk)) then Progress(Err(AcceptsDuplicate), disk, budget)
      else InjectionWrites(disk, built.value.0, built.value.1, tools, budget)
  }

  function DriverBytes(disk: Disk): Bytes {
    if RustDriverFfs in disk.artifacts then disk.artifacts[RustDriverFfs] else []
  }

  function InjectionWrites(disk: Disk, firmware: Bytes, targets: Bytes, tools: Tools, budget: Budget): Progress<Injected> {
    var receipt := InjectionReceipt(Sha256(firmware), targets);
    var file := tools.encodeInjection(receipt);
    Yield(WriteAll(disk, [Artifact(PatchedFirmware, firmware), Artifact(InjectionReceiptFile, file)],
                   VerifyPatchedArtifact, Sha256(firmware), budget),
          Injected(Sha256(firmware), Sha256(file), receipt))
  }

  // ---------------------------------------------------------------- the whole preparation

  datatype Prepared = Prepared(plan: Plan, driver: Digest, legacy: Option<Legacy>, injected: Injected)

  type Stage<!T> = (Disk, Budget) -> Progress<T>

  // One stage after the other; the second starts only where the first succeeded.
  function Both<T, U>(first: Stage<T>, second: Stage<U>, disk: Disk, budget: Budget): Progress<(T, U)> {
    var a := first(disk, budget);
    if a.result.Err? then Progress(Err(a.result.error), a.disk, a.budget)
    else
      var b := second(a.disk, a.budget);
      if b.result.Err? then Progress(Err(b.result.error), b.disk, b.budget)
      else Progress(Ok((a.result.value, b.result.value)), b.disk, b.budget)
  }

  function Driver(bundled: Bytes, tools: Tools): Stage<Digest> {
    (disk, budget) => DriverStage(disk, bundled, tools, budget)
  }

  // A board without legacy patches skips the second stage.
  function LegacyIfAny(board: BoardPath, tools: Tools): Stage<Option<Legacy>> {
    (disk, budget) =>
      if board.NativeResizableBar? then Progress(Ok(None), disk, budget)
      else
        var stage: Progress<Legacy> := LegacyStage(disk, tools, budget);
        Progress(if stage.result.Ok? then Ok(Some(stage.result.value)) else Err(stage.result.error), stage.disk, stage.budget)
  }

  function Injection(board: BoardPath, tools: Tools): Stage<Injected> {
    (disk, budget) => InjectionStage(disk, board, tools, budget)
  }

  function BeforeInjection(board: BoardPath, bundled: Bytes, tools: Tools): Stage<(Digest, Option<Legacy>)> {
    (disk, budget) => Both(Driver(bundled, tools), LegacyIfAny(board, tools), disk, budget)
  }

  function AllStages(board: BoardPath, bundled: Bytes, tools: Tools): Stage<((Digest, Option<Legacy>), Injected)> {
    (disk, budget) => Both(BeforeInjection(board, bundled, tools), Injection(board, tools), disk, budget)
  }

  function Prepare(disk: Disk, board: BoardPath, bundled: Bytes, tools: Tools, budget: Budget): Progress<Prepared> {
    if !tools.profileStands then Progress(Err(ProfileRefused), disk, budget)
    else
      var p := AllStages(board, bundled, tools)(disk, budget);
      Progress(if p.result.Err? then Err(p.result.error)
               else Ok(Prepared(p.disk.plan, p.result.value.0.0, p.result.value.0.1, p.result.value.1)),
               p.disk, p.budget)
  }
}
