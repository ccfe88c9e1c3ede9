// The preparation as the backend runs it: a store of artifacts and a workflow, changed one durable
// write at a time, any of which may be the last one that happens.
module Preparer {
  import opened Prelude
  import opened DeploymentPlan
  import opened Preparation

  // The writes still to come after the first.
  lemma FirstWrite(disk: Disk, files: seq<Artifact>, step: StepId, digest: Digest, budget: Budget)
    requires files != []
    ensures var kept := Preserve(disk, files[0].kind, files[0].bytes, budget);
            WriteAll(disk, files, step, digest, budget) ==
              if kept.result.Err? then Progress(Err(kept.result.error), kept.disk, kept.budget)
              else WriteAll(kept.disk, files[1..], step, digest, kept.budget)
  {
  }

  lemma OneFile(disk: Disk, file: Artifact, step: StepId, digest: Digest, budget: Budget)
    ensures var kept := Preserve(disk, file.kind, file.bytes, budget);
            WriteAll(disk, [file], step, digest, budget) ==
              if kept.result.Err? then Progress(Err(kept.result.error), kept.disk, kept.budget)
              else RecordDigest(kept.disk, step, digest, kept.budget)
  {
    FirstWrite(disk, [file], step, digest, budget);
    assert [file][1..] == [];
  }

  lemma TwoFiles(disk: Disk, first: Artifact, second: Artifact, step: StepId, digest: Digest, budget: Budget)
    ensures var kept := Preserve(disk, first.kind, first.bytes, budget);
            WriteAll(disk, [first, second], step, digest, budget) ==
              if kept.result.Err? then Progress(Err(kept.result.error), kept.disk, kept.budget)
              else WriteAll(kept.disk, [second], step, digest, kept.budget)
  {
    FirstWrite(disk, [first, second], step, digest, budget);
    assert [first, second][1..] == [second];
  }

  class Pipeline {
    var plan: Plan
    var artifacts: map<ArtifactKind, Bytes>
    var budget: Budget

    constructor (disk: Disk, budget: Budget)
      ensures Value() == disk && this.budget == budget
    {
      plan, artifacts, this.budget := disk.plan, disk.artifacts, budget;
    }

    function Value(): Disk
      reads this
    {
      Disk(plan, artifacts)
    }

    method PreserveArtifact(kind: ArtifactKind, bytes: Bytes) returns (r: Result<Digest, PrepareError>)
      modifies this
      ensures Progress(r, Value(), budget) == Preserve(old(Value()), kind, bytes, old(budget))
    {
      if bytes == [] { return Err(EmptyArtifact); }
      if kind in artifacts {
        if artifacts[kind] != bytes { return Err(ImmutableConflict); }
        return Ok(Sha256(bytes));
      }
      if budget == Some(0) { return Err(Cut); }
      artifacts := artifacts[kind := bytes];
      budget := Spend(budget);
      return Ok(Sha256(bytes));
    }

    method RecordStep(step: StepId, digest: Digest) returns (r: Result<(), PrepareError>)
      modifies this
      ensures Progress(r, Value(), budget) == RecordDigest(old(Value()), step, digest, old(budget))
    {
      var next := Complete(plan, step, Hash(digest));
      if next.Err? { return Err(Refused(next.error)); }
      if budget == Some(0) { return Err(Cut); }
      plan := next.value;
      budget := Spend(budget);
      return Ok(());
    }

    method PrepareDriver(bundled: Bytes, tools: Tools) returns (r: Result<Digest, PrepareError>)
      modifies this
      ensures Progress(r, Value(), budget) == DriverStage(old(Value()), bundled, tools, old(budget))
    {
      if IsCompleted(plan, PrepareRustDriver) { return LoadedDriver(Value(), tools); }
      var refused := RequireActive(plan, PrepareRustDriver);
      if refused.Some? { return Err(Refused(refused.value)); }
      if !tools.driverIsValid(bundled) { return Err(InvalidDriver); }
      OneFile(Value(), Artifact(RustDriverFfs, bundled), PrepareRustDriver, Sha256(bundled), budget);
      r := PreserveArtifact(RustDriverFfs, bundled);
      if r.Err? { return; }
      var recorded := RecordStep(PrepareRustDriver, r.value);
      if recorded.Err? { return Err(recorded.error); }
    }

    method ApplyLegacyPatches(tools: Tools) returns (r: Result<Legacy, PrepareError>)
      modifies this
      ensures Progress(r, Value(), budget) == LegacyStage(old(Value()), tools, old(budget))
    {
      if IsCompleted(plan, ApplyLegacyBoardPatches) { return LoadedLegacy(Value(), tools); }
      var refused := RequireActive(plan, ApplyLegacyBoardPatches);
      if refused.Some? { return Err(Refused(refused.value)); }
      var made := PatchedLegacy(tools);
      if made.Err? { return Err(made.error); }
      r := StoreLegacy(made.value.0, made.value.1, tools);
    }

    method StoreLegacy(firmware: Bytes, receipt: LegacyReceipt, tools: Tools) returns (r: Result<Legacy, PrepareError>)
      modifies this
      ensures Progress(r, Value(), budget) == LegacyWrites(old(Value()), firmware, receipt, tools, old(budget))
    {
      ghost var file := tools.encodeLegacy(receipt);
      TwoFiles(Value(), Artifact(LegacyPatchedFirmware, firmware), Artifact(LegacyReceiptFile, file), ApplyLegacyBoardPatches, Sha256(file), budget);
      var patched := PreserveArtifact(LegacyPatchedFirmware, firmware);
      if patched.Err? { return Err(patched.error); }
      if receipt.patchedFirmware != patched.value { return Err(ReceiptMismatch); }
      var bytes := tools.encodeLegacy(receipt);
      OneFile(Value(), Artifact(LegacyReceiptFile, bytes), ApplyLegacyBoardPatches, Sha256(bytes), budget);
      var stored := PreserveArtifact(LegacyReceiptFile, bytes);
      if stored.Err? { return Err(stored.error); }
      var recorded := RecordStep(ApplyLegacyBoardPatches, stored.value);
      if recorded.Err? { return Err(recorded.error); }
      return Ok(Legacy(patched.value, stored.value, receipt));
    }

    method InjectDriver(board: BoardPath, tools: Tools) returns (r: Result<Injected, PrepareError>)
      modifies this
      ensures Progress(r, Value(), budget) == InjectionStage(old(Value()), board, tools, old(budget))
    {
      if IsCompleted(plan, VerifyPatchedArtifact) { return LoadedInjection(Value(), board, tools); }
      var refused := RequireActive(plan, VerifyPatchedArtifact);
      if refused.Some? { return Err(Refused(refused.value)); }
      var built := Rebuilt(Value(), board, tools);
      if built.Err? { return Err(built.error); }
      if !tools.refusesDuplicate(built.value.0, DriverBytes(Value())) { return Err(AcceptsDuplicate); }
      r := StoreInjection(built.value.0, built.value.1, tools);
    }

    method StoreInjection(firmware: Bytes, targets: Bytes, tools: Tools) returns (r: Result<Injected, PrepareError>)
      modifies this
      ensures Progress(r, Value(), budget) == InjectionWrites(old(Value()), firmware, targets, tools, old(budget))
    {
      ghost var file := tools.encodeInjection(InjectionReceipt(Sha256(firmware), targets));
      TwoFiles(Value(), Artifact(PatchedFirmware, firmware), Artifact(InjectionReceiptFile, file), VerifyPatchedArtifact, Sha256(firmware), budget);
      var patched := PreserveArtifact(PatchedFirmware, firmware);
      if patched.Err? { return Err(patched.error); }
      var receipt := InjectionReceipt(patched.value, targets);
      var bytes := tools.encodeInjection(receipt);
      OneFile(Value(), Artifact(InjectionReceiptFile, bytes), VerifyPatchedArtifact, Sha256(firmware), budget);
      var stored := PreserveArtifact(InjectionReceiptFile, bytes);
      if stored.Err? { return Err(stored.error); }
      var recorded := RecordStep(VerifyPatchedArtifact, patched.value);
      if recorded.Err? { return Err(recorded.error); }
      return Ok(Injected(patched.value, stored.value, receipt));
    }

    method PrepareFromBytes(board: BoardPath, bundled: Bytes, tools: Tools) returns (r: Result<Prepared, PrepareError>)
      modifies this
      ensures Progress(r, Value(), budget) == Prepare(old(Value()), board, bundled, tools, old(budget))
    {
      if !tools.profileStands { return Err(ProfileRefused); }
      Unfolded(Value(), board, bundled, tools, budget);
      var driver := PrepareDriver(bundled, tools);
      if driver.Err? { return Err(driver.error); }
      var legacyPatch: Option<Legacy> := None;
      if board.LegacyAbove4g? {
        var patched := ApplyLegacyPatches(tools);
        if patched.Err? { return Err(patched.error); }
        legacyPatch := Some(patched.value);
      }
      var injected := InjectDriver(board, tools);
      if injected.Err? { return Err(injected.error); }
      return Ok(Prepared(plan, driver.value, legacyPatch, injected.value));
    }
  }

  // The three stages as one sequence of early exits.
  lemma Unfolded(disk: Disk, board: BoardPath, bundled: Bytes, tools: Tools, budget: Budget)
    requires tools.profileStands
    ensures var a := DriverStage(disk, bundled, tools, budget);
            var b := LegacyIfAny(board, tools)(a.disk, a.budget);
            var c := InjectionStage(b.disk, board, tools, b.budget);
            Prepare(disk, board, bundled, tools, budget) ==
              if a.result.Err? then Progress(Err(a.result.error), a.disk, a.budget)
              else if b.result.Err? then Progress(Err(b.result.error), b.disk, b.budget)
              else if c.result.Err? then Progress(Err(c.result.error), c.disk, c.budget)
              else Progress(Ok(Prepared(c.disk.plan, a.result.value, b.result.value, c.result.value)), c.disk, c.budget)
  {
  }
}
