// A preparation that was cut off anywhere between two durable writes, started again, ends exactly
// where an uninterrupted one ends; and once finished, running it again changes nothing.
module Resumption {
  import opened Prelude
  import opened DeploymentPlan
  import PlanStore
  import opened Preparation

  ghost predicate Sane(disk: Disk, profile: Profile) { PlanStore.Valid(disk.plan, profile) }

  // What was completed stays completed, on the same evidence.
  ghost predicate PlanKeeps(p: Plan, q: Plan) {
    && (forall step :: IsCompleted(p, step) ==> IsCompleted(q, step))
    && (forall step :: CompletedEvidence(p, step).Ok? ==> CompletedEvidence(q, step) == CompletedEvidence(p, step))
  }

  ghost predicate Grows(d: Disk, e: Disk) {
    && PlanKeeps(d.plan, e.plan)
    && (forall kind :: kind in d.artifacts ==> kind in e.artifacts && e.artifacts[kind] == d.artifacts[kind])
  }

  lemma GrowsFurther(a: Disk, b: Disk, c: Disk)
    requires Grows(a, b) && Grows(b, c)
    ensures Grows(a, c)
  {
  }

  // ---------------------------------------------------------------- what one recorded step changes

  lemma {:induction false} FindsNone(steps: seq<Step>, id: StepId)
    requires forall j :: 0 <= j < |steps| ==> steps[j].id != id
    ensures FindStep(steps, id) == None
  {
    if steps != [] {
      FindsNone(steps[1..], id);
    }
  }

  // In a plan of the profile a step is found at its own place.
  lemma FoundInPlace(plan: Plan, profile: Profile, i: nat)
    requires BelongsTo(plan, profile) && i < |plan.steps|
    ensures FindStep(plan.steps, plan.steps[i].id) == Some(plan.steps[i])
    ensures IsCompleted(plan, plan.steps[i].id) <==> plan.steps[i].state == Completed
  {
    forall j | 0 <= j < |plan.steps| && j != i
      ensures plan.steps[j].id != plan.steps[i].id
    {
      assert plan.steps[j].id == StepAt(profile.board, j) && plan.steps[i].id == StepAt(profile.board, i);
      if j < i {
        StepsAreDistinct(profile.board, j, i);
      } else {
        StepsAreDistinct(profile.board, i, j);
      }
    }
    FindsFirst(plan.steps, i, plan.steps[i].id);
    assert plan.steps[i] in plan.steps;
  }

  lemma KeptStep(plan: Plan, next: Plan, profile: Profile, step: StepId)
    requires BelongsTo(plan, profile) && BelongsTo(next, profile) && Extends(plan, next)
    ensures IsCompleted(plan, step) ==> IsCompleted(next, step)
    ensures CompletedEvidence(plan, step).Ok? ==> CompletedEvidence(next, step) == CompletedEvidence(plan, step)
  {
    if i :| 0 <= i < |plan.steps| && plan.steps[i].id == step {
      FoundInPlace(plan, profile, i);
      FoundInPlace(next, profile, i);
    } else {
      FindsNone(plan.steps, step);
    }
  }

  // Recording a digest: the step was open, is completed on that digest, and nothing else changed.
  lemma RecordCompletes(plan: Plan, step: StepId, digest: Digest, profile: Profile)
    requires PlanStore.Valid(plan, profile) && Complete(plan, step, Hash(digest)).Ok?
    ensures var next := Complete(plan, step, Hash(digest)).value;
            && PlanStore.Valid(next, profile) && PlanKeeps(plan, next)
            && IsCompleted(next, step) && RequireCompletedValue(next, step, digest).None?
  {
    var k: nat :| k <= |plan.steps| && InShape(plan, k);
    var next := Complete(plan, step, Hash(digest)).value;
    CompleteAdvances(plan, k, step, Hash(digest));
    CompleteExtends(plan, k, step, Hash(digest));
    forall s
      ensures IsCompleted(plan, s) ==> IsCompleted(next, s)
      ensures CompletedEvidence(plan, s).Ok? ==> CompletedEvidence(next, s) == CompletedEvidence(plan, s)
    {
      KeptStep(plan, next, profile, s);
    }
    FoundInPlace(next, profile, k);
    ShapeAt(next, k + 1, k);
  }

  // ---------------------------------------------------------------- one durable write

  // What a cut-off or refused run left, run again to the end: `again` starts from that disk. A run
  // that was not cut off is the whole run.
  ghost predicate Resumes<T>(cut: Progress<T>, whole: Progress<T>, again: Progress<T>) {
    && whole.result != Err(Cut) && whole.budget.None?
    && (cut.result.Err? ==> again == whole)
    && (cut.result != Err(Cut) ==> cut.result == whole.result && cut.disk == whole.disk && cut.budget.Some?)
  }

  lemma PreserveResumes(disk: Disk, kind: ArtifactKind, bytes: Bytes, n: nat)
    ensures var cut, whole := Preserve(disk, kind, bytes, Some(n)), Preserve(disk, kind, bytes, None);
            && Resumes(cut, whole, Preserve(cut.disk, kind, bytes, None))
            && Grows(disk, cut.disk) && Grows(disk, whole.disk)
            && cut.disk.plan == disk.plan == whole.disk.plan
            && (cut.result.Err? ==> cut.disk == disk)
            && (whole.result.Ok? ==> whole.result.value == Sha256(bytes) && LoadArtifact(whole.disk, kind) == Ok(bytes))
            && (whole.result.Ok? ==> whole.disk.artifacts == disk.artifacts[kind := bytes])
  {
  }

  // A write already there costs nothing.
  lemma PreservedAlready(disk: Disk, kind: ArtifactKind, bytes: Bytes, budget: Budget)
    requires LoadArtifact(disk, kind) == Ok(bytes)
    ensures Preserve(disk, kind, bytes, budget) == Progress(Ok(Sha256(bytes)), disk, budget)
  {
  }

  lemma RecordResumes(disk: Disk, step: StepId, digest: Digest, n: nat, profile: Profile)
    requires Sane(disk, profile)
    ensures var cut, whole := RecordDigest(disk, step, digest, Some(n)), RecordDigest(disk, step, digest, None);
            && Resumes(cut, whole, RecordDigest(cut.disk, step, digest, None))
            && Sane(cut.disk, profile) && Sane(whole.disk, profile)
            && Grows(disk, cut.disk) && Grows(disk, whole.disk)
            && cut.disk.artifacts == disk.artifacts == whole.disk.artifacts
            && (cut.result.Err? ==> cut.disk == disk)
            && (whole.result.Err? ==> whole.disk == disk)
            && (whole.result.Ok? ==> IsCompleted(whole.disk.plan, step) && RequireCompletedValue(whole.disk.plan, step, digest).None?)
  {
    if Complete(disk.plan, step, Hash(digest)).Ok? {
      RecordCompletes(disk.plan, step, digest, profile);
    }
  }

  // ---------------------------------------------------------------- a list of writes

  predicate AllThere(disk: Disk, files: seq<Artifact>) {
    forall i :: 0 <= i < |files| ==> LoadArtifact(disk, files[i].kind) == Ok(files[i].bytes)
  }

  lemma {:induction false} WritesFinish(disk: Disk, files: seq<Artifact>, step: StepId, digest: Digest, profile: Profile)
    requires Sane(disk, profile)
    ensures var whole := WriteAll(disk, files, step, digest, None);
            whole.result != Err(Cut) && whole.budget.None? && Sane(whole.disk, profile) && Grows(disk, whole.disk)
    decreases |files|
  {
    if files == [] {
      RecordResumes(disk, step, digest, 0, profile);
    } else {
      PreserveResumes(disk, files[0].kind, files[0].bytes, 0);
      var kept := Preserve(disk, files[0].kind, files[0].bytes, None);
      if kept.result.Ok? {
        WritesFinish(kept.disk, files[1..], step, digest, profile);
        GrowsFurther(disk, kept.disk, WriteAll(kept.disk, files[1..], step, digest, None).disk);
      }
    }
  }

  // A list of writes cut off anywhere is finished by writing the whole list again.
  lemma {:induction false} WritesResume(disk: Disk, files: seq<Artifact>, step: StepId, digest: Digest, n: nat, profile: Profile)
    requires Sane(disk, profile)
    ensures var cut, whole := WriteAll(disk, files, step, digest, Some(n)), WriteAll(disk, files, step, digest, None);
            && Resumes(cut, whole, WriteAll(cut.disk, files, step, digest, None))
            && Sane(cut.disk, profile) && Grows(disk, cut.disk)
            && (cut.result.Err? ==> cut.disk.plan == disk.plan)
    decreases |files|
  {
    WritesFinish(disk, files, step, digest, profile);
    if files == [] {
      RecordResumes(disk, step, digest, n, profile);
    } else {
      var file := files[0];
      PreserveResumes(disk, file.kind, file.bytes, n);
      var kept := Preserve(disk, file.kind, file.bytes, Some(n));
      if kept.result.Ok? {
        WritesResume(kept.disk, files[1..], step, digest, kept.budget.value, profile);
        var cut := WriteAll(kept.disk, files[1..], step, digest, kept.budget);
        GrowsFurther(disk, kept.disk, cut.disk);
        PreservedAlready(cut.disk, file.kind, file.bytes, None);
      }
    }
  }

  // Once all is written: every artifact is there, the step is completed on its digest.
  lemma {:induction false} WritesLeave(disk: Disk, files: seq<Artifact>, step: StepId, digest: Digest, profile: Profile)
    requires Sane(disk, profile) && WriteAll(disk, files, step, digest, None).result.Ok?
    ensures var after := WriteAll(disk, files, step, digest, None).disk;
            && Grows(disk, after) && AllThere(after, files)
            && IsCompleted(after.plan, step) && RequireCompletedValue(after.plan, step, digest).None?
    decreases |files|
  {
    if files == [] {
      RecordResumes(disk, step, digest, 0, profile);
    } else {
      var file := files[0];
      PreserveResumes(disk, file.kind, file.bytes, 0);
      var kept := Preserve(disk, file.kind, file.bytes, None);
      WritesLeave(kept.disk, files[1..], step, digest, profile);
      var after := WriteAll(kept.disk, files[1..], step, digest, None).disk;
      GrowsFurther(disk, kept.disk, after);
      forall i | 0 <= i < |files|
        ensures LoadArtifact(after, files[i].kind) == Ok(files[i].bytes)
      {
        if i > 0 {
          assert files[i] == files[1..][i - 1];
        }
      }
    }
  }

  // ---------------------------------------------------------------- each stage

  ghost predicate DriverDone(disk: Disk, tools: Tools, digest: Digest) {
    IsCompleted(disk.plan, PrepareRustDriver) && LoadedDriver(disk, tools) == Ok(digest)
  }

  ghost predicate LegacyDone(disk: Disk, tools: Tools, legacy: Legacy) {
    IsCompleted(disk.plan, ApplyLegacyBoardPatches) && LoadedLegacy(disk, tools) == Ok(legacy)
  }

  ghost predicate InjectionDone(disk: Disk, board: BoardPath, tools: Tools, injected: Injected) {
    IsCompleted(disk.plan, VerifyPatchedArtifact) && LoadedInjection(disk, board, tools) == Ok(injected)
  }

  lemma KeepsValue(p: Plan, q: Plan, step: StepId, digest: Digest)
    requires PlanKeeps(p, q) && RequireCompletedValue(p, step, digest).None?
    ensures RequireCompletedValue(q, step, digest).None?
  {
  }

  lemma DriverStaysDone(d: Disk, e: Disk, tools: Tools, digest: Digest)
    requires DriverDone(d, tools, digest) && Grows(d, e)
    ensures DriverDone(e, tools, digest)
  {
    KeepsValue(d.plan, e.plan, PrepareRustDriver, digest);
  }

  lemma LegacyStaysDone(d: Disk, e: Disk, tools: Tools, legacy: Legacy)
    requires LegacyDone(d, tools, legacy) && Grows(d, e)
    ensures LegacyDone(e, tools, legacy)
  {
    KeepsValue(d.plan, e.plan, ApplyLegacyBoardPatches, legacy.receiptFile);
  }

  lemma DriverStageResumes(disk: Disk, bundled: Bytes, tools: Tools, n: nat, profile: Profile)
    requires Sane(disk, profile)
    ensures var cut, whole := DriverStage(disk, bundled, tools, Some(n)), DriverStage(disk, bundled, tools, None);
            && Resumes(cut, whole, DriverStage(cut.disk, bundled, tools, None))
            && Sane(cut.disk, profile) && Sane(whole.disk, profile)
            && Grows(disk, cut.disk) && Grows(disk, whole.disk)
            && (whole.result.Ok? ==> DriverDone(whole.disk, tools, whole.result.value))
  {
    if !IsCompleted(disk.plan, PrepareRustDriver) && RequireActive(disk.plan, PrepareRustDriver).None? && tools.driverIsValid(bundled) {
      var files := [Artifact(RustDriverFfs, bundled)];
      WritesResume(disk, files, PrepareRustDriver, Sha256(bundled), n, profile);
      WritesFinish(disk, files, PrepareRustDriver, Sha256(bundled), profile);
      var whole := WriteAll(disk, files, PrepareRustDriver, Sha256(bundled), None);
      if whole.result.Ok? {
        WritesLeave(disk, files, PrepareRustDriver, Sha256(bundled), profile);
        assert LoadArtifact(whole.disk, files[0].kind) == Ok(files[0].bytes);
      }
    }
  }

  lemma LegacyWritesResume(disk: Disk, firmware: Bytes, receipt: LegacyReceipt, tools: Tools, n: nat, profile: Profile)
    requires Sane(disk, profile)
    ensures var cut, whole := LegacyWrites(disk, firmware, receipt, tools, Some(n)), LegacyWrites(disk, firmware, receipt, tools, None);
            && Resumes(cut, whole, LegacyWrites(cut.disk, firmware, receipt, tools, None))
            && Sane(cut.disk, profile) && Sane(whole.disk, profile)
            && Grows(disk, cut.disk) && Grows(disk, whole.disk)
            && (cut.result.Err? ==> cut.disk.plan == disk.plan)
  {
    var file := tools.encodeLegacy(receipt);
    var files := [Artifact(LegacyPatchedFirmware, firmware), Artifact(LegacyReceiptFile, file)];
    PreserveResumes(disk, LegacyPatchedFirmware, firmware, n);
    WritesResume(disk, files, ApplyLegacyBoardPatches, Sha256(file), n, profile);
    WritesFinish(disk, files, ApplyLegacyBoardPatches, Sha256(file), profile);
  }

  lemma LegacyWritesDone(disk: Disk, firmware: Bytes, receipt: LegacyReceipt, tools: Tools, profile: Profile)
    requires Sane(disk, profile) && Dependable(tools)
    requires tools.legacyReceiptIsValid(Sha256(firmware), receipt)
    requires LegacyWrites(disk, firmware, receipt, tools, None).result.Ok?
    ensures var whole := LegacyWrites(disk, firmware, receipt, tools, None);
            LegacyDone(whole.disk, tools, whole.result.value)
  {
    var file := tools.encodeLegacy(receipt);
    var files := [Artifact(LegacyPatchedFirmware, firmware), Artifact(LegacyReceiptFile, file)];
    WritesLeave(disk, files, ApplyLegacyBoardPatches, Sha256(file), profile);
    var after := WriteAll(disk, files, ApplyLegacyBoardPatches, Sha256(file), None).disk;
    assert LoadArtifact(after, files[0].kind) == Ok(files[0].bytes);
    assert LoadArtifact(after, files[1].kind) == Ok(files[1].bytes);
    assert tools.decodeLegacy(file) == Some(receipt);
  }

  lemma LegacyStageResumes(disk: Disk, tools: Tools, n: nat, profile: Profile)
    requires Sane(disk, profile) && Dependable(tools)
    ensures var cut, whole := LegacyStage(disk, tools, Some(n)), LegacyStage(disk, tools, None);
            && Resumes(cut, whole, LegacyStage(cut.disk, tools, None))
            && Sane(cut.disk, profile) && Sane(whole.disk, profile)
            && Grows(disk, cut.disk) && Grows(disk, whole.disk)
            && (whole.result.Ok? ==> LegacyDone(whole.disk, tools, whole.result.value))
  {
    if !IsCompleted(disk.plan, ApplyLegacyBoardPatches) && RequireActive(disk.plan, ApplyLegacyBoardPatches).None? && PatchedLegacy(tools).Ok? {
      var (firmware, receipt) := PatchedLegacy(tools).value;
      LegacyWritesResume(disk, firmware, receipt, tools, n, profile);
      if LegacyWrites(disk, firmware, receipt, tools, None).result.Ok? {
        LegacyWritesDone(disk, firmware, receipt, tools, profile);
      }
    }
  }

  // Growing the disk changes nothing the injector reads.
  lemma RebuildStays(d: Disk, e: Disk, board: BoardPath, tools: Tools)
    requires Grows(d, e) && Rebuilt(d, board, tools).Ok?
    ensures Rebuilt(e, board, tools) == Rebuilt(d, board, tools) && DriverBytes(e) == DriverBytes(d)
  {
  }

  lemma InjectionStays(d: Disk, e: Disk, board: BoardPath, tools: Tools, injected: Injected)
    requires InjectionDone(d, board, tools, injected) && Grows(d, e)
    ensures InjectionDone(e, board, tools, injected)
  {
    RebuildStays(d, e, board, tools);
    KeepsValue(d.plan, e.plan, VerifyPatchedArtifact, injected.firmware);
    KeepsValue(d.plan, e.plan, PrepareRustDriver, DriverOnRecord(d, tools).value);
    if board.LegacyAbove4g? {
      KeepsValue(d.plan, e.plan, ApplyLegacyBoardPatches, LoadedLegacy(d, tools).value.receiptFile);
    }
  }

  // The earlier stages an injection stands on.
  ghost predicate ReadyToInject(disk: Disk, board: BoardPath, tools: Tools, driver: Digest, legacy: Option<Legacy>) {
    DriverDone(disk, tools, driver) && if board.LegacyAbove4g? then legacy.Some? && LegacyDone(disk, tools, legacy.value) else legacy.None?
  }

  lemma InjectionWritesDone(disk: Disk, board: BoardPath, tools: Tools, driver: Digest, legacy: Option<Legacy>, profile: Profile)
    requires Sane(disk, profile) && Dependable(tools) && ReadyToInject(disk, board, tools, driver, legacy)
    requires Rebuilt(disk, board, tools).Ok?
    ensures var (firmware, targets) := Rebuilt(disk, board, tools).value;
            var whole := InjectionWrites(disk, firmware, targets, tools, None);
            whole.result.Ok? ==> InjectionDone(whole.disk, board, tools, whole.result.value)
  {
    var (firmware, targets) := Rebuilt(disk, board, tools).value;
    var whole := InjectionWrites(disk, firmware, targets, tools, None);
    if whole.result.Ok? {
      var file := tools.encodeInjection(InjectionReceipt(Sha256(firmware), targets));
      var files := [Artifact(PatchedFirmware, firmware), Artifact(InjectionReceiptFile, file)];
      WritesLeave(disk, files, VerifyPatchedArtifact, Sha256(firmware), profile);
      assert LoadArtifact(whole.disk, files[0].kind) == Ok(files[0].bytes);
      assert LoadArtifact(whole.disk, files[1].kind) == Ok(files[1].bytes);
      RebuildStays(disk, whole.disk, board, tools);
      DriverStaysDone(disk, whole.disk, tools, driver);
      if board.LegacyAbove4g? {
        LegacyStaysDone(disk, whole.disk, tools, legacy.value);
      }
    }
  }

  lemma InjectionWritesResume(disk: Disk, firmware: Bytes, targets: Bytes, tools: Tools, n: nat, profile: Profile)
    requires Sane(disk, profile)
    ensures var cut, whole := InjectionWrites(disk, firmware, targets, tools, Some(n)), InjectionWrites(disk, firmware, targets, tools, None);
            && Resumes(cut, whole, InjectionWrites(cut.disk, firmware, targets, tools, None))
            && Sane(cut.disk, profile) && Sane(whole.disk, profile)
            && Grows(disk, cut.disk) && Grows(disk, whole.disk)
            && (cut.result.Err? ==> cut.disk.plan == disk.plan)
  {
    var file := tools.encodeInjection(InjectionReceipt(Sha256(firmware), targets));
    var files := [Artifact(PatchedFirmware, firmware), Artifact(InjectionReceiptFile, file)];
    WritesResume(disk, files, VerifyPatchedArtifact, Sha256(firmware), n, profile);
    WritesFinish(disk, files, VerifyPatchedArtifact, Sha256(firmware), profile);
  }

  // Where the injection stage goes on to write, and that a grown disk with the same plan does too.
  predicate WillInject(disk: Disk, board: BoardPath, tools: Tools) {
    && !IsCompleted(disk.plan, VerifyPatchedArtifact) && RequireActive(disk.plan, VerifyPatchedArtifact).None?
    && Rebuilt(disk, board, tools).Ok?
    && tools.refusesDuplicate(Rebuilt(disk, board, tools).value.0, DriverBytes(disk))
  }

  lemma InjectsTheSame(d: Disk, e: Disk, board: BoardPath, tools: Tools, budget: Budget)
    requires WillInject(d, board, tools) && Grows(d, e) && e.plan == d.plan
    ensures InjectionStage(e, board, tools, budget)
         == InjectionWrites(e, Rebuilt(d, board, tools).value.0, Rebuilt(d, board, tools).value.1, tools, budget)
  {
    RebuildStays(d, e, board, tools);
  }

  lemma NoInjection(disk: Disk, board: BoardPath, tools: Tools, budget: Budget)
    requires !WillInject(disk, board, tools)
    ensures var stage := InjectionStage(disk, board, tools, budget);
            && stage.disk == disk && stage.budget == budget
            && stage.result == InjectionStage(disk, board, tools, None).result != Err(Cut)
            && InjectionStage(disk, board, tools, None).budget.None?
            && (stage.result.Ok? ==> InjectionDone(disk, board, tools, stage.result.value))
  {
  }

  lemma GrowsItself(disk: Disk)
    ensures Grows(disk, disk)
  {
  }

  lemma InjectionStageResumes(disk: Disk, board: BoardPath, tools: Tools, n: nat, driver: Digest, legacy: Option<Legacy>, profile: Profile)
    requires Sane(disk, profile) && Dependable(tools) && ReadyToInject(disk, board, tools, driver, legacy)
    ensures var cut, whole := InjectionStage(disk, board, tools, Some(n)), InjectionStage(disk, board, tools, None);
            && Resumes(cut, whole, InjectionStage(cut.disk, board, tools, None))
            && Sane(cut.disk, profile) && Sane(whole.disk, profile)
            && Grows(disk, cut.disk) && Grows(disk, whole.disk)
            && (whole.result.Ok? ==> InjectionDone(whole.disk, board, tools, whole.result.value))
  {
    GrowsItself(disk);
    if WillInject(disk, board, tools) {
      var (firmware, targets) := Rebuilt(disk, board, tools).value;
      InjectionWritesResume(disk, firmware, targets, tools, n, profile);
      InjectsTheSame(disk, disk, board, tools, None);
      InjectsTheSame(disk, disk, board, tools, Some(n));
      var cut := InjectionWrites(disk, firmware, targets, tools, Some(n));
      if cut.result.Err? {
        InjectsTheSame(disk, cut.disk, board, tools, None);
      }
      InjectionWritesDone(disk, board, tools, driver, legacy, profile);
    } else {
      NoInjection(disk, board, tools, Some(n));
      NoInjection(disk, board, tools, None);
    }
  }

  // ---------------------------------------------------------------- stages in a row

  // A stage that can be cut off: run again to the end from whatever it left, it ends where the
  // uninterrupted stage ends; once done it stays done and costs nothing.
  ghost predicate Lawful<T(!new)>(stage: Stage<T>, pre: Disk -> bool, done: (Disk, T) -> bool, grows: (Disk, Disk) -> bool) {
    && (forall d, n: nat :: pre(d) ==> Law(stage, pre, done, grows, d, n))
    && (forall d, v, b :: pre(d) && done(d, v) ==> stage(d, b) == Progress(Ok(v), d, b))
    && (forall d, e, v :: pre(d) && done(d, v) && grows(d, e) ==> done(e, v))
  }

  ghost predicate Law<T>(stage: Stage<T>, pre: Disk -> bool, done: (Disk, T) -> bool, grows: (Disk, Disk) -> bool, d: Disk, n: nat) {
    var cut, whole := stage(d, Some(n)), stage(d, None);
    && Resumes(cut, whole, stage(cut.disk, None))
    && pre(cut.disk) && pre(whole.disk) && grows(d, cut.disk) && grows(d, whole.disk)
    && (whole.result.Ok? ==> done(whole.disk, whole.result.value))
  }

  ghost predicate Transitive(grows: (Disk, Disk) -> bool) {
    forall a, b, c :: grows(a, b) && grows(b, c) ==> grows(a, c)
  }

  // `both` is the first stage and then the second; `all` is both of them done.
  ghost predicate InARow<T(!new), U(!new)>(first: Stage<T>, second: Stage<U>, done: (Disk, T) -> bool, secondDone: (Disk, U) -> bool,
                                           both: Stage<(T, U)>, all: (Disk, (T, U)) -> bool) {
    && (forall d, b :: both(d, b) == Both(first, second, d, b))
    && (forall d, v :: all(d, v) <==> done(d, v.0) && secondDone(d, v.1))
  }

  lemma BothLaw<T(!new), U(!new)>(first: Stage<T>, second: Stage<U>, both: Stage<(T, U)>, pre: Disk -> bool, mid: Disk -> bool,
                                  done: (Disk, T) -> bool, secondDone: (Disk, U) -> bool, all: (Disk, (T, U)) -> bool,
                                  grows: (Disk, Disk) -> bool, d: Disk, n: nat)
    requires Lawful(first, pre, done, grows) && Lawful(second, mid, secondDone, grows) && Transitive(grows)
    requires InARow(first, second, done, secondDone, both, all)
    requires forall e, v :: pre(e) && done(e, v) ==> mid(e)
    requires forall e :: mid(e) ==> pre(e)
    requires pre(d)
    ensures Law(both, pre, all, grows, d, n)
  {
    var a, whole := first(d, Some(n)), first(d, None);
    assert Law(first, pre, done, grows, d, n);
    if whole.result.Ok? {
      assert mid(whole.disk);
      assert Law(second, mid, secondDone, grows, whole.disk, 0);
      var last := second(whole.disk, None);
      assert done(last.disk, whole.result.value);
    }
    if a.result.Ok? {
      var m := a.budget.value;
      assert Law(second, mid, secondDone, grows, a.disk, m);
      var cut := second(a.disk, Some(m));
      assert done(cut.disk, a.result.value);
      assert first(cut.disk, None) == Progress(Ok(a.result.value), cut.disk, None);
    }
  }

  // Two lawful stages in a row are a lawful stage.
  lemma BothLawful<T(!new), U(!new)>(first: Stage<T>, second: Stage<U>, both: Stage<(T, U)>, pre: Disk -> bool, mid: Disk -> bool,
                                     done: (Disk, T) -> bool, secondDone: (Disk, U) -> bool, all: (Disk, (T, U)) -> bool,
                                     grows: (Disk, Disk) -> bool)
    requires Lawful(first, pre, done, grows) && Lawful(second, mid, secondDone, grows) && Transitive(grows)
    requires InARow(first, second, done, secondDone, both, all)
    requires forall e, v :: pre(e) && done(e, v) ==> mid(e)
    requires forall e :: mid(e) ==> pre(e)
    ensures Lawful(both, pre, all, grows)
  {
    forall d, n: nat | pre(d)
      ensures Law(both, pre, all, grows, d, n)
    {
      BothLaw(first, second, both, pre, mid, done, secondDone, all, grows, d, n);
    }
    forall d, v: (T, U), b | pre(d) && all(d, v)
      ensures both(d, b) == Progress(Ok(v), d, b)
    {
      assert done(d, v.0) && mid(d);
      assert first(d, b) == Progress(Ok(v.0), d, b);
      assert second(d, b) == Progress(Ok(v.1), d, b);
    }
    forall d, e, v: (T, U) | pre(d) && all(d, v) && grows(d, e)
      ensures all(e, v)
    {
      assert done(d, v.0) && secondDone(d, v.1) && mid(d);
    }
  }

  // ---------------------------------------------------------------- the three stages

  ghost function SaneFor(profile: Profile): Disk -> bool { disk => Sane(disk, profile) }

  ghost function DriverIsDone(tools: Tools): (Disk, Digest) -> bool { (disk, digest) => DriverDone(disk, tools, digest) }

  ghost function LegacyIsDone(board: BoardPath, tools: Tools): (Disk, Option<Legacy>) -> bool {
    (disk, legacy: Option<Legacy>) => if board.NativeResizableBar? then legacy.None? else legacy.Some? && LegacyDone(disk, tools, legacy.value)
  }

  ghost function InjectionIsDone(board: BoardPath, tools: Tools): (Disk, Injected) -> bool {
    (disk, injected) => InjectionDone(disk, board, tools, injected)
  }

  ghost function EarlierDone(board: BoardPath, tools: Tools): (Disk, (Digest, Option<Legacy>)) -> bool {
    (disk, v: (Digest, Option<Legacy>)) => ReadyToInject(disk, board, tools, v.0, v.1)
  }

  ghost function ReadyFor(profile: Profile, tools: Tools): Disk -> bool {
    disk => Sane(disk, profile) && SomeReady(disk, profile.board, tools)
  }

  ghost predicate SomeReady(disk: Disk, board: BoardPath, tools: Tools) {
    exists driver, legacy :: ReadyToInject(disk, board, tools, driver, legacy)
  }

  lemma DriverLawful(bundled: Bytes, tools: Tools, profile: Profile)
    ensures Lawful(Driver(bundled, tools), SaneFor(profile), DriverIsDone(tools), Grows)
  {
    forall d, n: nat | Sane(d, profile)
      ensures Law(Driver(bundled, tools), SaneFor(profile), DriverIsDone(tools), Grows, d, n)
    {
      DriverStageResumes(d, bundled, tools, n, profile);
    }
    forall d, e, v | DriverDone(d, tools, v) && Grows(d, e)
      ensures DriverDone(e, tools, v)
    {
      DriverStaysDone(d, e, tools, v);
    }
  }

  lemma LegacyLawful(tools: Tools, profile: Profile)
    requires Dependable(tools)
    ensures Lawful(LegacyIfAny(profile.board, tools), SaneFor(profile), LegacyIsDone(profile.board, tools), Grows)
  {
    forall d, n: nat | Sane(d, profile)
      ensures Law(LegacyIfAny(profile.board, tools), SaneFor(profile), LegacyIsDone(profile.board, tools), Grows, d, n)
    {
      GrowsItself(d);
      LegacyStageResumes(d, tools, n, profile);
    }
    forall d, e, v | LegacyIsDone(profile.board, tools)(d, v) && Grows(d, e)
      ensures LegacyIsDone(profile.board, tools)(e, v)
    {
      if profile.board.LegacyAbove4g? {
        LegacyStaysDone(d, e, tools, v.value);
      }
    }
  }

  lemma GrowsTransitive()
    ensures Transitive(Grows)
  {
    forall a, b, c | Grows(a, b) && Grows(b, c)
      ensures Grows(a, c)
    {
      GrowsFurther(a, b, c);
    }
  }

  lemma FirstTwoInARow(board: BoardPath, bundled: Bytes, tools: Tools)
    ensures InARow(Driver(bundled, tools), LegacyIfAny(board, tools), DriverIsDone(tools), LegacyIsDone(board, tools),
                   BeforeInjection(board, bundled, tools), EarlierDone(board, tools))
  {
  }

  lemma BeforeInjectionLawful(bundled: Bytes, tools: Tools, profile: Profile)
    requires Dependable(tools)
    ensures Lawful(BeforeInjection(profile.board, bundled, tools), SaneFor(profile), EarlierDone(profile.board, tools), Grows)
  {
    DriverLawful(bundled, tools, profile);
    LegacyLawful(tools, profile);
    GrowsTransitive();
    FirstTwoInARow(profile.board, bundled, tools);
    BothLawful(Driver(bundled, tools), LegacyIfAny(profile.board, tools), BeforeInjection(profile.board, bundled, tools),
               SaneFor(profile), SaneFor(profile), DriverIsDone(tools), LegacyIsDone(profile.board, tools),
               EarlierDone(profile.board, tools), Grows);
  }

  lemma EarlierStays(board: BoardPath, tools: Tools, d: Disk, e: Disk, driver: Digest, legacy: Option<Legacy>)
    requires ReadyToInject(d, board, tools, driver, legacy) && Grows(d, e)
    ensures ReadyToInject(e, board, tools, driver, legacy)
  {
    DriverStaysDone(d, e, tools, driver);
    if board.LegacyAbove4g? {
      LegacyStaysDone(d, e, tools, legacy.value);
    }
  }

  lemma InjectionLaw(tools: Tools, profile: Profile, d: Disk, n: nat)
    requires Dependable(tools) && Sane(d, profile) && SomeReady(d, profile.board, tools)
    ensures Law(Injection(profile.board, tools), ReadyFor(profile, tools), InjectionIsDone(profile.board, tools), Grows, d, n)
  {
    var driver, legacy :| ReadyToInject(d, profile.board, tools, driver, legacy);
    InjectionStageResumes(d, profile.board, tools, n, driver, legacy, profile);
    var cut, whole := InjectionStage(d, profile.board, tools, Some(n)), InjectionStage(d, profile.board, tools, None);
    EarlierStays(profile.board, tools, d, cut.disk, driver, legacy);
    EarlierStays(profile.board, tools, d, whole.disk, driver, legacy);
    LawFrom(Injection(profile.board, tools), ReadyFor(profile, tools), InjectionIsDone(profile.board, tools), Grows, d, n,
            cut, whole, InjectionStage(cut.disk, profile.board, tools, None));
  }

  lemma LawFrom<T>(stage: Stage<T>, pre: Disk -> bool, done: (Disk, T) -> bool, grows: (Disk, Disk) -> bool, d: Disk, n: nat,
                   cut: Progress<T>, whole: Progress<T>, again: Progress<T>)
    requires cut == stage(d, Some(n)) && whole == stage(d, None) && again == stage(cut.disk, None)
    requires Resumes(cut, whole, again)
    requires pre(cut.disk) && pre(whole.disk) && grows(d, cut.disk) && grows(d, whole.disk)
    requires whole.result.Ok? ==> done(whole.disk, whole.result.value)
    ensures Law(stage, pre, done, grows, d, n)
  {
  }

  lemma InjectionLawful(tools: Tools, profile: Profile)
    requires Dependable(tools)
    ensures Lawful(Injection(profile.board, tools), ReadyFor(profile, tools), InjectionIsDone(profile.board, tools), Grows)
  {
    forall d, n: nat | Sane(d, profile) && SomeReady(d, profile.board, tools)
      ensures Law(Injection(profile.board, tools), ReadyFor(profile, tools), InjectionIsDone(profile.board, tools), Grows, d, n)
    {
      InjectionLaw(tools, profile, d, n);
    }
    forall d, e, v | InjectionDone(d, profile.board, tools, v) && Grows(d, e)
      ensures InjectionDone(e, profile.board, tools, v)
    {
      InjectionStays(d, e, profile.board, tools, v);
    }
  }

  ghost function AllDone(board: BoardPath, tools: Tools): (Disk, ((Digest, Option<Legacy>), Injected)) -> bool {
    (disk, v: ((Digest, Option<Legacy>), Injected)) => ReadyToInject(disk, board, tools, v.0.0, v.0.1) && InjectionDone(disk, board, tools, v.1)
  }

  lemma AllInARow(board: BoardPath, bundled: Bytes, tools: Tools)
    ensures InARow(BeforeInjection(board, bundled, tools), Injection(board, tools), EarlierDone(board, tools),
                   InjectionIsDone(board, tools), AllStages(board, bundled, tools), AllDone(board, tools))
  {
  }

  lemma AllStagesLawful(bundled: Bytes, tools: Tools, profile: Profile)
    requires Dependable(tools)
    ensures Lawful(AllStages(profile.board, bundled, tools), SaneFor(profile), AllDone(profile.board, tools), Grows)
  {
    BeforeInjectionLawful(bundled, tools, profile);
    InjectionLawful(tools, profile);
    GrowsTransitive();
    AllInARow(profile.board, bundled, tools);
    ReadyOnceDone(profile, tools);
    BothLawful(BeforeInjection(profile.board, bundled, tools), Injection(profile.board, tools), AllStages(profile.board, bundled, tools),
               SaneFor(profile), ReadyFor(profile, tools), EarlierDone(profile.board, tools), InjectionIsDone(profile.board, tools),
               AllDone(profile.board, tools), Grows);
  }

  lemma ReadyOnceDone(profile: Profile, tools: Tools)
    ensures forall e, v :: SaneFor(profile)(e) && EarlierDone(profile.board, tools)(e, v) ==> ReadyFor(profile, tools)(e)
    ensures forall e :: ReadyFor(profile, tools)(e) ==> SaneFor(profile)(e)
  {
  }

  // ---------------------------------------------------------------- the whole preparation

  // Cut off after any number of durable writes and run again with the same driver, the preparation
  // ends with the same result, plan and artifacts as one that was never cut off.
  lemma PreparationResumes(disk: Disk, bundled: Bytes, tools: Tools, n: nat, profile: Profile)
    requires Sane(disk, profile) && Dependable(tools)
    ensures var cut, whole := Prepare(disk, profile.board, bundled, tools, Some(n)), Prepare(disk, profile.board, bundled, tools, None);
            && whole.result != Err(Cut)
            && (cut.result != Err(Cut) ==> cut.result == whole.result && cut.disk == whole.disk)
            && Prepare(cut.disk, profile.board, bundled, tools, None) == whole
            && Sane(cut.disk, profile)
  {
    AllStagesLawful(bundled, tools, profile);
    LawAtCut(AllStages(profile.board, bundled, tools), SaneFor(profile), AllDone(profile.board, tools), Grows, disk, n);
  }

  // What the law says of one cut, whether or not the run got through.
  lemma LawAtCut<T(!new)>(stage: Stage<T>, pre: Disk -> bool, done: (Disk, T) -> bool, grows: (Disk, Disk) -> bool, d: Disk, n: nat)
    requires Lawful(stage, pre, done, grows) && pre(d)
    ensures var cut, whole := stage(d, Some(n)), stage(d, None);
            && whole.result != Err(Cut) && whole.budget.None?
            && (cut.result != Err(Cut) ==> cut.result == whole.result && cut.disk == whole.disk)
            && stage(cut.disk, None) == whole
            && pre(cut.disk)
  {
    assert Law(stage, pre, done, grows, d, n);
  }

  // The disk after any number of runs, each cut off somewhere.
  function AfterCuts(disk: Disk, board: BoardPath, bundled: Bytes, tools: Tools, cuts: seq<nat>): Disk
    decreases |cuts|
  {
    if cuts == [] then disk
    else AfterCuts(Prepare(disk, board, bundled, tools, Some(cuts[0])).disk, board, bundled, tools, cuts[1..])
  }

  // However often the preparation is cut off, the run that finally gets through ends where the first
  // one would have.
  lemma {:induction false} AnyCutsResume(disk: Disk, bundled: Bytes, tools: Tools, cuts: seq<nat>, profile: Profile)
    requires Sane(disk, profile) && Dependable(tools)
    ensures Prepare(AfterCuts(disk, profile.board, bundled, tools, cuts), profile.board, bundled, tools, None)
         == Prepare(disk, profile.board, bundled, tools, None)
    decreases |cuts|
  {
    if cuts != [] {
      PreparationResumes(disk, bundled, tools, cuts[0], profile);
      AnyCutsResume(Prepare(disk, profile.board, bundled, tools, Some(cuts[0])).disk, bundled, tools, cuts[1..], profile);
    }
  }

  // A finished preparation run once more, with whatever driver is bundled by then and even with no
  // write left to give, returns the same result and leaves plan and artifacts as they are.
  lemma FinishedPreparationIsStable(disk: Disk, bundled: Bytes, later: Bytes, tools: Tools, budget: Budget, profile: Profile)
    requires Sane(disk, profile) && Dependable(tools) && Prepare(disk, profile.board, bundled, tools, None).result.Ok?
    ensures var whole := Prepare(disk, profile.board, bundled, tools, None);
            Prepare(whole.disk, profile.board, later, tools, budget) == Progress(whole.result, whole.disk, budget)
  {
    AllStagesLawful(bundled, tools, profile);
    AllStagesLawful(later, tools, profile);
    StaysFinished(AllStages(profile.board, bundled, tools), AllStages(profile.board, later, tools), SaneFor(profile),
                  AllDone(profile.board, tools), Grows, disk, budget);
  }

  lemma StaysFinished<T(!new)>(stage: Stage<T>, later: Stage<T>, pre: Disk -> bool, done: (Disk, T) -> bool, grows: (Disk, Disk) -> bool,
                               d: Disk, budget: Budget)
    requires Lawful(stage, pre, done, grows) && Lawful(later, pre, done, grows) && pre(d) && stage(d, None).result.Ok?
    ensures var whole := stage(d, None);
            later(whole.disk, budget) == Progress(whole.result, whole.disk, budget)
  {
    assert Law(stage, pre, done, grows, d, 0);
  }

  // Another driver bundled in the meantime: once the driver step is recorded it makes no difference;
  // if the cut came between persisting the old driver and recording it, the new one is refused and
  // nothing changes.
  lemma OtherDriverOnceRecorded(disk: Disk, bundled: Bytes, other: Bytes, tools: Tools, budget: Budget)
    requires IsCompleted(disk.plan, PrepareRustDriver)
    ensures Driver(other, tools)(disk, budget) == Driver(bundled, tools)(disk, budget)
  {
  }

  lemma OtherDriverBeforeRecord(disk: Disk, other: Bytes, tools: Tools, board: BoardPath, budget: Budget)
    requires !IsCompleted(disk.plan, PrepareRustDriver) && RequireActive(disk.plan, PrepareRustDriver).None?
    requires RustDriverFfs in disk.artifacts && disk.artifacts[RustDriverFfs] != other && other != []
    requires tools.profileStands && tools.driverIsValid(other)
    ensures Prepare(disk, board, other, tools, budget) == Progress(Err(ImmutableConflict), disk, budget)
  {
    RefusedFirst(Driver(other, tools), LegacyIfAny(board, tools), disk, budget);
    RefusedFirst(BeforeInjection(board, other, tools), Injection(board, tools), disk, budget);
  }

  lemma RefusedFirst<T, U>(first: Stage<T>, second: Stage<U>, disk: Disk, budget: Budget)
    requires first(disk, budget).result.Err?
    ensures Both(first, second, disk, budget) == Progress(Err(first(disk, budget).result.error), first(disk, budget).disk, first(disk, budget).budget)
  {
  }
}
