// The preparation seen from the plan: however far it gets, it records the open preparation steps in
// plan order, which is what the preparation command of a deployment run does.
module PreparationRuns {
  import opened Prelude
  import opened DeploymentPlan
  import opened PlanStore
  import opened Preparation
  import opened Workflow
  import opened WorkflowRuns

  // ---------------------------------------------------------------- the open preparation steps

  lemma {:induction false} OpenOfConcat(a: seq<Step>, b: seq<Step>)
    ensures OpenPreparation(a + b) == OpenPreparation(a) + OpenPreparation(b)
  {
    if a == [] {
      assert a + b == b;
    } else {
      assert (a + b)[1..] == a[1..] + b;
      OpenOfConcat(a[1..], b);
    }
  }

  lemma {:induction false} NoneOpen(steps: seq<Step>)
    requires forall i :: 0 <= i < |steps| ==> steps[i].state == Completed
    ensures OpenPreparation(steps) == []
  {
    if steps != [] {
      NoneOpen(steps[1..]);
    }
  }

  lemma {:induction false} SameOpen(a: seq<Step>, b: seq<Step>)
    requires |a| == |b|
    requires forall i :: 0 <= i < |a| ==> a[i].id == b[i].id && a[i].state != Completed && b[i].state != Completed
    ensures OpenPreparation(a) == OpenPreparation(b)
  {
    if a != [] {
      SameOpen(a[1..], b[1..]);
    }
  }

  // The open preparation steps of a plan in shape are those behind its completed steps.
  lemma OpenBehind(plan: Plan, k: nat)
    requires InShape(plan, k)
    ensures OpenPreparation(plan.steps) == OpenPreparation(plan.steps[k..])
  {
    assert plan.steps == plan.steps[..k] + plan.steps[k..];
    OpenOfConcat(plan.steps[..k], plan.steps[k..]);
    NoneOpen(plan.steps[..k]);
  }

  lemma OpenFrom(plan: Plan, k: nat)
    requires k < |plan.steps| && IsPreparation(plan.steps[k].id) && plan.steps[k].state != Completed
    ensures OpenPreparation(plan.steps[k..]) == [plan.steps[k].id] + OpenPreparation(plan.steps[k + 1..])
  {
    assert plan.steps[k..][0] == plan.steps[k] && plan.steps[k..][1..] == plan.steps[k + 1..];
  }

  // Completing a preparation step takes the first of the open ones.
  lemma TakesFirstOpen(plan: Plan, k: nat, step: StepId, value: EvidenceValue)
    requires InShape(plan, k) && Complete(plan, step, value).Ok? && IsPreparation(step)
    ensures OpenPreparation(plan.steps) == [step] + OpenPreparation(Complete(plan, step, value).value.steps)
  {
    CompleteAdvances(plan, k, step, value);
    var next := Complete(plan, step, value).value;
    OpenBehind(plan, k);
    OpenBehind(next, k + 1);
    OpenFrom(plan, k);
    ShapeAt(plan, k, k);
    forall i | k < i < |plan.steps|
      ensures plan.steps[i].state != Completed && next.steps[i].state != Completed && plan.steps[i].id == next.steps[i].id
    {
      ShapeAt(plan, k, i);
      ShapeAt(next, k + 1, i);
    }
    SameOpen(plan.steps[k + 1..], next.steps[k + 1..]);
  }

  // ---------------------------------------------------------------- runs of the command

  function Findings(plan: Plan, digests: seq<Digest>): seq<Finding> {
    PreparationFindings(OpenPreparation(plan.steps), digests)
  }

  predicate Records(plan: Plan, digests: seq<Digest>, writes: nat, after: Plan) {
    RecordAll(plan, Findings(plan, digests), writes).1 == after
  }

  // The preparation command, given the right digests and writes, leads from one plan to the other.
  ghost predicate Leads(plan: Plan, after: Plan) {
    exists digests, writes: nat :: Records(plan, digests, writes, after)
  }

  lemma LeadsItself(plan: Plan)
    ensures Leads(plan, plan)
  {
    assert Findings(plan, []) == [];
    assert Records(plan, [], 0, plan);
  }

  lemma LeadsThrough(plan: Plan, k: nat, step: StepId, digest: Digest, after: Plan)
    requires InShape(plan, k) && IsPreparation(step) && Complete(plan, step, Hash(digest)).Ok?
    requires Leads(Complete(plan, step, Hash(digest)).value, after)
    ensures Leads(plan, after)
  {
    var next := Complete(plan, step, Hash(digest)).value;
    var digests, writes: nat :| Records(next, digests, writes, after);
    TakesFirstOpen(plan, k, step, Hash(digest));
    var all := [digest] + digests;
    assert all[0] == digest && all[1..] == digests;
    assert OpenPreparation(plan.steps)[1..] == OpenPreparation(next.steps);
    assert Findings(plan, all) == [Finding(step, Hash(digest))] + Findings(next, digests);
    assert Findings(plan, all)[1..] == Findings(next, digests);
    assert Records(plan, all, writes + 1, after);
  }

  // ---------------------------------------------------------------- what a stage does to the plan

  // A stage records its own step, or leaves the plan alone.
  ghost predicate MovedBy(plan: Plan, step: StepId, after: Plan) {
    after == plan || exists digest :: Complete(plan, step, Hash(digest)) == Ok(after)
  }

  lemma {:induction false} WritesMove(disk: Disk, files: seq<Artifact>, step: StepId, digest: Digest, budget: Budget)
    ensures MovedBy(disk.plan, step, WriteAll(disk, files, step, digest, budget).disk.plan)
    decreases |files|
  {
    if files != [] {
      var kept := Preserve(disk, files[0].kind, files[0].bytes, budget);
      if kept.result.Ok? {
        WritesMove(kept.disk, files[1..], step, digest, kept.budget);
      }
    }
  }

  lemma DriverMoves(disk: Disk, bundled: Bytes, tools: Tools, budget: Budget)
    ensures MovedBy(disk.plan, PrepareRustDriver, DriverStage(disk, bundled, tools, budget).disk.plan)
  {
    WritesMove(disk, [Artifact(RustDriverFfs, bundled)], PrepareRustDriver, Sha256(bundled), budget);
  }

  lemma LegacyMoves(disk: Disk, tools: Tools, budget: Budget)
    ensures MovedBy(disk.plan, ApplyLegacyBoardPatches, LegacyStage(disk, tools, budget).disk.plan)
  {
    if PatchedLegacy(tools).Ok? {
      var (firmware, receipt) := PatchedLegacy(tools).value;
      var file := tools.encodeLegacy(receipt);
      WritesMove(disk, [Artifact(LegacyPatchedFirmware, firmware), Artifact(LegacyReceiptFile, file)],
                 ApplyLegacyBoardPatches, Sha256(file), budget);
    }
  }

  lemma InjectionMoves(disk: Disk, board: BoardPath, tools: Tools, budget: Budget)
    ensures MovedBy(disk.plan, VerifyPatchedArtifact, InjectionStage(disk, board, tools, budget).disk.plan)
  {
    if Rebuilt(disk, board, tools).Ok? {
      var (firmware, targets) := Rebuilt(disk, board, tools).value;
      var file := tools.encodeInjection(InjectionReceipt(Sha256(firmware), targets));
      WritesMove(disk, [Artifact(PatchedFirmware, firmware), Artifact(InjectionReceiptFile, file)],
                 VerifyPatchedArtifact, Sha256(firmware), budget);
    }
  }

  lemma MoveLeads(plan: Plan, step: StepId, next: Plan, after: Plan, profile: Profile)
    requires Valid(plan, profile) && IsPreparation(step) && MovedBy(plan, step, next) && (Valid(next, profile) ==> Leads(next, after))
    ensures Valid(next, profile) && Leads(plan, after)
  {
    if next != plan {
      var digest :| Complete(plan, step, Hash(digest)) == Ok(next);
      var k: nat :| InShape(plan, k);
      CompleteAdvances(plan, k, step, Hash(digest));
      LeadsThrough(plan, k, step, digest, after);
    }
  }

  // Three moves in a row are one run of the command.
  lemma ThreeMovesLead(a: Plan, b: Plan, c: Plan, d: Plan, profile: Profile)
    requires Valid(a, profile)
    requires MovedBy(a, PrepareRustDriver, b) && MovedBy(b, ApplyLegacyBoardPatches, c) && MovedBy(c, VerifyPatchedArtifact, d)
    ensures Leads(a, d)
  {
    LeadsItself(d);
    assert Valid(b, profile) by { LeadsItself(b); MoveLeads(a, PrepareRustDriver, b, b, profile); }
    assert Valid(c, profile) by { LeadsItself(c); MoveLeads(b, ApplyLegacyBoardPatches, c, c, profile); }
    MoveLeads(c, VerifyPatchedArtifact, d, d, profile);
    MoveLeads(b, ApplyLegacyBoardPatches, c, d, profile);
    MoveLeads(a, PrepareRustDriver, b, d, profile);
  }

  // Of two stages in a row only the second moves the plan the first one left.
  lemma SecondMoves<T(!new), U(!new)>(first: Stage<T>, second: Stage<U>, disk: Disk, budget: Budget, step: StepId)
    requires forall d: Disk, b: Budget :: MovedBy(d.plan, step, second(d, b).disk.plan)
    ensures MovedBy(first(disk, budget).disk.plan, step, Both(first, second, disk, budget).disk.plan)
  {
  }

  lemma UpToLegacyMoves(disk: Disk, board: BoardPath, bundled: Bytes, tools: Tools, budget: Budget)
    ensures MovedBy(DriverStage(disk, bundled, tools, budget).disk.plan, ApplyLegacyBoardPatches,
                    BeforeInjection(board, bundled, tools)(disk, budget).disk.plan)
  {
    forall d: Disk, b: Budget
      ensures MovedBy(d.plan, ApplyLegacyBoardPatches, LegacyIfAny(board, tools)(d, b).disk.plan)
    {
      LegacyMoves(d, tools, b);
    }
    SecondMoves(Driver(bundled, tools), LegacyIfAny(board, tools), disk, budget, ApplyLegacyBoardPatches);
  }

  lemma InjectionMovesLast(disk: Disk, board: BoardPath, bundled: Bytes, tools: Tools, budget: Budget)
    ensures MovedBy(BeforeInjection(board, bundled, tools)(disk, budget).disk.plan, VerifyPatchedArtifact,
                    AllStages(board, bundled, tools)(disk, budget).disk.plan)
  {
    forall d: Disk, b: Budget
      ensures MovedBy(d.plan, VerifyPatchedArtifact, Injection(board, tools)(d, b).disk.plan)
    {
      InjectionMoves(d, board, tools, b);
    }
    SecondMoves(BeforeInjection(board, bundled, tools), Injection(board, tools), disk, budget, VerifyPatchedArtifact);
  }

  // However it ends, finished, refused or cut off, the preparation leaves a plan that the preparation
  // command of a deployment run leaves for some digests and some number of writes. So what is proved
  // about every run of commands holds of it.
  lemma PreparationIsACommand(disk: Disk, bundled: Bytes, tools: Tools, budget: Budget, profile: Profile)
    requires Valid(disk.plan, profile)
    ensures Leads(disk.plan, Preparation.Prepare(disk, profile.board, bundled, tools, budget).disk.plan)
  {
    if !tools.profileStands {
      LeadsItself(disk.plan);
    } else {
      DriverMoves(disk, bundled, tools, budget);
      UpToLegacyMoves(disk, profile.board, bundled, tools, budget);
      InjectionMovesLast(disk, profile.board, bundled, tools, budget);
      ThreeMovesLead(disk.plan, DriverStage(disk, bundled, tools, budget).disk.plan,
                     BeforeInjection(profile.board, bundled, tools)(disk, budget).disk.plan,
                     AllStages(profile.board, bundled, tools)(disk, budget).disk.plan, profile);
    }
  }

  // In particular it keeps the evidence sound and the recorded boots as they were, and everything
  // recorded before stays.
  lemma PreparationStaysSound(disk: Disk, bundled: Bytes, tools: Tools, budget: Budget, profile: Profile)
    ensures var after := Preparation.Prepare(disk, profile.board, bundled, tools, budget).disk.plan;
            && (Evidenced(profile, disk.plan) ==> Later(profile, disk.plan, after))
            && (Anchored(profile, disk.plan) ==> LaterAnchored(profile, disk.plan, after))
  {
    var after := Preparation.Prepare(disk, profile.board, bundled, tools, budget).disk.plan;
    if StageIs(disk.plan, profile, disk.plan.revision) {
      assert Valid(disk.plan, profile) by { assert InShape(disk.plan, disk.plan.revision); }
      PreparationIsACommand(disk, bundled, tools, budget, profile);
      var digests, writes: nat :| Records(disk.plan, digests, writes, after);
      PreparationIsPlain(disk.plan.steps, digests);
      if Evidenced(profile, disk.plan) {
        RecordAllKeepsEvidence(profile, disk.plan, Findings(disk.plan, digests), writes);
      }
      if Anchored(profile, disk.plan) {
        RecordAllKeepsAnchors(profile, disk.plan, Findings(disk.plan, digests), writes);
      }
    }
  }
}
