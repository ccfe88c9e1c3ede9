// Recording the vendor flash, and when asked the firmware setup, from one confirmation: a loop of
// client calls against a stored plan that may move between any two of them.
module Handoff {
  import opened Prelude
  import opened DeploymentPlan
  import opened PlanStore
  import opened Workflow
  import opened WorkflowRuns
  import CoreConfig

  // What the client meets during one turn of the loop: the plan stored and the surroundings at each
  // of its two calls, and whether the operation is still the current one after each.
  datatype Turn = Turn(
    storedAtPreview: Plan,
    previewing: World,
    currentAfterPreview: bool,
    storedAtConfirm: Plan,
    confirming: World,
    currentAfterConfirm: bool)

  datatype Ending = Done | Failed | Abandoned

  // One step the backend completed for this hand-off, and the plan it completed it in.
  datatype Completion = Completion(step: StepId, stored: Plan)

  // ---------------------------------------------------------------- the backend's two calls

  function Preview(profile: Profile, stored: Plan, world: World): Option<ConfirmationToken> {
    var active := Active(stored);
    if LoadExact(profile, stored, world).None? || active.None? || !IsManual(active.value) then None
    else if active.value == FlashWithVendorRoute && !(world.artifactsValid && profile.hasInstallRoute) then None
    else Some(ConfirmationToken(active.value, profile.profileId, stored.revision))
  }

  function Confirm(profile: Profile, stored: Plan, token: ConfirmationToken, world: World): Option<Plan> {
    if LoadExact(profile, stored, world).None? then None
    else
      var findings := ManualFindings(profile, stored, world, ConfirmManual(token.step, token, true));
      if findings.None? then None
      else
        var (ok, after) := RecordAll(stored, findings.value, world.diskWrites);
        if ok then Some(after) else None
  }

  // The adapter the client calls through.
  datatype Adapter = Adapter(
    preview: (Plan, World) -> Option<ConfirmationToken>,
    confirm: (Plan, ConfirmationToken, World) -> Option<Plan>)

  function BackendAdapter(profile: Profile): Adapter {
    Adapter((stored, world) => Preview(profile, stored, world), (stored, token, world) => Confirm(profile, stored, token, world))
  }

  // ---------------------------------------------------------------- the client's checks

  // The preview must be for the plan the client shows, at its revision and its active step.
  predicate PreviewFits(shown: Plan, token: ConfirmationToken) {
    token.profileId == shown.profileId && token.revision == shown.revision && Active(shown) == Some(token.step)
  }

  function Targets(includeSetup: bool): seq<StepId> {
    if includeSetup then [FlashWithVendorRoute, ConfigureFirmwareSetup] else [FlashWithVendorRoute]
  }

  datatype Result = Result(ending: Ending, shown: Plan, completions: seq<Completion>)

  // One turn for the step the client shows: stopped, or the plan with that step recorded.
  datatype TurnEnd = Recorded(after: Plan) | Stopped(ending: Ending, completed: bool)

  function TakeTurn(adapter: Adapter, shown: Plan, turn: Turn): TurnEnd {
    var token := adapter.preview(turn.storedAtPreview, turn.previewing);
    if token.None? || !PreviewFits(shown, token.value) then Stopped(Failed, false)
    else if !turn.currentAfterPreview then Stopped(Abandoned, false)
    else
      var after := adapter.confirm(turn.storedAtConfirm, token.value, turn.confirming);
      if after.None? then Stopped(Failed, false)
      else if !turn.currentAfterConfirm then Stopped(Abandoned, true)
      else Recorded(after.value)
  }

  // The loop: steps the client does not show are skipped, each other one takes a turn. `recorded`
  // counts what was recorded so far.
  function Loop(adapter: Adapter, shown: Plan, targets: seq<StepId>, turns: seq<Turn>, recorded: nat): Result
    requires |turns| == |targets|
    decreases |targets|
  {
    if targets == [] then Result(if recorded == 0 then Failed else Done, shown, [])
    else if Active(shown) != Some(targets[0]) then Loop(adapter, shown, targets[1..], turns[1..], recorded)
    else
      var completion := [Completion(targets[0], turns[0].storedAtConfirm)];
      match TakeTurn(adapter, shown, turns[0])
      case Stopped(ending, completed) => Result(ending, shown, if completed then completion else [])
      case Recorded(after) =>
        var rest := Loop(adapter, after, targets[1..], turns[1..], recorded + 1);
        rest.(completions := completion + rest.completions)
  }

  function Handed(adapter: Adapter, shown: Plan, includeSetup: bool, reviewed: u32, turns: seq<Turn>): Result
    requires |turns| == |Targets(includeSetup)|
  {
    if shown.revision != reviewed then Result(Failed, shown, [])
    else Loop(adapter, shown, Targets(includeSetup), turns, 0)
  }

  class Client {
    var plan: Plan

    constructor (plan: Plan)
      ensures this.plan == plan
    {
      this.plan := plan;
    }

    method RecordFirmwareHandoff(adapter: Adapter, includeSetup: bool, reviewed: u32, turns: seq<Turn>)
      returns (ending: Ending, completions: seq<Completion>)
      requires |turns| == |Targets(includeSetup)|
      modifies this
      ensures Result(ending, plan, completions) == Handed(adapter, old(plan), includeSetup, reviewed, turns)
    {
      completions := [];
      if plan.revision != reviewed { return Failed, completions; }
      var targets := Targets(includeSetup);
      var recorded := 0;
      for i := 0 to |targets|
        invariant Prefixed(completions, Loop(adapter, plan, targets[i..], turns[i..], recorded)) == Loop(adapter, old(plan), targets, turns, 0)
      {
        LoopOnce(adapter, plan, targets, turns, i, recorded);
        if Active(plan) != Some(targets[i]) { continue; }
        var end := HandOne(adapter, plan, turns[i]);
        if end.Stopped? && !end.completed { return end.ending, completions; }
        completions := completions + [Completion(targets[i], turns[i].storedAtConfirm)];
        if end.Stopped? { return end.ending, completions; }
        plan := end.after;
        recorded := recorded + 1;
      }
      return if recorded == 0 then Failed else Done, completions;
    }
  }

  // The two calls of one turn, with the checks between them.
  method HandOne(adapter: Adapter, shown: Plan, turn: Turn) returns (end: TurnEnd)
    ensures end == TakeTurn(adapter, shown, turn)
  {
    var token := adapter.preview(turn.storedAtPreview, turn.previewing);
    if token.None? || !PreviewFits(shown, token.value) { return Stopped(Failed, false); }
    if !turn.currentAfterPreview { return Stopped(Abandoned, false); }
    var receipt := adapter.confirm(turn.storedAtConfirm, token.value, turn.confirming);
    if receipt.None? { return Stopped(Failed, false); }
    if !turn.currentAfterConfirm { return Stopped(Abandoned, true); }
    return Recorded(receipt.value);
  }

  function Prefixed(completions: seq<Completion>, result: Result): Result {
    result.(completions := completions + result.completions)
  }

  // The loop from its i-th target on.
  lemma LoopOnce(adapter: Adapter, shown: Plan, targets: seq<StepId>, turns: seq<Turn>, i: nat, recorded: nat)
    requires |turns| == |targets| && i < |targets|
    ensures var here := Loop(adapter, shown, targets[i..], turns[i..], recorded);
            var completion := [Completion(targets[i], turns[i].storedAtConfirm)];
            if Active(shown) != Some(targets[i]) then here == Loop(adapter, shown, targets[i + 1..], turns[i + 1..], recorded)
            else match TakeTurn(adapter, shown, turns[i])
                 case Stopped(ending, completed) => here == Result(ending, shown, if completed then completion else [])
                 case Recorded(after) => here == Prefixed(completion, Loop(adapter, after, targets[i + 1..], turns[i + 1..], recorded + 1))
  {
    assert targets[i..][0] == targets[i] && targets[i..][1..] == targets[i + 1..];
    assert turns[i..][0] == turns[i] && turns[i..][1..] == turns[i + 1..];
  }

  // ---------------------------------------------------------------- what can be completed

  // A confirmation completes exactly the step of its token, in a plan at the token's revision.
  lemma ConfirmsItsToken(profile: Profile, stored: Plan, token: ConfirmationToken, world: World)
    requires Confirm(profile, stored, token, world).Some?
    ensures Active(stored) == Some(token.step) && stored.revision == token.revision
    ensures Complete(stored, token.step, Attested(world.now)) == Ok(Confirm(profile, stored, token, world).value)
  {
    RecordOne(stored, Finding(token.step, Attested(world.now)), world.diskWrites);
  }

  // A preview is given exactly while the machine is the expected one and an operator step is active, a
  // flash only with its artifacts and route in order; it is for that step of this profile at the
  // stored revision.
  lemma PreviewMeans(profile: Profile, stored: Plan, world: World)
    ensures var token := Preview(profile, stored, world);
            var active := Active(stored);
            && (token.Some? <==>
                  && LoadExact(profile, stored, world).Some? && active.Some?
                  && (|| active == Some(ConfigureFirmwareSetup) || active == Some(ConfigureNvidiaApplications)
                      || (active == Some(FlashWithVendorRoute) && world.artifactsValid && profile.hasInstallRoute)))
            && (token.Some? ==>
                  token.value.step == active.value && token.value.profileId == profile.profileId && token.value.revision == stored.revision)
  {
  }

  // Confirming through the client is the confirmed command itself: it goes through when that does, and
  // leaves the plan that leaves.
  lemma ConfirmIsTheCommand(profile: Profile, registry: CoreConfig.Registry, d: Deployment, token: ConfirmationToken, world: World)
    ensures var outcome := Run(ConfirmManual(token.step, token, true), world, profile, registry, d);
            Confirm(profile, d.plan, token, world) == if outcome.ok then Some(outcome.after.plan) else None
  {
    var exact := LoadExact(profile, d.plan, world);
    if exact.Some? {
      ManualIsAdmitted(profile, registry, d, token, world, exact.value);
    }
  }

  lemma ManualIsAdmitted(profile: Profile, registry: CoreConfig.Registry, d: Deployment, token: ConfirmationToken, world: World, exact: Exact)
    ensures Admitted(ConfirmManual(token.step, token, true), world, profile, exact, registry, d)
         == Recording(d, ManualFindings(profile, d.plan, world, ConfirmManual(token.step, token, true)), world)
  {
  }

  // A preview confirmed while nothing moved goes through as long as the disk takes the record.
  lemma PreviewThenConfirm(profile: Profile, stored: Plan, world: World)
    requires StageIs(stored, profile, stored.revision) && Preview(profile, stored, world).Some? && world.diskWrites > 0
    ensures Confirm(profile, stored, Preview(profile, stored, world).value, world).Some?
  {
    var token := Preview(profile, stored, world).value;
    PreviewMeans(profile, stored, world);
    ManualCompletes(profile, stored, token.step, world);
    assert ManualFindings(profile, stored, world, ConfirmManual(token.step, token, true)) == Some([Finding(token.step, Attested(world.now))]);
  }

  lemma ManualCompletes(profile: Profile, stored: Plan, step: StepId, world: World)
    requires StageIs(stored, profile, stored.revision) && Active(stored) == Some(step) && IsManual(step) && world.diskWrites > 0
    ensures RecordAll(stored, [Finding(step, Attested(world.now))], world.diskWrites).0
  {
    RecordOne(stored, Finding(step, Attested(world.now)), world.diskWrites);
    ShapeReady(stored, stored.revision);
    CompleteAdvances(stored, stored.revision, step, Attested(world.now));
  }

  // All the client relies on: a preview is for the revision stored at that moment, and a confirmation
  // that goes through completed the step of its token, in a plan at the token's revision.
  ghost predicate Honest(adapter: Adapter) {
    && (forall stored, world :: adapter.preview(stored, world).Some? ==> adapter.preview(stored, world).value.revision == stored.revision)
    && forall stored, token, world :: adapter.confirm(stored, token, world).Some? ==> Confirmed(stored, token, world, adapter.confirm(stored, token, world).value)
  }

  predicate Confirmed(stored: Plan, token: ConfirmationToken, world: World, after: Plan) {
    && Active(stored) == Some(token.step) && stored.revision == token.revision
    && Complete(stored, token.step, Attested(world.now)) == Ok(after)
  }

  lemma BackendIsHonest(profile: Profile)
    ensures Honest(BackendAdapter(profile))
  {
    forall stored, token, world | Confirm(profile, stored, token, world).Some?
      ensures Confirmed(stored, token, world, Confirm(profile, stored, token, world).value)
    {
      ConfirmsItsToken(profile, stored, token, world);
    }
  }

  // What the user was shown: the active step, if it is one of the hand-off's, and the one after it
  // when the setup was to be included.
  function Shown(shown: Plan, includeSetup: bool): seq<(StepId, nat)> {
    if Active(shown) == Some(FlashWithVendorRoute) then
      [(FlashWithVendorRoute, shown.revision as nat)]
      + if includeSetup then [(ConfigureFirmwareSetup, shown.revision as nat + 1)] else []
    else if Active(shown) == Some(ConfigureFirmwareSetup) && includeSetup then [(ConfigureFirmwareSetup, shown.revision as nat)]
    else []
  }

  predicate Matches(completion: Completion, expected: (StepId, nat)) {
    completion.step == expected.0 && completion.stored.revision == expected.1 && Active(completion.stored) == Some(expected.0)
  }

  // The steps completed are the first few of those shown, each in a stored plan at its revision.
  predicate WithinShown(result: Result, expected: seq<(StepId, nat)>) {
    && |result.completions| <= |expected|
    && (forall i :: 0 <= i < |result.completions| ==> Matches(result.completions[i], expected[i]))
    && (result.ending.Done? ==> |result.completions| == |expected| > 0)
  }

  lemma NextStep(profile: Profile, stored: Plan, step: StepId, value: EvidenceValue)
    requires StageIs(stored, profile, stored.revision) && Complete(stored, step, value).Ok?
    ensures var after := Complete(stored, step, value).value;
            && StageIs(after, profile, after.revision) && after.revision == stored.revision + 1
            && (step == FlashWithVendorRoute ==> Active(after) == Some(ConfigureFirmwareSetup))
  {
    StageAdvances(stored, stored.revision, step, value, profile);
    var after := Complete(stored, step, value).value;
    ActiveStep(profile, stored);
    ActiveStep(profile, after);
    StepPlaces(profile);
    ShapeReady(stored, stored.revision);
  }

  predicate Stages(profile: Profile, turns: seq<Turn>) {
    forall i :: 0 <= i < |turns| ==>
      StageIs(turns[i].storedAtConfirm, profile, turns[i].storedAtConfirm.revision)
  }

  // A turn completes at most the step shown, in a stored plan at the revision shown.
  lemma TurnCompletes(adapter: Adapter, shown: Plan, target: StepId, turn: Turn)
    requires Honest(adapter)
    requires Active(shown) == Some(target)
    ensures var end := TakeTurn(adapter, shown, turn);
            && (end.Recorded? || end.completed ==> Matches(Completion(target, turn.storedAtConfirm), (target, shown.revision as nat)))
            && (end.Recorded? ==> Complete(turn.storedAtConfirm, target, Attested(turn.confirming.now)) == Ok(end.after))
            && (end.Stopped? ==> !end.ending.Done?)
  {
    var token := adapter.preview(turn.storedAtPreview, turn.previewing);
    if token.Some? && adapter.confirm(turn.storedAtConfirm, token.value, turn.confirming).Some? {
      assert Confirmed(turn.storedAtConfirm, token.value, turn.confirming, adapter.confirm(turn.storedAtConfirm, token.value, turn.confirming).value);
    }
  }

  // The last target: at most it is recorded, at the revision shown.
  lemma LastTarget(adapter: Adapter, shown: Plan, target: StepId, turn: Turn, recorded: nat)
    requires Honest(adapter)
    ensures var result := Loop(adapter, shown, [target], [turn], recorded);
            && |result.completions| <= 1
            && (result.completions != [] ==> Active(shown) == Some(target) && Matches(result.completions[0], (target, shown.revision as nat)))
            && (result.ending.Done? ==> if Active(shown) == Some(target) then |result.completions| == 1 else recorded > 0 && result.completions == [])
            && (Active(shown) != Some(target) ==> result == Result(if recorded == 0 then Failed else Done, shown, []))
  {
    LoopOnce(adapter, shown, [target], [turn], 0, recorded);
    assert [target][0..] == [target] && [turn][0..] == [turn];
    assert [target][1..] == [] && [turn][1..] == [];
    if Active(shown) == Some(target) {
      TurnCompletes(adapter, shown, target, turn);
    }
  }

  lemma FlashThenSetup(adapter: Adapter, profile: Profile, shown: Plan, turns: seq<Turn>)
    requires Honest(adapter) && |turns| == 2 && Stages(profile, turns) && Active(shown) == Some(FlashWithVendorRoute)
    ensures WithinShown(Loop(adapter, shown, Targets(true), turns, 0), Shown(shown, true))
  {
    assert turns[1..] == [turns[1]] && Targets(true)[1..] == [ConfigureFirmwareSetup];
    assert turns[0..] == turns && Targets(true)[0..] == Targets(true);
    LoopOnce(adapter, shown, Targets(true), turns, 0, 0);
    TurnCompletes(adapter, shown, FlashWithVendorRoute, turns[0]);
    var end := TakeTurn(adapter, shown, turns[0]);
    if end.Recorded? {
      NextStep(profile, turns[0].storedAtConfirm, FlashWithVendorRoute, Attested(turns[0].confirming.now));
      LastTarget(adapter, end.after, ConfigureFirmwareSetup, turns[1], 1);
      FlashAndRest(shown, turns[0].storedAtConfirm, end.after, Loop(adapter, end.after, [ConfigureFirmwareSetup], [turns[1]], 1));
    }
  }

  lemma FlashAndRest(shown: Plan, stored: Plan, after: Plan, rest: Result)
    requires Active(shown) == Some(FlashWithVendorRoute) && Active(after) == Some(ConfigureFirmwareSetup)
    requires Matches(Completion(FlashWithVendorRoute, stored), (FlashWithVendorRoute, shown.revision as nat))
    requires after.revision as nat == shown.revision as nat + 1
    requires |rest.completions| <= 1
    requires rest.completions != [] ==> Matches(rest.completions[0], (ConfigureFirmwareSetup, after.revision as nat))
    requires rest.ending.Done? ==> |rest.completions| == 1
    ensures WithinShown(Prefixed([Completion(FlashWithVendorRoute, stored)], rest), Shown(shown, true))
  {
  }

  lemma OnlySetup(adapter: Adapter, shown: Plan, turns: seq<Turn>)
    requires Honest(adapter) && |turns| == 2 && Active(shown) != Some(FlashWithVendorRoute)
    ensures WithinShown(Loop(adapter, shown, Targets(true), turns, 0), Shown(shown, true))
  {
    assert turns[1..] == [turns[1]] && Targets(true)[1..] == [ConfigureFirmwareSetup];
    assert turns[0..] == turns && Targets(true)[0..] == Targets(true);
    LoopOnce(adapter, shown, Targets(true), turns, 0, 0);
    LastTarget(adapter, shown, ConfigureFirmwareSetup, turns[1], 0);
  }

  lemma OnlyFlash(adapter: Adapter, shown: Plan, turns: seq<Turn>)
    requires Honest(adapter) && |turns| == 1
    ensures WithinShown(Loop(adapter, shown, Targets(false), turns, 0), Shown(shown, false))
  {
    assert turns == [turns[0]];
    LastTarget(adapter, shown, FlashWithVendorRoute, turns[0], 0);
  }

  // However the stored plan moves between the calls, the hand-off completes nothing but the step
  // shown at the reviewed revision and, when asked, the step right after it; and it reports success
  // only when it completed all of that.
  lemma HandoffStaysWithinReview(adapter: Adapter, profile: Profile, shown: Plan, includeSetup: bool, reviewed: u32, turns: seq<Turn>)
    requires Honest(adapter) && |turns| == |Targets(includeSetup)| && Stages(profile, turns)
    ensures var result := Handed(adapter, shown, includeSetup, reviewed, turns);
            && (shown.revision != reviewed ==> result.ending.Failed? && result.completions == [])
            && (shown.revision == reviewed ==> WithinShown(result, Shown(shown, includeSetup)))
  {
    if !includeSetup {
      OnlyFlash(adapter, shown, turns);
    } else if Active(shown) == Some(FlashWithVendorRoute) {
      FlashThenSetup(adapter, profile, shown, turns);
    } else {
      OnlySetup(adapter, shown, turns);
    }
  }

  // ---------------------------------------------------------------- a moved plan

  // A plan that moved before either call of a turn makes the hand-off fail there: nothing is recorded
  // in that turn or after it.
  lemma MovedPlanFails(adapter: Adapter, shown: Plan, targets: seq<StepId>, turns: seq<Turn>, recorded: nat)
    requires Honest(adapter)
    requires |turns| == |targets| > 0 && Active(shown) == Some(targets[0])
    requires turns[0].storedAtPreview.revision != shown.revision
             || (turns[0].currentAfterPreview && turns[0].storedAtConfirm.revision != shown.revision)
    ensures Loop(adapter, shown, targets, turns, recorded) == Result(Failed, shown, [])
  {
    var token := adapter.preview(turns[0].storedAtPreview, turns[0].previewing);
    if token.Some? && adapter.confirm(turns[0].storedAtConfirm, token.value, turns[0].confirming).Some? {
      assert Confirmed(turns[0].storedAtConfirm, token.value, turns[0].confirming, adapter.confirm(turns[0].storedAtConfirm, token.value, turns[0].confirming).value);
    }
  }

  // A stale reply to the preview makes no further call.
  lemma StalePreviewStops(adapter: Adapter, shown: Plan, targets: seq<StepId>, turns: seq<Turn>, recorded: nat)
    requires |turns| == |targets| > 0 && Active(shown) == Some(targets[0]) && !turns[0].currentAfterPreview
    ensures Loop(adapter, shown, targets, turns, recorded).completions == []
    ensures !Loop(adapter, shown, targets, turns, recorded).ending.Done?
  {
  }
}
