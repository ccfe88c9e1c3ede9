// The deployment session of the client as a machine: intents, and replies that may arrive in any
// order to whatever is still waiting. Each stretch of code between two awaits is one step.
module SessionModel {
  import opened Prelude
  import opened DeploymentPlan

  // What the client reads of a plan.
  datatype ClientPlan = ClientPlan(profileId: string, revision: nat, active: Option<StepId>)

  // A recommended draft; the ticket names the request it answers.
  datatype Draft = Draft(ticket: nat, body: nat)

  datatype Recommendation = Recommendation(profileId: string, planRevision: nat, draft: Draft)
  datatype RecommendationStatus = Idle | Waiting | Ready | Failed
  datatype Activity = NoActivity | Success | Error
  datatype Dialog = ManualDialog | RebootDialog | ConfigurationRebootDialog
  datatype AutoCheck = AutoCheck(step: StepId, failed: bool)

  // The firmware restart the user last reviewed.
  datatype RebootBinding = RebootBinding(profileId: string, planRevision: nat, step: StepId, token: nat)

  // The published state. `form` stands for every field the user fills in, `projection` for the
  // remaining fields a profile selection resets; no step here looks inside them.
  datatype Workspace = Workspace(
    selected: string,
    plan: Option<ClientPlan>,
    profilesLoaded: bool,
    creations: nat,
    recommendation: Option<Recommendation>,
    recommendationStatus: RecommendationStatus,
    confirmed: bool,
    rebootToken: Option<nat>,
    dialogs: set<Dialog>,
    autoCheck: Option<AutoCheck>,
    busyAction: string,
    activity: Activity,
    form: nat,
    projection: nat)

  // ---------------------------------------------------------------- what is waiting

  datatype Advance = Plain | Saves | Recommends | Checks(step: StepId)

  datatype Stage =
    | Advancing(before: ClientPlan, advance: Advance)
    | Creating
    | PreviewingReboot(shown: ClientPlan)
    | Acknowledging
    | Other(left: nat, guarded: bool)
    | HandoffPreview(targets: seq<StepId>, before: ClientPlan, recorded: nat)
    | HandoffConfirm(targets: seq<StepId>, before: ClientPlan, recorded: nat)
    | AwaitingRecommendation
    | Settling(failed: bool)
    | Finishing

  // A continuation and what it captured when it started to wait.
  datatype Cont =
    | Listing(gen: nat)
    | LoadingPlan(gen: nat, profileId: string)
    | PlanLoaded(gen: nat)
    | Recommending(gen: nat, profileId: string, revision: nat, ticket: nat)
    | Op(gen: nat, stage: Stage)

  datatype Call =
    | SaveCall(profileId: string, draft: Draft, heldRevision: nat, confirmedAt: nat, reviewed: Option<Draft>, takenThen: nat, taken: nat)
    | PreviewCall(profileId: string)
    | ConfirmCall(profileId: string)
    | RestartCall(profileId: string, revision: nat, step: StepId, token: nat)
    | OtherCall

  // Everything but what is waiting. `clock` counts recommendation requests and confirmations, so a
  // ticket is the time its request was made; `taken` counts the recommendations put on screen.
  // `reviewed` and `takenThen` are the draft on screen and that count when the last confirmation was
  // given. The program has neither; they are what the promises about its saves are stated with.
  datatype Core = Core(
    disposed: bool,
    generation: nat,
    inflight: Option<nat>,
    ws: Workspace,
    binding: Option<RebootBinding>,
    preferred: Option<string>,
    nextId: nat,
    clock: nat,
    confirmedAt: nat,
    requests: map<nat, (string, nat)>,
    reviewed: Option<Draft>,
    takenThen: nat,
    taken: nat)

  datatype Machine = Machine(core: Core, pending: map<nat, Cont>, calls: seq<Call>)

  // ---------------------------------------------------------------- intents and replies

  datatype Action =
    | Prepare | ConfirmManual | VerifyDriver | VerifyConfigurationBoot | CollectBar
    | PreviewReboot | RequestReboot
    | RecordHandoff(includeSetup: bool, reviewed: nat)
    | CreateProfile(hasFirmware: bool)
    | RunAutoCheck
    | SaveGuarded
    | SaveRecommended
    | RunOther(name: string, form: nat, calls: nat, guarded: bool, closes: set<Dialog>)

  datatype Intent =
    | SelectProfile(profileId: string)
    | SetConfirmed(value: bool)
    | EditForm(form: nat)
    | CloseModals
    | RetryRecommendation
    | Start(action: Action)

  datatype Reply =
    | Rejected
    | Profiles(ids: seq<string>)
    | PlanIs(revision: nat, active: Option<StepId>)
    | DraftIs(body: nat)
    | Receipt(revision: nat, active: Option<StepId>, projection: nat)
    | Created(profileId: string, revision: nat, active: Option<StepId>, projection: nat)
    | RebootDetails(fits: bool, token: nat, projection: nat)
    | PreviewIs(fits: bool)
    | Payload(form: nat, projection: nat, opens: set<Dialog>, throws: bool)
    | Nothing

  datatype Event = Dispatch(intent: Intent) | Resume(id: nat, reply: Reply) | Dispose

  // What one stretch of code does: the new core, what the resumed activity waits for next, a new
  // activity it left waiting, and the adapter calls it made.
  datatype Effect = Effect(core: Core, next: Option<Cont>, spawned: Option<Cont>, calls: seq<Call>)

  function Silent(core: Core): Effect { Effect(core, None, None, []) }

  function WithWs(core: Core, ws: Workspace): Core { core.(ws := ws) }

  predicate Current(core: Core, gen: nat) { !core.disposed && gen == core.generation }

  function ActiveIs(plan: Option<ClientPlan>): Option<StepId> { if plan.None? then None else plan.value.active }

  // ---------------------------------------------------------------- loading

  // Starting to load the recommendation: nothing unless the write step is active, otherwise a fresh
  // request that clears the confirmation.
  function RecommendationStart(core: Core): (Core, Option<Cont>) {
    var ws := core.ws;
    if ActiveIs(ws.plan) != Some(WriteNvstrapsConfiguration) then
      (WithWs(core, ws.(recommendationStatus := Idle, recommendation := None, confirmed := false)), None)
    else
      var plan := ws.plan.value;
      (core.(ws := ws.(recommendationStatus := Waiting, recommendation := None, confirmed := false),
             clock := core.clock + 1,
             requests := core.requests[core.clock := (plan.profileId, plan.revision)],
             nextId := core.nextId + 1),
       Some(Recommending(core.generation, plan.profileId, plan.revision, core.clock)))
  }

  function PlanStart(core: Core, gen: nat, profileId: string): (Core, Cont, seq<Call>) {
    if profileId == "" then (WithWs(core, core.ws.(plan := None)), PlanLoaded(gen), [])
    else (core, LoadingPlan(gen, profileId), [OtherCall])
  }

  function ResetProjection(ws: Workspace, profileId: string): Workspace {
    ws.(selected := profileId, plan := None, recommendation := None, recommendationStatus := Idle, confirmed := false,
        rebootToken := None, dialogs := {}, autoCheck := None, busyAction := "", activity := NoActivity, projection := 0)
  }

  function LeavingFor(core: Core, profileId: string): Core {
    core.(generation := core.generation + 1, inflight := None, binding := None, ws := ResetProjection(core.ws, profileId).(profilesLoaded := false))
  }

  function Selecting(core: Core, profileId: string): Effect {
    var reset := LeavingFor(core, profileId);
    var (started, cont, calls) := PlanStart(reset, reset.generation, profileId);
    Effect(started.(nextId := started.nextId + 1), None, Some(cont), calls)
  }

  // The record the user last worked on, or the first one.
  function Pick(ids: seq<string>, preferred: Option<string>): Option<string> {
    if preferred.Some? && preferred.value in ids then preferred
    else if ids != [] then Some(ids[0])
    else None
  }

  function Listed(core: Core, gen: nat, reply: Reply): Effect {
    match reply
    case Profiles(ids) =>
      if !Current(core, gen) then Silent(core)
      else
        var picked := Pick(ids, core.preferred);
        var chosen := WithWs(core, core.ws.(selected := if picked.None? then "" else picked.value));
        if picked.None? then Silent(WithWs(chosen, chosen.ws.(profilesLoaded := true)))
        else
          var (started, cont, calls) := PlanStart(chosen, gen, picked.value);
          Effect(started, Some(cont), None, calls)
    case _ =>
      Silent(if gen == core.generation then WithWs(core, core.ws.(profilesLoaded := true, activity := Error)) else core)
  }

  function PlanArrived(core: Core, gen: nat, profileId: string, reply: Reply): Effect {
    match reply
    case PlanIs(revision, active) =>
      if !Current(core, gen) || core.ws.selected != profileId then Effect(core, Some(PlanLoaded(gen)), None, [])
      else
        var (after, cont) := RecommendationStart(WithWs(core, core.ws.(plan := Some(ClientPlan(profileId, revision, active)))));
        Effect(after, Some(PlanLoaded(gen)), cont, if cont.Some? then [OtherCall] else [])
    case _ =>
      Effect(if gen == core.generation then WithWs(core, core.ws.(activity := Error)) else core, Some(PlanLoaded(gen)), None, [])
  }

  function DraftArrived(core: Core, cont: Cont, reply: Reply): Effect
    requires cont.Recommending?
  {
    match reply
    case DraftIs(body) =>
      if cont.gen != core.generation || core.ws.plan.None?
         || core.ws.plan.value.profileId != cont.profileId || core.ws.plan.value.revision != cont.revision
      then Silent(core)
      else
        Silent(WithWs(core, core.ws.(
          recommendation := Some(Recommendation(cont.profileId, cont.revision, Draft(cont.ticket, body))),
          recommendationStatus := RecommendationStatus.Ready)).(taken := core.taken + 1))
    case _ =>
      Silent(if cont.gen == core.generation then WithWs(core, core.ws.(recommendationStatus := Failed, activity := Error)) else core)
  }

  // ---------------------------------------------------------------- starting an operation

  function ActionName(action: Action): string {
    match action
    case Prepare => "prepare"
    case ConfirmManual => "manual-confirm"
    case VerifyDriver => "driver-verify"
    case VerifyConfigurationBoot => "configuration-boot-verify"
    case CollectBar => "bar1"
    case PreviewReboot => "reboot-preview"
    case RequestReboot => "reboot"
    case RecordHandoff(_, _) => "manual-confirm"
    case CreateProfile(_) => "profile"
    case RunAutoCheck => "auto-check"
    case SaveGuarded | SaveRecommended => "deployment-config"
    case RunOther(name, _, _, _, _) => if name == "" then "other" else name
  }

  predicate IsChecked(step: StepId) {
    step == RebootAfterFirmware || step == VerifyDriverLoaded || step == RebootAfterConfiguration || step == VerifyResizableBar
  }

  // An action that is not offered, or whose own checks fail, never reaches the operation slot.
  predicate Offered(ws: Workspace, action: Action) {
    match action
    case CreateProfile(hasFirmware) => hasFirmware
    case RunAutoCheck => ActiveIs(ws.plan).Some? && IsChecked(ActiveIs(ws.plan).value)
    case SaveGuarded | SaveRecommended =>
      && ws.plan.Some? && ws.recommendation.Some? && ws.confirmed
      && ws.recommendation.value.profileId == ws.plan.value.profileId
      && ws.recommendation.value.planRevision == ws.plan.value.revision
    case _ => true
  }

  // What a dispatch patches before the slot is asked for.
  function BeforeRun(core: Core, action: Action): Core {
    match action
    case ConfirmManual => WithWs(core, core.ws.(dialogs := core.ws.dialogs - {ManualDialog}))
    case SaveRecommended => Confirming(core)
    case RunOther(_, _, _, _, closes) => WithWs(core, core.ws.(dialogs := core.ws.dialogs - closes))
    case _ => core
  }

  function DraftShown(ws: Workspace): Option<Draft> {
    if ws.recommendation.None? then None else Some(ws.recommendation.value.draft)
  }

  function Confirming(core: Core): Core {
    core.(ws := core.ws.(confirmed := true), confirmedAt := core.clock, clock := core.clock + 1,
          reviewed := DraftShown(core.ws), takenThen := core.taken)
  }

  function Advances(ws: Workspace, advance: Advance): Stage {
    if ws.plan.None? then Settling(true) else Advancing(ws.plan.value, advance)
  }

  // The targets of a hand-off still ahead of what the client shows.
  function NextTarget(ws: Workspace, targets: seq<StepId>, recorded: nat): Stage {
    if targets == [] then Settling(recorded == 0)
    else if ws.plan.None? then Settling(true)
    else if ws.plan.value.active == Some(targets[0]) then HandoffPreview(targets, ws.plan.value, recorded)
    else NextTarget(ws, targets[1..], recorded)
  }

  predicate BindingFits(core: Core) {
    var plan := core.ws.plan;
    && core.binding.Some? && plan.Some?
    && core.binding.value.profileId == plan.value.profileId
    && core.binding.value.planRevision == plan.value.revision
    && Some(core.binding.value.step) == plan.value.active
    && Some(core.binding.value.token) == core.ws.rebootToken
  }

  function CallsOf(stage: Stage): seq<Call> {
    match stage
    case Settling(_) => []
    case HandoffPreview(_, before, _) => [PreviewCall(before.profileId)]
    case _ => [OtherCall]
  }

  // The first stretch of the operation's own code: what it waits for, what it patched, what it called.
  function Opening(core: Core, action: Action): (Workspace, Stage, seq<Call>)
    requires Offered(core.ws, action)
  {
    var ws := core.ws;
    match action
    case Prepare | ConfirmManual | VerifyConfigurationBoot | CollectBar =>
      (ws, Advances(ws, Plain), CallsOf(Advances(ws, Plain)))
    case VerifyDriver => (ws, Advances(ws, Recommends), CallsOf(Advances(ws, Recommends)))
    case RunAutoCheck =>
      var step := ws.plan.value.active.value;
      (ws.(autoCheck := Some(AutoCheck(step, false))), Advancing(ws.plan.value, Checks(step)), [OtherCall])
    case SaveGuarded | SaveRecommended =>
      (ws, Advancing(ws.plan.value, Saves),
       [SaveCall(ws.plan.value.profileId, ws.recommendation.value.draft, ws.plan.value.revision, core.confirmedAt,
                 core.reviewed, core.takenThen, core.taken)])
    case CreateProfile(_) => (ws, Creating, [OtherCall])
    case PreviewReboot =>
      if ws.plan.None? then (ws, Settling(true), []) else (ws, PreviewingReboot(ws.plan.value), [OtherCall])
    case RequestReboot =>
      var closed := ws.(dialogs := ws.dialogs - {RebootDialog});
      if BindingFits(core) then
        (closed, Acknowledging, [RestartCall(ws.plan.value.profileId, ws.plan.value.revision, ws.plan.value.active.value, ws.rebootToken.value)])
      else (closed, Settling(true), [])
    case RecordHandoff(includeSetup, reviewed) =>
      if ws.plan.None? || ws.plan.value.revision != reviewed then (ws, Settling(true), [])
      else
        var stage := NextTarget(ws, if includeSetup then [FlashWithVendorRoute, ConfigureFirmwareSetup] else [FlashWithVendorRoute], 0);
        (ws, stage, CallsOf(stage))
    case RunOther(_, form, calls, guarded, _) => (ws.(form := form), Other(calls, guarded), [OtherCall])
  }

  function Starting(core: Core, action: Action): Effect {
    var ready := BeforeRun(core, action);
    if !Offered(ready.ws, action) || ready.inflight.Some? then Silent(ready)
    else
      var busy := WithWs(ready, ready.ws.(busyAction := ActionName(action), activity := NoActivity));
      var (ws, stage, calls) := Opening(busy, action);
      Effect(busy.(ws := ws, inflight := Some(busy.nextId), nextId := busy.nextId + 1), None, Some(Op(busy.generation, stage)), calls)
  }

  function Dispatched(core: Core, intent: Intent): Effect {
    if core.disposed then Silent(core)
    else
      match intent
      case SelectProfile(profileId) => Selecting(core, profileId)
      case SetConfirmed(value) =>
        Silent(if value then Confirming(core) else WithWs(core, core.ws.(confirmed := false)))
      case EditForm(form) => Silent(WithWs(core, core.ws.(form := form)))
      case CloseModals => Silent(WithWs(core, core.ws.(dialogs := {})))
      case RetryRecommendation =>
        var (after, cont) := RecommendationStart(core);
        Effect(after, None, cont, if cont.Some? then [OtherCall] else [])
      case Start(action) => Starting(core, action)
  }

  // ---------------------------------------------------------------- an operation goes on

  // Patches through a transaction are dropped unless the operation is current.
  function Patched(core: Core, gen: nat, ws: Workspace): Core {
    if Current(core, gen) then WithWs(core, ws) else core
  }

  function Then(core: Core, gen: nat, stage: Stage, calls: seq<Call>): Effect {
    Effect(core, Some(Op(gen, stage)), None, calls)
  }

  function ReceiptPatch(ws: Workspace, before: ClientPlan, advance: Advance, reply: Reply): Workspace
    requires reply.Receipt?
  {
    var next := ws.(plan := Some(ClientPlan(before.profileId, reply.revision, reply.active)), projection := reply.projection);
    match advance
    case Plain | Recommends => next.(activity := Success)
    case Saves => next.(confirmed := false, activity := Success)
    case Checks(_) => next.(autoCheck := None)
  }

  predicate LoadsRecommendation(advance: Advance) {
    advance.Recommends? || (advance.Checks? && (advance.step == RebootAfterFirmware || advance.step == VerifyDriverLoaded))
  }

  function ReceiptArrived(core: Core, gen: nat, before: ClientPlan, advance: Advance, reply: Reply): Effect {
    match reply
    case Receipt(_, _, _) =>
      var after := Patched(core, gen, ReceiptPatch(core.ws, before, advance, reply));
      if LoadsRecommendation(advance) && Current(core, gen) then
        var (loading, cont) := RecommendationStart(after);
        Effect(loading, Some(Op(gen, AwaitingRecommendation)), cont, if cont.Some? then [OtherCall] else [])
      else Then(after, gen, Settling(false), [])
    case _ =>
      if advance.Checks? then
        Then(Patched(core, gen, core.ws.(autoCheck := Some(AutoCheck(advance.step, true)))), gen, Settling(false), [])
      else Then(core, gen, Settling(true), [])
  }

  function CreatedProfile(core: Core, gen: nat, reply: Reply): Effect {
    match reply
    case Created(profileId, revision, active, projection) =>
      var ws := core.ws.(selected := profileId, plan := Some(ClientPlan(profileId, revision, active)), creations := core.ws.creations + 1,
                         projection := projection, activity := Success);
      Then(Patched(core, gen, ws), gen, Settling(false), [])
    case _ => Then(core, gen, Settling(true), [])
  }

  function RebootPreviewed(core: Core, gen: nat, shown: ClientPlan, reply: Reply): Effect {
    match reply
    case RebootDetails(fits, token, projection) =>
      if !fits || shown.active.None? then Then(core, gen, Settling(true), [])
      else if !Current(core, gen) then Then(core, gen, Settling(false), [])
      else
        var ws := core.ws.(rebootToken := Some(token), dialogs := core.ws.dialogs + {RebootDialog}, projection := projection, activity := Success);
        Then(core.(ws := ws, binding := Some(RebootBinding(shown.profileId, shown.revision, shown.active.value, token))), gen, Settling(false), [])
    case _ => Then(core, gen, Settling(true), [])
  }

  function Acknowledged(core: Core, gen: nat, reply: Reply): Effect {
    if reply.Rejected? then Then(core, gen, Settling(true), [])
    else Then(Patched(core, gen, core.ws.(activity := Success)), gen, Settling(false), [])
  }

  // Operations that only touch the fields not looked into: each reply patches them, and the last one
  // may still end in an error, or change nothing at all.
  function OtherAnswered(core: Core, gen: nat, left: nat, guarded: bool, reply: Reply): Effect {
    match reply
    case Payload(form, projection, opens, throws) =>
      var ws := core.ws.(form := form, projection := projection, dialogs := core.ws.dialogs + opens);
      if left > 1 then
        if guarded && !Current(core, gen) then Then(core, gen, Settling(false), [])
        else Then(Patched(core, gen, ws), gen, Other(left - 1, guarded), [OtherCall])
      else if throws then Then(Patched(core, gen, ws), gen, Settling(true), [])
      else Then(Patched(core, gen, ws.(activity := Success)), gen, Settling(false), [])
    case Nothing => Then(core, gen, Settling(false), [])
    case _ => Then(core, gen, Settling(true), [])
  }

  function HandoffPreviewed(core: Core, gen: nat, targets: seq<StepId>, before: ClientPlan, recorded: nat, reply: Reply): Effect {
    match reply
    case PreviewIs(fits) =>
      if !fits then Then(core, gen, Settling(true), [])
      else if !Current(core, gen) then Then(core, gen, Settling(false), [])
      else Then(core, gen, HandoffConfirm(targets, before, recorded), [ConfirmCall(before.profileId)])
    case _ => Then(core, gen, Settling(true), [])
  }

  function HandoffConfirmed(core: Core, gen: nat, targets: seq<StepId>, before: ClientPlan, recorded: nat, reply: Reply): Effect {
    match reply
    case Receipt(revision, active, _) =>
      if !Current(core, gen) then Then(core, gen, Settling(false), [])
      else
        var ws := core.ws.(plan := Some(ClientPlan(before.profileId, revision, active)));
        var stage := NextTarget(ws, if targets == [] then [] else targets[1..], recorded + 1);
        Then(WithWs(core, if stage == Settling(false) then ws.(activity := Success) else ws), gen, stage, CallsOf(stage))
    case _ => Then(core, gen, Settling(true), [])
  }

  // The operation's `catch`, and then its `finally`.
  function Settled(core: Core, gen: nat, failed: bool): Effect {
    Then(if failed then Patched(core, gen, core.ws.(activity := Error)) else core, gen, Finishing, [])
  }

  function Finished(core: Core, id: nat): Effect {
    Silent(if core.inflight == Some(id) then core.(inflight := None, ws := core.ws.(busyAction := "")) else core)
  }

  function OpResumed(core: Core, id: nat, gen: nat, stage: Stage, reply: Reply): Effect {
    match stage
    case Advancing(before, advance) => ReceiptArrived(core, gen, before, advance, reply)
    case Creating => CreatedProfile(core, gen, reply)
    case PreviewingReboot(shown) => RebootPreviewed(core, gen, shown, reply)
    case Acknowledging => Acknowledged(core, gen, reply)
    case Other(left, guarded) => OtherAnswered(core, gen, left, guarded, reply)
    case HandoffPreview(targets, before, recorded) => HandoffPreviewed(core, gen, targets, before, recorded, reply)
    case HandoffConfirm(targets, before, recorded) => HandoffConfirmed(core, gen, targets, before, recorded, reply)
    case AwaitingRecommendation => Then(core, gen, Settling(false), [])
    case Settling(failed) => Settled(core, gen, failed)
    case Finishing => Finished(core, id)
  }

  function Resumed(core: Core, id: nat, cont: Cont, reply: Reply): Effect {
    match cont
    case Listing(gen) => Listed(core, gen, reply)
    case LoadingPlan(gen, profileId) => PlanArrived(core, gen, profileId, reply)
    case PlanLoaded(gen) =>
      Silent(if gen == core.generation then WithWs(core, core.ws.(profilesLoaded := true)) else core)
    case Recommending(_, _, _, _) => DraftArrived(core, cont, reply)
    case Op(gen, stage) => OpResumed(core, id, gen, stage, reply)
  }

  // ---------------------------------------------------------------- the machine

  function Kept(pending: map<nat, Cont>, id: nat, cont: Option<Cont>): map<nat, Cont> {
    if cont.Some? then pending[id := cont.value] else pending - {id}
  }

  function Spawned(pending: map<nat, Cont>, id: nat, cont: Option<Cont>): map<nat, Cont> {
    if cont.Some? then pending[id := cont.value] else pending
  }

  function Applied(m: Machine, id: nat, effect: Effect): Machine {
    Machine(effect.core, Spawned(Kept(m.pending, id, effect.next), m.core.nextId, effect.spawned), m.calls + effect.calls)
  }

  function Next(m: Machine, event: Event): Machine {
    match event
    case Dispatch(intent) =>
      var effect := Dispatched(m.core, intent);
      Machine(effect.core, Spawned(m.pending, m.core.nextId, effect.spawned), m.calls + effect.calls)
    case Resume(id, reply) =>
      if id !in m.pending then m
      else Applied(m, id, Resumed(m.core, id, m.pending[id], reply))
    case Dispose => m.(core := m.core.(disposed := true, generation := m.core.generation + 1))
  }

  function After(m: Machine, events: seq<Event>): Machine
    decreases |events|
  {
    if events == [] then m else After(Next(m, events[0]), events[1..])
  }

  // A new session: its first listing is already under way.
  function Opened(preferred: Option<string>, form: nat): Machine {
    var ws := Workspace("", None, false, 0, None, Idle, false, None, {}, None, "", NoActivity, form, 0);
    Machine(Core(false, 1, None, ws, None, preferred, 1, 0, 0, map[], None, 0, 0), map[0 := Listing(1)], [OtherCall])
  }
}
