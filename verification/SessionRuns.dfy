// Whole runs of the session: whose plan is shown, and which draft a save carries.
module SessionRuns {
  import opened Prelude
  import opened DeploymentPlan
  import opened SessionModel
  import opened SessionSlot

  // ---------------------------------------------------------------- the plan belongs to the selection

  predicate PlanOk(ws: Workspace) {
    ws.plan.Some? ==> ws.plan.value.profileId == ws.selected
  }

  // The plan an operation was started on, if it will write one back.
  function Before(cont: Cont): Option<ClientPlan> {
    match cont
    case Op(_, Advancing(before, _)) => Some(before)
    case Op(_, HandoffPreview(_, before, _)) => Some(before)
    case Op(_, HandoffConfirm(_, before, _)) => Some(before)
    case _ => None
  }

  predicate BeforeOk(cont: Cont, selected: string) {
    Before(cont).Some? ==> Before(cont).value.profileId == selected
  }

  predicate Creates(cont: Cont) { cont.Op? && cont.stage.Creating? }

  ghost predicate ListingPending(m: Machine) {
    exists id: nat :: ListingAt(m, id)
  }

  predicate ListingAt(m: Machine, id: nat) { CurrentAt(m, id).Some? && CurrentAt(m, id).value.Listing? }

  // The shown plan and every plan about to be written back belong to the selected profile; with no
  // plan shown none is about to be written back; while the first listing is still out none is loading.
  ghost predicate Belongs(m: Machine) {
    && PlanOk(m.core.ws)
    && (forall id: nat :: CurrentAt(m, id).Some? ==> BeforeOk(CurrentAt(m, id).value, m.core.ws.selected))
    && (forall id: nat, other: nat :: ListingAt(m, id) && ListingAt(m, other) ==> id == other)
    && (m.core.ws.plan.None? ==> forall id: nat :: CurrentAt(m, id).Some? ==> Before(CurrentAt(m, id).value).None?)
    && (ListingPending(m) ==> forall id: nat :: CurrentAt(m, id).Some? ==> !CurrentAt(m, id).value.LoadingPlan?)
  }

  // The record a listing selects.
  function PickedId(ids: seq<string>, preferred: Option<string>): string {
    if Pick(ids, preferred).None? then "" else Pick(ids, preferred).value
  }

  // A current listing that arrives while a plan is shown and picks another record.
  predicate ListsBeside(m: Machine, event: Event) {
    && event.Resume? && event.reply.Profiles? && ListingAt(m, event.id) && m.core.ws.plan.Some?
    && !PicksItsOwn(m.core, event.reply.ids)
  }

  // The record picked is the one whose plan is shown.
  predicate PicksItsOwn(core: Core, ids: seq<string>)
    requires core.ws.plan.Some?
  {
    PickedId(ids, core.preferred) == core.ws.plan.value.profileId && Pick(ids, core.preferred) != Some("")
  }

  // A profile creation that finishes while the first listing is still out.
  ghost predicate CreatedTooEarly(m: Machine, event: Event) {
    && event.Resume? && event.reply.Created? && CurrentAt(m, event.id).Some? && Creates(CurrentAt(m, event.id).value)
    && ListingPending(m)
  }

  // What resuming current work does to plan and selection.
  predicate PlanEffect(core: Core, cont: Cont, effect: Effect) {
    var ws, after := core.ws, effect.core.ws;
    && PlanOk(after)
    && (after.selected != ws.selected ==> Creates(cont) || (cont.Listing? && ws.plan.None?))
    && (after.plan != ws.plan ==> cont.LoadingPlan? || Before(cont).Some? || Creates(cont))
    && (ws.plan.Some? ==> after.plan.Some?)
    && (effect.next.Some? ==> BeforeOk(effect.next.value, after.selected) && !effect.next.value.Listing?)
    && (effect.next.Some? && Before(effect.next.value).Some? ==> Before(cont).Some?)
    && (effect.next.Some? && effect.next.value.LoadingPlan? ==> cont.Listing?)
  }

  lemma NextTargetBelongs(ws: Workspace, targets: seq<StepId>, recorded: nat, gen: nat)
    requires PlanOk(ws)
    ensures BeforeOk(Op(gen, NextTarget(ws, targets, recorded)), ws.selected)
    ensures ws.plan.None? ==> Before(Op(gen, NextTarget(ws, targets, recorded))).None?
    decreases |targets|
  {
    if targets != [] && ws.plan.Some? && ws.plan.value.active != Some(targets[0]) {
      NextTargetBelongs(ws, targets[1..], recorded, gen);
    }
  }

  lemma ReceiptPlanEffect(core: Core, gen: nat, before: ClientPlan, advance: Advance, reply: Reply)
    requires PlanOk(core.ws) && before.profileId == core.ws.selected
    ensures PlanEffect(core, Op(gen, Advancing(before, advance)), ReceiptArrived(core, gen, before, advance, reply))
  {
  }

  lemma HandoffPlanEffect(core: Core, gen: nat, targets: seq<StepId>, before: ClientPlan, recorded: nat, reply: Reply)
    requires PlanOk(core.ws) && before.profileId == core.ws.selected
    ensures PlanEffect(core, Op(gen, HandoffConfirm(targets, before, recorded)), HandoffConfirmed(core, gen, targets, before, recorded, reply))
  {
    if reply.Receipt? {
      var ws := core.ws.(plan := Some(ClientPlan(before.profileId, reply.revision, reply.active)));
      NextTargetBelongs(ws, if targets == [] then [] else targets[1..], recorded + 1, gen);
    }
  }

  lemma CreatedPlanEffect(core: Core, gen: nat, reply: Reply)
    requires PlanOk(core.ws)
    ensures PlanEffect(core, Op(gen, Creating), CreatedProfile(core, gen, reply))
  {
  }

  lemma PreviewPlanEffect(core: Core, gen: nat, shown: ClientPlan, reply: Reply)
    requires PlanOk(core.ws)
    ensures PlanEffect(core, Op(gen, PreviewingReboot(shown)), RebootPreviewed(core, gen, shown, reply))
  {
  }

  lemma OtherPlanEffect(core: Core, gen: nat, left: nat, guarded: bool, reply: Reply)
    requires PlanOk(core.ws)
    ensures PlanEffect(core, Op(gen, Other(left, guarded)), OtherAnswered(core, gen, left, guarded, reply))
  {
  }

  lemma OpPlanEffect(core: Core, id: nat, gen: nat, stage: Stage, reply: Reply)
    requires PlanOk(core.ws) && BeforeOk(Op(gen, stage), core.ws.selected)
    ensures PlanEffect(core, Op(gen, stage), OpResumed(core, id, gen, stage, reply))
  {
    match stage
    case Advancing(before, advance) => ReceiptPlanEffect(core, gen, before, advance, reply);
    case HandoffConfirm(targets, before, recorded) => HandoffPlanEffect(core, gen, targets, before, recorded, reply);
    case Creating => CreatedPlanEffect(core, gen, reply);
    case PreviewingReboot(shown) => PreviewPlanEffect(core, gen, shown, reply);
    case Other(left, guarded) => OtherPlanEffect(core, gen, left, guarded, reply);
    case _ =>
  }

  lemma ListedPlanEffect(core: Core, gen: nat, reply: Reply)
    requires PlanOk(core.ws) && (core.ws.plan.Some? && reply.Profiles? ==> PicksItsOwn(core, reply.ids))
    ensures PlanEffect(core, Listing(gen), Listed(core, gen, reply))
  {
  }

  lemma ArrivedPlanEffect(core: Core, gen: nat, profileId: string, reply: Reply)
    requires PlanOk(core.ws)
    ensures PlanEffect(core, LoadingPlan(gen, profileId), PlanArrived(core, gen, profileId, reply))
  {
  }

  lemma ResumedPlanEffect(core: Core, id: nat, cont: Cont, reply: Reply)
    requires PlanOk(core.ws) && BeforeOk(cont, core.ws.selected)
    requires cont.Listing? && core.ws.plan.Some? && reply.Profiles? ==> PicksItsOwn(core, reply.ids)
    ensures PlanEffect(core, cont, Resumed(core, id, cont, reply))
  {
    match cont
    case Op(gen, stage) => OpPlanEffect(core, id, gen, stage, reply);
    case Listing(gen) => ListedPlanEffect(core, gen, reply);
    case LoadingPlan(gen, profileId) => ArrivedPlanEffect(core, gen, profileId, reply);
    case _ =>
  }

  // What a machine's activities become when one of them, the current one at `id`, was resumed.
  lemma AppliedAt(m: Machine, id: nat, effect: Effect, other: nat)
    requires Orderly(m) && id in m.pending
    requires effect.core.disposed == m.core.disposed && effect.core.generation == m.core.generation
    ensures CurrentAt(Applied(m, id, effect), other) ==
              if effect.spawned.Some? && other == m.core.nextId then
                (if IsCurrent(effect.core, effect.spawned.value) then effect.spawned else None)
              else if other == id then
                (if effect.next.Some? && IsCurrent(effect.core, effect.next.value) then effect.next else None)
              else CurrentAt(m, other)
  {
  }

  lemma AppliedBelongs(m: Machine, id: nat, effect: Effect)
    requires Orderly(m) && OneSlot(m) && Belongs(m) && CurrentAt(m, id).Some?
    requires PlanEffect(m.core, m.pending[id], effect)
    requires effect.core.disposed == m.core.disposed && effect.core.generation == m.core.generation
    requires effect.spawned.Some? ==> effect.spawned.value.Recommending?
    ensures Belongs(Applied(m, id, effect))
  {
    var cont := m.pending[id];
    var after := Applied(m, id, effect);
    assert CurrentAt(m, id).value == cont && (cont.Listing? ==> ListingAt(m, id)) && (cont.Op? ==> IsCurrentOp(m, id));
    forall other: nat | CurrentAt(after, other).Some?
      ensures BeforeOk(CurrentAt(after, other).value, after.core.ws.selected)
      ensures after.core.ws.plan.None? ==> Before(CurrentAt(after, other).value).None?
    {
      AppliedAt(m, id, effect, other);
      if other != id && CurrentAt(after, other) == CurrentAt(m, other) && Before(CurrentAt(m, other).value).Some? {
        assert IsCurrentOp(m, other);
      }
    }
    forall other: nat | ListingAt(after, other)
      ensures ListingAt(m, other) && other != id
    {
      AppliedAt(m, id, effect, other);
    }
    if ListingPending(after) {
      var listing: nat :| ListingAt(after, listing);
      assert ListingAt(m, listing) && listing != id;
      forall other: nat | CurrentAt(after, other).Some?
        ensures !CurrentAt(after, other).value.LoadingPlan?
      {
        AppliedAt(m, id, effect, other);
      }
    }
  }

  // ---------------------------------------------------------------- every event

  lemma LateBelongs(m: Machine, event: Event)
    requires Orderly(m) && OneSlot(m) && Belongs(m) && IsLate(m, event)
    ensures Belongs(Next(m, event))
  {
    LateChangesNothing(m, event);
    AlikeBelongs(m, Next(m, event));
  }

  lemma AlikeBelongs(m: Machine, n: Machine)
    requires Belongs(m) && Alike(n, m)
    ensures Belongs(n)
  {
    assert PlanOk(n.core.ws) && n.core.ws.selected == m.core.ws.selected && n.core.ws.plan == m.core.ws.plan by {
      if m.core.disposed {
        assert Unslotted(n.core).ws.plan == Unslotted(m.core).ws.plan && Unslotted(n.core).ws.selected == Unslotted(m.core).ws.selected;
      }
    }
    forall id: nat
      ensures CurrentAt(n, id) == CurrentAt(m, id) && ListingAt(n, id) == ListingAt(m, id)
    {
    }
    if ListingPending(n) {
      var id: nat :| ListingAt(n, id);
      assert ListingAt(m, id);
    }
  }

  lemma ResumeBelongs(m: Machine, id: nat, reply: Reply)
    requires Orderly(m) && OneSlot(m) && Belongs(m) && CurrentAt(m, id).Some?
    requires !ListsBeside(m, Resume(id, reply))
    ensures Belongs(Next(m, Resume(id, reply)))
  {
    var cont := m.pending[id];
    assert CurrentAt(m, id).value == cont && BeforeOk(cont, m.core.ws.selected);
    if cont.Listing? {
      assert ListingAt(m, id);
    }
    ResumedPlanEffect(m.core, id, cont, reply);
    if !(cont.Op? && cont.stage.Finishing?) {
      ResumedGoesOn(m.core, id, cont, reply);
    }
    AppliedBelongs(m, id, Resumed(m.core, id, cont, reply));
  }

  // What an intent does to plan and selection.
  predicate IntentPlanEffect(core: Core, effect: Effect) {
    var ws, after := core.ws, effect.core.ws;
    && PlanOk(after)
    && (effect.core.generation == core.generation ==>
          && after.selected == ws.selected && after.plan == ws.plan
          && (effect.spawned.Some? ==> !effect.spawned.value.LoadingPlan?))
    && (effect.spawned.Some? ==>
          && !effect.spawned.value.Listing? && BeforeOk(effect.spawned.value, after.selected)
          && (after.plan.None? ==> Before(effect.spawned.value).None?))
  }

  lemma OpeningPlan(core: Core, action: Action)
    requires Offered(core.ws, action) && PlanOk(core.ws)
    ensures var (ws, stage, _) := Opening(core, action);
            && ws.plan == core.ws.plan && ws.selected == core.ws.selected
            && BeforeOk(Op(core.generation, stage), ws.selected)
            && (ws.plan.None? ==> Before(Op(core.generation, stage)).None?)
  {
    if action.RecordHandoff? {
      NextTargetBelongs(core.ws, if action.includeSetup then [FlashWithVendorRoute, ConfigureFirmwareSetup] else [FlashWithVendorRoute], 0, core.generation);
    }
  }

  lemma StartingPlan(core: Core, action: Action)
    requires PlanOk(core.ws)
    ensures IntentPlanEffect(core, Starting(core, action)) && Starting(core, action).core.generation == core.generation
  {
    var ready := BeforeRun(core, action);
    if Offered(ready.ws, action) && ready.inflight.None? {
      OpeningPlan(WithWs(ready, ready.ws.(busyAction := ActionName(action), activity := NoActivity)), action);
    }
  }

  lemma IntentPlan(core: Core, intent: Intent)
    requires PlanOk(core.ws)
    ensures IntentPlanEffect(core, Dispatched(core, intent))
  {
    if intent.Start? {
      StartingPlan(core, intent.action);
    }
  }

  lemma SpawnedAt(m: Machine, effect: Effect, id: nat)
    requires Orderly(m) && effect.core.disposed == m.core.disposed && effect.core.generation >= m.core.generation
    ensures var after := Machine(effect.core, Spawned(m.pending, m.core.nextId, effect.spawned), m.calls + effect.calls);
            CurrentAt(after, id) ==
              if effect.spawned.Some? && id == m.core.nextId then
                (if IsCurrent(effect.core, effect.spawned.value) then effect.spawned else None)
              else if effect.core.generation == m.core.generation then CurrentAt(m, id) else None
  {
  }

  lemma DispatchBelongs(m: Machine, intent: Intent)
    requires Orderly(m) && Belongs(m)
    ensures Belongs(Next(m, Dispatch(intent)))
    ensures ListingPending(Next(m, Dispatch(intent))) ==> ListingPending(m) && Next(m, Dispatch(intent)).core.ws.plan == m.core.ws.plan
  {
    IntentPlan(m.core, intent);
    IntentDispatches(m.core, intent);
    var effect := Dispatched(m.core, intent);
    var after := Next(m, Dispatch(intent));
    forall id: nat
      ensures CurrentAt(after, id).Some? ==> BeforeOk(CurrentAt(after, id).value, after.core.ws.selected)
      ensures CurrentAt(after, id).Some? && after.core.ws.plan.None? ==> Before(CurrentAt(after, id).value).None?
      ensures ListingAt(after, id) ==> ListingAt(m, id) && effect.core.generation == m.core.generation
    {
      SpawnedAt(m, effect, id);
    }
    if ListingPending(after) {
      var listing: nat :| ListingAt(after, listing);
      assert ListingAt(m, listing);
      forall id: nat | CurrentAt(after, id).Some?
        ensures !CurrentAt(after, id).value.LoadingPlan?
      {
        SpawnedAt(m, effect, id);
      }
    }
  }

  lemma DisposeBelongs(m: Machine)
    requires Orderly(m) && Belongs(m)
    ensures Belongs(Next(m, Dispose))
  {
    forall id: nat
      ensures CurrentAt(Next(m, Dispose), id).None?
    {
    }
  }

  lemma EventBelongs(m: Machine, event: Event)
    requires Orderly(m) && OneSlot(m) && Belongs(m) && !ListsBeside(m, event)
    ensures Belongs(Next(m, event))
  {
    match event
    case Dispatch(intent) => DispatchBelongs(m, intent);
    case Resume(id, reply) =>
      if IsLate(m, event) {
        LateBelongs(m, event);
      } else if id in m.pending {
        ResumeBelongs(m, id, reply);
      }
    case Dispose => DisposeBelongs(m);
  }

  // ---------------------------------------------------------------- exactly when

  // Plan and selection agree at every moment of the run.
  predicate AlwaysOk(m: Machine, events: seq<Event>)
    decreases |events|
  {
    PlanOk(m.core.ws) && (events == [] || AlwaysOk(Next(m, events[0]), events[1..]))
  }

  predicate NoneBeside(m: Machine, events: seq<Event>)
    decreases |events|
  {
    events == [] || (!ListsBeside(m, events[0]) && NoneBeside(Next(m, events[0]), events[1..]))
  }

  // Listings name their records: no id is the empty text, which stands for no selection.
  predicate NamesRecords(event: Event) {
    event.Resume? && event.reply.Profiles? ==> "" !in event.reply.ids
  }

  lemma BesideShows(m: Machine, event: Event)
    requires Belongs(m) && ListsBeside(m, event) && NamesRecords(event)
    ensures !PlanOk(Next(m, event).core.ws)
  {
    var ids := event.reply.ids;
    assert CurrentAt(m, event.id).value == m.pending[event.id];
    ListingBesideAPlan(m.core, m.pending[event.id].gen, ids);
  }

  lemma {:induction false} BelongsOverRun(m: Machine, events: seq<Event>)
    requires Orderly(m) && OneSlot(m) && Belongs(m)
    ensures NoneBeside(m, events) ==> AlwaysOk(m, events) && Belongs(After(m, events))
    ensures AlwaysOk(m, events) && (forall e :: e in events ==> NamesRecords(e)) ==> NoneBeside(m, events)
    decreases |events|
  {
    if events != [] {
      if ListsBeside(m, events[0]) {
        if NamesRecords(events[0]) {
          BesideShows(m, events[0]);
          assert !AlwaysOk(Next(m, events[0]), events[1..]);
        }
        assert events[0] in events;
      } else {
        EventBelongs(m, events[0]);
        EventKeepsSlot(m, events[0]);
        BelongsOverRun(Next(m, events[0]), events[1..]);
      }
    }
  }

  lemma OpenedBelongs(preferred: Option<string>, form: nat)
    ensures Belongs(Opened(preferred, form)) && Orderly(Opened(preferred, form)) && OneSlot(Opened(preferred, form))
  {
    assert forall id: nat :: CurrentAt(Opened(preferred, form), id) == if id == 0 then Some(Listing(1)) else None;
  }

  // In a run of a new session plan and selection agree at every moment exactly when no current listing
  // arrives while a plan is shown and picks another record.
  lemma PlanBelongsExactly(preferred: Option<string>, form: nat, events: seq<Event>)
    requires forall e :: e in events ==> NamesRecords(e)
    ensures AlwaysOk(Opened(preferred, form), events) <==> NoneBeside(Opened(preferred, form), events)
  {
    OpenedBelongs(preferred, form);
    BelongsOverRun(Opened(preferred, form), events);
  }

  // ---------------------------------------------------------------- early creations

  ghost predicate NoneTooEarly(m: Machine, events: seq<Event>)
    decreases |events|
  {
    events == [] || (!CreatedTooEarly(m, events[0]) && NoneTooEarly(Next(m, events[0]), events[1..]))
  }

  // While the first listing is out no plan is shown.
  ghost predicate Quiet(m: Machine) { ListingPending(m) ==> m.core.ws.plan.None? }

  lemma ResumeStaysQuiet(m: Machine, id: nat, reply: Reply)
    requires Orderly(m) && OneSlot(m) && Belongs(m) && Quiet(m) && CurrentAt(m, id).Some? && !CreatedTooEarly(m, Resume(id, reply))
    ensures Quiet(Next(m, Resume(id, reply)))
  {
    var cont := m.pending[id];
    var after := Next(m, Resume(id, reply));
    assert CurrentAt(m, id).value == cont && BeforeOk(cont, m.core.ws.selected) && (cont.Listing? ==> ListingAt(m, id));
    if ListingPending(after) {
      var listing: nat :| ListingAt(after, listing);
      if !(cont.Op? && cont.stage.Finishing?) {
        ResumedGoesOn(m.core, id, cont, reply);
      }
      ResumedPlanEffect(m.core, id, cont, reply);
      AppliedAt(m, id, Resumed(m.core, id, cont, reply), listing);
      assert ListingAt(m, listing);
    }
  }

  lemma EventStaysQuiet(m: Machine, event: Event)
    requires Orderly(m) && OneSlot(m) && Belongs(m) && Quiet(m) && !CreatedTooEarly(m, event)
    ensures !ListsBeside(m, event) && Quiet(Next(m, event))
  {
    match event
    case Dispatch(intent) => DispatchBelongs(m, intent);
    case Resume(id, reply) =>
      if IsLate(m, event) {
        LateChangesNothing(m, event);
        LateStaysQuiet(m, Next(m, event));
      } else if id in m.pending {
        ResumeStaysQuiet(m, id, reply);
      }
    case Dispose =>
      forall id: nat
        ensures CurrentAt(Next(m, Dispose), id).None?
      {
      }
  }

  lemma LateStaysQuiet(m: Machine, n: Machine)
    requires Quiet(m) && Alike(n, m)
    ensures Quiet(n)
  {
    if ListingPending(n) {
      var id: nat :| ListingAt(n, id);
      assert CurrentAt(n, id) == CurrentAt(m, id) && ListingAt(m, id);
      if m.core.disposed {
        assert Unslotted(n.core).ws.plan == Unslotted(m.core).ws.plan;
      }
    }
  }

  lemma {:induction false} QuietOverRun(m: Machine, events: seq<Event>)
    requires Orderly(m) && OneSlot(m) && Belongs(m) && Quiet(m) && NoneTooEarly(m, events)
    ensures NoneBeside(m, events)
    decreases |events|
  {
    if events != [] {
      EventStaysQuiet(m, events[0]);
      EventBelongs(m, events[0]);
      EventKeepsSlot(m, events[0]);
      QuietOverRun(Next(m, events[0]), events[1..]);
    }
  }

  // In every run of a new session where no profile creation finishes before the first listing does,
  // whatever the listings name, plan and selection agree at every moment.
  lemma PlanBelongsToSelection(preferred: Option<string>, form: nat, events: seq<Event>)
    requires NoneTooEarly(Opened(preferred, form), events)
    ensures AlwaysOk(Opened(preferred, form), events)
  {
    OpenedBelongs(preferred, form);
    QuietOverRun(Opened(preferred, form), events);
    BelongsOverRun(Opened(preferred, form), events);
  }

  // A listing that finds a plan already shown leaves it beside the record it picks; the two agree
  // exactly when it picks that plan's own profile.
  lemma ListingBesideAPlan(core: Core, gen: nat, ids: seq<string>)
    requires Current(core, gen) && core.ws.plan.Some? && Pick(ids, core.preferred) != Some("")
    ensures var after := Listed(core, gen, Profiles(ids)).core.ws;
            && after.plan == core.ws.plan
            && (PlanOk(after) <==> PickedId(ids, core.preferred) == core.ws.plan.value.profileId)
  {
  }

  // The condition is needed: a creation that finishes first and a listing that then picks another
  // record leave the created plan beside the wrong selection.
  lemma EarlyCreationMixesProfiles()
    ensures exists events :: !PlanOk(After(Opened(None, 0), events).core.ws)
  {
    var events := [Dispatch(Start(CreateProfile(true))), Resume(1, Created("new", 3, Some(PrepareRustDriver), 0)), Resume(0, Profiles(["old"]))];
    AfterThree(Opened(None, 0), events);
    var m1 := CreationUnderWay();
    var m2 := CreationFinished(m1);
    ListingBesideAPlan(m2.core, 1, ["old"]);
    assert !PlanOk(Next(m2, events[2]).core.ws);
  }

  lemma AfterThree(m: Machine, events: seq<Event>)
    requires |events| == 3
    ensures After(m, events) == Next(Next(Next(m, events[0]), events[1]), events[2])
  {
    var one := Next(m, events[0]);
    var two := Next(one, events[1]);
    assert After(m, events) == After(one, events[1..]);
    assert After(one, events[1..]) == After(two, events[1..][1..]);
    assert After(two, events[1..][1..]) == After(Next(two, events[2]), events[1..][1..][1..]);
    assert events[1..][1..][1..] == [];
  }

  lemma CreationUnderWay() returns (m: Machine)
    ensures m == Next(Opened(None, 0), Dispatch(Start(CreateProfile(true))))
    ensures m.pending == map[0 := Listing(1), 1 := Op(1, Creating)]
    ensures Current(m.core, 1) && m.core.preferred == None && m.core.nextId == 2
  {
    m := Next(Opened(None, 0), Dispatch(Start(CreateProfile(true))));
  }

  lemma CreationFinished(m: Machine) returns (after: Machine)
    requires m.pending == map[0 := Listing(1), 1 := Op(1, Creating)] && Current(m.core, 1) && m.core.preferred == None
    ensures after == Next(m, Resume(1, Created("new", 3, Some(PrepareRustDriver), 0)))
    ensures 0 in after.pending && after.pending[0] == Listing(1) && Current(after.core, 1) && after.core.preferred == None
    ensures after.core.ws.plan == Some(ClientPlan("new", 3, Some(PrepareRustDriver)))
  {
    after := Next(m, Resume(1, Created("new", 3, Some(PrepareRustDriver), 0)));
  }
}
