// A firmware restart is requested only on a preview reviewed for the very plan, step and token on
// screen, and always then.
module SessionRestarts {
  import opened Prelude
  import opened DeploymentPlan
  import opened SessionModel
  import opened SessionSlot

  // What a run says about restart previews: those asked for and not answered yet, with the generation
  // and the plan they were asked in, and the latest fitting answer since the last selection.
  datatype Asked = Asked(gen: nat, plan: ClientPlan)
  datatype Review = Review(profileId: string, revision: nat, step: StepId, token: nat)
  datatype Memory = Memory(asked: map<nat, Asked>, latest: Option<Review>)

  predicate Asks(m: Machine, event: Event) {
    event == Dispatch(Start(PreviewReboot)) && !m.core.disposed && m.core.inflight.None? && m.core.ws.plan.Some?
  }

  predicate Selects(m: Machine, event: Event) { event.Dispatch? && event.intent.SelectProfile? && !m.core.disposed }

  function Reviewed(m: Machine, asked: Asked, reply: Reply): Option<Review> {
    if reply.RebootDetails? && reply.fits && Current(m.core, asked.gen) && asked.plan.active.Some?
    then Some(Review(asked.plan.profileId, asked.plan.revision, asked.plan.active.value, reply.token))
    else None
  }

  function Noted(m: Machine, event: Event, memory: Memory): Memory {
    if Asks(m, event) then memory.(asked := memory.asked[m.core.nextId := Asked(m.core.generation, m.core.ws.plan.value)])
    else if Selects(m, event) then memory.(latest := None)
    else if event.Resume? && event.id in memory.asked then
      var review := Reviewed(m, memory.asked[event.id], event.reply);
      Memory(memory.asked - {event.id}, if review.Some? then review else memory.latest)
    else memory
  }

  function Recalled(m: Machine, events: seq<Event>, memory: Memory): Memory
    decreases |events|
  {
    if events == [] then memory else Recalled(Next(m, events[0]), events[1..], Noted(m, events[0], memory))
  }

  // ---------------------------------------------------------------- what the session keeps of it

  predicate IsPreviewing(cont: Cont) { cont.Op? && cont.stage.PreviewingReboot? }

  predicate NoRestart(calls: seq<Call>) { forall i :: 0 <= i < |calls| ==> !calls[i].RestartCall? }

  // The binding is the latest review, under the token on screen, and the previews under way are those
  // asked for.
  ghost predicate Recalls(m: Machine, memory: Memory) {
    && Orderly(m)
    && m.core.binding == (if memory.latest.None? then None
                          else var r := memory.latest.value; Some(RebootBinding(r.profileId, r.revision, r.step, r.token)))
    && (memory.latest.Some? ==> m.core.ws.rebootToken == Some(memory.latest.value.token))
    && (forall id: nat :: id in memory.asked <==> id in m.pending && IsPreviewing(m.pending[id]))
    && (forall id: nat :: id in memory.asked ==> m.pending[id] == Op(memory.asked[id].gen, PreviewingReboot(memory.asked[id].plan)))
  }

  predicate LeavesBinding(core: Core, effect: Effect) {
    && effect.core.binding == core.binding && effect.core.ws.rebootToken == core.ws.rebootToken
    && (effect.next.Some? ==> !IsPreviewing(effect.next.value))
    && NoRestart(effect.calls)
  }

  predicate SpawnsNoPreview(effect: Effect) { effect.spawned.Some? ==> !IsPreviewing(effect.spawned.value) }

  lemma ReceiptLeavesBinding(core: Core, gen: nat, before: ClientPlan, advance: Advance, reply: Reply)
    ensures LeavesBinding(core, ReceiptArrived(core, gen, before, advance, reply)) && SpawnsNoPreview(ReceiptArrived(core, gen, before, advance, reply))
  {
  }

  lemma {:induction false} TargetsAreHandoffs(ws: Workspace, targets: seq<StepId>, recorded: nat)
    ensures NextTarget(ws, targets, recorded).Settling? || NextTarget(ws, targets, recorded).HandoffPreview?
  {
    if targets != [] {
      TargetsAreHandoffs(ws, targets[1..], recorded);
    }
  }

  lemma HandoffLeavesBinding(core: Core, gen: nat, targets: seq<StepId>, before: ClientPlan, recorded: nat, reply: Reply)
    ensures LeavesBinding(core, HandoffConfirmed(core, gen, targets, before, recorded, reply))
  {
    if reply.Receipt? {
      TargetsAreHandoffs(core.ws.(plan := Some(ClientPlan(before.profileId, reply.revision, reply.active))),
                         if targets == [] then [] else targets[1..], recorded + 1);
    }
  }

  lemma StageLeavesBinding(core: Core, id: nat, gen: nat, stage: Stage, reply: Reply)
    requires !stage.PreviewingReboot?
    ensures LeavesBinding(core, OpResumed(core, id, gen, stage, reply)) && SpawnsNoPreview(OpResumed(core, id, gen, stage, reply))
  {
    match stage
    case Advancing(before, advance) => ReceiptLeavesBinding(core, gen, before, advance, reply);
    case HandoffConfirm(targets, before, recorded) => HandoffLeavesBinding(core, gen, targets, before, recorded, reply);
    case _ =>
  }

  lemma ResumedLeavesBinding(core: Core, id: nat, cont: Cont, reply: Reply)
    requires !IsPreviewing(cont)
    ensures LeavesBinding(core, Resumed(core, id, cont, reply)) && SpawnsNoPreview(Resumed(core, id, cont, reply))
  {
    match cont
    case Op(gen, stage) => StageLeavesBinding(core, id, gen, stage, reply);
    case _ =>
  }

  lemma OpeningLeavesBinding(core: Core, action: Action)
    requires Offered(core.ws, action)
    ensures var (ws, stage, calls) := Opening(core, action);
            && ws.rebootToken == core.ws.rebootToken
            && (stage.PreviewingReboot? <==> action.PreviewReboot? && core.ws.plan.Some?)
            && (stage.PreviewingReboot? ==> stage.shown == core.ws.plan.value)
            && (!action.RequestReboot? ==> NoRestart(calls))
  {
    if action.RecordHandoff? {
      TargetsAreHandoffs(core.ws, if action.includeSetup then [FlashWithVendorRoute, ConfigureFirmwareSetup] else [FlashWithVendorRoute], 0);
    }
  }

  lemma IntentLeavesBinding(m: Machine, intent: Intent)
    requires !intent.SelectProfile? && intent != Start(RequestReboot)
    ensures var effect := Dispatched(m.core, intent);
            && LeavesBinding(m.core, effect)
            && (if Asks(m, Dispatch(intent)) then effect.spawned == Some(Op(m.core.generation, PreviewingReboot(m.core.ws.plan.value)))
                else SpawnsNoPreview(effect))
  {
    if intent.Start? && !m.core.disposed {
      var ready := BeforeRun(m.core, intent.action);
      if Offered(ready.ws, intent.action) && ready.inflight.None? {
        OpeningLeavesBinding(WithWs(ready, ready.ws.(busyAction := ActionName(intent.action), activity := NoActivity)), intent.action);
      }
    }
  }

  // The plan on screen is the one the review is of.
  predicate StillShown(ws: Workspace, review: Review) {
    ws.plan == Some(ClientPlan(review.profileId, review.revision, Some(review.step)))
  }

  function CallFor(review: Review): Call { RestartCall(review.profileId, review.revision, review.step, review.token) }

  predicate MayRestart(core: Core, memory: Memory) {
    !core.disposed && core.inflight.None? && memory.latest.Some? && StillShown(core.ws, memory.latest.value)
  }

  lemma RequestRestarts(m: Machine, memory: Memory)
    requires Recalls(m, memory)
    ensures var effect := Dispatched(m.core, Start(RequestReboot));
            && effect.core.binding == m.core.binding && effect.core.ws.rebootToken == m.core.ws.rebootToken && effect.next.None?
            && SpawnsNoPreview(effect)
            && effect.calls == if MayRestart(m.core, memory) then [CallFor(memory.latest.value)] else []
  {
  }

  // ---------------------------------------------------------------- over a run

  lemma OrderlyStays(m: Machine, event: Event)
    requires Orderly(m)
    ensures Orderly(Next(m, event))
  {
    match event
    case Dispatch(intent) => IntentDispatches(m.core, intent);
    case Resume(id, reply) =>
      if id in m.pending && !(m.pending[id].Op? && m.pending[id].stage.Finishing?) {
        ResumedGoesOn(m.core, id, m.pending[id], reply);
      }
    case Dispose =>
  }

  lemma IntentIsRecalled(m: Machine, intent: Intent, memory: Memory)
    requires Recalls(m, memory)
    ensures Recalls(Next(m, Dispatch(intent)), Noted(m, Dispatch(intent), memory))
  {
    OrderlyStays(m, Dispatch(intent));
    if intent == Start(RequestReboot) {
      RequestRestarts(m, memory);
    } else if !intent.SelectProfile? {
      IntentLeavesBinding(m, intent);
    }
  }

  lemma ReplyIsRecalled(m: Machine, id: nat, reply: Reply, memory: Memory)
    requires Recalls(m, memory)
    ensures Recalls(Next(m, Resume(id, reply)), Noted(m, Resume(id, reply), memory))
  {
    OrderlyStays(m, Resume(id, reply));
    if id in m.pending && !IsPreviewing(m.pending[id]) {
      ResumedLeavesBinding(m.core, id, m.pending[id], reply);
    }
  }

  lemma EventIsRecalled(m: Machine, event: Event, memory: Memory)
    requires Recalls(m, memory)
    ensures Recalls(Next(m, event), Noted(m, event, memory))
  {
    match event
    case Dispatch(intent) => IntentIsRecalled(m, intent, memory);
    case Resume(id, reply) => ReplyIsRecalled(m, id, reply, memory);
    case Dispose => OrderlyStays(m, Dispose);
  }

  lemma {:induction false} RecallsOverRun(m: Machine, events: seq<Event>, memory: Memory)
    requires Recalls(m, memory)
    ensures Recalls(After(m, events), Recalled(m, events, memory))
    decreases |events|
  {
    if events != [] {
      EventIsRecalled(m, events[0], memory);
      RecallsOverRun(Next(m, events[0]), events[1..], Noted(m, events[0], memory));
    }
  }

  lemma OpenedRecalls(preferred: Option<string>, form: nat)
    ensures Recalls(Opened(preferred, form), Memory(map[], None))
  {
  }

  lemma RestartsAre(m: Machine, event: Event, memory: Memory)
    requires Recalls(m, memory)
    ensures var made := Next(m, event).calls[|m.calls|..];
            if event == Dispatch(Start(RequestReboot)) && MayRestart(m.core, memory) then made == [CallFor(memory.latest.value)]
            else NoRestart(made)
  {
    match event
    case Dispatch(intent) =>
      if intent == Start(RequestReboot) {
        RequestRestarts(m, memory);
      } else if !intent.SelectProfile? {
        IntentLeavesBinding(m, intent);
      }
    case Resume(id, reply) =>
      if id in m.pending && !IsPreviewing(m.pending[id]) {
        ResumedLeavesBinding(m.core, id, m.pending[id], reply);
      }
    case Dispose =>
  }

  // Over every run of a session: a restart is requested exactly by a request made while the slot is
  // free and the plan on screen is still the one, at the revision and step, that the latest fitting
  // preview since the last selection was asked for; and it carries the token of that preview, which is
  // the one on screen.
  lemma RestartsWereReviewed(preferred: Option<string>, form: nat, events: seq<Event>, event: Event)
    ensures var m := After(Opened(preferred, form), events);
            var memory := Recalled(Opened(preferred, form), events, Memory(map[], None));
            var made := Next(m, event).calls[|m.calls|..];
            && (if event == Dispatch(Start(RequestReboot)) && MayRestart(m.core, memory) then made == [CallFor(memory.latest.value)]
                else NoRestart(made))
            && (memory.latest.Some? ==> m.core.ws.rebootToken == Some(memory.latest.value.token))
  {
    OpenedRecalls(preferred, form);
    RecallsOverRun(Opened(preferred, form), events, Memory(map[], None));
    RestartsAre(After(Opened(preferred, form), events), event,
                Recalled(Opened(preferred, form), events, Memory(map[], None)));
  }
}
