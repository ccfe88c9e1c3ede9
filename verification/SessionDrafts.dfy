// What a save may carry: a recommended draft requested for the profile and revision on screen, and
// confirmed since it was requested.
module SessionDrafts {
  import opened Prelude
  import opened DeploymentPlan
  import opened SessionModel

  predicate Issued(core: Core, ticket: nat, profileId: string, revision: nat) {
    ticket in core.requests && core.requests[ticket] == (profileId, revision)
  }

  // Requests are numbered by the clock; the shown recommendation answers a request made for it; a
  // confirmation in force is younger than every request.
  predicate Dated(core: Core) {
    && (forall t :: t in core.requests ==> t < core.clock)
    && (core.ws.recommendation.Some? ==>
          var r := core.ws.recommendation.value;
          Issued(core, r.draft.ticket, r.profileId, r.planRevision))
    && (core.ws.confirmed ==> forall t :: t in core.requests ==> t < core.confirmedAt)
  }

  predicate AnswersIssued(core: Core, cont: Cont) {
    cont.Recommending? ==> Issued(core, cont.ticket, cont.profileId, cont.revision)
  }

  // A save that may be sent: its draft was requested for the profile and revision it is sent for, and
  // confirmed after that request.
  predicate Reviewed(core: Core, call: Call) {
    call.SaveCall? ==> Issued(core, call.draft.ticket, call.profileId, call.heldRevision) && call.draft.ticket < call.confirmedAt
  }

  predicate Honest(m: Machine) {
    && Dated(m.core)
    && (forall id :: id in m.pending ==> AnswersIssued(m.core, m.pending[id]))
    && (forall i :: 0 <= i < |m.calls| ==> Reviewed(m.core, m.calls[i]))
  }

  // Requests are never forgotten or renamed.
  predicate Remembers(core: Core, after: Core) {
    forall t :: t in core.requests ==> t in after.requests && after.requests[t] == core.requests[t]
  }

  predicate NoSave(calls: seq<Call>) { forall i :: 0 <= i < |calls| ==> !calls[i].SaveCall? }

  predicate StaysHonest(core: Core, effect: Effect) {
    && Dated(effect.core) && Remembers(core, effect.core)
    && (effect.spawned.Some? ==> AnswersIssued(effect.core, effect.spawned.value))
    && (effect.next.Some? ==> !effect.next.value.Recommending?)
  }

  lemma RequestStaysDated(core: Core)
    requires Dated(core)
    ensures var (after, cont) := RecommendationStart(core);
            Dated(after) && Remembers(core, after) && (cont.Some? ==> AnswersIssued(after, cont.value))
  {
  }

  lemma DraftStaysDated(core: Core, cont: Cont, reply: Reply)
    requires Dated(core) && cont.Recommending? && AnswersIssued(core, cont)
    ensures StaysHonest(core, DraftArrived(core, cont, reply)) && DraftArrived(core, cont, reply).calls == []
  {
  }

  lemma ArrivedStaysDated(core: Core, gen: nat, profileId: string, reply: Reply)
    requires Dated(core)
    ensures StaysHonest(core, PlanArrived(core, gen, profileId, reply)) && NoSave(PlanArrived(core, gen, profileId, reply).calls)
  {
    if reply.PlanIs? {
      RequestStaysDated(WithWs(core, core.ws.(plan := Some(ClientPlan(profileId, reply.revision, reply.active)))));
    }
  }

  lemma ListedStaysDated(core: Core, gen: nat, reply: Reply)
    requires Dated(core)
    ensures StaysHonest(core, Listed(core, gen, reply)) && NoSave(Listed(core, gen, reply).calls)
  {
  }

  lemma ReceiptStaysDated(core: Core, gen: nat, before: ClientPlan, advance: Advance, reply: Reply)
    requires Dated(core)
    ensures StaysHonest(core, ReceiptArrived(core, gen, before, advance, reply)) && NoSave(ReceiptArrived(core, gen, before, advance, reply).calls)
  {
    if reply.Receipt? {
      RequestStaysDated(Patched(core, gen, ReceiptPatch(core.ws, before, advance, reply)));
    }
  }

  // The other stages touch neither requests nor recommendation nor confirmation.
  predicate Untouched(core: Core, effect: Effect) {
    && effect.core.requests == core.requests && effect.core.clock == core.clock && effect.core.confirmedAt == core.confirmedAt
    && effect.core.ws.recommendation == core.ws.recommendation && effect.core.ws.confirmed == core.ws.confirmed
    && effect.spawned.None? && (effect.next.Some? ==> !effect.next.value.Recommending?) && NoSave(effect.calls)
  }

  lemma OtherStageUntouched(core: Core, id: nat, gen: nat, stage: Stage, reply: Reply)
    requires !stage.Advancing?
    ensures Untouched(core, OpResumed(core, id, gen, stage, reply))
  {
  }

  lemma ResumedStaysDated(core: Core, id: nat, cont: Cont, reply: Reply)
    requires Dated(core) && AnswersIssued(core, cont)
    ensures StaysHonest(core, Resumed(core, id, cont, reply)) && NoSave(Resumed(core, id, cont, reply).calls)
  {
    match cont
    case Listing(gen) => ListedStaysDated(core, gen, reply);
    case LoadingPlan(gen, profileId) => ArrivedStaysDated(core, gen, profileId, reply);
    case PlanLoaded(_) =>
    case Recommending(_, _, _, _) => DraftStaysDated(core, cont, reply);
    case Op(gen, stage) =>
      if stage.Advancing? {
        ReceiptStaysDated(core, gen, stage.before, stage.advance, reply);
      } else {
        OtherStageUntouched(core, id, gen, stage, reply);
      }
  }

  lemma ConfirmingStaysDated(core: Core)
    requires Dated(core)
    ensures Dated(Confirming(core)) && Remembers(core, Confirming(core))
  {
  }

  lemma BeforeRunStaysDated(core: Core, action: Action)
    requires Dated(core)
    ensures Dated(BeforeRun(core, action)) && Remembers(core, BeforeRun(core, action))
  {
    if action.SaveRecommended? {
      ConfirmingStaysDated(core);
    }
  }

  // A save opens only on a confirmed recommendation for the plan shown.
  lemma OpeningIsReviewed(core: Core, action: Action)
    requires Dated(core) && Offered(core.ws, action)
    ensures var (ws, _, calls) := Opening(core, action);
            && ws.recommendation == core.ws.recommendation && ws.confirmed == core.ws.confirmed
            && (forall i :: 0 <= i < |calls| ==> Reviewed(core, calls[i]))
            && (forall i :: 0 <= i < |calls| && calls[i].SaveCall? ==>
                  && core.ws.plan.Some? && core.ws.plan.value.profileId == calls[i].profileId
                  && core.ws.plan.value.revision == calls[i].heldRevision
                  && core.ws.confirmed && calls[i].confirmedAt == core.confirmedAt)
  {
  }

  predicate CallsReviewed(core: Core, calls: seq<Call>) { forall i :: 0 <= i < |calls| ==> Reviewed(core, calls[i]) }

  function Busy(core: Core, action: Action): Core {
    WithWs(core, core.ws.(busyAction := ActionName(action), activity := NoActivity))
  }

  // The effect of an operation that does start.
  function Started(busy: Core, ws: Workspace, stage: Stage, calls: seq<Call>): Effect {
    Effect(busy.(ws := ws, inflight := Some(busy.nextId), nextId := busy.nextId + 1), None, Some(Op(busy.generation, stage)), calls)
  }

  lemma StartedStaysDated(ready: Core, action: Action, ws: Workspace, stage: Stage, calls: seq<Call>)
    requires Dated(ready) && ws.recommendation == ready.ws.recommendation && ws.confirmed == ready.ws.confirmed
    requires CallsReviewed(Busy(ready, action), calls)
    ensures StaysHonest(ready, Started(Busy(ready, action), ws, stage, calls))
    ensures CallsReviewed(Started(Busy(ready, action), ws, stage, calls).core, calls)
  {
    forall i | 0 <= i < |calls|
      ensures Reviewed(Started(Busy(ready, action), ws, stage, calls).core, calls[i])
    {
      assert Reviewed(Busy(ready, action), calls[i]);
    }
  }

  lemma StartingIs(core: Core, action: Action)
    ensures var ready := BeforeRun(core, action);
            Starting(core, action) ==
              if !Offered(ready.ws, action) || ready.inflight.Some? then Silent(ready)
              else
                var (ws, stage, calls) := Opening(Busy(ready, action), action);
                Started(Busy(ready, action), ws, stage, calls)
  {
  }

  lemma StartingStaysDated(core: Core, action: Action)
    requires Dated(core)
    ensures StaysHonest(core, Starting(core, action)) && CallsReviewed(Starting(core, action).core, Starting(core, action).calls)
  {
    BeforeRunStaysDated(core, action);
    StartingIs(core, action);
    var ready := BeforeRun(core, action);
    if Offered(ready.ws, action) && ready.inflight.None? {
      OpeningIsReviewed(Busy(ready, action), action);
      var (ws, stage, calls) := Opening(Busy(ready, action), action);
      StartedStaysDated(ready, action, ws, stage, calls);
      HonestFurther(core, ready, Started(Busy(ready, action), ws, stage, calls));
    }
  }

  lemma HonestFurther(core: Core, ready: Core, effect: Effect)
    requires Remembers(core, ready) && StaysHonest(ready, effect)
    ensures StaysHonest(core, effect)
  {
  }

  lemma IntentStaysDated(core: Core, intent: Intent)
    requires Dated(core)
    ensures StaysHonest(core, Dispatched(core, intent)) && CallsReviewed(Dispatched(core, intent).core, Dispatched(core, intent).calls)
  {
    match intent
    case SetConfirmed(value) => ConfirmingStaysDated(core);
    case RetryRecommendation => RequestStaysDated(core);
    case Start(action) => StartingStaysDated(core, action);
    case _ =>
  }

  lemma CallsStayReviewed(core: Core, after: Core, calls: seq<Call>, more: seq<Call>)
    requires Remembers(core, after) && CallsReviewed(core, calls) && CallsReviewed(after, more)
    ensures CallsReviewed(after, calls + more)
  {
    forall i | 0 <= i < |calls + more|
      ensures Reviewed(after, (calls + more)[i])
    {
      assert (calls + more)[i] == if i < |calls| then calls[i] else more[i - |calls|];
    }
  }

  lemma AnswersStayIssued(m: Machine, after: Core, pending: map<nat, Cont>)
    requires Honest(m) && Remembers(m.core, after)
    requires forall id :: id in pending ==> AnswersIssued(after, pending[id]) || (id in m.pending && pending[id] == m.pending[id])
    ensures forall id :: id in pending ==> AnswersIssued(after, pending[id])
  {
  }

  lemma EventStaysHonest(m: Machine, event: Event)
    requires Honest(m)
    ensures Honest(Next(m, event))
  {
    match event
    case Dispatch(intent) =>
      IntentStaysDated(m.core, intent);
      var effect := Dispatched(m.core, intent);
      CallsStayReviewed(m.core, effect.core, m.calls, effect.calls);
      AnswersStayIssued(m, effect.core, Next(m, event).pending);
    case Resume(id, reply) =>
      if id in m.pending {
        ResumedStaysDated(m.core, id, m.pending[id], reply);
        var effect := Resumed(m.core, id, m.pending[id], reply);
        CallsStayReviewed(m.core, effect.core, m.calls, effect.calls);
        AnswersStayIssued(m, effect.core, Applied(m, id, effect).pending);
      }
    case Dispose =>
  }

  lemma {:induction false} HonestOverRun(m: Machine, events: seq<Event>)
    requires Honest(m)
    ensures Honest(After(m, events))
    decreases |events|
  {
    if events != [] {
      EventStaysHonest(m, events[0]);
      HonestOverRun(Next(m, events[0]), events[1..]);
    }
  }

  // Over every run of a session, however its requests overlap: each save carries a draft that was
  // requested for exactly the profile and revision it is sent for, and was confirmed since.
  lemma SavesWereReviewed(preferred: Option<string>, form: nat, events: seq<Event>)
    ensures var m := After(Opened(preferred, form), events);
            forall i :: 0 <= i < |m.calls| && m.calls[i].SaveCall? ==> Reviewed(m.core, m.calls[i])
  {
    HonestOverRun(Opened(preferred, form), events);
  }

  // And the profile and revision it is sent for are those on screen at that moment, under a
  // confirmation still in force or, from the guided screen, given by that very click.
  lemma SaveIsForThePlanShown(m: Machine, event: Event, i: nat)
    requires Honest(m) && i < |Next(m, event).calls| && i >= |m.calls| && Next(m, event).calls[i].SaveCall?
    ensures event.Dispatch? && event.intent.Start? && ForThePlanShown(m.core, event.intent.action, Next(m, event).calls[i])
  {
    match event
    case Resume(id, reply) => ResumedStaysDated(m.core, id, m.pending[id], reply);
    case Dispatch(intent) =>
      if intent.Start? {
        StartedSave(m.core, intent.action);
      }
    case Dispose =>
  }

  predicate ForThePlanShown(core: Core, action: Action, call: Call)
    requires call.SaveCall?
  {
    && (action.SaveGuarded? || action.SaveRecommended?)
    && core.ws.plan.Some? && core.ws.plan.value.profileId == call.profileId && core.ws.plan.value.revision == call.heldRevision
    && (action.SaveGuarded? ==> core.ws.confirmed && call.confirmedAt == core.confirmedAt)
    && (action.SaveRecommended? ==> call.confirmedAt == core.clock)
  }

  lemma OpeningSaves(core: Core, action: Action)
    requires Offered(core.ws, action)
    ensures var (_, _, calls) := Opening(core, action);
            forall i :: 0 <= i < |calls| && calls[i].SaveCall? ==>
              && (action.SaveGuarded? || action.SaveRecommended?)
              && core.ws.plan.Some? && core.ws.plan.value.profileId == calls[i].profileId
              && core.ws.plan.value.revision == calls[i].heldRevision
              && core.ws.confirmed && calls[i].confirmedAt == core.confirmedAt
  {
  }

  lemma StartedSave(core: Core, action: Action)
    ensures forall i :: 0 <= i < |Starting(core, action).calls| && Starting(core, action).calls[i].SaveCall? ==>
              ForThePlanShown(core, action, Starting(core, action).calls[i])
  {
    StartingIs(core, action);
    var ready := BeforeRun(core, action);
    if Offered(ready.ws, action) && ready.inflight.None? {
      OpeningSaves(Busy(ready, action), action);
    }
  }
}
