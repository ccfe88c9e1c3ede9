// Whether a save carries the very draft the user reviewed: exactly when no recommendation was put on
// screen between the confirmation and the save.
module SessionReviews {
  import opened Prelude
  import opened DeploymentPlan
  import opened SessionModel
  import opened SessionDrafts

  // The drafts a later save could be measured by: the one on screen, and the one a confirmation in
  // force was given for.
  predicate Counts(core: Core, ticket: nat) {
    || (core.ws.recommendation.Some? && core.ws.recommendation.value.draft.ticket == ticket)
    || (core.ws.confirmed && core.reviewed.Some? && core.reviewed.value.ticket == ticket)
  }

  // Under a confirmation in force, the draft on screen is the reviewed one exactly if none was put
  // there since.
  predicate Kept(core: Core) {
    && core.takenThen <= core.taken
    && (core.ws.confirmed && core.reviewed.Some? ==> core.reviewed.value.ticket < core.clock)
    && (core.ws.confirmed && core.ws.recommendation.Some? ==>
          (core.reviewed == DraftShown(core.ws) <==> core.takenThen == core.taken))
  }

  predicate CallKept(call: Call) {
    call.SaveCall? ==> (call.reviewed == Some(call.draft) <==> call.takenThen == call.taken)
  }

  predicate CallsKept(calls: seq<Call>) { forall i :: 0 <= i < |calls| ==> CallKept(calls[i]) }

  predicate Asks(m: Machine, id: nat, ticket: nat) {
    id in m.pending && m.pending[id].Recommending? && m.pending[id].ticket == ticket
  }

  // No draft that counts is still awaited, and no two requests share a ticket.
  ghost predicate Apart(m: Machine) {
    && Kept(m.core) && CallsKept(m.calls)
    && (forall id: nat, ticket: nat :: Asks(m, id, ticket) ==> !Counts(m.core, ticket))
    && (forall id: nat, other: nat, ticket: nat :: Asks(m, id, ticket) && Asks(m, other, ticket) ==> id == other)
  }

  // What one stretch of code keeps of it; `own` is the ticket of the request it answers, if any.
  ghost predicate KeepsApart(core: Core, own: Option<nat>, effect: Effect) {
    && Kept(effect.core) && CallsKept(effect.calls)
    && (forall t: nat :: Counts(effect.core, t) ==> Counts(core, t) || own == Some(t))
    && (effect.spawned.Some? && effect.spawned.value.Recommending? ==> effect.spawned.value.ticket == core.clock)
    && (effect.next.Some? ==> !effect.next.value.Recommending?)
  }

  // Every draft that counts was asked for before.
  lemma CountsIsOlder(core: Core, ticket: nat)
    requires Dated(core) && Kept(core) && Counts(core, ticket)
    ensures ticket < core.clock
  {
  }

  lemma RequestKeepsApart(core: Core)
    requires Dated(core) && Kept(core)
    ensures var (after, cont) := RecommendationStart(core);
            && Kept(after) && (forall t: nat :: !Counts(after, t))
            && (cont.Some? ==> cont.value.Recommending? && cont.value.ticket == core.clock)
  {
  }

  lemma DraftKeepsApart(core: Core, cont: Cont, reply: Reply)
    requires Dated(core) && Kept(core) && cont.Recommending? && AnswersIssued(core, cont) && !Counts(core, cont.ticket)
    ensures KeepsApart(core, Some(cont.ticket), DraftArrived(core, cont, reply))
  {
  }

  lemma ArrivedKeepsApart(core: Core, gen: nat, profileId: string, reply: Reply)
    requires Dated(core) && Kept(core)
    ensures KeepsApart(core, None, PlanArrived(core, gen, profileId, reply))
  {
    if reply.PlanIs? {
      RequestKeepsApart(WithWs(core, core.ws.(plan := Some(ClientPlan(profileId, reply.revision, reply.active)))));
    }
  }

  lemma ListedKeepsApart(core: Core, gen: nat, reply: Reply)
    requires Dated(core) && Kept(core)
    ensures KeepsApart(core, None, Listed(core, gen, reply))
  {
  }

  lemma ReceiptKeepsApart(core: Core, gen: nat, before: ClientPlan, advance: Advance, reply: Reply)
    requires Dated(core) && Kept(core)
    ensures KeepsApart(core, None, ReceiptArrived(core, gen, before, advance, reply))
  {
    if reply.Receipt? {
      var patched := Patched(core, gen, ReceiptPatch(core.ws, before, advance, reply));
      PatchKeepsApart(core, gen, before, advance, reply);
      if LoadsRecommendation(advance) && Current(core, gen) {
        RequestKeepsApart(patched);
      }
    }
  }

  lemma PatchKeepsApart(core: Core, gen: nat, before: ClientPlan, advance: Advance, reply: Reply)
    requires Dated(core) && Kept(core) && reply.Receipt?
    ensures var patched := Patched(core, gen, ReceiptPatch(core.ws, before, advance, reply));
            && Dated(patched) && Kept(patched) && patched.clock == core.clock
            && forall t: nat :: Counts(patched, t) ==> Counts(core, t)
  {
  }

  // Stages that touch none of it.
  predicate LeavesReviews(core: Core, effect: Effect) {
    Untouched(core, effect) && effect.core.reviewed == core.reviewed && effect.core.takenThen == core.takenThen && effect.core.taken == core.taken
  }

  lemma OtherStageLeavesReviews(core: Core, id: nat, gen: nat, stage: Stage, reply: Reply)
    requires !stage.Advancing?
    ensures LeavesReviews(core, OpResumed(core, id, gen, stage, reply))
  {
  }

  lemma LeavingKeepsApart(core: Core, effect: Effect)
    requires Dated(core) && Kept(core) && LeavesReviews(core, effect)
    ensures KeepsApart(core, None, effect)
  {
  }

  lemma ResumedKeepsApart(core: Core, id: nat, cont: Cont, reply: Reply)
    requires Dated(core) && Kept(core) && AnswersIssued(core, cont)
    requires cont.Recommending? ==> !Counts(core, cont.ticket)
    ensures KeepsApart(core, if cont.Recommending? then Some(cont.ticket) else None, Resumed(core, id, cont, reply))
  {
    match cont
    case Listing(gen) => ListedKeepsApart(core, gen, reply);
    case LoadingPlan(gen, profileId) => ArrivedKeepsApart(core, gen, profileId, reply);
    case PlanLoaded(_) =>
    case Recommending(_, _, _, _) => DraftKeepsApart(core, cont, reply);
    case Op(gen, stage) =>
      if stage.Advancing? {
        ReceiptKeepsApart(core, gen, stage.before, stage.advance, reply);
      } else {
        OtherStageLeavesReviews(core, id, gen, stage, reply);
        LeavingKeepsApart(core, OpResumed(core, id, gen, stage, reply));
      }
  }

  lemma ConfirmingKeepsApart(core: Core)
    requires Dated(core) && Kept(core)
    ensures KeepsApart(core, None, Silent(Confirming(core)))
  {
  }

  lemma OpeningKeepsReviews(core: Core, action: Action)
    requires Kept(core) && Offered(core.ws, action)
    ensures var (ws, _, calls) := Opening(core, action);
            ws.recommendation == core.ws.recommendation && ws.confirmed == core.ws.confirmed && CallsKept(calls)
  {
  }

  lemma StartingKeepsApart(core: Core, action: Action)
    requires Dated(core) && Kept(core)
    ensures KeepsApart(core, None, Starting(core, action))
  {
    StartingIs(core, action);
    var ready := BeforeRun(core, action);
    ReadyKeepsApart(core, action);
    if Offered(ready.ws, action) && ready.inflight.None? {
      OpeningKeepsReviews(Busy(ready, action), action);
    }
  }

  lemma ReadyKeepsApart(core: Core, action: Action)
    requires Dated(core) && Kept(core)
    ensures KeepsApart(core, None, Silent(BeforeRun(core, action)))
  {
    if action.SaveRecommended? {
      ConfirmingKeepsApart(core);
    }
  }

  lemma IntentKeepsApart(core: Core, intent: Intent)
    requires Dated(core) && Kept(core)
    ensures KeepsApart(core, None, Dispatched(core, intent))
  {
    match intent
    case SetConfirmed(value) => ConfirmingKeepsApart(core);
    case RetryRecommendation => RequestKeepsApart(core);
    case Start(action) => StartingKeepsApart(core, action);
    case _ =>
  }

  // ---------------------------------------------------------------- runs

  lemma CallsAppended(calls: seq<Call>, more: seq<Call>)
    requires CallsKept(calls) && CallsKept(more)
    ensures CallsKept(calls + more)
  {
  }

  lemma AskedIsOlder(m: Machine, id: nat, ticket: nat)
    requires Honest(m) && Asks(m, id, ticket)
    ensures ticket < m.core.clock
  {
  }

  // What a machine's requests become by one effect.
  lemma EffectStaysApart(m: Machine, after: Machine, own: Option<nat>, effect: Effect)
    requires Honest(m) && Apart(m) && KeepsApart(m.core, own, effect) && (own.Some? ==> own.value < m.core.clock)
    requires after.core == effect.core && after.calls == m.calls + effect.calls
    requires forall id: nat, ticket: nat :: Asks(after, id, ticket) ==>
               (Asks(m, id, ticket) && own != Some(ticket)) || (ticket == m.core.clock && id == m.core.nextId)
    ensures Apart(after)
  {
    CallsAppended(m.calls, effect.calls);
    forall id: nat, ticket: nat | Asks(after, id, ticket)
      ensures !Counts(after.core, ticket)
    {
      if Counts(m.core, ticket) {
        CountsIsOlder(m.core, ticket);
      }
    }
    forall id: nat, other: nat, ticket: nat | Asks(after, id, ticket) && Asks(after, other, ticket)
      ensures id == other
    {
      if Asks(m, id, ticket) {
        AskedIsOlder(m, id, ticket);
      }
      if Asks(m, other, ticket) {
        AskedIsOlder(m, other, ticket);
      }
    }
  }

  lemma ResumeStaysApart(m: Machine, id: nat, reply: Reply)
    requires Honest(m) && Apart(m) && id in m.pending
    ensures Apart(Next(m, Resume(id, reply)))
  {
    var cont := m.pending[id];
    var own := if cont.Recommending? then Some(cont.ticket) else None;
    if cont.Recommending? {
      assert Asks(m, id, cont.ticket);
      AskedIsOlder(m, id, cont.ticket);
    }
    ResumedKeepsApart(m.core, id, cont, reply);
    var effect := Resumed(m.core, id, cont, reply);
    var after := Next(m, Resume(id, reply));
    forall other: nat, ticket: nat | Asks(after, other, ticket)
      ensures (Asks(m, other, ticket) && own != Some(ticket)) || (ticket == m.core.clock && other == m.core.nextId)
    {
      if !(effect.spawned.Some? && other == m.core.nextId) {
        assert other != id && Asks(m, other, ticket);
      }
    }
    EffectStaysApart(m, after, own, effect);
  }

  lemma EventStaysApart(m: Machine, event: Event)
    requires Honest(m) && Apart(m)
    ensures Apart(Next(m, event))
  {
    match event
    case Dispatch(intent) =>
      IntentKeepsApart(m.core, intent);
      EffectStaysApart(m, Next(m, event), None, Dispatched(m.core, intent));
    case Resume(id, reply) =>
      if id in m.pending {
        ResumeStaysApart(m, id, reply);
      }
    case Dispose => EffectStaysApart(m, Next(m, event), None, Silent(Next(m, event).core));
  }

  lemma {:induction false} ApartOverRun(m: Machine, events: seq<Event>)
    requires Honest(m) && Apart(m)
    ensures Apart(After(m, events))
    decreases |events|
  {
    if events != [] {
      EventStaysApart(m, events[0]);
      EventStaysHonest(m, events[0]);
      ApartOverRun(Next(m, events[0]), events[1..]);
    }
  }

  // A current answer to a request for the plan on screen, which puts its draft there.
  predicate TakesDraft(m: Machine, event: Event) {
    && event.Resume? && event.id in m.pending && event.reply.DraftIs? && m.pending[event.id].Recommending?
    && var cont := m.pending[event.id];
    && cont.gen == m.core.generation && m.core.ws.plan.Some?
    && m.core.ws.plan.value.profileId == cont.profileId && m.core.ws.plan.value.revision == cont.revision
  }

  // A dispatch that confirms what is on screen.
  predicate Confirms(m: Machine, event: Event) {
    && event.Dispatch? && !m.core.disposed
    && (event.intent == SetConfirmed(true) || event.intent == Start(SaveRecommended))
  }

  lemma AdvancingTakesNothing(core: Core, gen: nat, before: ClientPlan, advance: Advance, reply: Reply)
    ensures var after := ReceiptArrived(core, gen, before, advance, reply).core;
            after.taken == core.taken && after.takenThen == core.takenThen && after.reviewed == core.reviewed
  {
  }

  lemma StartingTakesNothing(core: Core, action: Action)
    ensures var after := Starting(core, action).core;
            && after.taken == core.taken
            && if action.SaveRecommended? then after.takenThen == core.taken && after.reviewed == DraftShown(core.ws)
               else after.takenThen == core.takenThen && after.reviewed == core.reviewed
  {
    StartingIs(core, action);
  }

  // The book is kept: the count goes up exactly with each draft put on screen, and the draft shown and
  // the count are noted exactly at each confirmation.
  lemma BookIsKept(m: Machine, event: Event)
    ensures var core, after := m.core, Next(m, event).core;
            && after.taken == core.taken + (if TakesDraft(m, event) then 1 else 0)
            && (TakesDraft(m, event) ==> DraftShown(after.ws) == Some(Draft(m.pending[event.id].ticket, event.reply.body)))
            && (if Confirms(m, event) then after.takenThen == core.taken && after.reviewed == DraftShown(core.ws)
                else after.takenThen == core.takenThen && after.reviewed == core.reviewed)
  {
    match event
    case Dispatch(intent) =>
      if intent.Start? {
        StartingTakesNothing(m.core, intent.action);
      }
    case Resume(id, reply) =>
      if id in m.pending && m.pending[id].Op? {
        var stage := m.pending[id].stage;
        if stage.Advancing? {
          AdvancingTakesNothing(m.core, m.pending[id].gen, stage.before, stage.advance, reply);
        } else {
          OtherStageLeavesReviews(m.core, id, m.pending[id].gen, stage, reply);
        }
      }
    case Dispose =>
  }

  // Over every run of a session, however its requests overlap: a save carries exactly the draft that
  // was on screen when the confirmation in force was given, if and only if no recommendation was put
  // on screen between that confirmation and the save.
  lemma SavesWhatWasReviewed(preferred: Option<string>, form: nat, events: seq<Event>)
    ensures var calls := After(Opened(preferred, form), events).calls;
            forall i :: 0 <= i < |calls| && calls[i].SaveCall? ==>
              (calls[i].reviewed == Some(calls[i].draft) <==> calls[i].takenThen == calls[i].taken)
  {
    ApartOverRun(Opened(preferred, form), events);
  }

  // ---------------------------------------------------------------- an unreviewed save

  lemma FirstStep(m: Machine, event: Event, rest: seq<Event>)
    ensures After(m, [event] + rest) == After(Next(m, event), rest)
  {
    assert ([event] + rest)[1..] == rest;
  }

  const SHOWN := ClientPlan("p", 10, Some(WriteNvstrapsConfiguration))

  // The session shows the plan of its first profile, and so many requests were made for it.
  predicate Shows(m: Machine, requests: nat) {
    && Current(m.core, 1) && m.core.inflight.None? && m.core.ws.plan == Some(SHOWN)
    && m.core.clock == requests && m.core.nextId == requests + 1 && 0 in m.pending
  }

  function Request(ticket: nat): Cont { Recommending(1, "p", 10, ticket) }

  lemma PlanShown() returns (m: Machine)
    ensures After(Opened(None, 0), [Resume(0, Profiles(["p"]))] + [Resume(0, PlanIs(10, SHOWN.active))]) == m
    ensures Shows(m, 1) && 1 in m.pending && m.pending[1] == Request(0)
  {
    var listed := Next(Opened(None, 0), Resume(0, Profiles(["p"])));
    m := Next(listed, Resume(0, PlanIs(10, SHOWN.active)));
    FirstStep(Opened(None, 0), Resume(0, Profiles(["p"])), [Resume(0, PlanIs(10, SHOWN.active))]);
    FirstStep(listed, Resume(0, PlanIs(10, SHOWN.active)), []);
    assert [Resume(0, PlanIs(10, SHOWN.active))] + [] == [Resume(0, PlanIs(10, SHOWN.active))];
  }

  lemma AskedAgain(m: Machine) returns (after: Machine)
    requires Shows(m, 1) && 1 in m.pending && m.pending[1] == Request(0)
    ensures after == Next(m, Dispatch(RetryRecommendation))
    ensures Shows(after, 2) && 1 in after.pending && after.pending[1] == Request(0) && 2 in after.pending && after.pending[2] == Request(1)
  {
    after := Next(m, Dispatch(RetryRecommendation));
  }

  lemma Answered(m: Machine, id: nat, ticket: nat, body: nat) returns (after: Machine)
    requires Current(m.core, 1) && m.core.ws.plan == Some(SHOWN)
    requires id in m.pending && m.pending[id] == Request(ticket)
    ensures after == Next(m, Resume(id, DraftIs(body)))
    ensures after.core == m.core.(ws := after.core.ws, taken := m.core.taken + 1) && after.pending == m.pending - {id} && after.calls == m.calls
    ensures after.core.ws.plan == m.core.ws.plan && after.core.ws.confirmed == m.core.ws.confirmed
    ensures after.core.ws.recommendation == Some(Recommendation("p", 10, Draft(ticket, body)))
  {
    after := Next(m, Resume(id, DraftIs(body)));
  }

  lemma SavedUnreviewed(m: Machine)
    requires Current(m.core, 1) && m.core.inflight.None? && m.core.ws.plan == Some(SHOWN) && m.core.ws.confirmed
    requires m.core.ws.recommendation == Some(Recommendation("p", 10, Draft(0, 100))) && m.core.reviewed == Some(Draft(1, 200))
    ensures var calls := Next(m, Dispatch(Start(SaveGuarded))).calls;
            && |calls| > 0 && calls[|calls| - 1].SaveCall?
            && calls[|calls| - 1].draft == Draft(0, 100) && calls[|calls| - 1].reviewed == Some(Draft(1, 200))
  {
  }

  lemma ConfirmedOnScreen(m: Machine) returns (after: Machine)
    requires Current(m.core, 1) && m.core.ws.recommendation.Some?
    ensures after == Next(m, Dispatch(SetConfirmed(true)))
    ensures after.core == Confirming(m.core) && after.pending == m.pending && after.core.reviewed == DraftShown(m.core.ws)
  {
    after := Next(m, Dispatch(SetConfirmed(true)));
  }

  function LateAnswer(): seq<Event> {
    FiveEvents(Dispatch(RetryRecommendation), Resume(2, DraftIs(200)), Dispatch(SetConfirmed(true)), Resume(1, DraftIs(100)), Dispatch(Start(SaveGuarded)))
  }

  predicate EndsUnreviewed(m: Machine) {
    && |m.calls| > 0 && m.calls[|m.calls| - 1].SaveCall?
    && m.calls[|m.calls| - 1].reviewed == Some(Draft(1, 200)) && m.calls[|m.calls| - 1].draft == Draft(0, 100)
  }

  lemma LateAnswerIsSaved(m: Machine)
    requires Shows(m, 1) && 1 in m.pending && m.pending[1] == Request(0)
    ensures EndsUnreviewed(After(m, LateAnswer()))
  {
    var asked := AskedAgain(m);
    var answered := Answered(asked, 2, 1, 200);
    var confirmed := ConfirmedOnScreen(answered);
    var replaced := Answered(confirmed, 1, 0, 100);
    SavedUnreviewed(replaced);
    AfterFive(m, Dispatch(RetryRecommendation), Resume(2, DraftIs(200)), Dispatch(SetConfirmed(true)), Resume(1, DraftIs(100)), Dispatch(Start(SaveGuarded)));
  }

  // The other half happens: two requests are under way, the younger one's draft is reviewed and
  // confirmed, then the older one is answered, and the save carries a draft nobody reviewed.
  lemma OlderAnswerIsSaved()
    ensures exists events :: EndsUnreviewed(After(Opened(None, 0), events))
  {
    var start := [Resume(0, Profiles(["p"]))] + [Resume(0, PlanIs(10, SHOWN.active))];
    var m := PlanShown();
    LateAnswerIsSaved(m);
    AfterBoth(Opened(None, 0), start, LateAnswer());
    assert EndsUnreviewed(After(Opened(None, 0), start + LateAnswer()));
  }

  function FiveEvents(a: Event, b: Event, c: Event, d: Event, e: Event): seq<Event> { [a] + ([b] + ([c] + ([d] + ([e] + [])))) }

  lemma AfterFive(m: Machine, a: Event, b: Event, c: Event, d: Event, e: Event)
    ensures After(m, FiveEvents(a, b, c, d, e)) == Next(Next(Next(Next(Next(m, a), b), c), d), e)
  {
    var m1 := Next(m, a);
    var m2 := Next(m1, b);
    var m3 := Next(m2, c);
    var m4 := Next(m3, d);
    FirstStep(m, a, [b] + ([c] + ([d] + ([e] + []))));
    FirstStep(m1, b, [c] + ([d] + ([e] + [])));
    FirstStep(m2, c, [d] + ([e] + []));
    FirstStep(m3, d, [e] + []);
    FirstStep(m4, e, []);
  }

  lemma {:induction false} AfterBoth(m: Machine, events: seq<Event>, more: seq<Event>)
    ensures After(m, events + more) == After(After(m, events), more)
    decreases |events|
  {
    if events == [] {
      assert events + more == more;
    } else {
      assert (events + more)[1..] == events[1..] + more;
      AfterBoth(Next(m, events[0]), events[1..], more);
    }
  }
}
