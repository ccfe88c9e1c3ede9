// The hand-off as an operation of a session: among whatever else happens there, it takes the turns of
// the client's loop and completes what that loop completes.
module SessionHandoff {
  import opened Prelude
  import opened DeploymentPlan
  import opened SessionModel
  import Handoff
  import SessionSlot
  import Workflow

  function View(plan: Plan): ClientPlan { ClientPlan(plan.profileId, plan.revision, Active(plan)) }

  // ---------------------------------------------------------------- the replies a hand-off gets

  // The moments met with the first of the targets still ahead.
  function TurnFor(turns: seq<Handoff.Turn>, targets: seq<StepId>): Handoff.Turn
    requires 0 < |targets| <= |turns|
  {
    turns[|turns| - |targets|]
  }

  function TurnsFor(turns: seq<Handoff.Turn>, targets: seq<StepId>): seq<Handoff.Turn>
    requires |targets| <= |turns|
  {
    turns[|turns| - |targets|..]
  }

  function Token(adapter: Handoff.Adapter, turn: Handoff.Turn): Option<Workflow.ConfirmationToken> {
    adapter.preview(turn.storedAtPreview, turn.previewing)
  }

  function Recorded(adapter: Handoff.Adapter, turn: Handoff.Turn): Option<Plan> {
    if Token(adapter, turn).None? then None else adapter.confirm(turn.storedAtConfirm, Token(adapter, turn).value, turn.confirming)
  }

  predicate AnswersPreview(adapter: Handoff.Adapter, shown: Plan, turn: Handoff.Turn, reply: Reply) {
    reply == if Token(adapter, turn).None? then Rejected else PreviewIs(Handoff.PreviewFits(shown, Token(adapter, turn).value))
  }

  predicate AnswersConfirm(adapter: Handoff.Adapter, turn: Handoff.Turn, reply: Reply) {
    var after := Recorded(adapter, turn);
    if after.None? then reply == Rejected
    else reply.Receipt? && reply.revision == after.value.revision as nat && reply.active == Active(after.value)
  }

  predicate Waits(m: Machine, event: Event, id: nat) {
    event.Resume? && event.id == id && id in m.pending && m.pending[id].Op?
  }

  // A reply to the operation `id` is the adapter's answer at the moments of its turn, and finds the
  // operation current or not as the turn says.
  predicate Answers(m: Machine, event: Event, id: nat, adapter: Handoff.Adapter, turns: seq<Handoff.Turn>, shown: Plan) {
    Waits(m, event, id) ==>
      var now := Current(m.core, m.pending[id].gen);
      match m.pending[id].stage
      case HandoffPreview(targets, _, _) =>
        0 < |targets| <= |turns| ==>
          AnswersPreview(adapter, shown, TurnFor(turns, targets), event.reply) && (TurnFor(turns, targets).currentAfterPreview <==> now)
      case HandoffConfirm(targets, _, _) =>
        0 < |targets| <= |turns| ==>
          AnswersConfirm(adapter, TurnFor(turns, targets), event.reply) && (TurnFor(turns, targets).currentAfterConfirm <==> now)
      case _ => true
  }

  // ---------------------------------------------------------------- what a hand-off has done so far

  // The plan the client shows for it, and the steps the backend completed for it.
  datatype Record = Record(shown: Plan, completions: seq<Handoff.Completion>)

  // A receipt completed the first target; the client shows its plan if the operation is still current.
  function Noted(m: Machine, event: Event, id: nat, adapter: Handoff.Adapter, turns: seq<Handoff.Turn>, record: Record): Record {
    if Waits(m, event, id) && m.pending[id].stage.HandoffConfirm? && 0 < |m.pending[id].stage.targets| <= |turns|
       && event.reply.Receipt? && Recorded(adapter, TurnFor(turns, m.pending[id].stage.targets)).Some? then
      var targets := m.pending[id].stage.targets;
      var turn := TurnFor(turns, targets);
      Record(if Current(m.core, m.pending[id].gen) then Recorded(adapter, turn).value else record.shown,
             record.completions + [Handoff.Completion(targets[0], turn.storedAtConfirm)])
    else record
  }

  predicate Served(m: Machine, events: seq<Event>, id: nat, adapter: Handoff.Adapter, turns: seq<Handoff.Turn>, record: Record)
    decreases |events|
  {
    events != [] ==>
      && Answers(m, events[0], id, adapter, turns, record.shown)
      && Served(Next(m, events[0]), events[1..], id, adapter, turns, Noted(m, events[0], id, adapter, turns, record))
  }

  function Outcome(m: Machine, events: seq<Event>, id: nat, adapter: Handoff.Adapter, turns: seq<Handoff.Turn>, record: Record): Record
    decreases |events|
  {
    if events == [] then record
    else Outcome(Next(m, events[0]), events[1..], id, adapter, turns, Noted(m, events[0], id, adapter, turns, record))
  }

  // ---------------------------------------------------------------- the loop behind it

  // In between two calls the record and what the loop still does from here make up the whole; once
  // the operation settles the record is the whole.
  predicate Ahead(stage: Stage, adapter: Handoff.Adapter, turns: seq<Handoff.Turn>, record: Record, whole: Handoff.Result) {
    match stage
    case HandoffPreview(targets, before, recorded) => Between(targets, before, recorded, adapter, turns, record, whole)
    case HandoffConfirm(targets, before, recorded) =>
      && Between(targets, before, recorded, adapter, turns, record, whole)
      && var turn := TurnFor(turns, targets);
         Token(adapter, turn).Some? && Handoff.PreviewFits(record.shown, Token(adapter, turn).value) && turn.currentAfterPreview
    case Settling(failed) => Whole(record, whole) && (failed <==> whole.ending.Failed?)
    case Finishing => Whole(record, whole)
    case _ => false
  }

  predicate Between(targets: seq<StepId>, before: ClientPlan, recorded: nat, adapter: Handoff.Adapter, turns: seq<Handoff.Turn>, record: Record,
                    whole: Handoff.Result)
  {
    && 0 < |targets| <= |turns| && before == View(record.shown) && Active(record.shown) == Some(targets[0])
    && whole == Handoff.Prefixed(record.completions, Handoff.Loop(adapter, record.shown, targets, TurnsFor(turns, targets), recorded))
  }

  predicate Whole(record: Record, whole: Handoff.Result) {
    record.completions == whole.completions && record.shown == whole.shown
  }

  predicate Follows(m: Machine, id: nat, adapter: Handoff.Adapter, turns: seq<Handoff.Turn>, record: Record, whole: Handoff.Result) {
    && id < m.core.nextId
    && if id in m.pending then m.pending[id].Op? && Ahead(m.pending[id].stage, adapter, turns, record, whole)
       else Whole(record, whole)
  }

  // The targets the session passes over are those the loop passes over.
  lemma {:induction false} PassesOver(ws: Workspace, adapter: Handoff.Adapter, shown: Plan, targets: seq<StepId>, turns: seq<Handoff.Turn>,
                                      recorded: nat, record: Record, whole: Handoff.Result)
    requires ws.plan == Some(View(shown)) && |targets| <= |turns| && record.shown == shown
    requires whole == Handoff.Prefixed(record.completions, Handoff.Loop(adapter, shown, targets, TurnsFor(turns, targets), recorded))
    ensures Ahead(NextTarget(ws, targets, recorded), adapter, turns, record, whole)
    ensures NextTarget(ws, targets, recorded).HandoffPreview? || NextTarget(ws, targets, recorded).Settling?
  {
    if targets != [] && Active(shown) != Some(targets[0]) {
      assert TurnsFor(turns, targets)[1..] == TurnsFor(turns, targets[1..]);
      PassesOver(ws, adapter, shown, targets[1..], turns, recorded, record, whole);
    }
  }

  predicate OwnedBy(profileId: string, turns: seq<Handoff.Turn>) {
    forall i :: 0 <= i < |turns| ==> turns[i].storedAtConfirm.profileId == profileId
  }

  lemma CompletedIsOwned(plan: Plan, step: StepId, value: EvidenceValue)
    requires Complete(plan, step, value).Ok?
    ensures Complete(plan, step, value).value.profileId == plan.profileId
  {
  }

  lemma PreviewFollows(core: Core, gen: nat, targets: seq<StepId>, before: ClientPlan, recorded: nat, reply: Reply,
                       adapter: Handoff.Adapter, turns: seq<Handoff.Turn>, record: Record, whole: Handoff.Result)
    requires Between(targets, before, recorded, adapter, turns, record, whole)
    requires AnswersPreview(adapter, record.shown, TurnFor(turns, targets), reply)
    requires TurnFor(turns, targets).currentAfterPreview <==> Current(core, gen)
    ensures var next := HandoffPreviewed(core, gen, targets, before, recorded, reply).next;
            next.Some? && next.value.Op? && Ahead(next.value.stage, adapter, turns, record, whole)
  {
    assert TurnsFor(turns, targets)[0] == TurnFor(turns, targets);
  }

  lemma ReceiptFollows(core: Core, gen: nat, targets: seq<StepId>, before: ClientPlan, recorded: nat, reply: Reply,
                       adapter: Handoff.Adapter, turns: seq<Handoff.Turn>, record: Record, whole: Handoff.Result)
    requires Ahead(HandoffConfirm(targets, before, recorded), adapter, turns, record, whole)
    requires Handoff.Honest(adapter) && OwnedBy(before.profileId, turns)
    requires AnswersConfirm(adapter, TurnFor(turns, targets), reply) && reply.Receipt?
    requires TurnFor(turns, targets).currentAfterConfirm <==> Current(core, gen)
    ensures var next := HandoffConfirmed(core, gen, targets, before, recorded, reply).next;
            var turn := TurnFor(turns, targets);
            var noted := Record(if Current(core, gen) then Recorded(adapter, turn).value else record.shown,
                                record.completions + [Handoff.Completion(targets[0], turn.storedAtConfirm)]);
            && next.Some? && next.value.Op? && Ahead(next.value.stage, adapter, turns, noted, whole)
            && noted.shown.profileId == record.shown.profileId
  {
    var turn := TurnFor(turns, targets);
    var left := TurnsFor(turns, targets);
    assert left[0] == turn;
    if Current(core, gen) {
      var after := Recorded(adapter, turn).value;
      assert Handoff.Confirmed(turn.storedAtConfirm, Token(adapter, turn).value, turn.confirming, after);
      CompletedIsOwned(turn.storedAtConfirm, Token(adapter, turn).value.step, Attested(turn.confirming.now));
      var noted := Record(after, record.completions + [Handoff.Completion(targets[0], turn.storedAtConfirm)]);
      assert left[1..] == TurnsFor(turns, targets[1..]);
      var rest := Handoff.Loop(adapter, after, targets[1..], left[1..], recorded + 1);
      assert whole.completions == noted.completions + rest.completions;
      PassesOver(core.ws.(plan := Some(ClientPlan(before.profileId, reply.revision, reply.active))), adapter, after, targets[1..], turns,
                 recorded + 1, noted, whole);
    }
  }

  // ---------------------------------------------------------------- over a run

  // A stretch of anything else leaves the operation waiting where it was.
  lemma OthersLeave(m: Machine, event: Event, id: nat)
    requires id < m.core.nextId && !(event.Resume? && event.id == id)
    ensures var after := Next(m, event);
            && id < after.core.nextId
            && (id in after.pending <==> id in m.pending)
            && (id in m.pending ==> after.pending[id] == m.pending[id])
  {
    match event
    case Dispatch(intent) => SessionSlot.IntentDispatches(m.core, intent);
    case Resume(other, reply) =>
      if other in m.pending && !(m.pending[other].Op? && m.pending[other].stage.Finishing?) {
        SessionSlot.ResumedGoesOn(m.core, other, m.pending[other], reply);
      }
    case Dispose =>
  }

  lemma OwnStretch(m: Machine, id: nat, reply: Reply)
    requires id in m.pending && m.pending[id].Op? && id < m.core.nextId && !m.pending[id].stage.Finishing?
    ensures var effect := Resumed(m.core, id, m.pending[id], reply);
            var after := Next(m, Resume(id, reply));
            && effect.next.Some? && id < after.core.nextId
            && id in after.pending && after.pending[id] == effect.next.value
  {
    SessionSlot.OpGoesOn(m.core, id, m.pending[id].gen, m.pending[id].stage, reply);
  }

  lemma StretchFollows(m: Machine, event: Event, id: nat, adapter: Handoff.Adapter, turns: seq<Handoff.Turn>, record: Record,
                       whole: Handoff.Result)
    requires Follows(m, id, adapter, turns, record, whole) && Answers(m, event, id, adapter, turns, record.shown)
    requires Handoff.Honest(adapter) && OwnedBy(record.shown.profileId, turns)
    ensures Follows(Next(m, event), id, adapter, turns, Noted(m, event, id, adapter, turns, record), whole)
    ensures Noted(m, event, id, adapter, turns, record).shown.profileId == record.shown.profileId
  {
    if !(event.Resume? && event.id == id) {
      OthersLeave(m, event, id);
    } else if id in m.pending && !m.pending[id].stage.Finishing? {
      var (core, gen, reply) := (m.core, m.pending[id].gen, event.reply);
      OwnStretch(m, id, reply);
      match m.pending[id].stage
      case HandoffPreview(targets, before, recorded) =>
        PreviewFollows(core, gen, targets, before, recorded, reply, adapter, turns, record, whole);
      case HandoffConfirm(targets, before, recorded) =>
        if reply.Receipt? {
          ReceiptFollows(core, gen, targets, before, recorded, reply, adapter, turns, record, whole);
        } else {
          assert TurnsFor(turns, targets)[0] == TurnFor(turns, targets);
        }
      case _ =>
    }
  }

  lemma {:induction false} RunFollows(m: Machine, events: seq<Event>, id: nat, adapter: Handoff.Adapter, turns: seq<Handoff.Turn>,
                                      record: Record, whole: Handoff.Result)
    requires Follows(m, id, adapter, turns, record, whole) && Served(m, events, id, adapter, turns, record)
    requires Handoff.Honest(adapter) && OwnedBy(record.shown.profileId, turns)
    ensures Follows(After(m, events), id, adapter, turns, Outcome(m, events, id, adapter, turns, record), whole)
    decreases |events|
  {
    if events != [] {
      StretchFollows(m, events[0], id, adapter, turns, record, whole);
      RunFollows(Next(m, events[0]), events[1..], id, adapter, turns, Noted(m, events[0], id, adapter, turns, record), whole);
    }
  }

  // The click that starts a hand-off in a session that takes it.
  function Clicked(m: Machine, includeSetup: bool, reviewed: u32): Machine {
    Next(m, Dispatch(Start(RecordHandoff(includeSetup, reviewed))))
  }

  predicate Takes(m: Machine, shown: Plan) {
    !m.core.disposed && m.core.inflight.None? && m.core.ws.plan == Some(View(shown))
  }

  lemma ClickFollows(m: Machine, shown: Plan, includeSetup: bool, reviewed: u32, adapter: Handoff.Adapter, turns: seq<Handoff.Turn>)
    requires Takes(m, shown) && |turns| == |Handoff.Targets(includeSetup)|
    ensures Follows(Clicked(m, includeSetup, reviewed), m.core.nextId, adapter, turns, Record(shown, []),
                    Handoff.Handed(adapter, shown, includeSetup, reviewed, turns))
  {
    var action := RecordHandoff(includeSetup, reviewed);
    var busy := WithWs(m.core, m.core.ws.(busyAction := ActionName(action), activity := NoActivity));
    var whole := Handoff.Handed(adapter, shown, includeSetup, reviewed, turns);
    assert Opening(busy, action).1
        == if shown.revision != reviewed then Settling(true) else NextTarget(busy.ws, Handoff.Targets(includeSetup), 0);
    if shown.revision == reviewed {
      assert TurnsFor(turns, Handoff.Targets(includeSetup)) == turns;
      assert whole == Handoff.Prefixed([], whole);
      PassesOver(busy.ws, adapter, shown, Handoff.Targets(includeSetup), turns, 0, Record(shown, []), whole);
    }
  }

  predicate HasSettled(m: Machine, id: nat) {
    id !in m.pending || (m.pending[id].Op? && (m.pending[id].stage.Settling? || m.pending[id].stage.Finishing?))
  }

  // A hand-off started in any session, with anything else going on between its calls, completes steps
  // exactly as the client's loop does: a part of them while it waits, all of them once it settled, and
  // it settles with an error exactly if the loop fails.
  lemma SessionTakesTheTurns(m: Machine, shown: Plan, includeSetup: bool, reviewed: u32, events: seq<Event>,
                             adapter: Handoff.Adapter, turns: seq<Handoff.Turn>)
    requires Takes(m, shown) && |turns| == |Handoff.Targets(includeSetup)|
    requires Handoff.Honest(adapter) && OwnedBy(shown.profileId, turns)
    requires Served(Clicked(m, includeSetup, reviewed), events, m.core.nextId, adapter, turns, Record(shown, []))
    ensures var whole := Handoff.Handed(adapter, shown, includeSetup, reviewed, turns);
            var id := m.core.nextId;
            var record := Outcome(Clicked(m, includeSetup, reviewed), events, id, adapter, turns, Record(shown, []));
            var after := After(Clicked(m, includeSetup, reviewed), events);
            && record.completions <= whole.completions
            && (HasSettled(after, id) ==> Whole(record, whole))
            && (id in after.pending && after.pending[id].Op? && after.pending[id].stage.Settling? ==>
                  (after.pending[id].stage.failed <==> whole.ending.Failed?))
  {
    ClickFollows(m, shown, includeSetup, reviewed, adapter, turns);
    RunFollows(Clicked(m, includeSetup, reviewed), events, m.core.nextId, adapter, turns, Record(shown, []),
               Handoff.Handed(adapter, shown, includeSetup, reviewed, turns));
  }

  // So the hand-off of a session, too, completes nothing but what was shown for the reviewed revision.
  lemma SessionStaysWithinReview(m: Machine, profile: Profile, shown: Plan, includeSetup: bool, reviewed: u32, events: seq<Event>,
                                 turns: seq<Handoff.Turn>)
    requires Takes(m, shown) && shown.profileId == profile.profileId
    requires |turns| == |Handoff.Targets(includeSetup)| && Handoff.Stages(profile, turns)
    requires Served(Clicked(m, includeSetup, reviewed), events, m.core.nextId, Handoff.BackendAdapter(profile), turns, Record(shown, []))
    ensures var expected := if shown.revision == reviewed then Handoff.Shown(shown, includeSetup) else [];
            var completions :=
              Outcome(Clicked(m, includeSetup, reviewed), events, m.core.nextId, Handoff.BackendAdapter(profile), turns, Record(shown, [])).completions;
            && |completions| <= |expected|
            && forall i :: 0 <= i < |completions| ==> Handoff.Matches(completions[i], expected[i])
  {
    Handoff.BackendIsHonest(profile);
    SessionTakesTheTurns(m, shown, includeSetup, reviewed, events, Handoff.BackendAdapter(profile), turns);
    Handoff.HandoffStaysWithinReview(Handoff.BackendAdapter(profile), profile, shown, includeSetup, reviewed, turns);
  }
}
