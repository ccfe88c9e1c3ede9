// What the steps of the session show: each field of the published state after the intents and replies
// that matter, and exactly when they take hold.
module SessionEffects {
  import opened Prelude
  import opened DeploymentPlan
  import opened SessionModel
  import opened SessionDrafts

  // ---------------------------------------------------------------- the first listing

  // The record picked from a listing is the one last worked on if it is still there, else the first.
  lemma PickMeans(ids: seq<string>, preferred: Option<string>)
    ensures Pick(ids, preferred).None? <==> ids == []
    ensures Pick(ids, preferred).Some? ==> Pick(ids, preferred).value in ids
    ensures preferred.Some? && preferred.value in ids ==> Pick(ids, preferred) == preferred
    ensures ids != [] && (preferred.None? || preferred.value !in ids) ==> Pick(ids, preferred) == Some(ids[0])
  {
  }

  // A listing takes hold exactly if it is still current; it selects the picked record and loads its
  // plan, and only an empty one, or a failed one of the current generation, ends the loading at once.
  lemma ListingTakesHold(core: Core, gen: nat, reply: Reply)
    ensures var effect := Listed(core, gen, reply);
            var after := effect.core.ws;
            && effect.core == core.(ws := after) && effect.spawned.None?
            && (reply.Profiles? && !Current(core, gen) ==> effect == Silent(core))
            && (reply.Profiles? && Current(core, gen) && reply.ids == [] ==>
                  after == core.ws.(selected := "", profilesLoaded := true) && effect.next.None? && effect.calls == [])
            && (reply.Profiles? && Current(core, gen) && reply.ids != [] ==>
                  && after.selected == Pick(reply.ids, core.preferred).value
                  && (after.selected != "" ==>
                        after == core.ws.(selected := after.selected) && effect.next == Some(LoadingPlan(gen, after.selected))
                        && effect.calls == [OtherCall]))
            && (!reply.Profiles? ==>
                  && effect.next.None? && effect.calls == []
                  && after == if gen == core.generation then core.ws.(profilesLoaded := true, activity := Error) else core.ws)
  {
  }

  // ---------------------------------------------------------------- selecting a profile

  // A selection leaves the state of a new session, but for the selection itself, the form and the count
  // of creations; it makes everything under way stale, frees the slot, forgets the reviewed restart, and
  // loads the plan of a profile that has a name.
  lemma SelectionStartsAfresh(m: Machine, profileId: string)
    requires !m.core.disposed
    ensures var after := Next(m, Dispatch(SelectProfile(profileId)));
            var newly := Opened(m.core.preferred, m.core.ws.form).core.ws;
            && after.core.ws == newly.(selected := profileId, creations := m.core.ws.creations)
            && after.core.generation == m.core.generation + 1 && after.core.inflight.None? && after.core.binding.None?
            && (forall id :: id in m.pending && id < m.core.nextId ==> id in after.pending && after.pending[id] == m.pending[id])
            && m.core.nextId in after.pending
            && after.pending[m.core.nextId]
               == (if profileId == "" then PlanLoaded(after.core.generation) else LoadingPlan(after.core.generation, profileId))
            && after.calls == m.calls + if profileId == "" then [] else [OtherCall]
  {
  }

  // ---------------------------------------------------------------- plans and recommendations

  // The write step is the active one of the plan shown.
  predicate WriteIsActive(ws: Workspace) { ws.plan.Some? && ws.plan.value.active == Some(WriteNvstrapsConfiguration) }

  // Looking for a recommendation withdraws the shown one and its confirmation, and asks for a new one
  // exactly while the write step is active, for the plan shown.
  lemma RecommendationIsSought(core: Core)
    ensures var (after, cont) := RecommendationStart(core);
            && after.ws == core.ws.(recommendationStatus := after.ws.recommendationStatus, recommendation := None, confirmed := false)
            && after.ws.recommendationStatus == (if WriteIsActive(core.ws) then Waiting else Idle)
            && (cont.Some? <==> WriteIsActive(core.ws))
            && (cont.Some? ==>
                  cont.value == Recommending(core.generation, core.ws.plan.value.profileId, core.ws.plan.value.revision, core.clock))
            && after.generation == core.generation && after.inflight == core.inflight && after.binding == core.binding
  {
  }

  // A loaded plan is shown exactly if its selection is still the one in force; then a recommendation is
  // sought. A load that failed says so, unless another selection came in between.
  lemma PlanTakesHold(core: Core, gen: nat, profileId: string, reply: Reply)
    ensures var effect := PlanArrived(core, gen, profileId, reply);
            var shows := reply.PlanIs? && Current(core, gen) && core.ws.selected == profileId;
            && effect.next == Some(PlanLoaded(gen))
            && (shows ==>
                  && effect.core.ws.plan == Some(ClientPlan(profileId, reply.revision, reply.active))
                  && effect.core.ws == core.ws.(plan := effect.core.ws.plan, recommendation := None, confirmed := false,
                                                recommendationStatus := if WriteIsActive(effect.core.ws) then Waiting else Idle)
                  && (effect.spawned.Some? <==> WriteIsActive(effect.core.ws)) && |effect.calls| == if effect.spawned.Some? then 1 else 0)
            && (!shows ==>
                  && effect.spawned.None? && effect.calls == []
                  && effect.core == if !reply.PlanIs? && gen == core.generation then core.(ws := core.ws.(activity := Error)) else core)
  {
  }

  // A recommendation is shown exactly if neither a selection nor another plan came in between, and then
  // it is the one asked for that plan; a request that failed says so in its own generation.
  lemma DraftTakesHold(core: Core, cont: Cont, reply: Reply)
    requires cont.Recommending?
    ensures var effect := DraftArrived(core, cont, reply);
            var plan := core.ws.plan;
            var shows := reply.DraftIs? && cont.gen == core.generation && plan.Some?
                         && plan.value.profileId == cont.profileId && plan.value.revision == cont.revision;
            && effect.next.None? && effect.spawned.None? && effect.calls == []
            && (shows ==>
                  effect.core.ws == core.ws.(
                    recommendation := Some(Recommendation(plan.value.profileId, plan.value.revision, Draft(cont.ticket, reply.body))),
                    recommendationStatus := RecommendationStatus.Ready))
            && (!shows && reply.DraftIs? ==> effect.core == core)
            && (!reply.DraftIs? ==>
                  effect.core == if cont.gen == core.generation
                                 then core.(ws := core.ws.(recommendationStatus := RecommendationStatus.Failed, activity := Error)) else core)
  {
  }

  // Asking again seeks a recommendation as a newly loaded plan does: one request, exactly while the write
  // step is active.
  lemma AskingAgain(m: Machine)
    requires !m.core.disposed
    ensures var after := Next(m, Dispatch(RetryRecommendation));
            && after.core.ws == m.core.ws.(recommendation := None, confirmed := false,
                                           recommendationStatus := if WriteIsActive(m.core.ws) then Waiting else Idle)
            && (if WriteIsActive(m.core.ws) then
                  && after.calls == m.calls + [OtherCall] && m.core.nextId in after.pending
                  && after.pending[m.core.nextId] == Recommending(m.core.generation, m.core.ws.plan.value.profileId,
                                                                  m.core.ws.plan.value.revision, m.core.clock)
                else after.calls == m.calls && after.pending == m.pending)
  {
    RecommendationIsSought(m.core);
  }

  // The intents that only fill in the form, close dialogs or give and withdraw the confirmation touch
  // nothing else and start nothing; after disposal no intent touches anything.
  lemma LocalIntents(m: Machine, intent: Intent)
    ensures m.core.disposed ==> Next(m, Dispatch(intent)) == m
    ensures !m.core.disposed && (intent.SetConfirmed? || intent.EditForm? || intent.CloseModals?) ==>
              var after := Next(m, Dispatch(intent));
              && after.pending == m.pending && after.calls == m.calls && after.core.generation == m.core.generation
              && after.core.inflight == m.core.inflight && after.core.binding == m.core.binding
              && after.core.ws == m.core.ws.(
                   confirmed := if intent.SetConfirmed? then intent.value else m.core.ws.confirmed,
                   form := if intent.EditForm? then intent.form else m.core.ws.form,
                   dialogs := if intent.CloseModals? then {} else m.core.ws.dialogs)
  {
  }

  // ---------------------------------------------------------------- starting an operation

  // Which requests never reach the slot: a creation without firmware, a check where none belongs to the
  // active step, and a save without a confirmed recommendation for the very plan shown.
  lemma OfferedMeans(ws: Workspace, action: Action)
    ensures var active := if ws.plan.Some? then ws.plan.value.active else None;
            Offered(ws, action) <==>
              && (action.CreateProfile? ==> action.hasFirmware)
              && (action.RunAutoCheck? ==>
                    active == Some(RebootAfterFirmware) || active == Some(VerifyDriverLoaded)
                    || active == Some(RebootAfterConfiguration) || active == Some(VerifyResizableBar))
              && (action.SaveGuarded? || action.SaveRecommended? ==>
                    && ws.confirmed && ws.plan.Some? && ws.recommendation.Some?
                    && ws.recommendation.value == Recommendation(ws.plan.value.profileId, ws.plan.value.revision, ws.recommendation.value.draft))
  {
  }

  // A save is sent exactly if the request is offered once the click's own confirmation counts, and the
  // slot is free.
  lemma SaveIsSent(m: Machine, action: Action)
    requires action.SaveGuarded? || action.SaveRecommended?
    ensures var ws := m.core.ws;
            var after := Next(m, Dispatch(Start(action)));
            var fits := ws.plan.Some? && ws.recommendation.Some? && (ws.confirmed || action.SaveRecommended?)
                        && ws.recommendation.value.profileId == ws.plan.value.profileId
                        && ws.recommendation.value.planRevision == ws.plan.value.revision;
            if fits && !m.core.disposed && m.core.inflight.None? then
              && |after.calls| == |m.calls| + 1 && after.calls[|m.calls|].SaveCall?
              && after.calls[|m.calls|].draft == ws.recommendation.value.draft
              && after.calls[|m.calls|].profileId == ws.plan.value.profileId && after.calls[|m.calls|].heldRevision == ws.plan.value.revision
              && after.core.inflight == Some(m.core.nextId) && after.core.ws.busyAction == "deployment-config"
            else after.calls == m.calls && after.pending == m.pending && after.core.inflight == m.core.inflight
  {
    StartingIs(m.core, action);
  }

  // The dialog a request closes with its click, whether or not it gets the slot; the restart's only once
  // it does.
  function ClosedAtOnce(action: Action): set<Dialog> {
    if action.ConfirmManual? then {ManualDialog} else if action.RunOther? then action.closes else {}
  }

  // An operation that gets the slot shows its name instead of the last outcome; a check shows itself on
  // its step, a chain its form, and the restart closes its dialog. A request turned away shows nothing.
  lemma OperationShows(core: Core, action: Action)
    ensures var effect := Starting(core, action);
            var asked := if action.SaveRecommended? then core.ws.(confirmed := true) else core.ws;
            var closed := asked.(dialogs := asked.dialogs - ClosedAtOnce(action));
            if effect.spawned.Some? then
              && core.inflight.None? && Offered(closed, action) && effect.spawned.value.Op? && effect.spawned.value.gen == core.generation
              && effect.core.inflight == Some(core.nextId)
              && effect.core.ws == closed.(
                   busyAction := ActionName(action), activity := NoActivity,
                   autoCheck := if action.RunAutoCheck? then Some(AutoCheck(core.ws.plan.value.active.value, false)) else core.ws.autoCheck,
                   form := if action.RunOther? then action.form else core.ws.form,
                   dialogs := if action.RequestReboot? then closed.dialogs - {RebootDialog} else closed.dialogs)
            else effect.core.ws == closed && effect.core.inflight == core.inflight && (core.inflight.Some? || !Offered(closed, action))
  {
    StartingIs(core, action);
  }

  // ---------------------------------------------------------------- replies to operations

  // The checks whose success may open the write step look for its recommendation.
  predicate OpensWrite(advance: Advance) {
    advance == Recommends || advance == Checks(RebootAfterFirmware) || advance == Checks(VerifyDriverLoaded)
  }

  // A receipt is shown exactly if the operation is still current: the new plan under the profile it was
  // asked for; a save withdraws the confirmation, a check is taken off its step, the others say they
  // went well. A failed check is kept on its step; any other failure goes on to be reported.
  lemma ReceiptTakesHold(core: Core, gen: nat, before: ClientPlan, advance: Advance, reply: Reply)
    requires !OpensWrite(advance) || !reply.Receipt? || !Current(core, gen)
    ensures var effect := ReceiptArrived(core, gen, before, advance, reply);
            && effect.spawned.None? && effect.calls == [] && effect.core == core.(ws := effect.core.ws)
            && (!Current(core, gen) ==> effect.core == core)
            && (reply.Receipt? && Current(core, gen) ==>
                  effect.core.ws == core.ws.(
                    plan := Some(ClientPlan(before.profileId, reply.revision, reply.active)), projection := reply.projection,
                    activity := if advance.Checks? then core.ws.activity else Success,
                    confirmed := core.ws.confirmed && !advance.Saves?,
                    autoCheck := if advance.Checks? then None else core.ws.autoCheck))
            && (!reply.Receipt? && Current(core, gen) ==>
                  effect.core.ws == core.ws.(autoCheck := if advance.Checks? then Some(AutoCheck(advance.step, true)) else core.ws.autoCheck))
            && effect.next == Some(Op(gen, Settling(!reply.Receipt? && !advance.Checks?)))
  {
  }

  lemma OpeningReceiptTakesHold(core: Core, gen: nat, before: ClientPlan, advance: Advance, reply: Reply)
    requires OpensWrite(advance) && reply.Receipt? && Current(core, gen)
    ensures var effect := ReceiptArrived(core, gen, before, advance, reply);
            var ws := effect.core.ws;
            && ws.plan == Some(ClientPlan(before.profileId, reply.revision, reply.active)) && ws.projection == reply.projection
            && ws.activity == (if advance.Checks? then core.ws.activity else Success)
            && ws.autoCheck == (if advance.Checks? then None else core.ws.autoCheck)
            && ws.recommendation.None? && !ws.confirmed
            && ws.recommendationStatus == (if WriteIsActive(ws) then Waiting else Idle)
            && (effect.spawned.Some? <==> WriteIsActive(ws))
            && effect.next == Some(Op(gen, AwaitingRecommendation))
  {
  }

  // A created profile is selected and its plan shown, together, exactly if the creation is still current.
  lemma CreationTakesHold(core: Core, gen: nat, reply: Reply)
    ensures var effect := CreatedProfile(core, gen, reply);
            && effect.core == core.(ws := effect.core.ws) && effect.spawned.None? && effect.calls == []
            && (reply.Created? && Current(core, gen) ==>
                  effect.core.ws == core.ws.(
                    selected := reply.profileId, plan := Some(ClientPlan(reply.profileId, reply.revision, reply.active)),
                    creations := core.ws.creations + 1, projection := reply.projection, activity := Success))
            && (!(reply.Created? && Current(core, gen)) ==> effect.core == core)
            && effect.next == Some(Op(gen, Settling(!reply.Created?)))
  {
  }

  // A chain of calls goes on only while there are more and, if guarded, only while current; what each
  // reply brings is shown exactly if it is.
  lemma ChainGoesOn(core: Core, gen: nat, left: nat, guarded: bool, reply: Reply)
    ensures var effect := OtherAnswered(core, gen, left, guarded, reply);
            && (effect.calls == [OtherCall] <==> reply.Payload? && left > 1 && (guarded ==> Current(core, gen)))
            && (if effect.calls == [] then effect.next.Some? && effect.next.value.Op? && effect.next.value.stage.Settling?
                else effect.calls == [OtherCall] && left > 1 && effect.next == Some(Op(gen, Other(left - 1, guarded))))
            && (!Current(core, gen) || !reply.Payload? ==> effect.core == core)
            && (reply.Payload? && Current(core, gen) ==>
                  effect.core.ws == core.ws.(
                    form := reply.form, projection := reply.projection, dialogs := core.ws.dialogs + reply.opens,
                    activity := if left <= 1 && !reply.throws then Success else core.ws.activity))
            && (effect.next == Some(Op(gen, Settling(true))) <==> (!reply.Payload? && !reply.Nothing?) || (reply.Payload? && left <= 1 && reply.throws))
  {
  }

  // An operation that failed says so exactly if it is still current, and then comes to its end.
  lemma FailureIsShown(core: Core, id: nat, gen: nat, failed: bool, reply: Reply)
    ensures var effect := OpResumed(core, id, gen, Settling(failed), reply);
            && effect.next == Some(Op(gen, Finishing)) && effect.spawned.None? && effect.calls == []
            && effect.core == if failed && Current(core, gen) then core.(ws := core.ws.(activity := Error)) else core
  {
  }

  // Confirming the restart, too, is reported exactly while current.
  lemma RestartIsReported(core: Core, id: nat, gen: nat, reply: Reply)
    ensures var effect := OpResumed(core, id, gen, Acknowledging, reply);
            && effect.next == Some(Op(gen, Settling(reply.Rejected?)))
            && effect.core == if !reply.Rejected? && Current(core, gen) then core.(ws := core.ws.(activity := Success)) else core
  {
  }
}
