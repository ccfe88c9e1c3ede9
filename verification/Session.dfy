// The session as the client runs it: fields that its intents and the replies to its calls update in
// place. Every stretch of code between two awaits is proved to be the machine's step.
module Session {
  import opened Prelude
  import opened DeploymentPlan
  import opened SessionModel

  class DeploymentSession {
    const preferredProfileId: Option<string>
    var disposed: bool
    var generation: nat
    var inflight: Option<nat>
    var state: Workspace
    var rebootBinding: Option<RebootBinding>
    // The continuations still awaited, the calls made, and the book of recommendation requests and
    // confirmations.
    var pending: map<nat, Cont>
    var calls: seq<Call>
    var nextId: nat
    var clock: nat
    var confirmedAt: nat
    var requests: map<nat, (string, nat)>
    var reviewed: Option<Draft>
    var takenThen: nat
    var taken: nat

    constructor (preferred: Option<string>, form: nat)
      ensures Value() == Opened(preferred, form)
    {
      preferredProfileId := preferred;
      disposed, generation, inflight, rebootBinding := false, 1, None, None;
      state := Workspace("", None, false, 0, None, Idle, false, None, {}, None, "", NoActivity, form, 0);
      pending, calls := map[0 := Listing(1)], [OtherCall];
      nextId, clock, confirmedAt, requests := 1, 0, 0, map[];
      reviewed, takenThen, taken := None, 0, 0;
    }

    function CoreNow(): Core
      reads this
    {
      Core(disposed, generation, inflight, state, rebootBinding, preferredProfileId, nextId, clock, confirmedAt, requests,
           reviewed, takenThen, taken)
    }

    function Value(): Machine
      reads this
    {
      Machine(CoreNow(), pending, calls)
    }

    predicate IsCurrent(gen: nat)
      reads this
    {
      !disposed && gen == generation
    }

    // ---------------------------------------------------------------- loading

    method LoadRecommendation() returns (waits: Option<Cont>)
      modifies this
      ensures (CoreNow(), waits) == RecommendationStart(old(CoreNow()))
      ensures pending == old(pending) && calls == old(calls)
    {
      if state.plan.None? || state.plan.value.active != Some(WriteNvstrapsConfiguration) {
        state := state.(recommendationStatus := Idle, recommendation := None, confirmed := false);
        return None;
      }
      var plan := state.plan.value;
      state := state.(recommendationStatus := Waiting, recommendation := None, confirmed := false);
      waits := Some(Recommending(generation, plan.profileId, plan.revision, clock));
      requests := requests[clock := (plan.profileId, plan.revision)];
      clock := clock + 1;
      nextId := nextId + 1;
    }

    method LoadPlan(profileId: string, gen: nat) returns (waits: Cont, made: seq<Call>)
      modifies this
      ensures (CoreNow(), waits, made) == PlanStart(old(CoreNow()), gen, profileId)
      ensures pending == old(pending) && calls == old(calls)
    {
      if profileId == "" {
        state := state.(plan := None);
        return PlanLoaded(gen), [];
      }
      return LoadingPlan(gen, profileId), [OtherCall];
    }

    method LeaveProfile(profileId: string)
      modifies this
      ensures CoreNow() == LeavingFor(old(CoreNow()), profileId)
      ensures pending == old(pending) && calls == old(calls)
    {
      rebootBinding := None;
      generation := generation + 1;
      inflight := None;
      state := ResetProjection(state, profileId).(profilesLoaded := false);
    }

    method SelectProfile(profileId: string) returns (waits: Cont, made: seq<Call>)
      modifies this
      ensures Effect(CoreNow(), None, Some(waits), made) == Selecting(old(CoreNow()), profileId)
      ensures pending == old(pending) && calls == old(calls)
    {
      LeaveProfile(profileId);
      waits, made := LoadPlan(profileId, generation);
      nextId := nextId + 1;
    }

    method ProfilesListed(gen: nat, reply: Reply) returns (next: Option<Cont>, made: seq<Call>)
      modifies this
      ensures Effect(CoreNow(), next, None, made) == Listed(old(CoreNow()), gen, reply)
      ensures pending == old(pending) && calls == old(calls)
    {
      if !reply.Profiles? {
        if gen == generation { state := state.(profilesLoaded := true, activity := Error); }
        return None, [];
      }
      if !IsCurrent(gen) { return None, []; }
      var selected := Pick(reply.ids, preferredProfileId);
      state := state.(selected := if selected.None? then "" else selected.value);
      if selected.None? {
        state := state.(profilesLoaded := true);
        return None, [];
      }
      var waits, loads := LoadPlan(selected.value, gen);
      return Some(waits), loads;
    }

    method PlanReplied(gen: nat, profileId: string, reply: Reply) returns (next: Option<Cont>, spawned: Option<Cont>, made: seq<Call>)
      modifies this
      ensures Effect(CoreNow(), next, spawned, made) == PlanArrived(old(CoreNow()), gen, profileId, reply)
      ensures pending == old(pending) && calls == old(calls)
    {
      next, spawned, made := Some(PlanLoaded(gen)), None, [];
      if reply.PlanIs? {
        if !IsCurrent(gen) || state.selected != profileId { return; }
        state := state.(plan := Some(ClientPlan(profileId, reply.revision, reply.active)));
        spawned := LoadRecommendation();
        if spawned.Some? { made := [OtherCall]; }
      } else if gen == generation {
        state := state.(activity := Error);
      }
    }

    method DraftReplied(cont: Cont, reply: Reply)
      requires cont.Recommending?
      modifies this
      ensures Effect(CoreNow(), None, None, []) == DraftArrived(old(CoreNow()), cont, reply)
      ensures pending == old(pending) && calls == old(calls)
    {
      if reply.DraftIs? {
        if cont.gen != generation || state.plan.None? { return; }
        if state.plan.value.profileId != cont.profileId || state.plan.value.revision != cont.revision { return; }
        state := state.(recommendation := Some(Recommendation(cont.profileId, cont.revision, Draft(cont.ticket, reply.body))),
                        recommendationStatus := RecommendationStatus.Ready);
        taken := taken + 1;
      } else if cont.gen == generation {
        state := state.(recommendationStatus := Failed, activity := Error);
      }
    }

    // ---------------------------------------------------------------- operations

    method Confirm()
      modifies this
      ensures CoreNow() == Confirming(old(CoreNow()))
      ensures pending == old(pending) && calls == old(calls)
    {
      state := state.(confirmed := true);
      reviewed, takenThen := DraftShown(state), taken;
      confirmedAt := clock;
      clock := clock + 1;
    }

    // What an intent patches before it asks for the slot.
    method Announce(action: Action)
      modifies this
      ensures CoreNow() == BeforeRun(old(CoreNow()), action)
      ensures pending == old(pending) && calls == old(calls)
    {
      match action {
        case ConfirmManual => state := state.(dialogs := state.dialogs - {ManualDialog});
        case SaveRecommended => Confirm();
        case RunOther(_, _, _, _, closes) => state := state.(dialogs := state.dialogs - closes);
        case _ =>
      }
    }

    // One operation at a time: a second one is turned away while the slot is taken.
    method Run(action: Action) returns (waits: Option<Cont>, made: seq<Call>)
      modifies this
      ensures Effect(CoreNow(), None, waits, made) == Starting(old(CoreNow()), action)
      ensures pending == old(pending) && calls == old(calls)
    {
      Announce(action);
      if !Offered(state, action) { return None, []; }
      if inflight.Some? { return None, []; }
      state := state.(busyAction := ActionName(action), activity := NoActivity);
      var (ws, stage, first) := Opening(CoreNow(), action);
      state := ws;
      inflight := Some(nextId);
      nextId := nextId + 1;
      return Some(Op(generation, stage)), first;
    }

    method ReceiptReplied(gen: nat, before: ClientPlan, advance: Advance, reply: Reply)
      returns (next: Stage, spawned: Option<Cont>, made: seq<Call>)
      modifies this
      ensures Effect(CoreNow(), Some(Op(gen, next)), spawned, made) == ReceiptArrived(old(CoreNow()), gen, before, advance, reply)
      ensures pending == old(pending) && calls == old(calls)
    {
      spawned, made := None, [];
      if !reply.Receipt? {
        if !advance.Checks? { return Settling(true), spawned, made; }
        if IsCurrent(gen) { state := state.(autoCheck := Some(AutoCheck(advance.step, true))); }
        return Settling(false), spawned, made;
      }
      if IsCurrent(gen) { state := ReceiptPatch(state, before, advance, reply); }
      next := Settling(false);
      if LoadsRecommendation(advance) && IsCurrent(gen) {
        spawned := LoadRecommendation();
        next := AwaitingRecommendation;
        if spawned.Some? { made := [OtherCall]; }
      }
    }

    method CreationReplied(gen: nat, reply: Reply) returns (next: Stage)
      modifies this
      ensures Effect(CoreNow(), Some(Op(gen, next)), None, []) == CreatedProfile(old(CoreNow()), gen, reply)
      ensures pending == old(pending) && calls == old(calls)
    {
      if !reply.Created? { return Settling(true); }
      if IsCurrent(gen) {
        state := state.(selected := reply.profileId, plan := Some(ClientPlan(reply.profileId, reply.revision, reply.active)),
                        creations := state.creations + 1, projection := reply.projection);
        state := state.(activity := Success);
      }
      return Settling(false);
    }

    method RebootPreviewReplied(gen: nat, shown: ClientPlan, reply: Reply) returns (next: Stage)
      modifies this
      ensures Effect(CoreNow(), Some(Op(gen, next)), None, []) == RebootPreviewed(old(CoreNow()), gen, shown, reply)
      ensures pending == old(pending) && calls == old(calls)
    {
      if !reply.RebootDetails? || !reply.fits || shown.active.None? { return Settling(true); }
      if !IsCurrent(gen) { return Settling(false); }
      rebootBinding := Some(RebootBinding(shown.profileId, shown.revision, shown.active.value, reply.token));
      state := state.(rebootToken := Some(reply.token), dialogs := state.dialogs + {RebootDialog}, projection := reply.projection);
      state := state.(activity := Success);
      return Settling(false);
    }

    method OtherReplied(gen: nat, left: nat, guarded: bool, reply: Reply) returns (next: Stage, made: seq<Call>)
      modifies this
      ensures Effect(CoreNow(), Some(Op(gen, next)), None, made) == OtherAnswered(old(CoreNow()), gen, left, guarded, reply)
      ensures pending == old(pending) && calls == old(calls)
    {
      if reply.Nothing? { return Settling(false), []; }
      if !reply.Payload? { return Settling(true), []; }
      if left > 1 && guarded && !IsCurrent(gen) { return Settling(false), []; }
      if IsCurrent(gen) {
        state := state.(form := reply.form, projection := reply.projection, dialogs := state.dialogs + reply.opens);
      }
      if left > 1 { return Other(left - 1, guarded), [OtherCall]; }
      if reply.throws { return Settling(true), []; }
      if IsCurrent(gen) { state := state.(activity := Success); }
      return Settling(false), [];
    }

    method HandoffPreviewReplied(gen: nat, targets: seq<StepId>, before: ClientPlan, recorded: nat, reply: Reply)
      returns (next: Stage, made: seq<Call>)
      modifies this
      ensures Effect(CoreNow(), Some(Op(gen, next)), None, made) == HandoffPreviewed(old(CoreNow()), gen, targets, before, recorded, reply)
      ensures pending == old(pending) && calls == old(calls)
    {
      if !reply.PreviewIs? || !reply.fits { return Settling(true), []; }
      if !IsCurrent(gen) { return Settling(false), []; }
      return HandoffConfirm(targets, before, recorded), [ConfirmCall(before.profileId)];
    }

    method HandoffReceiptReplied(gen: nat, targets: seq<StepId>, before: ClientPlan, recorded: nat, reply: Reply)
      returns (next: Stage, made: seq<Call>)
      modifies this
      ensures Effect(CoreNow(), Some(Op(gen, next)), None, made) == HandoffConfirmed(old(CoreNow()), gen, targets, before, recorded, reply)
      ensures pending == old(pending) && calls == old(calls)
    {
      if !reply.Receipt? { return Settling(true), []; }
      if !IsCurrent(gen) { return Settling(false), []; }
      state := state.(plan := Some(ClientPlan(before.profileId, reply.revision, reply.active)));
      next := NextTarget(state, if targets == [] then [] else targets[1..], recorded + 1);
      made := CallsOf(next);
      if next == Settling(false) { state := state.(activity := Success); }
    }

    // The operation's `finally`: it frees the slot only if the slot is still its own.
    method Finally(id: nat)
      modifies this
      ensures Effect(CoreNow(), None, None, []) == Finished(old(CoreNow()), id)
      ensures pending == old(pending) && calls == old(calls)
    {
      if inflight == Some(id) {
        inflight := None;
        state := state.(busyAction := "");
      }
    }

    method OperationReplied(id: nat, gen: nat, stage: Stage, reply: Reply)
      returns (next: Option<Cont>, spawned: Option<Cont>, made: seq<Call>)
      modifies this
      ensures Effect(CoreNow(), next, spawned, made) == OpResumed(old(CoreNow()), id, gen, stage, reply)
      ensures pending == old(pending) && calls == old(calls)
    {
      var goesOn: Stage := Settling(false);
      spawned, made := None, [];
      match stage {
        case Advancing(before, advance) => goesOn, spawned, made := ReceiptReplied(gen, before, advance, reply);
        case Creating => goesOn := CreationReplied(gen, reply);
        case PreviewingReboot(shown) => goesOn := RebootPreviewReplied(gen, shown, reply);
        case Acknowledging =>
          if reply.Rejected? { goesOn := Settling(true); } else if IsCurrent(gen) { state := state.(activity := Success); }
        case Other(left, guarded) => goesOn, made := OtherReplied(gen, left, guarded, reply);
        case HandoffPreview(targets, before, recorded) => goesOn, made := HandoffPreviewReplied(gen, targets, before, recorded, reply);
        case HandoffConfirm(targets, before, recorded) => goesOn, made := HandoffReceiptReplied(gen, targets, before, recorded, reply);
        case AwaitingRecommendation =>
        case Settling(failed) =>
          if failed && IsCurrent(gen) { state := state.(activity := Error); }
          goesOn := Finishing;
        case Finishing =>
          Finally(id);
          return None, None, [];
      }
      next := Some(Op(gen, goesOn));
    }

    // ---------------------------------------------------------------- the session's own steps

    method Dispatch(intent: Intent)
      modifies this
      ensures Value() == Next(old(Value()), Event.Dispatch(intent))
    {
      if disposed { return; }
      var spawned: Option<Cont>, made: seq<Call> := None, [];
      var freshId := nextId;
      match intent {
        case SelectProfile(profileId) =>
          var waits;
          waits, made := SelectProfile(profileId);
          spawned := Some(waits);
        case SetConfirmed(value) =>
          if value { Confirm(); } else { state := state.(confirmed := false); }
        case EditForm(form) => state := state.(form := form);
        case CloseModals => state := state.(dialogs := {});
        case RetryRecommendation =>
          spawned := LoadRecommendation();
          if spawned.Some? { made := [OtherCall]; }
        case Start(action) => spawned, made := Run(action);
      }
      if spawned.Some? { pending := pending[freshId := spawned.value]; }
      calls := calls + made;
    }

    // What is resumed, whatever it is.
    method Continue(id: nat, cont: Cont, reply: Reply) returns (next: Option<Cont>, spawned: Option<Cont>, made: seq<Call>)
      modifies this
      ensures Effect(CoreNow(), next, spawned, made) == Resumed(old(CoreNow()), id, cont, reply)
      ensures pending == old(pending) && calls == old(calls)
    {
      next, spawned, made := None, None, [];
      match cont {
        case Listing(gen) => next, made := ProfilesListed(gen, reply);
        case LoadingPlan(gen, profileId) => next, spawned, made := PlanReplied(gen, profileId, reply);
        case PlanLoaded(gen) =>
          if gen == generation { state := state.(profilesLoaded := true); }
        case Recommending(_, _, _, _) => DraftReplied(cont, reply);
        case Op(gen, stage) => next, spawned, made := OperationReplied(id, gen, stage, reply);
      }
    }

    method Reply(id: nat, reply: Reply)
      requires id in pending
      modifies this
      ensures Value() == Next(old(Value()), Resume(id, reply))
    {
      var freshId := nextId;
      var next, spawned, made := Continue(id, pending[id], reply);
      pending := Kept(pending, id, next);
      if spawned.Some? { pending := pending[freshId := spawned.value]; }
      calls := calls + made;
    }

    method Dispose()
      modifies this
      ensures Value() == Next(old(Value()), Event.Dispose)
    {
      disposed := true;
      generation := generation + 1;
    }
  }
}
