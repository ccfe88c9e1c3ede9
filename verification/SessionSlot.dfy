// The one-operation slot of the session, and the replies that come too late.
module SessionSlot {
  import opened Prelude
  import opened DeploymentPlan
  import opened SessionModel

  function GenOf(cont: Cont): nat { cont.gen }

  predicate IsCurrent(core: Core, cont: Cont) { Current(core, GenOf(cont)) }

  // ---------------------------------------------------------------- the slot

  // Names still to come are free, nothing waits for a later generation, and once disposed nothing
  // waiting is current.
  predicate Orderly(m: Machine) {
    forall id :: id in m.pending ==>
      && id < m.core.nextId
      && GenOf(m.pending[id]) <= m.core.generation
      && (m.core.disposed ==> GenOf(m.pending[id]) < m.core.generation)
  }

  predicate IsCurrentOp(m: Machine, id: nat) {
    id in m.pending && m.pending[id].Op? && GenOf(m.pending[id]) == m.core.generation
  }

  // Until disposal: a current operation is the one in the slot, the slot holds a current operation,
  // and the slot is taken exactly while an action is shown as busy.
  ghost predicate OneSlot(m: Machine) {
    !m.core.disposed ==>
      && (forall id: nat :: IsCurrentOp(m, id) ==> m.core.inflight == Some(id))
      && (m.core.inflight.Some? ==> IsCurrentOp(m, m.core.inflight.value))
      && (m.core.inflight.Some? <==> m.core.ws.busyAction != "")
  }

  // What resuming something leaves of the slot: only a `finally` of the operation in it frees it.
  predicate KeepsSlot(core: Core, after: Core) {
    && after.generation == core.generation && after.disposed == core.disposed && after.preferred == core.preferred
    && after.inflight == core.inflight && after.ws.busyAction == core.ws.busyAction
  }

  predicate SpawnsRequest(core: Core, effect: Effect) {
    if effect.spawned.Some? then
      !core.disposed && effect.spawned.value.Recommending? && GenOf(effect.spawned.value) == core.generation && effect.core.nextId == core.nextId + 1
    else effect.core.nextId == core.nextId
  }

  predicate GoesOn(core: Core, cont: Cont, effect: Effect) {
    && KeepsSlot(core, effect.core) && SpawnsRequest(core, effect)
    && (effect.next.Some? ==> GenOf(effect.next.value) == GenOf(cont) && (effect.next.value.Op? <==> cont.Op?))
    && (cont.Op? ==> effect.next.Some?)
  }

  lemma ListedGoesOn(core: Core, gen: nat, reply: Reply)
    ensures GoesOn(core, Listing(gen), Listed(core, gen, reply))
  {
  }

  lemma PlanArrivedGoesOn(core: Core, gen: nat, profileId: string, reply: Reply)
    ensures GoesOn(core, LoadingPlan(gen, profileId), PlanArrived(core, gen, profileId, reply))
  {
  }

  lemma AdvancedGoesOn(core: Core, gen: nat, before: ClientPlan, advance: Advance, reply: Reply)
    ensures GoesOn(core, Op(gen, Advancing(before, advance)), ReceiptArrived(core, gen, before, advance, reply))
  {
  }

  lemma OpGoesOn(core: Core, id: nat, gen: nat, stage: Stage, reply: Reply)
    requires !stage.Finishing?
    ensures GoesOn(core, Op(gen, stage), OpResumed(core, id, gen, stage, reply))
  {
    match stage
    case Advancing(before, advance) => AdvancedGoesOn(core, gen, before, advance, reply);
    case _ =>
  }

  lemma ResumedGoesOn(core: Core, id: nat, cont: Cont, reply: Reply)
    requires !(cont.Op? && cont.stage.Finishing?)
    ensures GoesOn(core, cont, Resumed(core, id, cont, reply))
  {
    match cont
    case Listing(gen) => ListedGoesOn(core, gen, reply);
    case LoadingPlan(gen, profileId) => PlanArrivedGoesOn(core, gen, profileId, reply);
    case PlanLoaded(gen) =>
    case Recommending(_, _, _, _) =>
    case Op(gen, stage) => OpGoesOn(core, id, gen, stage, reply);
  }

  // What an intent leaves of the slot.
  predicate Dispatches(core: Core, effect: Effect) {
    var after := effect.core;
    && after.disposed == core.disposed && after.preferred == core.preferred && effect.next.None?
    && after.nextId == core.nextId + (if effect.spawned.Some? then 1 else 0)
    && (effect.spawned.Some? ==> GenOf(effect.spawned.value) == after.generation)
    && if after.generation == core.generation then
         if effect.spawned.Some? && effect.spawned.value.Op? then
           core.inflight.None? && after.inflight == Some(core.nextId) && after.ws.busyAction != ""
         else after.inflight == core.inflight && after.ws.busyAction == core.ws.busyAction
       else
         && after.generation == core.generation + 1 && after.inflight.None? && after.ws.busyAction == ""
         && !(effect.spawned.Some? && effect.spawned.value.Op?)
  }

  lemma OpeningKeeps(core: Core, action: Action)
    requires Offered(core.ws, action)
    ensures Opening(core, action).0.busyAction == core.ws.busyAction
  {
  }

  lemma StartingDispatches(core: Core, action: Action)
    ensures Dispatches(core, Starting(core, action))
  {
    var ready := BeforeRun(core, action);
    if Offered(ready.ws, action) && ready.inflight.None? {
      OpeningKeeps(WithWs(ready, ready.ws.(busyAction := ActionName(action), activity := NoActivity)), action);
    }
  }

  lemma IntentDispatches(core: Core, intent: Intent)
    ensures Dispatches(core, Dispatched(core, intent))
  {
    if intent.Start? {
      StartingDispatches(core, intent.action);
    }
  }

  lemma AppliedKeepsSlot(m: Machine, id: nat, effect: Effect)
    requires Orderly(m) && OneSlot(m) && id in m.pending && GoesOn(m.core, m.pending[id], effect)
    ensures Orderly(Applied(m, id, effect)) && OneSlot(Applied(m, id, effect))
  {
  }

  lemma FinishedKeepsSlot(m: Machine, id: nat)
    requires Orderly(m) && OneSlot(m) && id in m.pending && m.pending[id].Op?
    ensures Orderly(Applied(m, id, Finished(m.core, id))) && OneSlot(Applied(m, id, Finished(m.core, id)))
  {
    assert Applied(m, id, Finished(m.core, id)).pending == m.pending - {id};
  }

  lemma ResumeKeepsSlot(m: Machine, id: nat, reply: Reply)
    requires Orderly(m) && OneSlot(m) && id in m.pending
    ensures Orderly(Next(m, Resume(id, reply))) && OneSlot(Next(m, Resume(id, reply)))
  {
    var cont := m.pending[id];
    if cont.Op? && cont.stage.Finishing? {
      FinishedKeepsSlot(m, id);
    } else {
      ResumedGoesOn(m.core, id, cont, reply);
      AppliedKeepsSlot(m, id, Resumed(m.core, id, cont, reply));
    }
  }

  lemma EventKeepsSlot(m: Machine, event: Event)
    requires Orderly(m) && OneSlot(m)
    ensures Orderly(Next(m, event)) && OneSlot(Next(m, event))
  {
    match event
    case Dispatch(intent) => IntentDispatches(m.core, intent);
    case Resume(id, reply) =>
      if id in m.pending {
        ResumeKeepsSlot(m, id, reply);
      }
    case Dispose =>
  }

  // Until disposal at most one operation of the current generation is waiting, it is exactly the one
  // in the slot, and the slot is taken exactly while an action is shown as busy, in whatever order
  // replies and endings come.
  lemma {:induction false} SlotOverRun(m: Machine, events: seq<Event>)
    requires Orderly(m) && OneSlot(m)
    ensures Orderly(After(m, events)) && OneSlot(After(m, events))
    decreases |events|
  {
    if events != [] {
      EventKeepsSlot(m, events[0]);
      SlotOverRun(Next(m, events[0]), events[1..]);
    }
  }

  lemma OpenedHasSlot(preferred: Option<string>, form: nat)
    ensures Orderly(Opened(preferred, form)) && OneSlot(Opened(preferred, form))
  {
  }

  // ---------------------------------------------------------------- late replies

  // Nothing but what the activity itself waits for next; the calls are looked at separately.
  predicate Inert(core: Core, cont: Cont, effect: Effect) {
    && effect.core == core && effect.spawned.None?
    && (effect.next.Some? ==> GenOf(effect.next.value) == GenOf(cont))
  }

  predicate MakesNoCall(cont: Cont) {
    cont.Op? ==> !cont.stage.Other?
  }

  lemma LateOpIsInert(core: Core, id: nat, gen: nat, stage: Stage, reply: Reply)
    requires !Current(core, gen) && !stage.Finishing?
    ensures Inert(core, Op(gen, stage), OpResumed(core, id, gen, stage, reply))
    ensures !stage.Other? ==> OpResumed(core, id, gen, stage, reply).calls == []
  {
  }

  // A reply to work started before the latest profile selection or disposal: nothing in the session
  // state or the reboot binding changes, nothing new is started, and unless the work is one of the
  // unlooked-into chains no further adapter call is made; a hand-off in particular makes none.
  lemma LateReplyIsInert(m: Machine, id: nat, reply: Reply)
    requires Orderly(m) && id in m.pending && !IsCurrent(m.core, m.pending[id])
    requires !(m.pending[id].Op? && m.pending[id].stage.Finishing?)
    ensures Inert(m.core, m.pending[id], Resumed(m.core, id, m.pending[id], reply))
    ensures Next(m, Resume(id, reply)).core == m.core
    ensures MakesNoCall(m.pending[id]) ==> Next(m, Resume(id, reply)).calls == m.calls
  {
    var cont := m.pending[id];
    if cont.Op? {
      LateOpIsInert(m.core, id, cont.gen, cont.stage, reply);
    }
  }

  // A late `finally` changes nothing before disposal; after it, it may free the slot and the busy mark.
  lemma LateFinallyIsInert(m: Machine, id: nat, reply: Reply)
    requires Orderly(m) && OneSlot(m) && id in m.pending && !IsCurrent(m.core, m.pending[id])
    requires m.pending[id].Op? && m.pending[id].stage.Finishing?
    ensures var after := Next(m, Resume(id, reply));
            && (!m.core.disposed ==> after.core == m.core)
            && after.core == m.core.(inflight := after.core.inflight, ws := m.core.ws.(busyAction := after.core.ws.busyAction))
            && (after.core != m.core ==> m.core.disposed && m.core.inflight == Some(id) && after.core.inflight.None? && after.core.ws.busyAction == "")
            && after.calls == m.calls
  {
  }

  // ---------------------------------------------------------------- runs without the late replies

  function CurrentAt(m: Machine, id: nat): Option<Cont> {
    if id in m.pending && IsCurrent(m.core, m.pending[id]) then Some(m.pending[id]) else None
  }

  function Unslotted(core: Core): Core { core.(inflight := None, ws := core.ws.(busyAction := "")) }

  // Two machines that differ at most in what waits in vain and, once disposed, in the slot and the
  // busy mark.
  ghost predicate Alike(m: Machine, n: Machine) {
    && m.core.disposed == n.core.disposed
    && (if m.core.disposed then Unslotted(m.core) == Unslotted(n.core) else m.core == n.core)
    && forall id: nat :: CurrentAt(m, id) == CurrentAt(n, id)
  }

  predicate IsLate(m: Machine, event: Event) {
    event.Resume? && event.id in m.pending && !IsCurrent(m.core, m.pending[event.id])
  }

  // The events of a run without the replies that came too late when they came.
  function InTime(m: Machine, events: seq<Event>): seq<Event>
    decreases |events|
  {
    if events == [] then []
    else (if IsLate(m, events[0]) then [] else [events[0]]) + InTime(Next(m, events[0]), events[1..])
  }

  lemma AppliedInert(m: Machine, id: nat, effect: Effect)
    requires id in m.pending && !IsCurrent(m.core, m.pending[id]) && Inert(m.core, m.pending[id], effect)
    ensures Alike(Applied(m, id, effect), m)
  {
    forall other: nat
      ensures CurrentAt(Applied(m, id, effect), other) == CurrentAt(m, other)
    {
    }
  }

  lemma LateChangesNothing(m: Machine, event: Event)
    requires Orderly(m) && OneSlot(m) && IsLate(m, event)
    ensures Alike(Next(m, event), m)
  {
    var cont := m.pending[event.id];
    if cont.Op? && cont.stage.Finishing? {
      LateFinallyIsInert(m, event.id, event.reply);
      FinallyIsAlike(m, event.id);
    } else {
      LateReplyIsInert(m, event.id, event.reply);
      AppliedInert(m, event.id, Resumed(m.core, event.id, cont, event.reply));
    }
  }

  lemma FinallyIsAlike(m: Machine, id: nat)
    requires id in m.pending && !IsCurrent(m.core, m.pending[id])
    requires !m.core.disposed ==> Finished(m.core, id).core == m.core
    ensures Alike(Applied(m, id, Finished(m.core, id)), m)
  {
    forall other: nat
      ensures CurrentAt(Applied(m, id, Finished(m.core, id)), other) == CurrentAt(m, other)
    {
    }
  }

  lemma AppliedAlike(m: Machine, n: Machine, id: nat, effect: Effect)
    requires Alike(m, n) && !m.core.disposed && Orderly(m) && Orderly(n)
    requires id in m.pending && id in n.pending
    requires effect.core.disposed == m.core.disposed && effect.core.generation == m.core.generation
    ensures Alike(Applied(m, id, effect), Applied(n, id, effect))
  {
    forall other: nat
      ensures CurrentAt(Applied(m, id, effect), other) == CurrentAt(Applied(n, id, effect), other)
    {
      assert CurrentAt(m, other) == CurrentAt(n, other);
    }
  }

  // A dispatch's effect may also move the generation on; then nothing that waited before is current.
  lemma SpawnAlike(m: Machine, n: Machine, effect: Effect)
    requires Alike(m, n) && !m.core.disposed && Orderly(m) && Orderly(n)
    requires effect.core.disposed == m.core.disposed
    requires effect.core.generation == m.core.generation || effect.core.generation == m.core.generation + 1
    ensures Alike(Machine(effect.core, Spawned(m.pending, m.core.nextId, effect.spawned), m.calls + effect.calls),
                  Machine(effect.core, Spawned(n.pending, n.core.nextId, effect.spawned), n.calls + effect.calls))
  {
    var a := Machine(effect.core, Spawned(m.pending, m.core.nextId, effect.spawned), m.calls + effect.calls);
    var b := Machine(effect.core, Spawned(n.pending, n.core.nextId, effect.spawned), n.calls + effect.calls);
    forall other: nat
      ensures CurrentAt(a, other) == CurrentAt(b, other)
    {
      assert CurrentAt(m, other) == CurrentAt(n, other);
    }
  }

  lemma ResumeStaysAlike(m: Machine, n: Machine, id: nat, reply: Reply)
    requires Orderly(m) && OneSlot(m) && Orderly(n) && OneSlot(n) && Alike(m, n) && !IsLate(m, Resume(id, reply))
    ensures Alike(Next(m, Resume(id, reply)), Next(n, Resume(id, reply)))
  {
    assert CurrentAt(m, id) == CurrentAt(n, id);
    if id in m.pending {
      var cont := m.pending[id];
      if !(cont.Op? && cont.stage.Finishing?) {
        ResumedGoesOn(m.core, id, cont, reply);
      }
      AppliedAlike(m, n, id, Resumed(m.core, id, cont, reply));
    } else if id in n.pending {
      LateChangesNothing(n, Resume(id, reply));
      AlikeFurther(m, n, Next(n, Resume(id, reply)));
    }
  }

  lemma AlikeFurther(a: Machine, b: Machine, c: Machine)
    requires Alike(a, b) && Alike(c, b)
    ensures Alike(a, c)
  {
    forall id: nat
      ensures CurrentAt(a, id) == CurrentAt(c, id)
    {
      assert CurrentAt(a, id) == CurrentAt(b, id) && CurrentAt(c, id) == CurrentAt(b, id);
    }
  }

  lemma DisposeStaysAlike(m: Machine, n: Machine)
    requires Orderly(m) && Orderly(n) && Alike(m, n)
    ensures Alike(Next(m, Dispose), Next(n, Dispose))
  {
    forall id: nat
      ensures CurrentAt(Next(m, Dispose), id) == CurrentAt(Next(n, Dispose), id)
    {
    }
  }

  lemma DispatchStaysAlike(m: Machine, n: Machine, intent: Intent)
    requires Orderly(m) && Orderly(n) && Alike(m, n)
    ensures Alike(Next(m, Dispatch(intent)), Next(n, Dispatch(intent)))
  {
    if !m.core.disposed {
      IntentDispatches(m.core, intent);
      SpawnAlike(m, n, Dispatched(m.core, intent));
    }
  }

  lemma EventStaysAlike(m: Machine, n: Machine, event: Event)
    requires Orderly(m) && OneSlot(m) && Orderly(n) && OneSlot(n) && Alike(m, n) && !IsLate(m, event)
    ensures Alike(Next(m, event), Next(n, event))
  {
    match event
    case Dispatch(intent) => DispatchStaysAlike(m, n, intent);
    case Resume(id, reply) => ResumeStaysAlike(m, n, id, reply);
    case Dispose => DisposeStaysAlike(m, n);
  }

  lemma FirstInTime(m: Machine, n: Machine, events: seq<Event>)
    requires events != []
    ensures var rest := InTime(Next(m, events[0]), events[1..]);
            if IsLate(m, events[0]) then InTime(m, events) == rest
            else After(n, InTime(m, events)) == After(Next(n, events[0]), rest)
  {
    var rest := InTime(Next(m, events[0]), events[1..]);
    assert [] + rest == rest;
    assert ([events[0]] + rest)[1..] == rest;
  }

  // Late replies can be left out of any run: the session ends in the same state, with the same reboot
  // binding and the same current work, as if they had never arrived.
  lemma {:induction false} LateRepliesDoNotMatter(m: Machine, n: Machine, events: seq<Event>)
    requires Orderly(m) && OneSlot(m) && Orderly(n) && OneSlot(n) && Alike(m, n)
    ensures Alike(After(m, events), After(n, InTime(m, events)))
    decreases |events|
  {
    if events != [] {
      FirstInTime(m, n, events);
      EventKeepsSlot(m, events[0]);
      if IsLate(m, events[0]) {
        LateChangesNothing(m, events[0]);
        AlikeBack(m, n, Next(m, events[0]));
        LateRepliesDoNotMatter(Next(m, events[0]), n, events[1..]);
      } else {
        EventStaysAlike(m, n, events[0]);
        EventKeepsSlot(n, events[0]);
        LateRepliesDoNotMatter(Next(m, events[0]), Next(n, events[0]), events[1..]);
      }
    }
  }

  lemma AlikeBack(m: Machine, n: Machine, late: Machine)
    requires Alike(late, m) && Alike(m, n)
    ensures Alike(late, n)
  {
    forall id: nat
      ensures CurrentAt(late, id) == CurrentAt(n, id)
    {
      assert CurrentAt(late, id) == CurrentAt(m, id) && CurrentAt(m, id) == CurrentAt(n, id);
    }
  }
}
