/**
 A waiting mission whose next step is not blocked moves, unless a filled-in input nests too deeply to be
 looked at again: from then on neither advancing it nor starting a step in the background does anything.
 */
module MissionProgress {
  import opened Prelude
  import opened Values
  import opened AgentTypes
  import opened References
  import opened WorkflowGraph
  import opened GraphLaws
  import opened Planning
  import opened Recovery
  import opened Runs
  import opened NodeLaws
  import opened RunStore
  import opened Mission
  import opened MissionInvariant
  import opened MissionSave
  import opened MissionPasses
  import opened MissionOps
  import opened MissionAdvance
  import opened MissionExecute
  import opened MissionFlight
  import opened MissionReplan
  import opened MissionRuns
  import opened MissionStores
  import Verifier

  // ---------- Where there is nothing to prepare ----------

  /** No input that could be filled in has references. */
  predicate Final(steps: seq<Step>) {
    forall s | s in steps && IsActive(s.status) && DependenciesSatisfied(s, steps) :: HasNoReferences(s.input)
  }

  lemma {:induction false} NothingPrepared(run: Run, n: nat, stamps: Stamps)
    requires n <= |run.steps| && Final(run.steps)
    ensures PrepareFirst(run, n, Owner(run), stamps) == run
    decreases n
  {
    if n > 0 {
      NothingPrepared(run, n - 1, stamps);
      assert run.steps[n - 1] in run.steps && !NeedsPreparation(run.steps[n - 1], run.steps);
    }
  }

  lemma {:induction false} NothingFilled(steps: seq<Step>, all: seq<Step>)
    requires Final(all) && forall s | s in steps :: s in all
    ensures Fillings(steps, all) == []
  {
    if steps != [] {
      assert steps[0] in all && !NeedsPreparation(steps[0], all);
      NothingFilled(steps[1..], all);
    }
  }

  lemma FinalIsPrepared(w: World, run: Run, stamps: Stamps)
    requires Final(run.steps)
    ensures Prepare(run, Owner(run), stamps) == run && Preparing(w, run) == w && !PreparationThrows(run)
  {
    hide DependenciesSatisfied, Collect;
    NothingPrepared(run, |run.steps|, stamps);
    NothingFilled(run.steps, run.steps);
    assert w.log + [] == w.log;
  }

  // ---------- What is recorded when something is prepared ----------

  /** The events after the first `n` carry the ids drawn for their places. */
  predicate StampedFrom(events: seq<Event>, n: nat, stamps: Stamps) {
    forall i: nat | n <= i < |events| :: events[i].id == stamps(i).0
  }

  lemma {:induction false} PreparedStamps(run: Run, n: nat, user: Actor, stamps: Stamps)
    requires n <= |run.steps|
    ensures var r := PrepareFirst(run, n, user, stamps);
      && StampedFrom(r.events, |run.events|, stamps)
      && ((exists i | 0 <= i < n :: NeedsPreparation(run.steps[i], run.steps)) ==> |r.events| > |run.events|)
    decreases n
  {
    hide NeedsPreparation, PreparedStep;
    if n > 0 {
      PreparedStamps(run, n - 1, user, stamps);
    }
  }

  predicate Records(was: seq<Event>, now: seq<Event>) { exists e | e in now :: e !in was }

  lemma PreparingRecords(run: Run, stamps: Stamps)
    requires FreshStamps(stamps, run.events) && !Final(run.steps) && !PreparationThrows(run)
    ensures Records(run.events, Prepare(run, Owner(run), stamps).events)
  {
    hide DependenciesSatisfied, Collect;
    var s :| s in run.steps && IsActive(s.status) && DependenciesSatisfied(s, run.steps) && !HasNoReferences(s.input);
    var i :| 0 <= i < |run.steps| && run.steps[i] == s;
    assert NeedsPreparation(run.steps[i], run.steps);
    PreparedStamps(run, |run.steps|, Owner(run), stamps);
    var events := Prepare(run, Owner(run), stamps).events;
    var n := |run.events|;
    assert events[n].id == stamps(n).0 && events[n] in events;
  }

  lemma RecordsMore(was: seq<Event>, a: seq<Event>, b: seq<Event>)
    requires Records(was, a) && Grown(a, b)
    ensures Records(was, b)
  {
  }

  // ---------- Moving and standing still ----------

  /** The background runner starts the step. */
  ghost predicate TakesUp(w: World, id: string, stepId: string, adv: AdvanceInput, out: Outside) {
    var flight := BeginQueued(w, id, stepId, adv, out).world.flight;
    flight.Some? && flight.value.stepId == stepId
  }

  /** A step waits for nothing but the user's approval, and the mission says so. */
  predicate AsksForApproval(run: Run) {
    && run.status == AwaitingConfirmation && run.stopReason == AWAITING_APPROVAL
    && exists t | t in run.steps :: t.status == NeedsConfirmation && DependenciesSatisfied(t, run.steps)
  }

  /** Something new is on record, or the mission is in progress again, or it asks for approval. */
  ghost predicate GoesOn(was: Run, w: World) {
    match Hydrate(w.store, was.id)
    case None => false
    case Some(now) =>
      || Records(was.events, now.events)
      || (now.status == InProgress && was.status !in {InProgress, Planning})
      || AsksForApproval(now)
  }

  /** A step is taken up, or advancing goes on. */
  ghost predicate Moves(w: World, run: Run, adv: AdvanceInput, out: Outside) {
    || (exists t | t in run.steps :: TakesUp(w, run.id, t.id, adv, out))
    || (!Advance(w, run.id, adv, out, 0).thrown && GoesOn(run, Advance(w, run.id, adv, out, 0).world))
  }

  /** Advancing is an exception that changes nothing, and no step is started. */
  ghost predicate StandsStill(w: World, id: string, adv: AdvanceInput, out: Outside) {
    Advance(w, id, adv, out, 0) == Outcome(w, true) && forall stepId :: BeginQueued(w, id, stepId, adv, out).world == w
  }

  /** Once preparation throws, the mission stands still whatever comes from outside. */
  lemma ThrowingStandsStill(w: World, run: Run)
    requires Hydrate(w.store, run.id) == Some(run) && PreparationThrows(run)
    ensures forall adv: AdvanceInput, out: Outside | adv.active :: StandsStill(w, run.id, adv, out)
  {
    hide Hydrate, Persist, PreparationThrows, Dispatch, BeginPrepared;
  }

  lemma StillDoesNotMove(w: World, run: Run, adv: AdvanceInput, out: Outside)
    requires StandsStill(w, run.id, adv, out) && w.flight == None
    ensures !Moves(w, run, adv, out)
  {
    hide Advance, BeginQueued, GoesOn;
  }

  /** A step whose turn has come is taken up if its references, if any, can be filled in. */
  lemma IsTakenUp(w: World, run: Run, t: Step, adv: AdvanceInput, out: Outside)
    requires Hydrate(w.store, run.id) == Some(run) && DistinctIds(run.steps) && t in run.steps
    requires adv.active && run.status in {InProgress, Planning} && !PreparationThrows(run)
    requires t.status in {Ready, Queued} && DependenciesSatisfied(t, run.steps)
    requires PreparedStep(t, run, Owner(run)).status != Failed
    ensures TakesUp(w, run.id, t.id, adv, out)
  {
    hide Hydrate, Persist, Advance, PreparationThrows, Fillings, Resolve, HasNoReferences, StartedRun;
    var prepared := Prepare(run, Owner(run), out.stamps);
    var i :| 0 <= i < |run.steps| && run.steps[i] == t;
    IndexById(run.steps, i);
    PreparedDoneStays(run, Owner(run), out.stamps);
    DependenciesCarry(run.steps, prepared.steps, t, prepared.steps[i]);
    assert prepared.steps[i] == PreparedStep(t, run, Owner(run));
  }

  /** Advancing with nothing to bring: no observer, no document, no model, and no plan. */
  predicate BringsNothing(adv: AdvanceInput) {
    adv.steerPlan.items == [] && adv.probe == NoProbe && adv.documents == None && !adv.hasModel
  }

  lemma NothingPlanned(run: Run, plan: Plan)
    requires plan.items == []
    ensures PlannedBatch(run, plan).Some?
  {
    var none: seq<Step> := [];
    assert NewSteps([], run.id, Owner(run)) == none && AllWithReferences(none) == none;
    EmptyGraph();
    assert Acceptable(none, KeySet(run.steps));
  }

  lemma PlainDispatchIsFine(w: World, run: Run, adv: AdvanceInput, out: Outside, tick: nat)
    requires BringsNothing(adv)
    ensures !Dispatch(w, run, adv, out, tick).thrown
  {
    hide Persist, PlannedBatch, Narrows, Replanned, Told, Recover, Propagate, Verifier.Complete, Ended, AtApproval, PendingSteer;
    NothingPlanned(run, adv.steerPlan);
  }

  /** An undisturbed mission that can be prepared is dispatched on its next node. */
  lemma IsDispatched(w: World, run: Run, adv: AdvanceInput, out: Outside)
    requires Hydrate(w.store, run.id) == Some(run) && Undisturbed(run) && adv.active && !PreparationThrows(run)
    ensures Advance(w, run.id, adv, out, 0) == Dispatch(Preparing(w, run), Prepare(run, Owner(run), out.stamps), adv, out, 0)
  {
    hide Hydrate, Persist, Prepare, PreparationThrows, Dispatch, Fillings, PendingSteer, StartsWith;
  }

  lemma FillingGoesOn(w: World, run: Run, adv: AdvanceInput, out: Outside)
    requires Hydrate(w.store, run.id) == Some(run) && Undisturbed(run) && FreshStamps(out.stamps, run.events)
    requires adv.active && !PreparationThrows(run) && !Final(run.steps)
    requires !Advance(w, run.id, adv, out, 0).thrown
    ensures GoesOn(run, Advance(w, run.id, adv, out, 0).world)
  {
    hide Hydrate, Persist, Advance, Prepare, Preparing, PreparationThrows, Dispatch, Final, Undisturbed, FreshStamps, Records;
    var prepared := Prepare(run, Owner(run), out.stamps);
    IsDispatched(w, run, adv, out);
    PreparingRecords(run, out.stamps);
    DispatchStores(Preparing(w, run), prepared, adv, out, 0);
    RecordsMore(run.events, prepared.events, Hydrate(Advance(w, run.id, adv, out, 0).world.store, run.id).value.events);
  }

  /** With nothing to fill in, the next node is the stored run's. */
  lemma FinalGoesOn(w: World, run: Run, adv: AdvanceInput, out: Outside)
    requires Hydrate(w.store, run.id) == Some(run) && Undisturbed(run) && adv.active && Final(run.steps)
    requires RunOk(run, w.log) && !AnyRunning(run.steps) && NodeOf(run) in {ExecuteNode, ApprovalNode}
    ensures Moves(w, run, adv, out) && !Advance(w, run.id, adv, out, 0).thrown
  {
    hide Hydrate, Persist, Advance, BeginQueued, Preparing, PreparationThrows, Undisturbed, RunOk, DependenciesSatisfied, AsksForApproval;
    SoundRunHas(run, w.log);
    FinalIsPrepared(w, run, out.stamps);
    IsDispatched(w, run, adv, out);
    if NodeOf(run) == ExecuteNode {
      var t := SomethingToTakeUp(run);
      if run.status in {InProgress, Planning} {
        assert PreparedStep(t, run, Owner(run)) == t;
        IsTakenUp(w, run, t, adv, out);
      } else {
        SavedFields(w, run.(status := InProgress), out.ticks(0));
      }
    } else {
      ApprovalIsAskedFor(w, run, out);
    }
  }

  lemma SomethingToTakeUp(run: Run) returns (t: Step)
    requires NodeOf(run) == ExecuteNode && !AnyRunning(run.steps)
    ensures t in run.steps && t.status in {Ready, Queued} && DependenciesSatisfied(t, run.steps)
  {
    hide DependenciesSatisfied, PendingSteer, StartsWith;
    t :| t in run.steps && (t.status == Running || ((t.status == Ready || t.status == Queued) && DependenciesSatisfied(t, run.steps)));
  }

  lemma SavedFields(w: World, run: Run, tick: Tick)
    ensures Hydrate(Save(w, run, tick).store, run.id) == Some(Reread(w, run))
    ensures Reread(w, run).status == run.status && Reread(w, run).stopReason == run.stopReason
  {
    hide Hydrate, Persist;
    HydrateAfterPersist(w.store, run, tick);
  }

  lemma ApprovalIsAskedFor(w: World, run: Run, out: Outside)
    requires Hydrate(w.store, run.id) == Some(run) && DistinctIds(run.steps) && NodeOf(run) == ApprovalNode
    requires forall s | s in run.steps :: s.key != ""
    ensures GoesOn(run, Save(w, AtApproval(run, out), out.ticks(0)))
  {
    hide Hydrate, Persist, DependenciesSatisfied, PendingSteer, StartsWith, Reread;
    var asking := AtApproval(run, out);
    SavedFields(w, asking, out.ticks(0));
    var now := Reread(w, asking);
    var t :| t in run.steps && t.status == NeedsConfirmation && DependenciesSatisfied(t, run.steps);
    var i :| 0 <= i < |run.steps| && run.steps[i] == t;
    SaveKeepsSteps(w, asking);
    SavedDoneStays(run.steps, now.steps);
    RereadExact(w, run, asking, i);
    DependenciesCarry(run.steps, now.steps, t, now.steps[i]);
    assert now.steps[i] in now.steps;
  }

  // ---------- Where too deep an input comes from ----------

  /** Plans are admitted only with inputs that can be looked at: what throws has been filled in since. */
  lemma ThrowingWasFilledIn(w: World, run: Run)
    requires Reachable(w, run.id) && Hydrate(w.store, run.id) == Some(run)
    ensures forall t | t in run.steps && ThrowsOn(t, run.steps) :: FilledInEffect(t.id) in w.log
    ensures PreparationThrows(run) ==> exists t | t in run.steps :: ThrowsOn(t, run.steps) && FilledInEffect(t.id) in w.log
  {
    hide Reachable, Hydrate, LogOk, CompletedOk, CheckpointOk, FinishedRests, GraphOk, Collect, DependenciesSatisfied;
    ReachableIsOk(w, run.id);
    forall t | t in run.steps && ThrowsOn(t, run.steps)
      ensures FilledInEffect(t.id) in w.log
    {
      assert StepOk(run, t, w.log);
    }
  }

  // ---------- Exactly when a mission moves ----------

  /** A reachable, undisturbed mission at rest in which a waiting step has no failed or skipped ancestor. */
  ghost predicate HasWork(w: World, run: Run, s: Step) {
    && Reachable(w, run.id) && Whole(w.log) && w.flight == None
    && Hydrate(w.store, run.id) == Some(run) && Undisturbed(run)
    && s in run.steps && Waiting(s) && !HasBlockedAncestor(run.steps, s)
  }

  lemma WorkIsSound(w: World, run: Run, s: Step)
    requires HasWork(w, run, s)
    ensures RunOk(run, w.log) && !AnyRunning(run.steps) && NodeOf(run) in {ExecuteNode, ApprovalNode}
  {
    hide Reachable, Hydrate, RunOk, LogOk, CompletedOk, CheckpointOk, Undisturbed, HasBlockedAncestor, NodeOf;
    ReachableIsOk(w, run.id);
    NextIsExecuteOrApproval(w, run.id, s);
  }

  /**
   A mission with work to do moves whenever advancing it ends without an exception. It stands still when
   preparation throws; with an advance that brings no plans of its own it moves exactly unless it does.
   */
  lemma MovesIff(w: World, run: Run, s: Step, adv: AdvanceInput, out: Outside)
    requires HasWork(w, run, s) && adv.active && FreshStamps(out.stamps, run.events)
    ensures PreparationThrows(run) ==> StandsStill(w, run.id, adv, out) && !Moves(w, run, adv, out)
    ensures !Advance(w, run.id, adv, out, 0).thrown ==> Moves(w, run, adv, out)
    ensures BringsNothing(adv) ==> (Moves(w, run, adv, out) <==> !PreparationThrows(run))
  {
    hide Reachable, Hydrate, Advance, Moves, StandsStill, RunOk, Undisturbed, Final, PreparationThrows, FreshStamps, NodeOf, GoesOn;
    WorkIsSound(w, run, s);
    if PreparationThrows(run) {
      ThrowingStandsStill(w, run);
      StillDoesNotMove(w, run, adv, out);
      StillThrows(w, run.id, adv, out);
    } else if Final(run.steps) {
      FinalGoesOn(w, run, adv, out);
    } else {
      IsDispatched(w, run, adv, out);
      if BringsNothing(adv) {
        PlainDispatchIsFine(Preparing(w, run), Prepare(run, Owner(run), out.stamps), adv, out, 0);
      }
      if !Advance(w, run.id, adv, out, 0).thrown {
        FillingGoesOn(w, run, adv, out);
        GoingOnMoves(w, run, adv, out);
      }
    }
  }

  /** A mission with work to do moves as long as nothing of it was filled in. */
  lemma UnfilledMoves(w: World, run: Run, s: Step, adv: AdvanceInput, out: Outside)
    requires HasWork(w, run, s) && adv.active && BringsNothing(adv) && FreshStamps(out.stamps, run.events)
    requires forall e | e in w.log :: !e.FilledInEffect?
    ensures Moves(w, run, adv, out)
  {
    hide Reachable, Hydrate, Moves, StandsStill, Undisturbed, FreshStamps, Advance, BringsNothing, PreparationThrows;
    ThrowingWasFilledIn(w, run);
    MovesIff(w, run, s, adv, out);
  }

  lemma StillThrows(w: World, id: string, adv: AdvanceInput, out: Outside)
    requires StandsStill(w, id, adv, out)
    ensures Advance(w, id, adv, out, 0).thrown
  {
    hide Advance, BeginQueued;
  }

  lemma GoingOnMoves(w: World, run: Run, adv: AdvanceInput, out: Outside)
    requires !Advance(w, run.id, adv, out, 0).thrown && GoesOn(run, Advance(w, run.id, adv, out, 0).world)
    ensures Moves(w, run, adv, out)
  {
    hide Advance, BeginQueued, GoesOn;
  }
}
