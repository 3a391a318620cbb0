/** When the background runner takes a step up, and what it leaves in the store. */
module MissionTakeups {
  import opened Prelude
  import opened Values
  import opened AgentTypes
  import opened References
  import opened Planning
  import opened Recovery
  import opened Runs
  import opened Collections
  import opened RunStore
  import opened Mission
  import opened MissionInvariant
  import opened MissionSave
  import opened MissionPasses
  import opened MissionMoves
  import opened MissionOps
  import opened MissionAdvance
  import opened MissionExecute
  import opened MissionFlight
  import opened MissionRuns
  import opened MissionEffects
  import opened MissionRequests
  import Verifier

  /** The mission is in progress and the step free. */
  predicate IsFree(stored: Run, s: Step, adv: AdvanceInput) {
    adv.active && stored.status in {InProgress, Planning} && s.status in {Ready, Queued}
  }

  /** Its turn has come, and the references in its input, if any, can be filled in. */
  predicate CanRun(stored: Run, s: Step) {
    DependenciesSatisfied(s, stored.steps) && (HasNoReferences(s.input) || Resolve(s.input, stored.steps, 0).Ok?)
  }

  /** Its turn has come, but a reference in its input cannot be filled in. */
  predicate CannotBeFilled(stored: Run, s: Step) {
    DependenciesSatisfied(s, stored.steps) && !HasNoReferences(s.input) && Resolve(s.input, stored.steps, 0).Err?
  }

  lemma PreparedDependencies(stored: Run, s: Step, stamps: Stamps)
    ensures var prepared := Prepare(stored, Owner(stored), stamps);
      DependenciesSatisfied(PreparedStep(s, stored, Owner(stored)), prepared.steps) <==> DependenciesSatisfied(s, stored.steps)
  {
    hide Resolve, HasNoReferences, DependenciesSatisfied, PreparedStep;
    var prepared := Prepare(stored, Owner(stored), stamps);
    PreparedPrefixSameDone(stored, |stored.steps|, Owner(stored), stamps);
    SameDoneSameDependencies(s, stored.steps, prepared.steps);
    SameDoneIsSymmetric(stored.steps, prepared.steps);
    SameDoneSameDependencies(s, prepared.steps, stored.steps);
    SameDependsOn(s, stored, prepared.steps);
  }

  lemma SameDependsOn(s: Step, stored: Run, steps: seq<Step>)
    ensures DependenciesSatisfied(PreparedStep(s, stored, Owner(stored)), steps) <==> DependenciesSatisfied(s, steps)
  {
    hide Resolve, HasNoReferences;
  }

  lemma PreparedStatusIff(stored: Run, s: Step)
    requires s.status in {Ready, Queued}
    ensures var p := PreparedStep(s, stored, Owner(stored));
      && (p.status in {Ready, Queued} <==> !CannotBeFilled(stored, s))
      && (p.status in {Ready, Queued} ==> p.status == s.status && p.risk == s.risk)
      && p.id == s.id && (p.status !in {Ready, Queued} ==> p.status == Failed)
  {
    hide Resolve, HasNoReferences, DependenciesSatisfied;
  }

  /** The mission with its inputs filled in and the step running. */
  function TakenUp(stored: Run, i: nat, out: Outside): Run
    requires i < |stored.steps|
  {
    var prepared := Prepare(stored, Owner(stored), out.stamps);
    prepared.(status := InProgress, steps := prepared.steps[i := prepared.steps[i].(status := Running, error := "")])
  }

  /** The step runs in the background: it is awaited, on record as it runs, and stored as running. */
  ghost predicate TakesUpStep(w: World, stored: Run, i: nat, out: Outside, o: Outcome)
    requires i < |stored.steps|
  {
    var running := TakenUp(stored, i, out).steps[i];
    && !o.thrown && o.world.log == Preparing(w, stored).log + [StartedEffect(running)]
    && o.world.flight.Some? && o.world.flight.value.stepId == stored.steps[i].id
    && Leaves(o.world, stored, TakenUp(stored, i, out))
    && Hydrate(o.world.store, stored.id).Some?
    && o.world.flight.value.run.steps == Hydrate(o.world.store, stored.id).value.steps
  }

  lemma TakingOffStores(w: World, stored: Run, i: nat, out: Outside)
    requires AtRest(w, stored, out) && stored.status != Completed && i < |stored.steps|
    requires var p := Prepare(stored, Owner(stored), out.stamps);
      p.steps[i].status in {Ready, Queued} && DependenciesSatisfied(p.steps[i], p.steps)
    ensures var prepared, w0 := Prepare(stored, Owner(stored), out.stamps), Preparing(w, stored);
      TakesUpStep(w, stored, i, out,
        Outcome(TakeOff(w0, StartedRun(prepared, i, false, out), i, stored.steps[i].id, out.ticks(0)), false))
  {
    hide Hydrate, Persist, GroundOk, LogOk, RunOk, Prepare, Preparing, StartedRun, AsWritten, Reread, Saved, Leaves;
    hide DependenciesSatisfied;
    var prepared, w0 := Prepare(stored, Owner(stored), out.stamps), Preparing(w, stored);
    PreparingOk(w, stored, out);
    PrepareSound(stored, w0.log, out.stamps);
    PreparedFirst(stored, out.stamps);
    StartedFields(prepared, i, false, out);
    var started := StartedRun(prepared, i, false, out);
    var log := w0.log + [StartedEffect(started.steps[i])];
    PreparedMayStart(prepared, i, w0.log);
    StartedSound(prepared, i, false, out, w0.log);
    SameIdsFirst(stored, prepared, started);
    LeavesWritten(w0, stored, started, out.ticks(0), log);
    SoundRunHas(started, log);
    ContinuesThen(stored, prepared, started);
    SavedIsAfter(w0, stored, started);
    LeavesAlike(Save(w0, started, out.ticks(0)), stored, started, TakenUp(stored, i, out));
    LeavesInStore(Save(w0, started, out.ticks(0)), TakeOff(w0, started, i, stored.steps[i].id, out.ticks(0)),
                  stored, TakenUp(stored, i, out));
  }

  lemma PreparedMayStart(run: Run, i: nat, log: seq<Effect>)
    requires RunOk(run, log) && i < |run.steps| && run.steps[i].status in {Ready, Queued}
    ensures MayStart(run.steps[i], false, log)
  {
    hide FinishedRests, GraphOk;
    assert run.steps[i] in run.steps && StepOk(run, run.steps[i], log);
  }

  lemma SameIdsFirst(stored: Run, prepared: Run, started: Run)
    requires SameFirst(stored.steps, prepared.steps) && SameFirst(prepared.steps, started.steps)
    ensures SameFirst(stored.steps, started.steps)
  {
  }

  lemma ContinuesThen(a: Run, b: Run, c: Run)
    requires Continues(a, b) && Continues(b, c)
    ensures Continues(a, c)
  {
  }

  lemma LeavesInStore(a: World, b: World, stored: Run, run: Run)
    requires a.store == b.store && Leaves(a, stored, run)
    ensures Leaves(b, stored, run)
  {
  }

  /** Its references could not be filled in: the failure is stored and the mission advances. */
  ghost predicate FailsToFill(w: World, stored: Run, adv: AdvanceInput, out: Outside, o: Outcome) {
    exists w1: World ::
      && w1.log == Preparing(w, stored).log && w1.flight == None
      && Leaves(w1, stored, Prepare(stored, Owner(stored), out.stamps)) && o == Advance(w1, stored.id, adv, out, 1)
  }

  /**
   The background runner takes a step up exactly when the mission is in progress, the step is ready or
   queued, its turn has come and its references can be filled in. Where they cannot, the step has failed
   and the mission advances; in any other case nothing changes.
   */
  lemma TakesUpIff(w: World, stored: Run, stepId: string, adv: AdvanceInput, out: Outside)
    requires Holds(w, stored, out) && w.flight == None
    ensures var o := BeginQueued(w, stored.id, stepId, adv, out);
      forall i: nat | i < |stored.steps| && stored.steps[i].id == stepId ::
        var s := stored.steps[i];
        if !IsFree(stored, s, adv) then o == Outcome(w, false)
        else if PreparationThrows(stored) then o == Outcome(w, true)
        else if CanRun(stored, s) then TakesUpStep(w, stored, i, out, o)
        else if CannotBeFilled(stored, s) then FailsToFill(w, stored, adv, out, o)
        else o == Outcome(w, false)
    ensures (forall s | s in stored.steps :: s.id != stepId) ==> BeginQueued(w, stored.id, stepId, adv, out) == Outcome(w, false)
  {
    hide Hydrate, Persist, WorldOk, Holds, GroundOk, RunOk, LogOk, Advance, BeginPrepared, PreparationThrows, TakesUpStep;
    hide FailsToFill, CannotBeFilled, CanRun;
    HeldAtRest(w, stored, out);
    SoundRunHas(stored, w.log);
    forall i: nat | i < |stored.steps| && stored.steps[i].id == stepId
      ensures StepIndex(stored.steps, stepId) == i
    {
      IndexById(stored.steps, i);
    }
    var i := StepIndex(stored.steps, stepId);
    if i >= 0 && IsFree(stored, stored.steps[i], adv) && !PreparationThrows(stored) {
      TakenUpOrNot(w, stored, i, adv, out);
    }
  }

  lemma TakenUpOrNot(w: World, stored: Run, i: nat, adv: AdvanceInput, out: Outside)
    requires AtRest(w, stored, out) && i < |stored.steps| && IsFree(stored, stored.steps[i], adv)
    ensures var s, o := stored.steps[i], BeginPrepared(w, stored, i, stored.steps[i].id, adv, out);
      if CanRun(stored, s) then TakesUpStep(w, stored, i, out, o)
      else if CannotBeFilled(stored, s) then FailsToFill(w, stored, adv, out, o)
      else o == Outcome(w, false)
  {
    hide Hydrate, Persist, GroundOk, RunOk, LogOk, Advance, TakeOff, Prepare, Fillings, PreparedStep, TakesUpStep, Leaves;
    hide DependenciesSatisfied;
    hide Resolve, HasNoReferences, FreshFrom;
    var s := stored.steps[i];
    var prepared, w0 := Prepare(stored, Owner(stored), out.stamps), Preparing(w, stored);
    assert prepared.steps[i] == PreparedStep(s, stored, Owner(stored));
    PreparedStatusIff(stored, s);
    PreparedDependencies(stored, s, out.stamps);
    if CanRun(stored, s) {
      TakingOffStores(w, stored, i, out);
    } else if CannotBeFilled(stored, s) {
      PreparedReads(w, stored, i, out);
      var w1 := Save(w0, prepared, out.ticks(0));
      assert w1.log == w0.log && w1.flight == None;
    }
  }

  // ---------- The end of the awaited action ----------

  lemma FlownExtends(f: Flight, stored: Run, log: seq<Effect>, i: nat, s: Step)
    requires Airborne(f, stored, log) && i < |f.run.steps| && s.id == f.run.steps[i].id && s.key == f.run.steps[i].key
    ensures Extends(stored.steps, f.run.steps[i := s])
  {
    hide GraphOk, FinishedRests;
    SoundRunHas(f.run, log);
    var now := f.run.steps[i := s];
    forall j | 0 <= j < |stored.steps|
      ensures now[j].id == stored.steps[j].id && now[j].key != ""
    {
      assert f.run.steps[j] in f.run.steps && SameOrStopped(f.run.steps[j], stored.steps[j]);
    }
  }

  /** What the copy taken before the action is written as. */
  lemma FlownIs(f: Flight, stored: Run, log: seq<Effect>, i: nat, outcome: Result<Value, string>, out: Outside)
    requires Airborne(f, stored, log) && i < |f.run.steps|
    ensures var now := FinishedRun(f.run, i, outcome, true, out);
      && now == f.run.(status := InProgress, steps := f.run.steps[i := Landed(f.run.steps[i], outcome)], events := now.events)
      && WithinRounds(now) && now.id == stored.id
  {
    hide AllTerminal, FinishedRests, GraphOk;
  }

  /**
   Unless the mission was stopped and the action succeeded, the end of the action is written from the copy
   taken before it began: the step with its result or failure, the mission in progress, and only what is
   stored as skipped kept so. Then the mission advances.
   */
  lemma FinishIs(w: World, stored: Run, f: Flight, outcome: Result<Value, string>, adv: AdvanceInput, out: Outside)
    returns (w1: World, i: nat)
    requires InFlight(w, stored, f, out) && !(outcome.Ok? && stored.status in {Paused, RunStatus.Cancelled})
    ensures FinishQueued(w, stored.id, outcome, adv, out) == Advance(w1, stored.id, adv, out, 1)
    ensures w1.flight == None && w1.log == w.log && i < |f.run.steps| && f.run.steps[i].id == f.stepId
    ensures var now := Hydrate(w1.store, stored.id);
      && now.Some? && now.value == f.run.(status := InProgress, steps := now.value.steps, events := now.value.events)
      && StepsAsWritten(stored.steps, f.run.steps[i := Landed(f.run.steps[i], outcome)], now.value.steps)
      && Grown(stored.events, now.value.events)
  {
    hide Hydrate, Persist, Advance, RunOk, LogOk, CheckpointOk, CompletedOk, FreshStamps, FreshFrom, FinishedRun, Airborne;
    hide Extends, Merged;
    i := StillRunning(f, stored, w.log);
    SoundFlight(f, stored, w.log);
    IndexById(f.run.steps, i);
    var finished, w0 := FinishedRun(f.run, i, outcome, true, out), w.(flight := None);
    w1 := Save(w0, finished, out.ticks(0));
    FlownIs(f, stored, w.log, i, outcome, out);
    FlownExtends(f, stored, w.log, i, Landed(f.run.steps[i], outcome));
    SoundRunHas(stored, w.log);
    StaleEvents(stored, f, i, outcome, out, w.log);
    SaveReads(w0, stored, finished, out.ticks(0));
    FieldsRead(w0, finished);
    SameLengthRead(w0, finished);
    forall j | 0 <= j < |finished.steps|
      ensures StepAsWritten(stored.steps, j, finished.steps[j], Reread(w0, finished).steps[j])
    {
      RowStepAsWritten(w0, stored, finished, j);
    }
  }

  lemma SoundFlight(f: Flight, stored: Run, log: seq<Effect>)
    requires Airborne(f, stored, log)
    ensures DistinctIds(f.run.steps)
  {
    hide StepOk, FinishedRests, GraphOk;
  }
}
