/**
 What single operations do to a mission that the invariant alone does not say: completion is final
 and decided by evidence, late inputs and restores may clear approvals of steps that stay ready, and a
 stop that lands while an action is awaited survives exactly when the action succeeds.
 */
module MissionTheorems {
  import opened Prelude
  import opened Values
  import opened AgentTypes
  import opened References
  import opened WorkflowGraph
  import opened Planning
  import opened Recovery
  import opened Runs
  import opened NodeLaws
  import opened Collections
  import opened RunStore
  import opened Mission
  import opened MissionInvariant
  import opened MissionSave
  import opened MissionPasses
  import opened MissionMoves
  import opened MissionOps
  import opened MissionAdvance
  import opened MissionExecute
  import opened MissionFlight
  import opened MissionReplan
  import opened MissionRestore
  import opened MissionRuns
  import opened MissionStores
  import Verifier

  // ---------- Completion is final ----------

  /** Nothing but a restore, a restart or work elsewhere touches a completed mission. */
  lemma CompletedIsFinal(w: World, stored: Run, op: Op)
    requires Hydrate(w.store, stored.id) == Some(stored) && stored.status == Completed && w.flight == None
    requires !op.GoBack? && !op.Reboot? && !op.Elsewhere?
    ensures Apply(w, stored.id, op) == w
  {
    hide Hydrate, Persist, ApplySteer, Dispatch, ExecuteResolved, ExecutePrepared, BeginPrepared, PlannedBatch, SteeredRun;
    match op
    case Move(adv, out) => CompletedDoesNotAdvance(w, stored, adv, out, 0);
    case _ =>
  }

  lemma CompletedDoesNotAdvance(w: World, stored: Run, adv: AdvanceInput, out: Outside, tick: nat)
    requires Hydrate(w.store, stored.id) == Some(stored) && stored.status == Completed
    ensures Advance(w, stored.id, adv, out, tick).world == w
  {
    hide Hydrate, Persist, Dispatch;
    if !PreparationThrows(stored) {
      assert NodeOf(Prepare(stored, Owner(stored), out.stamps)) == Terminal;
    }
  }

  /** A restart finds nothing of it running and leaves it completed, with the same steps. */
  lemma RestartKeepsCompleted(w: World, stored: Run, stamps: Stamps)
    requires Hydrate(w.store, stored.id) == Some(stored) && stored.status == Completed && !AnyRunning(stored.steps)
    ensures var now := Hydrate(Restart(w, stamps).store, stored.id);
      now.Some? && now.value.status == Completed && now.value.steps == stored.steps
  {
    hide Hydrate, Restart;
    var now := RunAfterRestart(w, stored, stamps);
    forall i | 0 <= i < |stored.steps|
      ensures now.steps[i] == stored.steps[i]
    {
      assert stored.steps[i] in stored.steps;
    }
  }

  // ---------- Observers that are rewound ----------

  /** A finished or running step waits for the observer. */
  predicate ObserverIsNeeded(steps: seq<Step>, key: string) {
    exists s | s in steps :: (s.status == Done || s.status == Running) && key in s.dependsOn
  }

  /**
   Rewinding an observer keeps the finished steps closed under their dependencies exactly when no
   finished step depends on the observer.
   */
  lemma RewindKeepsClosureIff(run: Run, i: nat, out: Outside)
    requires i < |run.steps| && DistinctKeys(run.steps) && DoneClosed(run.steps) && run.steps[i].status == Done
    requires run.steps[i].key !in run.steps[i].dependsOn
    ensures DoneClosed(Rewound(run, i, out).steps) <==> !ObserverIsNeeded(run.steps, run.steps[i].key)
  {
    var was, now, key := run.steps, Rewound(run, i, out).steps, run.steps[i].key;
    if s :| s in was && (s.status == Done || s.status == Running) && key in s.dependsOn {
      RewoundIsOpen(was, now, i, s);
    }
    if !ObserverIsNeeded(was, key) {
      forall s | s in now && (s.status == Done || s.status == Running)
        ensures DependenciesSatisfied(s, now)
      {
        var j :| 0 <= j < |now| && now[j] == s;
        assert was[j] in was && DependenciesSatisfied(s, was);
        OthersStayDone(was, now, i, s);
      }
    }
  }

  lemma OthersStayDone(was: seq<Step>, now: seq<Step>, i: nat, s: Step)
    requires i < |was| == |now| && now == was[i := now[i]] && was[i].key !in s.dependsOn && DependenciesSatisfied(s, was)
    ensures DependenciesSatisfied(s, now)
  {
    forall key | key in s.dependsOn
      ensures exists t | t in now :: t.key == key && t.status == Done
    {
      var t :| t in was && t.key == key && t.status == Done;
      var j :| 0 <= j < |was| && was[j] == t;
      assert j != i && now[j] in now;
    }
  }

  lemma SamePlace(steps: seq<Step>, i: nat, j: nat)
    requires DistinctKeys(steps) && i < |steps| && j < |steps| && steps[i].key == steps[j].key
    ensures i == j
  {
  }

  lemma RewoundIsOpen(was: seq<Step>, now: seq<Step>, i: nat, s: Step)
    requires i < |was| == |now| && now == was[i := now[i]] && DistinctKeys(was)
    requires now[i].key == was[i].key && now[i].status != Done && was[i].key !in was[i].dependsOn
    requires s in was && (s.status == Done || s.status == Running) && was[i].key in s.dependsOn
    ensures !DoneClosed(now)
  {
    var j :| 0 <= j < |was| && was[j] == s;
    assert j != i && now[j] == s && s in now;
    forall t | t in now && t.key == was[i].key
      ensures t.status != Done
    {
      var k :| 0 <= k < |now| && now[k] == t;
      assert now[k].key == was[k].key;
      SamePlace(was, k, i);
    }
    assert !DependenciesSatisfied(s, now);
  }

  // ---------- A rejected mission is not completed in the same round ----------

  /** What is stored as skipped is skipped in the run being worked on. */
  predicate KeepsSkipped(stored: Run, run: Run) {
    && |run.steps| == |stored.steps|
    && forall i | 0 <= i < |run.steps| ::
         run.steps[i].id == stored.steps[i].id && (stored.steps[i].status == Skipped ==> run.steps[i].status == Skipped)
  }

  lemma SavedVerdict(w: World, stored: Run, run: Run)
    requires Hydrate(w.store, run.id) == Some(stored) && DistinctIds(stored.steps) && KeepsSkipped(stored, run)
    requires forall s | s in run.steps :: s.key != ""
    ensures Verifier.Complete(run.spec, Saved(w, run).steps) ==> Verifier.Complete(run.spec, run.steps)
  {
    hide Hydrate;
    var saved := Saved(w, run).steps;
    forall i | 0 <= i < |run.steps|
      ensures saved[i] == run.steps[i] || (saved[i].status == Skipped && run.steps[i].status == Skipped)
    {
      assert run.steps[i] in run.steps;
      RereadExact(w, stored, run, i);
    }
    SameVerdict(saved, run.steps, run.spec);
  }

  lemma SameVerdict(a: seq<Step>, b: seq<Step>, spec: Verifier.GoalSpec)
    requires |a| == |b| && forall i | 0 <= i < |b| :: a[i] == b[i] || (a[i].status == Skipped && b[i].status == Skipped)
    ensures Verifier.Complete(spec, a) ==> Verifier.Complete(spec, b)
  {
    if Verifier.Complete(spec, a) {
      forall s | s in a && Verifier.Counts(s)
        ensures s in b
      {
        var i :| 0 <= i < |a| && a[i] == s;
      }
      forall s | s in b
        ensures s.status != Failed
      {
        var i :| 0 <= i < |b| && b[i] == s;
        assert a[i] in a;
      }
      if spec.objectives != [] {
        Verifier.MoreStepsKeepObjectives(spec, spec.objectives[0], a, b);
      }
    }
  }

  lemma RejectedStaysOpen(run: Run, adv: AdvanceInput, out: Outside)
    requires !Verifier.Complete(run.spec, run.steps)
    ensures Evaluated(run, adv, out).Some? ==> Evaluated(run, adv, out).value.status != Completed
  {
    hide Normalized, Verifier.Complete;
  }

  lemma SavedStatus(w: World, run: Run, tick: Tick)
    ensures Hydrate(Save(w, run, tick).store, run.id).Some?
    ensures Hydrate(Save(w, run, tick).store, run.id).value.status == run.status
  {
    hide Hydrate, Persist;
    HydrateAfterPersist(w.store, run, tick);
  }

  lemma ModelRoundStaysOpen(w: World, stored: Run, run: Run, adv: AdvanceInput, out: Outside, tick: nat)
    requires Hydrate(w.store, run.id) == Some(stored) && DistinctIds(stored.steps) && KeepsSkipped(stored, run)
    requires (forall s | s in run.steps :: s.key != "") && run.status != Completed
    requires !Verifier.Complete(run.spec, run.steps)
    ensures var now := Hydrate(ModelRound(w, run, adv, out, tick).world.store, run.id);
      now.Some? && now.value.status != Completed
  {
    hide Hydrate, Persist, Evaluated, Verifier.Complete;
    SavedVerdict(w, stored, run);
    var saved := Saved(w, run);
    RejectedStaysOpen(saved, adv, out);
    SavedStatus(w, run, out.ticks(tick));
    var judged := Evaluated(saved, adv, out);
    if judged.Some? {
      EvaluatedId(saved, adv, out);
      SavedStatus(Save(w, run, out.ticks(tick)), judged.value, out.ticks(tick + 1));
    }
  }

  lemma EvaluatedId(run: Run, adv: AdvanceInput, out: Outside)
    ensures Evaluated(run, adv, out).Some? ==> Evaluated(run, adv, out).value.id == run.id
  {
    hide Normalized, Verifier.Complete;
  }

  /**
   Once the completion gate has said no, the same round does not complete the mission: not through the
   rules, the model's own claim, or the branches for a model that is missing or failed.
   */
  lemma RejectedRoundStaysOpen(w: World, stored: Run, run: Run, adv: AdvanceInput, out: Outside, tick: nat)
    requires Hydrate(w.store, run.id) == Some(stored) && DistinctIds(stored.steps) && KeepsSkipped(stored, run)
    requires (forall s | s in run.steps :: s.key != "") && stored.status != Completed
    requires !Verifier.Complete(run.spec, run.steps)
    ensures var now := Hydrate(AfterRejection(w, run, adv, out, tick).world.store, run.id);
      now.Some? && now.value.status != Completed
  {
    hide Hydrate, Persist, ModelRound, Normalized, Verifier.Complete;
    var tock := out.ticks(tick);
    if adv.documents.Some? && adv.documents.value.items != [] {
      var normalized := Normalized(adv.documents.value.items, run.id, Owner(run), run.steps);
      if normalized.Some? {
        SavedStatus(w, Delivering(run, Authorize(normalized.value, adv.authorized), out), tock);
      }
    } else if adv.documents.Some? && adv.documents.value.askUser != "" {
      SavedStatus(w, Ended(run, WaitingUser, adv.documents.value.askUser, out), tock);
    } else if run.iteration >= run.maxIterations {
      SavedStatus(w, Ended(run, RunFailed, "已达到最大自主轮次", out), tock);
    } else if !adv.hasModel {
      SavedStatus(w, Ended(run, RulesVerdict(run), "规则模式", out), tock);
    } else {
      ModelRoundStaysOpen(w, stored, PlanningRun(run, out), adv, out, tick);
    }
  }

  // ---------- Late inputs clear approvals ----------

  /**
   Filling in an approved step keeps it ready, and its approval is withdrawn exactly when the step is
   external or the final input is one that must be confirmed a second time.
   */
  lemma LateInputClearsApproval(s: Step, run: Run, user: Actor)
    requires s.approved && s.status == Ready
    ensures var p := PreparedStep(s, run, user);
      (p.status == Ready && !p.approved)
      <==> (NeedsPreparation(s, run.steps) && Resolve(s.input, run.steps, 0).Ok?
            && (s.risk == External || RequiresSecondaryConfirmation(s.tool, Resolve(s.input, run.steps, 0).value)))
  {
  }

  /**
   A ready, approved write whose turn has come starts in the background without approval exactly when
   its input still had references and the filled-in input must be confirmed a second time.
   */
  lemma ApprovedWriteMayStartUnapproved(w: World, stored: Run, i: nat, adv: AdvanceInput, out: Outside) returns (t: Step)
    requires Hydrate(w.store, stored.id) == Some(stored) && i < |stored.steps| && DistinctIds(stored.steps)
    requires adv.active && stored.status in {InProgress, Planning} && !PreparationThrows(stored)
    requires var s := stored.steps[i];
      s.status == Ready && s.risk == Write && s.approved && DependenciesSatisfied(s, stored.steps)
    requires HasNoReferences(stored.steps[i].input) || Resolve(stored.steps[i].input, stored.steps, 0).Ok?
    ensures BeginQueued(w, stored.id, stored.steps[i].id, adv, out).world.log == Preparing(w, stored).log + [StartedEffect(t)]
    ensures var s := stored.steps[i];
      && t.id == s.id && t.risk == Write
      && (!t.approved <==> !HasNoReferences(s.input) && RequiresSecondaryConfirmation(s.tool, Resolve(s.input, stored.steps, 0).value))
  {
    hide Hydrate, Persist, Advance, PreparedStep, Resolve, RequiresSecondaryConfirmation, PreparationThrows, HasNoReferences, Fillings;
    var prepared := Prepare(stored, Owner(stored), out.stamps);
    IndexById(stored.steps, i);
    PreparedDoneStays(stored, Owner(stored), out.stamps);
    DependenciesCarry(stored.steps, prepared.steps, stored.steps[i], prepared.steps[i]);
    assert prepared.steps[i] == PreparedStep(stored.steps[i], stored, Owner(stored));
    FilledInWriteIsReady(stored.steps[i], stored, Owner(stored));
    t := StartedRun(prepared, i, false, out).steps[i];
  }

  lemma FilledInWriteIsReady(s: Step, run: Run, user: Actor)
    requires s.status == Ready && s.risk == Write && s.approved && DependenciesSatisfied(s, run.steps)
    requires HasNoReferences(s.input) || Resolve(s.input, run.steps, 0).Ok?
    ensures var p := PreparedStep(s, run, user);
      && p.status == Ready && p.id == s.id && p.risk == Write
      && (!p.approved <==> !HasNoReferences(s.input) && RequiresSecondaryConfirmation(s.tool, Resolve(s.input, run.steps, 0).value))
  {
    LateInputClearsApproval(s, run, user);
  }

  // ---------- What a restore leaves behind ----------

  predicate StoredAsSkipped(steps: seq<Step>, id: string) { exists s | s in steps :: s.id == id && s.status == Skipped }

  /** The stored run after a restore that was let through. */
  ghost predicate RestoredTo(w: World, stored: Run, user: Actor, checkpointId: string, active: bool, out: Outside, c: Checkpoint, now: Run) {
    var restored := Restore(w, stored.id, user, checkpointId, active, out);
    && !restored.thrown && FindCheckpoint(w.store.checkpoints, checkpointId, stored) == Some(c)
    && Hydrate(restored.world.store, stored.id) == Some(now)
  }

  lemma RestoreSaves(w: World, stored: Run, user: Actor, checkpointId: string, active: bool, out: Outside) returns (c: Checkpoint, now: Run)
    requires Hydrate(w.store, stored.id) == Some(stored) && !Restore(w, stored.id, user, checkpointId, active, out).thrown
    ensures RestoredTo(w, stored, user, checkpointId, active, out, c, now) && now == Reread(w, RestoredRun(stored, c, out))
  {
    hide Hydrate, Persist, RestoredRun, ExternalUnderWay, LosesWrite;
    c := FindCheckpoint(w.store.checkpoints, checkpointId, stored).value;
    RestoredName(stored, c, out);
    HydrateAfterPersist(w.store, RestoredRun(stored, c, out), out.ticks(0));
    now := Reread(w, RestoredRun(stored, c, out));
  }

  /**
   After a restore no write is approved. One is ready, so that the background runner starts it as it
   stands, exactly when the checkpoint has it ready and it is not stored as skipped.
   */
  lemma RestoredWriteIsReadyIff(w: World, stored: Run, user: Actor, checkpointId: string, active: bool, out: Outside, c: Checkpoint, now: Run, i: nat)
    requires Hydrate(w.store, stored.id) == Some(stored) && DistinctIds(stored.steps)
    requires RestoredTo(w, stored, user, checkpointId, active, out, c, now)
    requires i < |c.snapshot.steps| && c.snapshot.steps[i].step.risk == Write
    ensures |now.steps| == |c.snapshot.steps|
    ensures var s, row := now.steps[i], c.snapshot.steps[i].step;
      && s.id == row.id && !s.approved
      && (s.status == Ready <==> row.status == Ready && !StoredAsSkipped(stored.steps, row.id))
  {
    hide Hydrate, Persist, Restore, ExternalUnderWay, LosesWrite, HasMark;
    var found, saved := RestoreSaves(w, stored, user, checkpointId, active, out);
    var restored := RestoredRun(stored, c, out);
    assert restored.steps == RestoredSteps(stored, c.snapshot.steps);
    SkippedRowIff(w, stored, c.snapshot.steps[i].step.id);
    assert now.steps[i] == WithKey(MergedStep(restored.steps[i], StoredStep(Rows(w, stored.id), restored.steps[i].id)));
  }

  /** The row a save looks up says skipped exactly when the stored run has the step skipped. */
  lemma SkippedRowIff(w: World, stored: Run, id: string)
    requires Hydrate(w.store, stored.id) == Some(stored) && DistinctIds(stored.steps)
    ensures var row := StoredStep(Rows(w, stored.id), id);
      row.Some? && row.value.status == Skipped <==> StoredAsSkipped(stored.steps, id)
  {
    hide Hydrate;
    var row := StoredStep(Rows(w, stored.id), id);
    if row.Some? && row.value.status == Skipped {
      StoredStepIsHydrated(w, stored, id);
    }
    if StoredAsSkipped(stored.steps, id) {
      var s :| s in stored.steps && s.id == id && s.status == Skipped;
      var j :| 0 <= j < |stored.steps| && stored.steps[j] == s;
      StoredStepExists(w, stored, j);
    }
  }

  /**
   A restore completes the mission exactly when the checkpoint leaves nothing to do: no step ready,
   waiting for approval, queued or running. It asks for no evidence: the objectives, those of the
   checkpoint, may then be open.
   */
  lemma RestoreClosesIff(w: World, stored: Run, user: Actor, checkpointId: string, active: bool, out: Outside, c: Checkpoint, now: Run)
    requires Hydrate(w.store, stored.id) == Some(stored) && RestoredTo(w, stored, user, checkpointId, active, out, c, now)
    ensures var log := Restore(w, stored.id, user, checkpointId, active, out).world.log;
      && now.spec == c.snapshot.run.spec
      && (now.status == Completed <==> forall r | r in c.snapshot.steps :: IsTerminal(r.step.status))
      && (LeftClosed(log) <==> now.status == Completed)
  {
    hide Hydrate, Persist, ExternalUnderWay, LosesWrite, HasMark, Sign, LeftClosed;
    var found, saved := RestoreSaves(w, stored, user, checkpointId, active, out);
    var restored := RestoredRun(stored, c, out);
    NothingLeftIff(stored, c, out);
    ClosedIff(w.log + PutBack(Saved(w, restored).steps), Saved(w, restored).status == Completed);
    assert w.log + Restoring(Saved(w, restored))
        == w.log + PutBack(Saved(w, restored).steps) + [RestoredEffect(Saved(w, restored).status == Completed)];
  }

  lemma NothingLeftIff(stored: Run, c: Checkpoint, out: Outside)
    ensures RestoredRun(stored, c, out).status == Completed <==> forall r | r in c.snapshot.steps :: IsTerminal(r.step.status)
  {
    hide Sign, HasMark;
    var rows := c.snapshot.steps;
    var steps := RestoredSteps(stored, rows);
    forall i | 0 <= i < |rows|
      ensures IsTerminal(rows[i].step.status) <==> steps[i].status != Ready && steps[i].status != NeedsConfirmation
      ensures rows[i] in rows && steps[i] in steps
    {
    }
  }

  lemma ClosedIff(log: seq<Effect>, closed: bool)
    ensures LeftClosed(log + [RestoredEffect(closed)]) <==> closed
  {
    var longer := log + [RestoredEffect(closed)];
    if closed {
      ClosedAtTheEnd(log);
    } else {
      forall k | 0 <= k < |longer|
        ensures RestoredEffect(false) in longer[k..]
      {
        assert longer[k..][|log| - k] == RestoredEffect(false);
      }
    }
  }

  // ---------- A stop that lands while an action is awaited ----------

  /** Nothing but the awaited step changed, except the error text of steps stored as skipped. */
  predicate OnlyLanded(was: seq<Step>, now: seq<Step>, i: nat, result: Value) {
    && i < |was| == |now|
    && now[i] == was[i].(result := Some(result), status := Done, error := "")
    && forall j | 0 <= j < |was| && j != i :: now[j] == was[j] || (was[j].status == Skipped && now[j] == SkippedStep(was[j], now[j].error))
  }

  /**
   If the mission was paused or cancelled meanwhile and the action succeeds, the mission keeps its
   status, the step is done with its result, all other steps stay as they are stored, and no event is lost.
   */
  lemma StopSurvivesSuccess(w: World, stored: Run, f: Flight, result: Value, adv: AdvanceInput, out: Outside) returns (i: nat)
    requires InFlight(w, stored, f, out) && stored.status in {Paused, RunStatus.Cancelled}
    ensures i < |stored.steps| && stored.steps[i].id == f.stepId
    ensures var now := Hydrate(FinishQueued(w, stored.id, Ok(result), adv, out).world.store, stored.id);
      && now.Some? && now.value.status == stored.status
      && OnlyLanded(stored.steps, now.value.steps, i, result) && Grown(stored.events, now.value.events)
  {
    hide Hydrate, Persist, Advance, LandedRun, FinishedRun, RunOk, LogOk, Airborne, CheckpointOk, CompletedOk, FreshStamps, FreshFrom;
    i := StillRunning(f, stored, w.log);
    SoundRunHas(stored, w.log);
    LandedSound(stored, f, i, result, w.log, out);
    var landed := LandedRun(stored, f.stepId, result, out);
    LandedIsSaved(w, stored, landed, i, result, out, out.ticks(0));
  }

  lemma LandedIsSaved(w: World, stored: Run, landed: Run, i: nat, result: Value, out: Outside, tick: Tick)
    requires Hydrate(w.store, stored.id) == Some(stored) && DistinctIds(stored.steps)
    requires RunOk(landed, w.log) && Continues(stored, landed) && i < |stored.steps|
    requires landed.steps == stored.steps[i := stored.steps[i].(result := Some(result), status := Done, error := "")]
    ensures var now := Hydrate(Save(w.(flight := None), landed, tick).store, stored.id);
      && now.Some? && now.value.status == landed.status
      && OnlyLanded(stored.steps, now.value.steps, i, result) && Grown(stored.events, now.value.events)
  {
    hide Hydrate, Persist, FinishedRests;
    var w0 := w.(flight := None);
    EventsExtend(stored, landed);
    SaveReads(w0, stored, landed, tick);
    SavedStatus(w0, landed, tick);
    SaveKeepsSteps(w0, landed);
    var now := Reread(w0, landed);
    forall j | 0 <= j < |stored.steps|
      ensures j == i ==> now.steps[j] == landed.steps[j]
      ensures var was, kept := stored.steps[j], now.steps[j];
        j == i || kept == was || (was.status == Skipped && kept == SkippedStep(was, kept.error))
    {
      assert landed.steps[j] in landed.steps && StepOk(landed, landed.steps[j], w.log);
      assert StepSaved(landed.steps[j], now.steps[j]);
      RereadExact(w0, stored, landed, j);
    }
  }

  /**
   A failing action is written from the copy taken before it began: the mission is in progress again,
   however it was stopped, and steps the cancellation had failed are as ready as they were.
   */
  lemma FailureUndoesTheStop(w: World, stored: Run, f: Flight, message: string, adv: AdvanceInput, out: Outside) returns (w1: World, i: nat)
    requires InFlight(w, stored, f, out)
    ensures FinishQueued(w, stored.id, Err(message), adv, out) == Advance(w1, stored.id, adv, out, 1)
    ensures i < |f.run.steps| == |stored.steps| && f.run.steps[i].id == f.stepId
    ensures var now := Hydrate(w1.store, stored.id);
      && now.Some? && now.value.id == stored.id && now.value.status == InProgress && |now.value.steps| == |stored.steps|
      && now.value.steps[i] == f.run.steps[i].(status := Failed, error := message)
      && forall j | 0 <= j < |stored.steps| && j != i && stored.steps[j].status != Skipped :: now.value.steps[j] == f.run.steps[j]
  {
    hide Hydrate, Persist, Advance, RunOk, LogOk, CheckpointOk, CompletedOk, FreshStamps, FreshFrom;
    i := StillRunning(f, stored, w.log);
    SoundRunHas(f.run, w.log);
    SoundRunHas(stored, w.log);
    IndexById(f.run.steps, i);
    var finished := FinishedRun(f.run, i, Err(message), true, out);
    w1 := Save(w.(flight := None), finished, out.ticks(0));
    FailureIsSaved(w, stored, f, i, finished, message, out.ticks(0));
  }

  lemma FailureIsSaved(w: World, stored: Run, f: Flight, i: nat, finished: Run, message: string, tick: Tick)
    requires Hydrate(w.store, stored.id) == Some(stored) && DistinctIds(stored.steps) && f.run.id == stored.id
    requires AllSameOrStopped(f.run.steps, stored.steps) && i < |f.run.steps| && finished.id == stored.id
    requires finished.steps == f.run.steps[i := f.run.steps[i].(status := Failed, error := message)]
    requires stored.steps[i] == f.run.steps[i] && stored.steps[i].status == Running
    requires (forall s | s in f.run.steps :: s.key != "") && finished.status == InProgress
    ensures var now := Hydrate(Save(w.(flight := None), finished, tick).store, stored.id);
      && now.Some? && now.value.id == stored.id && now.value.status == InProgress && |now.value.steps| == |stored.steps|
      && now.value.steps[i] == f.run.steps[i].(status := Failed, error := message)
      && forall j | 0 <= j < |stored.steps| && j != i && stored.steps[j].status != Skipped :: now.value.steps[j] == f.run.steps[j]
  {
    hide Hydrate, Persist;
    var w0 := w.(flight := None);
    HydrateAfterPersist(w0.store, finished, tick);
    var now := Reread(w0, finished);
    forall j | 0 <= j < |stored.steps| && stored.steps[j].status != Skipped
      ensures now.steps[j] == finished.steps[j]
    {
      assert f.run.steps[j] in f.run.steps && SameOrStopped(f.run.steps[j], stored.steps[j]);
      RereadExact(w0, stored, finished, j);
    }
  }

  /** A pause or cancellation that lands while an action is awaited is still in force afterwards exactly when the action succeeds. */
  lemma StopIsKeptIff(w: World, stored: Run, f: Flight, outcome: Result<Value, string>, adv: AdvanceInput, out: Outside)
    requires InFlight(w, stored, f, out) && stored.status in {Paused, RunStatus.Cancelled}
    ensures var now := Hydrate(FinishQueued(w, stored.id, outcome, adv, out).world.store, stored.id);
      now.Some? && (now.value.status == stored.status <==> outcome.Ok?)
  {
    hide Hydrate, Persist, Advance, FinishQueued, InFlight, RewoundBy, Follows;
    if outcome.Ok? {
      var i := StopSurvivesSuccess(w, stored, f, outcome.value, adv, out);
    } else {
      var w1, i := FailureUndoesTheStop(w, stored, f, outcome.error, adv, out);
      AdvanceStores(w1, Hydrate(w1.store, stored.id).value, adv, out, 1);
    }
  }

  /** The run as it is written when the awaited action has succeeded, before the mission advances. */
  function Written(w: World, f: Flight, i: nat, result: Value, out: Outside): Run
    requires i < |f.run.steps|
  {
    Reread(w.(flight := None), FinishedRun(f.run, i, Ok(result), true, out))
  }

  predicate IsLanded(s: Step, result: Value) { s.status == Done && s.result == Some(result) }

  /**
   If the mission was only steered meanwhile and the action succeeds, then when all is done every step
   that the instruction skipped is still skipped and no stored event is lost. The awaited step is done
   with its result exactly unless it is an observer that the advance rewinds at once.
   */
  lemma SteerSurvivesSuccess(w: World, stored: Run, f: Flight, result: Value, adv: AdvanceInput, out: Outside) returns (i: nat)
    requires InFlight(w, stored, f, out) && stored.status !in {Paused, RunStatus.Cancelled}
    ensures i < |f.run.steps| == |stored.steps| && stored.steps[i].id == f.stepId
    ensures var now := Hydrate(FinishQueued(w, stored.id, Ok(result), adv, out).world.store, stored.id);
      && now.Some? && Grown(stored.events, now.value.events) && |stored.steps| <= |now.value.steps|
      && (forall j | 0 <= j < |stored.steps| :: now.value.steps[j].id == stored.steps[j].id)
      && (forall j | 0 <= j < |stored.steps| && stored.steps[j].status == Skipped :: now.value.steps[j].status == Skipped)
      && (IsLanded(now.value.steps[i], result) <==> RewoundBy(Written(w, f, i, result, out), adv, out) != Some(i))
  {
    hide Hydrate, Persist, Advance, RunOk, LogOk, CheckpointOk, CompletedOk, FreshStamps, FreshFrom;
    hide RewoundBy, StoresRewound, Stores, SteeredLanding, Reread, IsLanded;
    i := StillRunning(f, stored, w.log);
    SoundRunHas(f.run, w.log);
    SoundRunHas(stored, w.log);
    IndexById(f.run.steps, i);
    var finished := FinishedRun(f.run, i, Ok(result), true, out);
    var w1 := Save(w.(flight := None), finished, out.ticks(0));
    StaleEvents(stored, f, i, Ok(result), out, w.log);
    SuccessIsSaved(w, stored, f, i, finished, result, out.ticks(0));
    var first := Written(w, f, i, result, out);
    SameRunId(stored, first, i, result);
    AdvanceStores(w1, first, adv, out, 1);
    LandingIsKept(stored, first, Advance(w1, stored.id, adv, out, 1).world, i, result, RewoundBy(first, adv, out));
  }

  /** What a steered mission is written as: the awaited step has landed, and what is stored as skipped is skipped. */
  predicate SteeredLanding(stored: Run, first: Run, i: nat, result: Value) {
    && first.id == stored.id && i < |stored.steps| == |first.steps| && IsLanded(first.steps[i], result)
    && forall j | 0 <= j < |stored.steps| ::
         first.steps[j].id == stored.steps[j].id && (stored.steps[j].status == Skipped ==> first.steps[j].status == Skipped)
  }

  lemma SuccessIsSaved(w: World, stored: Run, f: Flight, i: nat, finished: Run, result: Value, tick: Tick)
    requires Hydrate(w.store, stored.id) == Some(stored) && DistinctIds(stored.steps) && f.run.id == stored.id
    requires AllSameOrStopped(f.run.steps, stored.steps) && i < |f.run.steps| && finished.id == stored.id
    requires SameIdSameEvent(finished.events, stored.events) && OnlyRunning(f.run.steps, i)
    requires finished.steps == f.run.steps[i := f.run.steps[i].(result := Some(result), status := Done)]
    requires finished.status == InProgress && forall s | s in f.run.steps :: s.key != ""
    ensures var w0 := w.(flight := None); var first := Reread(w0, finished);
      && Hydrate(Save(w0, finished, tick).store, stored.id) == Some(first) && first.status == InProgress
      && SteeredLanding(stored, first, i, result) && Grown(stored.events, first.events)
  {
    hide Hydrate, Persist;
    var w0 := w.(flight := None);
    SaveReads(w0, stored, finished, tick);
    var first := Reread(w0, finished);
    forall j | 0 <= j < |stored.steps|
      ensures first.steps[j].id == stored.steps[j].id && (j == i ==> first.steps[j] == finished.steps[j])
      ensures stored.steps[j].status == Skipped ==> first.steps[j].status == Skipped
    {
      assert f.run.steps[j] in f.run.steps && SameOrStopped(f.run.steps[j], stored.steps[j]);
      SkippedWins(w0, stored, finished, j);
    }
  }

  lemma SameRunId(stored: Run, first: Run, i: nat, result: Value)
    requires SteeredLanding(stored, first, i, result)
    ensures first.id == stored.id && |first.steps| == |stored.steps|
  {
  }

  /** Advancing from there changes nothing of it but an observer that is rewound. */
  lemma LandingIsKept(stored: Run, first: Run, w: World, i: nat, result: Value, target: Option<nat>)
    requires SteeredLanding(stored, first, i, result) && Grown(stored.events, first.events)
    requires target.Some? ==> target.value < |first.steps| && first.steps[target.value].status == Done
    requires if target.Some? then StoresRewound(w, first, target.value) else Stores(w, first)
    ensures var now := Hydrate(w.store, stored.id);
      && now.Some? && Grown(stored.events, now.value.events) && |stored.steps| <= |now.value.steps|
      && (forall j | 0 <= j < |stored.steps| :: now.value.steps[j].id == stored.steps[j].id)
      && (forall j | 0 <= j < |stored.steps| && stored.steps[j].status == Skipped :: now.value.steps[j].status == Skipped)
      && (IsLanded(now.value.steps[i], result) <==> target != Some(i))
  {
    hide Hydrate;
    var now := Hydrate(w.store, first.id).value;
    assert forall j | 0 <= j < |first.steps| && Some(j) != target :: Settles(first.steps[j], now.steps[j]);
  }
}
