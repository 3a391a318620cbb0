/** Which operations the entries of the effect log come from, and that a stopped mission does not move. */
module MissionLog {
  import opened Prelude
  import opened Values
  import opened AgentTypes
  import opened References
  import opened WorkflowGraph
  import opened Planning
  import opened Recovery
  import opened Runs
  import opened RunStore
  import opened Mission
  import opened MissionInvariant
  import opened MissionSave
  import opened MissionMoves
  import opened MissionFlight
  import opened MissionReplan
  import opened MissionRestore
  import opened MissionRuns
  import Verifier

  // ---------- What advancing may log ----------

  predicate HadReferences(steps: seq<Step>, id: string) {
    exists s | s in steps :: s.id == id && !HasNoReferences(s.input)
  }

  predicate IsQuiet(e: Effect, steps: seq<Step>) {
    e.RetriedEffect? || e.NarrowedEffect? || (e.FilledInEffect? && HadReferences(steps, e.stepId))
  }

  /** `after` continues `before` by retries, narrowed plans, and fillings of steps that had references. */
  predicate QuietLog(before: seq<Effect>, after: seq<Effect>, steps: seq<Step>) {
    before <= after && forall k | |before| <= k < |after| :: IsQuiet(after[k], steps)
  }

  ghost predicate FewerReferences(was: seq<Step>, now: seq<Step>) {
    forall id :: HadReferences(now, id) ==> HadReferences(was, id)
  }

  lemma QuietThen(a: seq<Effect>, b: seq<Effect>, c: seq<Effect>, was: seq<Step>, now: seq<Step>)
    requires QuietLog(a, b, was) && QuietLog(b, c, now) && FewerReferences(was, now)
    ensures QuietLog(a, c, was)
  {
    hide HadReferences;
    forall k | |a| <= k < |c|
      ensures IsQuiet(c[k], was)
    {
      if k < |b| {
        assert c[k] == b[k];
      }
    }
  }

  lemma {:induction false} FillingsHadReferences(steps: seq<Step>, all: seq<Step>)
    ensures forall e | e in Fillings(steps, all) :: HadReferences(steps, e.stepId)
  {
    if steps != [] {
      FillingsHadReferences(steps[1..], all);
      forall e | e in Fillings(steps, all)
        ensures HadReferences(steps, e.stepId)
      {
        if e in Fillings(steps[1..], all) {
          var s :| s in steps[1..] && s.id == e.stepId && !HasNoReferences(s.input);
        } else {
          assert steps[0].id == e.stepId && steps[0] in steps;
        }
      }
    }
  }

  lemma PreparingIsQuiet(w: World, stored: Run)
    ensures QuietLog(w.log, Preparing(w, stored).log, stored.steps)
  {
    hide NeedsPreparation, HasNoReferences, HadReferences;
    var more := Fillings(stored.steps, stored.steps);
    FillingsHadReferences(stored.steps, stored.steps);
    assert forall k | 0 <= k < |more| :: more[k] in more;
  }

  lemma ApplySteerIsQuiet(w: World, run: Run, plan: Plan, out: Outside, tick: nat, steps: seq<Step>)
    ensures QuietLog(w.log, ApplySteer(w, run, plan, out, tick).world.log, steps)
  {
    hide PlannedBatch, Narrows, Replanned, Told, Persist, HadReferences;
  }

  lemma ModelRoundIsQuiet(w: World, run: Run, adv: AdvanceInput, out: Outside, tick: nat)
    ensures ModelRound(w, run, adv, out, tick).world.log == w.log
  {
    hide Evaluated, Persist;
  }

  lemma AfterRejectionIsQuiet(w: World, run: Run, adv: AdvanceInput, out: Outside, tick: nat)
    ensures AfterRejection(w, run, adv, out, tick).world.log == w.log
  {
    hide ModelRound, Normalized, Persist, Ended, Delivering, RulesVerdict, PlanningRun;
    ModelRoundIsQuiet(w, PlanningRun(run, out), adv, out, tick);
  }

  lemma JudgeIsQuiet(w: World, run: Run, adv: AdvanceInput, out: Outside, tick: nat)
    ensures Judge(w, run, adv, out, tick).world.log == w.log
  {
    hide AfterRejection, Normalized, Persist, Ended, Observing, WaitingUntil, Verifier.Complete;
    AfterRejectionIsQuiet(w, run, adv, out, tick);
  }

  lemma EvaluateIsQuiet(w: World, run: Run, adv: AdvanceInput, out: Outside, tick: nat, steps: seq<Step>)
    ensures QuietLog(w.log, Evaluate(w, run, adv, out, tick).world.log, steps)
  {
    hide Judge, Persist, Propagate, Reply, HadReferences;
    JudgeIsQuiet(w, Propagate(Recover(run, out).0, out.stamps), adv, out, tick);
  }

  lemma AdvanceIsQuiet(w: World, stored: Run, adv: AdvanceInput, out: Outside, tick: nat)
    requires Hydrate(w.store, stored.id) == Some(stored)
    ensures QuietLog(w.log, Advance(w, stored.id, adv, out, tick).world.log, stored.steps)
  {
    hide Hydrate, Persist, Prepare, Preparing, Evaluate, ApplySteer, NodeOf, RewindTarget, AtApproval, Rewound, HadReferences;
    var run, w0 := Prepare(stored, Owner(stored), out.stamps), Preparing(w, stored);
    var open := if NodeOf(run) == WaitTimer then run.(stopReason := "") else run;
    PreparingIsQuiet(w, stored);
    ApplySteerIsQuiet(w0, open, adv.steerPlan, out, tick, stored.steps);
    EvaluateIsQuiet(w0, open, adv, out, tick, stored.steps);
    QuietThen(w.log, w0.log, Dispatch(w0, open, adv, out, tick).world.log, stored.steps, stored.steps);
  }

  // ---------- References only disappear ----------

  /** The same steps, and an input that differs had references before. */
  predicate InputsKept(was: seq<Step>, now: seq<Step>) {
    && |now| == |was|
    && forall i | 0 <= i < |was| ::
         now[i].id == was[i].id && (now[i].input == was[i].input || !HasNoReferences(was[i].input))
  }

  lemma KeptInputs(was: seq<Step>, now: seq<Step>)
    requires InputsKept(was, now)
    ensures FewerReferences(was, now)
  {
    forall id | HadReferences(now, id)
      ensures HadReferences(was, id)
    {
      var s :| s in now && s.id == id && !HasNoReferences(s.input);
      var i :| 0 <= i < |now| && now[i] == s;
      assert was[i] in was;
    }
  }

  lemma InputsKeptThen(a: seq<Step>, b: seq<Step>, c: seq<Step>)
    requires InputsKept(a, b) && InputsKept(b, c)
    ensures InputsKept(a, c)
  {
    hide HasNoReferences;
  }

  lemma PrepareKeepsInputs(run: Run, user: Actor, stamps: Stamps)
    ensures InputsKept(run.steps, Prepare(run, user, stamps).steps)
  {
    hide Resolve, HasNoReferences, DependenciesSatisfied;
  }

  lemma SaveKeepsInputs(w: World, run: Run, tick: Tick)
    ensures Hydrate(Save(w, run, tick).store, run.id) == Some(Reread(w, run)) && Reread(w, run).id == run.id
    ensures InputsKept(run.steps, Saved(w, run).steps) && InputsKept(run.steps, Reread(w, run).steps)
  {
    hide HasNoReferences, Persist, Hydrate;
    HydrateAfterPersist(w.store, run, tick);
  }

  /** Saving and advancing logs only what concerns references the saved run has. */
  lemma SaveAndAdvanceIsQuiet(w: World, run: Run, adv: AdvanceInput, out: Outside, tick: Tick, next: nat, steps: seq<Step>)
    requires FewerReferences(steps, run.steps)
    ensures QuietLog(w.log, Advance(Save(w, run, tick), run.id, adv, out, next).world.log, steps)
  {
    hide Hydrate, Persist, Advance, Reread, HadReferences, InputsKept;
    SaveKeepsInputs(w, run, tick);
    KeptInputs(run.steps, Reread(w, run).steps);
    AdvanceIsQuiet(Save(w, run, tick), Reread(w, run), adv, out, next);
    QuietThen(w.log, w.log, Advance(Save(w, run, tick), run.id, adv, out, next).world.log, steps, Reread(w, run).steps);
  }

  // ---------- What executing a step logs ----------

  /** Checked before an external step is queued. */
  predicate Queues(run: Run, i: nat, signature: Signature, approved: bool)
    requires i < |run.steps|
  {
    var s := run.steps[i];
    && s.risk == External && signature == Sign(run.id, s.id, s.tool, s.input, Owner(run))
    && s.status !in {Queued, Running, Done} && (approved || s.approved)
  }

  /** One effect of the step itself, and quiet entries after it. */
  predicate Begins(before: seq<Effect>, after: seq<Effect>, e: Effect, steps: seq<Step>) {
    QuietLog(before + [e], after, steps)
  }

  lemma ExecuteResolvedLogs(
    w: World, run: Run, i: nat, signature: Signature, approved: bool,
    outcome: Result<Value, string>, adv: AdvanceInput, out: Outside, tick: nat)
    requires i < |run.steps|
    ensures var after, s := ExecuteResolved(w, run, i, signature, approved, outcome, adv, out, tick).world.log, run.steps[i];
      if Queues(run, i, signature, approved) then after == w.log + [QueuedEffect(QueuedRun(run, i, approved, out).steps[i], approved)]
      else after == w.log || (s.risk != External && Begins(w.log, after, StartedEffect(StartedRun(run, i, approved, out).steps[i]), run.steps))
  {
    hide RunNow, Persist, Begins, QueuedRun, StartedRun;
    if run.steps[i].risk != External {
      RunNowLogs(w, run, i, approved, outcome, adv, out, tick);
    }
  }

  lemma RunNowLogs(
    w: World, run: Run, i: nat, approved: bool, outcome: Result<Value, string>, adv: AdvanceInput, out: Outside, tick: nat)
    requires i < |run.steps|
    ensures var started := StartedRun(run, i, approved, out);
      Begins(w.log, RunNow(w, started, i, outcome, adv, out, tick).world.log, StartedEffect(started.steps[i]), run.steps)
  {
    hide Advance, Persist, QuietLog, FewerReferences, InputsKept, StartedRun, FinishedRun, Merged;
    var started := StartedRun(run, i, approved, out);
    StartingKeepsInputs(run, i, approved, out);
    SameLength(run.steps, started.steps);
    var w1 := Save(w.(log := w.log + [StartedEffect(started.steps[i])]), started, out.ticks(tick));
    var saved := Saved(w, started);
    SaveKeepsInputs(w, started, out.ticks(tick));
    SameLength(started.steps, saved.steps);
    FinishingKeepsInputs(saved, i, outcome, false, out);
    InputsKeptThen(run.steps, started.steps, saved.steps);
    InputsKeptThen(run.steps, saved.steps, FinishedRun(saved, i, outcome, false, out).steps);
    KeptInputs(run.steps, FinishedRun(saved, i, outcome, false, out).steps);
    assert saved.id == started.id;
    SaveAndAdvanceIsQuiet(w1, FinishedRun(saved, i, outcome, false, out), adv, out, out.ticks(tick + 1), tick + 2, run.steps);
  }

  lemma StartingKeepsInputs(run: Run, i: nat, approved: bool, out: Outside)
    requires i < |run.steps|
    ensures InputsKept(run.steps, StartedRun(run, i, approved, out).steps) && StartedRun(run, i, approved, out).id == run.id
  {
    hide HasNoReferences;
  }

  lemma FinishingKeepsInputs(run: Run, i: nat, outcome: Result<Value, string>, background: bool, out: Outside)
    requires i < |run.steps|
    ensures InputsKept(run.steps, FinishedRun(run, i, outcome, background, out).steps)
    ensures FinishedRun(run, i, outcome, background, out).id == run.id
  {
    hide HasNoReferences, AllTerminal;
  }

  /** Executing on request adds nothing, queues the external step, or fills in and starts another one. */
  predicate ExecuteAdds(before: seq<Effect>, after: seq<Effect>, stored: Run, i: int, queues: bool, approved: bool, out: Outside) {
    if queues then 0 <= i < |stored.steps| && after == before + [QueuedEffect(QueuedRun(stored, i, approved, out).steps[i], approved)]
    else NeitherQueuesNorSends(before, after, stored.steps)
  }

  predicate IsNeither(e: Effect, steps: seq<Step>) { IsQuiet(e, steps) || (e.StartedEffect? && e.step.risk != External) }

  predicate NeitherQueuesNorSends(before: seq<Effect>, after: seq<Effect>, steps: seq<Step>) {
    before <= after && forall k | |before| <= k < |after| :: IsNeither(after[k], steps)
  }

  lemma QuietIsNeither(a: seq<Effect>, b: seq<Effect>, c: seq<Effect>, was: seq<Step>, now: seq<Step>)
    requires NeitherQueuesNorSends(a, b, was) && QuietLog(b, c, now) && FewerReferences(was, now)
    ensures NeitherQueuesNorSends(a, c, was)
  {
    hide HadReferences;
    forall k | |a| <= k < |c|
      ensures IsNeither(c[k], was)
    {
      if k < |b| {
        assert c[k] == b[k];
      }
    }
  }

  lemma ExecuteLogs(
    w: World, stored: Run, user: Actor, stepId: string, signature: Signature, approved: bool,
    outcome: Result<Value, string>, adv: AdvanceInput, out: Outside)
    requires Hydrate(w.store, stored.id) == Some(stored)
    ensures var i := StepIndex(stored.steps, stepId);
      var queues := Owner(stored) == user && !Refused(stored, i, out.ticks(0).now) && HasNoReferences(stored.steps[i].input)
                    && Queues(stored, i, signature, approved);
      ExecuteAdds(w.log, ExecuteStep(w, stored.id, user, stepId, signature, approved, outcome, adv, out).world.log,
                  stored, i, queues, approved, out)
  {
    hide Hydrate, Persist, ExecuteResolved, ExecutePrepared, DependencyFailure, DependenciesSatisfied, HasNoReferences, Queues;
    hide QueuedRun, QuietLog, NeitherQueuesNorSends;
    var i := StepIndex(stored.steps, stepId);
    NothingAdded(w.log, stored.steps);
    if Owner(stored) == user && !Refused(stored, i, out.ticks(0).now) {
      if HasNoReferences(stored.steps[i].input) {
        ExecuteResolvedLogs(w, stored, i, signature, approved, outcome, adv, out, 0);
        if !Queues(stored, i, signature, approved) {
          ResolvedIsNeither(w, w.log, stored, stored, i, signature, approved, outcome, adv, out, 0);
        }
      } else {
        ExecutePreparedIsNeither(w, stored, i, signature, approved, outcome, adv, out);
      }
    }
  }

  lemma NothingAdded(log: seq<Effect>, steps: seq<Step>)
    ensures NeitherQueuesNorSends(log, log, steps) && QuietLog(log, log, steps) && FewerReferences(steps, steps)
  {
  }

  /** Unless it queues, executing a step after quiet entries is neither a queueing nor a sending. */
  lemma ResolvedIsNeither(
    w: World, before: seq<Effect>, stored: Run, run: Run, i: nat, signature: Signature, approved: bool,
    outcome: Result<Value, string>, adv: AdvanceInput, out: Outside, tick: nat)
    requires i < |run.steps| && QuietLog(before, w.log, stored.steps) && FewerReferences(stored.steps, run.steps)
    requires !Queues(run, i, signature, approved)
    ensures NeitherQueuesNorSends(before, ExecuteResolved(w, run, i, signature, approved, outcome, adv, out, tick).world.log, stored.steps)
  {
    hide ExecuteResolved, HadReferences, FewerReferences, Queues;
    ExecuteResolvedLogs(w, run, i, signature, approved, outcome, adv, out, tick);
    var e := StartedEffect(StartedRun(run, i, approved, out).steps[i]);
    var after := ExecuteResolved(w, run, i, signature, approved, outcome, adv, out, tick).world.log;
    if Begins(w.log, after, e, run.steps) && run.steps[i].risk != External {
      assert (w.log + [e])[|w.log|] == e;
      assert NeitherQueuesNorSends(before, w.log + [e], stored.steps);
      QuietIsNeither(before, w.log + [e], after, stored.steps, run.steps);
    }
  }

  lemma ExecutePreparedIsNeither(
    w: World, stored: Run, i: nat, signature: Signature, approved: bool,
    outcome: Result<Value, string>, adv: AdvanceInput, out: Outside)
    requires i < |stored.steps|
    ensures NeitherQueuesNorSends(w.log, ExecutePrepared(w, stored, i, signature, approved, outcome, adv, out).world.log, stored.steps)
  {
    hide Persist, ExecuteResolved, PreparationThrows, Prepare, Preparing, Saved, RequiresSecondaryConfirmation;
    hide NeitherQueuesNorSends, QuietLog, FewerReferences, InputsKept;
    NothingAdded(w.log, stored.steps);
    if !PreparationThrows(stored) {
      var prepared := Prepare(stored, Owner(stored), out.stamps);
      var w1, saved := Save(Preparing(w, stored), prepared, out.ticks(0)), Saved(w, prepared);
      PreparingIsQuiet(w, stored);
      PrepareKeepsInputs(stored, Owner(stored), out.stamps);
      SaveKeepsInputs(w, prepared, out.ticks(0));
      InputsKeptThen(stored.steps, prepared.steps, saved.steps);
      KeptInputs(stored.steps, saved.steps);
      SameLength(stored.steps, saved.steps);
      QuietIsNeither(w.log, w.log, w1.log, stored.steps, stored.steps);
      NothingAdded(w.log, stored.steps);
      if saved.steps[i].risk != External {
        ResolvedIsNeither(w1, w.log, stored, saved, i, signature, approved, outcome, adv, out, 1);
      }
    }
  }

  lemma SameLength(was: seq<Step>, now: seq<Step>)
    requires InputsKept(was, now)
    ensures |now| == |was|
  {
  }

  // ---------- What starting a step in the background logs ----------

  /** Quiet entries, and at the end the start of the stored step that is ready or queued. */
  predicate StartsInBackground(before: seq<Effect>, after: seq<Effect>, stored: Run, i: nat) {
    && i < |stored.steps| && after != []
    && QuietLog(before, after[..|after| - 1], stored.steps)
    && var e := after[|after| - 1];
       && e.StartedEffect? && stored.steps[i].status in {Ready, Queued}
       && var p := PreparedStep(stored.steps[i], stored, Owner(stored)); e.step == p.(error := "", status := Running)
  }

  lemma BeginLogs(w: World, stored: Run, stepId: string, adv: AdvanceInput, out: Outside)
    requires Hydrate(w.store, stored.id) == Some(stored)
    ensures var after, i := BeginQueued(w, stored.id, stepId, adv, out).world.log, StepIndex(stored.steps, stepId);
      QuietLog(w.log, after, stored.steps) || (i >= 0 && StartsInBackground(w.log, after, stored, i))
  {
    hide Hydrate, Persist, Advance, Prepare, Preparing, PreparedStep, QuietLog, FewerReferences, InputsKept, PreparationThrows;
    hide DependenciesSatisfied;
    NothingAdded(w.log, stored.steps);
    PreparingIsQuiet(w, stored);
    var prepared, w0 := Prepare(stored, Owner(stored), out.stamps), Preparing(w, stored);
    PrepareKeepsInputs(stored, Owner(stored), out.stamps);
    KeptInputs(stored.steps, prepared.steps);
    SaveAndAdvanceIsQuiet(w0, prepared, adv, out, out.ticks(0), 1, stored.steps);
    QuietThen(w.log, w0.log, Advance(Save(w0, prepared, out.ticks(0)), stored.id, adv, out, 1).world.log, stored.steps, stored.steps);
    var i := StepIndex(stored.steps, stepId);
    if i >= 0 {
      var e := StartedEffect(StartedRun(prepared, i, false, out).steps[i]);
      assert (w0.log + [e])[..|w0.log|] == w0.log;
    }
  }

  // ---------- What the other operations log ----------

  lemma FinishIsQuiet(w: World, stored: Run, outcome: Result<Value, string>, adv: AdvanceInput, out: Outside)
    requires w.flight.Some? ==> Airborne(w.flight.value, stored, w.log)
    ensures QuietLog(w.log, FinishQueued(w, stored.id, outcome, adv, out).world.log, stored.steps)
  {
    hide Hydrate, Persist, Advance, LandedRun, FinishedRun, RunOk, QuietLog, FewerReferences, HasNoReferences;
    NothingAdded(w.log, stored.steps);
    if w.flight.Some? {
      var f := w.flight.value;
      var i := StepIndex(f.run.steps, f.stepId);
      if i >= 0 {
        var finished := FinishedRun(f.run, i, outcome, true, out);
        FinishingKeepsInputs(f.run, i, outcome, true, out);
        assert InputsKept(stored.steps, f.run.steps);
        InputsKeptThen(stored.steps, f.run.steps, finished.steps);
        KeptInputs(stored.steps, finished.steps);
        SaveAndAdvanceIsQuiet(w.(flight := None), finished, adv, out, out.ticks(0), 1, stored.steps);
      }
    }
  }

  lemma SteerIsQuiet(w: World, stored: Run, user: Actor, input: string, active: bool, plan: Plan, out: Outside)
    requires Hydrate(w.store, stored.id) == Some(stored)
    ensures QuietLog(w.log, Steer(w, stored.id, user, input, active, plan, out).world.log, stored.steps)
  {
    hide Hydrate, Persist, ApplySteer, SteeredRun, Trim, QuietLog;
    NothingAdded(w.log, stored.steps);
    var steered := SteeredRun(stored, Take(Trim(input), 400), out);
    ApplySteerIsQuiet(Save(w, steered, out.ticks(0)), Saved(w, steered), plan, out, 1, stored.steps);
  }

  lemma ResumeIsQuiet(w: World, stored: Run, user: Actor, plan: Option<Plan>, notSent: bool, adv: AdvanceInput, out: Outside)
    requires Hydrate(w.store, stored.id) == Some(stored)
    ensures QuietLog(w.log, Resume(w, stored.id, user, plan, notSent, adv, out).world.log, stored.steps)
  {
    hide Hydrate, Persist, Advance, PlannedBatch, Narrows, Replanned, Told, SkipForResume, FewerReferences, HadReferences;
    NothingAdded(w.log, stored.steps);
    var continued := AddEvent(ResumedRun(stored, out), out.stamps, PlanEvent, "已从上次检查点恢复，正在继续完成原目标");
    SaveAndAdvanceIsQuiet(w, continued, adv, out, out.ticks(0), 1, stored.steps);
  }

  /** Only requests to execute, the background runner and restores log anything that is not quiet. */
  lemma OtherOpsAreQuiet(w: World, stored: Run, op: Op)
    requires Hydrate(w.store, stored.id) == Some(stored) && !op.Execute? && !op.Begin? && !op.GoBack?
    requires w.flight.Some? ==> Airborne(w.flight.value, stored, w.log)
    ensures QuietLog(w.log, Apply(w, stored.id, op).log, stored.steps)
  {
    hide Hydrate, Persist, Advance, FinishQueued, Steer, Resume, QuietLog, Airborne;
    NothingAdded(w.log, stored.steps);
    match op
    case Finish(outcome, adv, out) => FinishIsQuiet(w, stored, outcome, adv, out);
    case Move(adv, out) => AdvanceIsQuiet(w, stored, adv, out, 0);
    case Redirect(user, input, active, plan, out) => SteerIsQuiet(w, stored, user, input, active, plan, out);
    case Continuation(user, replan, notSent, adv, out) => ResumeIsQuiet(w, stored, user, replan, notSent, adv, out);
    case _ =>
  }

  // ---------- What a restore logs ----------

  ghost predicate RestoreSucceeds(w: World, id: string, op: Op) {
    op.GoBack? && !Restore(w, id, op.user, op.checkpointId, op.active, op.out).thrown
  }

  predicate AddsNotes(before: seq<Effect>, after: seq<Effect>) {
    before <= after && forall k | |before| <= k < |after| :: after[k].PutBackEffect? || after[k].RestoredEffect?
  }

  lemma RestoreAddsNotes(w: World, stored: Run, op: Op)
    requires op.GoBack?
    ensures AddsNotes(w.log, Apply(w, stored.id, op).log)
  {
    hide Hydrate, Persist, RestoredRun, FindCheckpoint, Merged, AddsNotes, Restoring, ExternalUnderWay, LosesWrite;
    forall run: Run {
      RestoringIsNotes(run, w.log);
    }
    NothingNoted(w.log);
  }

  lemma RestoringIsNotes(run: Run, log: seq<Effect>)
    ensures AddsNotes(log, log + Restoring(run))
  {
    assert forall k | 0 <= k < |PutBack(run.steps)| :: PutBack(run.steps)[k] in PutBack(run.steps);
  }

  lemma NothingNoted(log: seq<Effect>)
    ensures AddsNotes(log, log)
  {
  }

  /** The step is in the stored run as a write that is ready or failed, and not approved. */
  ghost predicate StoredAsPutBack(w: World, id: string, stepId: string) {
    Hydrate(w.store, id).Some? && exists s | s in Hydrate(w.store, id).value.steps :: s.id == stepId && IsPutBack(s) && !s.approved
  }

  /** Exactly the writes that a restore leaves ready or failed in the stored run go on record; no other operation does that. */
  lemma PutBacksComeFromRestores(w: World, stored: Run, op: Op, stepId: string)
    requires Hydrate(w.store, stored.id) == Some(stored) && (w.flight.Some? ==> Airborne(w.flight.value, stored, w.log))
    ensures var after := Apply(w, stored.id, op);
      w.log <= after.log
      && (PutBackEffect(stepId) in after.log[|w.log|..] <==> RestoreSucceeds(w, stored.id, op) && StoredAsPutBack(after, stored.id, stepId))
  {
    hide Hydrate, Persist, ExecuteStep, BeginQueued, Restore, HadReferences, Airborne, Refused, HasNoReferences, PreparedStep, IsPutBack;
    if op.Execute? {
      ExecuteLogs(w, stored, op.user, op.stepId, op.signature, op.approved, op.outcome, op.adv, op.out);
    } else if op.Begin? {
      BeginLogs(w, stored, op.stepId, op.adv, op.out);
    } else if op.GoBack? {
      RestoredIsOnRecord(w, stored, op, stepId);
    } else {
      OtherOpsAreQuiet(w, stored, op);
    }
  }

  lemma RestoredIsOnRecord(w: World, stored: Run, op: Op, stepId: string)
    requires Hydrate(w.store, stored.id) == Some(stored) && op.GoBack?
    ensures var after := Apply(w, stored.id, op);
      w.log <= after.log
      && (PutBackEffect(stepId) in after.log[|w.log|..] <==> RestoreSucceeds(w, stored.id, op) && StoredAsPutBack(after, stored.id, stepId))
  {
    hide Hydrate, Persist, RestoredRun, FindCheckpoint, Merged, ExternalUnderWay, LosesWrite, PutBack;
    if RestoreSucceeds(w, stored.id, op) {
      var c := FindCheckpoint(w.store.checkpoints, op.checkpointId, stored).value;
      var restored := RestoredRun(stored, c, op.out);
      var saved := Saved(w, restored);
      RestoredName(stored, c, op.out);
      HydrateAfterPersist(w.store, restored, op.out.ticks(0));
      assert Apply(w, stored.id, op).log == w.log + Restoring(saved);
      assert (w.log + Restoring(saved))[|w.log|..] == Restoring(saved);
      SavedIsUnapproved(w, stored, c, op.out);
      SameWhenReadBack(saved, stepId);
    }
  }

  lemma SavedIsUnapproved(w: World, stored: Run, c: Checkpoint, out: Outside)
    ensures forall s | s in Saved(w, RestoredRun(stored, c, out)).steps && s.risk == Write :: !s.approved
  {
    hide Sign, HasMark;
    var restored := RestoredRun(stored, c, out);
    var saved := Saved(w, restored);
    assert restored.steps == RestoredSteps(stored, c.snapshot.steps);
    forall i | 0 <= i < |saved.steps| && saved.steps[i].risk == Write
      ensures !saved.steps[i].approved
    {
      assert restored.steps[i].risk == saved.steps[i].risk;
    }
  }

  predicate HasPutBack(steps: seq<Step>, id: string) { exists s | s in steps :: s.id == id && IsPutBack(s) }

  lemma SamePlacesSamePutBack(was: seq<Step>, now: seq<Step>, id: string)
    requires |now| == |was| && forall i | 0 <= i < |was| :: now[i].id == was[i].id && IsPutBack(now[i]) == IsPutBack(was[i])
    ensures HasPutBack(was, id) ==> HasPutBack(now, id)
  {
    hide IsPutBack;
    if HasPutBack(was, id) {
      var s :| s in was && s.id == id && IsPutBack(s);
      var i :| 0 <= i < |was| && was[i] == s;
      assert now[i] in now;
    }
  }

  lemma SameWhenReadBack(saved: Run, stepId: string)
    requires forall s | s in saved.steps && s.risk == Write :: !s.approved
    ensures HasPutBack(saved.steps, stepId)
       <==> exists s | s in ReadBack(saved).steps :: s.id == stepId && IsPutBack(s) && !s.approved
  {
    var now := ReadBack(saved).steps;
    forall i | 0 <= i < |now|
      ensures now[i].risk == Write ==> !now[i].approved
    {
      assert saved.steps[i] in saved.steps;
    }
    SamePlacesSamePutBack(saved.steps, now, stepId);
    SamePlacesSamePutBack(now, saved.steps, stepId);
  }

  /** No restore among the entries added. */
  predicate AddsNoRestore(before: seq<Effect>, after: seq<Effect>) {
    before <= after && forall k | |before| <= k < |after| :: !after[k].RestoredEffect?
  }

  lemma StaysAsClosed(before: seq<Effect>, after: seq<Effect>)
    requires AddsNoRestore(before, after)
    ensures LeftClosed(after) <==> LeftClosed(before)
  {
    if LeftClosed(before) {
      var k :| 0 <= k < |before| && before[k] == RestoredEffect(true) && RestoredEffect(false) !in before[k..];
      assert after[k..] == before[k..] + after[|before|..];
    }
    if LeftClosed(after) {
      var k :| 0 <= k < |after| && after[k] == RestoredEffect(true) && RestoredEffect(false) !in after[k..];
      assert after[k..] == before[k..] + after[|before|..];
    }
  }

  /** Only a restore that goes through changes whether the last restore left nothing to do. */
  lemma ClosedByRestoresOnly(w: World, stored: Run, op: Op)
    requires Hydrate(w.store, stored.id) == Some(stored) && (w.flight.Some? ==> Airborne(w.flight.value, stored, w.log))
    requires !RestoreSucceeds(w, stored.id, op)
    ensures LeftClosed(Apply(w, stored.id, op).log) <==> LeftClosed(w.log)
  {
    hide Hydrate, Persist, ExecuteStep, BeginQueued, HadReferences, Airborne, Refused, HasNoReferences, PreparedStep, LeftClosed;
    if op.Execute? {
      ExecuteLogs(w, stored, op.user, op.stepId, op.signature, op.approved, op.outcome, op.adv, op.out);
    } else if op.Begin? {
      BeginLogs(w, stored, op.stepId, op.adv, op.out);
    } else if !op.GoBack? {
      OtherOpsAreQuiet(w, stored, op);
    }
    StaysAsClosed(w.log, Apply(w, stored.id, op).log);
  }

  // ---------- Where queueings come from ----------

  /** What a request to execute must carry for the stored step `t` to be queued as `s`. */
  predicate Authorizes(stored: Run, t: Step, s: Step, op: Op)
    requires op.Execute?
  {
    && op.user == Owner(stored) && op.stepId == s.id && op.signature == Sign(stored.id, s.id, s.tool, s.input, Owner(stored))
    && s == t.(error := "", status := Queued, approved := true) && s.risk == External && (op.approved || t.approved)
  }

  /**
   Every queueing an operation adds, however often the same step was queued before, comes from one
   request to execute it, by the owner of the run, carrying the signature of exactly the input that is
   queued; it is the only entry that request adds, and it says whether the request approved the step.
   */
  lemma QueueingsComeFromExecute(w: World, stored: Run, op: Op, k: nat) returns (t: Step)
    requires Hydrate(w.store, stored.id) == Some(stored) && (w.flight.Some? ==> Airborne(w.flight.value, stored, w.log))
    requires |w.log| <= k < |Apply(w, stored.id, op).log| && Apply(w, stored.id, op).log[k].QueuedEffect?
    ensures op.Execute? && t in stored.steps && k == |w.log|
    ensures var e := Apply(w, stored.id, op).log[k];
      && Apply(w, stored.id, op).log == w.log + [e]
      && Authorizes(stored, t, e.step, op) && (e.confirmed <==> op.approved)
  {
    hide Hydrate, Persist, ExecuteStep, BeginQueued, HadReferences, Airborne, Refused, HasNoReferences, PreparedStep;
    if op.Execute? {
      var i := StepIndex(stored.steps, op.stepId);
      ExecuteLogs(w, stored, op.user, op.stepId, op.signature, op.approved, op.outcome, op.adv, op.out);
      RefusedWithoutStep(stored, i, op.out.ticks(0).now);
      t := stored.steps[i];
    } else if op.Begin? {
      BeginLogs(w, stored, op.stepId, op.adv, op.out);
      assert false;
    } else if op.GoBack? {
      RestoreAddsNotes(w, stored, op);
      assert false;
    } else {
      OtherOpsAreQuiet(w, stored, op);
      assert false;
    }
  }

  lemma RefusedWithoutStep(run: Run, i: int, now: int)
    requires i < |run.steps|
    ensures i < 0 ==> Refused(run, i, now)
  {
  }

  /** A queueing that the request behind it did not approve. */
  predicate AddsUnconfirmed(before: seq<Effect>, after: seq<Effect>) {
    exists k | |before| <= k < |after| :: after[k].QueuedEffect? && !after[k].confirmed
  }

  /**
   An external step is queued without a new approval exactly when it failed after it was approved, and
   the request is otherwise in order: the old approval is still on the step.
   */
  lemma QueuedWithoutApprovalIff(
    w: World, stored: Run, user: Actor, stepId: string, signature: Signature, approved: bool,
    outcome: Result<Value, string>, adv: AdvanceInput, out: Outside)
    requires Hydrate(w.store, stored.id) == Some(stored) && RunOk(stored, w.log)
    ensures var i := StepIndex(stored.steps, stepId);
      AddsUnconfirmed(w.log, ExecuteStep(w, stored.id, user, stepId, signature, approved, outcome, adv, out).world.log)
      <==> (user == Owner(stored) && !Refused(stored, i, out.ticks(0).now) && signature == stored.steps[i].signature
            && stored.steps[i].risk == External && stored.steps[i].status == Failed && stored.steps[i].approved && !approved)
  {
    hide Hydrate, Persist, ExecuteStep, HadReferences, HasNoReferences, DependencyFailure, DependenciesSatisfied, FinishedRests, GraphOk;
    var i := StepIndex(stored.steps, stepId);
    ExecuteLogs(w, stored, user, stepId, signature, approved, outcome, adv, out);
    var after := ExecuteStep(w, stored.id, user, stepId, signature, approved, outcome, adv, out).world.log;
    if i >= 0 {
      assert stored.steps[i] in stored.steps && StepOk(stored, stored.steps[i], w.log);
      var e := QueuedEffect(QueuedRun(stored, i, approved, out).steps[i], approved);
      assert (w.log + [e])[|w.log|] == e;
    }
  }

  // ---------- Where external actions come from ----------

  /** Preparing leaves a queued payload as it is. */
  lemma QueuedIsNotPrepared(stored: Run, t: Step, log: seq<Effect>)
    requires StepOk(stored, t, log) && t.status in {Ready, Queued}
    ensures PreparedStep(t, stored, Owner(stored)).risk == External ==>
      t.status == Queued && t.approved && PreparedStep(t, stored, Owner(stored)) == t
  {
    hide Resolve;
  }

  /**
   An external action is started only from the queue: the stored step is queued and approved, and it
   runs with exactly the stored input.
   */
  lemma SendsComeFromTheQueue(w: World, stored: Run, op: Op, k: nat) returns (t: Step)
    requires Hydrate(w.store, stored.id) == Some(stored) && RunOk(stored, w.log)
    requires w.flight.Some? ==> Airborne(w.flight.value, stored, w.log)
    requires |w.log| <= k < |Apply(w, stored.id, op).log|
    requires var e := Apply(w, stored.id, op).log[k]; e.StartedEffect? && e.step.risk == External
    ensures var s := Apply(w, stored.id, op).log[k].step;
      && op.Begin? && op.stepId == s.id && t in stored.steps && t.status == Queued && t.approved
      && s == t.(error := "", status := Running)
  {
    hide Hydrate, Persist, ExecuteStep, BeginQueued, HadReferences, Airborne, Refused, HasNoReferences, PreparedStep, StepOk;
    if op.Execute? {
      ExecuteLogs(w, stored, op.user, op.stepId, op.signature, op.approved, op.outcome, op.adv, op.out);
      assert false;
    } else if op.Begin? {
      BeginLogs(w, stored, op.stepId, op.adv, op.out);
      t := stored.steps[StepIndex(stored.steps, op.stepId)];
      assert k == |Apply(w, stored.id, op).log| - 1;
      QueuedIsNotPrepared(stored, t, w.log);
    } else if op.GoBack? {
      RestoreAddsNotes(w, stored, op);
      assert false;
    } else {
      OtherOpsAreQuiet(w, stored, op);
      assert false;
    }
  }

  // ---------- Where fillings come from ----------

  /** Only a step that has references in the stored run is ever filled in. */
  lemma FillingsComeFromReferences(w: World, stored: Run, op: Op, k: nat)
    requires Hydrate(w.store, stored.id) == Some(stored) && (w.flight.Some? ==> Airborne(w.flight.value, stored, w.log))
    ensures w.log <= Apply(w, stored.id, op).log
    ensures |w.log| <= k < |Apply(w, stored.id, op).log| && Apply(w, stored.id, op).log[k].FilledInEffect? ==>
      HadReferences(stored.steps, Apply(w, stored.id, op).log[k].stepId)
  {
    hide Hydrate, Persist, ExecuteStep, BeginQueued, HadReferences, Airborne, Refused, HasNoReferences, PreparedStep;
    if op.Execute? {
      ExecuteLogs(w, stored, op.user, op.stepId, op.signature, op.approved, op.outcome, op.adv, op.out);
    } else if op.Begin? {
      BeginLogs(w, stored, op.stepId, op.adv, op.out);
    } else if op.GoBack? {
      RestoreAddsNotes(w, stored, op);
    } else {
      OtherOpsAreQuiet(w, stored, op);
    }
  }

  /** The mission had the step with references in it at some point of the run. */
  ghost predicate OnceHadReferences(w: World, id: string, ops: seq<Op>, stepId: string) {
    exists n: nat | n <= |ops| :: HadReferencesIn(Exec(w, id, ops[..n]), id, stepId)
  }

  ghost predicate HadReferencesIn(w: World, id: string, stepId: string) {
    Hydrate(w.store, id).Some? && HadReferences(Hydrate(w.store, id).value.steps, stepId)
  }

  lemma {:induction false} FilledInHadReferences(w: World, stored: Run, ops: seq<Op>, stepId: string)
    requires WorldOk(w, stored.id) && Hydrate(w.store, stored.id) == Some(stored) && Possible(w, stored.id, ops)
    ensures FilledInEffect(stepId) in Exec(w, stored.id, ops).log ==>
      FilledInEffect(stepId) in w.log || OnceHadReferences(w, stored.id, ops, stepId)
    decreases |ops|
  {
    hide Apply, Allowed, Hydrate, RunOk, LogOk, CompletedOk, CheckpointOk, HadReferences, Airborne;
    if ops != [] && FilledInEffect(stepId) in Exec(w, stored.id, ops).log && FilledInEffect(stepId) !in w.log {
      OpOk(w, stored, ops[0]);
      var w1, id := Apply(w, stored.id, ops[0]), stored.id;
      if FilledInEffect(stepId) in w1.log {
        var k :| 0 <= k < |w1.log| && w1.log[k] == FilledInEffect(stepId);
        FillingsComeFromReferences(w, stored, ops[0], k);
        assert Exec(w, id, ops[..0]) == w;
      } else {
        FilledInHadReferences(w1, Hydrate(w1.store, id).value, ops[1..], stepId);
        var n: nat :| n <= |ops| - 1 && HadReferencesIn(Exec(w1, id, ops[1..][..n]), id, stepId);
        assert ops[..n + 1][1..] == ops[1..][..n] && ops[..n + 1][0] == ops[0];
        assert Exec(w, id, ops[..n + 1]) == Exec(w1, id, ops[1..][..n]);
      }
    }
  }

  /**
   From its creation on, a write that never had references and was not put back by a restore before it
   starts, starts only approved.
   */
  lemma ReferenceFreeWritesStartApproved(
    store: Store, run: Run, plan: Plan, conversation: bool, out: Outside, ops: seq<Op>, w: World, k: nat)
    requires Reaches(store, run, plan, conversation, out, ops, w)
    requires k < |w.log| && w.log[k].StartedEffect? && w.log[k].step.risk == Write
    requires PutBackEffect(w.log[k].step.id) !in w.log[..k]
    requires var created := CreatePlan(store, run, plan, conversation, out).value;
      !OnceHadReferences(created, run.id, ops, w.log[k].step.id)
    ensures w.log[k].step.approved
  {
    hide CreatePlan, Possible, Exec, Hydrate, RunOk, LogOk, CompletedOk, CheckpointOk, FlightOk, FreshItems, NewRunId;
    hide OnceHadReferences;
    var created, s := CreatePlan(store, run, plan, conversation, out).value, w.log[k].step;
    CreatePlanOk(store, run, plan, conversation, out);
    CreatedLog(store, run, plan, conversation, out);
    assert Reachable(w, run.id);
    EveryWriteWasCleared(w, run.id, k);
    FilledInHadReferences(created, Hydrate(created.store, run.id).value, ops, s.id);
    assert FilledInEffect(s.id) in w.log[..k] ==> FilledInEffect(s.id) in w.log;
  }

  lemma CreatedLog(store: Store, run: Run, plan: Plan, conversation: bool, out: Outside)
    ensures var created := CreatePlan(store, run, plan, conversation, out);
      created.Some? ==> forall e | e in created.value.log :: e.NarrowedEffect?
  {
    hide Persist, PlannedBatch, Narrows, Told;
  }

  // ---------- Stopped missions ----------

  /** While a mission is paused, cancelled or completed it is neither advanced nor are steps of it taken up. */
  lemma StoppedDoesNotMove(w: World, stored: Run, op: Op)
    requires Hydrate(w.store, stored.id) == Some(stored) && stored.status in {Paused, RunStatus.Cancelled, Completed}
    requires op.Execute? || op.Begin? || op.Move?
    ensures Apply(w, stored.id, op) == w
  {
    hide Hydrate, Persist, Dispatch, ExecuteResolved, ExecutePrepared, BeginPrepared;
    if op.Move? && !PreparationThrows(stored) {
      assert NodeOf(Prepare(stored, Owner(stored), op.out.stamps)) == Terminal;
    }
  }
}
