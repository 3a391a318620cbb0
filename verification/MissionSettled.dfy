/** What was sent stays sent: no operation, restores included, takes a finished external step back. */
module MissionSettled {
  import opened Prelude
  import opened Values
  import opened AgentTypes
  import opened References
  import opened Planning
  import opened Recovery
  import opened Runs
  import opened Collections
  import opened RunStore
  import opened Mission
  import opened MissionInvariant
  import opened MissionSave
  import opened MissionPasses
  import opened MissionMoves
  import opened MissionOps
  import opened MissionAdvance
  import opened MissionExecute
  import opened MissionFlight
  import opened MissionReplan
  import opened MissionRestore
  import opened MissionRuns
  import opened MissionStores
  import opened MissionLog
  import opened MissionEffects
  import Verifier

  // ---------- Steps that were sent ----------

  predicate IsSent(s: Step) { s.risk == External && ToolRisk(s.tool) == External && s.status == Done }

  /** The same step, still done, with the same input and the same result. */
  predicate SameSent(s: Step, t: Step) {
    t.id == s.id && t.tool == s.tool && t.risk == s.risk && t.status == Done && t.input == s.input && t.result == s.result
  }

  /** Everything sent is still there. */
  predicate KeepsSent(was: seq<Step>, now: seq<Step>) {
    forall s | s in was && IsSent(s) :: exists t | t in now :: SameSent(s, t)
  }

  ghost predicate KeepsSentIn(was: seq<Step>, w: World, id: string) {
    Hydrate(w.store, id).Some? && KeepsSent(was, Hydrate(w.store, id).value.steps)
  }

  lemma KeepsSentThen(a: seq<Step>, b: seq<Step>, c: seq<Step>)
    requires KeepsSent(a, b) && KeepsSent(b, c)
    ensures KeepsSent(a, c)
  {
    forall s | s in a && IsSent(s)
      ensures exists t | t in c :: SameSent(s, t)
    {
      var t :| t in b && SameSent(s, t);
      var u :| u in c && SameSent(t, u);
      assert SameSent(s, u);
    }
  }

  lemma KeepsSentItself(steps: seq<Step>)
    ensures KeepsSent(steps, steps)
  {
    forall s | s in steps && IsSent(s)
      ensures exists t | t in steps :: SameSent(s, t)
    {
      assert SameSent(s, s);
    }
  }

  lemma KeepsSentInThen(a: seq<Step>, b: seq<Step>, w: World, id: string)
    requires KeepsSent(a, b) && KeepsSentIn(b, w, id)
    ensures KeepsSentIn(a, w, id)
  {
    hide Hydrate, KeepsSent;
    KeepsSentThen(a, b, Hydrate(w.store, id).value.steps);
  }

  // ---------- Passes and saves ----------

  lemma SettledKeepsSent(was: seq<Step>, now: seq<Step>)
    requires |was| <= |now| && forall i | 0 <= i < |was| :: Settles(was[i], now[i]) || !IsSent(was[i])
    ensures KeepsSent(was, now)
  {
    forall s | s in was && IsSent(s)
      ensures exists t | t in now :: SameSent(s, t)
    {
      var i :| 0 <= i < |was| && was[i] == s;
      assert now[i] in now && SameSent(s, now[i]);
    }
  }

  lemma FollowingKeepsSent(run: Run, now: Run)
    requires Follows(run, now)
    ensures KeepsSent(run.steps, now.steps)
  {
    hide Settles;
    SettledKeepsSent(run.steps, now.steps);
  }

  lemma SavingKeepsSent(w: World, was: seq<Step>, run: Run, tick: Tick)
    requires KeepsSent(was, run.steps)
    ensures KeepsSentIn(was, Save(w, run, tick), run.id) && KeepsSent(was, Saved(w, run).steps)
    ensures Hydrate(Save(w, run, tick).store, run.id) == Some(Reread(w, run)) && Reread(w, run).id == run.id
  {
    hide Hydrate, Persist, Follows, KeepsSent, Merged;
    HydrateAfterPersist(w.store, run, tick);
    MergedFollows(w, run);
    FollowingKeepsSent(run, Reread(w, run));
    FollowingKeepsSent(run, Saved(w, run));
    KeepsSentThen(was, run.steps, Reread(w, run).steps);
    KeepsSentThen(was, run.steps, Saved(w, run).steps);
  }

  // ---------- Advancing ----------

  /** The rewound observer only reads. */
  lemma RewindingKeepsSent(run: Run, now: Run, t: nat)
    requires FollowsBut(run, now, t) && IsPolled(run.steps[t].tool)
    ensures KeepsSent(run.steps, now.steps)
  {
    hide Settles;
    SettledKeepsSent(run.steps, now.steps);
  }

  lemma AdvancingKeepsSent(w: World, stored: Run, adv: AdvanceInput, out: Outside, tick: nat)
    requires Hydrate(w.store, stored.id) == Some(stored)
    ensures KeepsSentIn(stored.steps, Advance(w, stored.id, adv, out, tick).world, stored.id)
  {
    hide Hydrate, Persist, Advance, RewoundBy, Follows, FollowsBut, KeepsSent;
    if IsStopped(stored.status) {
      StoppedDoesNotAdvance(w, stored, adv, out, tick);
      KeepsSentItself(stored.steps);
    } else {
      AdvanceStores(w, stored, adv, out, tick);
      var now := Hydrate(Advance(w, stored.id, adv, out, tick).world.store, stored.id).value;
      var target := RewoundBy(stored, adv, out);
      if target.Some? {
        RewindingKeepsSent(stored, now, target.value);
      } else {
        FollowingKeepsSent(stored, now);
      }
    }
  }

  lemma StoppedDoesNotAdvance(w: World, stored: Run, adv: AdvanceInput, out: Outside, tick: nat)
    requires Hydrate(w.store, stored.id) == Some(stored) && IsStopped(stored.status)
    ensures Advance(w, stored.id, adv, out, tick).world == w
  {
    hide Hydrate, Persist, Dispatch;
    if !PreparationThrows(stored) {
      assert NodeOf(Prepare(stored, Owner(stored), out.stamps)) == Terminal;
    }
  }

  lemma SaveThenAdvanceKeepsSent(w: World, was: seq<Step>, run: Run, adv: AdvanceInput, out: Outside, tick: Tick, next: nat)
    requires KeepsSent(was, run.steps)
    ensures KeepsSentIn(was, Advance(Save(w, run, tick), run.id, adv, out, next).world, run.id)
  {
    hide Hydrate, Persist, Advance, KeepsSent, Reread;
    SavingKeepsSent(w, was, run, tick);
    AdvancingKeepsSent(Save(w, run, tick), Reread(w, run), adv, out, next);
    KeepsSentInThen(was, Reread(w, run).steps, Advance(Save(w, run, tick), run.id, adv, out, next).world, run.id);
  }

  // ---------- Executing on request ----------

  lemma UpdateKeepsSent(steps: seq<Step>, i: nat, s: Step)
    requires i < |steps| && steps[i].status != Done
    ensures KeepsSent(steps, steps[i := s])
  {
    SettledKeepsSent(steps, steps[i := s]);
  }

  lemma RunningKeepsSent(
    w: World, run: Run, i: nat, approved: bool, outcome: Result<Value, string>, adv: AdvanceInput, out: Outside, tick: nat)
    requires i < |run.steps| && run.steps[i].status != Done
    ensures KeepsSentIn(run.steps, RunNow(w, StartedRun(run, i, approved, out), i, outcome, adv, out, tick).world, run.id)
  {
    hide Hydrate, Persist, Advance, KeepsSent, StartedRun, Reread, Saved, FinishedRun;
    var started := StartedRun(run, i, approved, out);
    StartedSteps(run, i, approved, out);
    UpdateKeepsSent(run.steps, i, started.steps[i]);
    var w1 := Save(w.(log := w.log + [StartedEffect(started.steps[i])]), started, out.ticks(tick));
    SavingKeepsSent(w, run.steps, started, out.ticks(tick));
    var saved := Saved(w, started);
    StillRuns(w, started, i);
    FinishedSteps(saved, i, outcome, out);
    var finished := FinishedRun(saved, i, outcome, false, out);
    UpdateKeepsSent(saved.steps, i, finished.steps[i]);
    KeepsSentThen(run.steps, saved.steps, finished.steps);
    SaveThenAdvanceKeepsSent(w1, run.steps, finished, adv, out, out.ticks(tick + 1), tick + 2);
  }

  lemma StartedSteps(run: Run, i: nat, approved: bool, out: Outside)
    requires i < |run.steps|
    ensures var now := StartedRun(run, i, approved, out);
      && i < |now.steps| && now.id == run.id && now.steps == run.steps[i := now.steps[i]] && now.steps[i].status == Running
  {
  }

  lemma StillRuns(w: World, run: Run, i: nat)
    requires i < |run.steps| && run.steps[i].status == Running
    ensures i < |Saved(w, run).steps| && Saved(w, run).steps[i].status == Running && Saved(w, run).id == run.id
  {
  }

  lemma FinishedSteps(run: Run, i: nat, outcome: Result<Value, string>, out: Outside)
    requires i < |run.steps|
    ensures forall background :: var now := FinishedRun(run, i, outcome, background, out);
      && i < |now.steps| && now.id == run.id && now.steps == run.steps[i := now.steps[i]]
  {
    hide AllTerminal;
  }

  lemma ResolvedKeepsSent(
    w: World, run: Run, i: nat, signature: Signature, approved: bool,
    outcome: Result<Value, string>, adv: AdvanceInput, out: Outside, tick: nat)
    requires i < |run.steps|
    ensures var after := ExecuteResolved(w, run, i, signature, approved, outcome, adv, out, tick).world;
      after == w || KeepsSentIn(run.steps, after, run.id)
  {
    hide Hydrate, Persist, RunNow, KeepsSent, StartedRun, KeepsSentIn;
    var s := run.steps[i];
    if s.status !in {Queued, Running, Done} {
      RunningKeepsSent(w, run, i, approved, outcome, adv, out, tick);
      var queued := QueuedRun(run, i, approved, out);
      UpdateKeepsSent(run.steps, i, queued.steps[i]);
      SavingKeepsSent(w.(log := w.log + [QueuedEffect(queued.steps[i], approved)]), run.steps, queued, out.ticks(tick));
    }
  }

  lemma FilledInKeepsSent(
    w: World, stored: Run, i: nat, signature: Signature, approved: bool, outcome: Result<Value, string>, adv: AdvanceInput, out: Outside)
    requires KeepsSentIn(stored.steps, w, stored.id) && i < |stored.steps|
    ensures KeepsSentIn(stored.steps, ExecutePrepared(w, stored, i, signature, approved, outcome, adv, out).world, stored.id)
  {
    hide Hydrate, Persist, ExecuteResolved, KeepsSent, KeepsSentIn, Prepare, Preparing, PreparationThrows, Saved;
    hide RequiresSecondaryConfirmation;
    var prepared := Prepare(stored, Owner(stored), out.stamps);
    var w1, saved := Save(Preparing(w, stored), prepared, out.ticks(0)), Saved(w, prepared);
    PreparingKeepsSent(w, stored, out);
    PreparedLength(w, stored, out);
    ResolvedKeepsSent(w1, saved, i, signature, approved, outcome, adv, out, 1);
    var after := ExecuteResolved(w1, saved, i, signature, approved, outcome, adv, out, 1).world;
    if after != w1 {
      KeepsSentInThen(stored.steps, saved.steps, after, stored.id);
    }
  }

  lemma PreparedLength(w: World, stored: Run, out: Outside)
    ensures |Saved(w, Prepare(stored, Owner(stored), out.stamps)).steps| == |stored.steps|
  {
    hide Prepare;
  }

  lemma ExecutingKeepsSent(
    w: World, stored: Run, user: Actor, stepId: string, signature: Signature, approved: bool,
    outcome: Result<Value, string>, adv: AdvanceInput, out: Outside)
    requires Hydrate(w.store, stored.id) == Some(stored)
    ensures KeepsSentIn(stored.steps, ExecuteStep(w, stored.id, user, stepId, signature, approved, outcome, adv, out).world, stored.id)
  {
    hide Hydrate, Persist, ExecuteResolved, ExecutePrepared, KeepsSent, Refused, HasNoReferences;
    KeepsSentItself(stored.steps);
    var i := StepIndex(stored.steps, stepId);
    if Owner(stored) == user && !Refused(stored, i, out.ticks(0).now) {
      RefusedWithoutStep(stored, i, out.ticks(0).now);
      ResolvedKeepsSent(w, stored, i, signature, approved, outcome, adv, out, 0);
      FilledInKeepsSent(w, stored, i, signature, approved, outcome, adv, out);
    }
  }

  lemma PreparingKeepsSent(w: World, stored: Run, out: Outside)
    ensures var prepared := Prepare(stored, Owner(stored), out.stamps);
      && KeepsSent(stored.steps, prepared.steps) && prepared.id == stored.id && Saved(w, prepared).id == stored.id
      && KeepsSentIn(stored.steps, Save(Preparing(w, stored), prepared, out.ticks(0)), stored.id)
      && KeepsSent(stored.steps, Saved(w, prepared).steps)
  {
    hide Hydrate, Persist, KeepsSent, Prepare, Follows, Merged;
    var prepared := Prepare(stored, Owner(stored), out.stamps);
    PreparedFollows(stored, Owner(stored), out.stamps);
    FollowingKeepsSent(stored, prepared);
    SavingKeepsSent(Preparing(w, stored), stored.steps, prepared, out.ticks(0));
  }

  // ---------- The background runner ----------

  lemma BeginningKeepsSent(w: World, stored: Run, stepId: string, adv: AdvanceInput, out: Outside)
    requires Hydrate(w.store, stored.id) == Some(stored)
    ensures KeepsSentIn(stored.steps, BeginQueued(w, stored.id, stepId, adv, out).world, stored.id)
  {
    hide Hydrate, Persist, Advance, KeepsSent, Prepare, Preparing, PreparationThrows, StartedRun, DependenciesSatisfied, Reread;
    KeepsSentItself(stored.steps);
    var i := StepIndex(stored.steps, stepId);
    if i >= 0 {
      var prepared, w0 := Prepare(stored, Owner(stored), out.stamps), Preparing(w, stored);
      PreparingKeepsSent(w, stored, out);
      SaveThenAdvanceKeepsSent(w0, stored.steps, prepared, adv, out, out.ticks(0), 1);
      if prepared.steps[i].status in {Ready, Queued} {
        var started := StartedRun(prepared, i, false, out);
        StartedSteps(prepared, i, false, out);
        UpdateKeepsSent(prepared.steps, i, started.steps[i]);
        KeepsSentThen(stored.steps, prepared.steps, started.steps);
        SavingKeepsSent(w0, stored.steps, started, out.ticks(0));
      }
    }
  }

  lemma FinishingKeepsSent(w: World, stored: Run, outcome: Result<Value, string>, adv: AdvanceInput, out: Outside)
    requires Hydrate(w.store, stored.id) == Some(stored) && (w.flight.Some? ==> Airborne(w.flight.value, stored, w.log))
    ensures KeepsSentIn(stored.steps, FinishQueued(w, stored.id, outcome, adv, out).world, stored.id)
  {
    hide Hydrate, Persist, Advance, KeepsSent, FinishedRun, Reread, RunOk, LandedRun;
    KeepsSentItself(stored.steps);
    if w.flight.Some? {
      var f, w0 := w.flight.value, w.(flight := None);
      var i := StepIndex(f.run.steps, f.stepId);
      var k := StillRunning(f, stored, w.log);
      if outcome.Ok? && stored.status in {Paused, RunStatus.Cancelled} {
        LandedSteps(stored, f.stepId, outcome.value, out);
        var j := StepIndex(stored.steps, f.stepId);
        LandsOnRunning(f, stored, w.log, j);
        if j >= 0 {
          UpdateKeepsSent(stored.steps, j, LandedRun(stored, f.stepId, outcome.value, out).steps[j]);
        }
        SavingKeepsSent(w0, stored.steps, LandedRun(stored, f.stepId, outcome.value, out), out.ticks(0));
      } else if i >= 0 {
        FlownKeepsSent(f, stored, w.log, i);
        FinishedSteps(f.run, i, outcome, out);
        UpdateKeepsSent(f.run.steps, i, FinishedRun(f.run, i, outcome, true, out).steps[i]);
        KeepsSentThen(stored.steps, f.run.steps, FinishedRun(f.run, i, outcome, true, out).steps);
        SaveThenAdvanceKeepsSent(w0, stored.steps, FinishedRun(f.run, i, outcome, true, out), adv, out, out.ticks(0), 1);
      }
    }
  }

  lemma LandedSteps(stored: Run, stepId: string, result: Value, out: Outside)
    ensures var now, j := LandedRun(stored, stepId, result, out), StepIndex(stored.steps, stepId);
      && now.id == stored.id
      && if j < 0 then now.steps == stored.steps else |now.steps| == |stored.steps| && now.steps == stored.steps[j := now.steps[j]]
  {
  }

  lemma LandsOnRunning(f: Flight, stored: Run, log: seq<Effect>, j: int)
    requires Airborne(f, stored, log) && j == StepIndex(stored.steps, f.stepId)
    ensures j >= 0 ==> stored.steps[j].status != Done
  {
    hide RunOk;
    if j >= 0 {
      assert f.run.steps[j] in f.run.steps && SameOrStopped(f.run.steps[j], stored.steps[j]);
    }
  }

  lemma FlownKeepsSent(f: Flight, stored: Run, log: seq<Effect>, i: int)
    requires Airborne(f, stored, log) && i == StepIndex(f.run.steps, f.stepId) && i >= 0
    ensures KeepsSent(stored.steps, f.run.steps) && f.run.steps[i].status != Done && f.run.id == stored.id
  {
    hide RunOk;
    assert f.run.steps[i] in f.run.steps;
    forall j | 0 <= j < |stored.steps|
      ensures Settles(stored.steps[j], f.run.steps[j]) || !IsSent(stored.steps[j])
    {
      assert SameOrStopped(f.run.steps[j], stored.steps[j]);
    }
    SettledKeepsSent(stored.steps, f.run.steps);
  }

  // ---------- Stops and new turns ----------

  lemma StoppingKeepsSent(was: seq<Step>, now: seq<Step>)
    requires AllLeftOrStopped(was, now)
    ensures KeepsSent(was, now)
  {
    forall i | 0 <= i < |was|
      ensures Settles(was[i], now[i])
    {
    }
    SettledKeepsSent(was, now);
  }

  lemma AppendingKeepsSent(was: seq<Step>, now: seq<Step>, batch: seq<Step>)
    requires KeepsSent(was, now)
    ensures KeepsSent(was, now + batch)
  {
    forall s | s in was && IsSent(s)
      ensures exists t | t in now + batch :: SameSent(s, t)
    {
      var t :| t in now && SameSent(s, t);
      assert t in now + batch;
    }
  }

  lemma PausingKeepsSent(w: World, stored: Run, user: Actor, out: Outside)
    requires Hydrate(w.store, stored.id) == Some(stored)
    ensures KeepsSentIn(stored.steps, Pause(w, stored.id, user, out).world, stored.id)
  {
    hide Hydrate, Persist, KeepsSent, PausedRun;
    KeepsSentItself(stored.steps);
    PausedFields(stored, out);
    SameIdPaused(stored, out);
    SavingKeepsSent(w, stored.steps, PausedRun(stored, out), out.ticks(0));
  }

  lemma SameIdPaused(stored: Run, out: Outside)
    ensures PausedRun(stored, out).id == stored.id && CancelledRun(stored, out).id == stored.id
    ensures CancelledRun(stored, out).steps == FailWaiting(stored.steps)
  {
  }

  lemma CancellingKeepsSent(w: World, stored: Run, user: Actor, out: Outside)
    requires Hydrate(w.store, stored.id) == Some(stored)
    ensures KeepsSentIn(stored.steps, CancelMission(w, stored.id, user, out).world, stored.id)
  {
    hide Hydrate, Persist, KeepsSent, CancelledRun, FailWaiting;
    KeepsSentItself(stored.steps);
    SameIdPaused(stored, out);
    FailWaitingStops(stored.steps);
    StoppingKeepsSent(stored.steps, FailWaiting(stored.steps));
    SavingKeepsSent(w, stored.steps, CancelledRun(stored, out), out.ticks(0));
  }

  lemma InstallingKeepsSent(w: World, run: Run, plan: Plan, out: Outside, tick: nat)
    ensures var o := ApplySteer(w, run, plan, out, tick); o.world == w || KeepsSentIn(run.steps, o.world, run.id)
  {
    hide Hydrate, Persist, KeepsSent, PlannedBatch, Narrows, SkipActive, Told, PendingSteer;
    if PendingSteer(run.events).Some? && PlannedBatch(run, plan).Some? {
      var kept, batch := SkipActive(run.steps, REPLACED), PlannedBatch(run, plan).value;
      var replanned := Replanned(run, kept, batch, plan, "等待用户批准修改后的动作");
      var applied := AddEvent(replanned, out.stamps, PlanEvent, STEER_APPLIED_MARK + PendingSteer(run.events).value.id);
      SkipActiveStops(run.steps, REPLACED);
      StoppingKeepsSent(run.steps, kept);
      AppendingKeepsSent(run.steps, kept, batch);
      ToldSteps(applied, plan, out);
      SavingKeepsSent(w.(log := Installing(w.log, run, plan)), run.steps, Told(applied, plan, out), out.ticks(tick));
    }
  }

  lemma ToldSteps(run: Run, plan: Plan, out: Outside)
    ensures Told(run, plan, out).steps == run.steps && Told(run, plan, out).id == run.id
  {
  }

  lemma SteeringKeepsSent(w: World, stored: Run, user: Actor, input: string, active: bool, plan: Plan, out: Outside)
    requires Hydrate(w.store, stored.id) == Some(stored)
    ensures KeepsSentIn(stored.steps, Steer(w, stored.id, user, input, active, plan, out).world, stored.id)
  {
    hide Hydrate, Persist, KeepsSent, ApplySteer, SteeredRun, Trim, SkipActive, KeepsSentIn, Saved;
    var steered := SteeredRun(stored, Take(Trim(input), 400), out);
    StoredKeepsSent(w, stored);
    SteeredSteps(stored, Take(Trim(input), 400), out);
    SkipActiveStops(stored.steps, REPLACED);
    StoppingKeepsSent(stored.steps, SkipActive(stored.steps, REPLACED));
    SavingKeepsSent(w, stored.steps, steered, out.ticks(0));
    var w1, saved := Save(w, steered, out.ticks(0)), Saved(w, steered);
    InstallingKeepsSent(w1, saved, plan, out, 1);
    SavedId(w, steered);
    if ApplySteer(w1, saved, plan, out, 1).world != w1 {
      KeepsSentInThen(stored.steps, saved.steps, ApplySteer(w1, saved, plan, out, 1).world, stored.id);
    }
  }

  lemma SavedId(w: World, run: Run)
    ensures Saved(w, run).id == run.id
  {
  }

  lemma StoredKeepsSent(w: World, stored: Run)
    requires Hydrate(w.store, stored.id) == Some(stored)
    ensures KeepsSentIn(stored.steps, w, stored.id)
  {
    hide Hydrate, KeepsSent;
    KeepsSentItself(stored.steps);
  }

  lemma SteeredSteps(stored: Run, text: string, out: Outside)
    ensures SteeredRun(stored, text, out).steps == SkipActive(stored.steps, REPLACED) && SteeredRun(stored, text, out).id == stored.id
  {
    hide SkipActive;
  }

  lemma ResumingKeepsSent(w: World, stored: Run, user: Actor, plan: Option<Plan>, notSent: bool, adv: AdvanceInput, out: Outside)
    requires Hydrate(w.store, stored.id) == Some(stored)
    ensures KeepsSentIn(stored.steps, Resume(w, stored.id, user, plan, notSent, adv, out).world, stored.id)
  {
    hide Hydrate, Persist, KeepsSent, KeepsSentIn, Advance, PlannedBatch, Narrows, SkipForResume, Told;
    StoredKeepsSent(w, stored);
    KeepsSentItself(stored.steps);
    var resumed, kept := ResumedRun(stored, out), SkipForResume(stored.steps, notSent);
    var continued := AddEvent(resumed, out.stamps, PlanEvent, "已从上次检查点恢复，正在继续完成原目标");
    SaveThenAdvanceKeepsSent(w, stored.steps, continued, adv, out, out.ticks(0), 1);
    SkipForResumeStops(stored.steps, notSent);
    StoppingKeepsSent(stored.steps, kept);
    if plan.Some? && PlannedBatch(resumed.(steps := kept), plan.value).Some? {
      var batch := PlannedBatch(resumed.(steps := kept), plan.value).value;
      var replanned := Replanned(resumed, kept, batch, plan.value, "等待用户确认写入动作");
      AppendingKeepsSent(stored.steps, kept, batch);
      ToldSteps(replanned, plan.value, out);
      SavingKeepsSent(w.(log := Installing(w.log, resumed.(steps := kept), plan.value)), stored.steps,
                      Told(replanned, plan.value, out), out.ticks(0));
    }
  }
}
