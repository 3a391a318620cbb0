/**
 The engine as `ai-agent.ts` runs it: a store whose tables the operations rewrite. Every method is
 proved to do what its specification in Mission says, and every operation on a mission in order to leave
 it in order, with all its events and with nothing sent more often than it was queued.
 */
module MissionEngine {
  import opened Prelude
  import opened Values
  import opened AgentTypes
  import opened References
  import opened WorkflowGraph
  import opened Planning
  import opened Recovery
  import opened Runs
  import opened Collections
  import opened RunStore
  import opened Mission
  import opened MissionInvariant
  import opened MissionPasses
  import MissionOps
  import MissionRuns
  import MissionLog
  import Verifier

  // ---------- What operations keep ----------

  /** The mission is in order and the operation may happen to it: the ids it draws are new. */
  ghost predicate MayHappen(w: World, id: string, op: MissionRuns.Op) {
    WorldOk(w, id) && MissionRuns.Allowed(w, Hydrate(w.store, id).value, op)
  }

  /** No payload was sent more often than the user approved it and it was queued again on an old approval. */
  ghost predicate SendsBounded(log: seq<Effect>) {
    forall stepId, input ::
      Starts(log, stepId, input) <= Confirmations(log, stepId, input) + Requeueings(log, stepId, input)
  }

  /** The mission is in order afterwards, none of its events and no entry of the log is lost, and sends are bounded. */
  ghost predicate Keeps(before: World, after: World, id: string) {
    && Hydrate(before.store, id).Some? && WorldOk(after, id)
    && Continues(Hydrate(before.store, id).value, Hydrate(after.store, id).value)
    && before.log <= after.log && SendsBounded(after.log)
  }

  lemma OperationKeeps(w: World, id: string, op: MissionRuns.Op)
    ensures MayHappen(w, id, op) ==> Keeps(w, MissionRuns.Apply(w, id, op), id)
  {
    hide MissionRuns.Apply, MissionRuns.Allowed, Hydrate, RunOk, CompletedOk, CheckpointOk, Airborne, Starts, SendsBounded;
    if MayHappen(w, id, op) {
      var stored := Hydrate(w.store, id).value;
      MissionRuns.OpOk(w, stored, op);
      MissionLog.FillingsComeFromReferences(w, stored, op, 0);
      BoundedWhenOk(MissionRuns.Apply(w, id, op), id);
    }
  }

  lemma RestartKeepsAll(w: World, stamps: Stamps)
    ensures forall id | MayHappen(w, id, MissionRuns.Reboot(stamps)) :: Keeps(w, Restart(w, stamps), id)
  {
    hide MayHappen, Keeps, Restart;
    forall id | MayHappen(w, id, MissionRuns.Reboot(stamps))
      ensures Keeps(w, Restart(w, stamps), id)
    {
      OperationKeeps(w, id, MissionRuns.Reboot(stamps));
    }
  }

  lemma RestartIs(w: World, stamps: Stamps)
    ensures Restart(w, stamps) == World(RecoverRows(w.store, |w.store.steps|, stamps), None, w.log)
  {
  }

  lemma BoundedWhenOk(w: World, id: string)
    requires WorldOk(w, id)
    ensures SendsBounded(w.log)
  {
    hide Hydrate, RunOk, CompletedOk, CheckpointOk, Airborne;
    forall stepId, input
      ensures Starts(w.log, stepId, input) <= Confirmations(w.log, stepId, input) + Requeueings(w.log, stepId, input)
    {
      QueuedEitherWay(w.log, stepId, input);
    }
  }

  class CrmStore {
    var runs: seq<RunRecord>
    var steps: seq<StepRecord>
    var events: seq<EventRecord>
    var checkpoints: seq<Checkpoint>
    var flight: Option<Flight>
    ghost var log: seq<Effect>

    function Tables(): Store
      reads this
    {
      Store(runs, steps, events, checkpoints)
    }

    ghost function State(): World
      reads this
    {
      World(Tables(), flight, log)
    }

    constructor ()
      ensures State() == World(Store([], [], [], []), None, [])
    {
      runs, steps, events, checkpoints := [], [], [], [];
      flight, log := None, [];
    }

    // ---------- Saving ----------

    /** The first loop of `persistAgentRunRecords`: stored skips win over the caller. */
    method MergeSteps(run: Run) returns (merged: Run)
      ensures merged == run.(steps := MergedSteps(run.steps, Filter(OfRun(run.id), steps)))
    {
      var own := Filter(OfRun(run.id), steps);
      merged := run;
      for i := 0 to |run.steps|
        invariant |merged.steps| == |run.steps| && merged == run.(steps := merged.steps)
        invariant forall j | 0 <= j < i :: merged.steps[j] == MergedStep(run.steps[j], StoredStep(own, run.steps[j].id))
        invariant forall j | i <= j < |run.steps| :: merged.steps[j] == run.steps[j]
      {
        var step := merged.steps[i];
        var stored := StoredStep(own, step.id);
        if stored.Some? && stored.value.status == Skipped && step.status != Done && step.status != Running {
          step := step.(status := Skipped, approved := false);
          step := step.(error := if stored.value.error == "" then REPLACED else stored.value.error);
          merged := merged.(steps := merged.steps[i := step]);
        }
      }
    }

    /** `persistAgentRunRecords`; the caller goes on with the merged run. */
    method PersistRunRecords(run: Run, tick: Tick) returns (saved: Run)
      modifies this
      ensures State() == Save(old(State()), run, tick)
      ensures saved == Saved(old(State()), run)
    {
      hide MergedSteps, WithCheckpoint, PutRun, StepRecords, EventRecords, Filter, SortBy, EventsOf;
      saved := MergeSteps(run);
      var concurrent := EventsOf(Filter(Unseen(run.events), Filter(EventOfRun(run.id), events)));
      if concurrent != [] {
        saved := saved.(events := SortBy(EventTime(), saved.events + concurrent));
      }
      WriteRow(AsRecord(saved));
      steps := Filter(NotOfRun(run.id), steps);
      steps := steps + StepRecords(saved, tick.now);
      events := Filter(EventNotOfRun(run.id), events);
      events := events + EventRecords(saved);
      AddCheckpoint(saved, SnapshotOf(saved, tick.now), tick);
    }

    method WriteRow(record: RunRecord)
      modifies this`runs
      ensures runs == PutRun(old(runs), record)
    {
      var index := FindRun(runs, record.id);
      if index >= 0 {
        runs := runs[index := record];
      } else {
        runs := [record] + runs;
      }
    }

    method AddCheckpoint(run: Run, snapshot: Snapshot, tick: Tick)
      modifies this`checkpoints
      ensures checkpoints == WithCheckpoint(old(checkpoints), run, snapshot, tick)
    {
      hide KeepNewest, SortBy, Filter, EventIds;
      var own := SortBy(NewestFirst(), Filter(CheckpointOfRun(run.id), checkpoints));
      var hash := StateHash(snapshot.run, snapshot.steps, EventIds(snapshot.events));
      if own == [] || own[0].stateHash != hash {
        var latest := LatestTime(own);
        var time := if tick.now > latest + 1 then tick.now else latest + 1;
        checkpoints := checkpoints + [Checkpoint(tick.checkpointId, run.id, run.ownerId, run.teamId, hash, snapshot, time)];
        checkpoints := KeepNewest(checkpoints, run.id);
      }
    }

    // ---------- Pause, cancel, steer, resume ----------

    /** `pauseAgentMission` */
    method PauseMission(id: string, user: Actor, out: Outside) returns (thrown: bool)
      modifies this
      ensures Outcome(State(), thrown) == Pause(old(State()), id, user, out)
      ensures old(MayHappen(State(), id, MissionRuns.Suspend(user, out))) ==> Keeps(old(State()), State(), id)
    {
      hide Persist, Hydrate, MissionRuns.Allowed, WorldOk, Keeps;
      OperationKeeps(State(), id, MissionRuns.Suspend(user, out));
      var found := RequireRun(World(Tables(), flight, []), id, user);
      if found.None? { return true; }
      var run := found.value;
      if run.status in {Completed, RunStatus.Cancelled, Paused} { return false; }
      run := run.(status := Paused);
      run := run.(stopReason := PAUSED_REASON);
      run := AddEvent(run, out.stamps, ApprovalEvent, run.stopReason);
      run := PersistRunRecords(run, out.ticks(0));
      return false;
    }

    /** `cancelAgentMission` */
    method CancelMissionRun(id: string, user: Actor, out: Outside) returns (thrown: bool)
      modifies this
      ensures Outcome(State(), thrown) == CancelMission(old(State()), id, user, out)
      ensures old(MayHappen(State(), id, MissionRuns.Abort(user, out))) ==> Keeps(old(State()), State(), id)
    {
      hide Persist, Hydrate, MissionRuns.Allowed, WorldOk, Keeps;
      OperationKeeps(State(), id, MissionRuns.Abort(user, out));
      var found := RequireRun(World(Tables(), flight, []), id, user);
      if found.None? { return true; }
      var run := found.value;
      if run.status in {Completed, RunStatus.Cancelled} { return false; }
      var waiting := run.steps;
      run := run.(status := RunStatus.Cancelled, stopReason := CANCELLED_REASON);
      for i := 0 to |waiting|
        invariant |run.steps| == |waiting| && run == found.value.(status := RunStatus.Cancelled, stopReason := CANCELLED_REASON, steps := run.steps)
        invariant forall j | 0 <= j < i :: run.steps[j] == CancelledStep(waiting[j])
        invariant forall j | i <= j < |waiting| :: run.steps[j] == waiting[j]
      {
        var step := run.steps[i];
        if step.status == Ready || step.status == Queued {
          step := step.(status := Failed, error := "Mission 已由用户终止");
          run := run.(steps := run.steps[i := step]);
        }
      }
      assert run.steps == FailWaiting(waiting);
      run := AddEvent(run, out.stamps, ErrorEvent, run.stopReason);
      run := Reply(run, out);
      run := PersistRunRecords(run, out.ticks(0));
      return false;
    }

    /** The loop by which steering drops what has not started; says whether there was anything. */
    method InvalidateUnstarted(run: Run) returns (r: Run, invalidated: nat)
      ensures r == run.(steps := SkipActive(run.steps, REPLACED))
      ensures invalidated > 0 <==> exists s | s in run.steps :: IsActive(s.status)
    {
      r, invalidated := run, 0;
      for i := 0 to |run.steps|
        invariant |r.steps| == |run.steps| && r == run.(steps := r.steps)
        invariant forall j | 0 <= j < i ::
          r.steps[j] == if IsActive(run.steps[j].status) then SkippedStep(run.steps[j], REPLACED) else run.steps[j]
        invariant forall j | i <= j < |run.steps| :: r.steps[j] == run.steps[j]
        invariant invalidated > 0 <==> exists j | 0 <= j < i :: IsActive(run.steps[j].status)
      {
        var step := r.steps[i];
        if IsActive(step.status) {
          step := step.(status := Skipped, error := REPLACED, approved := false);
          r := r.(steps := r.steps[i := step]);
          invalidated := invalidated + 1;
        }
      }
      assert r.steps == SkipActive(run.steps, REPLACED);
    }

    /** `steerAgentMission` */
    method SteerMission(id: string, user: Actor, input: string, active: bool, plan: Plan, out: Outside) returns (thrown: bool)
      modifies this
      ensures Outcome(State(), thrown) == Steer(old(State()), id, user, input, active, plan, out)
      ensures old(MayHappen(State(), id, MissionRuns.Redirect(user, input, active, plan, out))) ==> Keeps(old(State()), State(), id)
    {
      hide Persist, Hydrate, ApplySteer, SkipActive, Trim, MissionRuns.Allowed, WorldOk, Keeps;
      OperationKeeps(State(), id, MissionRuns.Redirect(user, input, active, plan, out));
      var found := RequireRun(World(Tables(), flight, []), id, user);
      if found.None? { return true; }
      var run := found.value;
      if !Steerable(run.status) { return true; }
      var instruction := Take(Trim(input), 400);
      if |instruction| < 2 { return true; }
      run := AddEvent(run, out.stamps, PlanEvent, "用户补充：" + instruction);
      run := AddEvent(run, out.stamps, PlanEvent, "本轮语义判决：");
      run := AddEvent(run, out.stamps, PlanEvent, STEER_MARK + instruction);
      var invalidated;
      run, invalidated := InvalidateUnstarted(run);
      run := run.(stopReason := "");
      if invalidated > 0 {
        run := AddEvent(run, out.stamps, ApprovalEvent, "新指令已使未开始步骤和旧审批失效");
      }
      assert run == SteeredRun(found.value, instruction, out);
      var running := AnyRunning(run.steps);
      run := PersistRunRecords(run, out.ticks(0));
      if !active || running { return false; }
      thrown := ApplyPendingSteer(run, plan, out, 1);
    }

    /** The batch a plan brings, if the graph check admits it. */
    method PlanBatch(run: Run, plan: Plan) returns (batch: Option<seq<Step>>)
      ensures batch == PlannedBatch(run, plan)
    {
      hide Normalized;
      var normalized := NormalizeSteps(plan.items, run.id, Owner(run), run.steps);
      if normalized.Err? { return None; }
      return Some(Authorize(Constrain(normalized.value, plan.decision), Authorizing(plan)));
    }

    /** `applyPendingMissionSteer` */
    method ApplyPendingSteer(run: Run, plan: Plan, out: Outside, tick: nat) returns (thrown: bool)
      modifies this
      ensures Outcome(State(), thrown) == ApplySteer(old(State()), run, plan, out, tick)
    {
      hide Persist, Hydrate, PlannedBatch, SkipActive, Narrows;
      var steer := PendingSteer(run.events);
      if steer.None? || AnyRunning(run.steps) { return false; }
      var batch := PlanBatch(run, plan);
      if batch.None? { return true; }
      log := Installing(log, run, plan);
      var next, invalidated := InvalidateUnstarted(run);
      next := Replanned(run, next.steps, batch.value, plan, "等待用户批准修改后的动作");
      next := AddEvent(next, out.stamps, PlanEvent, STEER_APPLIED_MARK + steer.value.id);
      next := Told(next, plan, out);
      next := PersistRunRecords(next, out.ticks(tick));
      return false;
    }

    /** The loop by which resuming with a new plan drops the old steps. */
    method DropForResume(run: Run, notSent: bool) returns (r: Run)
      ensures r == run.(steps := SkipForResume(run.steps, notSent))
    {
      r := run;
      for i := 0 to |run.steps|
        invariant |r.steps| == |run.steps| && r == run.(steps := r.steps)
        invariant forall j | 0 <= j < i :: r.steps[j] == ResumedStep(run.steps[j], notSent)
        invariant forall j | i <= j < |run.steps| :: r.steps[j] == run.steps[j]
      {
        var step := r.steps[i];
        var verifiedRetry := step.status == Failed && step.risk == External && notSent;
        if IsActive(step.status) || verifiedRetry {
          step := step.(
            status := Skipped,
            error := if verifiedRetry then "用户已核验渠道未发送，允许重新规划；原错误：" + step.error else "已根据用户补充重新生成动作",
            approved := false);
          r := r.(steps := r.steps[i := step]);
        }
      }
      assert r.steps == SkipForResume(run.steps, notSent);
    }

    /** `resumeAgentMission` */
    method ResumeMission(id: string, user: Actor, plan: Option<Plan>, notSent: bool, adv: AdvanceInput, out: Outside)
      returns (thrown: bool)
      modifies this
      ensures Outcome(State(), thrown) == Resume(old(State()), id, user, plan, notSent, adv, out)
      ensures old(MayHappen(State(), id, MissionRuns.Op.Continuation(user, plan, notSent, adv, out))) ==> Keeps(old(State()), State(), id)
    {
      hide Persist, Hydrate, PlannedBatch, Advance, SkipForResume, Narrows, MissionRuns.Allowed, WorldOk, Keeps;
      OperationKeeps(State(), id, MissionRuns.Op.Continuation(user, plan, notSent, adv, out));
      var found := RequireRun(World(Tables(), flight, []), id, user);
      if found.None? { return true; }
      var run := found.value;
      if !Resumable(run.status) { return true; }
      run := ResumedRun(run, out);
      if plan.None? {
        run := AddEvent(run, out.stamps, PlanEvent, "已从上次检查点恢复，正在继续完成原目标");
        run := PersistRunRecords(run, out.ticks(0));
        thrown := AdvanceMission(id, adv, out, 1);
      } else {
        var resumed := run;
        run := DropForResume(run, notSent);
        var batch := PlanBatch(run, plan.value);
        if batch.None? { return true; }
        log := Installing(log, run, plan.value);
        run := Replanned(resumed, run.steps, batch.value, plan.value, "等待用户确认写入动作");
        run := Told(run, plan.value, out);
        run := PersistRunRecords(run, out.ticks(0));
        return false;
      }
    }

    // ---------- Advancing ----------

    /** `advanceAgentMission` up to the node it dispatches on. */
    method AdvanceMission(id: string, adv: AdvanceInput, out: Outside, tick: nat) returns (thrown: bool)
      modifies this
      ensures Outcome(State(), thrown) == Advance(old(State()), id, adv, out, tick)
      ensures tick == 0 && old(MayHappen(State(), id, MissionRuns.Move(adv, out))) ==> Keeps(old(State()), State(), id)
    {
      hide Persist, Hydrate, Prepare, Dispatch, RewindTarget, PreparationThrows, Fillings, MissionRuns.Allowed, WorldOk, Keeps;
      OperationKeeps(State(), id, MissionRuns.Move(adv, out));
      var found := Hydrate(Tables(), id);
      if found.None? || !adv.active { return false; }
      if PreparationThrows(found.value) { return true; }
      var run := PrepareSteps(found.value, Owner(found.value), out.stamps);
      var node := NodeOf(run);
      if node == Terminal { return false; }
      if node == WaitTimer && !adv.timerDue { return false; }
      log := log + Fillings(found.value.steps, found.value.steps);
      if node == WaitTimer {
        var target := RewindTarget(run.steps);
        if target.Some? {
          run := PersistRunRecords(Rewound(run, target.value, out), out.ticks(tick));
          return false;
        }
        run := run.(stopReason := "");
      }
      thrown := DispatchNode(run, adv, out, tick);
    }

    method DispatchNode(run: Run, adv: AdvanceInput, out: Outside, tick: nat) returns (thrown: bool)
      modifies this
      ensures Outcome(State(), thrown) == Dispatch(old(State()), run, adv, out, tick)
    {
      hide Persist, Hydrate, ApplySteer, Evaluate;
      var next;
      match NodeOf(run)
      case SteerNode => thrown := ApplyPendingSteer(run, adv.steerPlan, out, tick);
      case ExecuteNode =>
        next := PersistRunRecords(run.(status := InProgress), out.ticks(tick));
        return false;
      case ApprovalNode =>
        next := PersistRunRecords(AtApproval(run, out), out.ticks(tick));
        return false;
      case _ => thrown := EvaluateOutcome(run, adv, out, tick);
    }

    method EvaluateOutcome(run: Run, adv: AdvanceInput, out: Outside, tick: nat) returns (thrown: bool)
      modifies this
      ensures Outcome(State(), thrown) == Evaluate(old(State()), run, adv, out, tick)
    {
      hide Persist, Hydrate, Recover, Judge, Propagate;
      var (next, verdict) := Recover(run, out);
      if verdict == Halt {
        next := Reply(next, out);
        next := PersistRunRecords(next, out.ticks(tick));
        return false;
      }
      if verdict == Retry {
        RecoveryHasTarget(run, out);
        log := log + [RetriedEffect(run.steps[LastFailed(run.steps)].id)];
        next := PersistRunRecords(next, out.ticks(tick));
        return false;
      }
      next := PropagateFailures(next, out.stamps);
      thrown := JudgeOutcome(next, adv, out, tick);
    }

    method JudgeOutcome(run: Run, adv: AdvanceInput, out: Outside, tick: nat) returns (thrown: bool)
      modifies this
      ensures Outcome(State(), thrown) == Judge(old(State()), run, adv, out, tick)
    {
      hide Persist, Hydrate, Normalized, AfterRejection, Verifier.Complete;
      var next;
      match adv.probe
      case IncompleteEmail =>
        next := PersistRunRecords(Ended(run, RunFailed, "开发信草稿缺少对象、主题或正文，不能进入发送审批", out), out.ticks(tick));
        return false;
      case Observe(items, status) =>
        var batch := NormalizeSteps(items, run.id, Owner(run), run.steps);
        if batch.Err? { return true; }
        next := PersistRunRecords(Observing(run, batch.value, status, out), out.ticks(tick));
        return false;
      case WaitUntil(time) =>
        next := PersistRunRecords(WaitingUntil(run, time, out), out.ticks(tick));
        return false;
      case NoProbe =>
        var verification := Verifier.VerifyOutcome(run.spec, run.steps);
        if verification.complete {
          next := PersistRunRecords(Ended(run, Completed, "目标已通过服务端完成证据核验", out), out.ticks(tick));
          return false;
        }
        thrown := GoOnAfterRejection(run, adv, out, tick);
    }

    method GoOnAfterRejection(run: Run, adv: AdvanceInput, out: Outside, tick: nat) returns (thrown: bool)
      modifies this
      ensures Outcome(State(), thrown) == AfterRejection(old(State()), run, adv, out, tick)
    {
      hide Persist, Hydrate, Normalized, ModelRound, Verifier.Complete;
      var next;
      if adv.documents.Some? && adv.documents.value.items != [] {
        var batch := NormalizeSteps(adv.documents.value.items, run.id, Owner(run), run.steps);
        if batch.Err? { return true; }
        next := PersistRunRecords(Delivering(run, Authorize(batch.value, adv.authorized), out), out.ticks(tick));
        return false;
      }
      if adv.documents.Some? && adv.documents.value.askUser != "" {
        next := PersistRunRecords(Ended(run, WaitingUser, adv.documents.value.askUser, out), out.ticks(tick));
        return false;
      }
      if run.iteration >= run.maxIterations {
        next := PersistRunRecords(Ended(run, RunFailed, "已达到最大自主轮次", out), out.ticks(tick));
        return false;
      }
      if !adv.hasModel {
        var verification := Verifier.VerifyOutcome(run.spec, run.steps);
        var status := if Verifier.AnyFailed(run.steps) then RunFailed else if verification.complete then Completed else RunFailed;
        next := PersistRunRecords(Ended(run, status, "规则模式", out), out.ticks(tick));
        return false;
      }
      thrown := AskModel(PlanningRun(run, out), adv, out, tick);
    }

    method AskModel(run: Run, adv: AdvanceInput, out: Outside, tick: nat) returns (thrown: bool)
      modifies this
      ensures Outcome(State(), thrown) == ModelRound(old(State()), run, adv, out, tick)
    {
      hide Persist, Hydrate, Evaluated;
      var saved := PersistRunRecords(run, out.ticks(tick));
      var judged := JudgeEvaluation(saved, adv, out);
      if judged.None? { return true; }
      saved := PersistRunRecords(judged.value, out.ticks(tick + 1));
      return false;
    }

    method JudgeEvaluation(run: Run, adv: AdvanceInput, out: Outside) returns (r: Option<Run>)
      ensures r == Evaluated(run, adv, out)
    {
      hide Normalized, Continue, Verifier.Complete;
      if adv.evaluation.None? {
        r := ModelFailed(run, adv, out);
        return;
      }
      var e := adv.evaluation.value;
      if e.done {
        var verification := Verifier.VerifyOutcome(run.spec, run.steps);
        if verification.complete { return Some(Ended(run, Completed, "目标完成标准已经满足", out)); }
        return Some(ClaimedDone(run, out));
      }
      if e.askUser != "" { return Some(Ended(run, WaitingUser, e.askUser, out)); }
      var batch := NormalizeSteps(e.next, run.id, Owner(run), run.steps);
      if batch.Err? {
        r := ModelFailed(run, adv, out);
        return;
      }
      if batch.value != [] { return Some(NextRound(run, Authorize(batch.value, adv.authorized), out)); }
      var c := ContinueDeterministically(run, adv.fallback, adv.authorized, out);
      match c
      case ContinuationThrows => r := ModelFailed(run, adv, out);
      case NotApplied(askUser) => return Some(Ended(run, WaitingUser, if askUser != "" then askUser else "现有结果尚未满足目标", out));
      case Applied(continued) => return Some(continued);
    }

    /** `applyDeterministicMissionContinuation` */
    method ContinueDeterministically(run: Run, fallback: Option<Mission.Continuation>, authorized: bool, out: Outside) returns (c: Continued)
      ensures c == Continue(run, fallback, authorized, out)
    {
      hide Normalized;
      if fallback.None? { return NotApplied(""); }
      if fallback.value.items == [] { return NotApplied(fallback.value.askUser); }
      var batch := NormalizeSteps(fallback.value.items, run.id, Owner(run), run.steps);
      if batch.Err? { return ContinuationThrows; }
      return Applied(Continuing(run, Authorize(batch.value, authorized), out));
    }

    method ModelFailed(run: Run, adv: AdvanceInput, out: Outside) returns (r: Option<Run>)
      ensures r == AfterModelFailure(run, adv, out)
    {
      hide Continue, Verifier.Complete;
      var verification := Verifier.VerifyOutcome(run.spec, run.steps);
      if verification.complete { return Some(Ended(run, Completed, "模型评估暂不可用，已按服务端完成证据核验", out)); }
      var c := ContinueDeterministically(run, adv.fallback, adv.authorized, out);
      match c
      case ContinuationThrows => return None;
      case Applied(continued) => return Some(AddEvent(continued, out.stamps, ErrorEvent, "结果评估模型暂不可用"));
      case NotApplied(askUser) =>
        return Some(if askUser != "" then Ended(run, WaitingUser, askUser, out)
                    else Ended(run, RunFailed, "结果评估失败且没有可靠的确定性续跑路径", out));
    }

    // ---------- Executing steps ----------

    /** `executeAgentStep` */
    method ExecuteAgentStep(
      id: string, user: Actor, stepId: string, signature: Signature, approved: bool,
      outcome: Result<Value, string>, adv: AdvanceInput, out: Outside) returns (thrown: bool)
      modifies this
      ensures Outcome(State(), thrown) == ExecuteStep(old(State()), id, user, stepId, signature, approved, outcome, adv, out)
      ensures old(MayHappen(State(), id, MissionRuns.Op.Execute(user, stepId, signature, approved, outcome, adv, out))) ==> Keeps(old(State()), State(), id)
    {
      hide Persist, Hydrate, Prepare, ExecuteResolved, PreparationThrows, DependencyFailure, Collect, Fillings, MissionRuns.Allowed, WorldOk, Keeps;
      OperationKeeps(State(), id, MissionRuns.Op.Execute(user, stepId, signature, approved, outcome, adv, out));
      var found := RequireRun(World(Tables(), flight, []), id, user);
      if found.None? { return true; }
      var run := found.value;
      var i := StepIndex(run.steps, stepId);
      if Refused(run, i, out.ticks(0).now) { return true; }
      if HasNoReferences(run.steps[i].input) {
        thrown := RunOrQueue(run, i, signature, approved, outcome, adv, out, 0);
        return;
      }
      if PreparationThrows(run) { return true; }
      log := log + Fillings(run.steps, run.steps);
      run := PrepareSteps(run, Owner(run), out.stamps);
      run := PersistRunRecords(run, out.ticks(0));
      var step := run.steps[i];
      if step.status == Failed { return true; }
      if step.risk == External || RequiresSecondaryConfirmation(step.tool, step.input) { return true; }
      thrown := RunOrQueue(run, i, signature, approved, outcome, adv, out, 1);
    }

    /** From the signature check on: external steps are queued, all others run at once. */
    method RunOrQueue(
      run: Run, i: nat, signature: Signature, approved: bool,
      outcome: Result<Value, string>, adv: AdvanceInput, out: Outside, tick: nat) returns (thrown: bool)
      requires i < |run.steps|
      modifies this
      ensures Outcome(State(), thrown) == ExecuteResolved(old(State()), run, i, signature, approved, outcome, adv, out, tick)
    {
      hide Persist, Hydrate, RunNow;
      var step := run.steps[i];
      var expected := Sign(run.id, step.id, step.tool, step.input, Owner(run));
      if expected != signature { return true; }
      if step.status in {Queued, Running, Done} { return false; }
      if (step.risk == Write || step.risk == External) && !approved && !step.approved { return true; }
      if step.risk == External {
        var queued := QueuedRun(run, i, approved, out);
        log := log + [QueuedEffect(queued.steps[i], approved)];
        queued := PersistRunRecords(queued, out.ticks(tick));
        return false;
      }
      thrown := ExecuteNow(StartedRun(run, i, approved, out), i, outcome, adv, out, tick);
    }

    method ExecuteNow(started: Run, i: nat, outcome: Result<Value, string>, adv: AdvanceInput, out: Outside, tick: nat) returns (thrown: bool)
      requires i < |started.steps|
      modifies this
      ensures Outcome(State(), thrown) == RunNow(old(State()), started, i, outcome, adv, out, tick)
    {
      hide Persist, Hydrate, Advance;
      log := log + [StartedEffect(started.steps[i])];
      var run := PersistRunRecords(started, out.ticks(tick));
      run := FinishedRun(run, i, outcome, false, out);
      run := PersistRunRecords(run, out.ticks(tick + 1));
      thrown := AdvanceMission(started.id, adv, out, tick + 2);
    }

    /** `executeQueuedAgentStep` up to the awaited action. */
    method BeginQueuedStep(id: string, stepId: string, adv: AdvanceInput, out: Outside) returns (thrown: bool)
      modifies this
      ensures Outcome(State(), thrown) == BeginQueued(old(State()), id, stepId, adv, out)
      ensures old(MayHappen(State(), id, MissionRuns.Begin(stepId, adv, out))) ==> Keeps(old(State()), State(), id)
    {
      hide Persist, Hydrate, Prepare, Advance, PreparationThrows, Fillings, MissionRuns.Allowed, WorldOk, Keeps;
      OperationKeeps(State(), id, MissionRuns.Begin(stepId, adv, out));
      var found := Hydrate(Tables(), id);
      if found.None? { return false; }
      var run := found.value;
      var i := StepIndex(run.steps, stepId);
      if i < 0 || !adv.active || run.status !in {InProgress, Planning} || run.steps[i].status !in {Ready, Queued} { return false; }
      if PreparationThrows(run) { return true; }
      ghost var fillings := Fillings(run.steps, run.steps);
      run := PrepareSteps(run, Owner(run), out.stamps);
      var step := run.steps[i];
      if step.status !in {Ready, Queued} {
        log := log + fillings;
        var prepared := PersistRunRecords(run, out.ticks(0));
        thrown := AdvanceMission(run.id, adv, out, 1);
        return;
      }
      if !DependenciesSatisfied(step, run.steps) { return false; }
      run := StartedRun(run, i, false, out);
      log := log + fillings + [StartedEffect(run.steps[i])];
      run := PersistRunRecords(run, out.ticks(0));
      flight := Some(Flight(run, stepId));
      return false;
    }

    /** `executeQueuedAgentStep` from the awaited action on. */
    method FinishQueuedStep(id: string, outcome: Result<Value, string>, adv: AdvanceInput, out: Outside) returns (thrown: bool)
      modifies this
      ensures Outcome(State(), thrown) == FinishQueued(old(State()), id, outcome, adv, out)
      ensures old(MayHappen(State(), id, MissionRuns.Finish(outcome, adv, out))) ==> Keeps(old(State()), State(), id)
    {
      hide Persist, Hydrate, Advance, MissionRuns.Allowed, WorldOk, Keeps;
      OperationKeeps(State(), id, MissionRuns.Finish(outcome, adv, out));
      if flight.None? { return false; }
      var run, stepId := flight.value.run, flight.value.stepId;
      flight := None;
      var latest := Hydrate(Tables(), id);
      if outcome.Ok? && latest.Some? && latest.value.status in {Paused, RunStatus.Cancelled} {
        var landed := LandedRun(latest.value, stepId, outcome.value, out);
        landed := PersistRunRecords(landed, out.ticks(0));
        return false;
      }
      var i := StepIndex(run.steps, stepId);
      if i < 0 { return false; }
      run := FinishedRun(run, i, outcome, true, out);
      run := PersistRunRecords(run, out.ticks(0));
      thrown := AdvanceMission(id, adv, out, 1);
    }

    // ---------- Restart and restore ----------

    /** `recoverInterruptedAgentSteps`, after a restart has lost the awaited action. */
    method RecoverInterrupted(stamps: Stamps)
      modifies this
      ensures State() == Restart(old(State()), stamps)
      ensures forall id | old(MayHappen(State(), id, MissionRuns.Reboot(stamps))) :: Keeps(old(State()), State(), id)
    {
      hide Hydrate, MissionRuns.Allowed, WorldOk, MayHappen, Keeps, Restart;
      RestartKeepsAll(State(), stamps);
      RestartIs(State(), stamps);
      flight := None;
      ghost var before := Tables();
      for i := 0 to |steps|
        invariant |steps| == |before.steps| && log == old(log) && flight == None
        invariant Tables() == RecoverRows(before, i, stamps)
      {
        assert steps[i..][0] == before.steps[i..][0];
        var record := steps[i];
        if record.step.status == Running {
          var (eventId, time) := stamps(|events|);
          steps := steps[i := record.(step := record.step.(status := Failed, error := INTERRUPTED), updatedAt := time)];
          var n := FindRun(runs, record.runId);
          if n >= 0 {
            runs := runs[n := runs[n].(status := RunFailed)];
          }
          events := events + [EventRecord(record.runId, Event(eventId, ErrorEvent, INTERRUPTED, time))];
        }
      }
    }

    /** `restoreAgentMissionCheckpoint` */
    method RestoreCheckpoint(id: string, user: Actor, checkpointId: string, active: bool, out: Outside) returns (thrown: bool)
      modifies this
      ensures Outcome(State(), thrown) == Restore(old(State()), id, user, checkpointId, active, out)
      ensures old(MayHappen(State(), id, MissionRuns.GoBack(user, checkpointId, active, out))) ==> Keeps(old(State()), State(), id)
    {
      hide Persist, Hydrate, RestoredRun, FindCheckpoint, Restoring, MissionRuns.Allowed, WorldOk, Keeps;
      OperationKeeps(State(), id, MissionRuns.GoBack(user, checkpointId, active, out));
      var found := RequireRun(World(Tables(), flight, []), id, user);
      if found.None? { return true; }
      var run := found.value;
      var checkpoint := FindCheckpoint(checkpoints, checkpointId, run);
      if checkpoint.None? { return true; }
      if ExternalUnderWay(run.steps) { return true; }
      if LosesWrite(run.steps, checkpoint.value.snapshot.steps) || !active { return true; }
      var restored := RestoredRun(run, checkpoint.value, out);
      restored := PersistRunRecords(restored, out.ticks(0));
      log := log + Restoring(restored);
      return false;
    }
  }

  lemma RecoveryHasTarget(run: Run, out: Outside)
    requires Recover(run, out).1 == Retry
    ensures LastFailed(run.steps) >= 0
  {
  }
}
