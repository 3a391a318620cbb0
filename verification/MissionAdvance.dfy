/** Advancing and executing steps keep the world sound; the log grows only as it may. */
module MissionAdvance {
  import opened Prelude
  import opened Values
  import opened AgentTypes
  import opened References
  import opened WorkflowGraph
  import opened Planning
  import opened Recovery
  import opened Runs
  import opened RunStore
  import opened Mission
  import opened MissionInvariant
  import opened MissionSave
  import opened MissionPasses
  import opened MissionMoves
  import opened MissionOps
  import Verifier

  // ---------- From the observers to the model ----------

  lemma SavedNames(was: seq<Step>, now: seq<Step>)
    requires StepsSaved(was, now)
    ensures SameNames(was, now)
  {
  }

  /** After a save the engine goes on with its own merged copy. */
  lemma WorkingKept(w: World, stored: Run, run: Run, out: Outside, tick: Tick)
    requires Working(w, stored, run, out)
    ensures Working(Save(w, run, tick), Reread(w, run), Saved(w, run), out) && Reread(w, run).id == stored.id
    ensures SameNames(run.steps, Saved(w, run).steps) && Next(stored, Save(w, run, tick))
    ensures Continues(stored, Reread(w, run)) && Reread(w, run).status == run.status
  {
    QuietStorable(w, stored, run, out);
    SaveGround(w, stored, run, tick, w.log, out);
    SaveStorable(w, stored, run, tick, w.log, out);
    assert Save(w, run, tick) == World(Persist(w.store, run, tick), None, w.log);
    SavedNames(run.steps, Saved(w, run).steps);
  }

  lemma WorkingSaved(w: World, stored: Run, run: Run, adv: AdvanceInput, out: Outside, tick: Tick)
    requires Working(w, stored, run, out) && FreshAdvance(adv, run.steps)
    ensures Working(Save(w, run, tick), Reread(w, run), Saved(w, run), out) && Reread(w, run).id == stored.id
    ensures FreshAdvance(adv, Saved(w, run).steps) && Next(stored, Save(w, run, tick))
    ensures Continues(stored, Reread(w, run)) && Reread(w, run).status == run.status
  {
    hide Persist, Hydrate, Working, Next;
    WorkingKept(w, stored, run, out, tick);
    FreshAdvanceCarries(adv, run.steps, Saved(w, run).steps);
  }

  lemma ModelRoundOk(w: World, stored: Run, run: Run, adv: AdvanceInput, out: Outside, tick: nat)
    requires Working(w, stored, run, out) && FreshAdvance(adv, run.steps) && HasRoundLeft(run)
    ensures Next(stored, ModelRound(w, run, adv, out, tick).world)
  {
    hide Evaluated;
    WorkingSaved(w, stored, run, adv, out, out.ticks(tick));
    var w1, now, saved := Save(w, run, out.ticks(tick)), Reread(w, run), Saved(w, run);
    EvaluatedOk(w1, now, saved, adv, out);
    var judged := Evaluated(saved, adv, out);
    if judged.Some? {
      SaveStorable2(w1, now, judged.value, out.ticks(tick + 1), w1.log, out);
    }
  }

  lemma AfterBatchIsOpen(batch: seq<Step>)
    ensures AfterBatch(batch) != Completed
  {
  }

  lemma DeliveringOk(w: World, stored: Run, run: Run, batch: seq<Step>, out: Outside, tick: Tick)
    requires Working(w, stored, run, out) && BatchOk(run, batch)
    ensures Next(stored, Save(w, Delivering(run, batch, out), tick))
  {
    hide Persist, Next, Hydrate, Working, BatchOk, AfterBatch;
    var next := run.(steps := run.steps + batch, iteration := Min(run.maxIterations, run.iteration + 1),
                     status := AfterBatch(batch), stopReason := "");
    AfterBatchIsOpen(batch);
    WorkingRounds(w, stored, run, out);
    WorkingAppend(w, stored, run, next, batch, out);
    EventThenSave(w, stored, next, PlanEvent, "PI 已创建，已直接生成审批与导出动作", out, tick);
  }

  lemma PlanningOk(w: World, stored: Run, run: Run, adv: AdvanceInput, out: Outside, tick: nat)
    requires Working(w, stored, run, out) && FreshAdvance(adv, run.steps) && HasRoundLeft(run)
    ensures Next(stored, ModelRound(w, PlanningRun(run, out), adv, out, tick).world)
  {
    hide ModelRound;
    var open := run.(status := Planning, stopReason := "");
    WorkingFields(w, stored, run, open, out);
    EventSound(open, out.stamps, StepEvent, "正在评估结果", w.log);
    ModelRoundOk(w, stored, PlanningRun(run, out), adv, out, tick);
  }

  lemma AfterRejectionOk(w: World, stored: Run, run: Run, adv: AdvanceInput, out: Outside, tick: nat)
    requires Working(w, stored, run, out) && FreshAdvance(adv, run.steps)
    ensures Next(stored, AfterRejection(w, run, adv, out, tick).world)
  {
    hide ModelRound, Next, Hydrate, Persist, Sound, Verifier.Complete;
    RestingIsOk(w, stored, out);
    var tock := out.ticks(tick);
    if adv.documents.Some? && adv.documents.value.items != [] {
      var items := adv.documents.value.items;
      if Normalized(items, run.id, Owner(run), run.steps).Some? {
        NormalizedAuthorizedOk(run, items, adv.authorized);
        DeliveringOk(w, stored, run, Authorize(Normalized(items, run.id, Owner(run), run.steps).value, adv.authorized), out, tock);
      }
    } else if adv.documents.Some? && adv.documents.value.askUser != "" {
      EndedOk(w, stored, run, WaitingUser, adv.documents.value.askUser, out, tock);
    } else if run.iteration >= run.maxIterations {
      EndedOk(w, stored, run, RunFailed, "已达到最大自主轮次", out, tock);
    } else if !adv.hasModel {
      EndedOk(w, stored, run, RulesVerdict(run), "规则模式", out, tock);
    } else {
      PlanningOk(w, stored, run, adv, out, tick);
    }
  }

  lemma ObservingOk(w: World, stored: Run, run: Run, batch: seq<Step>, status: RunStatus, out: Outside, tick: Tick)
    requires Working(w, stored, run, out) && BatchOk(run, batch)
    ensures Next(stored, Save(w, Observing(run, batch, status, out), tick))
  {
    var observing :=
      if status == AwaitingConfirmation then run.(status := AwaitingConfirmation, stopReason := "等待用户批准外部发送")
      else run.(status := InProgress);
    WorkingAppend(w, stored, run, observing.(steps := run.steps + batch), batch, out);
    EventThenSave(w, stored, observing.(steps := run.steps + batch), PlanEvent, "Mission 将持续观察", out, tick);
  }

  lemma WaitingUntilOk(w: World, stored: Run, run: Run, time: string, out: Outside, tick: Tick)
    requires Working(w, stored, run, out)
    ensures Next(stored, Save(w, WaitingUntil(run, time, out), tick))
  {
    var waiting := run.(status := InProgress, stopReason := TIMER_MARK + time);
    WorkingFields(w, stored, run, waiting, out);
    EventThenSave(w, stored, waiting, ResultEvent, "已读取进度", out, tick);
  }

  lemma JudgeOk(w: World, stored: Run, run: Run, adv: AdvanceInput, out: Outside, tick: nat)
    requires Working(w, stored, run, out) && FreshAdvance(adv, run.steps)
    ensures Next(stored, Judge(w, run, adv, out, tick).world)
  {
    hide AfterRejection, Next, Hydrate, Persist, Sound, Verifier.Complete;
    RestingIsOk(w, stored, out);
    var tock := out.ticks(tick);
    match adv.probe
    case IncompleteEmail => EndedOk(w, stored, run, RunFailed, "开发信草稿缺少对象、主题或正文，不能进入发送审批", out, tock);
    case Observe(items, status) =>
      if Normalized(items, run.id, Owner(run), run.steps).Some? {
        NormalizedBatchOk(items, run);
        ObservingOk(w, stored, run, Normalized(items, run.id, Owner(run), run.steps).value, status, out, tock);
      }
    case WaitUntil(time) => WaitingUntilOk(w, stored, run, time, out, tock);
    case NoProbe =>
      if Verifier.Complete(run.spec, run.steps) {
        EndedOk(w, stored, run, Completed, "目标已通过服务端完成证据核验", out, tock);
      } else {
        AfterRejectionOk(w, stored, run, adv, out, tick);
      }
  }

  // ---------- Retries ----------

  lemma RetriedIsMarked(log: seq<Effect>, events: seq<Event>, id: string)
    requires LogOk(log, events)
    ensures Retries(log, id) > 0 ==> HasMark(events, RecoveryMarkOf(id))
  {
    RetriedIsLogged(log, id);
    if RetriedEffect(id) in log {
      var k :| 0 <= k < |log| && log[k] == RetriedEffect(id);
      assert EffectOk(log[k], events, log[..k]);
    }
  }

  lemma RetryLogged(log: seq<Effect>, run: Run, now: Run, id: string)
    requires LogOk(log, run.events) && Grown(run.events, now.events)
    requires !HasMark(run.events, RecoveryMarkOf(id)) && HasMark(now.events, RecoveryMarkOf(id))
    ensures LogOk(log + [RetriedEffect(id)], now.events)
  {
    LogPersists(log, run.events, now.events);
    EntriesAppended(log, now.events, [RetriedEffect(id)]);
    RetriedIsMarked(log, run.events, id);
    forall other: string, input: Value {
      CountAppend(log, RetriedEffect(id), other, input);
    }
    forall other: string
      ensures Retries(log + [RetriedEffect(id)], other) <= 1
    {
      CountAppend(log, RetriedEffect(id), other, Null);
    }
  }

  // ---------- Recovery and dispatch ----------

  lemma RecoveryMarked(run: Run, out: Outside)
    requires Recover(run, out).1 == Retry
    ensures LastFailed(run.steps) >= 0
    ensures !HasMark(run.events, RecoveryMarkOf(run.steps[LastFailed(run.steps)].id))
    ensures HasMark(Recover(run, out).0.events, RecoveryMarkOf(run.steps[LastFailed(run.steps)].id))
  {
    var failed := run.steps[LastFailed(run.steps)];
    RecoveryNote(run, out, failed, DecideRecovery(failed));
  }

  lemma RetryOk(w: World, stored: Run, run: Run, out: Outside, tick: Tick)
    requires Working(w, stored, run, out) && Recover(run, out).1 == Retry
    ensures var id := run.steps[LastFailed(run.steps)].id;
      Next(stored, Save(w.(log := w.log + [RetriedEffect(id)]), Recover(run, out).0, tick))
  {
    RecoveryMarked(run, out);
    RecoverSound(run, out, w.log);
    var now, id := Recover(run, out).0, run.steps[LastFailed(run.steps)].id;
    var log := w.log + [RetriedEffect(id)];
    LogPersists(w.log, stored.events, run.events);
    RetryLogged(w.log, run, now, id);
    LongerLogSound(now, w.log, RetriedEffect(id));
    SaveStorable2(w, stored, now, tick, log, out);
  }

  lemma HaltOk(w: World, stored: Run, run: Run, out: Outside, tick: Tick)
    requires Working(w, stored, run, out) && Recover(run, out).1 == Halt
    ensures Next(stored, Save(w, Reply(Recover(run, out).0, out), tick))
  {
    RecoverSound(run, out, w.log);
    var halted := Recover(run, out).0;
    ReplySound(halted, out, w.log);
    QuietSave(w, stored, Reply(halted, out), tick, out);
  }

  lemma PrepareNames(run: Run, user: Actor, stamps: Stamps)
    ensures SameNames(run.steps, Prepare(run, user, stamps).steps)
  {
  }

  lemma PropagateNames(run: Run, stamps: Stamps)
    ensures SameNames(run.steps, Propagate(run, stamps).steps)
  {
    PropagateStops(run.steps, |run.steps|);
  }

  lemma UnretriedOk(w: World, stored: Run, run: Run, adv: AdvanceInput, out: Outside, tick: nat)
    requires Working(w, stored, run, out) && FreshAdvance(adv, run.steps)
    ensures Next(stored, Judge(w, Propagate(run, out.stamps), adv, out, tick).world)
  {
    hide Judge;
    PropagateSound(run, w.log, out.stamps);
    PropagateNames(run, out.stamps);
    FreshAdvanceCarries(adv, run.steps, Propagate(run, out.stamps).steps);
    JudgeOk(w, stored, Propagate(run, out.stamps), adv, out, tick);
  }

  lemma EvaluateOk(w: World, stored: Run, run: Run, adv: AdvanceInput, out: Outside, tick: nat)
    requires Working(w, stored, run, out) && FreshAdvance(adv, run.steps)
    ensures Next(stored, Evaluate(w, run, adv, out, tick).world)
  {
    hide Judge;
    match Recover(run, out).1
    case Halt => HaltOk(w, stored, run, out, out.ticks(tick));
    case Retry => RetryOk(w, stored, run, out, out.ticks(tick));
    case NoRecovery =>
      RecoverSound(run, out, w.log);
      UnretriedOk(w, stored, Recover(run, out).0, adv, out, tick);
  }

  lemma DispatchOk(w: World, stored: Run, run: Run, adv: AdvanceInput, out: Outside, tick: nat)
    requires Working(w, stored, run, out) && FreshAdvance(adv, run.steps)
    ensures Next(stored, Dispatch(w, run, adv, out, tick).world)
  {
    hide Evaluate, ApplySteer, Next, Persist, AtApproval, PendingSteer;
    match NodeOf(run)
    case SteerNode => ApplySteerOk(w, stored, run, adv.steerPlan, out, tick);
    case ExecuteNode => InProgressOk(w, stored, run, out, out.ticks(tick));
    case ApprovalNode => AtApprovalOk(w, stored, run, out, out.ticks(tick));
    case _ => EvaluateOk(w, stored, run, adv, out, tick);
  }

  lemma InProgressOk(w: World, stored: Run, run: Run, out: Outside, tick: Tick)
    requires Working(w, stored, run, out)
    ensures Next(stored, Save(w, run.(status := InProgress), tick))
  {
    hide Next, Persist, Hydrate;
    WorkingFields(w, stored, run, run.(status := InProgress), out);
    QuietSave(w, stored, run.(status := InProgress), tick, out);
  }

  lemma AtApprovalOk(w: World, stored: Run, run: Run, out: Outside, tick: Tick)
    requires Working(w, stored, run, out)
    ensures Next(stored, Save(w, AtApproval(run, out), tick))
  {
    hide Next, Persist, Hydrate;
    var waiting := run.(status := AwaitingConfirmation, stopReason := AWAITING_APPROVAL);
    WorkingFields(w, stored, run, waiting, out);
    EventSound(waiting, out.stamps, ApprovalEvent, "任务已推进到审批点，批准后将继续执行剩余目标", w.log);
    QuietSave(w, stored, AtApproval(run, out), tick, out);
  }

  lemma OpenNode(run: Run)
    requires NodeOf(run) != Terminal
    ensures run.status != Completed
  {
  }

  lemma AdvanceOk(w: World, stored: Run, adv: AdvanceInput, out: Outside, tick: nat)
    requires AtRest(w, stored, out) && FreshAdvance(adv, stored.steps)
    ensures Next(stored, Advance(w, stored.id, adv, out, tick).world)
  {
    hide Dispatch, Next, Persist, Prepare, Preparing, RewindTarget, Rewound, NodeOf, GroundOk, FreshAdvance;
    RestingIsOk(w, stored, out);
    if adv.active && !PreparationThrows(stored) {
      var run, w0 := Prepare(stored, Owner(stored), out.stamps), Preparing(w, stored);
      PreparingOk(w, stored, out);
      PrepareSound(stored, w0.log, out.stamps);
      PrepareNames(stored, Owner(stored), out.stamps);
      FreshAdvanceCarries(adv, stored.steps, run.steps);
      var node := NodeOf(run);
      if node != Terminal && !(node == WaitTimer && !adv.timerDue) {
        OpenNode(run);
        var target := RewindTarget(run.steps);
        if node == WaitTimer && target.Some? {
          RewoundSound(run, target.value, out, w0.log);
          QuietSave(w0, stored, Rewound(run, target.value, out), out.ticks(tick), out);
        } else {
          var open := if node == WaitTimer then run.(stopReason := "") else run;
          WorkingFields(w0, stored, run, open, out);
          DispatchOk(w0, stored, open, adv, out, tick);
        }
      }
    }
  }
}
