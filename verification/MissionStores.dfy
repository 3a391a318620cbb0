/**
 Whatever advancing a mission stores continues the run it worked on: no event is lost, what was skipped
 stays skipped, what was finished keeps its result, and the mission is not stopped by it.
 */
module MissionStores {
  import opened Prelude
  import opened Values
  import opened AgentTypes
  import opened References
  import opened Planning
  import opened Recovery
  import opened Runs
  import opened RunStore
  import opened Mission
  import opened MissionInvariant
  import opened MissionSave
  import opened MissionPasses
  import opened MissionAdvance
  import Verifier

  predicate IsStopped(status: RunStatus) { status in {Paused, RunStatus.Cancelled} }

  /** What is settled about a step: what it does, that a skipped one stays skipped, and that a finished one keeps input and result. */
  predicate Settles(was: Step, now: Step) {
    && now.id == was.id && now.tool == was.tool && now.risk == was.risk
    && (was.status == Skipped ==> now.status == Skipped)
    && (was.status == Done ==> now.status == Done && now.result == was.result && now.input == was.input)
  }

  /** The same steps in the same places, perhaps followed by new ones. */
  predicate AllSettle(was: seq<Step>, now: seq<Step>) {
    |was| <= |now| && forall i | 0 <= i < |was| :: Settles(was[i], now[i])
  }

  ghost predicate Follows(run: Run, now: Run) {
    now.id == run.id && AllSettle(run.steps, now.steps) && Grown(run.events, now.events)
  }

  ghost predicate Stores(w: World, run: Run) {
    match Hydrate(w.store, run.id)
    case None => false
    case Some(now) => !IsStopped(now.status) && Follows(run, now)
  }

  /** The outcome stores what follows the run, unless an exception comes before anything is stored. */
  ghost predicate Stored(w: World, o: Outcome, run: Run) {
    Stores(o.world, run) || (o.thrown && o.world.store == w.store)
  }

  lemma FollowsThen(a: Run, b: Run, c: Run)
    requires Follows(a, b) && Follows(b, c)
    ensures Follows(a, c)
  {
  }

  lemma StopsSettle(was: seq<Step>, now: seq<Step>)
    requires AllLeftOrStopped(was, now)
    ensures AllSettle(was, now)
  {
  }

  // ---------- Saving ----------

  lemma MergedFollows(w: World, run: Run)
    ensures Follows(run, Saved(w, run)) && Follows(run, Reread(w, run))
  {
    MergeLosesNoEvent(run.events, EventRows(w, run.id));
  }

  lemma SaveStores(w: World, base: Run, run: Run, tick: Tick)
    requires Follows(base, run) && !IsStopped(run.status)
    ensures Stores(Save(w, run, tick), base)
  {
    hide Hydrate, Persist, Follows;
    HydrateAfterPersist(w.store, run, tick);
    MergedFollows(w, run);
    FollowsThen(base, run, Reread(w, run));
    SameIds(base, run);
  }

  lemma SameIds(base: Run, run: Run)
    requires Follows(base, run)
    ensures run.id == base.id
  {
  }

  // ---------- Steering ----------

  lemma ReplannedFollows(run: Run, batch: seq<Step>, plan: Plan, mark: string, out: Outside)
    ensures var replanned := Replanned(run, SkipActive(run.steps, REPLACED), batch, plan, "等待用户批准修改后的动作");
      Follows(run, Told(AddEvent(replanned, out.stamps, PlanEvent, mark), plan, out))
  {
    hide AnyReady;
    SkipActiveStops(run.steps, REPLACED);
    StopsSettle(run.steps, SkipActive(run.steps, REPLACED));
  }

  lemma ApplySteerStores(w: World, run: Run, plan: Plan, out: Outside, tick: nat)
    requires PendingSteer(run.events).Some? && !AnyRunning(run.steps)
    ensures Stored(w, ApplySteer(w, run, plan, out, tick), run)
  {
    hide Hydrate, Persist, PlannedBatch, Narrows, SkipActive, AnyReady, Stores, Follows;
    if PlannedBatch(run, plan).Some? {
      var batch, mark := PlannedBatch(run, plan).value, STEER_APPLIED_MARK + PendingSteer(run.events).value.id;
      var replanned := Replanned(run, SkipActive(run.steps, REPLACED), batch, plan, "等待用户批准修改后的动作");
      ReplannedFollows(run, batch, plan, mark, out);
      SaveStores(w.(log := Installing(w.log, run, plan)), run, Told(AddEvent(replanned, out.stamps, PlanEvent, mark), plan, out), out.ticks(tick));
    }
  }

  // ---------- Judging ----------

  lemma EndedFollows(run: Run, status: RunStatus, reason: string, out: Outside)
    ensures Follows(run, Ended(run, status, reason, out)) && Ended(run, status, reason, out).status == status
  {
  }

  lemma ContinueFollows(run: Run, fallback: Option<Continuation>, authorized: bool, out: Outside)
    ensures var c := Continue(run, fallback, authorized, out);
      c.Applied? ==> Follows(run, c.run) && !IsStopped(c.run.status)
  {
    hide Normalized, AnyReady, Authorize;
  }

  lemma AfterModelFailureFollows(run: Run, adv: AdvanceInput, out: Outside)
    ensures var r := AfterModelFailure(run, adv, out); r.Some? ==> Follows(run, r.value) && !IsStopped(r.value.status)
  {
    hide Continue, Verifier.Complete, Ended;
    ContinueFollows(run, adv.fallback, adv.authorized, out);
    EndedFollows(run, Completed, "模型评估暂不可用，已按服务端完成证据核验", out);
    EndedFollows(run, RunFailed, "结果评估失败且没有可靠的确定性续跑路径", out);
    var c := Continue(run, adv.fallback, adv.authorized, out);
    if c.NotApplied? {
      EndedFollows(run, WaitingUser, c.askUser, out);
    }
  }

  lemma WithoutNextFollows(run: Run, adv: AdvanceInput, out: Outside)
    ensures var r := WithoutNext(run, adv, out); r.Some? ==> Follows(run, r.value) && !IsStopped(r.value.status)
  {
    hide Continue, Ended, AfterModelFailure, Follows;
    ContinueFollows(run, adv.fallback, adv.authorized, out);
    AfterModelFailureFollows(run, adv, out);
    var c := Continue(run, adv.fallback, adv.authorized, out);
    if c.NotApplied? {
      EndedFollows(run, WaitingUser, if c.askUser != "" then c.askUser else "现有结果尚未满足目标", out);
    }
  }

  lemma NextRoundFollows(run: Run, batch: seq<Step>, out: Outside)
    ensures Follows(run, NextRound(run, batch, out)) && !IsStopped(NextRound(run, batch, out).status)
  {
    hide AnyReady;
    SkipFailedStops(run.steps);
    StopsSettle(run.steps, SkipFailed(run.steps));
  }

  lemma ClaimedDoneFollows(run: Run, out: Outside)
    ensures Follows(run, ClaimedDone(run, out)) && !IsStopped(ClaimedDone(run, out).status)
  {
    hide Verifier.Complete;
    EndedFollows(run, Completed, "目标完成标准已经满足", out);
  }

  lemma EvaluatedFollows(run: Run, adv: AdvanceInput, out: Outside)
    ensures var r := Evaluated(run, adv, out); r.Some? ==> Follows(run, r.value) && !IsStopped(r.value.status)
  {
    hide Normalized, AfterModelFailure, WithoutNext, NextRound, ClaimedDone, Ended, Follows, Authorize;
    AfterModelFailureFollows(run, adv, out);
    if adv.evaluation.Some? {
      var e := adv.evaluation.value;
      ClaimedDoneFollows(run, out);
      EndedFollows(run, WaitingUser, e.askUser, out);
      WithoutNextFollows(run, adv, out);
      var normalized := Normalized(e.next, run.id, Owner(run), run.steps);
      if normalized.Some? {
        NextRoundFollows(run, Authorize(normalized.value, adv.authorized), out);
      }
    }
  }

  lemma ModelRoundStores(w: World, base: Run, run: Run, adv: AdvanceInput, out: Outside, tick: nat)
    requires Follows(base, run) && !IsStopped(run.status)
    ensures Stores(ModelRound(w, run, adv, out, tick).world, base)
  {
    hide Hydrate, Persist, Evaluated, IsStopped, Follows, Merged;
    SaveStores(w, base, run, out.ticks(tick));
    MergedFollows(w, run);
    EvaluatedFollows(Saved(w, run), adv, out);
    var judged := Evaluated(Saved(w, run), adv, out);
    if judged.Some? {
      FollowsThen(base, run, Saved(w, run));
      FollowsThen(base, Saved(w, run), judged.value);
      SaveStores(Save(w, run, out.ticks(tick)), base, judged.value, out.ticks(tick + 1));
    }
  }

  lemma DeliveringFollows(run: Run, batch: seq<Step>, out: Outside)
    ensures Follows(run, Delivering(run, batch, out)) && !IsStopped(Delivering(run, batch, out).status)
  {
    hide AnyReady;
  }

  lemma AfterRejectionStores(w: World, run: Run, adv: AdvanceInput, out: Outside, tick: nat)
    ensures Stored(w, AfterRejection(w, run, adv, out, tick), run)
  {
    hide Hydrate, Persist, ModelRound, Normalized, Verifier.Complete, Stores, Ended, Delivering, Authorize;
    var tock := out.ticks(tick);
    if adv.documents.Some? && adv.documents.value.items != [] {
      var normalized := Normalized(adv.documents.value.items, run.id, Owner(run), run.steps);
      if normalized.Some? {
        DeliveringFollows(run, Authorize(normalized.value, adv.authorized), out);
        SaveStores(w, run, Delivering(run, Authorize(normalized.value, adv.authorized), out), tock);
      }
    } else if adv.documents.Some? && adv.documents.value.askUser != "" {
      EndedIsStored(w, run, WaitingUser, adv.documents.value.askUser, out, tock);
    } else if run.iteration >= run.maxIterations {
      EndedIsStored(w, run, RunFailed, "已达到最大自主轮次", out, tock);
    } else if !adv.hasModel {
      EndedIsStored(w, run, RulesVerdict(run), "规则模式", out, tock);
    } else {
      ModelRoundStores(w, run, PlanningRun(run, out), adv, out, tick);
    }
  }

  lemma EndedIsStored(w: World, run: Run, status: RunStatus, reason: string, out: Outside, tick: Tick)
    requires !IsStopped(status)
    ensures Stores(Save(w, Ended(run, status, reason, out), tick), run)
  {
    hide Hydrate, Persist, Stores, Ended, Follows;
    EndedFollows(run, status, reason, out);
    SaveStores(w, run, Ended(run, status, reason, out), tick);
  }

  lemma ObservingFollows(run: Run, batch: seq<Step>, status: RunStatus, out: Outside)
    ensures Follows(run, Observing(run, batch, status, out)) && !IsStopped(Observing(run, batch, status, out).status)
  {
  }

  lemma JudgeStores(w: World, run: Run, adv: AdvanceInput, out: Outside, tick: nat)
    ensures Stored(w, Judge(w, run, adv, out, tick), run)
  {
    hide Hydrate, Persist, AfterRejection, Normalized, Verifier.Complete, Stores, Ended, Observing;
    var tock := out.ticks(tick);
    match adv.probe
    case IncompleteEmail => EndedIsStored(w, run, RunFailed, "开发信草稿缺少对象、主题或正文，不能进入发送审批", out, tock);
    case Observe(items, status) =>
      var normalized := Normalized(items, run.id, Owner(run), run.steps);
      if normalized.Some? {
        ObservingFollows(run, normalized.value, status, out);
        SaveStores(w, run, Observing(run, normalized.value, status, out), tock);
      }
    case WaitUntil(time) => SaveStores(w, run, WaitingUntil(run, time, out), tock);
    case NoProbe =>
      EndedIsStored(w, run, Completed, "目标已通过服务端完成证据核验", out, tock);
      AfterRejectionStores(w, run, adv, out, tick);
  }

  // ---------- Dispatching ----------

  lemma RecoverFollows(run: Run, out: Outside)
    ensures var (now, verdict) := Recover(run, out); Follows(run, now) && (verdict != NoRecovery ==> !IsStopped(now.status))
  {
    hide DecideRecovery, HasMark, Describe, Sign, RetriedStep, AllSettle, RecoveryMarkOf;
    var now, i := Recover(run, out).0, LastFailed(run.steps);
    assert now.id == run.id && run.events <= now.events;
    if i >= 0 {
      RetriedSettles(run, i);
    }
    AllSettleItself(run.steps);
  }

  lemma RetriedSettles(run: Run, i: nat)
    requires i < |run.steps| && run.steps[i].status == Failed
    ensures AllSettle(run.steps, run.steps[i := RetriedStep(run, run.steps[i])])
  {
  }

  lemma AllSettleItself(steps: seq<Step>)
    ensures AllSettle(steps, steps)
  {
  }

  lemma ReplyFollows(run: Run, out: Outside)
    ensures Follows(run, Reply(run, out)) && Reply(run, out).status == run.status
  {
  }

  lemma PropagateFollows(run: Run, stamps: Stamps)
    ensures Follows(run, Propagate(run, stamps))
  {
    PropagateStops(run.steps, |run.steps|);
    StopsSettle(run.steps, Propagate(run, stamps).steps);
  }

  lemma StoredFrom(w: World, o: Outcome, base: Run, run: Run)
    requires Stored(w, o, run) && Follows(base, run)
    ensures Stored(w, o, base)
  {
    hide Hydrate;
    if Stores(o.world, run) {
      FollowsThen(base, run, Hydrate(o.world.store, run.id).value);
    }
  }

  lemma EvaluateStores(w: World, run: Run, adv: AdvanceInput, out: Outside, tick: nat)
    ensures Stored(w, Evaluate(w, run, adv, out, tick), run)
  {
    hide Hydrate, Persist, Recover, Judge, Propagate, Stores, Follows, Reply;
    RecoverFollows(run, out);
    var (now, verdict) := Recover(run, out);
    match verdict
    case Halt =>
      ReplyFollows(now, out);
      FollowsThen(run, now, Reply(now, out));
      SaveStores(w, run, Reply(now, out), out.ticks(tick));
    case Retry =>
      RecoveryMarked(run, out);
      var retried := w.(log := w.log + [RetriedEffect(run.steps[LastFailed(run.steps)].id)]);
      SaveStores(retried, run, now, out.ticks(tick));
    case NoRecovery =>
      PropagateFollows(now, out.stamps);
      FollowsThen(run, now, Propagate(now, out.stamps));
      JudgeStores(w, Propagate(now, out.stamps), adv, out, tick);
      StoredFrom(w, Judge(w, Propagate(now, out.stamps), adv, out, tick), run, Propagate(now, out.stamps));
  }

  lemma AtApprovalFollows(run: Run, out: Outside)
    ensures Follows(run, AtApproval(run, out)) && AtApproval(run, out).status == AwaitingConfirmation
  {
  }

  /** What the dispatch on the next node stores follows the run, and the mission is not stopped. */
  lemma DispatchStores(w: World, run: Run, adv: AdvanceInput, out: Outside, tick: nat)
    ensures Stored(w, Dispatch(w, run, adv, out, tick), run)
  {
    hide Hydrate, Persist, ApplySteer, Evaluate, Stores, AtApproval, PendingSteer, StartsWith;
    match NodeOf(run)
    case SteerNode => ApplySteerStores(w, run, adv.steerPlan, out, tick);
    case ExecuteNode => SaveStores(w, run, run.(status := InProgress), out.ticks(tick));
    case ApprovalNode =>
      AtApprovalFollows(run, out);
      SaveStores(w, run, AtApproval(run, out), out.ticks(tick));
    case _ => EvaluateStores(w, run, adv, out, tick);
  }

  // ---------- Advancing ----------

  lemma PreparedFollows(run: Run, user: Actor, stamps: Stamps)
    ensures Follows(run, Prepare(run, user, stamps))
  {
    hide Resolve, HasNoReferences, DependenciesSatisfied;
  }

  /** The finished observer that an advance rewinds because the timer has run out, if there is one. */
  function RewoundBy(stored: Run, adv: AdvanceInput, out: Outside): (target: Option<nat>)
    ensures target.Some? ==>
      target.value < |stored.steps| && stored.steps[target.value].status == Done && IsPolled(stored.steps[target.value].tool)
  {
    var run := Prepare(stored, Owner(stored), out.stamps);
    if adv.active && adv.timerDue && !PreparationThrows(stored) && NodeOf(run) == WaitTimer then RewindTarget(run.steps) else None
  }

  /** As `Follows`, but for the step `t`, which is to run again or was skipped. */
  ghost predicate FollowsBut(run: Run, now: Run, t: nat) {
    && now.id == run.id && Grown(run.events, now.events)
    && t < |run.steps| <= |now.steps| && now.steps[t].id == run.steps[t].id
    && (now.steps[t].status == Ready || now.steps[t].status == Skipped)
    && forall i | 0 <= i < |run.steps| && i != t :: Settles(run.steps[i], now.steps[i])
  }

  ghost predicate StoresRewound(w: World, run: Run, t: nat) {
    match Hydrate(w.store, run.id)
    case None => false
    case Some(now) => !IsStopped(now.status) && FollowsBut(run, now, t)
  }

  lemma RewoundFollows(stored: Run, run: Run, t: nat, out: Outside)
    requires Follows(stored, run) && t < |stored.steps|
    ensures FollowsBut(stored, Rewound(run, t, out), t) && Rewound(run, t, out).status == InProgress
  {
    hide NextPoll, Observed, Sign;
  }

  lemma SavedFollowsBut(w: World, base: Run, run: Run, t: nat)
    requires FollowsBut(base, run, t)
    ensures FollowsBut(base, Reread(w, run), t)
  {
    MergedFollows(w, run);
    var now := Reread(w, run);
    assert now.steps[t] == WithKey(MergedStep(run.steps[t], StoredStep(Rows(w, run.id), run.steps[t].id)));
  }

  lemma RewoundIsStored(w: World, stored: Run, t: nat, out: Outside, tick: Tick)
    requires t < |stored.steps|
    ensures StoresRewound(Save(w, Rewound(Prepare(stored, Owner(stored), out.stamps), t, out), tick), stored, t)
  {
    hide Hydrate, Persist, Prepare, FollowsBut, RewoundStep;
    var run := Prepare(stored, Owner(stored), out.stamps);
    PreparedFollows(stored, Owner(stored), out.stamps);
    var rewound := Rewound(run, t, out);
    RewoundFollows(stored, run, t, out);
    HydrateAfterPersist(w.store, rewound, tick);
    SavedFollowsBut(w, stored, rewound, t);
  }

  /** Advancing an unstopped mission leaves it unstopped; apart from a rewound observer nothing settled changes. */
  lemma AdvanceStores(w: World, stored: Run, adv: AdvanceInput, out: Outside, tick: nat)
    requires Hydrate(w.store, stored.id) == Some(stored) && !IsStopped(stored.status)
    ensures var w1, target := Advance(w, stored.id, adv, out, tick).world, RewoundBy(stored, adv, out);
      if target.Some? then StoresRewound(w1, stored, target.value) else Stores(w1, stored)
  {
    hide Hydrate, Persist, Dispatch, NodeOf, Prepare, RewindTarget, PreparationThrows, Fillings, Rewound, Follows, StoresRewound;
    var run, w0 := Prepare(stored, Owner(stored), out.stamps), Preparing(w, stored);
    ItselfFollows(stored);
    if NodeOf(run) == WaitTimer && RewindTarget(run.steps).Some? {
      RewoundIsStored(w0, stored, RewindTarget(run.steps).value, out, out.ticks(tick));
    } else {
      var open := if NodeOf(run) == WaitTimer then run.(stopReason := "") else run;
      OpenFollows(stored, run, out);
      DispatchStores(w0, open, adv, out, tick);
      StoredFrom(w0, Dispatch(w0, open, adv, out, tick), stored, open);
    }
  }

  lemma ItselfFollows(run: Run)
    ensures Follows(run, run)
  {
  }

  lemma OpenFollows(stored: Run, run: Run, out: Outside)
    requires run == Prepare(stored, Owner(stored), out.stamps)
    ensures Follows(stored, run) && Follows(stored, run.(stopReason := ""))
  {
    hide Prepare;
    PreparedFollows(stored, Owner(stored), out.stamps);
  }
}
