/** Every operation that finds nothing running in the background keeps the world sound. */
module MissionOps {
  import opened Prelude
  import opened Values
  import opened AgentTypes
  import opened References
  import opened WorkflowGraph
  import opened Planning
  import opened Recovery
  import opened Runs
  import opened Collections
  import opened RunStore
  import opened Mission
  import opened MissionInvariant
  import opened MissionSave
  import opened MissionPasses
  import opened MissionMoves
  import Verifier

  /** The world holds the sound run `stored`, and the ids to be drawn are new. */
  ghost predicate Grounded(w: World, stored: Run, out: Outside) {
    && Hydrate(w.store, stored.id) == Some(stored)
    && GroundOk(w, stored.id)
    && Sound(stored, w.log, out.stamps)
  }

  /** The world holds a sound run that continues `stored`, with every event `stored` had. */
  ghost predicate Later(stored: Run, w: World) {
    WorldOk(w, stored.id) && Continues(stored, Hydrate(w.store, stored.id).value)
  }

  /** Besides, the run was completed only on evidence. */
  ghost predicate Next(stored: Run, w: World) {
    && Later(stored, w)
    && var now := Hydrate(w.store, stored.id).value;
       now.status == Completed ==> stored.status == Completed || Verified(now)
  }

  lemma NextThen(stored: Run, between: Run, w: World)
    requires Continues(stored, between) && between.status != Completed && Next(between, w)
    ensures Next(stored, w)
  {
  }

  /** Besides, nothing is running. */
  ghost predicate AtRest(w: World, stored: Run, out: Outside) {
    Grounded(w, stored, out) && w.flight == None && !AnyRunning(stored.steps)
  }

  /** A run derived from the stored one that may be written back. */
  ghost predicate Storable(stored: Run, run: Run, log: seq<Effect>, out: Outside) {
    Sound(run, log, out.stamps) && Continues(stored, run) && LogOk(log, run.events) && Verified(run)
  }

  lemma SavedIsAfter(w: World, stored: Run, run: Run)
    requires Hydrate(w.store, run.id) == Some(stored) && Grown(stored.events, run.events)
    requires forall s | s in run.steps :: s.key != ""
    ensures Saved(w, run).events == run.events && Saved(w, run).steps == Reread(w, run).steps
  {
    HydratedEvents(w, run.id);
    var rows := EventRows(w, run.id);
    forall r | r in rows
      ensures !Unseen(run.events)(r)
    {
      var i :| 0 <= i < |rows| && rows[i] == r;
      assert EventsOf(rows)[i] == r.event;
      assert r.event in run.events;
    }
    FilterNone(Unseen(run.events), rows);
    forall i | 0 <= i < |run.steps|
      ensures Saved(w, run).steps[i] == Reread(w, run).steps[i]
    {
      assert run.steps[i] in run.steps;
    }
  }

  /** After a save both the stored run and the caller's run can go on. */
  lemma SaveGround(w: World, stored: Run, run: Run, tick: Tick, log: seq<Effect>, out: Outside)
    requires Grounded(w, stored, out) && Storable(stored, run, log, out) && w.log <= log
    ensures var w1, now, saved := World(Persist(w.store, run, tick), None, log), Reread(w, run), Saved(w, run);
      && Grounded(w1, now, out) && now.id == stored.id && Continues(stored, now)
      && Storable(now, saved, log, out) && saved.steps == now.steps && StepsSaved(run.steps, saved.steps)
      && saved.status == now.status == run.status && saved.spec == now.spec == run.spec
  {
    hide Persist, Hydrate, CheckpointOk, StepOk, FinishedRests, GraphOk;
    var now, saved := Reread(w, run), Saved(w, run);
    SoundRunHas(run, log);
    SoundRunHas(stored, w.log);
    EventsExtend(stored, run);
    assert Savable(w, stored, run, log);
    SaveIsOk(w, stored, run, tick, log);
    SaveReads(w, stored, run, tick);
    SavedIsAfter(w, stored, run);
    SaveKeepsSteps(w, run);
    RunOkCarries(now, saved, log);
    LogPersists(log, run.events, saved.events);
    CompletionAfterSave(run, saved, log);
  }

  lemma EventsExtend(stored: Run, run: Run)
    requires Continues(stored, run) && UniqueEvents(run.events)
    ensures SameIdSameEvent(run.events, stored.events)
  {
  }

  lemma SaveStorable(w: World, stored: Run, run: Run, tick: Tick, log: seq<Effect>, out: Outside)
    requires Grounded(w, stored, out) && Storable(stored, run, log, out) && !AnyRunning(run.steps) && w.log <= log
    ensures var w1 := World(Persist(w.store, run, tick), None, log);
      && AtRest(w1, Reread(w, run), out) && !AnyRunning(Saved(w, run).steps) && Next(stored, w1)
  {
    SaveGround(w, stored, run, tick, log, out);
    NoneRunningAfterSave(run.steps, Saved(w, run).steps);
  }

  /** The log is unchanged: it stays sound over more events. */
  lemma QuietStorable(w: World, stored: Run, run: Run, out: Outside)
    requires Grounded(w, stored, out)
    requires Sound(run, w.log, out.stamps) && Continues(stored, run) && Verified(run)
    ensures Storable(stored, run, w.log, out)
  {
  }

  lemma QuietSave(w: World, stored: Run, run: Run, tick: Tick, out: Outside)
    requires AtRest(w, stored, out)
    requires Sound(run, w.log, out.stamps) && Continues(stored, run) && Verified(run) && !AnyRunning(run.steps)
    ensures Next(stored, Save(w, run, tick)) && AtRest(Save(w, run, tick), Reread(w, run), out)
  {
    QuietStorable(w, stored, run, out);
    SaveStorable(w, stored, run, tick, w.log, out);
    assert Save(w, run, tick) == World(Persist(w.store, run, tick), None, w.log);
  }

  lemma RestingIsOk(w: World, stored: Run, out: Outside)
    requires AtRest(w, stored, out)
    ensures Next(stored, w)
  {
  }

  /** Preparing a resting mission puts what it fills in on record and nothing else. */
  lemma PreparingOk(w: World, stored: Run, out: Outside)
    requires AtRest(w, stored, out)
    ensures AtRest(Preparing(w, stored), stored, out) && FillingsLogged(stored, Preparing(w, stored).log)
    ensures w.log <= Preparing(w, stored).log && Preparing(w, stored).store == w.store
  {
    hide Hydrate, RunOk, LogOk, CompletedOk, CheckpointOk, FreshFrom, Fillings;
    var more := Fillings(stored.steps, stored.steps);
    NotesKeepRun(stored, w.log, more);
    NotesKeepLog(w.log, stored.events, more);
    ClosedStays(stored, w.log, more);
    forall c | c in w.store.checkpoints && c.runId == stored.id
      ensures CheckpointOk(c, stored.events, w.log + more)
    {
      CheckpointPersists(c, stored.events, stored.events, w.log, w.log + more);
    }
  }

  /** A save together with a longer log. */
  lemma SaveStorable2(w: World, stored: Run, run: Run, tick: Tick, log: seq<Effect>, out: Outside)
    requires AtRest(w, stored, out) && Storable(stored, run, log, out) && !AnyRunning(run.steps) && w.log <= log
    ensures Next(stored, Save(w.(log := log), run, tick))
  {
    SaveStorable(w, stored, run, tick, log, out);
    assert Save(w.(log := log), run, tick) == World(Persist(w.store, run, tick), None, log);
  }

  // ---------- Pause and cancel ----------

  lemma PausedFields(run: Run, out: Outside)
    ensures PausedRun(run, out).steps == run.steps && PausedRun(run, out).status == Paused
  {
  }

  lemma PausedSound(run: Run, out: Outside, log: seq<Effect>)
    requires Sound(run, log, out.stamps)
    ensures Sound(PausedRun(run, out), log, out.stamps) && Continues(run, PausedRun(run, out))
  {
  }

  lemma PauseOk(w: World, stored: Run, user: Actor, out: Outside)
    requires AtRest(w, stored, out)
    ensures Next(stored, Pause(w, stored.id, user, out).world)
  {
    hide Persist, Next, PausedRun;
    RestingIsOk(w, stored, out);
    PausedSound(stored, out, w.log);
    PausedFields(stored, out);
    if stored.status !in {Completed, RunStatus.Cancelled, Paused} {
      QuietSave(w, stored, PausedRun(stored, out), out.ticks(0), out);
    }
  }

  lemma CancelledSound(run: Run, out: Outside, log: seq<Effect>)
    requires Sound(run, log, out.stamps)
    ensures Sound(CancelledRun(run, out), log, out.stamps) && Continues(run, CancelledRun(run, out))
    ensures !AnyRunning(run.steps) ==> !AnyRunning(CancelledRun(run, out).steps)
    ensures CancelledRun(run, out).steps == FailWaiting(run.steps) && CancelledRun(run, out).status == RunStatus.Cancelled
  {
    var stopped := run.(status := RunStatus.Cancelled, stopReason := CANCELLED_REASON, steps := FailWaiting(run.steps));
    FailWaitingStops(run.steps);
    StoppedSound(run, stopped, log, out.stamps);
    EventSound(stopped, out.stamps, ErrorEvent, CANCELLED_REASON, log);
    ReplySound(AddEvent(stopped, out.stamps, ErrorEvent, CANCELLED_REASON), out, log);
  }

  lemma CancelOk(w: World, stored: Run, user: Actor, out: Outside)
    requires AtRest(w, stored, out)
    ensures Next(stored, CancelMission(w, stored.id, user, out).world)
  {
    hide Persist, Next, CancelledRun;
    RestingIsOk(w, stored, out);
    CancelledSound(stored, out, w.log);
    if stored.status !in {Completed, RunStatus.Cancelled} {
      QuietSave(w, stored, CancelledRun(stored, out), out.ticks(0), out);
    }
  }

  // ---------- Replanning ----------

  lemma ReplannedSound(run: Run, skipped: seq<Step>, batch: seq<Step>, plan: Plan, waiting: string, log: seq<Effect>, stamps: Stamps)
    requires Sound(run, log, stamps) && AllLeftOrStopped(run.steps, skipped) && BatchFor(run, batch, log)
    ensures var now := Replanned(run, skipped, batch, plan, waiting);
      && Sound(now, log, stamps) && Continues(run, now) && now.status != Completed
      && (!AnyRunning(run.steps) ==> !AnyRunning(now.steps))
  {
    var stopped := run.(steps := skipped);
    StoppedSound(run, stopped, log, stamps);
    assert SameNames(run.steps, skipped);
    BatchCarries(run, stopped, batch);
    AppendSound(stopped, Replanned(run, skipped, batch, plan, waiting), batch, log, stamps);
  }

  lemma ToldSound(run: Run, plan: Plan, out: Outside, log: seq<Effect>)
    requires Sound(run, log, out.stamps)
    ensures var now := Told(run, plan, out);
      Sound(now, log, out.stamps) && Continues(run, now) && now.steps == run.steps && now.status == run.status && now.spec == run.spec
  {
  }

  lemma ApplySteerOk(w: World, stored: Run, run: Run, plan: Plan, out: Outside, tick: nat)
    requires AtRest(w, stored, out)
    requires Sound(run, w.log, out.stamps) && Continues(stored, run) && !AnyRunning(run.steps)
    requires FreshItems(plan.items, run.steps)
    ensures Next(stored, ApplySteer(w, run, plan, out, tick).world)
  {
    var steer := PendingSteer(run.events);
    if steer.Some? && PlannedBatch(run, plan).Some? {
      var batch := PlannedBatch(run, plan).value;
      var log := Installing(w.log, run, plan);
      InstallingOk(run, plan, w.log);
      InstallingSound(run, run, plan, w.log, out.stamps);
      LogPersists(w.log, stored.events, run.events);
      InstallingLogged(w.log, run.events, run, plan);
      SkipActiveStops(run.steps, REPLACED);
      var replanned := Replanned(run, SkipActive(run.steps, REPLACED), batch, plan, "等待用户批准修改后的动作");
      ReplannedSound(run, SkipActive(run.steps, REPLACED), batch, plan, "等待用户批准修改后的动作", log, out.stamps);
      InstallOk(w, stored, run, replanned, STEER_APPLIED_MARK + steer.value.id, plan, log, out, out.ticks(tick));
    }
  }

  lemma InstallOk(w: World, stored: Run, run: Run, replanned: Run, mark: string, plan: Plan,
                  log: seq<Effect>, out: Outside, tick: Tick)
    requires AtRest(w, stored, out) && Continues(stored, run) && w.log <= log && LogOk(log, run.events)
    requires Sound(replanned, log, out.stamps) && Continues(run, replanned)
    requires !AnyRunning(replanned.steps) && replanned.status != Completed
    ensures Next(stored, Save(w.(log := log), Told(AddEvent(replanned, out.stamps, PlanEvent, mark), plan, out), tick))
  {
    EventSound(replanned, out.stamps, PlanEvent, mark, log);
    var applied := AddEvent(replanned, out.stamps, PlanEvent, mark);
    ToldSound(applied, plan, out, log);
    LogPersists(log, run.events, Told(applied, plan, out).events);
    SaveStorable2(w, stored, Told(applied, plan, out), tick, log, out);
  }

  // ---------- Advancing ----------

  /** Whatever plan the advance may install draws new ids. */
  ghost predicate FreshAdvance(adv: AdvanceInput, steps: seq<Step>) {
    && FreshItems(adv.steerPlan.items, steps)
    && (adv.probe.Observe? ==> FreshItems(adv.probe.items, steps))
    && (adv.documents.Some? ==> FreshItems(adv.documents.value.items, steps))
    && (adv.evaluation.Some? ==> FreshItems(adv.evaluation.value.next, steps))
    && (adv.fallback.Some? ==> FreshItems(adv.fallback.value.items, steps))
  }

  lemma FreshAdvanceCarries(adv: AdvanceInput, was: seq<Step>, now: seq<Step>)
    requires FreshAdvance(adv, was) && SameNames(was, now)
    ensures FreshAdvance(adv, now)
  {
  }

  /** A run an operation is working on: derived from the stored one, open, with nothing running. */
  ghost predicate Working(w: World, stored: Run, run: Run, out: Outside) {
    && AtRest(w, stored, out)
    && Sound(run, w.log, out.stamps) && Continues(stored, run)
    && !AnyRunning(run.steps) && run.status != Completed
  }

  lemma EndedOk(w: World, stored: Run, run: Run, status: RunStatus, reason: string, out: Outside, tick: Tick)
    requires Working(w, stored, run, out)
    requires status == Completed ==> Verifier.Complete(run.spec, run.steps)
    ensures Next(stored, Save(w, Ended(run, status, reason, out), tick))
  {
    EndedSound(run, status, reason, out, w.log);
    QuietSave(w, stored, Ended(run, status, reason, out), tick, out);
  }

  lemma EventThenSave(w: World, stored: Run, run: Run, kind: EventType, message: string, out: Outside, tick: Tick)
    requires Working(w, stored, run, out)
    ensures Next(stored, Save(w, AddEvent(run, out.stamps, kind, message), tick))
  {
    EventSound(run, out.stamps, kind, message, w.log);
    QuietSave(w, stored, AddEvent(run, out.stamps, kind, message), tick, out);
  }

  lemma WorkingRounds(w: World, stored: Run, run: Run, out: Outside)
    requires Working(w, stored, run, out)
    ensures WithinRounds(run)
  {
  }

  lemma WorkingFields(w: World, stored: Run, run: Run, now: Run, out: Outside)
    requires Working(w, stored, run, out) && now.status != Completed && WithinRounds(now)
    requires now.id == run.id && Owner(now) == Owner(run) && now.steps == run.steps && now.events == run.events
    ensures Working(w, stored, now, out)
  {
  }

  lemma WorkingAppend(w: World, stored: Run, run: Run, now: Run, batch: seq<Step>, out: Outside)
    requires Working(w, stored, run, out) && BatchOk(run, batch) && now.status != Completed && WithinRounds(now)
    requires now.id == run.id && Owner(now) == Owner(run) && now.steps == run.steps + batch && now.events == run.events
    ensures Working(w, stored, now, out)
  {
    AppendSound(run, now, batch, w.log, out.stamps);
  }

  lemma NormalizedAuthorizedOk(run: Run, items: seq<PlanItem>, authorized: bool)
    requires FreshItems(items, run.steps) && Normalized(items, run.id, Owner(run), run.steps).Some?
    ensures BatchOk(run, Authorize(Normalized(items, run.id, Owner(run), run.steps).value, authorized))
    ensures BatchOk(run, Normalized(items, run.id, Owner(run), run.steps).value)
  {
    NormalizedBatchOk(items, run);
    AuthorizedBatchOk(run, Normalized(items, run.id, Owner(run), run.steps).value, authorized);
  }

  lemma ContinueOk(w: World, stored: Run, run: Run, fallback: Option<Continuation>, authorized: bool, out: Outside)
    requires Working(w, stored, run, out) && (fallback.Some? ==> FreshItems(fallback.value.items, run.steps))
    ensures var c := Continue(run, fallback, authorized, out);
      c.Applied? ==> Working(w, stored, c.run, out)
  {
    if Continue(run, fallback, authorized, out).Applied? {
      NormalizedAuthorizedOk(run, fallback.value.items, authorized);
      ContinuingOk(w, stored, run, Authorize(Normalized(fallback.value.items, run.id, Owner(run), run.steps).value, authorized), out);
    }
  }

  lemma ContinuingOk(w: World, stored: Run, run: Run, batch: seq<Step>, out: Outside)
    requires Working(w, stored, run, out) && BatchOk(run, batch)
    ensures Working(w, stored, Continuing(run, batch, out), out)
  {
    var status := AfterBatch(batch);
    var next := run.(steps := run.steps + batch, iteration := Min(run.maxIterations, run.iteration + 1), status := status,
                     stopReason := if status == AwaitingConfirmation then "等待确认确定性续跑动作" else "");
    WorkingAppend(w, stored, run, next, batch, out);
    EventSound(next, out.stamps, PlanEvent, "已切换服务端确定性续跑", w.log);
  }

  lemma AfterModelFailureOk(w: World, stored: Run, run: Run, adv: AdvanceInput, out: Outside)
    requires Working(w, stored, run, out) && FreshAdvance(adv, run.steps)
    ensures var r := AfterModelFailure(run, adv, out);
      r.Some? ==> Storable(stored, r.value, w.log, out) && !AnyRunning(r.value.steps)
  {
    hide Continue, Hydrate, GroundOk, FreshItems, Verifier.Complete, LogOk;
    var r := AfterModelFailure(run, adv, out);
    ContinueOk(w, stored, run, adv.fallback, adv.authorized, out);
    var c := Continue(run, adv.fallback, adv.authorized, out);
    if Verifier.Complete(run.spec, run.steps) {
      EndedSound(run, Completed, "模型评估暂不可用，已按服务端完成证据核验", out, w.log);
    } else if c.Applied? {
      EventSound(c.run, out.stamps, ErrorEvent, "结果评估模型暂不可用", w.log);
    } else if c.NotApplied? {
      EndedSound(run, WaitingUser, c.askUser, out, w.log);
      EndedSound(run, RunFailed, "结果评估失败且没有可靠的确定性续跑路径", out, w.log);
    }
    if r.Some? {
      QuietStorable(w, stored, r.value, out);
    }
  }

  /** Another round may be counted. */
  predicate HasRoundLeft(run: Run) { run.iteration < run.maxIterations }

  lemma NextRoundOk(w: World, stored: Run, run: Run, batch: seq<Step>, out: Outside)
    requires Working(w, stored, run, out) && BatchOk(run, batch) && HasRoundLeft(run)
    ensures Storable(stored, NextRound(run, batch, out), w.log, out) && !AnyRunning(NextRound(run, batch, out).steps)
  {
    var skipped := run.(steps := SkipFailed(run.steps));
    SkipFailedStops(run.steps);
    StoppedSound(run, skipped, w.log, out.stamps);
    assert SameNames(run.steps, skipped.steps);
    BatchCarries(run, skipped, batch);
    var next := run.(iteration := run.iteration + 1, steps := SkipFailed(run.steps) + batch, status := AfterBatch(batch));
    AppendSound(skipped, next, batch, w.log, out.stamps);
    EventSound(next, out.stamps, PlanEvent, "已根据真实结果生成下一轮行动", w.log);
    QuietStorable(w, stored, NextRound(run, batch, out), out);
  }

  lemma ClaimedDoneOk(w: World, stored: Run, run: Run, out: Outside)
    requires Working(w, stored, run, out) && HasRoundLeft(run)
    ensures Storable(stored, ClaimedDone(run, out), w.log, out) && !AnyRunning(ClaimedDone(run, out).steps)
  {
    if Verifier.Complete(run.spec, run.steps) {
      EndedSound(run, Completed, "目标完成标准已经满足", out, w.log);
    } else {
      var rejected := run.(iteration := run.iteration + 1, status := Planning, stopReason := "");
      WorkingFields(w, stored, run, rejected, out);
      EventSound(rejected, out.stamps, ErrorEvent, "模型完成判断已被拒绝", w.log);
    }
    QuietStorable(w, stored, ClaimedDone(run, out), out);
  }

  lemma WithoutNextOk(w: World, stored: Run, run: Run, adv: AdvanceInput, out: Outside)
    requires Working(w, stored, run, out) && FreshAdvance(adv, run.steps)
    ensures var r := WithoutNext(run, adv, out);
      r.Some? ==> Storable(stored, r.value, w.log, out) && !AnyRunning(r.value.steps)
  {
    hide AfterModelFailure, Continue;
    AfterModelFailureOk(w, stored, run, adv, out);
    ContinueOk(w, stored, run, adv.fallback, adv.authorized, out);
    var c := Continue(run, adv.fallback, adv.authorized, out);
    if c.Applied? {
      QuietStorable(w, stored, c.run, out);
    } else if c.NotApplied? {
      var ask := if c.askUser != "" then c.askUser else "现有结果尚未满足目标";
      EndedSound(run, WaitingUser, ask, out, w.log);
      QuietStorable(w, stored, Ended(run, WaitingUser, ask, out), out);
    }
  }

  lemma EvaluatedOk(w: World, stored: Run, run: Run, adv: AdvanceInput, out: Outside)
    requires Working(w, stored, run, out) && FreshAdvance(adv, run.steps) && HasRoundLeft(run)
    ensures var r := Evaluated(run, adv, out);
      r.Some? ==> Storable(stored, r.value, w.log, out) && !AnyRunning(r.value.steps)
  {
    hide AfterModelFailure, WithoutNext, ClaimedDone, NextRound;
    if adv.evaluation.None? {
      AfterModelFailureOk(w, stored, run, adv, out);
    } else {
      var e := adv.evaluation.value;
      if e.done {
        ClaimedDoneOk(w, stored, run, out);
      } else if e.askUser != "" {
        EndedSound(run, WaitingUser, e.askUser, out, w.log);
        QuietStorable(w, stored, Ended(run, WaitingUser, e.askUser, out), out);
      } else if Normalized(e.next, run.id, Owner(run), run.steps).None? {
        AfterModelFailureOk(w, stored, run, adv, out);
      } else {
        var normalized := Normalized(e.next, run.id, Owner(run), run.steps).value;
        if normalized == [] {
          WithoutNextOk(w, stored, run, adv, out);
        } else {
          NormalizedAuthorizedOk(run, e.next, adv.authorized);
          NextRoundOk(w, stored, run, Authorize(normalized, adv.authorized), out);
        }
      }
    }
  }
}
