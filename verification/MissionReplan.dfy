/** Creating a run, steering it and resuming it keep the world sound. */
module MissionReplan {
  import opened Prelude
  import opened Values
  import opened AgentTypes
  import opened References
  import opened WorkflowGraph
  import opened GraphLaws
  import opened Planning
  import opened Recovery
  import opened Runs
  import opened Collections
  import opened RunStore
  import opened Mission
  import opened MissionInvariant
  import opened MissionSave
  import opened MissionPasses
  import opened MissionMoves
  import opened MissionOps
  import opened MissionAdvance
  import opened MissionExecute
  import opened MissionFlight
  import Verifier

  // ---------- Steering ----------

  lemma SteerOk(w: World, stored: Run, user: Actor, input: string, active: bool, plan: Plan, out: Outside)
    requires AtRest(w, stored, out) && FreshItems(plan.items, stored.steps)
    ensures Next(stored, Steer(w, stored.id, user, input, active, plan, out).world)
  {
    hide ApplySteer, Persist, Next, SteeredRun, Trim;
    RestingIsOk(w, stored, out);
    var instruction := Take(Trim(input), 400);
    if Steerable(stored.status) && |instruction| >= 2 {
      var steered := SteeredRun(stored, instruction, out);
      SteeredSound(stored, instruction, out, w.log);
      SkippedNames(stored.steps);
      SteerAtRestOk(w, stored, steered, plan, out);
    }
  }

  lemma SkippedNames(steps: seq<Step>)
    ensures SameNames(steps, SkipActive(steps, REPLACED))
  {
  }

  lemma SteerAtRestOk(w: World, stored: Run, steered: Run, plan: Plan, out: Outside)
    requires Working(w, stored, steered, out) && SameNames(stored.steps, steered.steps)
    requires FreshItems(plan.items, stored.steps)
    ensures Next(stored, Save(w, steered, out.ticks(0)))
    ensures Next(stored, ApplySteer(Save(w, steered, out.ticks(0)), Saved(w, steered), plan, out, 1).world)
  {
    hide ApplySteer, Persist, Next, Hydrate, FreshItems, AtRest, Sound;
    WorkingKept(w, stored, steered, out, out.ticks(0));
    FreshItemsCarry(stored.steps, steered.steps, plan.items);
    FreshItemsCarry(steered.steps, Saved(w, steered).steps, plan.items);
    var w1, now, saved := Save(w, steered, out.ticks(0)), Reread(w, steered), Saved(w, steered);
    ApplySteerOk(w1, now, saved, plan, out, 1);
    NextThen(stored, now, ApplySteer(w1, saved, plan, out, 1).world);
  }

  // ---------- Resuming ----------

  lemma ResumedSound(run: Run, out: Outside, log: seq<Effect>)
    requires Sound(run, log, out.stamps)
    ensures var now := ResumedRun(run, out);
      Sound(now, log, out.stamps) && Continues(run, now) && now.steps == run.steps && now.status == InProgress
  {
  }

  lemma ResumeOk(w: World, stored: Run, user: Actor, plan: Option<Plan>, notSent: bool, adv: AdvanceInput, out: Outside)
    requires AtRest(w, stored, out) && FreshAdvance(adv, stored.steps)
    requires plan.Some? ==> FreshItems(plan.value.items, stored.steps)
    ensures Next(stored, Resume(w, stored.id, user, plan, notSent, adv, out).world)
  {
    hide Advance, Persist, Next, ResumedRun, PlannedBatch, Replanned, Told, FreshItems, FreshAdvance;
    RestingIsOk(w, stored, out);
    if Resumable(stored.status) {
      var resumed := ResumedRun(stored, out);
      ResumedSound(stored, out, w.log);
      match plan
      case None =>
        GoOnOk(w, stored, resumed, adv, out);
      case Some(p) =>
        ReplanOnResumeOk(w, stored, resumed, p, notSent, out);
    }
  }

  lemma GoOnOk(w: World, stored: Run, resumed: Run, adv: AdvanceInput, out: Outside)
    requires Working(w, stored, resumed, out) && resumed.steps == stored.steps && FreshAdvance(adv, stored.steps)
    ensures var continued := AddEvent(resumed, out.stamps, PlanEvent, "已从上次检查点恢复，正在继续完成原目标");
      Next(stored, Advance(Save(w, continued, out.ticks(0)), stored.id, adv, out, 1).world)
  {
    hide Advance, Persist, Next, Hydrate, FreshAdvance, GroundOk;
    EventSound(resumed, out.stamps, PlanEvent, "已从上次检查点恢复，正在继续完成原目标", w.log);
    FinishAndAdvanceOk(w, stored, AddEvent(resumed, out.stamps, PlanEvent, "已从上次检查点恢复，正在继续完成原目标"), adv, out, 0);
  }

  lemma ReplanOnResumeOk(w: World, stored: Run, resumed: Run, plan: Plan, notSent: bool, out: Outside)
    requires Working(w, stored, resumed, out) && resumed.steps == stored.steps && FreshItems(plan.items, stored.steps)
    ensures var skipped := SkipForResume(stored.steps, notSent); var batch := PlannedBatch(resumed.(steps := skipped), plan);
      batch.Some? ==>
        Next(stored, Save(w.(log := Installing(w.log, resumed.(steps := skipped), plan)),
                          Told(Replanned(resumed, skipped, batch.value, plan, "等待用户确认写入动作"), plan, out), out.ticks(0)))
  {
    hide Persist, Next, Hydrate, Told, Replanned, FreshItems;
    var skipped := SkipForResume(stored.steps, notSent);
    SkipForResumeStops(stored.steps, notSent);
    assert SameNames(stored.steps, skipped) && SameNames(skipped, stored.steps);
    var stopped := resumed.(steps := skipped);
    FreshItemsCarry(stored.steps, skipped, plan.items);
    if PlannedBatch(stopped, plan).Some? {
      var batch, log := PlannedBatch(stopped, plan).value, Installing(w.log, stopped, plan);
      InstallingOk(stopped, plan, w.log);
      BatchCarries(stopped, resumed, batch);
      InstallingSound(resumed, stopped, plan, w.log, out.stamps);
      ReplannedSound(resumed, skipped, batch, plan, "等待用户确认写入动作", log, out.stamps);
      var replanned := Replanned(resumed, skipped, batch, plan, "等待用户确认写入动作");
      ToldSound(replanned, plan, out, log);
      var told := Told(replanned, plan, out);
      LogPersists(w.log, stored.events, told.events);
      InstallingLogged(w.log, told.events, stopped, plan);
      SaveStorable2(w, stored, told, out.ticks(0), log, out);
    }
  }

  // ---------- Creating a run ----------

  /** The run id is new: nothing is stored under it. */
  ghost predicate NewRunId(store: Store, id: string) {
    && (forall r | r in store.steps :: r.runId != id)
    && (forall r | r in store.events :: r.runId != id)
    && (forall c | c in store.checkpoints :: c.runId != id)
  }

  lemma FirstReread(store: Store, run: Run, log: seq<Effect>, tick: Tick)
    requires NewRunId(store, run.id) && RunOk(run, log) && CompletedOk(run, log)
    ensures var w := World(store, None, log); var now := Reread(w, run);
      && Hydrate(Persist(store, run, tick), run.id) == Some(now)
      && RunOk(now, log) && CompletedOk(now, log) && StepsSaved(run.steps, now.steps)
      && Saved(w, run).events == run.events && Grown(run.events, now.events)
  {
    hide Persist, Hydrate;
    var w := World(store, None, log);
    var now := Reread(w, run);
    HydrateAfterPersist(store, run, tick);
    FilterNone(OfRun(run.id), store.steps);
    FilterNone(EventOfRun(run.id), store.events);
    assert Saved(w, run).events == run.events;
    SaveKeepsSteps(w, run);
    DistinctAfterSave(run.steps, now.steps);
    StepsOkAfterSave(run, now, log);
    RestsAfterSave(run.steps, now.steps);
    GraphAfterSave(run.steps, now.steps, log);
    CompletionAfterSave(run, now, log);
  }

  lemma FirstSave(store: Store, run: Run, log: seq<Effect>, tick: Tick)
    requires NewRunId(store, run.id) && RunOk(run, log) && CompletedOk(run, log) && !AnyRunning(run.steps) && LogOk(log, run.events)
    ensures WorldOk(World(Persist(store, run, tick), None, log), run.id)
  {
    hide Hydrate, RunOk, CompletedOk, CheckpointOk, StepsSaved, WithCheckpoint;
    var w := World(store, None, log);
    var now, saved := Reread(w, run), Saved(w, run);
    FirstReread(store, run, log, tick);
    LogPersists(log, run.events, now.events);
    CheckpointsAfterSave(store.checkpoints, saved, SnapshotOf(saved, tick.now), tick);
    SavedRounds(w, run, log);
    SnapshotIsOk(saved, now, log, tick.now);
    NoneRunningAfterSave(run.steps, now.steps);
    forall c | c in Persist(store, run, tick).checkpoints && c.runId == run.id
      ensures CheckpointOk(c, now.events, log)
    {
      assert c.snapshot == SnapshotOf(saved, tick.now);
      SameSnapshotOk(Checkpoint("", "", "", "", StateHash(AsRecord(saved), [], []), SnapshotOf(saved, tick.now), 0), c, now.events, log);
    }
  }

  lemma FirstStateSound(run: Run, plan: Plan, steps: seq<Step>, status: RunStatus, log: seq<Effect>, out: Outside)
    requires BatchFor(run.(steps := [], events := []), steps, log)
    requires forall j: nat, k: nat | j != k :: out.stamps(j).0 != out.stamps(k).0
    ensures Sound(FirstState(run, steps, plan, status), log, out.stamps) && !AnyRunning(steps)
  {
    var empty := run.(steps := [], events := [], iteration := 1, maxIterations := 12);
    EmptyGraph();
    assert Sound(empty, log, out.stamps);
    var planned := FirstState(run, steps, plan, status);
    assert [] + steps == steps;
    AppendSound(empty, planned, steps, log, out.stamps);
  }

  lemma EmptyLogOk()
    ensures forall events: seq<Event> :: LogOk([], events)
  {
  }

  lemma EmptyGraph()
    ensures SoundGraph([])
  {
    assert PartialOrder([], []);
    TopologicalIsAcyclic([], []);
  }

  lemma CreatePlanOk(store: Store, run: Run, plan: Plan, conversation: bool, out: Outside)
    requires NewRunId(store, run.id) && FreshItems(plan.items, [])
    requires forall j: nat, k: nat | j != k :: out.stamps(j).0 != out.stamps(k).0
    ensures CreatePlan(store, run, plan, conversation, out).Some? ==>
      WorldOk(CreatePlan(store, run, plan, conversation, out).value, run.id)
  {
    hide Persist, Next, Hydrate, Told, FreshItems, PlannedBatch, RunOk, Installing, NewRunId, LogOk, WorldOk;
    EmptyLogOk();
    var empty := run.(steps := [], events := []);
    if PlannedBatch(empty, plan).Some? {
      var steps := PlannedBatch(empty, plan).value;
      var log := Installing([], empty, plan);
      InstallingOk(empty, plan, []);
      var status := FirstStatus(steps, plan, conversation);
      var planned := FirstState(run, steps, plan, status);
      FirstStateSound(run, plan, steps, status, log, out);
      EventSound(planned, out.stamps, PlanEvent, "本轮语义判决：", log);
      var noted := AddEvent(planned, out.stamps, PlanEvent, "本轮语义判决：");
      ToldSound(noted, plan, out, log);
      InstallingLogged([], Told(noted, plan, out).events, empty, plan);
      FirstSave(store, Told(noted, plan, out), log, out.ticks(0));
    }
  }
}
