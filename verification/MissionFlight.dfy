/** A background action in flight: beginning it, what may interleave, and landing it. */
module MissionFlight {
  import opened Prelude
  import opened Values
  import opened AgentTypes
  import opened References
  import opened WorkflowGraph
  import opened Planning
  import opened Recovery
  import opened Runs
  import opened RunStore
  import opened Mission
  import opened MissionInvariant
  import opened MissionSave
  import opened MissionPasses
  import opened MissionMoves
  import opened MissionOps
  import opened MissionAdvance
  import opened MissionExecute
  import Verifier

  // ---------- Taking off ----------

  lemma TakenOff(w: World, stored: Run, started: Run, i: nat, stepId: string, tick: Tick, out: Outside)
    requires Grounded(w, stored, out) && OnlyRunning(started.steps, i) && started.steps[i].id == stepId
    requires started.status == InProgress
    requires Storable(stored, started, w.log + [StartedEffect(started.steps[i])], out)
    ensures Next(stored, TakeOff(w, started, i, stepId, tick))
  {
    hide Persist, Hydrate, CheckpointOk, FinishedRests, GraphOk, StepOk, LogOk, FreshFrom;
    var log := w.log + [StartedEffect(started.steps[i])];
    SaveGround(w, stored, started, tick, log, out);
    SoundRunHas(Saved(w, started), log);
    SoundRunHas(started, log);
    var now, saved := Reread(w, started), Saved(w, started);
    SavedIsAfter(w, stored, started);
    EventsExtend(stored, started);
    SaveReads(w, stored, started, tick);
    StillOnlyRunning(started.steps, saved.steps, i);
    assert StepSaved(started.steps[i], saved.steps[i]);
    RunningById(saved.steps, i, stepId);
    assert saved.steps[i] in saved.steps;
    assert Airborne(Flight(saved, stepId), now, log);
  }

  lemma RunningById(steps: seq<Step>, i: nat, id: string)
    requires OnlyRunning(steps, i) && DistinctIds(steps) && steps[i].id == id
    ensures forall s | s in steps :: s.status == Running <==> s.id == id
  {
  }

  lemma StartInBackgroundOk(w: World, stored: Run, run: Run, i: nat, stepId: string, out: Outside, tick: Tick)
    requires Working(w, stored, run, out) && i < |run.steps| && run.steps[i].id == stepId
    requires run.steps[i].status in {Ready, Queued} && DependenciesSatisfied(run.steps[i], run.steps)
    ensures Next(stored, TakeOff(w, StartedRun(run, i, false, out), i, stepId, tick))
  {
    var started := StartedRun(run, i, false, out);
    assert run.steps[i] in run.steps && StepOk(run, run.steps[i], w.log);
    StartedSound(run, i, false, out, w.log);
    assert WriteCleared(run.steps[i], w.log) ==> WriteCleared(started.steps[i], w.log);
    LogPersists(w.log, stored.events, started.events);
    StartLogged(w.log, started.events, started.steps[i]);
    TakenOff(w, stored, started, i, stepId, tick, out);
  }

  lemma BeginPreparedOk(w: World, stored: Run, i: nat, stepId: string, adv: AdvanceInput, out: Outside)
    requires AtRest(w, stored, out) && FreshAdvance(adv, stored.steps) && stored.status != Completed
    requires i < |stored.steps| && stored.steps[i].id == stepId
    ensures Next(stored, BeginPrepared(w, stored, i, stepId, adv, out).world)
  {
    hide Advance, Prepare, Preparing, StartedRun, TakeOff, Persist, Hydrate, Next;
    var prepared, w0 := Prepare(stored, Owner(stored), out.stamps), Preparing(w, stored);
    PreparingOk(w, stored, out);
    PrepareSound(stored, w0.log, out.stamps);
    PrepareNames(stored, Owner(stored), out.stamps);
    var s := prepared.steps[i];
    if s.status !in {Ready, Queued} {
      FreshAdvanceCarries(adv, stored.steps, prepared.steps);
      FinishAndAdvanceOk(w0, stored, prepared, adv, out, 0);
    } else if DependenciesSatisfied(s, prepared.steps) {
      StartInBackgroundOk(w0, stored, prepared, i, stepId, out, out.ticks(0));
    } else {
      RestingIsOk(w, stored, out);
    }
  }

  lemma BeginQueuedOk(w: World, stored: Run, stepId: string, adv: AdvanceInput, out: Outside)
    requires AtRest(w, stored, out) && FreshAdvance(adv, stored.steps)
    ensures Next(stored, BeginQueued(w, stored.id, stepId, adv, out).world)
  {
    hide BeginPrepared, Prepare, Next;
    RestingIsOk(w, stored, out);
    var i := StepIndex(stored.steps, stepId);
    if i >= 0 && stored.status in {InProgress, Planning} {
      BeginPreparedOk(w, stored, i, stepId, adv, out);
    }
  }

  // ---------- In the air ----------

  /** An action is awaited, and the ids to be drawn are new to everything stored. */
  ghost predicate InFlight(w: World, stored: Run, f: Flight, out: Outside) {
    && Grounded(w, stored, out) && w.flight == Some(f) && Airborne(f, stored, w.log)
    && FreshStamps(out.stamps, stored.events)
  }

  /** What pause, cancel and steer do to one step. */
  predicate StopsOnly(s: Step, t: Step) {
    t == s || (IsActive(s.status) && (t == SkippedStep(s, t.error) || t == CancelledStep(s)))
  }

  predicate AllStopsOnly(a: seq<Step>, b: seq<Step>) {
    |a| == |b| && forall i | 0 <= i < |a| :: StopsOnly(a[i], b[i])
  }

  predicate AllSameOrStopped(a: seq<Step>, b: seq<Step>) {
    |a| == |b| && forall i | 0 <= i < |a| :: SameOrStopped(a[i], b[i])
  }

  lemma StoppedTwice(was: Step, now: Step, later: Step, saved: Step)
    requires SameOrStopped(was, now) && StopsOnly(now, later)
    requires saved == later || (now.status == Skipped && saved == SkippedStep(later, saved.error))
    ensures SameOrStopped(was, saved)
  {
  }

  lemma SavedInFlight(w: World, stored: Run, f: Flight, run: Run, log: seq<Effect>)
    requires Hydrate(w.store, run.id) == Some(stored) && DistinctIds(stored.steps)
    requires AllSameOrStopped(f.run.steps, stored.steps) && AllStopsOnly(stored.steps, run.steps)
    requires forall s | s in run.steps :: s.key != ""
    ensures AllSameOrStopped(f.run.steps, Reread(w, run).steps)
  {
    hide Hydrate, Reread;
    var now := Reread(w, run);
    forall i | 0 <= i < |run.steps|
      ensures |now.steps| == |run.steps| && SameOrStopped(f.run.steps[i], now.steps[i])
    {
      assert run.steps[i] in run.steps;
      SaveKeepsSteps(w, run);
      RereadExact(w, stored, run, i);
      StoppedTwice(f.run.steps[i], stored.steps[i], run.steps[i], now.steps[i]);
    }
    SaveKeepsSteps(w, run);
  }

  lemma StillAirborne(f: Flight, stored: Run, now: Run, log: seq<Effect>)
    requires Airborne(f, stored, log) && Continues(stored, now) && AllSameOrStopped(f.run.steps, now.steps)
    ensures Airborne(f, now, log)
  {
  }

  lemma FlightSurvives(w: World, stored: Run, f: Flight, run: Run, tick: Tick, out: Outside)
    requires InFlight(w, stored, f, out)
    requires Sound(run, w.log, out.stamps) && Continues(stored, run) && Verified(run)
    requires AllStopsOnly(stored.steps, run.steps)
    ensures Next(stored, Save(w, run, tick))
  {
    hide Persist, Hydrate, Reread, Saved, LogOk, CompletedOk, CheckpointOk, FinishedRests, FreshFrom, FreshStamps;
    QuietStorable(w, stored, run, out);
    SaveGround(w, stored, run, tick, w.log, out);
    var now := Reread(w, run);
    forall s | s in run.steps
      ensures s.key != ""
    {
      assert StepOk(run, s, w.log);
    }
    assert AllSameOrStopped(f.run.steps, stored.steps);
    SavedInFlight(w, stored, f, run, w.log);
    StillAirborne(f, stored, now, w.log);
    GroundedIsOk(Save(w, run, tick), World(Persist(w.store, run, tick), None, w.log), now, f, out);
  }

  lemma GroundedIsOk(w: World, w1: World, stored: Run, f: Flight, out: Outside)
    requires Grounded(w1, stored, out) && w == w1.(flight := Some(f)) && Airborne(f, stored, w.log)
    ensures Next(stored, w)
  {
  }

  lemma PauseInFlightOk(w: World, stored: Run, f: Flight, user: Actor, out: Outside)
    requires InFlight(w, stored, f, out)
    ensures Next(stored, Pause(w, stored.id, user, out).world)
  {
    hide Persist, Next, PausedRun;
    FlyingIsOk(w, stored, f, out);
    if stored.status !in {Completed, RunStatus.Cancelled, Paused} {
      PausedSound(stored, out, w.log);
      PausedFields(stored, out);
      FlightSurvives(w, stored, f, PausedRun(stored, out), out.ticks(0), out);
    }
  }

  lemma FlyingIsOk(w: World, stored: Run, f: Flight, out: Outside)
    requires InFlight(w, stored, f, out)
    ensures Next(stored, w)
  {
  }

  lemma CancelInFlightOk(w: World, stored: Run, f: Flight, user: Actor, out: Outside)
    requires InFlight(w, stored, f, out)
    ensures Next(stored, CancelMission(w, stored.id, user, out).world)
  {
    hide Persist, Next, CancelledRun;
    FlyingIsOk(w, stored, f, out);
    if stored.status !in {Completed, RunStatus.Cancelled} {
      CancelledSound(stored, out, w.log);
      FlightSurvives(w, stored, f, CancelledRun(stored, out), out.ticks(0), out);
    }
  }

  lemma SteeredSound(run: Run, instruction: string, out: Outside, log: seq<Effect>)
    requires Sound(run, log, out.stamps)
    ensures var now := SteeredRun(run, instruction, out);
      && Sound(now, log, out.stamps) && Continues(run, now) && now.steps == SkipActive(run.steps, REPLACED)
      && now.status == run.status && now.spec == run.spec
      && (AnyRunning(now.steps) <==> AnyRunning(run.steps))
  {
    EventSound(run, out.stamps, PlanEvent, "用户补充：" + instruction, log);
    var r1 := AddEvent(run, out.stamps, PlanEvent, "用户补充：" + instruction);
    EventSound(r1, out.stamps, PlanEvent, "本轮语义判决：", log);
    var r2 := AddEvent(r1, out.stamps, PlanEvent, "本轮语义判决：");
    EventSound(r2, out.stamps, PlanEvent, STEER_MARK + instruction, log);
    var r3 := AddEvent(r2, out.stamps, PlanEvent, STEER_MARK + instruction);
    var skipped := r3.(steps := SkipActive(run.steps, REPLACED), stopReason := "");
    SkipActiveStops(run.steps, REPLACED);
    StoppedSound(r3, skipped, log, out.stamps);
    EventSound(skipped, out.stamps, ApprovalEvent, "新指令已使未开始步骤和旧审批失效", log);
    SkippingKeepsRunning(run.steps);
  }

  lemma SkippingKeepsRunning(steps: seq<Step>)
    ensures AnyRunning(SkipActive(steps, REPLACED)) <==> AnyRunning(steps)
  {
  }

  lemma SteerInFlightOk(w: World, stored: Run, f: Flight, user: Actor, input: string, active: bool, plan: Plan, out: Outside)
    requires InFlight(w, stored, f, out)
    ensures Next(stored, Steer(w, stored.id, user, input, active, plan, out).world)
  {
    hide ApplySteer, Persist, Next, SteeredRun, Trim;
    FlyingIsOk(w, stored, f, out);
    var instruction := Take(Trim(input), 400);
    if Steerable(stored.status) && |instruction| >= 2 {
      var steered := SteeredRun(stored, instruction, out);
      SteeredSound(stored, instruction, out, w.log);
      FlightSurvives(w, stored, f, steered, out.ticks(0), out);
      var i := StillRunning(f, stored, w.log);
      SkippingKeepsRunning(stored.steps);
    }
  }

  /** The awaited step, in the engine's copy and in the store. */
  predicate RunsAt(f: Flight, stored: Run, i: nat) {
    && OnlyRunning(f.run.steps, i) && OnlyRunning(stored.steps, i)
    && f.run.steps[i].id == f.stepId && stored.steps[i] == f.run.steps[i]
  }

  lemma StillRunning(f: Flight, stored: Run, log: seq<Effect>) returns (i: nat)
    requires Airborne(f, stored, log)
    ensures RunsAt(f, stored, i)
    ensures AnyRunning(stored.steps)
  {
    hide FinishedRests, StepOk, SameOrStopped;
    var s :| s in f.run.steps && s.id == f.stepId;
    i :| 0 <= i < |f.run.steps| && f.run.steps[i] == s;
    assert forall j | 0 <= j < |f.run.steps| && j != i :: f.run.steps[j] in f.run.steps && f.run.steps[j].id != s.id;
    forall j | 0 <= j < |stored.steps|
      ensures f.run.steps[j].status == Running ==> stored.steps[j] == f.run.steps[j]
      ensures stored.steps[j].status == Running ==> f.run.steps[j].status == Running
    {
      RunningUntouched(f.run.steps[j], stored.steps[j]);
    }
    assert stored.steps[i] in stored.steps;
  }

  lemma RunningUntouched(was: Step, now: Step)
    requires SameOrStopped(was, now)
    ensures was.status == Running ==> now == was
    ensures now.status == Running ==> was.status == Running
  {
  }

  // ---------- Landing ----------

  lemma IndexById(steps: seq<Step>, i: nat)
    requires i < |steps| && DistinctIds(steps)
    ensures StepIndex(steps, steps[i].id) == i
  {
  }

  lemma LandedSound(stored: Run, f: Flight, i: nat, result: Value, log: seq<Effect>, out: Outside)
    requires Sound(stored, log, out.stamps) && RunsAt(f, stored, i)
    ensures var landed := LandedRun(stored, f.stepId, result, out);
      && Sound(landed, log, out.stamps) && Continues(stored, landed) && landed.status == stored.status
      && !AnyRunning(landed.steps)
      && landed.steps == stored.steps[i := stored.steps[i].(result := Some(result), status := Done, error := "")]
  {
    IndexById(stored.steps, i);
    var landed := LandedRun(stored, f.stepId, result, out);
    AddedEvent(stored.(steps := landed.steps), out.stamps, ResultEvent, "后台完成；Mission 保持状态");
    LandStep(stored, landed, i, log, out.stamps);
  }

  /** The action succeeded while the run was paused or cancelled: the step is entered into the stored run. */
  lemma LandedOk(w: World, stored: Run, f: Flight, result: Value, out: Outside, tick: Tick)
    requires InFlight(w, stored, f, out) && stored.status in {Paused, RunStatus.Cancelled}
    ensures Next(stored, Save(w.(flight := None), LandedRun(stored, f.stepId, result, out), tick))
  {
    hide Persist, Hydrate, Reread, Saved, LogOk, CheckpointOk, FinishedRests, FreshStamps, LandedRun, RunOk, Next;
    var i := StillRunning(f, stored, w.log);
    LandedSound(stored, f, i, result, w.log, out);
    var landed := LandedRun(stored, f.stepId, result, out);
    QuietStorable(w, stored, landed, out);
    SaveStorable(w, stored, landed, tick, w.log, out);
    assert Save(w.(flight := None), landed, tick) == World(Persist(w.store, landed, tick), None, w.log);
  }

  lemma StaleFresh(stored: Run, f: Flight, log: seq<Effect>, out: Outside)
    requires Airborne(f, stored, log) && FreshStamps(out.stamps, stored.events)
    ensures Sound(f.run, log, out.stamps)
  {
  }

  /** The landed stale copy adds one event, new to the store. */
  lemma StaleEvents(stored: Run, f: Flight, i: nat, outcome: Result<Value, string>, out: Outside, log: seq<Effect>)
    requires Airborne(f, stored, log) && FreshStamps(out.stamps, stored.events) && UniqueEvents(stored.events)
    requires i < |f.run.steps|
    ensures var now := FinishedRun(f.run, i, outcome, true, out);
      && SameIdSameEvent(now.events, stored.events) && now.id == stored.id && Owner(now) == Owner(stored)
      && (forall e | e in now.events :: e in stored.events || e.id == out.stamps(|f.run.events|).0)
      && |now.events| == |f.run.events| + 1
  {
  }

  lemma StaleSaved(w: World, stored: Run, f: Flight, finished: Run, out: Outside, tick: Tick)
    requires InFlight(w, stored, f, out)
    requires Sound(finished, w.log, out.stamps) && finished.id == stored.id && Owner(finished) == Owner(stored) && finished.status != Completed
    requires !AnyRunning(finished.steps) && SameIdSameEvent(finished.events, stored.events)
    requires forall e | e in finished.events :: e in stored.events || e.id == out.stamps(|f.run.events|).0
    requires |finished.events| == |f.run.events| + 1
    ensures var w1, now := Save(w.(flight := None), finished, tick), Reread(w, finished);
      && GroundOk(w1, stored.id) && Hydrate(w1.store, stored.id) == Some(now) && now.id == stored.id && w1.log == w.log
      && FreshFrom(out.stamps, now.events) && StepsSaved(finished.steps, now.steps)
      && now.status == finished.status && Continues(stored, now)
  {
    hide Persist, Hydrate, Airborne, StepOk, FinishedRests, CheckpointOk;
    assert Savable(w, stored, finished, w.log);
    SaveIsOk(w, stored, finished, tick, w.log);
    SaveReads(w, stored, finished, tick);
    SaveKeepsRunOk(w, stored, finished, tick, w.log);
    assert Save(w.(flight := None), finished, tick) == Save(w, finished, tick).(flight := None, log := w.log);
  }

  lemma StaleOk(w: World, stored: Run, f: Flight, i: nat, outcome: Result<Value, string>, out: Outside, tick: Tick)
    requires InFlight(w, stored, f, out) && OnlyRunning(f.run.steps, i)
    ensures var finished := FinishedRun(f.run, i, outcome, true, out); var w1 := Save(w.(flight := None), finished, tick);
      AtRest(w1, Reread(w, finished), out) && SameNames(stored.steps, Reread(w, finished).steps)
      && Continues(stored, Reread(w, finished)) && Reread(w, finished).status != Completed
  {
    hide Persist, Hydrate, FinishedRun, Reread, RunOk, LogOk, CompletedOk, CheckpointOk;
    hide FreshFrom, FreshStamps, StepsSaved, SameOrStopped, AnyRunning, SameIdSameEvent;
    var finished := FinishedRun(f.run, i, outcome, true, out);
    SoundRunHas(stored, w.log);
    StaleFresh(stored, f, w.log, out);
    FinishedSound(f.run, i, outcome, true, out, w.log);
    StaleEvents(stored, f, i, outcome, out, w.log);
    StaleSaved(w, stored, f, finished, out, tick);
    NoneRunningAfterSave(finished.steps, Reread(w, finished).steps);
    SavedNames(finished.steps, Reread(w, finished).steps);
    CopyNames(stored, f, w.log);
  }

  /** The engine's copy names the stored steps. */
  lemma CopyNames(stored: Run, f: Flight, log: seq<Effect>)
    requires Airborne(f, stored, log)
    ensures SameNames(stored.steps, f.run.steps)
  {
  }

  lemma FinishQueuedOk(w: World, stored: Run, f: Flight, outcome: Result<Value, string>, adv: AdvanceInput, out: Outside)
    requires InFlight(w, stored, f, out) && FreshAdvance(adv, stored.steps)
    ensures Next(stored, FinishQueued(w, stored.id, outcome, adv, out).world)
  {
    hide Advance, Persist, FinishedRun, LandedRun, Reread, Next, LogOk, CompletedOk, CheckpointOk, FreshFrom, FreshStamps, FinishedRests, StepOk;
    if outcome.Ok? && stored.status in {Paused, RunStatus.Cancelled} {
      LandedOk(w, stored, f, outcome.value, out, out.ticks(0));
    } else {
      var i := StillRunning(f, stored, w.log);
      IndexById(f.run.steps, i);
      StaleOk(w, stored, f, i, outcome, out, out.ticks(0));
      var finished := FinishedRun(f.run, i, outcome, true, out);
      FreshAdvanceCarries(adv, stored.steps, Reread(w, finished).steps);
      var w1, now := Save(w.(flight := None), finished, out.ticks(0)), Reread(w, finished);
      AdvanceOk(w1, now, adv, out, 1);
      NextThen(stored, now, Advance(w1, stored.id, adv, out, 1).world);
    }
  }
}
