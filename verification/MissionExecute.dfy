/** Executing a step on request keeps the world sound. */
module MissionExecute {
  import opened Prelude
  import opened Values
  import opened AgentTypes
  import opened References
  import opened WorkflowGraph
  import opened Planning
  import opened Recovery
  import opened Runs
  import opened RunStore
  import opened Mission
  import opened MissionInvariant
  import opened MissionSave
  import opened MissionPasses
  import opened MissionMoves
  import opened MissionOps
  import opened MissionAdvance
  import Verifier

  // ---------- Logging approvals and starts ----------

  lemma QueueingLogged(log: seq<Effect>, events: seq<Event>, s: Step, confirmed: bool)
    requires LogOk(log, events) && EffectOk(QueuedEffect(s, confirmed), events, log)
    ensures LogOk(log + [QueuedEffect(s, confirmed)], events)
  {
    var e := QueuedEffect(s, confirmed);
    EntryAppended(log, events, e);
    forall id: string, input: Value {
      CountAppend(log, e, id, input);
    }
    forall id: string
      ensures Retries(log + [e], id) <= 1
    {
      CountAppend(log, e, id, Null);
    }
  }

  lemma EntryAppended(log: seq<Effect>, events: seq<Event>, e: Effect)
    requires LogOk(log, events) && EffectOk(e, events, log)
    ensures var longer := log + [e]; forall k | 0 <= k < |longer| :: EffectOk(longer[k], events, longer[..k])
  {
    assert log + [e][..0] == log;
    EntriesAppended(log, events, [e]);
  }

  lemma StartLogged(log: seq<Effect>, events: seq<Event>, s: Step)
    requires LogOk(log, events) && EffectOk(StartedEffect(s), events, log)
    requires s.risk == External ==> Starts(log, s.id, s.input) < Queueings(log, s.id, s.input)
    ensures LogOk(log + [StartedEffect(s)], events)
  {
    EntryAppended(log, events, StartedEffect(s));
    forall id: string, input: Value
      ensures Starts(log + [StartedEffect(s)], id, input) <= Queueings(log + [StartedEffect(s)], id, input)
    {
      CountAppend(log, StartedEffect(s), id, input);
    }
    forall id: string
      ensures Retries(log + [StartedEffect(s)], id) <= 1
    {
      CountAppend(log, StartedEffect(s), id, Null);
    }
  }

  // ---------- Queueing an external step ----------

  /** Step `i` is idle and free to be taken up. */
  predicate Idle(run: Run, i: nat) {
    i < |run.steps| && run.steps[i].status !in {Queued, Running, Done} && DependenciesSatisfied(run.steps[i], run.steps)
  }

  lemma QueuedSound(run: Run, i: nat, approved: bool, out: Outside, log: seq<Effect>)
    requires Sound(run, log, out.stamps) && LogOk(log, run.events) && Idle(run, i)
    requires run.steps[i].risk == External && HasNoReferences(run.steps[i].input) && (approved || run.steps[i].approved)
    ensures var now := QueuedRun(run, i, approved, out); var longer := log + [QueuedEffect(now.steps[i], approved)];
      && Sound(now, longer, out.stamps) && Continues(run, now) && LogOk(longer, now.events)
      && now.status == InProgress && (!AnyRunning(run.steps) ==> !AnyRunning(now.steps))
  {
    var now := QueuedRun(run, i, approved, out);
    var e := QueuedEffect(now.steps[i], approved);
    AddedEvent(run.(steps := now.steps, status := InProgress, stopReason := ""), out.stamps, ApprovalEvent,
               "已批准并加入后台队列：" + run.steps[i].title);
    assert run.steps[i] in run.steps && StepOk(run, run.steps[i], log);
    LongerLogSound(run, log, e);
    CountAppend(log, e, run.steps[i].id, run.steps[i].input);
    UpdateSound(run, now, i, log + [e], out.stamps);
    NoneRunningAfterUpdate(run, now, i);
    LogPersists(log, run.events, now.events);
    QueueingLogged(log, now.events, now.steps[i], approved);
  }

  // ---------- Starting and finishing a step ----------

  predicate OnlyRunning(steps: seq<Step>, i: nat) {
    i < |steps| && steps[i].status == Running && forall j | 0 <= j < |steps| && j != i :: steps[j].status != Running
  }

  lemma StartedSound(run: Run, i: nat, approved: bool, out: Outside, log: seq<Effect>)
    requires Sound(run, log, out.stamps) && i < |run.steps| && DependenciesSatisfied(run.steps[i], run.steps)
    requires run.steps[i].status != Done && MayStart(run.steps[i], approved, log)
    ensures var now := StartedRun(run, i, approved, out);
      && Sound(now, log + [StartedEffect(now.steps[i])], out.stamps) && Continues(run, now) && now.status == InProgress
      && (!AnyRunning(run.steps) ==> OnlyRunning(now.steps, i))
      && SameNames(run.steps, now.steps)
  {
    var now := StartedRun(run, i, approved, out);
    assert run.steps[i] in run.steps && StepOk(run, run.steps[i], log);
    AddedEvent(run.(steps := now.steps, status := InProgress), out.stamps,
               if approved then ApprovalEvent else StepEvent, "开始执行：" + run.steps[i].title);
    StartedKept(run, now, i, approved, log);
    forall j | 0 <= j < |run.steps| && j != i
      ensures StepKept(run.steps, run.steps[j], now.steps[j], now, log + [StartedEffect(now.steps[i])])
    {
      assert run.steps[j] in run.steps && StepOk(run, run.steps[j], log);
      OtherStepKept(run, now, run.steps[j], log, StartedEffect(now.steps[i]));
    }
    StepsKeptOver(run, now, log, log + [StartedEffect(now.steps[i])]);
    if !AnyRunning(run.steps) {
      assert forall j | 0 <= j < |run.steps| && j != i :: now.steps[j] == run.steps[j] && run.steps[j] in run.steps;
    }
  }

  /** A request approves what it starts, or the step is approved or cleared; external ones start from the queue only. */
  predicate MayStart(s: Step, approved: bool, log: seq<Effect>) {
    && (s.risk == Write ==> approved || WriteCleared(s, log))
    && (s.risk == External ==> !approved)
  }

  lemma StartedKept(run: Run, now: Run, i: nat, approved: bool, log: seq<Effect>)
    requires i < |run.steps| && StepOk(run, run.steps[i], log) && DependenciesSatisfied(run.steps[i], run.steps)
    requires now.id == run.id && Owner(now) == Owner(run) && |now.steps| == |run.steps| && Grown(run.events, now.events)
    requires now.steps[i] == run.steps[i].(error := "", status := Running, approved := run.steps[i].approved || approved)
    requires run.steps[i].status != Done && MayStart(run.steps[i], approved, log)
    ensures StepKept(run.steps, run.steps[i], now.steps[i], now, log + [StartedEffect(now.steps[i])])
  {
    var s, e := now.steps[i], StartedEffect(now.steps[i]);
    CountAppend(log, e, s.id, s.input);
    assert IsStartOf(e, s) && e in log + [e];
  }

  /** Starting one step leaves the others in order. */
  lemma OtherStepKept(run: Run, now: Run, s: Step, log: seq<Effect>, e: Effect)
    requires RunOk(run, log) && s in run.steps && Continues(run, now) && e.StartedEffect? && e.step.id != s.id
    ensures StepKept(run.steps, s, s, now, log + [e])
  {
    CountAppend(log, e, s.id, s.input);
  }

  lemma LandStep(run: Run, now: Run, i: nat, log: seq<Effect>, stamps: Stamps)
    requires Sound(run, log, stamps) && OnlyRunning(run.steps, i)
    requires Continues(run, now) && |now.steps| == |run.steps| && now.steps == run.steps[i := now.steps[i]]
    requires var s, t := run.steps[i], now.steps[i];
      SameIdentity(s, t) && t.input == s.input && t.signature == s.signature && t.approved == s.approved
      && (t.status == Done || t.status == Failed)
    requires FreshFrom(stamps, now.events) && UniqueEvents(now.events)
    ensures Sound(now, log, stamps) && !AnyRunning(now.steps) && SameNames(run.steps, now.steps)
  {
    assert run.steps[i] in run.steps && StepOk(run, run.steps[i], log);
    UpdateSound(run, now, i, log, stamps);
    forall s | s in now.steps
      ensures s.status != Running
    {
      var j :| 0 <= j < |now.steps| && now.steps[j] == s;
    }
  }

  lemma FinishedSound(run: Run, i: nat, outcome: Result<Value, string>, background: bool, out: Outside, log: seq<Effect>)
    requires Sound(run, log, out.stamps) && OnlyRunning(run.steps, i) && run.status != Completed
    ensures var now := FinishedRun(run, i, outcome, background, out);
      && Sound(now, log, out.stamps) && Continues(run, now) && now.status != Completed
      && !AnyRunning(now.steps) && SameNames(run.steps, now.steps)
  {
    var s := run.steps[i];
    var landed := FinishedRun(run, i, outcome, background, out);
    match outcome {
      case Ok(v) =>
        AddedEvent(run.(steps := run.steps[i := s.(result := Some(v), status := Done)]), out.stamps, ResultEvent, s.title + "已完成");
      case Err(message) =>
        AddedEvent(run.(steps := run.steps[i := s.(status := Failed, error := message)],
                        status := if background then run.status else RunFailed), out.stamps, ErrorEvent, s.title + "执行失败：" + message);
    }
    LandStep(run, landed, i, log, out.stamps);
  }

  // ---------- The operation ----------

  lemma RunNowOk(w: World, stored: Run, started: Run, i: nat,
                 outcome: Result<Value, string>, adv: AdvanceInput, out: Outside, tick: nat)
    requires Grounded(w, stored, out) && w.flight == None && OnlyRunning(started.steps, i)
    requires Storable(stored, started, w.log + [StartedEffect(started.steps[i])], out)
    requires started.status == InProgress && FreshAdvance(adv, started.steps)
    ensures Next(stored, RunNow(w, started, i, outcome, adv, out, tick).world)
  {
    hide Advance;
    var log := w.log + [StartedEffect(started.steps[i])];
    SaveGround(w, stored, started, out.ticks(tick), log, out);
    var w1 := World(Persist(w.store, started, out.ticks(tick)), None, log);
    assert w1 == Save(w.(log := log), started, out.ticks(tick));
    var now, saved := Reread(w, started), Saved(w, started);
    StillOnlyRunning(started.steps, saved.steps, i);
    SavedNames(started.steps, saved.steps);
    var finished := FinishedRun(saved, i, outcome, false, out);
    FinishedSound(saved, i, outcome, false, out, log);
    FreshAdvanceCarries(adv, started.steps, saved.steps);
    FreshAdvanceCarries(adv, saved.steps, finished.steps);
    FinishAndAdvanceOk(w1, now, finished, adv, out, tick + 1);
  }

  lemma StillOnlyRunning(was: seq<Step>, now: seq<Step>, i: nat)
    requires StepsSaved(was, now) && OnlyRunning(was, i)
    ensures OnlyRunning(now, i)
  {
  }

  /** Saving a landed run and advancing it. */
  lemma FinishAndAdvanceOk(w: World, stored: Run, finished: Run, adv: AdvanceInput, out: Outside, tick: nat)
    requires Grounded(w, stored, out) && w.flight == None
    requires Sound(finished, w.log, out.stamps) && Continues(stored, finished)
    requires !AnyRunning(finished.steps) && finished.status != Completed && FreshAdvance(adv, finished.steps)
    ensures Next(stored, Advance(Save(w, finished, out.ticks(tick)), stored.id, adv, out, tick + 1).world)
  {
    hide Advance;
    QuietStorable(w, stored, finished, out);
    SaveGround(w, stored, finished, out.ticks(tick), w.log, out);
    SaveStorable(w, stored, finished, out.ticks(tick), w.log, out);
    var w1 := World(Persist(w.store, finished, out.ticks(tick)), None, w.log);
    assert w1 == Save(w, finished, out.ticks(tick));
    SavedNames(finished.steps, Saved(w, finished).steps);
    FreshAdvanceCarries(adv, finished.steps, Saved(w, finished).steps);
    AdvanceOk(w1, Reread(w, finished), adv, out, tick + 1);
  }

  lemma QueueOk(w: World, stored: Run, run: Run, i: nat, approved: bool, out: Outside, tick: Tick)
    requires Working(w, stored, run, out) && Idle(run, i)
    requires run.steps[i].risk == External && HasNoReferences(run.steps[i].input) && (approved || run.steps[i].approved)
    ensures Next(stored, Enqueue(w, QueuedRun(run, i, approved, out), i, approved, tick))
  {
    LogPersists(w.log, stored.events, run.events);
    QueuedSound(run, i, approved, out, w.log);
    var queued := QueuedRun(run, i, approved, out);
    SaveStorable2(w, stored, queued, tick, w.log + [QueuedEffect(queued.steps[i], approved)], out);
  }

  lemma ExecuteResolvedOk(
    w: World, stored: Run, run: Run, i: nat, signature: Signature, approved: bool,
    outcome: Result<Value, string>, adv: AdvanceInput, out: Outside, tick: nat)
    requires Working(w, stored, run, out) && i < |run.steps| && FreshAdvance(adv, run.steps)
    requires DependenciesSatisfied(run.steps[i], run.steps)
    requires run.steps[i].risk == External ==> HasNoReferences(run.steps[i].input)
    ensures Next(stored, ExecuteResolved(w, run, i, signature, approved, outcome, adv, out, tick).world)
  {
    hide RunNow, Enqueue;
    var s := run.steps[i];
    if Sign(run.id, s.id, s.tool, s.input, Owner(run)) == signature && s.status !in {Queued, Running, Done}
       && !((s.risk == Write || s.risk == External) && !approved && !s.approved) {
      if s.risk == External {
        QueueOk(w, stored, run, i, approved, out, out.ticks(tick));
      } else {
        StartNowOk(w, stored, run, i, approved, outcome, adv, out, tick);
      }
    }
  }

  lemma StartNowOk(
    w: World, stored: Run, run: Run, i: nat, approved: bool, outcome: Result<Value, string>, adv: AdvanceInput, out: Outside, tick: nat)
    requires Working(w, stored, run, out) && Idle(run, i) && FreshAdvance(adv, run.steps)
    requires run.steps[i].risk != External && (run.steps[i].risk == Write ==> approved || run.steps[i].approved)
    ensures Next(stored, RunNow(w, StartedRun(run, i, approved, out), i, outcome, adv, out, tick).world)
  {
    hide RunNow;
    var started := StartedRun(run, i, approved, out);
    StartedSound(run, i, approved, out, w.log);
    assert run.steps[i] in run.steps && StepOk(run, run.steps[i], w.log);
    LogPersists(w.log, stored.events, started.events);
    StartLogged(w.log, started.events, started.steps[i]);
    FreshAdvanceCarries(adv, run.steps, started.steps);
    RunNowOk(w, stored, started, i, outcome, adv, out, tick);
  }

  // ---------- Preparing first ----------

  /** What is done stays done, under the same key. */
  predicate DoneStays(was: seq<Step>, now: seq<Step>) {
    |now| == |was| && forall i | 0 <= i < |was| :: was[i].status == Done ==> now[i] == was[i]
  }

  lemma DependenciesCarry(was: seq<Step>, now: seq<Step>, s: Step, t: Step)
    requires DoneStays(was, now) && DependenciesSatisfied(s, was) && t.dependsOn == s.dependsOn
    ensures DependenciesSatisfied(t, now)
  {
  }

  lemma PreparedDoneStays(run: Run, user: Actor, stamps: Stamps)
    ensures DoneStays(run.steps, Prepare(run, user, stamps).steps)
    ensures forall i | 0 <= i < |run.steps| :: Prepare(run, user, stamps).steps[i].dependsOn == run.steps[i].dependsOn
  {
  }

  lemma SavedDoneStays(was: seq<Step>, now: seq<Step>)
    requires StepsSaved(was, now)
    ensures DoneStays(was, now) && forall i | 0 <= i < |was| :: now[i].dependsOn == was[i].dependsOn
  {
  }

  lemma PreparedWorking(w: World, stored: Run, i: nat, adv: AdvanceInput, out: Outside)
    requires AtRest(w, stored, out) && stored.status != Completed && i < |stored.steps| && FreshAdvance(adv, stored.steps)
    requires DependenciesSatisfied(stored.steps[i], stored.steps)
    ensures var prepared := Prepare(stored, Owner(stored), out.stamps);
      var w1, saved := Save(Preparing(w, stored), prepared, out.ticks(0)), Saved(w, prepared);
      && Next(stored, w1) && Reread(w, prepared).id == stored.id
      && Continues(stored, Reread(w, prepared)) && Reread(w, prepared).status != Completed
      && Working(w1, Reread(w, prepared), saved, out) && FreshAdvance(adv, saved.steps)
      && DependenciesSatisfied(saved.steps[i], saved.steps)
  {
    var prepared, w0 := Prepare(stored, Owner(stored), out.stamps), Preparing(w, stored);
    PreparingOk(w, stored, out);
    PrepareSound(stored, w0.log, out.stamps);
    PrepareNames(stored, Owner(stored), out.stamps);
    FreshAdvanceCarries(adv, stored.steps, prepared.steps);
    WorkingSaved(w0, stored, prepared, adv, out, out.ticks(0));
    SaveKeepsSteps(w, prepared);
    PreparedDoneStays(stored, Owner(stored), out.stamps);
    DependenciesCarry(stored.steps, prepared.steps, stored.steps[i], prepared.steps[i]);
    SavedIsAfter(w, stored, prepared);
    SavedDoneStays(prepared.steps, Saved(w, prepared).steps);
    DependenciesCarry(prepared.steps, Saved(w, prepared).steps, prepared.steps[i], Saved(w, prepared).steps[i]);
  }

  lemma ExecuteFilledInOk(
    w: World, stored: Run, run: Run, i: nat, signature: Signature, approved: bool,
    outcome: Result<Value, string>, adv: AdvanceInput, out: Outside)
    requires Working(w, stored, run, out) && i < |run.steps| && FreshAdvance(adv, run.steps)
    requires DependenciesSatisfied(run.steps[i], run.steps)
    ensures Next(stored, ExecuteFilledIn(w, run, i, signature, approved, outcome, adv, out).world)
  {
    hide ExecuteResolved, Next, Hydrate, Sound, Verified;
    RestingIsOk(w, stored, out);
    if run.steps[i].risk != External {
      ExecuteResolvedOk(w, stored, run, i, signature, approved, outcome, adv, out, 1);
    }
  }

  lemma ExecutePreparedOk(
    w: World, stored: Run, i: nat, signature: Signature, approved: bool,
    outcome: Result<Value, string>, adv: AdvanceInput, out: Outside)
    requires AtRest(w, stored, out) && stored.status != Completed && i < |stored.steps| && FreshAdvance(adv, stored.steps)
    requires DependenciesSatisfied(stored.steps[i], stored.steps)
    ensures Next(stored, ExecutePrepared(w, stored, i, signature, approved, outcome, adv, out).world)
  {
    hide ExecuteFilledIn, Persist, Hydrate, Next, Working, Prepare, Preparing, Reread;
    RestingIsOk(w, stored, out);
    PreparedWorking(w, stored, i, adv, out);
    var prepared := Prepare(stored, Owner(stored), out.stamps);
    var w1, now, saved := Save(Preparing(w, stored), prepared, out.ticks(0)), Reread(w, prepared), Saved(w, prepared);
    ExecuteFilledInOk(w1, now, saved, i, signature, approved, outcome, adv, out);
    NextThen(stored, now, ExecuteFilledIn(w1, saved, i, signature, approved, outcome, adv, out).world);
  }

  lemma ExecuteStepOk(
    w: World, stored: Run, user: Actor, stepId: string, signature: Signature, approved: bool,
    outcome: Result<Value, string>, adv: AdvanceInput, out: Outside)
    requires AtRest(w, stored, out) && FreshAdvance(adv, stored.steps)
    ensures Next(stored, ExecuteStep(w, stored.id, user, stepId, signature, approved, outcome, adv, out).world)
  {
    hide RunNow, ExecuteResolved, ExecutePrepared, Next, GroundOk, FreshAdvance, DependenciesSatisfied, DependencyFailure;
    RestingIsOk(w, stored, out);
    var i := StepIndex(stored.steps, stepId);
    if !Refused(stored, i, out.ticks(0).now) {
      if HasNoReferences(stored.steps[i].input) {
        ExecuteResolvedOk(w, stored, stored, i, signature, approved, outcome, adv, out, 0);
      } else {
        ExecutePreparedOk(w, stored, i, signature, approved, outcome, adv, out);
      }
    }
  }
}
