/** What an instruction, a resumption and a first plan leave in the store. */
module MissionTurns {
  import opened Prelude
  import opened Values
  import opened AgentTypes
  import opened References
  import opened WorkflowGraph
  import opened Planning
  import opened Recovery
  import opened Runs
  import opened Collections
  import opened RunStore
  import opened Mission
  import opened MissionInvariant
  import opened MissionSave
  import opened MissionPasses
  import opened MissionMoves
  import opened MissionOps
  import opened MissionAdvance
  import opened MissionFlight
  import opened MissionReplan
  import opened MissionRuns
  import opened MissionEffects
  import Verifier

  // ---------- Steering ----------

  predicate IsOpen(s: Step) { s.status in {Ready, NeedsConfirmation, Queued} }

  function Superseded(s: Step): Step { s.(status := Skipped, error := "已被用户的新指令替代", approved := false) }

  /** The instruction is on record. */
  predicate Instructed(events: seq<Event>, text: string) { exists e | e in events :: e.message == "用户改令：" + text }

  /** An instruction on record is marked as applied. */
  predicate InstructionApplied(events: seq<Event>) {
    exists e, f | e in events && f in events :: StartsWith(e.message, "用户改令：") && f.message == "已应用改令：" + e.id
  }

  /** The instruction is stored, and nothing that had not started is left to start. */
  ghost predicate Instructs(w: World, stored: Run, text: string) {
    && Leaves(w, stored, stored.(stopReason := "", steps := Changed(stored.steps, IsOpen, Superseded)))
    && Instructed(Hydrate(w.store, stored.id).value.events, text)
  }

  /** The batch of a plan, admitted by the graph check and cut to what the turn permits. */
  ghost function Admitted(stored: Run, plan: Plan): Option<seq<Step>> {
    match Normalized(plan.items, stored.id, Owner(stored), stored.steps)
    case None => None
    case Some(batch) => Some(Authorize(Constrain(batch, plan.decision), plan.decision.writeAuthorized && !plan.automated))
  }

  predicate SomeReady(steps: seq<Step>) { exists s | s in steps :: s.status == Ready }

  /** The mission with a new batch after the steps it keeps: one round further, under the plan's goal. */
  function Turned(run: Run, kept: seq<Step>, batch: seq<Step>, plan: Plan, limit: nat, reason: string): Run {
    run.(
      steps := kept + batch, spec := plan.spec, maxIterations := limit,
      iteration := if run.iteration < limit then run.iteration + 1 else limit,
      status := if plan.askUser != "" then WaitingUser else if SomeReady(batch) then InProgress else AwaitingConfirmation,
      stopReason := if plan.askUser != "" then plan.askUser else if SomeReady(batch) then "" else reason)
  }

  lemma SteeredIs(stored: Run, text: string, out: Outside)
    ensures var now := SteeredRun(stored, text, out);
      && SameFirst(stored.steps, now.steps) && Instructed(now.events, text)
      && now == stored.(stopReason := "", steps := Changed(stored.steps, IsOpen, Superseded), events := now.events)
  {
    hide Instructed;
    assert SkipActive(stored.steps, REPLACED) == Changed(stored.steps, IsOpen, Superseded);
    var noted := AddEvent(AddEvent(stored, out.stamps, PlanEvent, "用户补充：" + text), out.stamps, PlanEvent, "本轮语义判决：");
    InstructionNoted(noted, text, out);
  }

  lemma InstructionNoted(run: Run, text: string, out: Outside)
    ensures var now := AddEvent(run, out.stamps, PlanEvent, STEER_MARK + text);
      forall events | now.events <= events :: Instructed(events, text)
  {
    var now := AddEvent(run, out.stamps, PlanEvent, STEER_MARK + text);
    assert now.events[|run.events|].message == STEER_MARK + text;
    forall events | now.events <= events
      ensures Instructed(events, text)
    {
      assert events[|run.events|] in events;
    }
  }

  lemma InstructedStays(was: seq<Event>, now: seq<Event>, text: string)
    requires Instructed(was, text) && Grown(was, now)
    ensures Instructed(now, text)
  {
  }

  lemma SteerRecords(w: World, stored: Run, text: string, out: Outside)
    requires Grounded(w, stored, out)
    ensures var steered := SteeredRun(stored, text, out);
      && Instructs(Save(w, steered, out.ticks(0)), stored, text)
      && Hydrate(Save(w, steered, out.ticks(0)).store, stored.id) == Some(Reread(w, steered))
      && AsWritten(stored, steered, Reread(w, steered))
  {
    hide Hydrate, Persist, GroundOk, RunOk, Continues, SteeredRun, Leaves, Changed, Instructed, Reread;
    var steered := SteeredRun(stored, text, out);
    SteeredSound(stored, text, out, w.log);
    SteeredIs(stored, text, out);
    LeavesWritten(w, stored, steered, out.ticks(0), w.log);
    LeavesAlike(Save(w, steered, out.ticks(0)), stored, steered,
      stored.(stopReason := "", steps := Changed(stored.steps, IsOpen, Superseded)));
    InstructedStays(steered.events, Reread(w, steered).events, text);
  }

  // ---------- Steering at rest ----------

  /** No id still to be drawn is already marked as an applied instruction. */
  ghost predicate UnmarkedIds(stamps: Stamps, events: seq<Event>) {
    forall k: nat, e | e in events :: e.message != "已应用改令：" + stamps(k).0
  }

  lemma {:induction false} SomePending(candidates: seq<Event>, events: seq<Event>, e: Event)
    requires e in candidates && StartsWith(e.message, STEER_MARK) && !SteerApplied(events, e.id)
    ensures PendingAmong(candidates, events).Some?
    ensures var p := PendingAmong(candidates, events).value; p in candidates && StartsWith(p.message, STEER_MARK)
  {
    hide SteerApplied, StartsWith;
    var last := candidates[|candidates| - 1];
    if !(StartsWith(last.message, STEER_MARK) && !SteerApplied(events, last.id)) {
      SomePending(candidates[..|candidates| - 1], events, e);
    }
  }

  lemma SteerIsPending(stored: Run, text: string, out: Outside)
    requires UnmarkedIds(out.stamps, stored.events)
    ensures var events := SteeredRun(stored, text, out).events;
      && PendingSteer(events).Some? && PendingSteer(events).value in events
      && StartsWith(PendingSteer(events).value.message, STEER_MARK)
  {
    hide SkipActive;
    var n := |stored.events|;
    var events := SteeredRun(stored, text, out).events;
    var e := events[n + 2];
    assert e.message == STEER_MARK + text && e.id == out.stamps(n + 2).0;
    forall f | f in events
      ensures f.message != STEER_APPLIED_MARK + e.id
    {
      var i :| 0 <= i < |events| && events[i] == f;
      if i < n {
        assert f in stored.events;
      } else {
        NewSteerEvent(stored, text, out, i);
        OtherMarks(text, e.id);
      }
    }
    SomePending(events, events, e);
  }

  lemma NewSteerEvent(stored: Run, text: string, out: Outside, i: nat)
    requires |stored.events| <= i < |SteeredRun(stored, text, out).events|
    ensures SteeredRun(stored, text, out).events[i].message
      in {"用户补充：" + text, "本轮语义判决：", STEER_MARK + text, "新指令已使未开始步骤和旧审批失效"}
  {
    hide SkipActive;
  }

  lemma OtherMarks(text: string, id: string)
    ensures STEER_APPLIED_MARK + id !in {"用户补充：" + text, "本轮语义判决：", STEER_MARK + text, "新指令已使未开始步骤和旧审批失效"}
  {
    var applied := STEER_APPLIED_MARK + id;
    assert applied[0] == '已';
    assert ("用户补充：" + text)[0] == '用' && (STEER_MARK + text)[0] == '用';
    assert "本轮语义判决："[0] == '本' && "新指令已使未开始步骤和旧审批失效"[0] == '新';
  }

  lemma WrittenTwice(was: seq<Step>, s: Step, i: nat, first: seq<Step>, second: Step)
    requires i < |was| <= |first| && StepAsWritten(was, i, s, first[i]) && StepAsWritten(first, i, first[i], second)
    requires s == was[i] || s == Superseded(was[i])
    ensures StepAsWritten(was, i, s, second)
  {
  }

  lemma SameKeysSameBatch(stored: Run, run: Run, plan: Plan)
    requires run.id == stored.id && Owner(run) == Owner(stored) && KeySet(run.steps) == KeySet(stored.steps)
    ensures PlannedBatch(run, plan) == Admitted(stored, plan)
  {
    hide Constrain, Authorize, AllWithReferences;
  }

  lemma KeysAsWritten(was: seq<Step>, written: seq<Step>, now: seq<Step>)
    requires |was| == |written| && StepsAsWritten(was, written, now)
    requires forall i | 0 <= i < |was| :: written[i].key == was[i].key
    ensures KeySet(now) == KeySet(was)
  {
  }

  /** What installing a plan over the steps that are kept writes. */
  lemma InstalledIs(run: Run, batch: seq<Step>, plan: Plan, waiting: string, mark: string, out: Outside)
    requires forall s | s in run.steps :: !IsOpen(s)
    ensures var replanned := Replanned(run, SkipActive(run.steps, REPLACED), batch, plan, waiting);
      var now := Told(AddEvent(replanned, out.stamps, PlanEvent, mark), plan, out);
      && now == Turned(run, run.steps, batch, plan, run.maxIterations, waiting).(events := now.events)
      && exists f | f in now.events :: f.message == mark
  {
    assert forall i | 0 <= i < |run.steps| :: run.steps[i] in run.steps;
    assert SkipActive(run.steps, REPLACED) == run.steps;
    var replanned := Replanned(run, SkipActive(run.steps, REPLACED), batch, plan, waiting);
    TurnedAlike(run, batch, plan, waiting);
    var noted := AddEvent(replanned, out.stamps, PlanEvent, mark);
    assert noted.events[|run.events|].message == mark;
    ToldIs(noted, plan, out);
    assert noted.events[|run.events|] in Told(noted, plan, out).events;
  }

  lemma TurnedAlike(run: Run, batch: seq<Step>, plan: Plan, waiting: string)
    requires SkipActive(run.steps, REPLACED) == run.steps
    ensures Replanned(run, SkipActive(run.steps, REPLACED), batch, plan, waiting)
         == Turned(run, run.steps, batch, plan, run.maxIterations, waiting)
  {
    assert AnyReady(batch) == SomeReady(batch);
  }

  lemma ToldIs(run: Run, plan: Plan, out: Outside)
    ensures var now := Told(run, plan, out); now == run.(events := now.events) && run.events <= now.events
  {
  }

  lemma InstalledSound(w: World, run: Run, batch: seq<Step>, plan: Plan, mark: string, out: Outside)
    requires Sound(run, w.log, out.stamps) && FreshItems(plan.items, run.steps) && PlannedBatch(run, plan) == Some(batch)
    ensures var replanned := Replanned(run, SkipActive(run.steps, REPLACED), batch, plan, "等待用户批准修改后的动作");
      var now := Told(AddEvent(replanned, out.stamps, PlanEvent, mark), plan, out);
      RunOk(now, Installing(w.log, run, plan)) && Continues(run, now)
  {
    hide Replanned, Told, PlannedBatch, FreshItems, RunOk, Installing;
    var log := Installing(w.log, run, plan);
    InstallingOk(run, plan, w.log);
    InstallingSound(run, run, plan, w.log, out.stamps);
    SkipActiveStops(run.steps, REPLACED);
    ReplannedSound(run, SkipActive(run.steps, REPLACED), batch, plan, "等待用户批准修改后的动作", log, out.stamps);
    var replanned := Replanned(run, SkipActive(run.steps, REPLACED), batch, plan, "等待用户批准修改后的动作");
    EventSound(replanned, out.stamps, PlanEvent, mark, log);
    ToldSound(AddEvent(replanned, out.stamps, PlanEvent, mark), plan, out, log);
  }

  lemma NothingOpenIsLeft(steps: seq<Step>)
    ensures forall s | s in Changed(steps, IsOpen, Superseded) :: !IsOpen(s)
  {
  }

  lemma NothingOpenIsRead(was: seq<Step>, written: seq<Step>, now: seq<Step>)
    requires StepsAsWritten(was, written, now) && forall s | s in written :: !IsOpen(s)
    ensures forall s | s in now :: !IsOpen(s)
  {
    forall i | 0 <= i < |now|
      ensures !IsOpen(now[i])
    {
      assert written[i] in written && StepAsWritten(was, i, written[i], now[i]);
    }
  }

  /** The two saves of an instruction that is applied at once, taken together. */
  lemma InstalledReads(stored: Run, first: Run, second: Run, kept: seq<Step>, batch: seq<Step>, plan: Plan, waiting: string)
    requires kept == Changed(stored.steps, IsOpen, Superseded)
    requires AsWritten(stored, stored.(stopReason := "", steps := kept, events := first.events), first)
    requires AsWritten(first, Turned(first, first.steps, batch, plan, first.maxIterations, waiting).(events := second.events), second)
    requires Grown(stored.events, first.events) && Grown(first.events, second.events)
    ensures AsWritten(stored, Turned(stored, kept, batch, plan, stored.maxIterations, waiting).(events := second.events), second)
  {
    hide StepAsWritten, Changed, SomeReady;
    var written := Turned(stored, kept, batch, plan, stored.maxIterations, waiting);
    var turned := Turned(first, first.steps, batch, plan, first.maxIterations, waiting);
    var n := |stored.steps|;
    forall i | 0 <= i < |written.steps|
      ensures StepAsWritten(stored.steps, i, written.steps[i], second.steps[i])
    {
      assert StepAsWritten(first.steps, i, turned.steps[i], second.steps[i]);
      if i < n {
        assert StepAsWritten(stored.steps, i, kept[i], first.steps[i]);
        OneSuperseded(stored.steps, kept, i);
        WrittenTwice(stored.steps, kept[i], i, first.steps, second.steps[i]);
      } else {
        BeyondTheStored(stored.steps, first.steps, i, turned.steps[i], second.steps[i]);
      }
    }
  }

  lemma OneSuperseded(steps: seq<Step>, kept: seq<Step>, i: nat)
    requires kept == Changed(steps, IsOpen, Superseded) && i < |steps|
    ensures kept[i] == steps[i] || kept[i] == Superseded(steps[i])
  {
  }

  lemma BeyondTheStored(was: seq<Step>, first: seq<Step>, i: nat, s: Step, now: Step)
    requires |was| <= i && |first| <= i && StepAsWritten(first, i, s, now)
    ensures StepAsWritten(was, i, s, now)
  {
  }

  /** The mission as an applied instruction leaves it. */
  ghost predicate Redirects(w: World, stored: Run, batch: seq<Step>, plan: Plan, text: string) {
    && Leaves(w, stored, Turned(stored, Changed(stored.steps, IsOpen, Superseded), batch, plan, stored.maxIterations, "等待用户批准修改后的动作"))
    && Instructed(Hydrate(w.store, stored.id).value.events, text)
    && InstructionApplied(Hydrate(w.store, stored.id).value.events)
  }

  lemma SteeredReads(w: World, stored: Run, plan: Plan, text: string, out: Outside)
    requires AtRest(w, stored, out) && UnmarkedIds(out.stamps, stored.events) && FreshItems(plan.items, stored.steps)
    requires stored.status != Completed
    ensures var steered := SteeredRun(stored, text, out);
      var w1, first, saved := Save(w, steered, out.ticks(0)), Reread(w, steered), Saved(w, steered);
      && AtRest(w1, first, out) && Sound(saved, w1.log, out.stamps) && Continues(first, saved) && !AnyRunning(saved.steps)
      && FreshItems(plan.items, saved.steps) && saved == first.(events := saved.events)
      && (forall s | s in saved.steps :: !IsOpen(s)) && KeySet(saved.steps) == KeySet(stored.steps)
      && saved.id == stored.id && Owner(saved) == Owner(stored)
      && PendingSteer(saved.events).Some? && PendingSteer(saved.events).value in saved.events
      && StartsWith(PendingSteer(saved.events).value.message, STEER_MARK)
  {
    hide Hydrate, Persist, GroundOk, RunOk, SteeredRun, Changed, FreshItems, Working, UnmarkedIds, PendingSteer;
    var steered := SteeredRun(stored, text, out);
    SteeredSound(stored, text, out, w.log);
    SteeredIs(stored, text, out);
    SkippedNames(stored.steps);
    SteerIsPending(stored, text, out);
    SteerKeptOpen(w, stored, steered, plan, out);
    SteerRecords(w, stored, text, out);
    SoundRunHas(steered, w.log);
    SavedIsAfter(w, stored, steered);
    NothingOpenIsLeft(stored.steps);
    NothingOpenIsRead(stored.steps, steered.steps, Reread(w, steered).steps);
    SteeredKeys(stored, steered);
    KeysAsWritten(stored.steps, steered.steps, Reread(w, steered).steps);
  }

  lemma SteeredKeys(stored: Run, steered: Run)
    requires steered.steps == Changed(stored.steps, IsOpen, Superseded)
    ensures |steered.steps| == |stored.steps| && forall i | 0 <= i < |stored.steps| :: steered.steps[i].key == stored.steps[i].key
  {
  }

  lemma SteerKeptOpen(w: World, stored: Run, steered: Run, plan: Plan, out: Outside)
    requires AtRest(w, stored, out) && Sound(steered, w.log, out.stamps) && Continues(stored, steered)
    requires !AnyRunning(steered.steps) && steered.status == stored.status && steered.spec == stored.spec
    requires SameNames(stored.steps, steered.steps) && FreshItems(plan.items, stored.steps)
    requires Verified(steered)
    ensures var w1, first, saved := Save(w, steered, out.ticks(0)), Reread(w, steered), Saved(w, steered);
      && AtRest(w1, first, out) && Sound(saved, w1.log, out.stamps) && Continues(first, saved) && !AnyRunning(saved.steps)
      && FreshItems(plan.items, saved.steps)
  {
    hide Hydrate, Persist, GroundOk, RunOk, FreshItems;
    QuietStorable(w, stored, steered, out);
    SaveGround(w, stored, steered, out.ticks(0), w.log, out);
    SaveStorable(w, stored, steered, out.ticks(0), w.log, out);
    assert Save(w, steered, out.ticks(0)) == World(Persist(w.store, steered, out.ticks(0)), None, w.log);
    SavedNames(steered.steps, Saved(w, steered).steps);
    FreshItemsCarry(stored.steps, steered.steps, plan.items);
    FreshItemsCarry(steered.steps, Saved(w, steered).steps, plan.items);
  }

  lemma RedirectIsStored(
    w: World, stored: Run, first: Run, saved: Run, told: Run, e: Event, batch: seq<Step>, plan: Plan, text: string,
    tick: Tick, log: seq<Effect>)
    requires Hydrate(w.store, first.id) == Some(first) && first.id == stored.id && Instructs(w, stored, text)
    requires saved == first.(events := saved.events) && Continues(first, saved) && Continues(saved, told) && RunOk(told, log)
    requires told == Turned(saved, saved.steps, batch, plan, saved.maxIterations, "等待用户批准修改后的动作").(events := told.events)
    requires e in saved.events && StartsWith(e.message, STEER_MARK) && exists f | f in told.events :: f.message == STEER_APPLIED_MARK + e.id
    ensures Redirects(Save(w, told, tick), stored, batch, plan, text)
  {
    hide Hydrate, Persist, RunOk, Changed, SomeReady, Reread, StepsAsWritten;
    var second, kept := Reread(w, told), Changed(stored.steps, IsOpen, Superseded);
    LeavesWritten(w, first, told, tick, log);
    EventsAsWritten(first, told, second);
    InstalledReads(stored, first, second, kept, batch, plan, "等待用户批准修改后的动作");
    InstructedStays(first.events, second.events, text);
    var f :| f in told.events && f.message == STEER_APPLIED_MARK + e.id;
    assert e in second.events && f in second.events;
  }

  lemma SteerRedirects(w: World, stored: Run, plan: Plan, text: string, batch: seq<Step>, out: Outside)
    requires AtRest(w, stored, out) && UnmarkedIds(out.stamps, stored.events) && FreshItems(plan.items, stored.steps)
    requires stored.status != Completed && Admitted(stored, plan) == Some(batch)
    ensures var steered := SteeredRun(stored, text, out);
      var o := ApplySteer(Save(w, steered, out.ticks(0)), Saved(w, steered), plan, out, 1);
      !o.thrown && Redirects(o.world, stored, batch, plan, text)
  {
    hide Hydrate, Persist, GroundOk, RunOk, SteeredRun, Changed, FreshItems, UnmarkedIds, PendingSteer, Replanned, Told, Turned;
    hide PlannedBatch, Admitted, Installing, SkipActive, AsWritten, Instructed, Reread;
    var steered := SteeredRun(stored, text, out);
    var w1, first, saved := Save(w, steered, out.ticks(0)), Reread(w, steered), Saved(w, steered);
    SteeredReads(w, stored, plan, text, out);
    SteerRecords(w, stored, text, out);
    SameKeysSameBatch(stored, saved, plan);
    var mark := STEER_APPLIED_MARK + PendingSteer(saved.events).value.id;
    var waiting := "等待用户批准修改后的动作";
    InstalledIs(saved, batch, plan, waiting, mark, out);
    InstalledSound(w1, saved, batch, plan, mark, out);
    var replanned := Replanned(saved, SkipActive(saved.steps, REPLACED), batch, plan, waiting);
    var told := Told(AddEvent(replanned, out.stamps, PlanEvent, mark), plan, out);
    RedirectIsStored(w1.(log := Installing(w1.log, saved, plan)), stored, first, saved, told, PendingSteer(saved.events).value, batch, plan,
                     text, out.ticks(1), Installing(w1.log, saved, plan));
  }

  lemma SteerThrows(w: World, stored: Run, plan: Plan, text: string, out: Outside)
    requires AtRest(w, stored, out) && UnmarkedIds(out.stamps, stored.events) && FreshItems(plan.items, stored.steps)
    requires stored.status != Completed && Admitted(stored, plan) == None
    ensures var steered := SteeredRun(stored, text, out);
      var w1 := Save(w, steered, out.ticks(0)); ApplySteer(w1, Saved(w, steered), plan, out, 1) == Outcome(w1, true)
  {
    hide Hydrate, Persist, GroundOk, RunOk, SteeredRun, FreshItems, UnmarkedIds, PendingSteer, Replanned, Told, PlannedBatch;
    hide Admitted, AtRest;
    var saved := Saved(w, SteeredRun(stored, text, out));
    SteeredReads(w, stored, plan, text, out);
    SameKeysSameBatch(stored, saved, plan);
  }

  /**
   An instruction is refused exactly when the user does not own the mission, the mission has ended or
   waits for an answer, or the instruction is too short; or, applied at once, when its plan is not
   admitted. It is recorded in any other case, with everything that had not started skipped, and at rest
   the new batch takes its place.
   */
  lemma SteerIs(w: World, stored: Run, user: Actor, input: string, active: bool, plan: Plan, out: Outside)
    requires Holds(w, stored, out) && FreshItems(plan.items, stored.steps) && UnmarkedIds(out.stamps, stored.events)
    ensures var o, text, batch := Steer(w, stored.id, user, input, active, plan, out), Take(Trim(input), 400), Admitted(stored, plan);
      if user != Owner(stored) || stored.status in {Completed, RunFailed, RunStatus.Cancelled, WaitingUser} || |text| < 2 then
        o == Outcome(w, true)
      else if !active || AnyRunning(stored.steps) then
        !o.thrown && Instructs(o.world, stored, text) && o.world.log == w.log && o.world.flight == w.flight
      else if batch.None? then
        o.thrown && Instructs(o.world, stored, text) && o.world.log == w.log && o.world.flight == w.flight
      else
        !o.thrown && Redirects(o.world, stored, batch.value, plan, text)
  {
    hide Hydrate, Persist, WorldOk, GroundOk, RunOk, ApplySteer, SteeredRun, Trim, Admitted, Instructs, Redirects;
    hide FreshItems, UnmarkedIds;
    var text := Take(Trim(input), 400);
    HeldAtRest(w, stored, out);
    SteerRecords(w, stored, text, out);
    SteeredSound(stored, text, out, w.log);
    if active && Steerable(stored.status) && !AnyRunning(stored.steps) {
      if Admitted(stored, plan).Some? {
        SteerRedirects(w, stored, plan, text, Admitted(stored, plan).value, out);
      } else {
        SteerThrows(w, stored, plan, text, out);
      }
    }
  }

  // ---------- Resuming ----------

  function Outdated(s: Step): Step { s.(status := Skipped, error := "已根据用户补充重新生成动作", approved := false) }

  predicate IsUnsent(s: Step) { s.risk == External && s.status == Failed }

  function Unsent(s: Step): Step {
    s.(status := Skipped, error := "用户已核验渠道未发送，允许重新规划；原错误：" + s.error, approved := false)
  }

  /** What a resumption with a new plan keeps: open steps are dropped, and failed sends the user says were never sent. */
  function KeptOnResume(steps: seq<Step>, notSent: bool): seq<Step> {
    var kept := Changed(steps, IsOpen, Outdated);
    if notSent then Changed(kept, IsUnsent, Unsent) else kept
  }

  /** A mission that has used up its rounds gets three more, up to 24 in all. */
  function NewLimit(run: Run): nat {
    if run.iteration < run.maxIterations then run.maxIterations
    else if run.maxIterations + 3 <= 24 then run.maxIterations + 3
    else 24
  }

  lemma DroppedIs(steps: seq<Step>, notSent: bool)
    ensures SkipForResume(steps, notSent) == KeptOnResume(steps, notSent)
  {
  }

  lemma ResumptionIs(stored: Run, batch: seq<Step>, plan: Plan, notSent: bool, out: Outside)
    requires WithinRounds(stored)
    ensures var resumed, kept := ResumedRun(stored, out), SkipForResume(stored.steps, notSent);
      var now := Told(Replanned(resumed, kept, batch, plan, "等待用户确认写入动作"), plan, out);
      && SameFirst(stored.steps, now.steps)
      && now == Turned(stored, KeptOnResume(stored.steps, notSent), batch, plan, NewLimit(stored), "等待用户确认写入动作").(events := now.events)
  {
    DroppedIs(stored.steps, notSent);
    assert AnyReady(batch) == SomeReady(batch);
    var resumed, kept := ResumedRun(stored, out), SkipForResume(stored.steps, notSent);
    ToldIs(Replanned(resumed, kept, batch, plan, "等待用户确认写入动作"), plan, out);
  }

  lemma ResumptionSound(w: World, stored: Run, batch: seq<Step>, plan: Plan, notSent: bool, out: Outside)
    requires Sound(stored, w.log, out.stamps) && FreshItems(plan.items, stored.steps)
    requires var resumed, kept := ResumedRun(stored, out), SkipForResume(stored.steps, notSent);
      PlannedBatch(resumed.(steps := kept), plan) == Some(batch)
    ensures var resumed, kept := ResumedRun(stored, out), SkipForResume(stored.steps, notSent);
      var now := Told(Replanned(resumed, kept, batch, plan, "等待用户确认写入动作"), plan, out);
      RunOk(now, Installing(w.log, resumed.(steps := kept), plan)) && Continues(stored, now)
  {
    hide Replanned, Told, PlannedBatch, FreshItems, RunOk, Installing, ResumedRun;
    var resumed, kept := ResumedRun(stored, out), SkipForResume(stored.steps, notSent);
    ResumedSound(stored, out, w.log);
    var stopped := resumed.(steps := kept);
    var log := Installing(w.log, stopped, plan);
    SkipForResumeStops(stored.steps, notSent);
    assert SameNames(stored.steps, kept) && SameNames(kept, stored.steps);
    FreshItemsCarry(stored.steps, kept, plan.items);
    InstallingOk(stopped, plan, w.log);
    BatchCarries(stopped, resumed, batch);
    InstallingSound(resumed, stopped, plan, w.log, out.stamps);
    ReplannedSound(resumed, kept, batch, plan, "等待用户确认写入动作", log, out.stamps);
    ToldSound(Replanned(resumed, kept, batch, plan, "等待用户确认写入动作"), plan, out, log);
  }

  lemma SameKeysWhenDropped(stored: Run, plan: Plan, notSent: bool, out: Outside)
    ensures PlannedBatch(ResumedRun(stored, out).(steps := SkipForResume(stored.steps, notSent)), plan) == Admitted(stored, plan)
  {
    hide PlannedBatch, Admitted;
    var now := ResumedRun(stored, out).(steps := SkipForResume(stored.steps, notSent));
    SkipForResumeStops(stored.steps, notSent);
    SameKeysKept(stored.steps, now.steps);
    SameKeysSameBatch(stored, now, plan);
  }

  lemma SameKeysKept(was: seq<Step>, now: seq<Step>)
    requires |was| == |now| && forall i | 0 <= i < |was| :: now[i].key == was[i].key
    ensures KeySet(now) == KeySet(was)
  {
  }

  /** The mission goes on from where it stood: in progress, with more rounds if it had used them up. */
  ghost predicate GoesOnFrom(w: World, stored: Run, w1: World) {
    && w1.log == w.log && w1.flight == w.flight
    && Leaves(w1, stored, stored.(status := InProgress, stopReason := "", maxIterations := NewLimit(stored)))
  }

  /**
   Resuming is refused exactly when the user does not own the mission or it neither stopped nor waits for
   an answer, or when the new plan is not admitted. A new plan takes the place of what had not started,
   and of sends that failed and were not sent; without one the mission advances.
   */
  lemma ResumeIs(w: World, stored: Run, user: Actor, plan: Option<Plan>, notSent: bool, adv: AdvanceInput, out: Outside)
    requires Holds(w, stored, out) && (plan.Some? ==> FreshItems(plan.value.items, stored.steps))
    ensures var o := Resume(w, stored.id, user, plan, notSent, adv, out);
      if user != Owner(stored) || stored.status !in {Paused, WaitingUser, RunFailed, RunStatus.Cancelled} then o == Outcome(w, true)
      else if plan.None? then exists w1 :: GoesOnFrom(w, stored, w1) && o == Advance(w1, stored.id, adv, out, 1)
      else match Admitted(stored, plan.value)
        case None => o == Outcome(w, true)
        case Some(batch) =>
          && !o.thrown && o.world.flight == w.flight
          && Leaves(o.world, stored,
               Turned(stored, KeptOnResume(stored.steps, notSent), batch, plan.value, NewLimit(stored), "等待用户确认写入动作"))
  {
    hide Hydrate, Persist, WorldOk, GroundOk, RunOk, Advance, ResumedRun, PlannedBatch, Admitted, Replanned, Told, Turned;
    hide Leaves, FreshItems;
    hide KeptOnResume, SkipForResume, Installing, Holds;
    HeldAtRest(w, stored, out);
    if user == Owner(stored) && Resumable(stored.status) {
      match plan
      case None => ContinuationIs(w, stored, adv, out);
      case Some(p) =>
        SameKeysWhenDropped(stored, p, notSent, out);
        if Admitted(stored, p).Some? {
          ReplacementIs(w, stored, p, Admitted(stored, p).value, notSent, out);
        }
    }
  }

  lemma ContinuationIs(w: World, stored: Run, adv: AdvanceInput, out: Outside)
    requires Grounded(w, stored, out)
    ensures var continued := AddEvent(ResumedRun(stored, out), out.stamps, PlanEvent, "已从上次检查点恢复，正在继续完成原目标");
      GoesOnFrom(w, stored, Save(w, continued, out.ticks(0)))
  {
    hide Hydrate, Persist, GroundOk, RunOk, ResumedRun, Leaves;
    var resumed := ResumedRun(stored, out);
    ResumedSound(stored, out, w.log);
    EventSound(resumed, out.stamps, PlanEvent, "已从上次检查点恢复，正在继续完成原目标", w.log);
    var continued := AddEvent(resumed, out.stamps, PlanEvent, "已从上次检查点恢复，正在继续完成原目标");
    LeavesWritten(w, stored, continued, out.ticks(0), w.log);
    SoundRounds(stored, w.log);
    ContinuedIs(stored, out);
    LeavesAlike(Save(w, continued, out.ticks(0)), stored, continued,
      stored.(status := InProgress, stopReason := "", maxIterations := NewLimit(stored)));
  }

  lemma ContinuedIs(stored: Run, out: Outside)
    requires WithinRounds(stored)
    ensures var now := ResumedRun(stored, out);
      now == stored.(status := InProgress, stopReason := "", maxIterations := NewLimit(stored), events := now.events)
  {
  }

  lemma ReplacementIs(w: World, stored: Run, plan: Plan, batch: seq<Step>, notSent: bool, out: Outside)
    requires Grounded(w, stored, out) && FreshItems(plan.items, stored.steps)
    requires PlannedBatch(ResumedRun(stored, out).(steps := SkipForResume(stored.steps, notSent)), plan) == Some(batch)
    ensures var resumed, kept := ResumedRun(stored, out), SkipForResume(stored.steps, notSent);
      Leaves(Save(w.(log := Installing(w.log, resumed.(steps := kept), plan)),
                  Told(Replanned(resumed, kept, batch, plan, "等待用户确认写入动作"), plan, out), out.ticks(0)),
             stored, Turned(stored, KeptOnResume(stored.steps, notSent), batch, plan, NewLimit(stored), "等待用户确认写入动作"))
  {
    hide Hydrate, Persist, GroundOk, RunOk, ResumedRun, PlannedBatch, Replanned, Told, Turned, Leaves, FreshItems;
    hide KeptOnResume, SkipForResume, Installing;
    var resumed, kept := ResumedRun(stored, out), SkipForResume(stored.steps, notSent);
    var now := Told(Replanned(resumed, kept, batch, plan, "等待用户确认写入动作"), plan, out);
    var log := Installing(w.log, resumed.(steps := kept), plan);
    SoundRounds(stored, w.log);
    ResumptionIs(stored, batch, plan, notSent, out);
    ResumptionSound(w, stored, batch, plan, notSent, out);
    LeavesWritten(w.(log := log), stored, now, out.ticks(0), log);
    LeavesAlike(Save(w.(log := log), now, out.ticks(0)), stored, now,
      Turned(stored, KeptOnResume(stored.steps, notSent), batch, plan, NewLimit(stored), "等待用户确认写入动作"));
  }

  // ---------- Creating ----------

  /** The first plan of a mission: one round of twelve, with the status the plan calls for. */
  function Planned(run: Run, batch: seq<Step>, plan: Plan, conversation: bool): Run {
    run.(
      steps := batch, spec := plan.spec, iteration := 1, maxIterations := 12, stopReason := plan.askUser,
      status :=
        if plan.askUser != "" then WaitingUser
        else if SomeReady(batch) then InProgress
        else if exists s | s in batch :: s.status == NeedsConfirmation then AwaitingConfirmation
        else if conversation && batch == [] then Completed
        else InProgress)
  }

  lemma PlannedIs(run: Run, batch: seq<Step>, plan: Plan, conversation: bool)
    ensures FirstState(run, batch, plan, FirstStatus(batch, plan, conversation))
         == Planned(run, batch, plan, conversation).(events := [])
    ensures Planned(run, batch, plan, conversation).id == run.id
  {
    assert AnyReady(batch) == SomeReady(batch);
  }

  /** A mission is created exactly when its plan is admitted, and stored as planned. */
  lemma CreatePlanIs(store: Store, run: Run, plan: Plan, conversation: bool, out: Outside)
    requires NewRunId(store, run.id) && FreshItems(plan.items, [])
    requires forall j: nat, k: nat | j != k :: out.stamps(j).0 != out.stamps(k).0
    ensures var created, batch := CreatePlan(store, run, plan, conversation, out), Admitted(run.(steps := []), plan);
      && (created.Some? <==> batch.Some?)
      && (created.Some? ==>
            var now := Hydrate(created.value.store, run.id);
            && now.Some? && created.value.flight == None
            && now.value == Planned(run, batch.value, plan, conversation).(events := now.value.events))
  {
    hide Persist, Hydrate, Told, FreshItems, PlannedBatch, Admitted, RunOk, Installing, NewRunId, FirstState, Planned, Reread;
    var empty := run.(steps := [], events := []);
    SameKeysSameBatch(run.(steps := []), empty, plan);
    if PlannedBatch(empty, plan).Some? {
      var steps := PlannedBatch(empty, plan).value;
      var log, status := Installing([], empty, plan), FirstStatus(steps, plan, conversation);
      InstallingOk(empty, plan, []);
      var planned := FirstState(run, steps, plan, status);
      FirstStateSound(run, plan, steps, status, log, out);
      EventSound(planned, out.stamps, PlanEvent, "本轮语义判决：", log);
      var noted := AddEvent(planned, out.stamps, PlanEvent, "本轮语义判决：");
      ToldSound(noted, plan, out, log);
      ToldIs(noted, plan, out);
      PlannedIs(run, steps, plan, conversation);
      CreatedReads(store, Told(noted, plan, out), log, out.ticks(0));
    }
  }

  lemma CreatedReads(store: Store, run: Run, log: seq<Effect>, tick: Tick)
    requires NewRunId(store, run.id) && RunOk(run, log)
    ensures var now := Hydrate(Persist(store, run, tick), run.id); now.Some? && now.value == run.(events := now.value.events)
  {
    hide Hydrate, Persist, StepOk, FinishedRests, GraphOk;
    var w := World(store, None, log);
    HydrateAfterPersist(store, run, tick);
    FilterNone(OfRun(run.id), store.steps);
    FieldsRead(w, run);
    SoundRunHas(run, log);
    assert forall i | 0 <= i < |run.steps| :: run.steps[i] in run.steps;
    assert Reread(w, run).steps == run.steps;
  }
}
