/**
 Missions, from their creation on, in which the engine does not keep what one would expect of it: one
 approval and two sends, an authorized write that starts unapproved, a pause that is lost, and a
 finished step that waits for a rewound observer.
 */
module MissionWitnesses {
  import opened Prelude
  import opened Values
  import opened AgentTypes
  import opened References
  import opened ReferenceLaws
  import opened WorkflowGraph
  import opened Planning
  import opened Recovery
  import opened Runs
  import opened NodeLaws
  import opened Collections
  import opened RunStore
  import opened Mission
  import opened MissionInvariant
  import opened MissionSave
  import opened MissionPasses
  import opened MissionMoves
  import opened MissionOps
  import opened MissionExecute
  import opened MissionFlight
  import opened MissionReplan
  import opened MissionRestore
  import opened MissionRuns
  import opened MissionProgress
  import opened MissionTheorems
  import opened WitnessPlans
  import Verifier

  // ---------- What a witness draws from outside ----------

  function Longest(events: seq<Event>): (n: nat)
    ensures forall e | e in events :: |e.id| <= n
  {
    if events == [] then 0
    else
      var n := Longest(events[1..]);
      if |events[0].id| > n then |events[0].id| else n
  }

  function Repeated(c: char, n: nat): (s: string)
    ensures |s| == n
  {
    seq(n, _ => c)
  }

  /** Ids longer than all that are in use, and each longer than the one before. */
  function NewStamps(events: seq<Event>): Stamps { (k: nat) => (Repeated('x', Longest(events) + 1 + k), 0) }

  lemma StampLength(events: seq<Event>, k: nat)
    ensures |NewStamps(events)(k).0| == Longest(events) + 1 + k
  {
    assert NewStamps(events)(k) == (Repeated('x', Longest(events) + 1 + k), 0);
  }

  lemma NewStampsAreFresh(events: seq<Event>)
    ensures FreshStamps(NewStamps(events), events)
  {
    forall k: nat
      ensures |NewStamps(events)(k).0| == Longest(events) + 1 + k
    {
      StampLength(events, k);
    }
  }

  function OutsideOf(run: Run): Outside { Outside(NewStamps(run.events), (k: nat) => Tick(0, ""), "") }

  const NO_GOAL: Verifier.GoalSpec := Verifier.GoalSpec([], "", "", "", [], [])

  /** An advance by an active user that brings no plan of its own; the timer, if there is one, has run out. */
  function Going(probe: Probe): AdvanceInput {
    AdvanceInput(true, true, Plan([], TurnDecision(Chat, false), false, NO_GOAL, ""), probe, None, false, false, None, None)
  }

  // ---------- Reaching one world from another ----------

  lemma {:induction false} OneMoreOp(w: World, id: string, ops: seq<Op>, op: Op)
    requires Possible(w, id, ops)
    requires var last := Exec(w, id, ops); Hydrate(last.store, id).Some? && Allowed(last, Hydrate(last.store, id).value, op)
    ensures Possible(w, id, ops + [op]) && Exec(w, id, ops + [op]) == Apply(Exec(w, id, ops), id, op)
    decreases |ops|
  {
    hide Apply, Allowed, Hydrate;
    if ops == [] {
      assert [op][1..] == [];
      assert Exec(Apply(w, id, op), id, []) == Apply(w, id, op);
      assert ops + [op] == [op];
    } else {
      assert (ops + [op])[1..] == ops[1..] + [op] && (ops + [op])[0] == ops[0];
      OneMoreOp(Apply(w, id, ops[0]), id, ops[1..], op);
    }
  }

  lemma ReachedNext(w: World, stored: Run, op: Op)
    requires Reachable(w, stored.id) && Hydrate(w.store, stored.id) == Some(stored) && Allowed(w, stored, op)
    ensures Reachable(Apply(w, stored.id, op), stored.id)
  {
    hide Apply, Allowed, Hydrate, CreatePlan, NewRunId, FreshItems, Possible, Exec;
    var id := stored.id;
    var store: Store, run: Run, plan: Plan, conversation: bool, out: Outside, ops: seq<Op> :|
      run.id == id && Reaches(store, run, plan, conversation, out, ops, w);
    OneMoreOp(CreatePlan(store, run, plan, conversation, out).value, id, ops, op);
    assert Reaches(store, run, plan, conversation, out, ops + [op], Apply(w, id, op));
  }

  // ---------- Undisturbed missions ----------

  /** No event is an instruction or the mark of a restore: both begin with the same character. */
  predicate Unmarked(events: seq<Event>) { forall e | e in events :: e.message != "" && e.message[0] != '用' }

  predicate PlainTitles(steps: seq<Step>) { forall s | s in steps :: IsPlainTitle(s.title) }

  lemma {:induction false} NothingPending(candidates: seq<Event>, events: seq<Event>)
    requires Unmarked(candidates)
    ensures PendingAmong(candidates, events) == None
    decreases |candidates|
  {
    if candidates != [] {
      var e := candidates[|candidates| - 1];
      assert STEER_MARK[0] == '用';
      assert e in candidates && !StartsWith(e.message, STEER_MARK);
      NothingPending(candidates[..|candidates| - 1], events);
    }
  }

  lemma NeverRestored(events: seq<Event>)
    requires Unmarked(events)
    ensures !HasMark(events, RESTORE_MARK)
  {
    assert RESTORE_MARK[0] == '用';
  }

  predicate NoneStopped(steps: seq<Step>) { forall s | s in steps :: s.status != Skipped && s.key != "" }

  /** The mission as it is stored, undisturbed and with time left. */
  ghost predicate Stands(w: World, run: Run) {
    && Hydrate(w.store, run.id) == Some(run) && run.expiresAt > 0
    && run.stopReason == "" && Unmarked(run.events) && PlainTitles(run.steps) && NoneStopped(run.steps)
  }

  /** A save of such a mission stores its steps as they are. */
  lemma SavedAsIs(w: World, stored: Run, run: Run, tick: Tick)
    requires Hydrate(w.store, run.id) == Some(stored) && stored.id == run.id
    requires NoneStopped(stored.steps) && NoneStopped(run.steps) && Unmarked(stored.events) && Unmarked(run.events)
    ensures var now, saved := Reread(w, run), Saved(w, run);
      && Hydrate(Save(w, run, tick).store, run.id) == Some(now)
      && now.steps == saved.steps == run.steps && Unmarked(now.events) && Unmarked(saved.events)
      && SameFields(run, now) && SameFields(run, saved)
  {
    hide Hydrate, Persist;
    HydrateAfterPersist(w.store, run, tick);
    forall i | 0 <= i < |run.steps|
      ensures Saved(w, run).steps[i] == run.steps[i]
    {
      if StoredStep(Rows(w, run.id), run.steps[i].id).Some? {
        StoredStepIsHydrated(w, stored, run.steps[i].id);
      }
    }
    SavedUnmarked(w, stored, run);
  }

  predicate SameFields(was: Run, now: Run) {
    && now.id == was.id && Owner(now) == Owner(was) && now.status == was.status && now.stopReason == was.stopReason
    && now.expiresAt == was.expiresAt
  }

  lemma SavedUnmarked(w: World, stored: Run, run: Run)
    requires Hydrate(w.store, run.id) == Some(stored) && Unmarked(stored.events) && Unmarked(run.events)
    ensures Unmarked(Reread(w, run).events) && Unmarked(Saved(w, run).events)
  {
    HydratedEvents(w, run.id);
    var rows := EventRows(w, run.id);
    var kept := Filter(Unseen(run.events), rows);
    forall e | e in EventsOf(kept)
      ensures e in EventsOf(rows)
    {
      var i :| 0 <= i < |kept| && EventsOf(kept)[i] == e;
      assert kept[i] in rows;
      var j :| 0 <= j < |rows| && rows[j] == kept[i];
      assert EventsOf(rows)[j] == e;
    }
  }

  // ---------- Creating a mission ----------

  /** A plan of a turn that authorizes writes. */
  function PlanOf(items: seq<PlanItem>): Plan { Plan(items, TurnDecision(SpeechAct.Execute, true), false, NO_GOAL, "") }

  function PlannedFor(run: Run, items: seq<PlanItem>): seq<Step> { Planned(items, run.id, Owner(run)) }

  lemma PlannedAll(run: Run, items: seq<PlanItem>)
    requires Acceptable(NewSteps(items, run.id, Owner(run)), {})
    ensures PlannedBatch(run.(steps := [], events := []), PlanOf(items)) == Some(PlannedFor(run, items))
  {
    hide Acceptable;
    assert KeySet([]) == {};
    AllPermitted(AllWithReferences(NewSteps(items, run.id, Owner(run))));
  }

  const NO_STORE: Store := Store([], [], [], [])

  /** A mission created with this plan stands, and nothing was done outside yet. */
  lemma Created(run: Run, items: seq<PlanItem>) returns (w: World, stored: Run)
    requires run.expiresAt > 0 && FreshItems(items, []) && Acceptable(NewSteps(items, run.id, Owner(run)), {})
    requires PlainTitles(PlannedFor(run, items)) && NoneStopped(PlannedFor(run, items))
    ensures Reachable(w, run.id) && Stands(w, stored) && w.flight == None && w.log == []
    ensures stored.id == run.id && Owner(stored) == Owner(run) && stored.steps == PlannedFor(run, items)
    ensures stored.status == FirstStatus(PlannedFor(run, items), PlanOf(items), false) && HoldsFirst(w.store.checkpoints, stored)
  {
    hide Persist, Hydrate, PlannedBatch, PlannedFor, Narrows, FirstStatus, Acceptable, Possible, Exec, FreshItems, NewRunId, HoldsFirst;
    var plan, out := PlanOf(items), OutsideOf(run.(steps := [], events := []));
    var empty := run.(steps := [], events := []);
    PlannedAll(run, items);
    NewStampsAreFresh([]);
    var status := FirstStatus(PlannedFor(run, items), plan, false);
    var noted := AddEvent(FirstState(run, PlannedFor(run, items), plan, status), out.stamps, PlanEvent, "本轮语义判决：");
    var told := AddEvent(noted, out.stamps, PlanEvent, "已生成行动");
    assert Told(noted, plan, out) == told;
    w := World(Persist(NO_STORE, told, out.ticks(0)), None, []);
    NothingNarrowed(empty, items);
    assert CreatePlan(NO_STORE, run, plan, false, out) == Some(w);
    StartsReachable(run, plan, out, w);
    stored := FirstStored(told);
  }

  lemma NothingNarrowed(run: Run, items: seq<PlanItem>)
    ensures !Narrows(run, PlanOf(items))
  {
    hide Normalized;
  }

  lemma StartsReachable(run: Run, plan: Plan, out: Outside, w: World)
    requires CreatePlan(NO_STORE, run, plan, false, out) == Some(w) && FreshItems(plan.items, [])
    requires forall j: nat, k: nat | j != k :: out.stamps(j).0 != out.stamps(k).0
    ensures Reachable(w, run.id)
  {
    hide CreatePlan, FreshItems;
    assert Reaches(NO_STORE, run, plan, false, out, [], w);
  }

  /** The only checkpoint holds the run as it is. */
  predicate HoldsFirst(checkpoints: seq<Checkpoint>, run: Run) {
    && |checkpoints| == 1
    && var c := checkpoints[0];
       && c.id == "" && c.runId == run.id && c.ownerId == run.ownerId && c.teamId == run.teamId
       && |c.snapshot.steps| == |run.steps| && forall i | 0 <= i < |run.steps| :: c.snapshot.steps[i].step == run.steps[i]
  }

  lemma OneIsKept(c: Checkpoint)
    ensures KeepNewest([c], c.runId) == [c]
  {
    assert Filter(CheckpointOfRun(c.runId), [c]) == [c] by { FilterAll(CheckpointOfRun(c.runId), [c]); }
    assert [c][1..] == [] && SortBy(NewestFirst(), [c]) == [c];
    var keep := (k: Checkpoint) => k.runId != c.runId || exists r | r in [c] :: r.id == k.id;
    assert keep(c) by { assert c in [c]; }
    FilterAll(keep, [c]);
  }

  lemma FirstCheckpoint(run: Run, stored: Run)
    requires stored.id == run.id && Owner(stored) == Owner(run) && stored.steps == run.steps && NoneStopped(run.steps)
    ensures HoldsFirst(Persist(NO_STORE, run, Tick(0, "")).checkpoints, stored)
  {
    hide KeepNewest;
    assert Filter(OfRun(run.id), NO_STORE.steps) == [] && Filter(EventOfRun(run.id), NO_STORE.events) == [];
    var merged := Merged(run, [], []);
    assert merged.steps == run.steps;
    var snapshot := SnapshotOf(merged, 0);
    var none: seq<Checkpoint> := [];
    assert Filter(CheckpointOfRun(run.id), none) == none && SortBy(NewestFirst(), none) == none;
    var c := Checkpoint("", run.id, run.ownerId, run.teamId, StateHash(snapshot.run, snapshot.steps, EventIds(snapshot.events)), snapshot, 1);
    OneIsKept(c);
    assert none + [c] == [c];
    assert WithCheckpoint(none, merged, snapshot, Tick(0, "")) == [c];
  }

  lemma FirstStored(run: Run) returns (stored: Run)
    requires Unmarked(run.events) && NoneStopped(run.steps)
    ensures Hydrate(Persist(NO_STORE, run, Tick(0, "")), run.id) == Some(stored)
    ensures stored.steps == run.steps && Unmarked(stored.events) && SameFields(run, stored)
    ensures HoldsFirst(Persist(NO_STORE, run, Tick(0, "")).checkpoints, stored)
  {
    hide Persist, Hydrate, HoldsFirst;
    HydrateAfterPersist(NO_STORE, run, Tick(0, ""));
    var w := World(NO_STORE, None, []);
    stored := Reread(w, run);
    assert Filter(OfRun(run.id), NO_STORE.steps) == [] && Filter(EventOfRun(run.id), NO_STORE.events) == [];
    assert stored.steps == run.steps;
    FirstCheckpoint(run, stored);
  }

  // ---------- Operations on it ----------

  ghost predicate Reached(w: World, run: Run) { Reachable(w, run.id) && Stands(w, run) }

  lemma MayGoOn(w: World, run: Run, op: Op)
    requires Reached(w, run) && Allowed(w, run, op)
    ensures Reachable(Apply(w, run.id, op), run.id)
  {
    hide Apply, Allowed, Hydrate, Reachable;
    ReachedNext(w, run, op);
  }

  lemma SoundWhenReached(w: World, run: Run)
    requires Reached(w, run)
    ensures RunOk(run, w.log) && DistinctIds(run.steps) && (w.flight == None ==> !AnyRunning(run.steps))
    ensures forall s | s in run.steps :: s.signature == Sign(run.id, s.id, s.tool, s.input, Owner(run)) && s.risk == ToolRisk(s.tool)
  {
    hide Reachable, Hydrate, LogOk, CompletedOk, CheckpointOk, FinishedRests, GraphOk;
    ReachableIsOk(w, run.id);
    assert forall s | s in run.steps :: StepOk(run, s, w.log);
  }

  lemma FreshForAll(run: Run, probe: Probe)
    requires !probe.Observe?
    ensures FreshStamps(OutsideOf(run).stamps, run.events) && FreshAdvance(Going(probe), run.steps)
  {
    NewStampsAreFresh(run.events);
  }

  /** The background runner takes up a step that is ready or queued. */
  function Beginning(run: Run, i: nat): Op
    requires i < |run.steps|
  {
    Begin(run.steps[i].id, Going(NoProbe), OutsideOf(run))
  }

  function Taken(s: Step): Step { s.(error := "", status := Running) }

  lemma Begun(w: World, run: Run, i: nat) returns (now: Run)
    requires Reached(w, run) && w.flight == None && run.status == InProgress && Final(run.steps)
    requires i < |run.steps| && run.steps[i].status in {Ready, Queued} && DependenciesSatisfied(run.steps[i], run.steps)
    ensures var w1 := Apply(w, run.id, Beginning(run, i));
      && Reached(w1, now) && w1.flight.Some? && w1.log == w.log + [StartedEffect(Taken(run.steps[i]))]
      && now.id == run.id && Owner(now) == Owner(run) && now.status == InProgress
      && now.steps == run.steps[i := Taken(run.steps[i])]
  {
    hide Hydrate, Persist, Reachable, Advance, Prepare, Preparing, PreparationThrows, DependenciesSatisfied, RunOk, Allowed;
    var out := OutsideOf(run);
    SoundWhenReached(w, run);
    FinalIsPrepared(w, run, out.stamps);
    IndexById(run.steps, i);
    BeginAllowed(w, run, i);
    MayGoOn(w, run, Beginning(run, i));
    var started := StartedRun(run, i, false, out);
    SavedAsIs(w, run, started, out.ticks(0));
    now := Reread(w, started);
    assert Apply(w, run.id, Beginning(run, i)) == TakeOff(w, started, i, run.steps[i].id, out.ticks(0));
    assert Save(w, started, out.ticks(0)).store == Persist(w.store, started, out.ticks(0));
  }

  lemma BeginAllowed(w: World, run: Run, i: nat)
    requires i < |run.steps| && w.flight == None
    ensures Allowed(w, run, Beginning(run, i))
  {
    FreshForAll(run, NoProbe);
  }

  /** The owner pauses the mission. */
  lemma PausedInFlight(w: World, run: Run) returns (now: Run)
    requires Reached(w, run) && run.status == InProgress
    ensures var w1 := Apply(w, run.id, Suspend(Owner(run), OutsideOf(run)));
      && Reachable(w1, run.id) && w1.flight == w.flight && now.id == run.id && now.status == Paused
      && Hydrate(w1.store, run.id) == Some(now)
  {
    hide Hydrate, Persist, Reachable;
    var out := OutsideOf(run);
    FreshForAll(run, NoProbe);
    MayGoOn(w, run, Suspend(Owner(run), out));
    HydrateAfterPersist(w.store, PausedRun(run, out), out.ticks(0));
    now := Reread(w, PausedRun(run, out));
  }

  // ---------- A pause that is lost ----------

  lemma SingleStep(run: Run, item: PlanItem)
    requires IsPlain(item)
    ensures var s := NewStep(item, run.id, Owner(run));
      && Acceptable(NewSteps([item], run.id, Owner(run)), {}) && FreshItems([item], [])
      && PlannedFor(run, [item]) == [s] && PlainTitles([s]) && NoneStopped([s])
      && s.input == Obj(Nil) && HasNoReferences(s.input) && s.dependsOn == []
  {
    PlainPlanned(item, run.id, Owner(run));
  }

  /** A mission is created, its step starts, the owner pauses, the action fails: the mission is no longer paused. */
  lemma APauseIsLost(run: Run) returns (paused: World, failed: World)
    requires run.expiresAt > 0
    ensures Reachable(paused, run.id) && Reachable(failed, run.id)
    ensures exists adv, out :: failed == Apply(paused, run.id, Finish(Err("timeout"), adv, out))
    ensures Hydrate(paused.store, run.id).Some? && Hydrate(paused.store, run.id).value.status == Paused
    ensures Hydrate(failed.store, run.id).Some? && Hydrate(failed.store, run.id).value.status != Paused
  {
    hide Hydrate, Reachable, Apply, Stands, PlannedFor, NewSteps, Acceptable, WorldOk, Allowed, InFlight, FreshItems, FinishQueued;
    SingleStep(run, SEARCH);
    var w0, stored := Created(run, [SEARCH]);
    var started := StartedPlain(w0, stored, SEARCH);
    var w1 := Apply(w0, run.id, Beginning(stored, 0));
    var stopped := PausedInFlight(w1, started);
    paused := Apply(w1, run.id, Suspend(Owner(started), OutsideOf(started)));
    failed := FailsWhilePaused(paused, stopped);
  }

  lemma StartedPlain(w: World, stored: Run, item: PlanItem) returns (now: Run)
    requires Reached(w, stored) && w.flight == None && stored.status == InProgress && IsPlain(item)
    requires stored.steps == [NewStep(item, stored.id, Owner(stored))] && ToolRisk(item.tool) == Read
    ensures var w1 := Apply(w, stored.id, Beginning(stored, 0));
      Reached(w1, now) && w1.flight.Some? && now.id == stored.id && now.status == InProgress
  {
    hide Hydrate, Reachable, Apply, Stands;
    SingleStep(stored, item);
    now := Begun(w, stored, 0);
  }

  lemma FailsWhilePaused(w: World, stored: Run) returns (failed: World)
    requires Reachable(w, stored.id) && Hydrate(w.store, stored.id) == Some(stored) && stored.status == Paused && w.flight.Some?
    ensures Reachable(failed, stored.id)
    ensures exists adv, out :: failed == Apply(w, stored.id, Finish(Err("timeout"), adv, out))
    ensures Hydrate(failed.store, stored.id).Some? && Hydrate(failed.store, stored.id).value.status != Paused
  {
    hide Hydrate, Reachable, WorldOk, InFlight, FreshAdvance, FreshStamps, FinishQueued;
    var adv, out := Going(NoProbe), OutsideOf(stored);
    ReachableIsOk(w, stored.id);
    FreshForAll(stored, NoProbe);
    Standing(w, stored, out);
    StopIsKeptIff(w, stored, w.flight.value, Err("timeout"), adv, out);
    ReachedNext(w, stored, Finish(Err("timeout"), adv, out));
    failed := Apply(w, stored.id, Finish(Err("timeout"), adv, out));
  }

  // ---------- One approval, two sends ----------

  /** The owner asks for the step with its signature, with or without a new approval. */
  function Asking(run: Run, i: nat, approved: bool): Op
    requires i < |run.steps|
  {
    MissionRuns.Op.Execute(Owner(run), run.steps[i].id, run.steps[i].signature, approved, Ok(Undefined), Going(NoProbe), OutsideOf(run))
  }

  function InQueue(s: Step): Step { s.(error := "", status := Queued, approved := true) }

  predicate Queueable(run: Run, i: nat, approved: bool) {
    && i < |run.steps| && run.status in {AwaitingConfirmation, InProgress, RunFailed}
    && var s := run.steps[i];
       s.risk == External && HasNoReferences(s.input) && s.dependsOn == [] && s.status in {NeedsConfirmation, Failed} && (approved || s.approved)
  }

  lemma Enqueued(w: World, run: Run, i: nat, approved: bool) returns (now: Run)
    requires Reached(w, run) && w.flight == None && Queueable(run, i, approved)
    ensures var w1 := Apply(w, run.id, Asking(run, i, approved));
      && Reached(w1, now) && w1.flight == None && w1.log == w.log + [QueuedEffect(InQueue(run.steps[i]), approved)]
      && now.id == run.id && Owner(now) == Owner(run) && now.status == InProgress
      && now.steps == run.steps[i := InQueue(run.steps[i])]
  {
    hide Hydrate, Persist, Reachable, RunOk, Apply, Collect, HasNoReferences, Merged;
    var out := OutsideOf(run);
    AskingAllowed(w, run, i, approved);
    MayGoOn(w, run, Asking(run, i, approved));
    IsQueued(w, run, i, approved);
    var queued := QueuedRun(run, i, approved, out);
    SavedAsIs(w, run, queued, out.ticks(0));
    now := Reread(w, queued);
  }

  lemma IsQueued(w: World, run: Run, i: nat, approved: bool)
    requires Reached(w, run) && Queueable(run, i, approved)
    ensures var out := OutsideOf(run);
      Apply(w, run.id, Asking(run, i, approved)) == Enqueue(w, QueuedRun(run, i, approved, out), i, approved, out.ticks(0))
  {
    hide Hydrate, Persist, Reachable, RunOk, RunNow, Collect, QueuedRun, Enqueue;
    SoundWhenReached(w, run);
    IndexById(run.steps, i);
    NotRefused(run, i, OutsideOf(run));
  }

  lemma AskingAllowed(w: World, run: Run, i: nat, approved: bool)
    requires i < |run.steps| && w.flight == None
    ensures Allowed(w, run, Asking(run, i, approved))
  {
    FreshForAll(run, NoProbe);
  }

  lemma NotRefused(run: Run, i: nat, out: Outside)
    requires i < |run.steps| && run.status in {AwaitingConfirmation, InProgress, RunFailed} && run.expiresAt > 0
    requires var s := run.steps[i]; HasNoReferences(s.input) && s.dependsOn == [] && s.status != Skipped
    ensures !Refused(run, i, 0)
  {
  }

  /** The server restarts while the step runs. */
  lemma Rebooted(w: World, run: Run, i: nat) returns (now: Run)
    requires Reached(w, run) && i < |run.steps| && run.steps[i].status == Running
    ensures var w1 := Apply(w, run.id, Reboot(NewStamps(run.events)));
      && Reached(w1, now) && w1.flight == None && w1.log == w.log
      && now.id == run.id && Owner(now) == Owner(run) && now.status == RunFailed && AllInterrupted(run.steps, now.steps)
  {
    hide Hydrate, Reachable, RecoverRows, Interrupted;
    var stamps := NewStamps(run.events);
    NewStampsAreFresh(run.events);
    MayGoOn(w, run, Reboot(stamps));
    now := RunAfterRestart(w, run, stamps);
    forall e | e in now.events
      ensures e.message != "" && e.message[0] != '用'
    {
      var k := RestartedEvent(w, run, EventRows(Restart(w, stamps), run.id), e, stamps);
    }
    StillPlain(run.steps, now.steps);
  }

  lemma StillPlain(was: seq<Step>, now: seq<Step>)
    requires AllInterrupted(was, now) && PlainTitles(was) && NoneStopped(was)
    ensures PlainTitles(now) && NoneStopped(now)
  {
    forall s | s in now
      ensures s.title != "" && s.title[0] != '用' && s.status != Skipped && s.key != ""
    {
      var i :| 0 <= i < |now| && now[i] == s;
      assert was[i] in was;
    }
  }

  /** What the log counts after the step was queued, started, queued again without approval, and started again. */
  lemma CountedTwice(first: Step, again: Step, sent: Step)
    requires sent == Taken(first) && sent == Taken(again) && sent.risk == External
    ensures var longer := [] + [QueuedEffect(first, true)] + [StartedEffect(sent)] + [QueuedEffect(again, false)] + [StartedEffect(sent)];
      Starts(longer, sent.id, sent.input) == 2 && Confirmations(longer, sent.id, sent.input) == 1
  {
    var id, input := sent.id, sent.input;
    var none: seq<Effect> := [];
    var a := none + [QueuedEffect(first, true)];
    var b := a + [StartedEffect(sent)];
    var c := b + [QueuedEffect(again, false)];
    CountAppend(none, QueuedEffect(first, true), id, input);
    assert Starts(a, id, input) == 0 && Confirmations(a, id, input) == 1;
    CountAppend(a, StartedEffect(sent), id, input);
    assert Starts(b, id, input) == 1 && Confirmations(b, id, input) == 1;
    CountAppend(b, QueuedEffect(again, false), id, input);
    assert Starts(c, id, input) == 1 && Confirmations(c, id, input) == 1;
    CountAppend(c, StartedEffect(sent), id, input);
  }

  lemma QueuedAndStarted(w: World, run: Run, s: Step, approved: bool) returns (w2: World, now: Run)
    requires Reached(w, run) && w.flight == None && run.steps == [s] && Queueable(run, 0, approved)
    ensures Reached(w2, now) && now.id == run.id && Owner(now) == Owner(run) && now.steps == [Taken(InQueue(s))]
    ensures w2.log == w.log + [QueuedEffect(InQueue(s), approved)] + [StartedEffect(Taken(InQueue(s)))]
  {
    hide Hydrate, Reachable, Apply, Stands, Collect;
    var queued := Enqueued(w, run, 0, approved);
    var w1 := Apply(w, run.id, Asking(run, 0, approved));
    assert queued.steps == [InQueue(s)];
    now := Begun(w1, queued, 0);
    w2 := Apply(w1, run.id, Beginning(queued, 0));
  }

  /**
   A mission is created, its external step approved and started; the server restarts; the step is asked
   for again without an approval, and started again: two sends on one approval.
   */
  lemma OneApprovalTwoSends(run: Run) returns (w: World, sent: Step)
    requires run.expiresAt > 0
    ensures Reachable(w, run.id) && sent.risk == External
    ensures Starts(w.log, sent.id, sent.input) == 2 && Confirmations(w.log, sent.id, sent.input) == 1
  {
    hide Hydrate, Reachable, Apply, Stands, PlannedFor, NewSteps, Acceptable, FreshItems, Starts, Confirmations, Collect;
    SingleStep(run, SEND);
    var s := NewStep(SEND, run.id, Owner(run));
    var w0, r0 := Created(run, [SEND]);
    var w2, r2 := QueuedAndStarted(w0, r0, s, true);
    var r3 := Rebooted(w2, r2, 0);
    var w3 := Apply(w2, run.id, Reboot(NewStamps(r2.events)));
    var failed := Interrupted(Taken(InQueue(s)));
    assert r3.steps == [failed];
    var r5;
    w, r5 := QueuedAndStarted(w3, r3, failed, false);
    sent := Taken(InQueue(s));
    CountedTwice(InQueue(s), InQueue(failed), sent);
  }

  // ---------- Reading and going on ----------

  /** The owner runs a step that only reads. */
  function Reading(run: Run, i: nat, result: Value, probe: Probe): Op
    requires i < |run.steps|
  {
    MissionRuns.Op.Execute(Owner(run), run.steps[i].id, run.steps[i].signature, false, Ok(result), Going(probe), OutsideOf(run))
  }

  function Finished(s: Step, result: Value): Step { s.(error := "", status := Done, result := Some(result)) }

  predicate Readable(run: Run, i: nat) {
    && i < |run.steps| && run.status == InProgress && (forall s | s in run.steps :: s.status != Failed)
    && var s := run.steps[i];
       s.risk == Read && s.status == Ready && HasNoReferences(s.input) && DependenciesSatisfied(s, run.steps)
  }

  /** The step is done and stored; what is left is to advance. */
  lemma HasRead(w: World, run: Run, i: nat, result: Value, probe: Probe) returns (w2: World, now: Run)
    requires Reached(w, run) && w.flight == None && Readable(run, i) && !probe.Observe?
    ensures Apply(w, run.id, Reading(run, i, result, probe)) == Advance(w2, run.id, Going(probe), OutsideOf(run), 2).world
    ensures Reachable(Apply(w, run.id, Reading(run, i, result, probe)), run.id)
    ensures Stands(w2, now) && w2.flight == None && w2.log == w.log + [StartedEffect(Taken(run.steps[i]))]
    ensures now.id == run.id && Owner(now) == Owner(run) && now.status == InProgress
    ensures now.steps == run.steps[i := Finished(run.steps[i], result)]
  {
    hide Hydrate, Persist, Reachable, RunOk, Advance, RunNow, Apply, DependenciesSatisfied, HasNoReferences, StartedRun, Reread;
    var out := OutsideOf(run);
    ReadingAllowed(w, run, i, result, probe);
    MayGoOn(w, run, Reading(run, i, result, probe));
    RunsNow(w, run, i, result, probe);
    w2, now := RanNow(w, run, i, result, probe);
  }

  lemma RunsNow(w: World, run: Run, i: nat, result: Value, probe: Probe)
    requires Reached(w, run) && Readable(run, i)
    ensures var out := OutsideOf(run);
      Apply(w, run.id, Reading(run, i, result, probe))
      == RunNow(w, StartedRun(run, i, false, out), i, Ok(result), Going(probe), out, 0).world
  {
    hide Hydrate, Reachable, RunOk, RunNow, Collect, DependenciesSatisfied, StartedRun;
    SoundWhenReached(w, run);
    IndexById(run.steps, i);
    NothingRefused(run, i);
  }

  lemma RanNow(w: World, run: Run, i: nat, result: Value, probe: Probe) returns (w2: World, now: Run)
    requires Stands(w, run) && w.flight == None && Readable(run, i)
    ensures var out := OutsideOf(run);
      RunNow(w, StartedRun(run, i, false, out), i, Ok(result), Going(probe), out, 0).world
      == Advance(w2, run.id, Going(probe), out, 2).world
    ensures Stands(w2, now) && w2.flight == None && w2.log == w.log + [StartedEffect(Taken(run.steps[i]))]
    ensures now.id == run.id && Owner(now) == Owner(run) && now.status == InProgress
    ensures now.steps == run.steps[i := Finished(run.steps[i], result)]
  {
    hide Hydrate, Persist, Advance, AllTerminal, Merged, DependenciesSatisfied, HasNoReferences;
    var out := OutsideOf(run);
    var started := StartedRun(run, i, false, out);
    SavedAsIs(w, run, started, out.ticks(0));
    var w1, saved := Save(w.(log := w.log + [StartedEffect(started.steps[i])]), started, out.ticks(0)), Saved(w, started);
    var finished := FinishedRun(saved, i, Ok(result), false, out);
    assert finished.steps == run.steps[i := Finished(run.steps[i], result)];
    SavedAsIs(w1, Reread(w, started), finished, out.ticks(1));
    now := Reread(w1, finished);
    w2 := Save(w1, finished, out.ticks(1));
  }

  lemma ReadingAllowed(w: World, run: Run, i: nat, result: Value, probe: Probe)
    requires i < |run.steps| && w.flight == None && !probe.Observe?
    ensures Allowed(w, run, Reading(run, i, result, probe))
  {
    FreshForAll(run, probe);
  }

  lemma NothingRefused(run: Run, i: nat)
    requires Readable(run, i) && run.expiresAt > 0 && NoneStopped(run.steps)
    ensures !Refused(run, i, 0)
  {
    NothingBlocks(run.steps[i].dependsOn, run.steps);
  }

  lemma {:induction false} NothingBlocks(keys: seq<string>, steps: seq<Step>)
    requires forall s | s in steps :: s.status != Failed && s.status != Skipped
    ensures FirstBlocking(keys, steps) == ""
  {
    if keys != [] {
      NothingBlocks(keys[1..], steps);
    }
  }

  lemma {:induction false} PreparedUnmarked(run: Run, n: nat, stamps: Stamps)
    requires n <= |run.steps| && Unmarked(run.events) && PlainTitles(run.steps)
    ensures Unmarked(PrepareFirst(run, n, Owner(run), stamps).events)
    decreases n
  {
    hide Resolve, HasNoReferences, DependenciesSatisfied;
    if n > 0 {
      PreparedUnmarked(run, n - 1, stamps);
      assert run.steps[n - 1] in run.steps;
    }
  }

  /** Advancing a mission that still has a step to take up stores the prepared run. */
  lemma WentOn(w: World, run: Run, j: nat, probe: Probe, out: Outside) returns (now: Run)
    requires Stands(w, run) && run.status == InProgress && !PreparationThrows(run)
    requires var p := Prepare(run, Owner(run), out.stamps).steps;
      j < |p| && p[j].status == Ready && DependenciesSatisfied(p[j], p) && NoneStopped(p) && PlainTitles(p)
    ensures var w1 := Advance(w, run.id, Going(probe), out, 2).world;
      && Stands(w1, now) && w1.flight == w.flight && w1.log == Preparing(w, run).log
      && now.id == run.id && Owner(now) == Owner(run) && now.status == InProgress
      && now.steps == Prepare(run, Owner(run), out.stamps).steps
  {
    hide Hydrate, Persist, Prepare, Fillings, PreparationThrows, DependenciesSatisfied, StartsWith;
    var p, w0 := Prepare(run, Owner(run), out.stamps), Preparing(w, run);
    NextIsExecute(run, j, out.stamps);
    SavedAsIs(w0, run, p.(status := InProgress), out.ticks(2));
    now := Reread(w0, p.(status := InProgress));
    assert Advance(w, run.id, Going(probe), out, 2).world == Save(w0, p.(status := InProgress), out.ticks(2));
  }

  lemma NextIsExecute(run: Run, j: nat, stamps: Stamps)
    requires run.status == InProgress && run.stopReason == "" && Unmarked(run.events) && PlainTitles(run.steps)
    requires var p := Prepare(run, Owner(run), stamps).steps; j < |p| && p[j].status == Ready && DependenciesSatisfied(p[j], p)
    ensures var p := Prepare(run, Owner(run), stamps); NodeOf(p) == ExecuteNode && Unmarked(p.events)
  {
    hide DependenciesSatisfied;
    PreparedUnmarked(run, |run.steps|, stamps);
    var p := Prepare(run, Owner(run), stamps);
    assert p == PrepareFirst(run, |run.steps|, Owner(run), stamps);
    NothingPending(p.events, p.events);
    assert p.steps[j] in p.steps && |TIMER_MARK| > 0;
  }

  // ---------- A finished step that waits for a rewound observer ----------

  function Pair(run: Run, a: PlanItem, b: PlanItem): seq<Step> {
    [NewStep(a, run.id, Owner(run)), NewStep(b, run.id, Owner(run))]
  }

  lemma ObservationStands(run: Run)
    ensures var items, steps := [OBSERVE, LIST], Pair(run, OBSERVE, LIST);
      && Acceptable(NewSteps(items, run.id, Owner(run)), {}) && FreshItems(items, []) && PlannedFor(run, items) == steps
      && PlainTitles(steps) && NoneStopped(steps)
  {
    hide Acceptable, PlannedFor, FreshItems, PlainTitles, NoneStopped, NewStep, NewSteps;
    var user := Owner(run);
    ObservationPlanned(run.id, user);
    PairsAreFine();
    NewStepFields(OBSERVE, run.id, user);
    NewStepFields(LIST, run.id, user);
    PairStands(OBSERVE, LIST, NewStep(OBSERVE, run.id, user), NewStep(LIST, run.id, user));
    SamePlan(run, [OBSERVE, LIST]);
  }

  lemma SamePlan(run: Run, items: seq<PlanItem>)
    ensures PlannedFor(run, items) == Planned(items, run.id, Owner(run))
  {
  }

  lemma PairStands(a: PlanItem, b: PlanItem, x: Step, y: Step)
    requires IsPair(a, b) && x.key == a.key && x.title == a.title && y.key == b.key && y.title == b.title
    requires x.status != Skipped && y.status != Skipped
    ensures FreshItems([a, b], []) && PlainTitles([x, y]) && NoneStopped([x, y])
  {
    hide IsPlainTitle;
  }

  predicate AllDone(steps: seq<Step>) { forall s | s in steps :: s.status == Done }

  lemma AllDoneIsFinal(run: Run)
    requires AllDone(run.steps)
    ensures Final(run.steps)
  {
  }

  lemma {:induction false} NothingPropagated(run: Run, n: nat, stamps: Stamps)
    requires n <= |run.steps| && AllDone(run.steps)
    ensures PropagateFirst(run, n, stamps) == run
    decreases n
  {
    if n > 0 {
      NothingPropagated(run, n - 1, stamps);
      assert run.steps[n - 1] in run.steps;
    }
  }

  lemma AllDoneIsEvaluated(run: Run)
    requires run.status == InProgress && run.stopReason == "" && Unmarked(run.events) && AllDone(run.steps)
    ensures NodeOf(run) == EvaluateNode
  {
    NothingPending(run.events, run.events);
    assert |TIMER_MARK| > 0;
  }

  /** When everything is done an observer may ask to wait. */
  lemma Waits(w: World, run: Run, time: string, out: Outside) returns (now: Run)
    requires Stands(w, run) && run.status == InProgress && AllDone(run.steps)
    ensures var w1 := Advance(w, run.id, Going(WaitUntil(time)), out, 2).world;
      && Hydrate(w1.store, run.id) == Some(now) && w1.flight == w.flight
      && now.id == run.id && now.status == InProgress && now.stopReason == TIMER_MARK + time
      && now.steps == run.steps && Unmarked(now.events)
  {
    hide Hydrate, Persist, Prepare, Preparing, PreparationThrows, Propagate, NodeOf, Final;
    AllDoneIsFinal(run);
    FinalIsPrepared(w, run, out.stamps);
    AllDoneIsEvaluated(run);
    NothingRecovered(run, out);
    PropagatesNothing(run, out.stamps);
    var waiting := WaitingUntil(run, time, out);
    SavedAsIs(w, run, waiting, out.ticks(2));
    now := Reread(w, waiting);
    assert Advance(w, run.id, Going(WaitUntil(time)), out, 2).world == Save(w, waiting, out.ticks(2));
  }

  lemma PropagatesNothing(run: Run, stamps: Stamps)
    requires AllDone(run.steps)
    ensures Propagate(run, stamps) == run
  {
    NothingPropagated(run, |run.steps|, stamps);
  }

  lemma NothingRecovered(run: Run, out: Outside)
    requires AllDone(run.steps)
    ensures Recover(run, out) == (run, NoRecovery)
  {
    forall k | 0 <= k < |run.steps|
      ensures run.steps[k].status == Done
    {
      assert run.steps[k] in run.steps;
    }
  }

  /** The timer runs out and the observer is rewound. */
  lemma IsRewound(w: World, run: Run, time: string) returns (now: Run)
    requires Reachable(w, run.id) && Hydrate(w.store, run.id) == Some(run) && w.flight == None
    requires run.status == InProgress && run.stopReason == TIMER_MARK + time && Unmarked(run.events)
    requires AllDone(run.steps) && NoneStopped(run.steps) && RewindTarget(run.steps) == Some(0)
    ensures var w1 := Apply(w, run.id, Move(Going(NoProbe), OutsideOf(run)));
      && Reachable(w1, run.id) && Hydrate(w1.store, run.id) == Some(now) && now.steps == Rewound(run, 0, OutsideOf(run)).steps
  {
    hide Hydrate, Persist, Reachable, Prepare, Preparing, PreparationThrows, RewindTarget, Final, RewoundStep;
    var out := OutsideOf(run);
    AllDoneIsFinal(run);
    FinalIsPrepared(w, run, out.stamps);
    FreshForAll(run, NoProbe);
    ReachedNext(w, run, Move(Going(NoProbe), out));
    var rewound := Rewound(run, 0, out);
    RewoundStands(run, out);
    SavedAsIs(w, run, rewound, out.ticks(0));
    now := Reread(w, rewound);
    assert Apply(w, run.id, Move(Going(NoProbe), out)) == Save(w, rewound, out.ticks(0));
  }

  lemma RewoundStands(run: Run, out: Outside)
    requires run.steps != [] && NoneStopped(run.steps) && Unmarked(run.events)
    ensures var now := Rewound(run, 0, out); NoneStopped(now.steps) && Unmarked(now.events) && now.id == run.id
  {
  }

  /** The observer and the step waiting for it, in the states `a` and `b`. */
  predicate IsObservation(run: Run, a: Step, b: Step) {
    && run.steps == [a, b] && a.key == "a" && b.key == "bb" && a.tool == ProspectGetSearchProgress
    && b.tool == ProspectListCandidates && a.dependsOn == [] && b.dependsOn == ["a"]
    && a.input == OBSERVED && b.input == Obj(Nil) && a.risk == Read && b.risk == Read
  }

  lemma ObservationIsFinal(run: Run, a: Step, b: Step)
    requires IsObservation(run, a, b)
    ensures Final(run.steps) && HasNoReferences(a.input) && HasNoReferences(b.input)
  {
    ObservedHasNoReferences();
    EmptyHasNoReferences();
  }

  lemma Observes(w: World, run: Run) returns (w2: World, now: Run)
    requires Reached(w, run) && w.flight == None && run.status == InProgress && run.steps == Pair(run, OBSERVE, LIST)
    ensures Reached(w2, now) && w2.flight == None && now.id == run.id && Owner(now) == Owner(run) && now.status == InProgress
    ensures now.steps == [Finished(run.steps[0], Null), run.steps[1]]
  {
    hide Hydrate, Persist, Reachable, Apply, Advance, Stands, HasNoReferences, Prepare, Preparing, PreparationThrows, Final;
    var a, b := run.steps[0], run.steps[1];
    ObservationIsFinal(run, a, b);
    var w1, done := HasRead(w, run, 0, Null, NoProbe);
    ObservationIsFinal(done, Finished(a, Null), b);
    var out := OutsideOf(run);
    FinalIsPrepared(w1, done, out.stamps);
    StandsMeans(w1, done);
    assert done.steps[0] in done.steps && done.steps[0].key == "a";
    now := WentOn(w1, done, 1, NoProbe, out);
    w2 := Apply(w, run.id, Reading(run, 0, Null, NoProbe));
  }

  lemma StandsMeans(w: World, run: Run)
    requires Stands(w, run)
    ensures NoneStopped(run.steps) && PlainTitles(run.steps) && Unmarked(run.events) && Hydrate(w.store, run.id) == Some(run)
  {
  }

  lemma ListsAndWaits(w: World, run: Run) returns (w2: World, now: Run)
    requires Reached(w, run) && w.flight == None && run.status == InProgress && |run.steps| == 2
    requires IsObservation(run, run.steps[0], run.steps[1]) && run.steps[0].status == Done && run.steps[1].status == Ready
    ensures Reachable(w2, run.id) && Hydrate(w2.store, run.id) == Some(now) && w2.flight == None && now.id == run.id
    ensures now.status == InProgress && now.stopReason == TIMER_MARK + "t" && Unmarked(now.events)
    ensures now.steps == [run.steps[0], Finished(run.steps[1], Null)]
  {
    hide Hydrate, Persist, Reachable, Apply, Advance, Stands, HasNoReferences;
    var a, b := run.steps[0], run.steps[1];
    ObservationIsFinal(run, a, b);
    assert a in run.steps && DependenciesSatisfied(b, run.steps);
    var w1, done := HasRead(w, run, 1, Null, WaitUntil("t"));
    assert done.steps == [a, Finished(b, Null)];
    now := Waits(w1, done, "t", OutsideOf(run));
    w2 := Apply(w, run.id, Reading(run, 1, Null, WaitUntil("t")));
  }

  lemma {:induction false} ObserverIsTheTarget(run: Run)
    requires |run.steps| == 2 && IsObservation(run, run.steps[0], run.steps[1]) && AllDone(run.steps)
    ensures RewindTarget(run.steps) == Some(0)
  {
    hide Observed;
    var steps := run.steps;
    assert steps[0] in steps && steps[1] in steps;
    FirstOfTwo(steps, ProspectGetSearchProgress);
    XIsObserved(steps[0]);
  }

  lemma FirstOfTwo(steps: seq<Step>, tool: Tool)
    requires |steps| == 2 && steps[0].status == Done && steps[0].tool == tool && steps[1].tool != tool
    ensures LastDone(steps, tool) == 0
  {
    assert steps[..1] == [steps[0]] && LastDone([steps[0]], tool) == 0;
  }

  lemma XIsObserved(s: Step)
    requires s.tool == ProspectGetSearchProgress && s.input == OBSERVED
    ensures Observed(s) == "x"
  {
    hide Trim;
    AlreadyTrimmed("x");
    assert Field(s.input, "runId") == Str("x");
  }

  lemma ListWaitsForTheObserver(run: Run)
    requires |run.steps| == 2 && IsObservation(run, run.steps[0], run.steps[1]) && AllDone(run.steps)
    ensures DistinctKeys(run.steps) && DoneClosed(run.steps) && ObserverIsNeeded(run.steps, run.steps[0].key)
  {
    assert run.steps[0] in run.steps && run.steps[1] in run.steps;
    assert |run.steps[0].key| != |run.steps[1].key|;
  }

  /**
   A mission is created, an observer and a step that waits for it are done, the observer asks to wait,
   the timer runs out: the finished step now waits for a step that is ready again.
   */
  lemma ADoneStepLosesItsFooting(run: Run) returns (w: World, rewound: World)
    requires run.expiresAt > 0
    ensures Reachable(w, run.id) && Reachable(rewound, run.id)
    ensures exists adv, out :: rewound == Apply(w, run.id, Move(adv, out))
    ensures Hydrate(w.store, run.id).Some? && DoneClosed(Hydrate(w.store, run.id).value.steps)
    ensures Hydrate(rewound.store, run.id).Some? && !DoneClosed(Hydrate(rewound.store, run.id).value.steps)
  {
    hide Hydrate, Reachable, Apply, Stands, PlannedFor, Acceptable, FreshItems, HasNoReferences, Rewound, RewindTarget, Advance;
    ObservationStands(run);
    var w0, r0 := Created(run, [OBSERVE, LIST]);
    var w1, r1 := Observes(w0, r0);
    var r2;
    w, r2 := ListsAndWaits(w1, r1);
    ObserverIsTheTarget(r2);
    var r3 := IsRewound(w, r2, "t");
    rewound := Apply(w, run.id, Move(Going(NoProbe), OutsideOf(r2)));
    ListWaitsForTheObserver(r2);
    RewindKeepsClosureIff(r2, 0, OutsideOf(r2));
  }

  // ---------- An authorized write that starts unapproved ----------

  lemma CallStands(run: Run)
    ensures var items, user := [LOOKUP, CALL], Owner(run); var steps := [NewStep(LOOKUP, run.id, user), AuthorizedCall(run.id, user)];
      && Acceptable(NewSteps(items, run.id, user), {}) && FreshItems(items, []) && PlannedFor(run, items) == steps
      && PlainTitles(steps) && NoneStopped(steps)
  {
    hide Acceptable, PlannedFor, FreshItems, PlainTitles, NoneStopped, NewStep, NewSteps;
    var user := Owner(run);
    CallPlanned(run.id, user);
    PairsAreFine();
    NewStepFields(LOOKUP, run.id, user);
    NewStepFields(CALL, run.id, user);
    PairStands(LOOKUP, CALL, NewStep(LOOKUP, run.id, user), AuthorizedCall(run.id, user));
    SamePlan(run, [LOOKUP, CALL]);
  }

  /** The call once the lookup has told it its verb: ready, and approved unless it must be confirmed a second time. */
  function FilledIn(run: Run, call: Step, v: Value): Step {
    call.(input := CallOf(v), signature := Sign(run.id, call.id, call.tool, CallOf(v), Owner(run)),
          approved := call.approved && !RequiresSecondaryConfirmation(call.tool, CallOf(v)))
  }

  lemma CallIsPrepared(run: Run, call: Step, v: Value, stamps: Stamps)
    requires |run.steps| == 2 && run.steps[0].key == "a" && run.steps[0].status == Done && run.steps[0].result == Some(Found(v))
    requires run.steps[1] == call && call.tool == ApiWrite && call.risk == Write && call.status == Ready
    requires call.input == CALL.input && call.dependsOn == ["a"] && v != Undefined
    ensures Prepare(run, Owner(run), stamps).steps == [run.steps[0], FilledIn(run, call, v)] && !PreparationThrows(run)
    ensures DependenciesSatisfied(call, run.steps)
  {
    hide Resolve, RequiresSecondaryConfirmation, Collect;
    CallPlanned(run.id, Owner(run));
    CallIsFilledIn(run.steps, v);
    assert run.steps[0] in run.steps;
    assert NeedsPreparation(call, run.steps);
    assert PreparedStep(call, run, Owner(run)) == FilledIn(run, call, v);
    var p := Prepare(run, Owner(run), stamps);
    assert p.steps[0] == PreparedStep(run.steps[0], run, Owner(run)) == run.steps[0];
    assert p.steps[1] == PreparedStep(run.steps[1], run, Owner(run));
  }

  /** A lookup that can run, and a call whose verb refers to it. */
  predicate IsLookupAndCall(steps: seq<Step>, lookup: Step, call: Step) {
    && steps == [lookup, call]
    && lookup.key == "a" && lookup.dependsOn == [] && lookup.risk == Read && lookup.status == Ready && HasNoReferences(lookup.input)
    && call.tool == ApiWrite && call.risk == Write && call.status == Ready && call.input == CALL.input && call.dependsOn == ["a"]
  }

  lemma LooksUp(w: World, run: Run, lookup: Step, call: Step, v: Value) returns (w2: World, now: Run)
    requires Reached(w, run) && w.flight == None && run.status == InProgress && v != Undefined && Whole(w.log)
    requires IsLookupAndCall(run.steps, lookup, call)
    ensures Reached(w2, now) && w2.flight == None && now.id == run.id && Owner(now) == Owner(run) && now.status == InProgress
    ensures now.steps == [Finished(lookup, Found(v)), FilledIn(run, call, v)] && Whole(w2.log)
  {
    hide Hydrate, Persist, Reachable, Apply, Advance, Prepare, Preparing, PreparationThrows, HasNoReferences, FilledIn, Found;
    var w1, done := HasRead(w, run, 0, Found(v), NoProbe);
    var out := OutsideOf(run);
    assert done.steps == [Finished(lookup, Found(v)), call];
    CallIsPrepared(done, call, v, out.stamps);
    FilledInKeeps(done, call, v);
    FilledInOf(done, run, call, v);
    StaysSatisfied(done, call, v);
    now := WentOn(w1, done, 1, NoProbe, out);
    w2 := Apply(w, run.id, Reading(run, 0, Found(v), NoProbe));
    FillingsAreWhole(w1, done);
  }

  lemma FillingsAreWhole(w: World, run: Run)
    requires Whole(w.log)
    ensures Whole(Preparing(w, run).log)
  {
  }

  lemma FilledInOf(a: Run, b: Run, call: Step, v: Value)
    requires a.id == b.id && Owner(a) == Owner(b)
    ensures FilledIn(a, call, v) == FilledIn(b, call, v)
  {
  }

  lemma FilledInKeeps(run: Run, call: Step, v: Value)
    ensures var d := FilledIn(run, call, v);
      d.id == call.id && d.status == call.status && d.title == call.title && d.key == call.key && d.dependsOn == call.dependsOn
      && d.risk == call.risk && d.input == CallOf(v)
  {
  }

  lemma StaysSatisfied(run: Run, call: Step, v: Value)
    requires |run.steps| == 2 && run.steps[0].key == "a" && run.steps[0].status == Done && call.dependsOn == ["a"]
    ensures DependenciesSatisfied(FilledIn(run, call, v), [run.steps[0], FilledIn(run, call, v)])
  {
    var steps := [run.steps[0], FilledIn(run, call, v)];
    assert steps[0] in steps;
  }

  lemma DeletionIsUnapproved(run: Run, call: Step)
    requires call.tool == ApiWrite
    ensures !FilledIn(run, call, Str("DELETE")).approved
  {
    Destructive();
  }

  /**
   A mission is created in a turn that authorizes writes; the looked-up verb makes the authorized call a
   deletion, its approval is withdrawn, and the background runner starts it all the same.
   */
  lemma AnAuthorizedWriteStartsUnapproved(run: Run) returns (planned: World, w: World, sent: Step)
    requires run.expiresAt > 0
    ensures Reachable(planned, run.id) && Hydrate(planned.store, run.id).Some?
    ensures exists s | s in Hydrate(planned.store, run.id).value.steps :: s.id == sent.id && s.risk == Write && s.approved
    ensures Reachable(w, run.id) && StartedEffect(sent) in w.log && PutBackEffect(sent.id) !in w.log
    ensures sent.risk == Write && !sent.approved
  {
    hide Hydrate, Reachable, Apply, Stands, PlannedFor, Acceptable, FreshItems, FilledIn, HasMark, NewStep, AuthorizedCall;
    CallStands(run);
    var r0;
    planned, r0 := Created(run, [LOOKUP, CALL]);
    var call := AuthorizedCall(run.id, Owner(run));
    LookupIsReady(run.id, Owner(run));
    assert call in r0.steps;
    var w1, r1 := LooksUp(planned, r0, NewStep(LOOKUP, run.id, Owner(run)), call, Str("DELETE"));
    FilledInKeeps(r0, call, Str("DELETE"));
    DeletionIsUnapproved(r0, call);
    w, sent := StartsAsItStands(w1, r1);
    StandsMeans(planned, r0);
  }

  lemma LookupIsReady(runId: string, user: Actor)
    ensures var a, b := NewStep(LOOKUP, runId, user), AuthorizedCall(runId, user);
      && FirstStatus([a, b], PlanOf([LOOKUP, CALL]), false) == InProgress
      && b.risk == Write && b.approved && b.status == Ready && b.dependsOn == ["a"] && b.tool == ApiWrite
      && IsLookupAndCall([a, b], a, b)
  {
    NewStepFields(LOOKUP, runId, user);
    NewStepFields(CALL, runId, user);
    EmptyHasNoReferences();
    var a, b := NewStep(LOOKUP, runId, user), AuthorizedCall(runId, user);
    assert [a, b][0] == a && a in [a, b] && a.status == Ready;
    assert AnyReady([a, b]);
  }

  /** The second step is started with the approval it has. */
  lemma StartsAsItStands(w: World, run: Run) returns (w2: World, sent: Step)
    requires Reached(w, run) && w.flight == None && run.status == InProgress
    requires |run.steps| == 2 && run.steps[0].key == "a" && run.steps[0].status == Done
    requires var s := run.steps[1]; s.dependsOn == ["a"] && s.input == Calling("DELETE") && s.status == Ready && s.risk == Write
    ensures Reachable(w2, run.id) && StartedEffect(sent) in w2.log && PutBackEffect(sent.id) !in w2.log && sent == Taken(run.steps[1])
  {
    hide Hydrate, Reachable, Apply, Stands, HasMark, HasNoReferences;
    PlainMember("method", "DELETE");
    TheCallIsFinal(run);
    var now := Begun(w, run, 1);
    w2 := Apply(w, run.id, Beginning(run, 1));
    StandsMeans(w2, now);
    NeverRestored(now.events);
    NothingPutBack(w2, now, run.steps[1].id);
    sent := Taken(run.steps[1]);
  }

  /** Without the mark of a restore nothing was put back. */
  lemma NothingPutBack(w: World, run: Run, stepId: string)
    requires Reachable(w, run.id) && Hydrate(w.store, run.id) == Some(run) && !HasMark(run.events, RESTORE_MARK)
    ensures PutBackEffect(stepId) !in w.log
  {
    hide Reachable, Hydrate, RunOk, CompletedOk, CheckpointOk, FlightOk, HasMark;
    ReachableIsOk(w, run.id);
  }

  lemma TheCallIsFinal(run: Run)
    requires |run.steps| == 2 && run.steps[0].status == Done
    requires run.steps[1].dependsOn == [run.steps[0].key] && HasNoReferences(run.steps[1].input)
    ensures Final(run.steps) && DependenciesSatisfied(run.steps[1], run.steps)
  {
    hide HasNoReferences;
    assert run.steps[0] in run.steps;
  }
}
