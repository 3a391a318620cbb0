/** Restoring a checkpoint and recovering after a restart keep the world sound. */
module MissionRestore {
  import opened Prelude
  import opened Values
  import opened AgentTypes
  import opened References
  import opened WorkflowGraph
  import opened GraphLaws
  import opened Planning
  import opened Recovery
  import opened Runs
  import opened Collections
  import opened RunStore
  import opened Mission
  import opened MissionInvariant
  import opened MissionSave
  import opened MissionPasses
  import opened MissionMoves
  import opened MissionOps
  import opened MissionFlight
  import Verifier

  // ---------- Restoring ----------

  lemma {:induction false} FoundCheckpoint(checkpoints: seq<Checkpoint>, id: string, run: Run)
    ensures FindCheckpoint(checkpoints, id, run).Some? ==>
      FindCheckpoint(checkpoints, id, run).value in checkpoints && FindCheckpoint(checkpoints, id, run).value.runId == run.id
  {
    if checkpoints != [] {
      FoundCheckpoint(checkpoints[1..], id, run);
    }
  }

  lemma RestoredRests(snapshot: seq<Step>, steps: seq<Step>)
    requires FinishedRests(snapshot) && |steps| == |snapshot|
    requires forall i | 0 <= i < |steps| :: SameIdentity(snapshot[i], steps[i])
    requires forall i | 0 <= i < |steps| :: steps[i].status != Running && (steps[i].status == Done <==> snapshot[i].status == Done)
    ensures FinishedRests(steps) && !AnyRunning(steps)
  {
    forall s, key | s in steps && (s.status == Done || s.status == Running) && key in s.dependsOn
      ensures RestsOn(key, steps)
    {
      var i :| 0 <= i < |steps| && steps[i] == s;
      assert snapshot[i] in snapshot && RestsOn(key, snapshot);
      var t :| t in snapshot && t.key == key && (t.status == Done || IsPolled(t.tool));
      var j :| 0 <= j < |snapshot| && snapshot[j] == t;
      assert steps[j] in steps;
    }
  }

  /** A restored step, or the same kept skipped. */
  lemma RestoredStepOk(run: Run, now: Run, row: StepRecord, s: Step, log: seq<Effect>)
    requires SnapshotStepOk(WithKey(row.step), log) && StepSaved(RestoredStep(run, row), s)
    requires now.id == run.id && Owner(now) == Owner(run) && (IsPutBack(s) ==> PutBackEffect(s.id) in log)
    ensures StepOk(now, s, log) && SameIdentity(WithKey(row.step), s)
    ensures s.status != Running && (s.status == Done <==> row.step.status == Done)
  {
  }

  lemma RestoredEvents(stored: Run, c: Checkpoint, out: Outside, log: seq<Effect>)
    requires CheckpointOk(c, stored.events, log) && UniqueEvents(stored.events) && FreshStamps(out.stamps, stored.events)
    ensures var now := RestoredRun(stored, c, out);
      && HasMark(now.events, RESTORE_MARK) && UniqueEvents(now.events) && SameIdSameEvent(now.events, stored.events)
  {
    hide GraphOk, FinishedRests, SnapshotStepOk, AnyReady, HasMark;
    var kept, now := EventsOf(c.snapshot.events), RestoredRun(stored, c, out).events;
    var (id, time) := out.stamps(|kept|);
    assert now == kept + [Event(id, PlanEvent, RESTORE_MARK, time)];
    assert forall e | e in kept :: e in stored.events;
    MarkedAtTheEnd(kept, Event(id, PlanEvent, RESTORE_MARK, time));
  }

  lemma MarkedAtTheEnd(events: seq<Event>, e: Event)
    requires StartsWith(e.message, RESTORE_MARK)
    ensures HasMark(events + [e], RESTORE_MARK)
  {
    assert e in events + [e];
  }

  lemma RestoredStepsOk(stored: Run, c: Checkpoint, saved: Run, log: seq<Effect>)
    requires CheckpointOk(c, stored.events, log) && saved.id == stored.id && Owner(saved) == Owner(stored)
    requires saved.iteration == c.snapshot.run.iteration && saved.maxIterations == c.snapshot.run.maxIterations
    requires StepsSaved(RestoredSteps(stored, c.snapshot.steps), saved.steps) && UniqueEvents(saved.events)
    requires forall s | s in saved.steps && IsPutBack(s) :: PutBackEffect(s.id) in log
    ensures RunOk(saved, log) && !AnyRunning(saved.steps)
  {
    var rows := c.snapshot.steps;
    var snapshot := StepsOf(rows);
    forall i | 0 <= i < |rows|
      ensures StepOk(saved, saved.steps[i], log) && SameIdentity(snapshot[i], saved.steps[i])
      ensures saved.steps[i].status != Running && (saved.steps[i].status == Done <==> snapshot[i].status == Done)
    {
      assert snapshot[i] in snapshot && saved.steps[i] in saved.steps;
      assert StepSaved(RestoredSteps(stored, rows)[i], saved.steps[i]);
      RestoredStepOk(stored, saved, rows[i], saved.steps[i], log);
    }
    IdentitiesKept(snapshot, saved.steps);
    SameNamesSameGraph(snapshot, saved.steps);
    RestoredRests(snapshot, saved.steps);
  }

  lemma RestoringNotes(run: Run, log: seq<Effect>)
    ensures OnlyNotes(Restoring(run)) && LeftClosed(log + [RestoredEffect(true)])
    ensures forall s | s in run.steps && IsPutBack(s) :: PutBackEffect(s.id) in Restoring(run)
    ensures run.status == Completed ==> LeftClosed(log + Restoring(run))
  {
    ClosedAtTheEnd(log);
    ClosedAtTheEnd(log + PutBack(run.steps));
    assert log + PutBack(run.steps) + [RestoredEffect(true)] == log + (PutBack(run.steps) + [RestoredEffect(true)]);
  }

  lemma ClosedAtTheEnd(log: seq<Effect>)
    ensures LeftClosed(log + [RestoredEffect(true)])
  {
    var longer := log + [RestoredEffect(true)];
    assert longer[|log|..] == [RestoredEffect(true)];
  }

  /** What the save makes of the restored run is sound over the longer log. */
  lemma RestoredSavable(w: World, stored: Run, c: Checkpoint, out: Outside)
    requires GroundOk(w, stored.id) && Hydrate(w.store, stored.id) == Some(stored) && FreshStamps(out.stamps, stored.events)
    requires c in w.store.checkpoints && c.runId == stored.id
    ensures var saved := Saved(w, RestoredRun(stored, c, out));
      && Savable(w, stored, saved, w.log + Restoring(saved)) && !AnyRunning(saved.steps) && saved.id == stored.id
  {
    hide Hydrate, RunOk, CheckpointOk, LogOk, Restoring, StepsSaved, RestoredSteps;
    var restored := RestoredRun(stored, c, out);
    var saved := Saved(w, restored);
    var more := Restoring(saved);
    SoundRunHas(stored, w.log);
    assert CheckpointOk(c, stored.events, w.log);
    RestoredEvents(stored, c, out, w.log);
    SavedEvents(w, stored, restored);
    CheckpointPersists(c, stored.events, stored.events, w.log, w.log + more);
    RestoringNotes(saved, w.log);
    SavedIsSaved(w, restored);
    RestoredStepsOk(stored, c, saved, w.log + more);
    LogPersists(w.log, stored.events, saved.events);
    NotesKeepLog(w.log, saved.events, more);
  }

  lemma SavedIsSaved(w: World, run: Run)
    ensures StepsSaved(run.steps, Saved(w, run).steps)
  {
  }

  /** The saved events are those of the writer and the store. */
  lemma SavedEvents(w: World, stored: Run, run: Run)
    requires Hydrate(w.store, run.id) == Some(stored) && SameIdSameEvent(run.events, stored.events)
    requires UniqueEvents(stored.events) && UniqueEvents(run.events)
    ensures var saved := Saved(w, run);
      && Grown(run.events, saved.events) && Grown(stored.events, saved.events)
      && UniqueEvents(saved.events) && SameIdSameEvent(saved.events, stored.events)
      && (HasMark(run.events, RESTORE_MARK) ==> HasMark(saved.events, RESTORE_MARK))
  {
    hide Hydrate, HasMark;
    HydratedEvents(w, run.id);
    var rows := EventRows(w, run.id);
    forall e, f | e in run.events && f in EventsOf(rows) && e.id == f.id
      ensures e == f
    {
      assert f in stored.events;
    }
    MergeLosesNoEvent(run.events, rows);
    MarkGrows(run.events, Saved(w, run).events);
  }

  lemma MarkGrows(a: seq<Event>, b: seq<Event>)
    requires Grown(a, b)
    ensures HasMark(a, RESTORE_MARK) ==> HasMark(b, RESTORE_MARK)
  {
  }

  lemma RestoreOk(w: World, stored: Run, user: Actor, checkpointId: string, active: bool, out: Outside)
    requires AtRest(w, stored, out) && FreshStamps(out.stamps, stored.events)
    ensures Later(stored, Restore(w, stored.id, user, checkpointId, active, out).world)
  {
    hide Persist, WorldOk, RestoredRun, FindCheckpoint, Restoring, RunOk, CheckpointOk, LogOk, CompletedOk;
    RestingIsOk(w, stored, out);
    FoundCheckpoint(w.store.checkpoints, checkpointId, stored);
    if FindCheckpoint(w.store.checkpoints, checkpointId, stored).Some? {
      var c := FindCheckpoint(w.store.checkpoints, checkpointId, stored).value;
      RestoredIsSaved(w, stored, c, out);
    }
  }

  lemma RestoredIsSaved(w: World, stored: Run, c: Checkpoint, out: Outside)
    requires AtRest(w, stored, out) && FreshStamps(out.stamps, stored.events) && c in w.store.checkpoints && c.runId == stored.id
    ensures var restored := RestoredRun(stored, c, out);
      Later(stored, Save(w.(log := w.log + Restoring(Saved(w, restored))), restored, out.ticks(0)))
  {
    hide Persist, WorldOk, RestoredRun, Restoring, RunOk, CheckpointOk, LogOk, CompletedOk, Savable, Hydrate;
    var restored := RestoredRun(stored, c, out);
    var saved := Saved(w, restored);
    var log := w.log + Restoring(saved);
    RestoredSavable(w, stored, c, out);
    RestoredName(stored, c, out);
    SavedTwice(w, restored);
    AlreadyMerged(w, restored, out.ticks(0));
    AtomicSaveIsOk(w, stored, saved, out.ticks(0), log);
    SavableEvents(w, stored, saved, log);
    SaveReads(w, stored, saved, out.ticks(0));
    SoundWorldRounds(Save(w, saved, out.ticks(0)).(flight := None, log := log), saved.id);
    assert Save(w.(log := log), restored, out.ticks(0)) == Save(w, saved, out.ticks(0)).(flight := None, log := log);
  }

  lemma SoundWorldRounds(w: World, id: string)
    requires WorldOk(w, id)
    ensures WithinRounds(Hydrate(w.store, id).value)
  {
  }

  lemma AlreadyMerged(w: World, run: Run, tick: Tick)
    requires Saved(w, Saved(w, run)) == Saved(w, run)
    ensures Persist(w.store, Saved(w, run), tick) == Persist(w.store, run, tick)
  {
  }

  lemma SavableEvents(w: World, stored: Run, run: Run, log: seq<Effect>)
    requires Savable(w, stored, run, log)
    ensures SameIdSameEvent(run.events, stored.events) && Hydrate(w.store, run.id) == Some(stored)
  {
  }

  lemma RestoredName(stored: Run, c: Checkpoint, out: Outside)
    ensures RestoredRun(stored, c, out).id == stored.id && Owner(RestoredRun(stored, c, out)) == Owner(stored)
  {
  }

  // ---------- Restarting: what happens to rows ----------

  /** The step after a restart. */
  function Interrupted(s: Step): Step {
    if s.status == Running then s.(status := Failed, error := INTERRUPTED) else s
  }

  predicate AllInterrupted(was: seq<Step>, now: seq<Step>) {
    |now| == |was| && forall i | 0 <= i < |now| :: now[i] == Interrupted(was[i])
  }

  predicate RowRestarted(was: StepRecord, now: StepRecord) {
    && now.runId == was.runId && now.createdAt == was.createdAt
    && now.step == Interrupted(was.step)
  }

  predicate RowsRestarted(was: seq<StepRecord>, now: seq<StepRecord>) {
    |now| == |was| && forall i | 0 <= i < |was| :: RowRestarted(was[i], now[i])
  }

  lemma {:induction false} FilterRestarted(was: seq<StepRecord>, now: seq<StepRecord>, id: string)
    requires RowsRestarted(was, now)
    ensures RowsRestarted(Filter(OfRun(id), was), Filter(OfRun(id), now))
  {
    if was != [] {
      assert RowsRestarted(was[1..], now[1..]);
      FilterRestarted(was[1..], now[1..], id);
      assert RowRestarted(was[0], now[0]);
    }
  }

  lemma {:induction false} InsertRestarted(r: StepRecord, s: StepRecord, was: seq<StepRecord>, now: seq<StepRecord>)
    requires RowRestarted(r, s) && RowsRestarted(was, now)
    ensures RowsRestarted(Insert(StepTime(), r, was), Insert(StepTime(), s, now))
  {
    if was != [] {
      assert RowRestarted(was[0], now[0]);
      assert RowsRestarted(was[1..], now[1..]);
      InsertRestarted(r, s, was[1..], now[1..]);
    }
  }

  lemma {:induction false} SortRestarted(was: seq<StepRecord>, now: seq<StepRecord>)
    requires RowsRestarted(was, now)
    ensures RowsRestarted(SortBy(StepTime(), was), SortBy(StepTime(), now))
  {
    if was != [] {
      assert RowRestarted(was[0], now[0]);
      assert RowsRestarted(was[1..], now[1..]);
      SortRestarted(was[1..], now[1..]);
      InsertRestarted(was[0], now[0], SortBy(StepTime(), was[1..]), SortBy(StepTime(), now[1..]));
    }
  }

  predicate RunRestarted(was: RunRecord, now: RunRecord) {
    now == was || now == was.(status := RunFailed)
  }

  predicate RunsRestarted(was: seq<RunRecord>, now: seq<RunRecord>) {
    |now| == |was| && forall i | 0 <= i < |was| :: RunRestarted(was[i], now[i])
  }

  lemma {:induction false} FindRestarted(was: seq<RunRecord>, now: seq<RunRecord>, id: string)
    requires RunsRestarted(was, now)
    ensures FindRun(now, id) == FindRun(was, id)
  {
  }

  predicate HasRunning(rows: seq<StepRecord>, id: string) {
    exists i :: 0 <= i < |rows| && rows[i].runId == id && rows[i].step.status == Running
  }

  predicate IsFailedRun(runs: seq<RunRecord>, id: string) {
    FindRun(runs, id) < 0 || runs[FindRun(runs, id)].status == RunFailed
  }

  /** The run's own row is what it was. */
  predicate SameRow(was: seq<RunRecord>, now: seq<RunRecord>, id: string) {
    |now| == |was| && (FindRun(was, id) >= 0 ==> now[FindRun(was, id)] == was[FindRun(was, id)])
  }

  /** The events the first `n` rows lead to. */
  ghost predicate NewEvents(was: seq<EventRecord>, now: seq<EventRecord>, stamps: Stamps) {
    && was <= now
    && forall i: nat | |was| <= i < |now| :: now[i].event.id == stamps(i).0 && now[i].event.message == INTERRUPTED
  }

  lemma {:induction false} RowsRecovered(store: Store, n: nat, stamps: Stamps, id: string)
    requires n <= |store.steps|
    ensures var r := RecoverRows(store, n, stamps);
      && RowsRestarted(store.steps[..n], r.steps[..n]) && RunsRestarted(store.runs, r.runs)
      && NewEvents(store.events, r.events, stamps) && r.checkpoints == store.checkpoints
      && (HasRunning(store.steps[..n], id) ==> IsFailedRun(r.runs, id))
      && (!HasRunning(store.steps[..n], id) ==> SameRow(store.runs, r.runs, id))
    decreases n
  {
    if n > 0 {
      RowsRecovered(store, n - 1, stamps, id);
      RowRecovered(store, n, stamps, id);
    }
  }

  lemma RowRecovered(store: Store, n: nat, stamps: Stamps, id: string)
    requires 0 < n <= |store.steps|
    requires var before := RecoverRows(store, n - 1, stamps);
      && RowsRestarted(store.steps[..n - 1], before.steps[..n - 1]) && RunsRestarted(store.runs, before.runs)
      && NewEvents(store.events, before.events, stamps) && before.checkpoints == store.checkpoints
      && (HasRunning(store.steps[..n - 1], id) ==> IsFailedRun(before.runs, id))
      && (!HasRunning(store.steps[..n - 1], id) ==> SameRow(store.runs, before.runs, id))
    ensures var r := RecoverRows(store, n, stamps);
      && RowsRestarted(store.steps[..n], r.steps[..n]) && RunsRestarted(store.runs, r.runs)
      && NewEvents(store.events, r.events, stamps) && r.checkpoints == store.checkpoints
      && (HasRunning(store.steps[..n], id) ==> IsFailedRun(r.runs, id))
      && (!HasRunning(store.steps[..n], id) ==> SameRow(store.runs, r.runs, id))
  {
    hide HasRunning, IsFailedRun, SameRow;
    var before, r := RecoverRows(store, n - 1, stamps), RecoverRows(store, n, stamps);
    var row := store.steps[n - 1];
    assert before.steps[n - 1..][0] == store.steps[n - 1..][0];
    forall i | 0 <= i < n
      ensures RowRestarted(store.steps[i], r.steps[i])
    {
      if i < n - 1 {
        assert RowRestarted(store.steps[..n - 1][i], before.steps[..n - 1][i]);
      }
    }
    RunningRecovered(store, before, r, n, id);
  }

  lemma OneMoreRow(rows: seq<StepRecord>, n: nat, id: string)
    requires 0 < n <= |rows|
    ensures HasRunning(rows[..n], id)
       <==> HasRunning(rows[..n - 1], id) || (rows[n - 1].runId == id && rows[n - 1].step.status == Running)
  {
  }

  lemma RunningRecovered(store: Store, before: Store, r: Store, n: nat, id: string)
    requires 0 < n <= |store.steps|
    requires RunsRestarted(store.runs, before.runs) && RunsRestarted(store.runs, r.runs)
    requires HasRunning(store.steps[..n - 1], id) ==> IsFailedRun(before.runs, id)
    requires !HasRunning(store.steps[..n - 1], id) ==> SameRow(store.runs, before.runs, id)
    requires var row := store.steps[n - 1];
      if row.step.status != Running || FindRun(before.runs, row.runId) < 0 then r.runs == before.runs
      else var i := FindRun(before.runs, row.runId); r.runs == before.runs[i := before.runs[i].(status := RunFailed)]
    ensures HasRunning(store.steps[..n], id) ==> IsFailedRun(r.runs, id)
    ensures !HasRunning(store.steps[..n], id) ==> SameRow(store.runs, r.runs, id)
  {
    OneMoreRow(store.steps, n, id);
    FindRestarted(store.runs, before.runs, id);
    FindRestarted(store.runs, r.runs, id);
    if HasRunning(store.steps[..n], id) {
      var i :| 0 <= i < n && store.steps[i].runId == id && store.steps[i].step.status == Running;
      if i < n - 1 {
        assert store.steps[..n - 1][i] == store.steps[i];
      }
    }
  }

  // ---------- Restarting: what happens to the run ----------

  /** A restart changes nothing of a run but its running steps, its status if there were any, and its events. */
  lemma RunAfterRestart(w: World, stored: Run, stamps: Stamps) returns (now: Run)
    requires Hydrate(w.store, stored.id) == Some(stored)
    ensures Hydrate(Restart(w, stamps).store, stored.id) == Some(now)
    ensures now == stored.(status := now.status, steps := now.steps, events := now.events)
    ensures AllInterrupted(stored.steps, now.steps)
    ensures forall e :: e in now.events <==> e in EventsOf(EventRows(Restart(w, stamps), stored.id))
    ensures now.status == stored.status || now.status == RunFailed
    ensures AnyRunning(stored.steps) ==> now.status == RunFailed
    ensures !AnyRunning(stored.steps) ==> now.status == stored.status
  {
    hide RecoverRows, AllInterrupted, RowsRestarted, HasRunning, AnyRunning, NewEvents;
    var store, r := w.store, Restart(w, stamps).store;
    var n, id := |store.steps|, stored.id;
    RowsRecovered(store, n, stamps, id);
    assert store.steps[..n] == store.steps && r.steps[..n] == r.steps;
    FindRestarted(store.runs, r.runs, id);
    FilterRestarted(store.steps, r.steps, id);
    SortRestarted(Filter(OfRun(id), store.steps), Filter(OfRun(id), r.steps));
    now := Hydrate(r, id).value;
    HydratedEvents(Restart(w, stamps), id);
    StepsOfRestarted(SortBy(StepTime(), Filter(OfRun(id), store.steps)), SortBy(StepTime(), Filter(OfRun(id), r.steps)));
    assert RunRestarted(store.runs[FindRun(store.runs, id)], r.runs[FindRun(r.runs, id)]);
    RunningRow(w, stored);
  }

  lemma StepsOfRestarted(was: seq<StepRecord>, now: seq<StepRecord>)
    requires RowsRestarted(was, now)
    ensures AllInterrupted(StepsOf(was), StepsOf(now))
  {
  }

  lemma RunningRow(w: World, stored: Run)
    requires Hydrate(w.store, stored.id) == Some(stored)
    ensures AnyRunning(stored.steps) <==> HasRunning(w.store.steps, stored.id)
  {
    hide HasRunning, AnyRunning;
    RunningStepHasRow(w, stored);
    RunningRowHasStep(w, stored);
  }

  lemma RunningStepHasRow(w: World, stored: Run)
    requires Hydrate(w.store, stored.id) == Some(stored)
    ensures AnyRunning(stored.steps) ==> HasRunning(w.store.steps, stored.id)
  {
    var was := SortBy(StepTime(), Filter(OfRun(stored.id), w.store.steps));
    if AnyRunning(stored.steps) {
      var s :| s in stored.steps && s.status == Running;
      var i :| 0 <= i < |stored.steps| && stored.steps[i] == s;
      assert was[i] in was && was[i] in w.store.steps;
    }
  }

  lemma RunningRowHasStep(w: World, stored: Run)
    requires Hydrate(w.store, stored.id) == Some(stored)
    ensures HasRunning(w.store.steps, stored.id) ==> AnyRunning(stored.steps)
  {
    var rows := w.store.steps;
    var was := SortBy(StepTime(), Filter(OfRun(stored.id), rows));
    if HasRunning(rows, stored.id) {
      var i :| 0 <= i < |rows| && rows[i].runId == stored.id && rows[i].step.status == Running;
      assert rows[i] in Filter(OfRun(stored.id), rows) && rows[i] in was;
      var j :| 0 <= j < |was| && was[j] == rows[i];
      assert stored.steps[j] in stored.steps;
    }
  }

  lemma EventsAfterRestart(w: World, stored: Run, now: Run, stamps: Stamps)
    requires Hydrate(w.store, stored.id) == Some(stored) && UniqueEvents(stored.events)
    requires forall e :: e in now.events <==> e in EventsOf(EventRows(Restart(w, stamps), stored.id))
    requires FreshStamps(stamps, stored.events)
    ensures Grown(stored.events, now.events) && UniqueEvents(now.events)
  {
    var r, id := Restart(w, stamps).store, stored.id;
    RowsRecovered(w.store, |w.store.steps|, stamps, id);
    HydratedEvents(w, id);
    var added := r.events[|w.store.events|..];
    assert r.events == w.store.events + added;
    FilterConcat(EventOfRun(id), w.store.events, added);
    var rows, kept, late := EventRows(Restart(w, stamps), id), EventRows(w, id), Filter(EventOfRun(id), added);
    assert rows == kept + late;
    forall e | e in stored.events
      ensures e in now.events
    {
      var i :| 0 <= i < |kept| && EventsOf(kept)[i] == e;
      assert EventsOf(rows)[i] == e;
    }
    forall e, f | e in now.events && f in now.events && e.id == f.id
      ensures e == f
    {
      var i := RestartedEvent(w, stored, rows, e, stamps);
      var j := RestartedEvent(w, stored, rows, f, stamps);
    }
  }

  /** An event after the restart is an old one, or the one its number stamped. */
  lemma RestartedEvent(w: World, stored: Run, rows: seq<EventRecord>, e: Event, stamps: Stamps) returns (i: int)
    requires Hydrate(w.store, stored.id) == Some(stored)
    requires rows == EventRows(Restart(w, stamps), stored.id) && e in EventsOf(rows)
    ensures i < 0 ==> e in stored.events
    ensures i < |Restart(w, stamps).store.events|
    ensures i >= 0 ==> Restart(w, stamps).store.events[i].event == e && e.id == stamps(i).0 && e.message == INTERRUPTED
  {
    var r, id := Restart(w, stamps).store, stored.id;
    RowsRecovered(w.store, |w.store.steps|, stamps, id);
    HydratedEvents(w, id);
    var k :| 0 <= k < |rows| && EventsOf(rows)[k] == e;
    assert rows[k] in rows;
    i :| 0 <= i < |r.events| && r.events[i] == rows[k];
    if i < |w.store.events| {
      assert w.store.events[i] == rows[k] && rows[k] in EventRows(w, id);
      var j :| 0 <= j < |EventRows(w, id)| && EventRows(w, id)[j] == rows[k];
      assert EventsOf(EventRows(w, id))[j] == e;
      i := -1;
    }
  }

  lemma StepsAfterRestart(stored: Run, now: Run, log: seq<Effect>)
    requires RunOk(stored, log) && Continues(stored, now) && UniqueEvents(now.events)
    requires AllInterrupted(stored.steps, now.steps)
    ensures RunOk(now, log) && !AnyRunning(now.steps)
  {
    forall i | 0 <= i < |now.steps|
      ensures StepKept(stored.steps, stored.steps[i], now.steps[i], now, log)
    {
      assert stored.steps[i] in stored.steps && StepOk(stored, stored.steps[i], log) && now.steps[i] == Interrupted(stored.steps[i]);
    }
    StepsKeptSound(stored, now, log);
    forall s | s in now.steps
      ensures s.status != Running
    {
      var i :| 0 <= i < |now.steps| && now.steps[i] == s;
    }
  }

  lemma CompletedAfterRestart(stored: Run, now: Run, log: seq<Effect>)
    requires CompletedOk(stored, log) && now.spec == stored.spec
    requires now.status == stored.status || now.status == RunFailed
    requires AnyRunning(stored.steps) ==> now.status == RunFailed
    requires AllInterrupted(stored.steps, now.steps)
    ensures CompletedOk(now, log)
  {
  }

  /** Whatever was running has failed, its run with it, and nothing else changed. */
  lemma RestartOk(w: World, stored: Run, stamps: Stamps)
    requires Hydrate(w.store, stored.id) == Some(stored) && GroundOk(w, stored.id) && FreshStamps(stamps, stored.events)
    ensures Later(stored, Restart(w, stamps))
  {
    hide Hydrate, RunOk, CompletedOk, CheckpointOk, LogOk, RecoverRows;
    SoundRunHas(stored, w.log);
    var now := RunAfterRestart(w, stored, stamps);
    EventsAfterRestart(w, stored, now, stamps);
    StepsAfterRestart(stored, now, w.log);
    CompletedAfterRestart(stored, now, w.log);
    LogPersists(w.log, stored.events, now.events);
    RowsRecovered(w.store, |w.store.steps|, stamps, stored.id);
    forall c | c in w.store.checkpoints && c.runId == stored.id
      ensures CheckpointOk(c, now.events, w.log)
    {
      CheckpointPersists(c, stored.events, now.events, w.log, w.log);
    }
  }
}
