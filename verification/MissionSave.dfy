/** Saving a sound run keeps the stored world sound. */
module MissionSave {
  import opened Prelude
  import opened Values
  import opened AgentTypes
  import opened References
  import opened WorkflowGraph
  import opened GraphLaws
  import opened Planning
  import opened Recovery
  import opened Runs
  import opened Collections
  import opened RunStore
  import opened Mission
  import opened MissionInvariant
  import Verifier

  function Rows(w: World, id: string): seq<StepRecord> { Filter(OfRun(id), w.store.steps) }

  function EventRows(w: World, id: string): seq<EventRecord> { Filter(EventOfRun(id), w.store.events) }

  /** The stored events are the events a stored run reads back with. */
  lemma HydratedEvents(w: World, id: string)
    requires Hydrate(w.store, id).Some?
    ensures forall e :: e in Hydrate(w.store, id).value.events <==> e in EventsOf(EventRows(w, id))
  {
    var rows := EventRows(w, id);
    var sorted := SortBy(EventRecordTime(), rows);
    forall e
      ensures e in EventsOf(sorted) <==> e in EventsOf(rows)
    {
      if e in EventsOf(sorted) {
        var i :| 0 <= i < |sorted| && EventsOf(sorted)[i] == e;
        assert sorted[i] in sorted && sorted[i] in rows;
        var j :| 0 <= j < |rows| && rows[j] == sorted[i];
        assert EventsOf(rows)[j] == e;
      }
      if e in EventsOf(rows) {
        var j :| 0 <= j < |rows| && EventsOf(rows)[j] == e;
        assert rows[j] in rows && rows[j] in sorted;
        var i :| 0 <= i < |sorted| && sorted[i] == rows[j];
        assert EventsOf(sorted)[i] == e;
      }
    }
  }

  /** What the run reads back as after a save. */
  function Reread(w: World, run: Run): Run { ReadBack(Saved(w, run)) }

  /** The save in terms of runs: which steps it changes and which events it keeps. */
  lemma SaveReads(w: World, stored: Run, run: Run, tick: Tick)
    requires Hydrate(w.store, run.id) == Some(stored) && SameIdSameEvent(run.events, stored.events)
    ensures Hydrate(Save(w, run, tick).store, run.id) == Some(Reread(w, run))
    ensures forall e :: e in Reread(w, run).events <==> e in run.events || e in stored.events
    ensures |Reread(w, run).events| >= |run.events|
  {
    HydrateAfterPersist(w.store, run, tick);
    HydratedEvents(w, run.id);
    var rows := EventRows(w, run.id);
    forall e, f | e in run.events && f in EventsOf(rows) && e.id == f.id
      ensures e == f
    {
      assert f in stored.events;
    }
    MergeLosesNoEvent(run.events, rows);
  }

  /** Merging what was merged changes nothing. */
  lemma SavedTwice(w: World, run: Run)
    ensures Saved(w, Saved(w, run)) == Saved(w, run)
  {
    hide SortBy;
    var rows, merged := EventRows(w, run.id), Saved(w, run).events;
    MergeLosesNoEvent(run.events, rows);
    forall r | r in rows
      ensures !Unseen(merged)(r)
    {
      EventIsMerged(run.events, rows, r);
    }
    FilterNone(Unseen(merged), rows);
    assert Saved(w, Saved(w, run)).steps == Saved(w, run).steps;
  }

  lemma EventIsMerged(events: seq<Event>, records: seq<EventRecord>, r: EventRecord)
    requires r in records
    ensures HasEventId(MergedEvents(events, records), r.event.id)
  {
    MergeLosesNoEvent(events, records);
    if HasEventId(events, r.event.id) {
      var e :| e in events && e.id == r.event.id;
      assert e in MergedEvents(events, records);
    } else {
      var kept := Filter(Unseen(events), records);
      assert r in kept;
      var i :| 0 <= i < |kept| && kept[i] == r;
      assert EventsOf(kept)[i] == r.event && r.event in events + EventsOf(kept);
    }
  }

  // ---------- What a save does to steps ----------

  /** Left as the writer had it, or kept skipped because it is stored as skipped. */
  predicate StepSaved(was: Step, now: Step) {
    now == was
    || (was.status != Done && was.status != Running && now == SkippedStep(was, now.error))
  }

  predicate StepsSaved(was: seq<Step>, now: seq<Step>) {
    |now| == |was| && forall i | 0 <= i < |was| :: StepSaved(was[i], now[i])
  }

  lemma SaveKeepsSteps(w: World, run: Run)
    requires forall s | s in run.steps :: s.key != ""
    ensures StepsSaved(run.steps, Reread(w, run).steps)
  {
  }

  lemma SavedFrom(was: seq<Step>, now: seq<Step>, s: Step) returns (t: Step)
    requires StepsSaved(was, now) && s in now
    ensures t in was && StepSaved(t, s)
  {
    var i :| 0 <= i < |now| && now[i] == s;
    t := was[i];
  }

  lemma SavedTo(was: seq<Step>, now: seq<Step>, s: Step) returns (t: Step)
    requires StepsSaved(was, now) && s in was
    ensures t in now && StepSaved(s, t)
  {
    var i :| 0 <= i < |was| && was[i] == s;
    t := now[i];
  }

  lemma GraphAfterSave(was: seq<Step>, now: seq<Step>, log: seq<Effect>)
    requires StepsSaved(was, now) && GraphOk(was, log)
    ensures GraphOk(now, log)
  {
    assert forall i | 0 <= i < |was| :: StepSaved(was[i], now[i]);
    SameNamesSameGraph(was, now);
  }

  lemma RestsAfterSave(was: seq<Step>, now: seq<Step>)
    requires StepsSaved(was, now) && FinishedRests(was)
    ensures FinishedRests(now)
  {
    forall s, key | s in now && (s.status == Done || s.status == Running) && key in s.dependsOn
      ensures RestsOn(key, now)
    {
      var s0 := SavedFrom(was, now, s);
      assert RestsOn(key, was);
      var t :| t in was && t.key == key && (t.status == Done || IsPolled(t.tool));
      var t1 := SavedTo(was, now, t);
    }
  }

  lemma DistinctAfterSave(was: seq<Step>, now: seq<Step>)
    requires StepsSaved(was, now) && DistinctIds(was) && DistinctKeys(was)
    ensures DistinctIds(now) && DistinctKeys(now)
  {
  }

  lemma StepsOkAfterSave(run: Run, now: Run, log: seq<Effect>)
    requires forall s | s in run.steps :: StepOk(run, s, log)
    requires StepsSaved(run.steps, now.steps)
    requires now.id == run.id && Owner(now) == Owner(run) && Grown(run.events, now.events)
    ensures forall s | s in now.steps :: StepOk(now, s, log)
  {
    forall s | s in now.steps
      ensures StepOk(now, s, log)
    {
      var t := SavedFrom(run.steps, now.steps, s);
    }
  }

  lemma SaveKeepsRunOk(w: World, stored: Run, run: Run, tick: Tick, log: seq<Effect>)
    requires Hydrate(w.store, run.id) == Some(stored) && SameIdSameEvent(run.events, stored.events)
    requires RunOk(run, log) && UniqueEvents(stored.events)
    ensures RunOk(Reread(w, run), log) && StepsSaved(run.steps, Reread(w, run).steps)
  {
    SaveReads(w, stored, run, tick);
    SaveKeepsSteps(w, run);
    var now := Reread(w, run);
    DistinctAfterSave(run.steps, now.steps);
    StepsOkAfterSave(run, now, log);
    RestsAfterSave(run.steps, now.steps);
    GraphAfterSave(run.steps, now.steps, log);
  }

  /** A completed run meets its objectives. */
  predicate Verified(run: Run) { run.status == Completed ==> Verifier.Complete(run.spec, run.steps) }

  lemma CompletionAfterSave(run: Run, now: Run, log: seq<Effect>)
    requires StepsSaved(run.steps, now.steps)
    requires now.status == run.status && now.spec == run.spec
    ensures CompletedOk(run, log) ==> CompletedOk(now, log)
    ensures Verified(run) ==> Verified(now)
  {
  }

  lemma SnapshotIsOk(run: Run, now: Run, log: seq<Effect>, tick: int)
    requires RunOk(now, log) && now.steps == ReadBackSteps(run.steps) && Grown(run.events, now.events) && WithinRounds(run)
    ensures CheckpointOk(Checkpoint("", "", "", "", StateHash(AsRecord(run), [], []), SnapshotOf(run, tick), 0), now.events, log)
  {
    assert StepsOf(StepRecords(run, tick)) == now.steps;
    assert EventsOf(EventRecords(run)) == run.events;
    forall s | s in now.steps
      ensures SnapshotStepOk(s, log)
    {
      assert StepOk(now, s, log);
    }
  }

  /** More events and a longer log leave a checkpoint sound. */
  lemma CheckpointPersists(c: Checkpoint, a: seq<Event>, b: seq<Event>, log: seq<Effect>, longer: seq<Effect>)
    requires CheckpointOk(c, a, log) && Grown(a, b) && log <= longer
    ensures CheckpointOk(c, b, longer)
  {
  }

  lemma SameSnapshotOk(a: Checkpoint, b: Checkpoint, events: seq<Event>, log: seq<Effect>)
    requires CheckpointOk(a, events, log) && a.snapshot == b.snapshot
    ensures CheckpointOk(b, events, log)
  {
  }

  lemma CheckpointsAfterSave(checkpoints: seq<Checkpoint>, run: Run, snapshot: Snapshot, tick: Tick)
    ensures forall c | c in WithCheckpoint(checkpoints, run, snapshot, tick) :: c in checkpoints || c.snapshot == snapshot
  {
  }

  lemma RereadSteps(w: World, run: Run)
    ensures Reread(w, run).steps == ReadBackSteps(Saved(w, run).steps)
    ensures forall e :: e in Reread(w, run).events <==> e in Saved(w, run).events
  {
  }

  lemma SavedRounds(w: World, run: Run, log: seq<Effect>)
    requires RunOk(run, log)
    ensures WithinRounds(Saved(w, run))
  {
  }

  lemma SaveKeepsCheckpoints(w: World, stored: Run, run: Run, tick: Tick, log: seq<Effect>)
    requires Hydrate(w.store, run.id) == Some(stored) && SameIdSameEvent(run.events, stored.events)
    requires RunOk(run, log) && UniqueEvents(stored.events)
    requires forall c | c in w.store.checkpoints && c.runId == run.id :: CheckpointOk(c, stored.events, w.log)
    requires w.log <= log
    ensures forall c | c in Save(w, run, tick).store.checkpoints && c.runId == run.id :: CheckpointOk(c, Reread(w, run).events, log)
  {
    hide Hydrate, CheckpointOk, RunOk, WithCheckpoint, Reread;
    SaveReads(w, stored, run, tick);
    SaveKeepsRunOk(w, stored, run, tick, log);
    var saved, now := Saved(w, run), Reread(w, run);
    RereadSteps(w, run);
    CheckpointsAfterSave(w.store.checkpoints, saved, SnapshotOf(saved, tick.now), tick);
    SavedRounds(w, run, log);
    SnapshotIsOk(saved, now, log, tick.now);
    forall c | c in Save(w, run, tick).store.checkpoints && c.runId == run.id
      ensures CheckpointOk(c, now.events, log)
    {
      if c in w.store.checkpoints {
        CheckpointPersists(c, stored.events, now.events, w.log, log);
      } else {
        SameSnapshotOk(Checkpoint("", "", "", "", StateHash(AsRecord(saved), [], []), SnapshotOf(saved, tick.now), 0), c, now.events, log);
      }
    }
  }

  /** Everything but the awaited action. */
  ghost predicate GroundOk(w: World, id: string) {
    match Hydrate(w.store, id)
    case None => false
    case Some(run) =>
      && run.id == id
      && RunOk(run, w.log)
      && LogOk(w.log, run.events)
      && CompletedOk(run, w.log)
      && forall c | c in w.store.checkpoints && c.runId == id :: CheckpointOk(c, run.events, w.log)
  }

  /** A run that may be saved over `stored`: sound itself, and losing no event. */
  ghost predicate Savable(w: World, stored: Run, run: Run, log: seq<Effect>) {
    && Hydrate(w.store, run.id) == Some(stored)
    && UniqueEvents(stored.events)
    && (forall c | c in w.store.checkpoints && c.runId == run.id :: CheckpointOk(c, stored.events, w.log))
    && w.log <= log
    && SameIdSameEvent(run.events, stored.events)
    && RunOk(run, log)
    && (LogOk(log, run.events) || LogOk(log, stored.events))
    && CompletedOk(run, log)
  }

  lemma SaveIsOk(w: World, stored: Run, run: Run, tick: Tick, log: seq<Effect>)
    requires Savable(w, stored, run, log)
    ensures GroundOk(Save(w, run, tick).(log := log), run.id)
    ensures Hydrate(Save(w, run, tick).store, run.id) == Some(Reread(w, run))
  {
    SaveReads(w, stored, run, tick);
    SaveKeepsRunOk(w, stored, run, tick, log);
    CompletionAfterSave(run, Reread(w, run), log);
    SaveKeepsCheckpoints(w, stored, run, tick, log);
    if LogOk(log, run.events) {
      LogPersists(log, run.events, Reread(w, run).events);
    } else {
      LogPersists(log, stored.events, Reread(w, run).events);
    }
  }

  /** The usual case: nothing runs in the background and the caller's run extends the stored events. */
  lemma AtomicSaveIsOk(w: World, stored: Run, run: Run, tick: Tick, log: seq<Effect>)
    requires Savable(w, stored, run, log) && !AnyRunning(run.steps)
    ensures WorldOk(Save(w, run, tick).(flight := None, log := log), run.id)
  {
    SaveIsOk(w, stored, run, tick, log);
    SaveKeepsSteps(w, run);
    NoneRunningAfterSave(run.steps, Reread(w, run).steps);
  }

  lemma NoneRunningAfterSave(was: seq<Step>, now: seq<Step>)
    requires StepsSaved(was, now) && !AnyRunning(was)
    ensures !AnyRunning(now)
  {
  }

  // ---------- Which stored rows a save looks at ----------

  lemma {:induction false} StoredStepIsARow(records: seq<StepRecord>, id: string) returns (r: StepRecord)
    requires StoredStep(records, id).Some?
    ensures r in records && r.step == StoredStep(records, id).value && r.step.id == id
  {
    if records[|records| - 1].step.id == id {
      r := records[|records| - 1];
    } else {
      r := StoredStepIsARow(records[..|records| - 1], id);
    }
  }

  /** A stored row is one of the steps the run reads back with. */
  lemma StoredStepIsHydrated(w: World, stored: Run, id: string)
    requires Hydrate(w.store, stored.id) == Some(stored) && StoredStep(Rows(w, stored.id), id).Some?
    ensures WithKey(StoredStep(Rows(w, stored.id), id).value) in stored.steps
    ensures StoredStep(Rows(w, stored.id), id).value.id == id
  {
    var r := StoredStepIsARow(Rows(w, stored.id), id);
    var sorted := SortBy(StepTime(), Rows(w, stored.id));
    assert r in sorted;
    var i :| 0 <= i < |sorted| && sorted[i] == r;
    assert stored.steps[i] == WithKey(r.step);
  }

  /** For a run with the stored steps' ids, only what is stored as skipped is kept skipped. */
  lemma RereadExact(w: World, stored: Run, run: Run, i: nat)
    requires Hydrate(w.store, run.id) == Some(stored) && DistinctIds(stored.steps)
    requires i < |run.steps| == |stored.steps| && run.steps[i].id == stored.steps[i].id && run.steps[i].key != ""
    ensures var now := Reread(w, run).steps[i];
      now == run.steps[i] || (stored.steps[i].status == Skipped && now == SkippedStep(run.steps[i], now.error))
  {
    var id := run.steps[i].id;
    assert stored.id == run.id;
    if StoredStep(Rows(w, run.id), id).Some? {
      StoredStepIsHydrated(w, stored, id);
      var t := WithKey(StoredStep(Rows(w, run.id), id).value);
      var j :| 0 <= j < |stored.steps| && stored.steps[j] == t;
      assert j == i;
    }
  }

  lemma {:induction false} RowIsFound(records: seq<StepRecord>, r: StepRecord)
    requires r in records
    ensures StoredStep(records, r.step.id).Some?
  {
    if records[|records| - 1].step.id != r.step.id {
      RowIsFound(records[..|records| - 1], r);
    }
  }

  /** The row a save looks up for a stored step is that step. */
  lemma StoredStepExists(w: World, stored: Run, j: nat)
    requires Hydrate(w.store, stored.id) == Some(stored) && DistinctIds(stored.steps) && j < |stored.steps|
    ensures StoredStep(Rows(w, stored.id), stored.steps[j].id).Some?
    ensures WithKey(StoredStep(Rows(w, stored.id), stored.steps[j].id).value) == stored.steps[j]
  {
    var rows := Rows(w, stored.id);
    var sorted := SortBy(StepTime(), rows);
    assert sorted[j] in sorted;
    RowIsFound(rows, sorted[j]);
    StoredStepIsHydrated(w, stored, stored.steps[j].id);
    var t := WithKey(StoredStep(rows, stored.steps[j].id).value);
    var k :| 0 <= k < |stored.steps| && stored.steps[k] == t;
    assert k == j;
  }

  /**
   A save keeps a step skipped exactly when it is stored as skipped and the writer does not claim that
   it runs or is done; every other step is stored as the writer has it.
   */
  lemma SkippedWins(w: World, stored: Run, run: Run, i: nat)
    requires Hydrate(w.store, run.id) == Some(stored) && stored.id == run.id && DistinctIds(stored.steps)
    requires i < |run.steps| == |stored.steps| && run.steps[i].id == stored.steps[i].id && run.steps[i].key != ""
    ensures var now := Reread(w, run).steps[i];
      if stored.steps[i].status == Skipped && run.steps[i].status != Done && run.steps[i].status != Running
      then now == SkippedStep(run.steps[i], if stored.steps[i].error == "" then REPLACED else stored.steps[i].error)
      else now == run.steps[i]
  {
    hide Hydrate;
    StoredStepExists(w, stored, i);
    assert Reread(w, run).steps[i] == WithKey(MergedStep(run.steps[i], StoredStep(Rows(w, run.id), run.steps[i].id)));
  }
}
