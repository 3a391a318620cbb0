/**
 The tables a run is stored in: `hydrateAgentRun` reads them back into one aggregate,
 `persistAgentRunRecords` merges an aggregate into them and keeps checkpoints.
 */
module RunStore {
  import opened Prelude
  import opened Values
  import opened AgentTypes
  import opened Collections
  import opened Runs
  import Verifier

  datatype RunRecord = RunRecord(
    id: string,
    ownerId: string,
    teamId: string,
    goal: string,
    spec: Verifier.GoalSpec,
    status: RunStatus,
    iteration: nat,
    maxIterations: nat,
    stopReason: string,
    createdAt: int,
    expiresAt: int)

  datatype StepRecord = StepRecord(runId: string, step: Step, createdAt: int, updatedAt: int)

  datatype EventRecord = EventRecord(runId: string, event: Event)

  datatype Snapshot = Snapshot(run: RunRecord, steps: seq<StepRecord>, events: seq<EventRecord>)

  /** The digest of a stored run, taken as an injective function of what it covers. */
  datatype StateHash = StateHash(run: RunRecord, steps: seq<StepRecord>, eventIds: seq<string>)

  datatype Checkpoint = Checkpoint(
    id: string, runId: string, ownerId: string, teamId: string, stateHash: StateHash, snapshot: Snapshot, createdAt: int)

  datatype Store = Store(
    runs: seq<RunRecord>,
    steps: seq<StepRecord>,
    events: seq<EventRecord>,
    checkpoints: seq<Checkpoint>)

  /** What one call of persist draws from outside: the clock and a checkpoint id. */
  datatype Tick = Tick(now: int, checkpointId: string)

  const RETAINED_CHECKPOINTS: nat := 80
  const REPLACED: string := "已被用户的新指令替代"

  // ---------- Rows of one run ----------

  function OfRun(id: string): StepRecord -> bool { (r: StepRecord) => r.runId == id }
  function NotOfRun(id: string): StepRecord -> bool { (r: StepRecord) => r.runId != id }
  function EventOfRun(id: string): EventRecord -> bool { (r: EventRecord) => r.runId == id }
  function EventNotOfRun(id: string): EventRecord -> bool { (r: EventRecord) => r.runId != id }
  function CheckpointOfRun(id: string): Checkpoint -> bool { (c: Checkpoint) => c.runId == id }

  function StepTime(): StepRecord -> int { (r: StepRecord) => r.createdAt }
  function EventRecordTime(): EventRecord -> int { (r: EventRecord) => r.event.createdAt }
  function EventTime(): Event -> int { (e: Event) => e.createdAt }
  function NewestFirst(): Checkpoint -> int { (c: Checkpoint) => -c.createdAt }

  function FindRun(runs: seq<RunRecord>, id: string): (i: int)
    ensures -1 <= i < |runs|
    ensures i >= 0 ==> runs[i].id == id && forall j | 0 <= j < i :: runs[j].id != id
    ensures i < 0 ==> forall r | r in runs :: r.id != id
  {
    if runs == [] then -1
    else if runs[0].id == id then 0
    else
      var i := FindRun(runs[1..], id);
      assert i >= 0 ==> forall j | 1 <= j < i + 1 :: runs[j] == runs[1..][j - 1];
      if i < 0 then -1 else i + 1
  }

  // ---------- Reading a run ----------

  function WithKey(s: Step): Step { if s.key == "" then s.(key := s.id) else s }

  function StepsOf(records: seq<StepRecord>): (steps: seq<Step>)
    ensures |steps| == |records| && forall i | 0 <= i < |steps| :: steps[i] == WithKey(records[i].step)
  {
    seq(|records|, i requires 0 <= i < |records| => WithKey(records[i].step))
  }

  function EventsOf(records: seq<EventRecord>): (events: seq<Event>)
    ensures |events| == |records| && forall i | 0 <= i < |events| :: events[i] == records[i].event
  {
    seq(|records|, i requires 0 <= i < |records| => records[i].event)
  }

  function AsRun(r: RunRecord, steps: seq<Step>, events: seq<Event>): Run {
    Run(r.id, r.ownerId, r.teamId, r.goal, r.spec, r.status,
        if r.iteration == 0 then 1 else r.iteration,
        if r.maxIterations == 0 then 6 else r.maxIterations,
        r.stopReason, r.createdAt, r.expiresAt, steps, events)
  }

  /** `hydrateAgentRun` */
  function Hydrate(store: Store, id: string): Option<Run> {
    var i := FindRun(store.runs, id);
    if i < 0 then None
    else
      Some(AsRun(store.runs[i],
                 StepsOf(SortBy(StepTime(), Filter(OfRun(id), store.steps))),
                 EventsOf(SortBy(EventRecordTime(), Filter(EventOfRun(id), store.events)))))
  }

  // ---------- Merging a run into what is stored ----------

  /** The stored row a `Map` from ids would return: the last one with that id. */
  function StoredStep(records: seq<StepRecord>, id: string): Option<Step> {
    if records == [] then None
    else if records[|records| - 1].step.id == id then Some(records[|records| - 1].step)
    else StoredStep(records[..|records| - 1], id)
  }

  /** A stored skip wins over the writer, unless the writer says the step is running or done. */
  function MergedStep(s: Step, stored: Option<Step>): Step {
    if stored.Some? && stored.value.status == Skipped && s.status != Done && s.status != Running then
      s.(status := Skipped, error := if stored.value.error == "" then REPLACED else stored.value.error, approved := false)
    else s
  }

  function MergedSteps(steps: seq<Step>, records: seq<StepRecord>): (r: seq<Step>)
    ensures |r| == |steps| && forall i | 0 <= i < |r| :: r[i] == MergedStep(steps[i], StoredStep(records, steps[i].id))
  {
    seq(|steps|, i requires 0 <= i < |steps| => MergedStep(steps[i], StoredStep(records, steps[i].id)))
  }

  predicate HasEventId(events: seq<Event>, id: string) { exists e | e in events :: e.id == id }

  function Unseen(events: seq<Event>): EventRecord -> bool { (r: EventRecord) => !HasEventId(events, r.event.id) }

  /** The writer's events plus the stored ones it has not seen, in time order when there were any. */
  function MergedEvents(events: seq<Event>, records: seq<EventRecord>): seq<Event> {
    var concurrent := EventsOf(Filter(Unseen(events), records));
    if concurrent == [] then events else SortBy(EventTime(), events + concurrent)
  }

  function Merged(run: Run, steps: seq<StepRecord>, events: seq<EventRecord>): Run {
    run.(steps := MergedSteps(run.steps, steps), events := MergedEvents(run.events, events))
  }

  // ---------- Writing a run ----------

  function AsRecord(run: Run): RunRecord {
    RunRecord(run.id, run.ownerId, run.teamId, run.goal, run.spec, run.status, run.iteration, run.maxIterations,
              run.stopReason, run.createdAt, run.expiresAt)
  }

  function StepRecords(run: Run, now: int): (r: seq<StepRecord>)
    ensures |r| == |run.steps|
    ensures forall i | 0 <= i < |r| :: r[i] == StepRecord(run.id, WithKey(run.steps[i]), run.createdAt + i, now)
  {
    seq(|run.steps|, i requires 0 <= i < |run.steps| => StepRecord(run.id, WithKey(run.steps[i]), run.createdAt + i, now))
  }

  function EventRecords(run: Run): (r: seq<EventRecord>)
    ensures |r| == |run.events| && forall i | 0 <= i < |r| :: r[i] == EventRecord(run.id, run.events[i])
  {
    seq(|run.events|, i requires 0 <= i < |run.events| => EventRecord(run.id, run.events[i]))
  }

  function EventIds(events: seq<EventRecord>): seq<string> {
    seq(|events|, i requires 0 <= i < |events| => events[i].event.id)
  }

  function Take<T>(xs: seq<T>, n: nat): seq<T> { if |xs| <= n then xs else xs[..n] }

  /** Only the newest checkpoints of the run stay. */
  function KeepNewest(checkpoints: seq<Checkpoint>, runId: string): seq<Checkpoint> {
    var retained := Take(SortBy(NewestFirst(), Filter(CheckpointOfRun(runId), checkpoints)), RETAINED_CHECKPOINTS);
    Filter((c: Checkpoint) => c.runId != runId || exists k | k in retained :: k.id == c.id, checkpoints)
  }

  function LatestTime(checkpoints: seq<Checkpoint>): (t: int)
    ensures t >= 0 && forall c | c in checkpoints :: c.createdAt <= t
  {
    if checkpoints == [] then 0
    else
      var t := LatestTime(checkpoints[1..]);
      if checkpoints[0].createdAt > t then checkpoints[0].createdAt else t
  }

  /** A checkpoint is added unless the newest one already holds this state. */
  function WithCheckpoint(checkpoints: seq<Checkpoint>, run: Run, snapshot: Snapshot, tick: Tick): seq<Checkpoint> {
    var own := SortBy(NewestFirst(), Filter(CheckpointOfRun(run.id), checkpoints));
    var hash := StateHash(snapshot.run, snapshot.steps, EventIds(snapshot.events));
    if own != [] && own[0].stateHash == hash then checkpoints
    else
      var latest := LatestTime(own);
      var time := if tick.now > latest + 1 then tick.now else latest + 1;
      KeepNewest(checkpoints + [Checkpoint(tick.checkpointId, run.id, run.ownerId, run.teamId, hash, snapshot, time)], run.id)
  }

  function PutRun(runs: seq<RunRecord>, r: RunRecord): seq<RunRecord> {
    var i := FindRun(runs, r.id);
    if i >= 0 then runs[i := r] else [r] + runs
  }

  function SnapshotOf(run: Run, now: int): Snapshot {
    Snapshot(AsRecord(run), StepRecords(run, now), EventRecords(run))
  }

  /** `persistAgentRunRecords` */
  function Persist(store: Store, run: Run, tick: Tick): Store {
    var merged := Merged(run, Filter(OfRun(run.id), store.steps), Filter(EventOfRun(run.id), store.events));
    var snapshot := SnapshotOf(merged, tick.now);
    Store(PutRun(store.runs, AsRecord(merged)),
          Filter(NotOfRun(run.id), store.steps) + snapshot.steps,
          Filter(EventNotOfRun(run.id), store.events) + snapshot.events,
          WithCheckpoint(store.checkpoints, merged, snapshot, tick))
  }

  // ---------- Reading back what was written ----------

  /** What a written run reads back as: defaults applied and events in time order. */
  function ReadBack(run: Run): Run {
    AsRun(AsRecord(run), ReadBackSteps(run.steps), SortBy(EventTime(), run.events))
  }

  function ReadBackSteps(steps: seq<Step>): (r: seq<Step>)
    ensures |r| == |steps| && forall i | 0 <= i < |r| :: r[i] == WithKey(steps[i])
  {
    seq(|steps|, i requires 0 <= i < |steps| => WithKey(steps[i]))
  }

  lemma OwnStepRows(store: Store, run: Run, tick: Tick)
    ensures Filter(OfRun(run.id), Persist(store, run, tick).steps)
         == StepRecords(Merged(run, Filter(OfRun(run.id), store.steps), Filter(EventOfRun(run.id), store.events)), tick.now)
  {
    var others := Filter(NotOfRun(run.id), store.steps);
    var own := Filter(OfRun(run.id), store.steps);
    var records := StepRecords(Merged(run, own, Filter(EventOfRun(run.id), store.events)), tick.now);
    FilterConcat(OfRun(run.id), others, records);
    FilterNone(OfRun(run.id), others);
    FilterAll(OfRun(run.id), records);
  }

  lemma OwnEventRows(store: Store, run: Run, tick: Tick)
    ensures Filter(EventOfRun(run.id), Persist(store, run, tick).events)
         == EventRecords(Merged(run, Filter(OfRun(run.id), store.steps), Filter(EventOfRun(run.id), store.events)))
  {
    var others := Filter(EventNotOfRun(run.id), store.events);
    var own := Filter(EventOfRun(run.id), store.events);
    var records := EventRecords(Merged(run, Filter(OfRun(run.id), store.steps), own));
    FilterConcat(EventOfRun(run.id), others, records);
    FilterNone(EventOfRun(run.id), others);
    FilterAll(EventOfRun(run.id), records);
  }

  lemma PutRunFinds(runs: seq<RunRecord>, r: RunRecord)
    ensures FindRun(PutRun(runs, r), r.id) >= 0 && PutRun(runs, r)[FindRun(PutRun(runs, r), r.id)] == r
  {
    var i, put := FindRun(runs, r.id), PutRun(runs, r);
    if i >= 0 {
      assert put[i] == r && put[i] in put;
      var j := FindRun(put, r.id);
      assert j == i;
    }
  }

  lemma {:induction false} SortEventRecords(records: seq<EventRecord>)
    ensures EventsOf(SortBy(EventRecordTime(), records)) == SortBy(EventTime(), EventsOf(records))
  {
    if records != [] {
      SortEventRecords(records[1..]);
      InsertEventRecord(records[0], SortBy(EventRecordTime(), records[1..]));
      assert EventsOf(records)[1..] == EventsOf(records[1..]);
    }
  }

  lemma {:induction false} InsertEventRecord(r: EventRecord, records: seq<EventRecord>)
    ensures EventsOf(Insert(EventRecordTime(), r, records)) == Insert(EventTime(), r.event, EventsOf(records))
  {
    if records != [] && r.event.createdAt > records[0].event.createdAt {
      InsertEventRecord(r, records[1..]);
      assert EventsOf(records)[1..] == EventsOf(records[1..]);
    }
  }

  /**
   Reading back what was written gives the merged run: the same steps in the same order, and the
   events of the writer together with the stored ones it had not seen.
   */
  lemma HydrateAfterPersist(store: Store, run: Run, tick: Tick)
    ensures Hydrate(Persist(store, run, tick), run.id)
         == Some(ReadBack(Merged(run, Filter(OfRun(run.id), store.steps), Filter(EventOfRun(run.id), store.events))))
  {
    var merged := Merged(run, Filter(OfRun(run.id), store.steps), Filter(EventOfRun(run.id), store.events));
    PutRunFinds(store.runs, AsRecord(merged));
    OwnStepRows(store, run, tick);
    OwnEventRows(store, run, tick);
    var records := StepRecords(merged, tick.now);
    SortedIsFixed(StepTime(), records);
    assert StepsOf(records) == ReadBackSteps(merged.steps);
    SortEventRecords(EventRecords(merged));
    assert EventsOf(EventRecords(merged)) == merged.events;
  }

  // ---------- Other runs are untouched ----------

  lemma {:induction false} FindAfterUpdate(runs: seq<RunRecord>, i: nat, r: RunRecord, id: string)
    requires i < |runs| && runs[i].id == r.id && id != r.id
    ensures FindRun(runs[i := r], id) == FindRun(runs, id)
  {
    if i > 0 {
      FindAfterUpdate(runs[1..], i - 1, r, id);
      assert runs[i := r][1..] == runs[1..][i - 1 := r];
    } else {
      assert runs[i := r][1..] == runs[1..];
    }
  }

  lemma PutRunOthers(runs: seq<RunRecord>, r: RunRecord, id: string)
    requires id != r.id
    ensures var put := PutRun(runs, r);
      && (FindRun(put, id) < 0 <==> FindRun(runs, id) < 0)
      && (FindRun(runs, id) >= 0 ==> put[FindRun(put, id)] == runs[FindRun(runs, id)])
  {
    var i := FindRun(runs, r.id);
    if i >= 0 {
      FindAfterUpdate(runs, i, r, id);
    } else {
      assert ([r] + runs)[1..] == runs;
    }
  }

  lemma OtherStepRows(steps: seq<StepRecord>, own: seq<StepRecord>, id: string, other: string)
    requires other != id && forall r | r in own :: r.runId == id
    ensures Filter(OfRun(other), Filter(NotOfRun(id), steps) + own) == Filter(OfRun(other), steps)
  {
    FilterConcat(OfRun(other), Filter(NotOfRun(id), steps), own);
    FilterTwice(OfRun(other), NotOfRun(id), steps);
    FilterNone(OfRun(other), own);
  }

  lemma OtherEventRows(events: seq<EventRecord>, own: seq<EventRecord>, id: string, other: string)
    requires other != id && forall r | r in own :: r.runId == id
    ensures Filter(EventOfRun(other), Filter(EventNotOfRun(id), events) + own) == Filter(EventOfRun(other), events)
  {
    FilterConcat(EventOfRun(other), Filter(EventNotOfRun(id), events), own);
    FilterTwice(EventOfRun(other), EventNotOfRun(id), events);
    FilterNone(EventOfRun(other), own);
  }

  /** Writing one run leaves every other run reading exactly as before. */
  lemma OtherRunsUnchanged(store: Store, run: Run, tick: Tick, other: string)
    requires other != run.id
    ensures Hydrate(Persist(store, run, tick), other) == Hydrate(store, other)
  {
    var merged := Merged(run, Filter(OfRun(run.id), store.steps), Filter(EventOfRun(run.id), store.events));
    PutRunOthers(store.runs, AsRecord(merged), other);
    OtherStepRows(store.steps, StepRecords(merged, tick.now), run.id, other);
    OtherEventRows(store.events, EventRecords(merged), run.id, other);
  }

  // ---------- What merging keeps ----------

  /** Events sharing an id are the same event: ids are random and never reused for another. */
  predicate SameIdSameEvent(a: seq<Event>, b: seq<Event>) {
    forall e, f | e in a && f in b && e.id == f.id :: e == f
  }

  /** No event of the writer and no stored event is lost. */
  lemma MergeLosesNoEvent(events: seq<Event>, records: seq<EventRecord>)
    ensures forall e | e in events :: e in MergedEvents(events, records)
    ensures SameIdSameEvent(events, EventsOf(records)) ==>
      forall e :: e in MergedEvents(events, records) <==> e in events || e in EventsOf(records)
  {
    var kept := Filter(Unseen(events), records);
    var concurrent := EventsOf(kept);
    forall e
      ensures e in concurrent <==> e in EventsOf(records) && !HasEventId(events, e.id)
    {
      if e in concurrent {
        var i :| 0 <= i < |kept| && concurrent[i] == e;
        assert kept[i] in kept;
        var j :| 0 <= j < |records| && records[j] == kept[i];
        assert EventsOf(records)[j] == e;
      }
      if e in EventsOf(records) && !HasEventId(events, e.id) {
        var j :| 0 <= j < |records| && EventsOf(records)[j] == e;
        assert records[j] in kept;
        var i :| 0 <= i < |kept| && kept[i] == records[j];
        assert concurrent[i] == e;
      }
    }
  }
}
