/** What holds of a stored run, its checkpoints, an awaited action and the effect log after every operation. */
module MissionInvariant {
  import opened Prelude
  import opened Values
  import opened AgentTypes
  import opened References
  import opened WorkflowGraph
  import opened GraphLaws
  import opened Planning
  import opened Recovery
  import opened Runs
  import opened Collections
  import opened RunStore
  import opened Mission
  import Verifier

  // ---------- Counting effects ----------

  predicate IsQueueing(e: Effect, id: string, input: Value) {
    e.QueuedEffect? && e.step.id == id && e.step.input == input
  }

  predicate IsExternalStart(e: Effect, id: string, input: Value) {
    e.StartedEffect? && e.step.risk == External && e.step.id == id && e.step.input == input
  }

  /** How often the step was queued with exactly this payload. */
  function Queueings(log: seq<Effect>, id: string, input: Value): nat {
    if log == [] then 0
    else Queueings(log[..|log| - 1], id, input) + if IsQueueing(log[|log| - 1], id, input) then 1 else 0
  }

  /** How often a request that carried the user's approval queued it. */
  function Confirmations(log: seq<Effect>, id: string, input: Value): nat {
    if log == [] then 0
    else
      var e := log[|log| - 1];
      Confirmations(log[..|log| - 1], id, input) + if IsQueueing(e, id, input) && e.confirmed then 1 else 0
  }

  /** How often it was queued again on an approval given before. */
  function Requeueings(log: seq<Effect>, id: string, input: Value): nat {
    if log == [] then 0
    else
      var e := log[|log| - 1];
      Requeueings(log[..|log| - 1], id, input) + if IsQueueing(e, id, input) && !e.confirmed then 1 else 0
  }

  /** How often the step's external action was invoked with exactly this payload. */
  function Starts(log: seq<Effect>, id: string, input: Value): nat {
    if log == [] then 0
    else Starts(log[..|log| - 1], id, input) + if IsExternalStart(log[|log| - 1], id, input) then 1 else 0
  }

  function Retries(log: seq<Effect>, id: string): nat {
    if log == [] then 0
    else Retries(log[..|log| - 1], id) + if log[|log| - 1] == RetriedEffect(id) then 1 else 0
  }

  // ---------- Steps and runs ----------

  predicate DistinctIds(steps: seq<Step>) {
    forall i, j :: 0 <= i < j < |steps| ==> steps[i].id != steps[j].id
  }

  predicate UniqueEvents(events: seq<Event>) { SameIdSameEvent(events, events) }

  /**
   Approved, or on record as one of the two ways the engine lets a write through without approval:
   this very step was filled in after planning, or a restore put this very step back.
   */
  predicate WriteCleared(s: Step, log: seq<Effect>) {
    s.approved || FilledInEffect(s.id) in log || PutBackEffect(s.id) in log
  }

  /** A queued payload is final, and queued once more often than it was sent. */
  predicate Frozen(s: Step, log: seq<Effect>) {
    && s.risk == External && s.approved
    && Starts(log, s.id, s.input) < Queueings(log, s.id, s.input)
  }

  /** An approved external step has been through the queue with the input it has, by a request that approved it. */
  predicate Confirmed(s: Step, log: seq<Effect>) {
    && HasNoReferences(s.input) && s.status in {Queued, Running, Done, Failed}
    && Confirmations(log, s.id, s.input) > 0
  }

  /** The entry is a start of this step, by tool, risk and input. */
  predicate IsStartOf(e: Effect, s: Step) {
    e.StartedEffect? && e.step.id == s.id && e.step.tool == s.tool && e.step.risk == s.risk && e.step.input == s.input
  }

  predicate WasStarted(s: Step, log: seq<Effect>) { exists e | e in log :: IsStartOf(e, s) }

  /** What runs or is done was started as it is. */
  predicate StartCleared(s: Step, log: seq<Effect>) { s.status == Running || s.status == Done ==> WasStarted(s, log) }

  /** An input that nests too deeply was filled in. */
  predicate DepthCleared(s: Step, log: seq<Effect>) { Collect(s.input, 0).Err? ==> FilledInEffect(s.id) in log }

  predicate StepOk(run: Run, s: Step, log: seq<Effect>) {
    && s.key != "" && s.risk == ToolRisk(s.tool)
    && s.signature == Sign(run.id, s.id, s.tool, s.input, Owner(run))
    && (s.status == Queued ==> Frozen(s, log))
    && (s.status == Ready ==> s.risk != External)
    && (s.risk == External && s.approved ==> Confirmed(s, log))
    && (s.risk == Write && s.status in {Ready, Running, Failed} ==> WriteCleared(s, log))
    && DepthCleared(s, log) && StartCleared(s, log)
  }

  /** Finished and running steps rest on finished ones, or on an observer that may be rewound. */
  predicate FinishedRests(steps: seq<Step>) {
    forall s, key | s in steps && (s.status == Done || s.status == Running) && key in s.dependsOn ::
      RestsOn(key, steps)
  }

  predicate RestsOn(key: string, steps: seq<Step>) {
    exists t | t in steps :: t.key == key && (t.status == Done || IsPolled(t.tool))
  }

  /** No plan was ever narrowed in a way that leaves a step without its dependency. */
  predicate Whole(log: seq<Effect>) { NarrowedEffect !in log }

  ghost predicate GraphOk(steps: seq<Step>, log: seq<Effect>) { Whole(log) ==> SoundGraph(steps) }

  const MOST_ROUNDS: nat := 24

  /** The count of rounds stays within the run's own limit, and the limit within the engine's. */
  predicate RoundsOk(iteration: nat, maxIterations: nat) { 1 <= iteration <= maxIterations <= MOST_ROUNDS }

  predicate WithinRounds(run: Run) { RoundsOk(run.iteration, run.maxIterations) }

  ghost predicate RunOk(run: Run, log: seq<Effect>) {
    && WithinRounds(run)
    && DistinctIds(run.steps) && DistinctKeys(run.steps)
    && (forall s | s in run.steps :: StepOk(run, s, log))
    && FinishedRests(run.steps)
    && GraphOk(run.steps, log)
    && UniqueEvents(run.events)
  }

  // ---------- The log ----------

  /** An entry of the log, given what was logged before it. */
  predicate EffectOk(e: Effect, events: seq<Event>, before: seq<Effect>) {
    match e
    case QueuedEffect(s, confirmed) =>
      && s.risk == External && s.approved && HasNoReferences(s.input)
      && (!confirmed ==> Confirmations(before, s.id, s.input) > 0)
    case StartedEffect(s) =>
      && s.risk == ToolRisk(s.tool)
      && (s.risk == External ==> s.approved && HasNoReferences(s.input) && Confirmations(before, s.id, s.input) > 0)
      && (s.risk == Write ==> WriteCleared(s, before))
    case RetriedEffect(id) => HasMark(events, RecoveryMarkOf(id))
    case PutBackEffect(_) => HasMark(events, RESTORE_MARK)
    case RestoredEffect(_) => HasMark(events, RESTORE_MARK)
    case FilledInEffect(_) => true
    case NarrowedEffect => true
  }

  ghost predicate LogOk(log: seq<Effect>, events: seq<Event>) {
    && (forall k | 0 <= k < |log| :: EffectOk(log[k], events, log[..k]))
    && (forall id, input :: Starts(log, id, input) <= Queueings(log, id, input))
    && (forall id :: Retries(log, id) <= 1)
  }

  // ---------- Checkpoints, completion, the awaited action ----------

  predicate SnapshotStepOk(s: Step, log: seq<Effect>) {
    s.key != "" && s.risk == ToolRisk(s.tool) && (s.risk == External ==> s.status != Ready)
    && DepthCleared(s, log) && StartCleared(s, log)
  }

  ghost predicate CheckpointOk(c: Checkpoint, events: seq<Event>, log: seq<Effect>) {
    var steps := StepsOf(c.snapshot.steps);
    && RoundsOk(c.snapshot.run.iteration, c.snapshot.run.maxIterations)
    && DistinctIds(steps) && DistinctKeys(steps) && FinishedRests(steps) && GraphOk(steps, log)
    && (forall s | s in steps :: SnapshotStepOk(s, log))
    && (forall e | e in EventsOf(c.snapshot.events) :: e in events)
  }

  /** There was a restore, and the last one left nothing to do. */
  predicate LeftClosed(log: seq<Effect>) {
    exists k | 0 <= k < |log| :: log[k] == RestoredEffect(true) && RestoredEffect(false) !in log[k..]
  }

  /** A completed run was accepted by the completion gate, was a plain conversation, or was closed by the last restore. */
  predicate CompletedOk(run: Run, log: seq<Effect>) {
    run.status == Completed ==> Verifier.Complete(run.spec, run.steps) || run.steps == [] || LeftClosed(log)
  }

  /** What pause, cancel and steer may have done to a step since the action began. */
  predicate SameOrStopped(was: Step, now: Step) {
    || now == was
    || ((IsActive(was.status) || was.status == Skipped) && now == SkippedStep(was, now.error))
    || (IsActive(was.status) && now == CancelledStep(was))
  }

  ghost predicate Airborne(f: Flight, run: Run, log: seq<Effect>) {
    && f.run.id == run.id && Owner(f.run) == Owner(run) && f.run.status == InProgress
    && RunOk(f.run, log)
    && |f.run.steps| == |run.steps|
    && (forall i | 0 <= i < |run.steps| :: SameOrStopped(f.run.steps[i], run.steps[i]))
    && (forall s | s in f.run.steps :: s.status == Running <==> s.id == f.stepId)
    && (exists s | s in f.run.steps :: s.id == f.stepId)
    && (forall e | e in f.run.events :: e in run.events)
  }

  ghost predicate FlightOk(flight: Option<Flight>, run: Run, log: seq<Effect>) {
    match flight
    case None => !AnyRunning(run.steps)
    case Some(f) => Airborne(f, run, log)
  }

  ghost predicate WorldOk(w: World, id: string) {
    match Hydrate(w.store, id)
    case None => false
    case Some(run) =>
      && run.id == id
      && RunOk(run, w.log)
      && LogOk(w.log, run.events)
      && CompletedOk(run, w.log)
      && FlightOk(w.flight, run, w.log)
      && forall c | c in w.store.checkpoints && c.runId == id :: CheckpointOk(c, run.events, w.log)
  }

  // ---------- Fresh ids ----------

  /** Ids drawn from now on are new to the run and to each other. */
  ghost predicate FreshStamps(stamps: Stamps, events: seq<Event>) {
    && (forall k: nat, e | e in events :: stamps(k).0 != e.id)
    && forall j: nat, k: nat | j != k :: stamps(j).0 != stamps(k).0
  }

  /** The part of it that remains after some of the ids were used for the last events of the run. */
  ghost predicate FreshFrom(stamps: Stamps, events: seq<Event>) {
    && (forall k: nat, e | k >= |events| && e in events :: stamps(k).0 != e.id)
    && forall j: nat, k: nat | j != k :: stamps(j).0 != stamps(k).0
  }

  lemma AddedEvent(run: Run, stamps: Stamps, kind: EventType, message: string)
    requires FreshFrom(stamps, run.events) && UniqueEvents(run.events)
    ensures var r := AddEvent(run, stamps, kind, message);
      FreshFrom(stamps, r.events) && UniqueEvents(r.events) && run.events <= r.events
  {
  }

  // ---------- Events only grow ----------

  ghost predicate Grown(a: seq<Event>, b: seq<Event>) { forall e | e in a :: e in b }

  lemma LogPersists(log: seq<Effect>, a: seq<Event>, b: seq<Event>)
    requires LogOk(log, a) && Grown(a, b)
    ensures LogOk(log, b)
  {
  }
}
