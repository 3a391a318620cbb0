/** What single operations leave in the store, read back: which steps, which status, which limits. */
module MissionEffects {
  import opened Prelude
  import opened Values
  import opened AgentTypes
  import opened References
  import opened WorkflowGraph
  import opened Planning
  import opened Recovery
  import opened Runs
  import opened Collections
  import opened RunStore
  import opened Mission
  import opened MissionInvariant
  import opened MissionSave
  import opened MissionPasses
  import opened MissionMoves
  import opened MissionOps
  import opened MissionAdvance
  import opened MissionFlight
  import opened MissionReplan
  import opened MissionRuns
  import Verifier

  /** The sound world holds the mission, and the ids to be drawn are new. */
  ghost predicate Holds(w: World, stored: Run, out: Outside) {
    WorldOk(w, stored.id) && Hydrate(w.store, stored.id) == Some(stored) && FreshStamps(out.stamps, stored.events)
  }

  lemma HeldAtRest(w: World, stored: Run, out: Outside)
    requires Holds(w, stored, out)
    ensures Grounded(w, stored, out) && (AnyRunning(stored.steps) <==> w.flight.Some?)
    ensures w.flight == None ==> AtRest(w, stored, out)
  {
    hide Hydrate, RunOk, LogOk, CompletedOk, CheckpointOk;
    Standing(w, stored, out);
    if w.flight.Some? {
      var i := StillRunning(w.flight.value, stored, w.log);
      assert stored.steps[i] in stored.steps;
    }
  }

  // ---------- Writing a run over the stored one ----------

  /** The same steps first, and new ones after them. */
  predicate Extends(was: seq<Step>, now: seq<Step>) {
    && |was| <= |now| && (forall i | 0 <= i < |was| :: now[i].id == was[i].id)
    && DistinctIds(now) && forall s | s in now :: s.key != ""
  }

  /** As written, unless it was stored as skipped and the writer does not say that it runs or is done: then it stays so. */
  predicate StepAsWritten(was: seq<Step>, i: nat, written: Step, now: Step) {
    if i < |was| && was[i].status == Skipped && written.status != Done && written.status != Running then
      now == written.(status := Skipped, approved := false, error := if was[i].error == "" then "已被用户的新指令替代" else was[i].error)
    else now == written
  }

  predicate StepsAsWritten(was: seq<Step>, written: seq<Step>, now: seq<Step>) {
    |now| == |written| && forall i | 0 <= i < |written| :: StepAsWritten(was, i, written[i], now[i])
  }

  /** Every field as written, every event as written, every step as written or still skipped. */
  ghost predicate AsWritten(stored: Run, run: Run, now: Run) {
    && now == run.(steps := now.steps, events := now.events)
    && StepsAsWritten(stored.steps, run.steps, now.steps)
    && forall e :: e in now.events <==> e in run.events
  }

  lemma RowStepAsWritten(w: World, stored: Run, run: Run, i: nat)
    requires Hydrate(w.store, stored.id) == Some(stored) && run.id == stored.id
    requires Extends(stored.steps, run.steps) && i < |run.steps|
    ensures StepAsWritten(stored.steps, i, run.steps[i], Reread(w, run).steps[i])
  {
    hide Hydrate, StepAsWritten;
    var s, rows := run.steps[i], Rows(w, run.id);
    assert s in run.steps;
    if i < |stored.steps| {
      IdsOfExtended(stored.steps, run.steps);
      StoredStepExists(w, stored, i);
    }
    if StoredStep(rows, s.id).Some? {
      StoredStepIsHydrated(w, stored, s.id);
      var t := WithKey(StoredStep(rows, s.id).value);
      var j :| 0 <= j < |stored.steps| && stored.steps[j] == t;
      assert run.steps[j].id == s.id;
      assert j == i;
    }
    assert Reread(w, run).steps[i] == WithKey(MergedStep(s, StoredStep(rows, s.id)));
    StepIsAsWritten(stored.steps, i, s, StoredStep(rows, s.id));
  }

  lemma IdsOfExtended(was: seq<Step>, now: seq<Step>)
    requires Extends(was, now)
    ensures DistinctIds(was)
  {
  }

  lemma StepIsAsWritten(was: seq<Step>, i: nat, s: Step, row: Option<Step>)
    requires s.key != "" && (row.Some? <==> i < |was|) && (row.Some? ==> WithKey(row.value) == was[i])
    ensures StepAsWritten(was, i, s, WithKey(MergedStep(s, row)))
  {
  }

  /** A run that continues the stored one reads back as it was written. */
  lemma ReadsAsWritten(w: World, stored: Run, run: Run, tick: Tick)
    requires Hydrate(w.store, stored.id) == Some(stored) && run.id == stored.id
    requires Extends(stored.steps, run.steps) && WithinRounds(run)
    requires Grown(stored.events, run.events) && UniqueEvents(run.events)
    ensures Hydrate(Save(w, run, tick).store, stored.id) == Some(Reread(w, run))
    ensures AsWritten(stored, run, Reread(w, run))
  {
    hide Hydrate, Persist, Extends, StepAsWritten, Merged, ReadBackSteps;
    var now := Reread(w, run);
    SaveReads(w, stored, run, tick);
    SameLengthRead(w, run);
    forall i | 0 <= i < |run.steps|
      ensures StepAsWritten(stored.steps, i, run.steps[i], now.steps[i])
    {
      RowStepAsWritten(w, stored, run, i);
    }
    FieldsRead(w, run);
  }

  lemma SameLengthRead(w: World, run: Run)
    ensures |Reread(w, run).steps| == |run.steps|
  {
  }

  lemma FieldsRead(w: World, run: Run)
    requires WithinRounds(run)
    ensures var now := Reread(w, run); now == run.(steps := now.steps, events := now.events)
  {
  }

  /** The mission is stored as `run`, with no event lost. */
  ghost predicate Leaves(w: World, stored: Run, run: Run) {
    match Hydrate(w.store, stored.id)
    case None => false
    case Some(now) => AsWritten(stored, run.(events := now.events), now) && Grown(stored.events, now.events)
  }

  ghost predicate SameFirst(was: seq<Step>, now: seq<Step>) {
    |was| <= |now| && forall i | 0 <= i < |was| :: now[i].id == was[i].id
  }

  lemma LeavesWritten(w: World, stored: Run, run: Run, tick: Tick, log: seq<Effect>)
    requires Hydrate(w.store, stored.id) == Some(stored) && RunOk(run, log) && Continues(stored, run)
    requires SameFirst(stored.steps, run.steps)
    ensures Hydrate(Save(w, run, tick).store, stored.id) == Some(Reread(w, run))
    ensures AsWritten(stored, run, Reread(w, run)) && Leaves(Save(w, run, tick), stored, run)
  {
    hide Hydrate, Persist, StepOk, FinishedRests, GraphOk, AsWritten, Reread;
    SoundRunHas(run, log);
    ReadsAsWritten(w, stored, run, tick);
    EventsAsWritten(stored, run, Reread(w, run));
  }

  lemma SoundRounds(run: Run, log: seq<Effect>)
    requires RunOk(run, log)
    ensures WithinRounds(run)
  {
  }

  lemma EventsAsWritten(stored: Run, run: Run, now: Run)
    requires AsWritten(stored, run, now) && Grown(stored.events, run.events)
    ensures AsWritten(stored, run.(events := now.events), now) && Grown(stored.events, now.events)
  {
  }

  // ---------- Pause and cancel ----------

  /** Pausing is for the owner, and leaves everything but the status and its reason as it is. */
  lemma PauseIs(w: World, stored: Run, user: Actor, out: Outside)
    requires Holds(w, stored, out)
    ensures var o, idle := Pause(w, stored.id, user, out), stored.status in {Completed, RunStatus.Cancelled, Paused};
      && (o.thrown <==> user != Owner(stored))
      && o.world.log == w.log && o.world.flight == w.flight
      && if o.thrown || idle then o.world == w else Leaves(o.world, stored, stored.(status := Paused, stopReason := PAUSED_REASON))
  {
    hide Hydrate, Persist, WorldOk, GroundOk, RunOk, Continues, PausedRun, Leaves;
    HeldAtRest(w, stored, out);
    PausedSound(stored, out, w.log);
    var paused := PausedRun(stored, out);
    PausedIs(stored, out);
    LeavesWritten(w, stored, paused, out.ticks(0), w.log);
    LeavesAlike(Save(w, paused, out.ticks(0)), stored, paused, stored.(status := Paused, stopReason := PAUSED_REASON));
  }

  lemma PausedIs(stored: Run, out: Outside)
    ensures var now := PausedRun(stored, out);
      now == stored.(status := Paused, stopReason := PAUSED_REASON, events := now.events)
  {
  }

  lemma LeavesAlike(w: World, stored: Run, a: Run, b: Run)
    requires Leaves(w, stored, a) && a.(events := []) == b.(events := [])
    ensures Leaves(w, stored, b)
  {
    hide AsWritten, Hydrate;
    assert forall events: seq<Event> :: a.(events := events) == a.(events := []).(events := events);
    assert forall events: seq<Event> :: b.(events := events) == b.(events := []).(events := events);
  }

  /** `steps` with `how` applied where `which` holds. */
  function Changed(steps: seq<Step>, which: Step -> bool, how: Step -> Step): (r: seq<Step>)
    ensures |r| == |steps| && forall i | 0 <= i < |r| :: r[i] == if which(steps[i]) then how(steps[i]) else steps[i]
  {
    seq(|steps|, i requires 0 <= i < |steps| => if which(steps[i]) then how(steps[i]) else steps[i])
  }

  predicate IsTakeable(s: Step) { s.status in {Ready, Queued} }

  function Terminated(s: Step): Step { s.(status := Failed, error := "Mission 已由用户终止") }

  /** Cancelling is for the owner; what was ready or queued has failed, everything else stays as it is. */
  lemma CancelIs(w: World, stored: Run, user: Actor, out: Outside)
    requires Holds(w, stored, out)
    ensures var o, idle := CancelMission(w, stored.id, user, out), stored.status in {Completed, RunStatus.Cancelled};
      && (o.thrown <==> user != Owner(stored))
      && o.world.log == w.log && o.world.flight == w.flight
      && if o.thrown || idle then o.world == w
         else Leaves(o.world, stored, stored.(status := RunStatus.Cancelled, stopReason := CANCELLED_REASON,
                                              steps := Changed(stored.steps, IsTakeable, Terminated)))
  {
    hide Hydrate, Persist, WorldOk, GroundOk, RunOk, Continues, CancelledRun, Leaves, Changed;
    HeldAtRest(w, stored, out);
    CancelledSound(stored, out, w.log);
    var cancelled := CancelledRun(stored, out);
    CancelledIs(stored, out);
    LeavesWritten(w, stored, cancelled, out.ticks(0), w.log);
    LeavesAlike(Save(w, cancelled, out.ticks(0)), stored, cancelled,
      stored.(status := RunStatus.Cancelled, stopReason := CANCELLED_REASON, steps := Changed(stored.steps, IsTakeable, Terminated)));
  }

  lemma CancelledIs(stored: Run, out: Outside)
    ensures var now := CancelledRun(stored, out);
      && SameFirst(stored.steps, now.steps)
      && now == stored.(status := RunStatus.Cancelled, stopReason := CANCELLED_REASON,
                        steps := Changed(stored.steps, IsTakeable, Terminated), events := now.events)
  {
    assert FailWaiting(stored.steps) == Changed(stored.steps, IsTakeable, Terminated);
  }
}
