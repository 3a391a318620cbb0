/** Which restores go through, what they leave in the store, and that they never take back what was sent. */
module MissionRollbacks {
  import opened Prelude
  import opened Values
  import opened AgentTypes
  import opened References
  import opened Planning
  import opened Recovery
  import opened Runs
  import opened Collections
  import opened RunStore
  import opened Mission
  import opened MissionInvariant
  import opened MissionSave
  import opened MissionPasses
  import opened MissionOps
  import opened MissionFlight
  import opened MissionRestore
  import opened MissionRuns
  import opened MissionTheorems
  import opened MissionEffects
  import opened MissionSettled
  import Verifier

  // ---------- Exactly which restores go through ----------

  predicate IsOwn(c: Checkpoint, id: string, run: Run) {
    c.id == id && c.runId == run.id && c.ownerId == run.ownerId && c.teamId == run.teamId
  }

  /** Checkpoint `k` is the first of that id that belongs to the run and its owner. */
  predicate IsChosen(checkpoints: seq<Checkpoint>, k: nat, id: string, run: Run) {
    k < |checkpoints| && IsOwn(checkpoints[k], id, run) && forall j | 0 <= j < k :: !IsOwn(checkpoints[j], id, run)
  }

  lemma {:induction false} ChosenIsFound(checkpoints: seq<Checkpoint>, k: nat, id: string, run: Run)
    requires IsChosen(checkpoints, k, id, run)
    ensures FindCheckpoint(checkpoints, id, run) == Some(checkpoints[k])
  {
    if k > 0 {
      assert !IsOwn(checkpoints[0], id, run);
      assert checkpoints[1..][k - 1] == checkpoints[k] && forall j | 0 <= j < k - 1 :: checkpoints[1..][j] == checkpoints[j + 1];
      ChosenIsFound(checkpoints[1..], k - 1, id, run);
    }
  }

  lemma {:induction false} FoundIsChosen(checkpoints: seq<Checkpoint>, id: string, run: Run) returns (k: nat)
    requires FindCheckpoint(checkpoints, id, run).Some?
    ensures IsChosen(checkpoints, k, id, run)
  {
    if IsOwn(checkpoints[0], id, run) {
      k := 0;
    } else {
      k := FoundIsChosen(checkpoints[1..], id, run);
      assert forall j | 0 <= j < k :: checkpoints[1..][j] == checkpoints[j + 1];
      k := k + 1;
    }
  }

  /** The step is done in the checkpoint as well. */
  predicate DoneIn(rows: seq<StepRecord>, id: string) { exists r | r in rows :: r.step.id == id && r.step.status == Done }

  lemma {:induction false} DoneRowIff(rows: seq<StepRecord>, id: string)
    requires DistinctIds(StepsOf(rows))
    ensures DoneIn(rows, id) <==> StoredStep(rows, id).Some? && StoredStep(rows, id).value.status == Done
  {
    if DoneIn(rows, id) {
      var r :| r in rows && r.step.id == id && r.step.status == Done;
      RowIsFound(rows, r);
      var q := StoredStepIsARow(rows, id);
      SameRowById(rows, q, r);
    }
    if StoredStep(rows, id).Some? {
      var q := StoredStepIsARow(rows, id);
    }
  }

  lemma SameRowById(rows: seq<StepRecord>, q: StepRecord, r: StepRecord)
    requires DistinctIds(StepsOf(rows)) && q in rows && r in rows && q.step.id == r.step.id
    ensures q == r
  {
    var i :| 0 <= i < |rows| && rows[i] == q;
    var j :| 0 <= j < |rows| && rows[j] == r;
    assert StepsOf(rows)[i].id == StepsOf(rows)[j].id;
  }

  /** Nothing is being sent or was sent. */
  predicate NothingSent(steps: seq<Step>) {
    forall s | s in steps && s.risk == External :: s.status !in {Queued, Running, Done}
  }

  /** Every write that is done is done in the checkpoint as well. */
  predicate KeepsWrites(steps: seq<Step>, rows: seq<StepRecord>) {
    forall s | s in steps && s.risk == Write && s.status == Done :: DoneIn(rows, s.id)
  }

  lemma LosesWriteIff(steps: seq<Step>, rows: seq<StepRecord>)
    requires DistinctIds(StepsOf(rows))
    ensures LosesWrite(steps, rows) <==> !KeepsWrites(steps, rows)
  {
    hide DoneIn, StoredStep;
    forall id {
      DoneRowIff(rows, id);
    }
  }

  /**
   A restore goes through exactly when the user owns the mission, the account is active, the checkpoint is
   found, nothing is being sent or was sent, and no finished write would be lost. Otherwise it changes nothing.
   */
  lemma RestoreIsAllowedIff(w: World, stored: Run, user: Actor, checkpointId: string, active: bool, out: Outside)
    requires Holds(w, stored, out)
    ensures var o := Restore(w, stored.id, user, checkpointId, active, out);
      && (o.thrown ==> o.world == w)
      && (!o.thrown <==>
            && user == Owner(stored) && active && NothingSent(stored.steps)
            && exists k: nat | IsChosen(w.store.checkpoints, k, checkpointId, stored) ::
                 KeepsWrites(stored.steps, w.store.checkpoints[k].snapshot.steps))
  {
    hide Hydrate, Persist, RestoredRun, RunOk, LogOk, CompletedOk, FlightOk, FindCheckpoint, LosesWrite, KeepsWrites, Restoring;
    var found := FindCheckpoint(w.store.checkpoints, checkpointId, stored);
    assert ExternalUnderWay(stored.steps) <==> !NothingSent(stored.steps);
    forall k: nat | IsChosen(w.store.checkpoints, k, checkpointId, stored)
      ensures found == Some(w.store.checkpoints[k])
      ensures LosesWrite(stored.steps, w.store.checkpoints[k].snapshot.steps)
         <==> !KeepsWrites(stored.steps, w.store.checkpoints[k].snapshot.steps)
    {
      ChosenIsFound(w.store.checkpoints, k, checkpointId, stored);
      CheckpointIds(w.store.checkpoints[k], Hydrate(w.store, stored.id).value.events, w.log);
      LosesWriteIff(stored.steps, w.store.checkpoints[k].snapshot.steps);
    }
    if found.Some? {
      var k := FoundIsChosen(w.store.checkpoints, checkpointId, stored);
      assert IsChosen(w.store.checkpoints, k, checkpointId, stored);
    }
  }

  lemma CheckpointIds(c: Checkpoint, events: seq<Event>, log: seq<Effect>)
    requires CheckpointOk(c, events, log)
    ensures DistinctIds(StepsOf(c.snapshot.steps))
  {
  }

  // ---------- What a restore leaves ----------

  /** The step of the checkpoint as it is put back: what was under way waits again, and guarded steps lose their approval. */
  function Reopened(run: Run, s: Step): Step {
    var guarded := s.risk == Write || s.risk == External;
    s.(
      key := if s.key == "" then s.id else s.key,
      status := if s.status !in {Queued, Running} then s.status else if guarded then NeedsConfirmation else Ready,
      error := if s.status in {Failed, Skipped} then s.error else "",
      signature := Signature(run.id, s.id, s.tool, s.input, run.ownerId, run.teamId),
      approved := s.approved && !guarded)
  }

  /** Put back, unless the step is stored as skipped: then it stays so, if it is not done in the checkpoint. */
  predicate IsPutAs(stored: Run, s: Step, now: Step) {
    var t := Reopened(stored, s);
    if StoredAsSkipped(stored.steps, s.id) && t.status != Done then now == t.(status := Skipped, approved := false, error := now.error)
    else now == t
  }

  predicate AnyReopened(stored: Run, rows: seq<StepRecord>, status: StepStatus) {
    exists r | r in rows :: Reopened(stored, r.step).status == status
  }

  function RestoredStatus(stored: Run, rows: seq<StepRecord>): RunStatus {
    if AnyReopened(stored, rows, Ready) then InProgress
    else if AnyReopened(stored, rows, NeedsConfirmation) then AwaitingConfirmation
    else Completed
  }

  lemma ReopenedIs(run: Run, row: StepRecord)
    ensures RestoredStep(run, row) == Reopened(run, row.step)
  {
  }

  lemma RestoredFields(stored: Run, c: Checkpoint, out: Outside)
    ensures var now, r := RestoredRun(stored, c, out), c.snapshot.run;
      && now == stored.(goal := r.goal, spec := r.spec, iteration := r.iteration, maxIterations := r.maxIterations,
                        createdAt := r.createdAt,
                        status := RestoredStatus(stored, c.snapshot.steps), stopReason := now.stopReason,
                        steps := RestoredSteps(stored, c.snapshot.steps), events := now.events)
      && now.stopReason == if now.status == AwaitingConfirmation then "恢复后等待重新审批" else ""
  {
    hide Reopened, RestoredStep;
    var rows := c.snapshot.steps;
    var steps := RestoredSteps(stored, rows);
    forall i | 0 <= i < |rows|
      ensures steps[i] == Reopened(stored, rows[i].step) && steps[i] in steps && rows[i] in rows
    {
      ReopenedIs(stored, rows[i]);
    }
    assert AnyReady(steps) <==> AnyReopened(stored, rows, Ready);
    assert (exists s | s in steps :: s.status == NeedsConfirmation) <==> AnyReopened(stored, rows, NeedsConfirmation);
  }

  /** A restore takes everything but the mission's identity and expiry from the checkpoint, and loses no event. */
  lemma RestoreIs(w: World, stored: Run, user: Actor, checkpointId: string, active: bool, out: Outside, c: Checkpoint, now: Run)
    requires Holds(w, stored, out) && RestoredTo(w, stored, user, checkpointId, active, out, c, now)
    ensures var r := c.snapshot.run;
      && now == stored.(goal := r.goal, spec := r.spec, iteration := r.iteration, maxIterations := r.maxIterations,
                        createdAt := r.createdAt,
                        status := RestoredStatus(stored, c.snapshot.steps),
                        stopReason := if now.status == AwaitingConfirmation then "恢复后等待重新审批" else "",
                        steps := now.steps, events := now.events)
      && |now.steps| == |c.snapshot.steps|
      && (forall i | 0 <= i < |now.steps| :: IsPutAs(stored, c.snapshot.steps[i].step, now.steps[i]))
  {
    hide Hydrate, Persist, WorldOk, Restore, RestoredRun, RestoredSteps, Reopened, FindCheckpoint, FreshStamps, GroundOk;
    hide RunOk, RestoredStatus;
    HeldAtRest(w, stored, out);
    var found, saved := RestoreSaves(w, stored, user, checkpointId, active, out);
    RestoredFields(stored, c, out);
    CheckpointRounds(w, stored, checkpointId, c);
    FieldsRead(w, RestoredRun(stored, c, out));
    forall i | 0 <= i < |now.steps|
      ensures i < |c.snapshot.steps| && IsPutAs(stored, c.snapshot.steps[i].step, now.steps[i])
    {
      RestoredStepReads(w, stored, c, out, i);
    }
    SameLengthRead(w, RestoredRun(stored, c, out));
  }

  lemma CheckpointRounds(w: World, stored: Run, checkpointId: string, c: Checkpoint)
    requires GroundOk(w, stored.id) && Hydrate(w.store, stored.id) == Some(stored)
    requires FindCheckpoint(w.store.checkpoints, checkpointId, stored) == Some(c)
    ensures RoundsOk(c.snapshot.run.iteration, c.snapshot.run.maxIterations) && DistinctIds(stored.steps)
  {
    hide Hydrate;
    FoundCheckpoint(w.store.checkpoints, checkpointId, stored);
  }

  lemma RestoredStepReads(w: World, stored: Run, c: Checkpoint, out: Outside, i: nat)
    requires Hydrate(w.store, stored.id) == Some(stored) && DistinctIds(stored.steps)
    requires i < |Reread(w, RestoredRun(stored, c, out)).steps|
    ensures i < |c.snapshot.steps| && IsPutAs(stored, c.snapshot.steps[i].step, Reread(w, RestoredRun(stored, c, out)).steps[i])
  {
    hide Hydrate, RestoredRun;
    var restored := RestoredRun(stored, c, out);
    RestoredFields(stored, c, out);
    SameLengthRead(w, restored);
    var row := c.snapshot.steps[i];
    ReopenedIs(stored, row);
    SkippedRowIff(w, stored, row.step.id);
    assert Reread(w, restored).steps[i] == WithKey(MergedStep(restored.steps[i], StoredStep(Rows(w, stored.id), restored.steps[i].id)));
    PutAsRead(stored, row.step, StoredStep(Rows(w, stored.id), row.step.id));
  }

  lemma PutAsRead(stored: Run, s: Step, row: Option<Step>)
    requires row.Some? && row.value.status == Skipped <==> StoredAsSkipped(stored.steps, s.id)
    ensures IsPutAs(stored, s, WithKey(MergedStep(Reopened(stored, s), row)))
  {
    hide StoredAsSkipped;
  }

  // ---------- What was sent stays sent ----------

  /** No operation takes back a step that was sent: it stays done, with the same input and the same result. */
  lemma OperationKeepsSent(w: World, stored: Run, op: Op)
    requires WorldOk(w, stored.id) && Hydrate(w.store, stored.id) == Some(stored) && Allowed(w, stored, op)
    ensures KeepsSentIn(stored.steps, Apply(w, stored.id, op), stored.id)
  {
    hide Hydrate, WorldOk, KeepsSentIn, FreshStamps, FreshAdvance, SameRun, ExecuteStep, BeginQueued, FinishQueued, Advance;
    hide Pause, CancelMission, Steer, Resume, Restore, Restart;
    StoredKeepsSent(w, stored);
    InTheAir(w, stored);
    match op
    case Execute(user, stepId, signature, approved, outcome, adv, out) =>
      ExecutingKeepsSent(w, stored, user, stepId, signature, approved, outcome, adv, out);
    case Begin(stepId, adv, out) => BeginningKeepsSent(w, stored, stepId, adv, out);
    case Finish(outcome, adv, out) => FinishingKeepsSent(w, stored, outcome, adv, out);
    case Move(adv, out) => AdvancingKeepsSent(w, stored, adv, out, 0);
    case Suspend(user, out) => PausingKeepsSent(w, stored, user, out);
    case Abort(user, out) => CancellingKeepsSent(w, stored, user, out);
    case Redirect(user, input, active, plan, out) => SteeringKeepsSent(w, stored, user, input, active, plan, out);
    case Continuation(user, replan, notSent, adv, out) => ResumingKeepsSent(w, stored, user, replan, notSent, adv, out);
    case GoBack(user, checkpointId, active, out) => RestoringKeepsSent(w, stored, user, checkpointId, active, out);
    case Reboot(stamps) => RestartingKeepsSent(w, stored, stamps);
    case Elsewhere(store) => ElsewhereKeepsSent(w, stored, store);
  }

  lemma InTheAir(w: World, stored: Run)
    requires WorldOk(w, stored.id) && Hydrate(w.store, stored.id) == Some(stored)
    ensures w.flight.Some? ==> Airborne(w.flight.value, stored, w.log)
  {
    hide Hydrate, RunOk, LogOk, CompletedOk, CheckpointOk, Airborne;
  }

  /** A restore is refused as soon as anything was sent. */
  lemma RestoringKeepsSent(w: World, stored: Run, user: Actor, checkpointId: string, active: bool, out: Outside)
    requires WorldOk(w, stored.id) && Hydrate(w.store, stored.id) == Some(stored) && FreshStamps(out.stamps, stored.events)
    ensures KeepsSentIn(stored.steps, Restore(w, stored.id, user, checkpointId, active, out).world, stored.id)
  {
    hide Hydrate, Persist, WorldOk, RestoredRun, Restore, Restoring, IsChosen, KeepsWrites, FreshStamps;
    var o := Restore(w, stored.id, user, checkpointId, active, out);
    RestoreIsAllowedIff(w, stored, user, checkpointId, active, out);
    StoredKeepsSent(w, stored);
    if !o.thrown {
      RestoredIsStored(w, stored, user, checkpointId, active, out);
    }
  }

  lemma RestoredIsStored(w: World, stored: Run, user: Actor, checkpointId: string, active: bool, out: Outside)
    requires Hydrate(w.store, stored.id) == Some(stored) && !Restore(w, stored.id, user, checkpointId, active, out).thrown
    ensures Hydrate(Restore(w, stored.id, user, checkpointId, active, out).world.store, stored.id).Some?
  {
    hide Hydrate, Restore;
    var c, now := RestoreSaves(w, stored, user, checkpointId, active, out);
  }

  lemma RestartingKeepsSent(w: World, stored: Run, stamps: Stamps)
    requires Hydrate(w.store, stored.id) == Some(stored)
    ensures KeepsSentIn(stored.steps, Restart(w, stamps), stored.id)
  {
    hide Hydrate, Restart, KeepsSent;
    var now := RunAfterRestart(w, stored, stamps);
    InterruptedKeepsSent(stored.steps, now.steps);
  }

  lemma InterruptedKeepsSent(was: seq<Step>, now: seq<Step>)
    requires AllInterrupted(was, now)
    ensures KeepsSent(was, now)
  {
    forall s | s in was && IsSent(s)
      ensures exists t | t in now :: SameSent(s, t)
    {
      var i :| 0 <= i < |was| && was[i] == s;
      assert now[i] in now && SameSent(s, now[i]);
    }
  }

  lemma ElsewhereKeepsSent(w: World, stored: Run, store: Store)
    requires Hydrate(w.store, stored.id) == Some(stored) && SameRun(w.store, store, stored.id)
    ensures KeepsSentIn(stored.steps, w.(store := store), stored.id)
  {
    hide Hydrate, KeepsSent;
    KeepsSentItself(stored.steps);
  }

  /**
   Over every run, restores and restarts included, an external step that was sent stays done with the
   input it was sent with and the result it came back with.
   */
  lemma {:induction false} SentStaysSent(w: World, stored: Run, ops: seq<Op>, s: Step) returns (t: Step)
    requires WorldOk(w, stored.id) && Hydrate(w.store, stored.id) == Some(stored) && Possible(w, stored.id, ops)
    requires s in stored.steps && s.risk == External && s.status == Done
    ensures Hydrate(Exec(w, stored.id, ops).store, stored.id).Some?
    ensures t in Hydrate(Exec(w, stored.id, ops).store, stored.id).value.steps
    ensures t.id == s.id && t.risk == External && t.status == Done && t.input == s.input && t.result == s.result
    decreases |ops|
  {
    hide Apply, Allowed, Hydrate, RunOk, LogOk, CompletedOk, CheckpointOk, FlightOk, KeepsSent;
    if ops == [] {
      t := s;
    } else {
      OpOk(w, stored, ops[0]);
      OperationKeepsSent(w, stored, ops[0]);
      var w1 := Apply(w, stored.id, ops[0]);
      var now := Hydrate(w1.store, stored.id).value;
      SoundToolOf(stored, s, w.log);
      var u := StillSent(stored.steps, now.steps, s);
      t := SentStaysSent(w1, now, ops[1..], u);
    }
  }

  lemma SoundToolOf(run: Run, s: Step, log: seq<Effect>)
    requires RunOk(run, log) && s in run.steps && s.risk == External && s.status == Done
    ensures IsSent(s)
  {
    hide FinishedRests, GraphOk;
    assert StepOk(run, s, log);
  }

  lemma StillSent(was: seq<Step>, now: seq<Step>, s: Step) returns (t: Step)
    requires KeepsSent(was, now) && s in was && IsSent(s)
    ensures t in now && SameSent(s, t)
  {
    t :| t in now && SameSent(s, t);
  }
}
