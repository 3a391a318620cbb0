/**
 Whole runs of a mission: any sequence of operations from its creation on, with any plans, model
 replies, tool results, clocks and random ids, keeps every promise of the invariant.
 */
module MissionRuns {
  import opened Prelude
  import opened Values
  import opened AgentTypes
  import opened References
  import opened WorkflowGraph
  import opened GraphLaws
  import opened Planning
  import opened Recovery
  import opened Runs
  import opened NodeLaws
  import opened Collections
  import opened RunStore
  import opened Mission
  import opened MissionInvariant
  import opened MissionSave
  import opened MissionPasses
  import opened MissionMoves
  import opened MissionOps
  import opened MissionAdvance
  import opened MissionExecute
  import opened MissionFlight
  import opened MissionReplan
  import opened MissionRestore
  import Verifier

  /** One operation on the mission, with everything it draws from outside. */
  datatype Op =
    | Execute(user: Actor, stepId: string, signature: Signature, approved: bool,
              outcome: Result<Value, string>, adv: AdvanceInput, out: Outside)
    | Begin(stepId: string, adv: AdvanceInput, out: Outside)
    | Finish(outcome: Result<Value, string>, adv: AdvanceInput, out: Outside)
    | Move(adv: AdvanceInput, out: Outside)
    | Suspend(user: Actor, out: Outside)
    | Abort(user: Actor, out: Outside)
    | Redirect(user: Actor, input: string, active: bool, plan: Plan, out: Outside)
    | Continuation(user: Actor, replan: Option<Plan>, notSent: bool, adv: AdvanceInput, out: Outside)
    | GoBack(user: Actor, checkpointId: string, active: bool, out: Outside)
    | Reboot(stamps: Stamps)
    | Elsewhere(store: Store)

  ghost function Apply(w: World, id: string, op: Op): World {
    match op
    case Execute(user, stepId, signature, approved, outcome, adv, out) =>
      ExecuteStep(w, id, user, stepId, signature, approved, outcome, adv, out).world
    case Begin(stepId, adv, out) => BeginQueued(w, id, stepId, adv, out).world
    case Finish(outcome, adv, out) => FinishQueued(w, id, outcome, adv, out).world
    case Move(adv, out) => Advance(w, id, adv, out, 0).world
    case Suspend(user, out) => Pause(w, id, user, out).world
    case Abort(user, out) => CancelMission(w, id, user, out).world
    case Redirect(user, input, active, plan, out) => Steer(w, id, user, input, active, plan, out).world
    case Continuation(user, replan, notSent, adv, out) => Resume(w, id, user, replan, notSent, adv, out).world
    case GoBack(user, checkpointId, active, out) => Restore(w, id, user, checkpointId, active, out).world
    case Reboot(stamps) => Restart(w, stamps)
    case Elsewhere(store) => w.(store := store)
  }

  /** Operations on other runs leave this one and its checkpoints alone. */
  ghost predicate SameRun(a: Store, b: Store, id: string) {
    && Hydrate(b, id) == Hydrate(a, id)
    && forall c | c in b.checkpoints && c.runId == id :: c in a.checkpoints
  }

  /**
   Random ids are new. While an action is awaited only its end, a pause, a cancellation, an
   instruction, a restart or work on other runs may come.
   */
  ghost predicate Allowed(w: World, stored: Run, op: Op) {
    match op
    case Execute(_, _, _, _, _, adv, out) => w.flight == None && FreshStamps(out.stamps, stored.events) && FreshAdvance(adv, stored.steps)
    case Begin(_, adv, out) => w.flight == None && FreshStamps(out.stamps, stored.events) && FreshAdvance(adv, stored.steps)
    case Move(adv, out) => w.flight == None && FreshStamps(out.stamps, stored.events) && FreshAdvance(adv, stored.steps)
    case Finish(_, adv, out) => FreshStamps(out.stamps, stored.events) && FreshAdvance(adv, stored.steps)
    case Suspend(_, out) => FreshStamps(out.stamps, stored.events)
    case Abort(_, out) => FreshStamps(out.stamps, stored.events)
    case Redirect(_, _, _, plan, out) => FreshStamps(out.stamps, stored.events) && FreshItems(plan.items, stored.steps)
    case Continuation(_, replan, _, adv, out) =>
      && w.flight == None && FreshStamps(out.stamps, stored.events) && FreshAdvance(adv, stored.steps)
      && (replan.Some? ==> FreshItems(replan.value.items, stored.steps))
    case GoBack(_, _, _, out) => w.flight == None && FreshStamps(out.stamps, stored.events)
    case Reboot(stamps) => FreshStamps(stamps, stored.events)
    case Elsewhere(store) => SameRun(w.store, store, stored.id)
  }

  // ---------- One operation ----------

  lemma Standing(w: World, stored: Run, out: Outside)
    requires WorldOk(w, stored.id) && Hydrate(w.store, stored.id) == Some(stored) && FreshStamps(out.stamps, stored.events)
    ensures Grounded(w, stored, out)
    ensures w.flight == None ==> AtRest(w, stored, out)
    ensures w.flight.Some? ==> InFlight(w, stored, w.flight.value, out)
  {
    hide RunOk, LogOk, CompletedOk, CheckpointOk, Airborne, Hydrate;
  }

  lemma NextIsLater(stored: Run, w: World)
    requires Next(stored, w)
    ensures Later(stored, w)
  {
    hide Later, Hydrate, Verified;
  }

  lemma Unchanged(w: World, stored: Run)
    requires WorldOk(w, stored.id) && Hydrate(w.store, stored.id) == Some(stored)
    ensures Next(stored, w)
  {
    hide RunOk, LogOk, CompletedOk, CheckpointOk, FlightOk, Hydrate, WorldOk;
  }

  lemma ElsewhereOk(w: World, stored: Run, store: Store)
    requires WorldOk(w, stored.id) && Hydrate(w.store, stored.id) == Some(stored) && SameRun(w.store, store, stored.id)
    ensures Next(stored, w.(store := store))
  {
    hide RunOk, LogOk, CompletedOk, CheckpointOk, FlightOk, Hydrate;
  }

  /** Saving another run is work elsewhere. */
  lemma OtherSaveIsElsewhere(w: World, other: Run, tick: Tick, id: string)
    requires other.id != id
    ensures SameRun(w.store, Save(w, other, tick).store, id)
  {
    hide Hydrate;
    OtherRunsUnchanged(w.store, other, tick, id);
  }

  predicate IsRestoreOrRestart(op: Op) { op.GoBack? || op.Reboot? }

  lemma AtRestOpOk(w: World, stored: Run, op: Op)
    requires WorldOk(w, stored.id) && Hydrate(w.store, stored.id) == Some(stored) && Allowed(w, stored, op)
    requires w.flight == None && !IsRestoreOrRestart(op)
    ensures Next(stored, Apply(w, stored.id, op))
  {
    hide Hydrate, WorldOk, Next, AtRest, FreshStamps, FreshAdvance, FreshItems, SameRun;
    hide ExecuteStep, BeginQueued, Advance, Pause, CancelMission, Steer, Resume;
    match op
    case Execute(user, stepId, signature, approved, outcome, adv, out) =>
      Standing(w, stored, out);
      ExecuteStepOk(w, stored, user, stepId, signature, approved, outcome, adv, out);
    case Begin(stepId, adv, out) => Standing(w, stored, out); BeginQueuedOk(w, stored, stepId, adv, out);
    case Finish(outcome, adv, out) => Unchanged(w, stored);
    case Move(adv, out) => Standing(w, stored, out); AdvanceOk(w, stored, adv, out, 0);
    case Suspend(user, out) => Standing(w, stored, out); PauseOk(w, stored, user, out);
    case Abort(user, out) => Standing(w, stored, out); CancelOk(w, stored, user, out);
    case Redirect(user, input, active, plan, out) => Standing(w, stored, out); SteerOk(w, stored, user, input, active, plan, out);
    case Continuation(user, replan, notSent, adv, out) =>
      Standing(w, stored, out);
      ResumeOk(w, stored, user, replan, notSent, adv, out);
    case Elsewhere(store) => ElsewhereOk(w, stored, store);
  }

  lemma InFlightOpOk(w: World, stored: Run, op: Op)
    requires WorldOk(w, stored.id) && Hydrate(w.store, stored.id) == Some(stored) && Allowed(w, stored, op)
    requires w.flight.Some? && !IsRestoreOrRestart(op)
    ensures Next(stored, Apply(w, stored.id, op))
  {
    hide Hydrate, WorldOk, Next, InFlight, FreshStamps, FreshAdvance, FreshItems, SameRun;
    hide ExecuteStep, BeginQueued, FinishQueued, Advance, Pause, CancelMission, Steer, Resume;
    match op
    case Finish(outcome, adv, out) => Standing(w, stored, out); FinishQueuedOk(w, stored, w.flight.value, outcome, adv, out);
    case Suspend(user, out) => Standing(w, stored, out); PauseInFlightOk(w, stored, w.flight.value, user, out);
    case Abort(user, out) => Standing(w, stored, out); CancelInFlightOk(w, stored, w.flight.value, user, out);
    case Redirect(user, input, active, plan, out) =>
      Standing(w, stored, out);
      SteerInFlightOk(w, stored, w.flight.value, user, input, active, plan, out);
    case Elsewhere(store) => ElsewhereOk(w, stored, store);
  }

  /** Only a restored mission is completed without evidence; every operation keeps the invariant and every event. */
  lemma OpOk(w: World, stored: Run, op: Op)
    requires WorldOk(w, stored.id) && Hydrate(w.store, stored.id) == Some(stored) && Allowed(w, stored, op)
    ensures Later(stored, Apply(w, stored.id, op))
    ensures !IsRestoreOrRestart(op) ==> Next(stored, Apply(w, stored.id, op))
  {
    hide Hydrate, WorldOk, Next, Later, AtRest, Grounded, InFlight, Restore, Restart, FreshStamps, FreshAdvance, FreshItems, SameRun;
    hide ExecuteStep, BeginQueued, FinishQueued, Advance, Pause, CancelMission, Steer, Resume, GroundOk;
    match op
    case GoBack(user, checkpointId, active, out) =>
      Standing(w, stored, out);
      RestoreOk(w, stored, user, checkpointId, active, out);
    case Reboot(stamps) =>
      OnTheGround(w, stored);
      RestartOk(w, stored, stamps);
    case _ =>
      if w.flight == None { AtRestOpOk(w, stored, op); } else { InFlightOpOk(w, stored, op); }
      NextIsLater(stored, Apply(w, stored.id, op));
  }

  lemma OnTheGround(w: World, stored: Run)
    requires WorldOk(w, stored.id) && Hydrate(w.store, stored.id) == Some(stored)
    ensures GroundOk(w, stored.id)
  {
    hide RunOk, LogOk, CompletedOk, CheckpointOk, FlightOk, Hydrate;
  }

  // ---------- Whole runs ----------

  ghost function Exec(w: World, id: string, ops: seq<Op>): World
    decreases |ops|
  {
    if ops == [] then w else Exec(Apply(w, id, ops[0]), id, ops[1..])
  }

  ghost predicate Possible(w: World, id: string, ops: seq<Op>)
    decreases |ops|
  {
    ops == [] || (Hydrate(w.store, id).Some? && Allowed(w, Hydrate(w.store, id).value, ops[0])
                  && Possible(Apply(w, id, ops[0]), id, ops[1..]))
  }

  /** The invariant holds after every run, and no event of the mission is ever lost. */
  lemma {:induction false} EveryRunIsSound(w: World, stored: Run, ops: seq<Op>)
    requires WorldOk(w, stored.id) && Hydrate(w.store, stored.id) == Some(stored) && Possible(w, stored.id, ops)
    ensures Later(stored, Exec(w, stored.id, ops))
    decreases |ops|
  {
    hide Apply, Allowed, Hydrate, RunOk, LogOk, CompletedOk, CheckpointOk, FlightOk;
    if ops != [] {
      OpOk(w, stored, ops[0]);
      var w1 := Apply(w, stored.id, ops[0]);
      EveryRunIsSound(w1, Hydrate(w1.store, stored.id).value, ops[1..]);
    }
  }

  // ---------- What that means for a mission from its creation on ----------

  /** A world some mission can get into. */
  ghost predicate Reachable(w: World, id: string) {
    exists store: Store, run: Run, plan: Plan, conversation: bool, out: Outside, ops: seq<Op> ::
      run.id == id && Reaches(store, run, plan, conversation, out, ops, w)
  }

  ghost predicate Reaches(store: Store, run: Run, plan: Plan, conversation: bool, out: Outside, ops: seq<Op>, w: World) {
    && NewRunId(store, run.id) && FreshItems(plan.items, [])
    && (forall j: nat, k: nat | j != k :: out.stamps(j).0 != out.stamps(k).0)
    && var created := CreatePlan(store, run, plan, conversation, out);
       created.Some? && Possible(created.value, run.id, ops) && w == Exec(created.value, run.id, ops)
  }

  lemma ReachableIsOk(w: World, id: string)
    requires Reachable(w, id)
    ensures WorldOk(w, id)
  {
    hide RunOk, LogOk, CompletedOk, CheckpointOk, FlightOk, Hydrate, CreatePlan, Possible, Exec, FreshItems, NewRunId;
    var store: Store, run: Run, plan: Plan, conversation: bool, out: Outside, ops: seq<Op> :|
      run.id == id && Reaches(store, run, plan, conversation, out, ops, w);
    CreatePlanOk(store, run, plan, conversation, out);
    var created := CreatePlan(store, run, plan, conversation, out).value;
    EveryRunIsSound(created, Hydrate(created.store, id).value, ops);
  }

  lemma {:induction false} ConfirmationsGrow(log: seq<Effect>, k: nat, id: string, input: Value)
    requires k <= |log|
    ensures Confirmations(log[..k], id, input) <= Confirmations(log, id, input)
    decreases |log|
  {
    if k < |log| {
      var front := log[..|log| - 1];
      ConfirmationsGrow(front, k, id, input);
      assert front[..k] == log[..k];
    } else {
      assert log[..k] == log;
    }
  }

  lemma {:induction false} StartIsLogged(log: seq<Effect>, id: string, input: Value) returns (k: nat)
    requires Starts(log, id, input) > 0
    ensures k < |log| && IsExternalStart(log[k], id, input)
  {
    if IsExternalStart(log[|log| - 1], id, input) {
      k := |log| - 1;
    } else {
      k := StartIsLogged(log[..|log| - 1], id, input);
    }
  }

  /**
   In any run, restores included, no payload of a step is sent more often than it was queued: once for
   every request that approved it and once for every time it was queued again on an approval given
   before. What was never approved is never sent.
   */
  lemma SentAtMostOncePerQueueing(w: World, id: string, stepId: string, input: Value)
    requires Reachable(w, id)
    ensures Starts(w.log, stepId, input) <= Confirmations(w.log, stepId, input) + Requeueings(w.log, stepId, input)
    ensures Starts(w.log, stepId, input) > 0 ==> Confirmations(w.log, stepId, input) > 0
  {
    hide Reachable, Hydrate, RunOk;
    ReachableIsOk(w, id);
    QueuedEitherWay(w.log, stepId, input);
    if Starts(w.log, stepId, input) > 0 {
      var k := StartIsLogged(w.log, stepId, input);
      assert EffectOk(w.log[k], Hydrate(w.store, id).value.events, w.log[..k]);
      ConfirmationsGrow(w.log, k, stepId, input);
    }
  }

  lemma {:induction false} ConfirmationIsLogged(log: seq<Effect>, stepId: string, input: Value) returns (j: nat)
    requires Confirmations(log, stepId, input) > 0
    ensures j < |log| && IsQueueing(log[j], stepId, input) && log[j].confirmed
  {
    var last := log[|log| - 1];
    if IsQueueing(last, stepId, input) && last.confirmed {
      j := |log| - 1;
    } else {
      j := ConfirmationIsLogged(log[..|log| - 1], stepId, input);
    }
  }

  /** What is invoked outside was approved before by the user, with exactly this final input. */
  lemma EverySendWasApproved(w: World, id: string, k: nat) returns (j: nat)
    requires Reachable(w, id) && k < |w.log| && w.log[k].StartedEffect? && w.log[k].step.risk == External
    ensures j < k && w.log[j].QueuedEffect? && w.log[j].confirmed
    ensures var sent, approved := w.log[k].step, w.log[j].step;
      && approved.id == sent.id && approved.input == sent.input && HasNoReferences(sent.input)
      && sent.approved && approved.approved && approved.risk == External
  {
    hide Reachable, Hydrate, RunOk;
    ReachableIsOk(w, id);
    var sent, events := w.log[k].step, Hydrate(w.store, id).value.events;
    assert EffectOk(w.log[k], events, w.log[..k]);
    j := ConfirmationIsLogged(w.log[..k], sent.id, sent.input);
    assert EffectOk(w.log[j], events, w.log[..j]);
  }

  /** A write starts approved unless this very step was filled in before, or put back by a restore. */
  lemma EveryWriteWasCleared(w: World, id: string, k: nat)
    requires Reachable(w, id) && k < |w.log| && w.log[k].StartedEffect? && w.log[k].step.risk == Write
    ensures var s := w.log[k].step; s.approved || FilledInEffect(s.id) in w.log[..k] || PutBackEffect(s.id) in w.log[..k]
  {
    hide Reachable, Hydrate, RunOk;
    ReachableIsOk(w, id);
    assert EffectOk(w.log[k], Hydrate(w.store, id).value.events, w.log[..k]);
  }

  /** Each step is retried automatically at most once, even across restores and restarts. */
  lemma RetriedAtMostOnce(w: World, id: string, stepId: string)
    requires Reachable(w, id)
    ensures Retries(w.log, stepId) <= 1
  {
    hide Reachable, Hydrate, RunOk;
    ReachableIsOk(w, id);
  }

  /** A completed mission has evidence for its goal, was a plain conversation, or was closed by the last restore. */
  lemma CompletedMeansVerified(w: World, id: string)
    requires Reachable(w, id)
    ensures Hydrate(w.store, id).Some?
    ensures var run := Hydrate(w.store, id).value;
      run.status == Completed && run.steps != [] && !LeftClosed(w.log) ==> Verifier.Complete(run.spec, run.steps)
  {
    hide Reachable, Hydrate, RunOk;
    ReachableIsOk(w, id);
  }

  /**
   In any run, restores included, the rounds counted stay between one and the mission's own limit, and
   that limit within 24; so do those of every checkpoint it can be restored to.
   */
  lemma RoundsStayBounded(w: World, id: string)
    requires Reachable(w, id)
    ensures Hydrate(w.store, id).Some?
    ensures var run := Hydrate(w.store, id).value; 1 <= run.iteration <= run.maxIterations <= 24
    ensures forall c | c in w.store.checkpoints && c.runId == id ::
      1 <= c.snapshot.run.iteration <= c.snapshot.run.maxIterations <= 24
  {
    hide Reachable, Hydrate;
    ReachableIsOk(w, id);
  }

  // ---------- Finished steps rest on finished steps ----------

  /** No step depends on one of the two observers that are rewound and run again. */
  predicate NothingPolled(steps: seq<Step>) {
    forall s, t | s in steps && t in steps && t.key in s.dependsOn :: !IsPolled(t.tool)
  }

  /** In every reachable state the finished steps are closed under dependencies, unless an observer is depended on. */
  lemma DoneIsClosed(w: World, id: string)
    requires Reachable(w, id)
    ensures Hydrate(w.store, id).Some?
    ensures var steps := Hydrate(w.store, id).value.steps; NothingPolled(steps) ==> DoneClosed(steps)
  {
    hide Reachable, Hydrate, StepOk;
    ReachableIsOk(w, id);
    var steps := Hydrate(w.store, id).value.steps;
    if NothingPolled(steps) {
      forall s | s in steps && (s.status == Done || s.status == Running)
        ensures DependenciesSatisfied(s, steps)
      {
        forall key | key in s.dependsOn
          ensures exists t | t in steps :: t.key == key && t.status == Done
        {
          assert RestsOn(key, steps);
          var t :| t in steps && t.key == key && (t.status == Done || IsPolled(t.tool));
        }
      }
    }
  }

  // ---------- What is next ----------

  /**
   Unless a turn's limits once removed a step that a kept one waits for, the graph of every reachable
   run is sound: distinct keys, no open dependency, no cycle.
   */
  lemma GraphStaysSound(w: World, id: string)
    requires Reachable(w, id) && Whole(w.log)
    ensures Hydrate(w.store, id).Some? && SoundGraph(Hydrate(w.store, id).value.steps)
  {
    hide Reachable, Hydrate, StepOk, SoundGraph;
    ReachableIsOk(w, id);
  }

  /** So the next node of such a mission executes or asks for approval while a waiting step has no failed or skipped ancestor. */
  lemma NextIsExecuteOrApproval(w: World, id: string, s: Step)
    requires Reachable(w, id) && Whole(w.log) && Hydrate(w.store, id).Some?
    requires var run := Hydrate(w.store, id).value;
      Undisturbed(run) && s in run.steps && Waiting(s) && !HasBlockedAncestor(run.steps, s)
    ensures NodeOf(Hydrate(w.store, id).value) in {ExecuteNode, ApprovalNode}
  {
    hide Reachable, Hydrate, SoundGraph, HasBlockedAncestor, Undisturbed, NodeOf;
    GraphStaysSound(w, id);
    NeverStuck(Hydrate(w.store, id).value, s);
  }

  /** And where no observer is depended on, it is evaluated exactly when everything left is blocked. */
  lemma EvaluatedExactlyWhenBlocked(w: World, id: string)
    requires Reachable(w, id) && Whole(w.log) && Hydrate(w.store, id).Some?
    requires var run := Hydrate(w.store, id).value; Undisturbed(run) && NothingPolled(run.steps)
    ensures var run := Hydrate(w.store, id).value;
      NodeOf(run) == EvaluateNode
      <==> !AnyRunning(run.steps) && forall s | s in run.steps && IsActive(s.status) :: HasBlockedAncestor(run.steps, s)
  {
    hide Reachable, Hydrate, SoundGraph, HasBlockedAncestor, Undisturbed, NodeOf, NothingPolled, DoneClosed;
    GraphStaysSound(w, id);
    DoneIsClosed(w, id);
    EvaluateIffAllBlocked(Hydrate(w.store, id).value);
  }
}
