/** Which requests to execute a step act, on which step, and what they leave in the store. */
module MissionRequests {
  import opened Prelude
  import opened Values
  import opened AgentTypes
  import opened References
  import opened Planning
  import opened Recovery
  import opened Runs
  import opened Collections
  import opened RunStore
  import opened Mission
  import opened MissionInvariant
  import opened MissionSave
  import opened MissionPasses
  import opened MissionMoves
  import opened MissionOps
  import opened MissionAdvance
  import opened MissionExecute
  import opened MissionFlight
  import opened MissionRuns
  import opened MissionLog
  import opened MissionEffects
  import Verifier

  // ---------- When a step may be executed ----------

  /** Every dependency is done, and none of them failed or was skipped. */
  predicate Unblocked(s: Step, steps: seq<Step>) {
    forall key | key in s.dependsOn ::
      && (exists t | t in steps :: t.key == key && t.status == Done)
      && forall t | t in steps && t.key == key :: t.status != Failed && t.status != Skipped
  }

  /** The mission is open and has not expired, and the step's turn has come. */
  predicate IsDue(run: Run, s: Step, now: int) {
    && run.expiresAt > now && run.status !in {Paused, WaitingUser, Completed, RunStatus.Cancelled}
    && s.status != Skipped && Unblocked(s, run.steps) && Collect(s.input, 0).Ok?
  }

  lemma {:induction false} FirstBlockingIff(keys: seq<string>, steps: seq<Step>)
    requires "" !in keys
    ensures FirstBlocking(keys, steps) == "" <==> forall key | key in keys :: !Blocks(key, steps)
  {
    hide Blocks;
    if keys != [] {
      FirstBlockingIff(keys[1..], steps);
      assert keys[0] in keys && forall key :: key in keys <==> key == keys[0] || key in keys[1..];
    }
  }

  lemma UnblockedIff(s: Step, steps: seq<Step>)
    requires forall t | t in steps :: t.key != ""
    ensures Unblocked(s, steps) <==> DependencyFailure(s, steps) == "" && DependenciesSatisfied(s, steps)
  {
    hide Blocks, FirstBlocking;
    if "" !in s.dependsOn {
      FirstBlockingIff(s.dependsOn, steps);
      NoneBlocks(s.dependsOn, steps);
    }
  }

  lemma NoneBlocks(keys: seq<string>, steps: seq<Step>)
    ensures (forall key | key in keys :: !Blocks(key, steps))
       <==> forall key | key in keys :: forall t | t in steps && t.key == key :: t.status != Failed && t.status != Skipped
  {
  }

  lemma RefusedIff(run: Run, i: int, now: int)
    requires i < |run.steps| && forall t | t in run.steps :: t.key != ""
    ensures !Refused(run, i, now) <==> i >= 0 && IsDue(run, run.steps[i], now)
  {
    hide DependencyFailure, DependenciesSatisfied, Unblocked, Collect;
    if i >= 0 {
      UnblockedIff(run.steps[i], run.steps);
    }
  }

  /**
   The step as it would run: as stored, or with its references filled in. A guarded step whose input was
   still open has to be approved again, and does not run.
   */
  predicate RunsAs(run: Run, s: Step, f: Step) {
    if HasNoReferences(s.input) then f == s
    else
      && !PreparationThrows(run) && s.risk != External && s.status != Failed
      && (if s.status in {Ready, NeedsConfirmation, Queued} then
            && Resolve(s.input, run.steps, 0) == Ok(f.input)
            && f == s.(input := f.input, signature := Signature(run.id, s.id, s.tool, f.input, run.ownerId, run.teamId))
          else f == s)
      && !RequiresSecondaryConfirmation(s.tool, f.input)
  }

  /** The request is signed for exactly this step and input, and approves what needs approval. */
  predicate IsOrdered(f: Step, signature: Signature, approved: bool) {
    && f.signature == signature && f.status !in {Queued, Running, Done}
    && (f.risk == Write || f.risk == External ==> approved || f.approved)
  }

  /** The owner asks for a step that is due, as it would run, and in order. */
  ghost predicate InOrder(stored: Run, user: Actor, stepId: string, signature: Signature, approved: bool, now: int) {
    user == Owner(stored)
    && exists s, f | s in stored.steps && s.id == stepId ::
         IsDue(stored, s, now) && RunsAs(stored, s, f) && IsOrdered(f, signature, approved)
  }

  // ---------- What a request logs ----------

  predicate IsAct(e: Effect) { e.StartedEffect? || e.QueuedEffect? }

  /** The one act added, if any, is on the step asked for, as the request was signed. */
  predicate ActsOn(before: seq<Effect>, after: seq<Effect>, stepId: string, signature: Signature) {
    && before <= after
    && forall k | |before| <= k < |after| && IsAct(after[k]) ::
         after[k].step.id == stepId && after[k].step.signature == signature && (after[k].StartedEffect? ==> after[k].step.risk != External)
  }

  predicate Acts(before: seq<Effect>, after: seq<Effect>) {
    before <= after && exists k | |before| <= k < |after| :: IsAct(after[k])
  }

  lemma QuietDoesNotAct(before: seq<Effect>, after: seq<Effect>, steps: seq<Step>)
    requires QuietLog(before, after, steps)
    ensures !Acts(before, after) && before <= after
  {
  }

  lemma ActThenQuiet(before: seq<Effect>, mid: seq<Effect>, e: Effect, after: seq<Effect>, steps: seq<Step>, now: seq<Step>)
    requires QuietLog(before, mid, steps) && IsAct(e) && QuietLog(mid + [e], after, now)
    ensures Acts(before, after)
    ensures forall k | |before| <= k < |after| && IsAct(after[k]) :: after[k] == e
  {
    assert (mid + [e])[|mid|] == e;
    assert after[|mid|] == e;
    assert forall k | |before| <= k < |mid| :: after[k] == mid[k] && IsQuiet(mid[k], steps);
  }

  lemma ResolvedActsIff(
    w: World, before: seq<Effect>, steps: seq<Step>, run: Run, i: nat, signature: Signature, approved: bool,
    outcome: Result<Value, string>, adv: AdvanceInput, out: Outside, tick: nat)
    requires i < |run.steps| && QuietLog(before, w.log, steps)
    requires run.steps[i].signature == Sign(run.id, run.steps[i].id, run.steps[i].tool, run.steps[i].input, Owner(run))
    ensures var o := ExecuteResolved(w, run, i, signature, approved, outcome, adv, out, tick);
      && (Acts(before, o.world.log) <==> IsOrdered(run.steps[i], signature, approved))
      && ActsOn(before, o.world.log, run.steps[i].id, signature)
  {
    hide RunNow, Persist, QuietLog, StartedRun, QueuedRun, Acts, IsAct;
    var s := run.steps[i];
    var after := ExecuteResolved(w, run, i, signature, approved, outcome, adv, out, tick).world.log;
    QuietDoesNotAct(before, w.log, steps);
    NothingActs(before, w.log);
    if IsOrdered(s, signature, approved) {
      QueuedIs(run, i, approved, out);
      StartedIs(run, i, approved, out);
      if s.risk == External {
        var e := QueuedEffect(QueuedRun(run, i, approved, out).steps[i], approved);
        NothingAdded(w.log + [e], run.steps);
        ActThenQuiet(before, w.log, e, after, steps, run.steps) by { IsAnAct(e); }
      } else {
        var e := StartedEffect(StartedRun(run, i, approved, out).steps[i]);
        RunNowLogs(w, run, i, approved, outcome, adv, out, tick);
        ActThenQuiet(before, w.log, e, after, steps, run.steps) by { IsAnAct(e); }
      }
    }
  }

  lemma IsAnAct(e: Effect)
    ensures IsAct(e) <==> e.StartedEffect? || e.QueuedEffect?
  {
  }

  lemma NothingActs(before: seq<Effect>, after: seq<Effect>)
    requires before <= after && !Acts(before, after)
    ensures forall k | |before| <= k < |after| :: !IsAct(after[k])
  {
  }

  lemma QueuedIs(run: Run, i: nat, approved: bool, out: Outside)
    requires i < |run.steps|
    ensures var s := run.steps[i];
      QueuedRun(run, i, approved, out).steps == run.steps[i := s.(error := "", status := Queued, approved := s.approved || approved)]
  {
  }

  lemma StartedIs(run: Run, i: nat, approved: bool, out: Outside)
    requires i < |run.steps|
    ensures var s := run.steps[i];
      StartedRun(run, i, approved, out).steps == run.steps[i := s.(error := "", status := Running, approved := s.approved || approved)]
  {
  }

  // ---------- Filling in first ----------

  lemma RunsAsFilledIn(run: Run, s: Step, f: Step)
    requires !HasNoReferences(s.input) && DependenciesSatisfied(s, run.steps)
    ensures var p := PreparedStep(s, run, Owner(run));
      RunsAs(run, s, f) <==> !PreparationThrows(run) && p.status != Failed && p.risk != External
                             && !RequiresSecondaryConfirmation(p.tool, p.input) && f == p
  {
    hide Resolve, Collect, RequiresSecondaryConfirmation, DependenciesSatisfied, PreparationThrows;
  }

  /** The prepared run as the engine goes on with it. */
  lemma PreparedReads(w: World, stored: Run, i: nat, out: Outside)
    requires AtRest(w, stored, out) && i < |stored.steps| && stored.steps[i].status != Skipped
    ensures var prepared := Prepare(stored, Owner(stored), out.stamps);
      var saved := Saved(w, prepared);
      && i < |saved.steps| && saved.id == stored.id && Owner(saved) == Owner(stored)
      && saved.steps[i] == PreparedStep(stored.steps[i], stored, Owner(stored))
      && Leaves(Save(Preparing(w, stored), prepared, out.ticks(0)), stored, prepared)
  {
    hide Hydrate, Persist, GroundOk, RunOk, Prepare, Preparing, PreparedStep, Leaves, Reread;
    var prepared, w0 := Prepare(stored, Owner(stored), out.stamps), Preparing(w, stored);
    PreparingOk(w, stored, out);
    PrepareSound(stored, w0.log, out.stamps);
    PreparedFirst(stored, out.stamps);
    LeavesWritten(w0, stored, prepared, out.ticks(0), w0.log);
    SoundRunHas(prepared, w0.log);
    SavedIsAfter(w, stored, prepared);
    assert StepAsWritten(stored.steps, i, prepared.steps[i], Reread(w0, prepared).steps[i]);
    SameStoreSameRead(w, w0, prepared);
  }

  lemma PreparedFirst(stored: Run, stamps: Stamps)
    ensures SameFirst(stored.steps, Prepare(stored, Owner(stored), stamps).steps)
  {
    hide Resolve, HasNoReferences, DependenciesSatisfied;
  }

  lemma SameStoreSameRead(a: World, b: World, run: Run)
    requires a.store == b.store
    ensures Reread(a, run) == Reread(b, run) && Saved(a, run) == Saved(b, run)
  {
  }

  lemma PreparedActsIff(
    w: World, stored: Run, i: nat, signature: Signature, approved: bool, outcome: Result<Value, string>, adv: AdvanceInput, out: Outside)
    requires AtRest(w, stored, out) && i < |stored.steps| && stored.steps[i].status != Skipped
    requires DependenciesSatisfied(stored.steps[i], stored.steps) && !HasNoReferences(stored.steps[i].input)
    ensures var s, o := stored.steps[i], ExecutePrepared(w, stored, i, signature, approved, outcome, adv, out);
      && (Acts(w.log, o.world.log) <==> exists f :: RunsAs(stored, s, f) && IsOrdered(f, signature, approved))
      && ActsOn(w.log, o.world.log, s.id, signature)
  {
    hide Hydrate, Persist, GroundOk, RunOk, Prepare, Preparing, PreparedStep, Leaves, Saved, ExecuteResolved;
    hide PreparationThrows, RunsAs, IsOrdered, Acts;
    hide RequiresSecondaryConfirmation, QuietLog, DependenciesSatisfied, HasNoReferences;
    var s := stored.steps[i];
    var prepared, p := Prepare(stored, Owner(stored), out.stamps), PreparedStep(s, stored, Owner(stored));
    forall f {
      RunsAsFilledIn(stored, s, f);
    }
    NothingAdded(w.log, stored.steps);
    QuietDoesNotAct(w.log, w.log, stored.steps);
    if !PreparationThrows(stored) {
      var w1, saved := Save(Preparing(w, stored), prepared, out.ticks(0)), Saved(w, prepared);
      PreparedReads(w, stored, i, out);
      PreparingIsQuiet(w, stored);
      QuietDoesNotAct(w.log, w1.log, stored.steps);
      NothingActs(w.log, w1.log);
      SignedAsFilledIn(stored, i, w.log);
      if p.status != Failed && p.risk != External && !RequiresSecondaryConfirmation(p.tool, p.input) {
        ResolvedActsIff(w1, w.log, stored.steps, saved, i, signature, approved, outcome, adv, out, 1);
      }
    }
  }

  lemma SignedAsFilledIn(stored: Run, i: nat, log: seq<Effect>)
    requires RunOk(stored, log) && i < |stored.steps|
    ensures var p := PreparedStep(stored.steps[i], stored, Owner(stored));
      p.id == stored.steps[i].id && p.signature == Sign(stored.id, p.id, p.tool, p.input, Owner(stored))
  {
    hide Resolve, HasNoReferences, DependenciesSatisfied, FinishedRests, GraphOk;
    assert stored.steps[i] in stored.steps && StepOk(stored, stored.steps[i], log);
  }

  // ---------- Exactly when a request acts ----------

  lemma TheStep(steps: seq<Step>, stepId: string)
    requires DistinctIds(steps)
    ensures var i := StepIndex(steps, stepId);
      forall s | s in steps && s.id == stepId :: i >= 0 && s == steps[i]
  {
    forall s | s in steps && s.id == stepId
      ensures StepIndex(steps, stepId) >= 0 && s == steps[StepIndex(steps, stepId)]
    {
      var j :| 0 <= j < |steps| && steps[j] == s;
      IndexById(steps, j);
    }
  }

  /**
   A request to execute a step starts or queues something exactly when it is in order: from the owner,
   for a step whose turn has come in a mission that is open, signed for exactly the input that would
   run, and approved where approval is due. What it starts or queues is that step, under that signature,
   and an external step is never started by it.
   */
  lemma RequestActsIff(
    w: World, stored: Run, user: Actor, stepId: string, signature: Signature, approved: bool,
    outcome: Result<Value, string>, adv: AdvanceInput, out: Outside)
    requires Holds(w, stored, out) && w.flight == None
    ensures var after := ExecuteStep(w, stored.id, user, stepId, signature, approved, outcome, adv, out).world.log;
      && (Acts(w.log, after) <==> InOrder(stored, user, stepId, signature, approved, out.ticks(0).now))
      && ActsOn(w.log, after, stepId, signature)
  {
    hide Hydrate, Persist, WorldOk, Holds, GroundOk, RunOk, ExecuteResolved, ExecutePrepared, IsDue, RunsAs, IsOrdered, Acts;
    hide Refused, QuietLog;
    HeldAtRest(w, stored, out);
    SoundRunHas(stored, w.log);
    TheStep(stored.steps, stepId);
    var i := StepIndex(stored.steps, stepId);
    RefusedIff(stored, i, out.ticks(0).now);
    NothingAdded(w.log, stored.steps);
    QuietDoesNotAct(w.log, w.log, stored.steps);
    NothingActs(w.log, w.log);
    if user == Owner(stored) && !Refused(stored, i, out.ticks(0).now) {
      var s := stored.steps[i];
      DueIsFree(stored, s, out.ticks(0).now);
      if HasNoReferences(s.input) {
        StoredIsSigned(stored, i, w.log);
        RunsAsItIs(stored, s);
        ResolvedActsIff(w, w.log, stored.steps, stored, i, signature, approved, outcome, adv, out, 0);
      } else {
        PreparedActsIff(w, stored, i, signature, approved, outcome, adv, out);
      }
    }
  }

  lemma DueIsFree(run: Run, s: Step, now: int)
    requires IsDue(run, s, now)
    ensures s.status != Skipped && DependenciesSatisfied(s, run.steps)
  {
  }

  lemma RunsAsItIs(run: Run, s: Step)
    requires HasNoReferences(s.input)
    ensures forall f :: RunsAs(run, s, f) <==> f == s
  {
  }

  lemma StoredIsSigned(stored: Run, i: nat, log: seq<Effect>)
    requires RunOk(stored, log) && i < |stored.steps|
    ensures stored.steps[i].signature == Sign(stored.id, stored.steps[i].id, stored.steps[i].tool, stored.steps[i].input, Owner(stored))
  {
    hide FinishedRests, GraphOk;
    assert stored.steps[i] in stored.steps && StepOk(stored, stored.steps[i], log);
  }

  /** The step is already under way or done, and the request is for it as it is. */
  ghost predicate ComesLate(stored: Run, user: Actor, stepId: string, signature: Signature, now: int) {
    user == Owner(stored)
    && exists s | s in stored.steps && s.id == stepId ::
         IsDue(stored, s, now) && s.signature == signature && s.status in {Queued, Running, Done}
  }

  /**
   For a step whose input is final, a request that is not in order, such as one signed for another input,
   changes nothing at all. It is an exception unless the step is already under way or done.
   */
  lemma OutOfOrderChangesNothing(
    w: World, stored: Run, user: Actor, stepId: string, signature: Signature, approved: bool,
    outcome: Result<Value, string>, adv: AdvanceInput, out: Outside)
    requires Holds(w, stored, out) && w.flight == None
    requires forall s | s in stored.steps && s.id == stepId :: HasNoReferences(s.input)
    requires !InOrder(stored, user, stepId, signature, approved, out.ticks(0).now)
    ensures ExecuteStep(w, stored.id, user, stepId, signature, approved, outcome, adv, out)
         == Outcome(w, !ComesLate(stored, user, stepId, signature, out.ticks(0).now))
  {
    hide Hydrate, Persist, WorldOk, Holds, GroundOk, RunOk, RunNow, Enqueue, ExecutePrepared, IsDue, Refused, HasNoReferences;
    HeldAtRest(w, stored, out);
    SoundRunHas(stored, w.log);
    TheStep(stored.steps, stepId);
    var i := StepIndex(stored.steps, stepId);
    RefusedIff(stored, i, out.ticks(0).now);
    if user == Owner(stored) && !Refused(stored, i, out.ticks(0).now) {
      var s := stored.steps[i];
      StoredIsSigned(stored, i, w.log);
      RunsAsItIs(stored, s);
      assert s in stored.steps && RunsAs(stored, s, s);
    }
  }

  // ---------- What a request stores ----------

  /** Queueing stores the step as queued and approved, the mission in progress, and nothing else. */
  lemma QueueingStores(
    w: World, stored: Run, i: nat, approved: bool, outcome: Result<Value, string>, adv: AdvanceInput, out: Outside)
    requires Holds(w, stored, out) && w.flight == None && i < |stored.steps|
    requires var s := stored.steps[i];
      IsDue(stored, s, out.ticks(0).now) && s.risk == External && HasNoReferences(s.input) && IsOrdered(s, s.signature, approved)
    ensures var s := stored.steps[i]; var queued := s.(status := Queued, error := "", approved := true);
      var o := ExecuteStep(w, stored.id, Owner(stored), s.id, s.signature, approved, outcome, adv, out);
      && !o.thrown && o.world.flight == None && o.world.log == w.log + [QueuedEffect(queued, approved)]
      && Leaves(o.world, stored, stored.(status := InProgress, stopReason := "", steps := stored.steps[i := queued]))
  {
    hide Hydrate, Persist, WorldOk, Holds, GroundOk, RunOk, RunNow, Refused, HasNoReferences, Leaves, IsDue;
    HeldAtRest(w, stored, out);
    SoundRunHas(stored, w.log);
    IndexById(stored.steps, i);
    RefusedIff(stored, i, out.ticks(0).now);
    StoredIsSigned(stored, i, w.log);
    DueIsFree(stored, stored.steps[i], out.ticks(0).now);
    var queued := QueuedRun(stored, i, approved, out);
    var log := w.log + [QueuedEffect(queued.steps[i], approved)];
    QueuedSound(stored, i, approved, out, w.log) by { GroundIsLogged(w, stored); }
    QueuedIs(stored, i, approved, out);
    LeavesWritten(w.(log := log), stored, queued, out.ticks(0), log);
    LeavesAlike(Save(w.(log := log), queued, out.ticks(0)), stored, queued,
      stored.(status := InProgress, stopReason := "", steps := queued.steps));
  }

  lemma GroundIsLogged(w: World, stored: Run)
    requires Hydrate(w.store, stored.id) == Some(stored) && GroundOk(w, stored.id)
    ensures LogOk(w.log, stored.events)
  {
  }

  // ---------- Running at once ----------

  function Taken(s: Step, approved: bool): Step { s.(status := Running, error := "", approved := s.approved || approved) }

  /** The step after its action returned or failed. */
  function Landed(s: Step, outcome: Result<Value, string>): Step {
    match outcome
    case Ok(v) => s.(status := Done, result := Some(v))
    case Err(message) => s.(status := Failed, error := message)
  }

  predicate IsOver(s: Step) { s.status in {Done, Failed, Skipped} }

  predicate AllOver(steps: seq<Step>) { forall s | s in steps :: IsOver(s) }

  /** The mission once the action asked for has ended: failed with it, unless nothing is left to do. */
  function RanAtOnce(stored: Run, i: nat, approved: bool, outcome: Result<Value, string>): Run
    requires i < |stored.steps|
  {
    var steps := stored.steps[i := Landed(Taken(stored.steps[i], approved), outcome)];
    stored.(steps := steps, status := if outcome.Ok? || AllOver(steps) then InProgress else RunFailed)
  }

  lemma FinishedIs(run: Run, i: nat, outcome: Result<Value, string>, out: Outside)
    requires i < |run.steps|
    ensures var now := FinishedRun(run, i, outcome, false, out); var steps := run.steps[i := Landed(run.steps[i], outcome)];
      && run.events <= now.events
      && now == run.(steps := steps, events := now.events,
                     status := if AllOver(steps) then InProgress else if outcome.Ok? then run.status else RunFailed)
  {
    var steps := run.steps[i := Landed(run.steps[i], outcome)];
    assert AllTerminal(steps) == AllOver(steps);
  }

  lemma OverAlike(a: seq<Step>, b: seq<Step>)
    requires |a| == |b| && forall j | 0 <= j < |a| :: IsOver(a[j]) ==> IsOver(b[j])
    ensures AllOver(a) ==> AllOver(b)
  {
    hide IsOver;
    if AllOver(a) {
      forall s | s in b
        ensures IsOver(s)
      {
        var j :| 0 <= j < |b| && b[j] == s;
        assert a[j] in a;
      }
    }
  }

  lemma OverAsWritten(stored: seq<Step>, first: seq<Step>, i: nat, s: Step)
    requires i < |stored| == |first| && forall j | 0 <= j < |stored| && j != i :: StepAsWritten(stored, j, stored[j], first[j])
    ensures AllOver(stored[i := s]) == AllOver(first[i := s])
  {
    hide AllOver;
    OverAlike(stored[i := s], first[i := s]);
    OverAlike(first[i := s], stored[i := s]);
  }

  lemma RanAsWritten(stored: Run, first: Run, second: Run, i: nat, approved: bool, outcome: Result<Value, string>, finished: Run)
    requires i < |stored.steps| && stored.steps[i].status != Skipped
    requires var taken := Taken(stored.steps[i], approved);
      AsWritten(stored, stored.(status := InProgress, steps := stored.steps[i := taken], events := first.events), first)
    requires i < |first.steps| && finished == first.(
      steps := first.steps[i := Landed(first.steps[i], outcome)], events := finished.events,
      status :=
        if AllOver(first.steps[i := Landed(first.steps[i], outcome)]) then InProgress
        else if outcome.Ok? then first.status
        else RunFailed)
    requires AsWritten(first, finished.(events := second.events), second)
    requires Grown(stored.events, first.events) && Grown(first.events, second.events)
    ensures AsWritten(stored, RanAtOnce(stored, i, approved, outcome).(events := second.events), second)
  {
    hide AllOver;
    var taken := Taken(stored.steps[i], approved);
    var landed := Landed(taken, outcome);
    forall j | 0 <= j < |stored.steps|
      ensures StepAsWritten(stored.steps, j, stored.steps[i := landed][j], second.steps[j])
      ensures j != i ==> StepAsWritten(stored.steps, j, stored.steps[j], first.steps[j])
      ensures j == i ==> first.steps[j] == taken
    {
      assert StepAsWritten(stored.steps, j, stored.steps[i := taken][j], first.steps[j]);
      assert StepAsWritten(first.steps, j, finished.steps[j], second.steps[j]);
    }
    OverAsWritten(stored.steps, first.steps, i, landed);
  }

  /** The mission after the action: the start is on record with the step as it ran, and the mission advances. */
  ghost predicate RunsThenAdvances(
    w: World, stored: Run, i: nat, approved: bool, outcome: Result<Value, string>, adv: AdvanceInput, out: Outside, w1: World, o: Outcome)
    requires i < |stored.steps|
  {
    && w1.flight == None && w1.log == w.log + [StartedEffect(Taken(stored.steps[i], approved))]
    && Leaves(w1, stored, RanAtOnce(stored, i, approved, outcome))
    && o == Advance(w1, stored.id, adv, out, 2)
  }

  lemma StartedFields(stored: Run, i: nat, approved: bool, out: Outside)
    requires i < |stored.steps|
    ensures var now := StartedRun(stored, i, approved, out);
      && SameFirst(stored.steps, now.steps)
      && now == stored.(status := InProgress, steps := stored.steps[i := Taken(stored.steps[i], approved)], events := now.events)
  {
  }

  /** The engine's copy of the run once the step has started, and the store it is in. */
  lemma StartReads(w: World, stored: Run, i: nat, approved: bool, out: Outside)
    requires Working(w, stored, stored, out) && Idle(stored, i) && stored.steps[i].risk != External
    requires stored.steps[i].risk == Write ==> approved || stored.steps[i].approved
    ensures var started := StartedRun(stored, i, approved, out);
      var log := w.log + [StartedEffect(started.steps[i])];
      var w0, first, saved := Save(w.(log := log), started, out.ticks(0)), Reread(w, started), Saved(w, started);
      && AsWritten(stored, started, first) && Leaves(w0, stored, started) && Hydrate(w0.store, stored.id) == Some(first)
      && Sound(saved, log, out.stamps) && Continues(first, saved) && saved.steps == first.steps && saved == first.(events := saved.events)
      && OnlyRunning(saved.steps, i) && saved.status == InProgress && first.id == stored.id
  {
    hide Persist, Hydrate, GroundOk, LogOk, RunOk, StartedRun, AsWritten, Reread, DependenciesSatisfied, Saved, Leaves;
    var started := StartedRun(stored, i, approved, out);
    StartedFields(stored, i, approved, out);
    var log := w.log + [StartedEffect(started.steps[i])];
    StartedSound(stored, i, approved, out, w.log);
    StartIsLogged(w, stored, i, approved, out);
    LeavesWritten(w.(log := log), stored, started, out.ticks(0), log);
    SameStoreSameRead(w, w.(log := log), started);
    SaveGround(w, stored, started, out.ticks(0), log, out);
    StillOnlyRunning(started.steps, Saved(w, started).steps, i);
    SoundRounds(started, log);
    CopyIsFirst(w, started);
  }

  lemma CopyIsFirst(w: World, run: Run)
    requires Saved(w, run).steps == Reread(w, run).steps && WithinRounds(run)
    ensures Saved(w, run) == Reread(w, run).(events := Saved(w, run).events)
  {
  }

  lemma StartIsLogged(w: World, stored: Run, i: nat, approved: bool, out: Outside)
    requires Working(w, stored, stored, out) && Idle(stored, i) && stored.steps[i].risk != External
    requires stored.steps[i].risk == Write ==> approved || stored.steps[i].approved
    ensures var started := StartedRun(stored, i, approved, out);
      LogOk(w.log + [StartedEffect(started.steps[i])], started.events)
  {
    hide Persist, Hydrate, FinishedRests, GraphOk, CompletedOk, CheckpointOk;
    var started := StartedRun(stored, i, approved, out);
    assert stored.steps[i] in stored.steps && StepOk(stored, stored.steps[i], w.log);
    LogPersists(w.log, stored.events, started.events);
    StartLogged(w.log, started.events, started.steps[i]);
  }

  lemma RunningStores(
    w: World, stored: Run, i: nat, approved: bool, outcome: Result<Value, string>, adv: AdvanceInput, out: Outside) returns (w1: World)
    requires Working(w, stored, stored, out) && Idle(stored, i) && stored.steps[i].status != Skipped && stored.steps[i].risk != External
    requires stored.steps[i].risk == Write ==> approved || stored.steps[i].approved
    ensures RunsThenAdvances(w, stored, i, approved, outcome, adv, out, w1,
                             RunNow(w, StartedRun(stored, i, approved, out), i, outcome, adv, out, 0))
  {
    hide Hydrate, Persist, GroundOk, LogOk, RunOk, StartedRun, FinishedRun, Advance, AsWritten, Reread;
    hide DependenciesSatisfied, RanAtOnce, Saved;
    var started := StartedRun(stored, i, approved, out);
    StartedFields(stored, i, approved, out);
    var log := w.log + [StartedEffect(started.steps[i])];
    var w0, first, saved := Save(w.(log := log), started, out.ticks(0)), Reread(w, started), Saved(w, started);
    StartReads(w, stored, i, approved, out);
    var finished := FinishedRun(saved, i, outcome, false, out);
    FinishedSound(saved, i, outcome, false, out, log);
    FinishedIs(saved, i, outcome, out);
    w1 := Save(w0, finished, out.ticks(1));
    LeavesWritten(w0, first, finished, out.ticks(1), log);
    var second := Reread(w0, finished);
    EventsAsWritten(first, finished, second);
    RanAsWritten(stored, first, second, i, approved, outcome, finished);
  }

  /**
   A request in order for a step that is not external and whose input is final runs it at once, with the
   mission in progress; the result or the failure is stored with the step, and the mission advances.
   */
  lemma RequestRuns(
    w: World, stored: Run, i: nat, approved: bool, outcome: Result<Value, string>, adv: AdvanceInput, out: Outside) returns (w1: World)
    requires Holds(w, stored, out) && w.flight == None && i < |stored.steps|
    requires var s := stored.steps[i];
      IsDue(stored, s, out.ticks(0).now) && s.risk != External && HasNoReferences(s.input) && IsOrdered(s, s.signature, approved)
    ensures var s := stored.steps[i];
      RunsThenAdvances(w, stored, i, approved, outcome, adv, out, w1,
                       ExecuteStep(w, stored.id, Owner(stored), s.id, s.signature, approved, outcome, adv, out))
  {
    hide Hydrate, Persist, WorldOk, Holds, GroundOk, RunOk, LogOk, RunNow, Refused, HasNoReferences, IsDue, RunsThenAdvances;
    hide DependenciesSatisfied;
    HeldAtRest(w, stored, out);
    SoundRunHas(stored, w.log);
    IndexById(stored.steps, i);
    RefusedIff(stored, i, out.ticks(0).now);
    StoredIsSigned(stored, i, w.log);
    DueIsFree(stored, stored.steps[i], out.ticks(0).now);
    DueIsOpen(stored, stored.steps[i], out.ticks(0).now);
    w1 := RunningStores(w, stored, i, approved, outcome, adv, out);
  }

  lemma DueIsOpen(run: Run, s: Step, now: int)
    requires IsDue(run, s, now)
    ensures run.status != Completed
  {
  }
}
