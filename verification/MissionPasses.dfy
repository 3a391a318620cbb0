/** Every pass an operation makes over a run keeps the run sound. */
module MissionPasses {
  import opened Prelude
  import opened Values
  import opened AgentTypes
  import opened References
  import opened WorkflowGraph
  import opened GraphLaws
  import opened Planning
  import opened Recovery
  import opened Runs
  import opened RunStore
  import opened Mission
  import opened MissionInvariant
  import Verifier

  /** A sound run together with the ids it may still draw. */
  ghost predicate Sound(run: Run, log: seq<Effect>, stamps: Stamps) {
    RunOk(run, log) && FreshFrom(stamps, run.events)
  }

  /** `now` continues `run`: same mission, within its rounds, no event lost. */
  ghost predicate Continues(run: Run, now: Run) {
    && now.id == run.id && Owner(now) == Owner(run) && Grown(run.events, now.events)
    && (WithinRounds(run) ==> WithinRounds(now))
  }

  // ---------- The log ----------

  lemma CountAppend(log: seq<Effect>, e: Effect, id: string, input: Value)
    ensures Queueings(log + [e], id, input) == Queueings(log, id, input) + if IsQueueing(e, id, input) then 1 else 0
    ensures Confirmations(log + [e], id, input)
         == Confirmations(log, id, input) + if IsQueueing(e, id, input) && e.confirmed then 1 else 0
    ensures Requeueings(log + [e], id, input)
         == Requeueings(log, id, input) + if IsQueueing(e, id, input) && !e.confirmed then 1 else 0
    ensures Starts(log + [e], id, input) == Starts(log, id, input) + if IsExternalStart(e, id, input) then 1 else 0
    ensures Retries(log + [e], id) == Retries(log, id) + if e == RetriedEffect(id) then 1 else 0
  {
  }

  /** Every queueing either carried the approval or came after one. */
  lemma {:induction false} QueuedEitherWay(log: seq<Effect>, id: string, input: Value)
    ensures Queueings(log, id, input) == Confirmations(log, id, input) + Requeueings(log, id, input)
  {
    if log != [] {
      QueuedEitherWay(log[..|log| - 1], id, input);
    }
  }

  /** What preparing or restoring a run puts on record. */
  predicate OnlyNotes(more: seq<Effect>) {
    forall e | e in more :: e.FilledInEffect? || e.PutBackEffect? || e.RestoredEffect?
  }

  /** Such notes count as nothing else. */
  lemma {:induction false} CountOverNotes(log: seq<Effect>, more: seq<Effect>, id: string, input: Value)
    requires OnlyNotes(more)
    ensures Queueings(log + more, id, input) == Queueings(log, id, input)
    ensures Confirmations(log + more, id, input) == Confirmations(log, id, input)
    ensures Starts(log + more, id, input) == Starts(log, id, input)
    ensures Retries(log + more, id) == Retries(log, id)
  {
    if more == [] {
      assert log + more == log;
    } else {
      var n := |more| - 1;
      CountOverNotes(log, more[..n], id, input);
      assert more[n] in more && log + more == log + more[..n] + [more[n]];
      CountAppend(log + more[..n], more[n], id, input);
    }
  }

  lemma {:induction false} RetriedIsLogged(log: seq<Effect>, id: string)
    ensures Retries(log, id) > 0 ==> RetriedEffect(id) in log
  {
    if log != [] {
      RetriedIsLogged(log[..|log| - 1], id);
    }
  }

  /** A run stays sound over a longer log that spends none of its queued approvals. */
  lemma LongerLogSound(run: Run, log: seq<Effect>, e: Effect)
    requires RunOk(run, log)
    requires e.StartedEffect? ==> forall s | s in run.steps && s.status == Queued :: s.id != e.step.id
    ensures RunOk(run, log + [e])
  {
    forall s | s in run.steps
      ensures StepOk(run, s, log + [e])
    {
      CountAppend(log, e, s.id, s.input);
    }
  }

  lemma NotesKeepRun(run: Run, log: seq<Effect>, more: seq<Effect>)
    requires RunOk(run, log) && OnlyNotes(more)
    ensures RunOk(run, log + more)
  {
    forall s | s in run.steps
      ensures StepOk(run, s, log + more)
    {
      CountOverNotes(log, more, s.id, s.input);
    }
  }

  /** An entry that is in order after `log` keeps the log in order, if the counts allow it. */
  lemma EntriesAppended(log: seq<Effect>, events: seq<Event>, more: seq<Effect>)
    requires forall k | 0 <= k < |log| :: EffectOk(log[k], events, log[..k])
    requires forall k | 0 <= k < |more| :: EffectOk(more[k], events, log + more[..k])
    ensures var longer := log + more; forall k | 0 <= k < |longer| :: EffectOk(longer[k], events, longer[..k])
  {
    var longer := log + more;
    forall k | 0 <= k < |longer|
      ensures EffectOk(longer[k], events, longer[..k])
    {
      if k < |log| {
        assert longer[..k] == log[..k];
      } else {
        assert longer[..k] == log + more[..k - |log|];
      }
    }
  }

  lemma NotesKeepLog(log: seq<Effect>, events: seq<Event>, more: seq<Effect>)
    requires LogOk(log, events) && OnlyNotes(more)
    requires forall e | e in more && !e.FilledInEffect? :: HasMark(events, RESTORE_MARK)
    ensures LogOk(log + more, events)
  {
    assert forall k | 0 <= k < |more| :: more[k] in more;
    EntriesAppended(log, events, more);
    forall id: string, input: Value {
      CountOverNotes(log, more, id, input);
    }
    forall id: string
      ensures Retries(log + more, id) <= 1
    {
      CountOverNotes(log, more, id, Null);
    }
  }

  /** A mission stays closed until the next restore. */
  lemma ClosedStays(run: Run, log: seq<Effect>, more: seq<Effect>)
    requires CompletedOk(run, log) && RestoredEffect(false) !in more
    ensures CompletedOk(run, log + more)
  {
    if LeftClosed(log) {
      var k :| 0 <= k < |log| && log[k] == RestoredEffect(true) && RestoredEffect(false) !in log[k..];
      assert (log + more)[k..] == log[k..] + more;
    }
  }

  lemma SoundRunHas(run: Run, log: seq<Effect>)
    requires RunOk(run, log)
    ensures UniqueEvents(run.events) && DistinctIds(run.steps)
    ensures forall s | s in run.steps :: s.key != ""
  {
  }

  // ---------- Events and run fields ----------

  lemma RunOkCarries(run: Run, now: Run, log: seq<Effect>)
    requires RunOk(run, log) && Continues(run, now) && now.steps == run.steps && UniqueEvents(now.events)
    ensures RunOk(now, log)
  {
  }

  /** Changing only run fields. */
  lemma FieldsSound(run: Run, now: Run, log: seq<Effect>, stamps: Stamps)
    requires Sound(run, log, stamps)
    requires now.id == run.id && Owner(now) == Owner(run) && now.steps == run.steps && now.events == run.events && WithinRounds(now)
    ensures Sound(now, log, stamps) && Continues(run, now)
  {
  }

  lemma EventSound(run: Run, stamps: Stamps, kind: EventType, message: string, log: seq<Effect>)
    requires Sound(run, log, stamps)
    ensures Sound(AddEvent(run, stamps, kind, message), log, stamps)
    ensures Continues(run, AddEvent(run, stamps, kind, message))
  {
    AddedEvent(run, stamps, kind, message);
    RunOkCarries(run, AddEvent(run, stamps, kind, message), log);
  }

  lemma ReplySound(run: Run, out: Outside, log: seq<Effect>)
    requires Sound(run, log, out.stamps)
    ensures Sound(Reply(run, out), log, out.stamps) && Continues(run, Reply(run, out))
    ensures Reply(run, out).steps == run.steps && Reply(run, out).status == run.status && Reply(run, out).spec == run.spec
  {
  }

  lemma EndedSound(run: Run, status: RunStatus, reason: string, out: Outside, log: seq<Effect>)
    requires Sound(run, log, out.stamps)
    ensures var now := Ended(run, status, reason, out);
      Sound(now, log, out.stamps) && Continues(run, now)
      && now.steps == run.steps && now.status == status && now.spec == run.spec
  {
  }

  // ---------- Step by step ----------

  predicate SameIdentity(was: Step, now: Step) {
    now.id == was.id && now.key == was.key && now.dependsOn == was.dependsOn && now.tool == was.tool && now.risk == was.risk
  }

  predicate Rested(s: Step, steps: seq<Step>) {
    s.status == Done || s.status == Running || DependenciesSatisfied(s, steps)
  }

  lemma RestedRests(steps: seq<Step>, s: Step, key: string)
    requires FinishedRests(steps) && s in steps && Rested(s, steps) && key in s.dependsOn
    ensures RestsOn(key, steps)
  {
  }

  /** A change of one step of `steps` that keeps a run sound. */
  ghost predicate StepKept(steps: seq<Step>, was: Step, now: Step, run: Run, log: seq<Effect>) {
    && SameIdentity(was, now)
    && StepOk(run, now, log)
    && ((now.status == Done || now.status == Running) ==> Rested(was, steps))
    && (was.status == Done ==> now.status == Done || IsPolled(was.tool))
  }

  ghost predicate StepsKept(was: seq<Step>, now: Run, log: seq<Effect>) {
    |now.steps| == |was| && forall i | 0 <= i < |was| :: StepKept(was, was[i], now.steps[i], now, log)
  }

  lemma RestsKept(was: seq<Step>, now: seq<Step>)
    requires FinishedRests(was) && |now| == |was|
    requires forall i | 0 <= i < |was| :: SameIdentity(was[i], now[i])
    requires forall i | 0 <= i < |was| ::
      (now[i].status == Done || now[i].status == Running) ==> forall key | key in was[i].dependsOn :: RestsOn(key, was)
    requires forall i | 0 <= i < |was| :: was[i].status == Done ==> now[i].status == Done || IsPolled(was[i].tool)
    ensures FinishedRests(now)
  {
  }

  lemma IdentitiesKept(was: seq<Step>, now: seq<Step>)
    requires |now| == |was| && forall i | 0 <= i < |was| :: SameIdentity(was[i], now[i])
    requires DistinctIds(was) && DistinctKeys(was)
    ensures DistinctIds(now) && DistinctKeys(now) && KeySet(now) == KeySet(was)
  {
  }

  lemma StepsKeptSound(run: Run, now: Run, log: seq<Effect>)
    requires RunOk(run, log) && StepsKept(run.steps, now, log) && UniqueEvents(now.events) && WithinRounds(now)
    ensures RunOk(now, log) && KeySet(now.steps) == KeySet(run.steps)
  {
    StepsKeptOver(run, now, log, log);
  }

  /** The same where the log grows with the change. */
  lemma StepsKeptOver(run: Run, now: Run, before: seq<Effect>, log: seq<Effect>)
    requires RunOk(run, before) && before <= log
    requires StepsKept(run.steps, now, log) && UniqueEvents(now.events) && WithinRounds(now)
    ensures RunOk(now, log) && KeySet(now.steps) == KeySet(run.steps)
  {
    assert forall i | 0 <= i < |run.steps| :: StepKept(run.steps, run.steps[i], now.steps[i], now, log) && SameIdentity(run.steps[i], now.steps[i]);
    IdentitiesKept(run.steps, now.steps);
    forall s | s in now.steps
      ensures StepOk(now, s, log)
    {
      var i :| 0 <= i < |now.steps| && now.steps[i] == s;
      assert StepKept(run.steps, run.steps[i], s, now, log);
    }
    forall i, key | 0 <= i < |run.steps| && (now.steps[i].status == Done || now.steps[i].status == Running) && key in run.steps[i].dependsOn
      ensures RestsOn(key, run.steps)
    {
      assert StepKept(run.steps, run.steps[i], now.steps[i], now, log) && run.steps[i] in run.steps;
      RestedRests(run.steps, run.steps[i], key);
    }
    RestsKept(run.steps, now.steps);
    SameNamesSameGraph(run.steps, now.steps);
  }

  /** A step stopped where it stood. */
  predicate Stopped(was: Step, now: Step) {
    && SameIdentity(was, now) && now.input == was.input && now.signature == was.signature
    && was.status != Done
    && ((now.status == Skipped && !now.approved)
        || (now.status == Failed && now.approved == was.approved && (was.status == Ready || was.status == Queued)))
  }

  predicate AllLeftOrStopped(was: seq<Step>, now: seq<Step>) {
    |now| == |was| && forall i | 0 <= i < |was| :: now[i] == was[i] || Stopped(was[i], now[i])
  }

  lemma StoppedSound(run: Run, now: Run, log: seq<Effect>, stamps: Stamps)
    requires Sound(run, log, stamps) && Continues(run, now) && now.events == run.events
    requires AllLeftOrStopped(run.steps, now.steps)
    ensures Sound(now, log, stamps) && KeySet(now.steps) == KeySet(run.steps)
    ensures !AnyRunning(run.steps) ==> !AnyRunning(now.steps)
  {
    forall i | 0 <= i < |run.steps|
      ensures StepKept(run.steps, run.steps[i], now.steps[i], now, log)
    {
      assert run.steps[i] in run.steps && StepOk(run, run.steps[i], log);
    }
    StepsKeptSound(run, now, log);
    if !AnyRunning(run.steps) {
      forall s | s in now.steps
        ensures s.status != Running
      {
        var i :| 0 <= i < |now.steps| && now.steps[i] == s;
        assert run.steps[i] in run.steps;
      }
    }
  }

  // ---------- Skipping and cancelling ----------

  lemma SkipActiveStops(steps: seq<Step>, reason: string)
    ensures AllLeftOrStopped(steps, SkipActive(steps, reason))
  {
  }

  lemma SkipFailedStops(steps: seq<Step>)
    ensures AllLeftOrStopped(steps, SkipFailed(steps))
  {
  }

  lemma SkipForResumeStops(steps: seq<Step>, notSent: bool)
    ensures AllLeftOrStopped(steps, SkipForResume(steps, notSent))
  {
  }

  lemma FailWaitingStops(steps: seq<Step>)
    ensures AllLeftOrStopped(steps, FailWaiting(steps))
  {
  }

  lemma {:induction false} PropagateStops(steps: seq<Step>, n: nat)
    requires n <= |steps|
    ensures AllLeftOrStopped(steps, SkipFirst(steps, n))
    decreases n
  {
    if n > 0 {
      PropagateStops(steps, n - 1);
    }
  }

  lemma {:induction false} PropagateEvents(run: Run, n: nat, stamps: Stamps)
    requires n <= |run.steps| && FreshFrom(stamps, run.events) && UniqueEvents(run.events)
    ensures FreshFrom(stamps, PropagateFirst(run, n, stamps).events) && UniqueEvents(PropagateFirst(run, n, stamps).events)
    decreases n
  {
    if n > 0 {
      PropagateEvents(run, n - 1, stamps);
      var before := PropagateFirst(run, n - 1, stamps);
      var s := before.steps[n - 1];
      var after := before.(steps := SkipAt(before.steps, n - 1));
      var failure := DependencyFailure(s, before.steps);
      AddedEvent(after, stamps, ErrorEvent, s.title + "已跳过：" + SkippedFor(s, failure).error);
    }
  }

  lemma PropagateSound(run: Run, log: seq<Effect>, stamps: Stamps)
    requires Sound(run, log, stamps)
    ensures var now := Propagate(run, stamps);
      Sound(now, log, stamps) && Continues(run, now) && KeySet(now.steps) == KeySet(run.steps)
      && (!AnyRunning(run.steps) ==> !AnyRunning(now.steps))
  {
    PropagateStops(run.steps, |run.steps|);
    PropagateEvents(run, |run.steps|, stamps);
    var now := Propagate(run, stamps);
    var stopped := run.(steps := now.steps);
    StoppedSound(run, stopped, log, stamps);
    RunOkCarries(stopped, now, log);
  }

  // ---------- Preparation ----------

  lemma {:induction false} PrepareEvents(run: Run, n: nat, user: Actor, stamps: Stamps)
    requires n <= |run.steps| && FreshFrom(stamps, run.events) && UniqueEvents(run.events)
    ensures var r := PrepareFirst(run, n, user, stamps); FreshFrom(stamps, r.events) && UniqueEvents(r.events)
    decreases n
  {
    if n > 0 {
      PrepareEvents(run, n - 1, user, stamps);
      var before := PrepareFirst(run, n - 1, user, stamps);
      var s := run.steps[n - 1];
      var p := PreparedStep(s, run, user);
      var after := before.(steps := before.steps[n - 1 := p]);
      if p.status == Failed {
        AddedEvent(after, stamps, ErrorEvent, p.title + "无法生成执行参数：" + p.error);
      } else {
        AddedEvent(after, stamps, StepEvent, p.title + FILLED_IN);
      }
    }
  }

  lemma PreparedStepKept(run: Run, now: Run, s: Step, log: seq<Effect>)
    requires RunOk(run, log) && s in run.steps && Continues(run, now)
    requires NeedsPreparation(s, run.steps) ==> FilledInEffect(s.id) in log
    ensures StepKept(run.steps, s, PreparedStep(s, run, Owner(run)), now, log)
  {
  }

  /** What preparation fills in is on record. */
  predicate FillingsLogged(run: Run, log: seq<Effect>) {
    forall s | s in run.steps && NeedsPreparation(s, run.steps) :: FilledInEffect(s.id) in log
  }

  lemma PrepareKeepsSteps(run: Run, log: seq<Effect>, stamps: Stamps)
    requires Sound(run, log, stamps) && FillingsLogged(run, log)
    ensures StepsKept(run.steps, Prepare(run, Owner(run), stamps), log)
  {
    var now := Prepare(run, Owner(run), stamps);
    forall i | 0 <= i < |run.steps|
      ensures StepKept(run.steps, run.steps[i], now.steps[i], now, log)
    {
      PreparedStepKept(run, now, run.steps[i], log);
    }
  }

  lemma PreparedNoneRunning(run: Run, now: Run, user: Actor)
    requires |now.steps| == |run.steps| && forall i | 0 <= i < |run.steps| :: now.steps[i] == PreparedStep(run.steps[i], run, user)
    ensures !AnyRunning(run.steps) ==> !AnyRunning(now.steps)
  {
  }

  lemma PrepareSound(run: Run, log: seq<Effect>, stamps: Stamps)
    requires Sound(run, log, stamps) && FillingsLogged(run, log)
    ensures var now := Prepare(run, Owner(run), stamps);
      Sound(now, log, stamps) && Continues(run, now) && KeySet(now.steps) == KeySet(run.steps)
      && (!AnyRunning(run.steps) ==> !AnyRunning(now.steps))
  {
    var now := Prepare(run, Owner(run), stamps);
    PrepareEvents(run, |run.steps|, Owner(run), stamps);
    PrepareKeepsSteps(run, log, stamps);
    StepsKeptSound(run, now, log);
    PreparedNoneRunning(run, now, Owner(run));
  }
}
