/** What advancing a mission leaves in the store, whatever it finds: one ruling for the whole of it. */
module MissionOutcomes {
  import opened Prelude
  import opened Values
  import opened AgentTypes
  import opened References
  import opened WorkflowGraph
  import opened Planning
  import opened Recovery
  import opened Runs
  import opened Collections
  import opened RunStore
  import opened Mission
  import opened MissionInvariant
  import opened MissionSave
  import opened MissionPasses
  import opened MissionMoves
  import opened MissionOps
  import opened MissionAdvance
  import opened MissionFlight
  import opened MissionRuns
  import opened MissionEffects
  import opened MissionRequests
  import opened MissionTurns
  import opened MissionGate
  import Verifier

  // ---------- Looking for steps ----------

  /** Step `i` failed, and no later one did. */
  predicate IsLatestFailure(steps: seq<Step>, i: nat) {
    && i < |steps| && steps[i].status == Failed && steps[i].error != ""
    && forall j | i < j < |steps| :: !(steps[j].status == Failed && steps[j].error != "")
  }

  lemma {:induction false} LatestFailure(steps: seq<Step>)
    ensures var i := LastFailed(steps);
      if i >= 0 then IsLatestFailure(steps, i) else forall s | s in steps :: !(s.status == Failed && s.error != "")
  {
    if steps != [] && !(steps[|steps| - 1].status == Failed && steps[|steps| - 1].error != "") {
      var front := steps[..|steps| - 1];
      LatestFailure(front);
      assert steps == front + [steps[|steps| - 1]];
    }
  }

  /** Step `i` is the latest that tool has finished. */
  predicate IsLatestOf(steps: seq<Step>, i: nat, tool: Tool) {
    && i < |steps| && steps[i].status == Done && steps[i].tool == tool
    && forall j | i < j < |steps| :: !(steps[j].status == Done && steps[j].tool == tool)
  }

  lemma LatestInFront(steps: seq<Step>, j: nat, tool: Tool)
    requires steps != [] && !(steps[|steps| - 1].status == Done && steps[|steps| - 1].tool == tool)
    ensures IsLatestOf(steps, j, tool) <==> IsLatestOf(steps[..|steps| - 1], j, tool)
  {
    var front := steps[..|steps| - 1];
    assert forall k | 0 <= k < |front| :: steps[k] == front[k];
  }

  lemma {:induction false} LatestDone(steps: seq<Step>, tool: Tool)
    ensures var i := LastDone(steps, tool);
      if i >= 0 then IsLatestOf(steps, i, tool) else forall j: nat :: !IsLatestOf(steps, j, tool)
  {
    if steps != [] && !(steps[|steps| - 1].status == Done && steps[|steps| - 1].tool == tool) {
      hide IsLatestOf;
      LatestDone(steps[..|steps| - 1], tool);
      forall j: nat {
        LatestInFront(steps, j, tool);
      }
    }
  }

  /** The latest search progress that says what it watches. */
  predicate WatchesSearch(steps: seq<Step>, i: nat) {
    IsLatestOf(steps, i, ProspectGetSearchProgress) && AsText(Field(steps[i].input, "runId")) != ""
  }

  predicate WatchesSequence(steps: seq<Step>, i: nat) {
    IsLatestOf(steps, i, OutreachGetSequenceProgress) && AsText(Field(steps[i].input, "sequenceId")) != ""
  }

  /** A timer that has run out polls the latest search progress, or else the latest sequence progress. */
  ghost predicate IsPolledNext(steps: seq<Step>, i: nat) {
    WatchesSearch(steps, i) || (WatchesSequence(steps, i) && forall j: nat :: !WatchesSearch(steps, j))
  }

  lemma OneLatest(steps: seq<Step>, i: nat, j: nat, tool: Tool)
    requires IsLatestOf(steps, i, tool) && IsLatestOf(steps, j, tool)
    ensures i == j
  {
  }

  lemma WatchingIff(steps: seq<Step>, i: nat)
    ensures RewindAmong(steps, ProspectGetSearchProgress) == Some(i) <==> WatchesSearch(steps, i)
    ensures RewindAmong(steps, OutreachGetSequenceProgress) == Some(i) <==> WatchesSequence(steps, i)
  {
    hide AsText, Field, IsLatestOf;
    LatestDone(steps, ProspectGetSearchProgress);
    LatestDone(steps, OutreachGetSequenceProgress);
    LatestTools(steps);
    if WatchesSearch(steps, i) {
      OneLatest(steps, i, LastDone(steps, ProspectGetSearchProgress), ProspectGetSearchProgress);
    }
    if WatchesSequence(steps, i) {
      OneLatest(steps, i, LastDone(steps, OutreachGetSequenceProgress), OutreachGetSequenceProgress);
    }
  }

  lemma LatestTools(steps: seq<Step>)
    ensures forall i: nat, tool | IsLatestOf(steps, i, tool) :: i < |steps| && steps[i].tool == tool
  {
  }

  lemma PolledNextIff(steps: seq<Step>)
    ensures forall i: nat :: RewindTarget(steps) == Some(i) <==> IsPolledNext(steps, i)
  {
    hide WatchesSearch, WatchesSequence, RewindAmong;
    forall i: nat {
      WatchingIff(steps, i);
    }
    var search := RewindAmong(steps, ProspectGetSearchProgress);
    if search.Some? {
      WatchingIff(steps, search.value);
    }
    forall i: nat, j: nat | WatchesSearch(steps, i) && WatchesSearch(steps, j)
      ensures i == j
    {
      WatchingIff(steps, i);
      WatchingIff(steps, j);
    }
  }

  // ---------- The ruling ----------

  predicate InstructionWaits(events: seq<Event>) {
    exists e | e in events :: StartsWith(e.message, "用户改令：") && forall f | f in events :: f.message != "已应用改令：" + e.id
  }

  /** A step runs, or can be taken up. */
  predicate TurnHasCome(steps: seq<Step>) {
    exists s | s in steps :: s.status == Running || (s.status in {Ready, Queued} && DependenciesSatisfied(s, steps))
  }

  predicate ApprovalIsDue(steps: seq<Step>) {
    exists s | s in steps :: s.status == NeedsConfirmation && DependenciesSatisfied(s, steps)
  }

  /** The failure has not been dealt with before. */
  predicate IsUnmarked(events: seq<Event>, s: Step) {
    forall e | e in events :: !StartsWith(e.message, "恢复策略：" + s.id + ":")
  }

  function Retried(run: Run, s: Step): Step {
    s.(status := Ready, result := None, error := "", signature := Signature(run.id, s.id, s.tool, s.input, run.ownerId, run.teamId))
  }

  /** An instruction first, then steps to run, approvals, the latest failure, and last the outcome. */
  ghost function AdvanceRuling(run: Run, adv: AdvanceInput): Ruling {
    if InstructionWaits(run.events) && !AnyRunning(run.steps) then
      match Admitted(run, adv.steerPlan)
      case None => Raises(None)
      case Some(batch) =>
        Becomes(Turned(run, Changed(run.steps, IsOpen, Superseded), batch, adv.steerPlan, run.maxIterations, "等待用户批准修改后的动作"))
    else if TurnHasCome(run.steps) then Becomes(run.(status := InProgress))
    else if ApprovalIsDue(run.steps) then Becomes(run.(status := AwaitingConfirmation, stopReason := "等待用户批准写入或外部动作"))
    else
      var i := LastFailed(run.steps);
      if i >= 0 && IsUnmarked(run.events, run.steps[i]) && DecideRecovery(run.steps[i]).action == Stop then
        Becomes(run.(status := if run.steps[i].risk == External then WaitingUser else RunFailed, stopReason := "外部动作失败后不能自动重放"))
      else if i >= 0 && IsUnmarked(run.events, run.steps[i]) && DecideRecovery(run.steps[i]).action == RetryOnce then
        Becomes(run.(status := InProgress, stopReason := "", steps := run.steps[i := Retried(run, run.steps[i])]))
      else JudgeRuling(run.(steps := SkipFirst(run.steps, |run.steps|)), adv)
  }

  /** What the observers call for, or the gate. */
  ghost function JudgeRuling(run: Run, adv: AdvanceInput): Ruling {
    match adv.probe
    case IncompleteEmail => Becomes(Fails(run, "开发信草稿缺少对象、主题或正文，不能进入发送审批"))
    case Observe(items, status) =>
      (match Normalized(items, run.id, Owner(run), run.steps)
       case None => Raises(None)
       case Some(batch) =>
         Becomes(run.(steps := run.steps + batch,
                      status := if status == AwaitingConfirmation then AwaitingConfirmation else InProgress,
                      stopReason := if status == AwaitingConfirmation then "等待用户批准外部发送" else run.stopReason)))
    case WaitUntil(time) => Becomes(run.(status := InProgress, stopReason := "wait_until:" + time))
    case NoProbe => GateRuling(run, adv)
  }

  lemma {:induction false} PendingIff(candidates: seq<Event>, events: seq<Event>)
    ensures PendingAmong(candidates, events).Some?
       <==> exists e | e in candidates :: StartsWith(e.message, STEER_MARK) && !SteerApplied(events, e.id)
  {
    hide StartsWith, SteerApplied;
    if candidates != [] {
      PendingIff(candidates[..|candidates| - 1], events);
      assert candidates == candidates[..|candidates| - 1] + [candidates[|candidates| - 1]];
    }
  }

  lemma InstructionWaitsIff(events: seq<Event>)
    ensures PendingSteer(events).Some? <==> InstructionWaits(events)
  {
    PendingIff(events, events);
  }

  lemma UnmarkedIff(events: seq<Event>, s: Step)
    ensures !HasMark(events, RecoveryMarkOf(s.id)) <==> IsUnmarked(events, s)
  {
    hide StartsWith;
    assert "恢复策略：" + s.id + ":" == RecoveryMarkOf(s.id);
  }

  // ---------- Rulings do not read events ----------

  predicate SameRuling(a: Ruling, b: Ruling) {
    match (a, b)
    case (Becomes(r), Becomes(s)) => Alike(r, s)
    case (Raises(Some(r)), Raises(Some(s))) => Alike(r, s)
    case (Raises(None), Raises(None)) => true
    case _ => false
  }

  lemma AlikeFields(a: Run, b: Run)
    requires Alike(a, b)
    ensures b == a.(events := b.events)
  {
    assert b == b.(events := []).(events := b.events) == a.(events := []).(events := b.events);
  }

  lemma SameFallback(a: Run, b: Run, adv: AdvanceInput, failed: bool)
    requires b == a.(events := b.events)
    ensures SameRuling(FallbackRuling(a, adv, failed), FallbackRuling(b, adv, failed))
  {
    hide Normalized, SomeReady, Authorize;
  }

  lemma SameModelRuling(a: Run, b: Run, adv: AdvanceInput)
    requires b == a.(events := b.events)
    ensures SameRuling(ModelRuling(a, adv), ModelRuling(b, adv))
  {
    hide Normalized, SomeReady, Authorize, FallbackRuling, Changed, SameRuling;
    SameFallback(a, b, adv, true);
    SameFallback(a, b, adv, false);
    if adv.evaluation.Some? && ModelRuling(a, adv).Becomes? && ModelRuling(b, adv).Becomes? {
      SameWhenAlike(ModelRuling(a, adv), ModelRuling(b, adv));
    }
  }

  lemma SameWhenAlike(a: Ruling, b: Ruling)
    ensures a.Becomes? && b.Becomes? && Alike(a.run, b.run) ==> SameRuling(a, b)
  {
  }

  lemma SameGateRuling(a: Run, b: Run, adv: AdvanceInput)
    requires b == a.(events := b.events)
    ensures SameRuling(GateRuling(a, adv), GateRuling(b, adv))
  {
    hide Normalized, SomeReady, Authorize, ModelRuling, Verifier.Complete;
    SameModelRuling(a.(status := Planning, stopReason := ""), b.(status := Planning, stopReason := ""), adv);
  }

  lemma SameJudgeRuling(a: Run, b: Run, adv: AdvanceInput)
    requires Alike(a, b)
    ensures SameRuling(JudgeRuling(a, adv), JudgeRuling(b, adv))
  {
    hide Normalized, GateRuling;
    AlikeFields(a, b);
    SameGateRuling(a, b, adv);
  }

  // ---------- The stored mission ----------

  /** The mission is stored as ruled; an exception leaves what was stored before it. */
  ghost predicate LeftAsRuled(w: World, stored: Run, ruling: Ruling, o: Outcome) {
    match ruling
    case Becomes(run) => !o.thrown && Leaves(o.world, stored, run)
    case Raises(None) => o.thrown && o.world.store == w.store
    case Raises(Some(run)) => o.thrown && Leaves(o.world, stored, run)
  }

  lemma LeftAlike(w: World, stored: Run, a: Ruling, b: Ruling, o: Outcome)
    requires LeftAsRuled(w, stored, a, o) && SameRuling(a, b)
    ensures LeftAsRuled(w, stored, b, o)
  {
    hide Leaves;
    match (a, b)
    case (Becomes(r), Becomes(s)) => LeavesAlike(o.world, stored, r, s);
    case (Raises(Some(r)), Raises(Some(s))) => LeavesAlike(o.world, stored, r, s);
    case _ =>
  }

  lemma StoredIsLeft(w: World, stored: Run, ruling: Ruling, o: Outcome)
    requires StoredAsRuled(w, stored, ruling, o)
    ensures LeftAsRuled(w, stored, ruling, o)
  {
    hide Leaves;
  }

  /** One save of a sound run over a log that may have grown. */
  lemma SaveIsLeft(w: World, stored: Run, run: Run, ruled: Run, log: seq<Effect>, tick: Tick)
    requires Hydrate(w.store, stored.id) == Some(stored) && RunOk(run, log) && Continues(stored, run)
    requires SameFirst(stored.steps, run.steps) && Alike(run, ruled)
    ensures LeftAsRuled(w, stored, Becomes(ruled), Outcome(Save(w.(log := log), run, tick), false))
  {
    hide Hydrate, Persist, RunOk, Leaves;
    LeavesWritten(w.(log := log), stored, run, tick, log);
    LeavesAlike(Save(w.(log := log), run, tick), stored, run, ruled);
  }

  lemma InstalledAlike(run: Run, batch: seq<Step>, plan: Plan, mark: string, out: Outside)
    ensures var waiting := "等待用户批准修改后的动作";
      var replanned := Replanned(run, SkipActive(run.steps, REPLACED), batch, plan, waiting);
      Alike(Told(AddEvent(replanned, out.stamps, PlanEvent, mark), plan, out),
            Turned(run, Changed(run.steps, IsOpen, Superseded), batch, plan, run.maxIterations, waiting))
  {
    assert SkipActive(run.steps, REPLACED) == Changed(run.steps, IsOpen, Superseded);
    assert AnyReady(batch) == SomeReady(batch);
    var replanned := Replanned(run, SkipActive(run.steps, REPLACED), batch, plan, "等待用户批准修改后的动作");
    ToldIs(AddEvent(replanned, out.stamps, PlanEvent, mark), plan, out);
  }

  lemma InstalledFirst(stored: Run, run: Run, batch: seq<Step>, plan: Plan, mark: string, out: Outside)
    requires IsDerived(stored, run)
    ensures var replanned := Replanned(run, SkipActive(run.steps, REPLACED), batch, plan, "等待用户批准修改后的动作");
      SameFirst(stored.steps, Told(AddEvent(replanned, out.stamps, PlanEvent, mark), plan, out).steps)
  {
    hide AnyReady;
    var replanned := Replanned(run, SkipActive(run.steps, REPLACED), batch, plan, "等待用户批准修改后的动作");
    ToldIs(AddEvent(replanned, out.stamps, PlanEvent, mark), plan, out);
  }

  lemma SteeringIsRuled(w: World, stored: Run, run: Run, plan: Plan, out: Outside, tick: nat)
    requires Working(w, stored, run, out) && IsDerived(stored, run) && FreshItems(plan.items, run.steps) && PendingSteer(run.events).Some?
    ensures var o := ApplySteer(w, run, plan, out, tick);
      match Admitted(run, plan)
      case None => o == Outcome(w, true)
      case Some(batch) =>
        LeftAsRuled(w, stored,
          Becomes(Turned(run, Changed(run.steps, IsOpen, Superseded), batch, plan, run.maxIterations, "等待用户批准修改后的动作")), o)
  {
    hide Hydrate, Persist, GroundOk, RunOk, Replanned, Told, Turned, PlannedBatch, Admitted, Installing, SkipActive;
    hide IsDerived, LeftAsRuled, FreshItems;
    SameKeysSameBatch(run, run, plan);
    if Admitted(run, plan).Some? {
      var batch, mark := Admitted(run, plan).value, STEER_APPLIED_MARK + PendingSteer(run.events).value.id;
      var replanned := Replanned(run, SkipActive(run.steps, REPLACED), batch, plan, "等待用户批准修改后的动作");
      var told, log := Told(AddEvent(replanned, out.stamps, PlanEvent, mark), plan, out), Installing(w.log, run, plan);
      InstalledSound(w, run, batch, plan, mark, out);
      InstalledAlike(run, batch, plan, mark, out);
      InstalledFirst(stored, run, batch, plan, mark, out);
      SaveIsLeft(w, stored, told,
        Turned(run, Changed(run.steps, IsOpen, Superseded), batch, plan, run.maxIterations, "等待用户批准修改后的动作"), log, out.ticks(tick));
    }
  }

  // ---------- Judging ----------

  lemma ObservingIsRuled(
    w: World, stored: Run, run: Run, status: RunStatus, batch: seq<Step>, out: Outside, tick: Tick)
    requires Working(w, stored, run, out) && IsDerived(stored, run) && BatchOk(run, batch)
    ensures LeftAsRuled(w, stored,
      Becomes(run.(steps := run.steps + batch,
                   status := if status == AwaitingConfirmation then AwaitingConfirmation else InProgress,
                   stopReason := if status == AwaitingConfirmation then "等待用户批准外部发送" else run.stopReason)),
      Outcome(Save(w, Observing(run, batch, status, out), tick), false))
  {
    hide Hydrate, Persist, GroundOk, RunOk, BatchOk, IsDerived, LeftAsRuled;
    var observing :=
      if status == AwaitingConfirmation then run.(status := AwaitingConfirmation, stopReason := "等待用户批准外部发送")
      else run.(status := InProgress);
    var next := observing.(steps := run.steps + batch);
    WorkingRounds(w, stored, run, out);
    WorkingAppend(w, stored, run, next, batch, out);
    EventSound(next, out.stamps, PlanEvent, "Mission 将持续观察", w.log);
    DerivedFirst(stored, run);
    SaveIsLeft(w, stored, Observing(run, batch, status, out),
      run.(steps := run.steps + batch,
           status := if status == AwaitingConfirmation then AwaitingConfirmation else InProgress,
           stopReason := if status == AwaitingConfirmation then "等待用户批准外部发送" else run.stopReason), w.log, tick);
  }

  lemma FieldsAreRuled(w: World, stored: Run, run: Run, open: Run, kind: EventType, message: string, out: Outside, tick: Tick)
    requires Working(w, stored, run, out) && IsDerived(stored, run) && open.status != Completed
    requires open == run.(status := open.status, stopReason := open.stopReason)
    ensures LeftAsRuled(w, stored, Becomes(open), Outcome(Save(w, AddEvent(open, out.stamps, kind, message), tick), false))
    ensures LeftAsRuled(w, stored, Becomes(open), Outcome(Save(w, open, tick), false))
  {
    hide Hydrate, Persist, GroundOk, RunOk, IsDerived, LeftAsRuled;
    WorkingRounds(w, stored, run, out);
    WorkingFields(w, stored, run, open, out);
    EventSound(open, out.stamps, kind, message, w.log);
    DerivedFirst(stored, run);
    SaveIsLeft(w, stored, AddEvent(open, out.stamps, kind, message), open, w.log, tick);
    SaveIsLeft(w, stored, open, open, w.log, tick);
  }

  lemma JudgeIsRuled(w: World, stored: Run, run: Run, adv: AdvanceInput, out: Outside, tick: nat)
    requires Working(w, stored, run, out) && IsDerived(stored, run) && FreshAdvance(adv, run.steps)
    ensures LeftAsRuled(w, stored, JudgeRuling(run, adv), Judge(w, run, adv, out, tick))
  {
    hide Hydrate, Persist, GroundOk, RunOk, Verifier.Complete, Working, IsDerived, LeftAsRuled, StoredAsRuled, GateRuling;
    hide Normalized, BatchOk;
    hide AfterRejection, Ended, Observing, FreshItems;
    var tock := out.ticks(tick);
    match adv.probe
    case IncompleteEmail =>
      var reason := "开发信草稿缺少对象、主题或正文，不能进入发送审批";
      EndingIsSaved(w, stored, run, RunFailed, reason, out, tock);
      StoredIsLeft(w, stored, Becomes(Fails(run, reason)), Judge(w, run, adv, out, tick));
    case Observe(items, status) =>
      if Normalized(items, run.id, Owner(run), run.steps).Some? {
        NormalizedBatchOk(items, run);
        ObservingIsRuled(w, stored, run, status, Normalized(items, run.id, Owner(run), run.steps).value, out, tock);
      } else {
        NothingIsLeft(w, stored);
      }
    case WaitUntil(time) =>
      FieldsAreRuled(w, stored, run, run.(status := InProgress, stopReason := TIMER_MARK + time), ResultEvent, "已读取进度", out, tock);
    case NoProbe =>
      GateIsRuled(w, stored, run, adv, out, tick);
      StoredIsLeft(w, stored, GateRuling(run, adv), Judge(w, run, adv, out, tick));
  }

  lemma NothingIsLeft(w: World, stored: Run)
    ensures LeftAsRuled(w, stored, Raises(None), Outcome(w, true))
  {
  }

  // ---------- Recovering ----------

  lemma RecoveryIs(run: Run, out: Outside)
    ensures var i := LastFailed(run.steps); var (now, verdict) := Recover(run, out);
      if i < 0 || !IsUnmarked(run.events, run.steps[i]) then verdict == NoRecovery && now == run
      else match DecideRecovery(run.steps[i]).action
        case Stop =>
          verdict == Halt
          && Alike(now, run.(status := if run.steps[i].risk == External then WaitingUser else RunFailed, stopReason := "外部动作失败后不能自动重放"))
        case RetryOnce =>
          verdict == Retry
          && Alike(now, run.(status := InProgress, stopReason := "", steps := run.steps[i := Retried(run, run.steps[i])]))
        case _ => verdict == NoRecovery && Alike(now, run)
  {
    hide HasMark, IsUnmarked, Describe;
    var i := LastFailed(run.steps);
    if i >= 0 {
      UnmarkedIff(run.events, run.steps[i]);
    }
  }

  lemma HaltIsRuled(w: World, stored: Run, run: Run, ruled: Run, out: Outside, tick: Tick)
    requires Working(w, stored, run, out) && IsDerived(stored, run) && Recover(run, out).1 == Halt && Alike(Recover(run, out).0, ruled)
    ensures LeftAsRuled(w, stored, Becomes(ruled), Outcome(Save(w, Reply(Recover(run, out).0, out), tick), false))
  {
    hide Hydrate, Persist, GroundOk, RunOk, IsDerived, LeftAsRuled, Recover;
    RecoverSound(run, out, w.log);
    var halted := Recover(run, out).0;
    ReplySound(halted, out, w.log);
    RepliedAlike(halted, out);
    DerivedFirst(stored, run);
    SaveIsLeft(w, stored, Reply(halted, out), ruled, w.log, tick);
  }

  lemma RepliedAlike(run: Run, out: Outside)
    ensures Alike(Reply(run, out), run)
  {
  }

  lemma RetryIsRuled(w: World, stored: Run, run: Run, ruled: Run, out: Outside, tick: Tick)
    requires Working(w, stored, run, out) && IsDerived(stored, run) && Recover(run, out).1 == Retry && Alike(Recover(run, out).0, ruled)
    requires LastFailed(run.steps) >= 0
    ensures var log := w.log + [RetriedEffect(run.steps[LastFailed(run.steps)].id)];
      LeftAsRuled(w, stored, Becomes(ruled), Outcome(Save(w.(log := log), Recover(run, out).0, tick), false))
  {
    hide Hydrate, Persist, GroundOk, RunOk, IsDerived, LeftAsRuled;
    var e := RetriedEffect(run.steps[LastFailed(run.steps)].id);
    RecoverSound(run, out, w.log);
    var now := Recover(run, out).0;
    LongerLogSound(now, w.log, e);
    RetriedFirst(stored, run, out);
    SaveIsLeft(w, stored, now, ruled, w.log + [e], tick);
  }

  lemma RetriedFirst(stored: Run, run: Run, out: Outside)
    requires IsDerived(stored, run)
    ensures SameFirst(stored.steps, Recover(run, out).0.steps)
  {
    hide HasMark, DecideRecovery, Describe, Sign;
  }

  lemma JudgedDerived(stored: Run, run: Run, now: Run, stamps: Stamps)
    requires IsDerived(stored, run) && now.steps == run.steps
    ensures IsDerived(stored, Propagate(now, stamps))
  {
    SkippedForReasons(now.steps, |now.steps|);
  }

  lemma {:induction false} SkippedForReasons(steps: seq<Step>, n: nat)
    requires n <= |steps|
    ensures forall i | 0 <= i < |steps| :: var t := SkipFirst(steps, n)[i];
      t == steps[i] || (t.id == steps[i].id && t.status == Skipped && !t.approved && t.error != "")
    decreases n
  {
    hide DependencyFailure;
    if n > 0 {
      SkippedForReasons(steps, n - 1);
    }
  }

  lemma PropagatedAlike(now: Run, run: Run, stamps: Stamps)
    requires Alike(now, run)
    ensures Alike(Propagate(now, stamps), run.(steps := SkipFirst(run.steps, |run.steps|)))
  {
    AlikeFields(now, run);
  }

  lemma EvaluateIsRuled(w: World, stored: Run, run: Run, adv: AdvanceInput, out: Outside, tick: nat)
    requires Working(w, stored, run, out) && IsDerived(stored, run) && FreshAdvance(adv, run.steps)
    requires !(InstructionWaits(run.events) && !AnyRunning(run.steps)) && !TurnHasCome(run.steps) && !ApprovalIsDue(run.steps)
    ensures LeftAsRuled(w, stored, AdvanceRuling(run, adv), Evaluate(w, run, adv, out, tick))
  {
    hide Hydrate, Persist, GroundOk, RunOk, IsDerived, LeftAsRuled, Recover, Judge, JudgeRuling, Propagate, SkipFirst;
    hide InstructionWaits, TurnHasCome;
    hide ApprovalIsDue, DecideRecovery, Reply, IsUnmarked, FreshAdvance, Alike, Working, Retried, AnyRunning;
    RecoveryIs(run, out);
    var (now, verdict) := Recover(run, out);
    match verdict
    case Halt => HaltIsRuled(w, stored, run, AdvanceRuling(run, adv).run, out, out.ticks(tick));
    case Retry => RetryIsRuled(w, stored, run, AdvanceRuling(run, adv).run, out, out.ticks(tick));
    case NoRecovery => UnrecoveredIsRuled(w, stored, run, now, adv, out, tick);
  }

  lemma UnrecoveredIsRuled(w: World, stored: Run, run: Run, now: Run, adv: AdvanceInput, out: Outside, tick: nat)
    requires Working(w, stored, run, out) && IsDerived(stored, run) && FreshAdvance(adv, run.steps)
    requires Recover(run, out) == (now, NoRecovery) && (now == run || Alike(now, run))
    ensures LeftAsRuled(w, stored, JudgeRuling(run.(steps := SkipFirst(run.steps, |run.steps|)), adv),
                        Judge(w, Propagate(now, out.stamps), adv, out, tick))
  {
    hide Hydrate, Persist, GroundOk, IsDerived, LeftAsRuled, Judge, JudgeRuling, SkipFirst, FreshAdvance, Recover;
    var judged := Propagate(now, out.stamps);
    RecoverSound(run, out, w.log);
    PropagateSound(now, w.log, out.stamps);
    PropagateNames(now, out.stamps);
    FreshAdvanceCarries(adv, run.steps, judged.steps);
    JudgedDerived(stored, run, now, out.stamps);
    JudgeIsRuled(w, stored, judged, adv, out, tick);
    PropagatedAlike(now, run, out.stamps);
    SameJudgeRuling(judged, run.(steps := SkipFirst(run.steps, |run.steps|)), adv);
    LeftAlike(w, stored, JudgeRuling(judged, adv), JudgeRuling(run.(steps := SkipFirst(run.steps, |run.steps|)), adv),
              Judge(w, judged, adv, out, tick));
  }

  // ---------- The next node ----------

  lemma NodeIs(run: Run)
    requires run.status !in {Paused, Completed, RunStatus.Cancelled} && !StartsWith(run.stopReason, "wait_until:")
    ensures NodeOf(run) ==
      if InstructionWaits(run.events) && !AnyRunning(run.steps) then SteerNode
      else if TurnHasCome(run.steps) then ExecuteNode
      else if ApprovalIsDue(run.steps) then ApprovalNode
      else EvaluateNode
  {
    hide DependenciesSatisfied, InstructionWaits, PendingSteer, StartsWith, AnyRunning;
    InstructionWaitsIff(run.events);
  }

  lemma AskingIsRuled(w: World, stored: Run, run: Run, out: Outside, tick: Tick)
    requires Working(w, stored, run, out) && IsDerived(stored, run)
    ensures LeftAsRuled(w, stored, Becomes(run.(status := AwaitingConfirmation, stopReason := "等待用户批准写入或外部动作")),
                        Outcome(Save(w, AtApproval(run, out), tick), false))
  {
    hide Hydrate, Persist, GroundOk, RunOk, IsDerived, LeftAsRuled, Working;
    FieldsAreRuled(w, stored, run, run.(status := AwaitingConfirmation, stopReason := AWAITING_APPROVAL),
                   ApprovalEvent, "任务已推进到审批点，批准后将继续执行剩余目标", out, tick);
  }

  lemma DispatchIsRuled(w: World, stored: Run, run: Run, adv: AdvanceInput, out: Outside, tick: nat)
    requires Working(w, stored, run, out) && IsDerived(stored, run) && FreshAdvance(adv, run.steps)
    requires run.status !in {Paused, Completed, RunStatus.Cancelled} && !StartsWith(run.stopReason, "wait_until:")
    ensures LeftAsRuled(w, stored, AdvanceRuling(run, adv), Dispatch(w, run, adv, out, tick))
  {
    hide Hydrate, Persist, GroundOk, RunOk, IsDerived, LeftAsRuled, ApplySteer, Evaluate, AtApproval, JudgeRuling, Admitted;
    hide Turned, Retried;
    hide InstructionWaits, TurnHasCome, ApprovalIsDue, AnyRunning, NodeOf, StartsWith, Working, FreshItems, DecideRecovery;
    hide IsUnmarked, SkipFirst;
    NodeIs(run);
    InstructionWaitsIff(run.events);
    match NodeOf(run)
    case SteerNode =>
      SteeringIsRuled(w, stored, run, adv.steerPlan, out, tick);
      NothingIsLeft(w, stored);
    case ExecuteNode =>
      FieldsAreRuled(w, stored, run, run.(status := InProgress), StepEvent, "", out, out.ticks(tick));
    case ApprovalNode => AskingIsRuled(w, stored, run, out, out.ticks(tick));
    case _ => EvaluateIsRuled(w, stored, run, adv, out, tick);
  }

  // ---------- Advancing ----------

  /** The mission waits for a time to come. */
  predicate IsTimed(run: Run) { StartsWith(run.stopReason, "wait_until:") }

  /** The mission as an advance works on it: inputs filled in, and a timer that has run out forgotten. */
  function Opened(stored: Run, out: Outside): Run {
    var run := Prepare(stored, Owner(stored), out.stamps);
    if IsTimed(stored) then run.(stopReason := "") else run
  }

  /** The observer is to run again, with one more poll counted. */
  function Polled(run: Run, s: Step): Step {
    var name := if s.tool == ProspectGetSearchProgress then "runId" else "sequenceId";
    var poll := Field(s.input, "poll");
    var count := if poll.Num? && AllDigits(poll.lexeme) then Num(NatToDigits(DigitsToNat(poll.lexeme) + 1)) else Num("1");
    var input := Obj(Cons(Member(name, Str(AsText(Field(s.input, name)))), Cons(Member("poll", count), Nil)));
    s.(input := input, result := None, error := "", status := Ready,
       signature := Signature(run.id, s.id, s.tool, input, run.ownerId, run.teamId))
  }

  lemma PolledIs(run: Run, i: nat, out: Outside)
    requires i < |run.steps|
    ensures Alike(Rewound(run, i, out), run.(status := InProgress, stopReason := "", steps := run.steps[i := Polled(run, run.steps[i])]))
  {
    hide NatToDigits, DigitsToNat, AllDigits, AsText, Field;
    assert RewoundStep(run, run.steps[i]) == Polled(run, run.steps[i]);
  }

  lemma PreparedNode(stored: Run, out: Outside)
    ensures var run := Prepare(stored, Owner(stored), out.stamps);
      && (NodeOf(run) == Terminal <==> stored.status in {Paused, Completed, RunStatus.Cancelled})
      && (NodeOf(run) == WaitTimer <==> stored.status !in {Paused, Completed, RunStatus.Cancelled} && IsTimed(stored))
  {
    hide Prepare, PendingSteer, StartsWith, DependenciesSatisfied;
  }

  lemma OpenedDerived(stored: Run, out: Outside)
    ensures IsDerived(stored, Opened(stored, out)) && SameFirst(stored.steps, Prepare(stored, Owner(stored), out.stamps).steps)
  {
    hide Resolve, HasNoReferences, DependenciesSatisfied, StartsWith, RequiresSecondaryConfirmation;
  }

  lemma PollingIsRuled(w: World, stored: Run, i: nat, out: Outside)
    requires AtRest(w, stored, out) && i < |stored.steps|
    requires var run := Prepare(stored, Owner(stored), out.stamps); run.steps[i].status == Done && IsPolled(run.steps[i].tool)
    ensures var run := Prepare(stored, Owner(stored), out.stamps);
      LeftAsRuled(w, stored, Becomes(run.(status := InProgress, stopReason := "", steps := run.steps[i := Polled(run, run.steps[i])])),
                  Outcome(Save(Preparing(w, stored), Rewound(run, i, out), out.ticks(0)), false))
  {
    hide Hydrate, Persist, GroundOk, RunOk, LeftAsRuled, Prepare, Preparing, Polled, Rewound, Opened;
    var run, w0 := Prepare(stored, Owner(stored), out.stamps), Preparing(w, stored);
    PreparingOk(w, stored, out);
    PrepareSound(stored, w0.log, out.stamps);
    RewoundSound(run, i, out, w0.log);
    OpenedDerived(stored, out);
    PolledIs(run, i, out);
    RewoundFirst(stored, run, i, out);
    SaveIsLeft(w0, stored, Rewound(run, i, out),
               run.(status := InProgress, stopReason := "", steps := run.steps[i := Polled(run, run.steps[i])]), w0.log, out.ticks(0));
    LeftElsewhere(w0, w, stored, Becomes(run.(status := InProgress, stopReason := "", steps := run.steps[i := Polled(run, run.steps[i])])),
                  Outcome(Save(w0, Rewound(run, i, out), out.ticks(0)), false));
  }

  lemma RewoundFirst(stored: Run, run: Run, i: nat, out: Outside)
    requires SameFirst(stored.steps, run.steps) && i < |run.steps|
    ensures SameFirst(stored.steps, Rewound(run, i, out).steps)
  {
    hide NextPoll, Observed, Sign;
  }

  lemma LeftElsewhere(a: World, b: World, stored: Run, ruling: Ruling, o: Outcome)
    requires LeftAsRuled(a, stored, ruling, o) && a.store == b.store
    ensures LeftAsRuled(b, stored, ruling, o)
  {
  }

  lemma OpenedWorking(w: World, stored: Run, adv: AdvanceInput, out: Outside)
    requires AtRest(w, stored, out) && FreshAdvance(adv, stored.steps) && stored.status != Completed
    ensures Working(Preparing(w, stored), stored, Opened(stored, out), out) && FreshAdvance(adv, Opened(stored, out).steps)
    ensures Preparing(w, stored).store == w.store
  {
    hide Hydrate, Persist, GroundOk, RunOk, Prepare, Preparing, FreshAdvance, StartsWith;
    var run, w0 := Prepare(stored, Owner(stored), out.stamps), Preparing(w, stored);
    PreparingOk(w, stored, out);
    PrepareSound(stored, w0.log, out.stamps);
    PrepareNames(stored, Owner(stored), out.stamps);
    FreshAdvanceCarries(adv, stored.steps, run.steps);
    WorkingRounds(w0, stored, run, out);
    WorkingFields(w0, stored, run, Opened(stored, out), out);
  }

  /**
   Advancing changes nothing for an inactive account, a stopped or completed mission and a timer that still
   runs, and is an exception where an input nests too deeply. A timer that has run out polls its observer.
   Whatever else it finds, it leaves the mission as ruled.
   */
  lemma AdvanceIsRuled(w: World, stored: Run, adv: AdvanceInput, out: Outside)
    requires Holds(w, stored, out) && w.flight == None && FreshAdvance(adv, stored.steps)
    ensures var o, run := Advance(w, stored.id, adv, out, 0), Prepare(stored, Owner(stored), out.stamps);
      if !adv.active then o == Outcome(w, false)
      else if PreparationThrows(stored) then o == Outcome(w, true)
      else if stored.status in {Paused, Completed, RunStatus.Cancelled} || (IsTimed(stored) && !adv.timerDue) then o == Outcome(w, false)
      else if IsTimed(stored) && exists i: nat :: IsPolledNext(run.steps, i) then
        exists i: nat :: IsPolledNext(run.steps, i) && i < |run.steps|
          && LeftAsRuled(w, stored,
               Becomes(run.(status := InProgress, stopReason := "", steps := run.steps[i := Polled(run, run.steps[i])])), o)
      else LeftAsRuled(w, stored, AdvanceRuling(Opened(stored, out), adv), o)
  {
    hide Hydrate, Persist, WorldOk, Holds, GroundOk, RunOk, LeftAsRuled, AdvanceRuling, Dispatch, Prepare, Preparing;
    hide PreparationThrows, Opened;
    hide IsPolledNext, Polled, Rewound, NodeOf, RewindTarget, IsTimed, FreshAdvance, Working;
    HeldAtRest(w, stored, out);
    PreparedNode(stored, out);
    var run := Prepare(stored, Owner(stored), out.stamps);
    PolledNextIff(run.steps);
    if adv.active && !PreparationThrows(stored) && stored.status !in {Paused, Completed, RunStatus.Cancelled}
       && !(IsTimed(stored) && !adv.timerDue) {
      var target := RewindTarget(run.steps);
      if IsTimed(stored) && target.Some? {
        PollingIsRuled(w, stored, target.value, out);
      } else {
        OpenedWorking(w, stored, adv, out);
        OpenedIs(stored, out);
        OpenedDerived(stored, out);
        DispatchIsRuled(Preparing(w, stored), stored, Opened(stored, out), adv, out, 0);
        LeftElsewhere(Preparing(w, stored), w, stored, AdvanceRuling(Opened(stored, out), adv), Advance(w, stored.id, adv, out, 0));
      }
    }
  }

  lemma OpenedIs(stored: Run, out: Outside)
    ensures var run, open := Prepare(stored, Owner(stored), out.stamps), Opened(stored, out);
      && open == (if IsTimed(stored) then run.(stopReason := "") else run)
      && open.status == stored.status && !StartsWith(open.stopReason, "wait_until:")
  {
    hide Prepare;
  }

  // ---------- The limit of rounds ----------

  /**
   A mission that has used up its rounds, whose gate rejects it and for which no document is to be made,
   has failed for that reason after the advance.
   */
  lemma LimitEndsTheMission(w: World, stored: Run, adv: AdvanceInput, out: Outside)
    requires Holds(w, stored, out) && w.flight == None && FreshAdvance(adv, stored.steps)
    requires adv.active && !PreparationThrows(stored) && stored.status !in {Paused, Completed, RunStatus.Cancelled}
    requires IsTimed(stored) ==>
      adv.timerDue && forall i: nat :: !IsPolledNext(Prepare(stored, Owner(stored), out.stamps).steps, i)
    requires var run := Opened(stored, out);
      && !InstructionWaits(run.events) && !TurnHasCome(run.steps) && !ApprovalIsDue(run.steps)
      && (forall i: nat | IsLatestFailure(run.steps, i) :: !IsUnmarked(run.events, run.steps[i]))
      && !Verifier.Complete(run.spec, SkipFirst(run.steps, |run.steps|))
    requires adv.probe == NoProbe && (adv.documents.Some? ==> adv.documents.value.items == [] && adv.documents.value.askUser == "")
    requires stored.iteration >= stored.maxIterations
    ensures var o := Advance(w, stored.id, adv, out, 0); var now := Hydrate(o.world.store, stored.id);
      && !o.thrown && now.Some? && now.value.status == RunFailed && now.value.stopReason == "已达到最大自主轮次"
      && now.value.iteration == stored.iteration && now.value.maxIterations == stored.maxIterations
  {
    hide Hydrate, Persist, WorldOk, Holds, Advance, Prepare, PreparationThrows, InstructionWaits, TurnHasCome, ApprovalIsDue;
    hide IsTimed, SkipFirst;
    hide IsUnmarked, IsLatestFailure, FreshAdvance, Verifier.Complete, DecideRecovery, IsPolledNext, StepsAsWritten, AnyRunning;
    AdvanceIsRuled(w, stored, adv, out);
    LatestFailure(Opened(stored, out).steps);
  }
}
