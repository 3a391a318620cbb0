/** What the completion gate decides about a mission that nothing moves any more, and what is stored then. */
module MissionGate {
  import opened Prelude
  import opened Values
  import opened AgentTypes
  import opened References
  import opened WorkflowGraph
  import opened Planning
  import opened Recovery
  import opened Runs
  import opened Collections
  import opened RunStore
  import opened Mission
  import opened MissionInvariant
  import opened MissionSave
  import opened MissionPasses
  import opened MissionMoves
  import opened MissionOps
  import opened MissionAdvance
  import opened MissionFlight
  import opened MissionRuns
  import opened MissionTheorems
  import opened MissionEffects
  import opened MissionTurns
  import Verifier

  // ---------- The ruling ----------

  /** The mission the gate makes of a judged one, or an exception and what is stored before it. */
  datatype Ruling = Becomes(run: Run) | Raises(stored: Option<Run>)

  /** The steps of a batch that the graph check admits, with the user's authorization. */
  ghost function Batch(run: Run, items: seq<PlanItem>, authorized: bool): Option<seq<Step>> {
    match Normalized(items, run.id, Owner(run), run.steps)
    case None => None
    case Some(batch) => Some(Authorize(batch, authorized))
  }

  /** One round further, with more steps. */
  function Extended(run: Run, batch: seq<Step>, reason: string): Run {
    run.(
      steps := run.steps + batch,
      iteration := if run.iteration < run.maxIterations then run.iteration + 1 else run.maxIterations,
      status := if SomeReady(batch) then InProgress else AwaitingConfirmation,
      stopReason := if SomeReady(batch) then "" else reason)
  }

  function Asks(run: Run, question: string): Run { run.(status := WaitingUser, stopReason := question) }

  function Fails(run: Run, reason: string): Run { run.(status := RunFailed, stopReason := reason) }

  /** Completion needs the evidence; then come documents, the limit of rounds, and the model, if there is one. */
  ghost function GateRuling(run: Run, adv: AdvanceInput): Ruling {
    if Verifier.Complete(run.spec, run.steps) then Becomes(run.(status := Completed, stopReason := "目标已通过服务端完成证据核验"))
    else if adv.documents.Some? && adv.documents.value.items != [] then
      match Batch(run, adv.documents.value.items, adv.authorized)
      case None => Raises(None)
      case Some(batch) => Becomes(Extended(run, batch, ""))
    else if adv.documents.Some? && adv.documents.value.askUser != "" then Becomes(Asks(run, adv.documents.value.askUser))
    else if run.iteration >= run.maxIterations then Becomes(Fails(run, "已达到最大自主轮次"))
    else if !adv.hasModel then Becomes(Fails(run, "规则模式"))
    else ModelRuling(run.(status := Planning, stopReason := ""), adv)
  }

  predicate IsFailed(s: Step) { s.status == Failed }

  function ReplacedByPlan(s: Step): Step {
    s.(status := Skipped, error := "已由恢复规划替代；原错误：" + s.error, approved := false)
  }

  /** The model's word alone never completes the mission; a new batch takes the place of what failed. */
  ghost function ModelRuling(run: Run, adv: AdvanceInput): Ruling {
    if adv.evaluation.None? then FallbackRuling(run, adv, true)
    else
      var e := adv.evaluation.value;
      if e.done then Becomes(run.(iteration := run.iteration + 1))
      else if e.askUser != "" then Becomes(Asks(run, e.askUser))
      else
        match Batch(run, e.next, adv.authorized)
        case None => FallbackRuling(run, adv, true)
        case Some(batch) =>
          if batch == [] then FallbackRuling(run, adv, false)
          else
            Becomes(run.(iteration := run.iteration + 1, steps := Changed(run.steps, IsFailed, ReplacedByPlan) + batch,
                         status := if SomeReady(batch) then InProgress else AwaitingConfirmation))
  }

  /** Without a usable evaluation: the deterministic continuation, else the user, or a failure if the model failed. */
  ghost function FallbackRuling(run: Run, adv: AdvanceInput, failed: bool): Ruling {
    if adv.fallback.Some? && adv.fallback.value.items != [] then
      match Batch(run, adv.fallback.value.items, adv.authorized)
      case None => Raises(Some(run))
      case Some(batch) => Becomes(Extended(run, batch, "等待确认确定性续跑动作"))
    else if adv.fallback.Some? && adv.fallback.value.askUser != "" then Becomes(Asks(run, adv.fallback.value.askUser))
    else if failed then Becomes(Fails(run, "结果评估失败且没有可靠的确定性续跑路径"))
    else Becomes(Asks(run, "现有结果尚未满足目标"))
  }

  // ---------- What the engine computes is the ruling ----------

  predicate Alike(a: Run, b: Run) { a.(events := []) == b.(events := []) }

  lemma EndedIs(run: Run, status: RunStatus, reason: string, out: Outside)
    ensures Alike(Ended(run, status, reason, out), run.(status := status, stopReason := reason))
  {
  }

  lemma ContinuingIs(run: Run, batch: seq<Step>, out: Outside)
    ensures Alike(Continuing(run, batch, out), Extended(run, batch, "等待确认确定性续跑动作"))
    ensures Alike(Delivering(run, batch, out), Extended(run, batch, ""))
  {
    assert AnyReady(batch) == SomeReady(batch);
  }

  lemma NextRoundIs(run: Run, batch: seq<Step>, out: Outside)
    ensures Alike(NextRound(run, batch, out),
      run.(iteration := run.iteration + 1, steps := Changed(run.steps, IsFailed, ReplacedByPlan) + batch,
           status := if SomeReady(batch) then InProgress else AwaitingConfirmation))
  {
    assert AnyReady(batch) == SomeReady(batch);
    assert SkipFailed(run.steps) == Changed(run.steps, IsFailed, ReplacedByPlan);
  }

  /** The engine's evaluation against the ruling. */
  ghost predicate IsRuled(judged: Option<Run>, ruling: Ruling, run: Run) {
    match ruling
    case Becomes(r) => judged.Some? && Alike(judged.value, r)
    case Raises(kept) => judged.None? && kept == Some(run)
  }

  lemma ModelFailureIs(run: Run, adv: AdvanceInput, out: Outside)
    requires !Verifier.Complete(run.spec, run.steps)
    ensures IsRuled(AfterModelFailure(run, adv, out), FallbackRuling(run, adv, true), run)
  {
    hide Normalized, Verifier.Complete, Continuing, Ended, Extended, Authorize;
    if adv.fallback.Some? && adv.fallback.value.items != [] && Batch(run, adv.fallback.value.items, adv.authorized).Some? {
      ContinuingIs(run, Batch(run, adv.fallback.value.items, adv.authorized).value, out);
    } else if adv.fallback.Some? {
      EndedIs(run, WaitingUser, adv.fallback.value.askUser, out);
    }
    EndedIs(run, RunFailed, "结果评估失败且没有可靠的确定性续跑路径", out);
  }

  lemma WithoutNextIs(run: Run, adv: AdvanceInput, out: Outside)
    requires !Verifier.Complete(run.spec, run.steps)
    ensures IsRuled(WithoutNext(run, adv, out), FallbackRuling(run, adv, false), run)
  {
    hide Normalized, Verifier.Complete, Continuing, Ended, Extended, Authorize;
    if adv.fallback.Some? && adv.fallback.value.items != [] && Batch(run, adv.fallback.value.items, adv.authorized).Some? {
      ContinuingIs(run, Batch(run, adv.fallback.value.items, adv.authorized).value, out);
    } else if adv.fallback.Some? {
      EndedIs(run, WaitingUser, adv.fallback.value.askUser, out);
    }
    EndedIs(run, WaitingUser, "现有结果尚未满足目标", out);
  }

  lemma EvaluatedIs(run: Run, adv: AdvanceInput, out: Outside)
    requires !Verifier.Complete(run.spec, run.steps) && run.status == Planning && run.stopReason == ""
    ensures IsRuled(Evaluated(run, adv, out), ModelRuling(run, adv), run)
  {
    hide Normalized, Verifier.Complete, AfterModelFailure, WithoutNext, FallbackRuling, NextRound, Ended, Authorize, Changed;
    hide SomeReady;
    ModelFailureIs(run, adv, out);
    WithoutNextIs(run, adv, out);
    if adv.evaluation.Some? {
      var e := adv.evaluation.value;
      EndedIs(run, WaitingUser, e.askUser, out);
      var batch := Batch(run, e.next, adv.authorized);
      if batch.Some? {
        NextRoundIs(run, batch.value, out);
        AuthorizedIsEmpty(run, e.next, adv.authorized);
      }
    }
  }

  lemma AuthorizedIsEmpty(run: Run, items: seq<PlanItem>, authorized: bool)
    requires Normalized(items, run.id, Owner(run), run.steps).Some?
    ensures Batch(run, items, authorized).value == [] <==> Normalized(items, run.id, Owner(run), run.steps).value == []
  {
    hide Normalized;
  }

  // ---------- The ruling on a copy read back ----------

  /** The run derived from the stored one: the same steps, what was skipped still skipped, what is newly skipped with its reason. */
  predicate IsDerived(stored: Run, run: Run) {
    && |run.steps| == |stored.steps|
    && forall i | 0 <= i < |run.steps| ::
         && run.steps[i].id == stored.steps[i].id
         && (stored.steps[i].status == Skipped ==> run.steps[i].status == Skipped)
         && (stored.steps[i].status != Skipped && run.steps[i].status == Skipped ==> !run.steps[i].approved && run.steps[i].error != "")
  }

  /** The same rounds further, the same batch after the same change of the steps before it. */
  predicate SameTurn(run: Run, copy: Run, a: Run, b: Run, batch: seq<Step>, replaced: bool) {
    && b == a.(steps := b.steps, events := b.events)
    && a.steps == (if replaced then Changed(run.steps, IsFailed, ReplacedByPlan) else run.steps) + batch
    && b.steps == (if replaced then Changed(copy.steps, IsFailed, ReplacedByPlan) else copy.steps) + batch
  }

  lemma SameBatch(run: Run, copy: Run, items: seq<PlanItem>, authorized: bool)
    requires copy == run.(steps := copy.steps, events := copy.events) && KeySet(copy.steps) == KeySet(run.steps)
    ensures Batch(copy, items, authorized) == Batch(run, items, authorized)
  {
    hide AllWithReferences, Authorize;
  }

  /** The ruling on the copy and on the run differ only in the steps they change. */
  ghost predicate RuledAlike(run: Run, copy: Run, r: Ruling, c: Ruling, batch: seq<Step>, replaced: bool) {
    match r
    case Becomes(a) => c.Becomes? && SameTurn(run, copy, a, c.run, batch, replaced)
    case Raises(kept) => c == Raises(Some(copy)) && kept == Some(run)
  }

  lemma FallbackOnCopy(run: Run, copy: Run, adv: AdvanceInput, failed: bool) returns (batch: seq<Step>)
    requires copy == run.(steps := copy.steps, events := copy.events) && KeySet(copy.steps) == KeySet(run.steps)
    ensures RuledAlike(run, copy, FallbackRuling(run, adv, failed), FallbackRuling(copy, adv, failed), batch, false)
  {
    hide Batch, SomeReady;
    batch := [];
    assert run.steps + [] == run.steps && copy.steps + [] == copy.steps;
    if adv.fallback.Some? {
      SameBatch(run, copy, adv.fallback.value.items, adv.authorized);
      if adv.fallback.value.items != [] && Batch(run, adv.fallback.value.items, adv.authorized).Some? {
        batch := Batch(run, adv.fallback.value.items, adv.authorized).value;
      }
    }
  }

  lemma RulingOnCopy(run: Run, copy: Run, adv: AdvanceInput) returns (batch: seq<Step>, replaced: bool)
    requires copy == run.(steps := copy.steps, events := copy.events) && KeySet(copy.steps) == KeySet(run.steps)
    ensures RuledAlike(run, copy, ModelRuling(run, adv), ModelRuling(copy, adv), batch, replaced)
  {
    hide Batch, SomeReady, FallbackRuling, Changed;
    batch, replaced := [], false;
    assert run.steps + [] == run.steps && copy.steps + [] == copy.steps;
    if adv.evaluation.None? {
      batch := FallbackOnCopy(run, copy, adv, true);
    } else {
      var e := adv.evaluation.value;
      SameBatch(run, copy, e.next, adv.authorized);
      if !e.done && e.askUser == "" {
        match Batch(run, e.next, adv.authorized)
        case None => batch := FallbackOnCopy(run, copy, adv, true);
        case Some(next) =>
          if next == [] {
            batch := FallbackOnCopy(run, copy, adv, false);
          } else {
            batch, replaced := next, true;
          }
      }
    }
  }

  lemma TurnWrittenTwice(was: seq<Step>, s: Step, i: nat, first: seq<Step>, replaced: bool, second: Step)
    requires i < |was| <= |first| && StepAsWritten(was, i, s, first[i])
    requires was[i].status == Skipped ==> s.status == Skipped
    requires was[i].status != Skipped && s.status == Skipped ==> !s.approved && s.error != ""
    requires StepAsWritten(first, i, if replaced && IsFailed(first[i]) then ReplacedByPlan(first[i]) else first[i], second)
    ensures StepAsWritten(was, i, if replaced && IsFailed(s) then ReplacedByPlan(s) else s, second)
  {
  }

  /** The save before the model was asked and the save after it, taken together. */
  lemma TurnReads(stored: Run, run: Run, first: Run, copy: Run, a: Run, b: Run, batch: seq<Step>, replaced: bool, second: Run)
    requires IsDerived(stored, run) && AsWritten(stored, run.(events := first.events), first) && copy.steps == first.steps
    requires SameTurn(run, copy, a, b, batch, replaced) && AsWritten(first, b.(events := second.events), second)
    ensures AsWritten(stored, a.(events := second.events), second)
  {
    hide StepAsWritten, IsFailed, ReplacedByPlan;
    var n := |stored.steps|;
    forall i | 0 <= i < |a.steps|
      ensures StepAsWritten(stored.steps, i, a.steps[i], second.steps[i])
    {
      assert StepAsWritten(first.steps, i, b.steps[i], second.steps[i]);
      if i < n {
        assert StepAsWritten(stored.steps, i, run.steps[i], first.steps[i]);
        TurnWrittenTwice(stored.steps, run.steps[i], i, first.steps, replaced, second.steps[i]);
      } else {
        BeyondTheStored(stored.steps, first.steps, i, b.steps[i], second.steps[i]);
      }
    }
  }

  // ---------- What is stored ----------

  /** The mission is stored as ruled; an exception leaves what was stored before it. */
  ghost predicate StoredAsRuled(w: World, stored: Run, ruling: Ruling, o: Outcome) {
    && o.world.log == w.log && o.world.flight == w.flight
    && match ruling
       case Becomes(run) => !o.thrown && Leaves(o.world, stored, run)
       case Raises(None) => o == Outcome(w, true)
       case Raises(Some(run)) => o.thrown && Leaves(o.world, stored, run)
  }

  lemma RulingIsSaved(w: World, stored: Run, run: Run, ruled: Run, tick: Tick, out: Outside)
    requires Hydrate(w.store, stored.id) == Some(stored) && Sound(run, w.log, out.stamps) && Continues(stored, run)
    requires SameFirst(stored.steps, run.steps) && Alike(run, ruled)
    ensures StoredAsRuled(w, stored, Becomes(ruled), Outcome(Save(w, run, tick), false))
  {
    hide Hydrate, Persist, RunOk, Leaves;
    LeavesWritten(w, stored, run, tick, w.log);
    LeavesAlike(Save(w, run, tick), stored, run, ruled);
  }

  lemma DerivedFirst(stored: Run, run: Run)
    requires IsDerived(stored, run)
    ensures SameFirst(stored.steps, run.steps) && forall batch :: SameFirst(stored.steps, run.steps + batch)
  {
  }

  lemma EndingIsSaved(w: World, stored: Run, run: Run, status: RunStatus, reason: string, out: Outside, tick: Tick)
    requires Working(w, stored, run, out) && IsDerived(stored, run)
    ensures StoredAsRuled(w, stored, Becomes(run.(status := status, stopReason := reason)),
                          Outcome(Save(w, Ended(run, status, reason, out), tick), false))
  {
    hide Hydrate, Persist, GroundOk, RunOk, Ended, StoredAsRuled;
    EndedSound(run, status, reason, out, w.log);
    EndedIs(run, status, reason, out);
    DerivedFirst(stored, run);
    RulingIsSaved(w, stored, Ended(run, status, reason, out), run.(status := status, stopReason := reason), tick, out);
  }

  lemma DeliveryIsSaved(w: World, stored: Run, run: Run, batch: seq<Step>, out: Outside, tick: Tick)
    requires Working(w, stored, run, out) && IsDerived(stored, run) && BatchOk(run, batch)
    ensures StoredAsRuled(w, stored, Becomes(Extended(run, batch, "")), Outcome(Save(w, Delivering(run, batch, out), tick), false))
  {
    hide Hydrate, Persist, GroundOk, RunOk, StoredAsRuled, BatchOk, AfterBatch, Extended;
    var next := run.(steps := run.steps + batch, iteration := Min(run.maxIterations, run.iteration + 1),
                     status := AfterBatch(batch), stopReason := "");
    AfterBatchIsOpen(batch);
    WorkingRounds(w, stored, run, out);
    WorkingAppend(w, stored, run, next, batch, out);
    EventSound(next, out.stamps, PlanEvent, "PI 已创建，已直接生成审批与导出动作", w.log);
    ContinuingIs(run, batch, out);
    DerivedFirst(stored, run);
    RulingIsSaved(w, stored, Delivering(run, batch, out), Extended(run, batch, ""), tick, out);
  }

  lemma PlanningReads(w: World, stored: Run, run: Run, adv: AdvanceInput, out: Outside, tick: nat)
    requires Working(w, stored, run, out) && IsDerived(stored, run) && HasRoundLeft(run) && FreshAdvance(adv, run.steps)
    requires !Verifier.Complete(run.spec, run.steps)
    ensures var planning, asked := PlanningRun(run, out), run.(status := Planning, stopReason := "");
      var w1, first, copy := Save(w, planning, out.ticks(tick)), Reread(w, planning), Saved(w, planning);
      && Working(w1, first, copy, out) && FreshAdvance(adv, copy.steps) && HasRoundLeft(copy)
      && Continues(stored, first) && first.id == stored.id
      && AsWritten(stored, planning, first) && Leaves(w1, stored, asked)
      && copy == asked.(steps := copy.steps, events := copy.events) && copy.steps == first.steps
      && KeySet(copy.steps) == KeySet(run.steps) && !Verifier.Complete(copy.spec, copy.steps)
  {
    hide Hydrate, Persist, GroundOk, RunOk, Verifier.Complete, AsWritten, Leaves, Reread, FreshAdvance, Next;
    var open, planning := run.(status := Planning, stopReason := ""), PlanningRun(run, out);
    WorkingRounds(w, stored, run, out);
    WorkingFields(w, stored, run, open, out);
    EventSound(open, out.stamps, StepEvent, "正在评估结果", w.log);
    DerivedFirst(stored, run);
    PlanningIs(run, out);
    LeavesWritten(w, stored, planning, out.ticks(tick), w.log);
    LeavesAlike(Save(w, planning, out.ticks(tick)), stored, planning, open);
    WorkingSaved(w, stored, planning, adv, out, out.ticks(tick));
    SoundRunHas(planning, w.log);
    SoundRunHas(stored, w.log) by { GroundedIsSound(w, stored, out); }
    SavedIsAfter(w, stored, planning);
    CopyOfSaved(w, planning);
    WrittenKeys(stored.steps, run.steps, Reread(w, planning).steps, stored, planning, Reread(w, planning));
    DerivedKeepsSkipped(stored, run, planning);
    SavedVerdict(w, stored, planning);
  }

  lemma GroundedIsSound(w: World, stored: Run, out: Outside)
    requires Grounded(w, stored, out)
    ensures RunOk(stored, w.log)
  {
    hide RunOk;
  }

  lemma PlanningIs(run: Run, out: Outside)
    ensures var now := PlanningRun(run, out); now == run.(status := Planning, stopReason := "", events := now.events)
  {
  }

  lemma CopyOfSaved(w: World, run: Run)
    ensures Saved(w, run) == run.(steps := Saved(w, run).steps, events := Saved(w, run).events)
  {
  }

  lemma WrittenKeys(was: seq<Step>, written: seq<Step>, now: seq<Step>, stored: Run, run: Run, read: Run)
    requires was == stored.steps && written == run.steps && now == read.steps && AsWritten(stored, run, read)
    ensures KeySet(now) == KeySet(written)
  {
    forall i | 0 <= i < |written|
      ensures now[i].key == written[i].key
    {
      assert StepAsWritten(was, i, written[i], now[i]);
    }
    SameKeysKept(written, now);
  }

  lemma DerivedKeepsSkipped(stored: Run, run: Run, planning: Run)
    requires IsDerived(stored, run) && planning.steps == run.steps
    ensures KeepsSkipped(stored, planning)
  {
  }

  // ---------- The model's round ----------

  lemma TurnFirst(first: Run, copy: Run, a: Run, b: Run, run: Run, batch: seq<Step>, replaced: bool)
    requires SameTurn(run, copy, a, b, batch, replaced) && copy.steps == first.steps
    ensures SameFirst(first.steps, b.steps)
  {
  }

  lemma JudgedIsSaved(
    w: World, stored: Run, run: Run, w1: World, first: Run, copy: Run, judged: Run, a: Run, b: Run,
    batch: seq<Step>, replaced: bool, tick: Tick, out: Outside)
    requires Hydrate(w1.store, stored.id) == Some(first) && first.id == stored.id && w1.log == w.log && w1.flight == w.flight
    requires IsDerived(stored, run) && Leaves(w1, stored, run) && copy.steps == first.steps
    requires SameTurn(run, copy, a, b, batch, replaced) && Alike(judged, b)
    requires RunOk(judged, w1.log) && Continues(first, judged) && a.id == stored.id
    ensures StoredAsRuled(w, stored, Becomes(a), Outcome(Save(w1, judged, tick), false))
  {
    hide Hydrate, Persist, RunOk, IsDerived, SameTurn, Reread, AsWritten;
    TurnFirst(first, copy, a, b, run, batch, replaced);
    assert judged.steps == judged.(events := []).steps == b.steps;
    LeavesWritten(w1, first, judged, tick, w1.log);
    LeavesAlike(Save(w1, judged, tick), first, judged, b);
    var second := Reread(w1, judged);
    TurnReads(stored, run, first, copy, a, b, batch, replaced, second);
  }

  lemma ModelRoundIsRuled(w: World, stored: Run, run: Run, adv: AdvanceInput, out: Outside, tick: nat)
    requires Working(w, stored, run, out) && IsDerived(stored, run) && HasRoundLeft(run) && FreshAdvance(adv, run.steps)
    requires !Verifier.Complete(run.spec, run.steps)
    ensures StoredAsRuled(w, stored, ModelRuling(run.(status := Planning, stopReason := ""), adv),
                          ModelRound(w, PlanningRun(run, out), adv, out, tick))
  {
    hide Hydrate, Persist, GroundOk, RunOk, Verifier.Complete, AsWritten, Leaves, Reread, FreshAdvance, Evaluated;
    hide ModelRuling, Saved, SameTurn;
    var planning, asked := PlanningRun(run, out), run.(status := Planning, stopReason := "");
    var w1, first, copy := Save(w, planning, out.ticks(tick)), Reread(w, planning), Saved(w, planning);
    PlanningReads(w, stored, run, adv, out, tick);
    EvaluatedOk(w1, first, copy, adv, out);
    EvaluatedIs(copy, adv, out);
    var batch, replaced := RulingOnCopy(asked, copy, adv);
    var judged := Evaluated(copy, adv, out);
    DerivedStatus(stored, run);
    if ModelRuling(asked, adv).Becomes? {
      var a, b := ModelRuling(asked, adv).run, ModelRuling(copy, adv).run;
      RuledId(asked, adv);
      JudgedIsSaved(w, stored, asked, w1, first, copy, judged.value, a, b, batch, replaced, out.ticks(tick + 1), out);
    }
  }

  lemma DerivedStatus(stored: Run, run: Run)
    requires IsDerived(stored, run)
    ensures IsDerived(stored, run.(status := Planning, stopReason := ""))
  {
  }

  lemma RuledId(run: Run, adv: AdvanceInput)
    ensures ModelRuling(run, adv).Becomes? ==> ModelRuling(run, adv).run.id == run.id
  {
    hide Batch, Changed, SomeReady;
  }

  // ---------- The gate ----------

  lemma RejectionIsRuled(w: World, stored: Run, run: Run, adv: AdvanceInput, out: Outside, tick: nat)
    requires Working(w, stored, run, out) && IsDerived(stored, run) && FreshAdvance(adv, run.steps)
    requires !Verifier.Complete(run.spec, run.steps)
    ensures StoredAsRuled(w, stored, GateRuling(run, adv), AfterRejection(w, run, adv, out, tick))
  {
    hide Hydrate, Persist, GroundOk, RunOk, Verifier.Complete, Leaves, FreshAdvance, Working, StoredAsRuled, ModelRuling;
    hide ModelRound, IsDerived;
    hide Extended, Ended, Delivering, BatchOk, Authorize, Normalized;
    var tock := out.ticks(tick);
    if adv.documents.Some? && adv.documents.value.items != [] {
      if Batch(run, adv.documents.value.items, adv.authorized).Some? {
        FreshDocuments(adv, run.steps);
        NormalizedAuthorizedOk(run, adv.documents.value.items, adv.authorized);
        DeliveryIsSaved(w, stored, run, Batch(run, adv.documents.value.items, adv.authorized).value, out, tock);
      } else {
        NothingIsRuled(w, stored);
      }
    } else if adv.documents.Some? && adv.documents.value.askUser != "" {
      EndingIsSaved(w, stored, run, WaitingUser, adv.documents.value.askUser, out, tock);
    } else if run.iteration >= run.maxIterations {
      EndingIsSaved(w, stored, run, RunFailed, "已达到最大自主轮次", out, tock);
    } else if !adv.hasModel {
      EndingIsSaved(w, stored, run, RunFailed, "规则模式", out, tock);
    } else {
      ModelRoundIsRuled(w, stored, run, adv, out, tick);
    }
  }

  lemma FreshDocuments(adv: AdvanceInput, steps: seq<Step>)
    requires FreshAdvance(adv, steps)
    ensures adv.documents.Some? ==> FreshItems(adv.documents.value.items, steps)
  {
    hide FreshItems;
  }

  lemma NothingIsRuled(w: World, stored: Run)
    ensures StoredAsRuled(w, stored, Raises(None), Outcome(w, true))
  {
  }

  /** At the gate the mission is stored exactly as ruled. */
  lemma GateIsRuled(w: World, stored: Run, run: Run, adv: AdvanceInput, out: Outside, tick: nat)
    requires Working(w, stored, run, out) && IsDerived(stored, run) && FreshAdvance(adv, run.steps) && adv.probe == NoProbe
    ensures StoredAsRuled(w, stored, GateRuling(run, adv), Judge(w, run, adv, out, tick))
  {
    hide Hydrate, Persist, GroundOk, RunOk, Verifier.Complete, Leaves, FreshAdvance, Working, StoredAsRuled, AfterRejection;
    hide IsDerived, Ended;
    if Verifier.Complete(run.spec, run.steps) {
      EndingIsSaved(w, stored, run, Completed, "目标已通过服务端完成证据核验", out, out.ticks(tick));
    } else {
      RejectionIsRuled(w, stored, run, adv, out, tick);
    }
  }
}
