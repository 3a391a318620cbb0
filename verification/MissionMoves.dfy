/** Appending planned steps, retrying, rewinding, starting, queueing and finishing a step keep a run sound. */
module MissionMoves {
  import opened Prelude
  import opened Values
  import opened AgentTypes
  import opened References
  import opened WorkflowGraph
  import opened GraphLaws
  import opened Planning
  import opened Recovery
  import opened Runs
  import opened RunStore
  import opened Mission
  import opened MissionInvariant
  import opened MissionPasses
  import Verifier

  // ---------- New steps ----------

  predicate NewStepOk(s: Step, runId: string, user: Actor) {
    && s.key != "" && s.risk == ToolRisk(s.tool) && Collect(s.input, 0).Ok?
    && s.signature == Sign(runId, s.id, s.tool, s.input, user)
    && (s.status == NeedsConfirmation || (s.status == Ready && s.risk != External && (s.risk == Write ==> s.approved)))
    && (s.risk == External ==> !s.approved)
  }

  predicate Apart(a: seq<Step>, b: seq<Step>) {
    forall s, t | s in a && t in b :: s.id != t.id && s.key != t.key
  }

  predicate BatchNew(run: Run, batch: seq<Step>) {
    && DistinctIds(batch) && DistinctKeys(batch) && Apart(run.steps, batch)
    && forall s | s in batch :: NewStepOk(s, run.id, Owner(run))
  }

  /** Appending the batch leaves no dependency open and closes no cycle. */
  ghost predicate Fits(steps: seq<Step>, batch: seq<Step>) { SoundGraph(steps) ==> SoundGraph(steps + batch) }

  ghost predicate BatchOk(run: Run, batch: seq<Step>) { BatchNew(run, batch) && Fits(run.steps, batch) }

  /** A batch the log accounts for: it fits, or a narrowed plan is on record. */
  ghost predicate BatchFor(run: Run, batch: seq<Step>, log: seq<Effect>) {
    BatchNew(run, batch) && (Whole(log) ==> Fits(run.steps, batch))
  }

  /** Ids are drawn at random, so a plan's are new; keys are never empty. */
  predicate FreshItems(items: seq<PlanItem>, steps: seq<Step>) {
    && (forall i, j :: 0 <= i < j < |items| ==> items[i].id != items[j].id)
    && (forall i, s | 0 <= i < |items| && s in steps :: items[i].id != s.id)
    && (forall i | 0 <= i < |items| :: items[i].key != "")
  }

  lemma DraftedStepOk(item: PlanItem, runId: string, user: Actor)
    requires item.key != "" && Collect(NewStep(item, runId, user).input, 0).Ok?
    ensures var s := WithReferences(NewStep(item, runId, user));
      s.id == item.id && s.key == item.key && NewStepOk(s, runId, user)
  {
  }

  lemma NormalizedBatchOk(items: seq<PlanItem>, run: Run)
    requires FreshItems(items, run.steps) && Normalized(items, run.id, Owner(run), run.steps).Some?
    ensures BatchOk(run, Normalized(items, run.id, Owner(run), run.steps).value)
  {
    var drafts := NewSteps(items, run.id, Owner(run));
    var batch := AllWithReferences(drafts);
    forall i | 0 <= i < |batch|
      ensures batch[i].id == items[i].id && batch[i].key == drafts[i].key && NewStepOk(batch[i], run.id, Owner(run))
    {
      assert drafts[i] in drafts;
      DraftedStepOk(items[i], run.id, Owner(run));
    }
    DraftsAreNew(items, drafts, batch, run);
    if SoundGraph(run.steps) {
      AppendWholeBatch(run.steps, drafts);
    }
  }

  lemma DraftsAreNew(items: seq<PlanItem>, drafts: seq<Step>, batch: seq<Step>, run: Run)
    requires FreshItems(items, run.steps) && FreshKeys(drafts, KeySet(run.steps)) && |batch| == |drafts| == |items|
    requires forall i | 0 <= i < |batch| ::
      batch[i].id == items[i].id && batch[i].key == drafts[i].key && NewStepOk(batch[i], run.id, Owner(run))
    ensures BatchNew(run, batch)
  {
  }

  lemma AuthorizedBatchOk(run: Run, batch: seq<Step>, authorized: bool)
    requires BatchNew(run, batch)
    ensures BatchNew(run, Authorize(batch, authorized))
    ensures Fits(run.steps, batch) ==> Fits(run.steps, Authorize(batch, authorized))
  {
    AuthorizedFits(run.steps, batch, authorized);
    var now := Authorize(batch, authorized);
    forall i | 0 <= i < |batch|
      ensures now[i].id == batch[i].id && now[i].key == batch[i].key && NewStepOk(now[i], run.id, Owner(run)) && batch[i] in batch
    {
      assert NewStepOk(batch[i], run.id, Owner(run));
    }
  }

  lemma AuthorizedFits(steps: seq<Step>, batch: seq<Step>, authorized: bool)
    ensures Fits(steps, batch) ==> Fits(steps, Authorize(batch, authorized))
  {
    var a, b := steps + batch, steps + Authorize(batch, authorized);
    forall i | 0 <= i < |a|
      ensures b[i].key == a[i].key && b[i].dependsOn == a[i].dependsOn
    {
      if i >= |steps| {
        assert a[i] == batch[i - |steps|] && b[i] == Authorize(batch, authorized)[i - |steps|];
      }
    }
    SameNamesSameGraph(a, b);
  }

  /** A selection of a new batch is new. */
  lemma SelectedBatchNew(run: Run, batch: seq<Step>, kept: seq<Step>)
    requires BatchNew(run, batch) && DistinctIds(kept) && DistinctKeys(kept) && forall s | s in kept :: s in batch
    ensures BatchNew(run, kept)
  {
  }

  lemma {:induction false} ConstrainedDistinct(batch: seq<Step>, decision: TurnDecision)
    requires DistinctIds(batch) && DistinctKeys(batch)
    ensures DistinctIds(Constrain(batch, decision)) && DistinctKeys(Constrain(batch, decision))
  {
    if batch != [] {
      var first, rest := batch[0], batch[1..];
      assert forall i | 0 <= i < |rest| :: rest[i] == batch[i + 1];
      ConstrainedDistinct(rest, decision);
      var kept := Constrain(rest, decision);
      forall i | 0 <= i < |kept|
        ensures kept[i].id != first.id && kept[i].key != first.key
      {
        assert kept[i] in rest;
        var j :| 0 <= j < |rest| && rest[j] == kept[i];
        assert rest[j] == batch[j + 1];
      }
      AddedInFront(first, kept);
    }
  }

  lemma AddedInFront(first: Step, kept: seq<Step>)
    requires DistinctIds(kept) && DistinctKeys(kept)
    requires forall i | 0 <= i < |kept| :: kept[i].id != first.id && kept[i].key != first.key
    ensures DistinctIds([first] + kept) && DistinctKeys([first] + kept)
  {
  }

  lemma ConstrainedBatchNew(run: Run, batch: seq<Step>, decision: TurnDecision)
    requires BatchNew(run, batch)
    ensures BatchNew(run, Constrain(batch, decision))
  {
    ConstrainedDistinct(batch, decision);
    SelectedBatchNew(run, batch, Constrain(batch, decision));
  }

  lemma PlannedBatchOk(run: Run, plan: Plan)
    requires FreshItems(plan.items, run.steps) && PlannedBatch(run, plan).Some?
    ensures BatchNew(run, PlannedBatch(run, plan).value)
    ensures !Narrows(run, plan) ==> Fits(run.steps, PlannedBatch(run, plan).value)
  {
    NormalizedBatchOk(plan.items, run);
    var batch := Normalized(plan.items, run.id, Owner(run), run.steps).value;
    ConstrainedBatchNew(run, batch, plan.decision);
    if !Narrows(run, plan) && SoundGraph(run.steps) {
      ConstrainedAppendSoundIff(run.steps, NewSteps(plan.items, run.id, Owner(run)), plan.decision);
    }
    AuthorizedBatchOk(run, Constrain(batch, plan.decision), Authorizing(plan));
  }

  /** A planned step is approved exactly when it is an ordinary write and the turn, not an automation, authorizes writes. */
  lemma PlannedApprovalIff(run: Run, plan: Plan, s: Step)
    requires PlannedBatch(run, plan).Some? && s in PlannedBatch(run, plan).value
    ensures s.approved <==>
      plan.decision.writeAuthorized && !plan.automated && s.risk == Write && !RequiresSecondaryConfirmation(s.tool, s.input)
  {
    hide RequiresSecondaryConfirmation, Rewrite, Sign;
    var drafts := NewSteps(plan.items, run.id, Owner(run));
    var batch := AllWithReferences(drafts);
    forall i | 0 <= i < |batch|
      ensures !batch[i].approved
    {
      assert batch[i] == WithReferences(drafts[i]);
    }
    var kept := Constrain(batch, plan.decision);
    var i :| 0 <= i < |kept| && Authorize(kept, Authorizing(plan))[i] == s;
    assert kept[i] in kept;
  }

  /** Installing a plan: the log says when the plan was narrowed. */
  lemma InstallingOk(run: Run, plan: Plan, log: seq<Effect>)
    requires FreshItems(plan.items, run.steps) && PlannedBatch(run, plan).Some?
    ensures BatchFor(run, PlannedBatch(run, plan).value, Installing(log, run, plan))
    ensures log <= Installing(log, run, plan)
  {
    PlannedBatchOk(run, plan);
    if Narrows(run, plan) {
      assert (log + [NarrowedEffect])[|log|] == NarrowedEffect;
    }
  }

  lemma InstallingSound(run: Run, other: Run, plan: Plan, log: seq<Effect>, stamps: Stamps)
    requires Sound(run, log, stamps)
    ensures Sound(run, Installing(log, other, plan), stamps)
  {
    LongerLogSound(run, log, NarrowedEffect);
  }

  lemma InstallingLogged(log: seq<Effect>, events: seq<Event>, run: Run, plan: Plan)
    requires LogOk(log, events)
    ensures LogOk(Installing(log, run, plan), events)
  {
    EntriesAppended(log, events, [NarrowedEffect]);
    forall id: string, input: Value {
      CountAppend(log, NarrowedEffect, id, input);
    }
    forall id: string
      ensures Retries(log + [NarrowedEffect], id) <= 1
    {
      CountAppend(log, NarrowedEffect, id, Null);
    }
  }

  /** The same steps, perhaps in other states. */
  predicate SameNames(was: seq<Step>, now: seq<Step>) {
    |now| == |was| && forall i | 0 <= i < |was| :: now[i].id == was[i].id && now[i].key == was[i].key && now[i].dependsOn == was[i].dependsOn
  }

  lemma FreshItemsCarry(was: seq<Step>, now: seq<Step>, items: seq<PlanItem>)
    requires FreshItems(items, was) && SameNames(was, now)
    ensures FreshItems(items, now)
  {
  }

  /** The same steps in other states leave the batch as new as before. */
  lemma BatchCarries(was: Run, now: Run, batch: seq<Step>)
    requires BatchNew(was, batch) && SameNames(was.steps, now.steps) && now.id == was.id && Owner(now) == Owner(was)
    ensures BatchNew(now, batch)
    ensures Fits(was.steps, batch) ==> Fits(now.steps, batch)
  {
    FitsCarries(was.steps, now.steps, batch);
    forall s, t | s in now.steps && t in batch
      ensures s.id != t.id && s.key != t.key
    {
      var i :| 0 <= i < |now.steps| && now.steps[i] == s;
      assert was.steps[i] in was.steps;
    }
  }

  lemma FitsCarries(was: seq<Step>, now: seq<Step>, batch: seq<Step>)
    requires SameNames(was, now)
    ensures Fits(was, batch) ==> Fits(now, batch)
  {
    SameNamesSameGraph(now, was);
    var a, b := was + batch, now + batch;
    forall i | 0 <= i < |a|
      ensures b[i].key == a[i].key && b[i].dependsOn == a[i].dependsOn
    {
      if i < |was| {
        assert a[i] == was[i] && b[i] == now[i];
      }
    }
    SameNamesSameGraph(a, b);
  }

  lemma DistinctAfterAppend(run: Run, batch: seq<Step>)
    requires DistinctIds(run.steps) && DistinctKeys(run.steps) && BatchNew(run, batch)
    ensures DistinctIds(run.steps + batch) && DistinctKeys(run.steps + batch)
  {
  }

  lemma AppendSound(run: Run, now: Run, batch: seq<Step>, log: seq<Effect>, stamps: Stamps)
    requires Sound(run, log, stamps) && BatchFor(run, batch, log)
    requires Continues(run, now) && now.events == run.events && now.steps == run.steps + batch
    ensures Sound(now, log, stamps)
    ensures !AnyRunning(run.steps) ==> !AnyRunning(now.steps)
  {
    DistinctAfterAppend(run, batch);
    forall s | s in now.steps
      ensures StepOk(now, s, log)
    {
      if s in run.steps {
        assert StepOk(run, s, log);
      }
    }
    forall s, key | s in now.steps && (s.status == Done || s.status == Running) && key in s.dependsOn
      ensures RestsOn(key, now.steps)
    {
      assert s in run.steps && RestsOn(key, run.steps);
      var t :| t in run.steps && t.key == key && (t.status == Done || IsPolled(t.tool));
      assert t in now.steps;
    }
  }

  // ---------- Changing one step ----------

  lemma UpdateSound(run: Run, now: Run, i: nat, log: seq<Effect>, stamps: Stamps)
    requires Sound(run, log, stamps) && i < |run.steps|
    requires Continues(run, now) && |now.steps| == |run.steps| && now.steps == run.steps[i := now.steps[i]]
    requires StepKept(run.steps, run.steps[i], now.steps[i], now, log)
    requires FreshFrom(stamps, now.events) && UniqueEvents(now.events)
    ensures Sound(now, log, stamps)
  {
    forall j | 0 <= j < |run.steps|
      ensures StepKept(run.steps, run.steps[j], now.steps[j], now, log)
    {
      assert run.steps[j] in run.steps && StepOk(run, run.steps[j], log);
    }
    StepsKeptSound(run, now, log);
  }

  lemma NoneRunningAfterUpdate(run: Run, now: Run, i: nat)
    requires i < |run.steps| && |now.steps| == |run.steps| && now.steps == run.steps[i := now.steps[i]] && now.steps[i].status != Running
    ensures !AnyRunning(run.steps) ==> !AnyRunning(now.steps)
  {
  }

  /** The note of a recovery decision carries the step's mark. */
  lemma RecoveryNote(run: Run, out: Outside, failed: Step, decision: Decision)
    ensures var noted := AddEvent(run, out.stamps, ErrorEvent, RecoveryMarkOf(failed.id) + Describe(decision));
      HasMark(noted.events, RecoveryMarkOf(failed.id))
  {
    var noted := AddEvent(run, out.stamps, ErrorEvent, RecoveryMarkOf(failed.id) + Describe(decision));
    assert RecoveryMarkOf(failed.id) <= noted.events[|run.events|].message;
  }

  lemma RecoverSound(run: Run, out: Outside, log: seq<Effect>)
    requires Sound(run, log, out.stamps)
    ensures var (now, verdict) := Recover(run, out);
      && Sound(now, log, out.stamps) && Continues(run, now)
      && KeySet(now.steps) == KeySet(run.steps) && |now.steps| == |run.steps|
      && (!AnyRunning(run.steps) ==> !AnyRunning(now.steps))
      && (verdict != Retry ==> now.steps == run.steps)
      && (verdict == NoRecovery ==> now.status == run.status && now.spec == run.spec)
      && (now.status == Completed ==> run.status == Completed)
  {
    var i := LastFailed(run.steps);
    if i >= 0 && !HasMark(run.events, RecoveryMarkOf(run.steps[i].id)) {
      var failed := run.steps[i];
      var decision := DecideRecovery(failed);
      var noted := AddEvent(run, out.stamps, ErrorEvent, RecoveryMarkOf(failed.id) + Describe(decision));
      EventSound(run, out.stamps, ErrorEvent, RecoveryMarkOf(failed.id) + Describe(decision), log);
      RecoveryNote(run, out, failed, decision);
      var now := Recover(run, out).0;
      if decision.action == RetryOnce {
        assert failed in run.steps && StepOk(run, failed, log);
        UpdateSound(noted, now, i, log, out.stamps);
        NoneRunningAfterUpdate(run, now, i);
        StepsKeptKeys(run.steps, now.steps, i);
      } else {
        FieldsSound(noted, now, log, out.stamps);
      }
    }
  }

  lemma StepsKeptKeys(was: seq<Step>, now: seq<Step>, i: nat)
    requires i < |was| && |now| == |was| && now == was[i := now[i]] && now[i].key == was[i].key
    ensures KeySet(now) == KeySet(was)
  {
    forall key
      ensures key in KeySet(now) <==> key in KeySet(was)
    {
      if key in KeySet(now) {
        var j :| 0 <= j < |now| && now[j].key == key;
        assert was[j] in was && was[j].key == key;
      }
      if key in KeySet(was) {
        var j :| 0 <= j < |was| && was[j].key == key;
        assert now[j] in now && now[j].key == key;
      }
    }
  }

  lemma RewoundIsFlat(run: Run, s: Step)
    ensures Collect(RewoundStep(run, s).input, 0).Ok?
  {
    hide NextPoll, Observed, Parse;
    var poll := Cons(Member("poll", NextPoll(Field(s.input, "poll"))), Nil);
    assert CollectMembers(Nil, 1).Ok?;
    assert Collect(NextPoll(Field(s.input, "poll")), 1).Ok? by { PollIsFlat(Field(s.input, "poll")); }
    assert CollectMembers(poll, 1).Ok?;
    assert Collect(Str(Observed(s)), 1).Ok?;
    assert CollectMembers(Cons(Member(ObservedField(s.tool), Str(Observed(s))), poll), 1).Ok?;
  }

  lemma PollIsFlat(v: Value)
    ensures Collect(NextPoll(v), 1).Ok?
  {
    assert NextPoll(v).Num?;
  }

  lemma RewoundSound(run: Run, i: nat, out: Outside, log: seq<Effect>)
    requires Sound(run, log, out.stamps) && i < |run.steps|
    requires run.steps[i].status == Done && IsPolled(run.steps[i].tool)
    ensures var now := Rewound(run, i, out);
      Sound(now, log, out.stamps) && Continues(run, now) && now.status == InProgress
      && (!AnyRunning(run.steps) ==> !AnyRunning(now.steps))
  {
    var now := Rewound(run, i, out);
    RewoundIsFlat(run, run.steps[i]);
    assert run.steps[i] in run.steps && StepOk(run, run.steps[i], log);
    AddedEvent(run.(steps := now.steps, status := InProgress, stopReason := ""), out.stamps, StepEvent, "已到达下一次检查时间");
    UpdateSound(run, now, i, log, out.stamps);
    NoneRunningAfterUpdate(run, now, i);
  }
}
