/** Which drafts of a plan become steps, and which of these wait for the user. */
module PlanLaws {
  import opened Prelude
  import opened Values
  import opened AgentTypes
  import opened References
  import opened WorkflowGraph
  import opened Planning
  import opened Recovery
  import opened Runs
  import opened Mission
  import opened MissionMoves

  /** A turn in which something is to be done. */
  predicate IsWorkTurn(d: TurnDecision) { d.speechAct in {Execute, ContinueTask, AnswerSlot, Correct} }

  /** What the turn lets through, risk by risk. */
  predicate LetsThrough(d: TurnDecision, tool: Tool) {
    match ToolRisk(tool)
    case Write | External => IsWorkTurn(d) && d.writeAuthorized
    case Draft => IsWorkTurn(d) || (d.speechAct == Navigate && IsUiTool(tool))
    case Read => d.speechAct !in {Chat, Explain, Cancel} && (d.speechAct == Navigate ==> IsUiTool(tool))
  }

  /** A request that deletes, works on many records, or takes something away for good. */
  predicate IsDestructive(s: Step) {
    var path := Lower(AsText(Field(s.input, "path")));
    && s.tool == ApiWrite
    && (|| Upper(AsText(Field(s.input, "method"))) == "DELETE"
        || Occurs("bulk", path) || Occurs("batch", path)
        || EndsWith(path, "/permanent") || EndsWith(path, "/release") || EndsWith(path, "/lost"))
  }

  /** The draft as a step: signed, without a result, ready unless it changes something and was not released. */
  predicate IsPlanned(draft: PlanItem, run: Run, released: bool, s: Step) {
    var d := Rewrite(draft);
    && s.id == d.id && s.key == d.key && s.tool == d.tool && s.risk == ToolRisk(d.tool) && s.input == d.input && s.title == d.title
    && s.result == None && s.error == "" && s.signature == Signature(run.id, s.id, s.tool, s.input, run.ownerId, run.teamId)
    && s.approved == (released && s.risk == Write && !IsDestructive(s))
    && s.status == if s.approved || s.risk == Read || s.risk == Draft then Ready else NeedsConfirmation
  }

  lemma LetsThroughIff(d: TurnDecision, s: Step)
    requires s.risk == ToolRisk(s.tool)
    ensures Permits(d, s) <==> LetsThrough(d, s.tool)
  {
  }

  lemma DestructiveIff(s: Step)
    ensures RequiresSecondaryConfirmation(s.tool, s.input) <==> IsDestructive(s)
  {
    hide Upper, Lower, AsText, Field, Occurs;
  }

  lemma DraftIsPlanned(draft: PlanItem, run: Run, authorized: bool)
    ensures var s := WithReferences(NewStep(draft, run.id, Owner(run)));
      IsPlanned(draft, run, authorized, if authorized then AuthorizeStep(s) else s)
  {
    hide Rewrite, Collect, IsDestructive, RequiresSecondaryConfirmation;
    var s := WithReferences(NewStep(draft, run.id, Owner(run)));
    DestructiveIff(s);
    DestructiveIff(AuthorizeStep(s));
  }

  function Released(s: Step, released: bool): Step { if released then AuthorizeStep(s) else s }

  lemma KeptOrNot(batch: seq<Step>, d: TurnDecision, released: bool, s: Step)
    ensures s in Authorize(Constrain(batch, d), released) <==> exists t | t in batch && Permits(d, t) :: s == Released(t, released)
  {
    hide Permits, AuthorizeStep;
    var kept := Constrain(batch, d);
    var now := Authorize(kept, released);
    if s in now {
      var i :| 0 <= i < |now| && now[i] == s;
      assert kept[i] in kept;
    }
    if t :| t in batch && Permits(d, t) && s == Released(t, released) {
      var i :| 0 <= i < |kept| && kept[i] == t;
      assert now[i] in now;
    }
  }

  lemma DraftNames(draft: PlanItem, run: Run, released: bool)
    ensures var s := WithReferences(NewStep(draft, run.id, Owner(run)));
      && s.id == draft.id && s.tool == Rewrite(draft).tool && s.risk == ToolRisk(s.tool)
      && Released(s, released).id == draft.id
  {
    hide Collect, RequiresSecondaryConfirmation, AsText, Field;
  }

  /** The drafts of an admitted plan are told apart by their ids. */
  lemma PlannedFrom(run: Run, plan: Plan, i: nat, s: Step)
    requires PlannedBatch(run, plan).Some? && FreshItems(plan.items, run.steps) && i < |plan.items|
    ensures var t, released := WithReferences(NewStep(plan.items[i], run.id, Owner(run))), Authorizing(plan);
      s in PlannedBatch(run, plan).value && s.id == plan.items[i].id <==> Permits(plan.decision, t) && s == Released(t, released)
  {
    hide Rewrite, Permits, WithReferences, NewStep, Constrain, Authorize, Released, Acceptable;
    var drafts := NewSteps(plan.items, run.id, Owner(run));
    var all, released := AllWithReferences(drafts), Authorizing(plan);
    forall j | 0 <= j < |all|
      ensures all[j] == WithReferences(NewStep(plan.items[j], run.id, Owner(run))) && Released(all[j], released).id == plan.items[j].id
    {
      DraftNames(plan.items[j], run, released);
    }
    KeptOrNot(all, plan.decision, released, s);
    if s in PlannedBatch(run, plan).value && s.id == plan.items[i].id {
      var t :| t in all && Permits(plan.decision, t) && s == Released(t, released);
      var j :| 0 <= j < |all| && all[j] == t;
      assert j == i;
    }
    assert all[i] in all;
  }

  /**
   Of an admitted plan exactly the drafts that the turn lets through become steps, each as planned; an
   ordinary write is ready and approved exactly when the turn, not an automation, releases it.
   */
  lemma PlannedIff(run: Run, plan: Plan, i: nat)
    requires PlannedBatch(run, plan).Some? && FreshItems(plan.items, run.steps) && i < |plan.items|
    ensures var batch, draft := PlannedBatch(run, plan).value, plan.items[i];
      && ((exists s | s in batch :: s.id == draft.id) <==> LetsThrough(plan.decision, Rewrite(draft).tool))
      && forall s | s in batch && s.id == draft.id :: IsPlanned(draft, run, plan.decision.writeAuthorized && !plan.automated, s)
  {
    hide Rewrite, Permits, AuthorizeStep, WithReferences, NewStep, PlannedBatch, FreshItems, IsPlanned, LetsThrough, ToolRisk;
    var t, released := WithReferences(NewStep(plan.items[i], run.id, Owner(run))), Authorizing(plan);
    DraftNames(plan.items[i], run, released);
    DraftIsPlanned(plan.items[i], run, released);
    LetsThroughIff(plan.decision, t);
    PlannedFrom(run, plan, i, Released(t, released));
    forall s | s in PlannedBatch(run, plan).value && s.id == plan.items[i].id
      ensures s == Released(t, released)
    {
      PlannedFrom(run, plan, i, s);
    }
  }

  // ---------- Which inputs are filled in ----------

  /** The step has not run, its dependencies are done, and its input refers to a step. */
  predicate IsFillable(s: Step, steps: seq<Step>) {
    && s.status in {Ready, NeedsConfirmation, Queued}
    && (forall key | key in s.dependsOn :: exists t | t in steps :: t.key == key && t.status == Done)
    && !HasNoReferences(s.input)
  }

  /** Signed anew with its final input, and not approved any more where that input has to be seen first; or failed. */
  predicate IsFilled(run: Run, s: Step, p: Step) {
    match Resolve(s.input, run.steps, 0)
    case Ok(input) =>
      p == s.(input := input, signature := Signature(run.id, s.id, s.tool, input, run.ownerId, run.teamId),
              approved := s.approved && s.risk != External && !IsDestructive(p))
    case Err(_) => p == s.(status := Failed, error := p.error, approved := false) && p.error != ""
  }

  lemma ErrorsAreTold(e: ResolveError)
    ensures ErrorText(e) != ""
  {
  }

  lemma OnePreparedIs(run: Run, s: Step)
    ensures var p := PreparedStep(s, run, Owner(run));
      if IsFillable(s, run.steps) then IsFilled(run, s, p) else p == s
  {
    hide Resolve, HasNoReferences, RequiresSecondaryConfirmation, IsDestructive, ErrorText;
    var resolved := Resolve(s.input, run.steps, 0);
    DestructiveIff(PreparedStep(s, run, Owner(run)));
    if resolved.Err? {
      ErrorsAreTold(resolved.error);
    }
  }

  /** Preparing a run fills in exactly the inputs whose turn has come, and puts exactly those on record. */
  lemma PreparedIs(run: Run, stamps: Stamps)
    ensures var now := Prepare(run, Owner(run), stamps);
      && now == run.(steps := now.steps, events := now.events) && |now.steps| == |run.steps|
      && forall i | 0 <= i < |run.steps| ::
           var s, p := run.steps[i], now.steps[i];
           if IsFillable(s, run.steps) then IsFilled(run, s, p) else p == s
    ensures forall id ::
      FilledInEffect(id) in Fillings(run.steps, run.steps)
      <==> exists s | s in run.steps :: s.id == id && IsFillable(s, run.steps)
  {
    hide Resolve, HasNoReferences, IsFillable, IsFilled, PreparedStep;
    var now := Prepare(run, Owner(run), stamps);
    forall i | 0 <= i < |run.steps|
      ensures var s, p := run.steps[i], now.steps[i]; if IsFillable(s, run.steps) then IsFilled(run, s, p) else p == s
    {
      OnePreparedIs(run, run.steps[i]);
    }
    forall id
      ensures FilledInEffect(id) in Fillings(run.steps, run.steps) <==> exists s | s in run.steps :: s.id == id && IsFillable(s, run.steps)
    {
      FillingsAre(run.steps, run.steps, id);
    }
  }

  lemma {:induction false} FillingsAre(steps: seq<Step>, all: seq<Step>, id: string)
    ensures FilledInEffect(id) in Fillings(steps, all) <==> exists s | s in steps :: s.id == id && IsFillable(s, all)
  {
    hide HasNoReferences;
    if steps != [] {
      FillingsAre(steps[1..], all, id);
      FillableIs(steps[0], all);
      assert forall s :: s in steps <==> s == steps[0] || s in steps[1..];
    }
  }

  lemma FillableIs(s: Step, all: seq<Step>)
    ensures NeedsPreparation(s, all) <==> IsFillable(s, all)
  {
    hide HasNoReferences;
  }

  // ---------- Which failures are tried again ----------

  /**
   A failed step is tried again exactly when its error sounds like a passing disturbance and like nothing
   else, and running it twice cannot do its effect twice: it only reads or drafts, or it is a write that
   carries an idempotency key.
   */
  lemma RetriedIff(s: Step)
    ensures var m := Lower(s.error);
      DecideRecovery(s).action == RetryOnce
      <==> s.risk != External && (s.risk == Write ==> AsText(Field(Field(s.input, "headers"), "Idempotency-Key")) != "")
           && (exists word | word in {"408", "409", "425", "429", "500", "502", "503", "504", "timeout", "timed out",
                                      "econnreset", "econnrefused", "socket", "network", "temporar"} :: Occurs(word, m))
           && (forall word | word in {"401", "403", "无权", "权限", "forbidden", "unauthorized", "404", "不存在", "not found", "400", "422",
                                      "schema", "zod", "字段", "参数", "格式", "必填", "validation", "invalid"} :: !Occurs(word, m))
  {
    hide Occurs, Lower, AsText, Field;
    var m := Lower(s.error);
    MentionsWord(m);
  }

  lemma MentionsWord(m: string)
    ensures Mentions(m, TRANSIENT)
       <==> exists word | word in {"408", "409", "425", "429", "500", "502", "503", "504", "timeout", "timed out",
                                   "econnreset", "econnrefused", "socket", "network", "temporar"} :: Occurs(word, m)
    ensures Mentions(m, PERMISSION) || Mentions(m, NOT_FOUND) || Mentions(m, VALIDATION)
       <==> exists word | word in {"401", "403", "无权", "权限", "forbidden", "unauthorized", "404", "不存在", "not found", "400", "422",
                                   "schema", "zod", "字段", "参数", "格式", "必填", "validation", "invalid"} :: Occurs(word, m)
  {
    hide Occurs;
    assert forall word :: word in TRANSIENT <==> word in {"408", "409", "425", "429", "500", "502", "503", "504", "timeout", "timed out",
                                                         "econnreset", "econnrefused", "socket", "network", "temporar"};
    assert forall word :: (
      word in PERMISSION || word in NOT_FOUND || word in VALIDATION
      <==> word in {"401", "403", "无权", "权限", "forbidden", "unauthorized", "404", "不存在", "not found", "400", "422",
                    "schema", "zod", "字段", "参数", "格式", "必填", "validation", "invalid"});
  }
}
