/** The completion gate: which finished steps count as evidence for which objective of the goal. */
module Verifier {
  import opened Prelude
  import opened Values
  import opened AgentTypes
  import opened References
  import opened Planning

  datatype GoalAction =
    | ToCreate | ToRecord | ToNavigate | ToSend | ToSearch | ToUpdate | ToRead | ToAnalyze
    | ToDraft | ToExport | ToManage | ToUnknown

  datatype Domain =
    | Customers | Leads | Deals | Documents | Todos | Memos | Prospecting | Outreach | Communication | OtherDomain

  /** `minimum` is the count the goal asks for; `report` is how an unmet objective is reported. */
  datatype Objective = Objective(id: string, action: GoalAction, domain: Domain, report: string, minimum: nat)

  /** The goal contract, with the fields and values an update goal names already extracted. */
  datatype GoalSpec = GoalSpec(
    objectives: seq<Objective>,
    selectedCustomerId: string,
    selectedLeadId: string,
    selectedDealId: string,
    requestedFields: seq<string>,
    requestedValues: seq<Member>)

  // ---------- Reading results ----------

  predicate Truthy(v: Value) {
    match v
    case Undefined | Null => false
    case Bool(b) => b
    case Num(lexeme) => lexeme != "0" && lexeme != "-0" && lexeme != "NaN"
    case Str(text) => text != ""
    case _ => true
  }

  predicate IsObject(v: Value) { v.Obj? || v.Arr? }

  /** `current[part]` for an own property: an index of a list counts only as it is printed. */
  function Property(current: Value, part: string): Value {
    if current.Arr? && AllDigits(part) && NatToDigits(DigitsToNat(part)) != part then Undefined else Get(current, part)
  }

  function PropertyWalk(current: Value, parts: seq<string>): Value
    decreases |parts|
  {
    if parts == [] then current else PropertyWalk(Property(current, parts[0]), parts[1..])
  }

  /** `nestedValue` */
  function Nested(v: Value, path: string): Value { PropertyWalk(v, Split(path, '.')) }

  predicate HasText(v: Value, path: string) { AsText(Nested(v, path)) != "" }

  /** `Number(v) >= bound` for a number as JavaScript prints it. */
  predicate AtLeast(v: Value, bound: nat) {
    v.Num? && LexemeAtLeast(v.lexeme, bound)
  }

  predicate LexemeAtLeast(lexeme: string, bound: nat) {
    var (digits, rest) := Span(IsDigit, lexeme);
    if digits == "" then bound == 0 && lexeme in {"-0"}
    else if Occurs("e+", rest) then true
    else if Occurs("e-", rest) then bound == 0
    else DigitsToNat(digits) >= bound
  }

  function Result(s: Step): Value { if s.result.Some? then s.result.value else Undefined }

  function Data(s: Step): Value { Field(Result(s), "data") }

  /** A finished step with a result: the only kind that can be evidence. */
  predicate Counts(s: Step) { s.status == Done && s.result.Some? && Truthy(s.result.value) }

  // ---------- Targets ----------

  function SelectedTarget(spec: GoalSpec, domain: Domain): string {
    match domain
    case Customers => spec.selectedCustomerId
    case Leads => spec.selectedLeadId
    case Deals => spec.selectedDealId
    case _ => ""
  }

  function DirectTargets(s: Step): seq<string> {
    [AsText(Field(s.input, "customerId")), AsText(Field(s.input, "leadId")),
     AsText(Field(s.input, "dealId")), AsText(Field(s.input, "entityId"))]
  }

  predicate MatchesTarget(s: Step, target: string) {
    target == "" || target in DirectTargets(s) || target in Split(AsText(Field(s.input, "path")), '/')
  }

  function StepTarget(s: Step): string {
    var direct := NonEmpty(DirectTargets(s));
    var parts := NonEmpty(Split(AsText(Field(s.input, "path")), '/'));
    if direct != [] then direct[0] else if |parts| >= 3 then parts[2] else ""
  }

  function ResultEntity(s: Step, domain: Domain): Value {
    var key := match domain case Customers => "customer" case Leads => "lead" case Deals => "deal" case _ => "";
    if key == "" then Undefined
    else if Truthy(Nested(Result(s), key)) then Nested(Result(s), key) else Nested(Data(s), key)
  }

  // ---------- Evidence ----------

  predicate IsPost(s: Step) { s.tool == ApiWrite && Upper(AsText(Field(s.input, "method"))) == "POST" }

  predicate HasEntityId(s: Step, path: string, responsePath: string) {
    IsPost(s) && AsText(Field(s.input, "path")) == path && HasText(Data(s), responsePath)
  }

  predicate HasDeclaredEvidence(s: Step) {
    var evidence := Field(Result(s), "completionEvidence");
    var status := Field(Result(s), "status");
    && IsObject(evidence)
    && if Field(evidence, "type") == Str("created_object_id") && Field(evidence, "responsePaths").Arr? then
         Field(evidence, "responsePaths").items.Cons? && AllPathsFilled(Field(evidence, "responsePaths").items, Data(s))
       else
         AtLeast(status, 200) && !AtLeast(status, 300)
  }

  predicate AllPathsFilled(paths: List<Value>, data: Value) {
    match paths
    case Nil => true
    case Cons(p, rest) => p.Str? && HasText(data, p.text) && AllPathsFilled(rest, data)
  }

  predicate CreateEvidence(domain: Domain, s: Step) {
    match domain
    case Customers => HasEntityId(s, "/api/customers", "customer.id")
    case Leads => HasEntityId(s, "/api/leads", "lead.id")
    case Deals => HasEntityId(s, "/api/deals", "deal.id")
    case Documents => HasEntityId(s, "/api/trade-documents", "document.id")
    case Todos => HasEntityId(s, "/api/todos", "todo.id") || (s.tool == CrmCreateTodo && HasText(Result(s), "todo.id"))
    case Memos => HasEntityId(s, "/api/memos", "memo.id")
    case Outreach | Communication =>
      || (s.tool == OutreachCreateSequence && HasText(Result(s), "sequenceId"))
      || (s.tool == OutreachDraftDevelopmentEmail && HasText(Result(s), "draft.body"))
    case _ => HasDeclaredEvidence(s)
  }

  predicate SendEvidence(s: Step) {
    || (&& s.risk == External
        && Field(Result(s), "sent") == Bool(true)
        && (HasText(Result(s), "messageId") || Field(Result(s), "replayed") == Bool(true))
        && HasText(Result(s), "activityId"))
    || (s.tool == OutreachGetSequenceProgress && Field(Result(s), "terminal") == Bool(true)
        && AtLeast(Field(Result(s), "currentStep"), 1))
  }

  predicate UpdateEvidence(spec: GoalSpec, domain: Domain, s: Step) {
    var target := SelectedTarget(spec, domain);
    var entity := ResultEntity(s, domain);
    var requested := if target != "" then target else StepTarget(s);
    && s.risk == Write && MatchesTarget(s, target)
    && IsObject(entity)
    && (requested == "" || AsText(Field(entity, "id")) == requested)
    && (forall f | f in spec.requestedFields :: Field(entity, f) != Undefined)
    && (forall m | m in spec.requestedValues :: Field(entity, m.key) == m.value)
  }

  predicate ExportPath(path: string) {
    var parts := Split(path, '/');
    |parts| == 5 && parts[0] == "" && parts[1] == "api" && parts[2] == "trade-documents" && parts[3] != "" && parts[4] == "export"
  }

  /** What one finished step proves about one objective. */
  predicate Evidence(spec: GoalSpec, o: Objective, s: Step) {
    match o.action
    case ToCreate => CreateEvidence(o.domain, s)
    case ToRecord => HasText(Result(s), "activity.id") || HasText(Data(s), "activity.id")
    case ToNavigate => IsUiTool(s.tool) && Truthy(Field(Result(s), "uiAction"))
    case ToSend => SendEvidence(s)
    case ToSearch =>
      && o.domain == Prospecting && s.tool == ProspectGetSearchProgress
      && Field(Result(s), "terminal") == Bool(true) && AtLeast(Field(Result(s), "candidateCount"), o.minimum)
    case ToUpdate => UpdateEvidence(spec, o.domain, s)
    case ToRead | ToAnalyze => s.risk == Read && s.tool != ApiCatalog && MatchesTarget(s, SelectedTarget(spec, o.domain))
    case ToDraft =>
      && s.risk == Draft
      && (HasText(Result(s), "body") || HasText(Result(s), "draft.body") || HasText(Data(s), "document.id"))
    case ToExport =>
      && o.domain == Documents && IsPost(s) && ExportPath(AsText(Field(s.input, "path")))
      && HasText(Data(s), "fileName") && HasText(Data(s), "job.id") && HasText(Data(s), "document.id")
    case ToManage => s.risk == Write || s.risk == External
    case ToUnknown => false
  }

  predicate Satisfied(spec: GoalSpec, o: Objective, steps: seq<Step>) {
    exists s | s in steps :: Counts(s) && Evidence(spec, o, s)
  }

  predicate AnyFailed(steps: seq<Step>) { exists s | s in steps :: s.status == Failed }

  predicate Complete(spec: GoalSpec, steps: seq<Step>) {
    !AnyFailed(steps) && forall o | o in spec.objectives :: Satisfied(spec, o, steps)
  }

  // ---------- The verification loop ----------

  datatype Verification = Verification(complete: bool, satisfied: seq<string>, missing: seq<string>)

  function Met(spec: GoalSpec, objectives: seq<Objective>, steps: seq<Step>, met: bool): seq<Objective> {
    if objectives == [] then []
    else
      var front, o := Met(spec, objectives[..|objectives| - 1], steps, met), objectives[|objectives| - 1];
      if Satisfied(spec, o, steps) == met then front + [o] else front
  }

  function Ids(objectives: seq<Objective>): seq<string> {
    seq(|objectives|, i requires 0 <= i < |objectives| => objectives[i].id)
  }

  function Reports(objectives: seq<Objective>): seq<string> {
    seq(|objectives|, i requires 0 <= i < |objectives| => objectives[i].report)
  }

  lemma NothingMet(spec: GoalSpec, steps: seq<Step>)
    ensures forall met :: Ids(Met(spec, [], steps, met)) == [] && Reports(Met(spec, [], steps, met)) == []
  {
  }

  lemma IdsAppend(os: seq<Objective>, o: Objective)
    ensures Ids(os + [o]) == Ids(os) + [o.id] && Reports(os + [o]) == Reports(os) + [o.report]
  {
  }

  lemma MetAppend(spec: GoalSpec, os: seq<Objective>, o: Objective, steps: seq<Step>, met: bool)
    ensures Met(spec, os + [o], steps, met) == Met(spec, os, steps, met) + if Satisfied(spec, o, steps) == met then [o] else []
  {
    hide Satisfied;
    assert (os + [o])[..|os|] == os;
  }

  lemma MetGrows(spec: GoalSpec, os: seq<Objective>, o: Objective, steps: seq<Step>)
    ensures var met := Satisfied(spec, o, steps);
      && Ids(Met(spec, os + [o], steps, true)) == Ids(Met(spec, os, steps, true)) + (if met then [o.id] else [])
      && Reports(Met(spec, os + [o], steps, false)) == Reports(Met(spec, os, steps, false)) + (if met then [] else [o.report])
  {
    hide Satisfied, Met, Ids, Reports;
    MetAppend(spec, os, o, steps, true);
    MetAppend(spec, os, o, steps, false);
    var front, rest := Met(spec, os, steps, true), Met(spec, os, steps, false);
    IdsAppend(front, o);
    IdsAppend(rest, o);
    assert front + [] == front && rest + [] == rest;
    assert Ids(front) + [] == Ids(front) && Reports(rest) + [] == Reports(rest);
  }

  const UNRECOVERED: string := "仍有失败步骤未恢复"

  /** `verifyAgentMissionOutcome` */
  method VerifyOutcome(spec: GoalSpec, steps: seq<Step>) returns (v: Verification)
    ensures v.complete <==> Complete(spec, steps)
    ensures AnyFailed(steps) ==> v == Verification(false, [], [UNRECOVERED])
    ensures !AnyFailed(steps) ==>
      && v.satisfied == Ids(Met(spec, spec.objectives, steps, true))
      && v.missing == Reports(Met(spec, spec.objectives, steps, false))
  {
    hide Satisfied, Met, Ids, Reports;
    if AnyFailed(steps) {
      return Verification(false, [], [UNRECOVERED]);
    }
    var satisfied: seq<string> := [];
    var missing: seq<string> := [];
    NothingMet(spec, steps);
    for i := 0 to |spec.objectives|
      invariant satisfied == Ids(Met(spec, spec.objectives[..i], steps, true))
      invariant missing == Reports(Met(spec, spec.objectives[..i], steps, false))
      invariant missing == [] <==> forall o | o in spec.objectives[..i] :: Satisfied(spec, o, steps)
    {
      var o := spec.objectives[i];
      assert spec.objectives[..i + 1] == spec.objectives[..i] + [o];
      MetGrows(spec, spec.objectives[..i], o, steps);
      if Satisfied(spec, o, steps) {
        satisfied := satisfied + [o.id];
      } else {
        missing := missing + [o.report];
      }
    }
    assert spec.objectives[..|spec.objectives|] == spec.objectives;
    return Verification(missing == [], satisfied, missing);
  }

  // ---------- Laws ----------

  /** Met and unmet objectives together are the objectives, each exactly as often. */
  lemma {:induction false} MetPartition(spec: GoalSpec, objectives: seq<Objective>, steps: seq<Step>)
    ensures multiset(Met(spec, objectives, steps, true)) + multiset(Met(spec, objectives, steps, false)) == multiset(objectives)
    ensures forall o, met | o in Met(spec, objectives, steps, met) :: Satisfied(spec, o, steps) == met
  {
    if objectives != [] {
      var front, o := objectives[..|objectives| - 1], objectives[|objectives| - 1];
      MetPartition(spec, front, steps);
      assert objectives == front + [o];
    }
  }

  /** More steps, none of them failed, never lose an objective. */
  lemma MoreStepsKeepObjectives(spec: GoalSpec, o: Objective, steps: seq<Step>, more: seq<Step>)
    requires forall s | s in steps && Counts(s) :: s in more
    ensures Satisfied(spec, o, steps) ==> Satisfied(spec, o, more)
    ensures Complete(spec, steps) && !AnyFailed(more) ==> Complete(spec, more)
  {
  }

  /** The verdict reads only the finished steps with results and whether any step failed. */
  lemma OnlyEvidenceMatters(spec: GoalSpec, a: seq<Step>, b: seq<Step>)
    requires forall s :: Counts(s) ==> (s in a <==> s in b)
    requires AnyFailed(a) == AnyFailed(b)
    ensures Complete(spec, a) == Complete(spec, b)
  {
  }
}
