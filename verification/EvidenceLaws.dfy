/** Exactly which finished steps meet an objective, action by action. */
module EvidenceLaws {
  import opened Prelude
  import opened Values
  import opened AgentTypes
  import opened Collections
  import opened References
  import opened Planning
  import opened PathLaws
  import opened Verifier

  // ---------- Reading results ----------

  /** A field is an own member of an object. */
  lemma FieldIff(v: Value, name: string, w: Value)
    requires w != Undefined
    ensures Field(v, name) == w <==> v.Obj? && Own(v, name, w)
  {
    if v.Obj? {
      FirstMember(v.members, name, w);
    }
  }

  predicate AllNames(names: seq<string>) { forall n | n in names :: n != "" && '.' !in n && !AllDigits(n) }

  lemma {:induction false} WalksByName(v: Value, names: seq<string>)
    requires AllNames(names)
    ensures PropertyWalk(v, names) == Walk(v, names)
    decreases |names|
  {
    if names != [] {
      assert Property(v, names[0]) == Get(v, names[0]);
      WalksByName(Get(v, names[0]), names[1..]);
    }
  }

  /** There is text under a dotted path exactly when its names lead to a string that is not blank. */
  lemma HasTextIff(v: Value, names: seq<string>)
    requires names != [] && AllNames(names)
    ensures HasText(v, Join(names, '.')) <==> exists text :: LeadsTo(v, names, Str(text)) && Trim(text) != ""
  {
    hide Trim;
    SplitOfJoin(names, '.');
    WalksByName(v, names);
    var found := Walk(v, names);
    if found.Str? {
      LeadsIff(v, names, found);
    }
    forall text | LeadsTo(v, names, Str(text))
      ensures found == Str(text)
    {
      LeadsIff(v, names, Str(text));
    }
    TrimOfNothing();
  }

  lemma TrimOfNothing()
    ensures Trim("") == ""
  {
  }

  /** A printed count is at least the bound exactly when the number is. */
  lemma AtLeastIff(n: nat, bound: nat)
    ensures AtLeast(Num(NatToDigits(n)), bound) <==> n >= bound
  {
    var digits := NatToDigits(n);
    SpanUnique(IsDigit, digits, "");
    assert digits + "" == digits;
    DigitsRoundTrip(n);
  }

  function Answer(s: Step): Value { match s.result case None => Undefined case Some(v) => v }

  // ---------- What a step is about ----------

  function Text(v: Value, name: string): string { AsText(Field(v, name)) }

  /** What the user has selected, if the domain has such a thing. */
  function Selected(spec: GoalSpec, domain: Domain): string {
    if domain == Customers then spec.selectedCustomerId
    else if domain == Leads then spec.selectedLeadId
    else if domain == Deals then spec.selectedDealId
    else ""
  }

  /** The id occurs among the ids of the step's input or as a piece of its path. */
  ghost predicate IsAbout(s: Step, id: string) {
    || Text(s.input, "customerId") == id || Text(s.input, "leadId") == id
    || Text(s.input, "dealId") == id || Text(s.input, "entityId") == id
    || IsPieceOf(id, Text(s.input, "path"))
  }

  ghost predicate IsPieceOf(id: string, path: string) {
    exists pieces: seq<string> | pieces != [] && Without('/', pieces) :: Join(pieces, '/') == path && id in pieces
  }

  lemma PieceIff(id: string, path: string)
    ensures id in Split(path, '/') <==> IsPieceOf(id, path)
  {
    JoinOfSplit(path, '/');
    forall pieces: seq<string> | pieces != [] && Without('/', pieces) && Join(pieces, '/') == path
      ensures pieces == Split(path, '/')
    {
      PiecesAreUnique(path, '/', pieces);
    }
  }

  lemma MatchesTargetIff(s: Step, target: string)
    ensures MatchesTarget(s, target) <==> target == "" || IsAbout(s, target)
  {
    hide Split, IsPieceOf, AsText, Field;
    PieceIff(target, Text(s.input, "path"));
  }

  /** The id the step itself is for: the first one in its input, else the third piece of its path. */
  function OwnId(s: Step): string {
    var pieces := Filter((p: string) => p != "", Split(Text(s.input, "path"), '/'));
    if Text(s.input, "customerId") != "" then Text(s.input, "customerId")
    else if Text(s.input, "leadId") != "" then Text(s.input, "leadId")
    else if Text(s.input, "dealId") != "" then Text(s.input, "dealId")
    else if Text(s.input, "entityId") != "" then Text(s.input, "entityId")
    else if |pieces| >= 3 then pieces[2]
    else ""
  }

  lemma StepTargetIs(s: Step)
    ensures StepTarget(s) == OwnId(s)
  {
    var direct := DirectTargets(s);
    NonEmptyIsFilter(Split(Text(s.input, "path"), '/'));
    assert direct[1..][1..][1..][1..] == [];
    FirstNonEmpty(direct[1..][1..][1..]);
    FirstNonEmpty(direct[1..][1..]);
    FirstNonEmpty(direct[1..]);
    FirstNonEmpty(direct);
  }

  lemma FirstNonEmpty(texts: seq<string>)
    requires texts != []
    ensures if texts[0] != "" then NonEmpty(texts) != [] && NonEmpty(texts)[0] == texts[0] else NonEmpty(texts) == NonEmpty(texts[1..])
  {
  }

  // ---------- What counts ----------

  /** A step that is done with a result that JavaScript takes for true. */
  predicate IsFinished(s: Step) {
    && s.status == Done && s.result.Some?
    && s.result.value !in {Undefined, Null, Bool(false), Num("0"), Num("-0"), Num("NaN"), Str("")}
  }

  lemma CountsIff(s: Step)
    ensures Counts(s) <==> IsFinished(s)
  {
  }

  /** A request that creates something at that path. */
  predicate Posts(s: Step, path: string) {
    s.tool == ApiWrite && Upper(Text(s.input, "method")) == "POST" && Text(s.input, "path") == path
  }

  /** Where something of the domain is created, and where the answer has its id. */
  function Creation(domain: Domain): Option<(string, string)> {
    if domain == Customers then Some(("/api/customers", "customer.id"))
    else if domain == Leads then Some(("/api/leads", "lead.id"))
    else if domain == Deals then Some(("/api/deals", "deal.id"))
    else if domain == Documents then Some(("/api/trade-documents", "document.id"))
    else if domain == Todos then Some(("/api/todos", "todo.id"))
    else if domain == Memos then Some(("/api/memos", "memo.id"))
    else None
  }

  predicate Creates(domain: Domain, s: Step) {
    var made := Creation(domain);
    || (made.Some? && Posts(s, made.value.0) && HasText(Field(Answer(s), "data"), made.value.1))
    || (domain == Todos && s.tool == CrmCreateTodo && HasText(Answer(s), "todo.id"))
    || (domain in {Outreach, Communication} && s.tool == OutreachCreateSequence && HasText(Answer(s), "sequenceId"))
    || (domain in {Outreach, Communication} && s.tool == OutreachDraftDevelopmentEmail && HasText(Answer(s), "draft.body"))
    || (domain in {Prospecting, OtherDomain} && Declares(s))
  }

  /** The step declares what proves it: the ids its answer must have, or else a status between 200 and 299. */
  predicate Declares(s: Step) {
    var declared := Field(Answer(s), "completionEvidence");
    var paths, status := Field(declared, "responsePaths"), Field(Answer(s), "status");
    && (declared.Obj? || declared.Arr?)
    && if Field(declared, "type") == Str("created_object_id") && paths.Arr? then
         |Elements(paths.items)| > 0
         && forall p | p in Elements(paths.items) :: p.Str? && HasText(Field(Answer(s), "data"), p.text)
       else AtLeast(status, 200) && !AtLeast(status, 300)
  }

  lemma {:induction false} AllFilledIff(paths: List<Value>, data: Value)
    ensures AllPathsFilled(paths, data) <==> forall p | p in Elements(paths) :: p.Str? && HasText(data, p.text)
    decreases paths
  {
    hide HasText;
    match paths
    case Nil =>
    case Cons(p, rest) =>
      AllFilledIff(rest, data);
      assert forall q :: q in Elements(paths) <==> q == p || q in Elements(rest);
  }

  /** Sent outside, with a receipt of the channel and an activity in the system. */
  predicate IsSent(s: Step) {
    && s.risk == External && Field(Answer(s), "sent") == Bool(true) && HasText(Answer(s), "activityId")
    && (HasText(Answer(s), "messageId") || Field(Answer(s), "replayed") == Bool(true))
  }

  /** The progress of a sequence that has ended after at least one message. */
  predicate IsEndedSequence(s: Step) {
    s.tool == OutreachGetSequenceProgress && Field(Answer(s), "terminal") == Bool(true) && AtLeast(Field(Answer(s), "currentStep"), 1)
  }

  /** The write's answer holds the record asked for, with every field and value asked for. */
  ghost predicate Updates(spec: GoalSpec, domain: Domain, s: Step) {
    var selected := Selected(spec, domain);
    var asked := if selected != "" then selected else OwnId(s);
    var record := Updated(s, domain);
    && s.risk == Write && (selected == "" || IsAbout(s, selected))
    && (record.Obj? || record.Arr?) && (asked == "" || Text(record, "id") == asked)
    && (forall f | f in spec.requestedFields :: Field(record, f) != Undefined)
    && (forall m | m in spec.requestedValues :: Field(record, m.key) == m.value)
  }

  /** The customer, lead or deal in the answer, or in its data. */
  function Updated(s: Step, domain: Domain): Value {
    var name := if domain == Customers then "customer" else if domain == Leads then "lead" else if domain == Deals then "deal" else "";
    var direct := Field(Answer(s), name);
    if name == "" then Undefined
    else if direct !in {Undefined, Null, Bool(false), Num("0"), Num("-0"), Num("NaN"), Str("")} then direct
    else Field(Field(Answer(s), "data"), name)
  }

  ghost predicate IsExport(s: Step) {
    && s.tool == ApiWrite && Upper(Text(s.input, "method")) == "POST" && IsExportPath(Text(s.input, "path"))
    && HasText(Field(Answer(s), "data"), "fileName") && HasText(Field(Answer(s), "data"), "job.id")
    && HasText(Field(Answer(s), "data"), "document.id")
  }

  ghost predicate IsExportPath(path: string) {
    exists id :: id != "" && '/' !in id && path == "/api/trade-documents/" + id + "/export"
  }

  lemma ExportPathIff(path: string)
    ensures ExportPath(path) <==> IsExportPath(path)
  {
    JoinOfSplit(path, '/');
    var parts := Split(path, '/');
    if ExportPath(path) {
      var id := parts[3];
      assert id in parts;
      assert parts == ["", "api", "trade-documents", id, "export"];
      JoinedExport(id);
    }
    if id :| id != "" && '/' !in id && path == "/api/trade-documents/" + id + "/export" {
      JoinedExport(id);
      PiecesAreUnique(path, '/', ["", "api", "trade-documents", id, "export"]);
    }
  }

  lemma JoinedExport(id: string)
    ensures Join(["", "api", "trade-documents", id, "export"], '/') == "/api/trade-documents/" + id + "/export"
  {
    hide Join;
    JoinOne("export", '/');
    JoinMore(id, ["export"], '/');
    JoinMore("trade-documents", [id, "export"], '/');
    JoinMore("api", ["trade-documents", id, "export"], '/');
    JoinMore("", ["api", "trade-documents", id, "export"], '/');
    assert ["api"] + ["trade-documents", id, "export"] == ["api", "trade-documents", id, "export"];
    assert [""] + ["api", "trade-documents", id, "export"] == ["", "api", "trade-documents", id, "export"];
    assert ["trade-documents"] + [id, "export"] == ["trade-documents", id, "export"] && [id] + ["export"] == [id, "export"];
  }

  // ---------- Action by action ----------

  /** What one finished step must show for the objective. */
  ghost predicate Shows(spec: GoalSpec, o: Objective, s: Step) {
    && (o.action == ToCreate ==> Creates(o.domain, s))
    && (o.action == ToRecord ==> HasText(Answer(s), "activity.id") || HasText(Field(Answer(s), "data"), "activity.id"))
    && (o.action == ToNavigate ==> IsUiTool(s.tool) && Truthy(Field(Answer(s), "uiAction")))
    && (o.action == ToSend ==> IsSent(s) || IsEndedSequence(s))
    && (o.action == ToSearch ==>
          && o.domain == Prospecting && s.tool == ProspectGetSearchProgress
          && Field(Answer(s), "terminal") == Bool(true) && AtLeast(Field(Answer(s), "candidateCount"), o.minimum))
    && (o.action == ToUpdate ==> Updates(spec, o.domain, s))
    && (o.action in {ToRead, ToAnalyze} ==>
          s.risk == Read && s.tool != ApiCatalog && (Selected(spec, o.domain) == "" || IsAbout(s, Selected(spec, o.domain))))
    && (o.action == ToDraft ==>
          s.risk == Draft
          && (HasText(Answer(s), "body") || HasText(Answer(s), "draft.body") || HasText(Field(Answer(s), "data"), "document.id")))
    && (o.action == ToExport ==> o.domain == Documents && IsExport(s))
    && (o.action == ToManage ==> s.risk in {Write, External})
    && o.action != ToUnknown
  }

  lemma UpdatedIs(s: Step, domain: Domain)
    ensures ResultEntity(s, domain) == Updated(s, domain)
  {
    hide Nested, Field;
    var name := match domain case Customers => "customer" case Leads => "lead" case _ => "deal";
    RecordNames();
    NestedName(Answer(s), name);
    NestedName(Data(s), name);
    DataIs(s);
  }

  lemma DataIs(s: Step)
    ensures Data(s) == Field(Answer(s), "data") && Verifier.Result(s) == Answer(s)
  {
  }

  lemma NestedName(v: Value, name: string)
    requires '.' !in name && !AllDigits(name) && name != "length"
    ensures Nested(v, name) == Field(v, name)
  {
    SplitOfPiece(name, "", '.');
    assert [name][1..] == [];
    assert PropertyWalk(Property(v, name), []) == Property(v, name);
  }

  lemma RecordNames()
    ensures forall name | name in {"customer", "lead", "deal"} :: '.' !in name && !AllDigits(name) && name != "length"
  {
    forall name | name in {"customer", "lead", "deal"}
      ensures '.' !in name && !AllDigits(name) && name != "length"
    {
      assert name[0] in name && !IsDigit(name[0]);
    }
  }

  lemma EvidenceIff(spec: GoalSpec, o: Objective, s: Step)
    ensures Evidence(spec, o, s) <==> Shows(spec, o, s)
  {
    hide HasText, Upper, AsText, AtLeast, Truthy, MatchesTarget, IsAbout, StepTarget, OwnId, ExportPath, IsExportPath;
    hide ResultEntity, Updated, AllPathsFilled, Elements;
    match o.action
    case ToCreate =>
      DeclaresIff(s);
    case ToUpdate =>
      MatchesTargetIff(s, Selected(spec, o.domain));
      StepTargetIs(s);
      UpdatedIs(s, o.domain);
    case ToRead => MatchesTargetIff(s, Selected(spec, o.domain));
    case ToAnalyze => MatchesTargetIff(s, Selected(spec, o.domain));
    case ToExport => ExportPathIff(Text(s.input, "path"));
    case _ =>
  }

  lemma DeclaresIff(s: Step)
    ensures HasDeclaredEvidence(s) <==> Declares(s)
  {
    hide HasText, AtLeast;
    var paths := Field(Field(Answer(s), "completionEvidence"), "responsePaths");
    if paths.Arr? {
      AllFilledIff(paths.items, Data(s));
    }
  }

  /**
   The gate takes an objective as met exactly when one finished step shows what its action asks for,
   and the goal as reached exactly when nothing failed and every objective is met so.
   */
  lemma ObjectiveIsMetIff(spec: GoalSpec, o: Objective, steps: seq<Step>)
    ensures Satisfied(spec, o, steps) <==> exists s | s in steps :: IsFinished(s) && Shows(spec, o, s)
  {
    hide Evidence, Shows, Counts, IsFinished;
    forall s
      ensures Counts(s) && Evidence(spec, o, s) <==> IsFinished(s) && Shows(spec, o, s)
    {
      CountsIff(s);
      EvidenceIff(spec, o, s);
    }
  }

  lemma GoalIsReachedIff(spec: GoalSpec, steps: seq<Step>)
    ensures Complete(spec, steps)
       <==> (forall s | s in steps :: s.status != Failed)
            && forall o | o in spec.objectives :: exists s | s in steps :: IsFinished(s) && Shows(spec, o, s)
  {
    hide Satisfied, Shows, IsFinished;
    forall o
      ensures Satisfied(spec, o, steps) <==> exists s | s in steps :: IsFinished(s) && Shows(spec, o, s)
    {
      ObjectiveIsMetIff(spec, o, steps);
    }
  }
}
