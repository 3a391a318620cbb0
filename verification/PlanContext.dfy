/** What the page the user looks at adds to a planned step: the selected customer or lead, and the name of a view. */
module PlanContext {
  import opened Prelude
  import opened Values
  import opened AgentTypes
  import opened References
  import opened WorkflowGraph
  import opened Planning

  // ---------- Views ----------

  const VIEWS: set<string> := {
    "dashboard", "lead-finder", "prospect-list", "leads", "customers", "pipeline", "customer-pool", "whatsapp",
    "reminders", "memos", "plan-growth", "documents", "commission", "reports", "tools", "knowledge", "exam", "wecom",
    "daily-reports", "competitors", "cases", "problems", "imports", "ai-config", "settings", "profile", "ai-agent",
    "development-email", "ai-research"}

  /** Other names for views. */
  function Alias(name: string): Option<string> {
    if name in {"home", "workbench"} then Some("dashboard")
    else if name == "prospecting" then Some("lead-finder")
    else if name == "prospects" then Some("prospect-list")
    else if name == "lead" then Some("leads")
    else if name == "customer" then Some("customers")
    else if name in {"deals", "deal", "opportunities", "opportunity"} then Some("pipeline")
    else if name in {"customer_pool", "public-pool"} then Some("customer-pool")
    else if name == "communication" then Some("whatsapp")
    else if name == "development_email" then Some("development-email")
    else if name in {"trade-documents", "document", "documents", "invoices"} then Some("documents")
    else if name == "commission" then Some("commission")
    else if name == "analytics" then Some("reports")
    else if name == "daily_report" then Some("daily-reports")
    else if name == "competitors" then Some("competitors")
    else if name == "cases" then Some("cases")
    else if name == "problems" then Some("problems")
    else if name == "import-export" then Some("imports")
    else if name == "configuration" then Some("settings")
    else if name == "research" then Some("ai-research")
    else None
  }

  /** `normalizeAgentNavigationView`: the view meant, or empty. */
  function ViewOf(v: Value): (view: string)
    ensures view != "" ==> view in VIEWS
  {
    var requested := Lower(Trim(AsText(v)));
    var name := match Alias(requested) case Some(view) => view case None => requested;
    if name in VIEWS then name else ""
  }

  // ---------- Defaults ----------

  /** What is selected on the page. */
  datatype PageContext = PageContext(customer: Value, lead: Value)

  function Selected(v: Value): string {
    var text := AsText(v);
    if |text| > 120 then text[..120] else text
  }

  predicate OfCustomer(tool: Tool) {
    tool in {UiOpenCustomer, UiOpenCommunication, CrmGetCustomerOverview, CrmRecordCustomerFollowup, CrmUpdateCustomerProfile,
             OutreachSendWhatsapp}
  }

  predicate OfEntity(tool: Tool) {
    tool in {UiOpenDevelopmentEmail, OutreachDraftDevelopmentEmail, OutreachSendDevelopmentEmail, OutreachCreateSequence,
             ResearchRunBackground}
  }

  /** The field is set unless it already holds text. */
  function Default(input: Value, key: string, text: string): Value {
    if AsText(Field(input, key)) == "" then WithField(input, key, Str(text)) else input
  }

  function WithDefaults(tool: Tool, input: Value, context: PageContext): Value {
    var customer, lead := Selected(context.customer), Selected(context.lead);
    if tool == UiNavigate then
      (if ViewOf(Field(input, "view")) != "" then WithField(input, "view", Str(ViewOf(Field(input, "view")))) else input)
    else if OfCustomer(tool) then (if customer != "" then Default(input, "customerId", customer) else input)
    else if tool == UiOpenLead then (if lead != "" then Default(input, "leadId", lead) else input)
    else if OfEntity(tool) then
      Default(Default(input, "entityId", if lead != "" then lead else customer), "entityType", if lead != "" then "lead" else "customer")
    else input
  }

  /** A draft as it enters the run: rewritten, and completed from the page. */
  function InContext(draft: PlanItem, context: PageContext): PlanItem {
    var d := Rewrite(draft);
    d.(input := WithDefaults(d.tool, d.input, context))
  }

  function InContexts(drafts: seq<PlanItem>, context: PageContext): (items: seq<PlanItem>)
    ensures |items| == |drafts| && forall i | 0 <= i < |items| :: items[i] == InContext(drafts[i], context)
  {
    seq(|drafts|, i requires 0 <= i < |drafts| => InContext(drafts[i], context))
  }

  // ---------- What completing a draft changes ----------

  lemma {:induction false} LookupAfterPut(members: List<Member>, key: string, value: Value, other: string)
    ensures Lookup(Put(members, key, value), other) == if other == key then value else Lookup(members, other)
  {
    match members
    case Nil =>
    case Cons(_, rest) => LookupAfterPut(rest, key, value, other);
  }

  /** Setting a field leaves every other field of an object as it is. */
  lemma FieldAfterWith(input: Value, key: string, value: Value, other: string)
    ensures Field(WithField(input, key, value), other) == if other == key then value else Field(input, other)
  {
    LookupAfterPut(if input.Obj? then input.members else Nil, key, value, other);
  }

  lemma DefaultKeeps(input: Value, key: string, text: string, other: string)
    ensures other != key || AsText(Field(input, key)) != "" ==> Field(Default(input, key, text), other) == Field(input, other)
    ensures AsText(Field(input, key)) == "" ==> Field(Default(input, key, text), key) == Str(text)
  {
    FieldAfterWith(input, key, Str(text), other);
    FieldAfterWith(input, key, Str(text), key);
  }

  /** The page fills gaps only: apart from the name of a view, no field that holds text changes. */
  lemma GivenFieldsStay(draft: PlanItem, context: PageContext, key: string)
    requires AsText(Field(Rewrite(draft).input, key)) != ""
    requires draft.tool == UiNavigate ==> key != "view"
    ensures Field(InContext(draft, context).input, key) == Field(Rewrite(draft).input, key)
  {
    hide ViewOf, AsText, Rewrite, Selected, WithField, Field;
    RewriteKeepsNavigation(draft);
    var d, customer, lead := Rewrite(draft), Selected(context.customer), Selected(context.lead);
    FieldAfterWith(d.input, "view", Str(ViewOf(Field(d.input, "view"))), key);
    DefaultKeeps(d.input, "customerId", customer, key);
    DefaultKeeps(d.input, "leadId", lead, key);
    var entity := if lead != "" then lead else customer;
    DefaultKeeps(d.input, "entityId", entity, key);
    DefaultKeeps(Default(d.input, "entityId", entity), "entityType", if lead != "" then "lead" else "customer", key);
  }

  lemma RewriteKeepsNavigation(draft: PlanItem)
    ensures Rewrite(draft).tool == UiNavigate <==> draft.tool == UiNavigate
  {
  }

  lemma {:induction false} TrimEndKeepsHead(s: string)
    requires s != "" && !IsSpace(s[0])
    ensures TrimEnd(s) != ""
  {
    hide IsSpace;
    if IsSpace(s[|s| - 1]) {
      TrimEndKeepsHead(s[..|s| - 1]);
    }
  }

  /** Text that does not begin with space is still text when it is trimmed. */
  lemma StillText(s: string)
    requires s != "" && !IsSpace(s[0])
    ensures AsText(Str(s)) != ""
  {
    hide IsSpace;
    TrimEndKeepsHead(s);
  }

  lemma TrimmedHead(s: string)
    requires Trim(s) != ""
    ensures !IsSpace(Trim(s)[0])
  {
    hide IsSpace;
  }

  lemma SelectedIsText(v: Value)
    ensures Selected(v) != "" ==> AsText(Str(Selected(v))) != ""
  {
    hide IsSpace, Trim;
    if Selected(v) != "" {
      TrimmedHead(v.text);
      StillText(Selected(v));
    }
  }

  /** A step for a customer names one exactly when the draft does or one is selected. */
  lemma CustomerIsKnownIff(draft: PlanItem, context: PageContext)
    requires OfCustomer(Rewrite(draft).tool)
    ensures AsText(Field(InContext(draft, context).input, "customerId")) != ""
       <==> AsText(Field(Rewrite(draft).input, "customerId")) != "" || Selected(context.customer) != ""
  {
    hide Rewrite, Selected, WithField, Field, AsText, Default, ViewOf, OfEntity;
    SelectedIsText(context.customer);
    DefaultKeeps(Rewrite(draft).input, "customerId", Selected(context.customer), "customerId");
  }

  predicate IsDefaulted(key: string) { key in {"view", "customerId", "leadId", "entityId", "entityType"} }

  lemma WithDefaultsKeeps(tool: Tool, input: Value, context: PageContext, key: string)
    requires !IsDefaulted(key)
    ensures Field(WithDefaults(tool, input, context), key) == Field(input, key)
  {
    hide ViewOf, AsText, Selected, WithField, Field;
    var customer, lead := Selected(context.customer), Selected(context.lead);
    FieldAfterWith(input, "view", Str(ViewOf(Field(input, "view"))), key);
    DefaultKeeps(input, "customerId", customer, key);
    DefaultKeeps(input, "leadId", lead, key);
    var entity := if lead != "" then lead else customer;
    DefaultKeeps(input, "entityId", entity, key);
    DefaultKeeps(Default(input, "entityId", entity), "entityType", if lead != "" then "lead" else "customer", key);
  }

  lemma TextFieldsAreNotDefaults()
    ensures !IsDefaulted("subject") && !IsDefaulted("body")
  {
    assert |"subject"| != |"view"| && |"subject"| != |"customerId"| && |"subject"| != |"leadId"| && |"subject"| != |"entityId"|;
    assert |"subject"| != |"entityType"| && |"body"| != |"customerId"| && |"body"| != |"leadId"| && |"body"| != |"entityId"|;
    assert |"body"| != |"entityType"| && "body"[0] != "view"[0];
  }

  /** A completed draft needs no further rewriting, so it is signed as it is. */
  lemma CompletedIsRewritten(draft: PlanItem, context: PageContext)
    ensures Rewrite(InContext(draft, context)) == InContext(draft, context)
  {
    hide WithDefaults, Field, WithField, AsText, IsDefaulted;
    var d := Rewrite(draft);
    TextFieldsAreNotDefaults();
    WithDefaultsKeeps(d.tool, d.input, context, "subject");
    WithDefaultsKeeps(d.tool, d.input, context, "body");
    RewrittenHasBody(draft);
  }

  /** After rewriting, a message has a body, and an e-mail that is still sent has subject and body. */
  lemma RewrittenHasBody(draft: PlanItem)
    ensures var d := Rewrite(draft);
      && (d.tool == OutreachSendWhatsapp ==> AsText(Field(d.input, "body")) != "")
      && (d.tool == OutreachSendDevelopmentEmail ==> AsText(Field(d.input, "subject")) != "" && AsText(Field(d.input, "body")) != "")
  {
    hide WithField, Field;
    if draft.tool == OutreachSendWhatsapp && AsText(Field(draft.input, "body")) == "" {
      FieldAfterWith(draft.input, "body", Str(DEFAULT_WHATSAPP), "body");
      DefaultIsText();
    }
  }

  lemma DefaultIsText()
    ensures AsText(Str(DEFAULT_WHATSAPP)) != ""
  {
    assert DEFAULT_WHATSAPP[0] == "Hello, "[0];
    StillText(DEFAULT_WHATSAPP);
  }

  // ---------- Normalizing a plan ----------

  /** `normalizeSteps` after key assignment: each draft is completed from the page; the graph check admits or rejects the batch. */
  method NormalizeInContext(drafts: seq<PlanItem>, context: PageContext, runId: string, user: Actor, existing: seq<Step>)
    returns (r: Result<seq<Step>, GraphError>)
    ensures r.Ok? <==> Normalized(InContexts(drafts, context), runId, user, existing).Some?
    ensures r.Ok? ==> Some(r.value) == Normalized(InContexts(drafts, context), runId, user, existing)
    ensures r.Ok? ==> |r.value| == |drafts| && forall i | 0 <= i < |drafts| ::
      r.value[i].input == InContext(drafts[i], context).input && r.value[i].tool == InContext(drafts[i], context).tool
  {
    hide InContext, Acceptable;
    forall i | 0 <= i < |drafts| {
      CompletedIsRewritten(drafts[i], context);
    }
    r := NormalizeSteps(InContexts(drafts, context), runId, user, existing);
  }
}
