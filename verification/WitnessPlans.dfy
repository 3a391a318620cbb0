/** The plans of the missions in MissionWitnesses: what the admission check and preparation make of them. */
module WitnessPlans {
  import opened Prelude
  import opened Values
  import opened AgentTypes
  import opened References
  import opened ReferenceLaws
  import opened WorkflowGraph
  import opened Planning
  import opened Runs

  // ---------- Inputs without references ----------

  lemma {:induction false} NoBraceNoReference(s: string)
    requires '{' !in s
    ensures Refs(Parse(s)) == []
  {
    if s != "" {
      MatchOpensABrace(s);
      NoBraceNoReference(s[1..]);
      ShiftRenders(s[0], Parse(s[1..]));
    }
  }

  /** An object with one string member without a brace has no references. */
  lemma PlainMember(key: string, text: string)
    requires '{' !in text
    ensures HasNoReferences(Obj(Cons(Member(key, Str(text)), Nil)))
  {
    NoBraceNoReference(text);
    var none: seq<string> := [];
    assert RefKeys(Refs(Parse(text))) == none && none + none == none;
    assert Collect(Str(text), 1) == Ok(none);
    assert CollectMembers(Nil, 1) == Ok(none);
    assert CollectMembers(Cons(Member(key, Str(text)), Nil), 1) == Ok(none);
  }

  lemma EmptyHasNoReferences()
    ensures HasNoReferences(Obj(Nil))
  {
    assert CollectMembers(Nil, 1) == Ok([]);
  }

  lemma NoReferencesToAdd(s: Step)
    requires HasNoReferences(s.input) && |s.dependsOn| <= 1
    ensures WithReferences(s) == s && Collect(s.input, 0).Ok?
  {
    assert s.dependsOn + [] == s.dependsOn;
    if |s.dependsOn| == 1 {
      assert s.dependsOn[..0] == [];
      assert Dedup(s.dependsOn) == [] + [s.dependsOn[0]] == s.dependsOn;
    }
  }

  // ---------- Batches that are admitted ----------

  lemma OneAdmitted(a: Step)
    requires WithReferences(a) == a && a.dependsOn == [] && Collect(a.input, 0).Ok?
    ensures Acceptable([a], {}) && AllWithReferences([a]) == [a]
  {
    assert AllWithReferences([a]) == [a] && KeySet([a]) == {a.key};
    assert PartialOrder([a], [a.key]);
    TopologicalIsAcyclic([a], [a.key]);
  }

  /** Two steps, the second waiting for the first. */
  lemma PairAdmitted(a: Step, b: Step)
    requires a.key != b.key && Collect(a.input, 0).Ok? && Collect(b.input, 0).Ok?
    requires WithReferences(a).dependsOn == [] && WithReferences(b).dependsOn == [a.key]
    ensures Acceptable([a, b], {}) && AllWithReferences([a, b]) == [WithReferences(a), WithReferences(b)]
  {
    hide WithReferences, Edge;
    var all, order := [WithReferences(a), WithReferences(b)], [a.key, b.key];
    assert AllWithReferences([a, b]) == all;
    KeepsKey(a);
    KeepsKey(b);
    PairKeys(all, a.key, b.key);
    PairKeys([a, b], a.key, b.key);
    PairOrder(all, order);
    TopologicalIsAcyclic(all, order);
  }

  lemma KeepsKey(s: Step)
    ensures WithReferences(s).key == s.key
  {
  }

  lemma PairKeys(steps: seq<Step>, x: string, y: string)
    requires |steps| == 2 && steps[0].key == x && steps[1].key == y
    ensures KeySet(steps) == {x, y}
  {
    assert steps[0] in steps && steps[1] in steps;
  }

  lemma PairOrder(steps: seq<Step>, order: seq<string>)
    requires |steps| == 2 && order == [steps[0].key, steps[1].key] && steps[0].key != steps[1].key
    requires steps[0].dependsOn == [] && steps[1].dependsOn == [steps[0].key]
    ensures TopologicalOrder(steps, order)
  {
    PairKeys(steps, order[0], order[1]);
    assert order[..1] == [order[0]];
  }

  // ---------- Plain items ----------

  /** A title that no mark in the event history begins with. */
  predicate IsPlainTitle(title: string) { title != "" && title[0] != '用' }

  /** A plan item without dependencies or references whose tool is neither rewritten nor an ordinary write. */
  predicate IsPlain(item: PlanItem) {
    && item.key != "" && item.dependsOn == [] && item.input == Obj(Nil) && IsPlainTitle(item.title)
    && item.tool != OutreachSendDevelopmentEmail && item.tool != OutreachSendWhatsapp && ToolRisk(item.tool) != Write
  }

  const SEARCH: PlanItem := PlanItem("1", "a", [], CrmSearchCustomers, "search", Obj(Nil))
  const SEND: PlanItem := PlanItem("1", "a", [], ProspectStartSearch, "send", Obj(Nil))

  /** What is planned when the turn authorizes writes and permits everything. */
  function Planned(items: seq<PlanItem>, runId: string, user: Actor): seq<Step> {
    Authorize(AllWithReferences(NewSteps(items, runId, user)), true)
  }

  lemma {:induction false} AllPermitted(steps: seq<Step>)
    ensures Constrain(steps, TurnDecision(SpeechAct.Execute, true)) == steps
  {
    if steps != [] {
      AllPermitted(steps[1..]);
    }
  }

  lemma PlainPlanned(item: PlanItem, runId: string, user: Actor)
    requires IsPlain(item)
    ensures var s := NewStep(item, runId, user);
      && Acceptable(NewSteps([item], runId, user), {}) && Planned([item], runId, user) == [s]
      && s.input == Obj(Nil) && HasNoReferences(s.input) && s.dependsOn == [] && s.key == item.key && s.title == item.title
  {
    var s := NewStep(item, runId, user);
    EmptyHasNoReferences();
    NoReferencesToAdd(s);
    OneAdmitted(s);
    assert NewSteps([item], runId, user) == [s];
    assert Planned([item], runId, user) == [s];
  }

  // ---------- An observer and a step that waits for it ----------

  const OBSERVED: Value := Obj(Cons(Member("runId", Str("x")), Nil))
  const OBSERVE: PlanItem := PlanItem("1", "a", [], ProspectGetSearchProgress, "observe", OBSERVED)
  const LIST: PlanItem := PlanItem("22", "bb", ["a"], ProspectListCandidates, "list", Obj(Nil))

  lemma ObservedHasNoReferences()
    ensures HasNoReferences(OBSERVED)
  {
    PlainMember("runId", "x");
  }

  predicate IsReading(item: PlanItem) {
    ToolRisk(item.tool) == Read && item.tool != OutreachSendDevelopmentEmail && item.tool != OutreachSendWhatsapp
  }

  lemma ReadingPairPlanned(a: PlanItem, b: PlanItem, runId: string, user: Actor)
    requires IsReading(a) && IsReading(b) && a.key != b.key && a.dependsOn == [] && b.dependsOn == [a.key]
    requires HasNoReferences(a.input) && HasNoReferences(b.input)
    ensures Acceptable(NewSteps([a, b], runId, user), {})
    ensures Planned([a, b], runId, user) == [NewStep(a, runId, user), NewStep(b, runId, user)]
  {
    hide HasNoReferences, Acceptable, Rewrite, WithReferences;
    var x, y := NewStep(a, runId, user), NewStep(b, runId, user);
    NewStepFields(a, runId, user);
    NewStepFields(b, runId, user);
    NoReferencesToAdd(x);
    NoReferencesToAdd(y);
    PairAdmitted(x, y);
    assert NewSteps([a, b], runId, user) == [x, y];
    assert Planned([a, b], runId, user) == [x, y];
  }

  lemma ObservationPlanned(runId: string, user: Actor)
    ensures var items, steps := [OBSERVE, LIST], [NewStep(OBSERVE, runId, user), NewStep(LIST, runId, user)];
      Acceptable(NewSteps(items, runId, user), {}) && Planned(items, runId, user) == steps
  {
    hide HasNoReferences, Acceptable, NewStep, NewSteps, Planned;
    ObservedHasNoReferences();
    EmptyHasNoReferences();
    assert |OBSERVE.key| != |LIST.key|;
    ReadingPairPlanned(OBSERVE, LIST, runId, user);
  }

  // ---------- A lookup and a call whose verb it provides ----------

  const VERB: Ref := Ref("a", "m")

  function CallOf(verb: Value): Value { Obj(Cons(Member("method", verb), Nil)) }

  function Calling(verb: string): Value { CallOf(Str(verb)) }

  const LOOKUP: PlanItem := PlanItem("1", "a", [], CrmSearchCustomers, "look up", Obj(Nil))
  const CALL: PlanItem := PlanItem("22", "bb", [], ApiWrite, "call", Calling(RefText(VERB)))

  /** What the lookup returns. */
  function Found(v: Value): Value { Obj(Cons(Member("m", v), Nil)) }

  lemma VerbIsValid()
    ensures ValidRef(VERB)
  {
  }

  lemma CallRefers(s: string)
    requires Refs(Parse(s)) == [VERB]
    ensures Collect(Calling(s), 0) == Ok([VERB.key])
  {
    hide Parse, Dedup;
    var keys: seq<string> := [VERB.key];
    assert RefKeys([VERB]) == keys && keys + [] == keys;
    assert Collect(Str(s), 1) == Ok(keys);
    assert CollectMembers(Nil, 1) == Ok([]);
    assert CollectMembers(Cons(Member("method", Str(s)), Nil), 1) == Ok(keys);
    DedupOne(VERB.key);
  }

  lemma DedupOne(key: string)
    ensures Dedup([key]) == [key]
  {
    assert [key][..0] == [];
  }

  /** A call is destructive by its verb alone when it has no path. */
  lemma DestructiveByVerb(verb: string)
    ensures RequiresSecondaryConfirmation(ApiWrite, Calling(verb)) <==> Upper(Trim(verb)) == "DELETE"
  {
    hide Trim;
    assert Lower("") == "" && !DestructivePath("");
    assert Field(Calling(verb), "method") == Str(verb);
    EmptyTrimmed();
    assert |"method"| != |"path"| && Lookup(Nil, "path") == Undefined;
    assert Field(Calling(verb), "path") == Undefined;
  }

  lemma EmptyTrimmed()
    ensures Trim("") == ""
  {
  }

  lemma NotYetDestructive(s: string)
    requires s != "" && s[0] == '{' && s[|s| - 1] == '}'
    ensures !RequiresSecondaryConfirmation(ApiWrite, Calling(s))
  {
    hide RequiresSecondaryConfirmation, Trim;
    AlreadyTrimmed(s);
    DestructiveByVerb(s);
    assert Upper(s)[0] == '{' && "DELETE"[0] == 'D';
  }

  lemma Destructive()
    ensures RequiresSecondaryConfirmation(ApiWrite, Calling("DELETE"))
  {
    hide RequiresSecondaryConfirmation, Trim;
    AlreadyTrimmed("DELETE");
    DestructiveByVerb("DELETE");
    assert Upper("DELETE") == "DELETE";
  }

  lemma {:induction false} VerbFound(steps: seq<Step>, v: Value)
    requires steps != [] && steps[0].key == "a" && steps[0].status == Done && steps[0].result == Some(Found(v)) && v != Undefined
    ensures ResolveRef(VERB, steps) == Ok(v)
  {
    OnePart();
    assert FindStep(steps, "a") == Some(steps[0]);
    NotBlocked();
    assert Get(Found(v), "m") == v;
    assert Walk(Found(v), ["m"]) == Walk(v, ["m"][1..]) == v;
  }

  lemma OnePart()
    ensures NonEmpty(Split("m", '.')) == ["m"]
  {
    assert "m"[1..] == "" && Split("", '.') == [""] && ['m'] + "" == "m";
    assert Split("m", '.') == [['m'] + ""] + [""][1..];
    assert ["m"][1..] == [] && NonEmpty(["m"]) == ["m"] + NonEmpty([]);
  }

  lemma NotBlocked()
    ensures "m" !in BLOCKED_PATH_PARTS
  {
    assert |"m"| != |"__proto__"| && |"m"| != |"prototype"| && |"m"| != |"constructor"|;
  }

  /** Once the lookup is done the call carries what was found. */
  lemma {:induction false} CallIsFilledIn(steps: seq<Step>, v: Value)
    requires steps != [] && steps[0].key == "a" && steps[0].status == Done && steps[0].result == Some(Found(v)) && v != Undefined
    ensures Resolve(CALL.input, steps, 0) == Ok(CallOf(v))
  {
    hide ResolveRef, Resolve, RefText;
    VerbIsValid();
    WholeStringKeepsType(VERB, steps, 1);
    VerbFound(steps, v);
    OneMemberResolved("method", RefText(VERB), v, steps);
  }

  lemma OneMemberResolved(key: string, text: string, found: Value, steps: seq<Step>)
    requires Resolve(Str(text), steps, 1) == Ok(found)
    ensures Resolve(Obj(Cons(Member(key, Str(text)), Nil)), steps, 0) == Ok(Obj(Cons(Member(key, found), Nil)))
  {
    hide ResolveString;
    assert ResolveMembers(Nil, steps, 1) == Ok(Nil);
    assert ResolveMembers(Cons(Member(key, Str(text)), Nil), steps, 1) == Ok(Cons(Member(key, found), Nil));
  }

  /** The call waits for the lookup and is authorized, for its verb is not known yet. */
  function AuthorizedCall(runId: string, user: Actor): Step {
    NewStep(CALL, runId, user).(dependsOn := ["a"], status := Ready, approved := true)
  }

  lemma ReferenceAdded(s: Step, key: string)
    requires s.dependsOn == [] && Collect(s.input, 0) == Ok([key])
    ensures WithReferences(s) == s.(dependsOn := [key])
  {
    hide Collect, Dedup;
    DedupOne(key);
    assert [] + [key] == [key];
  }

  /** A lookup and a write that refers to it, in a turn that authorizes writes. */
  lemma AuthorizedPairPlanned(a: PlanItem, b: PlanItem, runId: string, user: Actor)
    requires IsReading(a) && a.dependsOn == [] && HasNoReferences(a.input) && a.key != b.key
    requires b.tool == ApiWrite && b.dependsOn == [] && Collect(b.input, 0) == Ok([a.key])
    requires !RequiresSecondaryConfirmation(ApiWrite, b.input)
    ensures Acceptable(NewSteps([a, b], runId, user), {})
    ensures Planned([a, b], runId, user)
         == [NewStep(a, runId, user), NewStep(b, runId, user).(dependsOn := [a.key], status := Ready, approved := true)]
  {
    hide HasNoReferences, Acceptable, Rewrite, RequiresSecondaryConfirmation, WithReferences, Collect;
    var x, y := NewStep(a, runId, user), NewStep(b, runId, user);
    NewStepFields(a, runId, user);
    NewStepFields(b, runId, user);
    NoReferencesToAdd(x);
    ReferenceAdded(y, a.key);
    PairAdmitted(x, y);
    assert NewSteps([a, b], runId, user) == [x, y];
    assert AllWithReferences([x, y]) == [x, y.(dependsOn := [a.key])];
    assert Planned([a, b], runId, user) == [x, y.(dependsOn := [a.key], status := Ready, approved := true)];
  }

  lemma CallPlanned(runId: string, user: Actor)
    ensures Acceptable(NewSteps([LOOKUP, CALL], runId, user), {})
    ensures Planned([LOOKUP, CALL], runId, user) == [NewStep(LOOKUP, runId, user), AuthorizedCall(runId, user)]
    ensures !HasNoReferences(CALL.input) && Collect(CALL.input, 0).Ok?
  {
    hide Acceptable, RequiresSecondaryConfirmation, RefText, NewStep, NewSteps, Planned;
    VerbIsValid();
    OneHole(VERB);
    CallRefers(RefText(VERB));
    EmptyHasNoReferences();
    VerbInBraces();
    NotYetDestructive(RefText(VERB));
    assert |LOOKUP.key| != |CALL.key|;
    AuthorizedPairPlanned(LOOKUP, CALL, runId, user);
  }

  lemma VerbInBraces()
    ensures var s := RefText(VERB); s != "" && s[0] == '{' && s[|s| - 1] == '}'
  {
  }

  // ---------- What the pairs have in common ----------

  /** Ids that differ, keys and titles that are plain. */
  predicate IsPair(a: PlanItem, b: PlanItem) {
    a.id != b.id && a.key != "" && b.key != "" && IsPlainTitle(a.title) && IsPlainTitle(b.title)
  }

  lemma PairsAreFine()
    ensures IsPair(OBSERVE, LIST) && IsPair(LOOKUP, CALL)
  {
    assert |OBSERVE.id| != |LIST.id| && |LOOKUP.id| != |CALL.id|;
  }

  lemma NewStepFields(item: PlanItem, runId: string, user: Actor)
    requires item.tool != OutreachSendDevelopmentEmail && item.tool != OutreachSendWhatsapp
    ensures var s := NewStep(item, runId, user);
      && s.id == item.id && s.key == item.key && s.dependsOn == item.dependsOn && s.tool == item.tool && s.title == item.title
      && s.input == item.input && s.risk == ToolRisk(item.tool) && s.status != Skipped
      && (s.risk == Read ==> s.status == Ready)
  {
  }
}
