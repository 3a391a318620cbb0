/** From planned drafts to run steps: tool rewriting, risk-based status, the admission check, turn constraints and user authorization. */
module Planning {
  import opened Prelude
  import opened Values
  import opened AgentTypes
  import opened References
  import opened WorkflowGraph
  import opened GraphLaws

  // ---------- Text helpers ----------

  /** `asText`: a trimmed string, or empty for anything else. */
  function AsText(v: Value): string {
    if v.Str? then Trim(v.text) else ""
  }

  function Field(v: Value, key: string): Value {
    if v.Obj? then Lookup(v.members, key) else Undefined
  }

  function Put(members: List<Member>, key: string, value: Value): List<Member> {
    match members
    case Nil => Cons(Member(key, value), Nil)
    case Cons(m, rest) => if m.key == key then Cons(Member(key, value), rest) else Cons(m, Put(rest, key, value))
  }

  function WithField(v: Value, key: string, value: Value): Value {
    Obj(Put(if v.Obj? then v.members else Nil, key, value))
  }

  function LowerChar(c: char): char {
    if 'A' <= c <= 'Z' then (c as int - 'A' as int + 'a' as int) as char else c
  }

  function UpperChar(c: char): char {
    if 'a' <= c <= 'z' then (c as int - 'a' as int + 'A' as int) as char else c
  }

  function Lower(s: string): string { seq(|s|, i requires 0 <= i < |s| => LowerChar(s[i])) }

  function Upper(s: string): string { seq(|s|, i requires 0 <= i < |s| => UpperChar(s[i])) }

  predicate EndsWith(s: string, suffix: string) {
    |suffix| <= |s| && s[|s| - |suffix|..] == suffix
  }

  // ---------- Writes that need their own confirmation ----------

  predicate RequiresSecondaryConfirmation(tool: Tool, input: Value) {
    tool == ApiWrite
    && (Upper(AsText(Field(input, "method"))) == "DELETE"
        || DestructivePath(Lower(AsText(Field(input, "path")))))
  }

  predicate DestructivePath(path: string) {
    || Occurs("bulk", path) || Occurs("batch", path)
    || EndsWith(path, "/permanent") || EndsWith(path, "/release") || EndsWith(path, "/lost")
  }

  // ---------- Drafts ----------

  /** A planned step once its key has been chosen and its context defaults filled in. */
  datatype PlanItem = PlanItem(id: string, key: string, dependsOn: seq<string>, tool: Tool, title: string, input: Value)

  const DEFAULT_WHATSAPP: string :=
    "Hello, " + "I would like to follow up regarding potential cooperation. Would you be available for a brief conversation this week?"

  /** An e-mail without subject or body is drafted instead of sent; an empty message gets a default text. */
  function Rewrite(d: PlanItem): PlanItem {
    if d.tool == OutreachSendDevelopmentEmail && (AsText(Field(d.input, "subject")) == "" || AsText(Field(d.input, "body")) == "") then
      d.(tool := OutreachDraftDevelopmentEmail, input := WithField(d.input, "prepareForSend", Bool(true)))
    else if d.tool == OutreachSendWhatsapp && AsText(Field(d.input, "body")) == "" then
      d.(input := WithField(d.input, "body", Str(DEFAULT_WHATSAPP)))
    else d
  }

  function Sign(runId: string, stepId: string, tool: Tool, input: Value, user: Actor): Signature {
    Signature(runId, stepId, tool, input, user.id, user.teamId)
  }

  function NewStep(draft: PlanItem, runId: string, user: Actor): Step {
    var d := Rewrite(draft);
    var risk := ToolRisk(d.tool);
    Step(d.id, d.key, d.dependsOn, d.tool, risk,
         if risk == Write || risk == External then NeedsConfirmation else Ready,
         d.title, d.input, None, "", Sign(runId, d.id, d.tool, d.input, user), false)
  }

  function NewSteps(drafts: seq<PlanItem>, runId: string, user: Actor): (steps: seq<Step>)
    ensures |steps| == |drafts| && forall i | 0 <= i < |steps| :: steps[i] == NewStep(drafts[i], runId, user)
  {
    seq(|drafts|, i requires 0 <= i < |drafts| => NewStep(drafts[i], runId, user))
  }

  /** `normalizeSteps` after key assignment: the admitted batch, or nothing when it is rejected. */
  ghost function Normalized(drafts: seq<PlanItem>, runId: string, user: Actor, existing: seq<Step>): Option<seq<Step>> {
    var steps := NewSteps(drafts, runId, user);
    if Acceptable(steps, KeySet(existing)) then Some(AllWithReferences(steps)) else None
  }

  method NormalizeSteps(drafts: seq<PlanItem>, runId: string, user: Actor, existing: seq<Step>)
    returns (r: Result<seq<Step>, GraphError>)
    ensures r.Ok? <==> Normalized(drafts, runId, user, existing).Some?
    ensures r.Ok? ==> Some(r.value) == Normalized(drafts, runId, user, existing)
  {
    r := Validate(NewSteps(drafts, runId, user), KeySet(existing));
  }

  // ---------- Turn constraints and authorization ----------

  datatype SpeechAct = Explain | QueryData | Navigate | Execute | ContinueTask | AnswerSlot | Correct | Cancel | Chat

  datatype TurnDecision = TurnDecision(speechAct: SpeechAct, writeAuthorized: bool)

  predicate Permits(decision: TurnDecision, s: Step) {
    match decision.speechAct
    case Chat | Explain | Cancel => false
    case QueryData => s.risk == Read
    case Navigate => IsUiTool(s.tool)
    case _ => decision.writeAuthorized || s.risk == Read || s.risk == Draft
  }

  /** `constrainStepsToTurnDecision` */
  function Constrain(steps: seq<Step>, decision: TurnDecision): (kept: seq<Step>)
    ensures forall s :: s in kept <==> s in steps && Permits(decision, s)
  {
    if steps == [] then []
    else if Permits(decision, steps[0]) then [steps[0]] + Constrain(steps[1..], decision)
    else Constrain(steps[1..], decision)
  }

  function AuthorizeStep(s: Step): Step {
    if s.risk != Write || RequiresSecondaryConfirmation(s.tool, s.input) then s
    else s.(status := Ready, approved := true)
  }

  /** `applyUserIntentAuthorization`: an authorized turn releases ordinary in-app writes. */
  function Authorize(steps: seq<Step>, authorized: bool): (r: seq<Step>)
    ensures |r| == |steps|
    ensures forall i | 0 <= i < |r| :: r[i] == if authorized then AuthorizeStep(steps[i]) else steps[i]
  {
    if authorized then seq(|steps|, i requires 0 <= i < |steps| => AuthorizeStep(steps[i])) else steps
  }

  lemma {:induction false} ConstrainSelects(steps: seq<Step>, decision: TurnDecision)
    requires DistinctKeys(steps)
    ensures IsSelection(Constrain(steps, decision), steps)
  {
    if steps != [] {
      assert DistinctKeys(steps[1..]) by {
        assert forall i :: 0 <= i < |steps[1..]| ==> steps[1..][i] == steps[i + 1];
      }
      ConstrainSelects(steps[1..], decision);
      var kept, rest := Constrain(steps, decision), Constrain(steps[1..], decision);
      if Permits(decision, steps[0]) {
        forall j | 0 <= j < |rest|
          ensures rest[j].key != steps[0].key
        {
          assert rest[j] in steps[1..];
        }
        assert kept == [steps[0]] + rest;
      }
    }
  }

  // ---------- Constraining an admitted batch can break the graph ----------

  /** Every permitted step depends only on permitted steps of its batch or on existing ones. */
  ghost predicate PermitsDependencies(batch: seq<Step>, existing: set<string>, decision: TurnDecision) {
    forall s, t | s in batch && t in batch && Permits(decision, s) && t.key in s.dependsOn && t.key !in existing ::
      Permits(decision, t)
  }

  /**
   Constraining is harmless exactly when no permitted step waits for a filtered one. Otherwise the
   run is left with a step whose dependency does not exist.
   */
  lemma ConstrainedAppendSoundIff(run: seq<Step>, batch: seq<Step>, decision: TurnDecision)
    requires SoundGraph(run) && Acceptable(batch, KeySet(run))
    ensures SoundGraph(run + Constrain(AllWithReferences(batch), decision))
       <==> PermitsDependencies(AllWithReferences(batch), KeySet(run), decision)
  {
    var all := AllWithReferences(batch);
    assert DistinctKeys(all) && KnownDependencies(all, KeySet(run) + KeySet(all));
    ConstrainSelects(all, decision);
    AppendKeepsSoundIff(run, batch, Constrain(all, decision));
    KnownIffPermitted(all, KeySet(run), decision);
  }

  lemma KnownIffPermitted(all: seq<Step>, existing: set<string>, decision: TurnDecision)
    requires DistinctKeys(all) && KnownDependencies(all, existing + KeySet(all))
    ensures KnownDependencies(Constrain(all, decision), existing + KeySet(Constrain(all, decision)))
       <==> PermitsDependencies(all, existing, decision)
  {
    if PermitsDependencies(all, existing, decision) {
      PermittedThenKnown(all, existing, decision);
    }
    KnownThenPermitted(all, existing, decision);
  }

  lemma PermittedThenKnown(all: seq<Step>, existing: set<string>, decision: TurnDecision)
    requires KnownDependencies(all, existing + KeySet(all)) && PermitsDependencies(all, existing, decision)
    ensures KnownDependencies(Constrain(all, decision), existing + KeySet(Constrain(all, decision)))
  {
    var kept := Constrain(all, decision);
    forall s, d | s in kept && d in s.dependsOn
      ensures d in existing + KeySet(kept)
    {
      if d !in existing {
        assert s in all;
        assert d in existing + KeySet(all);
        var t :| t in all && t.key == d;
        assert t in kept;
      }
    }
  }

  lemma KnownThenPermitted(all: seq<Step>, existing: set<string>, decision: TurnDecision)
    requires DistinctKeys(all)
    ensures KnownDependencies(Constrain(all, decision), existing + KeySet(Constrain(all, decision)))
        ==> PermitsDependencies(all, existing, decision)
  {
    var kept := Constrain(all, decision);
    if KnownDependencies(kept, existing + KeySet(kept)) {
      forall s, t | s in all && t in all && Permits(decision, s) && t.key in s.dependsOn && t.key !in existing
        ensures Permits(decision, t)
      {
        assert s in kept;
        assert t.key in existing + KeySet(kept);
        var u :| u in kept && u.key == t.key;
        SameKeySameStep(all, u, t);
      }
    }
  }

  lemma SameKeySameStep(steps: seq<Step>, s: Step, t: Step)
    requires DistinctKeys(steps) && s in steps && t in steps && s.key == t.key
    ensures s == t
  {
  }

  /**
   A read that waits for a write survives a "query" turn without the write; a later admitted batch
   may then reuse the write's key and close a cycle across the two batches.
   */
  lemma FilteredBatchesCanCloseACycle(read: Step, write: Step, later: Step)
    requires read.key == "report" && read.dependsOn == ["update"] && read.risk == Read && read.input == Obj(Nil)
    requires write.key == "update" && write.dependsOn == [] && write.risk == Write && write.input == Obj(Nil)
    requires later.key == "update" && later.dependsOn == ["report"] && later.input == Obj(Nil)
    ensures Acceptable([read, write], {})
    ensures Constrain(AllWithReferences([read, write]), TurnDecision(QueryData, false)) == [read]
    ensures Acceptable([later], KeySet([read]))
    ensures IsCycle([read] + AllWithReferences([later]), ["report", "update", "report"])
  {
    FirstBatchAdmitted(read, write);
    LaterBatchAdmitted(read, later);
    var run := [read] + [later];
    assert read in run && later in run;
    assert Edge(run, "report", "update") && Edge(run, "update", "report");
    var p := ["report", "update", "report"];
    assert p[0 + 1] == "update" && p[1 + 1] == "report";
    assert IsWalk(run, p);
  }

  lemma FirstBatchAdmitted(read: Step, write: Step)
    requires read.key == "report" && read.dependsOn == ["update"] && read.risk == Read && read.input == Obj(Nil)
    requires write.key == "update" && write.dependsOn == [] && write.risk == Write && write.input == Obj(Nil)
    ensures Acceptable([read, write], {})
    ensures Constrain(AllWithReferences([read, write]), TurnDecision(QueryData, false)) == [read]
  {
    NoReferencesUnchanged(read);
    NoReferencesUnchanged(write);
    var batch := [read, write];
    assert AllWithReferences(batch) == batch;
    DependenciesFirst(read, write);
    QueryKeepsTheRead(read, write);
  }

  lemma DependenciesFirst(read: Step, write: Step)
    requires read.key == "report" && read.dependsOn == ["update"]
    requires write.key == "update" && write.dependsOn == []
    ensures Acyclic([read, write]) && KeySet([read, write]) == {"report", "update"}
  {
    var batch, order := [read, write], ["update", "report"];
    assert KeySet(batch) == {"report", "update"};
    assert order[..1] == ["update"];
    TopologicalIsAcyclic(batch, order);
  }

  lemma QueryKeepsTheRead(read: Step, write: Step)
    requires read.risk == Read && write.risk == Write
    ensures Constrain([read, write], TurnDecision(QueryData, false)) == [read]
  {
    assert [read, write][1..] == [write] && [write][1..] == [];
    assert Constrain([write], TurnDecision(QueryData, false)) == [];
  }

  lemma LaterBatchAdmitted(read: Step, later: Step)
    requires read.key == "report"
    requires later.key == "update" && later.dependsOn == ["report"] && later.input == Obj(Nil)
    ensures Acceptable([later], KeySet([read])) && AllWithReferences([later]) == [later]
  {
    NoReferencesUnchanged(later);
    var batch := [later];
    assert AllWithReferences(batch) == batch && KeySet(batch) == {"update"} && KeySet([read]) == {"report"};
    assert PartialOrder(batch, ["update"]);
    TopologicalIsAcyclic(batch, ["update"]);
  }

  lemma NoReferencesUnchanged(s: Step)
    requires s.input == Obj(Nil) && |s.dependsOn| <= 1
    ensures WithReferences(s) == s && Collect(s.input, 0) == Ok([])
  {
    assert Collect(s.input, 0) == Ok([]);
    assert s.dependsOn + [] == s.dependsOn;
    if |s.dependsOn| == 1 {
      assert s.dependsOn[..0] == [];
      assert Dedup(s.dependsOn) == [] + [s.dependsOn[0]] == s.dependsOn;
    }
  }
}
