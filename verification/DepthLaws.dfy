/** How deep an input nests, and when filling in its references makes it nest too deeply to be looked at again. */
module DepthLaws {
  import opened Prelude
  import opened Values
  import opened AgentTypes
  import opened References
  import opened ReferenceLaws
  import opened Planning
  import opened Runs

  function Max(a: nat, b: nat): nat { if a < b then b else a }

  // ---------- Height ----------

  /** How many lists and objects lie around the innermost value. */
  function Height(v: Value): nat {
    match v
    case Arr(items) => HeightItems(items)
    case Obj(members) => HeightMembers(members)
    case _ => 0
  }

  function HeightItems(items: List<Value>): nat {
    match items
    case Nil => 0
    case Cons(v, rest) => Max(1 + Height(v), HeightItems(rest))
  }

  function HeightMembers(members: List<Member>): nat {
    match members
    case Nil => 0
    case Cons(m, rest) => Max(1 + Height(m.value), HeightMembers(rest))
  }

  /** Looking for references fails exactly when the value nests deeper than allowed. */
  lemma {:induction false} CollectsIff(v: Value, depth: nat)
    ensures Collect(v, depth).Ok? <==> depth + Height(v) <= MAX_DEPTH
    decreases v
  {
    match v
    case Arr(items) => if depth <= MAX_DEPTH { CollectsItemsIff(items, depth); }
    case Obj(members) => if depth <= MAX_DEPTH { CollectsMembersIff(members, depth); }
    case _ =>
  }

  lemma {:induction false} CollectsItemsIff(items: List<Value>, depth: nat)
    requires depth <= MAX_DEPTH
    ensures CollectItems(items, depth + 1).Ok? <==> depth + HeightItems(items) <= MAX_DEPTH
    decreases items
  {
    match items
    case Nil =>
    case Cons(v, rest) =>
      CollectsIff(v, depth + 1);
      CollectsItemsIff(rest, depth);
  }

  lemma {:induction false} CollectsMembersIff(members: List<Member>, depth: nat)
    requires depth <= MAX_DEPTH
    ensures CollectMembers(members, depth + 1).Ok? <==> depth + HeightMembers(members) <= MAX_DEPTH
    decreases members
  {
    match members
    case Nil =>
    case Cons(m, rest) =>
      CollectsIff(m.value, depth + 1);
      CollectsMembersIff(rest, depth);
  }

  // ---------- Holes that take a whole value ----------

  predicate IsWholeReference(s: string) { |Refs(Parse(s))| == 1 && RefText(Refs(Parse(s))[0]) == s }

  /** A reference that is a whole string of the input, and how deep it stands. */
  datatype Place = Place(depth: nat, ref: Ref)

  function Places(v: Value, depth: nat): set<Place> {
    match v
    case Str(s) => if IsWholeReference(s) then {Place(depth, Refs(Parse(s))[0])} else {}
    case Arr(items) => PlacesOfItems(items, depth + 1)
    case Obj(members) => PlacesOfMembers(members, depth + 1)
    case _ => {}
  }

  function PlacesOfItems(items: List<Value>, depth: nat): set<Place> {
    match items
    case Nil => {}
    case Cons(v, rest) => Places(v, depth) + PlacesOfItems(rest, depth)
  }

  function PlacesOfMembers(members: List<Member>, depth: nat): set<Place> {
    match members
    case Nil => {}
    case Cons(m, rest) => Places(m.value, depth) + PlacesOfMembers(rest, depth)
  }

  /** The value put at this place nests deeper than the place leaves room for. */
  predicate Overfills(p: Place, steps: seq<Step>) {
    ResolveRef(p.ref, steps).Ok? && p.depth + Height(ResolveRef(p.ref, steps).value) > MAX_DEPTH
  }

  predicate AnyOverfills(places: set<Place>, steps: seq<Step>) { exists p | p in places :: Overfills(p, steps) }

  lemma AnyOverfillsUnion(a: set<Place>, b: set<Place>, steps: seq<Step>)
    ensures AnyOverfills(a + b, steps) <==> AnyOverfills(a, steps) || AnyOverfills(b, steps)
  {
  }

  /**
   The depth of the template is bounded when it is filled in, the depth of what is put into it is not:
   the filled-in input nests too deeply exactly when a whole-string reference stands so deep that the
   value put there reaches below the bound.
   */
  lemma {:induction false} FilledTooDeepIff(v: Value, steps: seq<Step>, depth: nat)
    requires Resolve(v, steps, depth).Ok?
    ensures Collect(Resolve(v, steps, depth).value, depth).Err? <==> AnyOverfills(Places(v, depth), steps)
    decreases v
  {
    var filled := Resolve(v, steps, depth).value;
    CollectsIff(filled, depth);
    match v
    case Str(s) => StringTooDeepIff(s, steps, depth);
    case Arr(items) =>
      FilledItemsTooDeepIff(items, steps, depth);
      CollectsItemsIff(filled.items, depth);
    case Obj(members) =>
      FilledMembersTooDeepIff(members, steps, depth);
      CollectsMembersIff(filled.members, depth);
    case _ =>
  }

  lemma StringTooDeepIff(s: string, steps: seq<Step>, depth: nat)
    requires depth <= MAX_DEPTH && ResolveString(s, steps).Ok?
    ensures depth + Height(ResolveString(s, steps).value) > MAX_DEPTH <==> AnyOverfills(Places(Str(s), depth), steps)
  {
    hide Parse, SubstituteInOrder, ResolveRef, RefText;
    if IsWholeReference(s) {
      assert Places(Str(s), depth) == {Place(depth, Refs(Parse(s))[0])};
      assert Place(depth, Refs(Parse(s))[0]) in Places(Str(s), depth);
      assert ResolveString(s, steps) == ResolveRef(Refs(Parse(s))[0], steps);
    }
  }

  lemma {:induction false} FilledItemsTooDeepIff(items: List<Value>, steps: seq<Step>, depth: nat)
    requires depth <= MAX_DEPTH && ResolveItems(items, steps, depth + 1).Ok?
    ensures CollectItems(ResolveItems(items, steps, depth + 1).value, depth + 1).Err?
       <==> AnyOverfills(PlacesOfItems(items, depth + 1), steps)
    decreases items
  {
    hide AnyOverfills;
    match items
    case Nil => NothingOverfills(steps);
    case Cons(v, rest) =>
      FilledTooDeepIff(v, steps, depth + 1);
      FilledItemsTooDeepIff(rest, steps, depth);
      AnyOverfillsUnion(Places(v, depth + 1), PlacesOfItems(rest, depth + 1), steps);
  }

  lemma {:induction false} FilledMembersTooDeepIff(members: List<Member>, steps: seq<Step>, depth: nat)
    requires depth <= MAX_DEPTH && ResolveMembers(members, steps, depth + 1).Ok?
    ensures CollectMembers(ResolveMembers(members, steps, depth + 1).value, depth + 1).Err?
       <==> AnyOverfills(PlacesOfMembers(members, depth + 1), steps)
    decreases members
  {
    hide AnyOverfills;
    match members
    case Nil => NothingOverfills(steps);
    case Cons(m, rest) =>
      FilledTooDeepIff(m.value, steps, depth + 1);
      FilledMembersTooDeepIff(rest, steps, depth);
      AnyOverfillsUnion(Places(m.value, depth + 1), PlacesOfMembers(rest, depth + 1), steps);
  }

  lemma NothingOverfills(steps: seq<Step>)
    ensures !AnyOverfills({}, steps)
  {
  }

  // ---------- What one preparation does to a run ----------

  /** Filling in the step's input succeeds and leaves it nested too deeply. */
  predicate FillsTooDeep(s: Step, steps: seq<Step>) {
    Resolve(s.input, steps, 0).Ok? && AnyOverfills(Places(s.input, 0), steps)
  }

  /**
   A preparation that goes through makes the next one throw exactly when it fills a whole-string
   reference of some step with a value that nests deeper than the place of the reference leaves room for.
   */
  lemma PreparationDeepensIff(run: Run, user: Actor, stamps: Stamps)
    requires !PreparationThrows(run)
    ensures PreparationThrows(Prepare(run, user, stamps))
       <==> exists s | s in run.steps :: NeedsPreparation(s, run.steps) && FillsTooDeep(s, run.steps)
  {
    hide NeedsPreparation, FillsTooDeep, ThrowsOn, Prepare;
    var now := Prepare(run, user, stamps);
    if PreparationThrows(now) {
      var t :| t in now.steps && ThrowsOn(t, now.steps);
      var i :| 0 <= i < |now.steps| && now.steps[i] == t;
      PreparedThrowsIff(run, now, i, user, stamps);
      assert run.steps[i] in run.steps;
    }
    if s :| s in run.steps && NeedsPreparation(s, run.steps) && FillsTooDeep(s, run.steps) {
      var i :| 0 <= i < |run.steps| && run.steps[i] == s;
      PreparedThrowsIff(run, now, i, user, stamps);
      assert now.steps[i] in now.steps;
    }
  }

  lemma PreparedThrowsIff(run: Run, now: Run, i: nat, user: Actor, stamps: Stamps)
    requires !PreparationThrows(run) && i < |run.steps| && now == Prepare(run, user, stamps)
    ensures ThrowsOn(now.steps[i], now.steps) <==> NeedsPreparation(run.steps[i], run.steps) && FillsTooDeep(run.steps[i], run.steps)
  {
    hide Prepare, Collect, Resolve, Places, AnyOverfills, RequiresSecondaryConfirmation;
    var s := run.steps[i];
    assert s in run.steps && now.steps[i] == PreparedStep(s, run, user);
    PreparedSameDependencies(run, user, stamps, now.steps[i]);
    if NeedsPreparation(s, run.steps) && Resolve(s.input, run.steps, 0).Ok? {
      FilledTooDeepIff(s.input, run.steps, 0);
      assert now.steps[i].dependsOn == s.dependsOn && now.steps[i].status == s.status;
      assert DependenciesSatisfied(s, run.steps) == DependenciesSatisfied(now.steps[i], run.steps);
    }
  }

  lemma PreparedSameDependencies(run: Run, user: Actor, stamps: Stamps, s: Step)
    ensures var now := Prepare(run, user, stamps);
      DependenciesSatisfied(s, now.steps) <==> DependenciesSatisfied(s, run.steps)
  {
    var now := Prepare(run, user, stamps);
    PreparedPrefixSameDone(run, |run.steps|, user, stamps);
    SameDoneIsSymmetric(run.steps, now.steps);
    SameDoneSameDependencies(s, run.steps, now.steps);
    SameDoneSameDependencies(s, now.steps, run.steps);
  }

  // ---------- Values of any height ----------

  /** A value inside `n` lists. */
  function Nested(n: nat): (v: Value)
    ensures v != Undefined && !v.Str?
  {
    if n == 0 then Null else Arr(Cons(Nested(n - 1), Nil))
  }

  lemma {:induction false} NestedHeight(n: nat)
    ensures Height(Nested(n)) == n
  {
    if n > 0 {
      NestedHeight(n - 1);
      assert HeightItems(Nil) == 0;
    }
  }
}
