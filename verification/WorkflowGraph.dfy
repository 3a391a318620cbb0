/** The dependency graph of a batch of steps and the depth-first check that admits it. */
module WorkflowGraph {
  import opened Prelude
  import opened Values
  import opened AgentTypes
  import opened References

  function KeySet(steps: seq<Step>): set<string> {
    set s | s in steps :: s.key
  }

  predicate DistinctKeys(steps: seq<Step>) {
    forall i, j :: 0 <= i < j < |steps| ==> steps[i].key != steps[j].key
  }

  // ---------- The dependency relation ----------

  /** Some step called `from` names `to` as a dependency. */
  predicate Edge(steps: seq<Step>, from: string, to: string) {
    exists s | s in steps :: s.key == from && to in s.dependsOn
  }

  predicate IsWalk(steps: seq<Step>, p: seq<string>) {
    forall i :: 0 <= i < |p| - 1 ==> Edge(steps, p[i], p[i + 1])
  }

  predicate IsCycle(steps: seq<Step>, p: seq<string>) {
    |p| >= 2 && IsWalk(steps, p) && p[0] == p[|p| - 1]
  }

  ghost predicate Acyclic(steps: seq<Step>) {
    forall p :: !IsCycle(steps, p)
  }

  /** Every listed key is a step whose dependencies inside the graph were all listed before it. */
  predicate PartialOrder(steps: seq<Step>, order: seq<string>) {
    && Distinct(order)
    && (forall key | key in order :: key in KeySet(steps))
    && forall i, s, d :: 0 <= i < |order| && s in steps && s.key == order[i] && d in s.dependsOn && d in KeySet(steps)
         ==> d in order[..i]
  }

  predicate TopologicalOrder(steps: seq<Step>, order: seq<string>) {
    PartialOrder(steps, order) && forall key | key in KeySet(steps) :: key in order
  }

  function Position(order: seq<string>, key: string): (i: nat)
    requires key in order
    ensures i < |order| && order[i] == key
  {
    if order[0] == key then 0 else 1 + Position(order[1..], key)
  }

  lemma EdgeDescends(steps: seq<Step>, order: seq<string>, from: string, to: string)
    requires TopologicalOrder(steps, order) && Edge(steps, from, to) && to in KeySet(steps)
    ensures from in order && to in order && Position(order, to) < Position(order, from)
  {
  }

  lemma {:induction false} WalkDescends(steps: seq<Step>, order: seq<string>, p: seq<string>, n: nat)
    requires TopologicalOrder(steps, order) && IsWalk(steps, p) && n < |p|
    requires forall key | key in p :: key in KeySet(steps)
    ensures p[0] in order && p[n] in order && Position(order, p[n]) + n <= Position(order, p[0])
  {
    if n > 0 {
      WalkDescends(steps, order, p, n - 1);
      assert Edge(steps, p[n - 1], p[n - 1 + 1]);
      EdgeDescends(steps, order, p[n - 1], p[n]);
    }
  }

  /** A graph that can be listed dependencies-first has no cycle. */
  lemma TopologicalIsAcyclic(steps: seq<Step>, order: seq<string>)
    requires TopologicalOrder(steps, order)
    ensures Acyclic(steps)
  {
    forall p
      ensures !IsCycle(steps, p)
    {
      if IsCycle(steps, p) {
        forall i | 0 <= i < |p|
          ensures p[i] in KeySet(steps)
        {
          var k := if i < |p| - 1 then i else 0;
          assert p[i] == p[k] && Edge(steps, p[k], p[k + 1]);
        }
        WalkDescends(steps, order, p, |p| - 1);
        assert false;
      }
    }
  }

  // ---------- What a batch must satisfy ----------

  datatype GraphError =
    | DuplicateKey(key: string)
    | InputTooDeep(key: string)
    | UnknownDependency(key: string, dependency: string)
    | SelfDependency(key: string)
    | CyclicDependency(key: string)

  /** The step with every reference of its input added to its dependencies. */
  function WithReferences(s: Step): Step {
    match Collect(s.input, 0)
    case Ok(references) => s.(dependsOn := Dedup(s.dependsOn + references))
    case Err(_) => s
  }

  function AllWithReferences(steps: seq<Step>): (r: seq<Step>)
    ensures |r| == |steps| && forall i | 0 <= i < |r| :: r[i] == WithReferences(steps[i])
    ensures KeySet(r) == KeySet(steps)
  {
    var r := seq(|steps|, i requires 0 <= i < |steps| => WithReferences(steps[i]));
    assert KeySet(r) == KeySet(steps) by {
      assert forall i | 0 <= i < |r| :: r[i].key == steps[i].key;
      forall key | key in KeySet(steps)
        ensures key in KeySet(r)
      {
        var i :| 0 <= i < |steps| && steps[i].key == key;
        assert r[i] in r;
      }
      forall key | key in KeySet(r)
        ensures key in KeySet(steps)
      {
        var i :| 0 <= i < |r| && r[i].key == key;
        assert steps[i] in steps;
      }
    }
    r
  }

  predicate FreshKeys(steps: seq<Step>, existing: set<string>) {
    DistinctKeys(steps) && forall s | s in steps :: s.key !in existing
  }

  predicate KnownDependencies(steps: seq<Step>, known: set<string>) {
    forall s, d | s in steps && d in s.dependsOn :: d in known
  }

  /** Keys are new and distinct, inputs not too deep, every dependency and reference known, and no cycle. */
  ghost predicate Acceptable(steps: seq<Step>, existing: set<string>) {
    && FreshKeys(steps, existing)
    && (forall s | s in steps :: Collect(s.input, 0).Ok?)
    && KnownDependencies(AllWithReferences(steps), existing + KeySet(steps))
    && Acyclic(AllWithReferences(steps))
  }

  /** The rejection names a violation that is really there. */
  ghost predicate Explains(e: GraphError, steps: seq<Step>, existing: set<string>) {
    match e
    case DuplicateKey(key) =>
      exists i :: 0 <= i < |steps| && steps[i].key == key && key in existing + KeySet(steps[..i])
    case InputTooDeep(key) =>
      exists s :: s in steps && s.key == key && Collect(s.input, 0).Err?
    case UnknownDependency(key, d) =>
      exists s :: s in AllWithReferences(steps) && s.key == key && d in s.dependsOn && d !in existing + KeySet(steps)
    case SelfDependency(key) =>
      exists s :: s in AllWithReferences(steps) && s.key == key && key in s.dependsOn
    case CyclicDependency(key) =>
      exists p :: IsCycle(AllWithReferences(steps), p) && key in p
  }

  // ---------- The depth-first search ----------

  class CycleSearch {
    const steps: seq<Step>
    var visiting: set<string>
    var visited: set<string>
    ghost var order: seq<string>  // visited keys, dependencies first

    ghost predicate Valid()
      reads this
    {
      && DistinctKeys(steps)
      && PartialOrder(steps, order)
      && visited == (set key | key in order)
      && visiting !! visited
      && visiting <= KeySet(steps)
    }

    constructor (steps: seq<Step>)
      requires DistinctKeys(steps)
      ensures this.steps == steps && Valid() && visiting == {} && order == []
    {
      this.steps := steps;
      visiting, visited, order := {}, {}, [];
    }

    /** The step registered under `key`, if any. */
    function ByKey(key: string): (found: Option<Step>)
      ensures found.Some? <==> key in KeySet(steps)
      ensures found.Some? ==> found.value in steps && found.value.key == key
    {
      FindStep(steps, key)
    }

    /** `trail` is the stack of keys being visited; the result is the key at which a cycle closed. */
    method Visit(key: string, ghost trail: seq<string>) returns (cycle: Option<string>)
      requires Valid()
      requires visiting == (set k | k in trail) && IsWalk(steps, trail + [key])
      modifies this
      ensures cycle.None? ==> Valid() && visiting == old(visiting) && old(order) <= order
      ensures cycle.None? && key in KeySet(steps) ==> key in visited
      ensures cycle.Some? ==> exists p :: IsCycle(steps, p) && cycle.value in p
      decreases KeySet(steps) - visiting
    {
      var step := ByKey(key);
      if key in visited || step.None? {
        return None;
      }
      if key in visiting {
        ghost var i :| 0 <= i < |trail| && trail[i] == key;
        TrailCloses(steps, trail, key, i);
        return Some(key);
      }
      visiting := visiting + {key};
      var dependencies := step.value.dependsOn;
      for i := 0 to |dependencies|
        invariant Valid() && visiting == old(visiting) + {key} && old(order) <= order
        invariant forall d | d in dependencies[..i] :: d in KeySet(steps) ==> d in visited
      {
        var d := dependencies[i];
        TrailExtends(steps, trail, key, d);
        cycle := Visit(d, trail + [key]);
        if cycle.Some? {
          return;
        }
        assert dependencies[..i + 1] == dependencies[..i] + [d];
      }
      assert dependencies[..|dependencies|] == dependencies;
      visiting := visiting - {key};
      visited := visited + {key};
      OrderGrows(steps, order, step.value);
      order := order + [key];
      return None;
    }
  }

  lemma TrailCloses(steps: seq<Step>, trail: seq<string>, key: string, i: nat)
    requires i < |trail| && trail[i] == key && IsWalk(steps, trail + [key])
    ensures IsCycle(steps, trail[i..] + [key]) && key in trail[i..] + [key]
  {
    var walk, p := trail + [key], trail[i..] + [key];
    assert p == walk[i..];
    forall j | 0 <= j < |p| - 1
      ensures Edge(steps, p[j], p[j + 1])
    {
      assert p[j] == walk[i + j] && p[j + 1] == walk[i + j + 1];
    }
    assert p[0] == trail[i] && p[|p| - 1] == key;
  }

  lemma TrailExtends(steps: seq<Step>, trail: seq<string>, key: string, d: string)
    requires IsWalk(steps, trail + [key]) && Edge(steps, key, d)
    ensures IsWalk(steps, trail + [key] + [d])
  {
  }

  lemma OrderGrows(steps: seq<Step>, order: seq<string>, s: Step)
    requires DistinctKeys(steps) && PartialOrder(steps, order) && s in steps && s.key !in order
    requires forall d | d in s.dependsOn && d in KeySet(steps) :: d in order
    ensures PartialOrder(steps, order + [s.key])
  {
    var longer := order + [s.key];
    forall i, t, d | 0 <= i < |longer| && t in steps && t.key == longer[i] && d in t.dependsOn && d in KeySet(steps)
      ensures d in longer[..i]
    {
      if i < |order| {
        assert longer[..i] == order[..i];
      } else {
        assert t == s && longer[..i] == order;
      }
    }
  }

  // ---------- The three passes of the check ----------

  method CheckFreshKeys(steps: seq<Step>, existing: set<string>) returns (duplicate: Option<string>)
    ensures duplicate.None? <==> FreshKeys(steps, existing)
    ensures duplicate.Some? ==> Explains(DuplicateKey(duplicate.value), steps, existing)
  {
    var known := existing;
    for i := 0 to |steps|
      invariant known == existing + KeySet(steps[..i])
      invariant FreshKeys(steps[..i], existing)
    {
      assert steps[..i + 1] == steps[..i] + [steps[i]];
      if steps[i].key in known {
        RepeatedKey(steps, existing, i);
        return Some(steps[i].key);
      }
      known := known + {steps[i].key};
    }
    assert steps[..|steps|] == steps;
    return None;
  }

  lemma RepeatedKey(steps: seq<Step>, existing: set<string>, i: nat)
    requires i < |steps| && steps[i].key in existing + KeySet(steps[..i])
    ensures !FreshKeys(steps, existing)
  {
  }

  method AddReferences(steps: seq<Step>, known: set<string>) returns (r: Result<seq<Step>, GraphError>)
    requires KeySet(steps) <= known
    ensures r.Ok? ==> r.value == AllWithReferences(steps)
    ensures r.Ok? ==> forall s | s in steps :: Collect(s.input, 0).Ok?
    ensures r.Ok? ==> KnownDependencies(r.value, known) && forall s | s in r.value :: s.key !in s.dependsOn
    ensures r.Err? ==>
      match r.error
      case InputTooDeep(key) => exists s :: s in steps && s.key == key && Collect(s.input, 0).Err?
      case UnknownDependency(key, d) =>
        exists s :: s in AllWithReferences(steps) && s.key == key && d in s.dependsOn && d !in known
      case SelfDependency(key) => exists s :: s in AllWithReferences(steps) && s.key == key && key in s.dependsOn
      case _ => false
  {
    var updated: seq<Step> := [];
    for i := 0 to |steps|
      invariant |updated| == i && updated == AllWithReferences(steps)[..i]
      invariant forall s | s in steps[..i] :: Collect(s.input, 0).Ok?
      invariant KnownDependencies(updated, known)
      invariant forall s | s in updated :: s.key !in s.dependsOn
    {
      var step := steps[i];
      assert steps[..i + 1] == steps[..i] + [step];
      var references := Collect(step.input, 0);
      if references.Err? {
        return Err(InputTooDeep(step.key));
      }
      var dependencies := Dedup(step.dependsOn + references.value);
      ghost var whole := AllWithReferences(steps)[i];
      assert whole == step.(dependsOn := dependencies) && whole in AllWithReferences(steps);
      if exists d | d in dependencies :: d !in known {
        var first := FirstUnknown(dependencies, known);
        return Err(UnknownDependency(step.key, first));
      }
      if step.key in dependencies {
        return Err(SelfDependency(step.key));
      }
      updated := updated + [step.(dependsOn := dependencies)];
    }
    assert steps[..|steps|] == steps;
    return Ok(updated);
  }

  function FirstUnknown(keys: seq<string>, known: set<string>): (d: string)
    requires exists k | k in keys :: k !in known
    ensures d in keys && d !in known
  {
    if keys[0] !in known then keys[0] else FirstUnknown(keys[1..], known)
  }

  /** `validateAgentWorkflowGraph`: accepts exactly the acceptable batches and explains every rejection. */
  method Validate(steps: seq<Step>, existing: set<string>) returns (r: Result<seq<Step>, GraphError>)
    ensures r.Ok? <==> Acceptable(steps, existing)
    ensures r.Ok? ==> r.value == AllWithReferences(steps) && exists order :: TopologicalOrder(r.value, order)
    ensures r.Err? ==> Explains(r.error, steps, existing)
  {
    var duplicate := CheckFreshKeys(steps, existing);
    if duplicate.Some? {
      return Err(DuplicateKey(duplicate.value));
    }
    r := AddReferences(steps, existing + KeySet(steps));
    if r.Err? {
      SelfDependencyIsACycle(AllWithReferences(steps));
      return;
    }
    var updated := r.value;
    var search := new CycleSearch(updated);
    for i := 0 to |updated|
      invariant search.Valid() && search.visiting == {}
      invariant forall s | s in updated[..i] :: s.key in search.visited
    {
      assert updated[..i + 1] == updated[..i] + [updated[i]];
      var cycle := search.Visit(updated[i].key, []);
      if cycle.Some? {
        return Err(CyclicDependency(cycle.value));
      }
    }
    assert updated[..|updated|] == updated;
    TopologicalIsAcyclic(updated, search.order);
  }

  lemma SelfDependencyIsACycle(steps: seq<Step>)
    ensures Acyclic(steps) ==> forall s | s in steps :: s.key !in s.dependsOn
  {
    forall s | s in steps && s.key in s.dependsOn
      ensures !Acyclic(steps)
    {
      assert Edge(steps, s.key, s.key);
      assert IsCycle(steps, [s.key, s.key]);
    }
  }
}
