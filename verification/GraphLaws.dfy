/** What admitting batches does to the dependency graph of a whole run. */
module GraphLaws {
  import opened Prelude
  import opened Values
  import opened AgentTypes
  import opened References
  import opened WorkflowGraph

  // ---------- Acyclic graphs can be listed dependencies-first ----------

  predicate AllOrdered(steps: seq<Step>, order: seq<string>, key: string) {
    forall s, d | s in steps && s.key == key && d in s.dependsOn && d in KeySet(steps) :: d in order
  }

  /** Following unlisted dependencies from any unlisted key ends at one whose dependencies are all listed. */
  lemma {:induction false} NextInOrder(steps: seq<Step>, order: seq<string>, trail: seq<string>, key: string)
    returns (next: string)
    requires Acyclic(steps) && IsWalk(steps, trail + [key]) && key in KeySet(steps) && key !in order
    requires forall k | k in trail :: k in KeySet(steps)
    ensures next in KeySet(steps) && next !in order && AllOrdered(steps, order, next)
    decreases KeySet(steps) - (set k | k in trail)
  {
    if AllOrdered(steps, order, key) {
      next := key;
    } else {
      var s, d :| s in steps && s.key == key && d in s.dependsOn && d in KeySet(steps) && d !in order;
      TrailExtends(steps, trail, key, d);
      if key in trail {
        var i :| 0 <= i < |trail| && trail[i] == key;
        TrailCloses(steps, trail, key, i);
        assert false;
      }
      assert (set k | k in trail + [key]) == (set k | k in trail) + {key};
      next := NextInOrder(steps, order, trail + [key], d);
    }
  }

  lemma {:induction false} CompleteOrder(steps: seq<Step>, order: seq<string>) returns (full: seq<string>)
    requires DistinctKeys(steps) && Acyclic(steps) && PartialOrder(steps, order)
    ensures TopologicalOrder(steps, full)
    decreases KeySet(steps) - (set k | k in order)
  {
    if key :| key in KeySet(steps) && key !in order {
      var next := NextInOrder(steps, order, [], key);
      var s :| s in steps && s.key == next;
      OrderGrows(steps, order, s);
      assert (set k | k in order + [next]) == (set k | k in order) + {next};
      full := CompleteOrder(steps, order + [next]);
    } else {
      full := order;
    }
  }

  /** Acyclic means exactly: the keys can be listed so that dependencies come first. */
  lemma AcyclicIffOrdered(steps: seq<Step>)
    requires DistinctKeys(steps)
    ensures Acyclic(steps) <==> exists order :: TopologicalOrder(steps, order)
  {
    if Acyclic(steps) {
      var order := CompleteOrder(steps, []);
    }
    if order :| TopologicalOrder(steps, order) {
      TopologicalIsAcyclic(steps, order);
    }
  }

  // ---------- The graph of a run ----------

  /** Keys are unique, every dependency is a step of the run, and there is no cycle. */
  ghost predicate SoundGraph(steps: seq<Step>) {
    DistinctKeys(steps) && KnownDependencies(steps, KeySet(steps)) && Acyclic(steps)
  }

  /** `kept` is an ordered selection of the steps of `batch`. */
  predicate IsSelection(kept: seq<Step>, batch: seq<Step>) {
    && (forall s | s in kept :: s in batch)
    && DistinctKeys(kept)
  }

  lemma WalkInLarger(small: seq<Step>, large: seq<Step>, p: seq<string>)
    requires forall s | s in small :: s in large
    requires IsCycle(small, p)
    ensures IsCycle(large, p)
  {
  }

  lemma KeySetOfConcat(a: seq<Step>, b: seq<Step>)
    ensures KeySet(a + b) == KeySet(a) + KeySet(b)
  {
  }

  lemma DistinctKeysOfConcat(a: seq<Step>, b: seq<Step>)
    requires DistinctKeys(a) && DistinctKeys(b) && KeySet(a) !! KeySet(b)
    ensures DistinctKeys(a + b)
  {
    var c := a + b;
    forall i, j | 0 <= i < j < |c|
      ensures c[i].key != c[j].key
    {
      if j < |a| {
        assert c[i] == a[i] && c[j] == a[j];
      } else if i >= |a| {
        assert c[i] == b[i - |a|] && c[j] == b[j - |a|];
      } else {
        assert a[i] in a && b[j - |a|] in b;
        assert a[i].key in KeySet(a) && b[j - |a|].key in KeySet(b);
      }
    }
  }

  /** Once inside the run's own steps, a walk stays there: the run never depends on what is appended later. */
  lemma {:induction false} WalkStaysInRun(run: seq<Step>, more: seq<Step>, p: seq<string>, i: nat, j: nat)
    requires KnownDependencies(run, KeySet(run)) && KeySet(run) !! KeySet(more)
    requires IsWalk(run + more, p) && i <= j < |p| && p[i] in KeySet(run)
    ensures p[j] in KeySet(run)
    decreases j
  {
    if i < j {
      WalkStaysInRun(run, more, p, i, j - 1);
      assert Edge(run + more, p[j - 1], p[j - 1 + 1]);
      var s :| s in run + more && s.key == p[j - 1] && p[j] in s.dependsOn;
    }
  }

  /**
   Appending to a sound run a selection of an admitted batch never closes a cycle, as long as the
   run itself has no dangling dependency.
   */
  lemma AppendStaysAcyclic(run: seq<Step>, kept: seq<Step>)
    requires SoundGraph(run) && DistinctKeys(kept) && KeySet(run) !! KeySet(kept) && Acyclic(kept)
    ensures DistinctKeys(run + kept) && Acyclic(run + kept)
  {
    KeySetOfConcat(run, kept);
    DistinctKeysOfConcat(run, kept);
    forall p
      ensures !IsCycle(run + kept, p)
    {
      if IsCycle(run + kept, p) {
        CycleIsOnOneSide(run, kept, p);
      }
    }
  }

  lemma CycleIsOnOneSide(run: seq<Step>, kept: seq<Step>, p: seq<string>)
    requires KnownDependencies(run, KeySet(run)) && KeySet(run) !! KeySet(kept)
    requires IsCycle(run + kept, p)
    ensures IsCycle(run, p) || IsCycle(kept, p)
  {
    if p[0] in KeySet(run) {
      forall i | 0 <= i < |p| - 1
        ensures Edge(run, p[i], p[i + 1])
      {
        WalkStaysInRun(run, kept, p, 0, i);
        assert Edge(run + kept, p[i], p[i + 1]);
      }
    } else {
      forall i | 0 <= i < |p| - 1
        ensures Edge(kept, p[i], p[i + 1])
      {
        if p[i] in KeySet(run) {
          WalkStaysInRun(run, kept, p, i, |p| - 1);
          assert false;
        }
        assert Edge(run + kept, p[i], p[i + 1]);
      }
    }
  }

  /**
   The run stays sound exactly when the selection kept every dependency its steps name. A whole
   admitted batch always does; a filter applied after admission need not.
   */
  lemma AppendKeepsSoundIff(run: seq<Step>, batch: seq<Step>, kept: seq<Step>)
    requires SoundGraph(run) && Acceptable(batch, KeySet(run)) && IsSelection(kept, AllWithReferences(batch))
    ensures SoundGraph(run + kept) <==> KnownDependencies(kept, KeySet(run) + KeySet(kept))
  {
    KeySetOfConcat(run, kept);
    var all := AllWithReferences(batch);
    assert KeySet(kept) <= KeySet(all);
    forall p
      ensures !IsCycle(kept, p)
    {
      if IsCycle(kept, p) {
        WalkInLarger(kept, all, p);
        assert false;
      }
    }
    AppendStaysAcyclic(run, kept);
    if SoundGraph(run + kept) {
      forall s, d | s in kept && d in s.dependsOn
        ensures d in KeySet(run) + KeySet(kept)
      {
        assert s in run + kept;
      }
    }
  }

  /** The graph depends on keys and dependencies only. */
  lemma SameNamesSameGraph(a: seq<Step>, b: seq<Step>)
    requires |a| == |b| && forall i | 0 <= i < |a| :: b[i].key == a[i].key && b[i].dependsOn == a[i].dependsOn
    ensures SoundGraph(a) ==> SoundGraph(b)
  {
    if SoundGraph(a) {
      forall p
        ensures !IsCycle(b, p)
      {
        if IsCycle(b, p) {
          forall i | 0 <= i < |p| - 1
            ensures Edge(a, p[i], p[i + 1])
          {
            assert Edge(b, p[i], p[i + 1]);
            SameEdge(b, a, p[i], p[i + 1]);
          }
          assert IsCycle(a, p);
        }
      }
      SameKnown(a, b);
    }
  }

  lemma SameEdge(a: seq<Step>, b: seq<Step>, from: string, to: string)
    requires |a| == |b| && forall i | 0 <= i < |a| :: b[i].key == a[i].key && b[i].dependsOn == a[i].dependsOn
    requires Edge(a, from, to)
    ensures Edge(b, from, to)
  {
  }

  lemma SameKnown(a: seq<Step>, b: seq<Step>)
    requires |a| == |b| && forall i | 0 <= i < |a| :: b[i].key == a[i].key && b[i].dependsOn == a[i].dependsOn
    requires DistinctKeys(a) && KnownDependencies(a, KeySet(a))
    ensures DistinctKeys(b) && KnownDependencies(b, KeySet(b))
  {
    forall s, d | s in b && d in s.dependsOn
      ensures d in KeySet(b)
    {
      var i :| 0 <= i < |b| && b[i] == s;
      assert a[i] in a && d in KeySet(a);
      var t :| t in a && t.key == d;
      var j :| 0 <= j < |a| && a[j] == t;
      assert b[j] in b;
    }
  }

  /** Appending a whole admitted batch keeps the run sound. */
  lemma AppendWholeBatch(run: seq<Step>, batch: seq<Step>)
    requires SoundGraph(run) && Acceptable(batch, KeySet(run))
    ensures SoundGraph(run + AllWithReferences(batch))
  {
    var all := AllWithReferences(batch);
    assert DistinctKeys(all);
    AppendKeepsSoundIff(run, batch, all);
  }
}
