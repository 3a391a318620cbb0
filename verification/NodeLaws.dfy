/** A mission with a sound graph is never stuck, and failure propagation skips exactly what cannot run. */
module NodeLaws {
  import opened Prelude
  import opened Values
  import opened AgentTypes
  import opened WorkflowGraph
  import opened GraphLaws
  import opened Planning
  import opened Runs

  // ---------- Ancestors ----------

  /** Each step of the path depends on the next. */
  predicate DependencyPath(steps: seq<Step>, p: seq<Step>) {
    && (forall s | s in p :: s in steps)
    && forall i :: 0 <= i < |p| - 1 ==> p[i + 1].key in p[i].dependsOn
  }

  predicate IsBlocked(status: StepStatus) { status == Failed || status == Skipped }

  ghost predicate HasBlockedAncestor(steps: seq<Step>, s: Step) {
    exists p: seq<Step> :: DependencyPath(steps, p) && |p| >= 2 && p[0] == s && IsBlocked(p[|p| - 1].status)
  }

  /** Every dependency of a finished or running step is finished. */
  predicate DoneClosed(steps: seq<Step>) {
    forall s | s in steps && (s.status == Done || s.status == Running) :: DependenciesSatisfied(s, steps)
  }

  lemma BlockedThrough(steps: seq<Step>, s: Step, t: Step)
    requires s in steps && t in steps && t.key in s.dependsOn
    ensures IsBlocked(t.status) || HasBlockedAncestor(steps, t) ==> HasBlockedAncestor(steps, s)
  {
    if IsBlocked(t.status) {
      assert DependencyPath(steps, [s, t]);
    } else if HasBlockedAncestor(steps, t) {
      var p: seq<Step> :| DependencyPath(steps, p) && |p| >= 2 && p[0] == t && IsBlocked(p[|p| - 1].status);
      var q := [s] + p;
      assert q[|q| - 1] == p[|p| - 1];
      assert forall i :: 0 <= i < |q| - 1 ==> q[i + 1] == p[i] && (i > 0 ==> q[i] == p[i - 1]);
      assert DependencyPath(steps, q);
    }
  }

  /** What is finished rests only on what is finished. */
  lemma {:induction false} DonePath(steps: seq<Step>, p: seq<Step>, n: nat)
    requires DistinctKeys(steps) && DoneClosed(steps) && DependencyPath(steps, p) && n < |p|
    requires DependenciesSatisfied(p[0], steps)
    ensures n > 0 ==> p[n].status == Done
  {
    if n > 0 {
      DonePath(steps, p, n - 1);
      assert p[n - 1 + 1].key in p[n - 1].dependsOn;
      assert p[n - 1] in steps && DependenciesSatisfied(p[n - 1], steps);
      var t :| t in steps && t.key == p[n].key && t.status == Done;
      SameKeySameStep(steps, t, p[n]);
    }
  }

  // ---------- No stuck mission ----------

  predicate Waiting(s: Step) { IsActive(s.status) || s.status == Running }

  predicate CanMove(s: Step, steps: seq<Step>) {
    s.status == Running || (IsActive(s.status) && DependenciesSatisfied(s, steps))
  }

  /** Below every waiting step without a failed or skipped ancestor there is one that can move now. */
  lemma {:induction false} SomeStepCanMove(steps: seq<Step>, order: seq<string>, s: Step) returns (t: Step)
    requires KnownDependencies(steps, KeySet(steps)) && TopologicalOrder(steps, order)
    requires s in steps && Waiting(s) && !HasBlockedAncestor(steps, s)
    ensures t in steps && CanMove(t, steps)
    decreases if s.key in order then Position(order, s.key) else 0
  {
    if CanMove(s, steps) {
      t := s;
    } else {
      var key :| key in s.dependsOn && !exists u | u in steps :: u.key == key && u.status == Done;
      assert key in KeySet(steps);
      var d :| d in steps && d.key == key;
      BlockedThrough(steps, s, d);
      EdgeDescends(steps, order, s.key, key);
      t := SomeStepCanMove(steps, order, d);
    }
  }

  predicate Undisturbed(run: Run) {
    && run.status !in {Paused, Completed, RunStatus.Cancelled}
    && !StartsWith(run.stopReason, TIMER_MARK)
    && PendingSteer(run.events).None?
  }

  /** While some waiting step has no failed ancestor, the next node executes or asks for approval. */
  lemma NeverStuck(run: Run, s: Step)
    requires SoundGraph(run.steps) && Undisturbed(run)
    requires s in run.steps && Waiting(s) && !HasBlockedAncestor(run.steps, s)
    ensures NodeOf(run) == ExecuteNode || NodeOf(run) == ApprovalNode
  {
    AcyclicIffOrdered(run.steps);
    var order :| TopologicalOrder(run.steps, order);
    var t := SomeStepCanMove(run.steps, order, s);
  }

  /** Evaluation is reached exactly when everything still waiting has a failed or skipped ancestor. */
  lemma EvaluateIffAllBlocked(run: Run)
    requires SoundGraph(run.steps) && Undisturbed(run) && DoneClosed(run.steps)
    ensures NodeOf(run) == EvaluateNode
       <==> !AnyRunning(run.steps) && forall s | s in run.steps && IsActive(s.status) :: HasBlockedAncestor(run.steps, s)
  {
    if NodeOf(run) == EvaluateNode {
      forall s | s in run.steps && IsActive(s.status)
        ensures HasBlockedAncestor(run.steps, s)
      {
        if !HasBlockedAncestor(run.steps, s) {
          NeverStuck(run, s);
        }
      }
    }
    forall s | s in run.steps && IsActive(s.status) && DependenciesSatisfied(s, run.steps)
      ensures !HasBlockedAncestor(run.steps, s)
    {
      forall p: seq<Step> | DependencyPath(run.steps, p) && |p| >= 2 && p[0] == s
        ensures !IsBlocked(p[|p| - 1].status)
      {
        DonePath(run.steps, p, |p| - 1);
      }
    }
  }

  /** Without the sound graph the engine can be stuck: a step waiting for a key that is not in the run. */
  lemma DanglingDependencyIsStuck(run: Run, s: Step, missing: string)
    requires Undisturbed(run) && run.steps == [s] && s.status == Ready
    requires missing in s.dependsOn && missing != s.key && "" !in s.dependsOn && s.key !in s.dependsOn
    ensures NodeOf(run) == EvaluateNode && !HasBlockedAncestor(run.steps, s) && DependencyFailure(s, run.steps) == ""
  {
    assert forall t | t in run.steps :: t == s;
    assert !DependenciesSatisfied(s, run.steps);
    LonePath(s);
    FirstBlockingExact(s.dependsOn, run.steps);
  }

  lemma LonePath(s: Step)
    requires s.key !in s.dependsOn
    ensures !HasBlockedAncestor([s], s)
  {
    forall p: seq<Step> {
      PathOfOne(s, p);
    }
  }

  lemma PathOfOne(s: Step, p: seq<Step>)
    ensures DependencyPath([s], p) && |p| >= 2 ==> s.key in s.dependsOn
  {
    if DependencyPath([s], p) && |p| >= 2 {
      assert p[0] in p && p[1] in p;
      assert p[0] == s && p[1] == s && p[0 + 1].key in p[0].dependsOn;
    }
  }

  // ---------- Failure propagation ----------

  predicate NamedDependencies(steps: seq<Step>) {
    forall s | s in steps :: "" !in s.dependsOn
  }

  lemma {:induction false} FirstBlockingExact(keys: seq<string>, steps: seq<Step>)
    requires "" !in keys
    ensures FirstBlocking(keys, steps) == "" <==> forall key | key in keys :: !Blocks(key, steps)
    ensures FirstBlocking(keys, steps) != "" ==> FirstBlocking(keys, steps) in keys && Blocks(FirstBlocking(keys, steps), steps)
  {
    hide Blocks;
    if keys != [] {
      FirstBlockingExact(keys[1..], steps);
      assert keys == [keys[0]] + keys[1..] && keys[0] in keys;
    }
  }

  /** A step the pass left alone or skipped; nothing else about it changed. */
  predicate LeftOrSkipped(was: Step, now: Step) {
    now == was || (IsActive(was.status) && now.status == Skipped && now.key == was.key && now.dependsOn == was.dependsOn)
  }

  predicate AllLeftOrSkipped(was: seq<Step>, now: seq<Step>) {
    |was| == |now| && forall i | 0 <= i < |was| :: LeftOrSkipped(was[i], now[i])
  }

  /** Whatever the pass changed had a failed or skipped ancestor. */
  ghost predicate SkippedOnlyBlocked(was: seq<Step>, now: seq<Step>) {
    && AllLeftOrSkipped(was, now)
    && forall i | 0 <= i < |was| && was[i] != now[i] :: HasBlockedAncestor(was, was[i])
  }

  lemma BlockingWasBlocked(was: seq<Step>, now: seq<Step>, s: Step, key: string)
    requires SkippedOnlyBlocked(was, now) && s in was && key in s.dependsOn && Blocks(key, now)
    ensures HasBlockedAncestor(was, s)
  {
    var t :| t in now && t.key == key && IsBlocked(t.status);
    var j :| 0 <= j < |now| && now[j] == t;
    assert was[j] in was && LeftOrSkipped(was[j], t);
    BlockedThrough(was, s, was[j]);
  }

  lemma SkipAtSkipsOnlyBlocked(was: seq<Step>, before: seq<Step>, i: nat)
    requires NamedDependencies(was) && SkippedOnlyBlocked(was, before) && i < |was| && before[i] == was[i]
    ensures SkippedOnlyBlocked(was, SkipAt(before, i))
  {
    hide HasBlockedAncestor, FirstBlocking, Blocks;
    var s := was[i];
    assert s in was;
    FirstBlockingExact(s.dependsOn, before);
    if DependencyFailure(s, before) != "" {
      BlockingWasBlocked(was, before, s, DependencyFailure(s, before));
    }
  }

  lemma {:induction false} PassLeavesRest(steps: seq<Step>, n: nat)
    requires n <= |steps|
    ensures forall i | n <= i < |steps| :: SkipFirst(steps, n)[i] == steps[i]
    decreases n
  {
    if n > 0 {
      PassLeavesRest(steps, n - 1);
    }
  }

  /** The pass skips only steps with a failed or skipped ancestor, and changes nothing else. */
  lemma {:induction false} PropagateSkipsOnlyBlocked(steps: seq<Step>, n: nat)
    requires n <= |steps| && NamedDependencies(steps)
    ensures SkippedOnlyBlocked(steps, SkipFirst(steps, n))
    decreases n
  {
    if n > 0 {
      PropagateSkipsOnlyBlocked(steps, n - 1);
      PassLeavesRest(steps, n - 1);
      SkipAtSkipsOnlyBlocked(steps, SkipFirst(steps, n - 1), n - 1);
    }
  }

  lemma {:induction false} PassLeavesOrSkips(steps: seq<Step>, n: nat)
    requires n <= |steps| && NamedDependencies(steps)
    ensures AllLeftOrSkipped(steps, SkipFirst(steps, n))
    decreases n
  {
    if n > 0 {
      PassLeavesOrSkips(steps, n - 1);
    }
  }

  /** No active step names a failed or skipped step: another pass would change nothing. */
  predicate Propagated(steps: seq<Step>) {
    forall s | s in steps && IsActive(s.status) :: DependencyFailure(s, steps) == ""
  }

  /** Dependencies stand before their dependents in the list. */
  predicate ListedInOrder(steps: seq<Step>) {
    forall i, j :: 0 <= i < |steps| && 0 <= j < |steps| && steps[j].key in steps[i].dependsOn ==> j < i
  }

  predicate PropagatedUpTo(steps: seq<Step>, n: nat)
    requires n <= |steps|
  {
    forall i | 0 <= i < n :: IsActive(steps[i].status) ==> DependencyFailure(steps[i], steps) == ""
  }

  lemma UpToIsPropagated(steps: seq<Step>)
    ensures PropagatedUpTo(steps, |steps|) <==> Propagated(steps)
  {
  }

  /** Skipping a step cannot block one that stands before it in dependency order. */
  lemma SkippingLaterBlocksNothing(steps: seq<Step>, before: seq<Step>, now: seq<Step>, i: nat, n: nat)
    requires ListedInOrder(steps) && NamedDependencies(steps)
    requires AllLeftOrSkipped(steps, before) && AllLeftOrSkipped(steps, now)
    requires i <= n < |steps| && forall j | 0 <= j < n :: now[j] == before[j]
    ensures DependencyFailure(steps[i], before) == "" ==> DependencyFailure(steps[i], now) == ""
  {
    var s := steps[i];
    assert s in steps;
    FirstBlockingExact(s.dependsOn, before);
    FirstBlockingExact(s.dependsOn, now);
    forall key | key in s.dependsOn {
      BlocksCarriesOver(steps, before, now, i, n, key);
    }
  }

  lemma BlocksCarriesOver(steps: seq<Step>, before: seq<Step>, now: seq<Step>, i: nat, n: nat, key: string)
    requires ListedInOrder(steps) && AllLeftOrSkipped(steps, before) && AllLeftOrSkipped(steps, now)
    requires i <= n < |steps| && forall j | 0 <= j < n :: now[j] == before[j]
    requires key in steps[i].dependsOn
    ensures Blocks(key, now) ==> Blocks(key, before)
  {
  }

  lemma {:induction false} OnePassInOrder(steps: seq<Step>, n: nat)
    requires n <= |steps| && NamedDependencies(steps) && ListedInOrder(steps)
    ensures PropagatedUpTo(SkipFirst(steps, n), n)
    decreases n
  {
    if n > 0 {
      var before, now := SkipFirst(steps, n - 1), SkipFirst(steps, n);
      OnePassInOrder(steps, n - 1);
      assert PropagatedUpTo(before, n - 1) && now == SkipAt(before, n - 1);
      PassLeavesOrSkips(steps, n - 1);
      PassLeavesOrSkips(steps, n);
      PassLeavesRest(steps, n - 1);
      assert before[n - 1] == steps[n - 1];
      ExtendPropagated(steps, before, now, n);
    }
  }

  lemma ExtendPropagated(steps: seq<Step>, before: seq<Step>, now: seq<Step>, n: nat)
    requires 0 < n <= |steps| && NamedDependencies(steps) && ListedInOrder(steps)
    requires AllLeftOrSkipped(steps, before) && AllLeftOrSkipped(steps, now) && now == SkipAt(before, n - 1)
    requires PropagatedUpTo(before, n - 1) && before[n - 1] == steps[n - 1]
    ensures PropagatedUpTo(now, n)
  {
    forall i | 0 <= i < n && IsActive(now[i].status)
      ensures DependencyFailure(now[i], now) == ""
    {
      assert LeftOrSkipped(steps[i], before[i]) && LeftOrSkipped(steps[i], now[i]);
      assert now[i] == before[i] == steps[i];
      SkippingLaterBlocksNothing(steps, before, now, i, n - 1);
    }
  }

  /** One pass suffices when the list is in dependency order. */
  lemma OnePassPropagates(run: Run, stamps: Stamps)
    requires NamedDependencies(run.steps) && ListedInOrder(run.steps)
    ensures Propagated(Propagate(run, stamps).steps)
  {
    OnePassInOrder(run.steps, |run.steps|);
    UpToIsPropagated(Propagate(run, stamps).steps);
  }

  // ---------- Any order: as many passes as steps ----------

  function ActiveCount(steps: seq<Step>): nat {
    if steps == [] then 0 else (if IsActive(steps[0].status) then 1 else 0) + ActiveCount(steps[1..])
  }

  lemma {:induction false} SkippingLowersCount(was: seq<Step>, now: seq<Step>)
    requires AllLeftOrSkipped(was, now)
    ensures ActiveCount(now) <= ActiveCount(was) <= |was|
    ensures was != now ==> ActiveCount(now) < ActiveCount(was)
    decreases |was|
  {
    if was != [] {
      assert LeftOrSkipped(was[0], now[0]);
      assert forall i | 0 <= i < |was[1..]| :: was[1..][i] == was[i + 1] && now[1..][i] == now[i + 1];
      SkippingLowersCount(was[1..], now[1..]);
      assert was == [was[0]] + was[1..] && now == [now[0]] + now[1..];
    }
  }

  /** A pass that changes nothing found nothing to skip. */
  lemma {:induction false} UnchangedIsPropagated(steps: seq<Step>, n: nat)
    requires n <= |steps| && NamedDependencies(steps) && SkipFirst(steps, n) == steps
    ensures PropagatedUpTo(steps, n)
    decreases n
  {
    if n > 0 {
      hide PropagatedUpTo, SkipAt, DependencyFailure;
      LastSkipUnchanged(steps, n);
      UnchangedIsPropagated(steps, n - 1);
      UpToNext(steps, n);
    }
  }

  lemma UpToNext(steps: seq<Step>, n: nat)
    requires 0 < n <= |steps| && PropagatedUpTo(steps, n - 1)
    requires IsActive(steps[n - 1].status) ==> DependencyFailure(steps[n - 1], steps) == ""
    ensures PropagatedUpTo(steps, n)
  {
  }

  lemma LastSkipUnchanged(steps: seq<Step>, n: nat)
    requires 0 < n <= |steps| && SkipFirst(steps, n) == steps
    ensures SkipFirst(steps, n - 1) == steps
    ensures IsActive(steps[n - 1].status) ==> DependencyFailure(steps[n - 1], steps) == ""
  {
    hide DependencyFailure;
    var before := SkipFirst(steps, n - 1);
    PassLeavesRest(steps, n - 1);
    var s := steps[n - 1];
    assert before[n - 1..][0] == s;
    if IsActive(s.status) {
      assert SkipAt(before, n - 1)[n - 1] == s;
      assert DependencyFailure(s, before) == "";
    }
    assert before == steps;
  }

  lemma {:induction false} PropagatedStays(steps: seq<Step>, n: nat)
    requires n <= |steps| && Propagated(steps)
    ensures SkipFirst(steps, n) == steps
    decreases n
  {
    if n > 0 {
      PropagatedStays(steps, n - 1);
      assert steps[n - 1] in steps;
    }
  }

  /** `n` passes over the whole list. */
  function Passes(steps: seq<Step>, n: nat): (r: seq<Step>)
    ensures |r| == |steps|
  {
    if n == 0 then steps else SkipFirst(Passes(steps, n - 1), |steps|)
  }

  lemma SkippingKeepsNames(was: seq<Step>, now: seq<Step>)
    requires AllLeftOrSkipped(was, now) && NamedDependencies(was)
    ensures NamedDependencies(now)
  {
  }

  lemma {:induction false} PassesProgress(steps: seq<Step>, n: nat)
    requires NamedDependencies(steps)
    ensures NamedDependencies(Passes(steps, n))
    ensures Propagated(Passes(steps, n)) || ActiveCount(Passes(steps, n)) + n <= ActiveCount(steps)
    decreases n
  {
    if n > 0 {
      var before, now := Passes(steps, n - 1), Passes(steps, n);
      PassesProgress(steps, n - 1);
      PropagateSkipsOnlyBlocked(before, |before|);
      SkippingLowersCount(before, now);
      SkippingKeepsNames(before, now);
      if Propagated(before) {
        PropagatedStays(before, |before|);
      } else if before == now {
        UnchangedIsPropagated(before, |before|);
        UpToIsPropagated(before);
      }
    }
  }

  /** Whatever the order of the list, as many passes as there are steps leave nothing to skip. */
  lemma AsManyPassesAsSteps(steps: seq<Step>)
    requires NamedDependencies(steps)
    ensures Propagated(Passes(steps, |steps|))
  {
    PassesProgress(steps, |steps|);
    SkippingLowersCount(steps, steps);
    NoActiveStep(Passes(steps, |steps|));
  }

  lemma {:induction false} NoActiveStep(steps: seq<Step>)
    ensures ActiveCount(steps) == 0 ==> forall s | s in steps :: !IsActive(s.status)
    decreases |steps|
  {
    if steps != [] {
      NoActiveStep(steps[1..]);
      assert steps == [steps[0]] + steps[1..];
    }
  }

  /** After propagation, in a run whose finished work is closed, nothing active has a failed or skipped ancestor. */
  lemma PropagatedHasNoBlockedAncestor(steps: seq<Step>, s: Step)
    requires SoundGraph(steps) && NamedDependencies(steps) && DoneClosed(steps) && Propagated(steps)
    requires s in steps && IsActive(s.status)
    ensures !HasBlockedAncestor(steps, s)
  {
    forall p: seq<Step> | DependencyPath(steps, p) && |p| >= 2 && p[0] == s
      ensures !IsBlocked(p[|p| - 1].status)
    {
      UnblockedPath(steps, p, |p| - 1);
    }
  }

  lemma {:induction false} UnblockedPath(steps: seq<Step>, p: seq<Step>, n: nat)
    requires DistinctKeys(steps) && NamedDependencies(steps) && DoneClosed(steps) && Propagated(steps)
    requires DependencyPath(steps, p) && n < |p| && IsActive(p[0].status)
    ensures !IsBlocked(p[n].status)
  {
    if n > 0 {
      UnblockedPath(steps, p, n - 1);
      var s, t := p[n - 1], p[n];
      assert s in steps && t in steps && p[n - 1 + 1].key in p[n - 1].dependsOn;
      if IsActive(s.status) {
        FirstBlockingExact(s.dependsOn, steps);
        assert !Blocks(t.key, steps);
      } else {
        var u :| u in steps && u.key == t.key && u.status == Done;
        SameKeySameStep(steps, t, u);
      }
    }
  }
}
