/** A mission, from its creation on, that has work to do and stands still: a filled-in input nests too deeply. */
module StandstillWitness {
  import opened Prelude
  import opened Values
  import opened AgentTypes
  import opened References
  import opened DepthLaws
  import opened WorkflowGraph
  import opened Planning
  import opened Runs
  import opened NodeLaws
  import opened RunStore
  import opened Mission
  import opened MissionInvariant
  import opened MissionRuns
  import opened MissionProgress
  import opened MissionWitnesses
  import opened WitnessPlans

  /** What the lookup finds nests as deep as an input may. */
  lemma CallIsTooDeep(v: Value)
    requires Height(v) >= MAX_DEPTH
    ensures Collect(CallOf(v), 0).Err?
  {
    assert HeightMembers(Nil) == 0;
    assert Height(CallOf(v)) == 1 + Height(v);
    CollectsIff(CallOf(v), 0);
  }

  lemma NoneBlocked(steps: seq<Step>, s: Step)
    requires forall t | t in steps :: !IsBlocked(t.status)
    ensures !HasBlockedAncestor(steps, s)
  {
  }

  /** A finished lookup and a ready call that carries what it found. */
  lemma DeepCallStandsStill(w: World, run: Run, lookup: Step, call: Step, v: Value)
    requires Reached(w, run) && w.flight == None && Whole(w.log) && run.status == InProgress
    requires run.steps == [lookup, call] && lookup.key == "a" && lookup.status == Done
    requires call.dependsOn == ["a"] && call.status == Ready && call.input == CallOf(v) && Height(v) >= MAX_DEPTH
    ensures HasWork(w, run, call) && NodeOf(run) == ExecuteNode && PreparationThrows(run)
  {
    hide Reachable, Hydrate, Collect, NodeOf, Undisturbed, HasBlockedAncestor, Height, CallOf, StartsWith;
    assert lookup in run.steps && call in run.steps;
    CallIsTooDeep(v);
    assert DependenciesSatisfied(call, run.steps) && ThrowsOn(call, run.steps);
    NoneBlocked(run.steps, call);
    ReadyIsExecuted(run, call);
  }

  lemma ReadyIsExecuted(run: Run, s: Step)
    requires run.status == InProgress && run.stopReason == "" && Unmarked(run.events)
    requires s in run.steps && s.status == Ready && DependenciesSatisfied(s, run.steps)
    ensures Undisturbed(run) && NodeOf(run) == ExecuteNode
  {
    hide DependenciesSatisfied;
    NothingPending(run.events, run.events);
    assert |TIMER_MARK| > 0;
  }

  /** A request finds the lookup done and refuses the call. */
  lemma RequestsChangeNothing(w: World, run: Run, lookup: Step, call: Step, op: Op)
    requires Hydrate(w.store, run.id) == Some(run) && run.steps == [lookup, call] && op.Execute?
    requires lookup.status == Done && HasNoReferences(lookup.input) && Collect(call.input, 0).Err?
    ensures Apply(w, run.id, op) == w
  {
    hide Hydrate, Persist, Collect, DependencyFailure, DependenciesSatisfied, RunNow, ExecutePrepared;
  }

  /** The operations by which a mission is meant to go on. */
  predicate IsGoingOn(op: Op) { op.Move? || op.Begin? || op.Execute? }

  lemma GoingOnChangesNothing(w: World, run: Run, lookup: Step, call: Step, op: Op)
    requires Hydrate(w.store, run.id) == Some(run) && run.steps == [lookup, call] && IsGoingOn(op) && PreparationThrows(run)
    requires lookup.status == Done && HasNoReferences(lookup.input) && Collect(call.input, 0).Err?
    ensures Apply(w, run.id, op) == w
  {
    hide Hydrate, Persist, Collect, PreparationThrows, ExecuteStep, BeginPrepared, Dispatch;
    if op.Execute? {
      RequestsChangeNothing(w, run, lookup, call, op);
    }
  }

  /**
   A mission is created, its lookup returns a deep value, and the call that waits for it is filled in with
   it. No step failed, the next node is to execute the call, and yet the mission stands still: every
   advance is an exception, no step is started, and no request to execute one changes anything.
   */
  lemma AMissionStandsStill(run: Run) returns (w: World, now: Run, call: Step)
    requires run.expiresAt > 0
    ensures now.id == run.id && HasWork(w, now, call) && NodeOf(now) == ExecuteNode
    ensures forall adv: AdvanceInput, out: Outside | adv.active :: StandsStill(w, run.id, adv, out) && !Moves(w, now, adv, out)
    ensures forall op | IsGoingOn(op) :: Apply(w, run.id, op) == w
  {
    hide Hydrate, Reachable, Apply, Stands, PlannedFor, Acceptable, FilledIn, NewStep, AuthorizedCall, HasWork, Moves, StandsStill;
    hide PreparationThrows, NodeOf, Nested, Height, Collect, CallOf, Found;
    CallStands(run);
    var planned, r0 := Created(run, [LOOKUP, CALL]);
    LookupIsReady(run.id, Owner(run));
    var deep := Nested(MAX_DEPTH);
    NestedHeight(MAX_DEPTH);
    var lookup := NewStep(LOOKUP, run.id, Owner(run));
    w, now := LooksUp(planned, r0, lookup, AuthorizedCall(run.id, Owner(run)), deep);
    call := now.steps[1];
    FilledInKeeps(r0, AuthorizedCall(run.id, Owner(run)), deep);
    DeepCallStandsStill(w, now, now.steps[0], call, deep);
    StandsMeans(w, now);
    ThrowingStandsStill(w, now);
    forall adv: AdvanceInput, out: Outside | adv.active {
      StillDoesNotMove(w, now, adv, out);
    }
    CallIsTooDeep(deep);
    forall op | IsGoingOn(op)
      ensures Apply(w, run.id, op) == w
    {
      GoingOnChangesNothing(w, now, now.steps[0], call, op);
    }
  }
}
