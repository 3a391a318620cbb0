/** A mission, from its creation on, in which an authorized write starts unapproved because a checkpoint was restored. */
module RestoreWitness {
  import opened Prelude
  import opened Values
  import opened AgentTypes
  import opened References
  import opened WorkflowGraph
  import opened Planning
  import opened Runs
  import opened Collections
  import opened RunStore
  import opened Mission
  import opened MissionInvariant
  import opened MissionSave
  import opened MissionPasses
  import opened MissionMoves
  import opened MissionFlight
  import opened MissionRestore
  import opened MissionRuns
  import opened MissionProgress
  import opened MissionTheorems
  import opened MissionWitnesses
  import opened WitnessPlans

  // ---------- A plan with one authorized write ----------

  const NOTE: PlanItem := PlanItem("1", "a", [], CrmCreateTodo, "note", Obj(Nil))

  function Note(run: Run): Step { NewStep(NOTE, run.id, Owner(run)).(status := Ready, approved := true) }

  lemma NoteStands(run: Run)
    ensures Acceptable(NewSteps([NOTE], run.id, Owner(run)), {}) && FreshItems([NOTE], []) && PlannedFor(run, [NOTE]) == [Note(run)]
    ensures PlainTitles([Note(run)]) && NoneStopped([Note(run)]) && FirstStatus([Note(run)], PlanOf([NOTE]), false) == InProgress
    ensures var s := Note(run);
      s.risk == Write && s.approved && s.status == Ready && s.dependsOn == [] && HasNoReferences(s.input) && s.key == "a" && s.error == ""
  {
    hide Acceptable, HasNoReferences;
    var s := NewStep(NOTE, run.id, Owner(run));
    EmptyHasNoReferences();
    NoReferencesToAdd(s);
    OneAdmitted(s);
    assert NewSteps([NOTE], run.id, Owner(run)) == [s];
    assert PlannedFor(run, [NOTE]) == [Note(run)];
    assert AnyReady([Note(run)]) by { assert Note(run) in [Note(run)]; }
  }

  // ---------- Going back to the first checkpoint ----------

  function Unapproved(s: Step): Step { s.(approved := false) }

  /** A mission that only consists of a ready write, restored to a checkpoint that holds it so. */
  lemma WentBack(w: World, run: Run, s: Step, c: Checkpoint) returns (now: Run)
    requires Reached(w, run) && w.flight == None && run.steps == [s] && s.risk == Write && s.status == Ready && s.error == ""
    requires FindCheckpoint(w.store.checkpoints, "", run) == Some(c) && |c.snapshot.steps| == 1 && c.snapshot.steps[0].step == s
    ensures var op := GoBack(Owner(run), "", true, OutsideOf(run)); var w1 := Apply(w, run.id, op);
      && Reachable(w1, run.id) && w1.flight == None && Hydrate(w1.store, run.id) == Some(now)
      && now.id == run.id && now.status == InProgress && now.steps == [Unapproved(s)] && FilledInOnlyIf(w.log, w1.log)
  {
    hide Hydrate, Persist, Reachable, RunOk, RestoredRun, Apply, Stands, Reread;
    var out := OutsideOf(run);
    var op := GoBack(Owner(run), "", true, out);
    NewStampsAreFresh(run.events);
    MayGoOn(w, run, op);
    SoundWhenReached(w, run);
    StandsMeans(w, run);
    assert s in run.steps && WithKey(s) == s;
    RestoredAlone(run, s, c, out);
    RestoreGoesThrough(w, run, c, out);
    var found;
    found, now := RestoreSaves(w, run, Owner(run), "", true, out);
    RereadAlone(w, run, RestoredRun(run, c, out), Unapproved(s));
  }

  lemma RestoredAlone(run: Run, s: Step, c: Checkpoint, out: Outside)
    requires s.risk == Write && s.status == Ready && s.error == "" && WithKey(s) == s
    requires s.signature == Sign(run.id, s.id, s.tool, s.input, Owner(run))
    requires |c.snapshot.steps| == 1 && c.snapshot.steps[0].step == s
    ensures var restored := RestoredRun(run, c, out);
      restored.steps == [Unapproved(s)] && restored.status == InProgress && restored.id == run.id && restored.stopReason == ""
  {
    hide HasMark;
    var steps := RestoredSteps(run, c.snapshot.steps);
    assert steps == [Unapproved(s)] && steps[0] in steps;
  }

  /** Nothing external is under way, no finished write is lost: the restore goes through. */
  lemma {:induction false} RestoreGoesThrough(w: World, run: Run, c: Checkpoint, out: Outside)
    requires Hydrate(w.store, run.id) == Some(run) && FindCheckpoint(w.store.checkpoints, "", run) == Some(c) && w.flight == None
    requires forall s | s in run.steps :: s.risk == Write && s.status == Ready
    ensures !Restore(w, run.id, Owner(run), "", true, out).thrown
    ensures var w1 := Apply(w, run.id, GoBack(Owner(run), "", true, out));
      w1 == Restore(w, run.id, Owner(run), "", true, out).world && w1.flight == None && FilledInOnlyIf(w.log, w1.log)
  {
    hide Hydrate, Persist, RestoredRun, Merged, Restoring, FindCheckpoint, FilledInOnlyIf;
    RestoringFillsNothing(Saved(w, RestoredRun(run, c, out)), w.log);
  }

  lemma RestoringFillsNothing(run: Run, log: seq<Effect>)
    ensures FilledInOnlyIf(log, log + Restoring(run))
  {
  }

  lemma RereadAlone(w: World, stored: Run, run: Run, s: Step)
    requires Hydrate(w.store, run.id) == Some(stored) && DistinctIds(stored.steps) && NoneStopped(stored.steps)
    requires run.steps == [s] && s.key != "" && stored.id == run.id
    ensures Reread(w, run).steps == [s] && Reread(w, run).status == run.status && Reread(w, run).id == run.id
  {
    hide Hydrate;
    SkippedRowIff(w, stored, s.id);
    assert Reread(w, run).steps[0] == WithKey(MergedStep(s, StoredStep(Rows(w, run.id), s.id)));
  }

  /** No filling was added. */
  predicate FilledInOnlyIf(before: seq<Effect>, after: seq<Effect>) {
    forall e | e in after && e.FilledInEffect? :: e in before
  }

  /** The background runner starts the step as it is stored. */
  lemma StartedAsStored(w: World, run: Run, i: nat)
    requires Hydrate(w.store, run.id) == Some(run) && DistinctIds(run.steps) && run.status == InProgress && Final(run.steps)
    requires i < |run.steps| && run.steps[i].status == Ready && DependenciesSatisfied(run.steps[i], run.steps)
    ensures Apply(w, run.id, Beginning(run, i)).log == w.log + [StartedEffect(Taken(run.steps[i]))]
  {
    hide Hydrate, Persist, Advance, Prepare, Preparing, PreparationThrows, DependenciesSatisfied;
    FinalIsPrepared(w, run, OutsideOf(run).stamps);
    IndexById(run.steps, i);
  }

  /**
   A mission is created in a turn that authorizes its write; the owner restores the first checkpoint, and
   the background runner starts the write, which is no longer approved and was never filled in.
   */
  lemma ARestoredWriteStartsUnapproved(run: Run) returns (planned: World, w: World, sent: Step)
    requires run.expiresAt > 0
    ensures Reachable(planned, run.id) && Hydrate(planned.store, run.id).Some?
    ensures exists s | s in Hydrate(planned.store, run.id).value.steps :: s.id == sent.id && s.risk == Write && s.approved
    ensures exists user, back, adv, out :: w == Apply(Apply(planned, run.id, GoBack(user, "", true, back)), run.id, Begin(sent.id, adv, out))
    ensures Reachable(w, run.id) && StartedEffect(sent) in w.log && FilledInEffect(sent.id) !in w.log
    ensures sent.risk == Write && !sent.approved
  {
    hide Hydrate, Reachable, Apply, Stands, PlannedFor, Acceptable, NewSteps, FreshItems, Note, HasNoReferences, Allowed;
    NoteStands(run);
    var r0, c;
    planned, r0 := Created(run, [NOTE]);
    var s := Note(run);
    FirstIsFound(planned, r0);
    c := planned.store.checkpoints[0];
    var back := GoBack(Owner(r0), "", true, OutsideOf(r0));
    var r1 := WentBack(planned, r0, s, c);
    var w1 := Apply(planned, run.id, back);
    NoteIsFinal(r1, s);
    BeginAllowed(w1, r1, 0);
    ReachedNext(w1, r1, Beginning(r1, 0));
    StartedAsStored(w1, r1, 0);
    w, sent := Apply(w1, run.id, Beginning(r1, 0)), Taken(r1.steps[0]);
    StandsMeans(planned, r0);
    assert s in r0.steps;
  }

  lemma FirstIsFound(w: World, run: Run)
    requires HoldsFirst(w.store.checkpoints, run)
    ensures FindCheckpoint(w.store.checkpoints, "", run) == Some(w.store.checkpoints[0])
  {
  }

  lemma NoteIsFinal(run: Run, s: Step)
    requires run.steps == [Unapproved(s)] && HasNoReferences(s.input) && s.dependsOn == []
    ensures Final(run.steps) && DistinctIds(run.steps) && DependenciesSatisfied(run.steps[0], run.steps)
  {
  }
}
