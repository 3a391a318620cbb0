/** What must have happened to a mission that is completed: its objectives were met by actions on record. */
module MissionEvidence {
  import opened Prelude
  import opened Values
  import opened AgentTypes
  import opened Planning
  import opened Runs
  import opened RunStore
  import opened Mission
  import opened MissionInvariant
  import opened MissionRuns
  import opened EvidenceLaws
  import opened Verifier

  /** A completed mission with steps that the last restore did not close. */
  ghost predicate EndedOnEvidence(w: World, run: Run) {
    && Reachable(w, run.id) && Hydrate(w.store, run.id) == Some(run)
    && run.status == RunStatus.Completed && run.steps != [] && !LeftClosed(w.log)
  }

  /** Entry `k` of the log is the start of that step. */
  predicate StartedAt(log: seq<Effect>, k: nat, s: Step) {
    && k < |log| && log[k].StartedEffect?
    && var t := log[k].step; t.id == s.id && t.tool == s.tool && t.risk == s.risk && t.input == s.input
  }

  /** Every objective was met by a finished step that was started as it is. */
  lemma CompletedHasEvidence(w: World, run: Run, o: Objective) returns (s: Step, k: nat)
    requires EndedOnEvidence(w, run) && o in run.spec.objectives
    ensures s in run.steps && IsFinished(s) && Shows(run.spec, o, s) && StartedAt(w.log, k, s)
    ensures forall t | t in run.steps :: t.status != Failed
  {
    hide Reachable, Hydrate, Complete, Shows, IsFinished, LogOk, CompletedOk, CheckpointOk, FinishedRests, GraphOk, LeftClosed;
    CompletedMeansVerified(w, run.id);
    GoalIsReachedIff(run.spec, run.steps);
    s :| s in run.steps && IsFinished(s) && Shows(run.spec, o, s);
    ReachableIsOk(w, run.id);
    assert StepOk(run, s, w.log);
    FinishedIsDone(s);
    var e :| e in w.log && IsStartOf(e, s);
    k :| k < |w.log| && w.log[k] == e;
  }

  lemma FinishedIsDone(s: Step)
    ensures IsFinished(s) ==> s.status == Done
  {
  }

  /** The user approved exactly this action, and it was then invoked. */
  predicate ApprovedAndStarted(log: seq<Effect>, j: nat, k: nat) {
    && j < k < |log| && log[j].QueuedEffect? && log[j].confirmed
    && log[k].StartedEffect? && log[k].step.risk == External
    && log[j].step.id == log[k].step.id && log[j].step.input == log[k].step.input
  }

  /** What was to be sent was approved and sent, or a sequence of messages has run to its end. */
  lemma CompletedSendWasSent(w: World, run: Run, o: Objective)
    requires EndedOnEvidence(w, run) && o in run.spec.objectives && o.action == ToSend
    ensures (exists j: nat, k: nat :: ApprovedAndStarted(w.log, j, k))
         || exists s | s in run.steps :: s.status == Done && IsEndedSequence(s)
  {
    hide Reachable, Hydrate, LeftClosed;
    var s, k := CompletedHasEvidence(w, run, o);
    if !IsEndedSequence(s) {
      var j := EverySendWasApproved(w, run.id, k);
      assert ApprovedAndStarted(w.log, j, k);
    }
  }

  /** A write was started, about the selected record where there is one; managing takes external actions too. */
  ghost predicate ChangedAt(log: seq<Effect>, k: nat, spec: GoalSpec, o: Objective) {
    && k < |log| && log[k].StartedEffect?
    && var s, id := log[k].step, Selected(spec, o.domain);
       if o.action == ToUpdate then s.risk == Write && (id == "" || IsAbout(s, id)) else s.risk in {Write, External}
  }

  /** A request that creates something of the domain was started. */
  predicate PostedAt(log: seq<Effect>, k: nat, domain: Domain) {
    && k < |log| && log[k].StartedEffect?
    && var made := Creation(domain); made.Some? && Posts(log[k].step, made.value.0)
  }

  /** A request that exports a trade document was started. */
  ghost predicate ExportedAt(log: seq<Effect>, k: nat) {
    k < |log| && log[k].StartedEffect? && log[k].step.tool == ApiWrite && IsExportPath(Text(log[k].step.input, "path"))
  }

  /** What was to be changed or managed was written; managing may also be an action outside. */
  lemma CompletedChangeWasWritten(w: World, run: Run, o: Objective) returns (k: nat)
    requires EndedOnEvidence(w, run) && o in run.spec.objectives && o.action in {ToUpdate, ToManage}
    ensures ChangedAt(w.log, k, run.spec, o)
  {
    hide Reachable, Hydrate, LeftClosed, Selected, Updated, OwnId, Text;
    var s;
    s, k := CompletedHasEvidence(w, run, o);
  }

  /** A customer, lead, deal, document or memo that was to be created was posted to its own path. */
  lemma CompletedCreationWasPosted(w: World, run: Run, o: Objective) returns (k: nat)
    requires EndedOnEvidence(w, run) && o in run.spec.objectives && o.action == ToCreate
    requires o.domain in {Customers, Domain.Leads, Deals, Documents, Memos}
    ensures PostedAt(w.log, k, o.domain)
  {
    hide Reachable, Hydrate, LeftClosed, HasText, Text;
    var s;
    s, k := CompletedHasEvidence(w, run, o);
  }

  /** What was to be exported was exported from a trade document. */
  lemma CompletedExportWasRun(w: World, run: Run, o: Objective) returns (k: nat)
    requires EndedOnEvidence(w, run) && o in run.spec.objectives && o.action == ToExport
    ensures ExportedAt(w.log, k) && o.domain == Documents
  {
    hide Reachable, Hydrate, LeftClosed, HasText, IsExportPath;
    var s;
    s, k := CompletedHasEvidence(w, run, o);
  }

  /** What was to be read or analyzed was read, and it was the selected record if there is one. */
  lemma CompletedReadWasRead(w: World, run: Run, o: Objective) returns (s: Step, k: nat)
    requires EndedOnEvidence(w, run) && o in run.spec.objectives && o.action in {ToRead, ToAnalyze}
    ensures s in run.steps && s.status == Done && s.risk == Read && s.tool != ApiCatalog && StartedAt(w.log, k, s)
    ensures Selected(run.spec, o.domain) == "" || IsAbout(s, Selected(run.spec, o.domain))
  {
    hide Reachable, Hydrate, LeftClosed, Selected, Text;
    s, k := CompletedHasEvidence(w, run, o);
  }

  /** A goal with an objective nobody can check is never reached. */
  lemma UnknownIsNeverReached(w: World, run: Run)
    requires EndedOnEvidence(w, run)
    ensures forall o | o in run.spec.objectives :: o.action != ToUnknown
  {
    hide Reachable, Hydrate, LeftClosed;
    forall o | o in run.spec.objectives
      ensures o.action != ToUnknown
    {
      var s, k := CompletedHasEvidence(w, run, o);
    }
  }
}
