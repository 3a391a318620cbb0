/** A mission run as the engine holds it in memory, and the passes every operation makes over its steps. */
module Runs {
  import opened Prelude
  import opened Values
  import opened AgentTypes
  import opened References
  import opened ReferenceLaws
  import opened Planning
  import Verifier

  datatype Run = Run(
    id: string,
    ownerId: string,
    teamId: string,
    goal: string,
    spec: Verifier.GoalSpec,
    status: RunStatus,
    iteration: nat,
    maxIterations: nat,
    stopReason: string,
    createdAt: int,
    expiresAt: int,
    steps: seq<Step>,
    events: seq<Event>)

  /** Random ids and clock readings, indexed by the number of events the run already has. */
  type Stamps = nat -> (string, int)

  function AddEvent(run: Run, stamps: Stamps, kind: EventType, message: string): Run {
    var (id, time) := stamps(|run.events|);
    run.(events := run.events + [Event(id, kind, message, time)])
  }

  // ---------- Dependencies ----------

  /** `agentWorkflowDependenciesSatisfied` */
  predicate DependenciesSatisfied(s: Step, steps: seq<Step>) {
    forall key | key in s.dependsOn :: exists t | t in steps :: t.key == key && t.status == Done
  }

  predicate Blocks(key: string, steps: seq<Step>) {
    exists t | t in steps :: t.key == key && (t.status == Failed || t.status == Skipped)
  }

  function FirstBlocking(keys: seq<string>, steps: seq<Step>): string {
    if keys == [] then ""
    else if Blocks(keys[0], steps) then keys[0]
    else FirstBlocking(keys[1..], steps)
  }

  /** `agentWorkflowDependencyFailure`: the first dependency that failed or was skipped, or empty. */
  function DependencyFailure(s: Step, steps: seq<Step>): string { FirstBlocking(s.dependsOn, steps) }

  // ---------- Filling inputs from finished steps ----------

  function ErrorText(e: ResolveError): string {
    match e
    case TooDeep => "Agent 工作流输入嵌套过深"
    case MissingStep(key) => "工作流引用的步骤不存在：" + key
    case NotDone(key) => "工作流前置步骤尚未完成：" + key
    case MissingPath(key, path) => "工作流结果路径不存在：" + key + "." + path
    case NotScalar(key, path) => "工作流嵌入引用必须是标量：" + key + "." + path
  }

  predicate HasNoReferences(input: Value) { Collect(input, 0) == Ok([]) }

  /** Active, its dependencies done, and still carrying references. */
  predicate NeedsPreparation(s: Step, steps: seq<Step>) {
    IsActive(s.status) && DependenciesSatisfied(s, steps) && !HasNoReferences(s.input)
  }

  /** Looking for references in an input nested too deeply is an exception outside the handled part. */
  predicate PreparationThrows(run: Run) { exists s | s in run.steps :: ThrowsOn(s, run.steps) }

  predicate ThrowsOn(s: Step, steps: seq<Step>) {
    IsActive(s.status) && DependenciesSatisfied(s, steps) && Collect(s.input, 0).Err?
  }

  function PreparedStep(s: Step, run: Run, user: Actor): Step {
    if !NeedsPreparation(s, run.steps) then s
    else
      match Resolve(s.input, run.steps, 0)
      case Ok(input) =>
        s.(input := input,
           signature := Sign(run.id, s.id, s.tool, input, user),
           approved := s.approved && s.risk != External && !RequiresSecondaryConfirmation(s.tool, input))
      case Err(e) => s.(status := Failed, error := ErrorText(e), approved := false)
  }

  const FILLED_IN: string := "已使用真实前置结果生成最终执行参数"

  function PreparationEvent(run: Run, stamps: Stamps, s: Step): Run {
    if s.status == Failed then AddEvent(run, stamps, ErrorEvent, s.title + "无法生成执行参数：" + s.error)
    else AddEvent(run, stamps, StepEvent, s.title + FILLED_IN)
  }

  /** The first `n` steps prepared from the results the run had at the start. */
  function PrepareFirst(run: Run, n: nat, user: Actor, stamps: Stamps): (r: Run)
    requires n <= |run.steps|
    ensures |r.steps| == |run.steps| && run.events <= r.events
    ensures forall i | 0 <= i < n :: r.steps[i] == PreparedStep(run.steps[i], run, user)
    ensures r.steps[n..] == run.steps[n..]
    ensures r == run.(steps := r.steps, events := r.events)
  {
    if n == 0 then run
    else
      var before := PrepareFirst(run, n - 1, user, stamps);
      var s := run.steps[n - 1];
      var p := PreparedStep(s, run, user);
      assert before.steps[n - 1..][0] == run.steps[n - 1..][0];
      var after := before.(steps := before.steps[n - 1 := p]);
      assert after.steps[n..] == before.steps[n - 1..][1..] == run.steps[n..];
      if NeedsPreparation(s, run.steps) then PreparationEvent(after, stamps, p) else after
  }

  function Prepare(run: Run, user: Actor, stamps: Stamps): (r: Run)
    ensures |r.steps| == |run.steps| && run.events <= r.events
    ensures forall i | 0 <= i < |run.steps| :: r.steps[i] == PreparedStep(run.steps[i], run, user)
    ensures r == run.(steps := r.steps, events := r.events)
  {
    PrepareFirst(run, |run.steps|, user, stamps)
  }

  /** The two lists have the same keys in the same places and agree on what is done with which result. */
  predicate SameDone(a: seq<Step>, b: seq<Step>) {
    && |a| == |b|
    && forall i | 0 <= i < |a| ::
         && a[i].key == b[i].key && (a[i].status == Done <==> b[i].status == Done)
         && (a[i].status == Done ==> a[i] == b[i])
         && a[i].result == b[i].result
  }

  lemma {:induction false} SameDoneSameEvidence(a: seq<Step>, b: seq<Step>, key: string)
    requires SameDone(a, b)
    ensures SameEvidence(key, a, b)
    decreases |a|
  {
    if a != [] && a[0].key != key {
      assert forall i | 0 <= i < |a[1..]| :: a[1..][i] == a[i + 1] && b[1..][i] == b[i + 1];
      SameDoneSameEvidence(a[1..], b[1..], key);
    }
  }

  lemma SameDoneSameDependencies(s: Step, a: seq<Step>, b: seq<Step>)
    requires SameDone(a, b)
    ensures DependenciesSatisfied(s, a) ==> DependenciesSatisfied(s, b)
  {
  }

  lemma SameDoneIsSymmetric(a: seq<Step>, b: seq<Step>)
    requires SameDone(a, b)
    ensures SameDone(b, a)
  {
  }

  /** Preparing one step does not change what another step is prepared to. */
  lemma PreparationIsIndependent(run: Run, current: Run, s: Step, user: Actor)
    requires SameDone(run.steps, current.steps) && current.id == run.id
    requires IsActive(s.status) && Collect(s.input, 0).Ok?
    ensures PreparedStep(s, current, user) == PreparedStep(s, run, user)
    ensures NeedsPreparation(s, current.steps) == NeedsPreparation(s, run.steps)
  {
    SameDoneIsSymmetric(run.steps, current.steps);
    SameDoneSameDependencies(s, run.steps, current.steps);
    SameDoneSameDependencies(s, current.steps, run.steps);
    forall key | key in Collect(s.input, 0).value {
      SameDoneSameEvidence(run.steps, current.steps, key);
    }
    OnlyReferencedStepsMatter(s.input, run.steps, current.steps, 0);
  }

  lemma PreparedPrefixSameDone(run: Run, n: nat, user: Actor, stamps: Stamps)
    requires n <= |run.steps|
    ensures SameDone(run.steps, PrepareFirst(run, n, user, stamps).steps)
  {
  }

  /** `prepareAgentWorkflowSteps`: the loop works on the run as it changes, yet prepares every step from the start state. */
  method PrepareSteps(run: Run, user: Actor, stamps: Stamps) returns (r: Run)
    requires !PreparationThrows(run)
    ensures r == Prepare(run, user, stamps)
  {
    r := run;
    for i := 0 to |run.steps|
      invariant r == PrepareFirst(run, i, user, stamps)
    {
      assert r.steps[i..][0] == run.steps[i..][0];
      var step := r.steps[i];
      PreparedPrefixSameDone(run, i, user, stamps);
      if IsActive(step.status) {
        SameDoneIsSymmetric(run.steps, r.steps);
        SameDoneSameDependencies(step, r.steps, run.steps);
        assert step in run.steps && !ThrowsOn(step, run.steps);
        if Collect(step.input, 0).Ok? {
          PreparationIsIndependent(run, r, step, user);
        }
      }
      if IsActive(step.status) && DependenciesSatisfied(step, r.steps) && !HasNoReferences(step.input) {
        match Resolve(step.input, r.steps, 0) {
          case Ok(input) =>
            step := step.(input := input, signature := Sign(r.id, step.id, step.tool, input, user));
            if step.risk == External || RequiresSecondaryConfirmation(step.tool, step.input) {
              step := step.(approved := false);
            }
          case Err(e) =>
            step := step.(status := Failed, error := ErrorText(e), approved := false);
        }
        r := r.(steps := r.steps[i := step]);
        r := PreparationEvent(r, stamps, step);
      } else {
        assert r.steps == r.steps[i := step];
      }
    }
  }

  // ---------- Skipping what can no longer run ----------

  function SkippedFor(s: Step, dependency: string): Step {
    s.(status := Skipped, error := "前置步骤 " + dependency + " 未成功，当前步骤未执行", approved := false)
  }

  function SkipAt(steps: seq<Step>, i: nat): (r: seq<Step>)
    requires i < |steps|
    ensures |r| == |steps|
  {
    var failure := DependencyFailure(steps[i], steps);
    if !IsActive(steps[i].status) || failure == "" then steps else steps[i := SkippedFor(steps[i], failure)]
  }

  /** The pass over the first `n` steps, each seeing what was skipped before it. */
  function SkipFirst(steps: seq<Step>, n: nat): (r: seq<Step>)
    requires n <= |steps|
    ensures |r| == |steps|
  {
    if n == 0 then steps else SkipAt(SkipFirst(steps, n - 1), n - 1)
  }

  function PropagateFirst(run: Run, n: nat, stamps: Stamps): (r: Run)
    requires n <= |run.steps|
    ensures r.steps == SkipFirst(run.steps, n) && run.events <= r.events
    ensures r == run.(steps := r.steps, events := r.events)
  {
    if n == 0 then run
    else
      var before := PropagateFirst(run, n - 1, stamps);
      var s := before.steps[n - 1];
      var failure := DependencyFailure(s, before.steps);
      var after := before.(steps := SkipAt(before.steps, n - 1));
      if !IsActive(s.status) || failure == "" then after
      else AddEvent(after, stamps, ErrorEvent, s.title + "已跳过：" + SkippedFor(s, failure).error)
  }

  function Propagate(run: Run, stamps: Stamps): (r: Run)
    ensures r.steps == SkipFirst(run.steps, |run.steps|) && run.events <= r.events
    ensures r == run.(steps := r.steps, events := r.events)
  {
    PropagateFirst(run, |run.steps|, stamps)
  }

  /** `propagateAgentWorkflowDependencyFailures` */
  method PropagateFailures(run: Run, stamps: Stamps) returns (r: Run)
    ensures r == Propagate(run, stamps)
  {
    r := run;
    for i := 0 to |run.steps|
      invariant |r.steps| == |run.steps| && r == PropagateFirst(run, i, stamps)
    {
      var step := r.steps[i];
      if IsActive(step.status) {
        var failure := DependencyFailure(step, r.steps);
        if failure != "" {
          step := SkippedFor(step, failure);
          r := r.(steps := r.steps[i := step]);
          r := AddEvent(r, stamps, ErrorEvent, step.title + "已跳过：" + step.error);
        }
      }
    }
  }

  // ---------- Marks the engine leaves in the event history ----------

  const STEER_MARK: string := "用户改令："
  const STEER_APPLIED_MARK: string := "已应用改令："
  const RECOVERY_MARK: string := "恢复策略："
  const RESTORE_MARK: string := "用户恢复到检查点："
  const TIMER_MARK: string := "wait_until:"

  predicate SteerApplied(events: seq<Event>, id: string) {
    exists e | e in events :: e.message == STEER_APPLIED_MARK + id
  }

  /** `pendingSteerEvent`: the newest user instruction that has not been applied. */
  function PendingSteer(events: seq<Event>): Option<Event> { PendingAmong(events, events) }

  function PendingAmong(candidates: seq<Event>, events: seq<Event>): Option<Event> {
    if candidates == [] then None
    else
      var e := candidates[|candidates| - 1];
      if StartsWith(e.message, STEER_MARK) && !SteerApplied(events, e.id) then Some(e)
      else PendingAmong(candidates[..|candidates| - 1], events)
  }

  predicate HasMark(events: seq<Event>, mark: string) {
    exists e | e in events :: StartsWith(e.message, mark)
  }

  function RecoveryMarkOf(stepId: string): string { RECOVERY_MARK + stepId + ":" }

  // ---------- Where a mission stands ----------

  datatype Node = Terminal | WaitTimer | SteerNode | ExecuteNode | ApprovalNode | EvaluateNode

  predicate AnyRunning(steps: seq<Step>) { exists s | s in steps :: s.status == Running }

  /** `resolveAgentMissionNode` */
  function ResolveNode(status: RunStatus, stopReason: string, steps: seq<Step>, hasPendingSteer: bool): Node {
    if status == Paused || status == Completed || status == Cancelled then Terminal
    else if StartsWith(stopReason, TIMER_MARK) then WaitTimer
    else if hasPendingSteer && !AnyRunning(steps) then SteerNode
    else if exists s | s in steps ::
              s.status == Running || ((s.status == Ready || s.status == Queued) && DependenciesSatisfied(s, steps)) then
      ExecuteNode
    else if exists s | s in steps :: s.status == NeedsConfirmation && DependenciesSatisfied(s, steps) then ApprovalNode
    else EvaluateNode
  }

  function NodeOf(run: Run): Node {
    ResolveNode(run.status, run.stopReason, run.steps, PendingSteer(run.events).Some?)
  }
}
