/**
 The operations of the mission engine on stored runs. What comes from outside, such as plans, model
 replies, tool results, ids and the clock, is an argument of each operation.
 */
module Mission {
  import opened Prelude
  import opened Values
  import opened AgentTypes
  import opened References
  import opened WorkflowGraph
  import opened Planning
  import opened Recovery
  import opened Runs
  import opened RunStore
  import opened Collections
  import Verifier

  /** What the engine did to the outside world, in order. */
  datatype Effect =
    | QueuedEffect(step: Step, confirmed: bool)  // an external step entered the queue; whether this request approved it
    | StartedEffect(step: Step)                  // a step's action was invoked with this step
    | RetriedEffect(stepId: string)              // a failed step was made ready again automatically
    | FilledInEffect(stepId: string)             // preparation turned to the references of the step's input
    | NarrowedEffect                             // a plan was installed whose limits removed a step another one waits for
    | PutBackEffect(stepId: string)              // a restore left this write ready, or failed, without its approval
    | RestoredEffect(closed: bool)               // a checkpoint was restored; whether it left nothing to do

  /** A background action being awaited: the engine's own copy of the run, and the step that runs. */
  datatype Flight = Flight(run: Run, stepId: string)

  datatype World = World(store: Store, flight: Option<Flight>, log: seq<Effect>)

  /** The world after an operation, and whether the operation ended in an exception. */
  datatype Outcome = Outcome(world: World, thrown: bool)

  datatype Outside = Outside(stamps: Stamps, ticks: nat -> Tick, reply: string)

  function Save(w: World, run: Run, tick: Tick): World { w.(store := Persist(w.store, run, tick)) }

  /** The caller's run after a save, which merges stored skips and events into it. */
  function Saved(w: World, run: Run): Run {
    Merged(run, Filter(OfRun(run.id), w.store.steps), Filter(EventOfRun(run.id), w.store.events))
  }

  function Owner(run: Run): Actor { Actor(run.ownerId, run.teamId) }

  /** What preparation logs: every step among `steps` whose references it fills in or fails to. */
  function Fillings(steps: seq<Step>, all: seq<Step>): (r: seq<Effect>)
    ensures forall e | e in r :: e.FilledInEffect?
    ensures forall s | s in steps && NeedsPreparation(s, all) :: FilledInEffect(s.id) in r
  {
    if steps == [] then []
    else (if NeedsPreparation(steps[0], all) then [FilledInEffect(steps[0].id)] else []) + Fillings(steps[1..], all)
  }

  /** The world in which the stored run is being prepared. */
  function Preparing(w: World, stored: Run): World { w.(log := w.log + Fillings(stored.steps, stored.steps)) }

  function StepIndex(steps: seq<Step>, id: string): (i: int)
    ensures -1 <= i < |steps|
    ensures i >= 0 ==> steps[i].id == id
    ensures i < 0 ==> forall s | s in steps :: s.id != id
  {
    if steps == [] then -1
    else if steps[0].id == id then 0
    else
      var i := StepIndex(steps[1..], id);
      if i < 0 then -1 else i + 1
  }

  /** `requireRun`: the stored run, if it belongs to the user. */
  function RequireRun(w: World, id: string, user: Actor): Option<Run> {
    match Hydrate(w.store, id)
    case None => None
    case Some(run) => if Owner(run) == user then Some(run) else None
  }

  /** `recordAssistantReply` */
  function Reply(run: Run, out: Outside): Run {
    if out.reply == "" then run
    else if run.events != [] && run.events[|run.events| - 1].kind == AssistantEvent
              && run.events[|run.events| - 1].message == out.reply then run
    else AddEvent(run, out.stamps, AssistantEvent, out.reply)
  }

  function Min(a: nat, b: nat): nat { if a < b then a else b }

  predicate AnyReady(steps: seq<Step>) { exists s | s in steps :: s.status == Ready }

  // ---------- Passes over all steps ----------

  function SkippedStep(s: Step, reason: string): Step { s.(status := Skipped, error := reason, approved := false) }

  function SkipActive(steps: seq<Step>, reason: string): (r: seq<Step>)
    ensures |r| == |steps|
    ensures forall i | 0 <= i < |r| :: r[i] == if IsActive(steps[i].status) then SkippedStep(steps[i], reason) else steps[i]
  {
    seq(|steps|, i requires 0 <= i < |steps| => if IsActive(steps[i].status) then SkippedStep(steps[i], reason) else steps[i])
  }

  function CancelledStep(s: Step): Step {
    if s.status == Ready || s.status == Queued then s.(status := Failed, error := "Mission 已由用户终止") else s
  }

  function FailWaiting(steps: seq<Step>): (r: seq<Step>)
    ensures |r| == |steps| && forall i | 0 <= i < |r| :: r[i] == CancelledStep(steps[i])
  {
    seq(|steps|, i requires 0 <= i < |steps| => CancelledStep(steps[i]))
  }

  function ReplacedFailure(s: Step): Step {
    if s.status == Failed then SkippedStep(s, "已由恢复规划替代；原错误：" + s.error) else s
  }

  function SkipFailed(steps: seq<Step>): (r: seq<Step>)
    ensures |r| == |steps| && forall i | 0 <= i < |r| :: r[i] == ReplacedFailure(steps[i])
  {
    seq(|steps|, i requires 0 <= i < |steps| => ReplacedFailure(steps[i]))
  }

  /** Resuming drops unstarted steps, and failed external ones whose non-delivery the user confirmed. */
  function ResumedStep(s: Step, notSent: bool): Step {
    if s.status == Failed && s.risk == External && notSent then SkippedStep(s, "用户已核验渠道未发送，允许重新规划；原错误：" + s.error)
    else if IsActive(s.status) then SkippedStep(s, "已根据用户补充重新生成动作")
    else s
  }

  function SkipForResume(steps: seq<Step>, notSent: bool): (r: seq<Step>)
    ensures |r| == |steps| && forall i | 0 <= i < |r| :: r[i] == ResumedStep(steps[i], notSent)
  {
    seq(|steps|, i requires 0 <= i < |steps| => ResumedStep(steps[i], notSent))
  }

  // ---------- Planning ----------

  /**
   A plan proposed for the run: drafts, the turn's decision, whether an automation asked for it instead
   of the user, the goal contract and an open question.
   */
  datatype Plan = Plan(items: seq<PlanItem>, decision: TurnDecision, automated: bool, spec: Verifier.GoalSpec, askUser: string)

  /** Whether the turn releases the ordinary writes of the plan. */
  predicate Authorizing(plan: Plan) { plan.decision.writeAuthorized && !plan.automated }

  ghost function PlannedBatch(run: Run, plan: Plan): Option<seq<Step>> {
    match Normalized(plan.items, run.id, Owner(run), run.steps)
    case None => None
    case Some(batch) => Some(Authorize(Constrain(batch, plan.decision), Authorizing(plan)))
  }

  /** The turn's limits remove a step that a permitted one waits for. */
  ghost predicate Narrows(run: Run, plan: Plan) {
    var normalized := Normalized(plan.items, run.id, Owner(run), run.steps);
    normalized.Some? && !PermitsDependencies(normalized.value, KeySet(run.steps), plan.decision)
  }

  ghost function Installing(log: seq<Effect>, run: Run, plan: Plan): seq<Effect> {
    if Narrows(run, plan) then log + [NarrowedEffect] else log
  }

  /** `createAgentPlan`: the first stored state of a run. `conversation` marks a turn answered without steps. */
  ghost function CreatePlan(store: Store, run: Run, plan: Plan, conversation: bool, out: Outside): Option<World>
  {
    var empty := run.(steps := [], events := []);
    match PlannedBatch(empty, plan)
    case None => None
    case Some(steps) =>
      var noted := AddEvent(FirstState(run, steps, plan, FirstStatus(steps, plan, conversation)), out.stamps, PlanEvent, "本轮语义判决：");
      Some(World(Persist(store, Told(noted, plan, out), out.ticks(0)), None, Installing([], empty, plan)))
  }

  function FirstStatus(steps: seq<Step>, plan: Plan, conversation: bool): RunStatus {
    if conversation && plan.askUser == "" && steps == [] then Completed
    else if plan.askUser != "" then WaitingUser
    else if AnyReady(steps) then InProgress
    else if exists s | s in steps :: s.status == NeedsConfirmation then AwaitingConfirmation
    else InProgress
  }

  function FirstState(run: Run, steps: seq<Step>, plan: Plan, status: RunStatus): Run {
    run.(steps := steps, events := [], spec := plan.spec, status := status, stopReason := plan.askUser,
         iteration := 1, maxIterations := 12)
  }

  /** The part of steering and resuming that installs the replacement steps. */
  function Replanned(run: Run, skipped: seq<Step>, batch: seq<Step>, plan: Plan, waiting: string): Run {
    var status :=
      if plan.askUser != "" then WaitingUser
      else if AnyReady(batch) then InProgress
      else AwaitingConfirmation;
    run.(steps := skipped + batch,
         iteration := Min(run.maxIterations, run.iteration + 1),
         spec := plan.spec,
         status := status,
         stopReason := if plan.askUser != "" then plan.askUser else if status == AwaitingConfirmation then waiting else "")
  }

  /** `applyPendingMissionSteer` */
  ghost function ApplySteer(w: World, run: Run, plan: Plan, out: Outside, tick: nat): Outcome {
    var steer := PendingSteer(run.events);
    if steer.None? || AnyRunning(run.steps) then Outcome(w, false)
    else
      match PlannedBatch(run, plan)
      case None => Outcome(w, true)
      case Some(batch) =>
        var replanned := Replanned(run, SkipActive(run.steps, REPLACED), batch, plan, "等待用户批准修改后的动作");
        var applied := AddEvent(replanned, out.stamps, PlanEvent, STEER_APPLIED_MARK + steer.value.id);
        Outcome(Save(w.(log := Installing(w.log, run, plan)), Told(applied, plan, out), out.ticks(tick)), false)
  }

  /** The plan's question, or the news that there is a plan. */
  function Told(run: Run, plan: Plan, out: Outside): Run {
    if plan.askUser != "" then Reply(AddEvent(run, out.stamps, ApprovalEvent, "需要补充信息：" + plan.askUser), out)
    else AddEvent(run, out.stamps, PlanEvent, "已生成行动")
  }

  // ---------- Pause, cancel, steer, resume ----------

  const PAUSED_REASON: string := "用户已暂停 Mission；正在执行的动作完成后不再领取新动作"
  const CANCELLED_REASON: string := "用户已终止 Mission"

  function PausedRun(run: Run, out: Outside): Run {
    AddEvent(run.(status := Paused, stopReason := PAUSED_REASON), out.stamps, ApprovalEvent, PAUSED_REASON)
  }

  /** `pauseAgentMission` */
  function Pause(w: World, id: string, user: Actor, out: Outside): Outcome {
    match RequireRun(w, id, user)
    case None => Outcome(w, true)
    case Some(run) =>
      if run.status in {Completed, RunStatus.Cancelled, Paused} then Outcome(w, false)
      else Outcome(Save(w, PausedRun(run, out), out.ticks(0)), false)
  }

  function CancelledRun(run: Run, out: Outside): Run {
    var stopped := run.(status := RunStatus.Cancelled, stopReason := CANCELLED_REASON, steps := FailWaiting(run.steps));
    Reply(AddEvent(stopped, out.stamps, ErrorEvent, CANCELLED_REASON), out)
  }

  /** `cancelAgentMission` */
  function CancelMission(w: World, id: string, user: Actor, out: Outside): Outcome {
    match RequireRun(w, id, user)
    case None => Outcome(w, true)
    case Some(run) =>
      if run.status in {Completed, RunStatus.Cancelled} then Outcome(w, false)
      else Outcome(Save(w, CancelledRun(run, out), out.ticks(0)), false)
  }

  predicate Steerable(status: RunStatus) {
    status !in {Completed, RunFailed, RunStatus.Cancelled, WaitingUser}
  }

  /** The run with the instruction recorded and everything unstarted invalidated. */
  function SteeredRun(run: Run, instruction: string, out: Outside): Run {
    var noted := AddEvent(AddEvent(AddEvent(run,
      out.stamps, PlanEvent, "用户补充：" + instruction),
      out.stamps, PlanEvent, "本轮语义判决："),
      out.stamps, PlanEvent, STEER_MARK + instruction);
    var skipped := noted.(steps := SkipActive(run.steps, REPLACED), stopReason := "");
    if exists s | s in run.steps :: IsActive(s.status) then
      AddEvent(skipped, out.stamps, ApprovalEvent, "新指令已使未开始步骤和旧审批失效")
    else skipped
  }

  /** `steerAgentMission`: applied at once unless a step is running. */
  ghost function Steer(w: World, id: string, user: Actor, input: string, active: bool, plan: Plan, out: Outside): Outcome {
    match RequireRun(w, id, user)
    case None => Outcome(w, true)
    case Some(run) =>
      var instruction := Take(Trim(input), 400);
      if !Steerable(run.status) || |instruction| < 2 then Outcome(w, true)
      else
        var steered := SteeredRun(run, instruction, out);
        var w1 := Save(w, steered, out.ticks(0));
        if !active || AnyRunning(steered.steps) then Outcome(w1, false)
        else ApplySteer(w1, Saved(w, steered), plan, out, 1)
  }

  predicate Resumable(status: RunStatus) { status in {Paused, WaitingUser, RunFailed, RunStatus.Cancelled} }

  function ResumedRun(run: Run, out: Outside): Run {
    var resumed := run.(
      status := InProgress, stopReason := "",
      maxIterations := if run.iteration >= run.maxIterations then Min(24, run.maxIterations + 3) else run.maxIterations);
    AddEvent(AddEvent(resumed, out.stamps, PlanEvent, "用户补充："), out.stamps, PlanEvent, "本轮语义判决：")
  }

  /** `resumeAgentMission`: with a new plan the old steps are replaced, without one the mission advances. */
  ghost function Resume(w: World, id: string, user: Actor, plan: Option<Plan>, notSent: bool, adv: AdvanceInput, out: Outside): Outcome {
    match RequireRun(w, id, user)
    case None => Outcome(w, true)
    case Some(run) =>
      if !Resumable(run.status) then Outcome(w, true)
      else
        var resumed := ResumedRun(run, out);
        match plan
        case None =>
          var continued := AddEvent(resumed, out.stamps, PlanEvent, "已从上次检查点恢复，正在继续完成原目标");
          Advance(Save(w, continued, out.ticks(0)), id, adv, out, 1)
        case Some(p) =>
          var skipped := SkipForResume(run.steps, notSent);
          match PlannedBatch(resumed.(steps := skipped), p)
          case None => Outcome(w, true)
          case Some(batch) =>
            var replanned := Replanned(resumed, skipped, batch, p, "等待用户确认写入动作");
            Outcome(Save(w.(log := Installing(w.log, resumed.(steps := skipped), p)), Told(replanned, p, out), out.ticks(0)), false)
  }

  // ---------- Automatic recovery ----------

  datatype Verdict = NoRecovery | Retry | Halt

  function LastFailed(steps: seq<Step>): (i: int)
    ensures -1 <= i < |steps|
    ensures i >= 0 ==> steps[i].status == Failed && steps[i].error != ""
  {
    if steps == [] then -1
    else if steps[|steps| - 1].status == Failed && steps[|steps| - 1].error != "" then |steps| - 1
    else LastFailed(steps[..|steps| - 1])
  }

  function RetriedStep(run: Run, s: Step): Step {
    s.(status := Ready, result := None, error := "", signature := Sign(run.id, s.id, s.tool, s.input, Owner(run)))
  }

  /** `applySafeAutomaticRecovery`: at most once per failed step, which the event history remembers. */
  function Recover(run: Run, out: Outside): (Run, Verdict) {
    var i := LastFailed(run.steps);
    if i < 0 || HasMark(run.events, RecoveryMarkOf(run.steps[i].id)) then (run, NoRecovery)
    else
      var failed := run.steps[i];
      var decision := DecideRecovery(failed);
      var noted := AddEvent(run, out.stamps, ErrorEvent, RecoveryMarkOf(failed.id) + Describe(decision));
      if decision.action == Stop then
        (noted.(status := if decision.category == ExternalUnknown then WaitingUser else RunFailed,
                stopReason := "外部动作失败后不能自动重放"), Halt)
      else if decision.action != RetryOnce then (noted, NoRecovery)
      else
        (noted.(steps := run.steps[i := RetriedStep(run, failed)], status := InProgress, stopReason := ""), Retry)
  }

  // ---------- Advancing ----------

  /** What the finished observers call for, read from tool results. */
  datatype Probe =
    | NoProbe
    | IncompleteEmail
    | Observe(items: seq<PlanItem>, status: RunStatus)
    | WaitUntil(time: string)

  datatype Continuation = Continuation(items: seq<PlanItem>, askUser: string)

  datatype Evaluation = Evaluation(done: bool, askUser: string, next: seq<PlanItem>)

  /** Everything `advanceAgentMission` learns from outside; `evaluation` is empty when the model call failed. */
  datatype AdvanceInput = AdvanceInput(
    active: bool,
    timerDue: bool,
    steerPlan: Plan,
    probe: Probe,
    documents: Option<Continuation>,
    authorized: bool,
    hasModel: bool,
    evaluation: Option<Evaluation>,
    fallback: Option<Continuation>)

  function LastDone(steps: seq<Step>, tool: Tool): (i: int)
    ensures -1 <= i < |steps|
    ensures i >= 0 ==> steps[i].status == Done && steps[i].tool == tool
  {
    if steps == [] then -1
    else if steps[|steps| - 1].status == Done && steps[|steps| - 1].tool == tool then |steps| - 1
    else LastDone(steps[..|steps| - 1], tool)
  }

  function NextPoll(v: Value): Value {
    if v.Num? && AllDigits(v.lexeme) then Num(NatToDigits(DigitsToNat(v.lexeme) + 1)) else Num("1")
  }

  /** The field by which an observer names what it observes. */
  function ObservedField(tool: Tool): string {
    if tool == ProspectGetSearchProgress then "runId" else "sequenceId"
  }

  function Observed(s: Step): string { AsText(Field(s.input, ObservedField(s.tool))) }

  function RewindAmong(steps: seq<Step>, tool: Tool): Option<nat> {
    var i := LastDone(steps, tool);
    if i >= 0 && Observed(steps[i]) != "" then Some(i) else None
  }

  /** The observer rewound by a timer that has run out: the search progress first, then the sequence progress. */
  function RewindTarget(steps: seq<Step>): (target: Option<nat>)
    ensures target.Some? ==> target.value < |steps|
    ensures target.Some? ==> steps[target.value].status == Done && IsPolled(steps[target.value].tool)
  {
    var search := RewindAmong(steps, ProspectGetSearchProgress);
    if search.Some? then search else RewindAmong(steps, OutreachGetSequenceProgress)
  }

  function RewoundStep(run: Run, s: Step): Step {
    var input := Obj(Cons(Member(ObservedField(s.tool), Str(Observed(s))), Cons(Member("poll", NextPoll(Field(s.input, "poll"))), Nil)));
    s.(input := input, result := None, error := "", status := Ready,
       signature := Sign(run.id, s.id, s.tool, input, Owner(run)))
  }

  function Rewound(run: Run, i: nat, out: Outside): Run
    requires i < |run.steps|
  {
    AddEvent(run.(steps := run.steps[i := RewoundStep(run, run.steps[i])], status := InProgress, stopReason := ""),
             out.stamps, StepEvent, "已到达下一次检查时间")
  }

  /** `advanceAgentMission`; `tick` numbers its first save. */
  ghost function Advance(w: World, id: string, adv: AdvanceInput, out: Outside, tick: nat): Outcome {
    match Hydrate(w.store, id)
    case None => Outcome(w, false)
    case Some(stored) =>
      if !adv.active then Outcome(w, false)
      else if PreparationThrows(stored) then Outcome(w, true)
      else
        var run := Prepare(stored, Owner(stored), out.stamps);
        var node := NodeOf(run);
        if node == Terminal || (node == WaitTimer && !adv.timerDue) then Outcome(w, false)
        else
          var target := RewindTarget(run.steps);
          if node == WaitTimer && target.Some? then
            Outcome(Save(Preparing(w, stored), Rewound(run, target.value, out), out.ticks(tick)), false)
          else Dispatch(Preparing(w, stored), if node == WaitTimer then run.(stopReason := "") else run, adv, out, tick)
  }

  const AWAITING_APPROVAL: string := "等待用户批准写入或外部动作"

  function AtApproval(run: Run, out: Outside): Run {
    var waiting := run.(status := AwaitingConfirmation, stopReason := AWAITING_APPROVAL);
    if run.status != AwaitingConfirmation || run.stopReason != AWAITING_APPROVAL then
      AddEvent(waiting, out.stamps, ApprovalEvent, "任务已推进到审批点，批准后将继续执行剩余目标")
    else waiting
  }

  ghost function Dispatch(w: World, run: Run, adv: AdvanceInput, out: Outside, tick: nat): Outcome {
    match NodeOf(run)
    case SteerNode => ApplySteer(w, run, adv.steerPlan, out, tick)
    case ExecuteNode => Outcome(Save(w, run.(status := InProgress), out.ticks(tick)), false)
    case ApprovalNode => Outcome(Save(w, AtApproval(run, out), out.ticks(tick)), false)
    case _ => Evaluate(w, run, adv, out, tick)
  }

  /** Nothing can move: recover a failure if that is safe, else skip what is blocked and judge the outcome. */
  ghost function Evaluate(w: World, run: Run, adv: AdvanceInput, out: Outside, tick: nat): Outcome {
    var (recovered, verdict) := Recover(run, out);
    match verdict
    case Halt => Outcome(Save(w, Reply(recovered, out), out.ticks(tick)), false)
    case Retry =>
      var retried := w.(log := w.log + [RetriedEffect(run.steps[LastFailed(run.steps)].id)]);
      Outcome(Save(retried, recovered, out.ticks(tick)), false)
    case NoRecovery => Judge(w, Propagate(recovered, out.stamps), adv, out, tick)
  }

  /** The run ended one way or another, with an event and a reply. */
  function Ended(run: Run, status: RunStatus, reason: string, out: Outside): Run {
    var kind := match status case Completed => ResultEvent case WaitingUser => ApprovalEvent case _ => ErrorEvent;
    Reply(AddEvent(run.(status := status, stopReason := reason), out.stamps, kind, reason), out)
  }

  function AfterBatch(batch: seq<Step>): RunStatus { if AnyReady(batch) then InProgress else AwaitingConfirmation }

  function Observing(run: Run, batch: seq<Step>, status: RunStatus, out: Outside): Run {
    var observing :=
      if status == AwaitingConfirmation then run.(status := AwaitingConfirmation, stopReason := "等待用户批准外部发送")
      else run.(status := InProgress);
    AddEvent(observing.(steps := run.steps + batch), out.stamps, PlanEvent, "Mission 将持续观察")
  }

  function WaitingUntil(run: Run, time: string, out: Outside): Run {
    AddEvent(run.(status := InProgress, stopReason := TIMER_MARK + time), out.stamps, ResultEvent, "已读取进度")
  }

  /** From the observers to the completion gate and on to the model. */
  ghost function Judge(w: World, run: Run, adv: AdvanceInput, out: Outside, tick: nat): Outcome {
    var tock := out.ticks(tick);
    match adv.probe
    case IncompleteEmail => Outcome(Save(w, Ended(run, RunFailed, "开发信草稿缺少对象、主题或正文，不能进入发送审批", out), tock), false)
    case Observe(items, status) =>
      (match Normalized(items, run.id, Owner(run), run.steps)
       case None => Outcome(w, true)
       case Some(batch) =>
         Outcome(Save(w, Observing(run, batch, status, out), tock), false))
    case WaitUntil(time) => Outcome(Save(w, WaitingUntil(run, time, out), tock), false)
    case NoProbe =>
      if Verifier.Complete(run.spec, run.steps) then
        Outcome(Save(w, Ended(run, Completed, "目标已通过服务端完成证据核验", out), tock), false)
      else AfterRejection(w, run, adv, out, tick)
  }

  /** The completion gate said no: documents, the iteration limit, rules only, or the model. */
  ghost function AfterRejection(w: World, run: Run, adv: AdvanceInput, out: Outside, tick: nat): Outcome {
    var tock := out.ticks(tick);
    if adv.documents.Some? && adv.documents.value.items != [] then
      match Normalized(adv.documents.value.items, run.id, Owner(run), run.steps)
      case None => Outcome(w, true)
      case Some(normalized) =>
        Outcome(Save(w, Delivering(run, Authorize(normalized, adv.authorized), out), tock), false)
    else if adv.documents.Some? && adv.documents.value.askUser != "" then
      Outcome(Save(w, Ended(run, WaitingUser, adv.documents.value.askUser, out), tock), false)
    else if run.iteration >= run.maxIterations then
      Outcome(Save(w, Ended(run, RunFailed, "已达到最大自主轮次", out), tock), false)
    else if !adv.hasModel then
      Outcome(Save(w, Ended(run, RulesVerdict(run), "规则模式", out), tock), false)
    else ModelRound(w, PlanningRun(run, out), adv, out, tick)
  }

  function Delivering(run: Run, batch: seq<Step>, out: Outside): Run {
    var next := run.(steps := run.steps + batch, iteration := Min(run.maxIterations, run.iteration + 1),
                     status := AfterBatch(batch), stopReason := "");
    AddEvent(next, out.stamps, PlanEvent, "PI 已创建，已直接生成审批与导出动作")
  }

  function RulesVerdict(run: Run): RunStatus {
    if Verifier.AnyFailed(run.steps) then RunFailed
    else if Verifier.Complete(run.spec, run.steps) then Completed
    else RunFailed
  }

  function PlanningRun(run: Run, out: Outside): Run {
    AddEvent(run.(status := Planning, stopReason := ""), out.stamps, StepEvent, "正在评估结果")
  }

  /** Saves the run as planning, asks the model, saves what comes of it. */
  ghost function ModelRound(w: World, run: Run, adv: AdvanceInput, out: Outside, tick: nat): Outcome {
    var w1 := Save(w, run, out.ticks(tick));
    var judged := Evaluated(Saved(w, run), adv, out);
    if judged.None? then Outcome(w1, true) else Outcome(Save(w1, judged.value, out.ticks(tick + 1)), false)
  }

  datatype Continued = ContinuationThrows | NotApplied(askUser: string) | Applied(run: Run)

  /** `applyDeterministicMissionContinuation` */
  ghost function Continue(run: Run, fallback: Option<Continuation>, authorized: bool, out: Outside): Continued {
    match fallback
    case None => NotApplied("")
    case Some(c) =>
      if c.items == [] then NotApplied(c.askUser)
      else
        match Normalized(c.items, run.id, Owner(run), run.steps)
        case None => ContinuationThrows
        case Some(normalized) =>
          Applied(Continuing(run, Authorize(normalized, authorized), out))
  }

  function Continuing(run: Run, batch: seq<Step>, out: Outside): Run {
    var status := AfterBatch(batch);
    AddEvent(
      run.(steps := run.steps + batch, iteration := Min(run.maxIterations, run.iteration + 1), status := status,
           stopReason := if status == AwaitingConfirmation then "等待确认确定性续跑动作" else ""),
      out.stamps, PlanEvent, "已切换服务端确定性续跑")
  }

  /** The run as the model's evaluation leaves it; nothing when an exception escapes. */
  ghost function Evaluated(run: Run, adv: AdvanceInput, out: Outside): Option<Run> {
    match adv.evaluation
    case None => AfterModelFailure(run, adv, out)
    case Some(e) =>
      if e.done then Some(ClaimedDone(run, out))
      else if e.askUser != "" then Some(Ended(run, WaitingUser, e.askUser, out))
      else
        match Normalized(e.next, run.id, Owner(run), run.steps)
        case None => AfterModelFailure(run, adv, out)
        case Some(normalized) =>
          if normalized == [] then WithoutNext(run, adv, out)
          else Some(NextRound(run, Authorize(normalized, adv.authorized), out))
  }

  /** The model says the goal is reached: the completion gate decides. */
  function ClaimedDone(run: Run, out: Outside): Run {
    if Verifier.Complete(run.spec, run.steps) then Ended(run, Completed, "目标完成标准已经满足", out)
    else
      AddEvent(run.(iteration := run.iteration + 1, status := Planning, stopReason := ""), out.stamps, ErrorEvent, "模型完成判断已被拒绝")
  }

  /** The model proposed nothing new: the deterministic continuation, or the user. */
  ghost function WithoutNext(run: Run, adv: AdvanceInput, out: Outside): Option<Run> {
    match Continue(run, adv.fallback, adv.authorized, out)
    case ContinuationThrows => AfterModelFailure(run, adv, out)
    case NotApplied(askUser) => Some(Ended(run, WaitingUser, if askUser != "" then askUser else "现有结果尚未满足目标", out))
    case Applied(continued) => Some(continued)
  }

  /** The next batch replaces what failed. */
  function NextRound(run: Run, batch: seq<Step>, out: Outside): Run {
    AddEvent(run.(iteration := run.iteration + 1, steps := SkipFailed(run.steps) + batch, status := AfterBatch(batch)),
             out.stamps, PlanEvent, "已根据真实结果生成下一轮行动")
  }

  ghost function AfterModelFailure(run: Run, adv: AdvanceInput, out: Outside): Option<Run> {
    if Verifier.Complete(run.spec, run.steps) then
      Some(Ended(run, Completed, "模型评估暂不可用，已按服务端完成证据核验", out))
    else
      match Continue(run, adv.fallback, adv.authorized, out)
      case ContinuationThrows => None
      case Applied(continued) => Some(AddEvent(continued, out.stamps, ErrorEvent, "结果评估模型暂不可用"))
      case NotApplied(askUser) =>
        Some(if askUser != "" then Ended(run, WaitingUser, askUser, out)
             else Ended(run, RunFailed, "结果评估失败且没有可靠的确定性续跑路径", out))
  }

  // ---------- Executing a step on request ----------

  predicate AllTerminal(steps: seq<Step>) { forall s | s in steps :: IsTerminal(s.status) }

  /** The run after the step's action returned or failed. */
  function FinishedRun(run: Run, i: nat, outcome: Result<Value, string>, background: bool, out: Outside): Run
    requires i < |run.steps|
  {
    var s := run.steps[i];
    var after :=
      match outcome
      case Ok(v) =>
        AddEvent(run.(steps := run.steps[i := s.(result := Some(v), status := Done)]), out.stamps, ResultEvent, s.title + "已完成")
      case Err(message) =>
        AddEvent(run.(steps := run.steps[i := s.(status := Failed, error := message)],
                      status := if background then run.status else RunFailed), out.stamps, ErrorEvent, s.title + "执行失败：" + message);
    if AllTerminal(after.steps) then after.(status := InProgress) else after
  }

  function StartedRun(run: Run, i: nat, approved: bool, out: Outside): Run
    requires i < |run.steps|
  {
    var s := run.steps[i];
    AddEvent(run.(steps := run.steps[i := s.(error := "", status := Running, approved := s.approved || approved)], status := InProgress),
             out.stamps, if approved then ApprovalEvent else StepEvent, "开始执行：" + s.title)
  }

  function QueuedRun(run: Run, i: nat, approved: bool, out: Outside): Run
    requires i < |run.steps|
  {
    var s := run.steps[i];
    AddEvent(run.(steps := run.steps[i := s.(error := "", status := Queued, approved := s.approved || approved)],
                  status := InProgress, stopReason := ""),
             out.stamps, ApprovalEvent, "已批准并加入后台队列：" + s.title)
  }

  /** The checks before a step may be executed at all. */
  predicate Refused(run: Run, i: int, now: int)
    requires i < |run.steps|
  {
    || run.expiresAt <= now
    || run.status in {Paused, WaitingUser, Completed, RunStatus.Cancelled}
    || i < 0
    || run.steps[i].status == Skipped
    || DependencyFailure(run.steps[i], run.steps) != ""
    || !DependenciesSatisfied(run.steps[i], run.steps)
    || Collect(run.steps[i].input, 0).Err?
  }

  /** `executeAgentStep`; `outcome` is what the step's action would return. */
  ghost function ExecuteStep(
    w: World, id: string, user: Actor, stepId: string, signature: Signature, approved: bool,
    outcome: Result<Value, string>, adv: AdvanceInput, out: Outside): Outcome
  {
    match RequireRun(w, id, user)
    case None => Outcome(w, true)
    case Some(run) =>
      var i := StepIndex(run.steps, stepId);
      if Refused(run, i, out.ticks(0).now) then Outcome(w, true)
      else if HasNoReferences(run.steps[i].input) then ExecuteResolved(w, run, i, signature, approved, outcome, adv, out, 0)
      else ExecutePrepared(w, run, i, signature, approved, outcome, adv, out)
  }

  /** A step that still has references is filled in and stored first; guarded steps then need a new approval. */
  ghost function ExecutePrepared(
    w: World, run: Run, i: nat, signature: Signature, approved: bool,
    outcome: Result<Value, string>, adv: AdvanceInput, out: Outside): Outcome
    requires i < |run.steps|
  {
    if PreparationThrows(run) then Outcome(w, true)
    else
      var prepared := Prepare(run, Owner(run), out.stamps);
      ExecuteFilledIn(Save(Preparing(w, run), prepared, out.ticks(0)), Saved(w, prepared), i, signature, approved, outcome, adv, out)
  }

  ghost function ExecuteFilledIn(
    w: World, run: Run, i: nat, signature: Signature, approved: bool,
    outcome: Result<Value, string>, adv: AdvanceInput, out: Outside): Outcome
    requires i < |run.steps|
  {
    var s := run.steps[i];
    if s.status == Failed || s.risk == External || RequiresSecondaryConfirmation(s.tool, s.input) then Outcome(w, true)
    else ExecuteResolved(w, run, i, signature, approved, outcome, adv, out, 1)
  }

  ghost function ExecuteResolved(
    w: World, run: Run, i: nat, signature: Signature, approved: bool,
    outcome: Result<Value, string>, adv: AdvanceInput, out: Outside, tick: nat): Outcome
    requires i < |run.steps|
  {
    var s := run.steps[i];
    if Sign(run.id, s.id, s.tool, s.input, Owner(run)) != signature then Outcome(w, true)
    else if s.status in {Queued, Running, Done} then Outcome(w, false)
    else if (s.risk == Write || s.risk == External) && !approved && !s.approved then Outcome(w, true)
    else if s.risk == External then Outcome(Enqueue(w, QueuedRun(run, i, approved, out), i, approved, out.ticks(tick)), false)
    else RunNow(w, StartedRun(run, i, approved, out), i, outcome, adv, out, tick)
  }

  function Enqueue(w: World, queued: Run, i: nat, confirmed: bool, tick: Tick): World
    requires i < |queued.steps|
  {
    Save(w.(log := w.log + [QueuedEffect(queued.steps[i], confirmed)]), queued, tick)
  }

  /** Saves the started step, lets its action run, saves what came of it and advances. */
  ghost function RunNow(w: World, started: Run, i: nat, outcome: Result<Value, string>, adv: AdvanceInput, out: Outside, tick: nat): Outcome
    requires i < |started.steps|
  {
    var w1 := Save(w.(log := w.log + [StartedEffect(started.steps[i])]), started, out.ticks(tick));
    var finished := FinishedRun(Saved(w, started), i, outcome, false, out);
    Advance(Save(w1, finished, out.ticks(tick + 1)), started.id, adv, out, tick + 2)
  }

  // ---------- Executing a step in the background ----------

  /** `executeQueuedAgentStep` up to the awaited action. */
  ghost function BeginQueued(w: World, id: string, stepId: string, adv: AdvanceInput, out: Outside): Outcome {
    match Hydrate(w.store, id)
    case None => Outcome(w, false)
    case Some(run) =>
      var i := StepIndex(run.steps, stepId);
      if i < 0 || !adv.active || run.status !in {InProgress, Planning} || run.steps[i].status !in {Ready, Queued} then Outcome(w, false)
      else if PreparationThrows(run) then Outcome(w, true)
      else BeginPrepared(w, run, i, stepId, adv, out)
  }

  /** The step starts unless preparing it failed or its dependencies are open. */
  ghost function BeginPrepared(w: World, stored: Run, i: nat, stepId: string, adv: AdvanceInput, out: Outside): Outcome
    requires i < |stored.steps|
  {
    var prepared := Prepare(stored, Owner(stored), out.stamps);
    var s := prepared.steps[i];
    if s.status !in {Ready, Queued} then
      Advance(Save(Preparing(w, stored), prepared, out.ticks(0)), stored.id, adv, out, 1)
    else if !DependenciesSatisfied(s, prepared.steps) then Outcome(w, false)
    else Outcome(TakeOff(Preparing(w, stored), StartedRun(prepared, i, false, out), i, stepId, out.ticks(0)), false)
  }

  /** The started step is saved and its action awaited. */
  function TakeOff(w: World, started: Run, i: nat, stepId: string, tick: Tick): World
    requires i < |started.steps|
  {
    World(Persist(w.store, started, tick), Some(Flight(Saved(w, started), stepId)), w.log + [StartedEffect(started.steps[i])])
  }

  /** The latest stored run with the finished step entered into it. */
  function LandedRun(latest: Run, stepId: string, result: Value, out: Outside): Run {
    var i := StepIndex(latest.steps, stepId);
    var landed :=
      if i < 0 then latest
      else latest.(steps := latest.steps[i := latest.steps[i].(result := Some(result), status := Done, error := "")]);
    AddEvent(landed, out.stamps, ResultEvent, "后台完成；Mission 保持状态")
  }

  /** `executeQueuedAgentStep` from the awaited action on. */
  ghost function FinishQueued(w: World, id: string, outcome: Result<Value, string>, adv: AdvanceInput, out: Outside): Outcome {
    if w.flight.None? then Outcome(w, false)
    else
      var flight := w.flight.value;
      var grounded := w.(flight := None);
      var i := StepIndex(flight.run.steps, flight.stepId);
      var latest := Hydrate(w.store, id);
      if outcome.Ok? && latest.Some? && latest.value.status in {Paused, RunStatus.Cancelled} then
        Outcome(Save(grounded, LandedRun(latest.value, flight.stepId, outcome.value, out), out.ticks(0)), false)
      else if i < 0 then Outcome(grounded, false)
      else
        var finished := FinishedRun(flight.run, i, outcome, true, out);
        Advance(Save(grounded, finished, out.ticks(0)), id, adv, out, 1)
  }

  // ---------- Restart ----------

  const INTERRUPTED: string := "服务重启时动作仍在执行，为避免重复发送已停止；请人工确认外部结果后重试"

  /** `recoverInterruptedAgentSteps` over the first `n` step rows of the store. */
  function RecoverRows(store: Store, n: nat, stamps: Stamps): (r: Store)
    requires n <= |store.steps|
    ensures |r.steps| == |store.steps| && r.steps[n..] == store.steps[n..]
  {
    if n == 0 then store
    else
      var before := RecoverRows(store, n - 1, stamps);
      var row := store.steps[n - 1];
      if row.step.status != Running then before
      else
        var (eventId, time) := stamps(|before.events|);
        var i := FindRun(before.runs, row.runId);
        before.(
          steps := before.steps[n - 1 := row.(step := row.step.(status := Failed, error := INTERRUPTED), updatedAt := time)],
          runs := if i < 0 then before.runs else before.runs[i := before.runs[i].(status := RunFailed)],
          events := before.events + [EventRecord(row.runId, Event(eventId, ErrorEvent, INTERRUPTED, time))])
  }

  function Restart(w: World, stamps: Stamps): World {
    World(RecoverRows(w.store, |w.store.steps|, stamps), None, w.log)
  }

  // ---------- Restoring a checkpoint ----------

  function FindCheckpoint(checkpoints: seq<Checkpoint>, id: string, run: Run): Option<Checkpoint> {
    if checkpoints == [] then None
    else
      var c := checkpoints[0];
      if c.id == id && c.runId == run.id && c.ownerId == run.ownerId && c.teamId == run.teamId then Some(c)
      else FindCheckpoint(checkpoints[1..], id, run)
  }

  predicate ExternalUnderWay(steps: seq<Step>) {
    exists s | s in steps :: s.risk == External && s.status in {Queued, Running, Done}
  }

  predicate LosesWrite(steps: seq<Step>, rows: seq<StepRecord>) {
    exists s | s in steps :: s.risk == Write && s.status == Done
      && !(StoredStep(rows, s.id).Some? && StoredStep(rows, s.id).value.status == Done)
  }

  function RestoredStep(run: Run, row: StepRecord): Step {
    var s := WithKey(row.step);
    var guarded := s.risk == Write || s.risk == External;
    var status := if s.status == Running || s.status == Queued then (if guarded then NeedsConfirmation else Ready) else s.status;
    s.(status := status,
       error := if status == Failed || status == Skipped then s.error else "",
       signature := Sign(run.id, s.id, s.tool, s.input, Owner(run)),
       approved := s.approved && !guarded)
  }

  function RestoredSteps(run: Run, rows: seq<StepRecord>): (steps: seq<Step>)
    ensures |steps| == |rows| && forall i | 0 <= i < |steps| :: steps[i] == RestoredStep(run, rows[i])
  {
    seq(|rows|, i requires 0 <= i < |rows| => RestoredStep(run, rows[i]))
  }

  function RestoredRun(run: Run, checkpoint: Checkpoint, out: Outside): Run {
    var r := checkpoint.snapshot.run;
    var steps := RestoredSteps(run, checkpoint.snapshot.steps);
    var waiting := exists s | s in steps :: s.status == NeedsConfirmation;
    var status := if AnyReady(steps) then InProgress else if waiting then AwaitingConfirmation else Completed;
    var restored := Run(run.id, run.ownerId, run.teamId, r.goal, r.spec, status, r.iteration, r.maxIterations,
                        if status == AwaitingConfirmation then "恢复后等待重新审批" else "",
                        r.createdAt, run.expiresAt, steps, EventsOf(checkpoint.snapshot.events));
    AddEvent(restored, out.stamps, PlanEvent, RESTORE_MARK)
  }

  /** What a restore logs: every write it left ready or failed, and whether nothing was left to do. */
  function Restoring(run: Run): seq<Effect> { PutBack(run.steps) + [RestoredEffect(run.status == Completed)] }

  predicate IsPutBack(s: Step) { s.risk == Write && (s.status == Ready || s.status == Failed) }

  function PutBack(steps: seq<Step>): (r: seq<Effect>)
    ensures forall e | e in r :: e.PutBackEffect?
    ensures forall id :: PutBackEffect(id) in r <==> exists s | s in steps :: s.id == id && IsPutBack(s)
  {
    if steps == [] then []
    else (if IsPutBack(steps[0]) then [PutBackEffect(steps[0].id)] else []) + PutBack(steps[1..])
  }

  /** `restoreAgentMissionCheckpoint` */
  function Restore(w: World, id: string, user: Actor, checkpointId: string, active: bool, out: Outside): Outcome {
    match RequireRun(w, id, user)
    case None => Outcome(w, true)
    case Some(run) =>
      match FindCheckpoint(w.store.checkpoints, checkpointId, run)
      case None => Outcome(w, true)
      case Some(checkpoint) =>
        if ExternalUnderWay(run.steps) || LosesWrite(run.steps, checkpoint.snapshot.steps) || !active then Outcome(w, true)
        else
          var restored := RestoredRun(run, checkpoint, out);
          Outcome(Save(w.(log := w.log + Restoring(Saved(w, restored))), restored, out.ticks(0)), false)
  }
}
