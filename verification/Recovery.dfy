/** `decideAgentStepRecovery`: what may be done about a failed step. */
module Recovery {
  import opened Prelude
  import opened Values
  import opened AgentTypes
  import opened References
  import opened Planning

  datatype RecoveryAction = RetryOnce | Replan | WaitUser | Stop

  datatype RecoveryCategory = Transient | Validation | Permission | NotFound | ExternalUnknown | UnknownFailure

  datatype Decision = Decision(action: RecoveryAction, category: RecoveryCategory)

  const PERMISSION: seq<string> := ["401", "403", "无权", "权限", "forbidden", "unauthorized"]
  const NOT_FOUND: seq<string> := ["404", "不存在", "not found"]
  const VALIDATION: seq<string> :=
    ["400", "422", "schema", "zod", "字段", "参数", "格式", "必填", "validation", "invalid"]
  const TRANSIENT: seq<string> :=
    ["408", "409", "425", "429", "500", "502", "503", "504", "timeout", "timed out",
     "econnreset", "econnrefused", "socket", "network", "temporar"]

  predicate Mentions(message: string, patterns: seq<string>) {
    exists p | p in patterns :: Occurs(p, message)
  }

  predicate HasIdempotencyKey(s: Step) { AsText(Field(Field(s.input, "headers"), "Idempotency-Key")) != "" }

  /** Running the step again cannot do its effect twice. */
  predicate SafeToRepeat(s: Step) { s.risk != External && (s.risk == Write ==> HasIdempotencyKey(s)) }

  /**
   A step is retried exactly when repeating it is safe and its error mentions a passing disturbance and
   none of permission, a missing object or a malformed input. External failures and refused permission
   stop the mission; everything else is planned anew, and the user is never asked.
   */
  function DecideRecovery(s: Step): (d: Decision)
    ensures var m := Lower(s.error);
      d.action == RetryOnce <==>
        SafeToRepeat(s) && Mentions(m, TRANSIENT) && forall other | other in [PERMISSION, NOT_FOUND, VALIDATION] :: !Mentions(m, other)
    ensures d.action == Stop <==> s.risk == External || Mentions(Lower(s.error), PERMISSION)
    ensures d.action == Replan <==> d.action != RetryOnce && d.action != Stop
    ensures s.risk == External <==> d.category == ExternalUnknown
    ensures d.action == Stop <==> d.category == ExternalUnknown || d.category == Permission
    ensures d.action == RetryOnce ==> d.category == Transient
  {
    var message := Lower(s.error);
    if s.risk == External then Decision(Stop, ExternalUnknown)
    else if Mentions(message, PERMISSION) then Decision(Stop, Permission)
    else if Mentions(message, NOT_FOUND) then Decision(Replan, NotFound)
    else if Mentions(message, VALIDATION) then Decision(Replan, Validation)
    else if Mentions(message, TRANSIENT) then
      if s.risk == Read || s.risk == Draft || HasIdempotencyKey(s) then Decision(RetryOnce, Transient)
      else Decision(Replan, Transient)
    else Decision(Replan, UnknownFailure)
  }

  function Describe(d: Decision): string {
    (match d.category
     case Transient => "transient"
     case Validation => "validation"
     case Permission => "permission"
     case NotFound => "not_found"
     case ExternalUnknown => "external_unknown"
     case UnknownFailure => "unknown")
    + "/" +
    (match d.action
     case RetryOnce => "retry_once"
     case Replan => "replan"
     case WaitUser => "wait_user"
     case Stop => "stop")
  }
}
