/** Steps, runs and events of the mission engine, and its constant status and risk tables. */
module AgentTypes {
  import opened Prelude
  import opened Values

  datatype Risk = Read | Draft | Write | External

  datatype Tool =
    | UiNavigate | UiOpenCustomer | UiOpenLead | UiOpenDevelopmentEmail | UiOpenCommunication
    | CrmSearchCustomers | CrmSearchLeads | CrmGetPipelineSnapshot | CrmGetCustomerOverview
    | CrmListPendingTodos | CrmCreateTodo | CrmRecordCustomerFollowup | CrmUpdateCustomerProfile
    | ProspectPreviewSearchPlan | ProspectStartSearch | ProspectGetSearchProgress
    | ProspectListCandidates | ProspectConvertToLead | ProspectConvertToCustomer
    | OutreachDraftDevelopmentEmail | OutreachSendDevelopmentEmail | OutreachSendWhatsapp
    | OutreachCreateSequence | OutreachGetSequenceProgress | OutreachPauseSequence
    | OutreachResumeSequence | OutreachCancelSequence
    | MaintenancePreview | MaintenanceCreateWatch | MaintenanceGetProgress
    | MaintenancePauseWatch | MaintenanceResumeWatch | MaintenanceCancelWatch
    | ResearchRunBackground | CommunicationGetInbox
    | MemoryList | MemoryPropose | MemoryActivate | MemoryArchive | KnowledgePropose
    | ApiCatalog | ApiRead | ApiWrite | ApiExternal | IntegrationCatalog | IntegrationRead

  function ToolRisk(tool: Tool): Risk {
    match tool
    case UiOpenDevelopmentEmail | UiOpenCommunication | ProspectPreviewSearchPlan
       | OutreachDraftDevelopmentEmail | ResearchRunBackground => Draft
    case CrmCreateTodo | CrmRecordCustomerFollowup | CrmUpdateCustomerProfile
       | ProspectConvertToLead | ProspectConvertToCustomer
       | OutreachPauseSequence | OutreachResumeSequence | OutreachCancelSequence
       | MaintenanceCreateWatch | MaintenancePauseWatch | MaintenanceResumeWatch | MaintenanceCancelWatch
       | MemoryPropose | MemoryActivate | MemoryArchive | KnowledgePropose | ApiWrite => Write
    case ProspectStartSearch | OutreachSendDevelopmentEmail | OutreachSendWhatsapp
       | OutreachCreateSequence | ApiExternal => External
    case _ => Read
  }

  /** The two observers whose finished step is rewound and run again while a search or a sequence lasts. */
  predicate IsPolled(tool: Tool) {
    tool.ProspectGetSearchProgress? || tool.OutreachGetSequenceProgress?
  }

  predicate IsUiTool(tool: Tool) {
    tool in {UiNavigate, UiOpenCustomer, UiOpenLead, UiOpenDevelopmentEmail, UiOpenCommunication}
  }

  datatype StepStatus = Ready | NeedsConfirmation | Queued | Running | Done | Failed | Skipped

  predicate IsActive(status: StepStatus) {
    status == Ready || status == NeedsConfirmation || status == Queued
  }

  predicate IsTerminal(status: StepStatus) {
    status == Done || status == Failed || status == Skipped
  }

  /** The keyed digest of a step, taken as an injective function of what it signs. */
  datatype Signature = Signature(runId: string, stepId: string, tool: Tool, input: Value, userId: string, teamId: string)

  datatype Step = Step(
    id: string,
    key: string,
    dependsOn: seq<string>,
    tool: Tool,
    risk: Risk,
    status: StepStatus,
    title: string,
    input: Value,
    result: Option<Value>,
    error: string,
    signature: Signature,
    approved: bool)

  datatype Actor = Actor(id: string, teamId: string)

  datatype RunStatus =
    | Planning | AwaitingConfirmation | InProgress | Paused | WaitingUser | Completed | RunFailed | Cancelled

  datatype EventType = PlanEvent | StepEvent | ApprovalEvent | ResultEvent | ErrorEvent | AssistantEvent

  datatype Event = Event(id: string, kind: EventType, message: string, createdAt: int)
}
