/** The records of the suspend / approve / resume protocol and how its handlers change them. */
module Approvals {
  import opened Wrappers
  import opened Values
  import opened Metrics
  import opened Types
  import L = AgentLoop
  import T = Transcript
  import Reserved

  datatype Approval = Approval(
    call: L.ToolCall,
    onReject: string,
    timeoutMS: int,
    timeoutBehavior: string,
    status: ApprovalStatus,
    originalRequest: L.Request,
    partialMetrics: Metrics)

  datatype StepRecord = StepRecord(status: StepStatus, metrics: Metrics, messages: seq<L.Message>)

  datatype PayloadStatus = Succeeded | WasSkipped | HasFailed

  /** What reaches the waiting dispatch. */
  datatype Payload = Payload(status: PayloadStatus, output: Object, error: string, metrics: Metrics, isResume: bool)

  /** Metrics as approvals and step records keep them: without the reflection count. */
  function Partial(m: Metrics): Metrics {
    m.(counts := m.counts.(reflectCalls := 0))
  }

  function CheckpointStep(step: StepRecord, leg: L.Leg): StepRecord {
    step.(status := PendingApproval, metrics := Partial(leg.state.metrics),
          messages := if leg.state.messages != [] then leg.state.messages else step.messages)
  }

  function NewApproval(req: L.Request, leg: L.Leg): Approval
    requires leg.outcome.Suspended?
  {
    var p := leg.outcome.pending;
    Approval(p.call, p.onReject, p.timeoutMS, p.timeoutBehavior, Pending, req, Partial(leg.state.metrics))
  }

  function FinalPayload(req: L.Request, leg: L.Leg): Payload
    requires !leg.outcome.Suspended?
  {
    match leg.outcome
    case Finished(output) => Payload(Succeeded, output, "", leg.state.metrics, req.isResume)
    case Failed(error) => Payload(HasFailed, map[], error, leg.state.metrics, req.isResume)
  }

  /** The reserved fields of a successful output are processed before the dispatch sees it. */
  function Reviewed(p: Payload): Payload {
    if p.status != Succeeded then p
    else
      match Reserved.ProcessReservedFields(p.output, 0.0)
      case Reject(error) => p.(status := HasFailed, error := error, output := map[])
      case Skip(clean, _) => p.(status := WasSkipped, output := clean)
      case Keep(clean) =>
        if Reserved.Airlock(clean, []) then p.(output := clean) else p.(status := HasFailed, error := "air-lock", output := map[])
  }

  /** A resumed leg's payload also carries what the suspended leg used. */
  function Accumulated(p: Payload, approval: Option<Approval>): Payload {
    if p.isResume && approval.Some? then
      p.(metrics := p.metrics.Plus(Partial(approval.value.partialMetrics)))
    else p
  }

  function FailedPayload(approval: Approval, error: string): Payload {
    Payload(HasFailed, map[], error, Partial(approval.partialMetrics), false)
  }

  const REJECTION := "Tool call rejected by human reviewer. Please find an alternative approach."

  function SavedMessages(step: Option<StepRecord>): seq<L.Message> {
    if step.Some? then step.value.messages else []
  }

  /** The request that resumes an approved call: from the checkpoint if one was saved. */
  function ApproveRequest(approval: Approval, step: Option<StepRecord>): L.Request {
    var messages := if SavedMessages(step) != [] then SavedMessages(step) else approval.originalRequest.messages;
    T.ApprovedRequest(approval.originalRequest, messages, approval.call.id)
  }

  /** The request that lets the agent go on without the rejected call. */
  function RecoverRequest(approval: Approval, step: Option<StepRecord>): L.Request {
    approval.originalRequest.(
      messages := SavedMessages(step) + [L.ResultMessage(approval.call.id, REJECTION)], isResume := true)
  }
}
