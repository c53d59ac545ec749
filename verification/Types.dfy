/** The statuses of pkg/types/run.go. */
module Types {

  datatype RunStatus = RunRunning | RunComplete | RunFailed

  datatype StepKind = Transform | Agent | Webhook | SubWorkflow

  datatype StepStatus = NotStarted | Running | PendingApproval | Complete | Failed | Skipped

  datatype ApprovalStatus = Pending | Approved | Rejected | TimedOut
}
