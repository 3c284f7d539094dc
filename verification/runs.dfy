/** The stored record of an agent run (models.go, schema.go). */
module Runs {
  import opened Budget

  type RunId = nat
  type ChainId = nat

  /** The empty chain id: a run that never yielded. */
  const NO_CHAIN: ChainId := 0

  datatype Status =
    | PendingIntake | PendingExecution | Running
    | Completed | Failed | Yielded
    | Cancelled | RolledBack
    | Unknown(text: string)

  /** What ExecuteRunStreaming accepts. */
  predicate Startable(s: Status) {
    s.PendingIntake? || s.PendingExecution?
  }

  /** isActiveRunStatus */
  predicate Active(s: Status) {
    s.PendingIntake? || s.PendingExecution? || s.Running?
  }

  /** What a rollback cancels; completed and failed runs it freezes instead. */
  predicate InFlight(s: Status) {
    Active(s) || s.Yielded?
  }

  predicate Ended(s: Status) {
    s.Completed? || s.Failed?
  }

  /** The recorded error message. */
  datatype Fault =
    | NoFault
    | MaxSessionsReached(max: int, segment: int)
    | TimedOut(seconds: int)
    | LlmFault(text: string)
    | NoActionsFound
    | Interrupted

  datatype Stamp = Unset | AtTime(t: int)

  /** The part of a run that no step of the protocol ever reads. */
  datatype Content = Content(
    output: string,
    error: Fault,
    inputTokens: int,
    outputTokens: int,
    completedAt: Stamp,
    writes: seq<string>,
    debrief: string,
    rollbackReason: string)

  const BLANK := Content("", NoFault, 0, 0, Unset, [], "", "")

  /** What a chain's segments share. */
  datatype Lineage = Lineage(task: string, workflow: string, instructions: string, plan: Limits)

  datatype Run = Run(
    lineage: Lineage,
    status: Status,
    chain: ChainId,
    segment: int,
    partial: string,
    content: Content)
}
