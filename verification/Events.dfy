/**
 The run-events contract (internal/events): one immutable envelope per step of
 a run, carrying one of nine payloads. A payload that does not decode is
 `Malformed`; free-form JSON (tool arguments, prompts) is kept as text.
 */
module Events {
  import opened Wrappers

  datatype EventType =
    | RunStartedEvent | LLMRespondedEvent | ToolInvokedEvent | ToolResultedEvent
    | AwaitingApprovalEvent | RunApprovedEvent
    | RunCompletedEvent | RunFailedEvent | RunCancelledEvent

  /** One content block of an LLM response. */
  datatype Block = Text(text: string) | ToolUse(id: string, name: string, args: string)

  datatype ToolStatus = Success | Error

  datatype Resolution = Executed | Cached | Reconciled | Reexecuted

  datatype Failure = Failure(step: int, errorClass: string, errorMessage: string, retryable: bool)

  datatype ToolResult = ToolResult(
    step: int, toolUseId: string, toolName: string, result: string,
    status: ToolStatus, wasReplayedFromCache: bool, resolution: Resolution)

  /** `input` and `content` are None when their JSON has the wrong shape. */
  datatype Payload =
    | RunStarted(workloadType: string, input: Option<string>, maxSteps: int)
    | LLMResponded(step: int, stopReason: string, content: Option<seq<Block>>, isTerminal: bool)
    | ToolInvoked(step: int, toolUseId: string, toolName: string, toolArgs: string,
                  key: Option<string>, hasSideEffect: bool)
    | ToolResulted(result: ToolResult)
    | AwaitingApproval(step: int)
    | RunApproved(step: int)
    | RunCompleted(finalOutput: string, totalSteps: int)
    | RunFailed(failure: Failure)
    | RunCancelled(step: int)
    | Malformed(kind: EventType)
  {
    function Type(): EventType {
      match this
      case RunStarted(_, _, _) => RunStartedEvent
      case LLMResponded(_, _, _, _) => LLMRespondedEvent
      case ToolInvoked(_, _, _, _, _, _) => ToolInvokedEvent
      case ToolResulted(_) => ToolResultedEvent
      case AwaitingApproval(_) => AwaitingApprovalEvent
      case RunApproved(_) => RunApprovedEvent
      case RunCompleted(_, _) => RunCompletedEvent
      case RunFailed(_) => RunFailedEvent
      case RunCancelled(_) => RunCancelledEvent
      case Malformed(kind) => kind
    }
  }

  datatype Envelope = Envelope(
    eventId: string, runId: string, tenantId: string, seqNo: int,
    payload: Payload, occurredAt: int, key: Option<string>)
}
