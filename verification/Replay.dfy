/**
 The replay fold (internal/replay/fold.go, state.go, replay.go, terminal.go):
 a run's state is computed from its events alone.
 */
module Replay {
  import opened Wrappers
  import opened Events

  datatype RunStatus = NoStatus | Running | WaitingApproval | Completed | Failed | Cancelled

  datatype NextAction =
    NoAction | CallLLM | ExecuteTool | ResolveInFlightTool | FailMaxSteps | FinishRun | ActionNone

  /** The last three fields are set only on a run's in-flight tool. */
  datatype ToolCall = ToolCall(
    toolUseId: string, toolName: string, toolArgs: string,
    hasSideEffect: bool, key: Option<string>, invokedAt: int)

  datatype Invocation = Invocation(hasSideEffect: bool, key: Option<string>, invokedAt: int)

  datatype StepRecord = StepRecord(
    content: seq<Block>, isTerminal: bool, stopReason: string,
    invoked: map<string, Invocation>, order: seq<string>, invokedOrder: seq<string>,
    results: map<string, ToolResult>)

  datatype RunState = RunState(
    runId: string, tenantId: string, status: RunStatus, currentStep: int, maxSteps: int,
    nextSequence: int, lastEventId: string, lastEventAt: int,
    pending: seq<ToolCall>, inFlight: Option<ToolCall>, nextAction: NextAction,
    finalOutput: string, failure: Option<Failure>,
    prompt: string, steps: seq<StepRecord>, seen: map<int, string>)

  /** The zero RunState, before any event. */
  const EMPTY := RunState("", "", NoStatus, 0, 0, 0, "", 0, [], None, NoAction, "", None, "", [], map[])

  datatype ApplyError =
    | RunNotFound | FirstEventNotStart | SequenceGap | ConflictingEvent | EventAfterTerminal
    | RunIdMismatch | UnknownToolUseId | ToolOrder | InvalidPayload

  predicate IsTerminalStatus(status: RunStatus) {
    status == Completed || status == Failed || status == Cancelled
  }

  function ToolUseIds(content: seq<Block>): seq<string> {
    if content == [] then []
    else if content[0].ToolUse? then [content[0].id] + ToolUseIds(content[1..])
    else ToolUseIds(content[1..])
  }

  predicate AllResulted(step: StepRecord) {
    forall id | id in step.order :: id in step.results
  }

  /** The first tool_use block carrying `id`. */
  function ToolCallFromContent(content: seq<Block>, id: string): Option<ToolCall> {
    if content == [] then None
    else if content[0].ToolUse? && content[0].id == id then
      Some(ToolCall(id, content[0].name, content[0].args, false, None, 0))
    else ToolCallFromContent(content[1..], id)
  }

  /** The calls among `ids` that were neither invoked nor resulted, in order. */
  function PendingCalls(step: StepRecord, ids: seq<string>): seq<ToolCall> {
    if ids == [] then []
    else
      var rest := PendingCalls(step, ids[1..]);
      if ids[0] in step.results || ids[0] in step.invokedOrder then rest
      else match ToolCallFromContent(step.content, ids[0])
        case Some(tc) => [tc] + rest
        case None => rest
  }

  /** The first call among `ids` that was invoked and has no result. */
  function FirstInFlight(step: StepRecord, ids: seq<string>): Option<ToolCall> {
    if ids == [] then None
    else
      var rest := FirstInFlight(step, ids[1..]);
      if ids[0] in step.results || ids[0] !in step.invokedOrder then rest
      else match ToolCallFromContent(step.content, ids[0])
        case None => rest
        case Some(tc) => Some(WithInvocation(tc, step.invoked, ids[0]))
  }

  /** A missing entry reads as Go's zero value, as a map lookup does there. */
  function WithInvocation(tc: ToolCall, invoked: map<string, Invocation>, id: string): ToolCall {
    if id in invoked then
      tc.(hasSideEffect := invoked[id].hasSideEffect, key := invoked[id].key, invokedAt := invoked[id].invokedAt)
    else tc.(hasSideEffect := false, key := None, invokedAt := 0)
  }

  function DeriveToolState(s: RunState): RunState {
    if s.steps == [] then s.(pending := [], inFlight := None)
    else
      var last := s.steps[|s.steps| - 1];
      s.(pending := PendingCalls(last, last.order), inFlight := FirstInFlight(last, last.order))
  }

  function ComputeNextAction(s: RunState): NextAction {
    if IsTerminalStatus(s.status) || s.status == WaitingApproval then ActionNone
    else if s.steps == [] then CallLLM
    else if s.inFlight.Some? then ResolveInFlightTool
    else
      var last := s.steps[|s.steps| - 1];
      if last.isTerminal then FinishRun
      else if s.pending != [] then ExecuteTool
      else if last.order == [] then FinishRun
      else if s.currentStep < s.maxSteps then CallLLM
      else FailMaxSteps
  }

  function ApplyLLMResponded(s: RunState, p: Payload): Result<RunState, ApplyError>
    requires p.LLMResponded?
  {
    if s.steps != [] && s.steps[|s.steps| - 1].order != [] && !AllResulted(s.steps[|s.steps| - 1]) then Err(ToolOrder)
    else match p.content
      case None => Err(InvalidPayload)
      case Some(content) =>
        var step := StepRecord(content, p.isTerminal, p.stopReason, map[], ToolUseIds(content), [], map[]);
        Ok(s.(currentStep := p.step, steps := s.steps + [step]))
  }

  /** The current (last) step, if `id` is one of its tool_use blocks. */
  function CurrentStepFor(s: RunState, id: string): Result<StepRecord, ApplyError> {
    if s.steps == [] || id !in s.steps[|s.steps| - 1].order then Err(UnknownToolUseId)
    else Ok(s.steps[|s.steps| - 1])
  }

  function ReplaceLast(s: RunState, step: StepRecord): RunState
    requires s.steps != []
  {
    s.(steps := s.steps[|s.steps| - 1 := step])
  }

  function ApplyToolInvoked(s: RunState, p: Payload, at: int): Result<RunState, ApplyError>
    requires p.ToolInvoked?
  {
    var step :- CurrentStepFor(s, p.toolUseId);
    if p.toolUseId in step.invokedOrder then Err(ToolOrder)
    else Ok(ReplaceLast(s, step.(
      invokedOrder := step.invokedOrder + [p.toolUseId],
      invoked := step.invoked[p.toolUseId := Invocation(p.hasSideEffect, p.key, at)])))
  }

  function ApplyToolResulted(s: RunState, r: ToolResult): Result<RunState, ApplyError> {
    var step :- CurrentStepFor(s, r.toolUseId);
    if r.toolUseId !in step.invokedOrder || r.toolUseId in step.results then Err(ToolOrder)
    else Ok(ReplaceLast(s, step.(results := step.results[r.toolUseId := r])))
  }

  function ApplyPayload(s: RunState, p: Payload, at: int): Result<RunState, ApplyError> {
    match p
    case RunStarted(_, input, maxSteps) =>
      if input.None? then Err(InvalidPayload)
      else Ok(s.(status := Running, currentStep := 0, maxSteps := maxSteps, prompt := input.value))
    case LLMResponded(_, _, _, _) => ApplyLLMResponded(s, p)
    case ToolInvoked(_, _, _, _, _, _) => ApplyToolInvoked(s, p, at)
    case ToolResulted(r) => ApplyToolResulted(s, r)
    case AwaitingApproval(_) => Ok(s.(status := WaitingApproval))
    case RunApproved(_) => Ok(s.(status := Running))
    case RunCompleted(finalOutput, _) => Ok(s.(status := Completed, finalOutput := finalOutput))
    case RunFailed(failure) => Ok(s.(status := Failed, failure := Some(failure)))
    case RunCancelled(_) => Ok(s.(status := Cancelled))
    case Malformed(_) => Err(InvalidPayload)
  }

  /** Derived fields, then bookkeeping, after the payload's own transition. */
  function Bookkeep(s: RunState, e: Envelope): RunState {
    var d := DeriveToolState(s);
    d.(nextAction := ComputeNextAction(d), nextSequence := e.seqNo + 1,
       lastEventId := e.eventId, lastEventAt := e.occurredAt, seen := d.seen[e.seqNo := e.eventId])
  }

  /** The checks that need no payload, for an event that is not a redelivery. */
  function StructuralError(s: RunState, e: Envelope): Option<ApplyError> {
    if s.seen == map[] then
      if e.seqNo != 0 || e.payload.Type() != RunStartedEvent then Some(FirstEventNotStart) else None
    else if e.runId != s.runId then Some(RunIdMismatch)
    else if IsTerminalStatus(s.status) then Some(EventAfterTerminal)
    else if e.seqNo != s.nextSequence then Some(SequenceGap)
    else None
  }

  /** One event. An error leaves the caller with the state it had. */
  function Apply(s: RunState, e: Envelope): Result<RunState, ApplyError> {
    if e.seqNo in s.seen then
      if s.seen[e.seqNo] == e.eventId then Ok(s) else Err(ConflictingEvent)
    else match StructuralError(s, e)
      case Some(err) => Err(err)
      case None =>
        var named := if s.seen == map[] then s.(runId := e.runId, tenantId := e.tenantId) else s;
        var next :- ApplyPayload(named, e.payload, e.occurredAt);
        Ok(Bookkeep(next, e))
  }

  function FoldFrom(s: RunState, evs: seq<Envelope>): Result<RunState, ApplyError>
    decreases |evs|
  {
    if evs == [] then Ok(s)
    else
      var next :- Apply(s, evs[0]);
      FoldFrom(next, evs[1..])
  }

  function Fold(evs: seq<Envelope>): Result<RunState, ApplyError> {
    if evs == [] then Err(RunNotFound) else FoldFrom(EMPTY, evs)
  }

  /** The events before the first one past `upTo`. */
  function UpTo(evs: seq<Envelope>, upTo: int): seq<Envelope> {
    if evs == [] || evs[0].seqNo > upTo then [] else [evs[0]] + UpTo(evs[1..], upTo)
  }

  function FoldUpTo(evs: seq<Envelope>, upTo: int): Result<RunState, ApplyError> {
    Fold(UpTo(evs, upTo))
  }

  /** The text blocks of the latest response, joined (terminal.go). */
  function JoinText(content: seq<Block>): string {
    if content == [] then ""
    else (if content[0].Text? then content[0].text else "") + JoinText(content[1..])
  }

  const MAX_TOKENS := "max_tokens"

  /** The terminal event owed by a run whose next action is FinishRun. */
  function TerminalPayload(s: RunState): Payload
    requires s.steps != []
  {
    var last := s.steps[|s.steps| - 1];
    if !last.isTerminal then
      RunFailed(Failure(s.currentStep, "malformed_llm_response", "llm reported stop_reason=tool_use but the response had no tool_use content block", false))
    else if last.stopReason == MAX_TOKENS then
      RunFailed(Failure(s.currentStep, "llm_output_truncated", "llm response was truncated (stop_reason=max_tokens)", false))
    else RunCompleted(JoinText(last.content), s.currentStep)
  }
}
