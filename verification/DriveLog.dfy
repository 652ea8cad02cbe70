/**
 The logs the worker's loop writes (internal/agent/loop.go): which event it may
 journal in which state, and what that guarantees beyond the fold's own rules.
 */
module DriveLog {
  import opened Wrappers
  import opened Events
  import opened Replay
  import opened ReplayLaws
  import IdemKey

  const TOOL_USE := "tool_use"

  /** The key a side-effecting invocation journals; none for a tool that only reads. */
  function KeyFor(runId: string, step: int, id: string, hasSideEffect: bool): Option<string> {
    if hasSideEffect then Some(IdemKey.Key(runId, step, id)) else None
  }

  predicate FailsAt(s: RunState, p: Payload) {
    p.RunFailed? && p.failure.step == s.currentStep
  }

  /** The payloads the loop may journal next. */
  predicate MayEmit(s: RunState, p: Payload) {
    match s.nextAction
    case CallLLM =>
      || FailsAt(s, p)
      || (p.LLMResponded? && p.step == s.currentStep + 1 && p.content.Some?
          && p.isTerminal == (p.stopReason != TOOL_USE))
    case ExecuteTool =>
      && s.pending != [] && p.ToolInvoked? && p.step == s.currentStep
      && p.toolUseId == s.pending[0].toolUseId && p.toolName == s.pending[0].toolName && p.toolArgs == s.pending[0].toolArgs
      && p.key == KeyFor(s.runId, s.currentStep, p.toolUseId, p.hasSideEffect)
    case ResolveInFlightTool =>
      && s.inFlight.Some?
      && (|| FailsAt(s, p)
          || (p.ToolResulted? && p.result.step == s.currentStep
              && p.result.toolUseId == s.inFlight.value.toolUseId && p.result.toolName == s.inFlight.value.toolName))
    case FinishRun => s.steps != [] && p == TerminalPayload(s)
    case FailMaxSteps => FailsAt(s, p)
    case _ => false
  }

  ghost predicate Emits(s: RunState, e: Envelope) {
    && e.seqNo == s.nextSequence && e.runId == s.runId && e.tenantId == s.tenantId
    && (forall i | i in s.seen :: s.seen[i] != e.eventId)
    && MayEmit(s, e.payload)
  }

  predicate StartsRun(e: Envelope) {
    e.seqNo == 0 && e.payload.RunStarted? && e.payload.input.Some? && e.payload.maxSteps > 0
  }

  /** The next event redelivers an earlier one, or is one the loop emits in the state so far. */
  ghost predicate Continues(init: seq<Envelope>, e: Envelope) {
    e in init || (Fold(init).Ok? && Emits(Fold(init).value, e))
  }

  function Front(log: seq<Envelope>): seq<Envelope>
    requires log != []
  {
    log[..|log| - 1]
  }

  function Last(log: seq<Envelope>): Envelope
    requires log != []
  {
    log[|log| - 1]
  }

  ghost predicate IsDriveLog(log: seq<Envelope>)
    decreases |log|
  {
    || log == []
    || (|log| == 1 && StartsRun(log[0]))
    || (|log| > 1 && IsDriveLog(Front(log)) && Continues(Front(log), Last(log)))
  }

  // ------------------------------------------------ what every such state keeps

  ghost predicate StepKeys(runId: string, number: int, step: StepRecord) {
    forall id | id in step.invoked ::
      step.invoked[id].key == KeyFor(runId, number, id, step.invoked[id].hasSideEffect)
  }

  /** At most one tool is in flight. */
  ghost predicate OneInFlight(step: StepRecord) {
    forall a, b | a in step.invokedOrder && b in step.invokedOrder && a !in step.results && b !in step.results :: a == b
  }

  ghost predicate DriveSteps(runId: string, steps: seq<StepRecord>) {
    && (forall i | 0 <= i < |steps| :: StepKeys(runId, i + 1, steps[i]))
    && (forall i | 0 <= i < |steps| - 1 :: steps[i].order != [] && !steps[i].isTerminal)
    && (steps != [] ==>
          var last := steps[|steps| - 1];
          OneInFlight(last) && (last.isTerminal ==> last.invokedOrder == []))
  }

  ghost predicate DriveShape(s: RunState) {
    && s.status in {Running, Completed, Failed}
    && |s.steps| == s.currentStep <= s.maxSteps && 0 < s.maxSteps
    && DriveSteps(s.runId, s.steps)
  }

  ghost predicate DriveInv(s: RunState) {
    FoldInv(s) && 0 < s.nextSequence && DriveShape(s)
  }

  lemma {:induction false} UninvokedEmpty(step: StepRecord, ids: seq<string>)
    requires Uninvoked(step, ids) == []
    ensures forall id | id in ids :: id in step.invokedOrder
  {
    if ids != [] { UninvokedEmpty(step, ids[1..]); }
  }

  lemma {:induction false} UninvokedAre(step: StepRecord, ids: seq<string>)
    ensures forall id | id in Uninvoked(step, ids) :: id in ids && id !in step.invokedOrder
  {
    if ids != [] { UninvokedAre(step, ids[1..]); }
  }

  /** With nothing pending and nothing in flight, the step is fully resulted. */
  lemma NothingLeft(s: RunState)
    requires FoldInv(s) && 0 < s.nextSequence && s.steps != [] && s.pending == [] && s.inFlight.None?
    ensures AllResulted(s.steps[|s.steps| - 1])
  {
    ToolFieldsMean(s);
    UninvokedEmpty(s.steps[|s.steps| - 1], s.steps[|s.steps| - 1].order);
  }

  /** The pending call the loop takes is a tool_use of the current step that was never invoked. */
  lemma FirstPending(s: RunState)
    requires FoldInv(s) && 0 < s.nextSequence && s.steps != [] && s.pending != []
    ensures var id, last := s.pending[0].toolUseId, s.steps[|s.steps| - 1];
            id in last.order && id !in last.invokedOrder
  {
    ToolFieldsMean(s);
    var last := s.steps[|s.steps| - 1];
    UninvokedAre(last, last.order);
    assert s.pending[0].toolUseId == Uninvoked(last, last.order)[0];
    assert Uninvoked(last, last.order)[0] in Uninvoked(last, last.order);
  }

  /** What the next action says about the current step. */
  ghost predicate ActionFacts(s: RunState) {
    match s.nextAction
    case CallLLM =>
      && s.status == Running && s.currentStep < s.maxSteps
      && (s.steps != [] ==>
            var last := s.steps[|s.steps| - 1];
            last.order != [] && !last.isTerminal && AllResulted(last))
    case ExecuteTool =>
      && s.status == Running && s.steps != [] && s.pending != []
      && var last := s.steps[|s.steps| - 1];
      && !last.isTerminal && s.pending[0].toolUseId in last.order && s.pending[0].toolUseId !in last.invokedOrder
      && (forall id | id in last.invokedOrder :: id in last.results)
    case ResolveInFlightTool =>
      && s.status == Running && s.steps != [] && s.inFlight.Some?
      && var last, id := s.steps[|s.steps| - 1], s.inFlight.value.toolUseId;
      && id in last.order && id in last.invokedOrder && id !in last.results && !last.isTerminal
    case FinishRun =>
      && s.status == Running && s.steps != [] && s.inFlight.None?
      && (s.steps[|s.steps| - 1].isTerminal || s.steps[|s.steps| - 1].order == [])
    case FailMaxSteps => s.status == Running && s.steps != [] && s.currentStep >= s.maxSteps
    case ActionNone => s.status == Completed || s.status == Failed
    case NoAction => false
  }

  lemma ActionMeans(s: RunState)
    requires DriveInv(s)
    ensures ActionFacts(s)
  {
    if s.steps != [] {
      ToolFieldsMean(s);
      if s.pending == [] && s.inFlight.None? { NothingLeft(s); }
      if s.pending != [] { FirstPending(s); }
    }
  }

  /** A payload the loop may emit is accepted, and the shape of the steps survives. */
  ghost predicate PayloadOk(s: RunState, p: Payload, at: int) {
    var r := ApplyPayload(s, p, at);
    r.Ok? && DriveShape(r.value) && r.value.runId == s.runId && r.value.maxSteps == s.maxSteps
  }

  lemma RespondOk(s: RunState, p: Payload, at: int)
    requires DriveShape(s) && ActionFacts(s) && s.nextAction == CallLLM && MayEmit(s, p) && p.LLMResponded?
    ensures PayloadOk(s, p, at)
  {
    var t := ApplyPayload(s, p, at).value;
    forall i | 0 <= i < |t.steps| ensures StepKeys(t.runId, i + 1, t.steps[i]) {
      if i < |s.steps| { assert t.steps[i] == s.steps[i]; }
    }
    forall i | 0 <= i < |t.steps| - 1 ensures t.steps[i].order != [] && !t.steps[i].isTerminal {
      assert t.steps[i] == s.steps[i];
    }
  }

  lemma InvokeOk(s: RunState, p: Payload, at: int)
    requires DriveShape(s) && ActionFacts(s) && s.nextAction == ExecuteTool && MayEmit(s, p)
    ensures PayloadOk(s, p, at)
  {
    var n := |s.steps| - 1;
    var t := ApplyPayload(s, p, at).value;
    assert StepKeys(s.runId, n + 1, s.steps[n]);
    assert OneInFlight(t.steps[n]);
  }

  lemma ResultOk(s: RunState, p: Payload, at: int)
    requires DriveShape(s) && ActionFacts(s) && s.nextAction == ResolveInFlightTool && MayEmit(s, p) && p.ToolResulted?
    ensures PayloadOk(s, p, at)
  {
    var n := |s.steps| - 1;
    var t := ApplyPayload(s, p, at).value;
    assert StepKeys(s.runId, n + 1, s.steps[n]);
    assert OneInFlight(t.steps[n]);
  }

  lemma EndOk(s: RunState, p: Payload, at: int)
    requires DriveShape(s) && (p.RunCompleted? || p.RunFailed?)
    ensures PayloadOk(s, p, at)
  {
    assert ApplyPayload(s, p, at).value.steps == s.steps;
  }

  lemma TerminalEnds(s: RunState)
    requires s.steps != []
    ensures TerminalPayload(s).RunCompleted? || TerminalPayload(s).RunFailed?
  {
  }

  /** What the loop emits, and when. */
  lemma EmitsWhen(s: RunState, p: Payload)
    requires MayEmit(s, p)
    ensures p.LLMResponded? || p.ToolInvoked? || p.ToolResulted? || p.RunCompleted? || p.RunFailed?
    ensures p.LLMResponded? ==> s.nextAction == CallLLM
    ensures p.ToolInvoked? ==> s.nextAction == ExecuteTool
    ensures p.ToolResulted? ==> s.nextAction == ResolveInFlightTool
  {
    if s.steps != [] { TerminalEnds(s); }
  }

  lemma EmitOk(s: RunState, p: Payload, at: int)
    requires DriveShape(s) && ActionFacts(s) && MayEmit(s, p)
    ensures PayloadOk(s, p, at)
  {
    EmitsWhen(s, p);
    match p
    case LLMResponded(_, _, _, _) => RespondOk(s, p, at);
    case ToolInvoked(_, _, _, _, _, _) => InvokeOk(s, p, at);
    case ToolResulted(_) => ResultOk(s, p, at);
    case _ => EndOk(s, p, at);
  }

  lemma BookkeepShape(s: RunState, e: Envelope)
    requires DriveShape(s)
    ensures DriveShape(Bookkeep(s, e))
  {
    assert Bookkeep(s, e).steps == s.steps;
  }

  lemma StartAccepted(e: Envelope)
    requires StartsRun(e)
    ensures Apply(EMPTY, e).Ok? && DriveInv(Apply(EMPTY, e).value)
  {
    ApplyKeepsInv(EMPTY, e);
  }

  /** Every event the loop emits is accepted by the fold: it is never out of order, a gap or a duplicate. */
  lemma EmitKeeps(s: RunState, e: Envelope)
    requires DriveInv(s) && Emits(s, e)
    ensures Apply(s, e).Ok? && DriveInv(Apply(s, e).value)
    ensures Apply(s, e).value == Bookkeep(ApplyPayload(s, e.payload, e.occurredAt).value, e)
    ensures e.seqNo !in s.seen
  {
    assert 0 in s.seen;
    ActionMeans(s);
    EmitOk(s, e.payload, e.occurredAt);
    BookkeepShape(ApplyPayload(s, e.payload, e.occurredAt).value, e);
    assert Apply(s, e) == Ok(Bookkeep(ApplyPayload(s, e.payload, e.occurredAt).value, e));
    ApplyKeepsInv(s, e);
  }

  /** What an emitted event does to the steps and the counters. */
  ghost predicate Moves(s: RunState, p: Payload, t: RunState) {
    && t.maxSteps == s.maxSteps && t.prompt == s.prompt && t.runId == s.runId
    && (match p
        case LLMResponded(step, stopReason, content, isTerminal) =>
          && step == t.currentStep == s.currentStep + 1 && t.status == Running && content.Some?
          && |t.steps| == |s.steps| + 1 && t.steps[..|s.steps|] == s.steps
          && t.steps[|s.steps|] ==
               StepRecord(content.value, isTerminal, stopReason, map[], ToolUseIds(content.value), [], map[])
        case ToolInvoked(step, id, _, _, key, flag) =>
          && step == t.currentStep == s.currentStep && t.status == Running && s.steps != []
          && (var n := |s.steps| - 1;
              && id in s.steps[n].order && id !in s.steps[n].invokedOrder
              && exists at :: t.steps == s.steps[n := s.steps[n].(invokedOrder := s.steps[n].invokedOrder + [id],
                   invoked := s.steps[n].invoked[id := Invocation(flag, key, at)])])
        case ToolResulted(r) =>
          && r.step == t.currentStep == s.currentStep && t.status == Running && s.steps != []
          && (var n := |s.steps| - 1;
              && r.toolUseId in s.steps[n].order && r.toolUseId in s.steps[n].invokedOrder && r.toolUseId !in s.steps[n].results
              && t.steps == s.steps[n := s.steps[n].(results := s.steps[n].results[r.toolUseId := r])])
        case RunCompleted(finalOutput, _) =>
          t.currentStep == s.currentStep && t.steps == s.steps && t.status == Completed && t.finalOutput == finalOutput
        case RunFailed(f) =>
          f.step == t.currentStep == s.currentStep && t.steps == s.steps && t.status == Failed && t.failure == Some(f)
        case _ => false)
  }

  lemma PayloadMoves(s: RunState, p: Payload, at: int)
    requires ActionFacts(s) && MayEmit(s, p) && ApplyPayload(s, p, at).Ok?
    ensures s.status == Running
    ensures Moves(s, p, ApplyPayload(s, p, at).value)
  {
  }

  lemma BookkeepMoves(s: RunState, p: Payload, mid: RunState, e: Envelope)
    requires Moves(s, p, mid)
    ensures Moves(s, p, Bookkeep(mid, e))
  {
    assert Bookkeep(mid, e).steps == mid.steps;
  }

  lemma EmitMoves(s: RunState, e: Envelope)
    requires DriveInv(s) && Emits(s, e)
    ensures Apply(s, e).Ok? && Moves(s, e.payload, Apply(s, e).value) && s.status == Running
    ensures var t := Apply(s, e).value;
            t.lastEventId == e.eventId && t.lastEventAt == e.occurredAt && t.nextSequence == s.nextSequence + 1
  {
    EmitKeeps(s, e);
    ActionMeans(s);
    EmitOk(s, e.payload, e.occurredAt);
    PayloadMoves(s, e.payload, e.occurredAt);
    BookkeepMoves(s, e.payload, ApplyPayload(s, e.payload, e.occurredAt).value, e);
  }

  /** How a run may end: as completed exactly if its last response is terminal and not cut short, with that response's text. */
  lemma EndingMeans(s: RunState, p: Payload)
    requires ActionFacts(s) && MayEmit(s, p) && s.nextAction == FinishRun
    ensures var last := s.steps[|s.steps| - 1];
            && (p.RunCompleted? <==> last.isTerminal && last.stopReason != "max_tokens")
            && (p.RunCompleted? ==> p.finalOutput == JoinText(last.content) && p.totalSteps == s.currentStep)
            && (p.RunFailed? <==> !p.RunCompleted?)
  {
  }

  /** Otherwise as failed, for one of two reasons. */
  lemma FailureMeans(s: RunState, p: Payload)
    requires ActionFacts(s) && MayEmit(s, p) && s.nextAction == FinishRun && p.RunFailed?
    ensures s.steps[|s.steps| - 1].isTerminal ==> p.failure.errorClass == "llm_output_truncated"
    ensures !s.steps[|s.steps| - 1].isTerminal ==> p.failure.errorClass == "malformed_llm_response"
    ensures p.failure.step == s.currentStep && !p.failure.retryable
  {
  }

  /** Every event of an accepted log is recorded under its own sequence number. */
  lemma {:induction false} SeenAll(log: seq<Envelope>)
    requires log != [] && Fold(log).Ok?
    ensures forall e | e in log :: e.seqNo in Fold(log).value.seen && Fold(log).value.seen[e.seqNo] == e.eventId
    decreases |log|
  {
    var init, last := log[..|log| - 1], log[|log| - 1];
    assert log == init + [last];
    FoldPrefix(init, [last]);
    FoldSnoc(init, last);
    if init == [] {
      ApplyKeepsInv(EMPTY, last);
    } else {
      SeenAll(init);
      FoldKeepsInv(init);
      ApplyKeepsInv(Fold(init).value, last);
    }
  }

  lemma RedeliveryIsNoop(log: seq<Envelope>, e: Envelope)
    requires log != [] && Fold(log).Ok? && e in log
    ensures Fold(log + [e]) == Fold(log)
  {
    SeenAll(log);
    FoldSnoc(log, e);
  }

  /** One more event of a drive log: a redelivery changes nothing, an emitted event is applied. */
  lemma DriveSnoc(log: seq<Envelope>)
    requires |log| > 1 && Fold(Front(log)).Ok? && DriveInv(Fold(Front(log)).value)
    requires Continues(Front(log), Last(log))
    ensures Fold(log).Ok? && DriveInv(Fold(log).value)
    ensures Last(log) in Front(log) ==> Fold(log) == Fold(Front(log))
    ensures Last(log) !in Front(log) ==> Fold(log) == Apply(Fold(Front(log)).value, Last(log))
  {
    assert log == Front(log) + [Last(log)];
    if Last(log) in Front(log) {
      RedeliveryIsNoop(Front(log), Last(log));
    } else {
      FoldSnoc(Front(log), Last(log));
      EmitKeeps(Fold(Front(log)).value, Last(log));
    }
  }

  lemma FirstEvent(e: Envelope)
    requires StartsRun(e)
    ensures Fold([e]).Ok? && DriveInv(Fold([e]).value) && Fold([e]) == Apply(EMPTY, e)
  {
    assert [] + [e] == [e];
    FoldSnoc([], e);
    StartAccepted(e);
  }

  /** Every log the loop writes is accepted, with all its redeliveries. */
  lemma {:induction false} DriveLogFolds(log: seq<Envelope>)
    requires IsDriveLog(log) && log != []
    ensures Fold(log).Ok? && DriveInv(Fold(log).value)
    decreases |log|
  {
    if |log| == 1 {
      assert log == [log[0]];
      FirstEvent(log[0]);
    } else {
      DriveLogFolds(Front(log));
      DriveSnoc(log);
    }
  }
}
