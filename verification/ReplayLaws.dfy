/**
 Laws of the fold that hold for every log it accepts: what every state keeps,
 insensitivity to redelivery, and what a fold up to a sequence number means.
 */
module ReplayLaws {
  import opened Wrappers
  import opened Events
  import opened Replay

  // ---------------------------------------------------------------- folding

  lemma {:induction false} FoldFromSplit(s: RunState, a: seq<Envelope>, b: seq<Envelope>)
    ensures FoldFrom(s, a).Ok? ==> FoldFrom(s, a + b) == FoldFrom(FoldFrom(s, a).value, b)
    ensures FoldFrom(s, a).Err? ==> FoldFrom(s, a + b) == FoldFrom(s, a)
    decreases |a|
  {
    if a == [] {
      assert a + b == b;
    } else {
      assert (a + b)[0] == a[0] && (a + b)[1..] == a[1..] + b;
      var next := Apply(s, a[0]);
      if next.Ok? {
        FoldFromSplit(next.value, a[1..], b);
      }
    }
  }

  /** Appending one event to an accepted log applies it to the folded state. */
  lemma FoldSnoc(evs: seq<Envelope>, e: Envelope)
    requires evs == [] || Fold(evs).Ok?
    ensures Fold(evs + [e]) == Apply(if evs == [] then EMPTY else Fold(evs).value, e)
  {
    FoldFromSplit(EMPTY, evs, [e]);
    var s := if evs == [] then EMPTY else Fold(evs).value;
    var r := Apply(s, e);
    assert FoldFrom(s, [e]) == r by {
      if r.Ok? {
        assert FoldFrom(r.value, [e][1..]) == r;
      }
    }
  }

  /** A prefix of an accepted log is accepted. */
  lemma FoldPrefix(a: seq<Envelope>, b: seq<Envelope>)
    requires FoldFrom(EMPTY, a + b).Ok?
    ensures FoldFrom(EMPTY, a).Ok?
  {
    FoldFromSplit(EMPTY, a, b);
  }

  // -------------------------------------------------------------- invariant

  predicate NoDuplicates(ids: seq<string>) {
    forall i, j :: 0 <= i < j < |ids| ==> ids[i] != ids[j]
  }

  /** results ⊆ invoked ⊆ order, nothing invoked twice. */
  ghost predicate StepInv(step: StepRecord) {
    && step.order == ToolUseIds(step.content)
    && NoDuplicates(step.invokedOrder)
    && (forall id | id in step.invokedOrder :: id in step.order && id in step.invoked)
    && (forall id | id in step.invoked :: id in step.invokedOrder)
    && (forall id | id in step.results :: id in step.invokedOrder)
  }

  ghost predicate StepsInv(steps: seq<StepRecord>) {
    && (forall i | 0 <= i < |steps| :: StepInv(steps[i]))
    && (forall i | 0 <= i < |steps| - 1 :: AllResulted(steps[i]))
  }

  ghost predicate FoldInv(s: RunState) {
    && 0 <= s.nextSequence
    && (forall i :: i in s.seen <==> 0 <= i < s.nextSequence)
    && (s.nextSequence == 0 ==> s == EMPTY)
    && (0 < s.nextSequence ==> s.status != NoStatus)
    && StepsInv(s.steps)
    && (0 < s.nextSequence ==> s == DeriveToolState(s) && s.nextAction == ComputeNextAction(s))
  }

  lemma ToolUseIdInContent(content: seq<Block>, id: string)
    ensures id in ToolUseIds(content) <==> ToolCallFromContent(content, id).Some?
    ensures ToolCallFromContent(content, id).Some? ==> ToolCallFromContent(content, id).value.toolUseId == id
  {
  }

  lemma InvokedKeepsStep(step: StepRecord, id: string, inv: Invocation)
    requires StepInv(step) && id in step.order && id !in step.invokedOrder
    ensures StepInv(step.(invokedOrder := step.invokedOrder + [id], invoked := step.invoked[id := inv]))
  {
  }

  lemma PayloadKeepsSteps(s: RunState, p: Payload, at: int)
    requires StepsInv(s.steps) && ApplyPayload(s, p, at).Ok?
    ensures var t := ApplyPayload(s, p, at).value;
            && StepsInv(t.steps) && (s.status != NoStatus || p.RunStarted? ==> t.status != NoStatus)
            && t.nextSequence == s.nextSequence && t.seen == s.seen
            && t.runId == s.runId && t.tenantId == s.tenantId
  {
    match p
    case ToolInvoked(_, id, _, _, key, flag) =>
      InvokedKeepsStep(s.steps[|s.steps| - 1], id, Invocation(flag, key, at));
    case ToolResulted(r) =>
      assert StepInv(s.steps[|s.steps| - 1].(results := s.steps[|s.steps| - 1].results[r.toolUseId := r]));
    case _ =>
  }

  lemma BookkeepKeepsInv(s: RunState, e: Envelope)
    requires StepsInv(s.steps) && 0 <= s.nextSequence == e.seqNo && s.status != NoStatus
    requires forall i :: i in s.seen <==> 0 <= i < s.nextSequence
    ensures FoldInv(Bookkeep(s, e))
  {
    var t := Bookkeep(s, e);
    assert t.steps == s.steps;
    assert t == DeriveToolState(t);
    assert t.nextAction == ComputeNextAction(t);
  }

  // ------------------------------------------------------ what is refused, and why

  /** The last step's calls that were invoked, and those that have a result. */
  predicate IsCall(s: RunState, id: string) {
    s.steps != [] && id in s.steps[|s.steps| - 1].order
  }

  predicate IsInvoked(s: RunState, id: string) {
    s.steps != [] && id in s.steps[|s.steps| - 1].invokedOrder
  }

  predicate HasResult(s: RunState, id: string) {
    s.steps != [] && id in s.steps[|s.steps| - 1].results
  }

  /** Some call of the latest response has no result yet. */
  ghost predicate IsOpen(s: RunState) {
    exists id :: IsCall(s, id) && !HasResult(s, id)
  }

  /** Why a payload cannot be applied; no reason if it can. */
  ghost function Refusal(s: RunState, p: Payload): Option<ApplyError> {
    match p
    case RunStarted(_, input, _) => if input.None? then Some(InvalidPayload) else None
    case LLMResponded(_, _, content, _) =>
      if IsOpen(s) then Some(ToolOrder) else if content.None? then Some(InvalidPayload) else None
    case ToolInvoked(_, id, _, _, _, _) =>
      if !IsCall(s, id) then Some(UnknownToolUseId) else if IsInvoked(s, id) then Some(ToolOrder) else None
    case ToolResulted(r) =>
      if !IsCall(s, r.toolUseId) then Some(UnknownToolUseId)
      else if !IsInvoked(s, r.toolUseId) || HasResult(s, r.toolUseId) then Some(ToolOrder)
      else None
    case Malformed(_) => Some(InvalidPayload)
    case _ => None
  }

  lemma PayloadRefusal(s: RunState, p: Payload, at: int)
    ensures match Refusal(s, p)
            case Some(e) => ApplyPayload(s, p, at) == Err(e)
            case None => ApplyPayload(s, p, at).Ok?
  {
    if s.steps != [] && !AllResulted(s.steps[|s.steps| - 1]) {
      var id :| id in s.steps[|s.steps| - 1].order && id !in s.steps[|s.steps| - 1].results;
      assert IsCall(s, id) && !HasResult(s, id);
    }
  }

  /**
   An event with a number the run has seen is a redelivery or a conflict, by its
   id; a run begins with its RunStarted; and after that a new event must be the
   run's own, come before its end, have the next number and fit the latest step.
   */
  lemma RefusedWhy(s: RunState, e: Envelope)
    requires FoldInv(s)
    ensures e.seqNo in s.seen ==> Apply(s, e) == if s.seen[e.seqNo] == e.eventId then Ok(s) else Err(ConflictingEvent)
    ensures e.seqNo !in s.seen && s.nextSequence == 0 ==>
              (Apply(s, e) == Err(FirstEventNotStart) <==> e.seqNo != 0 || e.payload.Type() != RunStartedEvent)
    ensures e.seqNo !in s.seen && s.nextSequence > 0 ==>
              && (Apply(s, e) == Err(RunIdMismatch) <==> e.runId != s.runId)
              && (Apply(s, e) == Err(EventAfterTerminal) <==> e.runId == s.runId && s.status in {Completed, Failed, Cancelled})
              && (Apply(s, e) == Err(SequenceGap) <==>
                    e.runId == s.runId && s.status !in {Completed, Failed, Cancelled} && e.seqNo != s.nextSequence)
    ensures Structural(s, e) ==> (match Refusal(s, e.payload) case Some(x) => Apply(s, e) == Err(x) case None => Apply(s, e).Ok?)
  {
    if s.nextSequence > 0 { assert 0 in s.seen; }
    var named := if s.seen == map[] then s.(runId := e.runId, tenantId := e.tenantId) else s;
    PayloadRefusal(named, e.payload, e.occurredAt);
    assert Refusal(named, e.payload) == Refusal(s, e.payload) by { SameRefusal(s, named, e.payload); }
  }

  /** What does not depend on the payload is in order. */
  predicate Structural(s: RunState, e: Envelope) {
    && e.seqNo !in s.seen
    && if s.nextSequence == 0 then e.seqNo == 0 && e.payload.Type() == RunStartedEvent
       else e.runId == s.runId && s.status !in {Completed, Failed, Cancelled} && e.seqNo == s.nextSequence
  }

  lemma SameRefusal(s: RunState, t: RunState, p: Payload)
    requires t.steps == s.steps
    ensures Refusal(t, p) == Refusal(s, p)
  {
    assert IsOpen(t) <==> IsOpen(s) by {
      assert forall id :: (IsCall(t, id) <==> IsCall(s, id)) && (HasResult(t, id) <==> HasResult(s, id));
    }
  }

  lemma ApplyKeepsInv(s: RunState, e: Envelope)
    requires FoldInv(s)
    requires Apply(s, e).Ok?
    ensures FoldInv(Apply(s, e).value)
    ensures var t := Apply(s, e).value;
            if e.seqNo in s.seen then t == s
            else e.seqNo == s.nextSequence && t.nextSequence == s.nextSequence + 1 && t.seen == s.seen[e.seqNo := e.eventId]
  {
    if e.seqNo !in s.seen {
      assert s.seen == map[] <==> s.nextSequence == 0 by {
        assert s.nextSequence > 0 ==> 0 in s.seen;
      }
      var named := if s.seen == map[] then s.(runId := e.runId, tenantId := e.tenantId) else s;
      PayloadKeepsSteps(named, e.payload, e.occurredAt);
      BookkeepKeepsInv(ApplyPayload(named, e.payload, e.occurredAt).value, e);
    }
  }

  lemma {:induction false} FoldFromKeepsInv(s: RunState, evs: seq<Envelope>)
    requires FoldInv(s)
    requires FoldFrom(s, evs).Ok?
    ensures FoldInv(FoldFrom(s, evs).value)
    ensures s.nextSequence <= FoldFrom(s, evs).value.nextSequence
    ensures forall i | i in s.seen :: i in FoldFrom(s, evs).value.seen && FoldFrom(s, evs).value.seen[i] == s.seen[i]
    decreases |evs|
  {
    if evs != [] {
      ApplyKeepsInv(s, evs[0]);
      FoldFromKeepsInv(Apply(s, evs[0]).value, evs[1..]);
    }
  }

  /** Every accepted log folds to a state in which the invariant holds. */
  lemma FoldKeepsInv(evs: seq<Envelope>)
    requires Fold(evs).Ok?
    ensures FoldInv(Fold(evs).value)
    ensures 0 < Fold(evs).value.nextSequence
  {
    FoldFromKeepsInv(EMPTY, evs);
    ApplyKeepsInv(EMPTY, evs[0]);
    FoldFromKeepsInv(Apply(EMPTY, evs[0]).value, evs[1..]);
  }

  // --------------------------------------------- pending and in-flight tools

  /** The ids with neither an invocation nor a result, in content order. */
  function Uninvoked(step: StepRecord, ids: seq<string>): seq<string> {
    if ids == [] then []
    else if ids[0] in step.invokedOrder then Uninvoked(step, ids[1..])
    else [ids[0]] + Uninvoked(step, ids[1..])
  }

  lemma {:induction false} PendingAre(step: StepRecord, ids: seq<string>)
    requires StepInv(step) && forall id | id in ids :: id in step.order
    ensures |PendingCalls(step, ids)| == |Uninvoked(step, ids)|
    ensures forall i | 0 <= i < |PendingCalls(step, ids)| ::
              PendingCalls(step, ids)[i].toolUseId == Uninvoked(step, ids)[i]
              && Some(PendingCalls(step, ids)[i]) == ToolCallFromContent(step.content, Uninvoked(step, ids)[i])
  {
    if ids != [] {
      ToolUseIdInContent(step.content, ids[0]);
      assert forall id | id in ids[1..] :: id in ids;
      PendingAre(step, ids[1..]);
    }
  }

  lemma {:induction false} InFlightIs(step: StepRecord, ids: seq<string>)
    requires StepInv(step) && forall id | id in ids :: id in step.order
    ensures FirstInFlight(step, ids).None? <==> forall id | id in ids && id in step.invokedOrder :: id in step.results
    ensures FirstInFlight(step, ids).Some? ==>
              var tc := FirstInFlight(step, ids).value;
              && tc.toolUseId in ids && tc.toolUseId in step.invokedOrder && tc.toolUseId !in step.results
              && var inv := step.invoked[tc.toolUseId];
              && tc.hasSideEffect == inv.hasSideEffect && tc.key == inv.key && tc.invokedAt == inv.invokedAt
              && ToolCallFromContent(step.content, tc.toolUseId) ==
                 Some(tc.(hasSideEffect := false, key := None, invokedAt := 0))
  {
    if ids != [] {
      ToolUseIdInContent(step.content, ids[0]);
      ContentCallIsBare(step.content, ids[0]);
      assert forall id | id in ids[1..] :: id in ids;
      InFlightIs(step, ids[1..]);
    }
  }

  // ---------------------------------------------------------- what calls are

  /** The call is the first tool_use block of the response that carries its id. */
  ghost predicate IsBlock(content: seq<Block>, tc: ToolCall) {
    exists j :: 0 <= j < |content| && content[j] == ToolUse(tc.toolUseId, tc.toolName, tc.toolArgs) && NotBefore(content, j, tc.toolUseId)
  }

  ghost predicate NotBefore(content: seq<Block>, j: nat, id: string) {
    forall i | 0 <= i < j && i < |content| && content[i].ToolUse? :: content[i].id != id
  }

  lemma {:induction false} CallIsBlock(content: seq<Block>, id: string)
    ensures match ToolCallFromContent(content, id)
            case Some(tc) => IsBlock(content, tc) && tc.toolUseId == id
            case None => forall b | b in content && b.ToolUse? :: b.id != id
  {
    if content != [] && !(content[0].ToolUse? && content[0].id == id) {
      CallIsBlock(content[1..], id);
      var found := ToolCallFromContent(content[1..], id);
      if found.Some? {
        var tc := found.value;
        var j :| 0 <= j < |content[1..]| && content[1..][j] == ToolUse(tc.toolUseId, tc.toolName, tc.toolArgs)
                 && NotBefore(content[1..], j, tc.toolUseId);
        assert content[j + 1] == content[1..][j];
        assert forall i | 1 <= i < j + 1 :: content[i] == content[1..][i - 1];
      } else {
        assert forall b | b in content :: b == content[0] || b in content[1..];
      }
    } else if content != [] {
      assert NotBefore(content, 0, id);
    }
  }

  /** The calls the fold derives are blocks of its latest response: id, name and arguments as the LLM gave them. */
  lemma CallsAreBlocks(log: seq<Envelope>)
    requires Fold(log).Ok?
    ensures var s := Fold(log).value;
            && (s.pending != [] || s.inFlight.Some? ==> s.steps != [])
            && (forall i | 0 <= i < |s.pending| :: IsBlock(s.steps[|s.steps| - 1].content, s.pending[i]))
            && (s.inFlight.Some? ==> IsBlock(s.steps[|s.steps| - 1].content, s.inFlight.value))
  {
    FoldKeepsInv(log);
    DerivedAreBlocks(Fold(log).value);
  }

  lemma DerivedAreBlocks(s: RunState)
    requires FoldInv(s) && 0 < s.nextSequence
    ensures s.pending != [] || s.inFlight.Some? ==> s.steps != []
    ensures forall i | 0 <= i < |s.pending| :: IsBlock(s.steps[|s.steps| - 1].content, s.pending[i])
    ensures s.inFlight.Some? ==> IsBlock(s.steps[|s.steps| - 1].content, s.inFlight.value)
  {
    if s.steps != [] {
      var last := s.steps[|s.steps| - 1];
      PendingAre(last, last.order);
      InFlightIs(last, last.order);
      forall i | 0 <= i < |s.pending| ensures IsBlock(last.content, s.pending[i]) {
        CallIsBlock(last.content, Uninvoked(last, last.order)[i]);
      }
      if s.inFlight.Some? {
        var tc := s.inFlight.value;
        CallIsBlock(last.content, tc.toolUseId);
        SameBlock(last.content, tc);
      }
    }
  }

  lemma SameBlock(content: seq<Block>, tc: ToolCall)
    requires IsBlock(content, tc.(hasSideEffect := false, key := None, invokedAt := 0))
    ensures IsBlock(content, tc)
  {
  }

  /** A step's calls are its tool_use blocks, each once and in content order, and nothing else of it. */
  lemma {:induction false} OrderLaws(a: seq<Block>, b: seq<Block>)
    ensures ToolUseIds(a + b) == ToolUseIds(a) + ToolUseIds(b)
    decreases |a|
  {
    if a == [] {
      assert a + b == b;
    } else {
      assert (a + b)[0] == a[0] && (a + b)[1..] == a[1..] + b;
      OrderLaws(a[1..], b);
    }
  }

  /** Some call of the latest response was invoked and has no result yet. */
  ghost predicate InFlightNow(s: RunState) {
    exists id :: IsInvoked(s, id) && !HasResult(s, id)
  }

  /** Some call of the latest response was not invoked yet. */
  ghost predicate WaitsToRun(s: RunState) {
    exists id :: IsCall(s, id) && !IsInvoked(s, id)
  }

  /**
   The next action, from the journaled step alone: a call in flight comes first,
   then a response that ends the run, then calls still to be made, and only when
   all are answered the LLM again, while steps are left.
   */
  lemma NextActionMeans(s: RunState)
    requires FoldInv(s) && 0 < s.nextSequence
    ensures s.nextAction == ActionNone <==> s.status in {Completed, Failed, Cancelled, WaitingApproval}
    ensures s.nextAction != ActionNone ==>
              var any, ends := s.steps != [], s.steps != [] && (s.steps[|s.steps| - 1].isTerminal || s.steps[|s.steps| - 1].order == []);
              && (s.nextAction == ResolveInFlightTool <==> InFlightNow(s))
              && (s.nextAction == FinishRun <==> !InFlightNow(s) && ends)
              && (s.nextAction == ExecuteTool <==> !InFlightNow(s) && !ends && WaitsToRun(s))
              && (s.nextAction == FailMaxSteps <==> any && !ends && !IsOpen(s) && s.currentStep >= s.maxSteps)
              && (s.nextAction == CallLLM <==> !any || (!ends && !IsOpen(s) && s.currentStep < s.maxSteps))
  {
    if s.steps != [] {
      StepFieldsMean(s);
    }
  }

  lemma StepFieldsMean(s: RunState)
    requires FoldInv(s) && 0 < s.nextSequence && s.steps != []
    ensures s.inFlight.Some? <==> InFlightNow(s)
    ensures s.pending != [] <==> WaitsToRun(s)
    ensures IsOpen(s) <==> InFlightNow(s) || WaitsToRun(s)
  {
    FlightMeans(s);
    PendingMeans(s);
    OpenMeans(s);
  }

  lemma FlightMeans(s: RunState)
    requires FoldInv(s) && 0 < s.nextSequence && s.steps != []
    ensures s.inFlight.Some? <==> InFlightNow(s)
  {
    var last := s.steps[|s.steps| - 1];
    InFlightIs(last, last.order);
    if s.inFlight.Some? {
      assert IsInvoked(s, s.inFlight.value.toolUseId) && !HasResult(s, s.inFlight.value.toolUseId);
    } else {
      assert StepInv(last);
      forall id | IsInvoked(s, id) ensures HasResult(s, id) {}
    }
  }

  lemma PendingMeans(s: RunState)
    requires FoldInv(s) && 0 < s.nextSequence && s.steps != []
    ensures s.pending != [] <==> WaitsToRun(s)
  {
    var last := s.steps[|s.steps| - 1];
    PendingAre(last, last.order);
    UninvokedExactly(last, last.order);
    if s.pending != [] {
      var id := Uninvoked(last, last.order)[0];
      assert id in Uninvoked(last, last.order);
      assert IsCall(s, id) && !IsInvoked(s, id);
    } else {
      forall id | IsCall(s, id) ensures IsInvoked(s, id) {
        assert id !in Uninvoked(last, last.order);
      }
    }
  }

  lemma OpenMeans(s: RunState)
    requires StepsInv(s.steps) && s.steps != []
    ensures IsOpen(s) <==> InFlightNow(s) || WaitsToRun(s)
  {
    var last := s.steps[|s.steps| - 1];
    assert StepInv(last);
    if IsOpen(s) {
      var id :| IsCall(s, id) && !HasResult(s, id);
      assert if id in last.invokedOrder then IsInvoked(s, id) else !IsInvoked(s, id);
    }
    if InFlightNow(s) {
      var id :| IsInvoked(s, id) && !HasResult(s, id);
      assert IsCall(s, id);
    }
    if WaitsToRun(s) {
      var id :| IsCall(s, id) && !IsInvoked(s, id);
      assert !HasResult(s, id);
    }
  }

  lemma {:induction false} UninvokedExactly(step: StepRecord, ids: seq<string>)
    ensures forall id :: id in Uninvoked(step, ids) <==> id in ids && id !in step.invokedOrder
  {
    if ids != [] { UninvokedExactly(step, ids[1..]); }
  }

  /** The final output joins the texts of the response in order, and nothing else of it. */
  lemma {:induction false} JoinTextLaws(a: seq<Block>, b: seq<Block>)
    ensures JoinText(a + b) == JoinText(a) + JoinText(b)
    decreases |a|
  {
    if a == [] {
      assert a + b == b;
    } else {
      assert (a + b)[0] == a[0] && (a + b)[1..] == a[1..] + b;
      JoinTextLaws(a[1..], b);
    }
  }

  lemma OneBlockLaws(b: Block)
    ensures ToolUseIds([b]) == (match b case ToolUse(id, _, _) => [id] case Text(_) => [])
    ensures JoinText([b]) == (match b case Text(text) => text case ToolUse(_, _, _) => "")
  {
    assert [b][1..] == [];
  }

  lemma ContentCallIsBare(content: seq<Block>, id: string)
    ensures var tc := ToolCallFromContent(content, id);
            tc.Some? ==> tc.value == tc.value.(hasSideEffect := false, key := None, invokedAt := 0)
  {
  }

  /** What a non-empty state's tool fields mean, for every accepted log. */
  lemma ToolFieldsMean(s: RunState)
    requires FoldInv(s) && s.steps != []
    ensures var last := s.steps[|s.steps| - 1];
            && |s.pending| == |Uninvoked(last, last.order)|
            && (forall i | 0 <= i < |s.pending| ::
                  s.pending[i].toolUseId == Uninvoked(last, last.order)[i]
                  && Some(s.pending[i]) == ToolCallFromContent(last.content, s.pending[i].toolUseId))
            && (s.inFlight.None? <==> forall id | id in last.invokedOrder :: id in last.results)
            && (s.inFlight.Some? ==>
                  var tc := s.inFlight.value;
                  && tc.toolUseId in last.invokedOrder && tc.toolUseId !in last.results
                  && last.invoked[tc.toolUseId] == Invocation(tc.hasSideEffect, tc.key, tc.invokedAt)
                  && ToolCallFromContent(last.content, tc.toolUseId) ==
                     Some(tc.(hasSideEffect := false, key := None, invokedAt := 0)))
  {
    var last := s.steps[|s.steps| - 1];
    PendingAre(last, last.order);
    InFlightIs(last, last.order);
  }

  // -------------------------------------------- invocations come from the log

  /**
   Event `i` of the log is a ToolInvoked that was applied, not redelivered, while
   step number `step` was the latest one.
   */
  ghost predicate RecordedAt(log: seq<Envelope>, i: nat, step: nat, id: string, inv: Invocation) {
    && i < |log| && log[i].payload.ToolInvoked? && log[i].payload.toolUseId == id
    && Invocation(log[i].payload.hasSideEffect, log[i].payload.key, log[i].occurredAt) == inv
    && var before := FoldFrom(EMPTY, log[..i]);
    before.Ok? && log[i].seqNo == before.value.nextSequence && |before.value.steps| == step
  }

  ghost predicate WasInvoked(log: seq<Envelope>, step: nat, id: string, inv: Invocation) {
    exists i: nat :: RecordedAt(log, i, step, id, inv)
  }

  ghost predicate InvocationsFrom(log: seq<Envelope>, s: RunState) {
    forall k, id | 0 <= k < |s.steps| && id in s.steps[k].invoked :: WasInvoked(log, k + 1, id, s.steps[k].invoked[id])
  }

  /** A payload adds at most its own invocation, to the latest step. */
  lemma PayloadInvokes(s: RunState, p: Payload, at: int, k: nat, id: string)
    requires ApplyPayload(s, p, at).Ok?
    requires k < |ApplyPayload(s, p, at).value.steps| && id in ApplyPayload(s, p, at).value.steps[k].invoked
    ensures var inv := ApplyPayload(s, p, at).value.steps[k].invoked[id];
            || (k < |s.steps| && id in s.steps[k].invoked && s.steps[k].invoked[id] == inv)
            || (k + 1 == |s.steps| && p.ToolInvoked? && p.toolUseId == id && inv == Invocation(p.hasSideEffect, p.key, at))
  {
  }

  /** So does an accepted event, unless it is a redelivery. */
  lemma InvocationsOf(s: RunState, e: Envelope, k: nat, id: string)
    requires Apply(s, e).Ok? && k < |Apply(s, e).value.steps| && id in Apply(s, e).value.steps[k].invoked
    ensures var inv := Apply(s, e).value.steps[k].invoked[id];
            || (k < |s.steps| && id in s.steps[k].invoked && s.steps[k].invoked[id] == inv)
            || (k + 1 == |s.steps| && e.payload.ToolInvoked? && e.payload.toolUseId == id && e.seqNo !in s.seen && s.seen != map[]
                && inv == Invocation(e.payload.hasSideEffect, e.payload.key, e.occurredAt))
  {
    if e.seqNo !in s.seen {
      var named := if s.seen == map[] then s.(runId := e.runId, tenantId := e.tenantId) else s;
      var mid := ApplyPayload(named, e.payload, e.occurredAt).value;
      assert Apply(s, e).value.steps == Bookkeep(mid, e).steps == mid.steps;
      PayloadInvokes(named, e.payload, e.occurredAt, k, id);
    }
  }

  lemma RecordedStays(init: seq<Envelope>, e: Envelope, step: nat, id: string, inv: Invocation)
    requires WasInvoked(init, step, id, inv)
    ensures WasInvoked(init + [e], step, id, inv)
  {
    var i: nat :| RecordedAt(init, i, step, id, inv);
    assert (init + [e])[..i] == init[..i];
    assert RecordedAt(init + [e], i, step, id, inv);
  }

  lemma RecordedNow(init: seq<Envelope>, s: RunState, e: Envelope, id: string, inv: Invocation)
    requires FoldFrom(EMPTY, init) == Ok(s) && Apply(s, e).Ok? && e.seqNo !in s.seen && s.seen != map[]
    requires e.payload.ToolInvoked? && e.payload.toolUseId == id
    requires inv == Invocation(e.payload.hasSideEffect, e.payload.key, e.occurredAt)
    ensures WasInvoked(init + [e], |s.steps|, id, inv)
  {
    assert (init + [e])[..|init|] == init;
    assert RecordedAt(init + [e], |init|, |s.steps|, id, inv);
  }

  lemma InvocationsExtend(init: seq<Envelope>, s: RunState, e: Envelope)
    requires FoldFrom(EMPTY, init) == Ok(s) && InvocationsFrom(init, s) && Apply(s, e).Ok?
    ensures InvocationsFrom(init + [e], Apply(s, e).value)
  {
    var t := Apply(s, e).value;
    forall k, id | 0 <= k < |t.steps| && id in t.steps[k].invoked
      ensures WasInvoked(init + [e], k + 1, id, t.steps[k].invoked[id])
    {
      InvocationsOf(s, e, k, id);
      if k < |s.steps| && id in s.steps[k].invoked && s.steps[k].invoked[id] == t.steps[k].invoked[id] {
        RecordedStays(init, e, k + 1, id, t.steps[k].invoked[id]);
      } else {
        RecordedNow(init, s, e, id, t.steps[k].invoked[id]);
      }
    }
  }

  lemma {:induction false} InvocationsAreJournaled(log: seq<Envelope>)
    requires FoldFrom(EMPTY, log).Ok?
    ensures InvocationsFrom(log, FoldFrom(EMPTY, log).value)
    decreases |log|
  {
    if log != [] {
      var n := |log| - 1;
      var init, e := log[..n], log[n];
      assert log == init + [e];
      FoldPrefix(init, [e]);
      InvocationsAreJournaled(init);
      FoldFromSplit(EMPTY, init, [e]);
      var s := FoldFrom(EMPTY, init).value;
      assert Apply(s, e).Ok?;
      var t := Apply(s, e).value;
      assert FoldFrom(t, [e][1..]) == Ok(t);
      InvocationsExtend(init, s, e);
    }
  }

  /** The in-flight tool carries the flag, key and time of its own ToolInvoked: one applied after the latest response. */
  lemma InFlightToolIsJournaled(log: seq<Envelope>)
    requires Fold(log).Ok? && Fold(log).value.inFlight.Some?
    ensures var s := Fold(log).value;
            var tc := s.inFlight.value;
            WasInvoked(log, |s.steps|, tc.toolUseId, Invocation(tc.hasSideEffect, tc.key, tc.invokedAt))
  {
    FoldKeepsInv(log);
    InvocationsAreJournaled(log);
    ToolFieldsMean(Fold(log).value);
  }

  // ------------------------------------------------------------- redelivery

  /**
   `ys` is `xs` with any number of copies of already delivered envelopes
   inserted anywhere; `done` is what was delivered before.
   */
  ghost predicate Redelivers(done: seq<Envelope>, xs: seq<Envelope>, ys: seq<Envelope>)
    decreases |ys|
  {
    if ys == [] then xs == []
    else
      || (ys[0] in done && Redelivers(done, xs, ys[1..]))
      || (xs != [] && ys[0] == xs[0] && Redelivers(done + [xs[0]], xs[1..], ys[1..]))
  }

  lemma {:induction false} RedeliveryFrom(s: RunState, done: seq<Envelope>, xs: seq<Envelope>, ys: seq<Envelope>)
    requires FoldInv(s)
    requires forall d | d in done :: d.seqNo in s.seen && s.seen[d.seqNo] == d.eventId
    requires Redelivers(done, xs, ys)
    ensures FoldFrom(s, ys) == FoldFrom(s, xs)
    decreases |ys|
  {
    if ys != [] {
      if ys[0] in done && Redelivers(done, xs, ys[1..]) {
        RedeliveryFrom(s, done, xs, ys[1..]);
      } else if Apply(s, ys[0]).Ok? {
        ApplyKeepsInv(s, ys[0]);
        RedeliveryFrom(Apply(s, ys[0]).value, done + [xs[0]], xs[1..], ys[1..]);
      }
    }
  }

  /**
   Redelivered copies change nothing: not the folded state, not the error, and
   not even when they arrive after the terminal event.
   */
  lemma RedeliveryInsensitive(xs: seq<Envelope>, ys: seq<Envelope>)
    requires Redelivers([], xs, ys)
    ensures Fold(ys) == Fold(xs)
  {
    RedeliveryFrom(EMPTY, [], xs, ys);
  }

  // --------------------------------------------------------------- FoldUpTo

  lemma {:induction false} UpToIsPrefix(evs: seq<Envelope>, k: int)
    ensures |UpTo(evs, k)| <= |evs| && UpTo(evs, k) == evs[..|UpTo(evs, k)|]
    ensures |UpTo(evs, k)| < |evs| ==> k < evs[|UpTo(evs, k)|].seqNo
    ensures forall e | e in UpTo(evs, k) :: e.seqNo <= k
  {
    if evs != [] && evs[0].seqNo <= k {
      UpToIsPrefix(evs[1..], k);
      assert evs[..|UpTo(evs, k)|] == [evs[0]] + evs[1..][..|UpTo(evs[1..], k)|];
    }
  }

  /** Events at or below `k` cannot take the state past k + 1. */
  lemma {:induction false} StaysUpTo(s: RunState, evs: seq<Envelope>, k: int)
    requires FoldInv(s) && s.nextSequence <= k + 1
    requires forall e | e in evs :: e.seqNo <= k
    requires FoldFrom(s, evs).Ok?
    ensures FoldFrom(s, evs).value.nextSequence <= k + 1
    decreases |evs|
  {
    if evs != [] {
      ApplyKeepsInv(s, evs[0]);
      StaysUpTo(Apply(s, evs[0]).value, evs[1..], k);
    }
  }

  /** Between two states with equal NextSequence every event was a redelivery. */
  lemma {:induction false} SameSequenceSameState(s: RunState, evs: seq<Envelope>)
    requires FoldInv(s) && FoldFrom(s, evs).Ok?
    requires FoldFrom(s, evs).value.nextSequence == s.nextSequence
    ensures FoldFrom(s, evs).value == s
    decreases |evs|
  {
    if evs != [] {
      ApplyKeepsInv(s, evs[0]);
      FoldFromKeepsInv(Apply(s, evs[0]).value, evs[1..]);
      SameSequenceSameState(Apply(s, evs[0]).value, evs[1..]);
    }
  }

  lemma ExtensionAgrees(p: seq<Envelope>, q: seq<Envelope>)
    requires FoldFrom(EMPTY, p).Ok? && FoldFrom(EMPTY, p + q).Ok?
    requires FoldFrom(EMPTY, p).value.nextSequence == FoldFrom(EMPTY, p + q).value.nextSequence
    ensures FoldFrom(EMPTY, p) == FoldFrom(EMPTY, p + q)
  {
    FoldFromSplit(EMPTY, p, q);
    FoldFromKeepsInv(EMPTY, p);
    SameSequenceSameState(FoldFrom(EMPTY, p).value, q);
  }

  /**
   For every sequence number the run has reached, folding up to it yields the
   state the run had right after that event, and every prefix of the log that
   had got exactly that far was in that same state.
   */
  lemma FoldUpToIsIntermediate(evs: seq<Envelope>, k: int)
    requires Fold(evs).Ok? && 0 <= k < Fold(evs).value.nextSequence
    ensures FoldUpTo(evs, k).Ok? && FoldUpTo(evs, k).value.nextSequence == k + 1
    ensures forall i | 0 <= i <= |evs| && Fold(evs[..i]).Ok? && Fold(evs[..i]).value.nextSequence == k + 1 ::
              Fold(evs[..i]) == FoldUpTo(evs, k)
  {
    var n := |UpTo(evs, k)|;
    UpToIsPrefix(evs, k);
    assert evs == evs[..n] + evs[n..];
    FoldPrefix(evs[..n], evs[n..]);
    FoldFromSplit(EMPTY, evs[..n], evs[n..]);
    FoldFromKeepsInv(EMPTY, evs[..n]);
    StaysUpTo(EMPTY, evs[..n], k);
    var s := FoldFrom(EMPTY, evs[..n]).value;
    if n < |evs| {
      ApplyKeepsInv(s, evs[n]);
    }
    assert s.nextSequence == k + 1;
    assert n > 0;
    forall i | 0 <= i <= |evs| && Fold(evs[..i]).Ok? && Fold(evs[..i]).value.nextSequence == k + 1
      ensures Fold(evs[..i]) == FoldUpTo(evs, k)
    {
      PrefixesAgree(evs, i, n);
    }
  }

  lemma PrefixesAgree(evs: seq<Envelope>, i: nat, n: nat)
    requires i <= |evs| && n <= |evs| && FoldFrom(EMPTY, evs[..i]).Ok? && FoldFrom(EMPTY, evs[..n]).Ok?
    requires FoldFrom(EMPTY, evs[..i]).value.nextSequence == FoldFrom(EMPTY, evs[..n]).value.nextSequence
    ensures FoldFrom(EMPTY, evs[..i]) == FoldFrom(EMPTY, evs[..n])
  {
    if i <= n {
      assert evs[..n] == evs[..i] + evs[i..n];
      ExtensionAgrees(evs[..i], evs[i..n]);
    } else {
      assert evs[..i] == evs[..n] + evs[n..i];
      ExtensionAgrees(evs[..n], evs[n..i]);
    }
  }

  /** Outside that range it is the whole fold, or no run at all. */
  lemma {:induction false} FoldUpToOutside(evs: seq<Envelope>, k: int)
    requires Fold(evs).Ok?
    ensures k < 0 ==> FoldUpTo(evs, k) == Err(RunNotFound)
    ensures k >= Fold(evs).value.nextSequence ==> FoldUpTo(evs, k) == Fold(evs)
  {
    UpToIsPrefix(evs, k);
    var n := |UpTo(evs, k)|;
    assert evs[0].seqNo == 0;
    if k >= Fold(evs).value.nextSequence && n < |evs| {
      assert evs == evs[..n] + [evs[n]] + evs[n + 1..];
      FoldPrefix(evs[..n] + [evs[n]], evs[n + 1..]);
      FoldPrefix(evs[..n], [evs[n]]);
      FoldFromSplit(EMPTY, evs[..n], [evs[n]]);
      FoldFromSplit(EMPTY, evs[..n] + [evs[n]], evs[n + 1..]);
      FoldFromKeepsInv(EMPTY, evs[..n]);
      var s := FoldFrom(EMPTY, evs[..n]).value;
      assert FoldFrom(s, [evs[n]]).Ok?;
      ApplyKeepsInv(s, evs[n]);
      FoldFromKeepsInv(EMPTY, evs[..n] + [evs[n]]);
      FoldFromKeepsInv(FoldFrom(EMPTY, evs[..n] + [evs[n]]).value, evs[n + 1..]);
    } else {
      assert k >= Fold(evs).value.nextSequence ==> UpTo(evs, k) == evs;
    }
  }
}
