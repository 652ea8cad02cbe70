/** The conversation rebuilt from a run's steps (internal/replay/messages.go). */
module Messages {
  import opened Wrappers
  import opened Events
  import opened Replay
  import opened ReplayLaws
  import opened DriveLog

  datatype Part = Prompt(text: string) | ToolAnswer(id: string, result: string, isError: bool)

  datatype Message = User(parts: seq<Part>) | Assistant(content: seq<Block>)

  function Answers(step: StepRecord, ids: seq<string>): (r: seq<Part>)
    ensures |r| == |ids|
  {
    if ids == [] then []
    else
      var rest := Answers(step, ids[1..]);
      if ids[0] in step.results then
        [ToolAnswer(ids[0], step.results[ids[0]].result, step.results[ids[0]].status == Error)] + rest
      else [ToolAnswer(ids[0], "", false)] + rest
  }

  /** The turns of one step: the response, and its tool results once they are all there. */
  function StepTurns(step: StepRecord): seq<Message> {
    if step.order == [] || !AllResulted(step) then [Assistant(step.content)]
    else [Assistant(step.content), User(Answers(step, step.order))]
  }

  /** A step with open calls ends the conversation. */
  function Turns(steps: seq<StepRecord>): seq<Message> {
    if steps == [] then []
    else if steps[0].order != [] && !AllResulted(steps[0]) then StepTurns(steps[0])
    else StepTurns(steps[0]) + Turns(steps[1..])
  }

  function WithPrompt(prompt: string, turns: seq<Message>): seq<Message> {
    [User([Prompt(prompt)])] + turns
  }

  function Conversation(s: RunState): seq<Message> {
    WithPrompt(s.prompt, Turns(s.steps))
  }

  /** The user turn that carries one step's tool results. */
  method ResultTurn(step: StepRecord) returns (results: seq<Part>)
    requires AllResulted(step)
    ensures results == Answers(step, step.order)
  {
    results := [];
    var j := 0;
    while j < |step.order|
      invariant 0 <= j <= |step.order|
      invariant results + Answers(step, step.order[j..]) == Answers(step, step.order)
    {
      assert step.order[j] in step.order;
      var r := step.results[step.order[j]];
      results := results + [ToolAnswer(step.order[j], r.result, r.status == Error)];
      j := j + 1;
    }
  }

  lemma TurnsFrom(before: seq<Message>, steps: seq<StepRecord>, i: nat)
    requires i < |steps|
    ensures steps[i].order != [] && !AllResulted(steps[i]) ==>
              before + Turns(steps[i..]) == before + [Assistant(steps[i].content)]
    ensures steps[i].order == [] ==>
              before + Turns(steps[i..]) == (before + [Assistant(steps[i].content)]) + Turns(steps[i + 1..])
    ensures steps[i].order != [] && AllResulted(steps[i]) ==>
              before + Turns(steps[i..]) ==
              (before + [Assistant(steps[i].content)] + [User(Answers(steps[i], steps[i].order))]) + Turns(steps[i + 1..])
  {
    assert steps[i..][0] == steps[i] && steps[i..][1..] == steps[i + 1..];
  }

  /** The loop that grows the list, stopping at the first open step. */
  method Messages(s: RunState) returns (msgs: seq<Message>)
    ensures msgs == Conversation(s)
  {
    msgs := [User([Prompt(s.prompt)])];
    var i := 0;
    while i < |s.steps|
      invariant 0 <= i <= |s.steps|
      invariant msgs + Turns(s.steps[i..]) == Conversation(s)
    {
      var step := s.steps[i];
      TurnsFrom(msgs, s.steps, i);
      msgs := msgs + [Assistant(step.content)];
      if step.order != [] {
        if !AllResulted(step) {
          return;
        }
        var results := ResultTurn(step);
        msgs := msgs + [User(results)];
      }
      i := i + 1;
    }
  }

  // ------------------------------------------------------------------- growth

  lemma {:induction false} TurnsSnoc(steps: seq<StepRecord>, last: StepRecord)
    requires forall i | 0 <= i < |steps| :: AllResulted(steps[i])
    ensures Turns(steps + [last]) == Turns(steps) + StepTurns(last)
  {
    if steps == [] {
      assert steps + [last] == [last] && [last][1..] == [];
    } else {
      assert (steps + [last])[0] == steps[0] && (steps + [last])[1..] == steps[1..] + [last];
      TurnsSnoc(steps[1..], last);
    }
  }

  lemma {:induction false} AnswersSame(a: StepRecord, b: StepRecord, ids: seq<string>)
    requires forall id | id in ids :: id in a.results && id in b.results && b.results[id] == a.results[id]
    ensures Answers(a, ids) == Answers(b, ids)
  {
    if ids != [] { AnswersSame(a, b, ids[1..]); }
  }

  ghost predicate SameCallsMoreResults(a: StepRecord, b: StepRecord) {
    && a.content == b.content && a.order == b.order
    && forall id | id in a.results :: id in b.results && b.results[id] == a.results[id]
  }

  lemma StepTurnsGrow(a: StepRecord, b: StepRecord)
    requires SameCallsMoreResults(a, b)
    ensures StepTurns(a) <= StepTurns(b)
  {
    if a.order != [] && AllResulted(a) {
      forall id | id in b.order ensures id in b.results { assert id in a.order; }
      AnswersSame(a, b, a.order);
    }
  }

  /** A finished last step was followed by another one. */
  ghost predicate OneMore(before: seq<StepRecord>, after: seq<StepRecord>) {
    && |after| == |before| + 1 && after == before + [after[|before|]]
    && forall i | 0 <= i < |before| :: AllResulted(before[i])
  }

  /** The last step gained something. */
  ghost predicate LastGrew(before: seq<StepRecord>, after: seq<StepRecord>) {
    && before != [] && |after| == |before|
    && after == before[|before| - 1 := after[|before| - 1]]
    && SameCallsMoreResults(before[|before| - 1], after[|before| - 1])
  }

  /** What one accepted payload does to the steps. */
  lemma PayloadGrows(s: RunState, p: Payload, at: int)
    requires StepsInv(s.steps) && ApplyPayload(s, p, at).Ok?
    ensures var t := ApplyPayload(s, p, at).value;
            t.steps == s.steps || OneMore(s.steps, t.steps) || LastGrew(s.steps, t.steps)
  {
  }

  lemma OneMoreTurns(before: seq<StepRecord>, after: seq<StepRecord>)
    requires OneMore(before, after)
    ensures Turns(before) <= Turns(after)
  {
    TurnsSnoc(before, after[|before|]);
  }

  lemma LastGrewTurns(before: seq<StepRecord>, after: seq<StepRecord>)
    requires LastGrew(before, after)
    requires forall i | 0 <= i < |before| - 1 :: AllResulted(before[i])
    ensures Turns(before) <= Turns(after)
  {
    var n := |before| - 1;
    var init := before[..n];
    assert before == init + [before[n]] && after == init + [after[n]];
    TurnsSnoc(init, before[n]);
    TurnsSnoc(init, after[n]);
    StepTurnsGrow(before[n], after[n]);
  }

  lemma PayloadKeepsPrompt(s: RunState, p: Payload, at: int)
    requires ApplyPayload(s, p, at).Ok? && !p.RunStarted?
    ensures ApplyPayload(s, p, at).value.prompt == s.prompt
  {
  }

  lemma BookkeepKeepsTurns(s: RunState, e: Envelope)
    ensures Conversation(Bookkeep(s, e)) == Conversation(s)
  {
    assert Bookkeep(s, e).steps == s.steps && Bookkeep(s, e).prompt == s.prompt;
  }

  lemma WorkGrows(s: RunState, e: Envelope)
    requires FoldInv(s) && 0 < s.nextSequence && Apply(s, e).Ok? && e.seqNo !in s.seen && !e.payload.RunStarted?
    ensures Conversation(s) <= Conversation(Apply(s, e).value)
  {
    assert 0 in s.seen;
    var mid := ApplyPayload(s, e.payload, e.occurredAt).value;
    BookkeepKeepsTurns(mid, e);
    PayloadKeepsPrompt(s, e.payload, e.occurredAt);
    PayloadGrows(s, e.payload, e.occurredAt);
    if OneMore(s.steps, mid.steps) {
      OneMoreTurns(s.steps, mid.steps);
    } else if LastGrew(s.steps, mid.steps) {
      LastGrewTurns(s.steps, mid.steps);
    }
  }

  lemma RestartPrompts(s: RunState, e: Envelope)
    requires FoldInv(s) && 0 < s.nextSequence && Apply(s, e).Ok? && e.seqNo !in s.seen && e.payload.RunStarted?
    ensures e.payload.input.Some?
    ensures Conversation(Apply(s, e).value) == WithPrompt(e.payload.input.value, Turns(s.steps))
  {
    assert 0 in s.seen;
    BookkeepKeepsTurns(ApplyPayload(s, e.payload, e.occurredAt).value, e);
  }

  /**
   The conversation only grows, over every accepted event, exactly unless the
   event is a new RunStarted with another prompt.
   */
  lemma ConversationGrows(s: RunState, e: Envelope)
    requires FoldInv(s) && 0 < s.nextSequence && Apply(s, e).Ok?
    ensures Conversation(s) <= Conversation(Apply(s, e).value) <==>
              e.seqNo in s.seen || !e.payload.RunStarted? || e.payload.input == Some(s.prompt)
  {
    if e.seqNo !in s.seen {
      if e.payload.RunStarted? {
        RestartPrompts(s, e);
        assert Conversation(s)[0] == User([Prompt(s.prompt)]);
        assert Conversation(Apply(s, e).value)[0] == User([Prompt(e.payload.input.value)]);
      } else {
        WorkGrows(s, e);
      }
    }
  }

  /** In every log the loop writes, redeliveries included, the conversation only grows. */
  lemma DriveConversationGrows(log: seq<Envelope>)
    requires |log| > 1 && IsDriveLog(log)
    ensures Fold(Front(log)).Ok? && Fold(log).Ok?
    ensures Conversation(Fold(Front(log)).value) <= Conversation(Fold(log).value)
  {
    DriveLogFolds(Front(log));
    DriveSnoc(log);
    if Last(log) !in Front(log) { EmittedGrows(Fold(Front(log)).value, Last(log)); }
  }

  lemma EmittedGrows(s: RunState, e: Envelope)
    requires DriveInv(s) && Emits(s, e)
    ensures Apply(s, e).Ok? && Conversation(s) <= Conversation(Apply(s, e).value)
  {
    EmitKeeps(s, e);
    NeverRestarts(s, e.payload);
    ConversationGrows(s, e);
  }

  lemma NeverRestarts(s: RunState, p: Payload)
    requires MayEmit(s, p)
    ensures !p.RunStarted?
  {
  }

  /** A second RunStarted is accepted by the fold and does rewrite the conversation. */
  lemma SecondStartRewrites(s: RunState, e: Envelope)
    requires FoldInv(s) && 0 < s.nextSequence && e.seqNo == s.nextSequence && e.runId == s.runId && !IsTerminalStatus(s.status)
    requires e.payload.RunStarted? && e.payload.input.Some? && e.payload.input.value != s.prompt
    ensures Apply(s, e).Ok? && !(Conversation(s) <= Conversation(Apply(s, e).value))
  {
    assert 0 in s.seen && e.seqNo !in s.seen;
    assert Conversation(s)[0] != Conversation(Apply(s, e).value)[0];
  }

  // ----------------------------------------------------------------- legality

  /** Turn `i` answers exactly the tool_use ids of the turn before it, in order. */
  predicate AnswersTurn(msgs: seq<Message>, i: nat)
    requires 0 < i < |msgs|
  {
    && msgs[i].User? && msgs[i - 1].Assistant?
    && |msgs[i].parts| == |ToolUseIds(msgs[i - 1].content)|
    && forall k | 0 <= k < |msgs[i].parts| ::
         msgs[i].parts[k].ToolAnswer? && msgs[i].parts[k].id == ToolUseIds(msgs[i - 1].content)[k]
  }

  predicate Legal(msgs: seq<Message>) {
    && msgs != []
    && (forall i | 0 <= i < |msgs| :: msgs[i].User? <==> i % 2 == 0)
    && (forall i: nat | 0 < i < |msgs| && i % 2 == 0 :: AnswersTurn(msgs, i))
  }

  lemma {:induction false} AnswersIds(step: StepRecord, ids: seq<string>)
    ensures forall k | 0 <= k < |ids| :: Answers(step, ids)[k].ToolAnswer? && Answers(step, ids)[k].id == ids[k]
  {
    if ids != [] { AnswersIds(step, ids[1..]); }
  }

  ghost predicate Rounds(steps: seq<StepRecord>) {
    forall i | 0 <= i < |steps| :: AllResulted(steps[i]) && steps[i].order != [] && steps[i].order == ToolUseIds(steps[i].content)
  }

  lemma LegalSnoc(msgs: seq<Message>, step: StepRecord)
    requires Legal(msgs) && |msgs| % 2 == 1
    ensures Legal(msgs + [Assistant(step.content)])
    ensures step.order == ToolUseIds(step.content) ==>
              Legal(msgs + [Assistant(step.content), User(Answers(step, step.order))])
  {
    AnswersIds(step, step.order);
    var one := msgs + [Assistant(step.content)];
    forall i: nat | 0 < i < |one| && i % 2 == 0 ensures AnswersTurn(one, i) {
      assert AnswersTurn(msgs, i);
    }
    var two := msgs + [Assistant(step.content), User(Answers(step, step.order))];
    if step.order == ToolUseIds(step.content) {
      forall i: nat | 0 < i < |two| && i % 2 == 0 ensures AnswersTurn(two, i) {
        if i < |msgs| { assert AnswersTurn(msgs, i); }
      }
    }
  }

  /** Complete rounds of calls are two turns each. */
  lemma {:induction false} RoundsLegal(prompt: string, steps: seq<StepRecord>)
    requires Rounds(steps)
    ensures Legal(WithPrompt(prompt, Turns(steps))) && |Turns(steps)| == 2 * |steps|
    decreases |steps|
  {
    if steps != [] {
      var n := |steps| - 1;
      var init := steps[..n];
      assert steps == init + [steps[n]];
      RoundsLegal(prompt, init);
      TurnsSnoc(init, steps[n]);
      LegalSnoc(WithPrompt(prompt, Turns(init)), steps[n]);
      assert WithPrompt(prompt, Turns(steps)) ==
             WithPrompt(prompt, Turns(init)) + [Assistant(steps[n].content), User(Answers(steps[n], steps[n].order))];
    }
  }

  /** After complete rounds, an open or final step adds the assistant's turn alone. */
  lemma OpenStepLegal(prompt: string, init: seq<StepRecord>, last: StepRecord)
    requires Rounds(init) && (last.order == [] || !AllResulted(last))
    ensures Legal(WithPrompt(prompt, Turns(init + [last])))
  {
    RoundsLegal(prompt, init);
    TurnsSnoc(init, last);
    LegalSnoc(WithPrompt(prompt, Turns(init)), last);
    assert WithPrompt(prompt, Turns(init + [last])) == WithPrompt(prompt, Turns(init)) + [Assistant(last.content)];
  }

  lemma DriveRounds(s: RunState)
    requires DriveInv(s)
    ensures s.steps != [] ==> Rounds(s.steps[..|s.steps| - 1])
    ensures s.steps != [] && s.steps[|s.steps| - 1].order != [] && AllResulted(s.steps[|s.steps| - 1]) ==> Rounds(s.steps)
    ensures s.nextAction == CallLLM ==> Rounds(s.steps)
  {
    ActionMeans(s);
    assert StepsInv(s.steps) && DriveSteps(s.runId, s.steps);
  }

  /**
   In a run the loop drives, roles alternate and each tool-result turn answers
   the turn before it call by call.
   */
  lemma ConversationLegal(s: RunState)
    requires DriveInv(s)
    ensures Legal(Conversation(s))
  {
    DriveRounds(s);
    if s.steps == [] {
      RoundsLegal(s.prompt, s.steps);
    } else {
      StepsLegal(s.prompt, s.steps[..|s.steps| - 1], s.steps[|s.steps| - 1], s.steps);
    }
  }

  lemma StepsLegal(prompt: string, init: seq<StepRecord>, last: StepRecord, steps: seq<StepRecord>)
    requires steps == init + [last] && Rounds(init)
    requires last.order != [] && AllResulted(last) ==> Rounds(steps)
    ensures Legal(WithPrompt(prompt, Turns(steps)))
  {
    if last.order != [] && AllResulted(last) {
      RoundsLegal(prompt, steps);
    } else {
      OpenStepLegal(prompt, init, last);
    }
  }

  lemma LastIsUser(msgs: seq<Message>)
    requires Legal(msgs) && |msgs| % 2 == 1
    ensures msgs[|msgs| - 1].User?
  {
    assert (|msgs| - 1) % 2 == 0;
  }

  /** The conversation sent to the LLM ends with a user turn. */
  lemma CallEndsWithUser(s: RunState)
    requires DriveInv(s) && s.nextAction == CallLLM
    ensures Conversation(s)[|Conversation(s)| - 1].User?
  {
    DriveRounds(s);
    RoundsEndWithUser(s.prompt, s.steps);
  }

  lemma RoundsEndWithUser(prompt: string, steps: seq<StepRecord>)
    requires Rounds(steps)
    ensures var msgs := WithPrompt(prompt, Turns(steps)); msgs[|msgs| - 1].User?
  {
    RoundsLegal(prompt, steps);
    LastIsUser(WithPrompt(prompt, Turns(steps)));
  }

  // -------------------------------------------------------- what the turns say

  /** The user turn answers each call of the step, in order, with that call's own result, flagged exactly if its status is error. */
  predicate TellsResults(m: Message, step: StepRecord) {
    && m.User? && |m.parts| == |step.order|
    && forall j | 0 <= j < |m.parts| ::
         && m.parts[j].ToolAnswer? && m.parts[j].id == step.order[j] && step.order[j] in step.results
         && m.parts[j].result == step.results[step.order[j]].result
         && (m.parts[j].isError <==> step.results[step.order[j]].status == Error)
  }

  /** The turns of step number `k`, counted from 0: the response as it came, and then its results. */
  predicate TellsStep(msgs: seq<Message>, k: nat, step: StepRecord) {
    && 2 * k + 1 < |msgs| && msgs[2 * k + 1] == Assistant(step.content)
    && (2 * k + 2 < |msgs| ==> TellsResults(msgs[2 * k + 2], step))
  }

  ghost predicate Tells(msgs: seq<Message>, prompt: string, steps: seq<StepRecord>) {
    && msgs != [] && msgs[0] == User([Prompt(prompt)])
    && forall k | 0 <= k < |steps| :: TellsStep(msgs, k, steps[k])
  }

  lemma {:induction false} AnswersTell(step: StepRecord, ids: seq<string>)
    requires forall id | id in ids :: id in step.results
    ensures forall j | 0 <= j < |ids| ::
              Answers(step, ids)[j] == ToolAnswer(ids[j], step.results[ids[j]].result, step.results[ids[j]].status == Error)
  {
    if ids != [] { AnswersTell(step, ids[1..]); }
  }

  lemma TellsMore(msgs: seq<Message>, prompt: string, steps: seq<StepRecord>, step: StepRecord, turns: seq<Message>)
    requires Tells(msgs, prompt, steps) && |msgs| == 2 * |steps| + 1
    requires turns == [Assistant(step.content)] || (|turns| == 2 && turns[0] == Assistant(step.content) && TellsResults(turns[1], step))
    ensures Tells(msgs + turns, prompt, steps + [step])
  {
    var more := msgs + turns;
    forall k | 0 <= k < |steps| ensures TellsStep(more, k, steps[k]) {
      assert TellsStep(msgs, k, steps[k]);
    }
    assert TellsStep(more, |steps|, step);
  }

  lemma {:induction false} RoundsTell(prompt: string, steps: seq<StepRecord>)
    requires Rounds(steps)
    ensures Tells(WithPrompt(prompt, Turns(steps)), prompt, steps) && |Turns(steps)| == 2 * |steps|
    decreases |steps|
  {
    if steps != [] {
      var n := |steps| - 1;
      var init := steps[..n];
      assert steps == init + [steps[n]];
      RoundsTell(prompt, init);
      TurnsSnoc(init, steps[n]);
      AnswersTell(steps[n], steps[n].order);
      TellsMore(WithPrompt(prompt, Turns(init)), prompt, init, steps[n], StepTurns(steps[n]));
      assert WithPrompt(prompt, Turns(steps)) == WithPrompt(prompt, Turns(init)) + StepTurns(steps[n]);
    }
  }

  lemma OpenStepTells(prompt: string, init: seq<StepRecord>, last: StepRecord)
    requires Rounds(init) && (last.order == [] || !AllResulted(last))
    ensures var msgs := WithPrompt(prompt, Turns(init + [last])); Tells(msgs, prompt, init + [last]) && |msgs| == 2 * |init| + 2
  {
    RoundsTell(prompt, init);
    TurnsSnoc(init, last);
    TellsMore(WithPrompt(prompt, Turns(init)), prompt, init, last, StepTurns(last));
    assert WithPrompt(prompt, Turns(init + [last])) == WithPrompt(prompt, Turns(init)) + StepTurns(last);
  }

  /** The last step's calls, if it has any, are all answered. */
  predicate Answered(steps: seq<StepRecord>) {
    steps != [] ==> steps[|steps| - 1].order != [] && AllResulted(steps[|steps| - 1])
  }

  /**
   What the LLM is told in a run the loop drives: the prompt, then each response
   as it came and each call's own result, flagged as an error exactly if it was
   one, up to the last response, whose results follow once they are all there.
   */
  lemma ConversationTells(s: RunState)
    requires DriveInv(s)
    ensures Tells(Conversation(s), s.prompt, s.steps)
    ensures |Conversation(s)| == 2 * |s.steps| + if Answered(s.steps) then 1 else 0
  {
    DriveRounds(s);
    if Answered(s.steps) {
      RoundsTell(s.prompt, s.steps);
    } else {
      var n := |s.steps| - 1;
      assert s.steps == s.steps[..n] + [s.steps[n]];
      OpenStepTells(s.prompt, s.steps[..n], s.steps[n]);
    }
  }
}
