/**
 What the journal says about the outside world, over any number of crashes,
 resumes and redeployments of the worker.
 */
module EndToEnd {
  import opened Wrappers
  import opened Events
  import opened Replay
  import opened ReplayLaws
  import opened DriveLog
  import opened Journal
  import opened Progress
  import opened World
  import Loop
  import Fence
  import FenceAfter
  import FenceSafety
  import FenceUndone
  import FenceForever
  import FenceReturn
  import IdemKey
  import Messages

  // ------------------------------- invocations and results in the log and in the state

  /** The state holds what every event of the log says. */
  ghost predicate EventsHeld(log: seq<Envelope>, s: RunState) {
    forall e | e in log :: Kept(e.payload, s)
  }

  predicate Kept(p: Payload, s: RunState) {
    match p
    case RunStarted(_, input, maxSteps) => input == Some(s.prompt) && maxSteps == s.maxSteps
    case LLMResponded(step, stopReason, content, isTerminal) =>
      && 1 <= step <= |s.steps| && content == Some(s.steps[step - 1].content)
      && stopReason == s.steps[step - 1].stopReason && isTerminal == s.steps[step - 1].isTerminal
    case ToolInvoked(step, id, _, _, key, flag) =>
      && 1 <= step <= |s.steps| && id in s.steps[step - 1].invoked
      && s.steps[step - 1].invoked[id].hasSideEffect == flag && s.steps[step - 1].invoked[id].key == key
    case ToolResulted(r) => Held(r, s.steps)
    case RunCompleted(finalOutput, _) => s.status == Completed && s.finalOutput == finalOutput
    case RunFailed(f) => s.status == Failed && s.failure == Some(f)
    case _ => true
  }

  predicate Held(r: ToolResult, steps: seq<StepRecord>) {
    && 1 <= r.step <= |steps| && r.toolUseId in steps[r.step - 1].results
    && steps[r.step - 1].results[r.toolUseId] == r
  }

  lemma KeptOn(q: Payload, s: RunState, p: Payload, t: RunState)
    requires s.steps != [] ==> Ordered(s.steps[|s.steps| - 1])
    requires Kept(q, s) && Moves(s, p, t) && s.status == Running
    ensures Kept(q, t)
  {
    if p.LLMResponded? { assert forall i | 0 <= i < |s.steps| :: t.steps[i] == t.steps[..|s.steps|][i]; }
  }

  lemma KeptNow(s: RunState, p: Payload, t: RunState)
    requires Moves(s, p, t) && s.currentStep == |s.steps|
    ensures Kept(p, t)
  {
  }

  lemma EventsOn(log: seq<Envelope>, s: RunState, e: Envelope, t: RunState)
    requires EventsHeld(log, s) && Moves(s, e.payload, t) && s.currentStep == |s.steps| && s.status == Running
    requires s.steps != [] ==> Ordered(s.steps[|s.steps| - 1])
    ensures EventsHeld(log + [e], t)
  {
    forall x | x in log + [e] ensures Kept(x.payload, t) {
      if x in log { KeptOn(x.payload, s, e.payload, t); } else { KeptNow(s, e.payload, t); }
    }
  }

  /** `s` is the fold of `log`, a log the loop writes. */
  ghost predicate Folds(log: seq<Envelope>, s: RunState) {
    forall t {:trigger Spelled(t)} :: Spelled(t) && t == s ==> Fold(log) == Ok(t) && DriveInv(t)
  }

  lemma FoldsOn(log: seq<Envelope>, s: RunState, t: RunState)
    requires |log| > 1 && Folds(Front(log), s) && Folds(log, t) && Continues(Front(log), Last(log))
    ensures if Last(log) in Front(log) then t == s else Moves(s, Last(log).payload, t) && s.currentStep == |s.steps| && s.status == Running
    ensures s.steps != [] ==> Ordered(s.steps[|s.steps| - 1])
  {
    assert Spelled(s) && Spelled(t);
    if s.steps != [] { LastIsOrdered(s); }
    DriveSnoc(log);
    if Last(log) !in Front(log) { EmitMoves(s, Last(log)); }
  }

  lemma EventsSnoc(log: seq<Envelope>, s: RunState, t: RunState)
    requires |log| > 1 && Folds(Front(log), s) && Folds(log, t) && Continues(Front(log), Last(log))
    requires EventsHeld(Front(log), s)
    ensures EventsHeld(log, t)
  {
    FoldsOn(log, s, t);
    assert log == Front(log) + [Last(log)];
    if Last(log) !in Front(log) { EventsOn(Front(log), s, Last(log), t); }
  }

  lemma LogFolds(log: seq<Envelope>) returns (s: RunState)
    requires IsDriveLog(log) && log != []
    ensures Folds(log, s)
  {
    DriveLogFolds(log);
    s := Fold(log).value;
  }

  lemma FirstIsKept(e: Envelope)
    requires StartsRun(e)
    ensures Apply(EMPTY, e).Ok? && Kept(e.payload, Apply(EMPTY, e).value)
  {
  }

  lemma {:induction false} HeldAlong(log: seq<Envelope>, s: RunState)
    requires IsDriveLog(log) && log != [] && Folds(log, s)
    ensures EventsHeld(log, s)
    decreases |log|
  {
    if |log| == 1 {
      assert log == [log[0]] && Spelled(s);
      FirstEvent(log[0]);
      FirstIsKept(log[0]);
    } else {
      var init := LogFolds(Front(log));
      HeldAlong(Front(log), init);
      EventsSnoc(log, init, s);
    }
  }

  /** Every event of a driven log stays in the state it folds to, as it was journaled. */
  lemma EventsAreHeld(log: seq<Envelope>)
    requires IsDriveLog(log) && log != []
    ensures Fold(log).Ok? && EventsHeld(log, Fold(log).value)
  {
    var s := LogFolds(log);
    assert Spelled(s);
    HeldAlong(log, s);
  }

  // ------------------------------------------------ what the LLM has been told

  /** Somewhere in this turn the call is answered with this result, flagged as an error exactly if it is one. */
  ghost predicate AnsweredIn(m: Messages.Message, r: ToolResult) {
    m.User? && exists j :: 0 <= j < |m.parts| && m.parts[j] == Messages.ToolAnswer(r.toolUseId, r.result, r.status == Error)
  }

  /** The conversation carries what the event says, in the turn of its step. */
  ghost predicate Told(msgs: seq<Messages.Message>, p: Payload) {
    match p
    case RunStarted(_, input, _) => msgs != [] && input.Some? && msgs[0] == Messages.User([Messages.Prompt(input.value)])
    case LLMResponded(step, _, content, _) =>
      1 <= step && 2 * step - 1 < |msgs| && content.Some? && msgs[2 * step - 1] == Messages.Assistant(content.value)
    case ToolResulted(r) => 1 <= r.step && (2 * r.step < |msgs| ==> AnsweredIn(msgs[2 * r.step], r))
    case _ => true
  }

  /**
   The conversation sent to the LLM is the journal's: the prompt that was
   journaled, every response as it was journaled, and each result that was
   journaled, in the turn after its response, an error if and only if it was one.
   */
  lemma ConversationIsJournal(log: seq<Envelope>, e: Envelope)
    requires IsDriveLog(log) && e in log
    ensures Fold(log).Ok? && Told(Messages.Conversation(Fold(log).value), e.payload)
  {
    var s := LogFolds(log);
    assert Spelled(s);
    HeldAlong(log, s);
    Messages.ConversationTells(s);
    TellsEvent(Messages.Conversation(s), s, e.payload);
  }

  lemma TellsOne(m: Messages.Message, step: StepRecord, r: ToolResult)
    requires Messages.TellsResults(m, step) && r.toolUseId in step.order && r.toolUseId in step.results && step.results[r.toolUseId] == r
    ensures AnsweredIn(m, r)
  {
    var j :| 0 <= j < |step.order| && step.order[j] == r.toolUseId;
    assert m.parts[j] == Messages.ToolAnswer(r.toolUseId, r.result, r.status == Error);
  }

  lemma TellsResult(msgs: seq<Messages.Message>, steps: seq<StepRecord>, r: ToolResult)
    requires StepsInv(steps) && Held(r, steps) && Messages.TellsStep(msgs, r.step - 1, steps[r.step - 1])
    ensures 2 * r.step < |msgs| ==> AnsweredIn(msgs[2 * r.step], r)
  {
    assert StepInv(steps[r.step - 1]);
    if 2 * r.step < |msgs| { TellsOne(msgs[2 * r.step], steps[r.step - 1], r); }
  }

  lemma TellsEvent(msgs: seq<Messages.Message>, s: RunState, p: Payload)
    requires StepsInv(s.steps) && Kept(p, s) && Messages.Tells(msgs, s.prompt, s.steps)
    ensures Told(msgs, p)
  {
    match p
    case LLMResponded(step, _, _, _) => assert Messages.TellsStep(msgs, step - 1, s.steps[step - 1]);
    case ToolResulted(r) => TellsResult(msgs, s.steps, r);
    case _ =>
  }

  // ----------------------------------------------------- one key of the run

  /** The timing the safety of one key rests on: nobody else froze on it. */
  ghost predicate KeyTimed(k: KeyRun) {
    && FenceSafety.Timed(k.c)
    && forall v: nat | v != OWNER :: Fence.Prompt(k.c, Fence.Init(k.c), k.trace, v)
  }

  /** The key's own Guard.Run returned this in the last thing that happened on it. */
  ghost predicate KeyReturned(k: KeyRun, out: Fence.Outcome) {
    && Recorded(k.c, OWNER, k.trace, k.before, k.sys)
    && FenceReturn.PhaseOf(k.sys, OWNER) == Some(Fence.Returned(out)) && !FenceReturn.HasReturned(k.before, OWNER)
  }

  lemma KeyMeans(k: KeyRun)
    requires KeyTimed(k) && Recorded(k.c, OWNER, k.trace, k.before, k.sys)
    ensures Fence.AllPrompt(k.c, Fence.Init(k.c), k.trace) && k.sys == Fence.Run(k.c, Fence.Init(k.c), k.trace)
    ensures forall out | KeyReturned(k, out) :: FenceReturn.JustReturned(k.c, k.trace, OWNER, out)
  {
    assert Spelled(k.trace);
  }

  lemma KeyIsSafe(k: KeyRun)
    requires KeyTimed(k) && Recorded(k.c, OWNER, k.trace, k.before, k.sys)
    ensures |k.sys.ledger| <= 1
  {
    KeyMeans(k);
    FenceSafety.AtMostOneEffect(k.c, k.trace);
  }

  lemma KeyIsTrue(k: KeyRun, out: Fence.Outcome)
    requires KeyTimed(k) && KeyReturned(k, out)
    ensures FenceSafety.Agrees(k.sys.ledger, out.status, out.result)
  {
    KeyMeans(k);
    FenceReturn.ReturnAgrees(k.c, k.trace, OWNER, out);
  }

  // ------------------------------------------------------------ the journal

  /** No key of the run ever has a second effect. */
  lemma NoKeyTwice(l: Loop.Loop, s: RunState, key: string)
    requires l.Live(s) && key in l.fences && KeyTimed(l.fences[key])
    ensures |l.fences[key].sys.ledger| <= 1
  {
    assert Spelled(s);
    KeyIsSafe(l.fences[key]);
  }

  /** The result was journaled for a side effect, under this key. */
  ghost predicate ResultUnder(log: seq<Envelope>, s: RunState, r: ToolResult, key: string) {
    && (exists e :: e in log && e.payload == ToolResulted(r)) && Held(r, s.steps)
    && r.toolUseId in s.steps[r.step - 1].invoked && s.steps[r.step - 1].invoked[r.toolUseId].hasSideEffect
    && key == IdemKey.Key(s.runId, r.step, r.toolUseId)
  }

  function OutcomeOf(r: ToolResult): Fence.Outcome {
    Fence.Outcome(r.result, r.status, r.resolution)
  }

  lemma HeldIn(log: seq<Envelope>, s: RunState, e: Envelope)
    requires Journaled(log, s) && e in log && e.payload.ToolResulted?
    ensures Held(e.payload.result, s.steps)
  {
    JournaledMeans(log, s);
    EventsAreHeld(log);
  }

  lemma HeldWasInvoked(s: RunState, r: ToolResult)
    requires StepsInv(s.steps) && Held(r, s.steps)
    ensures r.toolUseId in s.steps[r.step - 1].invoked
  {
    assert StepInv(s.steps[r.step - 1]);
  }

  lemma StepsHold(log: seq<Envelope>, s: RunState)
    requires Journaled(log, s)
    ensures StepsInv(s.steps)
  {
    JournaledMeans(log, s);
  }

  /** Every journaled result is held by the step it names, and was invoked there. */
  lemma JournaledIsHeld(l: Loop.Loop, s: RunState, e: Envelope, key: string)
    requires l.Live(s) && e in l.log && e.payload.ToolResulted?
    requires key == IdemKey.Key(s.runId, e.payload.result.step, e.payload.result.toolUseId)
    ensures var r := e.payload.result;
            && Held(r, s.steps) && r.toolUseId in s.steps[r.step - 1].invoked
            && (s.steps[r.step - 1].invoked[r.toolUseId].hasSideEffect ==> ResultUnder(l.log, s, r, key))
  {
    assert Spelled(s);
    HeldIn(l.log, s, e);
    StepsHold(l.log, s);
    HeldWasInvoked(s, e.payload.result);
    assert e.payload == ToolResulted(e.payload.result);
  }

  lemma ResultHasKey(log: seq<Envelope>, fences: map<string, KeyRun>, s: RunState, r: ToolResult, key: string)
    requires Holds(log, fences, s) && ResultUnder(log, s, r, key)
    ensures key in fences && KeyReturned(fences[key], OutcomeOf(r))
  {
    assert Spelled(s);
    assert StepStands(fences, s.runId, (r.step - 1) + 1, s.steps[r.step - 1]);
  }

  /**
   A journaled result was the truth when it was journaled. Whatever crashed, was
   lost or was resumed before: if the journal says a side effect succeeded, the
   outside world holds exactly one effect under its key, with that result; if it
   says it failed, none. Only that key's own timing matters.
   */
  lemma JournaledResultIsTrue(l: Loop.Loop, s: RunState, r: ToolResult, key: string)
    requires l.Live(s) && ResultUnder(l.log, s, r, key)
    requires key in l.fences ==> KeyTimed(l.fences[key])
    ensures key in l.fences && FenceSafety.Agrees(l.fences[key].sys.ledger, r.status, r.result)
  {
    ResultHasKey(l.log, l.fences, s, r, key);
    KeyIsTrue(l.fences[key], OutcomeOf(r));
  }

  /** A journaled success stays true on everything that can still happen on its key. */
  lemma JournaledSuccessSurvives(l: Loop.Loop, s: RunState, r: ToolResult, key: string, more: seq<Fence.Label>)
    requires l.Live(s) && ResultUnder(l.log, s, r, key) && r.status == Success
    requires key in l.fences ==>
               var k := l.fences[key]; FenceSafety.Timed(k.c) && Fence.AllPrompt(k.c, Fence.Init(k.c), k.trace + more)
    ensures key in l.fences && Fence.Run(l.fences[key].c, l.fences[key].sys, more).ledger == [r.result]
  {
    ResultHasKey(l.log, l.fences, s, r, key);
    SuccessStays(l.fences[key], OutcomeOf(r), more);
  }

  lemma SuccessStays(k: KeyRun, out: Fence.Outcome, more: seq<Fence.Label>)
    requires KeyReturned(k, out) && out.status == Success
    requires FenceSafety.Timed(k.c) && Fence.AllPrompt(k.c, Fence.Init(k.c), k.trace + more)
    ensures Fence.Run(k.c, k.sys, more).ledger == [out.result]
  {
    FenceReturn.AllPromptPrefix(k.c, Fence.Init(k.c), k.trace, more);
    assert KeyTimed(k);
    KeyMeans(k);
    FenceAfter.SuccessSurvives(k.c, k.trace, OWNER, out, more);
    Fence.RunAppend(k.c, Fence.Init(k.c), k.trace, more);
  }

  /**
   A journaled error stays true, whatever others do on its key, exactly if the
   tool cannot be asked; while the key lives, exactly if the key recorded it or the
   tool cannot be asked; and in any case on a key that nobody else is on or comes to.
   */
  lemma JournaledErrorSurvivesIff(l: Loop.Loop, s: RunState, r: ToolResult, key: string)
    requires l.Live(s) && ResultUnder(l.log, s, r, key) && r.status == Error
    requires key in l.fences ==> KeyTimed(l.fences[key])
    ensures key in l.fences
    ensures var k := l.fences[key];
            && (FenceForever.ErrorIsFinal(k.c, k.sys) <==> !k.c.reconcilable)
            && (FenceUndone.ErrorStays(k.c, k.sys) <==> FenceAfter.IsResolved(k.sys.cell) || !k.c.reconcilable)
            && (k.sys.workers.Keys == {OWNER} ==>
                  forall more | FenceUndone.NobodyStarts(more) :: Fence.Run(k.c, k.sys, more).ledger == [])
  {
    ResultHasKey(l.log, l.fences, s, r, key);
    ErrorStaysIff(l.fences[key], OutcomeOf(r));
  }

  lemma ErrorStaysIff(k: KeyRun, out: Fence.Outcome)
    requires KeyTimed(k) && KeyReturned(k, out) && out.status == Error
    ensures FenceForever.ErrorIsFinal(k.c, k.sys) <==> !k.c.reconcilable
    ensures FenceUndone.ErrorStays(k.c, k.sys) <==> FenceAfter.IsResolved(k.sys.cell) || !k.c.reconcilable
    ensures k.sys.workers.Keys == {OWNER} ==>
              forall more | FenceUndone.NobodyStarts(more) :: Fence.Run(k.c, k.sys, more).ledger == []
  {
    KeyMeans(k);
    KeyIsTrue(k, out);
    FenceUndone.ErrorSurvivesIff(k.c, k.trace, OWNER, out);
    FenceForever.ErrorIsFinalIff(k.c, k.trace, OWNER, out);
    if k.sys.workers.Keys == {OWNER} {
      forall more | FenceUndone.NobodyStarts(more) ensures Fence.Run(k.c, k.sys, more).ledger == [] {
        FenceUndone.AloneStays(k.c, k.sys, OWNER, more);
      }
    }
  }

  // ------------------------------------------------------- nothing runs bare

  /**
   A call of a tool that the registry knew as side-effecting when its ToolInvoked
   was published is journaled as such, with its key, and is never run outside the
   fence: not by this process, nor by any that resumes the run with another registry.
   */
  lemma SideEffectsAreFenced(l: Loop.Loop, s: RunState, e: Envelope)
    requires l.Live(s) && e in l.log && e.payload.ToolInvoked?
    ensures e.eventId in l.said && (e.payload.hasSideEffect <==> l.said[e.eventId])
    ensures l.said[e.eventId] ==>
              && e.payload.key == Some(IdemKey.Key(s.runId, e.payload.step, e.payload.toolUseId))
              && (e.payload.step, e.payload.toolUseId) !in l.bare
  {
    assert Spelled(s);
    KeptIn(l.log, s, e);
    KeysFit(l.log, s, e.payload);
    if (e.payload.step, e.payload.toolUseId) in l.bare {
      assert BareCall((e.payload.step, e.payload.toolUseId), s.steps);
    }
  }

  lemma KeptIn(log: seq<Envelope>, s: RunState, e: Envelope)
    requires Journaled(log, s) && e in log
    ensures Kept(e.payload, s)
  {
    JournaledMeans(log, s);
    EventsAreHeld(log);
  }

  /** The key of an invocation follows from its flag. */
  lemma KeysFit(log: seq<Envelope>, s: RunState, p: Payload)
    requires Journaled(log, s) && p.ToolInvoked? && Kept(p, s)
    ensures p.key == KeyFor(s.runId, p.step, p.toolUseId, p.hasSideEffect)
  {
    JournaledMeans(log, s);
    assert StepKeys(s.runId, (p.step - 1) + 1, s.steps[p.step - 1]);
  }

  // ----------------------------------------------------------- several runs

  /** Two runs that share a store never meet on a key. */
  lemma RunsNeverCollide(a: Loop.Loop, s: RunState, b: Loop.Loop, t: RunState)
    requires a.Live(s) && b.Live(t) && a.runId != b.runId
    ensures a.fences.Keys !! b.fences.Keys
  {
    assert Spelled(s) && Spelled(t);
    forall key | key in a.fences.Keys && key in b.fences.Keys ensures false {
      KeysDiffer(a.fences[key].c, s, b.fences[key].c, t, key);
    }
  }

  lemma KeysDiffer(c: Fence.Config, s: RunState, d: Fence.Config, t: RunState, key: string)
    requires ':' !in s.runId && ':' !in t.runId && s.runId != t.runId
    requires SpeaksFor(c, key, s.runId, s.steps)
    ensures !SpeaksFor(d, key, t.runId, t.steps)
  {
    if SpeaksFor(d, key, t.runId, t.steps) {
      IdemKey.KeyInjective(s.runId, c.step, c.ident.toolUseId, t.runId, d.step, d.ident.toolUseId);
    }
  }
}
