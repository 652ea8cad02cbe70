/**
 What a worker relies on between two journaled events: the log so far, the
 state it folds to, and the keys its side effects were run under.
 */
module Journal {
  import opened Wrappers
  import opened Events
  import opened Records
  import opened Replay
  import opened ReplayLaws
  import opened DriveLog
  import opened DriveBounds
  import opened Fence
  import opened FenceReturn
  import opened World
  import IdemKey

  /** The loop wrote `log`, and folding it gives `s`. */
  ghost predicate Journaled(log: seq<Envelope>, s: RunState) {
    && log != []
    && forall l: seq<Envelope> {:trigger Spelled(l)} :: Spelled(l) && l == log ==>
         IsDriveLog(l) && Fold(l) == Ok(s) && DriveInv(s)
  }

  lemma JournaledMeans(log: seq<Envelope>, s: RunState)
    requires Journaled(log, s)
    ensures IsDriveLog(log) && Fold(log) == Ok(s) && DriveInv(s)
  {
    assert Spelled(log);
  }

  lemma JournalStarts(e: Envelope)
    requires StartsRun(e)
    ensures Apply(EMPTY, e).Ok? && Journaled([e], Apply(EMPTY, e).value)
    ensures var s := Apply(EMPTY, e).value; s.runId == e.runId && s.tenantId == e.tenantId && s.steps == [] && s.status == Running
  {
    FirstEvent(e);
    assert IsDriveLog([e]);
  }

  lemma JournalGrows(log: seq<Envelope>, s: RunState, e: Envelope)
    requires Journaled(log, s) && Emits(s, e)
    ensures Apply(s, e).Ok? && Journaled(log + [e], Apply(s, e).value)
    ensures Moves(s, e.payload, Apply(s, e).value) && Below(Apply(s, e).value, s)
  {
    JournaledMeans(log, s);
    var more := log + [e];
    assert Front(more) == log && Last(more) == e;
    EmitMoves(s, e);
    EmitDescends(s, e);
    EmitKeeps(s, e);
    NewIsNew(log, s, e);
    DriveSnoc(more);
  }

  lemma NewIsNew(log: seq<Envelope>, s: RunState, e: Envelope)
    requires log != [] && Fold(log) == Ok(s) && e.seqNo !in s.seen
    ensures e !in log
  {
    SeenAll(log);
  }

  lemma JournalRepeats(log: seq<Envelope>, s: RunState, e: Envelope)
    requires Journaled(log, s) && e in log
    ensures Journaled(log + [e], s)
  {
    JournaledMeans(log, s);
    var more := log + [e];
    assert Front(more) == log && Last(more) == e;
    DriveSnoc(more);
  }

  /** What an ambiguous publish may leave: the same envelope any number of times. */
  function Copies(e: Envelope, n: nat): seq<Envelope> {
    if n == 0 then [] else Copies(e, n - 1) + [e]
  }

  lemma {:induction false} JournalCopies(log: seq<Envelope>, s: RunState, e: Envelope, n: nat)
    requires Journaled(log, s) && e in log
    ensures Journaled(log + Copies(e, n), s)
  {
    if n == 0 {
      assert log + [] == log;
    } else {
      JournalCopies(log, s, e, n - 1);
      JournalRepeats(log + Copies(e, n - 1), s, e);
      assert log + Copies(e, n) == log + Copies(e, n - 1) + [e];
    }
  }

  lemma {:induction false} CopiesFromFirst(e: Envelope, n: nat)
    requires n > 0
    ensures Copies(e, n) == [e] + Copies(e, n - 1)
  {
    if n > 1 { CopiesFromFirst(e, n - 1); }
  }

  /** Publishing one event, however often it lands, is journaling it once. */
  lemma PublishedOnce(log: seq<Envelope>, t: RunState, e: Envelope, n: nat)
    requires n > 0 && Journaled(log + [e], t)
    ensures Journaled(log + Copies(e, n), t)
  {
    CopiesFromFirst(e, n);
    JournalCopies(log + [e], t, e, n - 1);
    assert log + Copies(e, n) == log + [e] + Copies(e, n - 1);
  }

  /** What the loop may rely on for its next action. */
  lemma ActionReady(log: seq<Envelope>, s: RunState)
    requires Journaled(log, s)
    ensures ActionFacts(s) && s.currentStep == |s.steps| <= s.maxSteps
    ensures !IsTerminalStatus(s.status) ==> s.nextAction !in {NoAction, ActionNone}
    ensures IsTerminalStatus(s.status) ==> s.nextAction == ActionNone
  {
    JournaledMeans(log, s);
    ActionMeans(s);
  }

  /** The in-flight tool is one of the current step's calls, under the key its flag calls for. */
  ghost predicate InFlightFacts(s: RunState) {
    && s.steps != [] && s.inFlight.Some?
    && var tc, last := s.inFlight.value, s.steps[|s.steps| - 1];
    && tc.toolUseId in last.invoked && tc.toolUseId !in last.results
    && last.invoked[tc.toolUseId] == Invocation(tc.hasSideEffect, tc.key, tc.invokedAt)
    && ToolCallFromContent(last.content, tc.toolUseId) == Some(tc.(hasSideEffect := false, key := None, invokedAt := 0))
    && tc.key == KeyFor(s.runId, |s.steps|, tc.toolUseId, tc.hasSideEffect)
  }

  lemma InFlightReady(log: seq<Envelope>, s: RunState)
    requires Journaled(log, s) && s.nextAction == ResolveInFlightTool
    ensures InFlightFacts(s)
  {
    ActionReady(log, s);
    JournaledMeans(log, s);
    ToolFieldsMean(s);
    var last := s.steps[|s.steps| - 1];
    assert StepInv(last) && StepKeys(s.runId, |s.steps|, last);
  }

  lemma UninvokedHasNoResult(log: seq<Envelope>, s: RunState, id: string)
    requires Journaled(log, s) && s.steps != [] && id !in s.steps[|s.steps| - 1].invokedOrder
    ensures id !in s.steps[|s.steps| - 1].results
  {
    JournaledMeans(log, s);
    assert StepInv(s.steps[|s.steps| - 1]);
  }

  lemma OpenCallIsInFlight(log: seq<Envelope>, s: RunState, id: string)
    requires Journaled(log, s) && s.status == Running && s.steps != []
    requires id in s.steps[|s.steps| - 1].invokedOrder && id !in s.steps[|s.steps| - 1].results
    ensures s.nextAction == ResolveInFlightTool
  {
    JournaledMeans(log, s);
    ToolFieldsMean(s);
  }

  /** Right after a ToolInvoked, that call is the one in flight. */
  lemma InvokedIsInFlight(init: seq<Envelope>, s: RunState, p: Payload, log: seq<Envelope>, t: RunState)
    requires Journaled(init, s) && Journaled(log, t) && Moves(s, p, t) && p.ToolInvoked?
    ensures t.nextAction == ResolveInFlightTool
  {
    UninvokedHasNoResult(init, s, p.toolUseId);
    OpenCallIsInFlight(log, t, p.toolUseId);
  }

  // ------------------------------------------------------- the keys of a run

  /** The worker that currently owns the run; anybody else on a key has another number. */
  const OWNER: nat := 0

  /** One key's own history: how it was configured and everything that happened on it. */
  datatype KeyRun = KeyRun(c: Config, trace: seq<Label>, before: State, sys: State)

  /** Stands for the hash of tool name and canonical arguments: equal inputs, equal hashes. */
  function ArgsHash(toolName: string, toolArgs: string): string {
    toolName + "\0" + toolArgs
  }

  function IdentOf(runId: string, tc: ToolCall): Ident {
    Ident(runId, tc.toolUseId, tc.toolName, ArgsHash(tc.toolName, tc.toolArgs))
  }

  /** The key is the journaled one of a journaled invocation, and its record's identity is that invocation's. */
  ghost predicate SpeaksFor(c: Config, key: string, runId: string, steps: seq<StepRecord>) {
    && key == IdemKey.Key(runId, c.step, c.ident.toolUseId) && 1 <= c.step <= |steps|
    && var step, id := steps[c.step - 1], c.ident.toolUseId;
    && id in step.invoked && step.invoked[id].hasSideEffect && step.invoked[id].invokedAt == c.invokedAt
    && var call := ToolCallFromContent(step.content, id);
    call.Some? && c.ident == IdentOf(runId, call.value)
  }

  /** Guard.Run returned, in the last thing that happened on the key, the outcome that was journaled. */
  ghost predicate ResultStands(fences: map<string, KeyRun>, key: string, r: ToolResult) {
    && key in fences && !HasReturned(fences[key].before, OWNER)
    && PhaseOf(fences[key].sys, OWNER) == Some(Returned(Outcome(r.result, r.status, r.resolution)))
  }

  ghost predicate StepStands(fences: map<string, KeyRun>, runId: string, number: int, step: StepRecord) {
    forall id | id in step.results && id in step.invoked && step.invoked[id].hasSideEffect ::
      ResultStands(fences, IdemKey.Key(runId, number, id), step.results[id])
  }

  ghost predicate KeysSpeak(fences: map<string, KeyRun>, runId: string, steps: seq<StepRecord>) {
    forall key | key in fences ::
      && SpeaksFor(fences[key].c, key, runId, steps)
      && Recorded(fences[key].c, OWNER, fences[key].trace, fences[key].before, fences[key].sys)
  }

  ghost predicate FencesAgree(fences: map<string, KeyRun>, s: RunState) {
    && KeysSpeak(fences, s.runId, s.steps)
    && forall i | 0 <= i < |s.steps| :: StepStands(fences, s.runId, i + 1, s.steps[i])
  }

  /** A result may be journaled for a side effect only if its key just returned it. */
  ghost predicate MayJournal(fences: map<string, KeyRun>, s: RunState, p: Payload) {
    p.ToolResulted? && s.inFlight.Some? && s.inFlight.value.hasSideEffect ==>
      ResultStands(fences, IdemKey.Key(s.runId, |s.steps|, p.result.toolUseId), p.result)
  }

  ghost predicate Ordered(step: StepRecord) {
    (forall id | id in step.invoked :: id in step.invokedOrder) && (forall id | id in step.results :: id in step.invokedOrder)
  }

  lemma SpeaksOn(c: Config, key: string, s: RunState, p: Payload, t: RunState)
    requires s.steps != [] ==> Ordered(s.steps[|s.steps| - 1])
    requires Moves(s, p, t) && SpeaksFor(c, key, s.runId, s.steps)
    ensures SpeaksFor(c, key, t.runId, t.steps)
  {
    if p.LLMResponded? {
      assert t.steps[c.step - 1] == t.steps[..|s.steps|][c.step - 1];
    }
  }

  lemma StandsOn(fences: map<string, KeyRun>, s: RunState, p: Payload, t: RunState, i: nat)
    requires Moves(s, p, t) && i < |t.steps| && (i < |s.steps| ==> StepStands(fences, s.runId, i + 1, s.steps[i]))
    requires s.steps != [] ==> Ordered(s.steps[|s.steps| - 1])
    requires p.ToolResulted? ==> MayJournal(fences, s, p) && InFlightFacts(s) && p.result.toolUseId == s.inFlight.value.toolUseId
    ensures StepStands(fences, t.runId, i + 1, t.steps[i])
  {
    if p.LLMResponded? {
      if i < |s.steps| { assert t.steps[i] == t.steps[..|s.steps|][i]; }
    }
  }

  lemma KeysSpeakOn(fences: map<string, KeyRun>, s: RunState, p: Payload, t: RunState)
    requires s.steps != [] ==> Ordered(s.steps[|s.steps| - 1])
    requires Moves(s, p, t) && KeysSpeak(fences, s.runId, s.steps)
    ensures KeysSpeak(fences, t.runId, t.steps)
  {
    forall key | key in fences ensures SpeaksFor(fences[key].c, key, t.runId, t.steps) {
      SpeaksOn(fences[key].c, key, s, p, t);
    }
  }

  lemma StepsStandOn(fences: map<string, KeyRun>, s: RunState, p: Payload, t: RunState)
    requires s.steps != [] ==> Ordered(s.steps[|s.steps| - 1])
    requires Moves(s, p, t) && forall i | 0 <= i < |s.steps| :: StepStands(fences, s.runId, i + 1, s.steps[i])
    requires p.ToolResulted? ==> MayJournal(fences, s, p) && InFlightFacts(s) && p.result.toolUseId == s.inFlight.value.toolUseId
    ensures forall i | 0 <= i < |t.steps| :: StepStands(fences, t.runId, i + 1, t.steps[i])
  {
    forall i: nat | i < |t.steps| ensures StepStands(fences, t.runId, i + 1, t.steps[i]) {
      StandsOn(fences, s, p, t, i);
    }
  }

  lemma LastIsOrdered(s: RunState)
    requires DriveInv(s) && s.steps != []
    ensures Ordered(s.steps[|s.steps| - 1])
  {
    assert StepInv(s.steps[|s.steps| - 1]);
  }

  /** Whatever the loop emits, keys and journal stay in agreement. */
  lemma FencesKeep(fences: map<string, KeyRun>, s: RunState, p: Payload, t: RunState)
    requires FencesAgree(fences, s) && Moves(s, p, t) && DriveInv(s)
    requires p.ToolResulted? ==> MayJournal(fences, s, p) && InFlightFacts(s) && p.result.toolUseId == s.inFlight.value.toolUseId
    ensures FencesAgree(fences, t)
  {
    if s.steps != [] { LastIsOrdered(s); }
    KeysSpeakOn(fences, s, p, t);
    StepsStandOn(fences, s, p, t);
  }

  /**
   An honest resume finds its own record: a key used before was used for this
   very invocation, so the identity and the age the fence compares are the same.
   */
  lemma HonestResume(fences: map<string, KeyRun>, s: RunState, key: string)
    requires FencesAgree(fences, s) && InFlightFacts(s) && s.inFlight.value.hasSideEffect && ':' !in s.runId
    requires s.inFlight.value.key == Some(key) && key in fences
    ensures var c, tc := fences[key].c, s.inFlight.value;
            c.ident == IdentOf(s.runId, tc) && c.step == |s.steps| && c.invokedAt == tc.invokedAt
  {
    var c, tc := fences[key].c, s.inFlight.value;
    IdemKey.KeyInjective(s.runId, c.step, c.ident.toolUseId, s.runId, |s.steps|, tc.toolUseId);
  }

  lemma InFlightSpeaks(s: RunState, key: string, c: Config)
    requires InFlightFacts(s) && s.inFlight.value.hasSideEffect && s.inFlight.value.key == Some(key)
    requires c.ident == IdentOf(s.runId, s.inFlight.value) && c.step == |s.steps| && c.invokedAt == s.inFlight.value.invokedAt
    ensures SpeaksFor(c, key, s.runId, s.steps)
  {
  }

  lemma StandsElsewhere(fences: map<string, KeyRun>, runId: string, number: int, step: StepRecord, n: int, open: string, k: KeyRun)
    requires StepStands(fences, runId, number, step) && ':' !in runId
    requires number == n ==> open !in step.results
    ensures StepStands(fences[IdemKey.Key(runId, n, open) := k], runId, number, step)
  {
    var key := IdemKey.Key(runId, n, open);
    forall id | id in step.results && id in step.invoked && step.invoked[id].hasSideEffect
      ensures ResultStands(fences[key := k], IdemKey.Key(runId, number, id), step.results[id])
    {
      assert ResultStands(fences, IdemKey.Key(runId, number, id), step.results[id]);
      if IdemKey.Key(runId, number, id) == key {
        IdemKey.KeyInjective(runId, number, id, runId, n, open);
      }
    }
  }

  lemma AllStandElsewhere(fences: map<string, KeyRun>, runId: string, steps: seq<StepRecord>, open: string, k: KeyRun)
    requires ':' !in runId && steps != [] && open !in steps[|steps| - 1].results
    requires forall i | 0 <= i < |steps| :: StepStands(fences, runId, i + 1, steps[i])
    ensures forall i | 0 <= i < |steps| :: StepStands(fences[IdemKey.Key(runId, |steps|, open) := k], runId, i + 1, steps[i])
  {
    forall i | 0 <= i < |steps| ensures StepStands(fences[IdemKey.Key(runId, |steps|, open) := k], runId, i + 1, steps[i]) {
      StandsElsewhere(fences, runId, i + 1, steps[i], |steps|, open, k);
    }
  }

  lemma KeysSpeakWith(fences: map<string, KeyRun>, runId: string, steps: seq<StepRecord>, key: string, k: KeyRun)
    requires KeysSpeak(fences, runId, steps) && SpeaksFor(k.c, key, runId, steps)
    requires Recorded(k.c, OWNER, k.trace, k.before, k.sys)
    ensures KeysSpeak(fences[key := k], runId, steps)
  {
    assert forall other | other in fences[key := k] :: other == key || other in fences;
  }

  /** What happens on the in-flight tool's key disturbs no other result. */
  lemma KeyMovesAlone(fences: map<string, KeyRun>, s: RunState, key: string, k: KeyRun)
    requires FencesAgree(fences, s) && InFlightFacts(s) && s.inFlight.value.hasSideEffect && ':' !in s.runId
    requires s.inFlight.value.key == Some(key)
    requires Recorded(k.c, OWNER, k.trace, k.before, k.sys)
    requires k.c.ident == IdentOf(s.runId, s.inFlight.value) && k.c.step == |s.steps| && k.c.invokedAt == s.inFlight.value.invokedAt
    ensures FencesAgree(fences[key := k], s)
  {
    var tc := s.inFlight.value;
    InFlightSpeaks(s, key, k.c);
    KeysSpeakWith(fences, s.runId, s.steps, key, k);
    AllStandElsewhere(fences, s.runId, s.steps, tc.toolUseId, k);
  }
}
