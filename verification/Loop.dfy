/**
 The worker's loop as the code writes it (internal/agent/loop.go, cmd/worker):
 publish, apply, act, over a log whose publishes are ambiguous, with a process
 that may die anywhere and be started again.
 */
module Loop {
  import opened Wrappers
  import opened Events
  import opened Replay
  import opened DriveLog
  import opened DriveBounds
  import opened Journal
  import opened Progress
  import opened FenceReturn
  import opened World
  import opened Guard
  import Fence
  import Messages
  import IdemKey

  const PUBLISH_ATTEMPTS: nat := 5

  datatype LoopError =
    | PublishFailed | LlmCallFailed | LlmSilent | NoFence | FenceFailed(why: GuardError)
    | Died        // an injected crash, or any other

  const EXIT_OK: int := 0
  const EXIT_FAILED: int := 1
  const EXIT_RUN_NOT_FOUND: int := 2
  const EXIT_PUBLISH_FAILED: int := 3
  const EXIT_FENCE_UNAVAILABLE: int := 4
  const EXIT_CRASH: int := 137

  /** A tool name quoted as it stands. */
  function UnknownTool(name: string): string {
    "error: unknown tool \"" + name + "\""
  }

  function TerminalExitCode(status: RunStatus): (bool, int) {
    match status
    case Completed => (true, EXIT_OK)
    case Failed => (true, EXIT_FAILED)
    case Cancelled => (true, EXIT_FAILED)
    case _ => (false, 0)
  }

  /** Each exit code, and how a process may have ended that exits with it. */
  function ExitCodeFor(r: Result<RunOutcome, LoopError>): (code: int)
    ensures code == 0 <==> r.Ok? && !r.value.failed
    ensures code == 3 <==> r == Err(PublishFailed)
    ensures code == 4 <==> r in {Err(FenceFailed(FenceUnavailable)), Err(FenceFailed(OutcomeUnknown))}
    ensures code == 137 <==> r in {Err(Died), Err(FenceFailed(Killed))}
    ensures code in {0, 1, 3, 4, 137}
  {
    match r
    case Ok(outcome) => if outcome.failed then EXIT_FAILED else EXIT_OK
    case Err(PublishFailed) => EXIT_PUBLISH_FAILED
    case Err(Died) => EXIT_CRASH
    case Err(FenceFailed(FenceUnavailable)) => EXIT_FENCE_UNAVAILABLE
    case Err(FenceFailed(OutcomeUnknown)) => EXIT_FENCE_UNAVAILABLE
    case Err(FenceFailed(Killed)) => EXIT_CRASH
    case Err(_) => EXIT_FAILED
  }

  /** agent.Outcome. */
  datatype RunOutcome = RunOutcome(terminal: bool, failed: bool, truncated: bool, maxStepsExceeded: bool, steps: int, finalText: string)

  /** What the LLM call came to; `NoReply` is a call that returned neither a message nor an error. */
  datatype LlmReply = CallFailed(message: string) | NoReply | Replied(stopReason: string, content: seq<Block>)

  /** A pass of the loop leaves a state to go on from, or ends the run. */
  datatype Pass = Onward(state: RunState) | Finished(outcome: RunOutcome)

  /** An event id that no event of the run carries, as uuid.New gives one. */
  method NewId(used: set<string>) returns (id: string)
    ensures id !in used
  {
    id := *;
    if id !in used {
      return;
    }
    var rest := used;
    while rest != {}
      invariant rest <= used && forall x | x in used - rest :: |x| < |id|
      decreases |rest|
    {
      var x :| x in rest;
      if |x| >= |id| {
        id := x + "#";
      }
      rest := rest - {x};
    }
    assert used - rest == used;
  }

  lemma {:induction false} CopiesAppend(e: Envelope, m: nat, n: nat)
    ensures Copies(e, m) + Copies(e, n) == Copies(e, m + n)
  {
    if n == 0 {
      assert Copies(e, m) + [] == Copies(e, m);
    } else {
      CopiesAppend(e, m, n - 1);
      assert Copies(e, m) + Copies(e, n) == Copies(e, m) + Copies(e, n - 1) + [e];
    }
  }

  class Loop {
    const runId: string
    const tenantId: string
    const workload: string
    const maxSteps: int
    const fenced: bool
    /** The tools that can be asked whether they took effect. */
    const reconcilable: set<string>
    /** Which tools this process knows, and whether it thinks they have a side effect. */
    var registry: map<string, bool>
    var log: seq<Envelope>
    var fences: map<string, KeyRun>
    /** How often a publish failed, the LLM did, a call of the guard was disturbed or inconclusive, or the process died. */
    ghost var faults: nat
    /** The envelope of the last publish. */
    ghost var attempted: Option<Envelope>
    /** What the registry said when each ToolInvoked was published, by event id: has the tool a side effect? */
    ghost var said: map<string, bool>
    /** The calls, by step and id, that were run outside the fence. */
    ghost var bare: set<(int, string)>

    constructor (runId: string, tenantId: string, workload: string, maxSteps: int, fenced: bool, reconcilable: set<string>)
      requires maxSteps > 0 && ':' !in runId
      ensures Sound() && log == []
    {
      this.runId, this.tenantId, this.workload, this.maxSteps := runId, tenantId, workload, maxSteps;
      this.fenced, this.reconcilable, this.registry := fenced, reconcilable, map[];
      log, fences, faults, attempted, said, bare := [], map[], 0, None, map[], {};
    }

    /** `s` is the state between two steps of the loop. */
    ghost predicate Live(s: RunState)
      reads this`log, this`fences, this`said, this`bare
    {
      && maxSteps > 0 && ':' !in runId && Holds(log, fences, s) && Marked(log, said, bare, s)
      && s.runId == runId && s.tenantId == tenantId
    }

    ghost predicate Sound()
      reads this`log, this`fences, this`said, this`bare
    {
      && maxSteps > 0 && ':' !in runId
      && if log == [] then fences == map[] && bare == {} else exists s :: Live(s)
    }

    /** No terminal event was journaled. */
    ghost predicate Resumable()
      reads this`log, this`fences, this`said, this`bare
    {
      exists s :: Live(s) && s.status == Running
    }

    ghost predicate EndsAs(status: RunStatus)
      reads this`log, this`fences, this`said, this`bare
    {
      exists s :: Live(s) && s.status == status
    }

    /** A terminal event was written exactly if the last publish was of one, and a copy of it landed. */
    ghost predicate EndedByAttempt()
      reads this`log, this`attempted
    {
      attempted.Some? && (EndWritten(log) <==> attempted.value in log && IsEnd(attempted.value.payload))
    }

    /** The last publish failed the run, for this reason. */
    ghost predicate FailsAs(errorClass: string)
      reads this`attempted
    {
      attempted.Some? && attempted.value.payload.RunFailed? && attempted.value.payload.failure.errorClass == errorClass
    }

    /** How an error leaves the run. */
    ghost predicate Left(e: LoopError)
      reads this`log, this`fences, this`said, this`bare, this`attempted
    {
      match e
      case LlmCallFailed => EndsAs(Failed)
      case PublishFailed => EndedByAttempt()
      case Died => EndedByAttempt()
      case _ => Resumable()
    }

    /** What each exit code says of the journal. */
    ghost predicate ExitMeans(code: int)
      reads this`log, this`fences, this`said, this`bare, this`attempted
    {
      && code in {EXIT_OK, EXIT_FAILED, EXIT_RUN_NOT_FOUND, EXIT_PUBLISH_FAILED, EXIT_FENCE_UNAVAILABLE, EXIT_CRASH}
      && (code == EXIT_OK ==> EndsAs(Completed))
      && (code == EXIT_FAILED ==> EndsAs(Failed) || Resumable())
      && (code == EXIT_RUN_NOT_FOUND ==> log == [])
      && (code == EXIT_PUBLISH_FAILED ==> EndedByAttempt())
      && (code == EXIT_FENCE_UNAVAILABLE ==> Resumable())
      && (code == EXIT_CRASH ==> EndedByAttempt() || Resumable())
    }

    /** No error without a fault, except that a loop without a fence runs no side effect. */
    twostate predicate Blames(e: LoopError)
      reads this`faults
    {
      if e == NoFence then !fenced else faults > old(faults)
    }

    /** The log and every key's history only grow. */
    twostate predicate OnlyOnward()
      reads this`log, this`fences, this`bare, this`faults
    {
      && old(log) <= log && old(bare) <= bare && old(faults) <= faults
      && forall key | key in old(fences) ::
           key in fences && fences[key].c == old(fences)[key].c && old(fences)[key].trace <= fences[key].trace
    }

    /** Every ToolInvoked added to the log carries what this process's registry says. */
    twostate predicate Tags()
      reads this`log, this`registry
    {
      forall e | e in log && e !in old(log) :: Tagged(registry, e.payload)
    }

    // -------------------------------------------------------------- publishing

    /** One publish: it may land and still report an error, and may land more than once. */
    method Publish(e: Envelope) returns (ok: bool, ghost landed: nat)
      modifies this`log, this`faults
      ensures log == old(log) + Copies(e, landed) && (ok ==> landed > 0)
      ensures faults == old(faults) + if ok then 0 else 1
    {
      var times: int := *;
      ok := *;
      var n: nat := if times > 0 then times else if ok then 1 else 0;
      landed := n;
      faults := faults + if ok then 0 else 1;
      var sent := [];
      var i := 0;
      while i < n
        invariant 0 <= i <= n && sent == Copies(e, i)
      {
        sent := sent + [e];
        i := i + 1;
      }
      log := log + sent;
    }

    /** Up to five publishes of the identical envelope, and no fewer unless one succeeds or the caller is cancelled. */
    method PublishWithRetry(e: Envelope) returns (ok: bool, ghost landed: nat, ghost cancelled: bool)
      modifies this`log, this`faults
      ensures log == old(log) + Copies(e, landed) && (ok ==> landed > 0)
      ensures faults >= old(faults) && (!ok ==> faults > old(faults))
      ensures faults <= old(faults) + 5 && (!ok ==> cancelled || faults == old(faults) + 5)
    {
      landed, cancelled := 0, false;
      var attempt := 1;
      while attempt <= PUBLISH_ATTEMPTS
        invariant log == old(log) + Copies(e, landed)
        invariant 1 <= attempt <= PUBLISH_ATTEMPTS + 1 && faults == old(faults) + attempt - 1
      {
        ghost var more;
        ok, more := Publish(e);
        CopiesAppend(e, landed, more);
        assert old(log) + Copies(e, landed) + Copies(e, more) == old(log) + Copies(e, landed + more);
        landed := landed + more;
        if ok {
          return;
        }
        var stop: bool := *;
        if stop {
          cancelled := true;
          return;
        }
        attempt := attempt + 1;
      }
      ok := false;
    }

    /** Attempts given up long ago may land only now, behind later events and in any order. */
    method LateCopies(ghost state: RunState)
      requires Live(state)
      modifies this`log
      ensures Live(state) && old(log) <= log && forall x :: x in log <==> x in old(log)
    {
      var late: int := *;
      while late > 0
        invariant Live(state) && old(log) <= log && forall x :: x in log <==> x in old(log)
        decreases late
      {
        var i: int := *;
        var which := if 0 <= i < |log| then i else 0;
        assert log != [];
        LandsLate(log, fences, state, log[which]);
        MarkedSame(log, log + [log[which]], said, bare, state);
        log := log + [log[which]];
        late := late - 1;
      }
    }

    /** What may be journaled next, in the state the log folds to. */
    ghost predicate Publishable(state: RunState, p: Payload)
      reads this`log, this`fences, this`said, this`bare
    {
      && Sound()
      && if log == [] then state == EMPTY && StartPayload(p) else Live(state) && Ready(fences, state, p)
    }

    /** The event fits: it extends the log, the keys stay in agreement, and the fold takes it. */
    lemma Fits(state: RunState, id: string, at: int, p: Payload) returns (next: RunState)
      requires Publishable(state, p) && id !in state.seen.Values
      ensures var e := Envelop(state, runId, tenantId, id, at, p);
              && Takes(state, e, next) && Holds(log + [e], fences, next) && next.runId == runId && next.tenantId == tenantId
              && (if log == [] then next.status == Running else Stepped(state, p, next))
    {
      if log == [] {
        next := Begin(runId, tenantId, id, at, p);
        assert log + [Envelop(EMPTY, runId, tenantId, id, at, p)] == [Envelop(EMPTY, runId, tenantId, id, at, p)];
      } else {
        next := Advance(log, fences, state, id, at, p);
      }
    }

    lemma NothingEnded(state: RunState, e: Envelope)
      requires Publishable(state, e.payload) && e.eventId !in state.seen.Values
      ensures !EndWritten(log) && e !in log
    {
      if log != [] {
        ReadyMeansRunning(log, fences, state, e.payload);
        EndShows(log, fences, state);
        NotYetThere(log, fences, state, e);
      }
    }

    /** replay.Apply on an event that fits: it is never refused. */
    method ApplyTo(state: RunState, e: Envelope, ghost next: RunState) returns (r: RunState)
      requires Takes(state, e, next)
      ensures r == next
    {
      assert Spelled(state);
      var applied := Apply(state, e);
      if applied.Err? {
        assert false;
      }
      r := applied.value;
    }

    /** Publishes an event that fits. Whatever landed of it, and of earlier ones, the log stays one the loop could have written. */
    method Land(state: RunState, e: Envelope, ghost next: RunState) returns (ok: bool)
      requires Publishable(state, e.payload) && e.eventId !in state.seen.Values
      requires Holds(log + [e], fences, next) && next.runId == runId && next.tenantId == tenantId
      requires log != [] ==> Stepped(state, e.payload, next)
      requires e.payload.ToolInvoked? ==> e.eventId in said && (e.payload.hasSideEffect <==> said[e.eventId])
      modifies this`log, this`faults
      ensures Sound() && old(log) <= log && (ok ==> e in log && Live(next))
      ensures EndWritten(log) <==> e in log && IsEnd(e.payload)
      ensures forall x | x in log :: x in old(log) || x == e
      ensures faults >= old(faults) && (!ok ==> faults > old(faults))
    {
      NothingEnded(state, e);
      ghost var landed, cancelled;
      ok, landed, cancelled := PublishWithRetry(e);
      EndCopies(old(log), e, landed);
      CopiesAre(e, landed);
      if landed > 0 {
        Repeats(old(log), fences, next, e, landed);
        Landed(old(log), state, e, landed, next);
        assert Live(next);
      } else {
        assert log == old(log);
      }
      label published:
      if log != [] {
        LateCopies(if landed > 0 then next else state);
        SameEnd(log, old@published(log));
      }
    }

    lemma Landed(before: seq<Envelope>, state: RunState, e: Envelope, n: nat, next: RunState)
      requires if before == [] then bare == {} && e.payload.RunStarted?
               else Holds(before, fences, state) && Marked(before, said, bare, state) && Stepped(state, e.payload, next)
      requires e.payload.ToolInvoked? ==> e.eventId in said && (e.payload.hasSideEffect <==> said[e.eventId])
      ensures Marked(before + Copies(e, n), said, bare, next)
    {
      if before == [] {
        MarkedFirst(said, e, n, next);
        assert before + Copies(e, n) == Copies(e, n);
      } else {
        MarkedNext(before, fences, said, bare, state, e, n, next);
      }
    }

    /** Notes what is about to be published, and what the registry says of it. */
    ghost method Announce(state: RunState, e: Envelope)
      requires Publishable(state, e.payload) && e.eventId !in state.seen.Values
      modifies this`said, this`attempted
      ensures Publishable(state, e.payload) && attempted == Some(e) && said == old(said)[e.eventId := Registered(registry, e.payload)]
    {
      if log != [] {
        IdIsNew(log, fences, state, e.eventId);
        MarkedSaid(log, said, bare, state, e.eventId, Registered(registry, e.payload));
      }
      attempted, said := Some(e), said[e.eventId := Registered(registry, e.payload)];
      assert log != [] ==> Live(state);
    }

    /** The one way to journal: build an envelope, publish it, apply it. */
    method PublishApply(state: RunState, p: Payload) returns (r: Result<RunState, LoopError>)
      requires Publishable(state, p) && Tagged(registry, p)
      modifies this`log, this`faults, this`said, this`attempted
      ensures Sound() && Tags()
      ensures r.Ok? ==> Live(r.value) && (if old(log) == [] then r.value.status == Running else Stepped(state, p, r.value))
      ensures r.Err? ==> r.error in {PublishFailed, Died} && faults > old(faults) && EndedByAttempt()
      ensures attempted.Some? && attempted.value.payload == p && attempted.value !in old(log)
      ensures var e := attempted.value;
              && e.runId == runId && e.tenantId == tenantId && e.seqNo == state.nextSequence
              && e.key == match p case ToolInvoked(_, _, _, _, key, _) => key case _ => None
      ensures r.Ok? || r.error == Died ==> attempted.value in log
      ensures OnlyOnward() && Tags()
    {
      var id := NewId(state.seen.Values);
      var at: int := *;
      var e := Envelop(state, runId, tenantId, id, at, p);
      ghost var next := Fits(state, id, at, p);
      NothingEnded(state, e);
      Announce(state, e);
      var ok := Land(state, e, next);
      if !ok {
        return Err(PublishFailed);
      }
      var applied := ApplyTo(state, e, next);
      var crash: bool := *;
      faults := faults + if crash then 1 else 0;
      r := if crash then Err(Died) else Ok(applied);
    }

    // ------------------------------------------------------------------ the LLM

    /** The API refuses a conversation whose turns do not alternate, or whose calls are not answered one by one. */
    method CreateMessage(messages: seq<Messages.Message>) returns (reply: LlmReply)
      requires Messages.Legal(messages) && messages[|messages| - 1].User?
    {
      reply := *;
    }

    /** Journals that the call failed, and fails. */
    method LlmFailed(state: RunState, message: string) returns (e: LoopError)
      requires Live(state) && state.nextAction == CallLLM
      modifies this`log, this`faults, this`said, this`attempted
      ensures Sound() && Left(e) && Blames(e)
      ensures OnlyOnward() && Tags() && FailsAs("llm_call_failed")
    {
      var retryable: bool := *;
      var failure := RunFailed(Failure(state.currentStep, "llm_call_failed", message, retryable));
      ReadyForFailure(fences, state, failure.failure);
      var failed := PublishApply(state, failure);
      if failed.Err? {
        return failed.error;
      }
      StepStatus(state, failure, failed.value);
      faults := faults + 1;
      e := LlmCallFailed;
    }

    /** Sends the conversation so far, and journals what comes back. */
    method CallLlm(state: RunState) returns (r: Result<RunState, LoopError>, ghost sent: seq<Messages.Message>, ghost reply: LlmReply)
      requires Live(state) && state.nextAction == CallLLM
      modifies this`log, this`faults, this`said, this`attempted
      ensures Sound()
      ensures r.Ok? ==> Live(r.value) && Lower(r.value, state) && r.value.status == Running
      ensures r.Err? ==> Left(r.error) && Blames(r.error)
      ensures OnlyOnward() && Tags()
      ensures sent == Messages.Conversation(state)
      ensures match reply
              case CallFailed(_) => FailsAs("llm_call_failed")
              case NoReply => r == Err(LlmSilent)
              case Replied(stopReason, content) =>
                attempted.Some? && attempted.value.payload ==
                  LLMResponded(state.currentStep + 1, stopReason, Some(content), stopReason != "tool_use")
    {
      Before(log, fences, state);
      var messages := Messages.Messages(state);
      var answer := CreateMessage(messages);
      sent, reply := messages, answer;
      match answer
      case CallFailed(message) =>
        var failed := LlmFailed(state, message);
        r := Err(failed);
      case NoReply =>
        faults := faults + 1;
        r := Err(LlmSilent);
      case Replied(stopReason, content) =>
        r := LlmReplied(state, stopReason, content);
    }

    method LlmReplied(state: RunState, stopReason: string, content: seq<Block>) returns (r: Result<RunState, LoopError>)
      requires Live(state) && state.nextAction == CallLLM
      modifies this`log, this`faults, this`said, this`attempted
      ensures Sound()
      ensures r.Ok? ==> Live(r.value) && Lower(r.value, state) && r.value.status == Running
      ensures r.Err? ==> Left(r.error) && Blames(r.error)
      ensures OnlyOnward() && Tags()
      ensures attempted.Some? && attempted.value.payload ==
                LLMResponded(state.currentStep + 1, stopReason, Some(content), stopReason != "tool_use")
    {
      var response := LLMResponded(state.currentStep + 1, stopReason, Some(content), stopReason != TOOL_USE);
      ReadyForResponse(fences, state, stopReason, content);
      r := PublishApply(state, response);
      if r.Ok? {
        StepLowers(state, response, r.value);
        StepStatus(state, response, r.value);
      }
    }

    // ------------------------------------------------------------------- endings

    predicate Reports(state: RunState, payload: Payload, outcome: RunOutcome) {
      && state.steps != []
      && outcome.terminal == payload.RunCompleted? && outcome.failed == payload.RunFailed? && !outcome.maxStepsExceeded
      && (outcome.truncated <==> payload.RunFailed? && payload.failure.errorClass == "llm_output_truncated")
      && outcome.finalText == (if payload.RunCompleted? then payload.finalOutput
                               else if outcome.truncated then JoinText(state.steps[|state.steps| - 1].content) else "")
    }

    /** What the caller is told about a run that ended with `payload`. */
    method Report(state: RunState, payload: Payload, steps: int) returns (outcome: RunOutcome)
      requires state.steps != [] && (payload.RunCompleted? || payload.RunFailed?)
      ensures Reports(state, payload, outcome) && outcome.steps == steps
    {
      outcome := RunOutcome(false, false, false, false, steps, "");
      match payload
      case RunCompleted(finalOutput, _) =>
        outcome := outcome.(terminal := true, finalText := finalOutput);
      case RunFailed(failure) =>
        outcome := outcome.(failed := true);
        if failure.errorClass == "llm_output_truncated" {
          outcome := outcome.(truncated := true, finalText := JoinText(state.steps[|state.steps| - 1].content));
        }
    }

    /** The terminal event a finished run owes. */
    method Owed(state: RunState) returns (payload: Payload)
      requires state.nextAction == FinishRun && state.steps != []
      ensures Ready(fences, state, payload) && (payload.RunCompleted? || payload.RunFailed?) && IsOwed(state, payload)
    {
      payload := TerminalPayload(state);
      ReadyToFinish(fences, state);
    }

    /** The last publish was of the terminal event that the state owes. */
    ghost predicate Owes(state: RunState)
      reads this`attempted
    {
      attempted.Some? && IsOwed(state, attempted.value.payload)
    }

    method FinishTheRun(state: RunState) returns (r: Result<RunOutcome, LoopError>)
      requires Live(state) && state.nextAction == FinishRun
      modifies this`log, this`faults, this`said, this`attempted
      ensures Sound()
      ensures r.Ok? ==> r.value.terminal != r.value.failed && EndsAs(if r.value.failed then Failed else Completed)
      ensures r.Err? ==> Left(r.error) && Blames(r.error)
      ensures OnlyOnward() && Tags() && Owes(state)
      ensures r.Ok? ==> Reports(state, attempted.value.payload, r.value)
    {
      Before(log, fences, state);
      var payload := Owed(state);
      var final := PublishApply(state, payload);
      if final.Err? {
        return Err(final.error);
      }
      StepStatus(state, payload, final.value);
      var outcome := Report(state, payload, final.value.currentStep);
      r := Ok(outcome);
    }

    /** Journals RunFailed for a run that cannot go on. */
    method FailRun(state: RunState, errorClass: string, message: string) returns (r: Result<Pass, LoopError>)
      requires Live(state) && state.nextAction in {FailMaxSteps, ResolveInFlightTool}
      modifies this`log, this`faults, this`said, this`attempted
      ensures Sound()
      ensures r.Ok? ==> r.value.Finished? && r.value.outcome.failed && !r.value.outcome.terminal && EndsAs(Failed)
      ensures r.Err? ==> Left(r.error) && Blames(r.error)
      ensures OnlyOnward() && Tags() && FailsAs(errorClass)
      ensures attempted.value.payload.failure == Failure(state.currentStep, errorClass, message, false)
      ensures r.Ok? ==> !r.value.outcome.maxStepsExceeded
    {
      Before(log, fences, state);
      var failure := RunFailed(Failure(state.currentStep, errorClass, message, false));
      ReadyForFailure(fences, state, failure.failure);
      var final := PublishApply(state, failure);
      if final.Err? {
        return Err(final.error);
      }
      StepStatus(state, failure, final.value);
      r := Ok(Finished(RunOutcome(false, true, false, false, final.value.currentStep, "")));
    }

    // -------------------------------------------------------------------- tools

    /** The last publish was of this call's result: the outcome's text and status, and where it came from. */
    ghost predicate Journals(state: RunState, call: ToolCall, out: Fence.Outcome)
      reads this`attempted
    {
      && attempted.Some? && attempted.value.payload.ToolResulted?
      && var r := attempted.value.payload.result;
      && r.step == state.currentStep && r.toolUseId == call.toolUseId && r.toolName == call.toolName
      && r.result == out.result && r.status == out.status && r.resolution == out.resolution
      && (r.wasReplayedFromCache <==> out.resolution == Cached)
    }

    method JournalToolResult(state: RunState, call: ToolCall, out: Fence.Outcome) returns (r: Result<Pass, LoopError>)
      requires Live(state) && state.nextAction == ResolveInFlightTool && state.inFlight == Some(call)
      requires call.hasSideEffect ==> InFlightFacts(state) && Returns(call.key.value, out)
      modifies this`log, this`faults, this`said, this`attempted
      ensures Sound()
      ensures r.Ok? ==> r.value.Onward? && Live(r.value.state) && Lower(r.value.state, state) && r.value.state.status == Running
      ensures r.Err? ==> Left(r.error) && Blames(r.error)
      ensures OnlyOnward() && Tags() && Journals(state, call, out)
    {
      Before(log, fences, state);
      var result := ToolResult(state.currentStep, call.toolUseId, call.toolName, out.result, out.status,
                               out.resolution == Cached, out.resolution);
      ReadyForResult(fences, state, result);
      var next := PublishApply(state, ToolResulted(result));
      if next.Err? {
        return Err(next.error);
      }
      StepLowers(state, ToolResulted(result), next.value);
      StepStatus(state, ToolResulted(result), next.value);
      r := Ok(Onward(next.value));
    }

    /** Runs a tool outside the fence. */
    method RunTool(state: RunState, call: ToolCall) returns (r: Result<string, string>)
      requires Live(state) && state.nextAction == ResolveInFlightTool && state.inFlight == Some(call) && !call.hasSideEffect
      modifies this`bare
      ensures Live(state) && bare == old(bare) + {(state.currentStep, call.toolUseId)}
    {
      Before(log, fences, state);
      MarkedBare(log, said, bare, state);
      bare := bare + {(state.currentStep, call.toolUseId)};
      var text: string, failed: bool := *, *;
      r := if failed then Err(text) else Ok(text);
    }

    /** The call was run outside the fence, if the tool is known, and its result, or that it is unknown, was journaled. */
    ghost predicate RanBare(state: RunState, call: ToolCall, found: bool)
      reads this`attempted, this`bare
    {
      && attempted.Some? && attempted.value.payload.ToolResulted?
      && var r := attempted.value.payload.result;
      && r.step == state.currentStep && r.toolUseId == call.toolUseId && r.resolution == Executed
      && (found ==> (state.currentStep, call.toolUseId) in bare)
      && (!found ==> r.status == Error && r.result == "error: unknown tool \"" + call.toolName + "\"")
    }

    /** A tool with no side effect is simply run, again if need be. */
    method ExecuteUnfenced(state: RunState, call: ToolCall, found: bool)
        returns (r: Result<Pass, LoopError>, ghost answer: Option<Result<string, string>>)
      requires Live(state) && state.nextAction == ResolveInFlightTool && state.inFlight == Some(call) && !call.hasSideEffect
      modifies this`log, this`bare, this`faults, this`said, this`attempted
      ensures Sound()
      ensures r.Ok? ==> r.value.Onward? && Live(r.value.state) && Lower(r.value.state, state) && r.value.state.status == Running
      ensures r.Err? ==> Left(r.error) && Blames(r.error)
      ensures OnlyOnward() && Tags()
      ensures answer.Some? <==> found
      ensures RanBare(state, call, found)
      ensures Journals(state, call,
                match answer
                case None => Fence.Outcome(UnknownTool(call.toolName), Error, Executed)
                case Some(Err(message)) => Fence.Outcome("error: " + message, Error, Executed)
                case Some(Ok(text)) => Fence.Outcome(text, Success, Executed))
    {
      var out;
      answer := None;
      if !found {
        out := Fence.Outcome(UnknownTool(call.toolName), Error, Executed);
      } else {
        var ran := RunTool(state, call);
        answer := Some(ran);
        if ran.Err? {
          out := Fence.Outcome("error: " + ran.error, Error, Executed);
        } else {
          out := Fence.Outcome(ran.value, Success, Executed);
        }
      }
      r := JournalToolResult(state, call, out);
    }

    /** The last thing that happened on the key is that our Guard.Run returned `out`. */
    ghost predicate Returns(key: string, out: Fence.Outcome)
      reads this`log, this`fences, this`said, this`bare
    {
      ResultStands(fences, key, ToolResult(0, "", "", out.result, out.status, false, out.resolution))
    }

    /**
     One call of Guard.Run on a key with a past: what earlier calls, and anybody
     else, left. The predecessor's call is dead; the process may die in the middle
     of this one.
     */
    method CallGuard(k: KeyRun, key: string, argsHash: string) returns (r: Result<Fence.Outcome, GuardError>, after: KeyRun, ghost disturbed: bool)
      requires Recorded(k.c, OWNER, k.trace, k.before, k.sys) && argsHash == k.c.ident.argsHash
      ensures after.c == k.c && k.trace <= after.trace && Recorded(k.c, OWNER, after.trace, after.before, after.sys)
      ensures r.Ok? ==> PhaseOf(after.sys, OWNER) == Some(Fence.Returned(r.value)) && !HasReturned(after.before, OWNER)
      ensures r.Err? && r.error != Unresolvable ==> disturbed
      ensures r != Err(RecordMismatch)
    {
      var budget: nat, wait: nat, dies: bool := *, *, *;
      var world := new World.Again(k.c, key, OWNER, k.trace, k.before, k.sys, budget);
      world.Die();
      world.Pass(0, wait);
      if dies {
        world.Interrupted();
        r, disturbed := Err(Killed), true;
      } else {
        ghost var others, faults := world.budget, world.faults;
        var guard := new Guard(world);
        r := guard.Run(Some(key), Some(argsHash));
        HonestNeverMismatches(guard, r);
        disturbed := world.faults > faults || world.budget < others || r in {Err(OutcomeUnknown), Err(Killed)};
      }
      after := KeyRun(k.c, world.trace, world.before, world.sys);
    }

    /** Guard.Run for the in-flight tool, on the key its invocation journaled. */
    method RunFence(state: RunState, call: ToolCall) returns (r: Result<Fence.Outcome, GuardError>)
      requires Live(state) && InFlightFacts(state) && state.inFlight == Some(call) && call.hasSideEffect
      modifies this`fences, this`faults
      ensures Live(state)
      ensures r.Ok? ==> Returns(call.key.value, r.value)
      ensures OnlyOnward() && Tags()
      ensures r.Err? && r.error != Unresolvable ==> faults > old(faults)
      ensures r != Err(RecordMismatch)
      ensures var key := call.key.value;
              key in fences && (key !in old(fences) ==> (fences[key].c.reconcilable <==> call.toolName in reconcilable))
    {
      var key := call.key.value;
      var k: KeyRun;
      if key in fences {
        KeyMet(log, fences, state, key);
        k := fences[key];
      } else {
        var c: Fence.Config := *;
        c := c.(ident := IdentOf(runId, call), step := |state.steps|, invokedAt := call.invokedAt,
                reconcilable := call.toolName in reconcilable);
        KeyNew(c);
        k := KeyRun(c, [], Fence.Init(c), Fence.Init(c));
      }
      var after; ghost var disturbed;
      r, after, disturbed := CallGuard(k, key, ArgsHash(call.toolName, call.toolArgs));
      faults := faults + if disturbed then 1 else 0;
      KeyMoves(log, fences, state, key, after);
      fences := fences[key := after];
    }

    /** What the guard's verdict becomes. */
    ghost predicate Mapped(state: RunState, call: ToolCall, verdict: Result<Fence.Outcome, GuardError>, r: Result<Pass, LoopError>)
      reads this`attempted
    {
      match verdict
      case Ok(out) => Journals(state, call, out)
      case Err(Unresolvable) => FailsAs("unresolved_side_effect")
      case Err(e) => r == Err(FenceFailed(e))
    }

    /** Maps the guard's verdict: fail the run, stop without a terminal event, or journal the result. */
    method ExecuteFenced(state: RunState, call: ToolCall)
        returns (r: Result<Pass, LoopError>, ghost verdict: Result<Fence.Outcome, GuardError>)
      requires Live(state) && state.nextAction == ResolveInFlightTool && state.inFlight == Some(call) && call.hasSideEffect
      modifies this`log, this`fences, this`faults, this`said, this`attempted
      ensures Sound()
      ensures r.Ok? && r.value.Onward? ==> Live(r.value.state) && Lower(r.value.state, state) && r.value.state.status == Running
      ensures r.Ok? && r.value.Finished? ==> Unresolved(r.value.outcome)
      ensures r.Err? ==> Left(r.error) && Blames(r.error)
      ensures OnlyOnward() && Tags() && Mapped(state, call, verdict, r)
    {
      Before(log, fences, state);
      var out := RunFence(state, call);
      verdict := out;
      r := TakeVerdict(state, call, out);
    }

    method TakeVerdict(state: RunState, call: ToolCall, out: Result<Fence.Outcome, GuardError>) returns (r: Result<Pass, LoopError>)
      requires Live(state) && state.nextAction == ResolveInFlightTool && state.inFlight == Some(call) && call.hasSideEffect
      requires InFlightFacts(state) && (out.Ok? ==> Returns(call.key.value, out.value)) && out != Err(RecordMismatch)
      modifies this`log, this`faults, this`said, this`attempted
      ensures Sound()
      ensures r.Ok? && r.value.Onward? ==> Live(r.value.state) && Lower(r.value.state, state) && r.value.state.status == Running
      ensures r.Ok? && r.value.Finished? ==> Unresolved(r.value.outcome)
      ensures r.Err? ==> Left(r.error) && (Blames(r.error) || (out.Err? && out.error != Unresolvable && r == Err(FenceFailed(out.error))))
      ensures OnlyOnward() && Tags() && Mapped(state, call, out, r)
    {
      if out.Ok? {
        r := JournalToolResult(state, call, out.value);
      } else {
        r := NoVerdict(state, out.error);
      }
    }

    /** The run was failed because a side effect could not be resolved, and the caller is told so. */
    ghost predicate Unresolved(outcome: RunOutcome)
      reads this`log, this`fences, this`said, this`bare, this`attempted
    {
      outcome.failed && !outcome.terminal && !outcome.maxStepsExceeded && EndsAs(Failed) && FailsAs("unresolved_side_effect")
    }

    /** The fence could not say what happened: the run fails if nobody ever can, and stays resumable otherwise. */
    method NoVerdict(state: RunState, why: GuardError) returns (r: Result<Pass, LoopError>)
      requires Live(state) && state.nextAction == ResolveInFlightTool && why != RecordMismatch
      modifies this`log, this`faults, this`said, this`attempted
      ensures Sound() && OnlyOnward() && Tags()
      ensures r.Ok? ==> r.value.Finished? && Unresolved(r.value.outcome)
      ensures r.Err? ==> Left(r.error) && (Blames(r.error) || (why != Unresolvable && r == Err(FenceFailed(why))))
      ensures if why == Unresolvable then FailsAs("unresolved_side_effect") else r == Err(FenceFailed(why))
    {
      Before(log, fences, state);
      match why
      case Unresolvable => r := FailRun(state, "unresolved_side_effect", "claimed side effect cannot be resolved");
      case RecordMismatch => assert false;
      case _ => r := Err(FenceFailed(why));
    }

    /** A side effect is run by the fence and by nothing else. */
    method RunSideEffect(state: RunState, call: ToolCall)
        returns (r: Result<Pass, LoopError>, ghost verdict: Option<Result<Fence.Outcome, GuardError>>)
      requires Live(state) && state.nextAction == ResolveInFlightTool && state.inFlight == Some(call) && call.hasSideEffect
      modifies this`log, this`fences, this`faults, this`said, this`attempted
      ensures Sound()
      ensures r.Ok? && r.value.Onward? ==> Live(r.value.state) && Lower(r.value.state, state) && r.value.state.status == Running
      ensures r.Ok? && r.value.Finished? ==> Unresolved(r.value.outcome)
      ensures r.Err? ==> Left(r.error) && Blames(r.error)
      ensures OnlyOnward() && Tags()
      ensures verdict.Some? <==> call.toolName in registry && fenced
      ensures verdict.Some? ==> Mapped(state, call, verdict.value, r)
      ensures call.toolName !in registry ==> FailsAs("unresolved_side_effect")
      ensures call.toolName in registry && !fenced ==> r == Err(NoFence)
    {
      verdict := None;
      Before(log, fences, state);
      if call.toolName !in registry {
        r := FailRun(state, "unresolved_side_effect", "tool " + call.toolName + " is not registered");
        return;
      }
      if call.key.None? {
        assert false;
      }
      if !fenced {
        return Err(NoFence), None;
      }
      ghost var mapped;
      r, mapped := ExecuteFenced(state, call);
      verdict := Some(mapped);
    }

    /** Runs the tool whose ToolInvoked is journaled, trusting what was journaled and not the registry. */
    method RunInFlightTool(state: RunState)
        returns (r: Result<Pass, LoopError>, ghost verdict: Option<Result<Fence.Outcome, GuardError>>)
      requires Live(state) && state.nextAction == ResolveInFlightTool
      modifies this`log, this`fences, this`bare, this`faults, this`said, this`attempted
      ensures Sound()
      ensures r.Ok? && r.value.Onward? ==> Live(r.value.state) && Lower(r.value.state, state) && r.value.state.status == Running
      ensures r.Ok? && r.value.Finished? ==> Unresolved(r.value.outcome)
      ensures r.Err? ==> Left(r.error) && Blames(r.error)
      ensures OnlyOnward() && Tags()
      ensures state.inFlight.Some? && Resolves(state, state.inFlight.value, verdict, r)
      ensures state.inFlight.value.hasSideEffect ==> bare == old(bare)
    {
      Before(log, fences, state);
      var call := state.inFlight.value;
      if call.hasSideEffect {
        r, verdict := RunSideEffect(state, call);
      } else {
        ghost var answer;
        r, answer := ExecuteUnfenced(state, call, call.toolName in registry);
        verdict := None;
      }
    }

    /** What is done with a call: its journaled flag says whether the fence runs it, the registry only whether it can be run. */
    ghost predicate Resolves(state: RunState, call: ToolCall, verdict: Option<Result<Fence.Outcome, GuardError>>, r: Result<Pass, LoopError>)
      reads this`attempted, this`bare, this`registry
    {
      forall t {:trigger Spelled(t)} :: Spelled(t) && t == state ==>
        if !call.hasSideEffect then
          verdict.None? && RanBare(t, call, call.toolName in registry)
        else
          && (verdict.Some? <==> call.toolName in registry && fenced)
          && (verdict.Some? ==> Mapped(t, call, verdict.value, r))
          && (call.toolName !in registry ==> FailsAs("unresolved_side_effect"))
          && (call.toolName in registry && !fenced ==> r == Err(NoFence))
    }

    /** Journals ToolInvoked for the next call, with the registry's word and the key that goes with it. */
    method Invoke(state: RunState) returns (next: Result<RunState, LoopError>)
      requires Live(state) && state.nextAction == ExecuteTool
      modifies this`log, this`faults, this`said, this`attempted
      ensures Sound() && OnlyOnward() && Tags()
      ensures next.Ok? ==> Live(next.value) && Lower(next.value, state) && next.value.nextAction == ResolveInFlightTool
      ensures next.Err? ==> Left(next.error) && Blames(next.error)
      ensures state.pending != [] && attempted.Some? && attempted.value.payload.ToolInvoked?
      ensures var p, call := attempted.value.payload, state.pending[0];
              && p.step == state.currentStep && p.toolUseId == call.toolUseId && p.toolName == call.toolName && p.toolArgs == call.toolArgs
              && (p.hasSideEffect <==> call.toolName in registry && registry[call.toolName])
              && p.key == if p.hasSideEffect then Some(IdemKey.Key(runId, p.step, p.toolUseId)) else None
    {
      Before(log, fences, state);
      var call := state.pending[0];
      var hasSideEffect := call.toolName in registry && registry[call.toolName];
      var invoked := ToolInvoked(state.currentStep, call.toolUseId, call.toolName, call.toolArgs,
                                 KeyFor(runId, state.currentStep, call.toolUseId, hasSideEffect), hasSideEffect);
      ReadyToInvoke(fences, state, hasSideEffect);
      next := PublishApply(state, invoked);
      if next.Ok? {
        InvokedNext(old(log), log, fences, state, invoked, next.value);
        StepLowers(state, invoked, next.value);
      }
    }

    /** Only then is it run. */
    method InvokeTool(state: RunState) returns (r: Result<Pass, LoopError>)
      requires Live(state) && state.nextAction == ExecuteTool
      modifies this`log, this`fences, this`bare, this`faults, this`said, this`attempted
      ensures Sound()
      ensures r.Ok? && r.value.Onward? ==> Live(r.value.state) && Lower(r.value.state, state) && r.value.state.status == Running
      ensures r.Ok? && r.value.Finished? ==> Unresolved(r.value.outcome)
      ensures r.Err? ==> Left(r.error) && Blames(r.error)
      ensures OnlyOnward() && Tags()
    {
      var next := Invoke(state);
      if next.Err? {
        return Err(next.error);
      }
      ghost var verdict;
      r, verdict := RunInFlightTool(next.value);
      if r.Ok? && r.value.Onward? {
        LowerTwice(r.value.state, next.value, state);
      }
    }

    // -------------------------------------------------------------------- drive

    /** Why the run was ended, and that the caller is told so. */
    ghost predicate EndsFor(state: RunState, outcome: RunOutcome)
      reads this`attempted
    {
      && (outcome.maxStepsExceeded <==> state.nextAction == FailMaxSteps)
      && match state.nextAction
         case FinishRun => Owes(state) && Reports(state, attempted.value.payload, outcome)
         case FailMaxSteps => FailsAs("max_steps_exceeded")
         case _ => FailsAs("unresolved_side_effect")
    }

    /** What the next action calls for, of any run that has not ended. */
    method Act(state: RunState) returns (r: Result<Pass, LoopError>)
      requires Live(state) && state.status == Running
      modifies this`log, this`fences, this`bare, this`faults, this`said, this`attempted
      ensures Sound() && OnlyOnward() && Tags()
      ensures r.Ok? && r.value.Onward? ==> Live(r.value.state) && Lower(r.value.state, state) && r.value.state.status == Running
      ensures r.Ok? && r.value.Finished? ==> EndsAs(if r.value.outcome.failed then Failed else Completed)
      ensures r.Ok? && r.value.Finished? ==> EndsFor(state, r.value.outcome)
      ensures r.Err? ==> Left(r.error) && Blames(r.error)
    {
      Before(log, fences, state);
      match state.nextAction {
        case CallLLM =>
          var called; ghost var sent, reply;
          called, sent, reply := CallLlm(state);
          r := if called.Ok? then Ok(Onward(called.value)) else Err(called.error);
        case ExecuteTool =>
          r := InvokeTool(state);
        case ResolveInFlightTool =>
          ghost var verdict;
          r, verdict := RunInFlightTool(state);
        case FinishRun =>
          var ended := FinishTheRun(state);
          r := if ended.Ok? then Ok(Finished(ended.value)) else Err(ended.error);
        case FailMaxSteps =>
          r := FailRun(state, "max_steps_exceeded", "exceeded max_steps");
          if r.Ok? {
            r := Ok(Finished(r.value.outcome.(maxStepsExceeded := true)));
          }
        case _ =>
          assert false;
      }
    }

    /** Ends, by rounds left, then open calls, then whether a terminal event is still due. */
    method Drive(start: RunState) returns (r: Result<RunOutcome, LoopError>)
      requires Live(start) && start.status == Running
      modifies this`log, this`fences, this`bare, this`faults, this`said, this`attempted
      ensures Sound()
      ensures r.Ok? ==> EndsAs(if r.value.failed then Failed else Completed)
      ensures r.Err? ==> Left(r.error) && Blames(r.error)
      ensures OnlyOnward() && Tags()
    {
      var state := start;
      while true
        invariant Live(state) && state.status == Running && OnlyOnward() && Tags()
        decreases state.maxSteps - state.currentStep, OpenCalls(state), if IsTerminalStatus(state.status) then 0 else 1
      {
        var pass := Act(state);
        if pass.Err? {
          return Err(pass.error);
        }
        if pass.value.Finished? {
          return Ok(pass.value.outcome);
        }
        LowerMeans(pass.value.state, state);
        state := pass.value.state;
      }
    }

    // ---------------------------------------------------------------- processes

    /** A fresh run. */
    method Run(prompt: string) returns (r: Result<RunOutcome, LoopError>)
      requires Sound() && log == []
      modifies this`log, this`fences, this`bare, this`faults, this`said, this`attempted
      ensures Sound()
      ensures r.Ok? ==> EndsAs(if r.value.failed then Failed else Completed)
      ensures r.Err? ==> Left(r.error) && Blames(r.error)
      ensures OnlyOnward() && Tags()
    {
      var started := PublishApply(EMPTY, RunStarted(workload, Some(prompt), maxSteps));
      if started.Err? {
        return Err(started.error);
      }
      r := Drive(started.value);
    }

    method Resume(state: RunState) returns (r: Result<RunOutcome, LoopError>)
      requires Live(state) && state.status == Running
      modifies this`log, this`fences, this`bare, this`faults, this`said, this`attempted
      ensures Sound()
      ensures r.Ok? ==> EndsAs(if r.value.failed then Failed else Completed)
      ensures r.Err? ==> Left(r.error) && Blames(r.error)
      ensures OnlyOnward() && Tags()
    {
      r := Drive(state);
    }

    /** Replays the run and decides whether anything is left to do; `code` is the exit code if not. */
    method StartingState() returns (state: RunState, code: int, done: bool)
      requires Sound()
      ensures done ==> code == (if log == [] then EXIT_RUN_NOT_FOUND else if state.status == Completed then EXIT_OK else EXIT_FAILED)
      ensures log != [] ==> Live(state) && (done ==> state.status in {Completed, Failed})
      ensures !done ==> log != [] && state.status == Running
    {
      if log != [] {
        ghost var live :| Live(live);
        Replays(live);
      }
      var replayed := Fold(log);
      if replayed.Err? {
        return EMPTY, if replayed.error == RunNotFound then EXIT_RUN_NOT_FOUND else EXIT_FAILED, true;
      }
      state := replayed.value;
      Before(log, fences, state);
      var ended := TerminalExitCode(state.status);
      done, code := ended.0, ended.1;
    }

    lemma Replays(s: RunState)
      requires Live(s)
      ensures Fold(log) == Ok(s)
    {
      assert Spelled(s);
      JournaledMeans(log, s);
    }

    /** A run that has ended is found ended. */
    lemma EndedStays(state: RunState)
      requires Live(state) && (EndsAs(Completed) || EndsAs(Failed))
      ensures EndsAs(state.status) && state.status in {Completed, Failed}
      ensures EndsAs(Completed) ==> state.status == Completed
      ensures EndsAs(Failed) ==> state.status == Failed
    {
      Replays(state);
      forall s | Live(s) ensures s == state {
        Replays(s);
      }
    }

    /** One more process, resuming the run its predecessor left, however that ended. */
    method Restart() returns (code: int)
      requires Sound()
      modifies this
      ensures Sound() && OnlyOnward() && Tags()
      ensures ExitMeans(code)
      ensures old(EndsAs(Completed)) ==> log == old(log) && code == EXIT_OK
      ensures old(EndsAs(Failed)) ==> log == old(log) && code == EXIT_FAILED && EndsAs(Failed)
      ensures faults == old(faults) && fenced && old(log) != [] ==> EndsAs(if code == EXIT_OK then Completed else Failed)
    {
      registry := *;
      var state, exit, done := StartingState();
      if EndsAs(Completed) || EndsAs(Failed) {
        EndedStays(state);
      }
      if done {
        return exit;
      }
      var r := Resume(state);
      code := ExitCodeFor(r);
    }

    /**
     A run over any number of processes: the first starts it, each later one
     resumes it after its predecessor ended, in any way, anywhere. Exit code 0
     means the run completed; 4 that it stays resumable. Without a fault the run
     has ended, as its exit code says.
     */
    method Supervise(prompt: string, restarts: nat) returns (code: int)
      requires Sound() && log == []
      modifies this
      ensures Sound() && OnlyOnward()
      ensures ExitMeans(code)
      ensures faults == old(faults) && fenced ==> EndsAs(if code == EXIT_OK then Completed else Failed)
    {
      var r := Run(prompt);
      code := ExitCodeFor(r);
      var n := 0;
      while n < restarts
        invariant Sound() && OnlyOnward()
        invariant ExitMeans(code)
        invariant faults == old(faults) && fenced ==> EndsAs(if code == EXIT_OK then Completed else Failed)
      {
        code := Restart();
        n := n + 1;
      }
    }
  }
}
