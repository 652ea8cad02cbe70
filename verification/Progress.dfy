/**
 The loop's view of its journal: what holds between two events, what may be
 journaled next, and what journaling it does. Each notion is kept folded (its
 definition is used only where its state is named), so that the loop's own code
 is checked against these few facts.
 */
module Progress {
  import opened Wrappers
  import opened Events
  import opened Replay
  import opened ReplayLaws
  import opened DriveLog
  import opened DriveBounds
  import opened Fence
  import opened Journal
  import opened World
  import opened Messages

  /** `s` is the fold of the log, and every side effect's result in it is one its key returned. */
  ghost predicate Holds(log: seq<Envelope>, fences: map<string, KeyRun>, s: RunState) {
    && log != []
    && forall t {:trigger Spelled(t)} :: Spelled(t) && t == s ==> Journaled(log, t) && FencesAgree(fences, t)
  }

  /** The loop may journal `p` in state `s`. */
  ghost predicate Ready(fences: map<string, KeyRun>, s: RunState, p: Payload) {
    forall t {:trigger Spelled(t)} :: Spelled(t) && t == s ==>
      MayEmit(t, p) && (p.ToolResulted? ==> InFlightFacts(t) && MayJournal(fences, t, p))
  }

  /** The fold takes `e` from `s` to `next`. */
  ghost predicate Takes(s: RunState, e: Envelope, next: RunState) {
    forall t {:trigger Spelled(t)} :: Spelled(t) && t == s ==> Apply(t, e) == Ok(next)
  }

  /** What journaling `p` changed, and that it brought the run closer to its end. */
  ghost predicate Stepped(s: RunState, p: Payload, next: RunState) {
    forall t {:trigger Spelled(t)} :: Spelled(t) && t == next ==> Moves(s, p, t) && Below(t, s)
  }

  /** NewEnvelope: the payload's key, if it has one, is the envelope's. */
  function Envelop(s: RunState, runId: string, tenantId: string, id: string, at: int, p: Payload): Envelope {
    Envelope(id, runId, tenantId, s.nextSequence, p, at, if p.ToolInvoked? then p.key else None)
  }

  predicate StartPayload(p: Payload) {
    p.RunStarted? && p.input.Some? && p.maxSteps > 0
  }

  lemma Begin(runId: string, tenantId: string, id: string, at: int, p: Payload) returns (next: RunState)
    requires StartPayload(p)
    ensures var e := Envelop(EMPTY, runId, tenantId, id, at, p);
            && Takes(EMPTY, e, next) && Holds([e], map[], next) && next.runId == runId && next.tenantId == tenantId
            && next.status == Running
  {
    var e := Envelop(EMPTY, runId, tenantId, id, at, p);
    JournalStarts(e);
    next := Apply(EMPTY, e).value;
  }

  lemma Advance(log: seq<Envelope>, fences: map<string, KeyRun>, s: RunState, id: string, at: int, p: Payload) returns (next: RunState)
    requires Holds(log, fences, s) && Ready(fences, s, p) && id !in s.seen.Values
    ensures var e := Envelop(s, s.runId, s.tenantId, id, at, p);
            && Takes(s, e, next) && Holds(log + [e], fences, next) && Stepped(s, p, next)
            && next.runId == s.runId && next.tenantId == s.tenantId
  {
    assert Spelled(s);
    next := GrowsTo(log, s, Envelop(s, s.runId, s.tenantId, id, at, p));
    ResultIsInFlights(s, p);
    AgreeOn(log, fences, s, p, next);
  }

  lemma GrowsTo(log: seq<Envelope>, s: RunState, e: Envelope) returns (next: RunState)
    requires Journaled(log, s) && Emits(s, e)
    ensures Takes(s, e, next) && Journaled(log + [e], next) && Stepped(s, e.payload, next)
    ensures next.runId == s.runId && next.tenantId == s.tenantId
  {
    JournalGrows(log, s, e);
    next := Apply(s, e).value;
    JournaledMeans(log, s);
    TenantStays(s, e);
  }

  lemma AgreeOn(log: seq<Envelope>, fences: map<string, KeyRun>, s: RunState, p: Payload, next: RunState)
    requires Journaled(log, s) && FencesAgree(fences, s) && Stepped(s, p, next)
    requires p.ToolResulted? ==>
               InFlightFacts(s) && MayJournal(fences, s, p) && p.result.toolUseId == s.inFlight.value.toolUseId
    ensures FencesAgree(fences, next)
  {
    assert Spelled(next);
    JournaledMeans(log, s);
    FencesKeep(fences, s, p, next);
  }

  lemma ResultIsInFlights(s: RunState, p: Payload)
    requires MayEmit(s, p)
    ensures p.ToolResulted? ==> s.inFlight.Some? && p.result.toolUseId == s.inFlight.value.toolUseId
  {
  }

  lemma TenantStays(s: RunState, e: Envelope)
    requires DriveInv(s) && Apply(s, e).Ok?
    ensures Apply(s, e).value.tenantId == s.tenantId
  {
    assert 0 in s.seen;
    if e.seqNo !in s.seen { PayloadKeepsSteps(s, e.payload, e.occurredAt); }
  }

  lemma Repeats(log: seq<Envelope>, fences: map<string, KeyRun>, s: RunState, e: Envelope, n: nat)
    requires n > 0 && Holds(log + [e], fences, s)
    ensures Holds(log + Copies(e, n), fences, s)
  {
    assert Spelled(s);
    PublishedOnce(log, s, e, n);
  }

  /** A copy that lands late, behind later events, is one more redelivery. */
  lemma LandsLate(log: seq<Envelope>, fences: map<string, KeyRun>, s: RunState, e: Envelope)
    requires Holds(log, fences, s) && e in log
    ensures Holds(log + [e], fences, s)
  {
    assert Spelled(s);
    JournalRepeats(log, s, e);
  }

  lemma SameEnd(a: seq<Envelope>, b: seq<Envelope>)
    requires forall e :: e in a <==> e in b
    ensures EndWritten(a) <==> EndWritten(b)
  {
  }

  /** Whether a terminal event is in the log can be read off the state. */
  lemma EndShows(log: seq<Envelope>, fences: map<string, KeyRun>, s: RunState)
    requires Holds(log, fences, s)
    ensures s.status != Running <==> EndWritten(log)
  {
    assert Spelled(s);
    JournaledMeans(log, s);
    EndedIffWritten(log);
  }

  lemma ReadyMeansRunning(log: seq<Envelope>, fences: map<string, KeyRun>, s: RunState, p: Payload)
    requires Holds(log, fences, s) && Ready(fences, s, p)
    ensures s.status == Running
  {
    assert Spelled(s);
    Before(log, fences, s);
  }

  /** An event about to be published is in no log yet. */
  lemma NotYetThere(log: seq<Envelope>, fences: map<string, KeyRun>, s: RunState, e: Envelope)
    requires Holds(log, fences, s) && e.eventId !in s.seen.Values
    ensures e !in log
  {
    assert Spelled(s);
    JournaledMeans(log, s);
    SeenAll(log);
  }

  /** What an ambiguous publish leaves: the log has ended exactly if it had, or if the event is terminal and landed. */
  lemma {:induction false} EndCopies(log: seq<Envelope>, e: Envelope, n: nat)
    ensures EndWritten(log + Copies(e, n)) <==> EndWritten(log) || (n > 0 && IsEnd(e.payload))
    ensures e in log + Copies(e, n) <==> e in log || n > 0
  {
    if n == 0 {
      assert log + [] == log;
    } else {
      EndCopies(log, e, n - 1);
      EndSnoc(log + Copies(e, n - 1), e);
      assert log + Copies(e, n) == log + Copies(e, n - 1) + [e];
    }
  }

  // ------------------------------------------------- what the registry said

  /** This registry says that the tool being invoked has a side effect. */
  predicate Registered(registry: map<string, bool>, p: Payload) {
    p.ToolInvoked? && p.toolName in registry && registry[p.toolName]
  }

  /** A ToolInvoked carries the registry's word, and a key exactly if that word is "side effect". */
  predicate Tagged(registry: map<string, bool>, p: Payload) {
    p.ToolInvoked? ==> (p.hasSideEffect <==> Registered(registry, p)) && (p.key.Some? <==> Registered(registry, p))
  }

  /** Every ToolInvoked of the log carries what the registry of its day said, recorded by event id. */
  ghost predicate Declared(log: seq<Envelope>, said: map<string, bool>) {
    forall e | e in log && e.payload.ToolInvoked? :: e.eventId in said && (e.payload.hasSideEffect <==> said[e.eventId])
  }

  /** The calls, by step and id, that were run outside the fence were journaled as having no side effect. */
  ghost predicate RunBare(bare: set<(int, string)>, s: RunState) {
    forall call | call in bare :: BareCall(call, s.steps)
  }

  ghost predicate Marked(log: seq<Envelope>, said: map<string, bool>, bare: set<(int, string)>, s: RunState) {
    forall t {:trigger Spelled(t)} :: Spelled(t) && t == s ==> Declared(log, said) && RunBare(bare, t)
  }

  predicate BareCall(call: (int, string), steps: seq<StepRecord>) {
    && 1 <= call.0 <= |steps| && call.1 in steps[call.0 - 1].invoked
    && !steps[call.0 - 1].invoked[call.1].hasSideEffect
  }

  lemma BareCallOn(call: (int, string), s: RunState, p: Payload, t: RunState)
    requires s.steps != [] ==> Ordered(s.steps[|s.steps| - 1])
    requires BareCall(call, s.steps) && Moves(s, p, t)
    ensures BareCall(call, t.steps)
  {
    if p.LLMResponded? { assert t.steps[call.0 - 1] == t.steps[..|s.steps|][call.0 - 1]; }
  }

  lemma RunBareOn(bare: set<(int, string)>, s: RunState, p: Payload, t: RunState)
    requires s.steps != [] ==> Ordered(s.steps[|s.steps| - 1])
    requires RunBare(bare, s) && Moves(s, p, t)
    ensures RunBare(bare, t)
  {
    forall call | call in bare ensures BareCall(call, t.steps) {
      BareCallOn(call, s, p, t);
    }
  }

  lemma MarkedFirst(said: map<string, bool>, e: Envelope, n: nat, s: RunState)
    requires e.payload.RunStarted?
    ensures Marked(Copies(e, n), said, {}, s)
  {
    CopiesAre(e, n);
  }

  lemma {:induction false} CopiesAre(e: Envelope, n: nat)
    ensures forall x | x in Copies(e, n) :: x == e
  {
    if n > 0 { CopiesAre(e, n - 1); }
  }

  lemma MarkedNext(log: seq<Envelope>, fences: map<string, KeyRun>, said: map<string, bool>, bare: set<(int, string)>,
                   s: RunState, e: Envelope, n: nat, t: RunState)
    requires Holds(log, fences, s) && Marked(log, said, bare, s) && Stepped(s, e.payload, t)
    requires e.payload.ToolInvoked? ==> e.eventId in said && (e.payload.hasSideEffect <==> said[e.eventId])
    ensures Marked(log + Copies(e, n), said, bare, t)
  {
    assert Spelled(s) && Spelled(t);
    JournaledMeans(log, s);
    if s.steps != [] { LastIsOrdered(s); }
    RunBareOn(bare, s, e.payload, t);
    CopiesAre(e, n);
  }

  /** Another word about an event that is not in the log changes nothing. */
  lemma MarkedSaid(log: seq<Envelope>, said: map<string, bool>, bare: set<(int, string)>, s: RunState, id: string, word: bool)
    requires Marked(log, said, bare, s) && forall e | e in log :: e.eventId != id
    ensures Marked(log, said[id := word], bare, s)
  {
    assert Spelled(s);
  }

  lemma MarkedSame(log: seq<Envelope>, more: seq<Envelope>, said: map<string, bool>, bare: set<(int, string)>, s: RunState)
    requires Marked(log, said, bare, s) && forall e :: e in more <==> e in log
    ensures Marked(more, said, bare, s)
  {
    assert Spelled(s);
  }

  /** The in-flight call is run outside the fence. */
  lemma MarkedBare(log: seq<Envelope>, said: map<string, bool>, bare: set<(int, string)>, s: RunState)
    requires Marked(log, said, bare, s) && InFlightFacts(s) && !s.inFlight.value.hasSideEffect
    ensures Marked(log, said, bare + {(|s.steps|, s.inFlight.value.toolUseId)}, s)
  {
    assert Spelled(s);
  }

  /** No event of the log carries an id that the state has not seen. */
  lemma IdIsNew(log: seq<Envelope>, fences: map<string, KeyRun>, s: RunState, id: string)
    requires Holds(log, fences, s) && id !in s.seen.Values
    ensures forall e | e in log :: e.eventId != id
  {
    assert Spelled(s);
    JournaledMeans(log, s);
    SeenAll(log);
  }

  /** What the loop knows before it acts. */
  lemma Before(log: seq<Envelope>, fences: map<string, KeyRun>, s: RunState)
    requires Holds(log, fences, s)
    ensures ActionFacts(s) && s.currentStep == |s.steps| <= s.maxSteps
    ensures s.nextAction == ActionNone <==> s.status != Running
    ensures s.nextAction == ActionNone ==> s.status in {Completed, Failed}
    ensures s.nextAction == ResolveInFlightTool ==> InFlightFacts(s)
    ensures s.nextAction == CallLLM ==> Legal(Conversation(s)) && Conversation(s)[|Conversation(s)| - 1].User?
  {
    assert Spelled(s);
    ActionReady(log, s);
    JournaledMeans(log, s);
    if s.nextAction == ResolveInFlightTool { InFlightReady(log, s); }
    if s.nextAction == CallLLM {
      ConversationLegal(s);
      CallEndsWithUser(s);
    }
  }

  /** `t` is closer to the end of the run than `s`. */
  ghost predicate Lower(t: RunState, s: RunState) {
    forall u {:trigger Spelled(u)} :: Spelled(u) && u == t ==> Below(u, s)
  }

  lemma LowerMeans(t: RunState, s: RunState)
    requires Lower(t, s)
    ensures Below(t, s)
  {
    assert Spelled(t);
  }

  lemma LowerTwice(u: RunState, t: RunState, s: RunState)
    requires Lower(u, t) && Lower(t, s)
    ensures Lower(u, s)
  {
    LowerMeans(u, t);
    LowerMeans(t, s);
  }

  lemma StepLowers(s: RunState, p: Payload, next: RunState)
    requires Stepped(s, p, next)
    ensures Lower(next, s)
  {
    assert Spelled(next);
  }

  lemma StepStatus(s: RunState, p: Payload, next: RunState)
    requires Stepped(s, p, next)
    ensures next.status == if p.RunCompleted? then Completed else if p.RunFailed? then Failed else Running
  {
    assert Spelled(next);
  }

  lemma InvokedNext(before: seq<Envelope>, log: seq<Envelope>, fences: map<string, KeyRun>, s: RunState, p: Payload, next: RunState)
    requires Holds(before, fences, s) && Holds(log, fences, next) && Stepped(s, p, next) && p.ToolInvoked?
    ensures next.nextAction == ResolveInFlightTool
  {
    assert Spelled(s) && Spelled(next);
    InvokedIsInFlight(before, s, p, log, next);
  }

  /** The loop's payloads, one per action. */
  lemma ReadyForResponse(fences: map<string, KeyRun>, s: RunState, stopReason: string, content: seq<Block>)
    requires s.nextAction == CallLLM
    ensures Ready(fences, s, LLMResponded(s.currentStep + 1, stopReason, Some(content), stopReason != TOOL_USE))
  {
  }

  lemma ReadyForFailure(fences: map<string, KeyRun>, s: RunState, f: Failure)
    requires f.step == s.currentStep
    requires s.nextAction in {CallLLM, FailMaxSteps} || (s.nextAction == ResolveInFlightTool && s.inFlight.Some?)
    ensures Ready(fences, s, RunFailed(f))
  {
  }

  /** `p` is the terminal event that the state owes. */
  ghost predicate IsOwed(s: RunState, p: Payload) {
    forall t {:trigger Spelled(t)} :: Spelled(t) && t == s ==> t.steps != [] && p == TerminalPayload(t)
  }

  lemma ReadyToFinish(fences: map<string, KeyRun>, s: RunState)
    requires s.nextAction == FinishRun && s.steps != []
    ensures Ready(fences, s, TerminalPayload(s))
  {
  }

  lemma ReadyToInvoke(fences: map<string, KeyRun>, s: RunState, hasSideEffect: bool)
    requires s.nextAction == ExecuteTool && s.pending != []
    ensures var call := s.pending[0];
            Ready(fences, s, ToolInvoked(s.currentStep, call.toolUseId, call.toolName, call.toolArgs,
                                         KeyFor(s.runId, s.currentStep, call.toolUseId, hasSideEffect), hasSideEffect))
  {
  }

  lemma ReadyForResult(fences: map<string, KeyRun>, s: RunState, r: ToolResult)
    requires s.nextAction == ResolveInFlightTool && InFlightFacts(s)
    requires r.step == s.currentStep && r.toolUseId == s.inFlight.value.toolUseId && r.toolName == s.inFlight.value.toolName
    requires s.inFlight.value.hasSideEffect ==> ResultStands(fences, s.inFlight.value.key.value, r)
    ensures Ready(fences, s, ToolResulted(r))
  {
  }

  /** A key's configuration is the in-flight invocation's own. */
  ghost predicate ConfiguredFor(c: Config, s: RunState, tc: ToolCall) {
    c.ident == IdentOf(s.runId, tc) && c.step == |s.steps| && c.invokedAt == tc.invokedAt
  }

  lemma KeyMet(log: seq<Envelope>, fences: map<string, KeyRun>, s: RunState, key: string)
    requires Holds(log, fences, s) && InFlightFacts(s) && s.inFlight.value.hasSideEffect && ':' !in s.runId
    requires s.inFlight.value.key == Some(key) && key in fences
    ensures ConfiguredFor(fences[key].c, s, s.inFlight.value)
    ensures Recorded(fences[key].c, OWNER, fences[key].trace, fences[key].before, fences[key].sys)
  {
    assert Spelled(s);
    HonestResume(fences, s, key);
  }

  lemma KeyNew(c: Config)
    ensures Recorded(c, OWNER, [], Init(c), Init(c))
  {
  }

  lemma KeyMoves(log: seq<Envelope>, fences: map<string, KeyRun>, s: RunState, key: string, k: KeyRun)
    requires Holds(log, fences, s) && InFlightFacts(s) && s.inFlight.value.hasSideEffect && ':' !in s.runId
    requires s.inFlight.value.key == Some(key)
    requires Recorded(k.c, OWNER, k.trace, k.before, k.sys) && ConfiguredFor(k.c, s, s.inFlight.value)
    ensures Holds(log, fences[key := k], s)
  {
    assert Spelled(s);
    KeyMovesAlone(fences, s, key, k);
  }
}
