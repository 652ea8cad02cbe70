/** Bounds on what the worker's loop can do, over its whole log and over one pass. */
module DriveBounds {
  import opened Events
  import opened Replay
  import opened ReplayLaws
  import opened DriveLog

  function LlmEvents(log: seq<Envelope>): set<Envelope> {
    set e | e in log && e.payload.LLMResponded?
  }

  lemma LlmSnoc(init: seq<Envelope>, e: Envelope)
    ensures |LlmEvents(init + [e])| == |LlmEvents(init)| + (if e.payload.LLMResponded? && e !in init then 1 else 0)
  {
    assert LlmEvents(init + [e]) == LlmEvents(init) + (if e.payload.LLMResponded? then {e} else {});
    if e in init { assert LlmEvents(init + [e]) == LlmEvents(init); }
  }

  lemma CountSnoc(log: seq<Envelope>)
    requires |log| > 1 && Fold(Front(log)).Ok? && DriveInv(Fold(Front(log)).value)
    requires Continues(Front(log), Last(log))
    ensures Fold(log).Ok?
    ensures |Fold(log).value.steps| ==
            |Fold(Front(log)).value.steps| + (if Last(log).payload.LLMResponded? && Last(log) !in Front(log) then 1 else 0)
    ensures Fold(log).value.maxSteps == Fold(Front(log)).value.maxSteps
  {
    DriveSnoc(log);
    if Last(log) !in Front(log) { EmitMoves(Fold(Front(log)).value, Last(log)); }
  }

  lemma {:induction false} BeginsWithStart(log: seq<Envelope>)
    requires IsDriveLog(log) && log != []
    ensures StartsRun(log[0])
    decreases |log|
  {
    if |log| > 1 { BeginsWithStart(Front(log)); }
  }

  lemma CountFirst(log: seq<Envelope>)
    requires |log| == 1 && StartsRun(log[0])
    ensures Fold(log).Ok? && |LlmEvents(log)| == |Fold(log).value.steps|
    ensures Fold(log).value.maxSteps == log[0].payload.maxSteps
  {
    assert log == [log[0]];
    FirstEvent(log[0]);
    assert LlmEvents(log) == {};
  }

  lemma {:induction false} CountSteps(log: seq<Envelope>)
    requires IsDriveLog(log) && log != [] && StartsRun(log[0])
    ensures Fold(log).Ok? && |LlmEvents(log)| == |Fold(log).value.steps|
    ensures Fold(log).value.maxSteps == log[0].payload.maxSteps
    decreases |log|
  {
    if |log| == 1 {
      CountFirst(log);
    } else {
      CountSteps(Front(log));
      DriveLogFolds(Front(log));
      assert log == Front(log) + [Last(log)];
      LlmSnoc(Front(log), Last(log));
      CountSnoc(log);
    }
  }

  /**
   However often a run is resumed, its log never holds more LLM responses than
   the max_steps its RunStarted journaled: each one is a step of the fold.
   */
  lemma LlmCallsBounded(log: seq<Envelope>)
    requires IsDriveLog(log) && log != []
    ensures log[0].payload.RunStarted? && Fold(log).Ok?
    ensures |LlmEvents(log)| == |Fold(log).value.steps| <= log[0].payload.maxSteps
  {
    DriveLogFolds(log);
    BeginsWithStart(log);
    CountSteps(log);
  }

  // ------------------------------------------------------------------- endings

  predicate IsEnd(p: Payload) {
    p.RunCompleted? || p.RunFailed? || p.RunCancelled?
  }

  /** A terminal event was written. */
  ghost predicate EndWritten(log: seq<Envelope>) {
    exists e :: e in log && IsEnd(e.payload)
  }

  lemma EndSnoc(init: seq<Envelope>, e: Envelope)
    ensures EndWritten(init + [e]) <==> EndWritten(init) || IsEnd(e.payload)
  {
    assert forall x :: x in init + [e] <==> x in init || x == e;
    if EndWritten(init) {
      var x :| x in init && IsEnd(x.payload);
      assert x in init + [e];
    }
    if IsEnd(e.payload) { assert e in init + [e]; }
  }

  lemma StatusMoves(s: RunState, p: Payload, t: RunState)
    requires Moves(s, p, t)
    ensures t.status != Running <==> IsEnd(p)
  {
  }

  lemma EndFirst(log: seq<Envelope>)
    requires |log| == 1 && StartsRun(log[0])
    ensures Fold(log).Ok? && Fold(log).value.status == Running && !EndWritten(log)
  {
    assert log == [log[0]];
    FirstEvent(log[0]);
  }

  lemma EndStep(log: seq<Envelope>)
    requires |log| > 1 && Fold(Front(log)).Ok? && DriveInv(Fold(Front(log)).value) && Continues(Front(log), Last(log))
    requires Fold(Front(log)).value.status != Running <==> EndWritten(Front(log))
    ensures Fold(log).Ok? && (Fold(log).value.status != Running <==> EndWritten(log))
  {
    assert log == Front(log) + [Last(log)];
    DriveSnoc(log);
    EndSnoc(Front(log), Last(log));
    if Last(log) in Front(log) {
      assert IsEnd(Last(log).payload) ==> EndWritten(Front(log));
    } else {
      EmitMoves(Fold(Front(log)).value, Last(log));
      StatusMoves(Fold(Front(log)).value, Last(log).payload, Fold(log).value);
    }
  }

  /** A run the loop drives has ended exactly when a terminal event was written. */
  lemma {:induction false} EndedIffWritten(log: seq<Envelope>)
    requires IsDriveLog(log) && log != []
    ensures Fold(log).Ok? && (Fold(log).value.status != Running <==> EndWritten(log))
    decreases |log|
  {
    if |log| == 1 {
      EndFirst(log);
    } else {
      EndedIffWritten(Front(log));
      DriveLogFolds(Front(log));
      EndStep(log);
    }
  }

  // -------------------------------------------------------------- termination

  /** Calls of the current step that still need a ToolInvoked, and those that still need a ToolResulted. */
  function Unresulted(step: StepRecord, ids: seq<string>): nat {
    if ids == [] then 0
    else (if ids[0] in step.results then 0 else 1) + Unresulted(step, ids[1..])
  }

  function OpenCalls(s: RunState): nat {
    if s.steps == [] then 0
    else
      var last := s.steps[|s.steps| - 1];
      Unresulted(last, last.order) + |Uninvoked(last, last.order)|
  }

  /** Rounds left, then open calls, then whether a terminal event is still due. */
  ghost predicate Below(t: RunState, s: RunState) {
    var a, b := t.maxSteps - t.currentStep, s.maxSteps - s.currentStep;
    && 0 <= a && 0 <= b
    && (a < b || (a == b && (OpenCalls(t) < OpenCalls(s)
        || (OpenCalls(t) == OpenCalls(s) && IsTerminalStatus(t.status) && !IsTerminalStatus(s.status)))))
  }

  lemma {:induction false} InvokingShrinks(step: StepRecord, ids: seq<string>, id: string, more: StepRecord)
    requires more.results == step.results && more.invokedOrder == step.invokedOrder + [id]
    ensures Unresulted(more, ids) == Unresulted(step, ids)
    ensures |Uninvoked(more, ids)| <= |Uninvoked(step, ids)|
    ensures id in ids && id !in step.invokedOrder ==> |Uninvoked(more, ids)| < |Uninvoked(step, ids)|
  {
    if ids != [] { InvokingShrinks(step, ids[1..], id, more); }
  }

  lemma {:induction false} ResultingShrinks(step: StepRecord, ids: seq<string>, id: string, more: StepRecord)
    requires more.invokedOrder == step.invokedOrder && id in more.results
    requires forall k | k in step.results :: k in more.results
    ensures |Uninvoked(more, ids)| == |Uninvoked(step, ids)|
    ensures Unresulted(more, ids) <= Unresulted(step, ids)
    ensures id in ids && id !in step.results ==> Unresulted(more, ids) < Unresulted(step, ids)
  {
    if ids != [] { ResultingShrinks(step, ids[1..], id, more); }
  }

  /** Every event the loop emits moves the run strictly down a well-founded order, whatever the LLM and the tools answer. */
  lemma EmitDescends(s: RunState, e: Envelope)
    requires DriveInv(s) && Emits(s, e)
    ensures Apply(s, e).Ok? && Below(Apply(s, e).value, s)
  {
    EmitKeeps(s, e);
    EmitMoves(s, e);
    MovesDescend(s, e.payload, Apply(s, e).value);
  }

  lemma MovesDescend(s: RunState, p: Payload, t: RunState)
    requires Moves(s, p, t) && s.status == Running
    requires s.currentStep <= s.maxSteps && t.currentStep <= t.maxSteps
    ensures Below(t, s)
  {
    var n := |s.steps| - 1;
    if p.ToolInvoked? {
      InvokingShrinks(s.steps[n], s.steps[n].order, p.toolUseId, t.steps[n]);
    } else if p.ToolResulted? {
      ResultingShrinks(s.steps[n], s.steps[n].order, p.result.toolUseId, t.steps[n]);
    }
  }
}
