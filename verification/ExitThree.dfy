/**
 A worker that exits with code 3 may have ended its run: the last publish, whose
 error it reports, can have landed.
 */
module ExitThree {
  import opened Wrappers
  import opened Events
  import opened Replay
  import opened DriveLog
  import opened DriveBounds
  import opened Journal

  /** A run whose LLM answered at once. */
  const STARTED := Envelope("a", "r", "t", 0, RunStarted("w", Some("p"), 1), 0, None)
  const ANSWERED := Envelope("b", "r", "t", 1, LLMResponded(1, "end_turn", Some([Text("done")]), true), 0, None)
  const OWED := Envelope("c", "r", "t", 2, RunCompleted("done", 1), 0, None)

  const STEP := StepRecord([Text("done")], true, "end_turn", map[], [], [], map[])
  const FRESH := RunState("r", "t", Running, 0, 1, 1, "a", 0, [], None, CallLLM, "", None, "p", [], map[0 := "a"])
  const DUE := RunState("r", "t", Running, 1, 1, 2, "b", 0, [], None, FinishRun, "", None, "p", [STEP], map[0 := "a", 1 := "b"])

  lemma StartApplies()
    ensures Apply(EMPTY, STARTED) == Ok(FRESH)
  {
    assert map[][0 := "a"] == map[0 := "a"];
  }

  lemma AnswerEmits()
    ensures Emits(FRESH, ANSWERED)
  {
  }

  const MIDWAY := FRESH.(currentStep := 1, steps := [STEP])

  lemma AnswerPayload()
    ensures ApplyPayload(FRESH, ANSWERED.payload, 0) == Ok(MIDWAY)
  {
    assert ToolUseIds([Text("done")]) == [] by { assert [Text("done")][1..] == []; }
    assert [] + [STEP] == [STEP];
  }

  lemma AnswerBooks()
    ensures Replay.Bookkeep(MIDWAY, ANSWERED) == DUE
  {
    assert map[0 := "a"][1 := "b"] == map[0 := "a", 1 := "b"];
    assert DeriveToolState(MIDWAY) == MIDWAY;
  }

  lemma AnswerApplies()
    ensures Apply(FRESH, ANSWERED) == Ok(DUE)
  {
    AnswerPayload();
    AnswerBooks();
    assert FRESH.seen != map[] by { assert 0 in FRESH.seen; }
  }

  lemma Grows(log: seq<Envelope>, s: RunState, e: Envelope, t: RunState, more: seq<Envelope>)
    requires Journaled(log, s) && Emits(s, e) && Apply(s, e) == Ok(t) && more == log + [e]
    ensures Journaled(more, t)
  {
    JournalGrows(log, s, e);
  }

  lemma Started()
    ensures Journaled([STARTED], FRESH)
  {
    JournalStarts(STARTED);
    StartApplies();
  }

  lemma Answered()
    ensures Journaled([STARTED, ANSWERED], DUE)
  {
    Started();
    AnswerEmits();
    AnswerApplies();
    assert [STARTED] + [ANSWERED] == [STARTED, ANSWERED];
    Grows([STARTED], FRESH, ANSWERED, DUE, [STARTED, ANSWERED]);
  }

  /** What the run owes next is the terminal event. */
  lemma OwedEmits()
    ensures OWED.payload == TerminalPayload(DUE) && Emits(DUE, OWED)
  {
    assert JoinText([Text("done")]) == "done" by {
      assert [Text("done")][1..] == [] && "done" + "" == "done";
    }
  }

  lemma Completes(s: RunState, p: Payload, t: RunState)
    requires Moves(s, p, t) && p.RunCompleted?
    ensures t.status == Completed
  {
  }

  /** The log before that publish, and what each number of landed copies makes of it. */
  function Left(landed: nat): seq<Envelope> {
    [STARTED, ANSWERED] + Copies(OWED, landed)
  }

  /**
   Publishing OWED may report an error whatever landed. If no copy did the run is
   open; if any did, the terminal event is written, and the log, still one the
   loop could have written, folds to a completed run.
   */
  lemma AmbiguousEnd(landed: nat)
    ensures IsDriveLog(Left(landed)) && Fold(Left(landed)).Ok?
    ensures EndWritten(Left(landed)) <==> landed > 0
    ensures Fold(Left(landed)).value.status == if landed > 0 then Completed else Running
  {
    var log := [STARTED, ANSWERED];
    Answered();
    OwedEmits();
    JournalGrows(log, DUE, OWED);
    var t := Apply(DUE, OWED).value;
    Completes(DUE, OWED.payload, t);
    LeftFolds(landed, log, t);
  }

  lemma LeftFolds(landed: nat, log: seq<Envelope>, t: RunState)
    requires log == [STARTED, ANSWERED] && Journaled(log, DUE) && Journaled(log + [OWED], t) && t.status == Completed
    ensures IsDriveLog(Left(landed)) && Fold(Left(landed)).Ok?
    ensures EndWritten(Left(landed)) <==> landed > 0
    ensures Fold(Left(landed)).value.status == if landed > 0 then Completed else Running
  {
    if landed > 0 {
      PublishedOnce(log, t, OWED, landed);
      JournaledMeans(Left(landed), t);
    } else {
      assert Left(0) == log;
      JournaledMeans(log, DUE);
    }
    EndedIffWritten(Left(landed));
  }
}
