/** The tables agree with the fold of the log they were projected from. */
module ProjectionFold {
  import opened Wrappers
  import opened Events
  import opened Replay
  import opened ReplayLaws
  import opened DriveLog
  import opened Projection
  import opened Projector

  // ---------------------------------------------------------------- the reader

  function InsertBySeq(e: Envelope, sorted: seq<Envelope>): seq<Envelope> {
    if sorted == [] || e.seqNo < sorted[0].seqNo then [e] + sorted else [sorted[0]] + InsertBySeq(e, sorted[1..])
  }

  /** ORDER BY sequence_number, ties in insertion order. */
  function OrderBySeq(rows: seq<Envelope>): seq<Envelope>
    decreases |rows|
  {
    if rows == [] then [] else InsertBySeq(rows[|rows| - 1], OrderBySeq(rows[..|rows| - 1]))
  }

  /** EventReader.Events: a run that was not projected yet looks like a run that does not exist. */
  function ReadEvents(t: Tables, runId: string): Result<seq<Envelope>, ApplyError> {
    var rows := OfRun(t.rows, runId);
    if rows == [] then Err(RunNotFound) else Ok(OrderBySeq(rows))
  }

  function ReplayFromTables(t: Tables, runId: string): Result<RunState, ApplyError> {
    var evs :- ReadEvents(t, runId);
    Fold(evs)
  }

  predicate Numbered(evs: seq<Envelope>) {
    forall i | 0 <= i < |evs| :: evs[i].seqNo == i
  }

  lemma {:induction false} InsertLast(e: Envelope, sorted: seq<Envelope>)
    requires forall i | 0 <= i < |sorted| :: sorted[i].seqNo < e.seqNo
    ensures InsertBySeq(e, sorted) == sorted + [e]
  {
    if sorted != [] { InsertLast(e, sorted[1..]); }
  }

  lemma {:induction false} NumberedIsOrdered(evs: seq<Envelope>)
    requires Numbered(evs)
    ensures OrderBySeq(evs) == evs
    decreases |evs|
  {
    if evs != [] {
      NumberedIsOrdered(evs[..|evs| - 1]);
      InsertLast(evs[|evs| - 1], evs[..|evs| - 1]);
    }
  }

  // ------------------------------------------------------- one run in isolation

  lemma {:induction false} OfRunMembers(evs: seq<Envelope>, runId: string)
    ensures forall x :: x in OfRun(evs, runId) <==> x in evs && x.runId == runId
    decreases |evs|
  {
    if evs != [] {
      OfRunMembers(evs[..|evs| - 1], runId);
      assert forall x :: x in evs <==> x in evs[..|evs| - 1] || x == evs[|evs| - 1];
    }
  }

  lemma SlotInRun(rows: seq<Envelope>, e: Envelope)
    ensures FindSlot(rows, e).Some? <==> FindSlot(OfRun(rows, e.runId), e).Some?
  {
    FindSlotMeans(rows, e);
    FindSlotMeans(OfRun(rows, e.runId), e);
    OfRunMembers(rows, e.runId);
    assert forall i | 0 <= i < |rows| :: rows[i] in rows;
  }

  /** Deduplicating a partition and then selecting a run is deduplicating that run's log. */
  lemma {:induction false} DistinctOfRun(log: seq<Envelope>, runId: string)
    ensures OfRun(Distinct(log), runId) == Distinct(OfRun(log, runId))
    decreases |log|
  {
    if log != [] {
      var init, e := log[..|log| - 1], log[|log| - 1];
      DistinctOfRun(init, runId);
      SlotInRun(Distinct(init), e);
      OfRunSnoc(Distinct(init), e, runId);
      DistinctSnoc(OfRun(init, runId), e);
    }
  }

  lemma DistinctSnoc(log: seq<Envelope>, e: Envelope)
    ensures Distinct(log + [e]) == if FindSlot(Distinct(log), e).Some? then Distinct(log) else Distinct(log) + [e]
  {
    assert (log + [e])[..|log + [e]| - 1] == log;
  }

  // ------------------------------------------------------ rows and log agree

  /** The distinct events of an accepted log are its events in sequence order, under the ids it recorded. */
  ghost predicate Records(rows: seq<Envelope>, s: RunState) {
    && Numbered(rows) && |rows| == s.nextSequence
    && forall i | 0 <= i < |rows| :: i in s.seen && s.seen[i] == rows[i].eventId
  }

  lemma RecordNext(rows: seq<Envelope>, s: RunState, e: Envelope)
    requires FoldInv(s) && Records(rows, s) && Apply(s, e).Ok? && (forall x | x in rows :: x.runId == e.runId)
    ensures FindSlot(rows, e).Some? <==> e.seqNo in s.seen
    ensures FindSlot(rows, e).Some? ==> Apply(s, e).value == s
    ensures FindSlot(rows, e).None? ==> Records(rows + [e], Apply(s, e).value)
  {
    FindSlotMeans(rows, e);
    ApplyKeepsInv(s, e);
    if e.seqNo in s.seen { assert SameSlot(rows[e.seqNo], e); }
  }

  lemma {:induction false} FoldDistinct(log: seq<Envelope>, runId: string)
    requires (forall x | x in log :: x.runId == runId) && FoldFrom(EMPTY, log).Ok?
    ensures FoldFrom(EMPTY, Distinct(log)) == FoldFrom(EMPTY, log)
    ensures Records(Distinct(log), FoldFrom(EMPTY, log).value)
    ensures forall x | x in Distinct(log) :: x.runId == runId
    decreases |log|
  {
    if log != [] {
      var init, e := log[..|log| - 1], log[|log| - 1];
      assert log == init + [e];
      FoldPrefix(init, [e]);
      FoldFromSplit(EMPTY, init, [e]);
      FoldDistinct(init, runId);
      var s := FoldFrom(EMPTY, init).value;
      FoldFromKeepsInv(EMPTY, init);
      OneEvent(s, e);
      RecordNext(Distinct(init), s, e);
      FoldFromSplit(EMPTY, Distinct(init), [e]);
    }
  }

  lemma OneEvent(s: RunState, e: Envelope)
    ensures FoldFrom(s, [e]) == Apply(s, e)
  {
    var r := Apply(s, e);
    if r.Ok? { assert FoldFrom(r.value, [e][1..]) == r; }
  }

  lemma RowsOfRun(log: seq<Envelope>, runId: string)
    requires Clean(log)
    ensures OfRun(Project(log).rows, runId) == Distinct(OfRun(log, runId))
    ensures forall x | x in OfRun(log, runId) :: x.runId == runId
  {
    RowsAreDistinct(log);
    DistinctOfRun(log, runId);
    OfRunMembers(log, runId);
  }

  lemma DistinctFolds(mine: seq<Envelope>, runId: string)
    requires (forall x | x in mine :: x.runId == runId) && Fold(mine).Ok?
    ensures Distinct(mine) != [] && OrderBySeq(Distinct(mine)) == Distinct(mine)
    ensures Fold(Distinct(mine)) == Fold(mine)
  {
    FoldDistinct(mine, runId);
    NumberedIsOrdered(Distinct(mine));
    FoldKeepsInv(mine);
  }

  /**
   Folding the rows of a run, ordered by sequence number, gives what folding
   the consumed part of the log gives, with all its redeliveries and with the
   other runs of the partition in between.
   */
  lemma TablesFoldLikeLog(log: seq<Envelope>, runId: string)
    requires Clean(log) && Fold(OfRun(log, runId)).Ok?
    ensures ReplayFromTables(Project(log), runId) == Fold(OfRun(log, runId))
  {
    RowsOfRun(log, runId);
    DistinctFolds(OfRun(log, runId), runId);
  }

  /** A run of which nothing was consumed looks like one that does not exist. */
  lemma UnprojectedIsMissing(log: seq<Envelope>, runId: string)
    requires Clean(log) && OfRun(log, runId) == []
    ensures ReplayFromTables(Project(log), runId) == Err(RunNotFound) && runId !in Project(log).runs
  {
    RowsOfRun(log, runId);
    RowIsUpserts(log, runId);
    DistinctOfRun(log, runId);
    assert Distinct([]) == [] && RowOf([]) == None;
    NoRows(Project(log), runId);
  }

  lemma NoRows(t: Tables, runId: string)
    requires OfRun(t.rows, runId) == []
    ensures ReplayFromTables(t, runId) == Err(RunNotFound)
  {
  }

  // ------------------------------------------------------------ the runs row

  ghost predicate RowMatches(row: Option<RunRow>, s: RunState) {
    row.Some? && row.value.status == s.status && row.value.currentStep == s.currentStep && row.value.lastEventId == s.lastEventId
  }

  lemma UpsertMatches(row: Option<RunRow>, s: RunState, e: Envelope, t: RunState)
    requires RowMatches(row, s) && Moves(s, e.payload, t) && t.lastEventId == e.eventId
    ensures RowMatches(Some(Upsert(row, e)), t)
  {
  }

  /** All events are of one run, and so is the state they fold to. */
  ghost predicate SingleRun(log: seq<Envelope>, runId: string) {
    (forall x | x in log :: x.runId == runId) && Fold(log).Ok? && Fold(log).value.runId == runId
  }

  lemma FirstRun(log: seq<Envelope>)
    requires |log| == 1 && StartsRun(log[0])
    ensures SingleRun(log, log[0].runId)
  {
    assert log == [log[0]];
    FirstEvent(log[0]);
  }

  lemma {:induction false} OneRun(log: seq<Envelope>)
    requires IsDriveLog(log) && log != []
    ensures SingleRun(log, log[0].runId)
    decreases |log|
  {
    if |log| == 1 {
      FirstRun(log);
    } else {
      assert Front(log)[0] == log[0];
      OneRun(Front(log));
      SameRun(log);
      RunSnoc(log, log[0].runId);
    }
  }

  lemma RunSnoc(log: seq<Envelope>, runId: string)
    requires |log| > 1 && SingleRun(Front(log), runId)
    requires Fold(log).Ok? && Fold(log).value.runId == runId
    requires Last(log) in Front(log) || Last(log).runId == runId
    ensures SingleRun(log, runId)
  {
    assert log == Front(log) + [Last(log)];
    assert forall x | x in log :: x in Front(log) || x == Last(log);
  }

  lemma SameRun(log: seq<Envelope>)
    requires |log| > 1 && IsDriveLog(log)
    ensures Fold(log).Ok? && Fold(Front(log)).Ok? && Fold(log).value.runId == Fold(Front(log)).value.runId
    ensures Last(log) in Front(log) || Last(log).runId == Fold(log).value.runId
  {
    DriveLogFolds(Front(log));
    DriveSnoc(log);
    if Last(log) !in Front(log) { EmitMoves(Fold(Front(log)).value, Last(log)); }
  }

  lemma FirstRow(log: seq<Envelope>)
    requires |log| == 1 && StartsRun(log[0])
    ensures Fold(log).Ok? && RowMatches(RowOf(Distinct(log)), Fold(log).value)
  {
    assert log == [log[0]];
    FirstEvent(log[0]);
    assert [] + [log[0]] == log;
    DistinctSnoc([], log[0]);
    RowSnoc([], log[0]);
  }

  lemma {:induction false} DriveRow(log: seq<Envelope>)
    requires IsDriveLog(log) && log != []
    ensures Fold(log).Ok? && RowMatches(RowOf(Distinct(log)), Fold(log).value)
    decreases |log|
  {
    if |log| == 1 {
      FirstRow(log);
    } else {
      DriveRow(Front(log));
      DriveLogFolds(Front(log));
      DriveRowStep(log);
    }
  }

  lemma DriveRowStep(log: seq<Envelope>)
    requires |log| > 1 && IsDriveLog(log)
    requires Fold(Front(log)).Ok? && DriveInv(Fold(Front(log)).value) && RowMatches(RowOf(Distinct(Front(log))), Fold(Front(log)).value)
    ensures Fold(log).Ok? && RowMatches(RowOf(Distinct(log)), Fold(log).value)
  {
    DriveSnoc(log);
    DistinctLast(log);
    if Last(log) !in Front(log) {
      EmitMoves(Fold(Front(log)).value, Last(log));
      UpsertMatches(RowOf(Distinct(Front(log))), Fold(Front(log)).value, Last(log), Fold(log).value);
      RowSnoc(Distinct(Front(log)), Last(log));
    }
  }

  /** In a drive log the events that are not redeliveries are the distinct ones. */
  lemma DistinctLast(log: seq<Envelope>)
    requires |log| > 1 && IsDriveLog(log)
    ensures Distinct(log) == Distinct(Front(log)) + if Last(log) in Front(log) then [] else [Last(log)]
  {
    DriveLogFolds(Front(log));
    NewSlot(log);
    FrontRecords(log);
    SlotTaken(Distinct(Front(log)), Fold(Front(log)).value, Last(log));
    DistinctFront(log);
  }

  lemma DistinctFront(log: seq<Envelope>)
    requires log != []
    ensures Distinct(log) == Distinct(Front(log)) + if FindSlot(Distinct(Front(log)), Last(log)).Some? then [] else [Last(log)]
  {
  }

  lemma SlotTaken(rows: seq<Envelope>, s: RunState, e: Envelope)
    requires DriveInv(s) && Records(rows, s) && Apply(s, e).Ok? && forall x | x in rows :: x.runId == e.runId
    ensures FindSlot(rows, e).Some? <==> e.seqNo in s.seen
  {
    RecordNext(rows, s, e);
  }

  lemma FrontRecords(log: seq<Envelope>)
    requires |log| > 1 && IsDriveLog(log)
    ensures Fold(Front(log)).Ok? && Records(Distinct(Front(log)), Fold(Front(log)).value)
    ensures forall x | x in Distinct(Front(log)) :: x.runId == Last(log).runId
  {
    OneRun(log);
    assert SingleRun(log, log[0].runId);
    assert Last(log) in log && Front(log)[0] == log[0];
    OneRun(Front(log));
    FoldDistinct(Front(log), log[0].runId);
  }

  lemma NewSlot(log: seq<Envelope>)
    requires |log| > 1 && IsDriveLog(log) && Fold(Front(log)).Ok? && DriveInv(Fold(Front(log)).value)
    ensures Apply(Fold(Front(log)).value, Last(log)).Ok?
    ensures Last(log).seqNo in Fold(Front(log)).value.seen <==> Last(log) in Front(log)
  {
    if Last(log) in Front(log) { SeenAll(Front(log)); } else { EmitKeeps(Fold(Front(log)).value, Last(log)); }
  }

  /** For a run the loop drives, the runs row shows the fold's own status and step. */
  lemma RunsRowShowsFold(log: seq<Envelope>, runId: string)
    requires Clean(log) && OfRun(log, runId) != [] && IsDriveLog(OfRun(log, runId))
    ensures runId in Project(log).runs && Fold(OfRun(log, runId)).Ok?
    ensures var row, s := Project(log).runs[runId], Fold(OfRun(log, runId)).value;
            row.status == s.status && row.currentStep == s.currentStep && row.lastEventId == s.lastEventId
  {
    RowIsUpserts(log, runId);
    DistinctOfRun(log, runId);
    DriveRow(OfRun(log, runId));
  }

  // -------------------------------------------- logs the loop does not write

  /** The three events across which the fold keeps a run waiting for approval. */
  predicate IsWork(p: Payload) {
    p.LLMResponded? || p.ToolInvoked? || p.ToolResulted?
  }

  lemma PayloadStatus(s: RunState, p: Payload, at: int)
    requires ApplyPayload(s, p, at).Ok?
    ensures ApplyPayload(s, p, at).value.status == if IsWork(p) then s.status else StatusForEvent(p.Type())
    ensures ApplyPayload(s, p, at).value.currentStep ==
            if p.RunStarted? then 0 else if p.LLMResponded? then p.step else s.currentStep
  {
  }

  /**
   On any accepted log, one more event leaves row and fold with the same status
   exactly when it is not work done while the run waits for approval, and with
   the same step exactly when the event repeats the fold's own step.
   */
  lemma RowKeepsUp(row: RunRow, s: RunState, e: Envelope)
    requires FoldInv(s) && 0 < s.nextSequence && Apply(s, e).Ok? && e.seqNo !in s.seen
    requires row.status == s.status && row.currentStep == s.currentStep
    ensures var t, after := Apply(s, e).value, Upsert(Some(row), e);
            && (after.status == t.status <==> !(s.status == WaitingApproval && IsWork(e.payload)))
            && (after.currentStep == t.currentStep <==>
                  match StepFromPayload(e.payload)
                  case None => e.payload.RunStarted? ==> s.currentStep == 0
                  case Some(step) => e.payload.LLMResponded? || step == s.currentStep)
  {
    assert 0 in s.seen;
    PayloadStatus(s, e.payload, e.occurredAt);
  }
}
