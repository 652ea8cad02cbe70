/** A run that works on while it waits for approval: its runs row and its fold differ. */
module RowAhead {
  import opened Wrappers
  import opened Events
  import opened Replay
  import opened Projection
  import opened Projector

  const STARTED := Envelope("a", "r", "t", 0, RunStarted("w", Some("p"), 2), 0, None)
  const ASKED := Envelope("b", "r", "t", 1, AwaitingApproval(0), 0, None)
  const WORKED := Envelope("c", "r", "t", 2, LLMResponded(1, "end_turn", Some([]), true), 0, None)

  // ----------------------------------------------------------------- the fold

  const FRESH := RunState("r", "t", Running, 0, 2, 1, "a", 0, [], None, CallLLM, "", None, "p", [], map[0 := "a"])
  const WAITING := RunState("r", "t", WaitingApproval, 0, 2, 2, "b", 0, [], None, ActionNone, "", None, "p", [], map[0 := "a", 1 := "b"])

  lemma Starts()
    ensures Apply(EMPTY, STARTED) == Ok(FRESH)
  {
    assert map[][0 := "a"] == map[0 := "a"];
  }

  lemma Asks()
    ensures Apply(FRESH, ASKED) == Ok(WAITING)
  {
    assert 0 in FRESH.seen;
    assert map[0 := "a"][1 := "b"] == map[0 := "a", 1 := "b"];
  }

  lemma Works()
    ensures Apply(WAITING, WORKED).Ok? && Apply(WAITING, WORKED).value.status == WaitingApproval
  {
    assert 0 in WAITING.seen;
  }

  lemma FoldThree(x: Envelope, y: Envelope, z: Envelope, s: RunState, t: RunState, u: RunState)
    requires Apply(EMPTY, x) == Ok(s) && Apply(s, y) == Ok(t) && Apply(t, z) == Ok(u)
    ensures Fold([x, y, z]) == Ok(u)
  {
    assert [x, y, z][1..] == [y, z] && [y, z][1..] == [z] && [z][1..] == [];
    assert FoldFrom(t, [z]) == FoldFrom(u, []);
    assert FoldFrom(s, [y, z]) == FoldFrom(t, [z]);
  }

  // ---------------------------------------------------------------- the tables

  lemma ProjectThree(x: Envelope, y: Envelope, z: Envelope, s: Tables, t: Tables, u: Tables)
    requires ApplyEvent(Tables([], map[]), x) == (s, Inserted)
    requires ApplyEvent(s, y) == (t, Inserted) && ApplyEvent(t, z) == (u, Inserted)
    ensures Clean([x, y, z]) && Project([x, y, z]) == u
  {
    assert [x, y, z][..2] == [x, y] && [x, y][..1] == [x] && [x][..0] == [];
    assert Clean([x]) && Project([x]) == s;
    assert Clean([x, y]) && Project([x, y]) == t;
  }

  lemma Inserts(rows: seq<Envelope>, runs: map<string, RunRow>, e: Envelope)
    requires FitsInt(e.seqNo) && Sendable(e.payload)
    requires forall row | row in rows :: row.seqNo != e.seqNo && row.eventId != e.eventId
    ensures ApplyEvent(Tables(rows, runs), e) == (Tables(rows + [e], runs[e.runId := Upsert(Lookup(runs, e.runId), e)]), Inserted)
  {
    FindSlotMeans(rows, e);
  }

  /**
   Once its row and its fold both wait for approval, more work leaves the fold
   waiting, while the row says that the run is running.
   */
  lemma RowRunsAhead()
    ensures var log := [STARTED, ASKED, WORKED];
            && Clean(log) && Fold(log).Ok? && Fold(log).value.status == WaitingApproval
            && "r" in Project(log).runs && Project(log).runs["r"].status == Running
  {
    Starts();
    Asks();
    Works();
    FoldThree(STARTED, ASKED, WORKED, FRESH, WAITING, Apply(WAITING, WORKED).value);
    Inserts([], map[], STARTED);
    var t1 := ApplyEvent(Tables([], map[]), STARTED).0;
    Inserts(t1.rows, t1.runs, ASKED);
    var t2 := ApplyEvent(t1, ASKED).0;
    Inserts(t2.rows, t2.runs, WORKED);
    ProjectThree(STARTED, ASKED, WORKED, t1, t2, ApplyEvent(t2, WORKED).0);
  }
}
