/**
 The projector (cmd/projector/main.go): any number of instances consume one
 partition, each applying a message to Postgres and only then committing its
 offset, and each may stop anywhere in between.
 */
module Projector {
  import opened Wrappers
  import opened Events
  import opened Projection

  /** The tables after consuming `log` once, in order. */
  function Project(log: seq<Envelope>): Tables
    decreases |log|
  {
    if log == [] then Tables([], map[]) else ApplyEvent(Project(log[..|log| - 1]), log[|log| - 1]).0
  }

  /** No message of `log` is poison: it is new, or a redelivery. */
  predicate Clean(log: seq<Envelope>)
    decreases |log|
  {
    log == [] ||
    (Clean(log[..|log| - 1])
     && ApplyEvent(Project(log[..|log| - 1]), log[|log| - 1]).1 in {Inserted, Redelivered})
  }

  /** The first occurrence of every (run_id, sequence_number), in log order. */
  function Distinct(log: seq<Envelope>): seq<Envelope>
    decreases |log|
  {
    if log == [] then []
    else
      var rest := Distinct(log[..|log| - 1]);
      if FindSlot(rest, log[|log| - 1]).Some? then rest else rest + [log[|log| - 1]]
  }

  // ------------------------------------------------------- one consumer's loop

  /** The tables hold exactly the first `n` messages of the partition. */
  ghost predicate Holds(t: Tables, log: seq<Envelope>, n: nat) {
    n <= |log| && Clean(log[..n]) && t == Project(log[..n])
  }

  /** Why a consumer stopped. */
  datatype Stop = CaughtUp | Poison | Retrying | Stopped

  predicate IsPoison(log: seq<Envelope>, n: nat)
    requires n < |log|
  {
    ApplyEvent(Project(log[..n]), log[n]).1 in {Conflict, Permanent}
  }

  /** A message whose statements are never sent: it is retried, and nothing ever changes. */
  predicate IsStuck(log: seq<Envelope>, n: nat)
    requires n < |log|
  {
    NeverSent(Project(log[..n]), log[n])
  }

  /** What was consumed was neither. */
  lemma {:induction false} ConsumedWell(log: seq<Envelope>, high: nat, n: nat)
    requires n < high <= |log| && Clean(log[..high])
    ensures !IsStuck(log, n) && !IsPoison(log, n)
    decreases high
  {
    var part := log[..high];
    assert part[..|part| - 1] == log[..high - 1];
    if n < high - 1 {
      ConsumedWell(log, high - 1, n);
    } else {
      RetriedIff(Project(log[..n]), log[n]);
    }
  }

  /**
   Applies the message at `next`, retrying until the process is told to stop.
   `high` messages were consumed so far by anybody.
   */
  method ApplyMessage(db: Database, log: seq<Envelope>, next: nat, until: nat, ghost high: nat)
    returns (r: ApplyResult, ghost stuck: bool, ghost reached: nat)
    requires next <= high && next < |log| && Holds(db.Contents(), log, high)
    modifies db
    ensures high <= reached <= high + 1 && Holds(db.Contents(), log, reached)
    ensures r in {Inserted, Redelivered} ==> next < reached
    ensures r in {Conflict, Permanent} ==> next == high == reached && IsPoison(log, next)
    ensures stuck ==> next == high == reached && IsStuck(log, next) && r == Transient
    ensures r == Transient ==> stuck || db.faults >= old(db.faults) + until
    ensures db.faults >= old(db.faults)
  {
    Consume(log, next, high);
    RetriedIff(Project(log[..high]), log[next]);
    r := db.ApplyWithRetry(log[next], until);
    reached := high;
    stuck := NeverSent(Project(log[..high]), log[next]);
    if next == high && ApplyEvent(Project(log[..high]), log[next]).1 in {Inserted, Redelivered}
       && db.Contents() == ApplyEvent(Project(log[..high]), log[next]).0 {
      reached := next + 1;
    }
  }

  /**
   Runs until it has consumed `messages` or all there are, meets a poison
   message, or is stopped: in a retry, between a database commit and its offset
   commit, or by losing the reply to the latter. A consumer that is still
   retrying has met a message that cannot be sent, or as many faults as attempts.
   */
  method ConsumeLoop(db: Database, log: seq<Envelope>, committed: nat, messages: nat, until: nat, ghost high: nat)
    returns (offset: nat, why: Stop, ghost stuck: bool, ghost reached: nat)
    requires committed <= high && Holds(db.Contents(), log, high)
    modifies db
    ensures committed <= offset <= reached && high <= reached && Holds(db.Contents(), log, reached)
    ensures why == CaughtUp ==> offset == if committed + messages <= |log| then committed + messages else |log|
    ensures why == Poison ==> offset == reached < |log| && IsPoison(log, offset)
    ensures why == Retrying ==> stuck || db.faults >= old(db.faults) + until
    ensures stuck ==> offset == reached < |log| && IsStuck(log, offset) && why == Retrying
  {
    offset, stuck, reached := committed, false, high;
    var next, consumed := committed, 0;
    while consumed < messages && next < |log|
      invariant committed <= offset == next <= reached && high <= reached && Holds(db.Contents(), log, reached)
      invariant !stuck && next == committed + consumed && consumed <= messages && db.faults >= old(db.faults)
    {
      var r;
      r, stuck, reached := ApplyMessage(db, log, next, until, reached);
      if r == Transient {
        why := Retrying;
        return;
      }
      if r == Conflict || r == Permanent {
        why := Poison;
        return;
      }
      consumed := consumed + 1;
      var stopped: bool, lost: bool := *, *;
      if stopped {
        why := Stopped;
        return;
      }
      offset := next + 1;
      if lost {
        why := Stopped;
        return;
      }
      next := next + 1;
    }
    why := CaughtUp;
  }

  /** What applying message `next` does, given that `high` messages have been applied. */
  lemma Consume(log: seq<Envelope>, next: nat, high: nat)
    requires next <= high <= |log| && next < |log| && Clean(log[..high])
    ensures next < high ==> ApplyEvent(Project(log[..high]), log[next]) == (Project(log[..high]), Redelivered)
    ensures next == high ==> Project(log[..next + 1]) == ApplyEvent(Project(log[..high]), log[next]).0
    ensures next == high && ApplyEvent(Project(log[..high]), log[next]).1 in {Inserted, Redelivered} ==> Clean(log[..next + 1])
  {
    if next < high {
      assert log[..high][next] == log[next];
      Consumed(log[..high], next);
    } else {
      assert log[..next + 1][..|log[..next + 1]| - 1] == log[..next];
    }
  }

  /** A consumed message is a redelivery from then on. */
  lemma {:induction false} Consumed(log: seq<Envelope>, n: nat)
    requires n < |log| && Clean(log)
    ensures ApplyEvent(Project(log), log[n]) == (Project(log), Redelivered)
    decreases |log|
  {
    var init, e := log[..|log| - 1], log[|log| - 1];
    if n < |log| - 1 {
      assert init[n] == log[n];
      Consumed(init, n);
      if ApplyEvent(Project(init), e).1 == Inserted { FindSnoc(Project(init).rows, log[n], e); }
    } else {
      ReapplyIsNoop(Project(init), e);
    }
  }

  // --------------------------------------------------------- many instances

  datatype Instance = Fetching(next: nat) | Applied(next: nat)

  datatype Cluster = Cluster(tables: Tables, committed: nat, instances: map<nat, Instance>)

  /** `done` says whether the reply of a commit reached the instance. */
  datatype Label = Start(i: nat) | Stop(i: nat) | ApplyNext(i: nat, done: bool) | CommitOffset(i: nat, done: bool)

  function Do(log: seq<Envelope>, s: Cluster, l: Label): Cluster {
    if l.Start? then
      if l.i in s.instances then s else s.(instances := s.instances[l.i := Fetching(s.committed)])
    else if l.i !in s.instances then s
    else
      var at := s.instances[l.i];
      match l
      case Stop(i) => s.(instances := s.instances - {i})
      case ApplyNext(i, done) =>
        if !at.Fetching? || at.next >= |log| then s
        else
          var (t, r) := ApplyEvent(s.tables, log[at.next]);
          if r == Conflict || r == Permanent then s.(instances := s.instances - {i})
          else if r == Transient then s
          else s.(tables := t, instances := if done then s.instances[i := Applied(at.next)] else s.instances)
      case CommitOffset(i, done) =>
        if !at.Applied? then s
        else s.(committed := at.next + 1,
                instances := if done then s.instances[i := Fetching(at.next + 1)] else s.instances - {i})
  }

  function Run(log: seq<Envelope>, s: Cluster, ls: seq<Label>): Cluster
    decreases |ls|
  {
    if ls == [] then s else Run(log, Do(log, s, ls[0]), ls[1..])
  }

  const INITIAL := Cluster(Tables([], map[]), 0, map[])

  /** Exactly the first `high` messages are in the tables, and nobody is ahead of them. */
  ghost predicate Reaches(log: seq<Envelope>, s: Cluster, high: nat) {
    && Holds(s.tables, log, high)
    && s.committed <= high
    && forall i | i in s.instances :: s.instances[i].next + (if s.instances[i].Applied? then 1 else 0) <= high
  }

  lemma ApplyAt(log: seq<Envelope>, s: Cluster, l: Label, high: nat) returns (high': nat)
    requires Reaches(log, s, high) && l.ApplyNext?
    ensures Reaches(log, Do(log, s, l), high') && high <= high' <= high + 1
  {
    high' := high;
    if l.i in s.instances && s.instances[l.i].Fetching? && s.instances[l.i].next < |log| {
      var next := s.instances[l.i].next;
      high' := ApplyTables(log, s.tables, next, high);
    }
  }

  /** What applying message `next` does to the tables alone. */
  lemma ApplyTables(log: seq<Envelope>, t: Tables, next: nat, high: nat) returns (high': nat)
    requires Holds(t, log, high) && next <= high && next < |log|
    ensures Holds(ApplyEvent(t, log[next]).0, log, high') && high <= high' <= high + 1
    ensures ApplyEvent(t, log[next]).1 in {Inserted, Redelivered} ==> next < high'
    ensures ApplyEvent(t, log[next]).1 in {Conflict, Permanent, Transient} ==> ApplyEvent(t, log[next]).0 == t && high' == high
  {
    Consume(log, next, high);
    high' := if next == high && ApplyEvent(t, log[next]).1 in {Inserted, Redelivered} then high + 1 else high;
  }

  lemma StepReaches(log: seq<Envelope>, s: Cluster, l: Label, high: nat) returns (high': nat)
    requires Reaches(log, s, high)
    ensures Reaches(log, Do(log, s, l), high') && high <= high' <= high + 1
  {
    if l.ApplyNext? {
      high' := ApplyAt(log, s, l, high);
    } else {
      high' := high;
    }
  }

  /**
   Whatever the instances do, the tables hold exactly a prefix of the
   partition, consumed once and in order; that prefix only grows, and the
   committed offset never passes it.
   */
  lemma {:induction false} ProjectedPrefix(log: seq<Envelope>, s: Cluster, ls: seq<Label>, high: nat) returns (high': nat)
    requires Reaches(log, s, high)
    ensures Reaches(log, Run(log, s, ls), high') && high <= high'
    decreases |ls|
  {
    if ls == [] {
      high' := high;
    } else {
      var h := StepReaches(log, s, ls[0], high);
      high' := ProjectedPrefix(log, Do(log, s, ls[0]), ls[1..], h);
    }
  }

  /** Once an instance has committed a message's offset, whoever starts begins behind that message. */
  lemma StartsBehindCommit(log: seq<Envelope>, s: Cluster, i: nat, j: nat, done: bool)
    requires i in s.instances && s.instances[i].Applied? && j !in s.instances
    ensures var t := Do(log, Do(log, s, CommitOffset(i, done)), Start(j));
            && j in t.instances && t.instances[j] == Fetching(s.instances[i].next + 1) && t.tables == s.tables
            && (done ==> i in t.instances && t.instances[i] == Fetching(s.instances[i].next + 1))
  {
  }

  // ------------------------------------------------- messages nobody passes

  /**
   For a message about to be applied the three outcomes are told apart by the
   log alone: retried with nothing changed, given up as poison, or applied.
   */
  lemma ApplyDecides(log: seq<Envelope>, s: Cluster, i: nat, high: nat)
    requires Reaches(log, s, high) && i in s.instances && s.instances[i].Fetching? && s.instances[i].next < |log|
    ensures var next, t := s.instances[i].next, Do(log, s, ApplyNext(i, true));
            && (t == s <==> IsStuck(log, next))
            && (i !in t.instances <==> next == high && IsPoison(log, next))
            && (i in t.instances && t.instances[i] == Applied(next) <==> !IsStuck(log, next) && !(next == high && IsPoison(log, next)))
  {
    var next := s.instances[i].next;
    Consume(log, next, high);
    if next < high { ConsumedWell(log, high, next); } else { RetriedIff(Project(log[..next]), log[next]); }
  }

  lemma {:induction false} RunFrom(log: seq<Envelope>, s: Cluster, a: seq<Label>, b: seq<Label>)
    ensures Run(log, s, a + b) == Run(log, Run(log, s, a), b)
    decreases |a|
  {
    if a == [] {
      assert a + b == b;
    } else {
      assert (a + b)[0] == a[0] && (a + b)[1..] == a[1..] + b;
      RunFrom(log, Do(log, s, a[0]), a[1..], b);
    }
  }

  /** No instance ever gets past a stuck or a poison message, whatever is restarted how often. */
  lemma NobodyPasses(log: seq<Envelope>, ls: seq<Label>, n: nat)
    requires n < |log| && (IsStuck(log, n) || IsPoison(log, n))
    ensures var s := Run(log, INITIAL, ls);
            && s.committed <= n && (forall i | i in s.instances :: s.instances[i].next <= n)
            && exists high | 0 <= high <= n :: Reaches(log, s, high)
  {
    var high := ProjectedPrefix(log, INITIAL, ls, 0);
    if high > n { ConsumedWell(log, high, n); }
  }

  const GOOD := Envelope("b", "q", "t", 0, RunStarted("w", Some("p"), 1), 0, None)

  /** A payload that does not decode; one that does, with a step, and an event with a number, too big for its column. */
  const UNREADABLE := Envelope("a", "r", "t", 0, Malformed(RunStartedEvent), 0, None)
  const STEP_TOO_BIG := Envelope("a", "r", "t", 0, LLMResponded(0x8000_0000, "end_turn", Some([]), true), 0, None)
  const NUMBER_TOO_BIG := Envelope("a", "r", "t", 0x8000_0000, RunStarted("w", Some("p"), 1), 0, None)

  /** Behind any of them a good message is never projected. */
  lemma StuckConsumer(first: Envelope, ls: seq<Label>)
    requires first in {UNREADABLE, STEP_TOO_BIG, NUMBER_TOO_BIG}
    ensures var s := Run([first, GOOD], INITIAL, ls); s.tables == Tables([], map[]) && s.committed == 0
  {
    assert [first, GOOD][..0] == [];
    assert IsStuck([first, GOOD], 0);
    NobodyPasses([first, GOOD], ls, 0);
  }

  predicate NoSlotTwice(rows: seq<Envelope>) {
    forall i, j | 0 <= i < j < |rows| :: !SameSlot(rows[i], rows[j])
  }

  lemma {:induction false} FindSlotMeans(rows: seq<Envelope>, e: Envelope)
    ensures FindSlot(rows, e).None? <==> forall i | 0 <= i < |rows| :: !SameSlot(rows[i], e)
    ensures FindSlot(rows, e).Some? ==> FindSlot(rows, e).value in rows && SameSlot(FindSlot(rows, e).value, e)
  {
    if rows != [] { FindSlotMeans(rows[1..], e); }
  }

  // ---------------------------------------------------- what the verdicts mean

  predicate Occupied(rows: seq<Envelope>, runId: string, number: int, id: string) {
    exists row :: row in rows && row.runId == runId && row.seqNo == number && row.eventId == id
  }

  /**
   Every verdict, by the rows alone. A number that is taken is a conflict exactly
   if another event has it, and a redelivery exactly if this one has; an id that is
   taken elsewhere is a permanent error; and nothing but an insertion changes anything.
   */
  lemma VerdictsMean(t: Tables, e: Envelope)
    requires NoSlotTwice(t.rows) && FitsInt(e.seqNo)
    ensures var r := ApplyEvent(t, e).1;
            && (r == Conflict <==> exists id :: id != e.eventId && Occupied(t.rows, e.runId, e.seqNo, id))
            && (r == Redelivered <==> Occupied(t.rows, e.runId, e.seqNo, e.eventId))
            && (r == Permanent <==> (forall row | row in t.rows :: row.runId != e.runId || row.seqNo != e.seqNo)
                                    && exists row :: row in t.rows && row.eventId == e.eventId)
            && (r != Inserted ==> ApplyEvent(t, e).0 == t)
            && (r == Inserted ==> ApplyEvent(t, e).0.rows == t.rows + [e])
  {
    FindSlotMeans(t.rows, e);
    var found := FindSlot(t.rows, e);
    if found.Some? {
      assert Occupied(t.rows, e.runId, e.seqNo, found.value.eventId);
      forall id | Occupied(t.rows, e.runId, e.seqNo, id) ensures id == found.value.eventId {
        var row :| row in t.rows && row.runId == e.runId && row.seqNo == e.seqNo && row.eventId == id;
        SlotIsOne(t.rows, row, found.value);
      }
    } else {
      assert forall row | row in t.rows :: !SameSlot(row, e);
    }
  }

  lemma SlotIsOne(rows: seq<Envelope>, a: Envelope, b: Envelope)
    requires NoSlotTwice(rows) && a in rows && b in rows && SameSlot(a, b)
    ensures a == b
  {
    var i :| 0 <= i < |rows| && rows[i] == a;
    var j :| 0 <= j < |rows| && rows[j] == b;
  }

  /** Two messages with the same run and number are the same event, and an event has one run and number. */
  predicate Consistent(a: Envelope, b: Envelope) {
    a.runId == b.runId && a.seqNo == b.seqNo <==> a.eventId == b.eventId
  }

  /** The distinct events of a clean log stand for all of it. */
  lemma {:induction false} DistinctStands(log: seq<Envelope>)
    requires Clean(log)
    ensures forall x | x in log :: Occupied(Distinct(log), x.runId, x.seqNo, x.eventId)
    ensures forall x | x in Distinct(log) :: x in log
    decreases |log|
  {
    if log != [] {
      var init, e := log[..|log| - 1], log[|log| - 1];
      DistinctStands(init);
      RowsAreDistinct(init);
      RowsAreDistinct(log);
      StandsNext(init, e, log);
    }
  }

  lemma StandsNext(init: seq<Envelope>, e: Envelope, log: seq<Envelope>)
    requires log == init + [e] && NoSlotTwice(Distinct(init)) && Project(init).rows == Distinct(init)
    requires ApplyEvent(Project(init), e).1 in {Inserted, Redelivered} && FitsInt(e.seqNo)
    requires Distinct(log) == ApplyEvent(Project(init), e).0.rows
    requires forall x | x in init :: Occupied(Distinct(init), x.runId, x.seqNo, x.eventId)
    requires forall x | x in Distinct(init) :: x in init
    ensures forall x | x in log :: Occupied(Distinct(log), x.runId, x.seqNo, x.eventId)
    ensures forall x | x in Distinct(log) :: x in log
  {
    VerdictsMean(Project(init), e);
    forall x | x in log ensures Occupied(Distinct(log), x.runId, x.seqNo, x.eventId) {
      if x in init {
        var row :| row in Distinct(init) && row.runId == x.runId && row.seqNo == x.seqNo && row.eventId == x.eventId;
        assert row in Distinct(log);
      } else if ApplyEvent(Project(init), e).1 == Inserted {
        assert e in Distinct(log);
      }
    }
  }

  /** Everybody in the log agrees about what an event is, and its numbers fit. */
  ghost predicate AllAgree(log: seq<Envelope>) {
    && (forall x, y | x in log && y in log :: Consistent(x, y))
    && forall x | x in log :: FitsInt(x.seqNo)
  }

  /** In what was consumed nobody ever disagreed. */
  lemma {:induction false} CleanIsConsistent(log: seq<Envelope>)
    requires Clean(log)
    ensures AllAgree(log)
    decreases |log|
  {
    if log != [] {
      var init, e := log[..|log| - 1], log[|log| - 1];
      CleanIsConsistent(init);
      forall x | x in init ensures Consistent(x, e) && FitsInt(e.seqNo) {
        ConsumedAgrees(init, x, e);
      }
      assert forall x | x in log :: x in init || x == e;
    }
  }

  lemma ConsumedAgrees(init: seq<Envelope>, x: Envelope, e: Envelope)
    requires Clean(init) && AllAgree(init) && x in init && ApplyEvent(Project(init), e).1 in {Inserted, Redelivered}
    ensures Consistent(x, e)
  {
    RowsAreDistinct(init);
    DistinctStands(init);
    var rows := Distinct(init);
    var row :| row in rows && row.runId == x.runId && row.seqNo == x.seqNo && row.eventId == x.eventId;
    RowAgrees(Project(init), row, e);
  }

  lemma RowAgrees(t: Tables, row: Envelope, e: Envelope)
    requires NoSlotTwice(t.rows) && (forall a, b | a in t.rows && b in t.rows :: Consistent(a, b))
    requires row in t.rows && ApplyEvent(t, e).1 in {Inserted, Redelivered}
    ensures Consistent(row, e)
  {
    FindSlotMeans(t.rows, e);
    var found := FindSlot(t.rows, e);
    if found.Some? { assert Consistent(row, found.value); }
  }

  /** The first message of every number can be sent; what a redelivery's payload is does not matter. */
  ghost predicate FirstsSendable(log: seq<Envelope>) {
    forall i | 0 <= i < |log| && NewIn(log[..i], log[i]) :: Sendable(log[i].payload)
  }

  ghost predicate NewIn(log: seq<Envelope>, e: Envelope) {
    forall x | x in log :: x.runId != e.runId || x.seqNo != e.seqNo
  }

  /** Whether one more message is consumed, by the log alone. */
  lemma ConsumedIff(init: seq<Envelope>, e: Envelope)
    requires Clean(init) && AllAgree(init)
    ensures ApplyEvent(Project(init), e).1 in {Inserted, Redelivered} <==>
              FitsInt(e.seqNo) && (forall x | x in init :: Consistent(x, e)) && (NewIn(init, e) ==> Sendable(e.payload))
  {
    RowsAreDistinct(init);
    DistinctStands(init);
    var rows := Distinct(init);
    FindSlotMeans(rows, e);
    if ApplyEvent(Project(init), e).1 in {Inserted, Redelivered} {
      forall x | x in init ensures Consistent(x, e) { ConsumedAgrees(init, x, e); }
      if NewIn(init, e) { assert FindSlot(rows, e).None?; }
    } else if FindSlot(rows, e).None? && NewIn(rows, e) {
      forall x | x in init ensures x.runId != e.runId || x.seqNo != e.seqNo {
        assert Occupied(rows, x.runId, x.seqNo, x.eventId);
      }
    }
  }

  lemma FirstsSnoc(init: seq<Envelope>, e: Envelope)
    ensures FirstsSendable(init + [e]) <==> FirstsSendable(init) && (NewIn(init, e) ==> Sendable(e.payload))
  {
    var log := init + [e];
    assert log[..|init|] == init;
    assert forall i | 0 <= i < |init| :: log[..i] == init[..i] && log[i] == init[i];
    if FirstsSendable(log) {
      assert NewIn(init, e) ==> NewIn(log[..|init|], log[|init|]);
      forall i | 0 <= i < |init| && NewIn(init[..i], init[i]) ensures Sendable(init[i].payload) {
        assert NewIn(log[..i], log[i]);
      }
    }
  }

  /**
   Exactly these partitions are consumed to the end: every number fits its column,
   nobody disagrees about what an event is, and every event can be sent the first time.
   */
  lemma {:induction false} CleanIff(log: seq<Envelope>)
    ensures Clean(log) <==> AllAgree(log) && FirstsSendable(log)
    decreases |log|
  {
    if log != [] {
      var init, e := log[..|log| - 1], log[|log| - 1];
      assert log == init + [e];
      CleanIff(init);
      FirstsSnoc(init, e);
      AgreeSnoc(init, e);
      if Clean(init) { ConsumedIff(init, e); }
    }
  }

  lemma AgreeSnoc(init: seq<Envelope>, e: Envelope)
    ensures AllAgree(init + [e]) <==> AllAgree(init) && FitsInt(e.seqNo) && forall x | x in init :: Consistent(x, e)
  {
    var log := init + [e];
    assert forall x :: x in log <==> x in init || x == e;
  }

  lemma Disagree(log: seq<Envelope>, x: Envelope, y: Envelope)
    requires AllAgree(log) && !Consistent(x, y)
    ensures !(x in log && y in log)
  {
  }

  /** No instance ever passes a message that gives a number of its run to another event. */
  lemma ConflictStops(log: seq<Envelope>, ls: seq<Label>, i: nat, n: nat)
    requires i < n < |log| && log[i].runId == log[n].runId && log[i].seqNo == log[n].seqNo && log[i].eventId != log[n].eventId
    ensures var s := Run(log, INITIAL, ls);
            && s.committed <= n && (forall k | k in s.instances :: s.instances[k].next <= n)
            && exists high | 0 <= high <= n :: Reaches(log, s, high)
  {
    var high := ProjectedPrefix(log, INITIAL, ls, 0);
    if high > n {
      CleanIsConsistent(log[..high]);
      Disagree(log[..high], log[i], log[n]);
    }
  }

  /** The row of a run as the upserts of its events, in order, leave it. */
  function RowOf(evs: seq<Envelope>): Option<RunRow>
    decreases |evs|
  {
    if evs == [] then None else Some(Upsert(RowOf(evs[..|evs| - 1]), evs[|evs| - 1]))
  }

  function OfRun(evs: seq<Envelope>, runId: string): seq<Envelope>
    decreases |evs|
  {
    if evs == [] then []
    else
      var rest := OfRun(evs[..|evs| - 1], runId);
      if evs[|evs| - 1].runId == runId then rest + [evs[|evs| - 1]] else rest
  }

  lemma OfRunSnoc(evs: seq<Envelope>, e: Envelope, runId: string)
    ensures OfRun(evs + [e], runId) == OfRun(evs, runId) + if e.runId == runId then [e] else []
  {
    assert (evs + [e])[..|evs + [e]| - 1] == evs;
  }

  lemma RowSnoc(evs: seq<Envelope>, e: Envelope)
    ensures RowOf(evs + [e]) == Some(Upsert(RowOf(evs), e))
  {
    assert (evs + [e])[..|evs + [e]| - 1] == evs;
  }

  /** The rows are the distinct events, once each and in log order. */
  lemma {:induction false} RowsAreDistinct(log: seq<Envelope>)
    requires Clean(log)
    ensures Project(log).rows == Distinct(log) && NoSlotTwice(Distinct(log))
    decreases |log|
  {
    if log != [] {
      RowsAreDistinct(log[..|log| - 1]);
      FindSlotMeans(Distinct(log[..|log| - 1]), log[|log| - 1]);
    }
  }

  lemma AppliedRow(t: Tables, e: Envelope, runId: string)
    ensures ApplyEvent(t, e).1 == Inserted ==>
              Lookup(ApplyEvent(t, e).0.runs, runId) ==
              if e.runId == runId then Some(Upsert(Lookup(t.runs, runId), e)) else Lookup(t.runs, runId)
    ensures ApplyEvent(t, e).1 != Inserted ==> ApplyEvent(t, e).0 == t
  {
  }

  lemma RowWithOne(evs: seq<Envelope>, e: Envelope, runId: string)
    ensures RowOf(OfRun(evs + [e], runId)) ==
            if e.runId == runId then Some(Upsert(RowOf(OfRun(evs, runId)), e)) else RowOf(OfRun(evs, runId))
  {
    OfRunSnoc(evs, e, runId);
    if e.runId == runId { RowSnoc(OfRun(evs, runId), e); } else { assert OfRun(evs, runId) + [] == OfRun(evs, runId); }
  }

  lemma DistinctStep(log: seq<Envelope>)
    requires log != [] && Clean(log)
    ensures var init, e := log[..|log| - 1], log[|log| - 1];
            && Project(log) == ApplyEvent(Project(init), e).0
            && (if ApplyEvent(Project(init), e).1 == Inserted then Distinct(log) == Distinct(init) + [e]
                else Distinct(log) == Distinct(init) && ApplyEvent(Project(init), e).1 == Redelivered)
  {
    RowsAreDistinct(log[..|log| - 1]);
  }

  lemma RowStep(log: seq<Envelope>, runId: string)
    requires log != [] && Clean(log)
    requires Lookup(Project(log[..|log| - 1]).runs, runId) == RowOf(OfRun(Distinct(log[..|log| - 1]), runId))
    ensures Lookup(Project(log).runs, runId) == RowOf(OfRun(Distinct(log), runId))
  {
    DistinctStep(log);
    AppliedRow(Project(log[..|log| - 1]), log[|log| - 1], runId);
    RowWithOne(Distinct(log[..|log| - 1]), log[|log| - 1], runId);
  }

  /** A run's row is what the upserts of just its distinct events, in order, leave. */
  lemma {:induction false} RowIsUpserts(log: seq<Envelope>, runId: string)
    requires Clean(log)
    ensures Lookup(Project(log).runs, runId) == RowOf(OfRun(Distinct(log), runId))
    decreases |log|
  {
    if log != [] {
      RowIsUpserts(log[..|log| - 1], runId);
      RowStep(log, runId);
    }
  }

  lemma LatestUpsert(evs: seq<Envelope>)
    requires RowOf(evs).Some?
    ensures evs != [] && RowOf(evs).value.lastEventId == evs[|evs| - 1].eventId
    ensures RowOf(evs).value.status == StatusForEvent(evs[|evs| - 1].payload.Type())
  {
  }

  /** A run's row always names the last of its inserted events, so it never moves back to an earlier one. */
  lemma RowIsLatest(log: seq<Envelope>, runId: string)
    requires Clean(log) && runId in Project(log).runs
    ensures var evs := OfRun(Distinct(log), runId);
            && evs != [] && Project(log).runs[runId].lastEventId == evs[|evs| - 1].eventId
            && Project(log).runs[runId].status == StatusForEvent(evs[|evs| - 1].payload.Type())
  {
    RowIsUpserts(log, runId);
    LatestUpsert(OfRun(Distinct(log), runId));
  }

  /** The payload carries this step number; RunStarted and RunCompleted carry none. */
  predicate NamesStep(p: Payload, step: int) {
    || ((p.LLMResponded? || p.ToolInvoked? || p.AwaitingApproval? || p.RunApproved? || p.RunCancelled?) && p.step == step)
    || (p.ToolResulted? && p.result.step == step)
    || (p.RunFailed? && p.failure.step == step)
  }

  /** The step is the one the latest event that names one names, or 0. */
  ghost predicate LatestStep(evs: seq<Envelope>, step: int) {
    if exists i, n :: 0 <= i < |evs| && NamesStep(evs[i].payload, n) then
      exists i :: 0 <= i < |evs| && NamesStep(evs[i].payload, step)
                  && forall j, n | i < j < |evs| :: !NamesStep(evs[j].payload, n)
    else step == 0
  }

  /** What a row remembers of its run's first event, and what it takes from its latest. */
  ghost predicate Remembers(row: RunRow, evs: seq<Envelope>)
    requires evs != []
  {
    var first, last := evs[0], evs[|evs| - 1];
    && row.tenantId == first.tenantId && row.createdAt == first.occurredAt
    && row.workloadType == (if first.payload.RunStarted? then first.payload.workloadType else "")
    && row.updatedAt == last.occurredAt && row.lastEventId == last.eventId
    && LatestStep(evs, row.currentStep)
  }

  lemma StepNamed(p: Payload)
    ensures forall n :: NamesStep(p, n) <==> StepFromPayload(p) == Some(n)
  {
  }

  lemma LatestStepSnoc(evs: seq<Envelope>, e: Envelope, step: int)
    requires LatestStep(evs, step)
    ensures LatestStep(evs + [e], GetOr(StepFromPayload(e.payload), step))
  {
    var more := evs + [e];
    StepNamed(e.payload);
    assert more[|evs|] == e && forall i | 0 <= i < |evs| :: more[i] == evs[i];
    if StepFromPayload(e.payload).Some? {
      assert NamesStep(more[|evs|].payload, StepFromPayload(e.payload).value);
    } else if exists i, n :: 0 <= i < |evs| && NamesStep(evs[i].payload, n) {
      var i :| 0 <= i < |evs| && NamesStep(evs[i].payload, step) && forall j, n | i < j < |evs| :: !NamesStep(evs[j].payload, n);
      assert NamesStep(more[i].payload, step);
    }
  }

  lemma {:induction false} UpsertsRemember(evs: seq<Envelope>)
    requires evs != []
    ensures RowOf(evs).Some? && Remembers(RowOf(evs).value, evs)
    decreases |evs|
  {
    var init, e := evs[..|evs| - 1], evs[|evs| - 1];
    assert evs == init + [e];
    if init == [] {
      assert LatestStep([], 0);
      LatestStepSnoc([], e, 0);
      assert [] + [e] == evs;
    } else {
      UpsertsRemember(init);
      LatestStepSnoc(init, e, RowOf(init).value.currentStep);
    }
  }

  /** A run's row keeps what its first inserted event said, and follows the latest. */
  lemma RowRemembers(log: seq<Envelope>, runId: string)
    requires Clean(log) && runId in Project(log).runs
    ensures var evs := OfRun(Distinct(log), runId); evs != [] && Remembers(Project(log).runs[runId], evs)
  {
    RowIsLatest(log, runId);
    RowIsUpserts(log, runId);
    UpsertsRemember(OfRun(Distinct(log), runId));
  }

  lemma {:induction false} OfRunGrows(a: seq<Envelope>, b: seq<Envelope>, runId: string)
    requires a <= b
    ensures OfRun(a, runId) <= OfRun(b, runId)
    decreases |b|
  {
    if |a| < |b| {
      OfRunGrows(a, b[..|b| - 1], runId);
    } else {
      assert a == b;
    }
  }

  /** Consuming further only appends rows. */
  lemma {:induction false} RowsGrow(log: seq<Envelope>, a: nat, b: nat)
    requires a <= b <= |log|
    ensures Project(log[..a]).rows <= Project(log[..b]).rows
    decreases b
  {
    if a < b {
      RowsGrow(log, a, b - 1);
      assert log[..b][..|log[..b]| - 1] == log[..b - 1];
    }
  }

  /** The row shows the last of the events that the run has in the table. */
  ghost predicate ShowsLast(t: Tables, runId: string) {
    && runId in t.runs && OfRun(t.rows, runId) != []
    && var last := OfRun(t.rows, runId)[|OfRun(t.rows, runId)| - 1];
       t.runs[runId].lastEventId == last.eventId && t.runs[runId].status == StatusForEvent(last.payload.Type())
  }

  /** Between two prefixes of the partition, a run's row moves forward along its events. */
  lemma RowMovesForward(log: seq<Envelope>, a: nat, b: nat, runId: string)
    requires a <= b <= |log| && Clean(log[..a]) && Clean(log[..b]) && runId in Project(log[..a]).runs
    ensures ShowsLast(Project(log[..a]), runId) && ShowsLast(Project(log[..b]), runId)
    ensures OfRun(Project(log[..a]).rows, runId) <= OfRun(Project(log[..b]).rows, runId)
  {
    RowsGrow(log, a, b);
    OfRunGrows(Project(log[..a]).rows, Project(log[..b]).rows, runId);
    RowsAreDistinct(log[..a]);
    RowsAreDistinct(log[..b]);
    RowIsLatest(log[..a], runId);
    RowIsUpserts(log[..b], runId);
    RowIsLatest(log[..b], runId);
  }

  /** Over any run of any number of instances, a run's row never moves backwards. */
  lemma RowNeverGoesBack(log: seq<Envelope>, ls: seq<Label>, more: seq<Label>, runId: string)
    requires runId in Run(log, INITIAL, ls).tables.runs
    ensures var t, u := Run(log, INITIAL, ls).tables, Run(log, INITIAL, ls + more).tables;
            ShowsLast(t, runId) && ShowsLast(u, runId) && OfRun(t.rows, runId) <= OfRun(u.rows, runId)
  {
    var a := ProjectedPrefix(log, INITIAL, ls, 0);
    var b := ProjectedPrefix(log, Run(log, INITIAL, ls), more, a);
    RunFrom(log, INITIAL, ls, more);
    RowMovesForward(log, a, b, runId);
  }
}
