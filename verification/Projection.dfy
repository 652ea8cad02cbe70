/** The Postgres projection of run-events (internal/store): two tables written in one transaction per event. */
module Projection {
  import opened Wrappers
  import opened Events
  import opened Replay

  datatype RunRow = RunRow(
    tenantId: string, workloadType: string, status: RunStatus, currentStep: int,
    createdAt: int, updatedAt: int, lastEventId: string)

  /** `rows` is the events table in insertion order. */
  datatype Tables = Tables(rows: seq<Envelope>, runs: map<string, RunRow>)

  function StatusForEvent(t: EventType): RunStatus {
    match t
    case AwaitingApprovalEvent => WaitingApproval
    case RunCompletedEvent => Completed
    case RunFailedEvent => Failed
    case RunCancelledEvent => Cancelled
    case _ => Running
  }

  function StepFromPayload(p: Payload): Option<int> {
    match p
    case LLMResponded(step, _, _, _) => Some(step)
    case ToolInvoked(step, _, _, _, _, _) => Some(step)
    case ToolResulted(r) => Some(r.step)
    case AwaitingApproval(step) => Some(step)
    case RunApproved(step) => Some(step)
    case RunFailed(f) => Some(f.step)
    case RunCancelled(step) => Some(step)
    case _ => None
  }

  function GetOr(o: Option<int>, default: int): int {
    if o.Some? then o.value else default
  }

  /** INSERT ... ON CONFLICT (run_id) DO UPDATE. */
  function Upsert(row: Option<RunRow>, e: Envelope): RunRow {
    var status, step := StatusForEvent(e.payload.Type()), StepFromPayload(e.payload);
    match row
    case None =>
      RunRow(e.tenantId, if e.payload.RunStarted? then e.payload.workloadType else "", status,
             GetOr(step, 0), e.occurredAt, e.occurredAt, e.eventId)
    case Some(r) =>
      r.(status := status, currentStep := GetOr(step, r.currentStep), updatedAt := e.occurredAt, lastEventId := e.eventId)
  }

  function Lookup(runs: map<string, RunRow>, runId: string): Option<RunRow> {
    if runId in runs then Some(runs[runId]) else None
  }

  predicate SameSlot(a: Envelope, b: Envelope) {
    a.runId == b.runId && a.seqNo == b.seqNo
  }

  function FindSlot(rows: seq<Envelope>, e: Envelope): Option<Envelope> {
    if rows == [] then None
    else if SameSlot(rows[0], e) then Some(rows[0])
    else FindSlot(rows[1..], e)
  }

  /** What the retry loop sees: done, a poison message, or a reason to try again. */
  datatype ApplyResult = Inserted | Redelivered | Conflict | Permanent | Transient

  /** The range of an INT column. */
  predicate FitsInt(n: int) {
    -0x8000_0000 <= n < 0x8000_0000
  }

  /** The payload decodes, and the runs upsert can be sent with its step. */
  predicate Sendable(p: Payload) {
    !p.Malformed? && (StepFromPayload(p).Some? ==> FitsInt(StepFromPayload(p).value))
  }

  /**
   One transaction that meets no database fault. A number outside its INT column
   is refused by the driver before its statement is sent, and a payload that does
   not decode before the runs upsert is; neither error is Postgres's own, so the
   classifier takes it for a transient one, and the transaction is rolled back. An
   event_id already used in another slot breaks a unique constraint.
   */
  function ApplyEvent(t: Tables, e: Envelope): (Tables, ApplyResult) {
    if !FitsInt(e.seqNo) then (t, Transient)
    else match FindSlot(t.rows, e)
      case Some(row) => (t, if row.eventId == e.eventId then Redelivered else Conflict)
      case None =>
        if exists row | row in t.rows :: row.eventId == e.eventId then (t, Permanent)
        else if !Sendable(e.payload) then (t, Transient)
        else (Tables(t.rows + [e], t.runs[e.runId := Upsert(Lookup(t.runs, e.runId), e)]), Inserted)
  }

  /** A sequence number that does not fit, or a new event whose runs upsert cannot be sent. */
  predicate NeverSent(t: Tables, e: Envelope) {
    || !FitsInt(e.seqNo)
    || (FindSlot(t.rows, e).None? && (forall row | row in t.rows :: row.eventId != e.eventId) && !Sendable(e.payload))
  }

  /** Without any fault, a message is tried again exactly when it cannot be sent; and then again for ever, since nothing changed. */
  lemma RetriedIff(t: Tables, e: Envelope)
    ensures ApplyEvent(t, e).1 == Transient <==> NeverSent(t, e)
    ensures NeverSent(t, e) ==> ApplyEvent(t, e) == (t, Transient)
  {
  }

  /** The store with its faults: any statement, or the commit's reply, can be lost. */
  class Database {
    var rows: seq<Envelope>
    var runs: map<string, RunRow>
    /** How many transactions met a database fault. */
    ghost var faults: nat

    function Contents(): Tables
      reads this
    {
      Tables(rows, runs)
    }

    constructor ()
      ensures Contents() == Tables([], map[]) && faults == 0
    {
      rows, runs, faults := [], map[], 0;
    }

    /** A fault before the commit leaves nothing; a lost commit reply leaves everything and still reports an error. */
    method Apply(e: Envelope) returns (r: ApplyResult)
      modifies this
      ensures r != Transient ==> (Contents(), r) == ApplyEvent(old(Contents()), e)
      ensures r == Transient ==> Contents() == old(Contents()) || Contents() == ApplyEvent(old(Contents()), e).0
      ensures faults >= old(faults)
      ensures r == Transient ==> faults > old(faults) || NeverSent(old(Contents()), e)
      ensures NeverSent(old(Contents()), e) ==> r == Transient && Contents() == old(Contents())
    {
      var fault: nat := *;
      if fault == 0 {
        faults := faults + 1;
        return Transient;
      }
      if !FitsInt(e.seqNo) {
        return Transient;
      }
      var slot := FindSlot(rows, e);
      if slot.Some? {
        if slot.value.eventId != e.eventId {
          return Conflict;
        }
        faults := faults + if fault == 1 then 1 else 0;
        r := if fault == 1 then Transient else Redelivered;
        return;
      }
      if exists row | row in rows :: row.eventId == e.eventId {
        return Permanent;
      }
      faults := faults + if fault == 1 || fault == 2 then 1 else 0;
      if !Sendable(e.payload) || fault == 1 {
        return Transient;
      }
      rows := rows + [e];
      runs := runs[e.runId := Upsert(Lookup(runs, e.runId), e)];
      r := if fault == 2 then Transient else Inserted;
    }

    /**
     Retries transient failures until the process is told to stop, which it is
     after `until` attempts. It is still retrying then exactly if the message
     cannot be sent, or if every single attempt met a fault.
     */
    method ApplyWithRetry(e: Envelope, until: nat) returns (r: ApplyResult)
      modifies this
      ensures r in {Inserted, Redelivered} ==>
                Contents() == ApplyEvent(old(Contents()), e).0 && ApplyEvent(old(Contents()), e).1 in {Inserted, Redelivered}
      ensures r in {Conflict, Permanent} ==> Contents() == old(Contents()) && r == ApplyEvent(old(Contents()), e).1
      ensures r == Transient ==> Contents() == old(Contents()) || Contents() == ApplyEvent(old(Contents()), e).0
      ensures faults >= old(faults)
      ensures NeverSent(old(Contents()), e) ==> r == Transient && Contents() == old(Contents())
      ensures r == Transient ==> NeverSent(old(Contents()), e) || faults >= old(faults) + until
    {
      var attempt := 0;
      while attempt < until
        invariant Contents() == old(Contents()) || (Contents() == ApplyEvent(old(Contents()), e).0 && ApplyEvent(old(Contents()), e).1 == Inserted)
        invariant faults >= old(faults)
        invariant NeverSent(old(Contents()), e) || faults >= old(faults) + attempt
      {
        ReapplyIsNoop(old(Contents()), e);
        RetriedIff(Contents(), e);
        RetriedIff(old(Contents()), e);
        r := Apply(e);
        if r != Transient {
          return;
        }
        attempt := attempt + 1;
      }
      r := Transient;
    }
  }

  lemma {:induction false} FindSnoc(rows: seq<Envelope>, e: Envelope, x: Envelope)
    ensures FindSlot(rows + [x], e) == if FindSlot(rows, e).Some? then FindSlot(rows, e) else if SameSlot(x, e) then Some(x) else None
  {
    if rows != [] {
      assert (rows + [x])[1..] == rows[1..] + [x];
      FindSnoc(rows[1..], e, x);
    }
  }

  /** Delivering an applied event again changes nothing. */
  lemma ReapplyIsNoop(t: Tables, e: Envelope)
    ensures ApplyEvent(t, e).1 == Inserted ==> ApplyEvent(ApplyEvent(t, e).0, e) == (ApplyEvent(t, e).0, Redelivered)
    ensures ApplyEvent(t, e).1 != Inserted ==> ApplyEvent(t, e).0 == t
  {
    FindSnoc(t.rows, e, e);
  }
}
