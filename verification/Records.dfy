/**
 The value stored under an idempotency key and the two atomic operations on it
 (internal/idempotency/record.go, store.go). Times are microseconds.
 */
module Records {
  import opened Wrappers
  import opened Events

  const SECOND: int := 1_000_000

  datatype RecState = ClaimedState | ResolvedState | OtherState

  /** What `verify` compares: which invocation a record speaks for. */
  datatype Ident = Ident(runId: string, toolUseId: string, toolName: string, argsHash: string)

  /** Claim tokens are numbered in the order they were drawn. */
  datatype Rec = Rec(
    state: RecState, ident: Ident, step: int, token: nat, claimedBy: nat, claimedAt: int,
    resolvedAt: Option<int>, result: Option<string>, status: Option<ToolStatus>, resolution: Option<Resolution>)

  datatype Value = Good(rec: Rec) | Corrupt

  datatype Cell = Cell(value: Value, expiresAt: int)

  datatype ClaimReply = Acquired | Existing(rec: Rec) | CorruptExisting

  /** SET key rec NX GET EX ttl. */
  function ClaimCell(cell: Option<Cell>, rec: Rec, now: int, ttl: nat): (Option<Cell>, ClaimReply) {
    match cell
    case None => (Some(Cell(Good(rec), now + ttl)), Acquired)
    case Some(Cell(Good(held), _)) => (cell, Existing(held))
    case Some(Cell(Corrupt, _)) => (cell, CorruptExisting)
  }

  predicate ClaimedUnder(cell: Option<Cell>, token: nat) {
    cell.Some? && cell.value.value.Good? && cell.value.value.rec.state == ClaimedState && cell.value.value.rec.token == token
  }

  /** The compare-and-set script keeps whole seconds of the TTL only. */
  function WholeSeconds(ttl: nat): nat {
    ttl / SECOND * SECOND
  }

  function CasCell(cell: Option<Cell>, token: nat, rec: Rec, now: int, ttl: nat): (Option<Cell>, bool) {
    if ClaimedUnder(cell, token) then (Some(Cell(Good(rec), now + WholeSeconds(ttl))), true)
    else (cell, false)
  }

  /** What asking the outside world for a key answers, given the effects under it. */
  function FirstOf(effects: seq<string>): Option<string> {
    if effects == [] then None else Some(effects[0])
  }
}
