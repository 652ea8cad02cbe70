/**
 Guard.Run as the code writes it (internal/idempotency/guard.go, retry.go).
 Every method is tied to the fence's transition system: whatever path it takes
 is a schedule on which its own worker keeps every allowance.
 */
module Guard {
  import opened Wrappers
  import opened Events
  import opened Records
  import opened Fence
  import opened FenceReturn
  import opened FenceSafety
  import opened FenceHonest
  import opened Store
  import opened World

  const RETRY_ATTEMPTS: nat := 5
  const INITIAL_BACKOFF: nat := 200_000
  const MAX_BACKOFF: nat := 2_000_000
  const POLL_INTERVAL: nat := 1_000_000
  const MAX_CLAIM_RACES: nat := 3

  datatype GuardError =
    | MissingKey | UnhashableArgs | FenceUnavailable | Unresolvable | RecordMismatch | OutcomeUnknown
    | Killed      // an injected crash
    | Restart     // internal: decide again, from Claim

  /** Time spent at most before retry's attempt number `n` begins. */
  function SpentBefore(n: nat): nat
    requires 1 <= n <= RETRY_ATTEMPTS
  {
    [0, 700_000, 1_600_000, 2_900_000, 5_000_000][n - 1]
  }

  /** The sleeps before attempt number `n`: 200ms first, and then twice as long each time. */
  function SleptBefore(n: nat): nat
    requires 1 <= n <= 5
  {
    [0, 200_000, 600_000, 1_400_000, 3_000_000][n - 1]
  }

  function BackoffBefore(n: nat): nat
    requires 1 <= n <= RETRY_ATTEMPTS
  {
    [INITIAL_BACKOFF, 400_000, 800_000, 1_600_000, MAX_BACKOFF][n - 1]
  }

  function CallsFor(r: Result<Outcome, GuardError>): set<nat> {
    match r
    case Ok(out) => if out.resolution == Executed || out.resolution == Reexecuted then {1} else {0}
    case Err(OutcomeUnknown) => {1}
    case Err(Killed) => {0, 1}
    case Err(_) => {0}
  }

  // ---------------------------------------- the decision table, undisturbed

  /** The key carries this claim of ours. */
  predicate Held(c: Config, cell: Option<Cell>, rec: Rec) {
    HonestClaim(c, rec) && ValueOf(cell) == Some(Good(rec))
  }

  /** The key carries this outcome, for the next caller to find. */
  predicate Remembers(c: Config, cell: Option<Cell>, out: Outcome) {
    match ValueOf(cell)
    case Some(Good(rec)) =>
      IsOurs(c, rec) && rec.state == ResolvedState && rec.result == Some(out.result) && rec.status == Some(out.status)
    case _ => false
  }

  /**
   What a tool's answer means: a result is definite even at the deadline; an error
   is, unless it came late; and the tool itself may say that it does not know.
   */
  function Verdict(how: Resolution, answer: ToolAnswer): Result<Outcome, GuardError> {
    match answer.result
    case Done(result) => Ok(Outcome(result, Success, how))
    case Refused(message) => if answer.late then Err(OutcomeUnknown) else Ok(Outcome("error: " + message, Error, how))
    case Unknown => Err(OutcomeUnknown)
  }

  /** The answer is passed on exactly if it is a definite one. */
  predicate Means(how: Resolution, answer: ToolAnswer, r: Result<ExecResult, GuardError>) {
    if r.Ok? then r.value == answer.result && Verdict(how, answer).Ok? else Verdict(how, answer) == Err(r.error)
  }

  /** The tool was called, and what its answer means returned, unless the process died. */
  predicate Acted(how: Resolution, answer: Option<ToolAnswer>, r: Result<Outcome, GuardError>) {
    r != Err(Killed) ==> answer.Some? && r == Verdict(how, answer.value)
  }

  /** An effect that was found is reported, one that was not is made. */
  predicate Reconciles(found: Option<string>, answer: Option<ToolAnswer>, r: Result<Outcome, GuardError>) {
    match found
    case Some(text) => r in {Ok(Outcome(text, Success, Reconciled)), Err(Killed)}
    case None => Acted(Reexecuted, answer, r)
  }

  predicate AsksFirst(c: Config, ledger: seq<string>, answer: Option<ToolAnswer>, r: Result<Outcome, GuardError>) {
    if c.reconcilable then Reconciles(FirstOf(ledger), answer, r) else r == Err(Unresolvable)
  }

  predicate Expired(c: Config, me: nat, at: int) {
    Clock(c, me, at) - c.invokedAt >= c.ttl - EXPIRY_MARGIN
  }

  /** The verdict on a key that was absent, reached between `from` and `to`. */
  predicate DecidesAbsent(c: Config, me: nat, ledger: seq<string>, answer: Option<ToolAnswer>, r: Result<Outcome, GuardError>, from: int, to: int) {
    && (Acted(Executed, answer, r) || AsksFirst(c, ledger, answer, r))
    && (!Expired(c, me, to) ==> Acted(Executed, answer, r))
    && (Expired(c, me, from) ==> AsksFirst(c, ledger, answer, r))
  }

  /** The record speaks for this very invocation: run, call, tool and arguments. */
  predicate IsOurs(c: Config, rec: Rec) {
    && rec.ident.runId == c.ident.runId && rec.ident.toolUseId == c.ident.toolUseId
    && rec.ident.toolName == c.ident.toolName && rec.ident.argsHash == c.ident.argsHash
    && (rec.state == ClaimedState || rec.state == ResolvedState)
  }

  /** The verdict on a key that held another's record. */
  predicate DecidesHeld(c: Config, rec: Rec, ledger: seq<string>, answer: Option<ToolAnswer>, r: Result<Outcome, GuardError>) {
    if !IsOurs(c, rec) then r == Err(RecordMismatch)
    else if rec.state == ResolvedState then
      if rec.result.None? || rec.status.None? then r == Err(RecordMismatch)
      else r == Ok(Outcome(rec.result.value, rec.status.value, Cached))
    else AsksFirst(c, ledger, answer, r)
  }

  /** The whole table: what a call answers, given what it finds. */
  predicate Decides(c: Config, me: nat, found: Option<Value>, ledger: seq<string>, answer: Option<ToolAnswer>,
                    r: Result<Outcome, GuardError>, from: int, to: int)
  {
    match found
    case None => DecidesAbsent(c, me, ledger, answer, r, from, to)
    case Some(Corrupt) => r == Err(RecordMismatch)
    case Some(Good(rec)) => DecidesHeld(c, rec, ledger, answer, r)
  }

  class Guard {
    const world: World

    constructor (world: World)
      ensures this.world == world
    {
      this.world := world;
    }

    /** How a call ends: with an outcome reached in its last step, or with the worker gone from the key. */
    ghost predicate Ended(r: Result<Outcome, GuardError>)
      reads world
    {
      match r
      case Ok(out) => world.Phase() == Some(Returned(out)) && !HasReturned(world.before, world.me)
      case Err(e) =>
        && world.Phase() == None
        && (e == Unresolvable ==> !world.c.reconcilable)
        && (e == RecordMismatch ==> Misled())
        && (e == OutcomeUnknown ==>
              var p := PhaseOf(world.before, world.me);
              p.Some? && p.value.Executing? && world.trace != [] && world.trace[|world.trace| - 1] == Crash(world.me))
    }

    /** The last step met a record that is not this invocation's. */
    ghost predicate Misled()
      reads world
    {
      world.before.cell.Some? && Misleads(world.c, world.before.cell.value.value)
    }

    /** The verdict the table calls for, and an outcome left for the next caller. */
    twostate predicate Decided(new r: Result<Outcome, GuardError>)
      reads world
    {
      && Decides(world.c, world.me, ValueOf(old(world.sys.cell)), old(world.sys.ledger), world.answer, r,
                 old(world.sys.now), world.sys.now)
      && (r.Ok? ==> Remembers(world.c, world.sys.cell, r.value))
    }

    /** What every way through the decision table does: in particular, if the tool was called, what its answer means is returned. */
    twostate predicate Did(new r: Result<Outcome, GuardError>)
      reads world, world.store
    {
      && world.Valid() && world.Advances() && Ended(r) && world.calls - old(world.calls) in CallsFor(r)
      && (world.calls > old(world.calls) ==> Acted(if r.Ok? then r.value.resolution else Executed, world.answer, r))
    }

    /** The fence is reported unavailable only if something failed, and nothing but a new attempt draws a first claim. */
    twostate predicate Blames(new r: Result<Outcome, GuardError>)
      reads world
    {
      (r == Err(FenceUnavailable) ==> world.faults > old(world.faults)) && world.draws == old(world.draws)
    }

    // ----------------------------------------------------------------- retry

    /** At most five attempts, 500ms each, with a doubling backoff: never longer than the retry budget. */
    method Retry(op: Op) returns (r: Result<Reply, StoreError>)
      requires world.Valid() && world.Phase().Some? && OpOf(world.c, world.me, world.Phase().value) == Some(op)
      requires world.Room(RETRY_BUDGET)
      modifies world`sys, world`trace, world`before, world`budget, world`faults, world`tries, world`slept, world`cancels, world.store
      ensures world.Valid() && world.Advances() && world.sys.now <= old(world.sys.now) + RETRY_BUDGET
      ensures Fits(op, r)
      ensures r == Err(Unavailable) ==> world.Phase() == old(world.Phase())
      ensures r != Err(Unavailable) ==> world.Replied(old(world.Phase().value), op, r)
      ensures op.GetOp? && world.budget == old(world.budget) ==> world.sys.cell == old(world.sys.cell)
      ensures r == Err(Unavailable) ==> world.faults > old(world.faults)
      ensures var n := world.tries - old(world.tries);
              && 1 <= n <= 5 && (r == Err(Unavailable) && world.cancels == old(world.cancels) ==> n == 5)
              && (world.cancels == old(world.cancels) ==> world.slept == old(world.slept) + SleptBefore(n))
      ensures world.Quiet() ==>
                && world.sys.ledger == old(world.sys.ledger)
                && (ValueOf(world.sys.cell), r) == Served(op, old(world.sys.cell), old(world.sys.ledger))
    {
      var backoff := INITIAL_BACKOFF;
      var attempt := 1;
      while attempt <= RETRY_ATTEMPTS
        invariant 1 <= attempt <= RETRY_ATTEMPTS && backoff == BackoffBefore(attempt)
        invariant world.Valid() && world.Advances() && world.Phase() == old(world.Phase())
        invariant world.sys.now <= old(world.sys.now) + SpentBefore(attempt)
        invariant op.GetOp? && world.budget == old(world.budget) ==> world.sys.cell == old(world.sys.cell)
        invariant world.tries == old(world.tries) + attempt - 1 && world.cancels == old(world.cancels)
        invariant world.slept == old(world.slept) + SleptBefore(attempt)
        invariant if attempt == 1 then world.sys == old(world.sys) && world.Quiet() else world.faults > old(world.faults)
        decreases RETRY_ATTEMPTS - attempt
      {
        r := world.Attempt(op);
        if r.Ok? || r.error == ClaimLost || r.error == CorruptRecord {
          return;
        }
        if attempt == RETRY_ATTEMPTS {
          break;
        }
        var cancelled;
        cancelled, backoff := BackOff(attempt, backoff);
        if cancelled {
          break;
        }
        attempt := attempt + 1;
      }
      r := Err(Unavailable);
    }

    /** The pause after a failed attempt, and how long the next one is to be. */
    method BackOff(ghost attempt: nat, backoff: nat) returns (cancelled: bool, next: nat)
      requires world.Valid() && 1 <= attempt < RETRY_ATTEMPTS && backoff == BackoffBefore(attempt) && world.Room(backoff)
      modifies world`sys, world`trace, world`before, world`budget, world`faults, world`slept, world`cancels, world.store
      ensures world.Valid() && world.Advances() && world.Phase() == old(world.Phase())
      ensures world.sys.now <= old(world.sys.now) + backoff && next == BackoffBefore(attempt + 1)
      ensures cancelled <==> world.cancels > old(world.cancels)
      ensures !cancelled ==> world.slept == old(world.slept) + SleptBefore(attempt + 1) - SleptBefore(attempt)
      ensures world.budget == old(world.budget) ==> world.Still()
    {
      next := backoff * 2;
      if next > MAX_BACKOFF {
        next := MAX_BACKOFF;
      }
      cancelled := world.Cancelled();
      if !cancelled {
        cancelled := world.Sleep(backoff);
      }
    }

    // ----------------------------------------------------- acting on the key

    /** The process may be killed here. */
    method CrashHook() returns (killed: bool)
      requires world.Valid()
      modifies world`sys, world`trace, world`before
      ensures world.Valid() && world.Advances() && world.Still()
      ensures killed ==> world.Phase() == None
      ensures !killed ==> world.sys == old(world.sys) && world.before == old(world.before)
    {
      killed := *;
      if killed { world.Die(); }
    }

    /** Records the outcome under our claim; a failure to do so does not stop the caller journaling it. */
    method Resolve(held: Rec, out: Outcome) returns (r: Result<Outcome, GuardError>)
      requires world.Valid() && world.Phase() == Some(Settling(held, out, world.sys.now))
      modifies world`sys, world`trace, world`before, world`budget, world`faults, world`tries, world`slept, world`cancels, world.store
      ensures world.Valid() && world.Advances() && Ended(r) && r in {Ok(out), Err(Killed)}
      ensures world.Quiet() && Held(world.c, old(world.sys.cell), held) ==> Remembers(world.c, world.sys.cell, out)
    {
      var now := Clock(world.c, world.me, world.sys.now);
      var resolved := held.(state := ResolvedState, resolvedAt := Some(now),
        result := Some(out.result), status := Some(out.status), resolution := Some(out.resolution));
      world.Dawdle();
      var reply := Retry(ResolveOp(held.token, resolved));
      if reply == Err(Unavailable) {
        world.StopSettling();
      }
      var killed := CrashHook();
      r := if killed then Err(Killed) else Ok(out);
    }

    /** Calls the tool; only a clean result, or an error before the deadline, is a definite answer. */
    method CallTool(held: Rec, how: Resolution) returns (r: Result<ExecResult, GuardError>)
      requires world.Valid() && world.Phase() == Some(Executing(held, how, world.sys.now, None))
      modifies world, world.store
      ensures world.Valid() && world.Advances()
      ensures r.Ok? ==>
                && !r.value.Unknown? && world.calls == old(world.calls) + 1
                && world.Phase().Some? && world.Phase().value.Executing?
                && world.Phase().value.mine == held && world.Phase().value.how == how
                && ExecuteMeans(None, world.Phase().value.effect, r.value)
      ensures r.Err? ==> r.error in {OutcomeUnknown, Killed} && Ended(Err(r.error))
      ensures world.draws == old(world.draws)
      ensures r.Err? ==> world.calls - old(world.calls) in CallsFor(Err(r.error))
      ensures r != Err(Killed) ==> world.answer.Some? && Means(how, world.answer.value, r)
      ensures world.Quiet() ==> world.sys.cell == old(world.sys.cell)
    {
      world.Dawdle();
      var killed := CrashHook();
      if killed {
        return Err(Killed);
      }
      var result, timedOut := world.Execute();
      if result.Unknown? || (result.Refused? && timedOut) {
        world.Die();
        return Err(OutcomeUnknown);
      }
      r := Ok(result);
    }

    method Execute(held: Rec, how: Resolution) returns (r: Result<Outcome, GuardError>)
      requires world.Valid() && world.Phase() == Some(Executing(held, how, world.sys.now, None))
      requires how == Executed || how == Reexecuted
      modifies world, world.store
      ensures Did(r) && Acted(how, world.answer, r) && Blames(r)
      ensures world.Quiet() && Held(world.c, old(world.sys.cell), held) && r.Ok? ==> Remembers(world.c, world.sys.cell, r.value)
    {
      var result := CallTool(held, how);
      if result.Err? {
        return Err(result.error);
      }
      var killed := CrashHook();
      if killed {
        return Err(Killed);
      }
      r := Finish(held, how, result.value);
    }

    /** A definite answer becomes the outcome, which is recorded. */
    method Finish(held: Rec, how: Resolution, result: ExecResult) returns (r: Result<Outcome, GuardError>)
      requires world.Valid() && world.Phase().Some? && world.Phase().value.Executing? && !result.Unknown?
      requires var p := world.Phase().value; p.mine == held && p.how == how && ExecuteMeans(None, p.effect, result)
      modifies world`sys, world`trace, world`before, world`budget, world`faults, world`tries, world`slept, world`cancels, world.store
      ensures world.Valid() && world.Advances() && Ended(r) && r in {Verdict(how, ToolAnswer(result, false)), Err(Killed)}
      ensures world.Quiet() && Held(world.c, old(world.sys.cell), held) && r.Ok? ==> Remembers(world.c, world.sys.cell, r.value)
    {
      var out := world.Conclude(result);
      r := Resolve(held, out);
    }

    // -------------------------------------------------------- the decisions

    /** What a failed store or reconcile call makes of the run; the worker leaves the key. */
    method StoreErr(e: StoreError) returns (r: Result<Outcome, GuardError>)
      requires world.Valid() && e != ClaimLost && (e == CorruptRecord ==> world.Phase() == None && world.Saw(Corrupt))
      modifies world`sys, world`trace, world`before
      ensures Did(r) && r == Err(if e == CorruptRecord then RecordMismatch else FenceUnavailable)
    {
      if e == Unavailable {
        world.Die();
      }
      r := Err(if e == CorruptRecord then RecordMismatch else FenceUnavailable);
    }

    /** Was the takeover ours after all, and only its reply lost? */
    method RecheckOwnTakeOver(mine: Rec, ghost found: Option<string>) returns (r: Result<Rec, GuardError>)
      requires world.Valid() && world.Phase() == Some(Rechecking(found, mine, world.sys.now))
      modifies world`sys, world`trace, world`before, world`budget, world`faults, world`tries, world`slept, world`cancels, world.store
      ensures world.Valid() && world.Advances()
      ensures r.Ok? ==> r.value == mine && world.Phase() == Some(Settled(mine, found, world.sys.now))
      ensures r.Err? ==> world.Phase() == None && r.error in {FenceUnavailable, RecordMismatch, Restart}
      ensures r == Err(FenceUnavailable) ==> world.faults > old(world.faults)
      ensures r == Err(RecordMismatch) ==> Misled()
    {
      world.Dawdle();
      var reply := Retry(GetOp);
      if reply.Err? {
        var failed := StoreErr(reply.error);
        return Err(failed.error);
      }
      var cur := reply.value.rec;
      if cur.Some? && cur.value.state == ClaimedState && cur.value.token == mine.token {
        return Ok(mine);
      }
      r := Err(Restart);
    }

    /** Swaps a stale claim for one with a fresh token. */
    method TakeOver(stale: Rec, ghost found: Option<string>) returns (r: Result<Rec, GuardError>)
      requires world.Valid() && world.Phase() == Some(Answered(stale, found))
      modifies world`sys, world`trace, world`before, world`budget, world`faults, world`tries, world`slept, world`cancels, world.store
      ensures world.Valid() && world.Advances()
      ensures r.Ok? ==> world.Phase() == Some(Settled(r.value, found, world.sys.now))
      ensures world.Quiet() && ClaimedUnder(old(world.sys.cell), stale.token) ==>
                r.Ok? && Held(world.c, world.sys.cell, r.value)
      ensures r.Err? ==> world.Phase() == None && r.error in {FenceUnavailable, RecordMismatch, Restart}
      ensures r == Err(FenceUnavailable) ==> world.faults > old(world.faults)
      ensures r == Err(RecordMismatch) ==> Misled()
    {
      var mine, reply := Swap(stale, found);
      if reply == Err(ClaimLost) {
        r := RecheckOwnTakeOver(mine, found);
      } else if reply.Err? {
        var failed := StoreErr(reply.error);
        r := Err(failed.error);
      } else {
        r := Ok(mine);
      }
    }

    method Swap(stale: Rec, ghost found: Option<string>) returns (mine: Rec, reply: Result<Reply, StoreError>)
      requires world.Valid() && world.Phase() == Some(Answered(stale, found))
      modifies world`sys, world`trace, world`before, world`budget, world`faults, world`tries, world`slept, world`cancels, world.store
      ensures world.Valid() && world.Advances() && reply != Err(CorruptRecord)
      ensures reply.Ok? ==> world.Phase() == Some(Settled(mine, found, world.sys.now))
      ensures reply == Err(ClaimLost) ==> world.Phase() == Some(Rechecking(found, mine, world.sys.now))
      ensures reply == Err(Unavailable) ==> world.faults > old(world.faults)
      ensures world.Quiet() && ClaimedUnder(old(world.sys.cell), stale.token) ==>
                reply.Ok? && Held(world.c, world.sys.cell, mine)
    {
      mine := world.Issue();
      world.Dawdle();
      reply := Retry(TakeOverOp(stale.token, mine));
    }

    /** The key is ours and the outside world has answered: record what it did, or do it. */
    method Settle(own: Rec, found: Option<string>) returns (r: Result<Outcome, GuardError>)
      requires world.Valid() && world.Phase() == Some(Settled(own, found, world.sys.now))
      modifies world, world.store
      ensures Did(r) && Reconciles(found, world.answer, r) && Blames(r)
      ensures world.Quiet() && Held(world.c, old(world.sys.cell), own) && r.Ok? ==> Remembers(world.c, world.sys.cell, r.value)
    {
      if found.Some? {
        r := Resolve(own, Outcome(found.value, Success, Reconciled));
      } else {
        r := Execute(own, Reexecuted);
      }
    }

    /** The claim is another's: take it over before acting on the answer. */
    method SettleStale(stale: Rec, found: Option<string>) returns (r: Result<Outcome, GuardError>)
      requires world.Valid() && world.Phase() == Some(Answered(stale, found))
      modifies world, world.store
      ensures Did(r) && Blames(r) && r != Err(Unresolvable)
      ensures world.Quiet() && ClaimedUnder(old(world.sys.cell), stale.token) ==>
                Reconciles(found, world.answer, r) && (r.Ok? ==> Remembers(world.c, world.sys.cell, r.value))
    {
      var taken := TakeOver(stale, found);
      if taken.Err? {
        return Err(taken.error);
      }
      r := Settle(taken.value, found);
    }

    /** Asks the outside world, takes the claim over if it is not ours, and settles it. */
    method Reconcile(held: Rec, takeOver: bool) returns (r: Result<Outcome, GuardError>)
      requires world.Valid()
      requires world.Phase() == if !world.c.reconcilable then None
                                else if takeOver then Some(AskingStale(held)) else Some(AskingOwn(held, world.sys.now))
      modifies world, world.store
      ensures Did(r) && Blames(r)
      ensures !world.c.reconcilable ==> r == Err(Unresolvable)
      ensures world.Quiet()
              && (if takeOver then ClaimedUnder(old(world.sys.cell), held.token) else Held(world.c, old(world.sys.cell), held)) ==>
                AsksFirst(world.c, old(world.sys.ledger), world.answer, r) && (r.Ok? ==> Remembers(world.c, world.sys.cell, r.value))
    {
      if !world.c.reconcilable {
        return Err(Unresolvable);
      }
      var found := Ask(held, takeOver);
      if found.Err? {
        return Err(found.error);
      }
      r := ActOn(held, takeOver, found.value);
    }

    method Ask(held: Rec, takeOver: bool) returns (r: Result<Option<string>, GuardError>)
      requires world.Valid()
      requires world.Phase() == Some(if takeOver then AskingStale(held) else AskingOwn(held, world.sys.now))
      modifies world`sys, world`trace, world`before, world`budget, world`faults, world`tries, world`slept, world`cancels, world.store
      ensures world.Valid() && world.Advances()
      ensures r.Ok? ==> world.Phase() == Some(if takeOver then Answered(held, r.value) else Settled(held, r.value, world.sys.now))
      ensures r.Err? ==> world.Phase() == None && r.error == FenceUnavailable && world.faults > old(world.faults)
      ensures world.Quiet() ==> r == Ok(FirstOf(old(world.sys.ledger))) && ValueOf(world.sys.cell) == ValueOf(old(world.sys.cell))
    {
      world.Dawdle();
      var reply := Retry(ReconcileOp);
      if reply.Err? {
        var failed := StoreErr(reply.error);
        return Err(failed.error);
      }
      r := Ok(reply.value.found);
    }

    /** The outside world has answered; a claim that is not ours has to be taken over first. */
    method ActOn(held: Rec, takeOver: bool, found: Option<string>) returns (r: Result<Outcome, GuardError>)
      requires world.Valid() && world.c.reconcilable
      requires world.Phase() == Some(if takeOver then Answered(held, found) else Settled(held, found, world.sys.now))
      modifies world, world.store
      ensures Did(r) && Blames(r) && r != Err(Unresolvable)
      ensures world.Quiet()
              && (if takeOver then ClaimedUnder(old(world.sys.cell), held.token) else Held(world.c, old(world.sys.cell), held)) ==>
                Reconciles(found, world.answer, r) && (r.Ok? ==> Remembers(world.c, world.sys.cell, r.value))
    {
      if takeOver {
        r := SettleStale(held, found);
      } else {
        r := Settle(held, found);
      }
    }

    /** The key was absent and we now hold it; that proves "never claimed" only while it cannot have expired. */
    method Acquired(mine: Rec) returns (r: Result<Outcome, GuardError>)
      requires world.Valid() && world.Phase() == Some(Holding(mine, world.sys.now))
      modifies world, world.store
      ensures Did(r) && Blames(r)
      ensures world.Quiet() && Held(world.c, old(world.sys.cell), mine) ==>
                && DecidesAbsent(world.c, world.me, old(world.sys.ledger), world.answer, r, old(world.sys.now), world.sys.now)
                && (r.Ok? ==> Remembers(world.c, world.sys.cell, r.value))
    {
      world.Dawdle();
      var mayHaveExpired := world.CheckAge();
      if mayHaveExpired {
        r := Reconcile(mine, false);
      } else {
        r := Execute(mine, Executed);
      }
    }

    method CacheHit(rec: Rec) returns (r: Result<Outcome, GuardError>)
      requires world.Valid() && Verified(world.c, rec) && rec.state == ResolvedState
      requires world.Phase() == Met(world.c, rec) && !HasReturned(world.before, world.me) && world.Saw(Good(rec))
      ensures Ended(r) && IsOurs(world.c, rec)
      ensures r == if rec.result.Some? && rec.status.Some? then Ok(Outcome(rec.result.value, rec.status.value, Cached))
                   else Err(RecordMismatch)
    {
      if rec.result.None? || rec.status.None? {
        return Err(RecordMismatch);
      }
      r := Ok(Outcome(rec.result.value, rec.status.value, Cached));
    }

    /** Time until the claim counts as stale on our clock. */
    function StaleIn(cur: Rec): int
      reads world
    {
      cur.claimedAt + world.c.toolTimeout + world.c.staleGrace - Clock(world.c, world.me, world.sys.now)
    }

    function Changed(cur: Rec): nat
      reads world
    {
      if world.sys.cell.Some? && world.sys.cell.value.value == Good(cur) then 0 else 1
    }

    /** Reads the claim again; a key that disappeared restarts the decision. */
    method Poll(cur: Rec) returns (r: Result<Rec, GuardError>)
      requires world.Valid() && world.Phase() == Some(Waiting(cur))
      modifies world`sys, world`trace, world`before, world`budget, world`faults, world`tries, world`slept, world`cancels, world.store
      ensures world.Valid() && world.Advances()
      ensures r.Ok? ==>
                && Verified(world.c, r.value) && world.Phase() == Met(world.c, r.value)
                && !HasReturned(world.before, world.me) && world.Saw(Good(r.value)) && Changed(r.value) == 0
                && (world.budget == old(world.budget) ==> world.sys.cell == old(world.sys.cell))
      ensures world.Quiet() && ValueOf(old(world.sys.cell)) == Some(Good(cur)) && Verified(world.c, cur) ==> r == Ok(cur) && world.Still()
      ensures r.Err? ==> world.Phase() == None && r.error in {FenceUnavailable, RecordMismatch, Restart}
      ensures r == Err(FenceUnavailable) ==> world.faults > old(world.faults)
      ensures r == Err(RecordMismatch) ==> Misled()
    {
      var reply := Retry(GetOp);
      if reply.Err? {
        var failed := StoreErr(reply.error);
        return Err(failed.error);
      }
      var next := reply.value.rec;
      if next.None? {
        return Err(Restart);
      }
      if !Verified(world.c, next.value) {
        return Err(RecordMismatch);
      }
      r := Ok(next.value);
    }

    /**
     Respects another claimant's claim until it is resolved or stale. It ends
     once the others stop writing: then only the age of the claim is left to wait for.
     */
    method WaitUntilSettled(first: Rec) returns (r: Result<Rec, GuardError>)
      requires world.Valid() && first.state == ClaimedState && world.Phase() == Some(Waiting(first))
      modifies world`sys, world`trace, world`before, world`budget, world`faults, world`tries, world`slept, world`cancels, world.store
      ensures world.Valid() && world.Advances()
      ensures r.Ok? ==>
                var rec := r.value;
                if rec.state == ResolvedState then
                  && Verified(world.c, rec) && world.Phase() == Met(world.c, rec)
                  && !HasReturned(world.before, world.me) && world.Saw(Good(rec))
                else
                  world.Phase() == if world.c.reconcilable then Some(AskingStale(rec)) else None
      ensures r.Err? ==> world.Phase() == None && r.error in {FenceUnavailable, RecordMismatch, Restart}
      ensures r == Err(FenceUnavailable) ==> world.faults > old(world.faults)
      ensures r == Err(RecordMismatch) ==> Misled()
      ensures world.Quiet() && ValueOf(old(world.sys.cell)) == Some(Good(first)) && Verified(world.c, first) ==>
                r == Ok(first) && world.Still()
    {
      var cur := first;
      while true
        invariant world.Valid() && world.Advances()
        invariant world.Quiet() && ValueOf(old(world.sys.cell)) == Some(Good(first)) && Verified(world.c, first) ==>
                    cur == first && world.Still()
        invariant cur.state == ClaimedState && world.Phase() == Some(Waiting(cur))
        decreases world.budget, Changed(cur), StaleIn(cur)
      {
        var stale := world.CheckStale();
        if stale {
          return Ok(cur);
        }
        var interrupted := world.Sleep(POLL_INTERVAL);
        if interrupted {
          world.Die();
          return Err(FenceUnavailable);
        }
        var next := Poll(cur);
        if next.Err? || next.value.state == ResolvedState {
          return next;
        }
        cur := next.value;
      }
    }

    /** The key already held a record. */
    method MeetExisting(mine: Rec, ex: Rec) returns (r: Result<Outcome, GuardError>)
      requires world.Valid() && !HasReturned(world.before, world.me) && world.Saw(Good(ex))
      requires world.Phase() == if OwnClaim(ex, mine) then Some(Holding(mine, world.sys.now)) else Met(world.c, ex)
      modifies world, world.store
      ensures Did(r) && Blames(r)
      ensures world.Quiet() && ValueOf(old(world.sys.cell)) == Some(Good(ex)) && ex.token != mine.token ==>
                && DecidesHeld(world.c, ex, old(world.sys.ledger), world.answer, r)
                && (r.Ok? ==> Remembers(world.c, world.sys.cell, r.value))
    {
      if ex.state == ClaimedState && ex.token == mine.token {
        r := Acquired(mine);
        return;
      }
      if !Verified(world.c, ex) {
        return Err(RecordMismatch);
      }
      if ex.state == ResolvedState {
        r := CacheHit(ex);
        return;
      }
      var settled := WaitUntilSettled(ex);
      if settled.Err? {
        return Err(settled.error);
      }
      if settled.value.state == ResolvedState {
        r := CacheHit(settled.value);
      } else {
        r := Reconcile(settled.value, true);
      }
    }

    /** A fresh record is offered to the key. */
    method Claim() returns (mine: Rec, r: Result<Reply, StoreError>)
      requires world.Valid() && world.Phase() == None
      modifies world`sys, world`trace, world`before, world`budget, world`faults, world`tries, world`slept, world`cancels, world`draws, world.store
      ensures world.Valid() && world.Advances() && Fits(ClaimOp(mine), r)
      ensures world.draws == old(world.draws) + 1 && (r == Err(Unavailable) ==> world.faults > old(world.faults))
      ensures r == Err(CorruptRecord) ==> world.Phase() == None && world.Saw(Corrupt)
      ensures r == Ok(Claimed(ClaimReply.Acquired)) ==> world.Phase() == Some(Holding(mine, world.sys.now))
      ensures r.Ok? && r.value.claim.Existing? ==>
                var ex := r.value.claim.rec;
                && !HasReturned(world.before, world.me) && world.Saw(Good(ex))
                && world.Phase() == if OwnClaim(ex, mine) then Some(Holding(mine, world.sys.now)) else Met(world.c, ex)
      ensures world.Quiet() ==> world.sys.ledger == old(world.sys.ledger)
      ensures world.Quiet() ==>
                match ValueOf(old(world.sys.cell))
                case None => r == Ok(Claimed(ClaimReply.Acquired)) && Held(world.c, world.sys.cell, mine)
                case Some(Corrupt) => r == Err(CorruptRecord)
                case Some(Good(ex)) =>
                  r == Ok(Claimed(Existing(ex))) && ValueOf(world.sys.cell) == Some(Good(ex)) && ex.token != mine.token
    {
      mine := world.Draw();
      world.Dawdle();
      r := Retry(ClaimOp(mine));
    }

    /** One pass through the decision table, starting at Claim. */
    method Attempt() returns (r: Result<Outcome, GuardError>)
      requires world.Valid() && world.Phase() == None
      modifies world, world.store
      ensures Did(r) && world.draws == old(world.draws) + 1 && (r == Err(FenceUnavailable) ==> world.faults > old(world.faults))
      ensures world.Quiet() ==> Decided(r)
    {
      var mine, reply := Claim();
      if reply.Err? {
        r := StoreErr(reply.error);
        return;
      }
      match reply.value.claim
      case Acquired => r := Acquired(mine);
      case Existing(ex) => r := MeetExisting(mine, ex);
    }

    /**
     Runs a side-effecting tool under the fence. It calls Execute at most once,
     exactly once when its outcome says so, and returns an error other than
     "outcome unknown" (or dies) only if it never called it.
     */
    method Run(key: Option<string>, argsHash: Option<string>) returns (r: Result<Outcome, GuardError>)
      requires world.Valid() && world.Phase() == None
      requires key.Some? ==> key.value == world.key
      requires argsHash.Some? ==> argsHash.value == world.c.ident.argsHash
      modifies world, world.store
      ensures Did(r) && r != Err(Restart) && world.draws <= old(world.draws) + 3
      ensures r == Err(FenceUnavailable) ==> world.faults > old(world.faults) || world.draws == old(world.draws) + 3
      ensures key.None? ==> r == Err(MissingKey)
      ensures key.Some? && argsHash.None? ==> r == Err(UnhashableArgs)
      ensures world.Quiet() && key.Some? && argsHash.Some? ==> Decided(r)
    {
      if key.None? {
        return Err(MissingKey);
      }
      if argsHash.None? {
        return Err(UnhashableArgs);
      }
      var race := 0;
      while race < MAX_CLAIM_RACES
        invariant world.Valid() && world.Advances() && world.Phase() == None && world.calls == old(world.calls)
        invariant 0 <= race <= MAX_CLAIM_RACES && world.draws == old(world.draws) + race
        invariant race == 0 ==> world.Quiet() && world.sys == old(world.sys)
        invariant race > 0 ==> !world.Quiet()
      {
        r := Attempt();
        if r != Err(Restart) {
          return;
        }
        race := race + 1;
      }
      r := Err(FenceUnavailable);
    }

    /**
     Two processes one after the other: the first dies once it has its verdict,
     before journaling it, and the second calls again. Undisturbed, the fence is
     never unavailable, and an outcome the first one got is answered to the second
     from cache: same result, same status, and no further call of Execute.
     */
    method RunTwice(key: string, argsHash: string) returns (first: Result<Outcome, GuardError>, second: Result<Outcome, GuardError>)
      requires world.Valid() && world.Phase() == None && key == world.key && argsHash == world.c.ident.argsHash
      modifies world, world.store
      ensures world.Valid() && world.Advances() && Ended(second)
      ensures world.Quiet() ==> first.Ok? || first.error in {Unresolvable, RecordMismatch, OutcomeUnknown, Killed}
      ensures world.Quiet() && first.Ok? ==>
                && second == Ok(Outcome(first.value.result, first.value.status, Cached))
                && world.calls - old(world.calls) in CallsFor(first)
    {
      first := Run(Some(key), Some(argsHash));
      world.Die();
      second := Run(Some(key), Some(argsHash));
    }
  }

  /**
   A call that returned an outcome returned the truth: if nobody else froze,
   the outside world holds exactly what the outcome says, whatever everybody
   did on the key before and during the call.
   */
  lemma OutcomeIsTrue(g: Guard, out: Outcome)
    requires g.world.Valid() && g.Ended(Ok(out))
    requires Timed(g.world.c) && forall v: nat | v != g.world.me :: Prompt(g.world.c, Init(g.world.c), g.world.trace, v)
    ensures Agrees(g.world.sys.ledger, out.status, out.result)
  {
    var w := g.world;
    assert Spelled(w.trace);
    ReturnAgrees(w.c, w.trace, w.me, out);
  }

  /** An unknown outcome leaves the key claimed under the caller's token, so that the next call reconciles. */
  lemma UnknownStaysClaimed(g: Guard)
    requires g.world.Valid() && g.Ended(Err(OutcomeUnknown))
    requires Timed(g.world.c) && forall v: nat | v != g.world.me :: Prompt(g.world.c, Init(g.world.c), g.world.trace, v)
    ensures var p := PhaseOf(g.world.before, g.world.me);
            p.Some? && p.value.Executing? && ClaimedUnder(g.world.sys.cell, p.value.mine.token) && |g.world.sys.ledger| <= 1
  {
    var w := g.world;
    assert Spelled(w.trace);
    var init := w.trace[..|w.trace| - 1];
    assert w.trace == init + [Crash(w.me)];
    AllPromptPrefix(w.c, Init(w.c), init, [Crash(w.me)]);
    ExecutionWindow(w.c, init, w.me);
    RunSnoc(w.c, Init(w.c), init, Crash(w.me));
    AtMostOneEffect(w.c, w.trace);
  }

  /** A call on its own invocation's key is never told that the record does not match. */
  lemma HonestNeverMismatches(g: Guard, r: Result<Outcome, GuardError>)
    requires g.world.Valid() && g.Ended(r)
    ensures r != Err(RecordMismatch)
  {
    var w := g.world;
    if r == Err(RecordMismatch) {
      assert Spelled(w.trace);
      if w.trace != [] { NeverMisleads(w.c, w.trace[..|w.trace| - 1]); }
    }
  }
}
