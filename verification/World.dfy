/**
 What one Guard.Run call deals with: the store, the tool, the clock, and
 everybody else working on the same key in between. Every change is recorded
 as a label, so that what happened is always a schedule of the fence.
 */
module World {
  import opened Wrappers
  import opened Events
  import opened Records
  import opened Fence
  import opened FenceHonest
  import opened FenceReturn
  import opened Store

  const ATTEMPT_TIMEOUT: nat := 500_000

  /** The operations that are retried, and their replies. */
  datatype Op =
    | ClaimOp(rec: Rec) | GetOp | TakeOverOp(expected: nat, rec: Rec)
    | ResolveOp(expected: nat, rec: Rec) | ReconcileOp

  datatype Reply = Claimed(claim: ClaimReply) | Got(rec: Option<Rec>) | Swapped | Answer(found: Option<string>)

  /** What Execute returned; the contract is in `ExecuteMeans`. */
  datatype ExecResult = Done(result: string) | Refused(message: string) | Unknown

  /** What Execute returned, and whether its context had been cancelled or had run out by then. */
  datatype ToolAnswer = ToolAnswer(result: ExecResult, late: bool)

  /** A result means the effect happened once; an error other than "unknown" means it did not. */
  predicate ExecuteMeans(before: Option<string>, after: Option<string>, r: ExecResult) {
    match r
    case Done(result) => before.None? && after == Some(result)
    case Refused(_) => after == before
    case Unknown => true
  }

  /** The one operation worker `me` may be attempting in each phase. */
  function OpOf(c: Config, me: nat, p: Phase): Option<Op> {
    match p
    case Claiming(mine, _) => Some(ClaimOp(mine))
    case Waiting(_) => Some(GetOp)
    case AskingStale(_) => Some(ReconcileOp)
    case TakingOver(stale, _, mine, _) => Some(TakeOverOp(stale.token, mine))
    case Rechecking(_, _, _) => Some(GetOp)
    case AskingOwn(_, _) => Some(ReconcileOp)
    case Settling(mine, out, since) => Some(ResolveOp(mine.token, ResolvedRecord(c, me, mine, out, since)))
    case _ => None
  }

  function LabelOf(me: nat, p: Phase, delivered: bool): Label
    requires p.Claiming? || p.Waiting? || p.AskingStale? || p.TakingOver? || p.Rechecking? || p.AskingOwn? || p.Settling?
  {
    match p
    case Claiming(_, _) => ClaimAt(me, delivered)
    case Waiting(_) => Poll(me)
    case AskingStale(_) => AskStale(me)
    case TakingOver(_, _, _, _) => TakeOverAt(me, delivered)
    case Rechecking(_, _, _) => Recheck(me)
    case AskingOwn(_, _) => AskOwn(me)
    case Settling(_, _, _) => SettleAt(me, delivered)
  }

  function SwapReply(s: State, expected: nat): Result<Reply, StoreError> {
    if ClaimedUnder(s.cell, expected) then Ok(Swapped) else Err(ClaimLost)
  }

  /** What an operation that takes effect in state `s` answers. */
  function ReplyOf(c: Config, s: State, op: Op): Result<Reply, StoreError> {
    match op
    case ClaimOp(rec) =>
      var reply := ClaimCell(s.cell, rec, s.now, c.ttl).1;
      if reply.CorruptExisting? then Err(CorruptRecord) else Ok(Claimed(reply))
    case GetOp =>
      (match s.cell
       case None => Ok(Got(None))
       case Some(Cell(Good(rec), _)) => Ok(Got(Some(rec)))
       case Some(Cell(Corrupt, _)) => Err(CorruptRecord))
    case TakeOverOp(expected, _) => SwapReply(s, expected)
    case ResolveOp(expected, _) => SwapReply(s, expected)
    case ReconcileOp => Ok(Answer(Lookup(s)))
  }

  ghost predicate LeadsTo(c: Config, me: nat, ls: seq<Label>, before: State, s: State) {
    && s == Run(c, Init(c), ls) && Prompt(c, Init(c), ls, me)
    && before == (if ls == [] then Init(c) else Run(c, Init(c), ls[..|ls| - 1]))
  }

  /**
   State `s` is where the schedule `trace` leads, `before` is the state before
   its last step, and worker `me` kept its allowances along it.
   */
  ghost predicate Recorded(c: Config, me: nat, trace: seq<Label>, before: State, s: State) {
    forall ls: seq<Label> {:trigger Spelled(ls)} :: Spelled(ls) && ls == trace ==> LeadsTo(c, me, ls, before, s)
  }

  lemma RecordedOnTime(c: Config, me: nat, trace: seq<Label>, before: State, s: State)
    requires Recorded(c, me, trace, before, s)
    ensures OnTime(c, s, me)
  {
    assert Spelled(trace);
    assert trace + [] == trace;
    PromptAppend(c, Init(c), trace, [], me);
  }

  lemma RecordedSnoc(c: Config, me: nat, trace: seq<Label>, before: State, s: State, l: Label)
    requires Recorded(c, me, trace, before, s) && (l.Tick? ==> OnTime(c, Do(c, s, l), me))
    ensures Recorded(c, me, trace + [l], s, Do(c, s, l))
  {
    assert Spelled(trace);
    RecordedOnTime(c, me, trace, before, s);
    if !l.Tick? { StepOnTime(c, s, l, me); }
    RunSnoc(c, Init(c), trace, l);
    PromptSnoc(c, Init(c), trace, l, me);
    assert (trace + [l])[..|trace + [l]| - 1] == trace;
  }

  predicate Foreign(l: Label, me: nat) {
    !l.Tick? && (l.Expire? || l.w != me)
  }

  lemma ForeignKeeps(c: Config, s: State, l: Label, me: nat)
    requires Foreign(l, me)
    ensures PhaseOf(Do(c, s, l), me) == PhaseOf(s, me) && Do(c, s, l).now == s.now
  {
  }

  predicate Roomy(c: Config, s: State, me: nat, d: nat) {
    me in s.workers && Allowance(c, s.workers[me]).Some? ==>
      s.now + d <= s.workers[me].since + Allowance(c, s.workers[me]).value
  }

  lemma TickOnTime(c: Config, s: State, l: Label, me: nat)
    requires l.Tick? ==> Roomy(c, s, me, l.d)
    ensures l.Tick? ==> OnTime(c, Do(c, s, l), me)
  {
  }

  predicate Own(l: Label, me: nat) {
    && (l.Start? || l.Crash? || l.Check? || l.Wake? || l.Issue? || l.Effect? || l.Succeed? || l.Fail? || l.GiveUp?)
    && l.w == me
  }

  lemma OwnKeepsCell(c: Config, s: State, l: Label, me: nat)
    requires Own(l, me)
    ensures var t := Do(c, s, l); t.cell == s.cell && t.now == s.now && (!l.Effect? ==> t.ledger == s.ledger)
  {
  }

  /** What a worker does with a record it did not write. */
  function Met(c: Config, rec: Rec): Option<Phase> {
    if !Verified(c, rec) then None
    else if rec.state == ResolvedState then
      if rec.result.None? || rec.status.None? then None
      else Some(Returned(Outcome(rec.result.value, rec.status.value, Cached)))
    else Some(Waiting(rec))
  }

  predicate OwnClaim(rec: Rec, mine: Rec) {
    rec.state == ClaimedState && rec.token == mine.token
  }

  /** Where a worker that holds the key stands once the outside world has answered. */
  function Settled(mine: Rec, found: Option<string>, now: int): Phase {
    match found
    case Some(r) => Settling(mine, Outcome(r, Success, Reconciled), now)
    case None => Executing(mine, Reexecuted, now, None)
  }

  /** Where the reply `r`, received at `now`, takes a worker that was in phase `p`. */
  function After(c: Config, p: Phase, r: Result<Reply, StoreError>, now: int): Option<Phase> {
    match (p, r)
    case (Claiming(mine, _), Ok(Claimed(Acquired))) => Some(Holding(mine, now))
    case (Claiming(mine, _), Ok(Claimed(Existing(rec)))) => if OwnClaim(rec, mine) then Some(Holding(mine, now)) else Met(c, rec)
    case (Waiting(_), Ok(Got(Some(rec)))) => Met(c, rec)
    case (AskingStale(stale), Ok(Answer(found))) => Some(Answered(stale, found))
    case (TakingOver(_, found, mine, _), Ok(_)) => Some(Settled(mine, found, now))
    case (TakingOver(_, found, mine, _), Err(_)) => Some(Rechecking(found, mine, now))
    case (Rechecking(found, mine, _), Ok(Got(Some(rec)))) => if OwnClaim(rec, mine) then Some(Settled(mine, found, now)) else None
    case (AskingOwn(mine, _), Ok(Answer(found))) => Some(Settled(mine, found, now))
    case (Settling(_, out, _), _) => Some(Returned(out))
    case _ => None
  }

  function CellAfter(c: Config, s: State, op: Op): Option<Cell> {
    match op
    case ClaimOp(rec) => ClaimCell(s.cell, rec, s.now, c.ttl).0
    case TakeOverOp(expected, rec) => CasCell(s.cell, expected, rec, s.now, c.ttl).0
    case ResolveOp(expected, rec) => CasCell(s.cell, expected, rec, s.now, c.ttl).0
    case _ => s.cell
  }

  lemma ServesSo(c: Config, s: State, op: Op)
    ensures (ValueOf(CellAfter(c, s, op)), ReplyOf(c, s, op)) == Served(op, s.cell, s.ledger)
    ensures op.GetOp? || op.ReconcileOp? ==> CellAfter(c, s, op) == s.cell
  {
  }

  /** The store's operation and the fence's label do the same to the key. */
  lemma LabelMatches(c: Config, s: State, op: Op, me: nat, p: Phase, delivered: bool)
    requires PhaseOf(s, me) == Some(p) && OpOf(c, me, p) == Some(op)
    ensures var t := Do(c, s, LabelOf(me, p, delivered));
            && t.now == s.now && t.ledger == s.ledger
            && t.cell == CellAfter(c, s, op)
            && (!delivered && (p.Claiming? || p.TakingOver? || p.Settling?) ==> PhaseOf(t, me) == PhaseOf(s, me))
  {
  }

  /** The replies each operation can get. */
  predicate Fits(op: Op, r: Result<Reply, StoreError>) {
    match op
    case ClaimOp(_) => if r.Ok? then r.value.Claimed? && !r.value.claim.CorruptExisting? else r.error != ClaimLost
    case GetOp => if r.Ok? then r.value.Got? else r.error != ClaimLost
    case TakeOverOp(_, _) => if r.Ok? then r.value.Swapped? else r.error != CorruptRecord
    case ResolveOp(_, _) => if r.Ok? then r.value.Swapped? else r.error != CorruptRecord
    case ReconcileOp => if r.Ok? then r.value.Answer? else r.error == Unavailable
  }

  function ValueOf(cell: Option<Cell>): Option<Value> {
    if cell.Some? then Some(cell.value.value) else None
  }

  function SwapAnswer(cell: Option<Cell>, expected: nat, rec: Rec): (Option<Value>, Result<Reply, StoreError>) {
    if ClaimedUnder(cell, expected) then (Some(Good(rec)), Ok(Swapped)) else (ValueOf(cell), Err(ClaimLost))
  }

  /** What an operation leaves under the key, and what it answers, if nothing goes wrong. */
  function Served(op: Op, cell: Option<Cell>, ledger: seq<string>): (Option<Value>, Result<Reply, StoreError>) {
    match op
    case ClaimOp(rec) =>
      (match ValueOf(cell)
       case None => (Some(Good(rec)), Ok(Claimed(Acquired)))
       case Some(Corrupt) => (Some(Corrupt), Err(CorruptRecord))
       case Some(Good(held)) => (Some(Good(held)), Ok(Claimed(Existing(held)))))
    case GetOp =>
      (match ValueOf(cell)
       case None => (None, Ok(Got(None)))
       case Some(Corrupt) => (Some(Corrupt), Err(CorruptRecord))
       case Some(Good(held)) => (Some(Good(held)), Ok(Got(Some(held)))))
    case TakeOverOp(expected, rec) => SwapAnswer(cell, expected, rec)
    case ResolveOp(expected, rec) => SwapAnswer(cell, expected, rec)
    case ReconcileOp => (ValueOf(cell), Ok(Answer(FirstOf(ledger))))
  }

  /** The reply alone tells the worker where the fence has taken it. */
  lemma ReplyTells(c: Config, s: State, op: Op, me: nat, p: Phase)
    requires PhaseOf(s, me) == Some(p) && OpOf(c, me, p) == Some(op)
    ensures PhaseOf(Do(c, s, LabelOf(me, p, true)), me) == After(c, p, ReplyOf(c, s, op), s.now)
    ensures ReplyOf(c, s, op) != Err(Unavailable) && Fits(op, ReplyOf(c, s, op))
  {
  }

  class World {
    const c: Config
    const key: string
    const me: nat
    const store: RedisStore
    var sys: State
    /** How many more steps the others will take. */
    var budget: nat
    /** Everything that happened on the key, and the state before the last of it. */
    var trace: seq<Label>
    var before: State
    /** How often `me` called Execute. */
    ghost var calls: nat
    /** How many attempts failed or lost their reply, and how many sleeps were cut short. */
    ghost var faults: nat
    /** How often `me` attempted a store operation, how long it slept, and how often its caller cancelled it. */
    ghost var tries: nat
    ghost var slept: nat
    ghost var cancels: nat
    /** How many first claims it drew a token for. */
    ghost var draws: nat
    /** What the last Execute of `me` answered. */
    ghost var answer: Option<ToolAnswer>

    constructor (c: Config, key: string, me: nat, store: RedisStore, budget: nat)
      requires store.ttl == c.ttl && key !in store.cells
      ensures Valid() && this.store == store && this.key == key && this.c == c && this.me == me
      ensures Phase() == None && trace == [] && calls == 0
    {
      this.c, this.key, this.me, this.store, this.budget := c, key, me, store, budget;
      sys, trace, before, calls, faults := Init(c), [], Init(c), 0, 0;
      tries, slept, cancels, draws, answer := 0, 0, 0, 0, None;
    }

    /** The same world, met again later by another call. */
    constructor Again(c: Config, key: string, me: nat, trace: seq<Label>, before: State, sys: State, budget: nat)
      requires Recorded(c, me, trace, before, sys)
      ensures Valid() && fresh(store) && this.key == key && this.c == c && this.me == me
      ensures this.trace == trace && this.before == before && this.sys == sys && this.budget == budget && calls == 0 && faults == 0
    {
      this.c, this.key, this.me, this.budget := c, key, me, budget;
      this.sys, this.trace, this.before, calls, faults := sys, trace, before, 0, 0;
      tries, slept, cancels, draws, answer := 0, 0, 0, 0, None;
      store := new RedisStore(c.ttl);
      new;
      if sys.cell.Some? {
        store.cells := map[key := sys.cell.value];
      }
    }

    ghost predicate Valid()
      reads this, store
    {
      store.ttl == c.ttl && store.At(key) == sys.cell && Recorded(c, me, trace, before, sys)
    }

    function Phase(): Option<Phase>
      reads this
    {
      PhaseOf(sys, me)
    }

    /** Worker `me` has this much time left in its phase. */
    predicate Room(d: nat)
      reads this
    {
      Roomy(c, sys, me, d)
    }

    twostate predicate Advances()
      reads this, store
    {
      && old(trace) <= trace && budget <= old(budget) && old(faults) <= faults && old(cancels) <= cancels && old(sys.now) <= sys.now
      && store.OnlyKey(key)
    }

    /** Nobody else did anything, and nothing went wrong. */
    twostate predicate Quiet()
      reads this
    {
      budget == old(budget) && faults == old(faults)
    }

    /** Key and outside world are as they were. */
    twostate predicate Still()
      reads this
    {
      sys.cell == old(sys.cell) && sys.ledger == old(sys.ledger)
    }

    /** Records a step whose effect on the store has been made. */
    method Note(l: Label)
      requires store.ttl == c.ttl && Recorded(c, me, trace, before, sys) && store.At(key) == Do(c, sys, l).cell
      requires l.Tick? ==> OnTime(c, Do(c, sys, l), me)
      modifies this`sys, this`trace, this`before
      ensures Valid() && sys == Do(c, old(sys), l) && trace == old(trace) + [l] && before == old(sys)
    {
      RecordedSnoc(c, me, trace, before, sys, l);
      before, trace := sys, trace + [l];
      sys := Do(c, sys, l);
    }

    /** Somebody else, or Redis's own expiry, takes a step. */
    method Others(l: Label)
      requires Valid() && Foreign(l, me) && budget > 0
      modifies this`sys, this`trace, this`before, this`budget, store
      ensures Valid() && Advances() && budget < old(budget)
      ensures Phase() == old(Phase()) && sys.now == old(sys.now)
    {
      ForeignKeeps(c, sys, l, me);
      var cell := Do(c, sys, l).cell;
      store.cells := if cell.Some? then store.cells[key := cell.value] else store.cells - {key};
      Note(l);
      budget := budget - 1;
    }

    /** Time passes, between `least` and `most`, with steps of the others anywhere in it. */
    method Pass(least: nat, most: nat)
      requires Valid() && least <= most && Room(most)
      modifies this`sys, this`trace, this`before, this`budget, store
      ensures Valid() && Advances() && Phase() == old(Phase())
      ensures old(sys.now) + least <= sys.now <= old(sys.now) + most
      ensures budget == old(budget) ==> Still()
    {
      var spent: nat, n: nat := 0, *;
      while n > 0
        invariant Valid() && Advances() && Phase() == old(Phase())
        invariant sys.now == old(sys.now) + spent && spent <= most
        invariant budget == old(budget) ==> Still()
      {
        n := n - 1;
        var d: nat, l: Label := *, *;
        if spent + d <= most {
          Note(Tick(d));
          spent := spent + d;
        }
        if budget > 0 && Foreign(l, me) {
          Others(l);
        }
      }
      if spent < least {
        Note(Tick(least - spent));
      }
    }

    /** Up to this long passes between two steps of a worker that is not frozen. */
    method Dawdle()
      requires Valid() && Room(c.lag)
      modifies this`sys, this`trace, this`before, this`budget, store
      ensures Valid() && Advances() && Phase() == old(Phase())
      ensures sys.now <= old(sys.now) + c.lag
      ensures budget == old(budget) ==> Still()
    {
      Pass(0, c.lag);
    }

    /** Sleeps for `d`, unless the caller's context is cancelled first. */
    method Sleep(d: nat) returns (interrupted: bool)
      requires Valid() && Room(d)
      modifies this`sys, this`trace, this`before, this`budget, this`faults, this`slept, this`cancels, store
      ensures interrupted <==> faults > old(faults)
      ensures slept == old(slept) + d && cancels == old(cancels) + if interrupted then 1 else 0
      ensures Valid() && Advances() && Phase() == old(Phase())
      ensures sys.now <= old(sys.now) + d && (!interrupted ==> sys.now == old(sys.now) + d)
      ensures budget == old(budget) ==> Still()
    {
      interrupted := *;
      slept := slept + d;
      if interrupted {
        faults, cancels := faults + 1, cancels + 1;
      }
      Pass(if interrupted then 0 else d, d);
    }

    /** Has the caller's context been cancelled? */
    method Cancelled() returns (cancelled: bool)
      modifies this`cancels
      ensures cancels == old(cancels) + if cancelled then 1 else 0
    {
      cancelled := *;
      cancels := cancels + if cancelled then 1 else 0;
    }

    /** A step of `me` that leaves the store alone. */
    method Act(l: Label)
      requires Valid() && Own(l, me)
      modifies this`sys, this`trace, this`before
      ensures Valid() && Advances() && sys == Do(c, old(sys), l) && trace == old(trace) + [l] && before == old(sys)
      ensures sys.now == old(sys.now) && sys.cell == old(sys.cell) && (!l.Effect? ==> Still())
    {
      OwnKeepsCell(c, sys, l, me);
      Note(l);
    }

    /** The process dies, or the call gives up on the key. */
    method Die()
      requires Valid()
      modifies this`sys, this`trace, this`before
      ensures Valid() && Advances() && Still() && Phase() == None && before == old(sys) && trace == old(trace) + [Crash(me)]
    {
      Act(Crash(me));
    }

    /** Draws a fresh token for a first claim. */
    method Draw() returns (mine: Rec)
      requires Valid() && Phase() == None
      modifies this`sys, this`trace, this`before, this`draws
      ensures Valid() && Advances() && Still() && sys.now == old(sys.now) && Phase() == Some(Claiming(mine, sys.now))
      ensures draws == old(draws) + 1
      ensures mine == NewRecord(c, old(sys), me) && HonestClaim(c, mine)
      ensures match ValueOf(sys.cell) case Some(Good(held)) => held.token != mine.token case _ => true
    {
      assert Spelled(trace);
      TokenIsNew(c, trace);
      mine := NewRecord(c, sys, me);
      draws := draws + 1;
      Act(Start(me));
    }

    /** Draws a fresh token for a takeover. */
    method Issue() returns (mine: Rec)
      requires Valid() && Phase().Some? && Phase().value.Answered?
      modifies this`sys, this`trace, this`before
      ensures Valid() && Advances() && Still() && sys.now == old(sys.now)
      ensures mine == NewRecord(c, old(sys), me) && HonestClaim(c, mine)
      ensures match ValueOf(sys.cell) case Some(Good(held)) => held.token != mine.token case _ => true
      ensures var p := old(Phase().value); Phase() == Some(TakingOver(p.stale, p.found, mine, sys.now))
    {
      assert Spelled(trace);
      TokenIsNew(c, trace);
      mine := NewRecord(c, sys, me);
      Act(Fence.Issue(me));
    }

    /** The age test of a key just acquired. */
    method CheckAge() returns (mayHaveExpired: bool)
      requires Valid() && Phase().Some? && Phase().value.Holding?
      modifies this`sys, this`trace, this`before
      ensures Valid() && Advances() && Still() && sys.now == old(sys.now)
      ensures mayHaveExpired == (Clock(c, me, sys.now) - c.invokedAt >= c.ttl - EXPIRY_MARGIN)
      ensures var mine := old(Phase().value.mine);
              Phase() == if !mayHaveExpired then Some(Executing(mine, Executed, sys.now, None))
                         else if c.reconcilable then Some(AskingOwn(mine, sys.now)) else None
    {
      mayHaveExpired := KeyMayHaveExpired(c, sys, me);
      Act(Check(me));
    }

    /** The age test of somebody else's claim. */
    method CheckStale() returns (stale: bool)
      requires Valid() && Phase().Some? && Phase().value.Waiting?
      modifies this`sys, this`trace, this`before
      ensures Valid() && Advances() && Still() && sys.now == old(sys.now)
      ensures var cur := old(Phase().value.cur);
              && stale == (Clock(c, me, sys.now) - cur.claimedAt >= c.toolTimeout + c.staleGrace)
              && Phase() == if !stale then old(Phase()) else if c.reconcilable then Some(AskingStale(cur)) else None
    {
      stale := IsStale(c, sys, me, Phase().value.cur);
      Act(Wake(me));
    }

    /** Execute returned a definite answer. */
    method Conclude(r: ExecResult) returns (out: Outcome)
      requires Valid() && Phase().Some? && Phase().value.Executing? && !r.Unknown?
      requires ExecuteMeans(None, Phase().value.effect, r)
      modifies this`sys, this`trace, this`before
      ensures Valid() && Advances() && Still() && sys.now == old(sys.now)
      ensures var p := old(Phase().value);
              && Phase() == Some(Settling(p.mine, out, sys.now))
              && out == (if r.Done? then Outcome(r.result, Success, p.how) else Outcome("error: " + r.message, Error, p.how))
    {
      var p := Phase().value;
      if r.Done? {
        out := Outcome(r.result, Success, p.how);
        Act(Succeed(me));
      } else {
        out := Outcome("error: " + r.message, Error, p.how);
        Act(Fail(me, out.result));
      }
    }

    /** Stops trying to record the outcome. */
    method StopSettling()
      requires Valid() && Phase().Some? && Phase().value.Settling?
      modifies this`sys, this`trace, this`before
      ensures Valid() && Advances() && Still() && Phase() == Some(Returned(old(Phase().value.out)))
      ensures !HasReturned(before, me)
    {
      Act(GiveUp(me));
    }

    /** The store, or the outside world, carries out the operation. */
    method Serve(op: Op) returns (r: Result<Reply, StoreError>)
      requires Valid()
      modifies store
      ensures r == ReplyOf(c, sys, op) && store.OnlyKey(key)
      ensures store.At(key) == CellAfter(c, sys, op)
    {
      match op {
        case ClaimOp(rec) =>
          var claim := store.Claim(key, rec, sys.now);
          r := if claim.Ok? then Ok(Claimed(claim.value)) else Err(claim.error);
        case GetOp =>
          var got := store.Get(key);
          r := if got.Ok? then Ok(Got(got.value)) else Err(got.error);
        case TakeOverOp(expected, rec) =>
          var swap := store.TakeOver(key, expected, rec, sys.now);
          r := if swap.Ok? then Ok(Swapped) else Err(swap.error);
        case ResolveOp(expected, rec) =>
          var swap := store.Resolve(key, expected, rec, sys.now);
          r := if swap.Ok? then Ok(Swapped) else Err(swap.error);
        case ReconcileOp =>
          r := Ok(Answer(Lookup(sys)));
      }
    }

    /** The operation takes effect; `delivered` says whether its reply arrives. */
    method Perform(op: Op, delivered: bool) returns (r: Result<Reply, StoreError>)
      requires Valid() && Phase().Some? && OpOf(c, me, Phase().value) == Some(op)
      modifies this`sys, this`trace, this`before, store
      ensures Valid() && Advances() && sys.now == old(sys.now) && r == ReplyOf(c, old(sys), op)
      ensures r != Err(Unavailable) && Fits(op, r)
      ensures delivered ==> Phase() == After(c, old(Phase().value), r, sys.now) && before == old(sys)
      ensures !delivered ==> Phase() == old(Phase())
      ensures op.GetOp? ==> sys.cell == old(sys.cell)
      ensures sys.ledger == old(sys.ledger) && (ValueOf(sys.cell), r) == Served(op, old(sys.cell), old(sys.ledger))
    {
      var p := Phase().value;
      r := Serve(op);
      LabelMatches(c, sys, op, me, p, delivered);
      ReplyTells(c, sys, op, me, p);
      ServesSo(c, sys, op);
      if delivered || p.Claiming? || p.TakingOver? || p.Settling? {
        Note(LabelOf(me, p, delivered));
      }
    }

    /** What an answered operation leaves: the phase its reply calls for, reached in this very step. */
    ghost predicate Replied(p: Phase, op: Op, r: Result<Reply, StoreError>)
      reads this
    {
      && Phase() == After(c, p, r, sys.now) && PhaseOf(before, me) == Some(p)
      && (r.Ok? && r.value.Got? && r.value.rec.Some? ==> sys.cell.Some? && sys.cell.value.value == Good(r.value.rec.value))
      && (r.Ok? && r.value.Got? && r.value.rec.Some? ==> Saw(Good(r.value.rec.value)))
      && (r.Ok? && r.value.Claimed? && r.value.claim.Existing? ==> Saw(Good(r.value.claim.rec)))
      && (r == Err(CorruptRecord) ==> Saw(Corrupt))
    }

    /** The key held this value when the last step was taken. */
    ghost predicate Saw(v: Value)
      reads this
    {
      before.cell.Some? && before.cell.value.value == v
    }

    /** One attempt: it may fail outright, lose its reply, or be answered. */
    method Attempt(op: Op) returns (r: Result<Reply, StoreError>)
      requires Valid() && Phase().Some? && OpOf(c, me, Phase().value) == Some(op) && Room(ATTEMPT_TIMEOUT)
      modifies this`sys, this`trace, this`before, this`budget, this`faults, this`tries, store
      ensures Valid() && Advances() && sys.now <= old(sys.now) + ATTEMPT_TIMEOUT
      ensures Fits(op, r) && tries == old(tries) + 1
      ensures r == Err(Unavailable) <==> faults > old(faults)
      ensures Quiet() ==> sys.ledger == old(sys.ledger) && (ValueOf(sys.cell), r) == Served(op, old(sys.cell), old(sys.ledger))
      ensures r == Err(Unavailable) ==> Phase() == old(Phase())
      ensures r != Err(Unavailable) ==> Replied(old(Phase().value), op, r)
      ensures op.GetOp? && budget == old(budget) ==> sys.cell == old(sys.cell)
    {
      tries := tries + 1;
      var deadline := sys.now + ATTEMPT_TIMEOUT;
      Pass(0, ATTEMPT_TIMEOUT);
      var fate: nat := *;
      if fate == 0 || fate == 1 {
        faults := faults + 1;
      }
      if fate == 0 {
        return Err(Unavailable);
      }
      r := Perform(op, fate != 1);
      if fate == 1 {
        Pass(0, deadline - sys.now);
        r := Err(Unavailable);
      }
    }

    /** Calls the tool under its deadline; its effect may come at any moment before Execute returns. */
    method Execute() returns (r: ExecResult, late: bool)
      requires Valid() && Phase().Some? && Phase().value.Executing? && Phase().value.effect.None? && Room(c.toolTimeout)
      modifies this`sys, this`trace, this`before, this`budget, this`calls, this`answer, store
      ensures Valid() && Advances() && calls == old(calls) + 1 && sys.now <= old(sys.now) + c.toolTimeout
      ensures answer == Some(ToolAnswer(r, late))
      ensures budget == old(budget) ==> sys.cell == old(sys.cell)
      ensures var p := old(Phase().value);
              && Phase().Some? && Phase().value.Executing?
              && Phase().value == p.(effect := Phase().value.effect)
              && ExecuteMeans(p.effect, Phase().value.effect, r)
    {
      calls, late := calls + 1, *;
      var deadline := sys.now + c.toolTimeout;
      Pass(0, c.toolTimeout);
      var fate: nat, text: string := *, *;
      if fate == 0 {
        r := Unknown;
      } else if fate == 1 {
        r := Refused(text);
      } else {
        Act(Effect(me, text));
        Pass(0, deadline - sys.now);
        r := if fate == 2 then Unknown else Done(text);
      }
      answer := Some(ToolAnswer(r, late));
    }

    /**
     A call that dies somewhere in the middle: any steps at all, by anybody and
     by `me` within its allowance, and then no more of `me`.
     */
    method Interrupted()
      requires Valid()
      modifies this`sys, this`trace, this`before, store
      ensures Valid() && Phase() == None && old(trace) <= trace
    {
      var n: nat := *;
      while n > 0
        invariant Valid() && old(trace) <= trace
      {
        n := n - 1;
        var l: Label := *;
        if !l.Tick? || Room(l.d) {
          TickOnTime(c, sys, l, me);
          var cell := Do(c, sys, l).cell;
          store.cells := if cell.Some? then store.cells[key := cell.value] else store.cells - {key};
          Note(l);
        }
      }
      Die();
    }
  }
}
