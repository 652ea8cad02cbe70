/**
 The idempotency fence as a transition system: any number of workers running
 Guard.Run on one key, a compare-and-set store whose replies can be lost, a
 clock, key expiry, and the outside world's ledger for that key. A schedule is
 a sequence of labels; a label that is not enabled changes nothing. Crashing,
 and returning any error, is the label `Crash`, possible at every point.
 */
module Fence {
  import opened Wrappers
  import opened Events
  import opened Records

  const RETRY_BUDGET: int := 5_500_000
  const EXPIRY_MARGIN: int := 60 * SECOND

  /**
   `offset[w]` is how far worker w's clock runs ahead of the slowest clock, and
   `lag` how long a worker may dawdle between two of its steps, the flight of a
   reply included.
   */
  datatype Config = Config(
    ident: Ident, step: int, invokedAt: int, start: int,
    toolTimeout: nat, staleGrace: nat, ttl: nat, reconcilable: bool,
    skew: nat, lag: nat, offset: map<nat, nat>)

  datatype Outcome = Outcome(result: string, status: ToolStatus, resolution: Resolution)

  /** Where one worker is inside Guard.Run; `since` is when it got there. */
  datatype Phase =
    | Claiming(mine: Rec, since: int)
    | Holding(mine: Rec, since: int)                              // acquired, expiry not yet checked
    | Waiting(cur: Rec)
    | AskingStale(stale: Rec)
    | Answered(stale: Rec, found: Option<string>)
    | TakingOver(stale: Rec, found: Option<string>, mine: Rec, since: int)
    | Rechecking(found: Option<string>, mine: Rec, since: int)
    | AskingOwn(mine: Rec, since: int)
    | Executing(mine: Rec, how: Resolution, since: int, effect: Option<string>)
    | Settling(mine: Rec, out: Outcome, since: int)
    | Returned(out: Outcome)

  /** One successful write of a claim: by Claim (`claimed`) or by TakeOver. */
  datatype Write = Write(token: nat, claimed: bool, at: int)

  /** `stamps[t]` is when token t was drawn; `executed` lists the tokens Execute was called under. */
  datatype State = State(
    now: int, cell: Option<Cell>, ledger: seq<string>, workers: map<nat, Phase>,
    stamps: seq<int>, history: seq<Write>, executed: seq<nat>)

  datatype Label =
    | Tick(d: nat) | Expire | Start(w: nat) | Crash(w: nat)
    | ClaimAt(w: nat, delivered: bool) | Check(w: nat) | Poll(w: nat) | Wake(w: nat)
    | AskStale(w: nat) | Issue(w: nat) | TakeOverAt(w: nat, delivered: bool) | Recheck(w: nat) | AskOwn(w: nat)
    | Effect(w: nat, result: string) | Succeed(w: nat) | Fail(w: nat, message: string)
    | SettleAt(w: nat, delivered: bool) | GiveUp(w: nat)

  /** The token a worker would act under. */
  function Mine(p: Phase): Option<nat> {
    match p
    case Claiming(mine, _) => Some(mine.token)
    case Holding(mine, _) => Some(mine.token)
    case TakingOver(_, _, mine, _) => Some(mine.token)
    case Rechecking(_, mine, _) => Some(mine.token)
    case AskingOwn(mine, _) => Some(mine.token)
    case Executing(mine, _, _, _) => Some(mine.token)
    case Settling(mine, _, _) => Some(mine.token)
    case _ => None
  }

  function Init(c: Config): State {
    State(c.start, None, [], map[], [], [], [])
  }

  /** What worker w's clock shows at time `at`. */
  function Clock(c: Config, w: nat, at: int): int {
    at + if w in c.offset then c.offset[w] else 0
  }

  function Local(c: Config, s: State, w: nat): int {
    Clock(c, w, s.now)
  }

  function Enter(s: State, w: nat, p: Phase): State {
    s.(workers := s.workers[w := p])
  }

  function Leave(s: State, w: nat): State {
    s.(workers := s.workers - {w})
  }

  function NewRecord(c: Config, s: State, w: nat): Rec {
    Rec(ClaimedState, c.ident, c.step, |s.stamps|, w, Local(c, s, w), None, None, None, None)
  }

  predicate IsStale(c: Config, s: State, w: nat, rec: Rec) {
    Local(c, s, w) - rec.claimedAt >= c.toolTimeout + c.staleGrace
  }

  predicate KeyMayHaveExpired(c: Config, s: State, w: nat) {
    Local(c, s, w) - c.invokedAt >= c.ttl - EXPIRY_MARGIN
  }

  predicate Verified(c: Config, rec: Rec) {
    rec.state != OtherState && rec.ident == c.ident
  }

  /** A resolved record must carry a result; it is then returned as cached. */
  function CacheHit(s: State, w: nat, rec: Rec): State {
    if rec.result.None? || rec.status.None? then Leave(s, w)
    else Enter(s, w, Returned(Outcome(rec.result.value, rec.status.value, Cached)))
  }

  /** What a worker does with a record it did not write. */
  function Meet(c: Config, s: State, w: nat, rec: Rec): State {
    if !Verified(c, rec) then Leave(s, w)
    else if rec.state == ResolvedState then CacheHit(s, w, rec)
    else Enter(s, w, Waiting(rec))
  }

  function BeginExecute(s: State, w: nat, mine: Rec, how: Resolution): State {
    Enter(s, w, Executing(mine, how, s.now, None)).(executed := s.executed + [mine.token])
  }

  /** The claim is ours and the outside world has answered. */
  function Settle(s: State, w: nat, mine: Rec, found: Option<string>): State {
    match found
    case Some(r) => Enter(s, w, Settling(mine, Outcome(r, Success, Reconciled), s.now))
    case None => BeginExecute(s, w, mine, Reexecuted)
  }

  function Lookup(s: State): Option<string> {
    FirstOf(s.ledger)
  }

  function ResolvedRecord(c: Config, w: nat, mine: Rec, out: Outcome, at: int): Rec {
    mine.(state := ResolvedState, resolvedAt := Some(Clock(c, w, at)),
          result := Some(out.result), status := Some(out.status), resolution := Some(out.resolution))
  }

  // One function per label: what worker w does, if it is in the phase `p` the label needs.

  function DoClaim(c: Config, s: State, w: nat, p: Phase, delivered: bool): State {
    if !p.Claiming? then s
    else
      var mine := p.mine;
      var (cell, reply) := ClaimCell(s.cell, mine, s.now, c.ttl);
      var t := s.(cell := cell, history := if reply.Acquired? then s.history + [Write(mine.token, true, s.now)] else s.history);
      if !delivered then t
      else match reply
        case Acquired => Enter(t, w, Holding(mine, s.now))
        case CorruptExisting => Leave(t, w)
        case Existing(rec) =>
          if rec.state == ClaimedState && rec.token == mine.token then Enter(t, w, Holding(mine, s.now))
          else Meet(c, t, w, rec)
  }

  function DoCheck(c: Config, s: State, w: nat, p: Phase): State {
    if !p.Holding? then s
    else if !KeyMayHaveExpired(c, s, w) then BeginExecute(s, w, p.mine, Executed)
    else if c.reconcilable then Enter(s, w, AskingOwn(p.mine, s.now))
    else Leave(s, w)
  }

  function DoPoll(c: Config, s: State, w: nat, p: Phase): State {
    if !p.Waiting? then s
    else match s.cell
      case Some(Cell(Good(rec), _)) => Meet(c, s, w, rec)
      case _ => Leave(s, w)
  }

  function DoWake(c: Config, s: State, w: nat, p: Phase): State {
    if !p.Waiting? || !IsStale(c, s, w, p.cur) then s
    else if c.reconcilable then Enter(s, w, AskingStale(p.cur))
    else Leave(s, w)
  }

  function DoAskStale(s: State, w: nat, p: Phase): State {
    if p.AskingStale? then Enter(s, w, Answered(p.stale, Lookup(s))) else s
  }

  function DoIssue(c: Config, s: State, w: nat, p: Phase): State {
    if !p.Answered? then s
    else Enter(s, w, TakingOver(p.stale, p.found, NewRecord(c, s, w), s.now)).(stamps := s.stamps + [s.now])
  }

  function DoTakeOver(c: Config, s: State, w: nat, p: Phase, delivered: bool): State {
    if !p.TakingOver? then s
    else
      var (cell, ok) := CasCell(s.cell, p.stale.token, p.mine, s.now, c.ttl);
      var t := s.(cell := cell, history := if ok then s.history + [Write(p.mine.token, false, s.now)] else s.history);
      if !delivered then t
      else if ok then Settle(t, w, p.mine, p.found)
      else Enter(t, w, Rechecking(p.found, p.mine, s.now))
  }

  function DoRecheck(s: State, w: nat, p: Phase): State {
    if !p.Rechecking? then s
    else if ClaimedUnder(s.cell, p.mine.token) then Settle(s, w, p.mine, p.found)
    else Leave(s, w)
  }

  function DoAskOwn(s: State, w: nat, p: Phase): State {
    if p.AskingOwn? then Settle(s, w, p.mine, Lookup(s)) else s
  }

  function DoEffect(s: State, w: nat, p: Phase, r: string): State {
    if !p.Executing? || p.effect.Some? then s
    else Enter(s, w, p.(effect := Some(r))).(ledger := s.ledger + [r])
  }

  /** Execute returned a result, which it does only after its effect. */
  function DoSucceed(s: State, w: nat, p: Phase): State {
    if !p.Executing? || p.effect.None? then s
    else Enter(s, w, Settling(p.mine, Outcome(p.effect.value, Success, p.how), s.now))
  }

  /** Execute returned a definite error: the effect did not happen. */
  function DoFail(s: State, w: nat, p: Phase, message: string): State {
    if !p.Executing? || p.effect.Some? then s
    else Enter(s, w, Settling(p.mine, Outcome(message, Error, p.how), s.now))
  }

  function DoSettle(c: Config, s: State, w: nat, p: Phase, delivered: bool): State {
    if !p.Settling? then s
    else
      var (cell, _) := CasCell(s.cell, p.mine.token, ResolvedRecord(c, w, p.mine, p.out, p.since), s.now, c.ttl);
      var t := s.(cell := cell);
      if delivered then Enter(t, w, Returned(p.out)) else t
  }

  function DoGiveUp(s: State, w: nat, p: Phase): State {
    if p.Settling? then Enter(s, w, Returned(p.out)) else s
  }

  function DoWorker(c: Config, s: State, w: nat, p: Phase, l: Label): State {
    match l
    case Crash(_) => Leave(s, w)
    case ClaimAt(_, delivered) => DoClaim(c, s, w, p, delivered)
    case Check(_) => DoCheck(c, s, w, p)
    case Poll(_) => DoPoll(c, s, w, p)
    case Wake(_) => DoWake(c, s, w, p)
    case AskStale(_) => DoAskStale(s, w, p)
    case Issue(_) => DoIssue(c, s, w, p)
    case TakeOverAt(_, delivered) => DoTakeOver(c, s, w, p, delivered)
    case Recheck(_) => DoRecheck(s, w, p)
    case AskOwn(_) => DoAskOwn(s, w, p)
    case Effect(_, r) => DoEffect(s, w, p, r)
    case Succeed(_) => DoSucceed(s, w, p)
    case Fail(_, message) => DoFail(s, w, p, message)
    case SettleAt(_, delivered) => DoSettle(c, s, w, p, delivered)
    case GiveUp(_) => DoGiveUp(s, w, p)
    case _ => s
  }

  function DoExpire(s: State): State {
    if s.cell.Some? && s.now >= s.cell.value.expiresAt then s.(cell := None) else s
  }

  function DoStart(c: Config, s: State, w: nat): State {
    if w in s.workers then s
    else Enter(s, w, Claiming(NewRecord(c, s, w), s.now)).(stamps := s.stamps + [s.now])
  }

  function Do(c: Config, s: State, l: Label): State {
    if l.Tick? then s.(now := s.now + l.d)
    else if l.Expire? then DoExpire(s)
    else if l.Start? then DoStart(c, s, l.w)
    else if l.w in s.workers then DoWorker(c, s, l.w, s.workers[l.w], l)
    else s
  }

  function Run(c: Config, s: State, ls: seq<Label>): State
    decreases |ls|
  {
    if ls == [] then s else Run(c, Do(c, s, ls[0]), ls[1..])
  }

  lemma {:induction false} RunAppend(c: Config, s: State, a: seq<Label>, b: seq<Label>)
    ensures Run(c, s, a + b) == Run(c, Run(c, s, a), b)
    decreases |a|
  {
    if a == [] {
      assert a + b == b;
    } else {
      assert (a + b)[0] == a[0] && (a + b)[1..] == a[1..] + b;
      RunAppend(c, Do(c, s, a[0]), a[1..], b);
    }
  }

  // ------------------------------------------------------------------- timing

  /** How long a worker that is not frozen stays in a phase in which it holds, or may come to hold, the key. */
  function Allowance(c: Config, p: Phase): Option<int> {
    match p
    case Claiming(_, _) => Some(RETRY_BUDGET + c.lag)
    case Holding(_, _) => Some(c.lag)
    case TakingOver(_, _, _, _) => Some(RETRY_BUDGET + c.lag)
    case Rechecking(_, _, _) => Some(RETRY_BUDGET + c.lag)
    case AskingOwn(_, _) => Some(RETRY_BUDGET + c.lag)
    case Executing(_, _, _, _) => Some(c.toolTimeout + c.lag)
    case Settling(_, _, _) => Some(RETRY_BUDGET + c.lag)
    case _ => None
  }

  predicate OnTime(c: Config, s: State, w: nat) {
    w in s.workers && Allowance(c, s.workers[w]).Some? ==>
      s.now <= s.workers[w].since + Allowance(c, s.workers[w]).value
  }

  /** Entering a phase, and everything others do, leaves a worker within its allowance. */
  lemma StepOnTime(c: Config, s: State, l: Label, w: nat)
    requires OnTime(c, s, w) && !l.Tick?
    ensures OnTime(c, Do(c, s, l), w)
  {
  }

  /** Worker w is never frozen past an allowance anywhere along the schedule. */
  ghost predicate Prompt(c: Config, s: State, ls: seq<Label>, w: nat)
    decreases |ls|
  {
    OnTime(c, s, w) && (ls == [] || Prompt(c, Do(c, s, ls[0]), ls[1..], w))
  }

  lemma RunSnoc(c: Config, s: State, ls: seq<Label>, l: Label)
    ensures Run(c, s, ls + [l]) == Do(c, Run(c, s, ls), l)
  {
    RunAppend(c, s, ls, [l]);
    var t := Run(c, s, ls);
    assert Run(c, t, [l]) == Run(c, Do(c, t, l), [l][1..]);
  }

  lemma {:induction false} PromptAppend(c: Config, s: State, a: seq<Label>, b: seq<Label>, w: nat)
    ensures Prompt(c, s, a + b, w) <==> Prompt(c, s, a, w) && Prompt(c, Run(c, s, a), b, w)
    decreases |a|
  {
    if a == [] {
      assert a + b == b;
      if Prompt(c, s, b, w) { assert OnTime(c, s, w); }
    } else {
      assert (a + b)[0] == a[0] && (a + b)[1..] == a[1..] + b;
      PromptAppend(c, Do(c, s, a[0]), a[1..], b, w);
    }
  }

  lemma PromptSnoc(c: Config, s: State, ls: seq<Label>, l: Label, w: nat)
    requires Prompt(c, s, ls, w) && OnTime(c, Do(c, Run(c, s, ls), l), w)
    ensures Prompt(c, s, ls + [l], w)
  {
    PromptAppend(c, s, ls, [l], w);
    var t := Run(c, s, ls);
    PromptAppend(c, s, ls, [], w);
    assert ls + [] == ls;
    assert [l][1..] == [];
    assert Prompt(c, t, [], w);
    assert Prompt(c, Do(c, t, l), [], w);
  }

  ghost predicate AllPrompt(c: Config, s: State, ls: seq<Label>) {
    forall w: nat :: Prompt(c, s, ls, w)
  }

  /** A clock difference may use up the margin, less the part of the TTL that the script drops. */
  ghost predicate ClocksAgree(c: Config) {
    && (forall w | w in c.offset :: c.offset[w] <= c.skew)
    && c.invokedAt <= c.start + c.skew
    && c.skew <= EXPIRY_MARGIN - (c.ttl - WholeSeconds(c.ttl))
  }

  /** Room in the grace for the retries, the dawdling and the clocks, and in the TTL for the grace. */
  ghost predicate GraceCovers(c: Config) {
    && 3 * RETRY_BUDGET + 5 * c.lag + c.skew < c.staleGrace
    && c.toolTimeout + c.staleGrace + EXPIRY_MARGIN < c.ttl
  }
}
