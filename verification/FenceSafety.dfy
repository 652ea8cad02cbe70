/**
 Safety of the fence over every schedule: at most one effect per key, and every
 outcome a worker returns agrees with the outside world.
 */
module FenceSafety {
  import opened Wrappers
  import opened Events
  import opened Records
  import opened Fence

  // ---------------------------------------------------------------- invariant

  /** No worker that is not frozen uses a token for longer than this. */
  function Life(c: Config): int {
    3 * RETRY_BUDGET + c.toolTimeout + 5 * c.lag
  }

  /** The claim was drawn so long ago that whoever drew it can no longer act on it. */
  ghost predicate Dead(c: Config, s: State, token: nat) {
    token < |s.stamps| && s.now > s.stamps[token] + Life(c)
  }

  /** So late that an absent key proves nothing. */
  ghost predicate Late(c: Config, s: State) {
    s.history != [] && s.now >= s.history[0].at + WholeSeconds(c.ttl)
  }

  ghost predicate OwnRec(c: Config, s: State, rec: Rec) {
    && rec.token < |s.stamps| && s.stamps[rec.token] <= rec.claimedAt
    && rec.state == ClaimedState && rec.ident == c.ident
  }

  /** The ledger shows exactly what the outcome says. */
  predicate Agrees(ledger: seq<string>, status: ToolStatus, result: string) {
    ledger == if status == Success then [result] else []
  }

  ghost predicate ResolvedUnder(cell: Option<Cell>, token: nat, out: Outcome) {
    && cell.Some? && cell.value.value.Good?
    && cell.value.value.rec.state == ResolvedState && cell.value.value.rec.token == token
    && cell.value.value.rec.result == Some(out.result) && cell.value.value.rec.status == Some(out.status)
  }

  /** `found` is still what the outside world would answer, as long as the key is held under `token`. */
  ghost predicate AnswerStands(s: State, found: Option<string>, token: nat) {
    match found
    case Some(r) => s.ledger == [r]
    case None => ClaimedUnder(s.cell, token) ==> s.ledger == []
  }

  ghost predicate PhaseInv(c: Config, s: State, p: Phase) {
    match p
    case Claiming(mine, since) =>
      && OwnRec(c, s, mine) && since == s.stamps[mine.token]
      && (ClaimedUnder(s.cell, mine.token) ==> s.ledger == [] || Late(c, s))
    case Holding(mine, since) =>
      && OwnRec(c, s, mine) && since <= s.stamps[mine.token] + RETRY_BUDGET + c.lag
      && ClaimedUnder(s.cell, mine.token) && (s.ledger == [] || Late(c, s))
    case Waiting(cur) => OwnRec(c, s, cur)
    case AskingStale(stale) => Dead(c, s, stale.token)
    case Answered(stale, found) => Dead(c, s, stale.token) && AnswerStands(s, found, stale.token)
    case TakingOver(stale, found, mine, since) =>
      && Dead(c, s, stale.token) && AnswerStands(s, found, stale.token)
      && OwnRec(c, s, mine) && since == s.stamps[mine.token] && AnswerStands(s, found, mine.token)
    case Rechecking(found, mine, since) =>
      && OwnRec(c, s, mine) && since <= s.stamps[mine.token] + RETRY_BUDGET + c.lag
      && AnswerStands(s, found, mine.token)
    case AskingOwn(mine, since) =>
      && OwnRec(c, s, mine) && since <= s.stamps[mine.token] + RETRY_BUDGET + 2 * c.lag
      && ClaimedUnder(s.cell, mine.token)
    case Executing(mine, _, since, effect) =>
      && OwnRec(c, s, mine) && since <= s.stamps[mine.token] + 2 * RETRY_BUDGET + 3 * c.lag
      && ClaimedUnder(s.cell, mine.token)
      && s.ledger == (if effect.Some? then [effect.value] else [])
    case Settling(mine, out, since) =>
      && OwnRec(c, s, mine)
      && since <= s.stamps[mine.token] + 2 * RETRY_BUDGET + c.toolTimeout + 4 * c.lag
      && (ClaimedUnder(s.cell, mine.token) || ResolvedUnder(s.cell, mine.token, out))
      && Agrees(s.ledger, out.status, out.result)
    case Returned(out) => out.status == Success ==> s.ledger == [out.result]
  }

  ghost predicate CellInv(c: Config, s: State) {
    match s.cell
    case None => s.history != [] ==> Late(c, s)
    case Some(Cell(Corrupt, _)) => false
    case Some(Cell(Good(rec), expiresAt)) =>
      && s.history != []
      && rec.token < |s.stamps| && s.stamps[rec.token] <= rec.claimedAt && rec.ident == c.ident
      && s.stamps[rec.token] + WholeSeconds(c.ttl) <= expiresAt
      && s.history[0].at + WholeSeconds(c.ttl) <= expiresAt
      && (rec.state == ClaimedState
          || (rec.state == ResolvedState && rec.result.Some? && rec.status.Some?
              && Agrees(s.ledger, rec.status.value, rec.result.value)))
  }

  ghost predicate TokensDistinct(s: State) {
    && (forall w | w in s.workers && Mine(s.workers[w]).Some? :: Mine(s.workers[w]).value < |s.stamps|)
    && (forall w, v | w in s.workers && v in s.workers && w != v && Mine(s.workers[w]).Some? ::
          Mine(s.workers[w]) != Mine(s.workers[v]))
  }

  ghost predicate SharedInv(c: Config, s: State) {
    && c.start <= s.now
    && (forall i | 0 <= i < |s.stamps| :: s.stamps[i] <= s.now)
    && |s.ledger| <= 1
    && (s.history == [] ==> s.ledger == [] && s.cell == None)
    && (s.history != [] ==> c.start <= s.history[0].at <= s.now)
    && CellInv(c, s)
  }

  ghost predicate Inv(c: Config, s: State) {
    && SharedInv(c, s) && TokensDistinct(s)
    && forall w | w in s.workers :: PhaseInv(c, s, s.workers[w])
  }

  ghost predicate Timed(c: Config) {
    ClocksAgree(c) && GraceCovers(c)
  }

  // -------------------------------------------------------------- arithmetic

  lemma WholeSecondsBounds(ttl: nat)
    ensures ttl - SECOND < WholeSeconds(ttl) <= ttl
  {
  }

  /** A worker that is not frozen never uses a dead token. */
  lemma OnTimeIsAlive(c: Config, s: State, w: nat)
    requires w in s.workers && PhaseInv(c, s, s.workers[w]) && OnTime(c, s, w)
    ensures Mine(s.workers[w]).Some? ==> !Dead(c, s, Mine(s.workers[w]).value)
  {
  }

  /** Whoever a waiting worker finds stale is dead, whatever the clocks. */
  lemma StaleIsDead(c: Config, s: State, w: nat, rec: Rec)
    requires Timed(c) && IsStale(c, s, w, rec) && rec.token < |s.stamps| && s.stamps[rec.token] <= rec.claimedAt
    ensures Dead(c, s, rec.token)
  {
  }

  /** A key cannot expire under a token that is still alive. */
  lemma ExpiredIsDead(c: Config, s: State)
    requires Timed(c) && CellInv(c, s) && s.cell.Some? && s.now >= s.cell.value.expiresAt
    ensures Dead(c, s, s.cell.value.value.rec.token)
  {
    WholeSecondsBounds(c.ttl);
  }

  /** An acquired key whose age test passes was absent because nobody had ever held it. */
  lemma FreshIsNotLate(c: Config, s: State, w: nat)
    requires ClocksAgree(c)
    requires !KeyMayHaveExpired(c, s, w)
    requires s.history != [] ==> c.start <= s.history[0].at
    ensures !Late(c, s)
  {
    WholeSecondsBounds(c.ttl);
  }

  // ------------------------------------------------ what a step does to others

  /** The shared facts other workers' invariants depend on. */
  ghost predicate Undisturbed(c: Config, s: State, t: State, p: Phase) {
    && |s.stamps| <= |t.stamps| && s.stamps == t.stamps[..|s.stamps|]
    && s.now <= t.now
    && (Late(c, s) ==> Late(c, t))
    && t.ledger == s.ledger
    && (Mine(p).Some? ==> (ClaimedUnder(t.cell, Mine(p).value) <==> ClaimedUnder(s.cell, Mine(p).value)))
    && (p.Settling? ==> t.cell == s.cell)
    && (p.Answered? || p.TakingOver? ==> (ClaimedUnder(t.cell, p.stale.token) ==> ClaimedUnder(s.cell, p.stale.token)))
  }

  lemma UndisturbedKeeps(c: Config, s: State, t: State, p: Phase)
    requires PhaseInv(c, s, p) && Undisturbed(c, s, t, p)
    ensures PhaseInv(c, t, p)
  {
  }

  /** Phases in which the key is certainly held under the worker's own token. */
  predicate Holds(p: Phase) {
    p.Holding? || p.AskingOwn? || p.Executing? || p.Settling?
  }

  /**
   The cell moves from a dead token (or nothing) to `token`: every worker with
   a different token keeps its invariant, since none of them can be a holder.
   */
  lemma HandOverKeeps(c: Config, s: State, t: State, w: nat, token: nat)
    requires w in s.workers && PhaseInv(c, s, s.workers[w]) && OnTime(c, s, w)
    requires Mine(s.workers[w]) != Some(token) && token < |s.stamps| && !Dead(c, s, token)
    requires s.cell.Some? ==> s.cell.value.value.Good? && Dead(c, s, s.cell.value.value.rec.token)
    requires t.stamps == s.stamps && t.now == s.now && t.ledger == s.ledger
    requires Late(c, s) ==> Late(c, t)
    requires t.cell.Some? && t.cell.value.value.Good? && t.cell.value.value.rec.token == token
    ensures PhaseInv(c, t, s.workers[w])
  {
    OnTimeIsAlive(c, s, w);
    var p := s.workers[w];
    assert !Holds(p);
  }

  lemma ExpiryKeeps(c: Config, s: State, w: nat)
    requires Timed(c) && Inv(c, s) && w in s.workers && OnTime(c, s, w)
    requires s.cell.Some? && s.now >= s.cell.value.expiresAt
    ensures PhaseInv(c, s.(cell := None), s.workers[w])
  {
    ExpiredIsDead(c, s);
    OnTimeIsAlive(c, s, w);
  }

  /** Worker w appends to the ledger while it holds the key: nobody else relied on an empty ledger. */
  lemma EffectKeeps(c: Config, s: State, t: State, w: nat, v: nat)
    requires Inv(c, s) && w in s.workers && v in s.workers && v != w && OnTime(c, s, w)
    requires s.workers[w].Executing? && s.workers[w].effect.None?
    requires |t.ledger| == 1 && t == s.(ledger := t.ledger, workers := t.workers)
    ensures PhaseInv(c, t, s.workers[v])
  {
    OnTimeIsAlive(c, s, w);
    assert Mine(s.workers[w]) != Mine(s.workers[v]);
    assert PhaseInv(c, s, s.workers[v]);
  }

  /** Worker w resolves the key it holds: nobody else held it. */
  lemma ResolveKeeps(c: Config, s: State, t: State, w: nat, v: nat)
    requires Inv(c, s) && w in s.workers && v in s.workers && v != w
    requires s.workers[w].Settling? && ClaimedUnder(s.cell, s.workers[w].mine.token)
    requires t.cell.Some? && t.cell.value.value.Good? && t.cell.value.value.rec.state == ResolvedState
    requires t == s.(cell := t.cell, workers := t.workers)
    ensures PhaseInv(c, t, s.workers[v])
  {
    assert Mine(s.workers[w]) != Mine(s.workers[v]);
    assert PhaseInv(c, s, s.workers[v]);
  }

  // -------------------------------------------------------------- single steps

  lemma TickKeeps(c: Config, s: State, l: Label)
    requires Inv(c, s) && l.Tick?
    ensures Inv(c, Do(c, s, l))
  {
    var t := Do(c, s, l);
    forall w | w in t.workers ensures PhaseInv(c, t, t.workers[w]) {
      UndisturbedKeeps(c, s, t, s.workers[w]);
    }
  }

  lemma ExpireKeeps(c: Config, s: State, l: Label)
    requires Timed(c) && Inv(c, s) && (forall w | w in s.workers :: OnTime(c, s, w)) && l.Expire?
    ensures Inv(c, Do(c, s, l))
  {
    var t := Do(c, s, l);
    if t != s {
      forall w | w in t.workers ensures PhaseInv(c, t, t.workers[w]) {
        ExpiryKeeps(c, s, w);
      }
    }
  }

  /** Only worker w moves; it keeps its token, or gives it up. */
  lemma MoveKeeps(c: Config, s: State, w: nat, t: State)
    requires Inv(c, s) && w in s.workers
    requires t == s.(workers := t.workers, executed := t.executed)
    requires t.workers == s.workers - {w} || (w in t.workers && t.workers == s.workers[w := t.workers[w]]
               && PhaseInv(c, t, t.workers[w]) && Mine(t.workers[w]) in {None, Mine(s.workers[w])})
    ensures Inv(c, t)
  {
    forall v | v in t.workers ensures PhaseInv(c, t, t.workers[v]) {
      if v != w { UndisturbedKeeps(c, s, t, s.workers[v]); }
    }
  }

  /** Worker w draws a new token. */
  lemma DrawKeeps(c: Config, s: State, w: nat, t: State)
    requires Inv(c, s) && (w !in s.workers || s.workers[w].Answered?)
    requires w in t.workers && Mine(t.workers[w]) == Some(|s.stamps|)
    requires t == s.(workers := s.workers[w := t.workers[w]], stamps := s.stamps + [s.now])
    requires PhaseInv(c, t, t.workers[w])
    ensures Inv(c, t)
  {
    forall v | v in t.workers ensures PhaseInv(c, t, t.workers[v]) {
      if v != w { UndisturbedKeeps(c, s, t, s.workers[v]); }
    }
  }

  lemma MeetKeeps(c: Config, s: State, w: nat, rec: Rec)
    requires Inv(c, s) && w in s.workers
    requires s.cell.Some? && s.cell.value.value == Good(rec)
    ensures Inv(c, Meet(c, s, w, rec))
  {
    MoveKeeps(c, s, w, Meet(c, s, w, rec));
  }

  lemma SettleKeeps(c: Config, s: State, w: nat, mine: Rec, found: Option<string>)
    requires Inv(c, s) && w in s.workers && OnTime(c, s, w)
    requires (s.workers[w].Rechecking? && s.workers[w].mine == mine) || (s.workers[w].AskingOwn? && s.workers[w].mine == mine)
          || (s.workers[w].TakingOver? && s.workers[w].mine == mine && s.workers[w].found == found)
    requires ClaimedUnder(s.cell, mine.token)
    requires found.Some? ==> s.ledger == [found.value]
    requires found.None? ==> s.ledger == []
    ensures Inv(c, Settle(s, w, mine, found))
  {
    MoveKeeps(c, s, w, Settle(s, w, mine, found));
  }

  /** The key passes to `token` of worker w; nothing else moves. */
  lemma WriteKeeps(c: Config, s: State, w: nat, t: State, mine: Rec, ttl: nat, claimed: bool)
    requires Timed(c) && Inv(c, s) && (forall v | v in s.workers :: OnTime(c, s, v))
    requires w in s.workers && Mine(s.workers[w]) == Some(mine.token) && OwnRec(c, s, mine)
    requires WholeSeconds(c.ttl) <= ttl
    requires s.cell.Some? ==> s.cell.value.value.Good? && Dead(c, s, s.cell.value.value.rec.token)
    requires t == s.(cell := Some(Cell(Good(mine), s.now + ttl)), history := s.history + [Write(mine.token, claimed, s.now)])
    requires PhaseInv(c, t, s.workers[w])
    ensures Inv(c, t)
  {
    OnTimeIsAlive(c, s, w);
    forall v | v in t.workers ensures PhaseInv(c, t, t.workers[v]) {
      if v != w { HandOverKeeps(c, s, t, v, mine.token); }
    }
    assert s.cell.Some? ==> s.history != [];
  }

  lemma ClaimKeeps(c: Config, s: State, w: nat, delivered: bool)
    requires Timed(c) && Inv(c, s) && (forall v | v in s.workers :: OnTime(c, s, v))
    requires w in s.workers && s.workers[w].Claiming?
    ensures Inv(c, DoClaim(c, s, w, s.workers[w], delivered))
  {
    var mine := s.workers[w].mine;
    if s.cell.None? {
      var t := DoClaim(c, s, w, s.workers[w], false);
      WholeSecondsBounds(c.ttl);
      WriteKeeps(c, s, w, t, mine, c.ttl, true);
      if delivered {
        MoveKeeps(c, t, w, DoClaim(c, s, w, s.workers[w], true));
      }
    } else if delivered {
      var rec := s.cell.value.value.rec;
      if rec.state == ClaimedState && rec.token == mine.token {
        MoveKeeps(c, s, w, DoClaim(c, s, w, s.workers[w], delivered));
      } else {
        MeetKeeps(c, s, w, rec);
      }
    }
  }

  lemma TakeOverKeeps(c: Config, s: State, w: nat, delivered: bool)
    requires Timed(c) && Inv(c, s) && (forall v | v in s.workers :: OnTime(c, s, v))
    requires w in s.workers && s.workers[w].TakingOver?
    ensures Inv(c, DoTakeOver(c, s, w, s.workers[w], delivered))
  {
    var p := s.workers[w];
    if ClaimedUnder(s.cell, p.stale.token) {
      var t := DoTakeOver(c, s, w, p, false);
      WriteKeeps(c, s, w, t, p.mine, WholeSeconds(c.ttl), false);
      if delivered {
        SettleKeeps(c, t, w, p.mine, p.found);
      }
    } else if delivered {
      MoveKeeps(c, s, w, DoTakeOver(c, s, w, p, delivered));
    }
  }

  lemma EffectStepKeeps(c: Config, s: State, w: nat, r: string)
    requires Inv(c, s) && w in s.workers && OnTime(c, s, w)
    requires s.workers[w].Executing? && s.workers[w].effect.None?
    ensures Inv(c, DoEffect(s, w, s.workers[w], r))
  {
    var t := DoEffect(s, w, s.workers[w], r);
    forall v | v in t.workers ensures PhaseInv(c, t, t.workers[v]) {
      if v != w { EffectKeeps(c, s, t, w, v); }
    }
  }

  lemma SettleStepKeeps(c: Config, s: State, w: nat, delivered: bool)
    requires Inv(c, s) && w in s.workers && s.workers[w].Settling?
    ensures Inv(c, DoSettle(c, s, w, s.workers[w], delivered))
  {
    var p := s.workers[w];
    var t := DoSettle(c, s, w, p, false);
    if ClaimedUnder(s.cell, p.mine.token) {
      forall v | v in t.workers ensures PhaseInv(c, t, t.workers[v]) {
        if v != w { ResolveKeeps(c, s, t, w, v); }
      }
      assert s.stamps[p.mine.token] <= s.now;
      assert Inv(c, t);
    } else {
      assert t == s;
    }
    if delivered {
      MoveKeeps(c, t, w, DoSettle(c, s, w, p, delivered));
    }
  }

  lemma CheckKeeps(c: Config, s: State, w: nat)
    requires Timed(c) && Inv(c, s) && w in s.workers && s.workers[w].Holding? && OnTime(c, s, w)
    ensures Inv(c, DoCheck(c, s, w, s.workers[w]))
  {
    if !KeyMayHaveExpired(c, s, w) {
      FreshIsNotLate(c, s, w);
    }
    MoveKeeps(c, s, w, DoCheck(c, s, w, s.workers[w]));
  }

  /** The moves that only a worker's own phase decides. */
  lemma OwnMoveKeeps(c: Config, s: State, w: nat, l: Label)
    requires Inv(c, s) && w in s.workers && OnTime(c, s, w)
    requires l.Crash? || l.AskStale? || l.Succeed? || l.Fail? || l.GiveUp?
    ensures Inv(c, DoWorker(c, s, w, s.workers[w], l))
  {
    var t := DoWorker(c, s, w, s.workers[w], l);
    assert PhaseInv(c, s, s.workers[w]);
    if t != s { MoveKeeps(c, s, w, t); }
  }

  lemma AskKeeps(c: Config, s: State, w: nat, l: Label)
    requires Timed(c) && Inv(c, s) && w in s.workers && OnTime(c, s, w)
    requires l.Wake? || l.Poll? || l.Issue? || l.Recheck? || l.AskOwn?
    ensures Inv(c, DoWorker(c, s, w, s.workers[w], l))
  {
    var p := s.workers[w];
    assert PhaseInv(c, s, p);
    if l.Wake? && p.Waiting? && IsStale(c, s, w, p.cur) {
      StaleIsDead(c, s, w, p.cur);
      MoveKeeps(c, s, w, DoWake(c, s, w, p));
    } else if l.Poll? && p.Waiting? {
      if s.cell.Some? { MeetKeeps(c, s, w, s.cell.value.value.rec); } else { MoveKeeps(c, s, w, Leave(s, w)); }
    } else if l.Issue? && p.Answered? {
      DrawKeeps(c, s, w, DoIssue(c, s, w, p));
    } else if l.Recheck? && p.Rechecking? {
      if ClaimedUnder(s.cell, p.mine.token) { SettleKeeps(c, s, w, p.mine, p.found); } else { MoveKeeps(c, s, w, Leave(s, w)); }
    } else if l.AskOwn? && p.AskingOwn? {
      SettleKeeps(c, s, w, p.mine, Lookup(s));
    }
  }

  lemma WorkerKeeps(c: Config, s: State, w: nat, l: Label)
    requires Timed(c) && Inv(c, s) && (forall v | v in s.workers :: OnTime(c, s, v))
    requires w in s.workers
    ensures Inv(c, DoWorker(c, s, w, s.workers[w], l))
  {
    var p := s.workers[w];
    match l
    case ClaimAt(_, delivered) => if p.Claiming? { ClaimKeeps(c, s, w, delivered); }
    case Check(_) => if p.Holding? { CheckKeeps(c, s, w); }
    case TakeOverAt(_, delivered) => if p.TakingOver? { TakeOverKeeps(c, s, w, delivered); }
    case Effect(_, r) => if p.Executing? && p.effect.None? { EffectStepKeeps(c, s, w, r); }
    case SettleAt(_, delivered) => if p.Settling? { SettleStepKeeps(c, s, w, delivered); }
    case Tick(_) =>
    case Expire =>
    case Start(_) =>
    case _ =>
      if l.Crash? || l.AskStale? || l.Succeed? || l.Fail? || l.GiveUp? {
        OwnMoveKeeps(c, s, w, l);
      } else {
        AskKeeps(c, s, w, l);
      }
  }

  lemma StartKeeps(c: Config, s: State, l: Label)
    requires Inv(c, s) && l.Start?
    ensures Inv(c, Do(c, s, l))
  {
    if l.w !in s.workers { DrawKeeps(c, s, l.w, Do(c, s, l)); }
  }

  lemma WorkerStepKeeps(c: Config, s: State, l: Label)
    requires Timed(c) && Inv(c, s) && (forall v | v in s.workers :: OnTime(c, s, v))
    requires !l.Tick? && !l.Expire? && !l.Start?
    ensures Inv(c, Do(c, s, l))
  {
    if l.w in s.workers {
      WorkerKeeps(c, s, l.w, l);
      assert Do(c, s, l) == DoWorker(c, s, l.w, s.workers[l.w], l);
    }
  }

  lemma StepKeeps(c: Config, s: State, l: Label)
    requires Timed(c) && Inv(c, s) && (forall v | v in s.workers :: OnTime(c, s, v))
    ensures Inv(c, Do(c, s, l))
  {
    if l.Tick? {
      TickKeeps(c, s, l);
    } else if l.Expire? {
      ExpireKeeps(c, s, l);
    } else if l.Start? {
      StartKeeps(c, s, l);
    } else {
      WorkerStepKeeps(c, s, l);
    }
  }

  lemma {:induction false} ScheduleKeeps(c: Config, s: State, ls: seq<Label>)
    requires Timed(c) && Inv(c, s) && AllPrompt(c, s, ls)
    ensures Inv(c, Run(c, s, ls))
    decreases |ls|
  {
    if ls != [] {
      forall v | v in s.workers ensures OnTime(c, s, v) {
        assert Prompt(c, s, ls, v);
      }
      StepKeeps(c, s, ls[0]);
      forall w: nat ensures Prompt(c, Do(c, s, ls[0]), ls[1..], w) {
        assert Prompt(c, s, ls, w);
      }
      ScheduleKeeps(c, Do(c, s, ls[0]), ls[1..]);
    }
  }

  // ------------------------------------------------------------ main theorems

  lemma ReachableInv(c: Config, ls: seq<Label>)
    requires Timed(c) && AllPrompt(c, Init(c), ls)
    ensures Inv(c, Run(c, Init(c), ls))
  {
    ScheduleKeeps(c, Init(c), ls);
  }

  /**
   Whatever the interleaving of claims, takeovers, lost replies, expiries,
   crashes and restarts, the outside world never sees a second effect.
   */
  lemma AtMostOneEffect(c: Config, ls: seq<Label>)
    requires Timed(c) && AllPrompt(c, Init(c), ls)
    ensures |Run(c, Init(c), ls).ledger| <= 1
  {
    ReachableInv(c, ls);
  }

  predicate RecordAgrees(ledger: seq<string>, rec: Rec) {
    rec.state == ResolvedState ==>
      rec.result.Some? && rec.status.Some? && Agrees(ledger, rec.status.value, rec.result.value)
  }

  /** A worker about to return an outcome returns what the outside world holds at that moment. */
  lemma OutcomeAgrees(c: Config, ls: seq<Label>, w: nat)
    requires Timed(c) && AllPrompt(c, Init(c), ls)
    ensures var s := Run(c, Init(c), ls);
            && (w in s.workers && s.workers[w].Settling? ==>
                  Agrees(s.ledger, s.workers[w].out.status, s.workers[w].out.result))
            && (w in s.workers && s.workers[w].Returned? && s.workers[w].out.status == Success ==>
                  s.ledger == [s.workers[w].out.result])
            && (s.cell.Some? ==> s.cell.value.value.Good? && RecordAgrees(s.ledger, s.cell.value.value.rec))
  {
    ReachableInv(c, ls);
    var s := Run(c, Init(c), ls);
    if w in s.workers { assert PhaseInv(c, s, s.workers[w]); }
  }

  /**
   "Not applied" is still true when the takeover lands: as long as the key
   still carries the stale token, or already carries the taker's own one, whose
   reply was lost, nobody executed in between.
   */
  lemma NotAppliedStillTrue(c: Config, ls: seq<Label>, w: nat)
    requires Timed(c) && AllPrompt(c, Init(c), ls)
    requires var s := Run(c, Init(c), ls); w in s.workers && (s.workers[w].TakingOver? || s.workers[w].Rechecking?) && s.workers[w].found.None?
    ensures var s := Run(c, Init(c), ls);
            && (ClaimedUnder(s.cell, s.workers[w].mine.token) ==> s.ledger == [])
            && (s.workers[w].TakingOver? && ClaimedUnder(s.cell, s.workers[w].stale.token) ==> s.ledger == [])
  {
    ReachableInv(c, ls);
    assert PhaseInv(c, Run(c, Init(c), ls), Run(c, Init(c), ls).workers[w]);
  }

  /**
   While a worker executes, its claim is at most two retry budgets plus the
   tool timeout old, it still holds the key, the key cannot expire, and no
   other worker can call the claim stale or be executing too.
   */
  lemma ExecutionWindow(c: Config, ls: seq<Label>, w: nat)
    requires Timed(c) && AllPrompt(c, Init(c), ls)
    requires var s := Run(c, Init(c), ls); w in s.workers && s.workers[w].Executing?
    ensures var s := Run(c, Init(c), ls);
            var mine := s.workers[w].mine;
            && mine.token < |s.stamps| && s.now <= s.stamps[mine.token] + 2 * RETRY_BUDGET + c.toolTimeout + 4 * c.lag
            && ClaimedUnder(s.cell, mine.token) && s.now < s.cell.value.expiresAt
            && (forall v: nat :: !IsStale(c, s, v, mine))
            && (forall v | v in s.workers && s.workers[v].Executing? :: v == w)
  {
    ReachableInv(c, ls);
    var s := Run(c, Init(c), ls);
    assert PhaseInv(c, s, s.workers[w]);
    PromptAtEnd(c, Init(c), ls, w);
    OnTimeIsAlive(c, s, w);
    if s.now >= s.cell.value.expiresAt { ExpiredIsDead(c, s); }
    forall v: nat ensures !IsStale(c, s, v, s.workers[w].mine) {
      if IsStale(c, s, v, s.workers[w].mine) { StaleIsDead(c, s, v, s.workers[w].mine); }
    }
    forall v | v in s.workers && s.workers[v].Executing? ensures v == w {
      assert PhaseInv(c, s, s.workers[v]);
      assert ClaimedUnder(s.cell, s.workers[v].mine.token);
    }
  }

  lemma {:induction false} PromptAtEnd(c: Config, s: State, ls: seq<Label>, w: nat)
    requires AllPrompt(c, s, ls)
    ensures OnTime(c, Run(c, s, ls), w)
    decreases |ls|
  {
    assert Prompt(c, s, ls, w);
    if ls != [] {
      forall v: nat ensures Prompt(c, Do(c, s, ls[0]), ls[1..], v) {
        assert Prompt(c, s, ls, v);
      }
      PromptAtEnd(c, Do(c, s, ls[0]), ls[1..], w);
    }
  }
}
