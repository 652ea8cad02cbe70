/**
 What the fence guarantees on every schedule, with no assumption that workers
 keep moving: a frozen worker may wake up at any time.
 */
module FenceAnyTiming {
  import opened Wrappers
  import opened Events
  import opened Records
  import opened Fence
  import opened FenceSafety

  ghost predicate WrittenByClaim(s: State, token: nat) {
    exists i :: 0 <= i < |s.history| && s.history[i].token == token && s.history[i].claimed
  }

  /** Phases from which Execute has not been called under the worker's token yet. */
  predicate BeforeExecute(p: Phase) {
    p.Claiming? || p.Holding? || p.AskingOwn? || p.TakingOver? || p.Rechecking?
  }

  predicate NeedsReconcile(p: Phase) {
    p.AskingOwn? || p.AskingStale? || p.Answered? || p.TakingOver? || p.Rechecking?
  }

  ghost predicate PhaseOk(c: Config, s: State, p: Phase) {
    && (p.Holding? ==> WrittenByClaim(s, p.mine.token))
    && (p.Claiming? ==> forall i | 0 <= i < |s.history| && s.history[i].token == p.mine.token :: s.history[i].claimed)
    && (BeforeExecute(p) ==> p.mine.token !in s.executed)
    && (!c.reconcilable ==> !NeedsReconcile(p))
  }

  ghost predicate HistoryOk(c: Config, s: State) {
    && (forall i | 0 <= i < |s.history| :: s.history[i].token < |s.stamps|)
    && (s.history != [] ==> c.start <= s.history[0].at <= s.now)
    && (forall i | 0 < i < |s.history| && s.history[i].claimed :: Late(c, s))
    && (!c.reconcilable ==> forall i | 0 <= i < |s.history| :: s.history[i].claimed)
  }

  ghost predicate CellOk(c: Config, s: State) {
    match s.cell
    case None => s.history != [] ==> Late(c, s)
    case Some(Cell(value, expiresAt)) =>
      && s.history != [] && s.history[0].at + WholeSeconds(c.ttl) <= expiresAt
      && (value.Good? && value.rec.state == ClaimedState ==>
            s.history[|s.history| - 1].token == value.rec.token)
  }

  ghost predicate ExecutedOk(c: Config, s: State) {
    && (forall t | t in s.executed :: t < |s.stamps|)
    && (forall i, j | 0 <= i < j < |s.executed| :: s.executed[i] != s.executed[j])
    && (!c.reconcilable ==> s.executed == [] || (s.history != [] && s.executed == [s.history[0].token]))
  }

  ghost predicate Ok(c: Config, s: State) {
    && c.start <= s.now && TokensDistinct(s) && HistoryOk(c, s) && CellOk(c, s) && ExecutedOk(c, s)
    && forall w | w in s.workers :: PhaseOk(c, s, s.workers[w])
  }

  /** A claim acquired over an absent key whose age test passes is the first ever made. */
  lemma FreshClaimIsFirst(c: Config, s: State, w: nat, token: nat)
    requires ClocksAgree(c) && HistoryOk(c, s) && WrittenByClaim(s, token) && !KeyMayHaveExpired(c, s, w)
    ensures s.history[0].token == token
  {
    FreshIsNotLate(c, s, w);
  }

  /** Nothing shared changes but worker w's place, and perhaps the clock. */
  lemma PlaceKeeps(c: Config, s: State, w: nat, t: State)
    requires Ok(c, s) && w in s.workers
    requires t == s.(workers := t.workers)
    requires t.workers == s.workers - {w} || (w in t.workers && t.workers == s.workers[w := t.workers[w]]
               && PhaseOk(c, t, t.workers[w]) && Mine(t.workers[w]) in {None, Mine(s.workers[w])})
    ensures Ok(c, t)
  {
    forall v | v in t.workers ensures PhaseOk(c, t, t.workers[v]) {
      if v != w { assert PhaseOk(c, s, s.workers[v]); }
    }
  }

  lemma ExecuteKeeps(c: Config, s: State, w: nat, mine: Rec, how: Resolution)
    requires Ok(c, s) && w in s.workers && BeforeExecute(s.workers[w]) && s.workers[w].mine == mine
    requires !c.reconcilable ==> s.history != [] && s.history[0].token == mine.token
    ensures Ok(c, BeginExecute(s, w, mine, how))
  {
    var t := BeginExecute(s, w, mine, how);
    assert PhaseOk(c, s, s.workers[w]);
    assert Mine(s.workers[w]) == Some(mine.token);
    forall v | v in t.workers ensures PhaseOk(c, t, t.workers[v]) {
      if v != w {
        assert PhaseOk(c, s, s.workers[v]);
        assert Mine(s.workers[v]) != Some(mine.token);
      }
    }
  }

  lemma SettleOk(c: Config, s: State, w: nat, found: Option<string>)
    requires Ok(c, s) && w in s.workers && NeedsReconcile(s.workers[w]) && BeforeExecute(s.workers[w])
    ensures Ok(c, Settle(s, w, s.workers[w].mine, found))
  {
    assert PhaseOk(c, s, s.workers[w]);
    match found
    case Some(r) => PlaceKeeps(c, s, w, Settle(s, w, s.workers[w].mine, found));
    case None => ExecuteKeeps(c, s, w, s.workers[w].mine, Reexecuted);
  }

  /** Worker w writes its own record to the key. */
  lemma WriteOk(c: Config, s: State, w: nat, t: State, ttl: nat, claimed: bool)
    requires Ok(c, s) && w in s.workers && WholeSeconds(c.ttl) <= ttl
    requires if claimed then s.workers[w].Claiming? && s.cell.None? else s.workers[w].TakingOver? && s.history != []
    requires var mine := s.workers[w].mine;
             t == s.(cell := Some(Cell(Good(mine), s.now + ttl)), history := s.history + [Write(mine.token, claimed, s.now)])
    ensures Ok(c, t)
  {
    var mine := s.workers[w].mine;
    assert PhaseOk(c, s, s.workers[w]);
    assert t.history[|s.history|].token == mine.token;
    forall v | v in t.workers ensures PhaseOk(c, t, t.workers[v]) {
      assert PhaseOk(c, s, s.workers[v]);
      if s.workers[v].Holding? {
        var i :| 0 <= i < |s.history| && s.history[i].token == s.workers[v].mine.token && s.history[i].claimed;
        assert t.history[i] == s.history[i];
      }
      if v != w && s.workers[v].Claiming? {
        assert Mine(s.workers[v]) != Mine(s.workers[w]);
      }
    }
  }

  lemma ClaimOk(c: Config, s: State, w: nat, l: Label)
    requires Ok(c, s) && l.ClaimAt? && l.w == w && w in s.workers && s.workers[w].Claiming?
    ensures Ok(c, DoClaim(c, s, w, s.workers[w], l.delivered))
  {
    var p := s.workers[w];
    assert PhaseOk(c, s, p);
    var t := DoClaim(c, s, w, p, false);
    if s.cell.None? {
      WholeSecondsBounds(c.ttl);
      WriteOk(c, s, w, t, c.ttl, true);
      assert t.history[|s.history|].token == p.mine.token;
      assert WrittenByClaim(t, p.mine.token);
    }
    if l.delivered {
      if ClaimedUnder(t.cell, p.mine.token) {
        assert PhaseOk(c, t, t.workers[w]);
        var i :| 0 <= i < |t.history| && t.history[i].token == p.mine.token;
        assert WrittenByClaim(t, p.mine.token);
      }
      PlaceKeeps(c, t, w, DoClaim(c, s, w, p, true));
    }
  }

  lemma TakeOverOk(c: Config, s: State, w: nat, l: Label)
    requires Ok(c, s) && l.TakeOverAt? && l.w == w && w in s.workers && s.workers[w].TakingOver?
    ensures Ok(c, DoTakeOver(c, s, w, s.workers[w], l.delivered))
  {
    var p := s.workers[w];
    assert PhaseOk(c, s, p);
    var t := DoTakeOver(c, s, w, p, false);
    if ClaimedUnder(s.cell, p.stale.token) {
      WriteOk(c, s, w, t, WholeSeconds(c.ttl), false);
      if l.delivered { SettleOk(c, t, w, p.found); }
    } else if l.delivered {
      PlaceKeeps(c, s, w, DoTakeOver(c, s, w, p, true));
    }
  }

  lemma CheckOk(c: Config, s: State, w: nat)
    requires ClocksAgree(c) && Ok(c, s) && w in s.workers && s.workers[w].Holding?
    ensures Ok(c, DoCheck(c, s, w, s.workers[w]))
  {
    var p := s.workers[w];
    assert PhaseOk(c, s, p);
    if !KeyMayHaveExpired(c, s, w) {
      FreshClaimIsFirst(c, s, w, p.mine.token);
      ExecuteKeeps(c, s, w, p.mine, Executed);
    } else {
      PlaceKeeps(c, s, w, DoCheck(c, s, w, p));
    }
  }

  /** A token is drawn. */
  lemma DrawOk(c: Config, s: State, w: nat, t: State)
    requires Ok(c, s) && (w !in s.workers || s.workers[w].Answered?)
    requires w in t.workers && Mine(t.workers[w]) == Some(|s.stamps|)
    requires t == s.(workers := s.workers[w := t.workers[w]], stamps := s.stamps + [s.now])
    requires t.workers[w].Claiming? || (t.workers[w].TakingOver? && c.reconcilable)
    ensures Ok(c, t)
  {
    forall v | v in t.workers ensures PhaseOk(c, t, t.workers[v]) {
      if v != w { assert PhaseOk(c, s, s.workers[v]); }
    }
  }

  /** Labels that write nothing but the ledger and the worker's own place, or resolve the key. */
  lemma OtherOk(c: Config, s: State, w: nat, l: Label)
    requires Ok(c, s) && w in s.workers
    requires l.Crash? || l.Poll? || l.Wake? || l.AskStale? || l.Succeed? || l.Fail? || l.GiveUp?
    ensures Ok(c, DoWorker(c, s, w, s.workers[w], l))
  {
    assert PhaseOk(c, s, s.workers[w]);
    var t := DoWorker(c, s, w, s.workers[w], l);
    if t != s { PlaceKeeps(c, s, w, t); }
  }

  lemma EffectOk(c: Config, s: State, w: nat, r: string)
    requires Ok(c, s) && w in s.workers
    ensures Ok(c, DoEffect(s, w, s.workers[w], r))
  {
    var t := DoEffect(s, w, s.workers[w], r);
    forall v | v in t.workers ensures PhaseOk(c, t, t.workers[v]) {
      assert PhaseOk(c, s, s.workers[v]);
    }
  }

  lemma SettleAtOk(c: Config, s: State, w: nat, delivered: bool)
    requires Ok(c, s) && w in s.workers
    ensures Ok(c, DoSettle(c, s, w, s.workers[w], delivered))
  {
    var t := DoSettle(c, s, w, s.workers[w], delivered);
    forall v | v in t.workers ensures PhaseOk(c, t, t.workers[v]) {
      assert PhaseOk(c, s, s.workers[v]);
    }
  }

  lemma AskOk(c: Config, s: State, w: nat, l: Label)
    requires Ok(c, s) && w in s.workers && (l.Issue? || l.Recheck? || l.AskOwn?)
    ensures Ok(c, DoWorker(c, s, w, s.workers[w], l))
  {
    var p := s.workers[w];
    assert PhaseOk(c, s, p);
    if l.Issue? && p.Answered? {
      DrawOk(c, s, w, DoIssue(c, s, w, p));
    } else if l.Recheck? && p.Rechecking? {
      if ClaimedUnder(s.cell, p.mine.token) { SettleOk(c, s, w, p.found); } else { PlaceKeeps(c, s, w, Leave(s, w)); }
    } else if l.AskOwn? && p.AskingOwn? {
      SettleOk(c, s, w, Lookup(s));
    }
  }

  lemma WorkerOk(c: Config, s: State, w: nat, l: Label)
    requires ClocksAgree(c) && Ok(c, s) && w in s.workers
    requires !l.Tick? && !l.Expire? && !l.Start? && l.w == w
    ensures Ok(c, DoWorker(c, s, w, s.workers[w], l))
  {
    var p := s.workers[w];
    if l.ClaimAt? {
      if p.Claiming? { ClaimOk(c, s, w, l); }
    } else if l.TakeOverAt? {
      if p.TakingOver? { TakeOverOk(c, s, w, l); }
    } else if l.Check? {
      if p.Holding? { CheckOk(c, s, w); }
    } else if l.Effect? {
      EffectOk(c, s, w, l.result);
    } else if l.SettleAt? {
      SettleAtOk(c, s, w, l.delivered);
    } else if l.Issue? || l.Recheck? || l.AskOwn? {
      AskOk(c, s, w, l);
    } else {
      OtherOk(c, s, w, l);
    }
  }

  lemma TimeOk(c: Config, s: State, l: Label)
    requires Ok(c, s) && (l.Tick? || l.Expire?)
    ensures Ok(c, Do(c, s, l))
  {
    var t := Do(c, s, l);
    forall v | v in t.workers ensures PhaseOk(c, t, t.workers[v]) {
      assert PhaseOk(c, s, s.workers[v]);
    }
  }

  lemma StepOk(c: Config, s: State, l: Label)
    requires ClocksAgree(c) && Ok(c, s)
    ensures Ok(c, Do(c, s, l))
  {
    if l.Tick? || l.Expire? {
      TimeOk(c, s, l);
    } else if l.Start? {
      if l.w !in s.workers { DrawOk(c, s, l.w, Do(c, s, l)); }
    } else if l.w in s.workers {
      WorkerOk(c, s, l.w, l);
    }
  }

  lemma {:induction false} ScheduleOk(c: Config, s: State, ls: seq<Label>)
    requires ClocksAgree(c) && Ok(c, s)
    ensures Ok(c, Run(c, s, ls))
    decreases |ls|
  {
    if ls != [] {
      StepOk(c, s, ls[0]);
      ScheduleOk(c, Do(c, s, ls[0]), ls[1..]);
    }
  }

  // ------------------------------------------------------------ main theorems

  /** No claim token is ever executed under twice, frozen workers or not. */
  lemma OncePerToken(c: Config, ls: seq<Label>)
    requires ClocksAgree(c)
    ensures var s := Run(c, Init(c), ls);
            forall i, j | 0 <= i < j < |s.executed| :: s.executed[i] != s.executed[j]
  {
    ScheduleOk(c, Init(c), ls);
  }

  /**
   A tool that cannot be reconciled has Execute called at most once per key,
   over all workers, crashes and resumes, even if workers freeze and wake up.
   */
  lemma UnreconcilableOnce(c: Config, ls: seq<Label>)
    requires ClocksAgree(c) && !c.reconcilable
    ensures |Run(c, Init(c), ls).executed| <= 1
  {
    ScheduleOk(c, Init(c), ls);
  }

  /**
   If a claim was acquired and the age test says the key cannot have expired,
   then that claim is the first the key ever carried.
   */
  lemma AbsentKeySound(c: Config, ls: seq<Label>, w: nat)
    requires ClocksAgree(c)
    requires var s := Run(c, Init(c), ls); w in s.workers && s.workers[w].Holding? && !KeyMayHaveExpired(c, s, w)
    ensures var s := Run(c, Init(c), ls);
            s.history != [] && s.history[0].token == s.workers[w].mine.token
  {
    ScheduleOk(c, Init(c), ls);
    var s := Run(c, Init(c), ls);
    assert PhaseOk(c, s, s.workers[w]);
    FreshClaimIsFirst(c, s, w, s.workers[w].mine.token);
  }
}
