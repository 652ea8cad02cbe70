/**
 What becomes of an outcome after Guard.Run has returned it, whatever other
 workers do on the key from then on.
 */
module FenceAfter {
  import opened Wrappers
  import opened Events
  import opened Records
  import opened Fence
  import opened FenceHonest
  import opened FenceReturn
  import opened FenceSafety
  import FenceAnyTiming

  // ------------------------------------------------------- a success survives

  lemma LedgerStep(c: Config, s: State, l: Label)
    ensures s.ledger <= Do(c, s, l).ledger
  {
  }

  /** Nothing is ever taken back from the outside world. */
  lemma {:induction false} LedgerGrows(c: Config, s: State, ls: seq<Label>)
    ensures s.ledger <= Run(c, s, ls).ledger
    decreases |ls|
  {
    if ls != [] {
      LedgerStep(c, s, ls[0]);
      LedgerGrows(c, Do(c, s, ls[0]), ls[1..]);
    }
  }

  /** A success that was returned stays the one effect under its key, on every further schedule. */
  lemma SuccessSurvives(c: Config, ls: seq<Label>, w: nat, out: Outcome, more: seq<Label>)
    requires Timed(c) && AllPrompt(c, Init(c), ls + more) && JustReturned(c, ls, w, out) && out.status == Success
    ensures Run(c, Init(c), ls + more).ledger == [out.result]
  {
    AllPromptPrefix(c, Init(c), ls, more);
    ReturnAgrees(c, ls, w, out);
    RunAppend(c, Init(c), ls, more);
    LedgerGrows(c, Run(c, Init(c), ls), more);
    AtMostOneEffect(c, ls + more);
  }

  // ----------------------------------------------- an error that was recorded

  predicate IsResolved(cell: Option<Cell>) {
    cell.Some? && cell.value.value.Good? && cell.value.value.rec.state == ResolvedState
  }

  predicate Unexpired(ls: seq<Label>) {
    forall i | 0 <= i < |ls| :: !ls[i].Expire?
  }

  lemma RestUnexpired(ls: seq<Label>)
    requires ls != [] && Unexpired(ls)
    ensures !ls[0].Expire? && Unexpired(ls[1..])
  {
    assert forall i | 0 <= i < |ls[1..]| :: ls[1..][i] == ls[i + 1];
  }

  lemma ResolvedStep(c: Config, s: State, l: Label)
    requires Timed(c) && Inv(c, s) && Honest(c, s) && (forall v | v in s.workers :: OnTime(c, s, v))
    requires IsResolved(s.cell) && s.ledger == [] && !l.Expire?
    ensures var t := Do(c, s, l); Inv(c, t) && Honest(c, t) && t.cell == s.cell && t.ledger == []
  {
    StepKeeps(c, s, l);
    StepHonest(c, s, l);
    WorkersMoveForward(c, s, l);
  }

  lemma PromptRest(c: Config, s: State, ls: seq<Label>)
    requires AllPrompt(c, s, ls)
    ensures forall v | v in s.workers :: OnTime(c, s, v)
    ensures ls != [] ==> AllPrompt(c, Do(c, s, ls[0]), ls[1..])
  {
    forall v | v in s.workers ensures OnTime(c, s, v) {
      assert Prompt(c, s, ls, v);
    }
    if ls != [] {
      forall w: nat ensures Prompt(c, Do(c, s, ls[0]), ls[1..], w) {
        assert Prompt(c, s, ls, w);
      }
    }
  }

  /** Whoever comes while the key remembers the error is told it. */
  lemma {:induction false} ResolvedStays(c: Config, s: State, more: seq<Label>)
    requires Timed(c) && Inv(c, s) && Honest(c, s) && AllPrompt(c, s, more) && Unexpired(more)
    requires IsResolved(s.cell) && s.ledger == []
    ensures Run(c, s, more).ledger == []
    decreases |more|
  {
    if more != [] {
      PromptRest(c, s, more);
      RestUnexpired(more);
      ResolvedStep(c, s, more[0]);
      ResolvedStays(c, Do(c, s, more[0]), more[1..]);
    }
  }

  // ---------------------------- an error left claimed, by a tool nobody can ask

  /** The key is held under a token that nobody has any more. */
  ghost predicate Stranded(c: Config, s: State, token: nat) {
    && Inv(c, s) && FenceAnyTiming.Ok(c, s) && !c.reconcilable && s.ledger == []
    && ClaimedUnder(s.cell, token) && token < |s.stamps|
    && forall v | v in s.workers :: Mine(s.workers[v]) != Some(token)
  }

  /** Nobody holds the key, executes, or takes it over. */
  lemma NobodyActs(c: Config, s: State, token: nat, v: nat)
    requires Stranded(c, s, token) && v in s.workers
    ensures var p := s.workers[v]; !p.Holding? && !p.Executing? && !p.Settling? && !p.TakingOver? && !p.Answered?
  {
    assert PhaseInv(c, s, s.workers[v]) && FenceAnyTiming.PhaseOk(c, s, s.workers[v]);
  }

  lemma StrandedCell(c: Config, s: State, token: nat, l: Label)
    requires Stranded(c, s, token) && !l.Expire?
    ensures var t := Do(c, s, l); t.cell == s.cell && t.ledger == []
  {
    if !l.Tick? && !l.Start? && l.w in s.workers {
      NobodyActs(c, s, token, l.w);
      assert Do(c, s, l) == DoWorker(c, s, l.w, s.workers[l.w], l);
    }
  }

  /** A worker keeps its token, gives it up, or draws the next one. */
  lemma StoreStepToken(c: Config, s: State, w: nat, l: Label)
    requires w in s.workers && (l.ClaimAt? || l.TakeOverAt? || l.SettleAt?)
    ensures var t := DoWorker(c, s, w, s.workers[w], l);
            && t.stamps == s.stamps && (t.workers == s.workers || t.workers == s.workers - {w}
                || (w in t.workers && t.workers == s.workers[w := t.workers[w]] && Mine(t.workers[w]) in {None, Mine(s.workers[w])}))
  {
  }

  lemma OwnStepToken(c: Config, s: State, w: nat, l: Label)
    requires w in s.workers && !l.ClaimAt? && !l.TakeOverAt? && !l.SettleAt?
    ensures var t := DoWorker(c, s, w, s.workers[w], l);
            && |s.stamps| <= |t.stamps| && (t.workers == s.workers || t.workers == s.workers - {w}
                || (w in t.workers && t.workers == s.workers[w := t.workers[w]]
                    && Mine(t.workers[w]) in {None, Mine(s.workers[w]), Some(|s.stamps|)}))
  {
  }

  lemma StrandedTokens(c: Config, s: State, token: nat, l: Label)
    requires token < |s.stamps| && forall v | v in s.workers :: Mine(s.workers[v]) != Some(token)
    ensures var t := Do(c, s, l); token < |t.stamps| && forall v | v in t.workers :: Mine(t.workers[v]) != Some(token)
  {
    if !l.Tick? && !l.Expire? && !l.Start? && l.w in s.workers {
      if l.ClaimAt? || l.TakeOverAt? || l.SettleAt? {
        StoreStepToken(c, s, l.w, l);
      } else {
        OwnStepToken(c, s, l.w, l);
      }
      assert Do(c, s, l) == DoWorker(c, s, l.w, s.workers[l.w], l);
    }
  }

  lemma StrandedStep(c: Config, s: State, token: nat, l: Label)
    requires Timed(c) && Stranded(c, s, token) && !l.Expire? && (forall v | v in s.workers :: OnTime(c, s, v))
    ensures Stranded(c, Do(c, s, l), token)
  {
    StepKeeps(c, s, l);
    FenceAnyTiming.StepOk(c, s, l);
    StrandedCell(c, s, token, l);
    StrandedTokens(c, s, token, l);
  }

  lemma {:induction false} StrandedStays(c: Config, s: State, token: nat, more: seq<Label>)
    requires Timed(c) && Stranded(c, s, token) && AllPrompt(c, s, more) && Unexpired(more)
    ensures Run(c, s, more).ledger == []
    decreases |more|
  {
    if more != [] {
      PromptRest(c, s, more);
      RestUnexpired(more);
      StrandedStep(c, s, token, more[0]);
      StrandedStays(c, Do(c, s, more[0]), token, more[1..]);
    }
  }

  /** The last step of a call whose error was not recorded leaves its claim behind, and nobody with its token. */
  lemma LeavesStranded(c: Config, ls: seq<Label>, w: nat, out: Outcome)
    requires Timed(c) && AllPrompt(c, Init(c), ls) && JustReturned(c, ls, w, out) && out.status == Error
    requires !IsResolved(Run(c, Init(c), ls).cell)
    ensures var s := Run(c, Init(c), ls);
            && Inv(c, s) && FenceAnyTiming.Ok(c, s) && s.ledger == [] && s.cell.Some? && s.cell.value.value.Good?
            && var rec := s.cell.value.value.rec;
            && rec.state == ClaimedState && rec.ident == c.ident && rec.token < |s.stamps|
            && forall v | v in s.workers :: Mine(s.workers[v]) != Some(rec.token)
  {
    ReachableInv(c, ls);
    FenceAnyTiming.ScheduleOk(c, Init(c), ls);
    ReturnAgrees(c, ls, w, out);
    var before, l := ls[..|ls| - 1], ls[|ls| - 1];
    assert ls == before + [l];
    AllPromptPrefix(c, Init(c), before, [l]);
    ReachableInv(c, before);
    RunSnoc(c, Init(c), before, l);
    LastStepStrands(c, Run(c, Init(c), before), l, w);
  }

  /** A worker returns an unrecorded outcome only by giving up settling a key that it still holds. */
  lemma LastStepStrands(c: Config, s: State, l: Label, w: nat)
    requires Inv(c, s) && !HasReturned(s, w) && HasReturned(Do(c, s, l), w) && !IsResolved(Do(c, s, l).cell)
    ensures var t := Do(c, s, l);
            && t.cell == s.cell && w in s.workers && s.workers[w].Settling? && ClaimedUnder(s.cell, s.workers[w].mine.token)
            && t.workers == s.workers[w := t.workers[w]]
  {
    if !CanReturn(l, w) { OthersDoNotReturn(c, s, l, w); }
    assert PhaseInv(c, s, s.workers[w]);
  }
}
