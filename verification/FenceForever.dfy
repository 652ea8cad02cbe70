/** When an error that was returned stays true for good, the expiry of its key included. */
module FenceForever {
  import opened Wrappers
  import opened Events
  import opened Fence
  import opened FenceAfter
  import opened FenceHonest
  import opened FenceReturn
  import opened FenceSafety
  import opened FenceUndone
  import opened Records
  import opened Schedules
  import FenceAnyTiming

  // ------------------------------------------- a tool that cannot be asked

  /** Nobody settles, or has resolved the key, without Execute having been called. */
  ghost predicate Tried(s: State) {
    && (forall v | v in s.workers && (s.workers[v].Executing? || s.workers[v].Settling?) :: s.executed != [])
    && (IsResolved(s.cell) ==> s.executed != [])
  }

  ghost predicate Alike(c: Config, s: State) {
    FenceAnyTiming.Ok(c, s) && Honest(c, s) && Tried(s) && !c.reconcilable
  }

  lemma StoreStepTried(c: Config, s: State, w: nat, l: Label)
    requires Alike(c, s) && w in s.workers && (l.ClaimAt? || l.TakeOverAt? || l.SettleAt?)
    ensures Tried(DoWorker(c, s, w, s.workers[w], l))
  {
    assert HonestPhase(c, s.workers[w]) && FenceAnyTiming.PhaseOk(c, s, s.workers[w]);
  }

  lemma OwnStepTried(c: Config, s: State, w: nat, l: Label)
    requires Alike(c, s) && w in s.workers && !l.ClaimAt? && !l.TakeOverAt? && !l.SettleAt?
    ensures Tried(DoWorker(c, s, w, s.workers[w], l))
  {
    assert FenceAnyTiming.PhaseOk(c, s, s.workers[w]);
  }

  lemma StepAlike(c: Config, s: State, l: Label)
    requires ClocksAgree(c) && Alike(c, s)
    ensures Alike(c, Do(c, s, l))
  {
    FenceAnyTiming.StepOk(c, s, l);
    StepHonest(c, s, l);
    if !l.Tick? && !l.Expire? && !l.Start? && l.w in s.workers {
      if l.ClaimAt? || l.TakeOverAt? || l.SettleAt? {
        StoreStepTried(c, s, l.w, l);
      } else {
        OwnStepTried(c, s, l.w, l);
      }
      assert Do(c, s, l) == DoWorker(c, s, l.w, s.workers[l.w], l);
    }
  }

  lemma {:induction false} RunAlike(c: Config, s: State, ls: seq<Label>)
    requires ClocksAgree(c) && Alike(c, s)
    ensures Alike(c, Run(c, s, ls))
    decreases |ls|
  {
    if ls != [] {
      StepAlike(c, s, ls[0]);
      RunAlike(c, Do(c, s, ls[0]), ls[1..]);
    }
  }

  /** The one call of Execute the key allows has been made, and is over. */
  ghost predicate Spent(c: Config, s: State) {
    && FenceAnyTiming.Ok(c, s) && !c.reconcilable && s.executed != []
    && forall v | v in s.workers :: !s.workers[v].Executing?
  }

  lemma WorkerSpent(c: Config, s: State, w: nat, l: Label)
    requires Spent(c, s) && w in s.workers
    ensures var t := DoWorker(c, s, w, s.workers[w], l);
            && t.ledger == s.ledger && s.executed <= t.executed
            && (t.executed == s.executed ==> forall v | v in t.workers :: !t.workers[v].Executing?)
  {
  }

  lemma StepSpent(c: Config, s: State, l: Label)
    requires ClocksAgree(c) && Spent(c, s)
    ensures Spent(c, Do(c, s, l)) && Do(c, s, l).ledger == s.ledger
  {
    FenceAnyTiming.StepOk(c, s, l);
    if !l.Tick? && !l.Expire? && !l.Start? && l.w in s.workers {
      WorkerSpent(c, s, l.w, l);
      assert Do(c, s, l) == DoWorker(c, s, l.w, s.workers[l.w], l);
    }
  }

  lemma {:induction false} SpentStays(c: Config, s: State, more: seq<Label>)
    requires ClocksAgree(c) && Spent(c, s)
    ensures Run(c, s, more).ledger == s.ledger
    decreases |more|
  {
    if more != [] {
      StepSpent(c, s, more[0]);
      SpentStays(c, Do(c, s, more[0]), more[1..]);
    }
  }

  /** Nobody executes on a key that is resolved, or that somebody else is settling. */
  lemma NobodyExecutes(c: Config, s: State, w: nat, v: nat)
    requires Inv(c, s) && w in s.workers && v in s.workers && (IsResolved(s.cell) || s.workers[w].Settling?)
    ensures !s.workers[v].Executing?
  {
    assert PhaseInv(c, s, s.workers[v]) && PhaseInv(c, s, s.workers[w]);
    assert v != w && Mine(s.workers[w]).Some? ==> Mine(s.workers[v]) != Mine(s.workers[w]);
  }

  /** Whoever returns an outcome was settling it, or was shown a resolved key. */
  lemma ReturnsFrom(c: Config, s: State, l: Label, w: nat)
    requires Inv(c, s) && !HasReturned(s, w) && HasReturned(Do(c, s, l), w)
    ensures w in s.workers && (IsResolved(s.cell) || s.workers[w].Settling?)
  {
    if !CanReturn(l, w) { OthersDoNotReturn(c, s, l, w); }
  }

  /** It does so after the one call was made, and nobody is making another. */
  lemma ReturningIsLast(c: Config, s: State, l: Label, w: nat)
    requires Inv(c, s) && Alike(c, s) && !HasReturned(s, w) && HasReturned(Do(c, s, l), w)
    ensures s.executed != [] && forall v | v in s.workers :: !s.workers[v].Executing?
  {
    ReturnsFrom(c, s, l, w);
    forall v | v in s.workers ensures !s.workers[v].Executing? {
      NobodyExecutes(c, s, w, v);
    }
  }

  lemma ReturnedIsSpent(c: Config, ls: seq<Label>, w: nat, out: Outcome)
    requires Timed(c) && AllPrompt(c, Init(c), ls) && JustReturned(c, ls, w, out) && !c.reconcilable
    ensures Spent(c, Run(c, Init(c), ls))
  {
    var before, l := ls[..|ls| - 1], ls[|ls| - 1];
    assert ls == before + [l];
    AllPromptPrefix(c, Init(c), before, [l]);
    ReachableInv(c, before);
    RunAlike(c, Init(c), before);
    RunSnoc(c, Init(c), before, l);
    var s := Run(c, Init(c), before);
    ReturningIsLast(c, s, l, w);
    StepSpent(c, s, l);
  }

  /** The outcome of a tool that cannot be asked is final, success or error, expired or not, even if workers freeze from then on. */
  lemma UnreconcilableIsFinal(c: Config, ls: seq<Label>, w: nat, out: Outcome, more: seq<Label>)
    requires Timed(c) && AllPrompt(c, Init(c), ls) && JustReturned(c, ls, w, out) && !c.reconcilable
    ensures Agrees(Run(c, Run(c, Init(c), ls), more).ledger, out.status, out.result)
  {
    ReturnAgrees(c, ls, w, out);
    ReturnedIsSpent(c, ls, w, out);
    SpentStays(c, Run(c, Init(c), ls), more);
  }

  // ------------------------------------------------- a tool that can be asked

  function UntilExpiry(s: State): nat {
    if s.cell.Some? && s.cell.value.expiresAt > s.now then s.cell.value.expiresAt - s.now else 0
  }

  /** With everybody gone, the key expires and worker 0 comes. */
  lemma Outlives(c: Config, s: State, d: nat)
    requires s.workers == map[] && d == UntilExpiry(s)
    ensures var mine := NewRecord(c, s.(now := s.now + d), 0);
            Run(c, s, [Tick(d), Expire, Start(0)]) ==
            s.(now := s.now + d, cell := None, stamps := s.stamps + [s.now + d], workers := map[0 := Claiming(mine, s.now + d)])
    ensures Calm(c, s, [Tick(d), Expire, Start(0)])
  {
    RunThree(c, s, Tick(d), Expire, Start(0));
    CalmThree(c, s, Tick(d), Expire, Start(0));
  }

  /** Young or old, its claim lets it execute: an old one after it was told that nothing had happened. */
  lemma Acquires(c: Config, s: State, mine: Rec)
    requires s.workers == map[0 := Claiming(mine, s.now)] && s.cell.None? && s.ledger == [] && c.reconcilable
    ensures var t := Run(c, s, [ClaimAt(0, true), Check(0), AskOwn(0)]);
            t.ledger == [] && 0 in t.workers && t.workers[0].Executing? && t.workers[0].effect.None?
    ensures Calm(c, s, [ClaimAt(0, true), Check(0), AskOwn(0)])
  {
    RunThree(c, s, ClaimAt(0, true), Check(0), AskOwn(0));
    CalmThree(c, s, ClaimAt(0, true), Check(0), AskOwn(0));
    var t := Do(c, s, ClaimAt(0, true));
    assert t.workers[0] == Holding(mine, s.now);
  }

  lemma Repeats(c: Config, s: State)
    requires s.ledger == [] && 0 in s.workers && s.workers[0].Executing? && s.workers[0].effect.None?
    ensures Run(c, s, [Effect(0, "b"), Succeed(0)]).ledger == ["b"] && Calm(c, s, [Effect(0, "b"), Succeed(0)])
  {
    RunTwo(c, s, Effect(0, "b"), Succeed(0));
    CalmTwo(c, s, Effect(0, "b"), Succeed(0));
  }

  function Latecomer(d: nat): seq<Label> {
    [Tick(d), Expire, Start(0)] + [ClaimAt(0, true), Check(0), AskOwn(0)] + [Effect(0, "b"), Succeed(0)]
  }

  lemma LatecomerActs(c: Config, s: State)
    requires s.workers == map[] && s.ledger == [] && c.reconcilable
    ensures var ls := Latecomer(UntilExpiry(s)); Run(c, s, ls).ledger == ["b"] && Calm(c, s, ls)
  {
    var d := UntilExpiry(s);
    var a, b, e := [Tick(d), Expire, Start(0)], [ClaimAt(0, true), Check(0), AskOwn(0)], [Effect(0, "b"), Succeed(0)];
    Outlives(c, s, d);
    var s1 := Run(c, s, a);
    Acquires(c, s1, NewRecord(c, s.(now := s.now + d), 0));
    Then(c, s, a, b);
    Repeats(c, Run(c, s1, b));
    Then(c, s, a + b, e);
  }

  /** After an error, recorded or not, a tool that can be asked may be run again once the key has expired. */
  lemma ErrorOutlived(c: Config, ls: seq<Label>, w: nat, out: Outcome) returns (more: seq<Label>)
    requires Timed(c) && AllPrompt(c, Init(c), ls) && JustReturned(c, ls, w, out) && out.status == Error && c.reconcilable
    ensures var s := Run(c, Init(c), ls); AllPrompt(c, s, more) && Run(c, s, more).ledger == ["b"]
  {
    var s := Run(c, Init(c), ls);
    ReturnAgrees(c, ls, w, out);
    var crash := AllCrash(c, s);
    var t := s.(workers := map[]);
    LatecomerActs(c, t);
    more := crash + Latecomer(UntilExpiry(t));
    Then(c, s, crash, Latecomer(UntilExpiry(t)));
    forall v | v in s.workers ensures OnTime(c, s, v) {
      PromptAtEnd(c, Init(c), ls, v);
    }
    CalmIsAllPrompt(c, s, more);
  }

  // ------------------------------------------------------------- the condition

  /** The error stays true for good, whoever comes, before the key expires and after. */
  ghost predicate ErrorIsFinal(c: Config, s: State) {
    forall more | AllPrompt(c, s, more) :: Run(c, s, more).ledger == []
  }

  /**
   An error that was returned stays true on every further schedule without a
   frozen worker exactly if the tool cannot be asked whether it took effect:
   recording the error protects it only while the key lives.
   */
  lemma ErrorIsFinalIff(c: Config, ls: seq<Label>, w: nat, out: Outcome)
    requires Timed(c) && AllPrompt(c, Init(c), ls) && JustReturned(c, ls, w, out) && out.status == Error
    ensures ErrorIsFinal(c, Run(c, Init(c), ls)) <==> !c.reconcilable
  {
    var s := Run(c, Init(c), ls);
    if c.reconcilable {
      var more := ErrorOutlived(c, ls, w, out);
      assert Run(c, s, more).ledger != [];
    } else {
      forall more | AllPrompt(c, s, more) ensures Run(c, s, more).ledger == [] {
        UnreconcilableIsFinal(c, ls, w, out, more);
      }
    }
  }
}
