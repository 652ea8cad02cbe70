/** No schedule ever shows an honest worker a record that is not its invocation's. */
module FenceHonest {
  import opened Wrappers
  import opened Records
  import opened Fence

  /** What Guard.Run answers with a record mismatch. */
  predicate Misleads(c: Config, value: Value) {
    match value
    case Corrupt => true
    case Good(rec) => !Verified(c, rec) || (rec.state == ResolvedState && (rec.result.None? || rec.status.None?))
  }

  predicate HonestClaim(c: Config, rec: Rec) {
    rec.state == ClaimedState && rec.ident == c.ident
  }

  predicate HonestPhase(c: Config, p: Phase) {
    match p
    case Claiming(mine, _) => HonestClaim(c, mine)
    case Holding(mine, _) => HonestClaim(c, mine)
    case TakingOver(_, _, mine, _) => HonestClaim(c, mine)
    case Rechecking(_, mine, _) => HonestClaim(c, mine)
    case AskingOwn(mine, _) => HonestClaim(c, mine)
    case Executing(mine, _, _, _) => HonestClaim(c, mine)
    case Settling(mine, _, _) => HonestClaim(c, mine)
    case _ => true
  }

  ghost predicate Honest(c: Config, s: State) {
    && (s.cell.Some? ==> !Misleads(c, s.cell.value.value))
    && forall w | w in s.workers :: HonestPhase(c, s.workers[w])
  }

  lemma StoreStepHonest(c: Config, s: State, w: nat, l: Label)
    requires Honest(c, s) && w in s.workers && (l.ClaimAt? || l.TakeOverAt? || l.SettleAt?)
    ensures Honest(c, DoWorker(c, s, w, s.workers[w], l))
  {
    assert HonestPhase(c, s.workers[w]);
  }

  lemma OwnStepHonest(c: Config, s: State, w: nat, l: Label)
    requires Honest(c, s) && w in s.workers && !l.ClaimAt? && !l.TakeOverAt? && !l.SettleAt?
    ensures Honest(c, DoWorker(c, s, w, s.workers[w], l))
  {
    assert HonestPhase(c, s.workers[w]);
  }

  lemma StepHonest(c: Config, s: State, l: Label)
    requires Honest(c, s)
    ensures Honest(c, Do(c, s, l))
  {
    if !l.Tick? && !l.Expire? && !l.Start? && l.w in s.workers {
      if l.ClaimAt? || l.TakeOverAt? || l.SettleAt? {
        StoreStepHonest(c, s, l.w, l);
      } else {
        OwnStepHonest(c, s, l.w, l);
      }
      assert Do(c, s, l) == DoWorker(c, s, l.w, s.workers[l.w], l);
    }
  }

  lemma {:induction false} RunHonest(c: Config, s: State, ls: seq<Label>)
    requires Honest(c, s)
    ensures Honest(c, Run(c, s, ls))
    decreases |ls|
  {
    if ls != [] {
      StepHonest(c, s, ls[0]);
      RunHonest(c, Do(c, s, ls[0]), ls[1..]);
    }
  }

  /**
   Whatever happens on a key used only for its own invocation, frozen workers
   included, the record under it is never corrupt, never another invocation's,
   and never resolved without a result.
   */
  lemma NeverMisleads(c: Config, ls: seq<Label>)
    ensures var s := Run(c, Init(c), ls); s.cell.Some? ==> !Misleads(c, s.cell.value.value)
  {
    RunHonest(c, Init(c), ls);
  }

  /** absent, claimed, resolved: how far the key has come. */
  function Stage(cell: Option<Cell>): nat {
    if cell.None? then 0
    else if cell.value.value.Good? && cell.value.value.rec.state == ClaimedState then 1
    else 2
  }

  lemma StoreStepForward(c: Config, s: State, w: nat, l: Label)
    requires Honest(c, s) && w in s.workers && (l.ClaimAt? || l.TakeOverAt? || l.SettleAt?)
    ensures var t := DoWorker(c, s, w, s.workers[w], l);
            Stage(s.cell) <= Stage(t.cell) && (Stage(s.cell) == 2 ==> t.cell == s.cell)
  {
    assert HonestPhase(c, s.workers[w]);
  }

  lemma OwnStepForward(c: Config, s: State, w: nat, l: Label)
    requires w in s.workers && !l.ClaimAt? && !l.TakeOverAt? && !l.SettleAt?
    ensures DoWorker(c, s, w, s.workers[w], l).cell == s.cell
  {
  }

  /** No step of any worker moves the key back, and none changes it once it is resolved. */
  lemma WorkersMoveForward(c: Config, s: State, l: Label)
    requires Honest(c, s) && !l.Expire?
    ensures var t := Do(c, s, l); Stage(s.cell) <= Stage(t.cell) && (Stage(s.cell) == 2 ==> t.cell == s.cell)
  {
    if !l.Tick? && !l.Start? && l.w in s.workers {
      if l.ClaimAt? || l.TakeOverAt? || l.SettleAt? {
        StoreStepForward(c, s, l.w, l);
      } else {
        OwnStepForward(c, s, l.w, l);
      }
      assert Do(c, s, l) == DoWorker(c, s, l.w, s.workers[l.w], l);
    }
  }

  /**
   The key moves from absent to claimed to resolved. It goes back exactly when a
   key past its TTL expires, and once resolved nothing else changes it.
   */
  lemma NeverBackwards(c: Config, ls: seq<Label>, l: Label)
    ensures var s := Run(c, Init(c), ls);
            var t := Do(c, s, l);
            && (Stage(t.cell) < Stage(s.cell) <==> l.Expire? && s.cell.Some? && s.now >= s.cell.value.expiresAt)
            && (Stage(s.cell) == 2 && t.cell != s.cell ==> t.cell.None?)
  {
    RunHonest(c, Init(c), ls);
    if !l.Expire? { WorkersMoveForward(c, Run(c, Init(c), ls), l); }
  }

  // ------------------------------------------------------------------ tokens

  /** Every token in use was drawn. */
  ghost predicate Drawn(s: State) {
    && (s.cell.Some? && s.cell.value.value.Good? ==> s.cell.value.value.rec.token < |s.stamps|)
    && forall w | w in s.workers && Mine(s.workers[w]).Some? :: Mine(s.workers[w]).value < |s.stamps|
  }

  lemma StoreStepDrawn(c: Config, s: State, w: nat, l: Label)
    requires Drawn(s) && w in s.workers && (l.ClaimAt? || l.TakeOverAt? || l.SettleAt?)
    ensures Drawn(DoWorker(c, s, w, s.workers[w], l))
  {
  }

  lemma OwnStepDrawn(c: Config, s: State, w: nat, l: Label)
    requires Drawn(s) && w in s.workers && !l.ClaimAt? && !l.TakeOverAt? && !l.SettleAt?
    ensures Drawn(DoWorker(c, s, w, s.workers[w], l))
  {
  }

  lemma StepDrawn(c: Config, s: State, l: Label)
    requires Drawn(s)
    ensures Drawn(Do(c, s, l))
  {
    if !l.Tick? && !l.Expire? && !l.Start? && l.w in s.workers {
      if l.ClaimAt? || l.TakeOverAt? || l.SettleAt? {
        StoreStepDrawn(c, s, l.w, l);
      } else {
        OwnStepDrawn(c, s, l.w, l);
      }
      assert Do(c, s, l) == DoWorker(c, s, l.w, s.workers[l.w], l);
    }
  }

  lemma {:induction false} RunDrawn(c: Config, s: State, ls: seq<Label>)
    requires Drawn(s)
    ensures Drawn(Run(c, s, ls))
    decreases |ls|
  {
    if ls != [] {
      StepDrawn(c, s, ls[0]);
      RunDrawn(c, Do(c, s, ls[0]), ls[1..]);
    }
  }

  /** A token about to be drawn is not the one under which the key is held. */
  lemma TokenIsNew(c: Config, ls: seq<Label>)
    ensures var s := Run(c, Init(c), ls);
            s.cell.Some? && s.cell.value.value.Good? ==> s.cell.value.value.rec.token != |s.stamps|
  {
    RunDrawn(c, Init(c), ls);
  }
}
