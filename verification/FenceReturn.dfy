/** The moments Execute runs and Guard.Run returns: who holds the key, and what the outside world then holds. */
module FenceReturn {
  import opened Wrappers
  import opened Records
  import opened Fence
  import opened FenceSafety
  import FenceAnyTiming

  function PhaseOf(s: State, w: nat): Option<Phase> {
    if w in s.workers then Some(s.workers[w]) else None
  }

  predicate HasReturned(s: State, w: nat) {
    w in s.workers && s.workers[w].Returned?
  }

  /** The schedule's last step is the one with which worker w returns `out`. */
  predicate JustReturned(c: Config, ls: seq<Label>, w: nat, out: Outcome) {
    && ls != []
    && PhaseOf(Run(c, Init(c), ls), w) == Some(Returned(out))
    && !HasReturned(Run(c, Init(c), ls[..|ls| - 1]), w)
  }

  lemma MeetReturns(c: Config, s: State, w: nat, rec: Rec)
    requires Inv(c, s) && s.cell.Some? && s.cell.value.value == Good(rec)
    requires HasReturned(Meet(c, s, w, rec), w) && !HasReturned(s, w)
    ensures var t := Meet(c, s, w, rec); Agrees(t.ledger, t.workers[w].out.status, t.workers[w].out.result)
  {
  }

  lemma ClaimReturns(c: Config, s: State, w: nat, p: Phase, delivered: bool)
    requires Inv(c, s) && PhaseOf(s, w) == Some(p) && !p.Returned?
    requires HasReturned(DoClaim(c, s, w, p, delivered), w)
    ensures var t := DoClaim(c, s, w, p, delivered); Agrees(t.ledger, t.workers[w].out.status, t.workers[w].out.result)
  {
    MeetReturns(c, s, w, s.cell.value.value.rec);
  }

  lemma SettlingReturns(c: Config, s: State, w: nat, l: Label)
    requires Inv(c, s) && w in s.workers && s.workers[w].Settling? && (l.SettleAt? || l.GiveUp?)
    requires HasReturned(DoWorker(c, s, w, s.workers[w], l), w)
    ensures var t := DoWorker(c, s, w, s.workers[w], l); Agrees(t.ledger, t.workers[w].out.status, t.workers[w].out.result)
  {
    assert PhaseInv(c, s, s.workers[w]);
  }

  predicate CanReturn(l: Label, w: nat) {
    (l.ClaimAt? || l.Poll? || l.SettleAt? || l.GiveUp?) && l.w == w
  }

  lemma OthersDoNotReturn(c: Config, s: State, l: Label, w: nat)
    requires !HasReturned(s, w) && !CanReturn(l, w)
    ensures !HasReturned(Do(c, s, l), w)
  {
  }

  lemma StepReturns(c: Config, s: State, l: Label, w: nat)
    requires Inv(c, s) && !HasReturned(s, w) && HasReturned(Do(c, s, l), w)
    ensures var t := Do(c, s, l); Agrees(t.ledger, t.workers[w].out.status, t.workers[w].out.result)
  {
    if !CanReturn(l, w) { OthersDoNotReturn(c, s, l, w); }
    var p := s.workers[w];
    if l.ClaimAt? {
      ClaimReturns(c, s, w, p, l.delivered);
    } else if l.Poll? {
      MeetReturns(c, s, w, s.cell.value.value.rec);
    } else {
      SettlingReturns(c, s, w, l);
    }
  }

  lemma AllPromptPrefix(c: Config, s: State, a: seq<Label>, b: seq<Label>)
    requires AllPrompt(c, s, a + b)
    ensures AllPrompt(c, s, a)
  {
    forall w: nat ensures Prompt(c, s, a, w) {
      assert Prompt(c, s, a + b, w);
      PromptAppend(c, s, a, b, w);
    }
  }

  /**
   Whatever path Guard.Run took to it (executed, cached, reconciled or
   reexecuted), the outcome it returns is what the outside world holds at that
   moment: one effect with this result for a success, none for an error.
   */
  lemma ReturnAgrees(c: Config, ls: seq<Label>, w: nat, out: Outcome)
    requires Timed(c) && AllPrompt(c, Init(c), ls) && JustReturned(c, ls, w, out)
    ensures Agrees(Run(c, Init(c), ls).ledger, out.status, out.result)
  {
    var before, l := ls[..|ls| - 1], ls[|ls| - 1];
    assert ls == before + [l];
    RunSnoc(c, Init(c), before, l);
    AllPromptPrefix(c, Init(c), before, [l]);
    ReachableInv(c, before);
    StepReturns(c, Run(c, Init(c), before), l, w);
  }

  /** Execute is under way only while the last successful write of a claim to the key was the worker's own. */
  lemma ExecutesAsLastWriter(c: Config, ls: seq<Label>, w: nat)
    requires Timed(c) && AllPrompt(c, Init(c), ls)
    requires var s := Run(c, Init(c), ls); w in s.workers && s.workers[w].Executing?
    ensures var s := Run(c, Init(c), ls);
            s.history != [] && s.history[|s.history| - 1].token == s.workers[w].mine.token
  {
    FenceAnyTiming.ScheduleOk(c, Init(c), ls);
    ExecutionWindow(c, ls, w);
    assert FenceAnyTiming.CellOk(c, Run(c, Init(c), ls));
  }
}
