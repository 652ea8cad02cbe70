/** When an error that was returned stays true, exactly, and what undoes one that does not. */
module FenceUndone {
  import opened Wrappers
  import opened Events
  import opened Records
  import opened Fence
  import opened FenceAfter
  import opened FenceHonest
  import opened FenceReturn
  import opened FenceSafety
  import opened Schedules

  /** Everybody on the key dies. */
  lemma {:induction false} AllCrash(c: Config, s: State) returns (ls: seq<Label>)
    ensures Run(c, s, ls) == s.(workers := map[]) && Calm(c, s, ls) && Unexpired(ls)
    decreases |s.workers|
  {
    if s.workers == map[] {
      ls := [];
    } else {
      var w :| w in s.workers;
      var t := Do(c, s, Crash(w));
      assert t == s.(workers := s.workers - {w});
      assert t.workers.Keys == s.workers.Keys - {w} && |t.workers| == |t.workers.Keys| && |s.workers| == |s.workers.Keys|;
      var rest := AllCrash(c, t);
      ls := [Crash(w)] + rest;
      assert ls[1..] == rest;
    }
  }

  /** A claim of this invocation that somebody left behind. */
  predicate LeftBehind(c: Config, s: State, rec: Rec) {
    && s.cell.Some? && s.cell.value.value == Good(rec)
    && rec.state == ClaimedState && rec.ident == c.ident && rec.token < |s.stamps|
  }

  /** How long worker 0 has to wait for it to become stale. */
  function Wait(c: Config, s: State, rec: Rec): nat {
    var left := rec.claimedAt + c.toolTimeout + c.staleGrace - Local(c, s, 0);
    if left > 0 then left else 0
  }

  /** Worker 0 meets the claim and waits until it is stale. */
  lemma Arrives(c: Config, s: State, rec: Rec, d: nat)
    requires s.workers == map[] && LeftBehind(c, s, rec) && d == Wait(c, s, rec)
    ensures Run(c, s, [Start(0), ClaimAt(0, true), Tick(d)]) ==
            s.(now := s.now + d, stamps := s.stamps + [s.now], workers := map[0 := Waiting(rec)])
    ensures Calm(c, s, [Start(0), ClaimAt(0, true), Tick(d)])
  {
    RunThree(c, s, Start(0), ClaimAt(0, true), Tick(d));
    CalmThree(c, s, Start(0), ClaimAt(0, true), Tick(d));
  }

  /** It hears that nothing happened, and draws its own token. */
  lemma Asks(c: Config, s: State, rec: Rec)
    requires s.workers == map[0 := Waiting(rec)] && IsStale(c, s, 0, rec) && c.reconcilable && s.ledger == []
    ensures Run(c, s, [Wake(0), AskStale(0), Issue(0)]) ==
            s.(stamps := s.stamps + [s.now], workers := map[0 := TakingOver(rec, None, NewRecord(c, s, 0), s.now)])
    ensures Calm(c, s, [Wake(0), AskStale(0), Issue(0)])
  {
    RunThree(c, s, Wake(0), AskStale(0), Issue(0));
    CalmThree(c, s, Wake(0), AskStale(0), Issue(0));
  }

  /** It takes over and acts. */
  lemma Acts(c: Config, s: State, rec: Rec, mine: Rec)
    requires s.workers == map[0 := TakingOver(rec, None, mine, s.now)] && LeftBehind(c, s, rec) && s.ledger == []
    ensures Run(c, s, [TakeOverAt(0, true), Effect(0, "b"), Succeed(0)]).ledger == ["b"]
    ensures Calm(c, s, [TakeOverAt(0, true), Effect(0, "b"), Succeed(0)])
  {
    RunThree(c, s, TakeOverAt(0, true), Effect(0, "b"), Succeed(0));
    CalmThree(c, s, TakeOverAt(0, true), Effect(0, "b"), Succeed(0));
  }

  function Successor(d: nat): seq<Label> {
    [Start(0), ClaimAt(0, true), Tick(d)] + [Wake(0), AskStale(0), Issue(0)] + [TakeOverAt(0, true), Effect(0, "b"), Succeed(0)]
  }

  /** A successor that finds the claim left behind, on a key to itself, makes the effect. */
  lemma SuccessorActs(c: Config, s: State, rec: Rec)
    requires s.workers == map[] && LeftBehind(c, s, rec) && c.reconcilable && s.ledger == []
    ensures var ls := Successor(Wait(c, s, rec)); Run(c, s, ls).ledger == ["b"] && Calm(c, s, ls) && Unexpired(ls)
  {
    var d := Wait(c, s, rec);
    var a, b, e := [Start(0), ClaimAt(0, true), Tick(d)], [Wake(0), AskStale(0), Issue(0)],
                   [TakeOverAt(0, true), Effect(0, "b"), Succeed(0)];
    Arrives(c, s, rec, d);
    var s1 := Run(c, s, a);
    Asks(c, s1, rec);
    Then(c, s, a, b);
    var s2 := Run(c, s1, b);
    Acts(c, s2, rec, NewRecord(c, s1, 0));
    Then(c, s, a + b, e);
  }

  /** After an error that was not recorded, a tool that can be asked is run again: nobody freezes, and the key need not expire. */
  lemma ErrorUndone(c: Config, ls: seq<Label>, w: nat, out: Outcome) returns (more: seq<Label>)
    requires Timed(c) && AllPrompt(c, Init(c), ls) && JustReturned(c, ls, w, out) && out.status == Error
    requires !IsResolved(Run(c, Init(c), ls).cell) && c.reconcilable
    ensures var s := Run(c, Init(c), ls);
            AllPrompt(c, s, more) && Unexpired(more) && Run(c, s, more).ledger == ["b"]
  {
    var s := Run(c, Init(c), ls);
    LeavesStranded(c, ls, w, out);
    var crash := AllCrash(c, s);
    var rec := s.cell.value.value.rec;
    var t := s.(workers := map[]);
    SuccessorActs(c, t, rec);
    more := crash + Successor(Wait(c, t, rec));
    Then(c, s, crash, Successor(Wait(c, t, rec)));
    forall v | v in s.workers ensures OnTime(c, s, v) {
      PromptAtEnd(c, Init(c), ls, v);
    }
    CalmIsAllPrompt(c, s, more);
  }

  /** The error stays true as long as the key does not expire, whoever comes. */
  ghost predicate ErrorStays(c: Config, s: State) {
    forall more | AllPrompt(c, s, more) && Unexpired(more) :: Run(c, s, more).ledger == []
  }

  /**
   An error that was returned stays true on every further schedule without a
   frozen worker or an expiry exactly if it was recorded under the key, or the
   tool cannot be asked whether it took effect.
   */
  lemma ErrorSurvivesIff(c: Config, ls: seq<Label>, w: nat, out: Outcome)
    requires Timed(c) && AllPrompt(c, Init(c), ls) && JustReturned(c, ls, w, out) && out.status == Error
    ensures var s := Run(c, Init(c), ls);
            ErrorStays(c, s) <==> IsResolved(s.cell) || !c.reconcilable
  {
    var s := Run(c, Init(c), ls);
    ReachableInv(c, ls);
    RunHonest(c, Init(c), ls);
    ReturnAgrees(c, ls, w, out);
    if !IsResolved(s.cell) { LeavesStranded(c, ls, w, out); }
    if IsResolved(s.cell) || !c.reconcilable {
      forall more | AllPrompt(c, s, more) && Unexpired(more) ensures Run(c, s, more).ledger == [] {
        if IsResolved(s.cell) {
          ResolvedStays(c, s, more);
        } else {
          StrandedStays(c, s, s.cell.value.value.rec.token, more);
        }
      }
    } else {
      var more := ErrorUndone(c, ls, w, out);
      assert Run(c, s, more).ledger != [];
    }
  }

  // --------------------------------------------------------- nobody else on it

  predicate NobodyStarts(ls: seq<Label>) {
    forall i | 0 <= i < |ls| :: !ls[i].Start?
  }

  /** With nobody else on the key and nobody coming, the outside world stays as it is, whatever the timing, expired or not. */
  lemma {:induction false} AloneStays(c: Config, s: State, w: nat, more: seq<Label>)
    requires (forall v | v in s.workers :: v == w && s.workers[v].Returned?) && NobodyStarts(more)
    ensures Run(c, s, more).ledger == s.ledger
    decreases |more|
  {
    if more != [] {
      assert forall i | 0 <= i < |more[1..]| :: more[1..][i] == more[i + 1];
      var t := Do(c, s, more[0]);
      assert t.ledger == s.ledger && forall v | v in t.workers :: v == w && t.workers[v].Returned?;
      AloneStays(c, t, w, more[1..]);
    }
  }

  // ------------------------------------------------------------ it does happen

  const REFUSED := Outcome("m", Error, Executed)

  /** Worker 1's tool refuses, and the store cannot be reached to record it. */
  function Unrecorded(): seq<Label> {
    [Start(1), ClaimAt(1, true), Check(1)] + [Fail(1, "m"), GiveUp(1)]
  }

  lemma Refuses()
    ensures Run(SAMPLE, Init(SAMPLE), [Start(1), ClaimAt(1, true), Check(1)]) ==
            State(0, Some(Cell(Good(Claim(0, 1, 0)), 86_400 * SECOND)), [], map[1 := Executing(Claim(0, 1, 0), Executed, 0, None)],
                  [0], [Write(0, true, 0)], [0])
    ensures Calm(SAMPLE, Init(SAMPLE), [Start(1), ClaimAt(1, true), Check(1)])
  {
    RunThree(SAMPLE, Init(SAMPLE), Start(1), ClaimAt(1, true), Check(1));
    CalmThree(SAMPLE, Init(SAMPLE), Start(1), ClaimAt(1, true), Check(1));
  }

  lemma GivesUp(s: State)
    requires s == State(0, Some(Cell(Good(Claim(0, 1, 0)), 86_400 * SECOND)), [], map[1 := Executing(Claim(0, 1, 0), Executed, 0, None)],
                        [0], [Write(0, true, 0)], [0])
    ensures Run(SAMPLE, s, [Fail(1, "m"), GiveUp(1)]) == s.(workers := map[1 := Returned(REFUSED)])
    ensures Run(SAMPLE, s, [Fail(1, "m")]) == s.(workers := map[1 := Settling(Claim(0, 1, 0), REFUSED, 0)])
    ensures Calm(SAMPLE, s, [Fail(1, "m"), GiveUp(1)])
  {
    RunTwo(SAMPLE, s, Fail(1, "m"), GiveUp(1));
    CalmTwo(SAMPLE, s, Fail(1, "m"), GiveUp(1));
  }

  lemma UnrecordedReturns()
    ensures JustReturned(SAMPLE, Unrecorded(), 1, REFUSED) && AllPrompt(SAMPLE, Init(SAMPLE), Unrecorded())
    ensures Timed(SAMPLE) && Run(SAMPLE, Init(SAMPLE), Unrecorded()).cell == Some(Cell(Good(Claim(0, 1, 0)), 86_400 * SECOND))
  {
    var a, b := [Start(1), ClaimAt(1, true), Check(1)], [Fail(1, "m"), GiveUp(1)];
    Refuses();
    var s := Run(SAMPLE, Init(SAMPLE), a);
    GivesUp(s);
    RunAppend(SAMPLE, Init(SAMPLE), a, b);
    RunAppend(SAMPLE, Init(SAMPLE), a, [Fail(1, "m")]);
    assert Unrecorded()[..|Unrecorded()| - 1] == a + [Fail(1, "m")];
    CalmAppend(SAMPLE, Init(SAMPLE), a, b);
    CalmIsAllPrompt(SAMPLE, Init(SAMPLE), Unrecorded());
  }

  /** So an error is returned after which, with nobody frozen and the key still live, the effect is made. */
  lemma ErrorCanBeUndone() returns (more: seq<Label>)
    ensures var s := Run(SAMPLE, Init(SAMPLE), Unrecorded());
            && JustReturned(SAMPLE, Unrecorded(), 1, REFUSED) && s.ledger == [] && !ErrorStays(SAMPLE, s)
            && AllPrompt(SAMPLE, s, more) && Unexpired(more) && Run(SAMPLE, s, more).ledger == ["b"]
  {
    UnrecordedReturns();
    ReturnAgrees(SAMPLE, Unrecorded(), 1, REFUSED);
    ErrorSurvivesIff(SAMPLE, Unrecorded(), 1, REFUSED);
    more := ErrorUndone(SAMPLE, Unrecorded(), 1, REFUSED);
  }
}
