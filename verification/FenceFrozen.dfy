/** The one hypothesis of the safety theorem is needed: a schedule that duplicates an effect without it. */
module FenceFrozen {
  import opened Wrappers
  import opened Events
  import opened Records
  import opened Fence
  import opened FenceSafety
  import opened Schedules

  /** Worker 1 claims the key and freezes just before acting. */
  lemma Freezes()
    ensures Run(SAMPLE, Init(SAMPLE), [Start(1), ClaimAt(1, true), Check(1)]) ==
            State(0, Some(Cell(Good(Claim(0, 1, 0)), 86_400 * SECOND)), [],
                  map[1 := Executing(Claim(0, 1, 0), Executed, 0, None)], [0], [Write(0, true, 0)], [0])
  {
    RunThree(SAMPLE, Init(SAMPLE), Start(1), ClaimAt(1, true), Check(1));
  }

  /** Worker 2 waits until the claim is stale. */
  lemma GoesStale(s: State)
    requires s == State(0, Some(Cell(Good(Claim(0, 1, 0)), 86_400 * SECOND)), [],
                        map[1 := Executing(Claim(0, 1, 0), Executed, 0, None)], [0], [Write(0, true, 0)], [0])
    ensures Run(SAMPLE, s, [Start(2), ClaimAt(2, true), Tick(50 * SECOND)]) ==
            s.(now := 50 * SECOND, workers := s.workers[2 := Waiting(Claim(0, 1, 0))], stamps := [0, 0])
  {
    RunThree(SAMPLE, s, Start(2), ClaimAt(2, true), Tick(50 * SECOND));
  }

  /** It asks the outside world, hears that nothing happened, and draws its own token. */
  lemma AsksAndDraws(s: State)
    requires s.workers == map[1 := Executing(Claim(0, 1, 0), Executed, 0, None), 2 := Waiting(Claim(0, 1, 0))]
    requires s.now == 50 * SECOND && s.ledger == [] && s.stamps == [0, 0]
    ensures Run(SAMPLE, s, [Wake(2), AskStale(2), Issue(2)]) ==
            s.(workers := s.workers[2 := TakingOver(Claim(0, 1, 0), None, Claim(2, 2, 50 * SECOND), 50 * SECOND)],
               stamps := [0, 0, 50 * SECOND])
  {
    RunThree(SAMPLE, s, Wake(2), AskStale(2), Issue(2));
    var t := Do(SAMPLE, s, Wake(2));
    assert t.workers[2] == AskingStale(Claim(0, 1, 0));
  }

  /** It takes over and acts; then worker 1 wakes up and acts as well. */
  lemma BothAct(s: State)
    requires s.workers == map[1 := Executing(Claim(0, 1, 0), Executed, 0, None),
                              2 := TakingOver(Claim(0, 1, 0), None, Claim(2, 2, 50 * SECOND), 50 * SECOND)]
    requires s.cell == Some(Cell(Good(Claim(0, 1, 0)), 86_400 * SECOND)) && s.ledger == []
    ensures Run(SAMPLE, s, [TakeOverAt(2, true), Effect(2, "b"), Effect(1, "a")]).ledger == ["b", "a"]
  {
    RunThree(SAMPLE, s, TakeOverAt(2, true), Effect(2, "b"), Effect(1, "a"));
    var t := Do(SAMPLE, s, TakeOverAt(2, true));
    assert t.workers[2].Executing? && t.workers[1].Executing?;
  }

  function FrozenSchedule(): seq<Label> {
    [Start(1), ClaimAt(1, true), Check(1)] + [Start(2), ClaimAt(2, true), Tick(50 * SECOND)]
    + [Wake(2), AskStale(2), Issue(2)] + [TakeOverAt(2, true), Effect(2, "b"), Effect(1, "a")]
  }

  /** A claimant that freezes past its staleness window does duplicate the effect. */
  lemma FrozenClaimantDuplicates()
    ensures Timed(SAMPLE)
    ensures |Run(SAMPLE, Init(SAMPLE), FrozenSchedule()).ledger| == 2
  {
    var a, b := [Start(1), ClaimAt(1, true), Check(1)], [Start(2), ClaimAt(2, true), Tick(50 * SECOND)];
    var d, e := [Wake(2), AskStale(2), Issue(2)], [TakeOverAt(2, true), Effect(2, "b"), Effect(1, "a")];
    RunAppend(SAMPLE, Init(SAMPLE), a + b + d, e);
    RunAppend(SAMPLE, Init(SAMPLE), a + b, d);
    RunAppend(SAMPLE, Init(SAMPLE), a, b);
    Freezes();
    var s1 := Run(SAMPLE, Init(SAMPLE), a);
    GoesStale(s1);
    var s2 := Run(SAMPLE, s1, b);
    AsksAndDraws(s2);
    BothAct(Run(SAMPLE, s2, d));
  }
}
