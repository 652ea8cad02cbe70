/** The clock bound is sharp: for every TTL, one microsecond more lets a tool run twice. */
module FenceSkew {
  import opened Wrappers
  import opened Events
  import opened Records
  import opened Fence
  import opened Schedules

  /** The largest clock difference the margin absorbs. */
  function Bound(ttl: nat): int {
    EXPIRY_MARGIN - (ttl - WholeSeconds(ttl))
  }

  /** The invocation was journaled by a clock that runs `skew` ahead. */
  function Skewed(ttl: nat, skew: nat): Config {
    Config(ID, 1, skew, 0, 20 * SECOND, 120 * SECOND, ttl, true, skew, 0, map[])
  }

  function Settled(): Rec {
    Claim(0, 1, 0).(state := ResolvedState, resolvedAt := Some(0), result := Some("a"), status := Some(Success), resolution := Some(Executed))
  }

  /** Worker 1 claims the key and executes at once. */
  lemma Claims(c: Config, ttl: nat, skew: nat)
    requires c == Skewed(ttl, skew) && ttl > EXPIRY_MARGIN
    ensures Run(c, Init(c), [Start(1), ClaimAt(1, true), Check(1)]) ==
            State(0, Some(Cell(Good(Claim(0, 1, 0)), ttl)), [], map[1 := Executing(Claim(0, 1, 0), Executed, 0, None)],
                  [0], [Write(0, true, 0)], [0])
    ensures Calm(c, Init(c), [Start(1), ClaimAt(1, true), Check(1)])
  {
    RunThree(c, Init(c), Start(1), ClaimAt(1, true), Check(1));
    CalmThree(c, Init(c), Start(1), ClaimAt(1, true), Check(1));
  }

  /** It resolves the key at once, so that the key lives for the whole seconds of the TTL only. */
  lemma Settles(c: Config, ttl: nat, skew: nat, s: State)
    requires c == Skewed(ttl, skew)
    requires s == State(0, Some(Cell(Good(Claim(0, 1, 0)), ttl)), [], map[1 := Executing(Claim(0, 1, 0), Executed, 0, None)],
                        [0], [Write(0, true, 0)], [0])
    ensures Run(c, s, [Effect(1, "a"), Succeed(1), SettleAt(1, true)]) ==
            s.(cell := Some(Cell(Good(Settled()), WholeSeconds(ttl))), ledger := ["a"],
               workers := map[1 := Returned(Outcome("a", Success, Executed))])
    ensures Calm(c, s, [Effect(1, "a"), Succeed(1), SettleAt(1, true)])
  {
    RunThree(c, s, Effect(1, "a"), Succeed(1), SettleAt(1, true));
    CalmThree(c, s, Effect(1, "a"), Succeed(1), SettleAt(1, true));
  }

  /** The key expires and worker 2 arrives. */
  lemma Expires(c: Config, ttl: nat, skew: nat, s: State)
    requires c == Skewed(ttl, skew)
    requires s.now == 0 && s.cell.Some? && s.cell.value.expiresAt == WholeSeconds(ttl) && s.stamps == [0]
    requires s.workers == map[1 := Returned(Outcome("a", Success, Executed))]
    ensures Run(c, s, [Tick(WholeSeconds(ttl)), Expire, Start(2)]) ==
            s.(now := WholeSeconds(ttl), cell := None, stamps := [0, WholeSeconds(ttl)],
               workers := s.workers[2 := Claiming(Claim(1, 2, WholeSeconds(ttl)), WholeSeconds(ttl))])
    ensures Calm(c, s, [Tick(WholeSeconds(ttl)), Expire, Start(2)])
  {
    RunThree(c, s, Tick(WholeSeconds(ttl)), Expire, Start(2));
    CalmThree(c, s, Tick(WholeSeconds(ttl)), Expire, Start(2));
  }

  /** To its clock the absent key is young, and it executes. */
  lemma Repeats(c: Config, ttl: nat, skew: nat, s: State)
    requires c == Skewed(ttl, skew) && skew > Bound(ttl)
    requires s.now == WholeSeconds(ttl) && s.cell.None? && s.ledger == ["a"]
    requires 2 in s.workers && s.workers[2] == Claiming(Claim(1, 2, WholeSeconds(ttl)), WholeSeconds(ttl))
    ensures Run(c, s, [ClaimAt(2, true), Check(2), Effect(2, "b")]).ledger == ["a", "b"]
    ensures Calm(c, s, [ClaimAt(2, true), Check(2), Effect(2, "b")])
  {
    RunThree(c, s, ClaimAt(2, true), Check(2), Effect(2, "b"));
    CalmThree(c, s, ClaimAt(2, true), Check(2), Effect(2, "b"));
  }

  function First(): seq<Label> {
    [Start(1), ClaimAt(1, true), Check(1)] + [Effect(1, "a"), Succeed(1), SettleAt(1, true)]
  }

  function Second(ttl: nat): seq<Label> {
    [Tick(WholeSeconds(ttl)), Expire, Start(2)] + [ClaimAt(2, true), Check(2), Effect(2, "b")]
  }

  /** Up to the bound the clocks agree, in the sense the safety theorems ask for. */
  lemma WithinBoundAgrees(ttl: nat, skew: nat)
    ensures ClocksAgree(Skewed(ttl, skew)) <==> skew <= Bound(ttl)
  {
  }

  /**
   For every TTL that leaves room for the margin: with any clock difference
   beyond the bound, and nobody ever frozen, the effect is duplicated; for
   ordinary TTLs and differences nothing but the bound is violated.
   */
  lemma SkewBoundIsSharp(ttl: nat, skew: nat)
    requires ttl > EXPIRY_MARGIN && skew > Bound(ttl)
    ensures var c := Skewed(ttl, skew);
            && AllPrompt(c, Init(c), First() + Second(ttl))
            && Run(c, Init(c), First() + Second(ttl)).ledger == ["a", "b"]
            && !ClocksAgree(c) && (0 < skew == Bound(ttl) + 1 ==> ClocksAgree(Skewed(ttl, skew - 1)))
            && (ttl > 200 * SECOND && skew < 100 * SECOND ==> GraceCovers(c))
  {
    var c := Skewed(ttl, skew);
    WithinBoundAgrees(ttl, skew);
    if skew > 0 { WithinBoundAgrees(ttl, skew - 1); }
    Claims(c, ttl, skew);
    var s1 := Run(c, Init(c), [Start(1), ClaimAt(1, true), Check(1)]);
    Settles(c, ttl, skew, s1);
    Then(c, Init(c), [Start(1), ClaimAt(1, true), Check(1)], [Effect(1, "a"), Succeed(1), SettleAt(1, true)]);
    var s2 := Run(c, Init(c), First());
    Expires(c, ttl, skew, s2);
    Repeats(c, ttl, skew, Run(c, s2, [Tick(WholeSeconds(ttl)), Expire, Start(2)]));
    Then(c, s2, [Tick(WholeSeconds(ttl)), Expire, Start(2)], [ClaimAt(2, true), Check(2), Effect(2, "b")]);
    Then(c, Init(c), First(), Second(ttl));
    CalmIsAllPrompt(c, Init(c), First() + Second(ttl));
  }
}
