/** Schedules written out step by step, and how to see that nobody outstays an allowance on them. */
module Schedules {
  import opened Wrappers
  import opened Records
  import opened Fence

  lemma RunThree(c: Config, s: State, x: Label, y: Label, z: Label)
    ensures Run(c, s, [x, y, z]) == Do(c, Do(c, Do(c, s, x), y), z)
  {
    assert [x, y, z][1..] == [y, z] && [y, z][1..] == [z];
    assert Run(c, Do(c, Do(c, s, x), y), [z]) == Do(c, Do(c, Do(c, s, x), y), z);
  }

  lemma RunTwo(c: Config, s: State, x: Label, y: Label)
    ensures Run(c, s, [x]) == Do(c, s, x) && Run(c, s, [x, y]) == Do(c, Do(c, s, x), y)
  {
    assert [x][1..] == [] && [x, y][1..] == [y] && [y][1..] == [];
    assert Run(c, Do(c, s, x), [y]) == Do(c, Do(c, s, x), y);
  }

  /** Nobody is in a phase that has an allowance. */
  predicate Idle(c: Config, s: State) {
    forall w | w in s.workers :: Allowance(c, s.workers[w]).None?
  }

  /** Time passes only while everybody is idle. */
  ghost predicate Calm(c: Config, s: State, ls: seq<Label>)
    decreases |ls|
  {
    ls == [] || ((ls[0].Tick? ==> Idle(c, s)) && Calm(c, Do(c, s, ls[0]), ls[1..]))
  }

  lemma {:induction false} CalmAppend(c: Config, s: State, a: seq<Label>, b: seq<Label>)
    requires Calm(c, s, a) && Calm(c, Run(c, s, a), b)
    ensures Calm(c, s, a + b)
    decreases |a|
  {
    if a == [] {
      assert a + b == b;
    } else {
      assert (a + b)[0] == a[0] && (a + b)[1..] == a[1..] + b;
      CalmAppend(c, Do(c, s, a[0]), a[1..], b);
    }
  }

  lemma CalmThree(c: Config, s: State, x: Label, y: Label, z: Label)
    requires x.Tick? ==> Idle(c, s)
    requires y.Tick? ==> Idle(c, Do(c, s, x))
    requires z.Tick? ==> Idle(c, Do(c, Do(c, s, x), y))
    ensures Calm(c, s, [x, y, z])
  {
    var t := Do(c, Do(c, s, x), y);
    assert [x, y, z][1..] == [y, z] && [y, z][1..] == [z] && [z][1..] == [];
    assert Calm(c, Do(c, t, z), []);
    assert Calm(c, t, [z]);
    assert Calm(c, Do(c, s, x), [y, z]);
  }

  lemma CalmTwo(c: Config, s: State, x: Label, y: Label)
    requires !x.Tick? && !y.Tick?
    ensures Calm(c, s, [x, y])
  {
    assert [x, y][1..] == [y] && [y][1..] == [];
    assert Calm(c, Do(c, Do(c, s, x), y), []);
    assert Calm(c, Do(c, s, x), [y]);
  }

  lemma {:induction false} CalmIsPrompt(c: Config, s: State, ls: seq<Label>, w: nat)
    requires OnTime(c, s, w) && Calm(c, s, ls)
    ensures Prompt(c, s, ls, w)
    decreases |ls|
  {
    if ls != [] {
      if !ls[0].Tick? { StepOnTime(c, s, ls[0], w); }
      CalmIsPrompt(c, Do(c, s, ls[0]), ls[1..], w);
    }
  }

  lemma CalmIsAllPrompt(c: Config, s: State, ls: seq<Label>)
    requires (forall w | w in s.workers :: OnTime(c, s, w)) && Calm(c, s, ls)
    ensures AllPrompt(c, s, ls)
  {
    forall w: nat ensures Prompt(c, s, ls, w) {
      CalmIsPrompt(c, s, ls, w);
    }
  }

  lemma Then(c: Config, s: State, a: seq<Label>, b: seq<Label>)
    requires Calm(c, s, a) && Calm(c, Run(c, s, a), b)
    ensures Run(c, s, a + b) == Run(c, Run(c, s, a), b) && Calm(c, s, a + b)
  {
    RunAppend(c, s, a, b);
    CalmAppend(c, s, a, b);
  }

  // ---------------------------------------------------------- a sample to try

  const ID := Ident("r", "t", "open_pr", "h")

  /** Exact clocks, nobody ever dawdling, and the settings' default TTL and grace. */
  const SAMPLE := Config(ID, 1, 0, 0, 20 * SECOND, 30 * SECOND, 86_400 * SECOND, true, 0, 0, map[])

  /** Worker w's claim, drawn at `at` as token number `token`. */
  function Claim(token: nat, w: nat, at: int): Rec {
    Rec(ClaimedState, ID, 1, token, w, at, None, None, None, None)
  }
}
