/**
 The ledger file behind open_pr, followed through everything that happens on
 the keys of any number of runs: what the fence and the journal say of a key is
 what the file holds under it.
 */
module PullRequests {
  import opened Wrappers
  import opened Events
  import Replay
  import opened Fence
  import opened Ledger
  import opened World
  import EndToEnd
  import FenceSafety
  import Loop

  // ------------------------------------------------- the file along a schedule

  /**
   One step on `key`, seen in the file: it is only appended to, and gains under
   the key exactly the effects that the step makes. Lines of other keys, and
   lines cut short, may come in between.
   */
  ghost predicate Shows(c: Config, s: State, l: Label, key: string, before: seq<Chunk>, after: seq<Chunk>) {
    && before <= after && s.ledger <= Do(c, s, l).ledger
    && Effects(after, key) == Effects(before, key) + Do(c, s, l).ledger[|s.ledger|..]
  }

  /** `files` are the file's contents before and after every step of the schedule. */
  ghost predicate Follows(c: Config, s: State, ls: seq<Label>, key: string, files: seq<seq<Chunk>>)
    decreases |ls|
  {
    && |files| == |ls| + 1
    && (ls != [] ==> Shows(c, s, ls[0], key, files[0], files[1]) && Follows(c, Do(c, s, ls[0]), ls[1..], key, files[1..]))
  }

  lemma {:induction false} FileShowsLedger(c: Config, s: State, ls: seq<Label>, key: string, files: seq<seq<Chunk>>)
    requires Follows(c, s, ls, key, files) && Effects(files[0], key) == s.ledger
    ensures Effects(files[|ls|], key) == Run(c, s, ls).ledger
    decreases |ls|
  {
    if ls != [] {
      var t := Do(c, s, ls[0]);
      assert s.ledger + t.ledger[|s.ledger|..] == t.ledger;
      FileShowsLedger(c, t, ls[1..], key, files[1..]);
    }
  }

  /** Over any prompt schedule the file never holds two pull requests under one key. */
  lemma OnePullRequest(c: Config, ls: seq<Label>, key: string, files: seq<seq<Chunk>>)
    requires FenceSafety.Timed(c) && AllPrompt(c, Init(c), ls)
    requires Follows(c, Init(c), ls, key, files) && Effects(files[0], key) == []
    ensures |Effects(files[|ls|], key)| <= 1
  {
    FileShowsLedger(c, Init(c), ls, key, files);
    FenceSafety.AtMostOneEffect(c, ls);
  }

  // --------------------------------------------------------- the tool's own steps

  lemma EffectShows(c: Config, s: State, w: nat, result: string, key: string, before: seq<Chunk>, after: seq<Chunk>)
    requires w in s.workers && s.workers[w].Executing? && s.workers[w].effect.None?
    requires before <= after && Effects(after, key) == Effects(before, key) + [result]
    ensures Shows(c, s, Effect(w, result), key, before, after)
  {
    assert Do(c, s, Effect(w, result)).ledger == s.ledger + [result];
  }

  /** Which step of the fence a call of open_pr was: its effect, or nothing at all. */
  ghost predicate CallShows(c: Config, s: State, w: nat, key: string, before: seq<Chunk>, after: seq<Chunk>, done: Option<string>) {
    match done
    case None => before <= after && Effects(after, key) == Effects(before, key)
    case Some(result) => Shows(c, s, Effect(w, result), key, before, after)
  }

  /**
   open_pr, called by a worker that may execute: whatever it wrote is either the
   fence's effect step or no step, its answer keeps the tool contract, and for
   every other key it is no step.
   */
  method Execute(pr: OpenPR, inv: Invocation, title: Option<string>, ghost c: Config, ghost s: State, ghost w: nat)
      returns (r: ExecResult, ghost done: Option<string>)
    requires w in s.workers && s.workers[w].Executing? && s.workers[w].effect.None?
    requires Effects(pr.ledger.file, EntryKey(inv)) == s.ledger
    modifies pr.ledger
    ensures CallShows(c, s, w, EntryKey(inv), old(pr.ledger.file), pr.ledger.file, done) && ExecuteMeans(None, done, r)
    ensures forall key | key != EntryKey(inv) :: CallShows(c, s, w, key, old(pr.ledger.file), pr.ledger.file, None)
  {
    ghost var key, before := EntryKey(inv), pr.ledger.file;
    var result := pr.Execute(inv, title);
    done := if |Effects(pr.ledger.file, key)| > |s.ledger| then Some(Effects(pr.ledger.file, key)[|s.ledger|]) else None;
    if done.Some? { EffectShows(c, s, w, done.value, key, before, pr.ledger.file); }
    match result
    case Ok(text) => r := Done(text);
    case Err(OutcomeUnknown) => r := Unknown;
    case Err(_) => r := Refused("open_pr failed");
  }

  /** Asked whether it took effect, open_pr answers what the fence's lookup does. */
  method Reconcile(pr: OpenPR, inv: Invocation, ghost s: State) returns (r: Result<Option<string>, LedgerError>)
    requires Effects(pr.ledger.file, EntryKey(inv)) == s.ledger
    modifies pr.ledger`faults
    ensures r.Ok? ==> r.value == Lookup(s)
  {
    r := pr.Reconcile(inv);
  }

  // ---------------------------------------------------------------- the journal

  /**
   What the journal says of a pull request is what the file holds under its key:
   after a success exactly one entry, with the journaled result; after an error none.
   */
  lemma JournaledPullRequest(l: Loop.Loop, s: Replay.RunState, r: ToolResult, key: string, files: seq<seq<Chunk>>)
    requires l.Live(s) && EndToEnd.ResultUnder(l.log, s, r, key)
    requires key in l.fences ==>
               var k := l.fences[key];
               EndToEnd.KeyTimed(k) && Follows(k.c, Init(k.c), k.trace, key, files) && Effects(files[0], key) == []
    ensures files != [] && FenceSafety.Agrees(Effects(files[|files| - 1], key), r.status, r.result)
  {
    EndToEnd.JournaledResultIsTrue(l, s, r, key);
    var k := l.fences[key];
    EndToEnd.ResultHasKey(l.log, l.fences, s, r, key);
    EndToEnd.KeyMeans(k);
    FileShowsLedger(k.c, Init(k.c), k.trace, key, files);
  }
}
