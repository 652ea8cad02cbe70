/**
 The outside world of the mock tools: an append-only file, and open_pr over it
 (internal/tools/ledger.go, mock_open_pr.go). Every write may fail, or fail
 half way.
 */
module Ledger {
  import opened Wrappers
  import opened Records
  import opened World
  import IdemKey

  datatype Entry = Entry(runId: string, toolUseId: string, toolName: string, key: string, result: string)

  /** The file as it was written: entries, some of them cut short, and line ends. */
  datatype Chunk = Line(entry: Entry, whole: bool) | Newline

  datatype LedgerError = Definite | OutcomeUnknown | Unreadable

  /** What reading the file yields: a line decodes if it is one whole entry and nothing else. */
  function Parse(file: seq<Chunk>): (r: Result<seq<Entry>, LedgerError>)
    ensures r.Err? ==> r.error == Unreadable
  {
    if file == [] then Ok([])
    else if file[0].Newline? then Parse(file[1..])
    else if !file[0].whole || (|file| > 1 && file[1].Line?) then Err(Unreadable)
    else
      var rest :- Parse(file[1..]);
      Ok([file[0].entry] + rest)
  }

  function Prepend(out: seq<Entry>, rest: Result<seq<Entry>, LedgerError>): Result<seq<Entry>, LedgerError> {
    if rest.Ok? then Ok(out + rest.value) else rest
  }

  lemma PrependNone(file: seq<Chunk>)
    ensures Parse(file[0..]) == Parse(file) && Prepend([], Parse(file)) == Parse(file)
  {
    assert file[0..] == file;
    if Parse(file).Ok? { assert [] + Parse(file).value == Parse(file).value; }
  }

  lemma PrependNext(file: seq<Chunk>, i: nat, out: seq<Entry>)
    requires i < |file|
    ensures var here, next := Parse(file[i..]), Parse(file[i + 1..]);
            if file[i].Newline? then here == next
            else if !file[i].whole || (i + 1 < |file| && file[i + 1].Line?) then here.Err?
            else Prepend(out, here) == Prepend(out + [file[i].entry], next)
  {
    assert file[i..][0] == file[i] && file[i..][1..] == file[i + 1..];
    assert |file[i..]| > 1 <==> i + 1 < |file|;
    if i + 1 < |file| { assert file[i..][1] == file[i + 1]; }
    var next := Parse(file[i + 1..]);
    if next.Ok? && file[i].Line? {
      assert out + ([file[i].entry] + next.value) == (out + [file[i].entry]) + next.value;
    }
  }

  /** The effects under one key, as the outside world counts them. */
  function Effects(file: seq<Chunk>, key: string): seq<string> {
    if file == [] then []
    else (if file[0].Line? && file[0].whole && file[0].entry.key == key then [file[0].entry.result] else []) + Effects(file[1..], key)
  }

  function ResultsOf(entries: seq<Entry>, key: string): seq<string> {
    if entries == [] then []
    else (if entries[0].key == key then [entries[0].result] else []) + ResultsOf(entries[1..], key)
  }

  function CountOf(entries: seq<Entry>, runId: string, toolName: string): nat {
    if entries == [] then 0
    else (if entries[0].runId == runId && entries[0].toolName == toolName then 1 else 0) + CountOf(entries[1..], runId, toolName)
  }

  /** Counting counts each entry once, exactly if it is of this run and this tool. */
  lemma {:induction false} CountLaws(a: seq<Entry>, b: seq<Entry>, runId: string, toolName: string)
    ensures CountOf(a + b, runId, toolName) == CountOf(a, runId, toolName) + CountOf(b, runId, toolName)
    decreases |a|
  {
    if a == [] {
      assert a + b == b;
    } else {
      assert (a + b)[0] == a[0] && (a + b)[1..] == a[1..] + b;
      CountLaws(a[1..], b, runId, toolName);
    }
  }

  lemma CountOne(e: Entry, runId: string, toolName: string)
    ensures CountOf([e], runId, toolName) == if e.runId == runId && e.toolName == toolName then 1 else 0
    ensures forall key :: ResultsOf([e], key) == if e.key == key then [e.result] else []
  {
    assert [e][1..] == [];
  }

  lemma {:induction false} EffectsAppend(a: seq<Chunk>, b: seq<Chunk>, key: string)
    ensures Effects(a + b, key) == Effects(a, key) + Effects(b, key)
  {
    if a == [] {
      assert a + b == b;
    } else {
      assert (a + b)[0] == a[0] && (a + b)[1..] == a[1..] + b;
      EffectsAppend(a[1..], b, key);
    }
  }

  /** What a reader sees under a key is what happened under it. */
  lemma {:induction false} ReadersSeeEffects(file: seq<Chunk>, key: string)
    requires Parse(file).Ok?
    ensures ResultsOf(Parse(file).value, key) == Effects(file, key)
  {
    if file != [] {
      ReadersSeeEffects(file[1..], key);
      if file[0].Line? {
        var rest := Parse(file[1..]).value;
        assert ([file[0].entry] + rest)[1..] == rest;
      }
    }
  }

  /** What an append may leave behind: `n` says how far it got. */
  function Written(e: Entry, n: nat): seq<Chunk> {
    if n == 0 then [] else if n == 1 then [Line(e, false)] else if n == 2 then [Line(e, true)] else [Line(e, true), Newline]
  }

  lemma WrittenEffects(e: Entry, n: nat, key: string)
    ensures Effects(Written(e, n), key) == if n >= 2 && e.key == key then [e.result] else []
  {
    assert Effects([Newline], key) == [] && Effects([Line(e, n >= 2)][1..], key) == [];
    if n > 2 {
      assert [Line(e, true), Newline][1..] == [Newline];
    }
  }

  class Ledger {
    var file: seq<Chunk>
    /** How often the file could not be read, or a write failed or was cancelled. */
    ghost var faults: nat

    constructor ()
      ensures file == [] && faults == 0
    {
      file, faults := [], 0;
    }

    /** One write, then fsync, then close. Only before the write is a failure a definite one. */
    method Record(e: Entry) returns (r: Result<(), LedgerError>)
      modifies this
      ensures r.Ok? ==> file == old(file) + Written(e, 3)
      ensures r == Err(Definite) ==> file == old(file)
      ensures r == Err(OutcomeUnknown) ==> exists n: nat :: n <= 3 && file == old(file) + Written(e, n)
      ensures r != Err(Unreadable) && faults == old(faults) + if r.Ok? then 0 else 1
    {
      var fault: nat, n: nat := *, *;
      faults := faults + if fault <= 3 && (fault != 1 || n < 3) then 1 else 0;
      if fault == 0 {
        return Err(Definite);
      }
      if fault == 1 && n < 3 {
        file := file + Written(e, n);
        r := if n > 0 then Err(OutcomeUnknown) else Err(Definite);
        return;
      }
      file := file + Written(e, 3);
      if fault == 2 || fault == 3 {
        return Err(OutcomeUnknown);
      }
      r := Ok(());
    }

    /** Every entry, in append order. */
    method Entries() returns (r: Result<seq<Entry>, LedgerError>)
      modifies this`faults
      ensures r.Ok? ==> r == Parse(file)
      ensures r.Err? ==> r.error == Unreadable && (faults > old(faults) || Parse(file).Err?)
      ensures faults >= old(faults)
    {
      var unavailable: bool := *;
      if unavailable {
        faults := faults + 1;
        return Err(Unreadable);
      }
      var out: seq<Entry>, i := [], 0;
      PrependNone(file);
      while i < |file|
        invariant 0 <= i <= |file| && faults == old(faults)
        invariant Parse(file) == Prepend(out, Parse(file[i..]))
      {
        PrependNext(file, i, out);
        if file[i].Line? {
          if !file[i].whole || (i + 1 < |file| && file[i + 1].Line?) {
            return Err(Unreadable);
          }
          out := out + [file[i].entry];
        }
        i := i + 1;
      }
      assert out + [] == out;
      r := Ok(out);
    }

    /** The first entry recorded under `key`. */
    method FindByKey(key: string) returns (r: Result<Option<Entry>, LedgerError>)
      modifies this`faults
      ensures faults >= old(faults)
      ensures r.Ok? ==> Parse(file).Ok?
      ensures r.Ok? && r.value.None? ==> ResultsOf(Parse(file).value, key) == []
      ensures r.Ok? && r.value.Some? ==> r.value.value.key == key && [r.value.value.result] <= ResultsOf(Parse(file).value, key)
      ensures r.Err? ==> r.error == Unreadable && (faults > old(faults) || Parse(file).Err?)
    {
      var entries :- Entries();
      var i := 0;
      while i < |entries|
        invariant 0 <= i <= |entries|
        invariant ResultsOf(entries[i..], key) == ResultsOf(entries, key)
      {
        assert entries[i..][0] == entries[i] && entries[i..][1..] == entries[i + 1..];
        if entries[i].key == key {
          return Ok(Some(entries[i]));
        }
        i := i + 1;
      }
      r := Ok(None);
    }
  }

  method CountEntries(entries: seq<Entry>, runId: string, toolName: string) returns (n: nat)
    ensures n == CountOf(entries, runId, toolName)
  {
    n := 0;
    var i := 0;
    while i < |entries|
      invariant 0 <= i <= |entries|
      invariant n + CountOf(entries[i..], runId, toolName) == CountOf(entries, runId, toolName)
    {
      assert entries[i..][0] == entries[i] && entries[i..][1..] == entries[i + 1..];
      if entries[i].runId == runId && entries[i].toolName == toolName {
        n := n + 1;
      }
      i := i + 1;
    }
  }

  datatype Invocation = Invocation(runId: string, step: int, toolUseId: string, key: Option<string>)

  const OPEN_PR := "open_pr"

  function EntryKey(inv: Invocation): string {
    if inv.key.Some? then inv.key.value else ""
  }

  class OpenPR {
    const ledger: Ledger

    constructor (ledger: Ledger)
      ensures this.ledger == ledger
    {
      this.ledger := ledger;
    }

    /**
     Opens the pull request; `title` is None when the arguments do not decode.
     A result means exactly one more effect under the invocation's key; an error
     other than "unknown" means none; other keys never notice.
     */
    method Execute(inv: Invocation, title: Option<string>) returns (r: Result<string, LedgerError>)
      modifies ledger
      ensures old(ledger.file) <= ledger.file
      ensures forall key | key != EntryKey(inv) :: Effects(ledger.file, key) == Effects(old(ledger.file), key)
      ensures var key := EntryKey(inv);
              match r
              case Ok(result) => Effects(ledger.file, key) == Effects(old(ledger.file), key) + [result]
              case Err(OutcomeUnknown) =>
                Effects(old(ledger.file), key) <= Effects(ledger.file, key)
                && |Effects(ledger.file, key)| <= |Effects(old(ledger.file), key)| + 1
              case Err(_) => ledger.file == old(ledger.file)
      ensures title.None? ==> r.Err? && r.error != OutcomeUnknown
      ensures r.Err? ==> ledger.faults > old(ledger.faults) || title.None? || Parse(old(ledger.file)).Err?
      ensures r.Ok? ==>
                ledger.file == old(ledger.file) + [Line(Entry(inv.runId, inv.toolUseId, OPEN_PR, EntryKey(inv), r.value), true), Newline]
      ensures r.Ok? ==> title.Some? && Parse(old(ledger.file)).Ok?
      ensures r.Ok? ==> r.value == "opened PR #" + IdemKey.Decimal(CountOf(Parse(old(ledger.file)).value, inv.runId, OPEN_PR) + 1) + ": " + title.value
    {
      var cancelled: bool := *;
      if cancelled || title.None? {
        ledger.faults := ledger.faults + if cancelled then 1 else 0;
        return Err(Definite);
      }
      var existing := ledger.Entries();
      if existing.Err? {
        return Err(Definite);
      }
      var count := CountEntries(existing.value, inv.runId, OPEN_PR);
      var result := "opened PR #" + IdemKey.Decimal(count + 1) + ": " + title.value;
      var entry := Entry(inv.runId, inv.toolUseId, OPEN_PR, EntryKey(inv), result);
      var recorded := ledger.Record(entry);
      AppendedEffects(old(ledger.file), ledger.file, entry);
      assert recorded.Err? && recorded.error == OutcomeUnknown ==> exists n: nat :: n <= 3 && ledger.file == old(ledger.file) + Written(entry, n);
      r := if recorded.Ok? then Ok(result) else Err(recorded.error);
    }

    /**
     The same call as the fence sees it: on a key with no effect yet it meets
     exactly the contract the fence's safety rests on.
     */
    method Call(inv: Invocation, title: Option<string>) returns (r: ExecResult)
      requires Effects(ledger.file, EntryKey(inv)) == []
      modifies ledger
      ensures ExecuteMeans(None, FirstOf(Effects(ledger.file, EntryKey(inv))), r) && |Effects(ledger.file, EntryKey(inv))| <= 1
    {
      var result := Execute(inv, title);
      match result
      case Ok(text) => r := Done(text);
      case Err(OutcomeUnknown) => r := Unknown;
      case Err(_) => r := Refused("open_pr failed");
    }

    /** Was a pull request already opened under this key? The answer is the fence's own lookup of the outside world. */
    method Reconcile(inv: Invocation) returns (r: Result<Option<string>, LedgerError>)
      modifies ledger`faults
      ensures r.Err? ==> inv.key.None? || ledger.faults > old(ledger.faults) || Parse(ledger.file).Err?
      ensures r.Ok? ==> inv.key.Some? && r.value == FirstOf(Effects(ledger.file, inv.key.value))
    {
      if inv.key.None? {
        return Err(Definite);
      }
      var entry :- ledger.FindByKey(inv.key.value);
      ReadersSeeEffects(ledger.file, inv.key.value);
      r := Ok(if entry.Some? then Some(entry.value.result) else None);
    }
  }

  /** However far an append got, it added at most its own effect. */
  lemma AppendedEffects(before: seq<Chunk>, after: seq<Chunk>, e: Entry)
    ensures forall n: nat, key | after == before + Written(e, n) ::
              Effects(after, key) == if n >= 2 && e.key == key then Effects(before, key) + [e.result] else Effects(before, key)
  {
    forall n: nat, key | after == before + Written(e, n)
      ensures Effects(after, key) == if n >= 2 && e.key == key then Effects(before, key) + [e.result] else Effects(before, key)
    {
      EffectsAppend(before, Written(e, n), key);
      WrittenEffects(e, n, key);
    }
  }

  /** A line cut short makes the ledger unreadable for good: no append repairs it. */
  lemma {:induction false} TornBlocksForever(before: seq<Chunk>, e: Entry, after: seq<Chunk>)
    ensures Parse(before + [Line(e, false)] + after) == Err(Unreadable)
  {
    var file := before + [Line(e, false)] + after;
    if before == [] {
      assert file[0] == Line(e, false);
    } else {
      assert file[0] == before[0] && file[1..] == before[1..] + [Line(e, false)] + after;
      TornBlocksForever(before[1..], e, after);
    }
  }

  /**
   The file stays readable exactly when its last line has been ended and every
   line is whole: then any completed append leaves it readable and adds its entry.
   */
  lemma {:induction false} AppendReads(file: seq<Chunk>, e: Entry)
    ensures Parse(file + Written(e, 3)).Ok? <==> Parse(file).Ok? && (file == [] || file[|file| - 1].Newline?)
    ensures Parse(file + Written(e, 3)).Ok? ==> Parse(file + Written(e, 3)).value == Parse(file).value + [e]
  {
    var more := file + Written(e, 3);
    if file == [] {
      assert more == [Line(e, true), Newline] && more[1..] == [Newline] && [Newline][1..] == [];
      assert Parse([Newline]) == Ok([]);
    } else {
      assert more[0] == file[0] && more[1..] == file[1..] + Written(e, 3);
      AppendReads(file[1..], e);
      if |file| == 1 {
        assert more[1] == Line(e, true);
      } else {
        assert more[1] == file[1];
      }
    }
  }
}
