/** The Redis store (internal/idempotency/store.go): atomic operations on keys that expire. */
module Store {
  import opened Wrappers
  import opened Records

  datatype StoreError = ClaimLost | CorruptRecord | Unavailable

  class RedisStore {
    const ttl: nat
    var cells: map<string, Cell>

    constructor (ttl: nat)
      ensures this.ttl == ttl && cells == map[]
    {
      this.ttl, cells := ttl, map[];
    }

    function At(key: string): Option<Cell>
      reads this
    {
      if key in cells then Some(cells[key]) else None
    }

    /** Only `key` may have changed. */
    twostate predicate OnlyKey(key: string)
      reads this
    {
      cells - {key} == old(cells) - {key}
    }

    /** SET key rec NX GET EX ttl. */
    method Claim(key: string, rec: Rec, now: int) returns (r: Result<ClaimReply, StoreError>)
      modifies this
      ensures var (cell, reply) := ClaimCell(old(At(key)), rec, now, ttl);
              At(key) == cell && r == (if reply.CorruptExisting? then Err(CorruptRecord) else Ok(reply))
      ensures OnlyKey(key)
    {
      if key !in cells {
        cells := cells[key := Cell(Good(rec), now + ttl)];
        return Ok(Acquired);
      }
      match cells[key].value
      case Corrupt => r := Err(CorruptRecord);
      case Good(existing) => r := Ok(ClaimReply.Existing(existing));
    }

    method Get(key: string) returns (r: Result<Option<Rec>, StoreError>)
      ensures match At(key)
              case None => r == Ok(None)
              case Some(cell) => r == if cell.value.Good? then Ok(Some(cell.value.rec)) else Err(CorruptRecord)
    {
      if key !in cells { return Ok(None); }
      match cells[key].value
      case Corrupt => r := Err(CorruptRecord);
      case Good(rec) => r := Ok(Some(rec));
    }

    method Resolve(key: string, expected: nat, resolved: Rec, now: int) returns (r: Result<(), StoreError>)
      modifies this
      ensures var (cell, swapped) := CasCell(old(At(key)), expected, resolved, now, ttl);
              At(key) == cell && r == (if swapped then Ok(()) else Err(ClaimLost))
      ensures OnlyKey(key)
    {
      r := CompareAndSet(key, expected, resolved, now);
    }

    method TakeOver(key: string, expected: nat, claimed: Rec, now: int) returns (r: Result<(), StoreError>)
      modifies this
      ensures var (cell, swapped) := CasCell(old(At(key)), expected, claimed, now, ttl);
              At(key) == cell && r == (if swapped then Ok(()) else Err(ClaimLost))
      ensures OnlyKey(key)
    {
      r := CompareAndSet(key, expected, claimed, now);
    }

    /** The script: the key must exist, decode, be claimed, and carry the expected token. */
    method CompareAndSet(key: string, expected: nat, rec: Rec, now: int) returns (r: Result<(), StoreError>)
      modifies this
      ensures var (cell, swapped) := CasCell(old(At(key)), expected, rec, now, ttl);
              At(key) == cell && r == (if swapped then Ok(()) else Err(ClaimLost))
      ensures OnlyKey(key)
    {
      if key !in cells { return Err(ClaimLost); }
      var cur := cells[key].value;
      if cur.Corrupt? || cur.rec.state != ClaimedState || cur.rec.token != expected { return Err(ClaimLost); }
      var ttlSeconds := ttl / SECOND;
      cells := cells[key := Cell(Good(rec), now + ttlSeconds * SECOND)];
      r := Ok(());
    }
  }

  /** A claim never touches a key that is held; it takes effect exactly when the key was absent. */
  lemma ClaimIsExclusive(cell: Option<Cell>, a: Rec, b: Rec, now: int, later: int, ttl: nat)
    requires a.token != b.token
    ensures var (held, first) := ClaimCell(cell, a, now, ttl);
            var (after, second) := ClaimCell(held, b, later, ttl);
            after == held && second != Acquired && (first.Acquired? ==> second == Existing(a))
  {
  }

  /** Of two compare-and-sets expecting the same token, at most one succeeds, whatever happened in between under another token. */
  lemma SwapOnce(cell: Option<Cell>, expected: nat, a: Rec, b: Rec, now: int, later: int, ttl: nat)
    requires a.token != expected || a.state != ClaimedState
    ensures var (held, first) := CasCell(cell, expected, a, now, ttl);
            first ==> CasCell(held, expected, b, later, ttl) == (held, false)
  {
  }
}
