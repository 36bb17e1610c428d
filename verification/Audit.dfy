/** Class AuditStore: append, retention, validation and the cache bookkeeping, performed as the store
    performs them, against the functions of AuditChain and AuditCache. */
module Audit {
  import opened Domain
  import opened AuditChain
  import opened AuditCache

  /** The head and event tables, one scope's partition of them. */
  class Database {
    var head: Option<Head>
    var rows: seq<Row>

    constructor ()
      ensures head == None && rows == []
    {
      head, rows := None, [];
    }

    function State(): Partition
      reads this
    {
      Partition(head, rows)
    }
  }

  class AuditStore {
    const codec: Codec
    const costs: Costs
    var slots: seq<Slot>
    var bytes: int

    ghost predicate Valid()
      reads this
    {
      AuditCache.Bounded(Cache(slots, bytes))
    }

    constructor (codec: Codec, costs: Costs)
      ensures Valid() && this.codec == codec && this.costs == costs && slots == []
    {
      this.codec, this.costs := codec, costs;
      slots, bytes := [], 0;
    }

    /** The validation loop, carrying the hash of the previous row. */
    method ValidateState(scope: Scope, head: Option<Head>, rows: seq<Row>, cached: Evidence) returns (ok: bool)
      ensures ok == ValidState(codec, scope, head, rows, cached)
    {
      if head == None { return rows == []; }
      var h := head.value;
      if !HeadOk(scope, h, |rows|) { return false; }
      var previous, base := h.baseHash.s, h.base.n;
      for i := 0 to |rows|
        invariant Chained(codec, scope, rows, base + 1, h.baseHash.s, h.endHash.s, cached)
             <==> Chained(codec, scope, rows[i..], base + 1 + i, previous, h.endHash.s, cached)
      {
        var row, expected := rows[i], base + 1 + i;
        assert rows[i..][0] == row && rows[i..][1..] == rows[i + 1..];
        if row.sequence != Int(expected) || !InScope(row.project, row.profile, row.chat, scope) || row.prevHash != Text(previous) {
          return false;
        }
        if !row.payload.Text? || |row.payload.s| > MAX_TEXT || !row.eventHash.Text? || !IsHash(row.eventHash.s) {
          return false;
        }
        if expected in cached && cached[expected] == row {
          previous := row.eventHash.s;
          continue;
        }
        var parsed := codec.parse(row.payload.s);
        if parsed == None { return false; }
        var record := parsed.value;
        var at := codec.unstamp(record.timestamp);
        if at == None { return false; }
        if record.schema != SCHEMA || record.sequence != expected || record.scope != scope
           || row.at != Text(record.timestamp) || row.atUs != Int(at.value)
           || codec.chain(record, previous) != row.eventHash.s {
          return false;
        }
        previous := row.eventHash.s;
      }
      assert rows[|rows|..] == [];
      return previous == h.endHash.s;
    }

    /** `_prune`: find the last aged row and the excess, move the base past them, delete them. */
    method Prune(db: Database, now: int)
      requires db.head.Some? && db.head.value.count.Int? && db.head.value.count.n == |db.rows|
      modifies db
      ensures db.State() == Pruned(old(db.State()), now)
    {
      var cutoff := now - MAX_AGE_US;
      // SELECT ... WHERE occurred_at_us <= cutoff ORDER BY sequence DESC LIMIT 1
      var last := |db.rows|;
      while last > 0 && !(db.rows[last - 1].atUs.Int? && db.rows[last - 1].atUs.n <= cutoff)
        invariant 0 <= last <= |db.rows|
        invariant AgedPrefix(db.rows, cutoff, |db.rows|) == AgedPrefix(db.rows, cutoff, last)
      {
        last := last - 1;
      }
      var excess := db.head.value.count.n - MAX_EVENTS;
      if excess > last { last := excess; }
      if last > 0 {
        var anchor := db.rows[last - 1];
        db.head := Some(db.head.value.(base := anchor.sequence, baseHash := anchor.eventHash,
                                       count := Int(db.head.value.count.n - last)));
        db.rows := db.rows[last..];
      }
    }

    method FindSlot(key: Key) returns (rows: Evidence)
      ensures rows == Lookup(slots, key)
    {
      var i := 0;
      while i < |slots|
        invariant 0 <= i <= |slots| && Lookup(slots, key) == Lookup(slots[i..], key)
      {
        if slots[i].key == key { return slots[i].rows; }
        i := i + 1;
      }
      return map[];
    }

    /** `_publish_cache`: size the rows, replace the scope's slot, evict oldest first. */
    method PublishCache(key: Key, rows: seq<Row>)
      requires Valid()
      modifies this
      ensures Valid() && slots == Published(costs, old(slots), key, rows)
    {
      var signatures: Evidence, size, i := map[], costs.key(key), 0;
      var fits := true;
      while i < |rows| && fits
        invariant 0 <= i <= |rows| && size == costs.key(key) + RowsCost(costs, rows[..i])
        invariant if fits then signatures == Signatures(rows[..i]) && (i > 0 ==> size <= MAX_BYTES) else i > 0 && size > MAX_BYTES
      {
        assert rows[..i + 1][..i] == rows[..i];
        size := size + costs.row(rows[i]);
        i := i + 1;
        if size > MAX_BYTES {
          fits := false;
        } else if rows[i - 1].sequence.Int? {
          signatures := signatures[rows[i - 1].sequence.n := rows[i - 1]];
        }
      }
      RowsCostGrows(costs, rows, i);
      assert rows[..|rows|] == rows;
      var publish := fits && rows != [];
      DropSlot(key);
      if !publish { size := 0; }
      while slots != [] && (bytes + size > MAX_BYTES || |slots| >= MAX_SCOPES)
        invariant bytes == Bytes(slots) && Evicted(slots, size) == Evicted(Without(old(slots), key), size)
      {
        bytes := bytes - slots[0].size;
        slots := slots[1..];
      }
      if publish {
        BytesAppend(slots, Slot(key, signatures, size));
        slots := slots + [Slot(key, signatures, size)];
        bytes := bytes + size;
      }
    }

    /** Pop the slot of a key, if there is one. */
    method DropSlot(key: Key)
      requires bytes == Bytes(slots)
      modifies this
      ensures slots == Without(old(slots), key) && bytes == Bytes(slots)
    {
      var kept, rest := [], slots;
      while rest != [] && rest[0].key != key
        invariant kept + Without(rest, key) == Without(old(slots), key)
        invariant Bytes(kept) + Bytes(rest) == bytes && slots == old(slots) && bytes == old(bytes)
      {
        BytesAppend(kept, rest[0]);
        assert kept + [rest[0]] + Without(rest[1..], key) == kept + Without(rest, key);
        kept, rest := kept + [rest[0]], rest[1..];
      }
      if rest != [] { bytes := bytes - rest[0].size; }
      BytesConcat(kept, Without(rest, key));
      slots := kept + if rest == [] then [] else rest[1..];
    }

    /** The INSERT of the event row and the UPDATE of the head, before retention. */
    method Extend(db: Database, scope: Scope, event: string, now: int)
      requires Typed(HeadOr(scope, db.head))
      modifies db
      ensures db.State() == Extended(codec, scope, old(db.State()), event, now)
    {
      var sequence, previous, count := 1, ZERO_HASH, 0;
      var base, baseHash := 0, ZERO_HASH;
      if db.head != None {
        var head := db.head.value;
        sequence, previous, count := head.end.n + 1, head.endHash.s, head.count.n;
        base, baseHash := head.base.n, head.baseHash.s;
      }
      var record := Record(SCHEMA, sequence, codec.stamp(now), scope, event);
      db.rows := db.rows + [NewRow(codec, scope, record, now, previous)];
      db.head := Some(NewHead(scope, base, baseHash, sequence, codec.chain(record, previous), count + 1));
    }

    /** One append transaction; a state that does not validate is left as it is and the cache is
        cleared. */
    method Append(db: Database, key: Key, event: string, now: int) returns (ok: bool)
      requires Valid()
      modifies this, db
      ensures Valid()
      ensures var outcome := AuditChain.Append(codec, key.scope, old(db.State()), Lookup(old(slots), key), event, now);
              && ok == outcome.Some?
              && db.State() == (if ok then outcome.value else old(db.State()))
              && slots == (if ok then Published(costs, old(slots), key, Read(old(db.rows))) else [])
    {
      var rows := if |db.rows| <= READ_LIMIT then db.rows else db.rows[..READ_LIMIT];
      var cached := FindSlot(key);
      var valid := ValidateState(key.scope, db.head, rows, cached);
      if !valid {
        slots, bytes := [], 0;
        return false;
      }
      ValidHasCount(codec, key.scope, db.State(), cached);
      Extend(db, key.scope, event, now);
      Prune(db, now);
      PublishCache(key, rows);
      return true;
    }
  }

  lemma ValidHasCount(c: Codec, scope: Scope, p: Partition, cached: Evidence)
    requires ValidState(c, scope, p.head, Read(p.rows), cached)
    ensures Typed(HeadOr(scope, p.head)) && HeadOr(scope, p.head).count.n == |p.rows|
  {}

  lemma {:induction false} RowsCostGrows(cost: Costs, rows: seq<Row>, i: nat)
    requires i <= |rows|
    ensures RowsCost(cost, rows[..i]) <= RowsCost(cost, rows)
    decreases |rows|
  {
    if i == |rows| {
      assert rows[..i] == rows;
    } else {
      var n := |rows| - 1;
      assert rows[..n][..i] == rows[..i];
      RowsCostGrows(cost, rows[..n], i);
    }
  }

  lemma {:induction false} BytesConcat(a: seq<Slot>, b: seq<Slot>)
    ensures Bytes(a + b) == Bytes(a) + Bytes(b)
  {
    if a == [] {
      assert a + b == b;
    } else {
      assert (a + b)[1..] == a[1..] + b;
      BytesConcat(a[1..], b);
    }
  }
}
