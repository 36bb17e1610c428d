/** The validation cache of the audit store: which rows it remembers, how it is bounded, and why
    using it never changes the outcome of a validation. */
module AuditCache {
  import opened Domain
  import opened AuditChain

  const MAX_BYTES := 32 * 1024 * 1024
  const MAX_SCOPES := 4

  /** A database identity and a scope in it. */
  datatype Key = Key(device: int, inode: int, scope: Scope)

  datatype Slot = Slot(key: Key, rows: Evidence, size: nat)

  /** Slots oldest first, and the running byte count. */
  datatype Cache = Cache(slots: seq<Slot>, bytes: int)

  /** Conservative size accounting: what a key and a row cost. */
  datatype Costs = Costs(key: Key -> nat, row: Row -> nat)

  function Lookup(slots: seq<Slot>, key: Key): Evidence {
    if slots == [] then map[]
    else if slots[0].key == key then slots[0].rows
    else Lookup(slots[1..], key)
  }

  function Without(slots: seq<Slot>, key: Key): seq<Slot> {
    if slots == [] then []
    else if slots[0].key == key then slots[1..]
    else [slots[0]] + Without(slots[1..], key)
  }

  function Bytes(slots: seq<Slot>): nat { if slots == [] then 0 else slots[0].size + Bytes(slots[1..]) }

  function RowsCost(cost: Costs, rows: seq<Row>): nat {
    if rows == [] then 0 else RowsCost(cost, rows[..|rows| - 1]) + cost.row(rows[|rows| - 1])
  }

  /** Rows by their sequence number. */
  function Signatures(rows: seq<Row>): Evidence {
    if rows == [] then map[]
    else
      var last := rows[|rows| - 1];
      var rest := Signatures(rows[..|rows| - 1]);
      if last.sequence.Int? then rest[last.sequence.n := last] else rest
  }

  predicate Full(slots: seq<Slot>, incoming: nat) { Bytes(slots) + incoming > MAX_BYTES || |slots| >= MAX_SCOPES }

  /** Oldest slots go until the incoming one fits. */
  function Evicted(slots: seq<Slot>, incoming: nat): seq<Slot> {
    if slots != [] && Full(slots, incoming) then Evicted(slots[1..], incoming) else slots
  }

  /** Committed rows replace what was remembered of their scope; too large a scope is forgotten. */
  function Published(cost: Costs, slots: seq<Slot>, key: Key, rows: seq<Row>): seq<Slot> {
    var size := cost.key(key) + RowsCost(cost, rows);
    if rows == [] || size > MAX_BYTES then Evicted(Without(slots, key), 0)
    else Evicted(Without(slots, key), size) + [Slot(key, Signatures(rows), size)]
  }

  // ---------------------------------------------------------------- bounds

  predicate Bounded(cache: Cache) {
    && cache.bytes == Bytes(cache.slots) <= MAX_BYTES
    && |cache.slots| <= MAX_SCOPES
  }

  lemma {:induction false} BytesAppend(slots: seq<Slot>, s: Slot)
    ensures Bytes(slots + [s]) == Bytes(slots) + s.size
  {
    if slots != [] {
      assert (slots + [s])[1..] == slots[1..] + [s];
      BytesAppend(slots[1..], s);
    }
  }

  lemma {:induction false} WithoutShrinks(slots: seq<Slot>, key: Key)
    ensures |Without(slots, key)| <= |slots| && Bytes(Without(slots, key)) <= Bytes(slots)
    ensures forall s :: s in Without(slots, key) ==> s in slots
  {
    if slots != [] && slots[0].key != key { WithoutShrinks(slots[1..], key); }
  }

  lemma {:induction false} EvictedFits(slots: seq<Slot>, incoming: nat)
    requires incoming <= MAX_BYTES
    ensures !Full(Evicted(slots, incoming), incoming)
    ensures forall s :: s in Evicted(slots, incoming) ==> s in slots
  {
    if slots != [] && Full(slots, incoming) { EvictedFits(slots[1..], incoming); }
  }

  /** Whatever is published, the cache stays within its byte and scope limits. */
  lemma PublishKeepsBounds(cost: Costs, slots: seq<Slot>, key: Key, rows: seq<Row>)
    ensures var n := Published(cost, slots, key, rows);
            Bytes(n) <= MAX_BYTES && |n| <= MAX_SCOPES
  {
    var size := cost.key(key) + RowsCost(cost, rows);
    if rows == [] || size > MAX_BYTES {
      EvictedFits(Without(slots, key), 0);
    } else {
      EvictedFits(Without(slots, key), size);
      BytesAppend(Evicted(Without(slots, key), size), Slot(key, Signatures(rows), size));
    }
  }

  // ---------------------------------------------------------------- what is remembered

  /** One slot a scope. */
  predicate Distinct(slots: seq<Slot>) { forall i, j :: 0 <= i < j < |slots| ==> slots[i].key != slots[j].key }

  lemma {:induction false} LookupMiss(slots: seq<Slot>, key: Key)
    requires forall s :: s in slots ==> s.key != key
    ensures Lookup(slots, key) == map[]
  {
    if slots != [] { LookupMiss(slots[1..], key); }
  }

  lemma {:induction false} LookupLast(slots: seq<Slot>, s: Slot)
    requires forall x :: x in slots ==> x.key != s.key
    ensures Lookup(slots + [s], s.key) == s.rows
  {
    if slots != [] {
      assert (slots + [s])[1..] == slots[1..] + [s];
      LookupLast(slots[1..], s);
    }
  }

  lemma {:induction false} WithoutForgets(slots: seq<Slot>, key: Key)
    requires Distinct(slots)
    ensures forall s :: s in Without(slots, key) <==> s in slots && s.key != key
    ensures Distinct(Without(slots, key))
  {
    if slots != [] && slots[0].key != key {
      WithoutForgets(slots[1..], key);
      var rest := Without(slots[1..], key);
      assert forall j :: 0 <= j < |rest| ==> rest[j] in slots[1..];
    }
  }

  /** Eviction takes the oldest slots, and no more of them than it must. */
  lemma {:induction false} EvictsNoMoreThanItMust(slots: seq<Slot>, incoming: nat) returns (n: nat)
    ensures n <= |slots| && Evicted(slots, incoming) == slots[n..]
    ensures n > 0 ==> Bytes(slots[n - 1..]) + incoming > 33_554_432 || |slots| - n >= 3
  {
    if slots != [] && Full(slots, incoming) {
      n := EvictsNoMoreThanItMust(slots[1..], incoming);
      n := n + 1;
      assert slots[n..] == slots[1..][n - 1..];
      if n > 1 { assert slots[n - 1..] == slots[1..][n - 2..]; } else { assert slots[0..] == slots; }
    } else {
      n := 0;
    }
  }

  lemma PublishKeepsDistinct(cost: Costs, slots: seq<Slot>, key: Key, rows: seq<Row>)
    requires Distinct(slots)
    ensures Distinct(Published(cost, slots, key, rows))
  {
    var size := cost.key(key) + RowsCost(cost, rows);
    WithoutForgets(slots, key);
    var n := EvictsNoMoreThanItMust(Without(slots, key), if rows == [] || size > MAX_BYTES then 0 else size);
  }

  lemma {:induction false} SignaturesAreTheRows(rows: seq<Row>, first: int)
    requires forall i :: 0 <= i < |rows| ==> rows[i].sequence == Int(first + i)
    ensures forall n :: n in Signatures(rows) <==> first <= n < first + |rows|
    ensures forall n :: n in Signatures(rows) ==> Signatures(rows)[n] == rows[n - first]
  {
    if rows != [] { SignaturesAreTheRows(rows[..|rows| - 1], first); }
  }

  /** No slot of the key is left when its rows are published. */
  lemma {:induction false} KeptAreOthers(slots: seq<Slot>, key: Key, incoming: nat)
    requires Distinct(slots)
    ensures forall s :: s in Evicted(Without(slots, key), incoming) ==> s.key != key
  {
    WithoutForgets(slots, key);
    var n := EvictsNoMoreThanItMust(Without(slots, key), incoming);
  }

  lemma {:induction false} PublishedIsLast(cost: Costs, slots: seq<Slot>, key: Key, rows: seq<Row>)
    requires Distinct(slots)
    ensures Lookup(Published(cost, slots, key, rows), key)
         == if cost.key(key) + RowsCost(cost, rows) <= 33_554_432 then Signatures(rows) else map[]
  {
    var size := cost.key(key) + RowsCost(cost, rows);
    var fits := rows != [] && size <= MAX_BYTES;
    KeptAreOthers(slots, key, if fits then size else 0);
    var kept := Evicted(Without(slots, key), if fits then size else 0);
    if fits { LookupLast(kept, Slot(key, Signatures(rows), size)); } else { LookupMiss(kept, key); }
  }

  /** What was published is found by the next validation of its scope, every row of it, unless it is
      larger than the whole cache; and then nothing of the scope is. */
  lemma {:induction false} PublishedIsFound(cost: Costs, slots: seq<Slot>, key: Key, rows: seq<Row>, first: int)
    requires Distinct(slots) && forall i :: 0 <= i < |rows| ==> rows[i].sequence == Int(first + i)
    ensures var found := Lookup(Published(cost, slots, key, rows), key);
            if cost.key(key) + RowsCost(cost, rows) <= 33_554_432
            then (forall n :: n in found <==> first <= n < first + |rows|) && (forall n :: n in found ==> found[n] == rows[n - first])
            else found == map[]
  {
    PublishedIsLast(cost, slots, key, rows);
    SignaturesAreTheRows(rows, first);
  }

  // ---------------------------------------------------------------- transparency

  /** The row passed full validation at its place, for the predecessor it names. */
  predicate Vouched(c: Codec, scope: Scope, n: int, row: Row) {
    row.prevHash.Text? && Sound(c, scope, row, n, row.prevHash.s)
  }

  predicate Trusted(c: Codec, scope: Scope, cached: Evidence) {
    forall n :: n in cached ==> Vouched(c, scope, n, cached[n])
  }

  predicate TrustedSlots(c: Codec, slots: seq<Slot>) {
    forall s :: s in slots ==> Trusted(c, s.key.scope, s.rows)
  }

  lemma {:induction false} LookupIsTrusted(c: Codec, slots: seq<Slot>, key: Key)
    requires TrustedSlots(c, slots)
    ensures Trusted(c, key.scope, Lookup(slots, key))
  {
    if slots != [] && slots[0].key != key { LookupIsTrusted(c, slots[1..], key); }
  }

  lemma {:induction false} CachedChain(c: Codec, scope: Scope, rows: seq<Row>, expected: int, previous: string, end: string, cached: Evidence)
    requires Trusted(c, scope, cached)
    ensures Chained(c, scope, rows, expected, previous, end, cached) <==> Chained(c, scope, rows, expected, previous, end, map[])
    decreases |rows|
  {
    if rows != [] && RowOk(c, scope, rows[0], expected, previous, cached) {
      CachedChain(c, scope, rows[1..], expected + 1, rows[0].eventHash.s, end, cached);
    }
  }

  /** For any head and rows, tampered or not, validating with trusted evidence and validating in full
      give the same answer. */
  lemma CacheIsTransparent(c: Codec, scope: Scope, head: Option<Head>, rows: seq<Row>, cached: Evidence)
    requires Trusted(c, scope, cached)
    ensures ValidState(c, scope, head, rows, cached) <==> ValidState(c, scope, head, rows, map[])
  {
    if head.Some? && HeadOk(scope, head.value, |rows|) {
      CachedChain(c, scope, rows, head.value.base.n + 1, head.value.baseHash.s, head.value.endHash.s, cached);
    }
  }

  lemma {:induction false} ChainedRowsAreVouched(c: Codec, scope: Scope, rows: seq<Row>, expected: int, previous: string, end: string)
    requires Chained(c, scope, rows, expected, previous, end, map[])
    ensures forall i :: 0 <= i < |rows| ==> rows[i].sequence == Int(expected + i) && Vouched(c, scope, expected + i, rows[i])
    decreases |rows|
  {
    if rows != [] {
      ChainedRowsAreVouched(c, scope, rows[1..], expected + 1, rows[0].eventHash.s, end);
      forall i | 0 <= i < |rows| ensures rows[i].sequence == Int(expected + i) && Vouched(c, scope, expected + i, rows[i]) {
        if i > 0 { assert rows[i] == rows[1..][i - 1]; }
      }
    }
  }

  predicate AllVouched(c: Codec, scope: Scope, rows: seq<Row>) {
    forall r :: r in rows ==> r.sequence.Int? && Vouched(c, scope, r.sequence.n, r)
  }

  lemma ValidRowsAreVouched(c: Codec, scope: Scope, head: Option<Head>, rows: seq<Row>, cached: Evidence)
    requires Trusted(c, scope, cached) && ValidState(c, scope, head, rows, cached)
    ensures AllVouched(c, scope, rows)
  {
    CacheIsTransparent(c, scope, head, rows, cached);
    if head.Some? {
      ChainedRowsAreVouched(c, scope, rows, head.value.base.n + 1, head.value.baseHash.s, head.value.endHash.s);
    }
  }

  lemma {:induction false} SignaturesAreTrusted(c: Codec, scope: Scope, rows: seq<Row>)
    requires AllVouched(c, scope, rows)
    ensures Trusted(c, scope, Signatures(rows))
  {
    if rows != [] { SignaturesAreTrusted(c, scope, rows[..|rows| - 1]); }
  }

  lemma PublishKeepsTrust(c: Codec, cost: Costs, slots: seq<Slot>, key: Key, rows: seq<Row>)
    requires TrustedSlots(c, slots) && AllVouched(c, key.scope, rows)
    ensures TrustedSlots(c, Published(cost, slots, key, rows))
  {
    SignaturesAreTrusted(c, key.scope, rows);
    var size := cost.key(key) + RowsCost(cost, rows);
    WithoutShrinks(slots, key);
    if size <= MAX_BYTES { EvictedFits(Without(slots, key), size); }
    EvictedFits(Without(slots, key), 0);
  }

  // ---------------------------------------------------------------- concurrent appends

  /** Appends in flight have read the cache and validated, and publish when they have committed. */
  datatype State = State(slots: seq<Slot>, pending: map<nat, (Key, seq<Row>)>)

  datatype Event =
    | Validate(t: nat, key: Key, head: Option<Head>, rows: seq<Row>)
    | Publish(t: nat)
    | Clear

  function Step(c: Codec, cost: Costs, s: State, e: Event): State {
    match e
    case Validate(t, key, head, rows) =>
      if ValidState(c, key.scope, head, rows, Lookup(s.slots, key)) then s.(pending := s.pending[t := (key, rows)])
      else State([], s.pending)
    case Publish(t) =>
      if t !in s.pending then s
      else State(Published(cost, s.slots, s.pending[t].0, s.pending[t].1), s.pending - {t})
    case Clear => State([], s.pending)
  }

  function Run(c: Codec, cost: Costs, s: State, es: seq<Event>): State
    decreases |es|
  {
    if es == [] then s else Run(c, cost, Step(c, cost, s, es[0]), es[1..])
  }

  predicate Inv(c: Codec, s: State) {
    && TrustedSlots(c, s.slots) && Distinct(s.slots)
    && Bytes(s.slots) <= MAX_BYTES && |s.slots| <= MAX_SCOPES
    && forall t :: t in s.pending ==> AllVouched(c, s.pending[t].0.scope, s.pending[t].1)
  }

  lemma StepKeepsInv(c: Codec, cost: Costs, s: State, e: Event)
    requires Inv(c, s)
    ensures Inv(c, Step(c, cost, s, e))
  {
    match e
    case Validate(t, key, head, rows) =>
      LookupIsTrusted(c, s.slots, key);
      if ValidState(c, key.scope, head, rows, Lookup(s.slots, key)) {
        ValidRowsAreVouched(c, key.scope, head, rows, Lookup(s.slots, key));
      }
    case Publish(t) =>
      if t in s.pending {
        PublishKeepsTrust(c, cost, s.slots, s.pending[t].0, s.pending[t].1);
        PublishKeepsBounds(cost, s.slots, s.pending[t].0, s.pending[t].1);
        PublishKeepsDistinct(cost, s.slots, s.pending[t].0, s.pending[t].1);
      }
    case Clear =>
  }

  lemma {:induction false} RunKeepsInv(c: Codec, cost: Costs, s: State, es: seq<Event>)
    requires Inv(c, s)
    ensures Inv(c, Run(c, cost, s, es))
    decreases |es|
  {
    if es != [] {
      StepKeepsInv(c, cost, s, es[0]);
      RunKeepsInv(c, cost, Step(c, cost, s, es[0]), es[1..]);
    }
  }

  /** In every reachable cache state - concurrent appends, stale publishes, evictions, clears - and
      for arbitrary rows, validation with the cache is full validation; and the bounds hold. */
  lemma {:induction false} CacheNeverChangesTheVerdict(c: Codec, cost: Costs, es: seq<Event>, key: Key, head: Option<Head>, rows: seq<Row>)
    ensures var s := Run(c, cost, State([], map[]), es);
            && (ValidState(c, key.scope, head, rows, Lookup(s.slots, key)) <==> ValidState(c, key.scope, head, rows, map[]))
            && Bytes(s.slots) <= MAX_BYTES && |s.slots| <= MAX_SCOPES
  {
    RunKeepsInv(c, cost, State([], map[]), es);
    var s := Run(c, cost, State([], map[]), es);
    LookupIsTrusted(c, s.slots, key);
    CacheIsTransparent(c, key.scope, head, rows, Lookup(s.slots, key));
  }

  /** And in each of them what a commit publishes is what the next append of its scope finds. */
  lemma {:induction false} CommittedRowsAreRemembered(c: Codec, cost: Costs, es: seq<Event>, t: nat, first: int)
    requires var s := Run(c, cost, State([], map[]), es);
             t in s.pending && forall i :: 0 <= i < |s.pending[t].1| ==> s.pending[t].1[i].sequence == Int(first + i)
    ensures var s := Run(c, cost, State([], map[]), es);
            var (key, rows) := s.pending[t];
            var found := Lookup(Step(c, cost, s, Publish(t)).slots, key);
            if cost.key(key) + RowsCost(cost, rows) <= 33_554_432
            then (forall n :: n in found <==> first <= n < first + |rows|) && (forall n :: n in found ==> found[n] == rows[n - first])
            else found == map[]
  {
    RunKeepsInv(c, cost, State([], map[]), es);
    var s := Run(c, cost, State([], map[]), es);
    PublishedIsFound(cost, s.slots, s.pending[t].0, s.pending[t].1, first);
  }
}
