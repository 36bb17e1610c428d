/** The hash-chained audit log of one scope: its head row, its retained event rows, what makes them
    valid, and what an append does to them.

    The encodings - JSON text, timestamp text and the chain hash - are parameters, nothing more is
    known of them than `Lawful` says; in particular the hash may collide. */
module AuditChain {
  import opened Domain

  const MAX_EVENTS := 10_000
  const MAX_AGE_US := 30 * 86_400 * 1_000_000
  const MAX_TEXT := 4_194_304
  const MAX_SEQUENCE := 0x7FFF_FFFF_FFFF_FFFF
  const READ_LIMIT := 10_001
  const SCHEMA := "a0.sam.audit/v1alpha1"
  const ZERO_HASH := Zeros(64)

  function Zeros(n: nat): (s: string)
    ensures |s| == n && forall ch :: ch in s ==> ch == '0'
  {
    if n == 0 then "" else ['0'] + Zeros(n - 1)
  }

  /** A stored column value with its storage class; tampering may put any value anywhere. */
  datatype Cell = Int(n: int) | Real(r: real) | Text(s: string) | Blob(b: seq<int>) | Null

  datatype Row = Row(project: Cell, profile: Cell, chat: Cell, sequence: Cell, atUs: Cell, at: Cell,
                     payload: Cell, prevHash: Cell, eventHash: Cell)

  datatype Head = Head(project: Cell, profile: Cell, chat: Cell, base: Cell, baseHash: Cell,
                       end: Cell, endHash: Cell, count: Cell)

  /** A recorded event; `event` stands for the entries validation does not look at. */
  datatype Record = Record(schema: string, sequence: int, timestamp: string, scope: Scope, event: string)

  datatype Codec = Codec(render: Record -> string, parse: string -> Option<Record>,
                         stamp: int -> string, unstamp: string -> Option<int>,
                         chain: (Record, string) -> string)

  predicate IsHash(s: string) { |s| == 64 && forall c :: c in s ==> '0' <= c <= '9' || 'a' <= c <= 'f' }

  ghost predicate Lawful(c: Codec) {
    && (forall p :: c.parse(c.render(p)) == Some(p))
    && (forall t :: c.unstamp(c.stamp(t)) == Some(t))
    && (forall p, h :: IsHash(c.chain(p, h)))
  }

  predicate InScope(project: Cell, profile: Cell, chat: Cell, scope: Scope) {
    project == Text(scope.project) && profile == Text(scope.agent) && chat == Text(scope.chat)
  }

  /** The checks every row gets. */
  predicate Shaped(scope: Scope, row: Row, expected: int, previous: string) {
    && row.sequence == Int(expected)
    && InScope(row.project, row.profile, row.chat, scope)
    && row.prevHash == Text(previous)
    && row.payload.Text? && |row.payload.s| <= MAX_TEXT
    && row.eventHash.Text? && IsHash(row.eventHash.s)
  }

  /** The checks a row already validated, byte for byte, may skip. */
  predicate Sound(c: Codec, scope: Scope, row: Row, expected: int, previous: string) {
    && row.payload.Text? && c.parse(row.payload.s).Some?
    && var p := c.parse(row.payload.s).value;
    && c.unstamp(p.timestamp).Some?
    && p.schema == SCHEMA && p.sequence == expected && p.scope == scope
    && row.at == Text(p.timestamp) && row.atUs == Int(c.unstamp(p.timestamp).value)
    && row.eventHash == Text(c.chain(p, previous))
  }

  type Evidence = map<int, Row>

  predicate Cached(cached: Evidence, row: Row, expected: int) { expected in cached && cached[expected] == row }

  predicate RowOk(c: Codec, scope: Scope, row: Row, expected: int, previous: string, cached: Evidence) {
    Shaped(scope, row, expected, previous) && (Cached(cached, row, expected) || Sound(c, scope, row, expected, previous))
  }

  /** Every row extends the chain, and the chain ends at the given hash. */
  predicate Chained(c: Codec, scope: Scope, rows: seq<Row>, expected: int, previous: string, end: string, cached: Evidence) {
    if rows == [] then previous == end
    else
      && RowOk(c, scope, rows[0], expected, previous, cached)
      && Chained(c, scope, rows[1..], expected + 1, rows[0].eventHash.s, end, cached)
  }

  predicate HeadOk(scope: Scope, h: Head, length: nat) {
    && h.base.Int? && h.end.Int? && h.count.Int?
    && 0 <= h.base.n <= h.end.n < MAX_SEQUENCE
    && 0 <= h.count.n <= MAX_EVENTS
    && h.count.n == h.end.n - h.base.n == length
    && InScope(h.project, h.profile, h.chat, scope)
    && h.baseHash.Text? && IsHash(h.baseHash.s) && h.endHash.Text? && IsHash(h.endHash.s)
    && (h.base.n == 0 ==> h.baseHash.s == ZERO_HASH)
  }

  /** `_validate_state` of one transaction snapshot. */
  predicate ValidState(c: Codec, scope: Scope, head: Option<Head>, rows: seq<Row>, cached: Evidence) {
    match head
    case None => rows == []
    case Some(h) => HeadOk(scope, h, |rows|) && Chained(c, scope, rows, h.base.n + 1, h.baseHash.s, h.endHash.s, cached)
  }

  datatype Partition = Partition(head: Option<Head>, rows: seq<Row>)

  /** Rows are read in sequence order, one more than an accepted state can hold. */
  function Read(rows: seq<Row>): seq<Row> { if |rows| <= READ_LIMIT then rows else rows[..READ_LIMIT] }

  predicate Aged(row: Row, cutoff: int) { row.atUs.Int? && row.atUs.n <= cutoff }

  /** One past the last aged row among the first `within`. */
  function AgedPrefix(rows: seq<Row>, cutoff: int, within: nat): (n: nat)
    requires within <= |rows|
    ensures n <= within && (n > 0 ==> Aged(rows[n - 1], cutoff))
    ensures forall i :: n <= i < within ==> !Aged(rows[i], cutoff)
  {
    if within == 0 then 0
    else if Aged(rows[within - 1], cutoff) then within
    else AgedPrefix(rows, cutoff, within - 1)
  }

  /** How many leading rows retention takes: all up to the last aged one, and any excess. */
  function Dropped(rows: seq<Row>, now: int): (n: nat)
    ensures n <= |rows| && |rows| - n <= MAX_EVENTS
    ensures forall i :: n <= i < |rows| ==> !Aged(rows[i], now - MAX_AGE_US)
    ensures n > 0 ==> Aged(rows[n - 1], now - MAX_AGE_US) || |rows| - n == MAX_EVENTS
  {
    var aged := AgedPrefix(rows, now - MAX_AGE_US, |rows|);
    if |rows| - aged > MAX_EVENTS then |rows| - MAX_EVENTS else aged
  }

  function NewHead(scope: Scope, base: int, baseHash: string, end: int, endHash: string, count: int): Head {
    Head(Text(scope.project), Text(scope.agent), Text(scope.chat), Int(base), Text(baseHash), Int(end), Text(endHash), Int(count))
  }

  function NewRow(c: Codec, scope: Scope, p: Record, now: int, previous: string): Row {
    Row(Text(scope.project), Text(scope.agent), Text(scope.chat), Int(p.sequence), Int(now), Text(c.stamp(now)),
        Text(c.render(p)), Text(previous), Text(c.chain(p, previous)))
  }

  function NewRecord(c: Codec, scope: Scope, sequence: int, now: int, event: string): Record {
    Record(SCHEMA, sequence, c.stamp(now), scope, event)
  }

  /** The head a scope starts from. */
  function HeadOr(scope: Scope, head: Option<Head>): Head {
    if head.None? then NewHead(scope, 0, ZERO_HASH, 0, ZERO_HASH, 0) else head.value
  }

  predicate Typed(h: Head) { h.base.Int? && h.baseHash.Text? && h.end.Int? && h.endHash.Text? && h.count.Int? }

  /** The event row added and the head moved on to it. */
  function Extended(c: Codec, scope: Scope, p: Partition, event: string, now: int): Partition
    requires Typed(HeadOr(scope, p.head))
  {
    var h := HeadOr(scope, p.head);
    var r := NewRecord(c, scope, h.end.n + 1, now, event);
    Partition(Some(NewHead(scope, h.base.n, h.baseHash.s, h.end.n + 1, c.chain(r, h.endHash.s), h.count.n + 1)),
              p.rows + [NewRow(c, scope, r, now, h.endHash.s)])
  }

  /** Retention: the last row dropped becomes the new base of the chain. */
  function Pruned(p: Partition, now: int): Partition
    requires p.head.Some? && p.head.value.count.Int?
  {
    var n := Dropped(p.rows, now);
    if n == 0 then p
    else Partition(Some(p.head.value.(base := p.rows[n - 1].sequence, baseHash := p.rows[n - 1].eventHash,
                                      count := Int(p.head.value.count.n - n))),
                   p.rows[n..])
  }

  /** `append`: None when the stored state does not validate, and then nothing changes. */
  function Append(c: Codec, scope: Scope, p: Partition, cached: Evidence, event: string, now: int): Option<Partition> {
    if !ValidState(c, scope, p.head, Read(p.rows), cached) then None
    else Some(Pruned(Extended(c, scope, p, event, now), now))
  }
}
