/** The audit log against the unbounded log it stands for. */
module AuditLog {
  import opened Domain
  import opened AuditChain

  /** An event appended at some clock reading. */
  datatype Entry = Entry(event: string, now: int)

  function RecordAt(c: Codec, scope: Scope, log: seq<Entry>, i: nat): Record
    requires i < |log|
  {
    Record("a0.sam.audit/v1alpha1", i + 1, c.stamp(log[i].now), scope, log[i].event)
  }

  /** The chain hash over the first n events ever appended. */
  function Fold(c: Codec, scope: Scope, log: seq<Entry>, n: nat): string
    requires n <= |log|
  {
    if n == 0 then ZERO_HASH else c.chain(RecordAt(c, scope, log, n - 1), Fold(c, scope, log, n - 1))
  }

  function RowAt(c: Codec, scope: Scope, log: seq<Entry>, i: nat): Row
    requires i < |log|
  {
    Row(Text(scope.project), Text(scope.agent), Text(scope.chat), Int(i + 1), Int(log[i].now), Text(c.stamp(log[i].now)),
        Text(c.render(RecordAt(c, scope, log, i))), Text(Fold(c, scope, log, i)), Text(Fold(c, scope, log, i + 1)))
  }

  function HeadAt(c: Codec, scope: Scope, log: seq<Entry>, base: nat): Head
    requires base <= |log|
  {
    Head(Text(scope.project), Text(scope.agent), Text(scope.chat), Int(base), Text(Fold(c, scope, log, base)),
         Int(|log|), Text(Fold(c, scope, log, |log|)), Int(|log| - base))
  }

  /** The stored state is the log with its first `base` events pruned. */
  ghost predicate Refines(c: Codec, scope: Scope, p: Partition, log: seq<Entry>, base: nat) {
    && base <= |log|
    && p.head == (if log == [] then None else Some(HeadAt(c, scope, log, base)))
    && |p.rows| == |log| - base
    && forall i :: 0 <= i < |p.rows| ==> p.rows[i] == RowAt(c, scope, log, base + i)
  }

  /** A row is that of the i-th event appended: its payload parses to a record with the event, its
      number, the scope and the time of the append, and the other columns say the same. */
  ghost predicate Holds(c: Codec, scope: Scope, log: seq<Entry>, i: nat, row: Row)
    requires i < |log|
  {
    && row.project == Text(scope.project) && row.profile == Text(scope.agent) && row.chat == Text(scope.chat)
    && row.sequence == Int(i + 1) && row.atUs == Int(log[i].now) && row.at == Text(c.stamp(log[i].now))
    && row.prevHash == Text(Fold(c, scope, log, i)) && row.eventHash == Text(Fold(c, scope, log, i + 1))
    && row.payload.Text? && c.parse(row.payload.s).Some?
    && var record := c.parse(row.payload.s).value;
    && record.event == log[i].event && record.sequence == i + 1 && record.scope == scope
    && record.schema == "a0.sam.audit/v1alpha1" && record.timestamp == c.stamp(log[i].now)
  }

  lemma GenuineRowHolds(c: Codec, scope: Scope, log: seq<Entry>, i: nat)
    requires Lawful(c) && i < |log|
    ensures Holds(c, scope, log, i, RowAt(c, scope, log, i))
  {
    var record := RecordAt(c, scope, log, i);
    assert c.parse(c.render(record)) == Some(record);
  }

  /** Every stored row is that of its event. */
  lemma StoredRowsHoldTheEvents(c: Codec, scope: Scope, p: Partition, log: seq<Entry>, base: nat)
    requires Lawful(c) && Refines(c, scope, p, log, base)
    ensures |p.rows| == |log| - base && forall i :: 0 <= i < |p.rows| ==> Holds(c, scope, log, base + i, p.rows[i])
  {
    forall i | 0 <= i < |p.rows| ensures Holds(c, scope, log, base + i, p.rows[i]) {
      GenuineRowHolds(c, scope, log, base + i);
    }
  }

  /** What validation demands of the writer beyond what `append` checks. */
  predicate Bounded(c: Codec, scope: Scope, log: seq<Entry>) {
    && |log| < 0x7FFF_FFFF_FFFF_FFFF
    && forall i :: 0 <= i < |log| ==> |c.render(RecordAt(c, scope, log, i))| <= 4_194_304
  }

  lemma {:induction false} FoldOfPrefix(c: Codec, scope: Scope, log: seq<Entry>, e: Entry, n: nat)
    requires n <= |log|
    ensures Fold(c, scope, log + [e], n) == Fold(c, scope, log, n)
  {
    if n > 0 { FoldOfPrefix(c, scope, log, e, n - 1); }
  }

  lemma {:induction false} FoldIsHash(c: Codec, scope: Scope, log: seq<Entry>, n: nat)
    requires Lawful(c) && n <= |log|
    ensures IsHash(Fold(c, scope, log, n))
  {
    if n > 0 { assert IsHash(c.chain(RecordAt(c, scope, log, n - 1), Fold(c, scope, log, n - 1))); }
  }

  lemma GenuineRowIsOk(c: Codec, scope: Scope, log: seq<Entry>, i: nat, cached: Evidence)
    requires Lawful(c) && i < |log| && |c.render(RecordAt(c, scope, log, i))| <= MAX_TEXT
    ensures RowOk(c, scope, RowAt(c, scope, log, i), i + 1, Fold(c, scope, log, i), cached)
    ensures RowAt(c, scope, log, i).eventHash == Text(Fold(c, scope, log, i + 1))
  {
    FoldIsHash(c, scope, log, i + 1);
  }

  lemma {:induction false} ChainedFrom(c: Codec, scope: Scope, rows: seq<Row>, log: seq<Entry>, base: nat, cached: Evidence)
    requires Lawful(c) && Bounded(c, scope, log) && base + |rows| == |log|
    requires forall i :: 0 <= i < |rows| ==> rows[i] == RowAt(c, scope, log, base + i)
    ensures Chained(c, scope, rows, base + 1, Fold(c, scope, log, base), Fold(c, scope, log, |log|), cached)
    decreases |rows|
  {
    if rows != [] {
      GenuineRowIsOk(c, scope, log, base, cached);
      ChainedFrom(c, scope, rows[1..], log, base + 1, cached);
    }
  }

  lemma RefinedIsValid(c: Codec, scope: Scope, p: Partition, log: seq<Entry>, base: nat, cached: Evidence)
    requires Lawful(c) && Bounded(c, scope, log) && Refines(c, scope, p, log, base) && |p.rows| <= MAX_EVENTS
    ensures ValidState(c, scope, p.head, p.rows, cached) && Read(p.rows) == p.rows
  {
    if log != [] {
      FoldIsHash(c, scope, log, base);
      FoldIsHash(c, scope, log, |log|);
      ChainedFrom(c, scope, p.rows, log, base, cached);
    }
  }

  lemma ExtendRefines(c: Codec, scope: Scope, p: Partition, log: seq<Entry>, base: nat, e: Entry)
    requires Refines(c, scope, p, log, base)
    ensures Typed(HeadOr(scope, p.head))
    ensures Refines(c, scope, Extended(c, scope, p, e.event, e.now), log + [e], base)
  {
    var next := log + [e];
    FoldOfPrefix(c, scope, log, e, |log|);
    FoldOfPrefix(c, scope, log, e, base);
    var q := Extended(c, scope, p, e.event, e.now);
    forall i | 0 <= i < |q.rows| ensures q.rows[i] == RowAt(c, scope, next, base + i) {
      if i < |p.rows| {
        assert p.rows[i] == RowAt(c, scope, log, base + i);
        FoldOfPrefix(c, scope, log, e, base + i);
      }
    }
  }

  /** A dropped row holds what the head needs to become the head after it. */
  lemma RowMakesBase(c: Codec, scope: Scope, log: seq<Entry>, base: nat, n: nat)
    requires 0 < n && base + n <= |log|
    ensures var row := RowAt(c, scope, log, base + n - 1);
            HeadAt(c, scope, log, base).(base := row.sequence, baseHash := row.eventHash, count := Int(|log| - base - n))
            == HeadAt(c, scope, log, base + n)
  {}

  lemma PrunedHead(c: Codec, scope: Scope, p: Partition, log: seq<Entry>, base: nat, now: int)
    requires Refines(c, scope, p, log, base) && log != []
    ensures base + Dropped(p.rows, now) <= |log|
    ensures Pruned(p, now).head == Some(HeadAt(c, scope, log, base + Dropped(p.rows, now)))
  {
    var n := Dropped(p.rows, now);
    if n > 0 {
      assert p.rows[n - 1] == RowAt(c, scope, log, base + (n - 1));
      RowMakesBase(c, scope, log, base, n);
    }
  }

  lemma PruneRefines(c: Codec, scope: Scope, p: Partition, log: seq<Entry>, base: nat, now: int)
    requires Refines(c, scope, p, log, base) && log != []
    ensures base + Dropped(p.rows, now) <= |log|
    ensures Refines(c, scope, Pruned(p, now), log, base + Dropped(p.rows, now))
  {
    PrunedHead(c, scope, p, log, base, now);
    var n, q := Dropped(p.rows, now), Pruned(p, now);
    assert q.rows == p.rows[n..];
    forall i | 0 <= i < |q.rows| ensures q.rows[i] == RowAt(c, scope, log, base + n + i) {
      assert q.rows[i] == p.rows[n + i] == RowAt(c, scope, log, base + (n + i));
    }
  }

  /** Retention has been applied: bounded, and nothing 30 days old at the last append. */
  predicate Retained(p: Partition, now: int) {
    && |p.rows| <= 10_000
    && forall i :: 0 <= i < |p.rows| ==> p.rows[i].atUs.Int? && now - 2_592_000_000_000 < p.rows[i].atUs.n
  }

  lemma PruneRetains(c: Codec, scope: Scope, p: Partition, log: seq<Entry>, base: nat, now: int)
    requires Refines(c, scope, p, log, base) && base < |log| && log[|log| - 1].now == now
    ensures Dropped(p.rows, now) < |p.rows| && Retained(Pruned(p, now), now)
  {
    var last := |p.rows| - 1;
    assert p.rows[last] == RowAt(c, scope, log, |log| - 1);
    assert !Aged(p.rows[last], now - MAX_AGE_US);
    var n := Dropped(p.rows, now);
    forall i | n <= i < |p.rows| ensures p.rows[i].atUs.Int? && now - MAX_AGE_US < p.rows[i].atUs.n {
      assert p.rows[i] == RowAt(c, scope, log, base + i);
    }
  }

  lemma Retention(c: Codec, scope: Scope, p: Partition, log: seq<Entry>, base: nat, now: int, q: Partition)
    returns (base': nat)
    requires Refines(c, scope, p, log, base) && base < |log| && log[|log| - 1].now == now && q == Pruned(p, now)
    ensures base <= base' < |log| && Refines(c, scope, q, log, base') && Retained(q, now)
  {
    PruneRefines(c, scope, p, log, base, now);
    PruneRetains(c, scope, p, log, base, now);
    base' := base + Dropped(p.rows, now);
  }

  lemma AppendCommits(c: Codec, scope: Scope, p: Partition, log: seq<Entry>, base: nat, cached: Evidence, e: Entry)
    requires Lawful(c) && Bounded(c, scope, log) && Refines(c, scope, p, log, base) && |p.rows| <= MAX_EVENTS
    ensures Typed(HeadOr(scope, p.head))
    ensures Append(c, scope, p, cached, e.event, e.now) == Some(Pruned(Extended(c, scope, p, e.event, e.now), e.now))
  {
    RefinedIsValid(c, scope, p, log, base, cached);
  }

  /** One append extends the log by its event and prunes a prefix, never the new row. */
  lemma AppendRefines(c: Codec, scope: Scope, p: Partition, log: seq<Entry>, base: nat, cached: Evidence, e: Entry)
    returns (q: Partition, base': nat)
    requires Lawful(c) && Bounded(c, scope, log) && Refines(c, scope, p, log, base) && |p.rows| <= MAX_EVENTS
    ensures Append(c, scope, p, cached, e.event, e.now) == Some(q)
    ensures base <= base' <= |log| && Refines(c, scope, q, log + [e], base') && Retained(q, e.now)
  {
    AppendCommits(c, scope, p, log, base, cached, e);
    ExtendRefines(c, scope, p, log, base, e);
    q := Append(c, scope, p, cached, e.event, e.now).value;
    base' := Retention(c, scope, Extended(c, scope, p, e.event, e.now), log + [e], base, e.now, q);
  }

  // ---------------------------------------------------------------- runs

  /** The events appended one after another. */
  function AppendAll(c: Codec, scope: Scope, p: Partition, es: seq<Entry>): Option<Partition> {
    if es == [] then Some(p)
    else
      var last := |es| - 1;
      var q := AppendAll(c, scope, p, es[..last]);
      if q.None? then None else Append(c, scope, q.value, map[], es[last].event, es[last].now)
  }

  const NOTHING := Partition(None, [])

  lemma {:induction false} RunRefines(c: Codec, scope: Scope, es: seq<Entry>) returns (q: Partition, base: nat)
    requires Lawful(c) && Bounded(c, scope, es)
    ensures AppendAll(c, scope, NOTHING, es) == Some(q) && Refines(c, scope, q, es, base)
    ensures |q.rows| <= MAX_EVENTS && (es != [] ==> Retained(q, es[|es| - 1].now))
  {
    if es == [] {
      q, base := NOTHING, 0;
    } else {
      var done, e := es[..|es| - 1], es[|es| - 1];
      assert done + [e] == es;
      BoundedPrefix(c, scope, done, [e]);
      var p, b := RunRefines(c, scope, done);
      q, base := AppendRefines(c, scope, p, done, b, map[], e);
    }
  }

  lemma BoundedPrefix(c: Codec, scope: Scope, log: seq<Entry>, es: seq<Entry>)
    requires Bounded(c, scope, log + es)
    ensures Bounded(c, scope, log)
  {
    forall i | 0 <= i < |log| ensures |c.render(RecordAt(c, scope, log, i))| <= MAX_TEXT {
      assert RecordAt(c, scope, log, i) == RecordAt(c, scope, log + es, i);
    }
  }

  /** After any run of appends the stored state is the full log less a pruned prefix: the head hash
      folds every event ever appended, the base hash exactly the pruned ones, the rows are exactly
      the rest, at most 10,000 and all younger than 30 days; and it validates. */
  lemma StoreRefinesUnboundedLog(c: Codec, scope: Scope, es: seq<Entry>)
    returns (q: Partition, base: nat)
    requires Lawful(c) && Bounded(c, scope, es) && es != []
    ensures AppendAll(c, scope, NOTHING, es) == Some(q)
    ensures Refines(c, scope, q, es, base) && Retained(q, es[|es| - 1].now)
    ensures |q.rows| == |es| - base && forall i :: 0 <= i < |q.rows| ==> Holds(c, scope, es, base + i, q.rows[i])
    ensures ValidState(c, scope, q.head, q.rows, map[])
  {
    q, base := RunRefines(c, scope, es);
    StoredRowsHoldTheEvents(c, scope, q, es, base);
    RefinedIsValid(c, scope, q, es, base, map[]);
  }

  // ---------------------------------------------------------------- what append does not check

  lemma {:induction false} ChainedLast(c: Codec, scope: Scope, rows: seq<Row>, expected: int, previous: string, end: string)
    requires rows != [] && Chained(c, scope, rows, expected, previous, end, map[])
    ensures rows[|rows| - 1].payload.Text? && |rows[|rows| - 1].payload.s| <= MAX_TEXT
    decreases |rows|
  {
    if |rows| > 1 {
      ChainedLast(c, scope, rows[1..], expected + 1, rows[0].eventHash.s, end);
    }
  }

  lemma BoundedExtension(c: Codec, scope: Scope, log: seq<Entry>, e: Entry)
    requires Bounded(c, scope, log)
    ensures Bounded(c, scope, log + [e])
       <==> |log| + 1 < MAX_SEQUENCE && |c.render(RecordAt(c, scope, log + [e], |log|))| <= MAX_TEXT
  {
    forall i | 0 <= i < |log| ensures RecordAt(c, scope, log + [e], i) == RecordAt(c, scope, log, i) {}
  }

  /** The last row is retained, so an unbounded one is seen. */
  lemma ValidIsBounded(c: Codec, scope: Scope, p: Partition, log: seq<Entry>, base: nat)
    requires Lawful(c) && Refines(c, scope, p, log, base) && base < |log| && Bounded(c, scope, log[..|log| - 1])
    requires ValidState(c, scope, p.head, p.rows, map[])
    ensures Bounded(c, scope, log)
  {
    var last := |log| - 1;
    LastIsBounded(c, scope, p, log, base);
    assert log[..last] + [log[last]] == log;
    BoundedExtension(c, scope, log[..last], log[last]);
  }

  lemma LastIsBounded(c: Codec, scope: Scope, p: Partition, log: seq<Entry>, base: nat)
    requires Refines(c, scope, p, log, base) && base < |log| && ValidState(c, scope, p.head, p.rows, map[])
    ensures |log| < MAX_SEQUENCE && |c.render(RecordAt(c, scope, log, |log| - 1))| <= MAX_TEXT
  {
    var h := p.head.value;
    assert p.rows[|p.rows| - 1] == RowAt(c, scope, log, base + (|p.rows| - 1));
    ChainedLast(c, scope, p.rows, h.base.n + 1, h.baseHash.s, h.endHash.s);
  }

  lemma RefinedIsValidIff(c: Codec, scope: Scope, p: Partition, log: seq<Entry>, base: nat)
    requires Lawful(c) && Refines(c, scope, p, log, base) && base < |log| && |p.rows| <= MAX_EVENTS
    requires Bounded(c, scope, log[..|log| - 1])
    ensures ValidState(c, scope, p.head, Read(p.rows), map[]) <==> Bounded(c, scope, log)
  {
    assert Read(p.rows) == p.rows;
    if Bounded(c, scope, log) { RefinedIsValid(c, scope, p, log, base, map[]); }
    if ValidState(c, scope, p.head, p.rows, map[]) { ValidIsBounded(c, scope, p, log, base); }
  }

  /** An append commits whatever it renders, but the state it leaves validates exactly when the new
      text is within the limit validation sets and the sequence number is not exhausted. */
  lemma AppendLeavesValidIff(c: Codec, scope: Scope, p: Partition, log: seq<Entry>, base: nat, e: Entry)
    requires Lawful(c) && Bounded(c, scope, log) && Refines(c, scope, p, log, base) && |p.rows| <= MAX_EVENTS
    ensures var q := Append(c, scope, p, map[], e.event, e.now);
            && q.Some?
            && (ValidState(c, scope, q.value.head, Read(q.value.rows), map[])
                <==> |log| + 1 < MAX_SEQUENCE && |c.render(RecordAt(c, scope, log + [e], |log|))| <= MAX_TEXT)
  {
    var q, base' := AppendRefines(c, scope, p, log, base, map[], e);
    BoundedExtension(c, scope, log, e);
    RefinedIsValidIff(c, scope, q, log + [e], base');
  }

  lemma {:induction false} RefusedForGood(c: Codec, scope: Scope, p: Partition, es: seq<Entry>, k: nat)
    requires k <= |es| && AppendAll(c, scope, p, es[..k]) == None
    ensures AppendAll(c, scope, p, es) == None
    decreases |es|
  {
    if k < |es| {
      assert es[..|es| - 1][..k] == es[..k];
      RefusedForGood(c, scope, p, es[..|es| - 1], k);
    } else {
      assert es[..k] == es;
    }
  }

  lemma {:induction false} AppendAllOnce(c: Codec, scope: Scope, p: Partition, e: Entry)
    ensures AppendAll(c, scope, p, [e]) == Append(c, scope, p, map[], e.event, e.now)
  {
    assert [e][..0] == [];
    assert AppendAll(c, scope, p, []) == Some(p);
  }

  lemma {:induction false} RefusedNext(c: Codec, scope: Scope, p: Partition, es: seq<Entry>, e: Entry)
    requires AppendAll(c, scope, p, es).Some? && var q := AppendAll(c, scope, p, es).value; !ValidState(c, scope, q.head, Read(q.rows), map[])
    ensures AppendAll(c, scope, p, es + [e]) == None
  {
    assert (es + [e])[..|es|] == es;
  }

  /** So one oversized event is committed and then no append succeeds ever again. */
  lemma {:induction false} OversizedAppendLocksTheLog(c: Codec, scope: Scope, p: Partition, log: seq<Entry>, base: nat, e: Entry, after: seq<Entry>)
    requires Lawful(c) && Bounded(c, scope, log) && Refines(c, scope, p, log, base) && |p.rows| <= MAX_EVENTS
    requires |c.render(RecordAt(c, scope, log + [e], |log|))| > MAX_TEXT && after != []
    ensures AppendAll(c, scope, p, [e]).Some? && AppendAll(c, scope, p, [e] + after) == None
  {
    AppendLeavesValidIff(c, scope, p, log, base, e);
    AppendAllOnce(c, scope, p, e);
    RefusedNext(c, scope, p, [e], after[0]);
    assert ([e] + after)[..2] == [e] + [after[0]];
    RefusedForGood(c, scope, p, [e] + after, 2);
  }

  // ---------------------------------------------------------------- tamper evidence

  /** Two different inputs of the chain hash with the same output. */
  datatype Collision = Collision(record1: Record, previous1: string, record2: Record, previous2: string)

  predicate Collides(c: Codec, x: Collision) {
    (x.record1 != x.record2 || x.previous1 != x.previous2) && c.chain(x.record1, x.previous1) == c.chain(x.record2, x.previous2)
  }

  /** What a row decodes to. */
  function Decoded(c: Codec, row: Row): Option<Record> { if row.payload.Text? then c.parse(row.payload.s) else None }

  lemma {:induction false} SplitLast(c: Codec, scope: Scope, rows: seq<Row>, expected: int, previous: string, end: string)
    returns (mid: string)
    requires rows != [] && Chained(c, scope, rows, expected, previous, end, map[])
    ensures var last := |rows| - 1;
            && Chained(c, scope, rows[..last], expected, previous, mid, map[])
            && RowOk(c, scope, rows[last], expected + last, mid, map[]) && rows[last].eventHash.s == end
    decreases |rows|
  {
    var last := |rows| - 1;
    if last == 0 {
      mid := previous;
    } else {
      mid := SplitLast(c, scope, rows[1..], expected + 1, rows[0].eventHash.s, end);
      assert rows[1..][..last - 1] == rows[..last][1..];
    }
  }

  /** The records of two row lists, one by one. */
  predicate SameRecords(c: Codec, a: seq<Row>, b: seq<Row>) {
    |a| == |b| && forall i :: 0 <= i < |a| ==> Decoded(c, a[i]).Some? && Decoded(c, a[i]) == Decoded(c, b[i])
  }

  lemma OneMoreRecord(c: Codec, a: seq<Row>, b: seq<Row>, last: nat)
    requires |a| == |b| == last + 1 && SameRecords(c, a[..last], b[..last])
    requires Decoded(c, a[last]).Some? && Decoded(c, a[last]) == Decoded(c, b[last])
    ensures SameRecords(c, a, b)
  {
    forall i | 0 <= i < last ensures Decoded(c, a[i]).Some? && Decoded(c, a[i]) == Decoded(c, b[i]) {
      assert a[i] == a[..last][i] && b[i] == b[..last][i];
    }
  }

  lemma LastRow(c: Codec, scope: Scope, rows: seq<Row>, expected: int, start: string, end: string) returns (mid: string)
    requires rows != [] && Chained(c, scope, rows, expected, start, end, map[])
    ensures Chained(c, scope, rows[..|rows| - 1], expected, start, mid, map[])
    ensures var last := Decoded(c, rows[|rows| - 1]);
            last.Some? && c.chain(last.value, mid) == end
  {
    mid := SplitLast(c, scope, rows, expected, start, end);
  }

  /** Rows accepted against the same end of a chain decode to the same records, or give a collision. */
  lemma {:induction false} SameEndSameRecords(c: Codec, scope: Scope, a: seq<Row>, b: seq<Row>, expected: int,
                                              start1: string, start2: string, end: string)
    returns (found: Option<Collision>)
    requires |a| == |b|
    requires Chained(c, scope, a, expected, start1, end, map[]) && Chained(c, scope, b, expected, start2, end, map[])
    ensures match found
            case Some(x) => Collides(c, x)
            case None => start1 == start2 && SameRecords(c, a, b)
    decreases |a|
  {
    if a == [] {
      found := None;
    } else {
      var last := |a| - 1;
      var mid1 := LastRow(c, scope, a, expected, start1, end);
      var mid2 := LastRow(c, scope, b, expected, start2, end);
      var x := Collision(Decoded(c, a[last]).value, mid1, Decoded(c, b[last]).value, mid2);
      if x.record1 != x.record2 || mid1 != mid2 {
        found := Some(x);
      } else {
        found := SameEndSameRecords(c, scope, a[..last], b[..last], expected, start1, start2, mid1);
        if found.None? { OneMoreRecord(c, a, b, last); }
      }
    }
  }

  /** Tamper evidence: two row lists accepted against one head decode to the same records, or the
      proof hands over a chain-hash collision. */
  lemma TamperEvidence(c: Codec, scope: Scope, head: Head, a: seq<Row>, b: seq<Row>) returns (found: Option<Collision>)
    requires ValidState(c, scope, Some(head), a, map[]) && ValidState(c, scope, Some(head), b, map[])
    ensures match found
            case Some(x) => Collides(c, x)
            case None => SameRecords(c, a, b)
  {
    found := SameEndSameRecords(c, scope, a, b, head.base.n + 1, head.baseHash.s, head.baseHash.s, head.endHash.s);
  }

  /** The rows are those of the events from `base` on, and their texts are within the limit. */
  ghost predicate AreTheEvents(c: Codec, scope: Scope, log: seq<Entry>, base: nat, rows: seq<Row>)
    requires base <= |log|
  {
    && |rows| == |log| - base
    && forall i :: 0 <= i < |rows| ==> Holds(c, scope, log, base + i, rows[i]) && |rows[i].payload.s| <= 4_194_304
  }

  lemma {:induction false} AcceptedColumns(c: Codec, scope: Scope, log: seq<Entry>, base: nat, rows: seq<Row>, end: string)
    requires Lawful(c) && base + |rows| == |log|
    requires Chained(c, scope, rows, base + 1, Fold(c, scope, log, base), end, map[])
    requires forall i :: 0 <= i < |rows| ==> Decoded(c, rows[i]) == Some(RecordAt(c, scope, log, base + i))
    ensures AreTheEvents(c, scope, log, base, rows)
    decreases |rows|
  {
    if rows != [] {
      assert Decoded(c, rows[0]) == Some(RecordAt(c, scope, log, base));
      assert Holds(c, scope, log, base, rows[0]);
      forall i | 0 <= i < |rows[1..]| ensures Decoded(c, rows[1..][i]) == Some(RecordAt(c, scope, log, base + 1 + i)) {
        assert rows[1..][i] == rows[1 + i];
      }
      AcceptedColumns(c, scope, log, base + 1, rows[1..], end);
      TailAreTheEvents(c, scope, log, base, rows);
    }
  }

  lemma TailAreTheEvents(c: Codec, scope: Scope, log: seq<Entry>, base: nat, rows: seq<Row>)
    requires rows != [] && base < |log| && AreTheEvents(c, scope, log, base + 1, rows[1..])
    requires Holds(c, scope, log, base, rows[0]) && |rows[0].payload.s| <= 4_194_304
    ensures AreTheEvents(c, scope, log, base, rows)
  {
    forall i | 0 <= i < |rows| ensures Holds(c, scope, log, base + i, rows[i]) && |rows[i].payload.s| <= 4_194_304 {
      if i > 0 { assert rows[i] == rows[1..][i - 1]; }
    }
  }

  lemma {:induction false} HeldRowIsOk(c: Codec, scope: Scope, log: seq<Entry>, i: nat, row: Row)
    requires Lawful(c) && i < |log| && Holds(c, scope, log, i, row) && |row.payload.s| <= MAX_TEXT
    ensures RowOk(c, scope, row, i + 1, Fold(c, scope, log, i), map[])
    ensures c.parse(row.payload.s) == Some(RecordAt(c, scope, log, i))
  {
    var record := c.parse(row.payload.s).value;
    assert record == RecordAt(c, scope, log, i);
    FoldIsHash(c, scope, log, i + 1);
  }

  lemma {:induction false} EventsAreChained(c: Codec, scope: Scope, log: seq<Entry>, base: nat, rows: seq<Row>)
    requires Lawful(c) && base <= |log| && AreTheEvents(c, scope, log, base, rows)
    ensures Chained(c, scope, rows, base + 1, Fold(c, scope, log, base), Fold(c, scope, log, |log|), map[])
    decreases |rows|
  {
    if rows != [] {
      HeldRowIsOk(c, scope, log, base, rows[0]);
      forall i | 0 <= i < |rows[1..]|
        ensures Holds(c, scope, log, base + 1 + i, rows[1..][i]) && |rows[1..][i].payload.s| <= 4_194_304
      {
        assert rows[1..][i] == rows[1 + i] && Holds(c, scope, log, base + (1 + i), rows[1 + i]);
      }
      EventsAreChained(c, scope, log, base + 1, rows[1..]);
    }
  }

  lemma EventsAreValid(c: Codec, scope: Scope, log: seq<Entry>, base: nat, rows: seq<Row>)
    requires Lawful(c) && Bounded(c, scope, log) && base <= |log| && |log| - base <= MAX_EVENTS
    requires AreTheEvents(c, scope, log, base, rows)
    ensures ValidState(c, scope, Some(HeadAt(c, scope, log, base)), rows, map[])
  {
    FoldIsHash(c, scope, log, base);
    FoldIsHash(c, scope, log, |log|);
    EventsAreChained(c, scope, log, base, rows);
  }

  /** So whatever rows are later found under a genuine head, they validate if and only if every column
      of them is that of the events appended - or the proof hands over a collision. */
  lemma AcceptedRowsAreTheLog(c: Codec, scope: Scope, log: seq<Entry>, base: nat, rows: seq<Row>)
    returns (found: Option<Collision>)
    requires Lawful(c) && Bounded(c, scope, log) && base <= |log| && log != [] && |log| - base <= MAX_EVENTS
    ensures match found
            case Some(x) => Collides(c, x)
            case None => (ValidState(c, scope, Some(HeadAt(c, scope, log, base)), rows, map[])
                          <==> AreTheEvents(c, scope, log, base, rows))
  {
    var head := HeadAt(c, scope, log, base);
    found := None;
    if ValidState(c, scope, Some(head), rows, map[]) { found := AcceptedAreTheEvents(c, scope, log, base, rows); }
    if AreTheEvents(c, scope, log, base, rows) { EventsAreValid(c, scope, log, base, rows); }
  }

  lemma AcceptedAreTheEvents(c: Codec, scope: Scope, log: seq<Entry>, base: nat, rows: seq<Row>)
    returns (found: Option<Collision>)
    requires Lawful(c) && Bounded(c, scope, log) && base <= |log| && log != [] && |log| - base <= MAX_EVENTS
    requires ValidState(c, scope, Some(HeadAt(c, scope, log, base)), rows, map[])
    ensures match found
            case Some(x) => Collides(c, x)
            case None => AreTheEvents(c, scope, log, base, rows)
  {
    var genuine := GenuineRows(c, scope, log, base);
    RefinedIsValid(c, scope, Partition(Some(HeadAt(c, scope, log, base)), genuine), log, base, map[]);
    found := TamperEvidence(c, scope, HeadAt(c, scope, log, base), rows, genuine);
    if found.None? {
      forall i | 0 <= i < |rows| ensures Decoded(c, rows[i]) == Some(RecordAt(c, scope, log, base + i)) {
        GenuineRowDecodes(c, scope, log, base, i);
      }
      AcceptedColumns(c, scope, log, base, rows, Fold(c, scope, log, |log|));
    }
  }

  function GenuineRows(c: Codec, scope: Scope, log: seq<Entry>, base: nat): seq<Row>
    requires base <= |log|
  {
    seq(|log| - base, i requires 0 <= i < |log| - base => RowAt(c, scope, log, base + i))
  }

  lemma GenuineRowDecodes(c: Codec, scope: Scope, log: seq<Entry>, base: nat, i: nat)
    requires Lawful(c) && base + i < |log|
    ensures Decoded(c, GenuineRows(c, scope, log, base)[i]) == Some(RecordAt(c, scope, log, base + i))
  {
    var record, row := RecordAt(c, scope, log, base + i), RowAt(c, scope, log, base + i);
    assert GenuineRows(c, scope, log, base)[i] == row && row.payload == Text(c.render(record));
    assert c.parse(c.render(record)) == Some(record);
    assert Decoded(c, row) == Some(record);
  }
}
