/** What the validation of a stored state means for any head and rows, genuine or not: the state is one
    chain of records, numbered on from its base, from the hash it names to the hash it ends with. */
module AuditVerdict {
  import opened Domain
  import opened AuditChain
  import opened AuditLog

  /** The chain hash over the records of the rows, from some hash on. */
  function HashOver(c: Codec, start: string, rows: seq<Row>): string
    decreases |rows|
  {
    if rows == [] then start
    else HashOver(c, if Decoded(c, rows[0]).Some? then c.chain(Decoded(c, rows[0]).value, start) else "", rows[1..])
  }

  /** A row of the scope with this number, whose columns repeat what its payload says and whose hashes
      are those before and after it. */
  predicate Reads(c: Codec, scope: Scope, row: Row, number: int, before: string, after: string) {
    && row.project == Text(scope.project) && row.profile == Text(scope.agent) && row.chat == Text(scope.chat)
    && row.sequence == Int(number) && row.prevHash == Text(before) && row.eventHash == Text(after)
    && row.payload.Text? && |row.payload.s| <= 4_194_304 && c.parse(row.payload.s).Some?
    && var record := c.parse(row.payload.s).value;
    && record.schema == "a0.sam.audit/v1alpha1" && record.sequence == number && record.scope == scope
    && row.at == Text(record.timestamp) && c.unstamp(record.timestamp).Some? && row.atUs == Int(c.unstamp(record.timestamp).value)
  }

  predicate AllRead(c: Codec, scope: Scope, rows: seq<Row>, first: int, start: string) {
    forall i :: 0 <= i < |rows| ==>
      Reads(c, scope, rows[i], first + i, HashOver(c, start, rows[..i]), HashOver(c, start, rows[..i + 1]))
  }

  lemma OneRowReads(c: Codec, scope: Scope, row: Row, number: int, before: string)
    requires Lawful(c)
    ensures RowOk(c, scope, row, number, before, map[])
       <==> Reads(c, scope, row, number, before, if Decoded(c, row).Some? then c.chain(Decoded(c, row).value, before) else "")
  {
    if Decoded(c, row).Some? { assert IsHash(c.chain(Decoded(c, row).value, before)); }
  }

  lemma {:induction false} HashOverPrefix(c: Codec, start: string, rows: seq<Row>, i: nat)
    requires 0 < i <= |rows|
    ensures var next := if Decoded(c, rows[0]).Some? then c.chain(Decoded(c, rows[0]).value, start) else "";
            HashOver(c, start, rows[..i]) == HashOver(c, next, rows[1..][..i - 1])
  {
    assert rows[..i][1..] == rows[1..][..i - 1];
  }

  lemma {:induction false} FirstAndRestRead(c: Codec, scope: Scope, rows: seq<Row>, first: int, start: string)
    requires rows != []
    ensures var next := HashOver(c, start, rows[..1]);
            AllRead(c, scope, rows, first, start)
            <==> Reads(c, scope, rows[0], first, start, next) && AllRead(c, scope, rows[1..], first + 1, next)
  {
    var next, rest := HashOver(c, start, rows[..1]), rows[1..];
    if AllRead(c, scope, rows, first, start) { RestReads(c, scope, rows, first, start, next); }
    if Reads(c, scope, rows[0], first, start, next) && AllRead(c, scope, rest, first + 1, next) { WholeReads(c, scope, rows, first, start, next); }
  }

  lemma {:induction false} RestReads(c: Codec, scope: Scope, rows: seq<Row>, first: int, start: string, next: string)
    requires rows != [] && next == HashOver(c, start, rows[..1]) && AllRead(c, scope, rows, first, start)
    ensures Reads(c, scope, rows[0], first, start, next) && AllRead(c, scope, rows[1..], first + 1, next)
  {
    var rest := rows[1..];
    assert rows[..0] == [] && rows[..1][1..] == [];
    assert Reads(c, scope, rows[0], first + 0, HashOver(c, start, rows[..0]), HashOver(c, start, rows[..0 + 1]));
    forall i | 0 <= i < |rest|
      ensures Reads(c, scope, rest[i], first + 1 + i, HashOver(c, next, rest[..i]), HashOver(c, next, rest[..i + 1]))
    {
      HashOverPrefix(c, start, rows, i + 1);
      HashOverPrefix(c, start, rows, i + 2);
      assert Reads(c, scope, rows[i + 1], first + (i + 1), HashOver(c, start, rows[..i + 1]), HashOver(c, start, rows[..i + 1 + 1]));
    }
  }

  lemma {:induction false} WholeReads(c: Codec, scope: Scope, rows: seq<Row>, first: int, start: string, next: string)
    requires rows != [] && next == HashOver(c, start, rows[..1])
    requires Reads(c, scope, rows[0], first, start, next) && AllRead(c, scope, rows[1..], first + 1, next)
    ensures AllRead(c, scope, rows, first, start)
  {
    var rest := rows[1..];
    assert rows[..0] == [] && rows[..1][1..] == [];
    forall i | 0 <= i < |rows|
      ensures Reads(c, scope, rows[i], first + i, HashOver(c, start, rows[..i]), HashOver(c, start, rows[..i + 1]))
    {
      if i > 0 {
        HashOverPrefix(c, start, rows, i);
        HashOverPrefix(c, start, rows, i + 1);
        assert Reads(c, scope, rest[i - 1], first + 1 + (i - 1), HashOver(c, next, rest[..i - 1]), HashOver(c, next, rest[..i - 1 + 1]));
      }
    }
  }

  lemma {:induction false} ChainedIff(c: Codec, scope: Scope, rows: seq<Row>, first: int, start: string, end: string)
    requires Lawful(c)
    ensures Chained(c, scope, rows, first, start, end, map[]) <==> AllRead(c, scope, rows, first, start) && HashOver(c, start, rows) == end
    decreases |rows|
  {
    if rows != [] {
      var next := HashOver(c, start, rows[..1]);
      assert rows[..1][1..] == [];
      OneRowReads(c, scope, rows[0], first, start);
      FirstAndRestRead(c, scope, rows, first, start);
      ChainedIff(c, scope, rows[1..], first + 1, next, end);
    }
  }

  /** The head of such a chain: of the scope, at most 10,000 rows from its base to its end, starting from
      64 zeros if nothing was pruned. */
  predicate Heads(c: Codec, scope: Scope, h: Head, rows: seq<Row>) {
    && h.project == Text(scope.project) && h.profile == Text(scope.agent) && h.chat == Text(scope.chat)
    && h.base.Int? && 0 <= h.base.n && h.end == Int(h.base.n + |rows|) && h.end.n < 0x7FFF_FFFF_FFFF_FFFF
    && h.count == Int(|rows|) && |rows| <= 10_000
    && h.baseHash.Text? && IsHash(h.baseHash.s) && (h.base.n == 0 ==> forall ch :: ch in h.baseHash.s ==> ch == '0')
    && h.endHash == Text(HashOver(c, h.baseHash.s, rows))
  }

  lemma {:induction false} HashOverIsHash(c: Codec, start: string, rows: seq<Row>)
    requires Lawful(c) && IsHash(start) && forall i :: 0 <= i < |rows| ==> Decoded(c, rows[i]).Some?
    ensures IsHash(HashOver(c, start, rows))
    decreases |rows|
  {
    if rows != [] {
      assert IsHash(c.chain(Decoded(c, rows[0]).value, start));
      HashOverIsHash(c, c.chain(Decoded(c, rows[0]).value, start), rows[1..]);
    }
  }

  lemma ZeroHashIff(s: string)
    requires IsHash(s)
    ensures s == ZERO_HASH <==> forall ch :: ch in s ==> ch == '0'
  {
    if forall ch :: ch in s ==> ch == '0' {
      forall i | 0 <= i < 64 ensures s[i] == ZERO_HASH[i] { assert s[i] in s && ZERO_HASH[i] in ZERO_HASH; }
    }
  }

  lemma {:induction false} HeadOkIff(c: Codec, scope: Scope, h: Head, rows: seq<Row>)
    requires Lawful(c) && h.base.Int? && h.baseHash.Text? && AllRead(c, scope, rows, h.base.n + 1, h.baseHash.s)
    ensures HeadOk(scope, h, |rows|) && h.endHash == Text(HashOver(c, h.baseHash.s, rows)) <==> Heads(c, scope, h, rows)
  {
    if IsHash(h.baseHash.s) {
      ZeroHashIff(h.baseHash.s);
      forall i | 0 <= i < |rows| ensures Decoded(c, rows[i]).Some? {
        assert Reads(c, scope, rows[i], h.base.n + 1 + i, HashOver(c, h.baseHash.s, rows[..i]), HashOver(c, h.baseHash.s, rows[..i + 1]));
      }
      HashOverIsHash(c, h.baseHash.s, rows);
    }
  }

  /** A stored state validates in full if and only if there is nothing, or its rows and head are such a
      chain - whoever wrote it. */
  lemma ValidStateIff(c: Codec, scope: Scope, head: Option<Head>, rows: seq<Row>)
    requires Lawful(c)
    ensures ValidState(c, scope, head, rows, map[]) <==>
            if head.None? then rows == []
            else Heads(c, scope, head.value, rows) && AllRead(c, scope, rows, head.value.base.n + 1, head.value.baseHash.s)
  {
    if head.Some? && head.value.base.Int? && head.value.baseHash.Text? {
      var h := head.value;
      if h.endHash.Text? { ChainedIff(c, scope, rows, h.base.n + 1, h.baseHash.s, h.endHash.s); }
      if AllRead(c, scope, rows, h.base.n + 1, h.baseHash.s) { HeadOkIff(c, scope, h, rows); }
    }
  }
}
