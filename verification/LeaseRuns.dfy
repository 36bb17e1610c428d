/** What holds over every run of lease transactions. */
module LeaseRuns {
  import opened Domain
  import opened LeaseTable

  datatype Call =
    | Issue(token: Token, request: LeaseRequest, ttl: int, maxUses: int, approver: Option<string>, now: int)
    | Consume(id: Id, request: LeaseRequest, now: int)
    | Revoke(scope: Scope, wholeProfile: bool, now: int)

  function After(rows: Rows, c: Call): Rows {
    match c
    case Issue(id, request, ttl, maxUses, approver, now) => LeaseTable.Issue(rows, id, request, ttl, maxUses, approver, now).0
    case Consume(id, request, now) => LeaseTable.Consume(rows, id, request, now).0
    case Revoke(scope, wholeProfile, now) => LeaseTable.Revoke(rows, scope, wholeProfile, now).0
  }

  function Run(rows: Rows, cs: seq<Call>): Rows
    decreases |cs|
  {
    if cs == [] then rows else Run(After(rows, cs[0]), cs[1..])
  }

  /** The clock the calls read never goes back. */
  predicate Clocked(cs: seq<Call>, from: int)
    decreases |cs|
  {
    cs == [] || (from <= cs[0].now && Clocked(cs[1..], cs[0].now))
  }

  predicate Succeeds(rows: Rows, c: Call, id: Id) {
    c.Consume? && c.id == id && LeaseTable.Consume(rows, id, c.request, c.now).1.Allowed()
  }

  /** The successful consumes of one lease, in order. */
  function Uses(rows: Rows, cs: seq<Call>, id: Id): seq<Call>
    decreases |cs|
  {
    if cs == [] then []
    else (if Succeeds(rows, cs[0], id) then [cs[0]] else []) + Uses(After(rows, cs[0]), cs[1..], id)
  }

  function UseCount(rows: Rows, id: Id): int { if id in rows then rows[id].useCount else 0 }

  // ---------------------------------------------------------------- stored rows stay valid

  /** A row as issue, consume and revoke build it, seen at some instant. */
  predicate Built(row: Row, now: int) {
    && ValidRow(row, row.binding.request)
    && row.issuedUs <= now
  }

  predicate AllBuilt(rows: Rows, now: int) { forall id :: id in rows ==> Built(rows[id], now) }

  lemma StepKeepsBuilt(rows: Rows, c: Call, now: int)
    requires AllBuilt(rows, now) && now <= c.now
    ensures AllBuilt(After(rows, c), c.now)
  {}

  lemma {:induction false} RunKeepsBuilt(rows: Rows, cs: seq<Call>, now: int) returns (end: int)
    requires AllBuilt(rows, now) && Clocked(cs, now)
    ensures AllBuilt(Run(rows, cs), end)
    decreases |cs|
  {
    if cs == [] {
      end := now;
    } else {
      StepKeepsBuilt(rows, cs[0], now);
      end := RunKeepsBuilt(After(rows, cs[0]), cs[1..], cs[0].now);
    }
  }

  /** Under a clock that never goes back, no stored row is ever rejected as malformed, whatever
      request it is selected for. */
  lemma {:induction false} RowsAlwaysValidate(cs: seq<Call>, start: int, id: Id, request: LeaseRequest)
    requires Clocked(cs, start) && id in Run(map[], cs)
    ensures ValidRow(Run(map[], cs)[id], request)
  {
    var end := RunKeepsBuilt(map[], cs, start);
  }

  /** The clock is what matters: a live row survives a revocation exactly when the revocation does
      not read a time before the row was issued. */
  lemma RevocationKeepsRowValidIff(row: Row, now: int)
    requires ValidRow(row, row.binding.request) && !row.revoked
    ensures ValidRow(RevokedRow(row, now), row.binding.request) <==> row.issuedUs <= now
  {}

  // ---------------------------------------------------------------- use counting

  /** What no later transaction changes about a stored lease. */
  predicate SameTerms(was: Row, now: Row) {
    && now.binding == was.binding && now.scope == was.scope && now.maxUses == was.maxUses
    && now.issuedUs == was.issuedUs && now.expiresUs == was.expiresUs && (was.revoked ==> now.revoked)
  }

  lemma StepCounts(rows: Rows, c: Call, id: Id)
    ensures UseCount(After(rows, c), id) == UseCount(rows, id) + if Succeeds(rows, c, id) then 1 else 0
    ensures id in rows ==> id in After(rows, c) && SameTerms(rows[id], After(rows, c)[id])
  {}

  /** Successful consumes are exactly what the stored count counts. */
  lemma {:induction false} UsesAreCounted(rows: Rows, cs: seq<Call>, id: Id)
    ensures UseCount(Run(rows, cs), id) == UseCount(rows, id) + |Uses(rows, cs, id)|
    ensures id in rows ==> id in Run(rows, cs) && SameTerms(rows[id], Run(rows, cs)[id])
    decreases |cs|
  {
    if cs != [] {
      StepCounts(rows, cs[0], id);
      UsesAreCounted(After(rows, cs[0]), cs[1..], id);
    }
  }

  /** Every use of a stored lease is for the request it was issued for and before it expires, and
      there are never more of them than it allows. */
  lemma {:induction false} UsesKeepTheTerms(rows: Rows, cs: seq<Call>, id: Id)
    requires id in rows && rows[id].useCount <= rows[id].maxUses
    ensures forall u :: u in Uses(rows, cs, id) ==>
              u.Consume? && u.request == rows[id].binding.request && u.now < rows[id].expiresUs
    ensures rows[id].useCount + |Uses(rows, cs, id)| <= rows[id].maxUses
    decreases |cs|
  {
    if cs != [] {
      StepCounts(rows, cs[0], id);
      UsesKeepTheTerms(After(rows, cs[0]), cs[1..], id);
    }
  }

  /** The life of a lease: from its issue on it is used only for the issued request, only before
      issue time plus ttl, and at most maxUses times - once, for a single-use risk. */
  lemma {:induction false} LeaseLifetime(rows: Rows, issue: Call, cs: seq<Call>)
    requires issue.Issue?
    requires LeaseTable.Issue(rows, issue.token, issue.request, issue.ttl, issue.maxUses, issue.approver, issue.now).1.None?
    ensures var id, issued := issue.token, After(rows, issue);
            && |Uses(issued, cs, id)| == UseCount(Run(issued, cs), id) <= issue.maxUses
            && (SingleUseRisk(issue.request.riskLevel) ==> |Uses(issued, cs, id)| <= 1)
            && forall u :: u in Uses(issued, cs, id) ==>
                 u.Consume? && u.request == issue.request && u.now < issue.now + issue.ttl * SECOND_US
  {
    UsesAreCounted(After(rows, issue), cs, issue.token);
    UsesKeepTheTerms(After(rows, issue), cs, issue.token);
  }

  lemma {:induction false} RevokedIsNeverUsed(rows: Rows, cs: seq<Call>, id: Id)
    requires id in rows && rows[id].revoked
    ensures Uses(rows, cs, id) == []
    decreases |cs|
  {
    if cs != [] {
      StepCounts(rows, cs[0], id);
      RevokedIsNeverUsed(After(rows, cs[0]), cs[1..], id);
    }
  }

  /** After a revocation that covers it, a lease is never used again. */
  lemma {:induction false} NoUseAfterRevocation(rows: Rows, revoke: Call, cs: seq<Call>, id: Id)
    requires revoke.Revoke? && id in rows && Covers(rows[id], revoke.scope, revoke.wholeProfile)
    ensures Uses(After(rows, revoke), cs, id) == []
  {
    RevokedIsNeverUsed(After(rows, revoke), cs, id);
  }

  /** Nor once the clock has reached its expiry. */
  lemma {:induction false} NoUseAfterExpiry(rows: Rows, cs: seq<Call>, id: Id, now: int)
    requires id in rows && rows[id].expiresUs <= now && Clocked(cs, now)
    ensures Uses(rows, cs, id) == []
    decreases |cs|
  {
    if cs != [] {
      StepCounts(rows, cs[0], id);
      NoUseAfterExpiry(After(rows, cs[0]), cs[1..], id, cs[0].now);
    }
  }

  /** A live lease of the request, unexpired and with uses left, is always consumed. */
  lemma {:induction false} LiveLeaseIsConsumed(cs: seq<Call>, start: int, id: Id, now: int)
    requires Clocked(cs, start) && id in Run(map[], cs) && id != ""
    requires var row := Run(map[], cs)[id]; !row.revoked && now < row.expiresUs && row.useCount < row.maxUses
    ensures var rows := Run(map[], cs); LeaseTable.Consume(rows, id, rows[id].binding.request, now).1.Allowed()
  {
    RowsAlwaysValidate(cs, start, id, Run(map[], cs)[id].binding.request);
  }
}
