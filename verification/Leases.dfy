/** Class LeaseStore: the lease transactions on a mutable table. */
module Leases {
  import opened Domain
  import opened LeaseTable

  class LeaseStore {
    var rows: Rows

    constructor ()
      ensures rows == map[]
    {
      rows := map[];
    }

    method Issue(id: Token, request: LeaseRequest, ttl: int, maxUses: int, approver: Option<string>, now: int)
      returns (error: Option<IssueError>)
      modifies this
      ensures (rows, error) == LeaseTable.Issue(old(rows), id, request, ttl, maxUses, approver, now)
    {
      if ttl < 1 || MAX_TTL_SECONDS < ttl { return Some(InvalidTtl); }
      if maxUses < 1 || MAX_USES < maxUses { return Some(InvalidMaxUses); }
      if SingleUseRisk(request.riskLevel) && maxUses != 1 { return Some(SingleUseRequired); }
      if approver.Some? && (approver.value == "" || MAX_TEXT < |approver.value|) { return Some(InvalidApprover); }
      if id in rows { return Some(IntegrityError); }
      var expires := now + ttl * SECOND_US;
      rows := rows[id := Row(request.scope, Binding(request), now, expires, maxUses, 0, false, None, approver)];
      return None;
    }

    method ValidateRow(row: Row, request: LeaseRequest) returns (ok: bool)
      ensures ok == ValidRow(row, request)
    {
      var lifetime := row.expiresUs - row.issuedUs;
      if lifetime < SECOND_US || MAX_TTL_SECONDS * SECOND_US < lifetime { return false; }
      if row.maxUses < 1 || MAX_USES < row.maxUses { return false; }
      if row.useCount < 0 || row.maxUses < row.useCount { return false; }
      if row.revoked {
        if row.revokedUs == None || row.revokedUs.value < row.issuedUs { return false; }
      } else if row.revokedUs != None { return false; }
      if row.approver.Some? && (row.approver.value == "" || MAX_TEXT < |row.approver.value|) { return false; }
      if row.binding.request == request {
        if row.scope != request.scope { return false; }
        if SingleUseRisk(request.riskLevel) && row.maxUses != 1 { return false; }
      }
      return true;
    }

    method Consume(id: Id, request: LeaseRequest, now: int) returns (r: ConsumeResult)
      modifies this
      ensures (rows, r) == LeaseTable.Consume(old(rows), id, request, now)
    {
      if id == "" || id !in rows { return ConsumeResult(NotFound, None, None); }
      var row := rows[id];
      var ok := ValidateRow(row, request);
      if !ok { return ConsumeResult(StorageUnavailable, None, None); }
      if row.revoked { return ConsumeResult(Revoked, None, None); }
      if row.binding.request != request { return ConsumeResult(BindingMismatch, None, None); }
      if now >= row.expiresUs { return ConsumeResult(Expired, None, None); }
      if row.useCount >= row.maxUses { return ConsumeResult(Exhausted, Some(row.useCount), Some(row.maxUses)); }
      var uses := row.useCount + 1;
      rows := rows[id := row.(useCount := uses)];
      return ConsumeResult(Consumed, Some(uses), Some(row.maxUses));
    }

    /** One UPDATE over the live rows the scope covers; returns the row count. */
    method Revoke(scope: Scope, wholeProfile: bool, now: int) returns (count: nat)
      modifies this
      ensures (rows, count) == LeaseTable.Revoke(old(rows), scope, wholeProfile, now)
    {
      ghost var was := rows;
      var hit := set id | id in rows
        && rows[id].scope.project == scope.project && rows[id].scope.agent == scope.agent
        && !rows[id].revoked && (wholeProfile || rows[id].scope.chat == scope.chat);
      assert hit == Live(was, scope, wholeProfile);
      var pending := hit;
      while pending != {}
        invariant pending <= hit <= was.Keys == rows.Keys
        invariant forall id :: id in was ==>
          rows[id] == if id in hit && id !in pending then RevokedRow(was[id], now) else was[id]
      {
        var id :| id in pending;
        rows := rows[id := rows[id].(revoked := true, revokedUs := Some(now))];
        pending := pending - {id};
      }
      assert rows == LeaseTable.Revoke(was, scope, wholeProfile, now).0;
      return |hit|;
    }
  }
}
