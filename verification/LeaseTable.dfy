/** The lease table and its three transactions: issue, consume and revoke.

    Class Leases.LeaseStore performs them on a mutable table.  Timestamps are microseconds; the
    text column beside each of them is a second writing of the same instant. */
module LeaseTable {
  import opened Domain

  const SECOND_US := 1_000_000
  const MAX_TTL_SECONDS := 86_400
  const MAX_USES := 1_000
  const MAX_TEXT := 4_096

  datatype Row = Row(scope: Scope, binding: Binding, issuedUs: int, expiresUs: int, maxUses: int,
                     useCount: int, revoked: bool, revokedUs: Option<int>, approver: Option<string>)

  type Rows = map<Id, Row>

  datatype IssueError = InvalidTtl | InvalidMaxUses | SingleUseRequired | InvalidApprover | IntegrityError

  datatype Reason =
    | Consumed | NotFound | Revoked | BindingMismatch | Expired | Exhausted | StorageUnavailable

  datatype ConsumeResult = ConsumeResult(reason: Reason, uses: Option<int>, maxUses: Option<int>) {
    predicate Allowed() { reason.Consumed? }
  }

  predicate SingleUseRisk(level: RiskLevel) {
    level.Mutation? || level.Destructive? || level.Financial? || level.Credential? || level.Unknown?
  }

  predicate ValidApprover(approver: Option<string>) { approver.Some? ==> 1 <= |approver.value| <= MAX_TEXT }

  /** `_validate_row`: the selected row is well formed; a matching request also vouches for the
      scope and the use limit stored beside the binding. */
  predicate ValidRow(row: Row, request: LeaseRequest) {
    && SECOND_US <= row.expiresUs - row.issuedUs <= MAX_TTL_SECONDS * SECOND_US
    && 1 <= row.maxUses <= MAX_USES
    && 0 <= row.useCount <= row.maxUses
    && (if row.revoked then row.revokedUs.Some? && row.issuedUs <= row.revokedUs.value else row.revokedUs.None?)
    && ValidApprover(row.approver)
    && (row.binding == Binding(request) ==>
          row.scope == request.scope && (SingleUseRisk(request.riskLevel) ==> row.maxUses == 1))
  }

  function IssueCheck(rows: Rows, id: Token, request: LeaseRequest, ttl: int, maxUses: int,
                      approver: Option<string>): Option<IssueError>
  {
    if !(1 <= ttl <= MAX_TTL_SECONDS) then Some(InvalidTtl)
    else if !(1 <= maxUses <= MAX_USES) then Some(InvalidMaxUses)
    else if SingleUseRisk(request.riskLevel) && maxUses != 1 then Some(SingleUseRequired)
    else if !ValidApprover(approver) then Some(InvalidApprover)
    else if id in rows then Some(IntegrityError)
    else None
  }

  function NewRow(request: LeaseRequest, ttl: int, maxUses: int, approver: Option<string>, now: int): Row {
    Row(request.scope, Binding(request), now, now + ttl * SECOND_US, maxUses, 0, false, None, approver)
  }

  function Issue(rows: Rows, id: Token, request: LeaseRequest, ttl: int, maxUses: int,
                 approver: Option<string>, now: int): (Rows, Option<IssueError>)
  {
    var error := IssueCheck(rows, id, request, ttl, maxUses, approver);
    (if error.None? then rows[id := NewRow(request, ttl, maxUses, approver, now)] else rows, error)
  }

  function ConsumeReason(rows: Rows, id: Id, request: LeaseRequest, now: int): Reason {
    if id !in rows || id == "" then NotFound
    else
      var row := rows[id];
      if !ValidRow(row, request) then StorageUnavailable
      else if row.revoked then Revoked
      else if row.binding != Binding(request) then BindingMismatch
      else if row.expiresUs <= now then Expired
      else if row.maxUses <= row.useCount then Exhausted
      else Consumed
  }

  function Consume(rows: Rows, id: Id, request: LeaseRequest, now: int): (Rows, ConsumeResult) {
    var reason := ConsumeReason(rows, id, request, now);
    match reason
    case Consumed =>
      var used := rows[id].(useCount := rows[id].useCount + 1);
      (rows[id := used], ConsumeResult(reason, Some(used.useCount), Some(used.maxUses)))
    case Exhausted => (rows, ConsumeResult(reason, Some(rows[id].useCount), Some(rows[id].maxUses)))
    case _ => (rows, ConsumeResult(reason, None, None))
  }

  /** A revocation names a whole profile or one chat of it, and only live rows change. */
  predicate Covers(row: Row, scope: Scope, wholeProfile: bool) {
    row.scope.Owner() == scope.Owner() && (wholeProfile || row.scope.chat == scope.chat)
  }

  function RevokedRow(row: Row, now: int): Row { row.(revoked := true, revokedUs := Some(now)) }

  function Live(rows: Rows, scope: Scope, wholeProfile: bool): set<Id> {
    set id | id in rows && Covers(rows[id], scope, wholeProfile) && !rows[id].revoked
  }

  /** The count is the number of rows changed. */
  function Revoke(rows: Rows, scope: Scope, wholeProfile: bool, now: int): (Rows, nat) {
    var hit := Live(rows, scope, wholeProfile);
    (map id | id in rows :: if id in hit then RevokedRow(rows[id], now) else rows[id], |hit|)
  }
}
