/** A lease told by its history: when it is issued, what ends it, and what a consume of it answers, in
    terms of the calls before and never of the stored rows. */
module LeaseLedger {
  import opened Domain
  import T = LeaseTable
  import opened LeaseRuns

  /** The revocation names the profile of the chat, and the chat itself unless it means all of them. */
  predicate Ends(c: Call, scope: Scope) {
    c.Revoke? && c.scope.project == scope.project && c.scope.agent == scope.agent && (c.wholeProfile || c.scope.chat == scope.chat)
  }

  predicate Ended(cs: seq<Call>, scope: Scope) { exists c :: c in cs && Ends(c, scope) }

  lemma {:induction false} RunThen(rows: T.Rows, a: seq<Call>, b: seq<Call>)
    ensures Run(rows, a + b) == Run(Run(rows, a), b)
    decreases |a|
  {
    if a == [] {
      assert a + b == b;
    } else {
      assert (a + b)[1..] == a[1..] + b;
      RunThen(After(rows, a[0]), a[1..], b);
    }
  }

  lemma StepRevokesIff(rows: T.Rows, c: Call, id: Id)
    requires id in rows
    ensures id in After(rows, c) && (After(rows, c)[id].revoked <==> rows[id].revoked || Ends(c, rows[id].scope))
  {}

  lemma {:induction false} RevokedIff(rows: T.Rows, cs: seq<Call>, id: Id)
    requires id in rows
    ensures id in Run(rows, cs) && (Run(rows, cs)[id].revoked <==> rows[id].revoked || Ended(cs, rows[id].scope))
    decreases |cs|
  {
    if cs != [] {
      var n, scope := After(rows, cs[0]), rows[id].scope;
      StepRevokesIff(rows, cs[0], id);
      StepCounts(rows, cs[0], id);
      RevokedIff(n, cs[1..], id);
      assert Ended(cs, scope) <==> Ends(cs[0], scope) || Ended(cs[1..], scope) by {
        assert cs == [cs[0]] + cs[1..];
      }
    }
  }

  /** It is to last 1 to 86,400 seconds for 1 to 1,000 uses - one, unless the tool only reads or only uses
      the network - and its approver, if named, has 1 to 4,096 characters. */
  predicate Issuable(issue: Call)
    requires issue.Issue?
  {
    && 1 <= issue.ttl <= 86_400 && 1 <= issue.maxUses <= 1_000
    && (issue.request.riskLevel.ReadOnly? || issue.request.riskLevel.Network? || issue.maxUses == 1)
    && (issue.approver.Some? ==> 1 <= |issue.approver.value| <= 4_096)
  }

  /** A lease is issued, unused for the request from now on, if and only if it may be and no stored lease
      has its identifier. */
  lemma IssuedIff(rows: T.Rows, issue: Call)
    requires issue.Issue?
    ensures T.Issue(rows, issue.token, issue.request, issue.ttl, issue.maxUses, issue.approver, issue.now).1.None?
       <==> Issuable(issue) && issue.token !in rows
    ensures Issuable(issue) && issue.token !in rows ==>
      After(rows, issue) == rows[issue.token := T.Row(issue.request.scope, Binding(issue.request), issue.now,
                                                      issue.now + issue.ttl * 1_000_000, issue.maxUses, 0, false, None, issue.approver)]
    ensures !(Issuable(issue) && issue.token !in rows) ==> After(rows, issue) == rows
  {}

  /** Otherwise it says the first thing that is wrong with it. */
  lemma IssueRefusals(rows: T.Rows, issue: Call)
    requires issue.Issue?
    ensures var error := T.Issue(rows, issue.token, issue.request, issue.ttl, issue.maxUses, issue.approver, issue.now).1;
            && (error == Some(T.InvalidTtl) <==> !(1 <= issue.ttl <= 86_400))
            && (error == Some(T.InvalidMaxUses) <==> 1 <= issue.ttl <= 86_400 && !(1 <= issue.maxUses <= 1_000))
            && (error == Some(T.SingleUseRequired) <==>
                  && 1 <= issue.ttl <= 86_400 && 1 < issue.maxUses <= 1_000
                  && !issue.request.riskLevel.ReadOnly? && !issue.request.riskLevel.Network?)
            && (error == Some(T.IntegrityError) <==> Issuable(issue) && issue.token in rows)
  {}

  /** What the calls since the issue say of a lease. */
  lemma {:induction false} RowOfIssue(rows: T.Rows, issue: Call, after: seq<Call>)
    requires issue.Issue? && Issuable(issue) && issue.token !in rows
    ensures var id, end := issue.token, Run(After(rows, issue), after);
            && id in end
            && end[id].scope == issue.request.scope && end[id].binding == Binding(issue.request) && end[id].maxUses == issue.maxUses
            && end[id].expiresUs == issue.now + issue.ttl * 1_000_000
            && end[id].useCount == |Uses(After(rows, issue), after, id)|
            && (end[id].revoked <==> Ended(after, issue.request.scope))
  {
    var issued := After(rows, issue);
    IssuedIff(rows, issue);
    RevokedIff(issued, after, issue.token);
    UsesAreCounted(issued, after, issue.token);
  }

  /** Under a clock that does not go back a consume of an issued lease answers, whatever happened since:
      revoked exactly if a revocation of its chat or of its whole profile came after the issue; then a
      mismatch for any other request; then expired from issue plus ttl on; then exhausted once it was used
      as often as allowed; and consumed otherwise. */
  lemma {:induction false} ConsumeAnswers(before: seq<Call>, issue: Call, after: seq<Call>, request: LeaseRequest, now: int, start: int)
    requires issue.Issue? && Issuable(issue) && issue.token !in Run(map[], before)
    requires Clocked(before + [issue] + after, start)
    ensures var uses := |Uses(After(Run(map[], before), issue), after, issue.token)|;
            T.ConsumeReason(Run(map[], before + [issue] + after), issue.token, request, now) ==
              if Ended(after, issue.request.scope) then T.Revoked
              else if request != issue.request then T.BindingMismatch
              else if issue.now + issue.ttl * 1_000_000 <= now then T.Expired
              else if uses >= issue.maxUses then T.Exhausted
              else T.Consumed
  {
    var rows, all := Run(map[], before), before + [issue] + after;
    RunThen(map[], before + [issue], after);
    RunThen(map[], before, [issue]);
    assert Run(rows, [issue]) == After(rows, issue);
    RowOfIssue(rows, issue, after);
    RowsAlwaysValidate(all, start, issue.token, request);
  }

  /** A stored row says what it may: a lifetime of 1 to 86,400 seconds, 1 to 1,000 uses and no more made, a
      time of revocation after its issue exactly if it is revoked, an approver of 1 to 4,096 characters if
      any, and, for the request it was issued for, that request's chat and at most one use of a risky tool. */
  predicate Sound(row: T.Row, request: LeaseRequest) {
    && row.issuedUs + 1_000_000 <= row.expiresUs <= row.issuedUs + 86_400_000_000
    && 1 <= row.maxUses <= 1_000 && 0 <= row.useCount <= row.maxUses
    && (row.revoked <==> row.revokedUs.Some?) && (row.revoked ==> row.issuedUs <= row.revokedUs.value)
    && (row.approver.Some? ==> 1 <= |row.approver.value| <= 4_096)
    && (row.binding.request == request ==>
          && row.scope == request.scope
          && (row.maxUses == 1 || request.riskLevel.ReadOnly? || request.riskLevel.Network?))
  }

  /** Whatever a table holds, tampered with or not, a row that is not sound is never consumed, whatever
      else is the matter with it. */
  lemma UnavailableIff(rows: T.Rows, id: Id, request: LeaseRequest, now: int)
    ensures T.ConsumeReason(rows, id, request, now) == T.StorageUnavailable
       <==> id in rows && id != "" && !Sound(rows[id], request)
  {}

  /** What is not stored is not found, and no answer but consumed changes anything. */
  lemma ConsumeCounts(rows: T.Rows, id: Id, request: LeaseRequest, now: int)
    ensures var r := T.ConsumeReason(rows, id, request, now);
            var x := T.Consume(rows, id, request, now);
            && x.1.reason == r && (r.NotFound? <==> id !in rows || id == "")
            && (r.Consumed? ==>
                  && id in rows && x.0 == rows[id := rows[id].(useCount := rows[id].useCount + 1)]
                  && x.1.uses == Some(rows[id].useCount + 1) && x.1.maxUses == Some(rows[id].maxUses))
            && (!r.Consumed? ==> x.0 == rows)
            && (r.Exhausted? ==> id in rows && x.1.uses == Some(rows[id].useCount) && x.1.maxUses == Some(rows[id].maxUses))
  {}

  /** A revocation ends exactly the live leases of its chat, or of its profile, and reports their number. */
  lemma RevokeEndsExactly(rows: T.Rows, c: Call, ended: set<Id>)
    requires c.Revoke? && forall id :: id in ended <==> id in rows && !rows[id].revoked && Ends(c, rows[id].scope)
    ensures var x := T.Revoke(rows, c.scope, c.wholeProfile, c.now);
            && x.1 == |ended| && x.0.Keys == rows.Keys
            && forall id :: id in rows ==>
                 x.0[id] == if id in ended then rows[id].(revoked := true, revokedUs := Some(c.now)) else rows[id]
  {
    assert ended == T.Live(rows, c.scope, c.wholeProfile);
  }
}
