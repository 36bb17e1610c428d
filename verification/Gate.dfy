/** Class DelegationGate: preflight, approval and invocation, step by step over the decision store, the
    lease store and the audit store, with the flags the code keeps.

    Every store call is recorded as the Dispatch event it is, and between two steps other workers,
    operators and the clock may take any Dispatch steps of their own, so that the whole is a run of
    Dispatch and its theorems hold of it. */
module Gate {
  import opened Domain
  import opened DecisionTables
  import opened Decisions
  import opened Leases
  import R = DecisionRuns
  import L = LeaseTable
  import AuditChain
  import AuditLog
  import D = Dispatch
  import I = DispatchInvariant
  import S = DispatchSafety
  import A = DispatchAudit
  import H = DispatchSlots

  /** What an invocation meets: the configurations it resolves, the tool described to it, verdicts
      and failures of its other collaborators, and what others do before its n-th step. */
  datatype Surroundings = Surroundings(first: Config, allowed: bool, seen: Option<Tool>, config: Config,
                                       permitted: bool, policy: Outcome, assessment: Assessment,
                                       available: bool, stored: bool, others: nat -> seq<D.Event>)

  /** Steps of anybody but this worker. */
  ghost predicate Others(es: seq<D.Event>, w: nat) { forall e :: e in es ==> H.Elsewhere(e, {w}) }

  ghost predicate Apart(s: Surroundings, w: nat) { forall k :: Others(s.others(k), w) }

  /** The worker has done so many stages of this call and is the only one at it; if it is not live
      any more, only its finish is left. */
  ghost predicate Mine(s: D.System, w: nat, id: Id, call: D.Call, done: nat, live: bool) {
    && w in s.workers
    && s.workers[w] == (if live then D.Live(id, call.config.scope, Some(call), done) else D.Ending(id, call.config.scope))
    && H.Unheld(s, {w}, id)
    && done <= |D.Path(Some(call))| && D.Trace(s.log, id) == D.Path(Some(call))[..done]
  }

  /** Nothing of the invocation is left in the decision store but the spent decision. */
  ghost predicate Given(t: Tables, id: Id) { id !in t.admissions && forall chat :: SessionOf(t, chat).active != Some(id) }

  /** A decision sealed for exactly what was asked, good for five minutes, and not spent. */
  ghost predicate SealedAs(s: D.System, id: Id, asked: D.Asked) {
    && id in s.created && s.created[id].asked == asked
    && id in s.store.tables.decisions
    && var row := s.store.tables.decisions[id];
    && !row.used && row.scope == asked.config.scope && row.blob.payload == s.created[id].payload
    && row.expiresUs == s.created[id].at + DECISION_LIFETIME_US
  }

  /** The stored decision is the sealed one with this lease, which is bound to the sealed request for
      one use. */
  ghost predicate ApprovedWith(s: D.System, id: Id, lease: Id) {
    && id in s.created && id in s.store.tables.decisions
    && s.store.tables.decisions[id].blob.payload == s.created[id].payload.(leaseId := Some(lease))
    && lease in s.leases && s.leases[lease].binding == s.created[id].payload.terms.binding
    && s.leases[lease].maxUses == 1 && s.leases[lease].useCount == 0
  }

  // ---------------------------------------------------------------- what each step does

  ghost predicate Reached(codec: AuditChain.Codec, s: D.System) { exists es :: s == D.Run(D.Start(codec), es) }

  lemma ReachedIsSafe(codec: AuditChain.Codec, s: D.System)
    requires Reached(codec, s)
    ensures I.Inv(s)
  {
    var es :| s == D.Run(D.Start(codec), es);
    S.RunsAreSafe(codec, es);
  }

  lemma ReachedIds(codec: AuditChain.Codec, s: D.System, id: Id)
    requires Reached(codec, s)
    ensures R.Valid(s.store) && I.OriginOk(s, id) && I.RowOk(s, id)
  {
    ReachedIsSafe(codec, s);
  }

  lemma ReachedWorker(codec: AuditChain.Codec, s: D.System, w: nat)
    requires Reached(codec, s) && w in s.workers
    ensures R.Valid(s.store) && I.WorkerOk(s, s.workers[w])
  {
    ReachedIsSafe(codec, s);
  }

  lemma NextIsReached(codec: AuditChain.Codec, s: D.System, e: D.Event)
    requires Reached(codec, s)
    ensures Reached(codec, D.Step(s, e))
  {
    var es :| s == D.Run(D.Start(codec), es);
    D.RunsJoin(D.Start(codec), es, [e]);
    D.RunOnce(s, e);
  }

  /** What a step leaves in the stores. */
  ghost predicate Leaves(n: D.System, tables: Tables, leases: L.Rows, clock: int, audit: D.Trails) {
    n.store.tables == tables && n.leases == leases && n.clock == clock && n.audit == audit
  }

  lemma JournalEffect(s: D.System, scope: Scope, event: string)
    ensures var after := D.Appended(s.codec, s.audit, scope, event, s.clock);
            D.Step(s, D.Journal(scope, event)) == s.(audit := if after.Some? then after.value else s.audit)
  {}

  lemma SealEffect(s: D.System, c: R.Call, token: Token, asked: D.Asked)
    requires c.Create? && c.token == token && c.scope == asked.config.scope && token !in s.store.issued
    requires c.payload.expiresUs == c.now + DECISION_LIFETIME_US
    ensures var n := D.OnSeal(s, c, asked);
            && Leaves(n, R.After(s.store.tables, c), s.leases, s.clock, s.audit)
            && D.Stopped(n, c.scope) == D.Stopped(s, c.scope)
            && if D.Commits(s, c) then SealedAs(n, token, asked) else n == s
  {
    R.FailureChangesNothing(s.store.tables, c);
  }

  lemma PreflightAsks(s: D.System, token: Token, key: nat, bytes: nat, asked: D.Asked)
    ensures var e := D.Preflight(token, key, bytes, asked.config, asked.target, asked.arguments, asked.model, asked.dataClass,
                                 asked.assessment, asked.outcome);
            var c := R.Create(key, asked.config.scope, token, Payload(asked.Terms(), None, s.clock + DECISION_LIFETIME_US), bytes, s.clock);
            D.Step(s, e) == D.OnSeal(s, c, asked)
  {}

  /** The event of a preflight. */
  function Sealing(token: Token, key: nat, bytes: nat, asked: D.Asked): D.Event {
    D.Preflight(token, key, bytes, asked.config, asked.target, asked.arguments, asked.model, asked.dataClass, asked.assessment,
                asked.outcome)
  }

  lemma SealingStep(s: D.System, token: Token, key: nat, bytes: nat, asked: D.Asked)
    requires token !in s.store.issued
    ensures var x := Create(s.store.tables, key, asked.config.scope, token,
                            Payload(asked.Terms(), None, s.clock + DECISION_LIFETIME_US), bytes, s.clock);
            var n := D.Step(s, Sealing(token, key, bytes, asked));
            && Leaves(n, x.tables, s.leases, s.clock, s.audit) && D.Stopped(n, asked.config.scope) == D.Stopped(s, asked.config.scope)
            && if x.result.Ok? then SealedAs(n, token, asked) else token !in n.store.issued
  {
    PreflightAsks(s, token, key, bytes, asked);
    SealEffect(s, R.Create(key, asked.config.scope, token, Payload(asked.Terms(), None, s.clock + DECISION_LIFETIME_US), bytes, s.clock),
               token, asked);
  }

  lemma SpendingSeals(codec: AuditChain.Codec, s: D.System, token: Id, asked: D.Asked)
    requires Reached(codec, s) && SealedAs(s, token, asked)
    ensures R.Spent(R.Next(s.store, R.Invalidate(asked.config.scope, token)), token)
  {
    ReachedIds(codec, s, token);
    InvalidateSpends(s.store, asked.config.scope, token);
  }

  lemma InvalidateSpends(h: R.History, scope: Scope, id: Id)
    requires R.Valid(h) && id in h.issued && h.issued[id] == scope && id in h.tables.decisions
    ensures R.Spent(R.Next(h, R.Invalidate(scope, id)), id)
  {
    assert R.DecisionsOwned(h);
  }

  lemma FoundIsSealed(codec: AuditChain.Codec, s: D.System, key: nat, scope: Scope, id: Id, p: Payload)
    requires Reached(codec, s) && LookUp(s.store.tables, key, scope, id, s.clock) == Ok(p) && p.leaseId.None?
    ensures id in s.created && p == s.created[id].payload && p.terms.binding == Binding(p.terms.request)
  {
    FoundRow(s.store.tables, key, scope, id, s.clock, p);
    ReachedRow(codec, s, id);
    UnapprovedIsSealed(s, id, p);
  }

  lemma FoundRow(t: Tables, key: nat, scope: Scope, id: Id, now: int, p: Payload)
    requires LookUp(t, key, scope, id, now) == Ok(p)
    ensures id in t.decisions && t.decisions[id].blob.payload == p
  {}

  lemma ReachedRow(codec: AuditChain.Codec, s: D.System, id: Id)
    requires Reached(codec, s)
    ensures I.OriginOk(s, id) && I.RowOk(s, id)
  {
    ReachedIsSafe(codec, s);
  }

  lemma UnapprovedIsSealed(s: D.System, id: Id, p: Payload)
    requires I.OriginOk(s, id) && I.Genuine(s, id, p) && p.leaseId.None?
    ensures id in s.created && p == s.created[id].payload && p.terms.binding == Binding(p.terms.request)
  {}

  /** The sealed terms are open for approval and fit the configuration. */
  predicate Reviewable(p: Payload, config: Config) {
    && p.terms.outcome.NeedsApproval? && p.leaseId.None?
    && p.terms.binding == Binding(p.terms.request) && p.terms.request.scope == config.scope
    && p.terms.request.passport == Digest(config.passport) && p.terms.route == RouteHash(config)
  }

  lemma ReviewEffect(s: D.System, w: nat, id: Id, config: Config, key: nat, p: Payload)
    requires w !in s.workers && LookUp(s.store.tables, key, config.scope, id, s.clock) == Ok(p)
    requires Reviewable(p, config) && !D.Stopped(s, config.scope)
    ensures D.Step(s, D.Review(w, RemoteTool, id, config, key))
         == D.Put(s, w, D.Reviewing(id, config.scope, p, config.passport.approvalLeaseMinutes))
  {}

  lemma IssueEffect(s: D.System, w: nat, id: Id, scope: Scope, p: Payload, minutes: int, lease: Token, approver: Option<string>)
    requires w in s.workers && s.workers[w] == D.Reviewing(id, scope, p, minutes) && p.terms.binding == Binding(p.terms.request)
    ensures var x := L.Issue(s.leases, lease, p.terms.request, D.Min(D.MAX_LEASE_SECONDS, minutes * 60), 1, approver, s.clock);
            var n := D.Step(s, D.IssueLease(w, lease, approver));
            && Leaves(n, s.store.tables, x.0, s.clock, s.audit) && n.created == s.created
            && if x.1.Some? then w !in n.workers
               else n.workers == s.workers[w := D.Approved(id, scope, p.(leaseId := Some(lease)))]
                    && lease in x.0 && x.0[lease].binding == p.terms.binding && x.0[lease].maxUses == 1 && x.0[lease].useCount == 0
  {}

  lemma RecordEffect(s: D.System, w: nat, id: Id, scope: Scope, p: Payload, key: nat, bytes: nat)
    requires w in s.workers && s.workers[w] == D.Approved(id, scope, p)
    ensures var c := R.Update(key, scope, id, p, bytes, s.clock);
            var n := D.Step(s, D.Record(w, key, bytes));
            && Leaves(n, R.After(s.store.tables, c), s.leases, s.clock, s.audit) && n.created == s.created && w !in n.workers
            && (D.Commits(s, c) ==> id in n.store.tables.decisions && n.store.tables.decisions[id].blob.payload == p)
  {
    R.FailureChangesNothing(s.store.tables, R.Update(key, scope, id, p, bytes, s.clock));
  }

  lemma ObserveEffect(s: D.System, w: nat, id: Id, home: Scope, scope: Scope, payload: Payload, seen: Option<Tool>)
    requires w in s.workers && s.workers[w] == D.Loaded(RemoteTool, id, home, scope, payload)
    ensures D.Step(s, D.Observe(w, if seen.Some? then Some(D.ToolTarget(seen.value)) else None)) ==
            if seen.Some? && D.SameTool(seen.value, payload.terms)
            then D.Put(s, w, D.Observed(RemoteTool, id, home, payload, D.ToolTarget(seen.value)))
            else D.Reject(s, w, scope, id)
  {}

  lemma RejectEffect(s: D.System, w: nat, scope: Scope, id: Id)
    ensures var n := D.Reject(s, w, scope, id);
            Leaves(n, R.After(s.store.tables, R.Invalidate(scope, id)), s.leases, s.clock, s.audit) && w !in n.workers
  {}

  /** The request rebuilt now is the one bound at preflight, and nothing around it has changed. */
  predicate Unchanged(home: Scope, config: Config, tool: Tool, payload: Payload, assessment: Assessment) {
    var p := payload.terms;
    && config.scope == home && RouteHash(config) == p.route && Digest(config.passport) == p.request.passport
    && Binding(D.Request(config, D.ToolTarget(tool), p.arguments, p.model, p.dataClass, assessment)) == p.binding
    && tool.labels == p.labels
  }

  predicate Permitted(stopped: bool, payload: Payload, permitted: bool, policy: Outcome) {
    && permitted && !stopped && !policy.Deny? && !payload.terms.outcome.Deny?
    && !(policy.NeedsApproval? && payload.leaseId.None?)
  }

  function CallOf(config: Config, tool: Tool, payload: Payload, assessment: Assessment, policy: Outcome): D.Call {
    D.Call(config, D.ToolTarget(tool), payload, assessment, policy.NeedsApproval? || assessment.singleUse)
  }

  lemma RebuildEffect(s: D.System, w: nat, id: Id, home: Scope, payload: Payload, tool: Tool, config: Config,
                      permitted: bool, policy: Outcome, assessment: Assessment)
    requires w in s.workers && s.workers[w] == D.Observed(RemoteTool, id, home, payload, D.ToolTarget(tool))
    ensures D.Step(s, D.Rebuild(w, config, permitted, policy, assessment)) ==
            if !Unchanged(home, config, tool, payload, assessment) then D.Reject(s, w, home, id)
            else if !Permitted(D.Stopped(s, config.scope), payload, permitted, policy) then D.Drop(s, w)
            else D.Put(s, w, D.Ready(id, CallOf(config, tool, payload, assessment, policy)))
  {}

  lemma ReadyIsAuthentic(codec: AuditChain.Codec, s: D.System, w: nat, id: Id, call: D.Call)
    requires Reached(codec, s) && w in s.workers && s.workers[w] == D.Ready(id, call)
    ensures I.Authentic(s, id, call)
  {
    ReachedWorker(codec, s, w);
  }

  function ClaimCall(s: D.System, key: nat, id: Id, call: D.Call): R.Call {
    R.Claim(key, call.config.scope, id, call.config.passport.callsPerSession, call.payload, s.clock)
  }

  lemma ClaimStep(s: D.System, w: nat, key: nat, id: Id, call: D.Call)
    requires w in s.workers && s.workers[w] == D.Ready(id, call)
    ensures var c := ClaimCall(s, key, id, call);
            var n := D.Step(s, D.Claim(w, key));
            && Leaves(n, R.After(s.store.tables, c), s.leases, s.clock, s.audit)
            && if D.Commits(s, c) then n.workers == s.workers[w := D.Live(id, call.config.scope, Some(call), 1)]
               else w !in n.workers
  {
    R.FailureChangesNothing(s.store.tables, ClaimCall(s, key, id, call));
  }

  /** Nobody holds what was never claimed. */
  lemma UnclaimedIsUnheld(codec: AuditChain.Codec, s: D.System, id: Id)
    requires Reached(codec, s) && !R.Spent(s.store, id)
    ensures forall v :: v in s.workers ==> !H.Holding(s.workers[v], id)
  {
    forall v | v in s.workers ensures !H.Holding(s.workers[v], id) { ReachedWorker(codec, s, v); }
  }

  lemma LiveIsMine(codec: AuditChain.Codec, s: D.System, w: nat, id: Id, call: D.Call, done: nat)
    requires Reached(codec, s) && w in s.workers && s.workers[w] == D.Live(id, call.config.scope, Some(call), done)
    requires forall v :: v in s.workers && v != w ==> !H.Holding(s.workers[v], id)
    ensures Mine(s, w, id, call, done, true)
  {
    ReachedWorker(codec, s, w);
  }

  lemma ClaimMakesMine(codec: AuditChain.Codec, s: D.System, n: D.System, w: nat, key: nat, id: Id, call: D.Call)
    requires Reached(codec, s) && Reached(codec, n) && D.Commits(s, ClaimCall(s, key, id, call))
    requires n.workers == s.workers[w := D.Live(id, call.config.scope, Some(call), 1)]
    ensures Mine(n, w, id, call, 1, true)
  {
    ClaimedIsUnheld(codec, s, key, id, call);
    LiveIsMine(codec, n, w, id, call, 1);
  }

  lemma ClaimedIsUnheld(codec: AuditChain.Codec, s: D.System, key: nat, id: Id, call: D.Call)
    requires Reached(codec, s) && D.Commits(s, ClaimCall(s, key, id, call))
    ensures forall v :: v in s.workers ==> !H.Holding(s.workers[v], id)
  {
    ReachedIds(codec, s, id);
    I.ClaimTakes(s.store, ClaimCall(s, key, id, call));
    UnclaimedIsUnheld(codec, s, id);
  }

  lemma ClaimEffect(codec: AuditChain.Codec, s: D.System, w: nat, key: nat, id: Id, call: D.Call)
    requires Reached(codec, s) && w in s.workers && s.workers[w] == D.Ready(id, call)
    ensures var c := ClaimCall(s, key, id, call);
            var n := D.Step(s, D.Claim(w, key));
            && Leaves(n, R.After(s.store.tables, c), s.leases, s.clock, s.audit)
            && if D.Commits(s, c) then Mine(n, w, id, call, 1, true) else w !in n.workers
  {
    ClaimStep(s, w, key, id, call);
    NextIsReached(codec, s, D.Claim(w, key));
    if D.Commits(s, ClaimCall(s, key, id, call)) { ClaimMakesMine(codec, s, D.Step(s, D.Claim(w, key)), w, key, id, call); }
  }

  lemma MovedIsMine(codec: AuditChain.Codec, s: D.System, e: D.Event, w: nat, id: Id, call: D.Call, done: nat)
    requires Reached(codec, s) && Mine(s, w, id, call, done, true) && D.Underway(s, w)
    requires D.Step(s, e).workers == D.Moved(s, w).workers
    ensures Mine(D.Step(s, e), w, id, call, done + 1, true)
  {
    NextIsReached(codec, s, e);
    LiveIsMine(codec, D.Step(s, e), w, id, call, done + 1);
  }

  lemma FailedIsMine(s: D.System, w: nat, id: Id, call: D.Call, done: nat)
    requires Mine(s, w, id, call, done, true) && D.Underway(s, w)
    ensures Mine(D.Failed(s, w), w, id, call, done, false)
  {}

  lemma ConsumeStep(s: D.System, w: nat, id: Id, call: D.Call)
    requires w in s.workers && s.workers[w] == D.Live(id, call.config.scope, Some(call), 1) && call.needsLease
    ensures var n := D.Step(s, D.Advance(w, true));
            && n.store == s.store && n.clock == s.clock && n.audit == s.audit
            && if call.payload.leaseId.None? then n == D.Failed(s, w)
               else var x := L.Consume(s.leases, call.payload.leaseId.value, call.Rebuilt(), s.clock);
                    n.leases == x.0 && if x.1.Allowed() then n.workers == D.Moved(s, w).workers else n == D.Failed(s, w)
  {}

  lemma ConsumeEffect(codec: AuditChain.Codec, s: D.System, w: nat, id: Id, call: D.Call)
    requires Reached(codec, s) && Mine(s, w, id, call, 1, true) && call.needsLease
    ensures var n := D.Step(s, D.Advance(w, true));
            var x := if call.payload.leaseId.None? then (s.leases, L.ConsumeResult(L.NotFound, None, None))
                     else L.Consume(s.leases, call.payload.leaseId.value, call.Rebuilt(), s.clock);
            && Leaves(n, s.store.tables, x.0, s.clock, s.audit)
            && Mine(n, w, id, call, if x.1.Allowed() then 2 else 1, x.1.Allowed())
  {
    ConsumeStep(s, w, id, call);
    FailedIsMine(s, w, id, call, 1);
    if call.payload.leaseId.Some? && L.Consume(s.leases, call.payload.leaseId.value, call.Rebuilt(), s.clock).1.Allowed() {
      MovedIsMine(codec, s, D.Advance(w, true), w, id, call, 1);
    }
  }

  lemma AuditStep(s: D.System, w: nat, id: Id, call: D.Call, done: nat, available: bool)
    requires w in s.workers && s.workers[w] == D.Live(id, call.config.scope, Some(call), done)
    requires done < |D.Path(Some(call))| && D.Path(Some(call))[done].Audited?
    ensures var after := D.Appended(s.codec, s.audit, call.config.scope, D.DispatchText(id), s.clock);
            D.Step(s, D.Advance(w, available))
            == if available && after.Some? then D.Moved(s, w).(audit := after.value) else D.Failed(s, w)
  {
    assert D.Step(s, D.Advance(w, available)) == D.OnAudit(s, w, available);
  }

  lemma AuditEffect(codec: AuditChain.Codec, s: D.System, w: nat, id: Id, call: D.Call, done: nat, available: bool, after: Option<D.Trails>)
    requires Reached(codec, s) && Mine(s, w, id, call, done, true)
    requires done < |D.Path(Some(call))| && D.Path(Some(call))[done].Audited?
    requires after == D.Appended(s.codec, s.audit, call.config.scope, D.DispatchText(id), s.clock)
    ensures var n := D.Step(s, D.Advance(w, available));
            var ok := available && after.Some?;
            && Leaves(n, s.store.tables, s.leases, s.clock, if ok then after.value else s.audit)
            && Mine(n, w, id, call, if ok then done + 1 else done, ok)
  {
    AuditStep(s, w, id, call, done, available);
    FailedIsMine(s, w, id, call, done);
    if available && after.Some? { MovedIsMine(codec, s, D.Advance(w, available), w, id, call, done); }
  }

  lemma AdmitStep(s: D.System, w: nat, id: Id, call: D.Call, done: nat)
    requires w in s.workers && s.workers[w] == D.Live(id, call.config.scope, Some(call), done)
    requires done < |D.Path(Some(call))| && D.Path(Some(call))[done].Admitted?
    ensures var c := R.Admit(call.config.scope, id, call.payload, s.clock);
            D.Step(s, D.Advance(w, true)) == if D.Commits(s, c) then D.Do(D.Moved(s, w), c) else D.Failed(s, w)
  {}

  lemma AdmitTxn(t: Tables, scope: Scope, id: Id, payload: Payload, now: int)
    ensures var c := R.Admit(scope, id, payload, now);
            var x := DecisionTables.Admit(t, scope, id, payload, now);
            R.After(t, c) == x.tables && (R.Commits(t, c) <==> x.result.Ok?)
  {}

  lemma AdmitEffect(codec: AuditChain.Codec, s: D.System, w: nat, id: Id, call: D.Call, done: nat, c: R.Call)
    requires Reached(codec, s) && Mine(s, w, id, call, done, true)
    requires done < |D.Path(Some(call))| && D.Path(Some(call))[done].Admitted?
    requires c == R.Admit(call.config.scope, id, call.payload, s.clock)
    ensures var n := D.Step(s, D.Advance(w, true));
            && Leaves(n, R.After(s.store.tables, c), s.leases, s.clock, s.audit)
            && Mine(n, w, id, call, if D.Commits(s, c) then done + 1 else done, D.Commits(s, c))
  {
    AdmitStep(s, w, id, call, done);
    FailedIsMine(s, w, id, call, done);
    R.FailureChangesNothing(s.store.tables, c);
    if D.Commits(s, c) { MovedIsMine(codec, s, D.Advance(w, true), w, id, call, done); }
  }

  lemma SendEffect(codec: AuditChain.Codec, s: D.System, w: nat, id: Id, call: D.Call, done: nat)
    requires Reached(codec, s) && Mine(s, w, id, call, done, true)
    requires done < |D.Path(Some(call))| && D.Path(Some(call))[done].Called?
    ensures var n := D.Step(s, D.Advance(w, true));
            Leaves(n, s.store.tables, s.leases, s.clock, s.audit) && Mine(n, w, id, call, done + 1, true)
  {
    assert D.Step(s, D.Advance(w, true)) == D.Moved(s, w);
    MovedIsMine(codec, s, D.Advance(w, true), w, id, call, done);
  }

  lemma FinishStep(s: D.System, w: nat, id: Id, scope: Scope, stored: bool)
    requires w in s.workers && (s.workers[w].Live? || s.workers[w].Ending?)
    requires s.workers[w].id == id && s.workers[w].scope == scope
    ensures D.Step(s, D.Finish(w, stored)) == D.Drop(if stored then D.Do(s, R.Finish(scope, id)) else s, w)
  {}

  lemma FinishGives(codec: AuditChain.Codec, s: D.System, w: nat, id: Id, call: D.Call, done: nat, live: bool)
    requires Reached(codec, s) && Mine(s, w, id, call, done, live)
    ensures Given(R.After(s.store.tables, R.Finish(call.config.scope, id)), id)
  {
    ReachedWorker(codec, s, w);
    S.SlotIsItsChats(s.store, call.config.scope, id);
    S.FinishOnTables(s.store.tables, call.config.scope, id);
  }

  lemma {:induction false} FinishEffect(codec: AuditChain.Codec, s: D.System, w: nat, id: Id, call: D.Call, done: nat, live: bool, stored: bool)
    requires Reached(codec, s) && Mine(s, w, id, call, done, live)
    ensures var n := D.Step(s, D.Finish(w, stored));
            && Leaves(n, if stored then R.After(s.store.tables, R.Finish(call.config.scope, id)) else s.store.tables, s.leases, s.clock, s.audit)
            && w !in n.workers && D.Trace(n.log, id) == D.Path(Some(call))[..done]
            && (stored ==> Given(n.store.tables, id))
  {
    FinishStep(s, w, id, call.config.scope, stored);
    FinishGives(codec, s, w, id, call, done, live);
  }

  lemma {:induction false} OthersLeaveMine(codec: AuditChain.Codec, s: D.System, es: seq<D.Event>, w: nat, id: Id, call: D.Call, done: nat, live: bool)
    requires Reached(codec, s) && Mine(s, w, id, call, done, live) && Others(es, w)
    ensures Mine(D.Run(s, es), w, id, call, done, live)
  {
    ReachedIsSafe(codec, s);
    H.RunLeavesAlone(s, es, {w}, id);
    assert w in {w};
  }

  lemma {:induction false} OthersKeepWorker(codec: AuditChain.Codec, s: D.System, es: seq<D.Event>, w: nat)
    requires Reached(codec, s) && Others(es, w)
    ensures H.WorkersKept(s, D.Run(s, es), {w})
  {
    ReachedIsSafe(codec, s);
    H.RunKeepsWorkers(s, es, {w});
  }

  lemma {:induction false} OthersMintOthers(codec: AuditChain.Codec, s: D.System, es: seq<D.Event>, token: Token)
    requires Reached(codec, s) && token !in s.store.issued && forall e :: e in es ==> token !in H.Minted(e)
    ensures token !in D.Run(s, es).store.issued
  {
    ReachedIsSafe(codec, s);
    H.RunIssues(s, es, token);
  }

  class DelegationGate {
    const decisions: DecisionStore
    const leases: LeaseStore
    const codec: AuditChain.Codec
    const home: Scope
    const key: nat
    var audit: D.Trails
    var clock: int

    /** The process as a whole: this gate's workers and everybody else's. */
    var system: D.System
    ghost var trace: seq<D.Event>

    constructor (home: Scope, key: nat, codec: AuditChain.Codec)
      ensures Valid() && fresh(decisions) && fresh(leases) && trace == [] && this.codec == codec
    {
      this.home, this.key, this.codec := home, key, codec;
      decisions := new DecisionStore();
      leases := new LeaseStore();
      audit, clock, system, trace := map[], 0, D.Start(codec), [];
    }

    /** The stores hold what the run so far has left in them. */
    ghost predicate Valid()
      reads this, decisions, leases
    {
      && system == D.Run(D.Start(codec), trace) && system.codec == codec
      && decisions.State() == system.store.tables && leases.rows == system.leases
      && clock == system.clock && audit == system.audit
    }

    /** A step of this gate. */
    method Record(e: D.Event)
      requires system == D.Run(D.Start(codec), trace)
      modifies `system, `trace
      ensures system == D.Run(D.Start(codec), trace) && trace == old(trace) + [e]
      ensures system == D.Step(old(system), e) && system.codec == old(system.codec)
    {
      D.RunsJoin(D.Start(codec), trace, [e]);
      A.RunKeepsCodec(system, [e]);
      D.RunOnce(system, e);
      system := D.Step(system, e);
      trace := trace + [e];
    }

    /** Steps of others, and the stores as they leave them. */
    method Elapse(es: seq<D.Event>)
      requires Valid()
      modifies this, decisions, leases
      ensures Valid() && system == D.Run(old(system), es) && trace == old(trace) + es
    {
      D.RunsJoin(D.Start(codec), trace, es);
      A.RunKeepsCodec(system, es);
      system := D.Run(system, es);
      trace := trace + es;
      var t := system.store.tables;
      decisions.decisions, decisions.sessions := t.decisions, t.sessions;
      decisions.control, decisions.admissions := t.control, t.admissions;
      leases.rows, audit, clock := system.leases, system.audit, system.clock;
    }

    /** Others act before this worker's next step. */
    method Interlude(es: seq<D.Event>, ghost w: nat)
      requires Valid() && Others(es, w)
      modifies this, decisions, leases
      ensures Valid() && old(trace) <= trace && H.WorkersKept(old(system), system, {w})
    {
      OthersKeepWorker(codec, system, es, w);
      Elapse(es);
    }

    /** The same, once the invocation is claimed. */
    method Yield(es: seq<D.Event>, ghost w: nat, ghost id: Id, ghost call: D.Call, ghost done: nat, ghost live: bool)
      requires Valid() && Others(es, w) && Mine(system, w, id, call, done, live)
      modifies this, decisions, leases
      ensures Valid() && old(trace) <= trace && Mine(system, w, id, call, done, live)
    {
      OthersLeaveMine(codec, system, es, w, id, call, done, live);
      Elapse(es);
    }

    /** Others act while the tool is described to a preflight. */
    method Wait(es: seq<D.Event>, ghost token: Token)
      requires Valid() && token !in system.store.issued && forall e :: e in es ==> token !in H.Minted(e)
      modifies this, decisions, leases
      ensures Valid() && old(trace) <= trace && token !in system.store.issued
    {
      OthersMintOthers(codec, system, es, token);
      Elapse(es);
    }

    /** The append itself. */
    method Append(scope: Scope, event: string) returns (ok: bool)
      modifies `audit
      ensures var after := D.Appended(codec, old(audit), scope, event, clock);
              ok == after.Some? && audit == if ok then after.value else old(audit)
      ensures ok ==> I.Recorded(audit, scope, AuditLog.Entry(event, clock))
    {
      I.AppendGrows(codec, audit, scope, event, clock);
      var after := D.Appended(codec, audit, scope, event, clock);
      ok := after.Some?;
      if ok { audit := after.value; }
    }

    /** Anything but a dispatch record, given to the audit store. */
    method Journal(scope: Scope, event: string) returns (ok: bool)
      requires Valid()
      modifies this
      ensures Valid() && old(trace) <= trace && system == old(system).(audit := audit)
      ensures ok ==> I.Recorded(audit, scope, AuditLog.Entry(event, clock))
    {
      JournalEffect(system, scope, event);
      ok := Append(scope, event);
      Record(D.Journal(scope, event));
    }

    /** The stop flag, read in a transaction of its own. */
    method IsStopped(scope: Scope) returns (stopped: bool)
      requires Valid()
      modifies this, decisions
      ensures Valid() && old(trace) <= trace && stopped == D.Stopped(system, scope)
      ensures system == old(system).(store := system.store) && system.store.issued == old(system.store.issued)
      ensures system.store.tables.decisions == old(system.store.tables.decisions)
    {
      var r := decisions.Disabled(scope);
      Record(D.Control(R.Disabled(scope)));
      return r.value;
    }

    method Spend(scope: Scope, id: Id)
      requires Valid()
      modifies this, decisions
      ensures Valid() && old(trace) <= trace && system == D.Do(old(system), R.Invalidate(scope, id))
    {
      var done := decisions.Invalidate(scope, id);
      Record(D.Control(R.Invalidate(scope, id)));
    }

    /** The load transaction: it opens the rows of the scope if it finds the decision. */
    method Fetch(id: Id, scope: Scope) returns (found: Result<Payload>)
      requires Valid()
      modifies this, decisions
      ensures Valid() && old(trace) <= trace && system == old(system).(store := system.store)
      ensures found == LookUp(system.store.tables, key, scope, id, clock)
    {
      found := decisions.Load(key, scope, id, clock);
      Record(D.Control(R.Load(key, scope, id, clock)));
    }

    // -------------------------------------------------------------- preflight and approval

    method Seal(token: Token, asked: D.Asked, bytes: nat) returns (sealed: bool)
      requires Valid() && token !in system.store.issued
      modifies this, decisions
      ensures Valid() && old(trace) <= trace
      ensures D.Stopped(system, asked.config.scope) == old(D.Stopped(system, asked.config.scope))
      ensures if sealed then SealedAs(system, token, asked) else token !in system.store.issued
    {
      var payload, chat := Payload(asked.Terms(), None, clock + DECISION_LIFETIME_US), asked.config.scope;
      SealingStep(system, token, key, bytes, asked);
      var r := decisions.Create(key, chat, token, payload, bytes, clock);
      Record(Sealing(token, key, bytes, asked));
      return r.Ok?;
    }

    /** A sealed decision is recorded in the audit store, or spent at once. */
    method Announce(token: Token, scope: Scope, ghost asked: D.Asked, available: bool) returns (recorded: bool)
      requires Valid() && SealedAs(system, token, asked) && asked.config.scope == scope
      modifies this, decisions
      ensures Valid() && old(trace) <= trace
      ensures recorded ==> SealedAs(system, token, asked) && D.Stopped(system, scope) == old(D.Stopped(system, scope))
                           && I.Recorded(audit, scope, AuditLog.Entry(D.AuditText("preflight", token), clock))
      ensures !recorded ==> R.Spent(system.store, token)
    {
      recorded := false;
      if available { recorded := Journal(scope, D.AuditText("preflight", token)); }
      if !recorded {
        SpendingSeals(codec, system, token, asked);
        Spend(scope, token);
      }
    }

    /** A denied preflight is sealed too; one that cannot be recorded is spent at once. */
    method Decide(token: Token, asked: D.Asked, bytes: nat, available: bool) returns (decided: bool)
      requires Valid() && token !in system.store.issued
      modifies this, decisions
      ensures Valid() && old(trace) <= trace
      ensures decided ==>
                && SealedAs(system, token, asked)
                && D.Stopped(system, asked.config.scope) == old(D.Stopped(system, asked.config.scope))
                && I.Recorded(audit, asked.config.scope, AuditLog.Entry(D.AuditText("preflight", token), clock))
      ensures !decided && token in system.store.issued ==> R.Spent(system.store, token)
    {
      decided := Seal(token, asked, bytes);
      if decided { decided := Announce(token, asked.config.scope, asked, available); }
    }

    /** The preflight: the outcome it reports is the one it sealed, Deny if the boundary check fails or
        the profile was stopped while the tool was described. */
    method Preflight(token: Token, config: Config, others: seq<D.Event>, allowed: bool, tool: Tool, arguments: Json,
                     dataClass: DataClass, assessment: Assessment, policy: Outcome, bytes: nat, available: bool)
      returns (outcome: Option<Outcome>)
      requires Valid() && token !in system.store.issued && forall e :: e in others ==> token !in H.Minted(e)
      modifies this, decisions, leases
      ensures Valid() && old(trace) <= trace
      ensures outcome.Some? ==>
                && SealedAs(system, token, D.Asked(config, D.ToolTarget(tool), arguments, None, dataClass, assessment, outcome.value))
                && outcome.value == (if !allowed || D.Stopped(system, config.scope) then Deny else policy)
                && I.Recorded(audit, config.scope, AuditLog.Entry(D.AuditText("preflight", token), clock))
      ensures outcome.None? && token in system.store.issued ==> R.Spent(system.store, token)
    {
      var stopped := IsStopped(config.scope);
      if stopped { return None; }
      Wait(others, token);
      if allowed { stopped := IsStopped(config.scope); }
      outcome := Some(if !allowed || stopped then Deny else policy);
      var asked := D.Asked(config, D.ToolTarget(tool), arguments, None, dataClass, assessment, outcome.value);
      var decided := Decide(token, asked, bytes, available);
      if !decided { outcome := None; }
    }

    /** The sealed decision, if it is open for approval under the configuration of now. */
    method Inspect(id: Id, config: Config, allowed: bool) returns (payload: Option<Payload>)
      requires Valid()
      modifies this, decisions
      ensures Valid() && old(trace) <= trace && system == old(system).(store := system.store)
      ensures payload.Some? ==> LookUp(system.store.tables, key, config.scope, id, clock) == Ok(payload.value)
                                && Reviewable(payload.value, config) && !D.Stopped(system, config.scope)
    {
      var loaded := Fetch(id, config.scope);
      if loaded.Err? || !allowed { return None; }
      var stopped := IsStopped(config.scope);
      if stopped { return None; }
      var p := loaded.value.terms;
      if p.outcome != NeedsApproval || loaded.value.leaseId != None { return None; }
      if p.binding.request != p.request || p.request.scope != config.scope
         || p.request.passport.preimage != config.passport || p.route != RouteHash(config) {
        return None;
      }
      return Some(loaded.value);
    }

    method Review(w: nat, id: Id, config: Config, allowed: bool) returns (payload: Option<Payload>)
      requires Valid() && w !in system.workers
      modifies this, decisions
      ensures Valid() && old(trace) <= trace
      ensures if payload.None? then w !in system.workers
              else w in system.workers && id in system.created && payload.value == system.created[id].payload
                   && payload.value.terms.binding == Binding(payload.value.terms.request)
                   && system.workers[w] == D.Reviewing(id, config.scope, payload.value, config.passport.approvalLeaseMinutes)
    {
      payload := Inspect(id, config, allowed);
      if payload.None? { return; }
      FoundIsSealed(codec, system, key, config.scope, id, payload.value);
      ReviewEffect(system, w, id, config, key, payload.value);
      Record(D.Review(w, RemoteTool, id, config, key));
    }

    /** The lease for exactly the reviewed request. */
    method Grant(w: nat, id: Id, scope: Scope, payload: Payload, minutes: int, lease: Token, approver: Option<string>)
      returns (granted: bool)
      requires Valid() && w in system.workers && system.workers[w] == D.Reviewing(id, scope, payload, minutes)
      requires payload.terms.binding == Binding(payload.terms.request)
      modifies this, leases
      ensures Valid() && old(trace) <= trace && system.created == old(system.created)
      ensures if !granted then w !in system.workers
              else lease in system.leases && system.leases[lease].binding == payload.terms.binding
                   && system.leases[lease].maxUses == 1 && system.leases[lease].useCount == 0
                   && w in system.workers && system.workers[w] == D.Approved(id, scope, payload.(leaseId := Some(lease)))
    {
      IssueEffect(system, w, id, scope, payload, minutes, lease, approver);
      var ttl := D.Min(D.MAX_LEASE_SECONDS, minutes * 60);
      var error := leases.Issue(lease, payload.terms.request, ttl, 1, approver, clock);
      Record(D.IssueLease(w, lease, approver));
      return error.None?;
    }

    method Store(w: nat, id: Id, scope: Scope, payload: Payload, bytes: nat) returns (stored: bool)
      requires Valid() && w in system.workers && system.workers[w] == D.Approved(id, scope, payload)
      modifies this, decisions
      ensures Valid() && old(trace) <= trace && w !in system.workers
      ensures system.created == old(system.created) && system.leases == old(system.leases) && audit == old(audit) && clock == old(clock)
      ensures stored ==> id in system.store.tables.decisions && system.store.tables.decisions[id].blob.payload == payload
    {
      RecordEffect(system, w, id, scope, payload, key, bytes);
      var r := decisions.Update(key, scope, id, payload, bytes, clock);
      Record(D.Record(w, key, bytes));
      return r.Ok?;
    }

    /** An approval that cannot be recorded ends here, with its lease left unused. */
    method Sign(w: nat, id: Id, scope: Scope, payload: Payload, available: bool) returns (recorded: bool)
      requires Valid() && w in system.workers && system.workers[w] == D.Approved(id, scope, payload)
      modifies this
      ensures Valid() && old(trace) <= trace
      ensures system.created == old(system.created) && system.leases == old(system.leases)
      ensures if !recorded then w !in system.workers
              else w in system.workers && system.workers[w] == D.Approved(id, scope, payload)
                   && I.Recorded(audit, scope, AuditLog.Entry(D.AuditText("approval", id), clock))
    {
      recorded := false;
      if available { recorded := Journal(scope, D.AuditText("approval", id)); }
      if !recorded { Record(D.Vanish(w)); }
    }

    /** The lease is issued, the approval recorded, and only then stored with the decision. */
    method Approve(w: nat, id: Id, config: Config, allowed: bool, lease: Token, approver: Option<string>,
                   available: bool, bytes: nat) returns (approved: bool)
      requires Valid() && w !in system.workers
      modifies this, decisions, leases
      ensures Valid() && old(trace) <= trace && w !in system.workers
      ensures approved ==> ApprovedWith(system, id, lease)
                           && I.Recorded(audit, config.scope, AuditLog.Entry(D.AuditText("approval", id), clock))
    {
      var payload := Review(w, id, config, allowed);
      if payload.None? { return false; }
      var signed := payload.value.(leaseId := Some(lease));
      approved := Grant(w, id, config.scope, payload.value, config.passport.approvalLeaseMinutes, lease, approver);
      if approved { approved := Sign(w, id, config.scope, signed, available); }
      if approved { approved := Store(w, id, config.scope, signed, bytes); }
    }

    // -------------------------------------------------------------- up to the claim

    /** The load, by a worker that has just begun. */
    method LoadPayload(w: nat, id: Id, scope: Scope) returns (found: Option<Payload>)
      requires Valid() && w in system.workers && system.workers[w] == D.Begun(RemoteTool, id, home, scope)
      modifies this, decisions
      ensures Valid() && old(trace) <= trace
      ensures if found.None? then w !in system.workers
              else w in system.workers && system.workers[w] == D.Loaded(RemoteTool, id, home, scope, found.value)
    {
      var loaded := Fetch(id, scope);
      Record(D.LoadRow(w, key));
      return if loaded.Ok? then Some(loaded.value) else None;
    }

    /** The first boundary check and the load. */
    method Open(w: nat, id: Id, config: Config, allowed: bool) returns (found: Option<Payload>)
      requires Valid() && w !in system.workers
      modifies this, decisions
      ensures Valid() && old(trace) <= trace
      ensures if found.None? then w !in system.workers
              else w in system.workers && system.workers[w] == D.Loaded(RemoteTool, id, home, config.scope, found.value)
    {
      if !allowed { return None; }
      var stopped := IsStopped(config.scope);
      if stopped { return None; }
      Record(D.Begin(w, RemoteTool, id, home, config.scope));
      found := LoadPayload(w, id, config.scope);
    }

    /** The tool described now is the one the preflight saw. */
    method IsSameTool(seen: Option<Tool>, p: Terms) returns (same: bool)
      ensures same == (seen.Some? && D.SameTool(seen.value, p))
    {
      if seen.None? { return false; }
      var tool, request := seen.value, p.request;
      if ToolSubject(tool.schema) != request.schema || ToolSubject(tool.riskMetadata) != request.riskMetadata { return false; }
      if tool.peer != request.peer || tool.service != request.service || tool.uri != request.uri { return false; }
      return tool.labels == p.labels;
    }

    method Observe(w: nat, id: Id, scope: Scope, payload: Payload, seen: Option<Tool>) returns (same: bool)
      requires Valid() && w in system.workers && system.workers[w] == D.Loaded(RemoteTool, id, home, scope, payload)
      modifies this, decisions
      ensures Valid() && old(trace) <= trace
      ensures if !same then w !in system.workers
              else seen.Some? && w in system.workers
                   && system.workers[w] == D.Observed(RemoteTool, id, home, payload, D.ToolTarget(seen.value))
    {
      same := IsSameTool(seen, payload.terms);
      ObserveEffect(system, w, id, home, scope, payload, seen);
      RejectEffect(system, w, scope, id);
      if !same { var done := decisions.Invalidate(scope, id); }
      Record(D.Observe(w, if seen.Some? then Some(D.ToolTarget(seen.value)) else None));
    }

    /** Configuration resolved again, and the request rebuilt under it. */
    method IsUnchanged(config: Config, tool: Tool, payload: Payload, assessment: Assessment) returns (same: bool)
      ensures same == Unchanged(home, config, tool, payload, assessment)
    {
      var p := payload.terms;
      if config.scope != home || RouteHash(config) != p.route || config.passport != p.request.passport.preimage { return false; }
      var request := D.Request(config, D.ToolTarget(tool), p.arguments, p.model, p.dataClass, assessment);
      return request == p.binding.request && tool.labels == p.labels;
    }

    /** The second boundary check and the verdicts, on an unchanged boundary. */
    method IsAllowed(config: Config, payload: Payload, permitted: bool, policy: Outcome) returns (ok: bool)
      requires Valid()
      modifies this, decisions
      ensures Valid() && old(trace) <= trace && system == old(system).(store := system.store)
      ensures ok == Permitted(D.Stopped(system, config.scope), payload, permitted, policy)
    {
      if !permitted { return false; }
      var stopped := IsStopped(config.scope);
      if stopped || policy.Deny? || payload.terms.outcome.Deny? { return false; }
      return !(policy.NeedsApproval? && payload.leaseId.None?);
    }

    /** A changed boundary spends the decision. */
    method GiveUp(w: nat, id: Id, payload: Payload, tool: Tool, config: Config, permitted: bool, policy: Outcome,
                  assessment: Assessment)
      requires Valid() && w in system.workers
      requires system.workers[w] == D.Observed(RemoteTool, id, home, payload, D.ToolTarget(tool))
      requires !Unchanged(home, config, tool, payload, assessment)
      modifies this, decisions
      ensures Valid() && old(trace) <= trace && w !in system.workers
    {
      RebuildEffect(system, w, id, home, payload, tool, config, permitted, policy, assessment);
      RejectEffect(system, w, home, id);
      var done := decisions.Invalidate(home, id);
      Record(D.Rebuild(w, config, permitted, policy, assessment));
    }

    /** The call that goes on is the one rebuilt from this configuration, observation and assessment,
        and it is what the preflight sealed. */
    method Recheck(w: nat, id: Id, payload: Payload, tool: Tool, config: Config, permitted: bool, policy: Outcome,
                   assessment: Assessment) returns (call: Option<D.Call>)
      requires Valid() && w in system.workers
      requires system.workers[w] == D.Observed(RemoteTool, id, home, payload, D.ToolTarget(tool))
      modifies this, decisions
      ensures Valid() && old(trace) <= trace
      ensures if call.None? then w !in system.workers
              else w in system.workers && system.workers[w] == D.Ready(id, call.value) && I.Authentic(system, id, call.value)
                   && call.value == CallOf(config, tool, payload, assessment, policy)
    {
      var same := IsUnchanged(config, tool, payload, assessment);
      if !same {
        GiveUp(w, id, payload, tool, config, permitted, policy, assessment);
        return None;
      }
      var allowed := IsAllowed(config, payload, permitted, policy);
      RebuildEffect(system, w, id, home, payload, tool, config, permitted, policy, assessment);
      Record(D.Rebuild(w, config, permitted, policy, assessment));
      if !allowed { return None; }
      call := Some(CallOf(config, tool, payload, assessment, policy));
      ReadyIsAuthentic(codec, system, w, id, call.value);
    }

    /** Load and observation. */
    method Locate(w: nat, id: Id, s: Surroundings) returns (payload: Option<Payload>)
      requires Valid() && w !in system.workers && Apart(s, w)
      modifies this, decisions, leases
      ensures Valid() && old(trace) <= trace
      ensures if payload.None? then w !in system.workers
              else s.seen.Some? && w in system.workers
                   && system.workers[w] == D.Observed(RemoteTool, id, home, payload.value, D.ToolTarget(s.seen.value))
    {
      Interlude(s.others(0), w);
      payload := Open(w, id, s.first, s.allowed);
      if payload.None? { return; }
      Interlude(s.others(1), w);
      var same := Observe(w, id, s.first.scope, payload.value, s.seen);
      if !same { payload := None; }
    }

    /** Load, observation and recheck: the call to be made, if nothing has changed. */
    method Prepare(w: nat, id: Id, s: Surroundings) returns (ready: Option<D.Call>)
      requires Valid() && w !in system.workers && Apart(s, w)
      modifies this, decisions, leases
      ensures Valid() && old(trace) <= trace
      ensures if ready.None? then w !in system.workers
              else w in system.workers && system.workers[w] == D.Ready(id, ready.value) && s.seen.Some?
                   && ready.value == CallOf(s.config, s.seen.value, ready.value.payload, s.assessment, s.policy)
    {
      var payload := Locate(w, id, s);
      if payload.None? { return None; }
      Interlude(s.others(2), w);
      ready := Recheck(w, id, payload.value, s.seen.value, s.config, s.permitted, s.policy, s.assessment);
    }

    // -------------------------------------------------------------- from the claim on

    method Claim(w: nat, id: Id, call: D.Call) returns (ok: bool)
      requires Valid() && w in system.workers && system.workers[w] == D.Ready(id, call)
      modifies this, decisions
      ensures Valid() && old(trace) <= trace
      ensures if ok then Mine(system, w, id, call, 1, true) else w !in system.workers
    {
      ClaimEffect(codec, system, w, key, id, call);
      var config := call.config;
      var r := decisions.Claim(key, config.scope, id, config.passport.callsPerSession, call.payload, clock);
      Record(D.Claim(w, key));
      return r.Ok?;
    }

    method Consume(w: nat, id: Id, call: D.Call) returns (ok: bool)
      requires Valid() && call.needsLease && Mine(system, w, id, call, 1, true)
      modifies this, leases
      ensures Valid() && old(trace) <= trace && Mine(system, w, id, call, if ok then 2 else 1, ok)
    {
      ConsumeEffect(codec, system, w, id, call);
      if call.payload.leaseId.None? {
        Record(D.Advance(w, true));
        return false;
      }
      var consumed := leases.Consume(call.payload.leaseId.value, call.Rebuilt(), clock);
      Record(D.Advance(w, true));
      return consumed.Allowed();
    }

    method Audit(w: nat, id: Id, call: D.Call, ghost done: nat, available: bool) returns (ok: bool)
      requires Valid() && Mine(system, w, id, call, done, true)
      requires done < |D.Path(Some(call))| && D.Path(Some(call))[done].Audited?
      modifies this
      ensures Valid() && old(trace) <= trace && Mine(system, w, id, call, if ok then done + 1 else done, ok)
      ensures ok ==> I.Recorded(audit, call.config.scope, AuditLog.Entry(D.DispatchText(id), clock))
    {
      ghost var after := D.Appended(codec, audit, call.config.scope, D.DispatchText(id), clock);
      AuditEffect(codec, system, w, id, call, done, available, after);
      ok := false;
      if available { ok := Append(call.config.scope, D.DispatchText(id)); }
      Record(D.Advance(w, available));
    }

    method Admit(w: nat, id: Id, call: D.Call, ghost done: nat) returns (ok: bool)
      requires Valid() && Mine(system, w, id, call, done, true)
      requires done < |D.Path(Some(call))| && D.Path(Some(call))[done].Admitted?
      modifies this, decisions
      ensures Valid() && old(trace) <= trace && Mine(system, w, id, call, if ok then done + 1 else done, ok)
    {
      ghost var c := R.Admit(call.config.scope, id, call.payload, clock);
      AdmitEffect(codec, system, w, id, call, done, c);
      AdmitTxn(decisions.State(), call.config.scope, id, call.payload, clock);
      var r := decisions.Admit(call.config.scope, id, call.payload, clock);
      Record(D.Advance(w, true));
      return r.Ok?;
    }

    /** The remote call itself. */
    method Send(w: nat, id: Id, call: D.Call, ghost done: nat)
      requires Valid() && Mine(system, w, id, call, done, true)
      requires done < |D.Path(Some(call))| && D.Path(Some(call))[done].Called?
      modifies this
      ensures Valid() && old(trace) <= trace && Mine(system, w, id, call, done + 1, true)
    {
      SendEffect(codec, system, w, id, call, done);
      Record(D.Advance(w, true));
    }

    /** A refusal goes to the audit store if it can. */
    method Refuse(w: nat, id: Id, scope: Scope, available: bool)
      requires Valid() && w !in system.workers
      modifies this
      ensures Valid() && old(trace) <= trace && w !in system.workers
    {
      if available { var ok := Journal(scope, D.AuditText("denial", id)); }
    }

    /** The outcome goes to the audit store if it can, whatever it was. */
    method Report(w: nat, id: Id, call: D.Call, available: bool, ghost done: nat, ghost live: bool)
      requires Valid() && Mine(system, w, id, call, done, live)
      modifies this
      ensures Valid() && old(trace) <= trace && Mine(system, w, id, call, done, live)
    {
      if available { var ok := Journal(call.config.scope, D.AuditText("outcome", id)); }
    }

    method Finish(w: nat, id: Id, call: D.Call, stored: bool, ghost done: nat, ghost live: bool)
      requires Valid() && Mine(system, w, id, call, done, live)
      modifies this, decisions
      ensures Valid() && old(trace) <= trace && w !in system.workers
      ensures D.Trace(system.log, id) == D.Path(Some(call))[..done]
      ensures stored ==> Given(system.store.tables, id)
    {
      FinishEffect(codec, system, w, id, call, done, live, stored);
      if stored { var freed := decisions.Finish(call.config.scope, id); }
      Record(D.Finish(w, stored));
    }

    // -------------------------------------------------------------- the invocation

    method ConsumeStage(w: nat, id: Id, call: D.Call, s: Surroundings) returns (ok: bool)
      requires Valid() && Mine(system, w, id, call, 1, true) && Apart(s, w)
      modifies this, decisions, leases
      ensures Valid() && old(trace) <= trace
      ensures Mine(system, w, id, call, if ok then |D.Path(Some(call))| - 3 else 1, ok)
    {
      if !call.needsLease { return true; }
      Yield(s.others(4), w, id, call, 1, true);
      ok := Consume(w, id, call);
    }

    method AuditStage(w: nat, id: Id, call: D.Call, s: Surroundings) returns (ok: bool)
      requires Valid() && Mine(system, w, id, call, |D.Path(Some(call))| - 3, true) && Apart(s, w)
      modifies this, decisions, leases
      ensures Valid() && old(trace) <= trace
      ensures Mine(system, w, id, call, |D.Path(Some(call))| - if ok then 2 else 3, ok)
    {
      Yield(s.others(5), w, id, call, |D.Path(Some(call))| - 3, true);
      ok := Audit(w, id, call, |D.Path(Some(call))| - 3, s.available);
    }

    method AdmitStage(w: nat, id: Id, call: D.Call, s: Surroundings) returns (ok: bool)
      requires Valid() && Mine(system, w, id, call, |D.Path(Some(call))| - 2, true) && Apart(s, w)
      modifies this, decisions, leases
      ensures Valid() && old(trace) <= trace
      ensures Mine(system, w, id, call, |D.Path(Some(call))| - if ok then 1 else 2, ok)
    {
      Yield(s.others(6), w, id, call, |D.Path(Some(call))| - 2, true);
      ok := Admit(w, id, call, |D.Path(Some(call))| - 2);
    }

    method SendStage(w: nat, id: Id, call: D.Call, s: Surroundings)
      requires Valid() && Mine(system, w, id, call, |D.Path(Some(call))| - 1, true) && Apart(s, w)
      modifies this, decisions, leases
      ensures Valid() && old(trace) <= trace && Mine(system, w, id, call, |D.Path(Some(call))|, true)
    {
      Yield(s.others(7), w, id, call, |D.Path(Some(call))| - 1, true);
      Send(w, id, call, |D.Path(Some(call))| - 1);
    }

    /** Admission and call. */
    method Deliver(w: nat, id: Id, call: D.Call, s: Surroundings) returns (ok: bool)
      requires Valid() && Mine(system, w, id, call, |D.Path(Some(call))| - 2, true) && Apart(s, w)
      modifies this, decisions, leases
      ensures Valid() && old(trace) <= trace
      ensures Mine(system, w, id, call, |D.Path(Some(call))| - if ok then 0 else 2, ok)
    {
      ok := AdmitStage(w, id, call, s);
      if ok { SendStage(w, id, call, s); }
    }

    /** Lease and dispatch record. */
    method Clear(w: nat, id: Id, call: D.Call, s: Surroundings) returns (ok: bool, ghost done: nat)
      requires Valid() && Mine(system, w, id, call, 1, true) && Apart(s, w)
      modifies this, decisions, leases
      ensures Valid() && old(trace) <= trace && Mine(system, w, id, call, done, ok)
      ensures if ok then done == |D.Path(Some(call))| - 2 else done < |D.Path(Some(call))|
    {
      ok := ConsumeStage(w, id, call, s);
      done := 1;
      if !ok { return; }
      ok := AuditStage(w, id, call, s);
      done := |D.Path(Some(call))| - if ok then 2 else 3;
    }

    /** From the claim to the remote call; whatever fails, only the finish is left. */
    method Pass(w: nat, id: Id, call: D.Call, s: Surroundings) returns (dispatched: bool, ghost done: nat)
      requires Valid() && Mine(system, w, id, call, 1, true) && Apart(s, w)
      modifies this, decisions, leases
      ensures Valid() && old(trace) <= trace && Mine(system, w, id, call, done, dispatched)
      ensures dispatched <==> done == |D.Path(Some(call))|
    {
      dispatched, done := Clear(w, id, call, s);
      if !dispatched { return; }
      dispatched := Deliver(w, id, call, s);
      done := |D.Path(Some(call))| - if dispatched then 0 else 2;
    }

    /** Claim, stages and, once claimed, the finish. */
    method Execute(w: nat, id: Id, call: D.Call, s: Surroundings) returns (dispatched: bool, ghost done: nat)
      requires Valid() && w in system.workers && system.workers[w] == D.Ready(id, call) && Apart(s, w)
      modifies this, decisions, leases
      ensures Valid() && old(trace) <= trace && w !in system.workers && done <= |D.Path(Some(call))|
      ensures done > 0 ==> D.Trace(system.log, id) == D.Path(Some(call))[..done] && (s.stored ==> Given(system.store.tables, id))
      ensures dispatched <==> done == |D.Path(Some(call))|
    {
      dispatched, done := false, 0;
      Interlude(s.others(3), w);
      var claimed := Claim(w, id, call);
      if !claimed {
        Refuse(w, id, call.config.scope, s.available);
        return;
      }
      dispatched, done := Pass(w, id, call, s);
      Report(w, id, call, s.available, done, dispatched);
      Yield(s.others(8), w, id, call, done, dispatched);
      Finish(w, id, call, s.stored, done, dispatched);
    }

    /** The whole invocation. `call` is what it was about to send if it got that far, and it went `done`
        stages of that call's path: all of them exactly if it was dispatched. Once it has claimed its
        decision it leaves neither slot nor admission behind, unless the finish cannot be stored. */
    method Invoke(w: nat, id: Id, s: Surroundings) returns (dispatched: bool, ghost call: Option<D.Call>, ghost done: nat)
      requires Valid() && w !in system.workers && Apart(s, w)
      modifies this, decisions, leases
      ensures Valid() && old(trace) <= trace && w !in system.workers
      ensures call.None? ==> !dispatched && done == 0
      ensures call.Some? ==> && s.seen.Some? && call.value == CallOf(s.config, s.seen.value, call.value.payload, s.assessment, s.policy)
                             && done <= |D.Path(call)| && (dispatched <==> done == |D.Path(call)|)
                             && (done > 0 ==> D.Trace(system.log, id) == D.Path(call)[..done])
      ensures done > 0 && s.stored ==> Given(decisions.State(), id)
    {
      dispatched, done := false, 0;
      var ready := Prepare(w, id, s);
      call := ready;
      if ready.Some? {
        dispatched, done := Execute(w, id, ready.value, s);
      } else {
        Refuse(w, id, s.first.scope, s.available);
      }
    }
  }
}
