/** The invariant of the guarded-dispatch protocol, and that every step keeps it. */
module DispatchInvariant {
  import opened Domain
  import opened DecisionTables
  import opened Dispatch
  import R = DecisionRuns
  import L = LeaseTable
  import LR = LeaseRuns
  import AuditChain
  import AuditLog

  // ---------------------------------------------------------------- the invariant

  ghost predicate LeaseFor(leases: L.Rows, lease: Id, request: LeaseRequest) {
    && lease in leases && leases[lease].binding == Binding(request)
    && leases[lease].maxUses == 1 && 0 <= leases[lease].useCount <= 1
  }

  /** The payload is the one the preflight sealed, but for a lease issued for the same request. */
  ghost predicate Genuine(s: System, id: Id, p: Payload) {
    && id in s.created && p.terms == s.created[id].payload.terms && p.expiresUs == s.created[id].payload.expiresUs
    && (p.leaseId.Some? ==> LeaseFor(s.leases, p.leaseId.value, p.terms.request))
  }

  /** The call rebuilds exactly the request its payload was preflighted with, the preflight was not
      denied, and an inference or a single-use risk needs a lease. */
  ghost predicate Authentic(s: System, id: Id, c: Call) {
    && Genuine(s, id, c.payload) && c.Rebuilt() == c.payload.terms.request && RouteHash(c.config) == c.payload.terms.route
    && (c.target.ToolTarget? ==> c.target.tool.labels == c.payload.terms.labels)
    && !c.payload.terms.outcome.Deny?
    && (c.target.RouteTarget? || c.assessment.singleUse ==> c.needsLease)
  }

  ghost predicate OriginOk(s: System, id: Id) {
    id in s.created ==>
      var o := s.created[id];
      && id in s.store.issued && s.store.issued[id] == o.payload.terms.request.scope == o.asked.config.scope
      && o.payload.terms == o.asked.Terms()
      && o.payload.leaseId.None? && o.payload.terms.binding == Binding(o.payload.terms.request)
      && o.payload.expiresUs == o.at + DECISION_LIFETIME_US
  }

  ghost predicate RowOk(s: System, id: Id) {
    id in s.store.tables.decisions ==> Genuine(s, id, s.store.tables.decisions[id].blob.payload)
  }

  ghost predicate IssuedTo(s: System, id: Id, scope: Scope) {
    id in s.store.issued && s.store.issued[id] == scope
  }

  /** The lease the call needs has been consumed, for this decision. */
  ghost predicate LeaseSpent(s: System, id: Id, c: Call) {
    c.needsLease ==>
      && c.payload.leaseId.Some?
      && c.payload.leaseId.value in s.spentOn && s.spentOn[c.payload.leaseId.value] == id
  }

  ghost predicate WorkerOk(s: System, x: Worker) {
    match x
    case Begun(_, _, _, _) => true
    case Loaded(_, id, _, _, p) => Genuine(s, id, p)
    case Observed(kind, id, _, p, target) => Genuine(s, id, p) && target.RouteTarget? == kind.Inference?
    case Ready(id, c) => Authentic(s, id, c)
    case Live(id, scope, call, done) =>
      && IssuedTo(s, id, scope) && R.Spent(s.store, id)
      && 1 <= done <= |Path(call)| && Trace(s.log, id) == Path(call)[..done]
      && (if call.Some? then Authentic(s, id, call.value) && (2 <= done ==> LeaseSpent(s, id, call.value)) else id !in s.created)
    case Ending(id, scope) => IssuedTo(s, id, scope) && R.Spent(s.store, id)
    case Reviewing(id, _, p, _) => Genuine(s, id, p) && p.leaseId.None?
    case Approved(id, _, p) => Genuine(s, id, p)
  }

  predicate Recorded(audit: Trails, scope: Scope, e: AuditLog.Entry) { scope in audit && e in audit[scope].entries }

  /** Events are only ever added. */
  ghost predicate TrailsGrow(before: Trails, after: Trails) {
    forall scope, e :: Recorded(before, scope, e) ==> Recorded(after, scope, e)
  }

  lemma AppendGrows(codec: AuditChain.Codec, audit: Trails, scope: Scope, event: string, now: int)
    ensures var after := Appended(codec, audit, scope, event, now);
            after.Some? ==> TrailsGrow(audit, after.value) && Recorded(after.value, scope, AuditLog.Entry(event, now))
  {}

  ghost predicate MarkOk(s: System, m: Mark) {
    && IssuedTo(s, m.id, m.scope)
    && (m.stage.Audited? ==> Recorded(s.audit, m.scope, AuditLog.Entry(DispatchText(m.id), m.at)))
    && (m.call.Some? ==>
          && Authentic(s, m.id, m.call.value)
          && (m.stage.Admitted? ==> m.at < s.created[m.id].at + DECISION_LIFETIME_US)
          && (m.stage.Claimed? || LeaseSpent(s, m.id, m.call.value)))
  }

  /** When a stage is logged, the trace so far is the path of that very call up to the stage. */
  predicate InPlace(log: seq<Mark>, k: nat)
    requires k < |log|
  {
    Trace(log[..k + 1], log[k].id) <= Path(log[k].call)
  }

  ghost predicate LogOk(s: System, k: nat) { k < |s.log| ==> MarkOk(s, s.log[k]) && InPlace(s.log, k) }

  /** A trace belongs to an identifier that cannot be claimed any more. */
  ghost predicate TraceOk(s: System, id: Id) {
    Trace(s.log, id) != [] ==> R.Spent(s.store, id)
  }

  ghost predicate SpentOk(s: System, lease: Id) {
    lease in s.spentOn ==> lease in s.leases && s.leases[lease].useCount == s.leases[lease].maxUses == 1
  }

  predicate SameLive(x: Worker, y: Worker) { x.Live? && y.Live? && x.id == y.id }

  ghost predicate StoreOk(n: System) {
    R.Valid(n.store) && (forall id :: OriginOk(n, id)) && (forall id :: RowOk(n, id)) && (forall l :: SpentOk(n, l))
  }

  ghost predicate Inv(s: System) {
    && StoreOk(s)
    && (forall w :: w in s.workers ==> WorkerOk(s, s.workers[w]))
    && (forall v, w :: v in s.workers && w in s.workers && SameLive(s.workers[v], s.workers[w]) ==> v == w)
    && (forall id :: TraceOk(s, id))
    && (forall k :: LogOk(s, k))
  }

  // ---------------------------------------------------------------- one frame for every step

  ghost predicate LeasesGrow(before: L.Rows, after: L.Rows) {
    forall l :: l in before ==>
      && l in after && LR.SameTerms(before[l], after[l])
      && before[l].useCount <= after[l].useCount
      && (before[l].useCount <= before[l].maxUses ==> after[l].useCount <= after[l].maxUses)
  }

  ghost predicate Grows(s: System, n: System) {
    && (forall id :: id in s.created ==> id in n.created && n.created[id] == s.created[id])
    && LeasesGrow(s.leases, n.leases) && TrailsGrow(s.audit, n.audit)
    && (forall l :: l in s.spentOn ==> l in n.spentOn && n.spentOn[l] == s.spentOn[l])
    && (forall id :: id in s.store.issued ==> id in n.store.issued && n.store.issued[id] == s.store.issued[id])
    && (forall id :: R.Spent(s.store, id) ==> R.Spent(n.store, id))
    && (forall id :: id in n.created && id !in s.created ==> id !in s.store.issued)
  }

  lemma GenuineGrows(s: System, n: System, id: Id, p: Payload)
    requires Grows(s, n) && Genuine(s, id, p)
    ensures Genuine(n, id, p)
  {}

  lemma WorkerGrows(s: System, n: System, x: Worker)
    requires Grows(s, n) && WorkerOk(s, x) && (x.Live? ==> Trace(n.log, x.id) == Trace(s.log, x.id))
    ensures WorkerOk(n, x)
  {
    match x
    case Loaded(_, id, _, _, p) => GenuineGrows(s, n, id, p);
    case Observed(_, id, _, p, _) => GenuineGrows(s, n, id, p);
    case Ready(id, c) => GenuineGrows(s, n, id, c.payload);
    case Live(id, _, call, _) => if call.Some? { GenuineGrows(s, n, id, call.value.payload); }
    case Reviewing(id, _, p, _) => GenuineGrows(s, n, id, p);
    case Approved(id, _, p) => GenuineGrows(s, n, id, p);
    case _ =>
  }

  lemma MarkGrows(s: System, n: System, m: Mark)
    requires Grows(s, n) && MarkOk(s, m)
    ensures MarkOk(n, m)
  {
    if m.call.Some? { GenuineGrows(s, n, m.id, m.call.value.payload); }
  }

  lemma LogGrows(s: System, n: System, k: nat)
    requires Grows(s, n) && n.log == s.log && LogOk(s, k)
    ensures LogOk(n, k)
  {
    if k < |s.log| { MarkGrows(s, n, s.log[k]); }
  }

  ghost predicate OthersSame(s: System, n: System, w: nat) {
    forall v :: v in n.workers && v != w ==> v in s.workers && n.workers[v] == s.workers[v]
  }

  /** A step that logs nothing. */
  lemma QuietStep(s: System, n: System, w: nat)
    requires Inv(s) && Grows(s, n) && StoreOk(n) && n.log == s.log && OthersSame(s, n, w)
    requires w in n.workers ==> WorkerOk(n, n.workers[w]) && !n.workers[w].Live?
    ensures Inv(n)
  {
    forall v | v in n.workers && v != w ensures WorkerOk(n, n.workers[v]) { WorkerGrows(s, n, n.workers[v]); }
    forall k: nat ensures LogOk(n, k) { LogGrows(s, n, k); }
    forall id ensures TraceOk(n, id) { assert TraceOk(s, id); }
  }

  /** A step that changes no worker. */
  lemma QuietStepAll(s: System, n: System)
    requires Inv(s) && Grows(s, n) && StoreOk(n) && n.log == s.log && n.workers == s.workers
    ensures Inv(n)
  {
    forall v | v in n.workers ensures WorkerOk(n, n.workers[v]) { WorkerGrows(s, n, n.workers[v]); }
    forall k: nat ensures LogOk(n, k) { LogGrows(s, n, k); }
    forall id ensures TraceOk(n, id) { assert TraceOk(s, id); }
  }

  lemma LoggedTraces(s: System, n: System, m: Mark)
    requires forall id :: TraceOk(s, id)
    requires forall id :: R.Spent(s.store, id) ==> R.Spent(n.store, id)
    requires n.log == s.log + [m] && R.Spent(n.store, m.id)
    ensures forall id :: TraceOk(n, id)
  {
    forall id ensures TraceOk(n, id) {
      assert TraceOk(s, id);
      TraceAppend(s.log, m, id);
    }
  }

  lemma LoggedMark(s: System, n: System, m: Mark, k: nat)
    requires LogOk(s, k) && Grows(s, n) && n.log == s.log + [m] && MarkOk(n, m) && Trace(n.log, m.id) <= Path(m.call)
    ensures LogOk(n, k)
  {
    if k < |s.log| {
      MarkGrows(s, n, s.log[k]);
      assert n.log[..k + 1] == s.log[..k + 1];
    } else if k == |s.log| {
      assert n.log[..k + 1] == n.log;
    }
  }

  lemma LoggedMarks(s: System, n: System, m: Mark)
    requires (forall k :: LogOk(s, k)) && Grows(s, n) && n.log == s.log + [m] && MarkOk(n, m) && Trace(n.log, m.id) <= Path(m.call)
    ensures forall k :: LogOk(n, k)
  {
    forall k: nat ensures LogOk(n, k) { LoggedMark(s, n, m, k); }
  }

  lemma LoggedWorkers(s: System, n: System, w: nat, m: Mark)
    requires forall v :: v in s.workers ==> WorkerOk(s, s.workers[v])
    requires Grows(s, n) && n.log == s.log + [m] && OthersSame(s, n, w)
    requires forall v :: v in s.workers && v != w && s.workers[v].Live? ==> s.workers[v].id != m.id
    ensures forall v :: v in n.workers && v != w ==> WorkerOk(n, n.workers[v])
  {
    forall v | v in n.workers && v != w ensures WorkerOk(n, n.workers[v]) {
      if n.workers[v].Live? { TraceAppend(s.log, m, n.workers[v].id); }
      WorkerGrows(s, n, n.workers[v]);
    }
  }

  lemma LoggedUnique(s: System, n: System, w: nat)
    requires forall u, v :: u in s.workers && v in s.workers && SameLive(s.workers[u], s.workers[v]) ==> u == v
    requires OthersSame(s, n, w) && w in n.workers && n.workers[w].Live?
    requires forall v :: v in s.workers && v != w && s.workers[v].Live? ==> s.workers[v].id != n.workers[w].id
    ensures forall u, v :: u in n.workers && v in n.workers && SameLive(n.workers[u], n.workers[v]) ==> u == v
  {}

  ghost predicate WorkersOk(s: System) { forall w :: w in s.workers ==> WorkerOk(s, s.workers[w]) }

  ghost predicate OneEach(s: System) {
    forall v, w :: v in s.workers && w in s.workers && SameLive(s.workers[v], s.workers[w]) ==> v == w
  }

  lemma AllWorkersOk(n: System, w: nat)
    requires w in n.workers && WorkerOk(n, n.workers[w])
    requires forall v :: v in n.workers && v != w ==> WorkerOk(n, n.workers[v])
    ensures WorkersOk(n)
  {}

  lemma PartsMakeInv(n: System)
    requires StoreOk(n) && WorkersOk(n) && OneEach(n) && (forall id :: TraceOk(n, id)) && (forall k :: LogOk(n, k))
    ensures Inv(n)
  {}

  /** A step that logs the next stage of worker w. */
  lemma LoggedStep(s: System, n: System, w: nat, m: Mark)
    requires Inv(s) && Grows(s, n) && StoreOk(n) && n.log == s.log + [m] && OthersSame(s, n, w)
    requires w in n.workers && n.workers[w].Live? && n.workers[w].id == m.id && WorkerOk(n, n.workers[w])
    requires forall v :: v in s.workers && v != w && s.workers[v].Live? ==> s.workers[v].id != m.id
    requires MarkOk(n, m) && n.workers[w].invocation == m.call
    ensures Inv(n)
  {
    LoggedWorkers(s, n, w, m);
    AllWorkersOk(n, w);
    LoggedTraces(s, n, m);
    LoggedMarks(s, n, m);
    LoggedUnique(s, n, w);
    PartsMakeInv(n);
  }

  // ---------------------------------------------------------------- store transactions as steps

  /** Payloads are written by create and update alone. */
  lemma BlobsKept(t: Tables, c: R.Call)
    requires !c.Create? && !c.Update?
    ensures forall id :: id in R.After(t, c).decisions ==> id in t.decisions && R.After(t, c).decisions[id].blob == t.decisions[id].blob
  {}

  lemma HistoryGrows(h: R.History, c: R.Call)
    requires R.Valid(h) && R.Legal(h, c)
    ensures var n := R.Next(h, c);
            && (forall id :: id in h.issued ==> id in n.issued && n.issued[id] == h.issued[id])
            && (forall id :: R.Spent(h, id) ==> R.Spent(n, id))
  {
    var n := R.Next(h, c);
    forall id | R.Spent(h, id) ensures R.Spent(n, id) { R.SpentStep(h, c, id); }
  }

  lemma StoreCall(s: System, n: System, c: R.Call)
    requires Inv(s) && R.Legal(s.store, c) && !c.Create? && !c.Update?
    requires n.store == R.Next(s.store, c) && n.created == s.created && n.leases == s.leases && n.spentOn == s.spentOn && n.audit == s.audit
    ensures Grows(s, n) && StoreOk(n)
  {
    R.StepKeepsValid(s.store, c);
    HistoryGrows(s.store, c);
    BlobsKept(s.store.tables, c);
    forall id ensures OriginOk(n, id) { assert OriginOk(s, id); }
    forall id ensures RowOk(n, id) { assert RowOk(s, id); }
    forall l ensures SpentOk(n, l) { assert SpentOk(s, l); }
  }

  lemma NoStoreCall(s: System, n: System)
    requires Inv(s) && n.store == s.store && n.created == s.created && LeasesGrow(s.leases, n.leases)
    requires n.spentOn == s.spentOn && TrailsGrow(s.audit, n.audit)
    ensures Grows(s, n) && StoreOk(n)
  {
    forall l ensures SpentOk(n, l) { assert SpentOk(s, l); }
    forall id ensures OriginOk(n, id) { assert OriginOk(s, id); }
    forall id ensures RowOk(n, id) {
      assert RowOk(s, id);
      if id in s.store.tables.decisions { GenuineGrows(s, n, id, s.store.tables.decisions[id].blob.payload); }
    }
  }

  lemma RejectKeepsInv(s: System, w: nat, scope: Scope, id: Id)
    requires Inv(s)
    ensures Inv(Reject(s, w, scope, id))
  {
    var n := Reject(s, w, scope, id);
    StoreCall(s, n, R.Invalidate(scope, id));
    QuietStep(s, n, w);
  }

  lemma PutKeepsInv(s: System, w: nat, x: Worker)
    requires Inv(s) && WorkerOk(s, x) && !x.Live?
    ensures Inv(Put(s, w, x))
  {
    NoStoreCall(s, Put(s, w, x));
    QuietStep(s, Put(s, w, x), w);
  }

  lemma DropKeepsInv(s: System, w: nat)
    requires Inv(s)
    ensures Inv(Drop(s, w))
  {
    NoStoreCall(s, Drop(s, w));
    QuietStep(s, Drop(s, w), w);
  }

  // ---------------------------------------------------------------- the steps

  lemma CreateGrows(s: System, n: System, c: R.Call, asked: Asked)
    requires Inv(s) && c.Create? && c.token !in s.store.issued && Commits(s, c)
    requires n.store == R.Next(s.store, c) && n.created == s.created[c.token := Origin(c.payload, c.now, asked)]
    requires n.leases == s.leases && n.spentOn == s.spentOn && n.audit == s.audit
    ensures Grows(s, n) && n.store.issued == s.store.issued[c.token := c.scope] && R.Valid(n.store)
  {
    R.StepKeepsValid(s.store, c);
    HistoryGrows(s.store, c);
    assert OriginOk(s, c.token);
  }

  lemma CreateCall(s: System, n: System, c: R.Call, asked: Asked)
    requires Inv(s) && c.Create? && c.token !in s.store.issued && Commits(s, c)
    requires c.payload.leaseId.None? && c.payload.expiresUs == c.now + DECISION_LIFETIME_US
    requires c.payload.terms.binding == Binding(c.payload.terms.request) && c.payload.terms.request.scope == c.scope == asked.config.scope
    requires c.payload.terms == asked.Terms()
    requires n.store == R.Next(s.store, c) && n.created == s.created[c.token := Origin(c.payload, c.now, asked)]
    requires n.leases == s.leases && n.spentOn == s.spentOn && n.audit == s.audit
    ensures Grows(s, n) && StoreOk(n)
  {
    CreateGrows(s, n, c, asked);
    CreateRows(s.store.tables, c);
    NewOrigin(s, n, c.token, Origin(c.payload, c.now, asked), c.scope);
  }

  lemma NewOrigin(s: System, n: System, id: Id, o: Origin, scope: Scope)
    requires Inv(s) && Grows(s, n) && R.Valid(n.store)
    requires n.created == s.created[id := o] && n.store.issued == s.store.issued[id := scope]
    requires n.leases == s.leases && n.spentOn == s.spentOn && n.audit == s.audit
    requires o.payload.leaseId.None? && o.payload.expiresUs == o.at + DECISION_LIFETIME_US
    requires o.payload.terms.binding == Binding(o.payload.terms.request) && o.payload.terms.request.scope == scope == o.asked.config.scope
    requires o.payload.terms == o.asked.Terms()
    requires forall x :: x in n.store.tables.decisions ==>
               if x == id then n.store.tables.decisions[x].blob.payload == o.payload
               else x in s.store.tables.decisions && n.store.tables.decisions[x] == s.store.tables.decisions[x]
    ensures StoreOk(n)
  {
    forall x ensures OriginOk(n, x) {
      assert OriginOk(s, x);
      NewOriginOk(s, n, id, o, scope, x);
    }
    forall x ensures RowOk(n, x) { assert RowOk(s, x); }
    forall l ensures SpentOk(n, l) { assert SpentOk(s, l); }
  }

  lemma NewOriginOk(s: System, n: System, id: Id, o: Origin, scope: Scope, x: Id)
    requires OriginOk(s, x)
    requires n.created == s.created[id := o] && n.store.issued == s.store.issued[id := scope]
    requires x != id && x in s.created ==> x in n.store.issued && n.store.issued[x] == s.store.issued[x]
    requires o.payload.leaseId.None? && o.payload.expiresUs == o.at + DECISION_LIFETIME_US
    requires o.payload.terms.binding == Binding(o.payload.terms.request) && o.payload.terms.request.scope == scope == o.asked.config.scope
    requires o.payload.terms == o.asked.Terms()
    ensures OriginOk(n, x)
  {}

  lemma CreateRows(t: Tables, c: R.Call)
    requires c.Create? && R.Commits(t, c) && c.payload.expiresUs == c.now + DECISION_LIFETIME_US
    ensures var rows := R.After(t, c).decisions;
            forall id :: id in rows ==>
              if id == c.token then rows[id].blob.payload == c.payload else id in t.decisions && rows[id] == t.decisions[id]
  {}

  lemma NewTermsBind(asked: Asked)
    ensures asked.Terms().binding == Binding(asked.Terms().request) && asked.Terms().request.scope == asked.config.scope
  {}

  lemma PreflightKeepsInv(s: System, e: Event)
    requires Inv(s) && e.Preflight?
    ensures Inv(OnSeal(s, PreflightCall(s, e), AskedBy(e)))
  {
    NewTermsBind(AskedBy(e));
    SealKeepsInv(s, PreflightCall(s, e), AskedBy(e));
  }

  lemma SealKeepsInv(s: System, c: R.Call, asked: Asked)
    requires Inv(s) && c.Create?
    requires c.payload.leaseId.None? && c.payload.expiresUs == c.now + DECISION_LIFETIME_US
    requires c.payload.terms.binding == Binding(c.payload.terms.request) && c.payload.terms.request.scope == c.scope == asked.config.scope
    requires c.payload.terms == asked.Terms()
    ensures Inv(OnSeal(s, c, asked))
  {
    if c.token !in s.store.issued && Commits(s, c) { CreatedKeepsInv(s, OnSeal(s, c, asked), c, asked); }
  }

  lemma CreatedKeepsInv(s: System, n: System, c: R.Call, asked: Asked)
    requires Inv(s) && c.Create? && c.token !in s.store.issued && Commits(s, c)
    requires c.payload.leaseId.None? && c.payload.expiresUs == c.now + DECISION_LIFETIME_US
    requires c.payload.terms.binding == Binding(c.payload.terms.request) && c.payload.terms.request.scope == c.scope == asked.config.scope
    requires c.payload.terms == asked.Terms()
    requires n == Do(s, c).(created := s.created[c.token := Origin(c.payload, c.now, asked)])
    ensures Inv(n)
  {
    CreateCall(s, n, c, asked);
    QuietStepAll(s, n);
  }

  lemma ControlKeepsInv(s: System, c: R.Call)
    requires Inv(s) && OperatorCall(c)
    ensures Inv(Do(s, c))
  {
    StoreCall(s, Do(s, c), c);
    QuietStepAll(s, Do(s, c));
  }

  lemma LoadKeepsInv(s: System, w: nat, key: nat)
    requires Inv(s) && w in s.workers && s.workers[w].Begun?
    ensures Inv(OnLoad(s, w, key))
  {
    assert RowOk(s, s.workers[w].id);
    var n := OnLoad(s, w, key);
    if w in n.workers { PutKeepsInv(s, w, n.workers[w]); } else { DropKeepsInv(s, w); }
  }

  lemma ObserveKeepsInv(s: System, w: nat, seen: Option<Target>)
    requires Inv(s) && w in s.workers && s.workers[w].Loaded?
    ensures Inv(OnObserve(s, w, seen))
  {
    var x := s.workers[w];
    assert WorkerOk(s, x);
    if x.kind.Inference? && Stopped(s, x.home) {
      DropKeepsInv(s, w);
    } else if seen.Some? && (if x.kind.RemoteTool? then seen.value.ToolTarget? && SameTool(seen.value.tool, x.payload.terms)
                             else seen.value.RouteTarget?) {
      PutKeepsInv(s, w, Observed(x.kind, x.id, x.home, x.payload, seen.value));
    } else {
      RejectKeepsInv(s, w, x.scope, x.id);
    }
  }

  /** The call is what the preflight was asked for: under the same configuration, on the same target,
      with the same arguments - field by field. */
  ghost predicate AsAsked(a: Asked, c: Call) {
    && c.config.scope == a.config.scope && c.config.passport == a.config.passport
    && c.config.transport == a.config.transport && c.config.remoteCalls == a.config.remoteCalls
    && c.target == a.target
    && c.payload.terms.arguments == a.arguments && c.payload.terms.dataClass == a.dataClass
    && (if a.target.ToolTarget? then c.assessment == a.assessment else c.payload.terms.model == a.model)
  }

  /** The bound request tells all of these apart. */
  lemma AuthenticIsAsAsked(s: System, id: Id, c: Call)
    requires OriginOk(s, id) && Authentic(s, id, c)
    ensures AsAsked(s.created[id].asked, c)
  {}

  lemma PassedIsAuthentic(s: System, x: Worker, stopped: bool, config: Config, permitted: bool, policy: Outcome, assessment: Assessment)
    requires x.Observed? && WorkerOk(s, x) && OriginOk(s, x.id)
    ensures var r := Rechecked(x, stopped, config, permitted, policy, assessment);
            r.Passed? ==> Authentic(s, x.id, r.call) && x.id in s.created && AsAsked(s.created[x.id].asked, r.call)
  {
    var r := Rechecked(x, stopped, config, permitted, policy, assessment);
    if r.Passed? {
      PassedIsGenuine(s, x, stopped, config, permitted, policy, assessment);
      AuthenticIsAsAsked(s, x.id, r.call);
    }
  }

  lemma PassedIsGenuine(s: System, x: Worker, stopped: bool, config: Config, permitted: bool, policy: Outcome, assessment: Assessment)
    requires x.Observed? && WorkerOk(s, x) && OriginOk(s, x.id)
    ensures var r := Rechecked(x, stopped, config, permitted, policy, assessment);
            r.Passed? ==> Authentic(s, x.id, r.call) && x.id in s.created
  {}

  lemma RebuildKeepsInv(s: System, w: nat, config: Config, permitted: bool, policy: Outcome, assessment: Assessment)
    requires Inv(s) && w in s.workers && s.workers[w].Observed?
    ensures Inv(OnRebuild(s, w, config, permitted, policy, assessment))
  {
    var x := s.workers[w];
    var stopped := Stopped(s, config.scope);
    assert OriginOk(s, x.id);
    PassedIsAuthentic(s, x, stopped, config, permitted, policy, assessment);
    match Rechecked(x, stopped, config, permitted, policy, assessment)
    case Invalid => RejectKeepsInv(s, w, x.home, x.id);
    case Refused => DropKeepsInv(s, w);
    case Passed(call) => PutKeepsInv(s, w, Ready(x.id, call));
  }

  lemma StartTrace(s: System, m: Mark)
    requires TraceOk(s, m.id) && !R.Spent(s.store, m.id) && m.stage == Path(m.call)[0]
    ensures Trace(s.log + [m], m.id) == Path(m.call)[..1] && Path(m.call)[..1] <= Path(m.call)
  {
    TraceAppend(s.log, m, m.id);
  }

  lemma StartOk(s: System, n: System, m: Mark)
    requires Grows(s, n) && n.log == s.log + [m] && TraceOk(s, m.id)
    requires !R.Spent(s.store, m.id) && R.Spent(n.store, m.id) && IssuedTo(n, m.id, m.scope)
    requires m.stage == Path(m.call)[0]
    requires if m.call.Some? then Authentic(s, m.id, m.call.value) else m.id !in n.created
    ensures WorkerOk(n, Live(m.id, m.scope, m.call, 1)) && MarkOk(n, m)
  {
    StartTrace(s, m);
    if m.call.Some? { GenuineGrows(s, n, m.id, m.call.value.payload); }
  }

  lemma NoneLive(s: System, id: Id)
    requires Inv(s) && !R.Spent(s.store, id)
    ensures forall v :: v in s.workers && s.workers[v].Live? ==> s.workers[v].id != id
  {
    forall v | v in s.workers && s.workers[v].Live? ensures s.workers[v].id != id {
      assert WorkerOk(s, s.workers[v]);
    }
  }

  /** A worker goes live with the first stage of its path, under an identifier not used before. */
  lemma StartLive(s: System, n: System, w: nat, m: Mark)
    requires Inv(s) && Grows(s, n) && StoreOk(n) && OthersSame(s, n, w)
    requires n.log == s.log + [m] && m.stage == Path(m.call)[0]
    requires w in n.workers && n.workers[w] == Live(m.id, m.scope, m.call, 1)
    requires !R.Spent(s.store, m.id) && R.Spent(n.store, m.id) && IssuedTo(n, m.id, m.scope)
    requires if m.call.Some? then Authentic(s, m.id, m.call.value) else m.id !in n.created
    ensures Inv(n)
  {
    assert TraceOk(s, m.id);
    StartOk(s, n, m);
    NoneLive(s, m.id);
    LoggedStep(s, n, w, m);
  }

  lemma ClaimTakes(h: R.History, c: R.Call)
    requires R.Valid(h) && c.Claim? && R.Commits(h.tables, c)
    ensures !R.Spent(h, c.id) && R.Spent(R.Next(h, c), c.id)
    ensures c.id in h.issued && h.issued[c.id] == c.scope
  {}

  lemma ClaimStage(s: System, n: System, w: nat, c: R.Call, call: Call)
    requires Inv(s) && c.Claim? && Commits(s, c) && Authentic(s, c.id, call)
    requires n.store == R.Next(s.store, c) && n.created == s.created && n.leases == s.leases && n.spentOn == s.spentOn && n.audit == s.audit
    requires n.workers == s.workers[w := Live(c.id, c.scope, Some(call), 1)]
    requires n.log == s.log + [Mark(c.id, c.scope, Claimed, s.clock, Some(call))]
    ensures Inv(n)
  {
    ClaimTakes(s.store, c);
    StoreCall(s, n, c);
    StartLive(s, n, w, Mark(c.id, c.scope, Claimed, s.clock, Some(call)));
  }

  lemma ClaimKeepsInv(s: System, w: nat, key: nat)
    requires Inv(s) && w in s.workers && s.workers[w].Ready?
    ensures Inv(OnClaim(s, w, key))
  {
    var Ready(id, call) := s.workers[w];
    var c := R.Claim(key, call.config.scope, id, call.config.passport.callsPerSession, call.payload, s.clock);
    if Commits(s, c) { ClaimStage(s, OnClaim(s, w, key), w, c, call); } else { DropKeepsInv(s, w); }
  }

  lemma NativeTakes(h: R.History, c: R.Call)
    requires R.Valid(h) && R.Legal(h, c) && c.BeginNative? && R.Commits(h.tables, c)
    ensures !R.Spent(h, c.token) && R.Spent(R.Next(h, c), c.token)
    ensures var n := R.Next(h, c); c.token in n.issued && n.issued[c.token] == c.scope
  {}

  lemma NativeKeepsInv(s: System, w: nat, scope: Scope, id: Token, limit: int)
    requires Inv(s) && w !in s.workers
    ensures Inv(OnNative(s, w, scope, id, limit))
  {
    var c := R.BeginNative(scope, id, limit);
    if id !in s.store.issued && Commits(s, c) {
      var n := OnNative(s, w, scope, id, limit);
      NativeTakes(s.store, c);
      StoreCall(s, n, c);
      assert OriginOk(s, id);
      StartLive(s, n, w, Mark(id, scope, Admitted, s.clock, None));
    }
  }

  lemma TakePath(call: Option<Call>, done: nat)
    requires done < |Path(call)|
    ensures Path(call)[..done + 1] == Path(call)[..done] + [Path(call)[done]] <= Path(call)
  {}

  lemma MovedWorker(s: System, n: System, w: nat)
    requires Underway(s, w) && WorkerOk(s, s.workers[w]) && Grows(s, n) && n.log == Moved(s, w).log
    requires s.workers[w].invocation.Some? ==> LeaseSpent(n, s.workers[w].id, s.workers[w].invocation.value)
    ensures WorkerOk(n, Moved(s, w).workers[w])
    ensures Trace(n.log, s.workers[w].id) <= Path(s.workers[w].invocation)
  {
    var x := s.workers[w];
    TraceAppend(s.log, Mark(x.id, x.scope, StageAhead(x), s.clock, x.invocation), x.id);
    TakePath(x.invocation, x.done);
    if x.invocation.Some? { GenuineGrows(s, n, x.id, x.invocation.value.payload); }
  }

  lemma MovedMark(s: System, n: System, x: Worker)
    requires x.Live? && x.done < |Path(x.invocation)| && WorkerOk(s, x) && Grows(s, n) && OriginOk(s, x.id)
    requires x.invocation.Some? ==> LeaseSpent(n, x.id, x.invocation.value)
    requires x.invocation.Some? && StageAhead(x).Admitted? ==> s.clock < x.invocation.value.payload.expiresUs
    requires StageAhead(x).Audited? ==> Recorded(n.audit, x.scope, AuditLog.Entry(DispatchText(x.id), s.clock))
    ensures MarkOk(n, Mark(x.id, x.scope, StageAhead(x), s.clock, x.invocation))
  {
    if x.invocation.Some? { GenuineGrows(s, n, x.id, x.invocation.value.payload); }
  }

  lemma NoOtherLive(s: System, w: nat)
    requires forall u, v :: u in s.workers && v in s.workers && SameLive(s.workers[u], s.workers[v]) ==> u == v
    requires w in s.workers && s.workers[w].Live?
    ensures forall v :: v in s.workers && v != w && s.workers[v].Live? ==> s.workers[v].id != s.workers[w].id
  {
    assert forall v :: v in s.workers && v != w && s.workers[v].Live? ==> !SameLive(s.workers[v], s.workers[w]);
  }

  /** What every successful stage of a live worker has in common. */
  lemma StageDone(s: System, n: System, w: nat)
    requires Inv(s) && Underway(s, w) && Grows(s, n) && StoreOk(n)
    requires n.workers == Moved(s, w).workers && n.log == Moved(s, w).log
    requires var x := s.workers[w];
             && (StageAhead(x).Audited? ==> Recorded(n.audit, x.scope, AuditLog.Entry(DispatchText(x.id), s.clock)))
             && (x.invocation.Some? ==>
                   && LeaseSpent(n, x.id, x.invocation.value)
                   && (StageAhead(x).Admitted? ==> s.clock < x.invocation.value.payload.expiresUs))
    ensures Inv(n)
  {
    var x := s.workers[w];
    assert OriginOk(s, x.id);
    MovedWorker(s, n, w);
    MovedMark(s, n, x);
    NoOtherLive(s, w);
    LoggedStep(s, n, w, Mark(x.id, x.scope, StageAhead(x), s.clock, x.invocation));
  }

  /** A lease the call needs is spent before any stage but the consume itself. */
  lemma SpentByNow(s: System, n: System, x: Worker)
    requires x.Live? && x.done < |Path(x.invocation)| && WorkerOk(s, x) && Grows(s, n) && !StageAhead(x).Consumed?
    ensures x.invocation.Some? ==> LeaseSpent(n, x.id, x.invocation.value)
  {}

  lemma PlainStageKeepsInv(s: System, n: System, w: nat)
    requires Inv(s) && Underway(s, w)
    requires StageAhead(s.workers[w]).Audited? || StageAhead(s.workers[w]).Called?
    requires n == Moved(s, w).(audit := n.audit) && TrailsGrow(s.audit, n.audit)
    requires var x := s.workers[w];
             StageAhead(x).Audited? ==> Recorded(n.audit, x.scope, AuditLog.Entry(DispatchText(x.id), s.clock))
    ensures Inv(n)
  {
    NoStoreCall(s, n);
    SpentByNow(s, n, s.workers[w]);
    StageDone(s, n, w);
  }

  lemma FailedKeepsInv(s: System, w: nat)
    requires Inv(s) && Underway(s, w)
    ensures Inv(Failed(s, w))
  {
    PutKeepsInv(s, w, Ending(s.workers[w].id, s.workers[w].scope));
  }

  lemma AdmitIsInTime(t: Tables, c: R.Call)
    requires c.Admit? && R.Commits(t, c)
    ensures c.now < c.payload.expiresUs
  {}

  lemma AdmitKeepsInv(s: System, w: nat)
    requires Inv(s) && Underway(s, w) && StageAhead(s.workers[w]).Admitted?
    ensures Inv(OnAdmit(s, w))
  {
    var x := s.workers[w];
    if x.invocation.None? {
      FailedKeepsInv(s, w);
    } else {
      var c := R.Admit(x.scope, x.id, x.invocation.value.payload, s.clock);
      if Commits(s, c) {
        AdmitStage(s, Do(Moved(s, w), c), w, c);
      } else {
        FailedKeepsInv(s, w);
      }
    }
  }

  lemma AdmitStage(s: System, n: System, w: nat, c: R.Call)
    requires Inv(s) && Underway(s, w) && StageAhead(s.workers[w]).Admitted? && s.workers[w].invocation.Some?
    requires c.Admit? && c.payload == s.workers[w].invocation.value.payload && c.now == s.clock && Commits(s, c)
    requires n == Moved(s, w).(store := R.Next(s.store, c))
    ensures Inv(n)
  {
    StoreCall(s, n, c);
    AdmitIsInTime(s.store.tables, c);
    SpentByNow(s, n, s.workers[w]);
    StageDone(s, n, w);
  }

  lemma ConsumeGrows(leases: L.Rows, id: Id, request: LeaseRequest, now: int)
    requires L.Consume(leases, id, request, now).1.Allowed()
    ensures LeasesGrow(leases, L.Consume(leases, id, request, now).0)
    ensures id in leases && L.Consume(leases, id, request, now).0[id].useCount == leases[id].useCount + 1 <= leases[id].maxUses
  {}

  lemma ConsumeCall(s: System, n: System, id: Id, lease: Id, request: LeaseRequest)
    requires Inv(s) && n.store == s.store && n.created == s.created
    requires L.Consume(s.leases, lease, request, s.clock).1.Allowed() && LeaseFor(s.leases, lease, request)
    requires n.leases == L.Consume(s.leases, lease, request, s.clock).0 && n.spentOn == s.spentOn[lease := id] && n.audit == s.audit
    ensures Grows(s, n) && StoreOk(n)
  {
    assert SpentOk(s, lease);
    ConsumeGrows(s.leases, lease, request, s.clock);
    forall l ensures SpentOk(n, l) { assert SpentOk(s, l); }
    forall x ensures OriginOk(n, x) { assert OriginOk(s, x); }
    forall x ensures RowOk(n, x) {
      assert RowOk(s, x);
      if x in s.store.tables.decisions { GenuineGrows(s, n, x, s.store.tables.decisions[x].blob.payload); }
    }
  }

  lemma ConsumeKeepsInv(s: System, w: nat)
    requires Inv(s) && Underway(s, w) && StageAhead(s.workers[w]).Consumed?
    ensures Inv(OnConsume(s, w))
  {
    var x := s.workers[w];
    if x.invocation.None? || x.invocation.value.payload.leaseId.None? {
      FailedKeepsInv(s, w);
    } else {
      var lease, request := x.invocation.value.payload.leaseId.value, x.invocation.value.Rebuilt();
      if L.Consume(s.leases, lease, request, s.clock).1.Allowed() {
        var n := OnConsume(s, w);
        ConsumeCall(s, n, x.id, lease, request);
        StageDone(s, n, w);
      } else {
        FailedKeepsInv(s, w);
      }
    }
  }

  lemma AuditKeepsInv(s: System, w: nat, available: bool)
    requires Inv(s) && Underway(s, w) && StageAhead(s.workers[w]).Audited?
    ensures Inv(OnAudit(s, w, available))
  {
    var x := s.workers[w];
    AppendGrows(s.codec, s.audit, x.scope, DispatchText(x.id), s.clock);
    var n := OnAudit(s, w, available);
    if n == Failed(s, w) { FailedKeepsInv(s, w); } else { PlainStageKeepsInv(s, n, w); }
  }

  lemma JournalKeepsInv(s: System, scope: Scope, event: string)
    requires Inv(s)
    ensures Inv(OnJournal(s, scope, event))
  {
    AppendGrows(s.codec, s.audit, scope, event, s.clock);
    var n := OnJournal(s, scope, event);
    NoStoreCall(s, n);
    QuietStepAll(s, n);
  }

  lemma AdvanceKeepsInv(s: System, w: nat, available: bool)
    requires Inv(s) && Underway(s, w)
    ensures Inv(OnAdvance(s, w, available))
  {
    match StageAhead(s.workers[w])
    case Claimed => FailedKeepsInv(s, w);
    case Consumed => ConsumeKeepsInv(s, w);
    case Audited => AuditKeepsInv(s, w, available);
    case Admitted => AdmitKeepsInv(s, w);
    case Called => PlainStageKeepsInv(s, Moved(s, w), w);
  }

  lemma FinishKeepsInv(s: System, w: nat, stored: bool)
    requires Inv(s) && w in s.workers && (s.workers[w].Live? || s.workers[w].Ending?)
    ensures Inv(OnFinish(s, w, stored))
  {
    if stored {
      var n := OnFinish(s, w, stored);
      assert WorkerOk(s, s.workers[w]);
      StoreCall(s, n, R.Finish(s.workers[w].scope, s.workers[w].id));
      QuietStep(s, n, w);
    } else {
      DropKeepsInv(s, w);
    }
  }

  lemma ReviewedWorker(s: System, w: nat, kind: Kind, id: Id, config: Config, key: nat)
    requires w !in s.workers && RowOk(s, id)
    ensures var n := OnReview(s, w, kind, id, config, key);
            n == s || (w in n.workers && n == Put(s, w, n.workers[w]) && n.workers[w].Reviewing? && WorkerOk(s, n.workers[w]))
  {}

  lemma ReviewKeepsInv(s: System, w: nat, kind: Kind, id: Id, config: Config, key: nat)
    requires Inv(s) && w !in s.workers
    ensures Inv(OnReview(s, w, kind, id, config, key))
  {
    assert RowOk(s, id);
    ReviewedWorker(s, w, kind, id, config, key);
    var n := OnReview(s, w, kind, id, config, key);
    if n != s { PutKeepsInv(s, w, n.workers[w]); }
  }

  lemma IssueGrows(leases: L.Rows, lease: Token, request: LeaseRequest, ttl: int, approver: Option<string>, now: int)
    requires L.Issue(leases, lease, request, ttl, 1, approver, now).1.None?
    ensures var after := L.Issue(leases, lease, request, ttl, 1, approver, now).0;
            LeasesGrow(leases, after) && LeaseFor(after, lease, request)
  {}

  lemma IssuedKeepsInv(s: System, n: System, w: nat, id: Id, scope: Scope, p: Payload, lease: Id)
    requires Inv(s) && Genuine(s, id, p) && LeasesGrow(s.leases, n.leases) && LeaseFor(n.leases, lease, p.terms.request)
    requires n == Put(s, w, Approved(id, scope, p.(leaseId := Some(lease)))).(leases := n.leases)
    ensures Inv(n)
  {
    NoStoreCall(s, n);
    GenuineGrows(s, n, id, p);
    QuietStep(s, n, w);
  }

  lemma IssueKeepsInv(s: System, w: nat, lease: Token, approver: Option<string>)
    requires Inv(s) && w in s.workers && s.workers[w].Reviewing?
    ensures Inv(OnIssue(s, w, lease, approver))
  {
    var Reviewing(id, scope, p, minutes) := s.workers[w];
    var request, ttl := p.terms.binding.request, Min(MAX_LEASE_SECONDS, minutes * 60);
    if L.Issue(s.leases, lease, request, ttl, 1, approver, s.clock).1.None? {
      assert OriginOk(s, id);
      IssueGrows(s.leases, lease, request, ttl, approver, s.clock);
      IssuedKeepsInv(s, OnIssue(s, w, lease, approver), w, id, scope, p, lease);
    } else {
      DropKeepsInv(s, w);
    }
  }

  lemma UpdateRows(t: Tables, c: R.Call)
    requires c.Update? && R.Commits(t, c)
    ensures var n := R.After(t, c);
            && c.id in t.decisions && n.decisions.Keys == t.decisions.Keys && n.decisions[c.id].blob.payload == c.payload
            && forall x :: x in t.decisions && x != c.id ==> n.decisions[x] == t.decisions[x]
  {}

  lemma UpdateCall(s: System, n: System, c: R.Call)
    requires Inv(s) && c.Update? && Commits(s, c) && Genuine(s, c.id, c.payload)
    requires n.store == R.Next(s.store, c) && n.created == s.created && n.leases == s.leases && n.spentOn == s.spentOn && n.audit == s.audit
    ensures Grows(s, n) && StoreOk(n)
  {
    R.StepKeepsValid(s.store, c);
    HistoryGrows(s.store, c);
    UpdateRows(s.store.tables, c);
    UpdatedStoreOk(s, n, c.id, c.payload);
  }

  lemma UpdatedStoreOk(s: System, n: System, id: Id, p: Payload)
    requires StoreOk(s) && R.Valid(n.store) && Genuine(s, id, p)
    requires n.created == s.created && n.leases == s.leases && n.spentOn == s.spentOn
    requires n.store.issued == s.store.issued
    requires var t := s.store.tables.decisions;
             var u := n.store.tables.decisions;
             u.Keys == t.Keys && forall x :: x in u ==> if x == id then u[x].blob.payload == p else u[x] == t[x]
    ensures StoreOk(n)
  {
    forall x ensures OriginOk(n, x) { assert OriginOk(s, x); }
    forall x ensures RowOk(n, x) { assert RowOk(s, x); }
    forall l ensures SpentOk(n, l) { assert SpentOk(s, l); }
  }

  lemma RecordKeepsInv(s: System, w: nat, key: nat, bytes: nat)
    requires Inv(s) && w in s.workers && s.workers[w].Approved?
    ensures Inv(OnRecord(s, w, key, bytes))
  {
    var Approved(id, scope, p) := s.workers[w];
    var c := R.Update(key, scope, id, p, bytes, s.clock);
    if Commits(s, c) {
      var n := OnRecord(s, w, key, bytes);
      assert WorkerOk(s, s.workers[w]);
      UpdateCall(s, n, c);
      QuietStep(s, n, w);
    } else {
      DropKeepsInv(s, w);
    }
  }

  lemma RevokeGrows(leases: L.Rows, scope: Scope, wholeProfile: bool, now: int)
    ensures LeasesGrow(leases, L.Revoke(leases, scope, wholeProfile, now).0)
  {}

  lemma RevokeLeasesKeepsInv(s: System, e: Event)
    requires Inv(s) && e.RevokeLeases?
    ensures Inv(Step(s, e))
  {
    RevokeGrows(s.leases, e.scope, e.wholeProfile, s.clock);
    NoStoreCall(s, Step(s, e));
    QuietStepAll(s, Step(s, e));
  }

  lemma TickKeepsInv(s: System, e: Event)
    requires Inv(s) && e.Tick?
    ensures Inv(Step(s, e))
  {
    NoStoreCall(s, Step(s, e));
    QuietStepAll(s, Step(s, e));
  }

  lemma JournalStepKeepsInv(s: System, e: Event)
    requires Inv(s) && e.Journal?
    ensures Inv(Step(s, e))
  {
    assert Step(s, e) == OnJournal(s, e.scope, e.event);
    JournalKeepsInv(s, e.scope, e.event);
  }

  lemma VanishStepKeepsInv(s: System, e: Event)
    requires Inv(s) && e.Vanish?
    ensures Inv(Step(s, e))
  {
    assert Step(s, e) == Drop(s, e.w);
    DropKeepsInv(s, e.w);
  }

  lemma PreflightStepKeepsInv(s: System, e: Event)
    requires Inv(s) && e.Preflight?
    ensures Inv(Step(s, e))
  {
    assert Step(s, e) == OnSeal(s, PreflightCall(s, e), AskedBy(e));
    PreflightKeepsInv(s, e);
  }

  lemma ControlStepKeepsInv(s: System, e: Event)
    requires Inv(s) && e.Control?
    ensures Inv(Step(s, e))
  {
    if OperatorCall(e.c) {
      assert Step(s, e) == Do(s, e.c);
      ControlKeepsInv(s, e.c);
    } else {
      assert Step(s, e) == s;
    }
  }

  lemma BeginStepKeepsInv(s: System, e: Event)
    requires Inv(s) && e.Begin?
    ensures Inv(Step(s, e))
  {
    assert Step(s, e) == s || Step(s, e) == Put(s, e.w, Begun(e.kind, e.id, e.home, e.scope));
    PutKeepsInv(s, e.w, Begun(e.kind, e.id, e.home, e.scope));
  }

  lemma LoadRowStepKeepsInv(s: System, e: Event)
    requires Inv(s) && e.LoadRow?
    ensures Inv(Step(s, e))
  {
    if e.w in s.workers && s.workers[e.w].Begun? {
      assert Step(s, e) == OnLoad(s, e.w, e.key);
      LoadKeepsInv(s, e.w, e.key);
    } else {
      assert Step(s, e) == s;
    }
  }

  lemma ObserveStepKeepsInv(s: System, e: Event)
    requires Inv(s) && e.Observe?
    ensures Inv(Step(s, e))
  {
    if e.w in s.workers && s.workers[e.w].Loaded? {
      assert Step(s, e) == OnObserve(s, e.w, e.seen);
      ObserveKeepsInv(s, e.w, e.seen);
    } else {
      assert Step(s, e) == s;
    }
  }

  lemma RebuildStepKeepsInv(s: System, e: Event)
    requires Inv(s) && e.Rebuild?
    ensures Inv(Step(s, e))
  {
    if e.w in s.workers && s.workers[e.w].Observed? {
      assert Step(s, e) == OnRebuild(s, e.w, e.config, e.permitted, e.policy, e.assessment);
      RebuildKeepsInv(s, e.w, e.config, e.permitted, e.policy, e.assessment);
    } else {
      assert Step(s, e) == s;
    }
  }

  lemma ClaimStepKeepsInv(s: System, e: Event)
    requires Inv(s) && e.Claim?
    ensures Inv(Step(s, e))
  {
    if e.w in s.workers && s.workers[e.w].Ready? {
      assert Step(s, e) == OnClaim(s, e.w, e.key);
      ClaimKeepsInv(s, e.w, e.key);
    } else {
      assert Step(s, e) == s;
    }
  }

  lemma AdvanceStepKeepsInv(s: System, e: Event)
    requires Inv(s) && e.Advance?
    ensures Inv(Step(s, e))
  {
    if Underway(s, e.w) {
      assert Step(s, e) == OnAdvance(s, e.w, e.available);
      AdvanceKeepsInv(s, e.w, e.available);
    } else {
      assert Step(s, e) == s;
    }
  }

  lemma FinishStepKeepsInv(s: System, e: Event)
    requires Inv(s) && e.Finish?
    ensures Inv(Step(s, e))
  {
    if e.w in s.workers && (s.workers[e.w].Live? || s.workers[e.w].Ending?) {
      assert Step(s, e) == OnFinish(s, e.w, e.stored);
      FinishKeepsInv(s, e.w, e.stored);
    } else {
      assert Step(s, e) == s;
    }
  }

  lemma BeginNativeStepKeepsInv(s: System, e: Event)
    requires Inv(s) && e.BeginNative?
    ensures Inv(Step(s, e))
  {
    if e.w !in s.workers {
      assert Step(s, e) == OnNative(s, e.w, e.scope, e.token, e.limit);
      NativeKeepsInv(s, e.w, e.scope, e.token, e.limit);
    } else {
      assert Step(s, e) == s;
    }
  }

  lemma ReviewStepKeepsInv(s: System, e: Event)
    requires Inv(s) && e.Review?
    ensures Inv(Step(s, e))
  {
    if e.w !in s.workers {
      assert Step(s, e) == OnReview(s, e.w, e.kind, e.id, e.config, e.key);
      ReviewKeepsInv(s, e.w, e.kind, e.id, e.config, e.key);
    } else {
      assert Step(s, e) == s;
    }
  }

  lemma IssueLeaseStepKeepsInv(s: System, e: Event)
    requires Inv(s) && e.IssueLease?
    ensures Inv(Step(s, e))
  {
    if e.w in s.workers && s.workers[e.w].Reviewing? {
      assert Step(s, e) == OnIssue(s, e.w, e.lease, e.approver);
      IssueKeepsInv(s, e.w, e.lease, e.approver);
    } else {
      assert Step(s, e) == s;
    }
  }

  lemma RecordStepKeepsInv(s: System, e: Event)
    requires Inv(s) && e.Record?
    ensures Inv(Step(s, e))
  {
    if e.w in s.workers && s.workers[e.w].Approved? {
      assert Step(s, e) == OnRecord(s, e.w, e.key, e.bytes);
      RecordKeepsInv(s, e.w, e.key, e.bytes);
    } else {
      assert Step(s, e) == s;
    }
  }

  lemma StepKeepsInv(s: System, e: Event)
    requires Inv(s)
    ensures Inv(Step(s, e))
  {
    if e.Tick? { TickKeepsInv(s, e); }
    else if e.RevokeLeases? { RevokeLeasesKeepsInv(s, e); }
    else if e.Journal? { JournalStepKeepsInv(s, e); }
    else if e.Vanish? { VanishStepKeepsInv(s, e); }
    else if e.Preflight? { PreflightStepKeepsInv(s, e); }
    else if e.Control? { ControlStepKeepsInv(s, e); }
    else if e.Begin? { BeginStepKeepsInv(s, e); }
    else if e.LoadRow? { LoadRowStepKeepsInv(s, e); }
    else if e.Observe? { ObserveStepKeepsInv(s, e); }
    else if e.Rebuild? { RebuildStepKeepsInv(s, e); }
    else if e.Claim? { ClaimStepKeepsInv(s, e); }
    else if e.Advance? { AdvanceStepKeepsInv(s, e); }
    else if e.Finish? { FinishStepKeepsInv(s, e); }
    else if e.BeginNative? { BeginNativeStepKeepsInv(s, e); }
    else if e.Review? { ReviewStepKeepsInv(s, e); }
    else if e.IssueLease? { IssueLeaseStepKeepsInv(s, e); }
    else { RecordStepKeepsInv(s, e); }
  }

  lemma {:induction false} RunKeepsInv(s: System, es: seq<Event>)
    requires Inv(s)
    ensures Inv(Run(s, es))
    decreases |es|
  {
    if es != [] {
      StepKeepsInv(s, es[0]);
      RunKeepsInv(Step(s, es[0]), es[1..]);
    }
  }
}
