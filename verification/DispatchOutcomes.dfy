/** What each step of a gate decides, in terms of what the preflight was asked and of what is stored. */
module DispatchOutcomes {
  import opened Domain
  import opened DecisionTables
  import opened Dispatch
  import opened DispatchInvariant
  import R = DecisionRuns
  import L = LeaseTable

  /** The worker goes on as `x`, and nothing else changes. */
  ghost predicate GoesOn(s: System, n: System, w: nat, x: Worker) { n == s.(workers := s.workers[w := x]) }

  /** The worker is gone, and nothing else changes. */
  ghost predicate Quits(s: System, n: System, w: nat) { n == s.(workers := s.workers - {w}) }

  /** The worker is gone, and the decision of this chat is spent. */
  ghost predicate Spends(s: System, n: System, w: nat, chat: Scope, id: Id) {
    && n == s.(workers := s.workers - {w}, store := n.store)
    && n.store == R.Next(s.store, R.Invalidate(chat, id))
  }

  lemma SpentDecision(t: Tables, chat: Scope, id: Id)
    requires ValidId(id)
    ensures var n := R.After(t, R.Invalidate(chat, id));
            && n.admissions == t.admissions && (forall p :: ControlOf(n, p) == ControlOf(t, p))
            && (forall c :: SessionOf(n, c) == SessionOf(t, c)) && n.decisions.Keys == t.decisions.Keys
            && forall d :: d in t.decisions ==>
                 n.decisions[d] == if d == id && t.decisions[d].scope == chat then t.decisions[d].(used := true) else t.decisions[d]
  {}

  ghost predicate SameConfig(a: Config, b: Config) {
    a.scope == b.scope && a.passport == b.passport && a.transport == b.transport && a.remoteCalls == b.remoteCalls
  }

  lemma RouteHashIsFaithful(a: Config, b: Config)
    ensures RouteHash(a) == RouteHash(b) <==> a.transport == b.transport && a.remoteCalls == b.remoteCalls
  {}

  // ---------------------------------------------------------------- preflight

  /** What is sealed of a tool call: its peer, address and labels, the arguments, the data class, the
      outcome, and a request bound to all of these, the passport and the assessment. */
  lemma ToolTermsSay(config: Config, tool: Tool, arguments: Json, model: Option<string>, dataClass: DataClass,
                     assessment: Assessment, outcome: Outcome)
    ensures var p := NewTerms(config, ToolTarget(tool), arguments, model, dataClass, assessment, outcome);
            && p.kind == RemoteTool && p.peer == tool.peer && p.toolName == tool.uri && p.arguments == arguments && p.model == None
            && p.dataClass == dataClass && p.labels == tool.labels && p.inferenceRoute == None && p.outcome == outcome
            && p.binding == Binding(p.request) && p.route == RouteHash(config)
            && p.request.scope == config.scope && p.request.peer == tool.peer && p.request.service == tool.service && p.request.uri == tool.uri
            && p.request.schema == ToolSubject(tool.schema) && p.request.riskMetadata == ToolSubject(tool.riskMetadata)
            && p.request.passport == Digest(config.passport) && p.request.routeMode == Pinned && p.request.model == None
            && p.request.requiredLabels == config.passport.requiredLabels && p.request.boundary == Digest(arguments)
            && p.request.dataClass == dataClass && p.request.riskLevel == assessment.level && p.request.risk == AssessedRisk(Digest(assessment))
  {}

  /** Of an inference: the route found and its fingerprint, the model, and that it needs approval. */
  lemma RouteTermsSay(config: Config, route: InferenceRoute, arguments: Json, model: Option<string>, dataClass: DataClass,
                      assessment: Assessment, outcome: Outcome)
    ensures var p := NewTerms(config, RouteTarget(route), arguments, model, dataClass, assessment, outcome);
            && p.kind == Inference && p.peer == route.peer && p.toolName == "inference://" + route.service + "/chat/completions"
            && p.arguments == arguments && p.model == model && p.dataClass == dataClass && p.labels == []
            && p.inferenceRoute == Some(route) && p.outcome == NeedsApproval && p.binding == Binding(p.request) && p.route == RouteHash(config)
            && p.request.scope == config.scope && p.request.peer == route.peer && p.request.service == route.service
            && p.request.uri == p.toolName && p.request.schema == RouteSubject(Digest(route)) && p.request.riskMetadata == RouteSubject(Digest(route))
            && p.request.passport == Digest(config.passport) && p.request.routeMode == Pinned && p.request.model == model
            && p.request.requiredLabels == config.passport.requiredLabels && p.request.boundary == Digest(arguments)
            && p.request.dataClass == dataClass && p.request.riskLevel == Network && p.request.risk == InferenceRisk
  {}

  lemma SealedRow(h: R.History, key: nat, chat: Scope, token: Token, p: Payload, bytes: nat, now: int)
    requires R.Commits(h.tables, R.Create(key, chat, token, p, bytes, now))
    ensures var n := R.Next(h, R.Create(key, chat, token, p, bytes, now));
            && n.issued == h.issued[token := chat] && token in n.tables.decisions
            && n.tables.decisions[token] == Decision(chat, now + 300_000_000, false,
                                                     Sealed(key, chat, token, p.(expiresUs := now + 300_000_000)))
  {}

  /** The creation that the preflight asks of the store. */
  function Creation(s: System, e: Event): R.Call
    requires e.Preflight?
  {
    R.Create(e.key, e.config.scope, e.token, Payload(AskedBy(e).Terms(), None, s.clock + 300_000_000), e.bytes, s.clock)
  }

  lemma PreflightStep(s: System, e: Event)
    requires e.Preflight?
    ensures Step(s, e) ==
            if e.token !in s.store.issued && R.Commits(s.store.tables, Creation(s, e))
            then s.(store := R.Next(s.store, Creation(s, e)),
                    created := s.created[e.token := Origin(Creation(s, e).payload, s.clock, AskedBy(e))])
            else s
  {
    assert PreflightCall(s, e) == Creation(s, e);
  }

  /** A preflight with a new identifier that the store takes leaves the decision of its chat, unspent and
      unapproved, open for 300 seconds, with the terms it was asked; any other leaves nothing. */
  lemma PreflightOutcome(s: System, e: Event)
    requires e.Preflight?
    ensures var n, p := Step(s, e), Payload(AskedBy(e).Terms(), None, s.clock + 300_000_000);
            if e.token !in s.store.issued && R.Commits(s.store.tables, R.Create(e.key, e.config.scope, e.token, p, e.bytes, s.clock))
            then && n == s.(store := n.store, created := s.created[e.token := Origin(p, s.clock, AskedBy(e))])
                 && n.store.issued == s.store.issued[e.token := e.config.scope] && e.token in n.store.tables.decisions
                 && n.store.tables.decisions[e.token] == Decision(e.config.scope, s.clock + 300_000_000, false,
                                                                  Sealed(e.key, e.config.scope, e.token, p))
            else n == s
  {
    PreflightStep(s, e);
    if R.Commits(s.store.tables, Creation(s, e)) {
      SealedRow(s.store, e.key, e.config.scope, e.token, Creation(s, e).payload, e.bytes, s.clock);
    }
  }

  /** A tool invocation starts only while the profile is not stopped; an inference only in its own chat. */
  lemma BeginOutcome(s: System, w: nat, kind: Kind, id: Id, home: Scope, scope: Scope)
    requires w !in s.workers
    ensures var n := Step(s, Begin(w, kind, id, home, scope));
            if (if kind.RemoteTool? then !ControlOf(s.store.tables, scope.Owner()).stopped else scope == home)
            then GoesOn(s, n, w, Begun(kind, id, home, scope)) else n == s
  {}

  // ---------------------------------------------------------------- load and observation

  /** What a loaded payload says is what the preflight was asked. */
  lemma WorkerIsAsked(s: System, w: nat)
    requires Inv(s) && w in s.workers && (s.workers[w].Loaded? || s.workers[w].Observed? || s.workers[w].Reviewing?)
    ensures var x := s.workers[w];
            && x.id in s.created && x.payload.terms == s.created[x.id].asked.Terms()
            && s.created[x.id].payload.terms == x.payload.terms
            && (x.Observed? ==> x.target.RouteTarget? == x.kind.Inference?)
  {
    assert WorkerOk(s, s.workers[w]) && OriginOk(s, s.workers[w].id);
  }

  lemma StoredIsAsked(s: System, key: nat, scope: Scope, id: Id)
    requires Inv(s) && LookUp(s.store.tables, key, scope, id, s.clock).Ok?
    ensures var p := LookUp(s.store.tables, key, scope, id, s.clock).value;
            id in s.created && p.terms == s.created[id].asked.Terms() && s.created[id].asked.config.scope == scope
  {
    assert RowOk(s, id) && OriginOk(s, id) && R.DecisionsOwned(s.store);
  }

  lemma LoadStep(s: System, w: nat, key: nat)
    requires w in s.workers && s.workers[w].Begun?
    ensures var Begun(kind, id, home, scope) := s.workers[w];
            var found := LookUp(s.store.tables, key, scope, id, s.clock);
            var n := Step(s, LoadRow(w, key));
            if found.Ok? && (kind.Inference? ==> found.value.terms.kind.Inference? && found.value.leaseId.Some?)
            then GoesOn(s, n, w, Loaded(kind, id, home, scope, found.value)) else Quits(s, n, w)
  {}

  /** A decision that can be loaded goes on; for an inference it must be an inference, and approved. */
  lemma LoadOutcome(s: System, w: nat, key: nat)
    requires Inv(s) && w in s.workers && s.workers[w].Begun?
    ensures var Begun(kind, id, home, scope) := s.workers[w];
            var found := LookUp(s.store.tables, key, scope, id, s.clock);
            var n := Step(s, LoadRow(w, key));
            && (found.Ok? ==> id in s.created)
            && if found.Ok? && (kind.Inference? ==> s.created[id].asked.target.RouteTarget? && found.value.leaseId.Some?)
               then GoesOn(s, n, w, Loaded(kind, id, home, scope, found.value)) else Quits(s, n, w)
  {
    var Begun(kind, id, home, scope) := s.workers[w];
    LoadStep(s, w, key);
    if LookUp(s.store.tables, key, scope, id, s.clock).Ok? { StoredIsAsked(s, key, scope, id); }
  }

  lemma ObserveToolStep(s: System, w: nat, seen: Option<Target>)
    requires w in s.workers && s.workers[w].Loaded? && s.workers[w].kind.RemoteTool?
    ensures var Loaded(kind, id, home, scope, p) := s.workers[w];
            var n := Step(s, Observe(w, seen));
            if seen.Some? && seen.value.ToolTarget? && SameTool(seen.value.tool, p.terms)
            then GoesOn(s, n, w, Observed(kind, id, home, p, seen.value)) else Spends(s, n, w, scope, id)
  {}

  /** A tool goes on exactly if it is described as the preflight saw it, labels included. */
  lemma ObserveToolOutcome(s: System, w: nat, seen: Option<Target>)
    requires Inv(s) && w in s.workers && s.workers[w].Loaded? && s.workers[w].kind.RemoteTool?
    ensures var Loaded(kind, id, home, scope, p) := s.workers[w];
            var n := Step(s, Observe(w, seen));
            && id in s.created
            && if seen.Some? && seen.value.ToolTarget? && seen.value == s.created[id].asked.target
               then GoesOn(s, n, w, Observed(kind, id, home, p, seen.value)) else Spends(s, n, w, scope, id)
  {
    WorkerIsAsked(s, w);
    ObserveToolStep(s, w, seen);
    if seen.Some? && seen.value.ToolTarget? { SameToolIff(s.created[s.workers[w].id].asked, seen.value.tool); }
  }

  lemma SameToolIff(a: Asked, tool: Tool)
    ensures SameTool(tool, a.Terms()) <==> a.target == ToolTarget(tool)
  {
    if a.target.ToolTarget? {
      var x := a.target.tool;
      assert x == tool <==> x.peer == tool.peer && x.service == tool.service && x.uri == tool.uri && x.schema == tool.schema
                            && x.riskMetadata == tool.riskMetadata && x.labels == tool.labels;
    }
  }

  /** A route that was found goes on - it is compared when the request is rebuilt. */
  lemma ObserveRouteOutcome(s: System, w: nat, seen: Option<Target>)
    requires w in s.workers && s.workers[w].Loaded? && s.workers[w].kind.Inference?
    ensures var Loaded(kind, id, home, scope, p) := s.workers[w];
            var n := Step(s, Observe(w, seen));
            if ControlOf(s.store.tables, home.Owner()).stopped then Quits(s, n, w)
            else if seen.Some? && seen.value.RouteTarget? then GoesOn(s, n, w, Observed(kind, id, home, p, seen.value))
            else Spends(s, n, w, scope, id)
  {}

  // ---------------------------------------------------------------- the recheck

  /** Configuration, target and assessment are what the preflight was asked with. */
  ghost predicate SameBoundary(a: Asked, home: Scope, config: Config, target: Target, assessment: Assessment) {
    && config.scope == home && SameConfig(config, a.config) && target == a.target
    && (a.target.ToolTarget? ==> assessment == a.assessment)
  }

  lemma ToolBoundaryIff(a: Asked, home: Scope, config: Config, tool: Tool, assessment: Assessment)
    ensures var p := a.Terms();
            (config.scope == home && RouteHash(config) == p.route && Digest(config.passport) == p.request.passport
             && Binding(Request(config, ToolTarget(tool), p.arguments, p.model, p.dataClass, assessment)) == p.binding
             && tool.labels == p.labels)
            <==> SameBoundary(a, home, config, ToolTarget(tool), assessment)
  {
    RouteHashIsFaithful(config, a.config);
    if a.target.ToolTarget? {
      var x := a.target.tool;
      assert x == tool <==> x.peer == tool.peer && x.service == tool.service && x.uri == tool.uri && x.schema == tool.schema
                            && x.riskMetadata == tool.riskMetadata && x.labels == tool.labels;
    }
  }

  lemma RouteBoundaryIff(a: Asked, home: Scope, config: Config, route: InferenceRoute, assessment: Assessment)
    ensures var p := a.Terms();
            (config.scope == home && RouteHash(config) == p.route
             && Binding(Request(config, RouteTarget(route), p.arguments, p.model, p.dataClass, assessment)) == p.binding)
            <==> SameBoundary(a, home, config, RouteTarget(route), assessment)
  {
    RouteHashIsFaithful(config, a.config);
  }

  /** A changed boundary spends the decision; on an unchanged one the tool call goes on exactly if it is
      permitted, its profile not stopped, neither verdict a denial, and a lease there if one is asked
      for now. It needs that lease if approval or a single-use risk asks for it. */
  lemma RecheckToolOutcome(s: System, w: nat, config: Config, permitted: bool, policy: Outcome, assessment: Assessment)
    requires Inv(s) && w in s.workers && s.workers[w].Observed? && s.workers[w].kind.RemoteTool?
    ensures var Observed(_, id, home, p, target) := s.workers[w];
            var n := Step(s, Rebuild(w, config, permitted, policy, assessment));
            && id in s.created
            && var a := s.created[id].asked;
            && if !SameBoundary(a, home, config, target, assessment) then Spends(s, n, w, home, id)
               else if permitted && !ControlOf(s.store.tables, config.scope.Owner()).stopped && !policy.Deny? && !a.outcome.Deny?
                       && (policy.NeedsApproval? ==> p.leaseId.Some?)
               then GoesOn(s, n, w, Ready(id, Call(config, target, p, assessment, policy.NeedsApproval? || assessment.singleUse)))
               else Quits(s, n, w)
  {
    WorkerIsAsked(s, w);
    var Observed(_, id, home, p, target) := s.workers[w];
    ToolBoundaryIff(s.created[id].asked, home, config, target.tool, assessment);
    RebuiltTool(s, w, s.created[id].asked, config, permitted, policy, assessment);
  }

  lemma RebuiltTool(s: System, w: nat, a: Asked, config: Config, permitted: bool, policy: Outcome, assessment: Assessment)
    requires w in s.workers && s.workers[w].Observed? && s.workers[w].kind.RemoteTool? && s.workers[w].target.ToolTarget?
    requires s.workers[w].payload.terms == a.Terms()
    requires var Observed(_, id, home, p, target) := s.workers[w];
             (config.scope == home && RouteHash(config) == p.terms.route && Digest(config.passport) == p.terms.request.passport
              && Binding(Request(config, target, p.terms.arguments, p.terms.model, p.terms.dataClass, assessment)) == p.terms.binding
              && target.tool.labels == p.terms.labels)
             <==> SameBoundary(a, home, config, target, assessment)
    ensures var Observed(_, id, home, p, target) := s.workers[w];
            var n := Step(s, Rebuild(w, config, permitted, policy, assessment));
            if !SameBoundary(a, home, config, target, assessment) then Spends(s, n, w, home, id)
            else if permitted && !ControlOf(s.store.tables, config.scope.Owner()).stopped && !policy.Deny? && !a.outcome.Deny?
                    && (policy.NeedsApproval? ==> p.leaseId.Some?)
            then GoesOn(s, n, w, Ready(id, Call(config, target, p, assessment, policy.NeedsApproval? || assessment.singleUse)))
            else Quits(s, n, w)
  {}

  lemma RebuiltRoute(s: System, w: nat, a: Asked, config: Config, permitted: bool, policy: Outcome, assessment: Assessment)
    requires w in s.workers && s.workers[w].Observed? && s.workers[w].kind.Inference?
    requires var Observed(_, id, home, p, target) := s.workers[w];
             (config.scope == home && RouteHash(config) == p.terms.route
              && Binding(Request(config, target, p.terms.arguments, p.terms.model, p.terms.dataClass, assessment)) == p.terms.binding)
             <==> SameBoundary(a, home, config, target, assessment)
    ensures var Observed(_, id, home, p, target) := s.workers[w];
            var n := Step(s, Rebuild(w, config, permitted, policy, assessment));
            if !permitted || ControlOf(s.store.tables, config.scope.Owner()).stopped then Quits(s, n, w)
            else if !SameBoundary(a, home, config, target, assessment) then Spends(s, n, w, home, id)
            else GoesOn(s, n, w, Ready(id, Call(config, target, p, assessment, true)))
  {}

  /** An inference that is not permitted any more is refused before the boundary is compared. */
  lemma RecheckRouteOutcome(s: System, w: nat, config: Config, permitted: bool, policy: Outcome, assessment: Assessment)
    requires Inv(s) && w in s.workers && s.workers[w].Observed? && s.workers[w].kind.Inference?
    ensures var Observed(_, id, home, p, target) := s.workers[w];
            var n := Step(s, Rebuild(w, config, permitted, policy, assessment));
            && id in s.created
            && if !permitted || ControlOf(s.store.tables, config.scope.Owner()).stopped then Quits(s, n, w)
               else if !SameBoundary(s.created[id].asked, home, config, target, assessment) then Spends(s, n, w, home, id)
               else GoesOn(s, n, w, Ready(id, Call(config, target, p, assessment, true)))
  {
    WorkerIsAsked(s, w);
    var Observed(_, id, home, p, target) := s.workers[w];
    RouteBoundaryIff(s.created[id].asked, home, config, target.route, assessment);
    RebuiltRoute(s, w, s.created[id].asked, config, permitted, policy, assessment);
  }

  // ---------------------------------------------------------------- claim and admission

  lemma ClaimOnTables(t: Tables, key: nat, chat: Scope, id: Id, limit: int, p: Payload, now: int)
    ensures var session := SessionOf(t, chat);
            var c := R.Claim(key, chat, id, limit, p, now);
            && (R.Commits(t, c) <==> LookUp(t, key, chat, id, now) == Ok(p) && !session.disabled && session.active.None?
                                     && 0 <= session.calls < limit)
            && (R.Commits(t, c) ==>
                  && id in R.After(t, c).decisions && R.After(t, c).decisions[id].used
                  && SessionOf(R.After(t, c), chat) == Session(session.calls + 1, false, Some(id)))
  {}

  lemma NextTables(h: R.History, c: R.Call)
    ensures R.Next(h, c).tables == R.After(h.tables, c)
  {}

  lemma ClaimStep(s: System, w: nat, key: nat)
    requires w in s.workers && s.workers[w].Ready?
    ensures var Ready(id, call) := s.workers[w];
            var chat := call.config.scope;
            var c := R.Claim(key, chat, id, call.config.passport.callsPerSession, call.payload, s.clock);
            Step(s, Claim(w, key)) ==
              if R.Commits(s.store.tables, c)
              then s.(store := R.Next(s.store, c), workers := s.workers[w := Live(id, chat, Some(call), 1)],
                      log := s.log + [Mark(id, chat, Claimed, s.clock, Some(call))])
              else s.(workers := s.workers - {w})
  {}

  /** The claim goes live exactly if the very payload checked is still stored, unspent and unexpired, the
      chat is enabled with its slot free, and the passport has a call left. */
  lemma ClaimOutcome(s: System, w: nat, key: nat)
    requires w in s.workers && s.workers[w].Ready?
    ensures var Ready(id, call) := s.workers[w];
            var chat := call.config.scope;
            var session := SessionOf(s.store.tables, chat);
            var n := Step(s, Claim(w, key));
            if LookUp(s.store.tables, key, chat, id, s.clock) == Ok(call.payload) && !session.disabled && session.active.None?
               && 0 <= session.calls < call.config.passport.callsPerSession
            then && n.workers == s.workers[w := Live(id, chat, Some(call), 1)]
                 && id in n.store.tables.decisions && n.store.tables.decisions[id].used
                 && SessionOf(n.store.tables, chat) == Session(session.calls + 1, false, Some(id))
                 && n.log == s.log + [Mark(id, chat, Claimed, s.clock, Some(call))]
            else Quits(s, n, w)
  {
    var Ready(id, call) := s.workers[w];
    ClaimStep(s, w, key);
    NextTables(s.store, R.Claim(key, call.config.scope, id, call.config.passport.callsPerSession, call.payload, s.clock));
    ClaimOnTables(s.store.tables, key, call.config.scope, id, call.config.passport.callsPerSession, call.payload, s.clock);
  }

  lemma ConsumeOnTable(leases: L.Rows, lease: Id, request: LeaseRequest, now: int)
    ensures var x := L.Consume(leases, lease, request, now);
            if Consumable(leases, lease, request, now)
            then x.1.Allowed() && x.0 == leases[lease := leases[lease].(useCount := leases[lease].useCount + 1)]
            else !x.1.Allowed() && x.0 == leases
  {}

  /** The lease is stored and sound, live, for this request, unexpired and not used up. */
  predicate Consumable(leases: L.Rows, lease: Id, request: LeaseRequest, now: int) {
    && lease in leases && lease != "" && L.ValidRow(leases[lease], request)
    && !leases[lease].revoked && leases[lease].binding.request == request && now < leases[lease].expiresUs
    && leases[lease].useCount < leases[lease].maxUses
  }

  /** The invocation goes on exactly if its own lease can be consumed for what it is about to send; the
      lease then has one use more, and is spent on this invocation. */
  lemma ConsumeOutcome(s: System, w: nat, available: bool)
    requires w in s.workers && s.workers[w].Live? && s.workers[w].invocation.Some?
    requires var x := s.workers[w]; x.done < |Path(x.invocation)| && Path(x.invocation)[x.done].Consumed?
    ensures var Live(id, chat, call, done) := s.workers[w];
            var lease, n := call.value.payload.leaseId, Step(s, Advance(w, available));
            if lease.Some? && Consumable(s.leases, lease.value, call.value.Rebuilt(), s.clock)
            then n == s.(workers := s.workers[w := Live(id, chat, call, done + 1)],
                         leases := s.leases[lease.value := s.leases[lease.value].(useCount := s.leases[lease.value].useCount + 1)],
                         spentOn := s.spentOn[lease.value := id],
                         log := s.log + [Mark(id, chat, Stage.Consumed, s.clock, call)])
            else GoesOn(s, n, w, Ending(id, chat))
  {
    var x := s.workers[w];
    assert Step(s, Advance(w, available)) == OnConsume(s, w);
    if x.invocation.value.payload.leaseId.Some? {
      ConsumeOnTable(s.leases, x.invocation.value.payload.leaseId.value, x.invocation.value.Rebuilt(), s.clock);
    }
  }

  /** It goes on exactly if the audit store takes the record of its dispatch, and then it is there. */
  lemma AuditOutcome(s: System, w: nat, available: bool)
    requires w in s.workers && s.workers[w].Live?
    requires var x := s.workers[w]; x.done < |Path(x.invocation)| && Path(x.invocation)[x.done].Audited?
    ensures var Live(id, chat, call, done) := s.workers[w];
            var taken := Appended(s.codec, s.audit, chat, "dispatch" + ":" + id, s.clock);
            var n := Step(s, Advance(w, available));
            if available && taken.Some?
            then n == s.(workers := s.workers[w := Live(id, chat, call, done + 1)], audit := taken.value,
                         log := s.log + [Mark(id, chat, Audited, s.clock, call)])
            else GoesOn(s, n, w, Ending(id, chat))
  {
    assert Step(s, Advance(w, available)) == OnAudit(s, w, available);
  }

  lemma AdmitOnTables(t: Tables, chat: Scope, id: Id, p: Payload, now: int)
    ensures var c := R.Admit(chat, id, p, now);
            && (R.Commits(t, c) <==> now < p.expiresUs && !ControlOf(t, chat.Owner()).stopped && ValidId(id)
                                     && SessionOf(t, chat).active == Some(id) && id !in t.admissions)
            && (R.Commits(t, c) ==>
                  R.After(t, c).admissions == t.admissions[id := Admission(chat.Owner(), ControlOf(t, chat.Owner()).generation)])
  {}

  /** The admission is made exactly if it is still in time, the profile is not stopped, and the chat's
      slot is this invocation's and not admitted yet. */
  lemma AdmitOutcome(s: System, w: nat)
    requires w in s.workers && s.workers[w].Live? && s.workers[w].invocation.Some?
    requires var x := s.workers[w]; x.done < |Path(x.invocation)| && Path(x.invocation)[x.done].Admitted?
    ensures var Live(id, chat, call, done) := s.workers[w];
            var t := s.store.tables;
            var n := Step(s, Advance(w, true));
            if s.clock < call.value.payload.expiresUs && !ControlOf(t, chat.Owner()).stopped && ValidId(id)
               && SessionOf(t, chat).active == Some(id) && id !in t.admissions
            then && n.workers == s.workers[w := Live(id, chat, call, done + 1)]
                 && n.store.tables.admissions == t.admissions[id := Admission(chat.Owner(), ControlOf(t, chat.Owner()).generation)]
                 && n.log == s.log + [Mark(id, chat, Admitted, s.clock, call)]
            else GoesOn(s, n, w, Ending(id, chat))
  {
    var x := s.workers[w];
    AdmitOnTables(s.store.tables, x.scope, x.id, x.invocation.value.payload, s.clock);
    assert Step(s, Advance(w, true)) == OnAdmit(s, w);
  }

  lemma NativeOnTables(t: Tables, chat: Scope, id: Token, limit: int)
    ensures var c := R.BeginNative(chat, id, limit);
            && (R.Commits(t, c) <==> !ControlOf(t, chat.Owner()).stopped && SessionOf(t, chat).active.None?
                                     && 0 <= SessionOf(t, chat).calls < limit && id !in t.admissions)
            && (R.Commits(t, c) ==>
                  && SessionOf(R.After(t, c), chat) == SessionOf(t, chat).(calls := SessionOf(t, chat).calls + 1, active := Some(id))
                  && R.After(t, c).admissions
                     == t.admissions[id := Admission(chat.Owner(), ControlOf(t, chat.Owner()).generation)])
  {}

  lemma NativeStep(s: System, w: nat, chat: Scope, id: Token, limit: int)
    requires w !in s.workers
    ensures var c := R.BeginNative(chat, id, limit);
            Step(s, BeginNative(w, chat, id, limit)) ==
              if id !in s.store.issued && R.Commits(s.store.tables, c)
              then s.(store := R.Next(s.store, c), workers := s.workers[w := Live(id, chat, None, 1)],
                      log := s.log + [Mark(id, chat, Admitted, s.clock, None)])
              else s
  {}

  /** A native call starts exactly if its identifier is new, the profile is not stopped, and its chat has
      the slot free and a call left. */
  lemma NativeOutcome(s: System, w: nat, chat: Scope, id: Token, limit: int)
    requires w !in s.workers
    ensures var t := s.store.tables;
            var n := Step(s, BeginNative(w, chat, id, limit));
            if id !in s.store.issued && !ControlOf(t, chat.Owner()).stopped && SessionOf(t, chat).active.None?
               && 0 <= SessionOf(t, chat).calls < limit && id !in t.admissions
            then && n.workers == s.workers[w := Live(id, chat, None, 1)]
                 && SessionOf(n.store.tables, chat) == SessionOf(t, chat).(calls := SessionOf(t, chat).calls + 1, active := Some(id))
                 && n.store.tables.admissions == t.admissions[id := Admission(chat.Owner(), ControlOf(t, chat.Owner()).generation)]
            else n == s
  {
    NativeStep(s, w, chat, id, limit);
    NextTables(s.store, R.BeginNative(chat, id, limit));
    NativeOnTables(s.store.tables, chat, id, limit);
  }

  // ---------------------------------------------------------------- approval

  lemma ReviewStep(s: System, w: nat, kind: Kind, a: Asked, id: Id, config: Config, key: nat)
    requires w !in s.workers
    requires var found := LookUp(s.store.tables, key, config.scope, id, s.clock);
             found.Ok? ==> found.value.terms == a.Terms() && a.config.scope == config.scope
    requires RouteHash(config) == RouteHash(a.config) <==> config.transport == a.config.transport && config.remoteCalls == a.config.remoteCalls
    ensures var found := LookUp(s.store.tables, key, config.scope, id, s.clock);
            var n := Step(s, Review(w, kind, id, config, key));
            if found.Ok? && found.value.leaseId.None? && !ControlOf(s.store.tables, config.scope.Owner()).stopped
               && SameConfig(config, a.config) && (a.target.ToolTarget? ==> kind.RemoteTool? && a.outcome.NeedsApproval?)
            then GoesOn(s, n, w, Reviewing(id, config.scope, found.value, config.passport.approvalLeaseMinutes))
            else n == s
  {}

  /** A decision is taken up for approval exactly if it is loadable, unapproved and open to approval, its
      profile not stopped, and passport and route are those of the preflight. */
  lemma ReviewOutcome(s: System, w: nat, kind: Kind, id: Id, config: Config, key: nat)
    requires Inv(s) && w !in s.workers
    ensures var found := LookUp(s.store.tables, key, config.scope, id, s.clock);
            var n := Step(s, Review(w, kind, id, config, key));
            && (found.Ok? ==> id in s.created)
            && if found.Ok? && found.value.leaseId.None? && !ControlOf(s.store.tables, config.scope.Owner()).stopped
                  && SameConfig(config, s.created[id].asked.config)
                  && (s.created[id].asked.target.ToolTarget? ==> kind.RemoteTool? && s.created[id].asked.outcome.NeedsApproval?)
               then GoesOn(s, n, w, Reviewing(id, config.scope, found.value, config.passport.approvalLeaseMinutes))
               else n == s
  {
    if LookUp(s.store.tables, key, config.scope, id, s.clock).Ok? {
      StoredIsAsked(s, key, config.scope, id);
      RouteHashIsFaithful(config, s.created[id].asked.config);
      ReviewStep(s, w, kind, s.created[id].asked, id, config, key);
    } else {
      ReviewNotFound(s, w, kind, id, config, key);
    }
  }

  lemma ReviewNotFound(s: System, w: nat, kind: Kind, id: Id, config: Config, key: nat)
    requires w !in s.workers && LookUp(s.store.tables, key, config.scope, id, s.clock).Err?
    ensures Step(s, Review(w, kind, id, config, key)) == s
  {}

  /** The lease for a request, as asked for by a preflight and granted for so many minutes. */
  ghost predicate GrantedLease(before: L.Rows, after: L.Rows, lease: Id, a: Asked, minutes: int, now: int) {
    && lease in after && after.Keys == before.Keys + {lease}
    && (forall l :: l in before ==> after[l] == before[l])
    && var row := after[lease];
    && row.binding == a.Terms().binding && row.scope == a.config.scope
    && row.expiresUs == now + (if minutes < 5 then 60 * minutes else 300) * 1_000_000
    && row.maxUses == 1 && row.useCount == 0 && !row.revoked
  }

  lemma IssueOnTable(leases: L.Rows, a: Asked, minutes: int, lease: Token, approver: Option<string>, now: int)
    ensures var x := L.Issue(leases, lease, a.Terms().binding.request, Min(MAX_LEASE_SECONDS, minutes * 60), 1, approver, now);
            if 1 <= minutes && lease !in leases && (approver.Some? ==> 1 <= |approver.value| <= 4_096)
            then x.1.None? && GrantedLease(leases, x.0, lease, a, minutes, now) else x.1.Some?
  {}

  lemma IssueStep(s: System, w: nat, a: Asked, lease: Token, approver: Option<string>)
    requires w in s.workers && s.workers[w].Reviewing? && s.workers[w].payload.terms == a.Terms()
    ensures var Reviewing(id, chat, p, minutes) := s.workers[w];
            var n := Step(s, IssueLease(w, lease, approver));
            if 1 <= minutes && lease !in s.leases && (approver.Some? ==> 1 <= |approver.value| <= 4_096)
            then && n.workers == s.workers[w := Approved(id, chat, p.(leaseId := Some(lease)))]
                 && GrantedLease(s.leases, n.leases, lease, a, minutes, s.clock)
            else Quits(s, n, w)
  {
    IssueOnTable(s.leases, a, s.workers[w].minutes, lease, approver, s.clock);
  }

  /** The lease is for the sealed request, for one use, and for five minutes or what the passport says if
      that is less; none is issued if that is under a minute. */
  lemma IssueOutcome(s: System, w: nat, lease: Token, approver: Option<string>)
    requires Inv(s) && w in s.workers && s.workers[w].Reviewing?
    ensures var Reviewing(id, chat, p, minutes) := s.workers[w];
            var n := Step(s, IssueLease(w, lease, approver));
            && id in s.created
            && if 1 <= minutes && lease !in s.leases && (approver.Some? ==> 1 <= |approver.value| <= 4_096)
               then && n.workers == s.workers[w := Approved(id, chat, p.(leaseId := Some(lease)))]
                    && GrantedLease(s.leases, n.leases, lease, s.created[id].asked, minutes, s.clock)
               else Quits(s, n, w)
  {
    WorkerIsAsked(s, w);
    IssueStep(s, w, s.created[s.workers[w].id].asked, lease, approver);
  }

  /** The approval is stored under the expiry of the decision, or the lease is lost with the worker. */
  lemma RecordOutcome(s: System, w: nat, key: nat, bytes: nat)
    requires w in s.workers && s.workers[w].Approved?
    ensures var Approved(id, chat, p) := s.workers[w];
            var t := s.store.tables;
            var n := Step(s, Record(w, key, bytes));
            if LookUp(t, key, chat, id, s.clock).Ok? && bytes <= 131_072
            then && n.workers == s.workers - {w} && n.leases == s.leases && id in t.decisions
                 && n.store.tables.decisions == t.decisions[id := t.decisions[id].(blob := Sealed(key, chat, id, p))]
            else Quits(s, n, w)
  {}

  // ---------------------------------------------------------------- around the workers

  /** Stops, resumes, invalidations and reads go to the store as they are; operators do nothing else to it. */
  lemma OperatorOutcome(s: System, c: R.Call)
    ensures Step(s, Event.Control(c)) ==
            if c.RevokeScope? || c.ResumeScope? || c.Invalidate? || c.Disabled? || c.Load? then s.(store := R.Next(s.store, c)) else s
  {}

  /** A revocation reaches the lease table, the clock moves on, a worker that dies is gone, and an event is
      in the audit store if that takes it. */
  lemma SurroundingsOutcome(s: System, scope: Scope, wholeProfile: bool, d: nat, w: nat, event: string)
    ensures Step(s, RevokeLeases(scope, wholeProfile)) == s.(leases := L.Revoke(s.leases, scope, wholeProfile, s.clock).0)
    ensures Step(s, Tick(d)) == s.(clock := s.clock + d) && Quits(s, Step(s, Vanish(w)), w)
    ensures var taken := Appended(s.codec, s.audit, scope, event, s.clock);
            Step(s, Journal(scope, event)) == if taken.Some? then s.(audit := taken.value) else s
  {}
}
