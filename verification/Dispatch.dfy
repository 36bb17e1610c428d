/** The guarded-dispatch protocol: DelegationGate, InferenceGate and GovernedNativeModel as clients
    of the decision and lease stores.

    A step is one store transaction of one worker, or something that happens around the workers:
    the clock moves, an operator stops, resumes, invalidates or revokes leases, a worker dies.
    Configuration is read anew at every `resolve()`, so a step that reads it takes any
    configuration; so do observations of the remote side and policy verdicts.  `audit` is the audit
    store, scope by scope, each with the log it stands for.  `created`, `spentOn` and `log` are
    history: what each preflight sealed, the decision each lease was consumed for, and the protocol
    stages each invocation has completed. */
module Dispatch {
  import opened Domain
  import opened DecisionTables
  import R = DecisionRuns
  import L = LeaseTable
  import AuditChain
  import AuditLog

  // ---------------------------------------------------------------- what is bound

  datatype Target = ToolTarget(tool: Tool) | RouteTarget(route: InferenceRoute)

  function InferenceUri(service: string): string { "inference://" + service + "/chat/completions" }

  /** `binding` of the delegation gate, `_binding` of the inference gate. */
  function Request(config: Config, target: Target, arguments: Json, model: Option<string>,
                   dataClass: DataClass, assessment: Assessment): LeaseRequest
  {
    var passport := Digest(config.passport);
    match target
    case ToolTarget(tool) =>
      LeaseRequest(config.scope, tool.peer, tool.service, tool.uri, ToolSubject(tool.schema), ToolSubject(tool.riskMetadata),
                   passport, Pinned, None, config.passport.requiredLabels, Digest(arguments), dataClass,
                   assessment.level, AssessedRisk(Digest(assessment)))
    case RouteTarget(route) =>
      LeaseRequest(config.scope, route.peer, route.service, InferenceUri(route.service), RouteSubject(Digest(route)),
                   RouteSubject(Digest(route)), passport, Pinned, model, config.passport.requiredLabels,
                   Digest(arguments), dataClass, Network, InferenceRisk)
  }

  /** What a preflight fixes. */
  function NewTerms(config: Config, target: Target, arguments: Json, model: Option<string>,
                    dataClass: DataClass, assessment: Assessment, outcome: Outcome): Terms
  {
    var request := Request(config, target, arguments, model, dataClass, assessment);
    match target
    case ToolTarget(tool) =>
      Terms(RemoteTool, tool.peer, tool.uri, arguments, None, dataClass, Binding(request), RouteHash(config),
            tool.labels, None, outcome, request)
    case RouteTarget(route) =>
      Terms(Inference, route.peer, request.uri, arguments, model, dataClass, Binding(request), RouteHash(config),
            [], Some(route), NeedsApproval, request)
  }

  /** Everything a gate is about to send, and under which configuration it decided to. */
  datatype Call = Call(config: Config, target: Target, payload: Payload, assessment: Assessment, needsLease: bool) {
    /** The request rebuilt from configuration, observation and arguments. */
    function Rebuilt(): LeaseRequest {
      Request(config, target, payload.terms.arguments, payload.terms.model, payload.terms.dataClass, assessment)
    }
  }

  // ---------------------------------------------------------------- the system

  datatype Stage = Claimed | Consumed | Audited | Admitted | Called

  /** The stages of an invocation, in order; a native call has no decision to claim. */
  function Path(call: Option<Call>): seq<Stage> {
    match call
    case None => [Admitted, Audited, Called]
    case Some(c) => if c.needsLease then [Claimed, Consumed, Audited, Admitted, Called] else [Claimed, Audited, Admitted, Called]
  }

  datatype Mark = Mark(id: Id, scope: Scope, stage: Stage, at: int, call: Option<Call>)

  datatype Worker =
    | Begun(kind: Kind, id: Id, home: Scope, scope: Scope)
    | Loaded(kind: Kind, id: Id, home: Scope, scope: Scope, payload: Payload)
    | Observed(kind: Kind, id: Id, home: Scope, payload: Payload, target: Target)
    | Ready(id: Id, call: Call)
    | Live(id: Id, scope: Scope, invocation: Option<Call>, done: nat)
    | Ending(id: Id, scope: Scope)
    | Reviewing(id: Id, scope: Scope, payload: Payload, minutes: int)
    | Approved(id: Id, scope: Scope, payload: Payload)

  /** What a preflight was asked, and decided. */
  datatype Asked = Asked(config: Config, target: Target, arguments: Json, model: Option<string>, dataClass: DataClass,
                         assessment: Assessment, outcome: Outcome)
  {
    function Terms(): Terms { NewTerms(config, target, arguments, model, dataClass, assessment, outcome) }
  }

  /** What a preflight committed, when, and what it was asked. */
  datatype Origin = Origin(payload: Payload, at: int, asked: Asked)

  /** What the audit store holds of one scope, and every event ever appended to it. */
  datatype Trail = Trail(stored: AuditChain.Partition, entries: seq<AuditLog.Entry>)

  type Trails = map<Scope, Trail>

  function TrailOf(audit: Trails, scope: Scope): Trail {
    if scope in audit then audit[scope] else Trail(AuditLog.NOTHING, [])
  }

  /** The audit store appends the event, or its state does not validate. The cache of earlier
      validations does not enter: it never changes the verdict. */
  function Appended(codec: AuditChain.Codec, audit: Trails, scope: Scope, event: string, now: int): Option<Trails> {
    var t := TrailOf(audit, scope);
    var q := AuditChain.Append(codec, scope, t.stored, map[], event, now);
    if q.None? then None else Some(audit[scope := Trail(q.value, t.entries + [AuditLog.Entry(event, now)])])
  }

  /** What is written about an invocation. */
  function AuditText(what: string, id: Id): string { what + ":" + id }

  function DispatchText(id: Id): string { AuditText("dispatch", id) }

  datatype System = System(store: R.History, leases: L.Rows, clock: int, workers: map<nat, Worker>,
                           codec: AuditChain.Codec, audit: Trails,
                           created: map<Id, Origin>, spentOn: map<Id, Id>, log: seq<Mark>)

  datatype Event =
    | Tick(d: nat)
    | Preflight(token: Token, key: nat, bytes: nat, config: Config, target: Target, arguments: Json,
                model: Option<string>, dataClass: DataClass, assessment: Assessment, outcome: Outcome)
    | Control(c: R.Call)
    | RevokeLeases(scope: Scope, wholeProfile: bool)
    | Begin(w: nat, kind: Kind, id: Id, home: Scope, scope: Scope)
    | LoadRow(w: nat, key: nat)
    | Observe(w: nat, seen: Option<Target>)
    | Rebuild(w: nat, config: Config, permitted: bool, policy: Outcome, assessment: Assessment)
    | Claim(w: nat, key: nat)
    | Advance(w: nat, available: bool)
    | Finish(w: nat, stored: bool)
    | Vanish(w: nat)
    | Review(w: nat, kind: Kind, id: Id, config: Config, key: nat)
    | IssueLease(w: nat, lease: Token, approver: Option<string>)
    | Record(w: nat, key: nat, bytes: nat)
    | BeginNative(w: nat, scope: Scope, token: Token, limit: int)
    | Journal(scope: Scope, event: string)

  predicate Commits(s: System, c: R.Call) { R.Commits(s.store.tables, c) }

  function Do(s: System, c: R.Call): System { s.(store := R.Next(s.store, c)) }

  function Put(s: System, w: nat, x: Worker): System { s.(workers := s.workers[w := x]) }

  function Drop(s: System, w: nat): System { s.(workers := s.workers - {w}) }

  function Note(s: System, id: Id, scope: Scope, stage: Stage, call: Option<Call>): System {
    s.(log := s.log + [Mark(id, scope, stage, s.clock, call)])
  }

  predicate Stopped(s: System, scope: Scope) { ControlOf(s.store.tables, scope.Owner()).stopped }

  /** A changed boundary spends the decision before the worker gives up. */
  function Reject(s: System, w: nat, scope: Scope, id: Id): System { Drop(Do(s, R.Invalidate(scope, id)), w) }

  /** Tool identity, schema and risk metadata still as the preflight observed them. */
  predicate SameTool(tool: Tool, p: Terms) {
    && ToolSubject(tool.schema) == p.request.schema && ToolSubject(tool.riskMetadata) == p.request.riskMetadata
    && tool.peer == p.request.peer && tool.service == p.request.service && tool.uri == p.request.uri
    && tool.labels == p.labels
  }

  function OnObserve(s: System, w: nat, seen: Option<Target>): System
    requires w in s.workers && s.workers[w].Loaded?
  {
    var x := s.workers[w];
    match x.kind
    case RemoteTool =>
      if seen.Some? && seen.value.ToolTarget? && SameTool(seen.value.tool, x.payload.terms)
      then Put(s, w, Observed(x.kind, x.id, x.home, x.payload, seen.value))
      else Reject(s, w, x.scope, x.id)
    case Inference =>
      if Stopped(s, x.home) then Drop(s, w)
      else if seen.Some? && seen.value.RouteTarget?
      then Put(s, w, Observed(x.kind, x.id, x.home, x.payload, seen.value))
      else Reject(s, w, x.scope, x.id)
  }

  /** A dispatch is invalidated, refused, or ready with the call it rebuilt. */
  datatype Recheck = Invalid | Refused | Passed(call: Call)

  function Rechecked(x: Worker, stopped: bool, config: Config, permitted: bool, policy: Outcome, assessment: Assessment): Recheck
    requires x.Observed?
  {
    var p := x.payload.terms;
    var request := Request(config, x.target, p.arguments, p.model, p.dataClass, assessment);
    match x.kind
    case RemoteTool =>
      if config.scope != x.home || RouteHash(config) != p.route || Digest(config.passport) != p.request.passport
         || Binding(request) != p.binding || !x.target.ToolTarget? || x.target.tool.labels != p.labels
      then Invalid
      else if !permitted || stopped || policy.Deny? || p.outcome.Deny? then Refused
      else if policy.NeedsApproval? && x.payload.leaseId.None? then Refused
      else Passed(Call(config, x.target, x.payload, assessment, policy.NeedsApproval? || assessment.singleUse))
    case Inference =>
      if !permitted || stopped then Refused
      else if config.scope != x.home || Binding(request) != p.binding || RouteHash(config) != p.route then Invalid
      else Passed(Call(config, x.target, x.payload, assessment, true))
  }

  function OnRebuild(s: System, w: nat, config: Config, permitted: bool, policy: Outcome, assessment: Assessment): System
    requires w in s.workers && s.workers[w].Observed?
  {
    var x := s.workers[w];
    match Rechecked(x, Stopped(s, config.scope), config, permitted, policy, assessment)
    case Invalid => Reject(s, w, x.home, x.id)
    case Refused => Drop(s, w)
    case Passed(call) => Put(s, w, Ready(x.id, call))
  }

  function OnClaim(s: System, w: nat, key: nat): System
    requires w in s.workers && s.workers[w].Ready?
  {
    var Ready(id, call) := s.workers[w];
    var scope := call.config.scope;
    var c := R.Claim(key, scope, id, call.config.passport.callsPerSession, call.payload, s.clock);
    if Commits(s, c) then Note(Put(Do(s, c), w, Live(id, scope, Some(call), 1)), id, scope, Claimed, Some(call))
    else Drop(s, w)
  }

  /** A live worker that still has a stage ahead. */
  predicate Underway(s: System, w: nat) {
    w in s.workers && s.workers[w].Live? && s.workers[w].done < |Path(s.workers[w].invocation)|
  }

  function StageAhead(x: Worker): Stage
    requires x.Live? && x.done < |Path(x.invocation)|
  {
    Path(x.invocation)[x.done]
  }

  /** The stage done and logged. */
  function Moved(s: System, w: nat): System
    requires Underway(s, w)
  {
    var x := s.workers[w];
    Note(Put(s, w, x.(done := x.done + 1)), x.id, x.scope, StageAhead(x), x.invocation)
  }

  /** A stage that fails leaves only the finish. */
  function Failed(s: System, w: nat): System
    requires Underway(s, w)
  {
    Put(s, w, Ending(s.workers[w].id, s.workers[w].scope))
  }

  function OnConsume(s: System, w: nat): System
    requires Underway(s, w)
  {
    var x := s.workers[w];
    if x.invocation.None? || x.invocation.value.payload.leaseId.None? then Failed(s, w)
    else
      var lease := x.invocation.value.payload.leaseId.value;
      var consumed := L.Consume(s.leases, lease, x.invocation.value.Rebuilt(), s.clock);
      if consumed.1.Allowed() then Moved(s, w).(leases := consumed.0, spentOn := s.spentOn[lease := x.id])
      else Failed(s, w)
  }

  function OnAdmit(s: System, w: nat): System
    requires Underway(s, w)
  {
    var x := s.workers[w];
    if x.invocation.None? then Failed(s, w)
    else
      var c := R.Admit(x.scope, x.id, x.invocation.value.payload, s.clock);
      if Commits(s, c) then Do(Moved(s, w), c) else Failed(s, w)
  }

  /** The dispatch record: the audit storage answers and the append commits, or the stage fails. */
  function OnAudit(s: System, w: nat, available: bool): System
    requires Underway(s, w)
  {
    var x := s.workers[w];
    var audit := Appended(s.codec, s.audit, x.scope, DispatchText(x.id), s.clock);
    if available && audit.Some? then Moved(s, w).(audit := audit.value) else Failed(s, w)
  }

  /** Any other event the audit store is given. */
  function OnJournal(s: System, scope: Scope, event: string): System {
    var audit := Appended(s.codec, s.audit, scope, event, s.clock);
    if audit.Some? then s.(audit := audit.value) else s
  }

  /** The next stage of a live invocation. */
  function OnAdvance(s: System, w: nat, available: bool): System
    requires Underway(s, w)
  {
    match StageAhead(s.workers[w])
    case Claimed => Failed(s, w)
    case Consumed => OnConsume(s, w)
    case Audited => OnAudit(s, w, available)
    case Admitted => OnAdmit(s, w)
    case Called => Moved(s, w)
  }

  /** Approval reviews the sealed decision against the current configuration. */
  function OnReview(s: System, w: nat, kind: Kind, id: Id, config: Config, key: nat): System
    requires w !in s.workers
  {
    var found := LookUp(s.store.tables, key, config.scope, id, s.clock);
    if found.Err? then s
    else
      var p := found.value.terms;
      var fits := match kind
        case RemoteTool =>
          p.outcome.NeedsApproval? && Binding(p.request) == p.binding && p.request.scope == config.scope
          && p.request.passport == Digest(config.passport)
        case Inference =>
          p.kind.Inference? && p.inferenceRoute.Some?
          && Binding(Request(config, RouteTarget(p.inferenceRoute.value), p.arguments, p.model, p.dataClass,
                             Assessment(Network, false, [], []))) == p.binding;
      if fits && !Stopped(s, config.scope) && found.value.leaseId.None? && p.route == RouteHash(config)
      then Put(s, w, Reviewing(id, config.scope, found.value, config.passport.approvalLeaseMinutes))
      else s
  }

  const MAX_LEASE_SECONDS := 300

  function Min(a: int, b: int): int { if a < b then a else b }

  /** The lease is issued for exactly the request bound in the decision, for one use. */
  function OnIssue(s: System, w: nat, lease: Token, approver: Option<string>): System
    requires w in s.workers && s.workers[w].Reviewing?
  {
    var Reviewing(id, scope, p, minutes) := s.workers[w];
    var x := L.Issue(s.leases, lease, p.terms.binding.request, Min(MAX_LEASE_SECONDS, minutes * 60), 1, approver, s.clock);
    if x.1.Some? then Drop(s, w)
    else Put(s.(leases := x.0), w, Approved(id, scope, p.(leaseId := Some(lease))))
  }

  predicate OperatorCall(c: R.Call) {
    c.RevokeScope? || c.ResumeScope? || c.Invalidate? || c.Disabled? || c.Load?
  }

  function OnSeal(s: System, c: R.Call, asked: Asked): System
    requires c.Create?
  {
    if c.token in s.store.issued || !Commits(s, c) then s
    else Do(s, c).(created := s.created[c.token := Origin(c.payload, c.now, asked)])
  }

  function AskedBy(e: Event): Asked
    requires e.Preflight?
  {
    Asked(e.config, e.target, e.arguments, e.model, e.dataClass, e.assessment, e.outcome)
  }

  /** The creation a preflight asks for. */
  function PreflightCall(s: System, e: Event): R.Call
    requires e.Preflight?
  {
    R.Create(e.key, e.config.scope, e.token, Payload(AskedBy(e).Terms(), None, s.clock + DECISION_LIFETIME_US), e.bytes, s.clock)
  }

  function OnLoad(s: System, w: nat, key: nat): System
    requires w in s.workers && s.workers[w].Begun?
  {
    var Begun(kind, id, home, scope) := s.workers[w];
    var found := LookUp(s.store.tables, key, scope, id, s.clock);
    if found.Err? || (kind.Inference? && (!found.value.terms.kind.Inference? || found.value.leaseId.None?)) then Drop(s, w)
    else Put(s, w, Loaded(kind, id, home, scope, found.value))
  }

  function OnFinish(s: System, w: nat, stored: bool): System
    requires w in s.workers && (s.workers[w].Live? || s.workers[w].Ending?)
  {
    if stored then Drop(Do(s, R.Finish(s.workers[w].scope, s.workers[w].id)), w) else Drop(s, w)
  }

  function OnRecord(s: System, w: nat, key: nat, bytes: nat): System
    requires w in s.workers && s.workers[w].Approved?
  {
    var Approved(id, scope, p) := s.workers[w];
    var c := R.Update(key, scope, id, p, bytes, s.clock);
    if Commits(s, c) then Drop(Do(s, c), w) else Drop(s, w)
  }

  function OnNative(s: System, w: nat, scope: Scope, id: Token, limit: int): System
    requires w !in s.workers
  {
    var c := R.BeginNative(scope, id, limit);
    if id in s.store.issued || !Commits(s, c) then s
    else Note(Put(Do(s, c), w, Live(id, scope, None, 1)), id, scope, Admitted, None)
  }

  /** A step that does not apply changes nothing. */
  function Step(s: System, e: Event): System {
    match e
    case Tick(d) => s.(clock := s.clock + d)
    case Preflight(_, _, _, _, _, _, _, _, _, _) => OnSeal(s, PreflightCall(s, e), AskedBy(e))
    case Control(c) => if OperatorCall(c) then Do(s, c) else s
    case RevokeLeases(scope, wholeProfile) => s.(leases := L.Revoke(s.leases, scope, wholeProfile, s.clock).0)
    case Begin(w, kind, id, home, scope) =>
      if w in s.workers || (kind.RemoteTool? && Stopped(s, scope)) || (kind.Inference? && scope != home) then s
      else Put(s, w, Begun(kind, id, home, scope))
    case LoadRow(w, key) => if w in s.workers && s.workers[w].Begun? then OnLoad(s, w, key) else s
    case Observe(w, seen) => if w in s.workers && s.workers[w].Loaded? then OnObserve(s, w, seen) else s
    case Rebuild(w, config, permitted, policy, assessment) =>
      if w in s.workers && s.workers[w].Observed? then OnRebuild(s, w, config, permitted, policy, assessment) else s
    case Claim(w, key) => if w in s.workers && s.workers[w].Ready? then OnClaim(s, w, key) else s
    case Advance(w, available) =>
      if Underway(s, w) then OnAdvance(s, w, available) else s
    case Finish(w, stored) =>
      if w in s.workers && (s.workers[w].Live? || s.workers[w].Ending?) then OnFinish(s, w, stored) else s
    case Vanish(w) => Drop(s, w)
    case Review(w, kind, id, config, key) => if w in s.workers then s else OnReview(s, w, kind, id, config, key)
    case IssueLease(w, lease, approver) =>
      if w in s.workers && s.workers[w].Reviewing? then OnIssue(s, w, lease, approver) else s
    case Record(w, key, bytes) => if w in s.workers && s.workers[w].Approved? then OnRecord(s, w, key, bytes) else s
    case BeginNative(w, scope, id, limit) => if w in s.workers then s else OnNative(s, w, scope, id, limit)
    case Journal(scope, event) => OnJournal(s, scope, event)
  }

  function Start(codec: AuditChain.Codec): System {
    System(R.EMPTY, map[], 0, map[], codec, map[], map[], map[], [])
  }

  function Run(s: System, es: seq<Event>): System
    decreases |es|
  {
    if es == [] then s else Run(Step(s, es[0]), es[1..])
  }

  lemma {:induction false} RunOnce(s: System, e: Event)
    ensures Run(s, [e]) == Step(s, e)
  {
    assert Run(s, [e]) == Run(Step(s, e), [e][1..]);
  }

  lemma {:induction false} RunsJoin(s: System, a: seq<Event>, b: seq<Event>)
    ensures Run(s, a + b) == Run(Run(s, a), b)
    decreases |a|
  {
    if a == [] {
      assert a + b == b;
    } else {
      assert (a + b)[0] == a[0] && (a + b)[1..] == a[1..] + b;
      RunsJoin(Step(s, a[0]), a[1..], b);
    }
  }

  /** The stages the log records for one identifier, oldest first. */
  function Trace(log: seq<Mark>, id: Id): seq<Stage> {
    if log == [] then []
    else
      var n := |log| - 1;
      Trace(log[..n], id) + if log[n].id == id then [log[n].stage] else []
  }

  lemma {:induction false} TraceAppend(log: seq<Mark>, m: Mark, id: Id)
    ensures Trace(log + [m], id) == Trace(log, id) + if m.id == id then [m.stage] else []
  {
    assert (log + [m])[..|log|] == log;
  }
}
