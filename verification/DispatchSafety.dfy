/** What every run of the guarded-dispatch protocol guarantees, for any number of workers, stops,
    resumes, configuration changes, clock ticks and crashes in any order. */
module DispatchSafety {
  import opened Domain
  import opened DecisionTables
  import opened Dispatch
  import opened DispatchInvariant
  import R = DecisionRuns
  import L = LeaseTable
  import AuditChain
  import AuditLog

  lemma StartIsSafe(codec: AuditChain.Codec)
    ensures Inv(Start(codec))
  {}

  lemma {:induction false} RunsAreSafe(codec: AuditChain.Codec, es: seq<Event>)
    ensures Inv(Run(Start(codec), es))
  {
    StartIsSafe(codec);
    RunKeepsInv(Start(codec), es);
  }

  lemma {:induction false} TracePrefix(log: seq<Mark>, k: nat, id: Id)
    requires k <= |log|
    ensures Trace(log[..k], id) <= Trace(log, id)
    decreases |log|
  {
    if k < |log| {
      var n := |log| - 1;
      TracePrefix(log[..n], k, id);
      assert log[..n][..k] == log[..k];
    } else {
      assert log[..k] == log;
    }
  }

  lemma CalledEndsPath(call: Option<Call>, t: seq<Stage>)
    requires t + [Called] <= Path(call)
    ensures t + [Called] == Path(call) && Called !in t
  {
    assert (t + [Called])[|t|] == Path(call)[|t|];
    assert forall i :: 0 <= i < |t| ==> t[i] == (t + [Called])[i] == Path(call)[i];
  }

  lemma CalledInPlace(log: seq<Mark>, k: nat)
    requires k < |log| && log[k].stage.Called? && InPlace(log, k)
    ensures Trace(log[..k + 1], log[k].id) == Trace(log[..k], log[k].id) + [Called] == Path(log[k].call)
    ensures Called !in Trace(log[..k], log[k].id)
  {
    assert log[..k + 1] == log[..k] + [log[k]];
    TraceAppend(log[..k], log[k], log[k].id);
    CalledEndsPath(log[k].call, Trace(log[..k], log[k].id));
  }

  /** A call reaches the remote side only after every stage before it has been done, in order: claim,
      lease if needed, audit, admission; a native call is admitted and then recorded. */
  lemma {:induction false} DispatchFollowsItsPath(codec: AuditChain.Codec, es: seq<Event>, k: nat)
    requires k < |Run(Start(codec), es).log| && Run(Start(codec), es).log[k].stage.Called?
    ensures var log := Run(Start(codec), es).log;
            Trace(log[..k + 1], log[k].id) ==
            if log[k].call.None? then [Admitted, Audited, Called]
            else if log[k].call.value.needsLease then [Claimed, Stage.Consumed, Audited, Admitted, Called]
            else [Claimed, Audited, Admitted, Called]
  {
    RunsAreSafe(codec, es);
    assert LogOk(Run(Start(codec), es), k);
    CalledInPlace(Run(Start(codec), es).log, k);
  }

  lemma NoSecondCall(log: seq<Mark>, i: nat, k: nat)
    requires i < k < |log| && log[i].stage.Called? && log[k].stage.Called?
    requires InPlace(log, i) && InPlace(log, k)
    ensures log[i].id != log[k].id
  {
    CalledInPlace(log, i);
    CalledInPlace(log, k);
    TracePrefix(log[..k], i + 1, log[i].id);
    assert log[..k][..i + 1] == log[..i + 1];
    var t := Trace(log[..i + 1], log[i].id);
    assert t[|t| - 1] == Called && Called in Trace(log[..k], log[i].id);
  }

  /** And at most once for one decision or native admission. */
  lemma {:induction false} AtMostOnceDispatch(codec: AuditChain.Codec, es: seq<Event>, i: nat, k: nat)
    requires i < k < |Run(Start(codec), es).log|
    requires var log := Run(Start(codec), es).log; log[i].stage.Called? && log[k].stage.Called?
    ensures Run(Start(codec), es).log[i].id != Run(Start(codec), es).log[k].id
  {
    RunsAreSafe(codec, es);
    assert LogOk(Run(Start(codec), es), i) && LogOk(Run(Start(codec), es), k);
    NoSecondCall(Run(Start(codec), es).log, i, k);
  }

  lemma TraceMember(log: seq<Mark>, id: Id, stage: Stage) returns (j: nat)
    requires stage in Trace(log, id)
    ensures j < |log| && log[j].id == id && log[j].stage == stage
    decreases |log|
  {
    var n := |log| - 1;
    if log[n].id == id && log[n].stage == stage {
      j := n;
    } else {
      j := TraceMember(log[..n], id, stage);
    }
  }

  lemma AuditedBeforeCalled(s: System, k: nat) returns (j: nat)
    requires k < |s.log| && s.log[k].stage.Called? && InPlace(s.log, k)
    ensures j < k && s.log[j].id == s.log[k].id && s.log[j].stage.Audited?
  {
    CalledInPlace(s.log, k);
    var id, path := s.log[k].id, Path(s.log[k].call);
    assert Trace(s.log[..k], id) == path[..|path| - 1];
    assert path[..|path| - 1][if s.log[k].call.None? then 1 else |path| - 3] == Audited;
    j := TraceMember(s.log[..k], id, Audited);
  }

  /** Nothing is dispatched before its dispatch record was appended to the audit store. */
  lemma DispatchIsAudited(codec: AuditChain.Codec, es: seq<Event>, k: nat) returns (j: nat)
    requires k < |Run(Start(codec), es).log| && Run(Start(codec), es).log[k].stage.Called?
    ensures var s := Run(Start(codec), es);
            && j < k && s.log[j].id == s.log[k].id && s.log[j].scope == s.log[k].scope && s.log[j].stage.Audited?
            && Recorded(s.audit, s.log[j].scope, AuditLog.Entry(DispatchText(s.log[k].id), s.log[j].at))
  {
    RunsAreSafe(codec, es);
    var s := Run(Start(codec), es);
    assert LogOk(s, k);
    j := AuditedBeforeCalled(s, k);
    assert LogOk(s, j);
  }

  function Freed(session: Session, id: Id): Session {
    if session.active == Some(id) then session.(active := None) else session
  }

  /** The slot and the row of one invocation are given back, and nothing else changes. */
  ghost predicate Released(t: Tables, n: Tables, id: Id) {
    && n.decisions == t.decisions && n.admissions == t.admissions - {id}
    && (forall p :: ControlOf(n, p) == ControlOf(t, p))
    && (forall scope :: SessionOf(n, scope) == Freed(SessionOf(t, scope), id))
  }

  lemma FinishOnTables(t: Tables, scope: Scope, id: Id)
    requires ValidId(id)
    requires forall other :: other != scope ==> SessionOf(t, other).active != Some(id)
    ensures Released(t, R.After(t, R.Finish(scope, id)), id)
  {}

  lemma SlotIsItsChats(h: R.History, scope: Scope, id: Id)
    requires R.Valid(h) && id in h.issued && h.issued[id] == scope
    ensures ValidId(id) && forall other :: other != scope ==> SessionOf(h.tables, other).active != Some(id)
  {
    forall other | other != scope ensures SessionOf(h.tables, other).active != Some(id) {
      assert R.SlotOwned(h, other);
    }
  }

  /** A finish gives back the slot and the row of its own invocation, wherever that stopped, and
      changes no others. */
  lemma FinishReleases(s: System, w: nat)
    requires Inv(s) && w in s.workers && (s.workers[w].Live? || s.workers[w].Ending?)
    ensures Released(s.store.tables, OnFinish(s, w, true).store.tables, s.workers[w].id)
  {
    var x := s.workers[w];
    assert WorkerOk(s, x);
    SlotIsItsChats(s.store, x.scope, x.id);
    FinishOnTables(s.store.tables, x.scope, x.id);
    FinishedTables(s, w);
  }

  lemma FinishedTables(s: System, w: nat)
    requires w in s.workers && (s.workers[w].Live? || s.workers[w].Ending?)
    ensures OnFinish(s, w, true).store.tables == R.After(s.store.tables, R.Finish(s.workers[w].scope, s.workers[w].id))
  {}

  /** The admission a dispatch rests on was made less than five minutes after the preflight. */
  lemma {:induction false} AdmittedInTime(codec: AuditChain.Codec, es: seq<Event>, k: nat)
    requires var log := Run(Start(codec), es).log; k < |log| && log[k].stage.Admitted? && log[k].call.Some?
    ensures var s := Run(Start(codec), es);
            s.log[k].id in s.created && s.log[k].at < s.created[s.log[k].id].at + DECISION_LIFETIME_US
  {
    RunsAreSafe(codec, es);
    assert LogOk(Run(Start(codec), es), k);
  }

  /** A binding stands for one scope, passport, target, argument, data class, and assessment or model:
      two preflights have the same one exactly if they agree on all of these. */
  lemma BindingTellsApartIff(a: Asked, b: Asked)
    ensures a.Terms().binding == b.Terms().binding <==>
              && a.config.scope == b.config.scope && a.config.passport == b.config.passport
              && a.arguments == b.arguments && a.dataClass == b.dataClass
              && match a.target
                 case ToolTarget(tool) =>
                   && b.target.ToolTarget? && tool.(labels := b.target.tool.labels) == b.target.tool
                   && a.assessment == b.assessment
                 case RouteTarget(route) => b.target == RouteTarget(route) && a.model == b.model
  {
    if a.target.ToolTarget? && b.target.ToolTarget? {
      var x, y := a.target.tool, b.target.tool;
      assert x.(labels := y.labels) == y <==>
        x.peer == y.peer && x.service == y.service && x.uri == y.uri && x.schema == y.schema && x.riskMetadata == y.riskMetadata;
    }
  }

  lemma CalledIsApproved(s: System, k: nat)
    requires Inv(s) && k < |s.log| && s.log[k].stage.Called? && s.log[k].call.Some?
    ensures var Mark(id, scope, _, _, call) := s.log[k];
            var c := call.value;
            && id in s.created && scope == c.config.scope
            && var o := s.created[id];
            && AsAsked(o.asked, c) && c.payload.terms == o.payload.terms
            && (o.asked.target.ToolTarget? ==> !o.asked.outcome.Deny?)
            && (o.asked.target.RouteTarget? || o.asked.assessment.singleUse ==> c.needsLease)
            && (c.needsLease ==> UsedFor(s, id, c, o.payload.terms.binding))
  {
    assert LogOk(s, k) && OriginOk(s, s.log[k].id);
    var c := s.log[k].call.value;
    AuthenticIsAsAsked(s, s.log[k].id, c);
    if c.needsLease { assert SpentOk(s, c.payload.leaseId.value); }
  }

  /** The call's lease has this binding, allowed one use, and that use was for this decision. */
  ghost predicate UsedFor(s: System, id: Id, c: Call, binding: Binding) {
    && c.payload.leaseId.Some? && c.payload.leaseId.value in s.leases && c.payload.leaseId.value in s.spentOn
    && var lease := c.payload.leaseId.value;
    && s.leases[lease].binding == binding && s.leases[lease].useCount == s.leases[lease].maxUses == 1
    && s.spentOn[lease] == id
  }

  /** What is dispatched is what was approved: the configuration, target, arguments and assessment of
      the call are those of the preflight, which was not denied; and when a lease is needed - always
      for an inference and for a single-use risk - it was issued for the request bound then, for one
      use, and that use was for this decision. */
  lemma {:induction false} DispatchedIsApproved(codec: AuditChain.Codec, es: seq<Event>, k: nat)
    requires var log := Run(Start(codec), es).log; k < |log| && log[k].stage.Called? && log[k].call.Some?
    ensures var s := Run(Start(codec), es);
            var Mark(id, scope, _, _, call) := s.log[k];
            var c := call.value;
            && id in s.created && scope == c.config.scope
            && var o := s.created[id];
            && AsAsked(o.asked, c) && c.payload.terms == o.payload.terms
            && (o.asked.target.ToolTarget? ==> !o.asked.outcome.Deny?)
            && (o.asked.target.RouteTarget? || o.asked.assessment.singleUse ==> c.needsLease)
            && (c.needsLease ==> UsedFor(s, id, c, o.payload.terms.binding))
  {
    RunsAreSafe(codec, es);
    CalledIsApproved(Run(Start(codec), es), k);
  }

  /** Two dispatches never rest on the same lease. */
  lemma {:induction false} LeasesAreNotShared(codec: AuditChain.Codec, es: seq<Event>, i: nat, k: nat)
    requires i < k < |Run(Start(codec), es).log|
    requires var log := Run(Start(codec), es).log;
             && log[i].stage.Called? && log[k].stage.Called?
             && log[i].call.Some? && log[i].call.value.needsLease && log[k].call.Some? && log[k].call.value.needsLease
    ensures var log := Run(Start(codec), es).log;
            log[i].call.value.payload.leaseId != log[k].call.value.payload.leaseId
  {
    DispatchedIsApproved(codec, es, i);
    DispatchedIsApproved(codec, es, k);
    AtMostOnceDispatch(codec, es, i, k);
  }

  predicate Resumes(e: Event, owner: Profile) {
    e.Control? && e.c.ResumeScope? && e.c.scope.Owner() == owner
  }

  predicate Holds(s: System, owner: Profile) { ControlOf(s.store.tables, owner).stopped }

  lemma HoldsAfter(s: System, c: R.Call, owner: Profile)
    requires Holds(s, owner) && !(c.ResumeScope? && c.scope.Owner() == owner)
    ensures ControlOf(R.Next(s.store, c).tables, owner).stopped
  {
    R.StopStep(s.store.tables, c, owner);
  }

  /** From s to n the profile stays stopped and no admission of its is logged. */
  ghost predicate Barred(s: System, n: System, owner: Profile) {
    && Holds(n, owner) && s.log <= n.log
    && forall k :: |s.log| <= k < |n.log| && n.log[k].stage.Admitted? ==> n.log[k].scope.Owner() != owner
  }

  lemma PreflightBarred(s: System, e: Event, owner: Profile)
    requires Holds(s, owner) && e.Preflight?
    ensures Barred(s, OnSeal(s, PreflightCall(s, e), AskedBy(e)), owner)
  {
    HoldsAfter(s, PreflightCall(s, e), owner);
  }

  lemma RejectBarred(s: System, w: nat, scope: Scope, id: Id, owner: Profile)
    requires Holds(s, owner)
    ensures Barred(s, Reject(s, w, scope, id), owner)
  {
    HoldsAfter(s, R.Invalidate(scope, id), owner);
  }

  lemma ObserveBarred(s: System, w: nat, seen: Option<Target>, owner: Profile)
    requires Holds(s, owner) && w in s.workers && s.workers[w].Loaded?
    ensures Barred(s, OnObserve(s, w, seen), owner)
  {
    RejectBarred(s, w, s.workers[w].scope, s.workers[w].id, owner);
  }

  lemma RebuildBarred(s: System, w: nat, config: Config, permitted: bool, policy: Outcome, assessment: Assessment, owner: Profile)
    requires Holds(s, owner) && w in s.workers && s.workers[w].Observed?
    ensures Barred(s, OnRebuild(s, w, config, permitted, policy, assessment), owner)
  {
    RejectBarred(s, w, s.workers[w].home, s.workers[w].id, owner);
  }

  lemma ClaimBarred(s: System, w: nat, key: nat, owner: Profile)
    requires Holds(s, owner) && w in s.workers && s.workers[w].Ready?
    ensures Barred(s, OnClaim(s, w, key), owner)
  {
    var Ready(id, call) := s.workers[w];
    HoldsAfter(s, R.Claim(key, call.config.scope, id, call.config.passport.callsPerSession, call.payload, s.clock), owner);
  }

  lemma AdmitBarred(s: System, w: nat, owner: Profile)
    requires Holds(s, owner) && Underway(s, w) && StageAhead(s.workers[w]).Admitted?
    ensures Barred(s, OnAdmit(s, w), owner)
  {
    var x := s.workers[w];
    if x.invocation.Some? {
      var c := R.Admit(x.scope, x.id, x.invocation.value.payload, s.clock);
      HoldsAfter(s, c, owner);
      R.StopStep(s.store.tables, c, owner);
    }
  }

  /** The other stages touch no table of the store. */
  lemma StoreUntouchedBarred(s: System, n: System, w: nat, owner: Profile)
    requires Holds(s, owner) && Underway(s, w) && !StageAhead(s.workers[w]).Admitted?
    requires n.store == s.store && (n.log == s.log || n.log == Moved(s, w).log)
    ensures Barred(s, n, owner)
  {}

  lemma ConsumeStageApart(s: System, w: nat)
    requires Underway(s, w)
    ensures var n := OnConsume(s, w); n.store == s.store && (n.log == s.log || n.log == Moved(s, w).log)
  {}

  lemma AuditStageApart(s: System, w: nat, available: bool)
    requires Underway(s, w)
    ensures var n := OnAudit(s, w, available); n.store == s.store && (n.log == s.log || n.log == Moved(s, w).log)
  {}

  lemma AdvanceBarred(s: System, w: nat, available: bool, owner: Profile)
    requires Holds(s, owner) && Underway(s, w)
    ensures Barred(s, OnAdvance(s, w, available), owner)
  {
    match StageAhead(s.workers[w])
    case Claimed => StoreUntouchedBarred(s, Failed(s, w), w, owner);
    case Consumed => ConsumeStageApart(s, w); StoreUntouchedBarred(s, OnConsume(s, w), w, owner);
    case Audited => AuditStageApart(s, w, available); StoreUntouchedBarred(s, OnAudit(s, w, available), w, owner);
    case Admitted => AdmitBarred(s, w, owner);
    case Called => StoreUntouchedBarred(s, Moved(s, w), w, owner);
  }

  lemma FinishBarred(s: System, w: nat, stored: bool, owner: Profile)
    requires Holds(s, owner) && w in s.workers && (s.workers[w].Live? || s.workers[w].Ending?)
    ensures Barred(s, OnFinish(s, w, stored), owner)
  {
    HoldsAfter(s, R.Finish(s.workers[w].scope, s.workers[w].id), owner);
  }

  lemma RecordBarred(s: System, w: nat, key: nat, bytes: nat, owner: Profile)
    requires Holds(s, owner) && w in s.workers && s.workers[w].Approved?
    ensures Barred(s, OnRecord(s, w, key, bytes), owner)
  {
    var Approved(id, scope, p) := s.workers[w];
    HoldsAfter(s, R.Update(key, scope, id, p, bytes, s.clock), owner);
  }

  lemma NativeBarred(s: System, w: nat, scope: Scope, id: Token, limit: int, owner: Profile)
    requires Holds(s, owner) && w !in s.workers
    ensures Barred(s, OnNative(s, w, scope, id, limit), owner)
  {
    HoldsAfter(s, R.BeginNative(scope, id, limit), owner);
    R.StopStep(s.store.tables, R.BeginNative(scope, id, limit), owner);
  }

  /** Steps that leave the store and the log alone. */
  predicate Apart(e: Event) {
    e.Tick? || e.RevokeLeases? || e.Begin? || e.LoadRow? || e.Vanish? || e.Review? || e.IssueLease? || e.Journal?
  }

  lemma ApartLeaves(s: System, e: Event)
    requires e.Tick? || e.RevokeLeases? || e.Begin? || e.Vanish? || e.Journal?
    ensures Step(s, e).store == s.store && Step(s, e).log == s.log
  {}

  lemma ApprovalLeaves(s: System, e: Event)
    requires e.LoadRow? || e.Review? || e.IssueLease?
    ensures Step(s, e).store == s.store && Step(s, e).log == s.log
  {}

  lemma ApartBarred(s: System, e: Event, owner: Profile)
    requires Holds(s, owner) && Apart(e)
    ensures Barred(s, Step(s, e), owner)
  {
    if e.LoadRow? || e.Review? || e.IssueLease? { ApprovalLeaves(s, e); } else { ApartLeaves(s, e); }
  }

  lemma PreparationBarred(s: System, e: Event, owner: Profile)
    requires Holds(s, owner) && !Resumes(e, owner) && (e.Preflight? || e.Control? || e.Observe? || e.Rebuild?)
    ensures Barred(s, Step(s, e), owner)
  {
    match e
    case Preflight(_, _, _, _, _, _, _, _, _, _) => PreflightBarred(s, e, owner);
    case Control(c) => HoldsAfter(s, c, owner);
    case Observe(w, seen) => if w in s.workers && s.workers[w].Loaded? { ObserveBarred(s, w, seen, owner); }
    case Rebuild(w, config, permitted, policy, assessment) =>
      if w in s.workers && s.workers[w].Observed? { RebuildBarred(s, w, config, permitted, policy, assessment, owner); }
  }

  lemma ExecutionBarred(s: System, e: Event, owner: Profile)
    requires Holds(s, owner) && (e.Claim? || e.Advance?)
    ensures Barred(s, Step(s, e), owner)
  {
    if e.Claim? {
      if e.w in s.workers && s.workers[e.w].Ready? { ClaimBarred(s, e.w, e.key, owner); }
    } else {
      if Underway(s, e.w) { AdvanceBarred(s, e.w, e.available, owner); }
    }
  }

  lemma EndBarred(s: System, e: Event, owner: Profile)
    requires Holds(s, owner) && (e.Finish? || e.Record?)
    ensures Barred(s, Step(s, e), owner)
  {
    if e.Finish? {
      if e.w in s.workers && (s.workers[e.w].Live? || s.workers[e.w].Ending?) { FinishBarred(s, e.w, e.stored, owner); }
    } else {
      if e.w in s.workers && s.workers[e.w].Approved? { RecordBarred(s, e.w, e.key, e.bytes, owner); }
    }
  }

  lemma NativeStepBarred(s: System, e: Event, owner: Profile)
    requires Holds(s, owner) && e.BeginNative?
    ensures Barred(s, Step(s, e), owner)
  {
    if e.w !in s.workers { NativeBarred(s, e.w, e.scope, e.token, e.limit, owner); }
  }

  lemma StepBarred(s: System, e: Event, owner: Profile)
    requires Holds(s, owner) && !Resumes(e, owner)
    ensures Barred(s, Step(s, e), owner)
  {
    if Apart(e) {
      ApartBarred(s, e, owner);
    } else if e.Preflight? || e.Control? || e.Observe? || e.Rebuild? {
      PreparationBarred(s, e, owner);
    } else if e.Claim? || e.Advance? {
      ExecutionBarred(s, e, owner);
    } else if e.BeginNative? {
      NativeStepBarred(s, e, owner);
    } else {
      EndBarred(s, e, owner);
    }
  }

  /** Stop barrier: once a profile is stopped, no run without a resume of it admits anything of its,
      delegated or native, in chats old or new. */
  lemma {:induction false} StopBarrier(s: System, es: seq<Event>, owner: Profile)
    requires Holds(s, owner) && forall e :: e in es ==> !Resumes(e, owner)
    ensures Barred(s, Run(s, es), owner)
    decreases |es|
  {
    if es != [] {
      var n := Step(s, es[0]);
      StepBarred(s, es[0], owner);
      StopBarrier(n, es[1..], owner);
    }
  }

  /** So it is from the step of the operator on, in any run, until the step of an operator that resumes. */
  lemma {:induction false} StopEndsAdmissions(s: System, stop: Scope, es: seq<Event>)
    requires forall e :: e in es ==> !(e.Control? && e.c.ResumeScope? && e.c.scope.Owner() == stop.Owner())
    ensures var n := Step(s, Event.Control(R.RevokeScope(stop)));
            var m := Run(n, es);
            && n.log == s.log && s.log <= m.log && ControlOf(m.store.tables, stop.Owner()).stopped
            && forall k :: |s.log| <= k < |m.log| && m.log[k].stage.Admitted? ==> m.log[k].scope.Owner() != stop.Owner()
  {
    R.RevokeStops(s.store.tables, stop);
    StopBarrier(Step(s, Event.Control(R.RevokeScope(stop))), es, stop.Owner());
  }
}
