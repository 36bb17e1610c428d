/** Who holds the slot of a chat, what the steps of other workers leave alone, and when a slot leaks. */
module DispatchSlots {
  import opened Domain
  import opened DecisionTables
  import opened Dispatch
  import opened DispatchInvariant
  import R = DecisionRuns
  import S = DispatchSafety
  import AuditChain

  /** The worker is executing this invocation, or has only its finish left. */
  predicate Holding(x: Worker, id: Id) { (x.Live? || x.Ending?) && x.id == id }

  /** No worker but those of `mine` holds the invocation, and it cannot be claimed again. */
  ghost predicate Unheld(s: System, mine: set<nat>, id: Id) {
    R.Spent(s.store, id) && forall v :: v in s.workers && v !in mine ==> !Holding(s.workers[v], id)
  }

  predicate ByWorker(e: Event) { !(e.Tick? || e.Preflight? || e.Control? || e.RevokeLeases? || e.Journal?) }

  /** A step of somebody else. */
  predicate Elsewhere(e: Event, mine: set<nat>) { ByWorker(e) ==> e.w !in mine }

  ghost predicate SameBut(s: System, n: System, w: nat) {
    && (forall v :: v != w ==> (v in n.workers <==> v in s.workers))
    && (forall v :: v != w && v in n.workers ==> n.workers[v] == s.workers[v])
  }

  /** What worker w holds now it held before, or had never been claimed. */
  ghost predicate HoldsOwn(s: System, n: System, w: nat) {
    w in n.workers && (n.workers[w].Live? || n.workers[w].Ending?) ==>
      (w in s.workers && Holding(s.workers[w], n.workers[w].id)) || !R.Spent(s.store, n.workers[w].id)
  }

  /** At most one stage is logged, of the invocation of worker w. */
  ghost predicate LogsOwn(s: System, n: System, w: nat) {
    || n.log == s.log
    || (n.log != [] && n.log == s.log + [n.log[|n.log| - 1]]
        && w in n.workers && n.workers[w].Live? && n.log[|n.log| - 1].id == n.workers[w].id)
  }

  /** What worker w holds. */
  function Held(s: System, w: nat): set<Id> {
    if w in s.workers && (s.workers[w].Live? || s.workers[w].Ending?) then {s.workers[w].id} else {}
  }

  /** A finish is of something held, and nothing but `minted` is issued. */
  ghost predicate CallBy(s: System, held: set<Id>, minted: set<Id>, c: R.Call) {
    R.Legal(s.store, c) && (c.Finish? ==> c.id in held) && (c.Create? || c.BeginNative? ==> c.token in minted)
  }

  /** The store has at most one such transaction more. */
  ghost predicate CallsOwn(s: System, n: System, held: set<Id>, minted: set<Id>) {
    n.store == s.store || exists c: R.Call :: CallBy(s, held, minted, c) && n.store == R.Next(s.store, c)
  }

  /** The identifier an event brings into the world. */
  function Minted(e: Event): set<Id> { if e.Preflight? || e.BeginNative? then {e.token} else {} }

  ghost predicate Own(s: System, n: System, w: nat, minted: set<Id> := {}) {
    SameBut(s, n, w) && HoldsOwn(s, n, w) && LogsOwn(s, n, w) && CallsOwn(s, n, Held(s, w), minted)
  }

  // ---------------------------------------------------------------- every step is its worker's own

  lemma RejectIsOwn(s: System, w: nat, scope: Scope, id: Id)
    ensures Own(s, Reject(s, w, scope, id), w)
  {
    assert CallBy(s, Held(s, w), {}, R.Invalidate(scope, id));
  }

  lemma DropIsOwn(s: System, w: nat)
    ensures Own(s, Drop(s, w), w)
  {}

  lemma PutIsOwn(s: System, w: nat, x: Worker)
    requires !x.Live? && !x.Ending?
    ensures Own(s, Put(s, w, x), w)
  {}

  lemma ObserveIsOwn(s: System, w: nat, seen: Option<Target>)
    requires w in s.workers && s.workers[w].Loaded?
    ensures Own(s, OnObserve(s, w, seen), w)
  {
    var x := s.workers[w];
    RejectIsOwn(s, w, x.scope, x.id);
    DropIsOwn(s, w);
    if seen.Some? { PutIsOwn(s, w, Observed(x.kind, x.id, x.home, x.payload, seen.value)); }
  }

  lemma RebuildIsOwn(s: System, w: nat, config: Config, permitted: bool, policy: Outcome, assessment: Assessment)
    requires w in s.workers && s.workers[w].Observed?
    ensures Own(s, OnRebuild(s, w, config, permitted, policy, assessment), w)
  {
    RejectIsOwn(s, w, s.workers[w].home, s.workers[w].id);
  }

  lemma BeginIsOwn(s: System, e: Event)
    requires e.Begin?
    ensures Own(s, Step(s, e), e.w)
  {
    PutIsOwn(s, e.w, Begun(e.kind, e.id, e.home, e.scope));
  }

  lemma LoadIsOwn(s: System, w: nat, key: nat)
    requires w in s.workers && s.workers[w].Begun?
    ensures Own(s, OnLoad(s, w, key), w)
  {
    DropIsOwn(s, w);
    var n := OnLoad(s, w, key);
    if w in n.workers { PutIsOwn(s, w, n.workers[w]); }
  }

  lemma ReviewIsOwn(s: System, w: nat, kind: Kind, id: Id, config: Config, key: nat)
    requires w !in s.workers
    ensures Own(s, OnReview(s, w, kind, id, config, key), w)
  {}

  lemma IssueIsOwn(s: System, w: nat, lease: Token, approver: Option<string>)
    requires w in s.workers && s.workers[w].Reviewing?
    ensures Own(s, OnIssue(s, w, lease, approver), w)
  {}

  lemma RecordIsOwn(s: System, w: nat, key: nat, bytes: nat)
    requires w in s.workers && s.workers[w].Approved?
    ensures Own(s, OnRecord(s, w, key, bytes), w)
  {
    var Approved(id, scope, p) := s.workers[w];
    assert CallBy(s, Held(s, w), {}, R.Update(key, scope, id, p, bytes, s.clock));
  }

  lemma StartIsOwn(s: System, n: System, w: nat, m: Mark, c: R.Call, minted: set<Id>)
    requires !R.Spent(s.store, m.id) && CallBy(s, Held(s, w), minted, c) && n.store == R.Next(s.store, c)
    requires n.workers == s.workers[w := Live(m.id, m.scope, m.call, 1)] && n.log == s.log + [m]
    ensures Own(s, n, w, minted)
  {}

  lemma ClaimIsOwn(s: System, w: nat, key: nat)
    requires R.Valid(s.store) && w in s.workers && s.workers[w].Ready?
    ensures Own(s, OnClaim(s, w, key), w)
  {
    var Ready(id, call) := s.workers[w];
    var c := R.Claim(key, call.config.scope, id, call.config.passport.callsPerSession, call.payload, s.clock);
    if Commits(s, c) {
      ClaimTakes(s.store, c);
      StartIsOwn(s, OnClaim(s, w, key), w, Mark(id, call.config.scope, Claimed, s.clock, Some(call)), c, {});
    } else {
      DropIsOwn(s, w);
    }
  }

  lemma NativeIsOwn(s: System, w: nat, scope: Scope, id: Token, limit: int)
    requires w !in s.workers
    ensures Own(s, OnNative(s, w, scope, id, limit), w, {id})
  {
    var c := R.BeginNative(scope, id, limit);
    if id !in s.store.issued && Commits(s, c) {
      StartIsOwn(s, OnNative(s, w, scope, id, limit), w, Mark(id, scope, Admitted, s.clock, None), c, {id});
    }
  }

  lemma FailedIsOwn(s: System, w: nat)
    requires Underway(s, w)
    ensures Own(s, Failed(s, w), w)
  {}

  lemma MovedIsOwn(s: System, n: System, w: nat)
    requires Underway(s, w) && n.workers == Moved(s, w).workers && n.log == Moved(s, w).log && CallsOwn(s, n, Held(s, w), {})
    ensures Own(s, n, w)
  {}

  lemma ConsumeIsOwn(s: System, w: nat)
    requires Underway(s, w)
    ensures Own(s, OnConsume(s, w), w)
  {
    FailedIsOwn(s, w);
    S.ConsumeStageApart(s, w);
    if OnConsume(s, w) != Failed(s, w) { MovedIsOwn(s, OnConsume(s, w), w); }
  }

  lemma AuditIsOwn(s: System, w: nat, available: bool)
    requires Underway(s, w)
    ensures Own(s, OnAudit(s, w, available), w)
  {
    FailedIsOwn(s, w);
    S.AuditStageApart(s, w, available);
    if OnAudit(s, w, available) != Failed(s, w) { MovedIsOwn(s, OnAudit(s, w, available), w); }
  }

  lemma AdmitIsOwn(s: System, w: nat)
    requires Underway(s, w)
    ensures Own(s, OnAdmit(s, w), w)
  {
    FailedIsOwn(s, w);
    var x := s.workers[w];
    if x.invocation.Some? {
      assert CallBy(s, Held(s, w), {}, R.Admit(x.scope, x.id, x.invocation.value.payload, s.clock));
      if OnAdmit(s, w) != Failed(s, w) { MovedIsOwn(s, OnAdmit(s, w), w); }
    }
  }

  lemma AdvanceIsOwn(s: System, w: nat, available: bool)
    requires Underway(s, w)
    ensures Own(s, OnAdvance(s, w, available), w)
  {
    match StageAhead(s.workers[w])
    case Claimed => FailedIsOwn(s, w);
    case Consumed => ConsumeIsOwn(s, w);
    case Audited => AuditIsOwn(s, w, available);
    case Admitted => AdmitIsOwn(s, w);
    case Called => MovedIsOwn(s, Moved(s, w), w);
  }

  lemma FinishIsOwn(s: System, w: nat, stored: bool)
    requires w in s.workers && (s.workers[w].Live? || s.workers[w].Ending?) && WorkerOk(s, s.workers[w])
    ensures Own(s, OnFinish(s, w, stored), w)
  {
    assert CallBy(s, Held(s, w), {}, R.Finish(s.workers[w].scope, s.workers[w].id));
  }

  lemma LoadingIsOwn(s: System, e: Event)
    requires e.LoadRow? || e.Vanish?
    ensures Own(s, Step(s, e), e.w)
  {
    if e.Vanish? {
      DropIsOwn(s, e.w);
    } else {
      if e.w in s.workers && s.workers[e.w].Begun? { LoadIsOwn(s, e.w, e.key); }
    }
  }

  lemma RecheckIsOwn(s: System, e: Event)
    requires e.Observe? || e.Rebuild?
    ensures Own(s, Step(s, e), e.w)
  {
    if e.Observe? {
      if e.w in s.workers && s.workers[e.w].Loaded? { ObserveIsOwn(s, e.w, e.seen); }
    } else {
      if e.w in s.workers && s.workers[e.w].Observed? { RebuildIsOwn(s, e.w, e.config, e.permitted, e.policy, e.assessment); }
    }
  }

  lemma ReviewStepIsOwn(s: System, e: Event)
    requires e.Review?
    ensures Own(s, Step(s, e), e.w)
  {
    if e.w !in s.workers { ReviewIsOwn(s, e.w, e.kind, e.id, e.config, e.key); }
  }

  lemma ApprovingIsOwn(s: System, e: Event)
    requires e.IssueLease? || e.Record?
    ensures Own(s, Step(s, e), e.w)
  {
    if e.IssueLease? {
      if e.w in s.workers && s.workers[e.w].Reviewing? { IssueIsOwn(s, e.w, e.lease, e.approver); }
    } else {
      if e.w in s.workers && s.workers[e.w].Approved? { RecordIsOwn(s, e.w, e.key, e.bytes); }
    }
  }

  lemma ClaimStepIsOwn(s: System, e: Event)
    requires R.Valid(s.store) && e.Claim?
    ensures Own(s, Step(s, e), e.w)
  {
    if e.w in s.workers && s.workers[e.w].Ready? { ClaimIsOwn(s, e.w, e.key); }
  }

  lemma NativeStepIsOwn(s: System, e: Event)
    requires e.BeginNative?
    ensures Own(s, Step(s, e), e.w, {e.token})
  {
    if e.w !in s.workers { NativeIsOwn(s, e.w, e.scope, e.token, e.limit); }
  }

  lemma AdvanceStepIsOwn(s: System, e: Event)
    requires e.Advance?
    ensures Own(s, Step(s, e), e.w)
  {
    if Underway(s, e.w) { AdvanceIsOwn(s, e.w, e.available); }
  }

  lemma FinishStepIsOwn(s: System, e: Event)
    requires e.Finish? && (e.w in s.workers ==> WorkerOk(s, s.workers[e.w]))
    ensures Own(s, Step(s, e), e.w)
  {
    if e.w in s.workers && (s.workers[e.w].Live? || s.workers[e.w].Ending?) { FinishIsOwn(s, e.w, e.stored); }
  }

  lemma StepIsOwn(s: System, e: Event)
    requires Inv(s) && ByWorker(e)
    ensures Own(s, Step(s, e), e.w, Minted(e))
  {
    if e.Claim? {
      ClaimStepIsOwn(s, e);
    } else if e.BeginNative? {
      NativeStepIsOwn(s, e);
    } else if e.Advance? {
      AdvanceStepIsOwn(s, e);
    } else if e.Finish? {
      FinishStepIsOwn(s, e);
    } else if e.Review? {
      ReviewStepIsOwn(s, e);
    } else if e.IssueLease? || e.Record? {
      ApprovingIsOwn(s, e);
    } else if e.Observe? || e.Rebuild? {
      RecheckIsOwn(s, e);
    } else if e.Begin? {
      BeginIsOwn(s, e);
    } else {
      LoadingIsOwn(s, e);
    }
  }

  lemma SealCalls(s: System, c: R.Call, asked: Asked)
    requires c.Create?
    ensures var n := OnSeal(s, c, asked); n.workers == s.workers && n.log == s.log && CallsOwn(s, n, {}, {c.token})
  {
    if c.token !in s.store.issued { assert CallBy(s, {}, {c.token}, c); }
  }

  lemma ControlCalls(s: System, c: R.Call)
    requires OperatorCall(c)
    ensures CallsOwn(s, Do(s, c), {}, {})
  {
    assert CallBy(s, {}, {}, c);
  }

  /** The other steps change no worker and log nothing. */
  lemma SurroundingStep(s: System, e: Event)
    requires !ByWorker(e)
    ensures Step(s, e).workers == s.workers && Step(s, e).log == s.log && CallsOwn(s, Step(s, e), {}, Minted(e))
  {
    if e.Preflight? {
      SealCalls(s, PreflightCall(s, e), AskedBy(e));
    } else if e.Control? && OperatorCall(e.c) {
      ControlCalls(s, e.c);
    }
  }

  // ---------------------------------------------------------------- what others leave alone

  /** Nothing happened to the workers of `mine`. */
  ghost predicate WorkersKept(s: System, n: System, mine: set<nat>) {
    forall w :: w in mine ==> (w in n.workers <==> w in s.workers) && (w in n.workers ==> n.workers[w] == s.workers[w])
  }

  lemma StepKeepsWorkers(s: System, e: Event, mine: set<nat>)
    requires Inv(s) && Elsewhere(e, mine)
    ensures WorkersKept(s, Step(s, e), mine)
  {
    if ByWorker(e) { StepIsOwn(s, e); } else { SurroundingStep(s, e); }
  }

  lemma {:induction false} RunKeepsWorkers(s: System, es: seq<Event>, mine: set<nat>)
    requires Inv(s) && forall e :: e in es ==> Elsewhere(e, mine)
    ensures WorkersKept(s, Run(s, es), mine)
    decreases |es|
  {
    if es != [] {
      StepKeepsWorkers(s, es[0], mine);
      StepKeepsInv(s, es[0]);
      RunKeepsWorkers(Step(s, es[0]), es[1..], mine);
    }
  }

  ghost predicate SlotKept(s: System, n: System, id: Id) {
    forall scope :: SessionOf(s.store.tables, scope).active == Some(id) ==> SessionOf(n.store.tables, scope).active == Some(id)
  }

  lemma CallKeepsSlot(s: System, n: System, held: set<Id>, minted: set<Id>, id: Id)
    requires R.Valid(s.store) && CallsOwn(s, n, held, minted) && id !in held
    ensures SlotKept(s, n, id)
    ensures R.Spent(s.store, id) ==> R.Spent(n.store, id)
  {
    if n.store != s.store {
      var c :| CallBy(s, held, minted, c) && n.store == R.Next(s.store, c);
      R.SpentStep(s.store, c, id);
      forall scope | SessionOf(s.store.tables, scope).active == Some(id)
        ensures SessionOf(n.store.tables, scope).active == Some(id)
      {
        R.SlotStep(s.store.tables, c, scope, id);
      }
    }
  }

  /** From s to n nothing happened to the workers of `mine` and to their invocation. */
  ghost predicate LeftAlone(s: System, n: System, mine: set<nat>, id: Id) {
    && Inv(n) && Unheld(n, mine, id)
    && WorkersKept(s, n, mine)
    && Trace(n.log, id) == Trace(s.log, id)
    && SlotKept(s, n, id)
  }

  lemma {:induction false} LoggedElsewhere(s: System, n: System, w: nat, id: Id)
    requires LogsOwn(s, n, w) && (w in n.workers ==> !Holding(n.workers[w], id))
    ensures Trace(n.log, id) == Trace(s.log, id)
  {
    if n.log != s.log { TraceAppend(s.log, n.log[|n.log| - 1], id); }
  }

  lemma StillUnheld(s: System, n: System, w: nat, mine: set<nat>, id: Id)
    requires Unheld(s, mine, id) && w !in mine && SameBut(s, n, w) && HoldsOwn(s, n, w) && R.Spent(n.store, id)
    ensures Unheld(n, mine, id)
  {}

  lemma WorkerStepLeavesAlone(s: System, n: System, w: nat, minted: set<Id>, mine: set<nat>, id: Id)
    requires Inv(s) && Unheld(s, mine, id) && w !in mine && Own(s, n, w, minted) && Inv(n)
    ensures LeftAlone(s, n, mine, id)
  {
    CallKeepsSlot(s, n, Held(s, w), minted, id);
    StillUnheld(s, n, w, mine, id);
    LoggedElsewhere(s, n, w, id);
  }

  lemma SurroundingStepLeavesAlone(s: System, e: Event, mine: set<nat>, id: Id)
    requires Inv(s) && Unheld(s, mine, id) && !ByWorker(e)
    ensures LeftAlone(s, Step(s, e), mine, id)
  {
    StepKeepsInv(s, e);
    SurroundingStep(s, e);
    CallKeepsSlot(s, Step(s, e), {}, Minted(e), id);
  }

  lemma StepLeavesAlone(s: System, e: Event, mine: set<nat>, id: Id)
    requires Inv(s) && Unheld(s, mine, id) && Elsewhere(e, mine)
    ensures LeftAlone(s, Step(s, e), mine, id)
  {
    if ByWorker(e) {
      StepKeepsInv(s, e);
      StepIsOwn(s, e);
      WorkerStepLeavesAlone(s, Step(s, e), e.w, Minted(e), mine, id);
    } else {
      SurroundingStepLeavesAlone(s, e, mine, id);
    }
  }

  lemma LeftAloneTwice(s: System, m: System, n: System, mine: set<nat>, id: Id)
    requires LeftAlone(s, m, mine, id) && LeftAlone(m, n, mine, id)
    ensures LeftAlone(s, n, mine, id)
  {}

  /** Whatever the others do, a worker of `mine`, the trace of its invocation and its slot stay. */
  lemma {:induction false} RunLeavesAlone(s: System, es: seq<Event>, mine: set<nat>, id: Id)
    requires Inv(s) && Unheld(s, mine, id) && forall e :: e in es ==> Elsewhere(e, mine)
    ensures LeftAlone(s, Run(s, es), mine, id)
    decreases |es|
  {
    if es != [] {
      var m := Step(s, es[0]);
      StepLeavesAlone(s, es[0], mine, id);
      RunLeavesAlone(m, es[1..], mine, id);
      LeftAloneTwice(s, m, Run(m, es[1..]), mine, id);
    }
  }

  // ---------------------------------------------------------------- identifiers

  lemma CallIssues(s: System, n: System, held: set<Id>, minted: set<Id>, id: Id)
    requires CallsOwn(s, n, held, minted) && id !in s.store.issued && id !in minted
    ensures id !in n.store.issued
  {}

  lemma {:induction false} RunIssues(s: System, es: seq<Event>, id: Id)
    requires Inv(s) && id !in s.store.issued && forall e :: e in es ==> id !in Minted(e)
    ensures id !in Run(s, es).store.issued
    decreases |es|
  {
    if es != [] {
      var e, n := es[0], Step(s, es[0]);
      if ByWorker(e) { StepIsOwn(s, e); } else { SurroundingStep(s, e); }
      CallIssues(s, n, if ByWorker(e) then Held(s, e.w) else {}, Minted(e), id);
      StepKeepsInv(s, e);
      RunIssues(n, es[1..], id);
    }
  }

  // ---------------------------------------------------------------- leaks

  ghost predicate Taken(s: System, scope: Scope, id: Id) { SessionOf(s.store.tables, scope).active == Some(id) }

  lemma {:induction false} UnheldStays(s: System, later: seq<Event>, scope: Scope, id: Id)
    requires Inv(s) && Taken(s, scope, id) && Unheld(s, {}, id)
    ensures Taken(Run(s, later), scope, id)
  {
    RunLeavesAlone(s, later, {}, id);
  }

  lemma {:induction false} FinishOnce(s: System, w: nat)
    requires w in s.workers && (s.workers[w].Live? || s.workers[w].Ending?)
    ensures Run(s, [Finish(w, true)]) == OnFinish(s, w, true)
  {
    RunOnce(s, Finish(w, true));
  }

  lemma HeldCanFinish(s: System, w: nat, scope: Scope, id: Id)
    requires Inv(s) && w in s.workers && Holding(s.workers[w], id)
    ensures !Taken(OnFinish(s, w, true), scope, id)
  {
    S.FinishReleases(s, w);
  }

  lemma {:induction false} HeldIsNotLeaked(s: System, w: nat, scope: Scope, id: Id)
    requires Inv(s) && w in s.workers && Holding(s.workers[w], id)
    ensures !forall later :: Taken(Run(s, later), scope, id)
  {
    HeldCanFinish(s, w, scope, id);
    FinishOnce(s, w);
    assert !Taken(Run(s, [Finish(w, true)]), scope, id);
  }

  lemma TakenIsSpent(s: System, scope: Scope, id: Id)
    requires R.Valid(s.store) && Taken(s, scope, id)
    ensures R.Spent(s.store, id)
  {
    assert R.SlotOwned(s.store, scope);
  }

  lemma {:induction false} UnheldLeaks(s: System, scope: Scope, id: Id)
    requires Inv(s) && Taken(s, scope, id) && Unheld(s, {}, id)
    ensures forall later :: Taken(Run(s, later), scope, id)
  {
    forall later ensures Taken(Run(s, later), scope, id) { UnheldStays(s, later, scope, id); }
  }

  lemma {:induction false} LeaksIff(s: System, scope: Scope, id: Id)
    requires Inv(s) && Taken(s, scope, id)
    ensures (forall later :: Taken(Run(s, later), scope, id)) <==> (forall w :: w in s.workers ==> !Holding(s.workers[w], id))
  {
    TakenIsSpent(s, scope, id);
    if w :| w in s.workers && Holding(s.workers[w], id) {
      HeldIsNotLeaked(s, w, scope, id);
    } else {
      UnheldLeaks(s, scope, id);
    }
  }

  /** A slot whose worker is gone is never given back, whatever runs afterwards; one that a worker
      still holds is given back by that worker's finish. */
  lemma {:induction false} SlotLeaksIff(codec: AuditChain.Codec, es: seq<Event>, scope: Scope, id: Id)
    requires Taken(Run(Start(codec), es), scope, id)
    ensures var s := Run(Start(codec), es);
            (forall later :: Taken(Run(s, later), scope, id)) <==> (forall w :: w in s.workers ==> !Holding(s.workers[w], id))
  {
    S.RunsAreSafe(codec, es);
    LeaksIff(Run(Start(codec), es), scope, id);
  }

  /** The first stage of an invocation: a claim, or a native admission. */
  predicate Starts(m: Mark) { m.stage == Path(m.call)[0] }

  /** From s to n the chat started nothing. */
  ghost predicate NoStart(s: System, n: System, scope: Scope) {
    s.log <= n.log && forall k :: |s.log| <= k < |n.log| && Starts(n.log[k]) ==> n.log[k].scope != scope
  }

  lemma ClaimNoStart(s: System, w: nat, key: nat, scope: Scope, id: Id)
    requires Taken(s, scope, id) && w in s.workers && s.workers[w].Ready?
    ensures NoStart(s, OnClaim(s, w, key), scope)
  {
    var Ready(own, call) := s.workers[w];
    R.SlotStep(s.store.tables, R.Claim(key, call.config.scope, own, call.config.passport.callsPerSession, call.payload, s.clock), scope, id);
  }

  lemma NativeNoStart(s: System, w: nat, chat: Scope, token: Token, limit: int, scope: Scope, id: Id)
    requires Taken(s, scope, id) && w !in s.workers
    ensures NoStart(s, OnNative(s, w, chat, token, limit), scope)
  {
    R.SlotStep(s.store.tables, R.BeginNative(chat, token, limit), scope, id);
  }

  lemma MovedNoStart(s: System, n: System, w: nat, scope: Scope)
    requires Underway(s, w) && s.workers[w].done >= 1 && (n.log == s.log || n.log == Moved(s, w).log)
    ensures NoStart(s, n, scope)
  {}

  lemma AdmitLogs(s: System, w: nat)
    requires Underway(s, w)
    ensures OnAdmit(s, w).log == s.log || OnAdmit(s, w).log == Moved(s, w).log
  {}

  lemma AdvanceNoStart(s: System, w: nat, available: bool, scope: Scope)
    requires Underway(s, w) && s.workers[w].done >= 1
    ensures NoStart(s, OnAdvance(s, w, available), scope)
  {
    match StageAhead(s.workers[w])
    case Claimed => MovedNoStart(s, Failed(s, w), w, scope);
    case Consumed => S.ConsumeStageApart(s, w); MovedNoStart(s, OnConsume(s, w), w, scope);
    case Audited => S.AuditStageApart(s, w, available); MovedNoStart(s, OnAudit(s, w, available), w, scope);
    case Admitted => AdmitLogs(s, w); MovedNoStart(s, OnAdmit(s, w), w, scope);
    case Called => MovedNoStart(s, Moved(s, w), w, scope);
  }

  lemma SurroundingNoStart(s: System, e: Event, scope: Scope)
    requires e.Tick? || e.Preflight? || e.Control? || e.RevokeLeases? || e.Journal? || e.Vanish?
    ensures NoStart(s, Step(s, e), scope)
  {}

  lemma PreparingNoStart(s: System, e: Event, scope: Scope)
    requires e.Begin? || e.LoadRow? || e.Observe? || e.Rebuild?
    ensures NoStart(s, Step(s, e), scope)
  {}

  lemma EndingNoStart(s: System, e: Event, scope: Scope)
    requires e.Finish? || e.Review? || e.IssueLease? || e.Record?
    ensures NoStart(s, Step(s, e), scope)
  {}

  lemma LiveIsUnderway(s: System, w: nat)
    requires Inv(s) && Underway(s, w)
    ensures s.workers[w].done >= 1
  {
    assert WorkerOk(s, s.workers[w]);
  }

  lemma AdvanceStepNoStart(s: System, e: Event, scope: Scope)
    requires Inv(s) && e.Advance?
    ensures NoStart(s, Step(s, e), scope)
  {
    AdvanceIs(s, e.w, e.available);
    if Underway(s, e.w) { UnderwayNoStart(s, e.w, e.available, scope); }
  }

  lemma AdvanceIs(s: System, w: nat, available: bool)
    ensures Step(s, Advance(w, available)) == if Underway(s, w) then OnAdvance(s, w, available) else s
  {}

  lemma UnderwayNoStart(s: System, w: nat, available: bool, scope: Scope)
    requires Inv(s) && Underway(s, w)
    ensures NoStart(s, OnAdvance(s, w, available), scope)
  {
    LiveIsUnderway(s, w);
    AdvanceNoStart(s, w, available, scope);
  }

  lemma StartStepNoStart(s: System, e: Event, scope: Scope, id: Id)
    requires Taken(s, scope, id) && (e.Claim? || e.BeginNative?)
    ensures NoStart(s, Step(s, e), scope)
  {
    match e
    case Claim(w, key) => if w in s.workers && s.workers[w].Ready? { ClaimNoStart(s, w, key, scope, id); }
    case BeginNative(w, chat, token, limit) => if w !in s.workers { NativeNoStart(s, w, chat, token, limit, scope, id); }
  }

  lemma StepNoStart(s: System, e: Event, scope: Scope, id: Id)
    requires Inv(s) && Taken(s, scope, id)
    ensures NoStart(s, Step(s, e), scope)
  {
    if e.Advance? {
      AdvanceStepNoStart(s, e, scope);
    } else if e.Claim? || e.BeginNative? {
      StartStepNoStart(s, e, scope, id);
    } else if e.Tick? || e.Preflight? || e.Control? || e.RevokeLeases? || e.Journal? || e.Vanish? {
      SurroundingNoStart(s, e, scope);
    } else if e.Begin? || e.LoadRow? || e.Observe? || e.Rebuild? {
      PreparingNoStart(s, e, scope);
    } else {
      EndingNoStart(s, e, scope);
    }
  }

  /** So a chat whose call lost its worker before the finish starts no call any more: not by a claim,
      not by a native admission, not after a stop and a resume. */
  lemma {:induction false} LeakedChatStartsNothing(s: System, later: seq<Event>, scope: Scope, id: Id)
    requires Inv(s) && Taken(s, scope, id) && forall w :: w in s.workers ==> !Holding(s.workers[w], id)
    ensures NoStart(s, Run(s, later), scope)
    decreases |later|
  {
    if later != [] {
      var n := Step(s, later[0]);
      TakenIsSpent(s, scope, id);
      StepNoStart(s, later[0], scope, id);
      StepLeavesAlone(s, later[0], {}, id);
      LeakedChatStartsNothing(n, later[1..], scope, id);
    }
  }
}
