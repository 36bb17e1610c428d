/** The guards are not too strong: wherever a chat is free to call, an approved call that is left
    alone goes through every stage. */
module DispatchWitness {
  import opened Domain
  import opened DecisionTables
  import R = DecisionRuns
  import L = LeaseTable
  import opened Dispatch
  import opened DispatchInvariant
  import AuditChain
  import AuditLog

  /** One call: what it is, the identifiers generated for it, and who makes it. */
  datatype Case = Case(config: Config, target: Target, arguments: Json, model: Option<string>, dataClass: DataClass,
                       assessment: Assessment, key: nat, id: Token, lease: Token, w: nat)
  {
    function Chat(): Scope { config.scope }

    function Gate(): Kind { if target.ToolTarget? then RemoteTool else Inference }

    function Terms(): Terms { NewTerms(config, target, arguments, model, dataClass, assessment, NeedsApproval) }

    function Agreed(at: int, leased: bool): Payload {
      Payload(Terms(), if leased then Some(lease) else None, at + DECISION_LIFETIME_US)
    }

    function Call(at: int): Call { Dispatch.Call(config, target, Agreed(at, true), assessment, true) }

    function Minutes(): int { config.passport.approvalLeaseMinutes }

    function Row(at: int, uses: nat): L.Row {
      L.Row(Chat(), Binding(Terms().request), at, at + Min(MAX_LEASE_SECONDS, Minutes() * 60) * L.SECOND_US, 1, uses, false, None, None)
    }
  }

  /** The chat has its slot and quota for one more call. */
  predicate Usable(k: Case, session: Session) {
    !session.disabled && session.active.None? && 0 <= session.calls < k.config.passport.callsPerSession
  }

  /** The chat can make one more call: nothing stops it, its quotas have room, the passport grants a
      lease, its log validates, and the identifiers are new. */
  predicate Open(k: Case, s: System) {
    var t := s.store.tables;
    && k.w !in s.workers && k.lease !in s.leases
    && k.id !in s.store.issued && k.id !in t.decisions && k.id !in t.admissions
    && !Stopped(s, k.Chat()) && Usable(k, SessionOf(t, k.Chat()))
    && |OpenDecisions(t, k.Chat()) - Stale(t, k.Chat(), s.clock)| < MAX_OPEN_DECISIONS
    && k.Minutes() >= 1
    && Appended(s.codec, s.audit, k.Chat(), DispatchText(k.id), s.clock).Some?
  }

  /** What no step before the claim changes, but for the worker. */
  ghost predicate Waiting(k: Case, s: System, n: System, leased: bool) {
    var t := n.store.tables;
    && n.clock == s.clock && n.codec == s.codec && n.audit == s.audit && n.log == s.log
    && !Stopped(n, k.Chat()) && Usable(k, SessionOf(t, k.Chat())) && k.id !in t.admissions
    && k.id in t.decisions
    && t.decisions[k.id] == Decision(k.Chat(), s.clock + DECISION_LIFETIME_US, false,
                                     Sealed(k.key, k.Chat(), k.id, k.Agreed(s.clock, leased)))
  }

  predicate Unleased(k: Case, n: System) { k.lease !in n.leases }

  predicate Leased(k: Case, s: System, n: System, uses: nat) { k.lease in n.leases && n.leases[k.lease] == k.Row(s.clock, uses) }

  predicate Idle(k: Case, n: System) { k.w !in n.workers }

  predicate At(k: Case, n: System, x: Worker) { k.w in n.workers && n.workers[k.w] == x }

  // ---------------------------------------------------------------- approval

  lemma SealCommits(k: Case, s: System, c: R.Call)
    requires Open(k, s) && c == R.Create(k.key, k.Chat(), k.id, k.Agreed(s.clock, false), 0, s.clock)
    ensures Commits(s, c)
  {
    assert k.id !in s.store.tables.decisions - Stale(s.store.tables, k.Chat(), s.clock);
  }

  lemma SealWaits(k: Case, s: System, c: R.Call)
    requires Open(k, s) && c == R.Create(k.key, k.Chat(), k.id, k.Agreed(s.clock, false), 0, s.clock) && Commits(s, c)
    ensures Waiting(k, s, Do(s, c), false)
  {}

  lemma Preflighted(k: Case, s: System)
    requires Open(k, s)
    ensures var n := Step(s, Preflight(k.id, k.key, 0, k.config, k.target, k.arguments, k.model, k.dataClass, k.assessment, NeedsApproval));
            Waiting(k, s, n, false) && Unleased(k, n) && Idle(k, n)
  {
    var c := R.Create(k.key, k.Chat(), k.id, k.Agreed(s.clock, false), 0, s.clock);
    SealCommits(k, s, c);
    SealWaits(k, s, c);
  }

  lemma Found(k: Case, s: System, n: System, leased: bool)
    requires Waiting(k, s, n, leased)
    ensures LookUp(n.store.tables, k.key, k.Chat(), k.id, n.clock) == Ok(k.Agreed(s.clock, leased))
  {}

  /** A step that only puts the worker elsewhere. */
  lemma StillWaiting(k: Case, s: System, n: System, leased: bool, x: Worker)
    requires Waiting(k, s, n, leased)
    ensures Waiting(k, s, Put(n, k.w, x), leased) && At(k, Put(n, k.w, x), x)
  {}

  lemma ReviewFits(k: Case, s: System, n: System)
    requires Waiting(k, s, n, false) && Idle(k, n)
    ensures Step(n, Review(k.w, k.Gate(), k.id, k.config, k.key))
         == Put(n, k.w, Reviewing(k.id, k.Chat(), k.Agreed(s.clock, false), k.Minutes()))
  {
    Found(k, s, n, false);
  }

  lemma Reviewed(k: Case, s: System, n: System)
    requires Waiting(k, s, n, false) && Unleased(k, n) && Idle(k, n)
    ensures var m := Step(n, Review(k.w, k.Gate(), k.id, k.config, k.key));
            Waiting(k, s, m, false) && Unleased(k, m) && At(k, m, Reviewing(k.id, k.Chat(), k.Agreed(s.clock, false), k.Minutes()))
  {
    ReviewFits(k, s, n);
    StillWaiting(k, s, n, false, Reviewing(k.id, k.Chat(), k.Agreed(s.clock, false), k.Minutes()));
  }

  lemma LeaseIsIssued(k: Case, leases: L.Rows, at: int)
    requires k.lease !in leases && k.Minutes() >= 1
    ensures L.Issue(leases, k.lease, k.Terms().binding.request, Min(MAX_LEASE_SECONDS, k.Minutes() * 60), 1, None, at)
         == (leases[k.lease := k.Row(at, 0)], None)
  {}

  lemma Issued(k: Case, s: System, n: System)
    requires Waiting(k, s, n, false) && Unleased(k, n) && At(k, n, Reviewing(k.id, k.Chat(), k.Agreed(s.clock, false), k.Minutes()))
    requires k.Minutes() >= 1
    ensures var m := Step(n, IssueLease(k.w, k.lease, None));
            Waiting(k, s, m, false) && Leased(k, s, m, 0) && At(k, m, Approved(k.id, k.Chat(), k.Agreed(s.clock, true)))
  {
    LeaseIsIssued(k, n.leases, n.clock);
    StillWaiting(k, s, n, false, Approved(k.id, k.Chat(), k.Agreed(s.clock, true)));
  }

  lemma UpdateCommits(k: Case, s: System, n: System, c: R.Call)
    requires Waiting(k, s, n, false) && c == R.Update(k.key, k.Chat(), k.id, k.Agreed(s.clock, true), 0, n.clock)
    ensures Commits(n, c) && Waiting(k, s, Do(n, c), true)
  {
    Found(k, s, n, false);
  }

  lemma RecordFits(k: Case, at: int, n: System, c: R.Call)
    requires At(k, n, Approved(k.id, k.Chat(), k.Agreed(at, true)))
    requires c == R.Update(k.key, k.Chat(), k.id, k.Agreed(at, true), 0, n.clock) && Commits(n, c)
    ensures Step(n, Record(k.w, k.key, 0)) == Drop(Do(n, c), k.w)
  {}

  lemma Recorded(k: Case, s: System, n: System)
    requires Waiting(k, s, n, false) && Leased(k, s, n, 0) && At(k, n, Approved(k.id, k.Chat(), k.Agreed(s.clock, true)))
    ensures var m := Step(n, Record(k.w, k.key, 0));
            Waiting(k, s, m, true) && Leased(k, s, m, 0) && Idle(k, m)
  {
    var c := R.Update(k.key, k.Chat(), k.id, k.Agreed(s.clock, true), 0, n.clock);
    UpdateCommits(k, s, n, c);
    RecordFits(k, s.clock, n, c);
  }

  function Approval(k: Case): seq<Event> {
    [Preflight(k.id, k.key, 0, k.config, k.target, k.arguments, k.model, k.dataClass, k.assessment, NeedsApproval),
     Review(k.w, k.Gate(), k.id, k.config, k.key), IssueLease(k.w, k.lease, None), Record(k.w, k.key, 0)]
  }

  // ---------------------------------------------------------------- recheck

  lemma Started(k: Case, s: System, n: System)
    requires Waiting(k, s, n, true) && Leased(k, s, n, 0) && Idle(k, n)
    ensures var m := Step(n, Begin(k.w, k.Gate(), k.id, k.Chat(), k.Chat()));
            Waiting(k, s, m, true) && Leased(k, s, m, 0) && At(k, m, Begun(k.Gate(), k.id, k.Chat(), k.Chat()))
  {}

  lemma LoadFits(k: Case, s: System, n: System)
    requires Waiting(k, s, n, true) && At(k, n, Begun(k.Gate(), k.id, k.Chat(), k.Chat()))
    ensures Step(n, LoadRow(k.w, k.key)) == Put(n, k.w, Loaded(k.Gate(), k.id, k.Chat(), k.Chat(), k.Agreed(s.clock, true)))
  {
    Found(k, s, n, true);
  }

  lemma LoadedAgain(k: Case, s: System, n: System)
    requires Waiting(k, s, n, true) && Leased(k, s, n, 0) && At(k, n, Begun(k.Gate(), k.id, k.Chat(), k.Chat()))
    ensures var m := Step(n, LoadRow(k.w, k.key));
            && Waiting(k, s, m, true) && Leased(k, s, m, 0)
            && At(k, m, Loaded(k.Gate(), k.id, k.Chat(), k.Chat(), k.Agreed(s.clock, true)))
  {
    LoadFits(k, s, n);
    StillWaiting(k, s, n, true, Loaded(k.Gate(), k.id, k.Chat(), k.Chat(), k.Agreed(s.clock, true)));
  }

  lemma SeenAgain(k: Case, at: int, n: System)
    requires At(k, n, Loaded(k.Gate(), k.id, k.Chat(), k.Chat(), k.Agreed(at, true))) && !Stopped(n, k.Chat())
    ensures Step(n, Observe(k.w, Some(k.target))) == Put(n, k.w, Observed(k.Gate(), k.id, k.Chat(), k.Agreed(at, true), k.target))
  {}

  lemma ObservedAgain(k: Case, s: System, n: System)
    requires Waiting(k, s, n, true) && Leased(k, s, n, 0)
    requires At(k, n, Loaded(k.Gate(), k.id, k.Chat(), k.Chat(), k.Agreed(s.clock, true)))
    ensures var m := Step(n, Observe(k.w, Some(k.target)));
            && Waiting(k, s, m, true) && Leased(k, s, m, 0)
            && At(k, m, Observed(k.Gate(), k.id, k.Chat(), k.Agreed(s.clock, true), k.target))
  {
    SeenAgain(k, s.clock, n);
    StillWaiting(k, s, n, true, Observed(k.Gate(), k.id, k.Chat(), k.Agreed(s.clock, true), k.target));
  }

  lemma RecheckPasses(k: Case, at: int)
    ensures Rechecked(Observed(k.Gate(), k.id, k.Chat(), k.Agreed(at, true), k.target), false, k.config, true, NeedsApproval, k.assessment)
         == Passed(k.Call(at))
  {}

  lemma Rebuilt(k: Case, s: System, n: System)
    requires Waiting(k, s, n, true) && Leased(k, s, n, 0)
    requires At(k, n, Observed(k.Gate(), k.id, k.Chat(), k.Agreed(s.clock, true), k.target))
    ensures var m := Step(n, Rebuild(k.w, k.config, true, NeedsApproval, k.assessment));
            Waiting(k, s, m, true) && Leased(k, s, m, 0) && At(k, m, Ready(k.id, k.Call(s.clock)))
  {
    RecheckPasses(k, s.clock);
    assert Step(n, Rebuild(k.w, k.config, true, NeedsApproval, k.assessment)) == Put(n, k.w, Ready(k.id, k.Call(s.clock)));
    StillWaiting(k, s, n, true, Ready(k.id, k.Call(s.clock)));
  }

  function Recheck(k: Case): seq<Event> {
    [Begin(k.w, k.Gate(), k.id, k.Chat(), k.Chat()), LoadRow(k.w, k.key), Observe(k.w, Some(k.target)),
     Rebuild(k.w, k.config, true, NeedsApproval, k.assessment)]
  }

  // ---------------------------------------------------------------- the five stages

  const STAGES := [Claimed, Stage.Consumed, Audited, Admitted, Called]

  function Log(k: Case, s: System, done: nat): seq<Mark>
    requires done <= 5
  {
    if done == 0 then s.log else Log(k, s, done - 1) + [Mark(k.id, k.Chat(), STAGES[done - 1], s.clock, Some(k.Call(s.clock)))]
  }

  /** The first stages are done. */
  ghost predicate During(k: Case, s: System, n: System, done: nat)
    requires 1 <= done <= 5
  {
    var t := n.store.tables;
    && n.clock == s.clock && n.codec == s.codec && n.log == Log(k, s, done)
    && At(k, n, Live(k.id, k.Chat(), Some(k.Call(s.clock)), done))
    && !Stopped(n, k.Chat()) && SessionOf(t, k.Chat()).active == Some(k.id)
    && Leased(k, s, n, if done >= 2 then 1 else 0)
    && (if done >= 3 then DispatchInvariant.Recorded(n.audit, k.Chat(), AuditLog.Entry(DispatchText(k.id), s.clock)) else n.audit == s.audit)
    && (k.id in t.admissions <==> done >= 4)
  }

  lemma ClaimCommits(k: Case, s: System, n: System)
    requires Waiting(k, s, n, true)
    ensures var c := R.Claim(k.key, k.Chat(), k.id, k.config.passport.callsPerSession, k.Agreed(s.clock, true), n.clock);
            var t := R.After(n.store.tables, c);
            && Commits(n, c) && ControlOf(t, k.Chat().Owner()) == ControlOf(n.store.tables, k.Chat().Owner())
            && SessionOf(t, k.Chat()).active == Some(k.id) && t.admissions == n.store.tables.admissions
  {
    Found(k, s, n, true);
  }

  lemma ClaimFits(k: Case, at: int, n: System, c: R.Call)
    requires At(k, n, Ready(k.id, k.Call(at)))
    requires c == R.Claim(k.key, k.Chat(), k.id, k.config.passport.callsPerSession, k.Agreed(at, true), n.clock) && Commits(n, c)
    ensures Step(n, Claim(k.w, k.key))
         == Note(Put(Do(n, c), k.w, Live(k.id, k.Chat(), Some(k.Call(at)), 1)), k.id, k.Chat(), Claimed, Some(k.Call(at)))
  {}

  lemma Claims(k: Case, s: System, n: System)
    requires Waiting(k, s, n, true) && Leased(k, s, n, 0) && At(k, n, Ready(k.id, k.Call(s.clock)))
    ensures During(k, s, Step(n, Claim(k.w, k.key)), 1)
  {
    ClaimCommits(k, s, n);
    ClaimFits(k, s.clock, n, R.Claim(k.key, k.Chat(), k.id, k.config.passport.callsPerSession, k.Agreed(s.clock, true), n.clock));
    assert Log(k, s, 1) == Log(k, s, 0) + [Mark(k.id, k.Chat(), Claimed, s.clock, Some(k.Call(s.clock)))];
  }

  /** The stage ahead is the next of the five. */
  lemma {:induction false} NextStage(k: Case, s: System, n: System, done: nat)
    requires 1 <= done < 5 && During(k, s, n, done)
    ensures Underway(n, k.w) && StageAhead(n.workers[k.w]) == STAGES[done]
    ensures Dispatch.Moved(n, k.w).log == Log(k, s, done + 1)
    ensures At(k, Dispatch.Moved(n, k.w), Live(k.id, k.Chat(), Some(k.Call(s.clock)), done + 1))
  {}

  lemma AdvanceStep(n: System, w: nat)
    requires Underway(n, w)
    ensures match StageAhead(n.workers[w])
            case Consumed => Step(n, Advance(w, true)) == OnConsume(n, w)
            case Audited => Step(n, Advance(w, true)) == OnAudit(n, w, true)
            case Admitted => Step(n, Advance(w, true)) == OnAdmit(n, w)
            case _ => true
  {}

  lemma StageThrough(k: Case, s: System, n: System, m: System, done: nat)
    requires 1 <= done < 5 && During(k, s, n, done) && Underway(n, k.w)
    requires m.clock == n.clock && m.codec == n.codec
    requires m.workers == Dispatch.Moved(n, k.w).workers && m.log == Dispatch.Moved(n, k.w).log
    requires !Stopped(m, k.Chat()) && SessionOf(m.store.tables, k.Chat()).active == Some(k.id)
    requires k.id in m.store.tables.admissions <==> done >= 3
    requires Leased(k, s, m, 1)
    requires if done >= 2 then DispatchInvariant.Recorded(m.audit, k.Chat(), AuditLog.Entry(DispatchText(k.id), s.clock)) else m.audit == s.audit
    ensures During(k, s, m, done + 1)
  {
    NextStage(k, s, n, done);
  }

  lemma LeaseIsGood(k: Case, s: System, n: System)
    requires Leased(k, s, n, 0) && n.clock == s.clock && k.Minutes() >= 1
    ensures var c := L.Consume(n.leases, k.lease, k.Call(s.clock).Rebuilt(), n.clock);
            c.1.Allowed() && c.0 == n.leases[k.lease := k.Row(s.clock, 1)]
  {
    assert k.Call(s.clock).Rebuilt() == k.Terms().request;
  }

  lemma ConsumeCommits(k: Case, s: System, n: System)
    requires During(k, s, n, 1) && k.Minutes() >= 1 && Underway(n, k.w)
    ensures var m := OnConsume(n, k.w);
            m == Dispatch.Moved(n, k.w).(leases := m.leases, spentOn := m.spentOn) && Leased(k, s, m, 1)
  {
    LeaseIsGood(k, s, n);
  }

  lemma Consumes(k: Case, s: System, n: System)
    requires During(k, s, n, 1) && k.Minutes() >= 1
    ensures During(k, s, Step(n, Advance(k.w, true)), 2)
  {
    NextStage(k, s, n, 1);
    ConsumeCommits(k, s, n);
    StageThrough(k, s, n, OnConsume(n, k.w), 1);
    AdvanceStep(n, k.w);
  }

  lemma AuditCommits(k: Case, s: System, n: System, audit: Trails)
    requires During(k, s, n, 2) && Appended(s.codec, s.audit, k.Chat(), DispatchText(k.id), s.clock) == Some(audit) && Underway(n, k.w)
    ensures OnAudit(n, k.w, true) == Dispatch.Moved(n, k.w).(audit := audit)
  {}

  lemma AuditThrough(k: Case, s: System, n: System, m: System)
    requires During(k, s, n, 2) && Underway(n, k.w) && m == Dispatch.Moved(n, k.w).(audit := m.audit)
    requires DispatchInvariant.Recorded(m.audit, k.Chat(), AuditLog.Entry(DispatchText(k.id), s.clock))
    ensures During(k, s, m, 3)
  {
    StageThrough(k, s, n, m, 2);
  }

  lemma Audits(k: Case, s: System, n: System)
    requires During(k, s, n, 2) && Appended(s.codec, s.audit, k.Chat(), DispatchText(k.id), s.clock).Some?
    ensures During(k, s, Step(n, Advance(k.w, true)), 3)
  {
    NextStage(k, s, n, 2);
    AppendGrows(s.codec, s.audit, k.Chat(), DispatchText(k.id), s.clock);
    AuditCommits(k, s, n, Appended(s.codec, s.audit, k.Chat(), DispatchText(k.id), s.clock).value);
    AuditThrough(k, s, n, OnAudit(n, k.w, true));
    AdvanceStep(n, k.w);
  }

  lemma AdmitCommits(k: Case, s: System, n: System)
    requires During(k, s, n, 3)
    ensures var c := R.Admit(k.Chat(), k.id, k.Agreed(s.clock, true), n.clock);
            var t := R.After(n.store.tables, c);
            && Commits(n, c) && ControlOf(t, k.Chat().Owner()) == ControlOf(n.store.tables, k.Chat().Owner())
            && SessionOf(t, k.Chat()).active == Some(k.id) && k.id in t.admissions
  {}

  lemma AdmitMoves(k: Case, s: System, n: System)
    requires During(k, s, n, 3) && Underway(n, k.w)
    ensures OnAdmit(n, k.w) == Do(Dispatch.Moved(n, k.w), R.Admit(k.Chat(), k.id, k.Agreed(s.clock, true), n.clock))
  {
    AdmitCommits(k, s, n);
  }

  lemma Admits(k: Case, s: System, n: System)
    requires During(k, s, n, 3)
    ensures During(k, s, Step(n, Advance(k.w, true)), 4)
  {
    NextStage(k, s, n, 3);
    AdmitCommits(k, s, n);
    AdmitMoves(k, s, n);
    StageThrough(k, s, n, OnAdmit(n, k.w), 3);
    AdvanceStep(n, k.w);
  }

  lemma Calls(k: Case, s: System, n: System)
    requires During(k, s, n, 4)
    ensures During(k, s, Step(n, Advance(k.w, true)), 5)
  {
    NextStage(k, s, n, 4);
    assert Step(n, Advance(k.w, true)) == Dispatch.Moved(n, k.w);
  }

  function Execution(k: Case): seq<Event> {
    [Claim(k.w, k.key), Advance(k.w, true), Advance(k.w, true), Advance(k.w, true), Advance(k.w, true)]
  }

  // ---------------------------------------------------------------- the whole run

  function After4(s: System, es: seq<Event>): System
    requires |es| == 4
  {
    Step(Step(Step(Step(s, es[0]), es[1]), es[2]), es[3])
  }

  lemma {:induction false} FirstStep(s: System, es: seq<Event>)
    requires es != []
    ensures Run(s, es) == Run(Step(s, es[0]), es[1..])
  {}

  lemma {:induction false} FourSteps(s: System, es: seq<Event>)
    requires |es| == 4
    ensures Run(s, es) == After4(s, es)
  {
    var s1 := Step(s, es[0]);
    var s2 := Step(s1, es[1]);
    var s3 := Step(s2, es[2]);
    FirstStep(s, es);
    FirstStep(s1, es[1..]);
    assert es[1..][1..] == es[2..];
    FirstStep(s2, es[2..]);
    assert es[2..][1..] == [es[3]];
    FirstStep(s3, [es[3]]);
    assert [es[3]][1..] == [];
  }

  lemma {:induction false} ApprovalRuns(k: Case, s: System)
    requires Open(k, s)
    ensures var n := Run(s, Approval(k)); Waiting(k, s, n, true) && Leased(k, s, n, 0) && Idle(k, n)
  {
    var es := Approval(k);
    FourSteps(s, es);
    var n1 := Step(s, es[0]);
    var n2 := Step(n1, es[1]);
    var n3 := Step(n2, es[2]);
    Preflighted(k, s);
    Reviewed(k, s, n1);
    Issued(k, s, n2);
    Recorded(k, s, n3);
  }

  lemma {:induction false} RecheckRuns(k: Case, s: System, n: System)
    requires Waiting(k, s, n, true) && Leased(k, s, n, 0) && Idle(k, n)
    ensures var m := Run(n, Recheck(k)); Waiting(k, s, m, true) && Leased(k, s, m, 0) && At(k, m, Ready(k.id, k.Call(s.clock)))
  {
    var es := Recheck(k);
    FourSteps(n, es);
    var n1 := Step(n, es[0]);
    var n2 := Step(n1, es[1]);
    var n3 := Step(n2, es[2]);
    Started(k, s, n);
    LoadedAgain(k, s, n1);
    ObservedAgain(k, s, n2);
    Rebuilt(k, s, n3);
  }

  lemma {:induction false} ExecutionRuns(k: Case, s: System, n: System)
    requires Waiting(k, s, n, true) && Leased(k, s, n, 0) && At(k, n, Ready(k.id, k.Call(s.clock)))
    requires k.Minutes() >= 1 && Appended(s.codec, s.audit, k.Chat(), DispatchText(k.id), s.clock).Some?
    ensures During(k, s, Run(n, Execution(k)), 5)
  {
    var es := Execution(k);
    var n1 := Step(n, es[0]);
    assert Run(n, es) == Run(n1, es[1..]);
    FourSteps(n1, es[1..]);
    var n2 := Step(n1, es[1]);
    var n3 := Step(n2, es[2]);
    var n4 := Step(n3, es[3]);
    Claims(k, s, n);
    Consumes(k, s, n1);
    Audits(k, s, n2);
    Admits(k, s, n3);
    Calls(k, s, n4);
  }

  lemma {:induction false} OneMoreStage(log: seq<Mark>, m: Mark, t: seq<Stage>, done: nat)
    requires done < 5 && m.stage == STAGES[done] && Trace(log, m.id) == t + STAGES[..done]
    ensures Trace(log + [m], m.id) == t + STAGES[..done + 1]
  {
    TraceAppend(log, m, m.id);
    assert STAGES[..done + 1] == STAGES[..done] + [STAGES[done]];
  }

  lemma {:induction false} LogTraces(k: Case, s: System, done: nat)
    requires done <= 5
    ensures Trace(Log(k, s, done), k.id) == Trace(s.log, k.id) + STAGES[..done]
  {
    if done > 0 {
      LogTraces(k, s, done - 1);
      OneMoreStage(Log(k, s, done - 1), Mark(k.id, k.Chat(), STAGES[done - 1], s.clock, Some(k.Call(s.clock))), Trace(s.log, k.id), done - 1);
    }
  }

  /** Dispatched: every stage logged, the one lease use spent, the record in the audit store, and the
      admission outstanding. */
  ghost predicate Dispatched(k: Case, s: System, n: System) {
    && Trace(n.log, k.id) == Trace(s.log, k.id) + [Claimed, Stage.Consumed, Audited, Admitted, Called]
    && k.lease in n.leases && n.leases[k.lease].useCount == 1 == n.leases[k.lease].maxUses
    && DispatchInvariant.Recorded(n.audit, k.Chat(), AuditLog.Entry(DispatchText(k.id), s.clock))
    && k.id in n.store.tables.admissions
  }

  lemma LastStage(k: Case, s: System, n: System)
    requires During(k, s, n, 5)
    ensures Dispatched(k, s, n)
  {
    LogTraces(k, s, 5);
    assert STAGES[..5] == STAGES;
  }

  lemma {:induction false} WholeRun(k: Case, s: System)
    ensures Run(s, Approval(k) + Recheck(k) + Execution(k)) == Run(Run(Run(s, Approval(k)), Recheck(k)), Execution(k))
  {
    RunsJoin(s, Approval(k), Recheck(k));
    RunsJoin(s, Approval(k) + Recheck(k), Execution(k));
  }

  /** From any state in which its chat is open, a call that is preflighted, approved and invoked with
      nothing in between is dispatched, be it a remote tool or an inference. */
  lemma {:induction false} ApprovedCallIsDispatched(k: Case, s: System)
    requires Open(k, s)
    ensures Dispatched(k, s, Run(s, Approval(k) + Recheck(k) + Execution(k)))
  {
    var approved := Run(s, Approval(k));
    var ready := Run(approved, Recheck(k));
    WholeRun(k, s);
    ApprovalRuns(k, s);
    RecheckRuns(k, s, approved);
    ExecutionRuns(k, s, ready);
    LastStage(k, s, Run(ready, Execution(k)));
  }
}
