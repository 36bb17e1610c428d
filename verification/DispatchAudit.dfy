/** The dispatch protocol over the audit store: what is stored of every chat is the log of the events
    appended to it, and a dispatch is one of them. */
module DispatchAudit {
  import opened Domain
  import opened Dispatch
  import opened DispatchInvariant
  import opened AuditChain
  import opened AuditLog
  import S = DispatchSafety

  /** The stored state is the log less its first `base` events, and every event but the last is
      within the limits validation sets. */
  ghost predicate Stands(c: Codec, scope: Scope, t: Trail, base: nat) {
    && Refines(c, scope, t.stored, t.entries, base) && |t.stored.rows| <= MAX_EVENTS
    && (t.entries != [] ==> base < |t.entries| && Bounded(c, scope, t.entries[..|t.entries| - 1]))
  }

  ghost predicate TrailOk(c: Codec, scope: Scope, t: Trail) { exists base: nat :: Stands(c, scope, t, base) }

  ghost predicate TrailsOk(c: Codec, audit: Trails) { forall scope :: TrailOk(c, scope, TrailOf(audit, scope)) }

  /** What append finds: it validates exactly if the whole log is within the limits. */
  lemma StandsIsValidIff(c: Codec, scope: Scope, t: Trail, base: nat)
    requires Lawful(c) && Stands(c, scope, t, base)
    ensures ValidState(c, scope, t.stored.head, Read(t.stored.rows), map[]) <==> Bounded(c, scope, t.entries)
  {
    if t.entries != [] { RefinedIsValidIff(c, scope, t.stored, t.entries, base); }
  }

  /** An append to a chat commits exactly if every event so far was within the limits. */
  lemma AppendedIff(c: Codec, audit: Trails, scope: Scope, event: string, now: int)
    requires Lawful(c) && TrailsOk(c, audit)
    ensures Appended(c, audit, scope, event, now).Some? <==> Bounded(c, scope, TrailOf(audit, scope).entries)
  {
    var t := TrailOf(audit, scope);
    assert TrailOk(c, scope, t);
    var base: nat :| Stands(c, scope, t, base);
    StandsIsValidIff(c, scope, t, base);
  }

  lemma AppendKeepsTrail(c: Codec, scope: Scope, t: Trail, e: Entry)
    requires Lawful(c) && TrailOk(c, scope, t) && Bounded(c, scope, t.entries)
    ensures var q := Append(c, scope, t.stored, map[], e.event, e.now);
            q.Some? && TrailOk(c, scope, Trail(q.value, t.entries + [e]))
  {
    var base: nat :| Stands(c, scope, t, base);
    var q, base' := AppendRefines(c, scope, t.stored, t.entries, base, map[], e);
    assert (t.entries + [e])[..|t.entries|] == t.entries;
    assert Stands(c, scope, Trail(q, t.entries + [e]), base');
  }

  lemma AppendKeepsTrails(c: Codec, audit: Trails, scope: Scope, event: string, now: int)
    requires Lawful(c) && TrailsOk(c, audit)
    ensures var q := Appended(c, audit, scope, event, now); q.Some? ==> TrailsOk(c, q.value)
  {
    var q := Appended(c, audit, scope, event, now);
    if q.Some? {
      AppendedIff(c, audit, scope, event, now);
      AppendKeepsTrail(c, scope, TrailOf(audit, scope), Entry(event, now));
      forall x ensures TrailOk(c, x, TrailOf(q.value, x)) {
        assert x != scope ==> TrailOf(q.value, x) == TrailOf(audit, x);
      }
    }
  }

  // ---------------------------------------------------------------- steps

  /** The audit store keeps its encoding and has at most this one event more. */
  ghost predicate AtMostAppends(s: System, n: System, scope: Scope, event: string) {
    n.codec == s.codec && (n.audit == s.audit || Appended(s.codec, s.audit, scope, event, s.clock) == Some(n.audit))
  }

  lemma ConsumeAppends(s: System, w: nat)
    requires Underway(s, w)
    ensures OnConsume(s, w).codec == s.codec && OnConsume(s, w).audit == s.audit
  {}

  lemma AdmitAppends(s: System, w: nat)
    requires Underway(s, w)
    ensures OnAdmit(s, w).codec == s.codec && OnAdmit(s, w).audit == s.audit
  {}

  lemma AuditAppends(s: System, w: nat, available: bool)
    requires Underway(s, w)
    ensures AtMostAppends(s, OnAudit(s, w, available), s.workers[w].scope, DispatchText(s.workers[w].id))
  {}

  lemma AdvanceAppends(s: System, w: nat, available: bool)
    requires Underway(s, w)
    ensures AtMostAppends(s, OnAdvance(s, w, available), s.workers[w].scope, DispatchText(s.workers[w].id))
  {
    match StageAhead(s.workers[w])
    case Consumed => ConsumeAppends(s, w);
    case Audited => AuditAppends(s, w, available);
    case Admitted => AdmitAppends(s, w);
    case _ =>
  }

  /** The audit store is as it was. */
  ghost predicate AuditUntouched(s: System, n: System) { n.codec == s.codec && n.audit == s.audit }

  lemma SurroundingsAuditUntouched(s: System, e: Event)
    requires e.Tick? || e.Preflight? || e.Control? || e.RevokeLeases? || e.Vanish?
    ensures AuditUntouched(s, Step(s, e))
  {}

  lemma PreparationAuditUntouched(s: System, e: Event)
    requires e.Begin? || e.LoadRow? || e.Observe?
    ensures AuditUntouched(s, Step(s, e))
  {}

  lemma RebuildAuditUntouched(s: System, w: nat, config: Config, permitted: bool, policy: Outcome, assessment: Assessment)
    requires w in s.workers && s.workers[w].Observed?
    ensures AuditUntouched(s, OnRebuild(s, w, config, permitted, policy, assessment))
  {}

  lemma ExecutionAuditUntouched(s: System, e: Event)
    requires e.Claim? || e.Finish? || e.BeginNative?
    ensures AuditUntouched(s, Step(s, e))
  {}

  lemma ApprovalAuditUntouched(s: System, e: Event)
    requires e.Review? || e.IssueLease? || e.Record?
    ensures AuditUntouched(s, Step(s, e))
  {}

  lemma StepAuditUntouched(s: System, e: Event)
    requires !e.Journal? && !e.Advance?
    ensures AuditUntouched(s, Step(s, e))
  {
    if e.Rebuild? {
      if e.w in s.workers && s.workers[e.w].Observed? {
        RebuildAuditUntouched(s, e.w, e.config, e.permitted, e.policy, e.assessment);
      }
    } else if e.Begin? || e.LoadRow? || e.Observe? {
      PreparationAuditUntouched(s, e);
    } else if e.Claim? || e.Finish? || e.BeginNative? {
      ExecutionAuditUntouched(s, e);
    } else if e.Review? || e.IssueLease? || e.Record? {
      ApprovalAuditUntouched(s, e);
    } else {
      SurroundingsAuditUntouched(s, e);
    }
  }

  /** A step appends to one chat or leaves the audit store alone. */
  lemma StepAppends(s: System, e: Event) returns (scope: Scope, event: string)
    ensures AtMostAppends(s, Step(s, e), scope, event)
  {
    scope, event := Scope("", "", ""), "";
    if e.Journal? {
      scope, event := e.scope, e.event;
    } else if e.Advance? {
      if Underway(s, e.w) {
        scope, event := s.workers[e.w].scope, DispatchText(s.workers[e.w].id);
        AdvanceAppends(s, e.w, e.available);
      }
    } else {
      StepAuditUntouched(s, e);
    }
  }

  lemma {:induction false} RunKeepsCodec(s: System, es: seq<Event>)
    ensures Run(s, es).codec == s.codec
    decreases |es|
  {
    if es != [] {
      var scope, event := StepAppends(s, es[0]);
      RunKeepsCodec(Step(s, es[0]), es[1..]);
    }
  }

  lemma StepKeepsTrails(s: System, e: Event)
    requires Lawful(s.codec) && TrailsOk(s.codec, s.audit)
    ensures Step(s, e).codec == s.codec && TrailsOk(s.codec, Step(s, e).audit)
  {
    var scope, event := StepAppends(s, e);
    AppendKeepsTrails(s.codec, s.audit, scope, event, s.clock);
  }

  lemma {:induction false} RunKeepsTrails(s: System, es: seq<Event>)
    requires Lawful(s.codec) && TrailsOk(s.codec, s.audit)
    ensures Run(s, es).codec == s.codec && TrailsOk(s.codec, Run(s, es).audit)
    decreases |es|
  {
    if es != [] {
      StepKeepsTrails(s, es[0]);
      RunKeepsTrails(Step(s, es[0]), es[1..]);
    }
  }

  lemma {:induction false} TrailsStand(codec: Codec, es: seq<Event>)
    requires Lawful(codec)
    ensures Run(Start(codec), es).codec == codec && TrailsOk(codec, Run(Start(codec), es).audit)
  {
    assert forall scope :: Stands(codec, scope, TrailOf(map[], scope), 0);
    RunKeepsTrails(Start(codec), es);
  }

  // ---------------------------------------------------------------- what is recorded of a dispatch

  lemma RecordedAt(c: Codec, audit: Trails, scope: Scope, e: Entry) returns (base: nat, i: nat)
    requires Lawful(c) && TrailsOk(c, audit) && Recorded(audit, scope, e)
    ensures scope in audit && Stands(c, scope, audit[scope], base)
    ensures i < |audit[scope].entries| && audit[scope].entries[i] == e
    ensures base <= i ==> Holds(c, scope, audit[scope].entries, i, audit[scope].stored.rows[i - base])
  {
    var t := audit[scope];
    assert TrailOk(c, scope, TrailOf(audit, scope));
    base :| Stands(c, scope, t, base);
    i :| 0 <= i < |t.entries| && t.entries[i] == e;
    StoredRowsHoldTheEvents(c, scope, t.stored, t.entries, base);
    if base <= i { assert Holds(c, scope, t.entries, base + (i - base), t.stored.rows[i - base]); }
  }

  /** Nothing is dispatched before its record is in the audit store: the stored state of its chat is
      a log with that record in it, less a pruned prefix, and unless the record was pruned with that
      prefix one of the stored rows parses to it, with its number and time, under the hash of everything
      appended before it. */
  lemma DispatchRecordIsStored(codec: Codec, es: seq<Event>, k: nat) returns (j: nat, base: nat, i: nat)
    requires Lawful(codec) && k < |Run(Start(codec), es).log| && Run(Start(codec), es).log[k].stage.Called?
    ensures var s := Run(Start(codec), es);
            && j < k && s.log[j].id == s.log[k].id && s.log[j].stage.Audited?
            && s.log[k].scope in s.audit
            && var Trail(stored, entries) := s.audit[s.log[k].scope];
            && Refines(codec, s.log[k].scope, stored, entries, base)
            && i < |entries| && entries[i] == Entry("dispatch" + ":" + s.log[k].id, s.log[j].at)
            && (base <= i ==> Holds(codec, s.log[k].scope, entries, i, stored.rows[i - base]))
  {
    var s := Run(Start(codec), es);
    j := S.DispatchIsAudited(codec, es, k);
    TrailsStand(codec, es);
    base, i := RecordedAt(codec, s.audit, s.log[k].scope, Entry(DispatchText(s.log[k].id), s.log[j].at));
  }

  // ---------------------------------------------------------------- a locked log

  /** An event was appended to the chat that validation does not accept. */
  predicate Locked(s: System, scope: Scope) { !Bounded(s.codec, scope, TrailOf(s.audit, scope).entries) }

  /** No audit stage of the chat was completed from s to n. */
  ghost predicate Unaudited(s: System, n: System, scope: Scope) {
    && s.log <= n.log
    && forall k :: |s.log| <= k < |n.log| && n.log[k].stage.Audited? ==> n.log[k].scope != scope
  }

  lemma AuditUnaudited(s: System, w: nat, available: bool, scope: Scope)
    requires Underway(s, w)
    requires s.workers[w].scope == scope ==> Appended(s.codec, s.audit, scope, DispatchText(s.workers[w].id), s.clock).None?
    ensures Unaudited(s, OnAudit(s, w, available), scope)
  {}

  lemma ConsumeUnaudited(s: System, w: nat, scope: Scope)
    requires Underway(s, w) && StageAhead(s.workers[w]).Consumed?
    ensures Unaudited(s, OnConsume(s, w), scope)
  {}

  lemma AdmitUnaudited(s: System, w: nat, scope: Scope)
    requires Underway(s, w) && StageAhead(s.workers[w]).Admitted?
    ensures Unaudited(s, OnAdmit(s, w), scope)
  {}

  lemma AdvanceUnaudited(s: System, w: nat, available: bool, scope: Scope)
    requires Underway(s, w)
    requires s.workers[w].scope == scope ==> Appended(s.codec, s.audit, scope, DispatchText(s.workers[w].id), s.clock).None?
    ensures Unaudited(s, OnAdvance(s, w, available), scope)
  {
    match StageAhead(s.workers[w])
    case Consumed => ConsumeUnaudited(s, w, scope);
    case Audited => AuditUnaudited(s, w, available, scope);
    case Admitted => AdmitUnaudited(s, w, scope);
    case _ =>
  }

  lemma PreparationUnaudited(s: System, e: Event, scope: Scope)
    requires !e.Advance? && !e.Claim? && !e.BeginNative?
    ensures Unaudited(s, Step(s, e), scope)
  {}

  lemma StartUnaudited(s: System, e: Event, scope: Scope)
    requires e.Claim? || e.BeginNative?
    ensures Unaudited(s, Step(s, e), scope)
  {}

  lemma StepStaysLocked(s: System, e: Event, scope: Scope)
    requires Lawful(s.codec) && TrailsOk(s.codec, s.audit) && Locked(s, scope)
    ensures Locked(Step(s, e), scope) && Unaudited(s, Step(s, e), scope)
  {
    var at, event := StepAppends(s, e);
    AppendedIff(s.codec, s.audit, scope, event, s.clock);
    if e.Advance? {
      if Underway(s, e.w) {
        AppendedIff(s.codec, s.audit, scope, DispatchText(s.workers[e.w].id), s.clock);
        AdvanceUnaudited(s, e.w, e.available, scope);
      }
    } else if e.Claim? || e.BeginNative? {
      StartUnaudited(s, e, scope);
    } else {
      PreparationUnaudited(s, e, scope);
    }
  }

  lemma {:induction false} LockedAuditsNothing(s: System, es: seq<Event>, scope: Scope)
    requires Lawful(s.codec) && TrailsOk(s.codec, s.audit) && Locked(s, scope)
    ensures Unaudited(s, Run(s, es), scope)
    decreases |es|
  {
    if es != [] {
      StepKeepsTrails(s, es[0]);
      StepStaysLocked(s, es[0], scope);
      LockedAuditsNothing(Step(s, es[0]), es[1..], scope);
    }
  }

  /** Once one oversized event is in the log of a chat, nothing is dispatched for that chat any more
      but what had passed its audit stage by then. */
  lemma LockedChatDispatchesNothingNew(codec: Codec, before: seq<Event>, after: seq<Event>, k: nat) returns (j: nat)
    requires Lawful(codec)
    requires var s, n := Run(Start(codec), before), Run(Start(codec), before + after);
             k < |n.log| && n.log[k].stage.Called? && Locked(s, n.log[k].scope)
    ensures var s, n := Run(Start(codec), before), Run(Start(codec), before + after);
            j < |s.log| <= |n.log| && s.log[j].stage.Audited? && s.log[j].id == n.log[k].id
  {
    var s, n := Run(Start(codec), before), Run(Start(codec), before + after);
    RunsJoin(Start(codec), before, after);
    TrailsStand(codec, before);
    LockedAuditsNothing(s, after, n.log[k].scope);
    j := S.DispatchIsAudited(codec, before + after, k);
  }
}
