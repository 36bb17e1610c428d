/** What holds over every run of the decision store, whoever the callers are.

    A run is any list of transactions by any number of clients.  `issued` and `inFlight` are
    history: the chat each identifier was issued to, and the invocations that were admitted and
    have not finished. */
module DecisionRuns {
  import opened Domain
  import opened DecisionTables

  datatype Call =
    | Create(key: nat, scope: Scope, token: Token, payload: Payload, bytes: nat, now: int)
    | Load(key: nat, scope: Scope, id: Id, now: int)
    | Update(key: nat, scope: Scope, id: Id, payload: Payload, bytes: nat, now: int)
    | Disabled(scope: Scope)
    | Claim(key: nat, scope: Scope, id: Id, limit: int, payload: Payload, now: int)
    | BeginNative(scope: Scope, token: Token, limit: int)
    | Finish(scope: Scope, id: Id)
    | RevokeScope(scope: Scope)
    | ResumeScope(scope: Scope)
    | Invalidate(scope: Scope, id: Id)
    | Admit(scope: Scope, id: Id, payload: Payload, now: int)

  function After(t: Tables, c: Call): Tables {
    match c
    case Create(key, scope, id, payload, bytes, now) => DecisionTables.Create(t, key, scope, id, payload, bytes, now).tables
    case Load(key, scope, id, now) => DecisionTables.Load(t, key, scope, id, now).tables
    case Update(key, scope, id, payload, bytes, now) => DecisionTables.Update(t, key, scope, id, payload, bytes, now).tables
    case Disabled(scope) => DecisionTables.Disabled(t, scope).tables
    case Claim(key, scope, id, limit, payload, now) => DecisionTables.Claim(t, key, scope, id, limit, payload, now).tables
    case BeginNative(scope, id, limit) => DecisionTables.BeginNative(t, scope, id, limit).tables
    case Finish(scope, id) => DecisionTables.Finish(t, scope, id).tables
    case RevokeScope(scope) => DecisionTables.RevokeScope(t, scope).tables
    case ResumeScope(scope) => DecisionTables.ResumeScope(t, scope).tables
    case Invalidate(scope, id) => DecisionTables.Invalidate(t, scope, id).tables
    case Admit(scope, id, payload, now) => DecisionTables.Admit(t, scope, id, payload, now).tables
  }

  predicate Commits(t: Tables, c: Call) {
    match c
    case Create(key, scope, id, payload, bytes, now) => DecisionTables.Create(t, key, scope, id, payload, bytes, now).Commits()
    case Load(key, scope, id, now) => DecisionTables.Load(t, key, scope, id, now).Commits()
    case Update(key, scope, id, payload, bytes, now) => DecisionTables.Update(t, key, scope, id, payload, bytes, now).Commits()
    case Disabled(scope) => DecisionTables.Disabled(t, scope).Commits()
    case Claim(key, scope, id, limit, payload, now) => DecisionTables.Claim(t, key, scope, id, limit, payload, now).Commits()
    case BeginNative(scope, id, limit) => DecisionTables.BeginNative(t, scope, id, limit).Commits()
    case Finish(scope, id) => DecisionTables.Finish(t, scope, id).Commits()
    case RevokeScope(scope) => DecisionTables.RevokeScope(t, scope).Commits()
    case ResumeScope(scope) => DecisionTables.ResumeScope(t, scope).Commits()
    case Invalidate(scope, id) => DecisionTables.Invalidate(t, scope, id).Commits()
    case Admit(scope, id, payload, now) => DecisionTables.Admit(t, scope, id, payload, now).Commits()
  }

  datatype History = History(tables: Tables, issued: map<Id, Scope>, inFlight: map<Id, Profile>)

  const EMPTY := History(Tables(map[], map[], map[], map[]), map[], map[])

  /** Generated identifiers are new, and an invocation is finished under the chat it belongs to. */
  predicate Legal(h: History, c: Call) {
    && (c.Create? || c.BeginNative? ==> c.token !in h.issued)
    && (c.Finish? && c.id in h.issued ==> c.scope == h.issued[c.id])
  }

  function Next(h: History, c: Call): History {
    var t := After(h.tables, c);
    if !Commits(h.tables, c) then h.(tables := t)
    else if c.Create? then h.(tables := t, issued := h.issued[c.token := c.scope])
    else if c.BeginNative? then
      History(t, h.issued[c.token := c.scope], h.inFlight[c.token := c.scope.Owner()])
    else if c.Admit? then h.(tables := t, inFlight := h.inFlight[c.id := c.scope.Owner()])
    else if c.Finish? then h.(tables := t, inFlight := h.inFlight - {c.id})
    else h.(tables := t)
  }

  function Run(h: History, cs: seq<Call>): History
    decreases |cs|
  {
    if cs == [] then h else Run(Next(h, cs[0]), cs[1..])
  }

  predicate LegalRun(h: History, cs: seq<Call>)
    decreases |cs|
  {
    cs == [] || (Legal(h, cs[0]) && LegalRun(Next(h, cs[0]), cs[1..]))
  }

  // ---------------------------------------------------------------- admission consistency

  ghost predicate DecisionsOwned(h: History) {
    forall id :: id in h.tables.decisions ==> id in h.issued && h.issued[id] == h.tables.decisions[id].scope
  }

  /** An active invocation was issued to its chat, and its decision is spent. */
  ghost predicate SlotOwned(h: History, s: Scope) {
    var active := SessionOf(h.tables, s).active;
    active.Some? ==>
      && active.value in h.issued && h.issued[active.value] == s
      && (active.value in h.tables.decisions ==> h.tables.decisions[active.value].used)
  }

  /** An admission row is the active invocation of the chat its identifier was issued to, and was
      made under a generation no newer than the control row's - older, if the profile is stopped. */
  ghost predicate AdmissionHeld(h: History, id: Id) {
    id in h.tables.admissions ==>
      var a := h.tables.admissions[id];
      var control := ControlOf(h.tables, a.owner);
      && id in h.issued && h.issued[id].Owner() == a.owner
      && SessionOf(h.tables, h.issued[id]).active == Some(id)
      && (if control.stopped then a.generation < control.generation else a.generation <= control.generation)
  }

  /** Identifiers are issued by the program itself. */
  predicate TokensIssued(issued: map<Id, Scope>) { forall id :: id in issued ==> |id| == TOKEN_LENGTH }

  ghost predicate Valid(h: History) {
    && TokensIssued(h.issued)
    && DecisionsOwned(h)
    && (forall s :: SlotOwned(h, s))
    && (forall id :: AdmissionHeld(h, id))
    && h.inFlight == map id | id in h.tables.admissions :: h.tables.admissions[id].owner
  }

  /** What every transaction of a chat does to the rest of the tables. */
  ghost predicate Evolves(h: History, n: History, scope: Scope) {
    && (forall id :: id in h.issued ==> id in n.issued && n.issued[id] == h.issued[id])
    && (forall s :: s != scope ==> SessionOf(n.tables, s).active == SessionOf(h.tables, s).active)
    && (forall p :: ControlOf(n.tables, p) == ControlOf(h.tables, p)
                    || ControlOf(n.tables, p).generation > ControlOf(h.tables, p).generation)
    && (forall id :: id in n.tables.decisions ==>
          if id in h.tables.decisions
          then n.tables.decisions[id].scope == h.tables.decisions[id].scope && (h.tables.decisions[id].used ==> n.tables.decisions[id].used)
          else id !in h.issued && id in n.issued && n.issued[id] == n.tables.decisions[id].scope)
  }

  lemma EvolutionKeepsValid(h: History, n: History, scope: Scope)
    requires Valid(h) && Evolves(h, n, scope)
    requires TokensIssued(n.issued) && SlotOwned(n, scope)
    requires forall id :: id in n.tables.admissions ==>
               || AdmissionHeld(n, id)
               || (id in h.tables.admissions && n.tables.admissions[id] == h.tables.admissions[id]
                   && (SessionOf(h.tables, scope).active == Some(id) ==> SessionOf(n.tables, scope).active == Some(id)))
    requires n.inFlight == map id | id in n.tables.admissions :: n.tables.admissions[id].owner
    ensures Valid(n)
  {
    forall id ensures AdmissionHeld(n, id) { assert AdmissionHeld(h, id); }
    forall s ensures SlotOwned(n, s) { assert SlotOwned(h, s); }
  }

  lemma CreateKeeps(h: History, key: nat, scope: Scope, id: Token, payload: Payload, bytes: nat, now: int)
    requires Valid(h) && (id !in h.issued)
    ensures var x := DecisionTables.Create(h.tables, key, scope, id, payload, bytes, now);
            x.Commits() ==> Valid(h.(tables := x.tables, issued := h.issued[id := scope]))
  {
    var x := DecisionTables.Create(h.tables, key, scope, id, payload, bytes, now);
    var n := h.(tables := x.tables, issued := h.issued[id := scope]);
    assert SlotOwned(h, scope);
    if x.Commits() { EvolutionKeepsValid(h, n, scope); }
  }

  lemma LoadKeeps(h: History, key: nat, scope: Scope, id: Id, now: int)
    requires Valid(h)
    ensures var x := DecisionTables.Load(h.tables, key, scope, id, now);
            x.Commits() ==> Valid(h.(tables := x.tables))
  {
    var x := DecisionTables.Load(h.tables, key, scope, id, now);
    var n := h.(tables := x.tables);
    assert SlotOwned(h, scope);
    if x.Commits() { EvolutionKeepsValid(h, n, scope); }
  }

  lemma UpdateKeeps(h: History, key: nat, scope: Scope, id: Id, payload: Payload, bytes: nat, now: int)
    requires Valid(h)
    ensures var x := DecisionTables.Update(h.tables, key, scope, id, payload, bytes, now);
            x.Commits() ==> Valid(h.(tables := x.tables))
  {
    var x := DecisionTables.Update(h.tables, key, scope, id, payload, bytes, now);
    var n := h.(tables := x.tables);
    assert SlotOwned(h, scope);
    if x.Commits() { EvolutionKeepsValid(h, n, scope); }
  }

  lemma DisabledKeeps(h: History, scope: Scope)
    requires Valid(h)
    ensures var x := DecisionTables.Disabled(h.tables, scope);
            x.Commits() ==> Valid(h.(tables := x.tables))
  {
    var x := DecisionTables.Disabled(h.tables, scope);
    var n := h.(tables := x.tables);
    assert SlotOwned(h, scope);
    if x.Commits() { EvolutionKeepsValid(h, n, scope); }
  }

  lemma ClaimKeeps(h: History, key: nat, scope: Scope, id: Id, limit: int, payload: Payload, now: int)
    requires Valid(h)
    ensures var x := DecisionTables.Claim(h.tables, key, scope, id, limit, payload, now);
            x.Commits() ==> Valid(h.(tables := x.tables))
  {
    var x := DecisionTables.Claim(h.tables, key, scope, id, limit, payload, now);
    var n := h.(tables := x.tables);
    assert SlotOwned(h, scope);
    if x.Commits() { EvolutionKeepsValid(h, n, scope); }
  }

  lemma BeginNativeKeeps(h: History, scope: Scope, id: Token, limit: int)
    requires Valid(h) && (id !in h.issued)
    ensures var x := DecisionTables.BeginNative(h.tables, scope, id, limit);
            x.Commits() ==> Valid(h.(tables := x.tables, issued := h.issued[id := scope], inFlight := h.inFlight[id := scope.Owner()]))
  {
    var x := DecisionTables.BeginNative(h.tables, scope, id, limit);
    var n := h.(tables := x.tables, issued := h.issued[id := scope], inFlight := h.inFlight[id := scope.Owner()]);
    assert SlotOwned(h, scope);
    if x.Commits() { EvolutionKeepsValid(h, n, scope); }
  }

  lemma FinishKeeps(h: History, scope: Scope, id: Id)
    requires Valid(h) && (id in h.issued ==> h.issued[id] == scope)
    ensures var x := DecisionTables.Finish(h.tables, scope, id);
            x.Commits() ==> Valid(h.(tables := x.tables, inFlight := h.inFlight - {id}))
  {
    var x := DecisionTables.Finish(h.tables, scope, id);
    var n := h.(tables := x.tables, inFlight := h.inFlight - {id});
    assert SlotOwned(h, scope);
    if x.Commits() { EvolutionKeepsValid(h, n, scope); }
  }

  lemma RevokeScopeKeeps(h: History, scope: Scope)
    requires Valid(h)
    ensures var x := DecisionTables.RevokeScope(h.tables, scope);
            x.Commits() ==> Valid(h.(tables := x.tables))
  {
    var x := DecisionTables.RevokeScope(h.tables, scope);
    var n := h.(tables := x.tables);
    assert SlotOwned(h, scope);
    if x.Commits() { EvolutionKeepsValid(h, n, scope); }
  }

  lemma ResumeScopeKeeps(h: History, scope: Scope)
    requires Valid(h)
    ensures var x := DecisionTables.ResumeScope(h.tables, scope);
            x.Commits() ==> Valid(h.(tables := x.tables))
  {
    var x := DecisionTables.ResumeScope(h.tables, scope);
    var n := h.(tables := x.tables);
    assert SlotOwned(h, scope);
    if x.Commits() { EvolutionKeepsValid(h, n, scope); }
  }

  lemma InvalidateKeeps(h: History, scope: Scope, id: Id)
    requires Valid(h)
    ensures var x := DecisionTables.Invalidate(h.tables, scope, id);
            x.Commits() ==> Valid(h.(tables := x.tables))
  {
    var x := DecisionTables.Invalidate(h.tables, scope, id);
    var n := h.(tables := x.tables);
    assert SlotOwned(h, scope);
    if x.Commits() { EvolutionKeepsValid(h, n, scope); }
  }

  lemma AdmitKeeps(h: History, scope: Scope, id: Id, payload: Payload, now: int)
    requires Valid(h)
    ensures var x := DecisionTables.Admit(h.tables, scope, id, payload, now);
            x.Commits() ==> Valid(h.(tables := x.tables, inFlight := h.inFlight[id := scope.Owner()]))
  {
    var x := DecisionTables.Admit(h.tables, scope, id, payload, now);
    var n := h.(tables := x.tables, inFlight := h.inFlight[id := scope.Owner()]);
    assert SlotOwned(h, scope);
    if x.Commits() { EvolutionKeepsValid(h, n, scope); }
  }

  /** A transaction that fails is rolled back. */
  lemma FailureChangesNothing(t: Tables, c: Call)
    ensures Commits(t, c) || After(t, c) == t
  {}

  lemma RowStepKeepsValid(h: History, c: Call)
    requires Valid(h) && Legal(h, c) && Commits(h.tables, c) && (c.Create? || c.Load? || c.Update? || c.Disabled? || c.Invalidate?)
    ensures Valid(Next(h, c))
  {
    match c
    case Create(key, scope, id, payload, bytes, now) => CreateKeeps(h, key, scope, id, payload, bytes, now);
    case Load(key, scope, id, now) => LoadKeeps(h, key, scope, id, now);
    case Update(key, scope, id, payload, bytes, now) => UpdateKeeps(h, key, scope, id, payload, bytes, now);
    case Disabled(scope) => DisabledKeeps(h, scope);
    case Invalidate(scope, id) => InvalidateKeeps(h, scope, id);
  }

  lemma SlotStepKeepsValid(h: History, c: Call)
    requires Valid(h) && Legal(h, c) && Commits(h.tables, c)
    requires c.Claim? || c.BeginNative? || c.Finish? || c.RevokeScope? || c.ResumeScope? || c.Admit?
    ensures Valid(Next(h, c))
  {
    match c
    case Claim(key, scope, id, limit, payload, now) => ClaimKeeps(h, key, scope, id, limit, payload, now);
    case BeginNative(scope, id, limit) => BeginNativeKeeps(h, scope, id, limit);
    case Finish(scope, id) => FinishKeeps(h, scope, id);
    case RevokeScope(scope) => RevokeScopeKeeps(h, scope);
    case ResumeScope(scope) => ResumeScopeKeeps(h, scope);
    case Admit(scope, id, payload, now) => AdmitKeeps(h, scope, id, payload, now);
  }

  lemma StepKeepsValid(h: History, c: Call)
    requires Valid(h) && Legal(h, c)
    ensures Valid(Next(h, c))
  {
    FailureChangesNothing(h.tables, c);
    if Commits(h.tables, c) {
      if c.Create? || c.Load? || c.Update? || c.Disabled? || c.Invalidate? { RowStepKeepsValid(h, c); } else { SlotStepKeepsValid(h, c); }
    }
  }

  lemma {:induction false} RunKeepsValid(h: History, cs: seq<Call>)
    requires Valid(h) && LegalRun(h, cs)
    ensures Valid(Run(h, cs))
    decreases |cs|
  {
    if cs != [] {
      StepKeepsValid(h, cs[0]);
      RunKeepsValid(Next(h, cs[0]), cs[1..]);
    }
  }

  /** Every admission row is the active invocation of exactly one chat of its profile, and the rows
      are exactly the invocations admitted and not finished. */
  ghost predicate Consistent(h: History) {
    && h.tables.admissions.Keys == h.inFlight.Keys <= h.issued.Keys
    && (forall id :: id in h.inFlight ==> h.inFlight[id] == h.tables.admissions[id].owner == h.issued[id].Owner())
    && (forall id, s :: id in h.inFlight ==> (SessionOf(h.tables, s).active == Some(id) <==> s == h.issued[id]))
  }

  lemma ValidIsConsistent(h: History)
    requires Valid(h)
    ensures Consistent(h)
  {
    forall id | id in h.inFlight
      ensures id in h.issued && h.issued[id].Owner() == h.tables.admissions[id].owner
      ensures SessionOf(h.tables, h.issued[id]).active == Some(id)
    {
      assert AdmissionHeld(h, id);
    }
    forall id, s | id in h.inFlight && SessionOf(h.tables, s).active == Some(id) ensures s == h.issued[id] {
      assert SlotOwned(h, s);
    }
  }

  lemma {:induction false} AdmissionConsistency(cs: seq<Call>)
    requires LegalRun(EMPTY, cs)
    ensures Consistent(Run(EMPTY, cs))
  {
    RunKeepsValid(EMPTY, cs);
    ValidIsConsistent(Run(EMPTY, cs));
  }

  lemma {:induction false} OneCallPerChat(cs: seq<Call>, a: Id, b: Id)
    requires LegalRun(EMPTY, cs)
    requires var h := Run(EMPTY, cs); a in h.inFlight && b in h.inFlight
    ensures var h := Run(EMPTY, cs);
            a in h.issued && b in h.issued && (h.issued[a] == h.issued[b] ==> a == b)
  {
    AdmissionConsistency(cs);
    var h := Run(EMPTY, cs);
    assert SessionOf(h.tables, h.issued[a]).active == Some(a) && SessionOf(h.tables, h.issued[b]).active == Some(b);
  }

  /** A stop reports exactly the calls of its profile still in flight. */
  lemma {:induction false} StopCountsInFlight(cs: seq<Call>, scope: Scope)
    requires LegalRun(EMPTY, cs)
    ensures var h := Run(EMPTY, cs);
            DecisionTables.RevokeScope(h.tables, scope).result
            == Ok(|set id | id in h.inFlight && h.inFlight[id] == scope.Owner()|)
  {
    AdmissionConsistency(cs);
    var h := Run(EMPTY, cs);
    assert Outstanding(h.tables, scope.Owner()) == set id | id in h.inFlight && h.inFlight[id] == scope.Owner();
  }

  // ---------------------------------------------------------------- quota

  /** Calls that use up the quota of a chat: claims and native admissions. */
  predicate Charges(c: Call, scope: Scope) { (c.Claim? || c.BeginNative?) && c.scope == scope }

  /** How many of them commit in a run. */
  function Charged(h: History, cs: seq<Call>, scope: Scope): nat
    decreases |cs|
  {
    if cs == [] then 0
    else (if Charges(cs[0], scope) && Commits(h.tables, cs[0]) then 1 else 0) + Charged(Next(h, cs[0]), cs[1..], scope)
  }

  lemma ClaimCharges(t: Tables, c: Call, scope: Scope)
    requires c.Claim?
    ensures SessionOf(After(t, c), scope).calls
         == SessionOf(t, scope).calls + if Charges(c, scope) && Commits(t, c) then 1 else 0
    ensures Charges(c, scope) && Commits(t, c) ==> 0 <= SessionOf(t, scope).calls < c.limit
  {}

  lemma SweepsChargeNothing(t: Tables, c: Call, scope: Scope)
    requires c.RevokeScope? || c.ResumeScope?
    ensures SessionOf(After(t, c), scope).calls == SessionOf(t, scope).calls
  {}

  lemma NothingElseCharges(t: Tables, c: Call, scope: Scope)
    requires !c.Claim? && !c.BeginNative?
    ensures SessionOf(After(t, c), scope).calls == SessionOf(t, scope).calls
  {
    if c.RevokeScope? || c.ResumeScope? { SweepsChargeNothing(t, c, scope); }
  }

  lemma StepCharges(t: Tables, c: Call, scope: Scope)
    ensures SessionOf(After(t, c), scope).calls
         == SessionOf(t, scope).calls + if Charges(c, scope) && Commits(t, c) then 1 else 0
    ensures Charges(c, scope) && Commits(t, c) ==> 0 <= SessionOf(t, scope).calls < c.limit
  {
    if c.Claim? {
      ClaimCharges(t, c, scope);
    } else if !c.BeginNative? {
      NothingElseCharges(t, c, scope);
    }
  }

  /** Quota conservation: the stored count is the number of committed claims and native admissions,
      whatever stops, resumes, finishes, invalidations and expiry collections happen between them. */
  lemma {:induction false} QuotaConservation(h: History, cs: seq<Call>, scope: Scope)
    ensures SessionOf(Run(h, cs).tables, scope).calls == SessionOf(h.tables, scope).calls + Charged(h, cs, scope)
    decreases |cs|
  {
    if cs != [] {
      StepCharges(h.tables, cs[0], scope);
      QuotaConservation(Next(h, cs[0]), cs[1..], scope);
    }
  }

  /** So a whole run admits at most the limit. */
  lemma {:induction false} QuotaBound(h: History, cs: seq<Call>, scope: Scope, limit: nat)
    requires SessionOf(h.tables, scope).calls <= limit
    requires forall c :: c in cs && Charges(c, scope) ==> c.limit <= limit
    ensures SessionOf(h.tables, scope).calls + Charged(h, cs, scope) <= limit
    decreases |cs|
  {
    if cs != [] {
      StepCharges(h.tables, cs[0], scope);
      QuotaBound(Next(h, cs[0]), cs[1..], scope, limit);
    }
  }

  // ---------------------------------------------------------------- stop barrier

  predicate Dispatches(c: Call, owner: Profile) { (c.Admit? || c.BeginNative?) && c.scope.Owner() == owner }

  predicate NoResume(cs: seq<Call>, owner: Profile) {
    forall c :: c in cs ==> !(c.ResumeScope? && c.scope.Owner() == owner)
  }

  /** Admissions of the profile that commit in a run. */
  function AdmittedIn(h: History, cs: seq<Call>, owner: Profile): nat
    decreases |cs|
  {
    if cs == [] then 0
    else (if Dispatches(cs[0], owner) && Commits(h.tables, cs[0]) then 1 else 0) + AdmittedIn(Next(h, cs[0]), cs[1..], owner)
  }

  lemma StopStep(t: Tables, c: Call, owner: Profile)
    requires ControlOf(t, owner).stopped
    ensures Dispatches(c, owner) ==> !Commits(t, c)
    ensures !(c.ResumeScope? && c.scope.Owner() == owner) ==> ControlOf(After(t, c), owner).stopped
  {}

  /** A stopped profile admits nothing, in chats old or new, until it is resumed. */
  lemma {:induction false} StopBarrier(h: History, cs: seq<Call>, owner: Profile)
    requires ControlOf(h.tables, owner).stopped && NoResume(cs, owner)
    ensures AdmittedIn(h, cs, owner) == 0 && ControlOf(Run(h, cs).tables, owner).stopped
    decreases |cs|
  {
    if cs != [] {
      StopStep(h.tables, cs[0], owner);
      StopBarrier(Next(h, cs[0]), cs[1..], owner);
    }
  }

  lemma RevokeStops(t: Tables, scope: Scope)
    ensures ControlOf(DecisionTables.RevokeScope(t, scope).tables, scope.Owner()).stopped
  {}

  /** While a profile is stopped, what is still outstanding was admitted under an older generation. */
  lemma {:induction false} StoppedAdmissionsAreOlder(cs: seq<Call>, id: Id)
    requires LegalRun(EMPTY, cs)
    requires id in Run(EMPTY, cs).tables.admissions
    ensures var t := Run(EMPTY, cs).tables;
            var a := t.admissions[id];
            ControlOf(t, a.owner).stopped ==> a.generation < ControlOf(t, a.owner).generation
  {
    RunKeepsValid(EMPTY, cs);
    assert AdmissionHeld(Run(EMPTY, cs), id);
  }

  /** Two table states with the same rows of one profile. */
  ghost predicate SameDecisions(t: Tables, n: Tables, p: Profile) {
    forall id :: (id in t.decisions && t.decisions[id].scope.Owner() == p) || (id in n.decisions && n.decisions[id].scope.Owner() == p)
      ==> id in t.decisions && id in n.decisions && t.decisions[id] == n.decisions[id]
  }

  ghost predicate SameSessions(t: Tables, n: Tables, p: Profile) {
    && (forall s: Scope :: s.Owner() == p ==> (s in t.sessions <==> s in n.sessions))
    && (forall s: Scope :: s.Owner() == p && s in t.sessions ==> t.sessions[s] == n.sessions[s])
    && (p in t.control <==> p in n.control) && ControlOf(t, p) == ControlOf(n, p)
  }

  ghost predicate SameAdmissions(t: Tables, n: Tables, p: Profile) {
    forall id :: (id in t.admissions && t.admissions[id].owner == p) || (id in n.admissions && n.admissions[id].owner == p)
      ==> id in t.admissions && id in n.admissions && t.admissions[id] == n.admissions[id]
  }

  predicate SweepsDecisions(c: Call) { c.Create? || c.RevokeScope? || c.ResumeScope? }

  lemma SweepsIsolated(t: Tables, c: Call, other: Profile)
    requires c.scope.Owner() != other && SweepsDecisions(c)
    ensures SameDecisions(t, After(t, c), other)
  {}

  lemma RowWritesIsolated(t: Tables, c: Call, other: Profile)
    requires c.scope.Owner() != other && !SweepsDecisions(c)
    ensures SameDecisions(t, After(t, c), other)
  {}

  lemma DecisionsIsolated(t: Tables, c: Call, other: Profile)
    requires c.scope.Owner() != other
    ensures SameDecisions(t, After(t, c), other)
  {
    if SweepsDecisions(c) { SweepsIsolated(t, c, other); } else { RowWritesIsolated(t, c, other); }
  }

  lemma SweptSessionsIsolated(t: Tables, c: Call, other: Profile)
    requires c.scope.Owner() != other && (c.RevokeScope? || c.ResumeScope?)
    ensures SameSessions(t, After(t, c), other)
  {}

  lemma SlotSessionsIsolated(t: Tables, c: Call, other: Profile)
    requires c.scope.Owner() != other && (c.Claim? || c.BeginNative? || c.Finish?)
    ensures SameSessions(t, After(t, c), other)
  {}

  lemma OpenedSessionsIsolated(t: Tables, c: Call, other: Profile)
    requires c.scope.Owner() != other && (c.Create? || c.Load? || c.Update?)
    ensures SameSessions(t, After(t, c), other)
  {}

  lemma ReadSessionsIsolated(t: Tables, c: Call, other: Profile)
    requires c.scope.Owner() != other && (c.Disabled? || c.Invalidate? || c.Admit?)
    ensures SameSessions(t, After(t, c), other)
  {}

  lemma SessionsIsolated(t: Tables, c: Call, other: Profile)
    requires c.scope.Owner() != other
    ensures SameSessions(t, After(t, c), other)
  {
    if c.RevokeScope? || c.ResumeScope? {
      SweptSessionsIsolated(t, c, other);
    } else if c.Claim? || c.BeginNative? || c.Finish? {
      SlotSessionsIsolated(t, c, other);
    } else if c.Create? || c.Load? || c.Update? {
      OpenedSessionsIsolated(t, c, other);
    } else {
      ReadSessionsIsolated(t, c, other);
    }
  }

  lemma AdmissionsIsolated(h: History, c: Call, other: Profile)
    requires Valid(h) && Legal(h, c) && c.scope.Owner() != other
    ensures SameAdmissions(h.tables, After(h.tables, c), other)
  {
    if c.Finish? { assert AdmissionHeld(h, c.id); }
  }

  /** Stops, resumes and every other transaction of one profile leave the others' rows alone. */
  lemma {:induction false} ProfilesIsolated(h: History, cs: seq<Call>, other: Profile)
    requires Valid(h) && LegalRun(h, cs)
    requires forall c :: c in cs ==> c.scope.Owner() != other
    ensures var t := Run(h, cs).tables;
            SameDecisions(h.tables, t, other) && SameSessions(h.tables, t, other) && SameAdmissions(h.tables, t, other)
    decreases |cs|
  {
    if cs != [] {
      var c := cs[0];
      DecisionsIsolated(h.tables, c, other);
      SessionsIsolated(h.tables, c, other);
      AdmissionsIsolated(h, c, other);
      StepKeepsValid(h, c);
      ProfilesIsolated(Next(h, c), cs[1..], other);
    }
  }

  // ---------------------------------------------------------------- slots

  /** The chat's call in flight is this one, now and after every transaction of the run. */
  predicate Held(h: History, cs: seq<Call>, scope: Scope, id: Id)
    decreases |cs|
  {
    SessionOf(h.tables, scope).active == Some(id) && (cs == [] || Held(Next(h, cs[0]), cs[1..], scope, id))
  }

  lemma SweptSlotStays(t: Tables, c: Call, scope: Scope)
    requires c.RevokeScope? || c.ResumeScope?
    ensures SessionOf(After(t, c), scope).active == SessionOf(t, scope).active
  {}

  lemma SlotStep(t: Tables, c: Call, scope: Scope, id: Id)
    requires SessionOf(t, scope).active == Some(id)
    ensures SessionOf(After(t, c), scope).active == Some(id) <==> !(ValidId(id) && c == Finish(scope, id))
    ensures Charges(c, scope) ==> !Commits(t, c)
  {
    if c.RevokeScope? || c.ResumeScope? { SweptSlotStays(t, c, scope); }
  }

  /** A slot is given back by the finish of its own call and by nothing else. */
  lemma {:induction false} SlotIsHeldIff(h: History, cs: seq<Call>, scope: Scope, id: Id)
    requires SessionOf(h.tables, scope).active == Some(id) && ValidId(id)
    ensures Held(h, cs, scope, id) <==> Finish(scope, id) !in cs
    decreases |cs|
  {
    if cs != [] {
      SlotStep(h.tables, cs[0], scope, id);
      if cs[0] != Finish(scope, id) { SlotIsHeldIff(Next(h, cs[0]), cs[1..], scope, id); }
    }
  }

  /** While it is held every claim and native call of the chat is refused. */
  lemma {:induction false} HeldSlotRefusesCalls(h: History, cs: seq<Call>, scope: Scope, id: Id)
    requires Held(h, cs, scope, id)
    ensures Charged(h, cs, scope) == 0
    decreases |cs|
  {
    if cs != [] {
      SlotStep(h.tables, cs[0], scope, id);
      HeldSlotRefusesCalls(Next(h, cs[0]), cs[1..], scope, id);
    }
  }

  lemma {:induction false} HeldToTheEnd(h: History, cs: seq<Call>, scope: Scope, id: Id)
    requires Held(h, cs, scope, id)
    ensures SessionOf(Run(h, cs).tables, scope).active == Some(id)
    decreases |cs|
  {
    if cs != [] { HeldToTheEnd(Next(h, cs[0]), cs[1..], scope, id); }
  }

  // ---------------------------------------------------------------- what a stop does not do

  /** `claim` reads the chat's own flag: a chat with no row yet, as one first seen after a stop, claims
      whether or not its profile is stopped. */
  lemma LateChatClaims(t: Tables, key: nat, late: Scope, id: Id, limit: int, p: Payload, now: int)
    requires late !in t.sessions && LookUp(t, key, late, id, now) == Ok(p) && 0 < limit
    ensures Commits(t, Claim(key, late, id, limit, p, now))
    ensures SessionOf(After(t, Claim(key, late, id, limit, p, now)), late).active == Some(id)
  {}

  lemma UnadmittedStep(h: History, c: Call, id: Id, owner: Profile)
    requires Valid(h) && Legal(h, c) && id in h.issued && h.issued[id].Owner() == owner
    requires ControlOf(h.tables, owner).stopped && id !in h.tables.admissions
    ensures id !in After(h.tables, c).admissions
  {
    StopStep(h.tables, c, owner);
    StepKeepsValid(h, c);
    assert AdmissionHeld(Next(h, c), id);
  }

  lemma {:induction false} UnadmittedWhileStopped(h: History, cs: seq<Call>, id: Id, owner: Profile)
    requires Valid(h) && LegalRun(h, cs) && NoResume(cs, owner) && id in h.issued && h.issued[id].Owner() == owner
    requires ControlOf(h.tables, owner).stopped && id !in h.tables.admissions
    ensures id !in Run(h, cs).tables.admissions
    decreases |cs|
  {
    if cs != [] {
      UnadmittedStep(h, cs[0], id, owner);
      StopStep(h.tables, cs[0], owner);
      StepKeepsValid(h, cs[0]);
      UnadmittedWhileStopped(Next(h, cs[0]), cs[1..], id, owner);
    }
  }

  /** A claim made while the profile is stopped, by a late chat for one, is admitted in no run without
      a resume; but unless it is finished it keeps its slot, and is admitted once there is a resume. */
  lemma {:induction false} StoppedClaimWaitsForResume(h: History, claim: Call, cs: seq<Call>, resume: Scope, now: int)
    requires Valid(h) && claim.Claim? && Commits(h.tables, claim) && LegalRun(Next(h, claim), cs)
    requires ControlOf(h.tables, claim.scope.Owner()).stopped && NoResume(cs, claim.scope.Owner())
    requires resume.Owner() == claim.scope.Owner()
    ensures AdmittedIn(Next(h, claim), cs, claim.scope.Owner()) == 0
    ensures Finish(claim.scope, claim.id) !in cs && now < claim.payload.expiresUs ==>
      Commits(After(Run(Next(h, claim), cs).tables, ResumeScope(resume)), Admit(claim.scope, claim.id, claim.payload, now))
  {
    var owner, n := claim.scope.Owner(), Next(h, claim);
    assert DecisionsOwned(h) && h.issued[claim.id] == claim.scope && AdmissionHeld(h, claim.id);
    assert claim.id !in h.tables.admissions;
    StepKeepsValid(h, claim);
    StopStep(h.tables, claim, owner);
    StopBarrier(n, cs, owner);
    UnadmittedWhileStopped(n, cs, claim.id, owner);
    SlotIsHeldIff(n, cs, claim.scope, claim.id);
    if Finish(claim.scope, claim.id) !in cs { HeldToTheEnd(n, cs, claim.scope, claim.id); }
    AdmittedAfterResume(Run(n, cs).tables, resume, claim.scope, claim.id, claim.payload, now);
  }

  lemma AdmittedAfterResume(t: Tables, resume: Scope, scope: Scope, id: Id, p: Payload, now: int)
    requires resume.Owner() == scope.Owner()
    ensures ValidId(id) && SessionOf(t, scope).active == Some(id) && id !in t.admissions && now < p.expiresUs ==>
      Commits(After(t, ResumeScope(resume)), Admit(scope, id, p, now))
  {}

  /** A decision claimed before a stop keeps its slot and is admitted again after a resume. */
  lemma ClaimOutlivesStopAndResume(t: Tables, stop: Scope, scope: Scope, id: Id, p: Payload, now: int)
    requires stop.Owner() == scope.Owner() && ValidId(id)
    requires SessionOf(t, scope).active == Some(id) && id !in t.admissions && now < p.expiresUs
    ensures var stopped := After(t, RevokeScope(stop));
            && !Commits(stopped, Admit(scope, id, p, now))
            && Commits(After(stopped, ResumeScope(stop)), Admit(scope, id, p, now))
  {}

  // ---------------------------------------------------------------- single use

  /** Claims of one decision that commit in a run. */
  function ClaimsOf(h: History, cs: seq<Call>, id: Id): nat
    decreases |cs|
  {
    if cs == [] then 0
    else (if cs[0].Claim? && cs[0].id == id && Commits(h.tables, cs[0]) then 1 else 0) + ClaimsOf(Next(h, cs[0]), cs[1..], id)
  }

  /** Issued, and its row is gone or used. */
  predicate Spent(h: History, id: Id) {
    id in h.issued && (id in h.tables.decisions ==> h.tables.decisions[id].used)
  }

  lemma SweptStaysSpent(h: History, c: Call, id: Id)
    requires SweepsDecisions(c) && Legal(h, c) && Spent(h, id)
    ensures Spent(Next(h, c), id)
  {}

  lemma RowStaysSpent(h: History, c: Call, id: Id)
    requires !SweepsDecisions(c) && Legal(h, c) && Spent(h, id)
    ensures Spent(Next(h, c), id)
  {}

  lemma ClaimSpends(h: History, c: Call, id: Id)
    requires Valid(h) && c.Claim? && c.id == id && Commits(h.tables, c)
    ensures !Spent(h, id) && Spent(Next(h, c), id)
  {
    assert DecisionsOwned(h);
  }

  lemma SpentStep(h: History, c: Call, id: Id)
    requires Valid(h) && Legal(h, c)
    ensures Spent(h, id) ==> Spent(Next(h, c), id)
    ensures c.Claim? && c.id == id && Commits(h.tables, c) ==> !Spent(h, id) && Spent(Next(h, c), id)
  {
    if Spent(h, id) {
      if SweepsDecisions(c) { SweptStaysSpent(h, c, id); } else { RowStaysSpent(h, c, id); }
    }
    if c.Claim? && c.id == id && Commits(h.tables, c) { ClaimSpends(h, c, id); }
  }

  lemma {:induction false} SpentIsNeverClaimed(h: History, cs: seq<Call>, id: Id)
    requires Valid(h) && LegalRun(h, cs) && Spent(h, id)
    ensures ClaimsOf(h, cs, id) == 0
    decreases |cs|
  {
    if cs != [] {
      SpentStep(h, cs[0], id);
      StepKeepsValid(h, cs[0]);
      SpentIsNeverClaimed(Next(h, cs[0]), cs[1..], id);
    }
  }

  /** A decision is claimed at most once in any run. */
  lemma {:induction false} ClaimedAtMostOnce(h: History, cs: seq<Call>, id: Id)
    requires Valid(h) && LegalRun(h, cs)
    ensures ClaimsOf(h, cs, id) <= 1
    decreases |cs|
  {
    if cs != [] {
      SpentStep(h, cs[0], id);
      StepKeepsValid(h, cs[0]);
      if Spent(Next(h, cs[0]), id) {
        SpentIsNeverClaimed(Next(h, cs[0]), cs[1..], id);
      } else {
        ClaimedAtMostOnce(Next(h, cs[0]), cs[1..], id);
      }
    }
  }

  /** Whatever was issued to a profile before a stop or a resume of it commits is not claimed after
      it, in any chat and whatever stops and resumes follow. */
  lemma {:induction false} StopAndResumeKillUnclaimed(before: seq<Call>, c: Call, after: seq<Call>, id: Id)
    requires LegalRun(EMPTY, before) && (c.RevokeScope? || c.ResumeScope?)
    requires var h := Run(EMPTY, before);
             && id in h.issued && h.issued[id].Owner() == c.scope.Owner()
             && LegalRun(Next(h, c), after)
    ensures ClaimsOf(Next(Run(EMPTY, before), c), after, id) == 0
  {
    RunKeepsValid(EMPTY, before);
    var h := Run(EMPTY, before);
    StepKeepsValid(h, c);
    SpentIsNeverClaimed(Next(h, c), after, id);
  }
}
