/** The decision store told by its history alone: which transactions commit in a run that began with
    empty tables, said in terms of the transactions that committed before.

    The functions here read the list of committed calls and never the tables.  A decision is what it was
    created and last sealed as, a chat is barred by a stop of its profile that found it there, busy
    until the finish of its own call, and charged for every claim and native call. */
module DecisionLedger {
  import opened Domain
  import T = DecisionTables
  import opened DecisionRuns

  type Log = seq<Call>

  /** What is known of a decision whose row has not been collected. */
  datatype Note = Note(scope: Scope, key: nat, payload: Payload, expiresUs: int, spent: bool)

  /** The calls of a run that commit. */
  function Committed(h: History, cs: seq<Call>): Log
    decreases |cs|
  {
    if cs == [] then [] else Logged(h, cs[0]) + Committed(Next(h, cs[0]), cs[1..])
  }

  function Logged(h: History, c: Call): Log { if Commits(h.tables, c) then [c] else [] }

  predicate Stops(c: Call, owner: Profile) { c.RevokeScope? && c.scope.Owner() == owner }

  predicate Resumes(c: Call, owner: Profile) { c.ResumeScope? && c.scope.Owner() == owner }

  // ---------------------------------------------------------------- the ledger

  /** What one committed call does to what is known of a decision. */
  function Noted(n: Option<Note>, c: Call, id: Id): Option<Note> {
    if c.Create? && c.token == id then
      Some(Note(c.scope, c.key, c.payload.(expiresUs := c.now + 300_000_000), c.now + 300_000_000, false))
    else if n.None? then None
    else if c.Create? then if c.scope == n.value.scope && n.value.expiresUs <= c.now then None else n
    else if c.Update? && c.id == id then Some(n.value.(key := c.key, payload := c.payload))
    else if c.Claim? && c.id == id then Some(n.value.(spent := true))
    else if c.Invalidate? && c.id == id && c.scope == n.value.scope then Some(n.value.(spent := true))
    else if Stops(c, n.value.scope.Owner()) || Resumes(c, n.value.scope.Owner()) then Some(n.value.(spent := true))
    else n
  }

  function NoteOf(log: Log, id: Id): Option<Note> {
    if log == [] then None else Noted(NoteOf(log[..|log| - 1], id), log[|log| - 1], id)
  }

  /** The chat has a row: some call of it has committed. */
  predicate Seen(log: Log, s: Scope) {
    log != [] && (log[|log| - 1].scope == s || Seen(log[..|log| - 1], s))
  }

  /** A stop that found the chat there, or was made in it, and no resume since. */
  predicate Barred(log: Log, s: Scope) {
    if log == [] then false
    else if Stops(log[|log| - 1], s.Owner()) then Seen(log, s)
    else !Resumes(log[|log| - 1], s.Owner()) && Barred(log[..|log| - 1], s)
  }

  /** The call that holds the chat's slot. */
  function Busy(log: Log, s: Scope): Option<Id> {
    if log == [] then None
    else
      var c, before := log[|log| - 1], Busy(log[..|log| - 1], s);
      if c.scope != s then before
      else if c.Claim? then Some(c.id)
      else if c.BeginNative? then Some(c.token)
      else if c.Finish? && before == Some(c.id) then None
      else before
  }

  function CallsOf(log: Log, s: Scope): nat {
    if log == [] then 0
    else CallsOf(log[..|log| - 1], s)
         + var c := log[|log| - 1]; if c.scope == s && (c.Claim? || c.BeginNative?) then 1 else 0
  }

  predicate Stopped(log: Log, owner: Profile) {
    log != [] && (Stops(log[|log| - 1], owner)
                  || (!Resumes(log[|log| - 1], owner) && Stopped(log[..|log| - 1], owner)))
  }

  /** The number of stops and resumes so far. */
  function Generation(log: Log, owner: Profile): nat {
    if log == [] then 0
    else Generation(log[..|log| - 1], owner)
         + if Stops(log[|log| - 1], owner) || Resumes(log[|log| - 1], owner) then 1 else 0
  }

  /** The profile and generation an invocation was admitted under, until it is finished. */
  function AdmittedAs(log: Log, id: Id): Option<(Profile, nat)> {
    if log == [] then None
    else
      var c, earlier := log[|log| - 1], log[..|log| - 1];
      if (c.Admit? && c.id == id) || (c.BeginNative? && c.token == id)
      then Some((c.scope.Owner(), Generation(earlier, c.scope.Owner())))
      else if c.Finish? && c.id == id then None
      else AdmittedAs(earlier, id)
  }

  // ---------------------------------------------------------------- the tables hold the ledger

  predicate NoteHolds(t: T.Tables, log: Log, id: Id) {
    var n := NoteOf(log, id);
    && (n.Some? <==> id in t.decisions)
    && (n.Some? ==>
          && |id| == TOKEN_LENGTH
          && t.decisions[id] == T.Decision(n.value.scope, n.value.expiresUs, n.value.spent,
                                           T.Sealed(n.value.key, n.value.scope, id, n.value.payload)))
  }

  predicate ChatHolds(t: T.Tables, log: Log, s: Scope) {
    && (s in t.sessions <==> Seen(log, s))
    && T.SessionOf(t, s) == T.Session(CallsOf(log, s), Barred(log, s), Busy(log, s))
  }

  predicate ProfileHolds(t: T.Tables, log: Log, p: Profile) {
    T.ControlOf(t, p) == T.Control(Generation(log, p), Stopped(log, p))
  }

  predicate AdmissionHolds(t: T.Tables, log: Log, id: Id) {
    var a := AdmittedAs(log, id);
    && (a.Some? <==> id in t.admissions)
    && (a.Some? ==> t.admissions[id] == T.Admission(a.value.0, a.value.1))
  }

  ghost predicate NotesHold(t: T.Tables, log: Log) { forall id :: NoteHolds(t, log, id) }
  ghost predicate ChatsHold(t: T.Tables, log: Log) { forall s :: ChatHolds(t, log, s) }
  ghost predicate ProfilesHold(t: T.Tables, log: Log) { forall p :: ProfileHolds(t, log, p) }
  ghost predicate AdmissionsHold(t: T.Tables, log: Log) { forall id :: AdmissionHolds(t, log, id) }

  ghost predicate Reflects(t: T.Tables, log: Log) {
    NotesHold(t, log) && ChatsHold(t, log) && ProfilesHold(t, log) && AdmissionsHold(t, log)
  }

  /** A seen chat that is new to a barred profile: barred only if seen. */
  lemma {:induction false} BarredIsSeen(log: Log, s: Scope)
    ensures Barred(log, s) ==> Seen(log, s)
    ensures Busy(log, s).Some? || CallsOf(log, s) > 0 ==> Seen(log, s)
  {
    if log != [] { BarredIsSeen(log[..|log| - 1], s); }
  }

  predicate Collects(t: T.Tables, c: Call, id: Id)
    requires c.Create? && id in t.decisions
  {
    t.decisions[id].scope == c.scope && t.decisions[id].expiresUs <= c.now
  }

  lemma CreatedRow(t: T.Tables, c: Call)
    requires c.Create? && Commits(t, c)
    ensures var d := After(t, c).decisions;
            c.token in d && d[c.token] == T.Decision(c.scope, c.now + 300_000_000, false,
                                                     T.Sealed(c.key, c.scope, c.token, c.payload.(expiresUs := c.now + 300_000_000)))
  {}

  lemma KeptRow(t: T.Tables, c: Call, id: Id)
    requires c.Create? && Commits(t, c) && id != c.token
    ensures var d := After(t, c).decisions;
            && (id in d <==> id in t.decisions && !Collects(t, c, id))
            && (id in d ==> d[id] == t.decisions[id])
  {}

  lemma CreatesNote(t: T.Tables, log: Log, c: Call, id: Id)
    requires NoteHolds(t, log, id) && Commits(t, c) && c.Create?
    ensures NoteHolds(After(t, c), log + [c], id)
  {
    assert (log + [c])[..|log|] == log;
    if id == c.token { CreatedRow(t, c); } else { KeptRow(t, c, id); }
  }

  lemma SweptNote(t: T.Tables, log: Log, c: Call, id: Id)
    requires NoteHolds(t, log, id) && Commits(t, c) && (c.RevokeScope? || c.ResumeScope?)
    ensures NoteHolds(After(t, c), log + [c], id)
  {
    assert (log + [c])[..|log|] == log;
  }

  lemma WrittenNote(t: T.Tables, log: Log, c: Call, id: Id)
    requires NoteHolds(t, log, id) && Commits(t, c) && !SweepsDecisions(c)
    ensures NoteHolds(After(t, c), log + [c], id)
  {
    assert (log + [c])[..|log|] == log;
  }

  lemma SweptChat(t: T.Tables, log: Log, c: Call, s: Scope)
    requires ChatHolds(t, log, s) && Commits(t, c) && (c.RevokeScope? || c.ResumeScope?)
    ensures ChatHolds(After(t, c), log + [c], s)
  {
    assert (log + [c])[..|log|] == log;
    BarredIsSeen(log, s);
  }

  lemma CalledChat(t: T.Tables, log: Log, c: Call, s: Scope)
    requires ChatHolds(t, log, s) && Commits(t, c) && (c.Claim? || c.BeginNative? || c.Finish?)
    ensures ChatHolds(After(t, c), log + [c], s)
  {
    assert (log + [c])[..|log|] == log;
    BarredIsSeen(log, s);
  }

  lemma OpenedChat(t: T.Tables, log: Log, c: Call, s: Scope)
    requires ChatHolds(t, log, s) && Commits(t, c)
    requires !c.RevokeScope? && !c.ResumeScope? && !c.Claim? && !c.BeginNative? && !c.Finish?
    ensures ChatHolds(After(t, c), log + [c], s)
  {
    assert (log + [c])[..|log|] == log;
    BarredIsSeen(log, s);
  }

  lemma SteeredProfile(t: T.Tables, log: Log, c: Call, p: Profile)
    requires ProfileHolds(t, log, p) && (c.RevokeScope? || c.ResumeScope?)
    ensures ProfileHolds(After(t, c), log + [c], p)
  {
    assert (log + [c])[..|log|] == log;
  }

  lemma ControlIsKept(t: T.Tables, c: Call, p: Profile)
    requires !c.RevokeScope? && !c.ResumeScope?
    ensures T.ControlOf(After(t, c), p) == T.ControlOf(t, p)
  {}

  lemma StepProfile(t: T.Tables, log: Log, c: Call, p: Profile)
    requires ProfileHolds(t, log, p)
    ensures ProfileHolds(After(t, c), log + [c], p)
  {
    if c.RevokeScope? || c.ResumeScope? {
      SteeredProfile(t, log, c, p);
    } else {
      assert (log + [c])[..|log|] == log;
      ControlIsKept(t, c, p);
    }
  }

  lemma MadeAdmission(t: T.Tables, log: Log, c: Call, id: Id)
    requires AdmissionHolds(t, log, id) && ProfileHolds(t, log, c.scope.Owner()) && Commits(t, c)
    requires c.Admit? || c.BeginNative?
    ensures AdmissionHolds(After(t, c), log + [c], id)
  {
    assert (log + [c])[..|log|] == log;
  }

  lemma AdmissionsAreKept(t: T.Tables, c: Call)
    requires Commits(t, c) && !c.Admit? && !c.BeginNative?
    ensures After(t, c).admissions == if c.Finish? then t.admissions - {c.id} else t.admissions
  {}

  lemma StepAdmission(t: T.Tables, log: Log, c: Call, id: Id)
    requires AdmissionHolds(t, log, id) && ProfileHolds(t, log, c.scope.Owner()) && Commits(t, c)
    ensures AdmissionHolds(After(t, c), log + [c], id)
  {
    if c.Admit? || c.BeginNative? {
      MadeAdmission(t, log, c, id);
    } else {
      assert (log + [c])[..|log|] == log;
      AdmissionsAreKept(t, c);
    }
  }

  lemma StepReflects(t: T.Tables, log: Log, c: Call)
    requires Reflects(t, log) && Commits(t, c)
    ensures Reflects(After(t, c), log + [c])
  {
    var a, l := After(t, c), log + [c];
    forall id ensures NoteHolds(a, l, id) {
      if c.Create? {
        CreatesNote(t, log, c, id);
      } else if SweepsDecisions(c) {
        SweptNote(t, log, c, id);
      } else {
        WrittenNote(t, log, c, id);
      }
    }
    forall s ensures ChatHolds(a, l, s) {
      if c.RevokeScope? || c.ResumeScope? {
        SweptChat(t, log, c, s);
      } else if c.Claim? || c.BeginNative? || c.Finish? {
        CalledChat(t, log, c, s);
      } else {
        OpenedChat(t, log, c, s);
      }
    }
    forall p ensures ProfileHolds(a, l, p) { StepProfile(t, log, c, p); }
    forall id ensures AdmissionHolds(a, l, id) {
      assert ProfileHolds(t, log, c.scope.Owner());
      StepAdmission(t, log, c, id);
    }
  }

  lemma {:induction false} RunReflects(h: History, log: Log, cs: seq<Call>)
    requires Reflects(h.tables, log)
    ensures Reflects(Run(h, cs).tables, log + Committed(h, cs))
    decreases |cs|
  {
    if cs == [] {
      assert log + [] == log;
    } else {
      var c := cs[0];
      if Commits(h.tables, c) {
        StepReflects(h.tables, log, c);
        RunReflects(Next(h, c), log + [c], cs[1..]);
        assert log + [c] + Committed(Next(h, c), cs[1..]) == log + ([c] + Committed(Next(h, c), cs[1..]));
      } else {
        FailureChangesNothing(h.tables, c);
        RunReflects(Next(h, c), log, cs[1..]);
        assert [] + Committed(Next(h, c), cs[1..]) == Committed(Next(h, c), cs[1..]);
      }
    }
  }

  /** After any run of any calls, legal or not, the tables hold exactly what the committed calls say:
      every decision, chat, control and admission row, and no other rows. */
  lemma {:induction false} TablesHoldTheLedger(cs: seq<Call>)
    ensures Reflects(Run(EMPTY, cs).tables, Committed(EMPTY, cs))
  {
    RunReflects(EMPTY, [], cs);
    assert [] + Committed(EMPTY, cs) == Committed(EMPTY, cs);
  }

  // ---------------------------------------------------------------- what each call answers

  /** The payload of a decision, or why this chat cannot have it under this key at this time. */
  function Recalled(log: Log, key: nat, scope: Scope, id: Id, now: int): T.Result<Payload> {
    var n := NoteOf(log, id);
    if n.None? || n.value.scope != scope then T.Err(T.DecisionNotFound)
    else if n.value.expiresUs <= now then T.Err(T.ApprovalExpired)
    else if n.value.spent then T.Err(T.DecisionReplayed)
    else if n.value.key != key then T.Err(T.DecisionUnavailable)
    else if n.value.payload.expiresUs <= now then T.Err(T.ApprovalExpired)
    else T.Ok(n.value.payload)
  }

  /** Why a chat gets no slot. */
  function NoSlot(log: Log, s: Scope, limit: int): Option<T.Error> {
    if Busy(log, s).Some? then Some(T.InvocationInProgress)
    else if CallsOf(log, s) >= limit then Some(T.SessionQuotaExceeded)
    else None
  }

  ghost predicate IsOpen(log: Log, scope: Scope, now: int, id: Id) {
    var n := NoteOf(log, id); n.Some? && n.value.scope == scope && now < n.value.expiresUs
  }

  function Tokens(log: Log): set<Id> { set c | c in log && c.Create? :: c.token }

  /** The unexpired decisions of a chat. */
  ghost function Open(log: Log, scope: Scope, now: int): set<Id> { set id | id in Tokens(log) && IsOpen(log, scope, now, id) }

  predicate ProperId(id: Id) { 20 <= |id| <= 128 }

  /** Why a call fails, if it does. */
  ghost function Refusal(log: Log, c: Call): Option<T.Error> {
    match c
    case Create(_, scope, token, _, bytes, now) =>
      var n := NoteOf(log, token);
      if |Open(log, scope, now)| >= 128 then Some(T.DecisionQuotaExceeded)
      else if bytes > 131_072 then Some(T.DecisionTooLarge)
      else if n.Some? && !(n.value.scope == scope && n.value.expiresUs <= now) then Some(T.IntegrityError)
      else None
    case Load(key, scope, id, now) => var r := Recalled(log, key, scope, id, now); if r.Err? then Some(r.error) else None
    case Update(key, scope, id, _, bytes, now) =>
      var r := Recalled(log, key, scope, id, now);
      if r.Err? then Some(r.error) else if bytes > 131_072 then Some(T.DecisionTooLarge) else None
    case Claim(key, scope, id, limit, payload, now) =>
      var r := Recalled(log, key, scope, id, now);
      if r.Err? then Some(r.error)
      else if r.value != payload then Some(T.DecisionChanged)
      else if Barred(log, scope) then Some(T.EmergencyDisconnected)
      else NoSlot(log, scope, limit)
    case BeginNative(scope, token, limit) =>
      if Stopped(log, scope.Owner()) then Some(T.EmergencyDisconnected)
      else if NoSlot(log, scope, limit).Some? then NoSlot(log, scope, limit)
      else if AdmittedAs(log, token).Some? then Some(T.IntegrityError)
      else None
    case Admit(scope, id, payload, now) =>
      if payload.expiresUs <= now then Some(T.ApprovalExpired)
      else if Stopped(log, scope.Owner()) then Some(T.EmergencyDisconnected)
      else if !ProperId(id) then Some(T.DecisionNotFound)
      else if Busy(log, scope) != Some(id) then Some(T.AdmissionUnavailable)
      else if AdmittedAs(log, id).Some? then Some(T.IntegrityError)
      else None
    case Finish(_, id) => if ProperId(id) then None else Some(T.DecisionNotFound)
    case Invalidate(_, id) => if ProperId(id) then None else Some(T.DecisionNotFound)
    case _ => None
  }

  function ErrorOf<A>(r: T.Result<A>): Option<T.Error> { if r.Err? then Some(r.error) else None }

  /** What the store answers. */
  function Answer(t: T.Tables, c: Call): Option<T.Error> {
    match c
    case Create(key, scope, id, payload, bytes, now) => ErrorOf(T.Create(t, key, scope, id, payload, bytes, now).result)
    case Load(key, scope, id, now) => ErrorOf(T.Load(t, key, scope, id, now).result)
    case Update(key, scope, id, payload, bytes, now) => ErrorOf(T.Update(t, key, scope, id, payload, bytes, now).result)
    case Disabled(scope) => ErrorOf(T.Disabled(t, scope).result)
    case Claim(key, scope, id, limit, payload, now) => ErrorOf(T.Claim(t, key, scope, id, limit, payload, now).result)
    case BeginNative(scope, id, limit) => ErrorOf(T.BeginNative(t, scope, id, limit).result)
    case Finish(scope, id) => ErrorOf(T.Finish(t, scope, id).result)
    case RevokeScope(scope) => ErrorOf(T.RevokeScope(t, scope).result)
    case ResumeScope(scope) => ErrorOf(T.ResumeScope(t, scope).result)
    case Invalidate(scope, id) => ErrorOf(T.Invalidate(t, scope, id).result)
    case Admit(scope, id, payload, now) => ErrorOf(T.Admit(t, scope, id, payload, now).result)
  }

  lemma LookUpRecalls(t: T.Tables, log: Log, key: nat, scope: Scope, id: Id, now: int)
    requires NoteHolds(t, log, id)
    ensures T.LookUp(t, key, scope, id, now) == Recalled(log, key, scope, id, now)
  {}

  lemma {:induction false} NotedIsCreated(log: Log, id: Id)
    ensures NoteOf(log, id).Some? ==> id in Tokens(log)
  {
    if log != [] {
      var front, c := log[..|log| - 1], log[|log| - 1];
      assert c in log && forall x :: x in front ==> x in log;
      NotedIsCreated(front, id);
      if id in Tokens(front) {
        var x :| x in front && x.Create? && x.token == id;
        assert x in log;
      }
    }
  }

  lemma OpenAreOpen(t: T.Tables, log: Log, scope: Scope, now: int)
    requires NotesHold(t, log)
    ensures T.OpenDecisions(t, scope) - T.Stale(t, scope, now) == Open(log, scope, now)
  {
    forall id ensures id in T.OpenDecisions(t, scope) - T.Stale(t, scope, now) <==> id in Open(log, scope, now) {
      assert NoteHolds(t, log, id);
      NotedIsCreated(log, id);
    }
  }

  lemma CreateAnswers(t: T.Tables, log: Log, c: Call)
    requires c.Create? && NotesHold(t, log)
    ensures Answer(t, c) == Refusal(log, c)
  {
    OpenAreOpen(t, log, c.scope, c.now);
    assert NoteHolds(t, log, c.token);
  }

  lemma DecisionAnswers(t: T.Tables, log: Log, c: Call)
    requires (c.Load? || c.Update? || c.Claim?) && NoteHolds(t, log, c.id) && ChatHolds(t, log, c.scope)
    ensures Answer(t, c) == Refusal(log, c)
  {
    LookUpRecalls(t, log, c.key, c.scope, c.id, c.now);
  }

  lemma AdmissionAnswers(t: T.Tables, log: Log, c: Call, id: Id)
    requires (c.BeginNative? && id == c.token) || (c.Admit? && id == c.id)
    requires ChatHolds(t, log, c.scope) && ProfileHolds(t, log, c.scope.Owner()) && AdmissionHolds(t, log, id)
    ensures Answer(t, c) == Refusal(log, c)
  {}

  lemma OtherAnswers(t: T.Tables, log: Log, c: Call)
    requires c.Disabled? || c.Finish? || c.RevokeScope? || c.ResumeScope? || c.Invalidate?
    ensures Answer(t, c) == Refusal(log, c)
  {}

  lemma AnswersReflect(t: T.Tables, log: Log, c: Call)
    requires Reflects(t, log)
    ensures Answer(t, c) == Refusal(log, c)
  {
    if c.Create? {
      CreateAnswers(t, log, c);
    } else if c.Load? || c.Update? || c.Claim? {
      assert NoteHolds(t, log, c.id) && ChatHolds(t, log, c.scope);
      DecisionAnswers(t, log, c);
    } else if c.BeginNative? || c.Admit? {
      var id := if c.Admit? then c.id else c.token;
      assert ChatHolds(t, log, c.scope) && ProfileHolds(t, log, c.scope.Owner()) && AdmissionHolds(t, log, id);
      AdmissionAnswers(t, log, c, id);
    } else {
      OtherAnswers(t, log, c);
    }
  }

  lemma CommitsIffAnswered(t: T.Tables, c: Call)
    ensures Commits(t, c) <==> Answer(t, c).None?
  {}

  /** After any run of any calls the next call commits, or fails with just this error, as the calls
      committed before say. */
  lemma {:induction false} CallsAnswerByTheLedger(cs: seq<Call>, c: Call)
    ensures var t, log := Run(EMPTY, cs).tables, Committed(EMPTY, cs);
            Answer(t, c) == Refusal(log, c) && (Commits(t, c) <==> Refusal(log, c).None?)
  {
    TablesHoldTheLedger(cs);
    AnswersReflect(Run(EMPTY, cs).tables, Committed(EMPTY, cs), c);
    CommitsIffAnswered(Run(EMPTY, cs).tables, c);
  }

  /** The values they return: the payload last sealed, whether the profile is stopped, and for an admission
      the number of stops and resumes before it. */
  lemma {:induction false} ValuesAreTheLedgers(cs: seq<Call>, key: nat, scope: Scope, id: Id, payload: Payload, now: int)
    ensures var t, log := Run(EMPTY, cs).tables, Committed(EMPTY, cs);
            && T.Load(t, key, scope, id, now).result == Recalled(log, key, scope, id, now)
            && T.Disabled(t, scope).result == T.Ok(Stopped(log, scope.Owner()))
            && var admitted := T.Admit(t, scope, id, payload, now).result;
            && (admitted.Ok? ==> admitted.value == Generation(log, scope.Owner()))
  {
    TablesHoldTheLedger(cs);
    var t, log := Run(EMPTY, cs).tables, Committed(EMPTY, cs);
    assert NoteHolds(t, log, id) && ProfileHolds(t, log, scope.Owner());
    LookUpRecalls(t, log, key, scope, id, now);
  }

  predicate Adds(t: T.Tables, c: Call, scope: Scope) { c.Create? && Commits(t, c) && c.scope == scope }

  lemma FilledBy(t: T.Tables, c: Call, id: Id)
    requires c.Create? && Commits(t, c)
    ensures id in T.OpenDecisions(After(t, c), c.scope)
       <==> id == c.token || id in T.OpenDecisions(t, c.scope) - T.Stale(t, c.scope, c.now)
  {
    if id == c.token { CreatedRow(t, c); } else { KeptRow(t, c, id); }
  }

  lemma CreateFills(t: T.Tables, c: Call)
    requires c.Create? && Commits(t, c)
    ensures |T.OpenDecisions(After(t, c), c.scope)| <= 128
  {
    var filled, kept := T.OpenDecisions(After(t, c), c.scope), T.OpenDecisions(t, c.scope) - T.Stale(t, c.scope, c.now);
    forall id ensures id in filled <==> id == c.token || id in kept { FilledBy(t, c, id); }
    CreateHasRoom(t, c);
    assert filled == kept + {c.token};
  }

  lemma CreateHasRoom(t: T.Tables, c: Call)
    requires c.Create? && Commits(t, c)
    ensures |T.OpenDecisions(t, c.scope) - T.Stale(t, c.scope, c.now)| < 128
  {}

  lemma WritesKeepRows(t: T.Tables, c: Call, id: Id)
    requires !c.Create?
    ensures id in After(t, c).decisions <==> id in t.decisions
    ensures id in t.decisions ==> After(t, c).decisions[id].scope == t.decisions[id].scope
  {}

  /** Any other call keeps the rows of a chat, though it may change them. */
  lemma RowsOfOthersStay(t: T.Tables, c: Call, scope: Scope, id: Id)
    requires !Adds(t, c, scope)
    ensures id in T.OpenDecisions(After(t, c), scope) <==> id in T.OpenDecisions(t, scope)
  {
    if !c.Create? {
      WritesKeepRows(t, c, id);
    } else if Commits(t, c) {
      if id == c.token { TakenNameIsNotOthers(t, c, scope); } else { KeptRow(t, c, id); }
    } else {
      FailureChangesNothing(t, c);
    }
  }

  lemma TakenNameIsNotOthers(t: T.Tables, c: Call, scope: Scope)
    requires c.Create? && Commits(t, c) && c.scope != scope
    ensures c.token !in T.OpenDecisions(After(t, c), scope) && c.token !in T.OpenDecisions(t, scope)
  {
    CreatedRow(t, c);
  }

  lemma OpenStep(t: T.Tables, c: Call, scope: Scope)
    requires |T.OpenDecisions(t, scope)| <= 128
    ensures |T.OpenDecisions(After(t, c), scope)| <= 128
  {
    if Adds(t, c, scope) {
      CreateFills(t, c);
    } else {
      forall id ensures id in T.OpenDecisions(After(t, c), scope) <==> id in T.OpenDecisions(t, scope) {
        RowsOfOthersStay(t, c, scope, id);
      }
      assert T.OpenDecisions(After(t, c), scope) == T.OpenDecisions(t, scope);
    }
  }

  /** No chat ever has more than 128 decision rows. */
  lemma {:induction false} AtMost128Decisions(h: History, cs: seq<Call>, scope: Scope)
    requires |T.OpenDecisions(h.tables, scope)| <= 128
    ensures |T.OpenDecisions(Run(h, cs).tables, scope)| <= 128
    decreases |cs|
  {
    if cs != [] {
      OpenStep(h.tables, cs[0], scope);
      AtMost128Decisions(Next(h, cs[0]), cs[1..], scope);
    }
  }

  // ---------------------------------------------------------------- stops and resumes over runs

  lemma {:induction false} RunThen(h: History, a: seq<Call>, b: seq<Call>)
    ensures Run(h, a + b) == Run(Run(h, a), b)
    ensures Committed(h, a + b) == Committed(h, a) + Committed(Run(h, a), b)
    decreases |a|
  {
    if a == [] {
      assert a + b == b;
    } else {
      var n := Next(h, a[0]);
      assert (a + b)[1..] == a[1..] + b;
      RunThen(n, a[1..], b);
      Rejoined(Logged(h, a[0]), Committed(n, a[1..]), Committed(Run(n, a[1..]), b));
    }
  }

  lemma Rejoined(a: Log, b: Log, c: Log)
    ensures a + (b + c) == a + b + c
  {}

  lemma {:induction false} CommittedAreCalls(h: History, cs: seq<Call>)
    ensures forall c :: c in Committed(h, cs) ==> c in cs
    decreases |cs|
  {
    if cs != [] { CommittedAreCalls(Next(h, cs[0]), cs[1..]); }
  }

  lemma {:induction false} StaysBarred(log: Log, more: Log, s: Scope)
    requires Barred(log, s) && forall c :: c in more ==> !Resumes(c, s.Owner())
    ensures Barred(log + more, s)
    decreases |more|
  {
    if more == [] {
      assert log + more == log;
    } else {
      var front, c := more[..|more| - 1], more[|more| - 1];
      assert (log + more)[..|log + more| - 1] == log + front;
      StaysBarred(log, front, s);
      BarredIsSeen(log + front, s);
    }
  }

  lemma {:induction false} StaysClear(log: Log, more: Log, s: Scope)
    requires !Barred(log, s) && forall c :: c in more ==> !Stops(c, s.Owner())
    ensures !Barred(log + more, s)
    decreases |more|
  {
    if more == [] {
      assert log + more == log;
    } else {
      assert (log + more)[..|log + more| - 1] == log + more[..|more| - 1];
      StaysClear(log, more[..|more| - 1], s);
    }
  }

  /** After a stop of its profile every chat that has a row by then refuses any claim, until a resume. */
  lemma {:induction false} StoppedChatsRefuseClaims(before: seq<Call>, stop: Scope, after: seq<Call>, claim: Call)
    requires claim.Claim? && claim.scope.Owner() == stop.Owner() && NoResume(after, stop.Owner())
    requires claim.scope == stop || claim.scope in Run(EMPTY, before).tables.sessions
    ensures !Commits(Run(EMPTY, before + [RevokeScope(stop)] + after).tables, claim)
  {
    var s, head := claim.scope, before + [RevokeScope(stop)];
    BarredByStop(before, stop, s);
    RunThen(EMPTY, head, after);
    CommittedAreCalls(Run(EMPTY, head), after);
    StaysBarred(Committed(EMPTY, head), Committed(Run(EMPTY, head), after), s);
    CallsAnswerByTheLedger(head + after, claim);
  }

  lemma {:induction false} BarredByStop(before: seq<Call>, stop: Scope, s: Scope)
    requires s.Owner() == stop.Owner() && (s == stop || s in Run(EMPTY, before).tables.sessions)
    ensures Barred(Committed(EMPTY, before + [RevokeScope(stop)]), s)
  {
    var h, log := Run(EMPTY, before), Committed(EMPTY, before);
    TablesHoldTheLedger(before);
    assert ChatHolds(h.tables, log, s);
    RunThen(EMPTY, before, [RevokeScope(stop)]);
    assert Committed(h, [RevokeScope(stop)]) == [RevokeScope(stop)];
    assert (log + [RevokeScope(stop)])[..|log|] == log;
  }

  /** A call that leaves a decision of a chat as it was sealed. */
  predicate Spares(c: Call, id: Id, scope: Scope, expiresUs: int) {
    && !(c.Create? && (c.token == id || (c.scope == scope && expiresUs <= c.now)))
    && !((c.Update? || c.Claim? || c.Invalidate?) && c.id == id)
    && !Stops(c, scope.Owner()) && !Resumes(c, scope.Owner())
  }

  lemma {:induction false} NoteStays(log: Log, more: Log, id: Id)
    requires var n := NoteOf(log, id);
             n.Some? && forall c :: c in more ==> Spares(c, id, n.value.scope, n.value.expiresUs)
    ensures NoteOf(log + more, id) == NoteOf(log, id)
    decreases |more|
  {
    if more == [] {
      assert log + more == log;
    } else {
      assert (log + more)[..|log + more| - 1] == log + more[..|more| - 1];
      NoteStays(log, more[..|more| - 1], id);
      assert more[|more| - 1] in more;
    }
  }

  /** The decision of a create, with the lifetime the store gives it. */
  function Issued(c: Call): Payload
    requires c.Create?
  {
    c.payload.(expiresUs := c.now + 300_000_000)
  }

  /** After a resume with no stop since, a decision created by any chat of the profile, whether it had a
      row at the stop or not, is claimed while it is unexpired and untouched, if the chat has no call in
      flight and quota left. */
  lemma {:induction false} ResumedChatsClaim(before: seq<Call>, resume: Scope, mid: seq<Call>, create: Call, after: seq<Call>,
                                             limit: int, now: int)
    requires create.Create? && create.scope.Owner() == resume.Owner()
    requires forall c :: c in mid ==> !Stops(c, resume.Owner())
    requires forall c :: c in after ==> Spares(c, create.token, create.scope, create.now + 300_000_000)
    requires Commits(Run(EMPTY, before + [ResumeScope(resume)] + mid).tables, create) && now < create.now + 300_000_000
    requires var cs := before + [ResumeScope(resume)] + mid + [create] + after;
             T.SessionOf(Run(EMPTY, cs).tables, create.scope).active.None? && Charged(EMPTY, cs, create.scope) < limit
    ensures var cs := before + [ResumeScope(resume)] + mid + [create] + after;
            Commits(Run(EMPTY, cs).tables, Claim(create.key, create.scope, create.token, limit, Issued(create), now))
  {
    var s, id := create.scope, create.token;
    var two := before + [ResumeScope(resume)] + mid;
    var three, cs := two + [create], two + [create] + after;
    ClearAfterResume(before, resume, mid, s);
    CreatedNote(two, create);
    RunThen(EMPTY, two, [create]);
    StaysClear(Committed(EMPTY, two), [create], s);
    UntouchedClaims(three, create, after, limit, now);
  }

  lemma {:induction false} ClearAfterResume(before: seq<Call>, resume: Scope, mid: seq<Call>, s: Scope)
    requires s.Owner() == resume.Owner() && forall c :: c in mid ==> !Stops(c, resume.Owner())
    ensures !Barred(Committed(EMPTY, before + [ResumeScope(resume)] + mid), s)
  {
    var one := before + [ResumeScope(resume)];
    RunThen(EMPTY, before, [ResumeScope(resume)]);
    assert Committed(Run(EMPTY, before), [ResumeScope(resume)]) == [ResumeScope(resume)];
    RunThen(EMPTY, one, mid);
    CommittedAreCalls(Run(EMPTY, one), mid);
    StaysClear(Committed(EMPTY, one), Committed(Run(EMPTY, one), mid), s);
  }

  lemma {:induction false} UntouchedClaims(cs: seq<Call>, create: Call, after: seq<Call>, limit: int, now: int)
    requires create.Create? && now < create.now + 300_000_000 && !Barred(Committed(EMPTY, cs), create.scope)
    requires NoteOf(Committed(EMPTY, cs), create.token)
          == Some(Note(create.scope, create.key, Issued(create), create.now + 300_000_000, false))
    requires forall c :: c in after ==> Spares(c, create.token, create.scope, create.now + 300_000_000)
    requires T.SessionOf(Run(EMPTY, cs + after).tables, create.scope).active.None?
    requires Charged(EMPTY, cs + after, create.scope) < limit
    ensures Commits(Run(EMPTY, cs + after).tables, Claim(create.key, create.scope, create.token, limit, Issued(create), now))
  {
    var s, id := create.scope, create.token;
    RunThen(EMPTY, cs, after);
    CommittedAreCalls(Run(EMPTY, cs), after);
    StaysClear(Committed(EMPTY, cs), Committed(Run(EMPTY, cs), after), s);
    NoteStays(Committed(EMPTY, cs), Committed(Run(EMPTY, cs), after), id);
    ChatIsFree(cs + after, s);
    CallsAnswerByTheLedger(cs + after, Claim(create.key, s, id, limit, Issued(create), now));
  }

  lemma {:induction false} CreatedNote(cs: seq<Call>, c: Call)
    requires c.Create? && Commits(Run(EMPTY, cs).tables, c)
    ensures Committed(Run(EMPTY, cs), [c]) == [c]
    ensures NoteOf(Committed(EMPTY, cs) + [c], c.token)
         == Some(Note(c.scope, c.key, Issued(c), c.now + 300_000_000, false))
  {
    var log := Committed(EMPTY, cs);
    assert (log + [c])[..|log|] == log;
  }

  lemma {:induction false} ChatIsFree(cs: seq<Call>, s: Scope)
    ensures Busy(Committed(EMPTY, cs), s) == T.SessionOf(Run(EMPTY, cs).tables, s).active
    ensures CallsOf(Committed(EMPTY, cs), s) == Charged(EMPTY, cs, s)
  {
    TablesHoldTheLedger(cs);
    assert ChatHolds(Run(EMPTY, cs).tables, Committed(EMPTY, cs), s);
    QuotaConservation(EMPTY, cs, s);
  }
}
