/** The decision store's four tables - decisions, per-chat sessions, per-profile control and
    admissions - and what each of its transactions does to them.

    Every store method is one serialised transaction; one that fails leaves the tables as they
    were.  Class Decisions.DecisionStore performs the same transactions row by row. */
module DecisionTables {
  import opened Domain

  const DECISION_LIFETIME_US := 300_000_000
  const MAX_OPEN_DECISIONS := 128
  const MAX_SEALED_BYTES := 131_072

  datatype Error =
    | DecisionNotFound | ApprovalExpired | DecisionReplayed | DecisionUnavailable
    | DecisionQuotaExceeded | DecisionTooLarge | DecisionChanged | EmergencyDisconnected
    | InvocationInProgress | SessionQuotaExceeded | AdmissionUnavailable | IntegrityError

  datatype Result<+T> = Ok(value: T) | Err(error: Error)

  /** Ciphertext: opens only under the process key that sealed it. */
  datatype Sealed = Sealed(key: nat, scope: Scope, id: Id, payload: Payload)

  datatype Decision = Decision(scope: Scope, expiresUs: int, used: bool, blob: Sealed)
  datatype Session = Session(calls: int, disabled: bool, active: Option<Id>)
  datatype Control = Control(generation: nat, stopped: bool)
  datatype Admission = Admission(owner: Profile, generation: nat)

  datatype Tables = Tables(decisions: map<Id, Decision>, sessions: map<Scope, Session>,
                           control: map<Profile, Control>, admissions: map<Id, Admission>)

  const NEW_SESSION := Session(0, false, None)
  const NEW_CONTROL := Control(0, false)

  datatype Txn<+T> = Txn(tables: Tables, result: Result<T>) {
    predicate Commits() { result.Ok? }
  }

  /** The identifiers `digest` accepts. */
  predicate ValidId(id: Id) { 20 <= |id| <= 128 }

  /** A transaction first creates the control and session rows of its scope. */
  function Opened(t: Tables, scope: Scope): (r: Tables)
    ensures scope in r.sessions && scope.Owner() in r.control
  {
    t.(sessions := if scope in t.sessions then t.sessions else t.sessions[scope := NEW_SESSION],
       control := if scope.Owner() in t.control then t.control else t.control[scope.Owner() := NEW_CONTROL])
  }

  /** A chat or profile with no row yet reads as a new one. */
  function SessionOf(t: Tables, scope: Scope): Session {
    if scope in t.sessions then t.sessions[scope] else NEW_SESSION
  }

  function ControlOf(t: Tables, owner: Profile): Control {
    if owner in t.control then t.control[owner] else NEW_CONTROL
  }

  function Attempt<T>(before: Tables, result: Result<T>, after: Tables): Txn<T> {
    Txn(if result.Ok? then after else before, result)
  }

  function LookUp(t: Tables, key: nat, scope: Scope, id: Id, now: int): Result<Payload> {
    if !ValidId(id) || id !in t.decisions || t.decisions[id].scope != scope then Err(DecisionNotFound)
    else
      var d := t.decisions[id];
      if d.expiresUs <= now then Err(ApprovalExpired)
      else if d.used then Err(DecisionReplayed)
      else if d.blob.key != key || d.blob.scope != scope || d.blob.id != id then Err(DecisionUnavailable)
      else if d.blob.payload.expiresUs <= now then Err(ApprovalExpired)
      else Ok(d.blob.payload)
  }

  function Stale(t: Tables, scope: Scope, now: int): set<Id> {
    set id | id in t.decisions && t.decisions[id].scope == scope && t.decisions[id].expiresUs <= now
  }

  function OpenDecisions(t: Tables, scope: Scope): set<Id> {
    set id | id in t.decisions && t.decisions[id].scope == scope
  }

  function Create(t: Tables, key: nat, scope: Scope, id: Token, payload: Payload, bytes: nat, now: int): Txn<()>
  {
    var kept := t.decisions - Stale(t, scope, now);
    var expires := now + DECISION_LIFETIME_US;
    var result :=
      if |OpenDecisions(t, scope) - Stale(t, scope, now)| >= MAX_OPEN_DECISIONS then Err(DecisionQuotaExceeded)
      else if bytes > MAX_SEALED_BYTES then Err(DecisionTooLarge)
      else if id in kept then Err(IntegrityError)
      else Ok(());
    var row := Decision(scope, expires, false, Sealed(key, scope, id, payload.(expiresUs := expires)));
    Attempt(t, result, Opened(t, scope).(decisions := kept[id := row]))
  }

  function Load(t: Tables, key: nat, scope: Scope, id: Id, now: int): Txn<Payload> {
    Attempt(t, LookUp(t, key, scope, id, now), Opened(t, scope))
  }

  function Update(t: Tables, key: nat, scope: Scope, id: Id, payload: Payload, bytes: nat, now: int): Txn<()> {
    var found := LookUp(t, key, scope, id, now);
    var result :=
      if found.Err? then Err(found.error)
      else if bytes > MAX_SEALED_BYTES then Err(DecisionTooLarge)
      else Ok(());
    if result.Err? then Txn(t, result)
    else Txn(Opened(t, scope).(decisions := t.decisions[id := t.decisions[id].(blob := Sealed(key, scope, id, payload))]), result)
  }

  function Disabled(t: Tables, scope: Scope): Txn<bool> {
    var o := Opened(t, scope);
    Txn(o, Ok(o.control[scope.Owner()].stopped))
  }

  /** The slot a call takes in its chat: one more call counted, and the invocation made active. */
  function Taken(s: Session, id: Id): Session { s.(calls := s.calls + 1, active := Some(id)) }

  function SlotError(s: Session, limit: int): Result<()> {
    if s.active.Some? then Err(InvocationInProgress)
    else if !(0 <= s.calls < limit) then Err(SessionQuotaExceeded)
    else Ok(())
  }

  function Claim(t: Tables, key: nat, scope: Scope, id: Id, limit: int, expected: Payload, now: int): Txn<()> {
    var o := Opened(t, scope);
    var found := LookUp(t, key, scope, id, now);
    var result :=
      if found.Err? then Err(found.error)
      else if found.value != expected then Err(DecisionChanged)
      else if o.sessions[scope].disabled then Err(EmergencyDisconnected)
      else SlotError(o.sessions[scope], limit);
    if result.Err? then Txn(t, result)
    else Txn(o.(decisions := t.decisions[id := t.decisions[id].(used := true)],
                sessions := o.sessions[scope := Taken(o.sessions[scope], id)]), result)
  }

  function BeginNative(t: Tables, scope: Scope, id: Token, limit: int): Txn<()>
  {
    var o := Opened(t, scope);
    var control := o.control[scope.Owner()];
    var result :=
      if control.stopped then Err(EmergencyDisconnected)
      else
        var slot := SlotError(o.sessions[scope], limit);
        if slot.Err? then slot
        else if id in t.admissions then Err(IntegrityError)
        else Ok(());
    Attempt(t, result,
            o.(sessions := o.sessions[scope := Taken(o.sessions[scope], id)],
               admissions := t.admissions[id := Admission(scope.Owner(), control.generation)]))
  }

  function Finish(t: Tables, scope: Scope, id: Id): Txn<()> {
    if !ValidId(id) then Txn(t, Err(DecisionNotFound))
    else
      var o := Opened(t, scope);
      var s := o.sessions[scope];
      Txn(o.(sessions := o.sessions[scope := if s.active == Some(id) then s.(active := None) else s],
             admissions := t.admissions - {id}), Ok(()))
  }

  /** Every session of the profile gets the flag; every decision of the profile is spent. */
  function ProfileInvalidated(t: Tables, owner: Profile, disabled: bool): Tables {
    t.(sessions := map s | s in t.sessions ::
                     if s.Owner() == owner then t.sessions[s].(disabled := disabled) else t.sessions[s],
       decisions := map id | id in t.decisions ::
                     if t.decisions[id].scope.Owner() == owner then t.decisions[id].(used := true) else t.decisions[id])
  }

  function NextGeneration(t: Tables, owner: Profile, stopped: bool): Tables
    requires owner in t.control
  {
    t.(control := t.control[owner := Control(t.control[owner].generation + 1, stopped)])
  }

  function Outstanding(t: Tables, owner: Profile): set<Id> {
    set id | id in t.admissions && t.admissions[id].owner == owner
  }

  /** The result counts the admissions that are still outstanding. */
  function RevokeScope(t: Tables, scope: Scope): Txn<nat> {
    var p := scope.Owner();
    Txn(ProfileInvalidated(NextGeneration(Opened(t, scope), p, true), p, true), Ok(|Outstanding(t, p)|))
  }

  function ResumeScope(t: Tables, scope: Scope): Txn<()> {
    var p := scope.Owner();
    Txn(NextGeneration(ProfileInvalidated(Opened(t, scope), p, false), p, false), Ok(()))
  }

  function Invalidate(t: Tables, scope: Scope, id: Id): Txn<()> {
    if !ValidId(id) then Txn(t, Err(DecisionNotFound))
    else
      var o := Opened(t, scope);
      Txn(if id in t.decisions && t.decisions[id].scope == scope
          then o.(decisions := t.decisions[id := t.decisions[id].(used := true)]) else o, Ok(()))
  }

  /** The result is the control generation the admission was made under. */
  function Admit(t: Tables, scope: Scope, id: Id, payload: Payload, now: int): Txn<nat> {
    var o := Opened(t, scope);
    var control := o.control[scope.Owner()];
    var result :=
      if payload.expiresUs <= now then Err(ApprovalExpired)
      else if control.stopped then Err(EmergencyDisconnected)
      else if !ValidId(id) then Err(DecisionNotFound)
      else if o.sessions[scope].active != Some(id) then Err(AdmissionUnavailable)
      else if id in t.admissions then Err(IntegrityError)
      else Ok(control.generation);
    Attempt(t, result, o.(admissions := t.admissions[id := Admission(scope.Owner(), control.generation)]))
  }
}
