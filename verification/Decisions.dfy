/** Class DecisionStore: the transactions of DecisionTables, performed the way the store does them,
    statement by statement on mutable tables. */
module Decisions {
  import opened Domain
  import opened DecisionTables

  /** The store itself: four mutable tables, one method a transaction. */
  class DecisionStore {
    var decisions: map<Id, Decision>
    var sessions: map<Scope, Session>
    var control: map<Profile, Control>
    var admissions: map<Id, Admission>

    function State(): Tables
      reads this
    {
      Tables(decisions, sessions, control, admissions)
    }

    constructor ()
      ensures State() == Tables(map[], map[], map[], map[])
    {
      decisions, sessions, control, admissions := map[], map[], map[], map[];
    }

    method Rollback(saved: Tables)
      modifies this
      ensures State() == saved
    {
      decisions, sessions, control, admissions := saved.decisions, saved.sessions, saved.control, saved.admissions;
    }

    method Begin(scope: Scope)
      modifies this
      ensures State() == Opened(old(State()), scope)
    {
      if scope.Owner() !in control { control := control[scope.Owner() := NEW_CONTROL]; }
      if scope !in sessions { sessions := sessions[scope := NEW_SESSION]; }
    }

    /** `_load`: the row by id and scope, then expiry, replay and seal checks in that order. */
    method LoadRow(key: nat, scope: Scope, id: Id, now: int) returns (r: Result<Payload>)
      ensures r == LookUp(State(), key, scope, id, now)
    {
      if !ValidId(id) { return Err(DecisionNotFound); }
      if id !in decisions || decisions[id].scope != scope { return Err(DecisionNotFound); }
      var row := decisions[id];
      if row.expiresUs <= now { return Err(ApprovalExpired); }
      if row.used { return Err(DecisionReplayed); }
      if row.blob.key != key { return Err(DecisionUnavailable); }
      var Sealed(_, binding, identifier, payload) := row.blob;
      if binding != scope || identifier != id { return Err(DecisionUnavailable); }
      if payload.expiresUs <= now { return Err(ApprovalExpired); }
      return Ok(payload);
    }

    /** DELETE the expired rows of one chat, then count the ones left. */
    method DeleteStale(scope: Scope, now: int) returns (count: nat)
      modifies this`decisions
      ensures decisions == old(decisions) - Stale(old(State()), scope, now)
      ensures count == |OpenDecisions(old(State()), scope) - Stale(old(State()), scope, now)|
    {
      ghost var was := State();
      ghost var kept := OpenDecisions(was, scope) - Stale(was, scope, now);
      var pending := decisions.Keys;
      var left := {};
      while pending != {}
        invariant pending <= was.decisions.Keys
        invariant decisions == was.decisions - (Stale(was, scope, now) - pending)
        invariant left == kept - pending
      {
        var row :| row in pending;
        var due := decisions[row];
        if due.scope == scope {
          if due.expiresUs <= now { decisions := decisions - {row}; } else { left := left + {row}; }
        }
        OneRowSwept(was.decisions, Stale(was, scope, now), pending, row);
        OneRowCounted(kept, pending, row);
        pending := pending - {row};
      }
      assert kept - {} == kept && Stale(was, scope, now) - {} == Stale(was, scope, now);
      return |left|;
    }

    method Create(key: nat, scope: Scope, id: Token, payload: Payload, bytes: nat, now: int) returns (r: Result<()>)
      modifies this
      ensures Txn(State(), r) == DecisionTables.Create(old(State()), key, scope, id, payload, bytes, now)
    {
      var saved := State();
      Begin(scope);
      var count := DeleteStale(scope, now);
      r := Ok(());
      if count >= MAX_OPEN_DECISIONS { r := Err(DecisionQuotaExceeded); }
      else if bytes > MAX_SEALED_BYTES { r := Err(DecisionTooLarge); }
      else if id in decisions { r := Err(IntegrityError); }
      if r.Err? { Rollback(saved); return; }
      var expires := now + DECISION_LIFETIME_US;
      decisions := decisions[id := Decision(scope, expires, false, Sealed(key, scope, id, payload.(expiresUs := expires)))];
    }

    method Load(key: nat, scope: Scope, id: Id, now: int) returns (r: Result<Payload>)
      modifies this
      ensures Txn(State(), r) == DecisionTables.Load(old(State()), key, scope, id, now)
    {
      var saved := State();
      Begin(scope);
      r := LoadRow(key, scope, id, now);
      if r.Err? { Rollback(saved); }
    }

    method Update(key: nat, scope: Scope, id: Id, payload: Payload, bytes: nat, now: int) returns (r: Result<()>)
      modifies this
      ensures Txn(State(), r) == DecisionTables.Update(old(State()), key, scope, id, payload, bytes, now)
    {
      var saved := State();
      Begin(scope);
      var found := LoadRow(key, scope, id, now);
      if found.Err? { Rollback(saved); return Err(found.error); }
      if bytes > MAX_SEALED_BYTES { Rollback(saved); return Err(DecisionTooLarge); }
      decisions := decisions[id := decisions[id].(blob := Sealed(key, scope, id, payload))];
      return Ok(());
    }

    method Disabled(scope: Scope) returns (r: Result<bool>)
      modifies this
      ensures Txn(State(), r) == DecisionTables.Disabled(old(State()), scope)
    {
      Begin(scope);
      return Ok(control[scope.Owner()].stopped);
    }

    method Claim(key: nat, scope: Scope, id: Id, limit: int, expected: Payload, now: int) returns (r: Result<()>)
      modifies this
      ensures Txn(State(), r) == DecisionTables.Claim(old(State()), key, scope, id, limit, expected, now)
    {
      var saved := State();
      Begin(scope);
      var current := LoadRow(key, scope, id, now);
      if current.Err? { Rollback(saved); return Err(current.error); }
      if current.value != expected { Rollback(saved); return Err(DecisionChanged); }
      var row := sessions[scope];
      if row.disabled { Rollback(saved); return Err(EmergencyDisconnected); }
      if row.active != None { Rollback(saved); return Err(InvocationInProgress); }
      if row.calls < 0 || limit <= row.calls { Rollback(saved); return Err(SessionQuotaExceeded); }
      decisions := decisions[id := decisions[id].(used := true)];
      sessions := sessions[scope := row.(calls := row.calls + 1, active := Some(id))];
      return Ok(());
    }

    method BeginNative(scope: Scope, id: Token, limit: int) returns (r: Result<()>)
      modifies this
      ensures Txn(State(), r) == DecisionTables.BeginNative(old(State()), scope, id, limit)
    {
      var saved := State();
      Begin(scope);
      var row := control[scope.Owner()];
      if row.stopped { Rollback(saved); return Err(EmergencyDisconnected); }
      var session := sessions[scope];
      if session.active != None { Rollback(saved); return Err(InvocationInProgress); }
      if session.calls < 0 || limit <= session.calls { Rollback(saved); return Err(SessionQuotaExceeded); }
      sessions := sessions[scope := session.(calls := session.calls + 1, active := Some(id))];
      if id in admissions { Rollback(saved); return Err(IntegrityError); }
      admissions := admissions[id := Admission(scope.Owner(), row.generation)];
      return Ok(());
    }

    method Finish(scope: Scope, id: Id) returns (r: Result<()>)
      modifies this
      ensures Txn(State(), r) == DecisionTables.Finish(old(State()), scope, id)
    {
      var saved := State();
      Begin(scope);
      if !ValidId(id) { Rollback(saved); return Err(DecisionNotFound); }
      if sessions[scope].active == Some(id) {
        sessions := sessions[scope := sessions[scope].(active := None)];
      }
      admissions := admissions - {id};
      return Ok(());
    }

    /** First loop of `_invalidate_profile`: the sessions of the profile get the flag. */
    method FlagSessions(owner: Profile, disabled: bool)
      modifies this`sessions
      ensures sessions == ProfileInvalidated(old(State()), owner, disabled).sessions
    {
      ghost var was := sessions;
      var chats := sessions.Keys;
      while chats != {}
        invariant chats <= was.Keys == sessions.Keys
        invariant forall s :: s in chats ==> sessions[s] == was[s]
        invariant forall s :: s in was && s !in chats ==>
          sessions[s] == if s.Owner() == owner then was[s].(disabled := disabled) else was[s]
      {
        var s :| s in chats;
        if s.Owner() == owner { sessions := sessions[s := sessions[s].(disabled := disabled)]; }
        chats := chats - {s};
      }
    }

    /** Second loop of `_invalidate_profile`: the decisions of the profile are spent. */
    method SpendDecisions(owner: Profile)
      modifies this`decisions
      ensures decisions == ProfileInvalidated(old(State()), owner, true).decisions
    {
      ghost var was := decisions;
      var rows := decisions.Keys;
      while rows != {}
        invariant rows <= was.Keys == decisions.Keys
        invariant forall id :: id in rows ==> decisions[id] == was[id]
        invariant forall id :: id in was && id !in rows ==>
          decisions[id] == if was[id].scope.Owner() == owner then was[id].(used := true) else was[id]
      {
        var id :| id in rows;
        if decisions[id].scope.Owner() == owner { decisions := decisions[id := decisions[id].(used := true)]; }
        rows := rows - {id};
      }
    }

    method InvalidateProfile(owner: Profile, disabled: bool)
      modifies this
      ensures State() == ProfileInvalidated(old(State()), owner, disabled)
    {
      FlagSessions(owner, disabled);
      SpendDecisions(owner);
    }

    method RevokeScope(scope: Scope) returns (r: Result<nat>)
      modifies this
      ensures Txn(State(), r) == DecisionTables.RevokeScope(old(State()), scope)
    {
      Begin(scope);
      var p := scope.Owner();
      control := control[p := Control(control[p].generation + 1, true)];
      InvalidateProfile(p, true);
      return Ok(|set id | id in admissions && admissions[id].owner == p|);
    }

    method ResumeScope(scope: Scope) returns (r: Result<()>)
      modifies this
      ensures Txn(State(), r) == DecisionTables.ResumeScope(old(State()), scope)
    {
      Begin(scope);
      var p := scope.Owner();
      InvalidateProfile(p, false);
      control := control[p := Control(control[p].generation + 1, false)];
      return Ok(());
    }

    method Invalidate(scope: Scope, id: Id) returns (r: Result<()>)
      modifies this
      ensures Txn(State(), r) == DecisionTables.Invalidate(old(State()), scope, id)
    {
      var saved := State();
      Begin(scope);
      if !ValidId(id) { Rollback(saved); return Err(DecisionNotFound); }
      if id in decisions && decisions[id].scope == scope {
        decisions := decisions[id := decisions[id].(used := true)];
      }
      return Ok(());
    }

    method Admit(scope: Scope, id: Id, payload: Payload, now: int) returns (r: Result<nat>)
      modifies this
      ensures Txn(State(), r) == DecisionTables.Admit(old(State()), scope, id, payload, now)
    {
      var saved := State();
      Begin(scope);
      if payload.expiresUs <= now { Rollback(saved); return Err(ApprovalExpired); }
      var row := control[scope.Owner()];
      if row.stopped { Rollback(saved); return Err(EmergencyDisconnected); }
      if !ValidId(id) { Rollback(saved); return Err(DecisionNotFound); }
      if sessions[scope].active != Some(id) { Rollback(saved); return Err(AdmissionUnavailable); }
      if id in admissions { Rollback(saved); return Err(IntegrityError); }
      admissions := admissions[id := Admission(scope.Owner(), row.generation)];
      return Ok(row.generation);
    }
  }

  lemma OneRowSwept(all: map<Id, Decision>, stale: set<Id>, pending: set<Id>, row: Id)
    requires row in pending
    ensures all - (stale - (pending - {row})) == if row in stale then all - (stale - pending) - {row} else all - (stale - pending)
  {
    assert stale - (pending - {row}) == if row in stale then stale - pending + {row} else stale - pending;
  }

  lemma OneRowCounted(kept: set<Id>, pending: set<Id>, row: Id)
    requires row in pending
    ensures kept - (pending - {row}) == if row in kept then kept - pending + {row} else kept - pending
  {}
}
