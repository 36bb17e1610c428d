/** Classes Session and SessionManager: records and tables updated in place. Each method is the code
    between two suspensions of the asynchronous original. */
module Sessions {
  import opened Domain
  import opened SessionTables

  class Session {
    ghost const id: Id
    const binding: SessionBinding
    var context: Option<Context>
    var expires: real
    var active: bool

    constructor (ghost id: Id, binding: SessionBinding, expires: real)
      ensures this.id == id && Value() == Record(binding, None, expires, false)
    {
      this.id, this.binding, this.expires := id, binding, expires;
      context, active := None, false;
    }

    function Value(): Record
      reads this
    {
      Record(binding, context, expires, active)
    }
  }

  class SessionManager {
    var sessions: map<Id, Session>
    var rates: Rates
    var active: map<string, int>
    var accepting: bool
    ghost var records: map<Id, Record>

    constructor ()
      ensures Valid() && Contents() == Manager(map[], map[], map[], true)
    {
      sessions, rates, active, accepting, records := map[], map[], map[], true, map[];
    }

    /** A record is listed under its own identifier only, and `records` holds what each one says. */
    ghost predicate Valid()
      reads this, sessions.Values
    {
      && records.Keys == sessions.Keys
      && (forall id :: id in sessions ==> sessions[id].id == id && records[id] == sessions[id].Value())
    }

    ghost function Contents(): Manager
      reads this
    {
      Manager(records, rates, active, accepting)
    }

    /** The expired list `ask` and the registry's maintenance go through. */
    method ListExpired(now: real) returns (expired: seq<Id>)
      requires Valid()
      ensures forall id :: id in expired <==> id in SessionTables.Expired(Contents(), now)
      ensures forall i, j :: 0 <= i < j < |expired| ==> expired[i] != expired[j]
    {
      expired := [];
      var keys := sessions.Keys;
      while keys != {}
        invariant keys <= sessions.Keys
        invariant forall id :: id in expired <==> id in SessionTables.Expired(Contents(), now) && id !in keys
        invariant forall i, j :: 0 <= i < j < |expired| ==> expired[i] != expired[j]
      {
        var id :| id in keys;
        keys := keys - {id};
        if !sessions[id].active && sessions[id].expires <= now { expired := expired + [id]; }
      }
    }

    method Remove(id: Id) returns (context: Option<Context>)
      requires Valid()
      modifies `sessions, `records
      ensures Valid() && sessions == old(sessions) - {id}
      ensures (Contents(), context) == SessionTables.Removed(old(Contents()), id)
    {
      context := if id in sessions then sessions[id].context else None;
      sessions, records := sessions - {id}, records - {id};
    }

    method Trim(now: real)
      modifies `rates
      ensures rates == Trimmed(old(rates), now)
    {
      ghost var was := rates;
      var keys := rates.Keys;
      while keys != {}
        invariant keys <= was.Keys && rates.Keys <= was.Keys
        invariant forall k :: k in was ==>
          (k in rates <==> k in keys || Recent(was[k], now) != [])
        invariant forall k :: k in rates ==> rates[k] == if k in keys then was[k] else Recent(was[k], now)
      {
        var key :| key in keys;
        var times := rates[key];
        while times != [] && times[0] <= now - PERIOD
          invariant Recent(times, now) == Recent(was[key], now)
          decreases |times|
        {
          times := times[1..];
        }
        keys := keys - {key};
        rates := if times == [] then rates - {key} else rates[key := times];
      }
    }

    method CheckSession(bound: SessionBinding, argument: Value, now: real) returns (denied: Option<Error>)
      requires Valid()
      ensures denied == SessionTables.Denied(Contents(), bound, argument, now)
    {
      if argument.Null? { return None; }
      if !argument.Text? || |argument.text| < MIN_ID || MAX_ID < |argument.text| { return Some(AccessDenied); }
      if argument.text !in sessions { return Some(AccessDenied); }
      var record := sessions[argument.text];
      if record.binding != bound || record.expires <= now { return Some(AccessDenied); }
      if record.active { return Some(Error.Busy); }
      return None;
    }

    method CheckRate(service: Service, key: RateKey, create: bool, now: real) returns (refusal: Option<Error>)
      requires Valid()
      modifies `rates
      ensures (rates, refusal) == SessionTables.Rated(old(Contents()), service, key, create, now)
    {
      Trim(now);
      if key !in rates {
        if |rates| >= MAX_ORIGINS { return Some(OriginCapacity); }
        rates := rates[key := []];
      }
      assert rates == Trimmed(old(rates), now)[key := StampsOf(Trimmed(old(rates), now), key)];
      if |rates[key]| >= service.perMinute { return Some(RateLimited); }
      assert |sessions| == |sessions.Keys| == |records|;
      if create && |sessions| >= MAX_SESSIONS { return Some(SessionCapacity); }
      return None;
    }

    method Open(bound: SessionBinding, context: Option<Context>, expires: real, token: Id)
      returns (record: Session)
      requires Valid()
      modifies `sessions, `records
      ensures Valid() && fresh(record) && sessions == old(sessions)[token := record]
      ensures records == old(records)[token := Record(bound, context, expires, true)]
    {
      record := new Session(token, bound, expires);
      record.context := context;
      record.active := true;
      sessions, records := sessions[token := record], records[token := record.Value()];
    }

    method Activate(id: Id)
      requires Valid() && id in sessions
      modifies sessions[id], `records
      ensures Valid() && records == old(records)[id := old(records)[id].(active := true)]
    {
      sessions[id].active := true;
      records := records[id := sessions[id].Value()];
    }

    method Seat(bound: SessionBinding, argument: Value, now: real, token: Id, made: Made)
      returns (entry: Entry, record: Session?)
      requires Valid() && token !in sessions
      requires RateKey(bound.service.name, bound.origin) in rates
      requires argument.Null? || (argument.Text? && argument.text in sessions)
      modifies this, sessions.Values
      ensures Valid()
      ensures (Contents(), entry) == SessionTables.Seat(old(Contents()), bound, argument, now, token, made)
      ensures if entry.Admitted? && entry.running then entry.id in sessions && sessions[entry.id] == record
              else record == null
    {
      var name := bound.service.name;
      var key := RateKey(name, bound.origin);
      var slots := if name in active then active[name] else 0;
      rates := rates[key := rates[key] + [now]];
      active := active[name := slots + 1];
      if argument.Text? {
        record := sessions[argument.text];
        Activate(argument.text);
        return Admitted(argument.text, true), record;
      }
      if made.Failed? {
        active := active[name := slots];
        assert active == old(active)[name := slots];
        return Admitted(token, false), null;
      }
      record := Open(bound, if made.Made? then Some(made.context) else None, now + bound.service.idle as real, token);
      return Admitted(token, true), record;
    }

    method Check(bound: SessionBinding, argument: Value, now: real) returns (refusal: Option<Error>)
      requires Valid()
      modifies `rates
      ensures (Contents(), refusal) == SessionTables.Checked(old(Contents()), bound, argument, now)
    {
      if !accepting { return Some(Draining); }
      refusal := CheckSession(bound, argument, now);
      if refusal.Some? { return; }
      var name := bound.service.name;
      var slots := if name in active then active[name] else 0;
      if slots >= bound.service.maxConcurrency { return Some(ConcurrencyLimited); }
      refusal := CheckRate(bound.service, RateKey(name, bound.origin), argument.Null?, now);
    }

    /** The slot is taken in one piece: the checks and the updates have no suspension between them.
        `record` is the session the runner gets. */
    method Enter(bound: SessionBinding, argument: Value, now: real, token: Id, made: Made)
      returns (entry: Entry, record: Session?)
      requires Valid() && token !in sessions
      modifies this, sessions.Values
      ensures Valid()
      ensures (Contents(), entry) == SessionTables.Enter(old(Contents()), bound, argument, now, token, made)
      ensures if entry.Admitted? && entry.running then entry.id in sessions && sessions[entry.id] == record
              else record == null
    {
      var refusal := Check(bound, argument, now);
      if refusal.Some? { return Refused(refusal.value), null; }
      entry, record := Seat(bound, argument, now, token, made);
    }

    method Settle(service: Service, id: Id, record: Session, outcome: Ending) returns (successful: bool)
      requires Valid()
      requires record.id == id && (id in sessions ==> sessions[id] == record)
      modifies record, `records
      ensures Valid() && successful == Succeeded(outcome)
      ensures records == if id in sessions
        then old(records)[id := Settled(old(records)[id], service, outcome)] else old(records)
    {
      successful := false;
      if outcome.Reply? {
        record.context := outcome.context;
        if outcome.size.Some? && outcome.size.value <= MAX_OUTPUT {
          record.expires := outcome.clock + service.idle as real;
          successful := true;
        }
      }
      record.active := false;
      if id in sessions { records := records[id := record.Value()]; }
    }

    method Free(service: Service, id: Id, record: Session, outcome: Ending) returns (successful: bool)
      requires Valid()
      requires record.id == id && (id in sessions ==> sessions[id] == record)
      modifies record, `records, `active
      ensures Valid() && successful == Succeeded(outcome)
      ensures Contents() == SessionTables.Freed(old(Contents()), service, id, outcome)
    {
      active := active[service.name := (if service.name in active then active[service.name] else 0) - 1];
      successful := Settle(service, id, record, outcome);
    }

    /** The record may have left the table while its context ran. */
    method Leave(service: Service, id: Id, record: Session, outcome: Ending) returns (context: Option<Context>)
      requires Valid()
      requires record.id == id && (id in sessions ==> sessions[id] == record)
      modifies this, record
      ensures Valid()
      ensures (Contents(), context) == SessionTables.Leave(old(Contents()), service, id, outcome)
    {
      var successful := Free(service, id, record, outcome);
      context := None;
      if !successful || service.stateless {
        context := Remove(id);
      }
    }

    method Finish(service: Service, origin: Option<Origin>, id: Id)
      returns (error: Option<Error>, context: Option<Context>)
      requires Valid()
      modifies this
      ensures Valid()
      ensures (Contents(), error, context) == SessionTables.Finish(old(Contents()), service, origin, id)
    {
      context := None;
      if id !in sessions { return Some(AccessDenied), None; }
      if origin.None? { return Some(VerifiedOriginRequired), None; }
      if sessions[id].binding != SessionBinding(service, origin.value) { return Some(AccessDenied), None; }
      if sessions[id].active { return Some(Error.Busy), None; }
      context := Remove(id);
      return None, context;
    }
  }
}
