/** SessionManager on values: the code of `ask`, `finish` and `_remove` between two suspensions. */
module SessionTables {
  import opened Domain
  import OriginProofs

  type Origin = OriginProofs.Origin

  /** Identity of an agent context. */
  type Context = nat

  const MAX_SESSIONS := 128
  const MAX_ORIGINS := 1024
  const MAX_OUTPUT := 65_536
  const PERIOD := 60.0
  const MIN_ID := 20
  const MAX_ID := 128

  datatype Service = Service(name: string, definition: Json, maxInput: nat, maxConcurrency: nat,
                             perMinute: nat, idle: nat, stateless: bool)

  /** The digest a session is bound to. */
  datatype SessionBinding = SessionBinding(service: Service, origin: Origin)

  datatype RateKey = RateKey(service: string, origin: Origin)

  datatype Record = Record(binding: SessionBinding, context: Option<Context>, expires: real, active: bool)

  type Rates = map<RateKey, seq<real>>

  datatype Manager = Manager(sessions: map<Id, Record>, rates: Rates, active: map<string, int>, accepting: bool)

  /** A JSON value of a request; `size` is the length of its UTF-8 encoding. */
  datatype Value = Null | Text(text: string, size: nat) | Other

  /** None: the request is not an object. */
  type Request = Option<map<string, Value>>

  datatype Error =
    | VerifiedOriginRequired | InvalidRequest | InputTooLarge | Draining | AccessDenied | Busy
    | ConcurrencyLimited | OriginCapacity | RateLimited | SessionCapacity

  predicate WellFormed(request: Request) {
    && request.Some?
    && request.value.Keys <= {"message", "session_id"}
    && "message" in request.value
    && request.value["message"].Text?
    && request.value["message"].text != ""
  }

  /** What `ask` checks before it reads the clock. */
  function Screen(m: Manager, service: Service, origin: Option<Origin>, request: Request): Option<Error> {
    if origin.None? then Some(VerifiedOriginRequired)
    else if !WellFormed(request) then Some(InvalidRequest)
    else if request.value["message"].size > service.maxInput then Some(InputTooLarge)
    else if !m.accepting then Some(Draining)
    else None
  }

  predicate Lapsed(r: Record, now: real) { !r.active && r.expires <= now }

  function Expired(m: Manager, now: real): set<Id> {
    set id | id in m.sessions && Lapsed(m.sessions[id], now)
  }

  /** `_remove` up to its cleanup: the context left to clean up. */
  function Removed(m: Manager, id: Id): (Manager, Option<Context>) {
    (m.(sessions := m.sessions - {id}), if id in m.sessions then m.sessions[id].context else None)
  }

  // ---------------------------------------------------------------- the rate table

  /** The stamps left after the old ones are popped from the front. */
  function Recent(times: seq<real>, now: real): seq<real> {
    if times != [] && times[0] <= now - PERIOD then Recent(times[1..], now) else times
  }

  function Trimmed(rates: Rates, now: real): Rates {
    map k | k in rates && Recent(rates[k], now) != [] :: Recent(rates[k], now)
  }

  function StampsOf(rates: Rates, key: RateKey): seq<real> { if key in rates then rates[key] else [] }

  function Taken(active: map<string, int>, name: string): int { if name in active then active[name] else 0 }

  // ---------------------------------------------------------------- taking a slot

  /** What `create_context` did: absent, a new context, or an exception. */
  datatype Made = NoFactory | Made(context: Context) | Failed

  /** A refusal, or a slot and the session it is for; when the context could not be made the slot
      is given back at once. */
  datatype Entry = Refused(error: Error) | Admitted(id: Id, running: bool)

  function Argument(request: Request): Value {
    if request.Some? && "session_id" in request.value then request.value["session_id"] else Null
  }

  /** Why the named session may not be used. */
  function Denied(m: Manager, bound: SessionBinding, argument: Value, now: real): Option<Error> {
    if argument.Null? then None
    else if !argument.Text? || !(MIN_ID <= |argument.text| <= MAX_ID) then Some(AccessDenied)
    else if argument.text !in m.sessions then Some(AccessDenied)
    else
      var r := m.sessions[argument.text];
      if r.binding != bound || r.expires <= now then Some(AccessDenied)
      else if r.active then Some(Busy)
      else None
  }

  /** The checks on the trimmed rate table, and the table with the key present if they got so far. */
  function Rated(m: Manager, service: Service, key: RateKey, create: bool, now: real): (Rates, Option<Error>) {
    var rates := Trimmed(m.rates, now);
    if key !in rates && |rates| >= MAX_ORIGINS then (rates, Some(OriginCapacity))
    else
      var kept := rates[key := StampsOf(rates, key)];
      if |kept[key]| >= service.perMinute then (kept, Some(RateLimited))
      else if create && |m.sessions| >= MAX_SESSIONS then (kept, Some(SessionCapacity))
      else (kept, None)
  }

  /** The stamp and the slot are taken, and a session is opened unless one was named. */
  function Seat(m: Manager, bound: SessionBinding, argument: Value, now: real, id: Id, made: Made): (Manager, Entry)
    requires RateKey(bound.service.name, bound.origin) in m.rates
    requires argument.Null? || (argument.Text? && argument.text in m.sessions)
  {
    var key := RateKey(bound.service.name, bound.origin);
    var name := bound.service.name;
    var slots := Taken(m.active, name);
    var rates := m.rates[key := m.rates[key] + [now]];
    if argument.Text? then
      var r := m.sessions[argument.text].(active := true);
      (Manager(m.sessions[argument.text := r], rates, m.active[name := slots + 1], m.accepting),
       Admitted(argument.text, true))
    else if made.Failed? then
      (m.(rates := rates, active := m.active[name := slots]), Admitted(id, false))
    else
      var context := if made.Made? then Some(made.context) else None;
      var r := Record(bound, context, now + bound.service.idle as real, true);
      (Manager(m.sessions[id := r], rates, m.active[name := slots + 1], m.accepting), Admitted(id, true))
  }

  /** The checks from the second `accepting` test on. */
  function Checked(m: Manager, bound: SessionBinding, argument: Value, now: real): (r: (Manager, Option<Error>))
    ensures r.1.None? ==>
      RateKey(bound.service.name, bound.origin) in r.0.rates && r.0.sessions == m.sessions
      && (argument.Null? || (argument.Text? && argument.text in m.sessions))
  {
    var denied := Denied(m, bound, argument, now);
    if !m.accepting then (m, Some(Draining))
    else if denied.Some? then (m, denied)
    else if Taken(m.active, bound.service.name) >= bound.service.maxConcurrency then (m, Some(ConcurrencyLimited))
    else
      var rated := Rated(m, bound.service, RateKey(bound.service.name, bound.origin), argument.Null?, now);
      (m.(rates := rated.0), rated.1)
  }

  /** From the second `accepting` test to the call of the runner. */
  function Enter(m: Manager, bound: SessionBinding, argument: Value, now: real, id: Id, made: Made): (Manager, Entry) {
    var x := Checked(m, bound, argument, now);
    if x.1.Some? then (x.0, Refused(x.1.value)) else Seat(x.0, bound, argument, now, id, made)
  }

  // ---------------------------------------------------------------- giving it back

  /** How the runner ended: a reply with its context and size (None: not text) and the clock
      after it, or an exception, a timeout or a cancellation. */
  datatype Ending = Reply(context: Option<Context>, size: Option<nat>, clock: real) | Broken

  predicate Succeeded(outcome: Ending) {
    outcome.Reply? && outcome.size.Some? && outcome.size.value <= MAX_OUTPUT
  }

  function Settled(r: Record, service: Service, outcome: Ending): Record {
    Record(r.binding,
           if outcome.Reply? then outcome.context else r.context,
           if Succeeded(outcome) then outcome.clock + service.idle as real else r.expires,
           false)
  }

  function Freed(m: Manager, service: Service, id: Id, outcome: Ending): Manager {
    var sessions := if id in m.sessions
                    then m.sessions[id := Settled(m.sessions[id], service, outcome)] else m.sessions;
    m.(active := m.active[service.name := Taken(m.active, service.name) - 1], sessions := sessions)
  }

  /** From the end of the runner to the final cleanup: the context left to clean up. */
  function Leave(m: Manager, service: Service, id: Id, outcome: Ending): (Manager, Option<Context>) {
    var freed := Freed(m, service, id, outcome);
    if Succeeded(outcome) && !service.stateless then (freed, None) else Removed(freed, id)
  }

  function Finish(m: Manager, service: Service, origin: Option<Origin>, id: Id):
    (Manager, Option<Error>, Option<Context>)
  {
    if id !in m.sessions then (m, Some(AccessDenied), None)
    else if origin.None? then (m, Some(VerifiedOriginRequired), None)
    else if m.sessions[id].binding != SessionBinding(service, origin.value) then (m, Some(AccessDenied), None)
    else if m.sessions[id].active then (m, Some(Busy), None)
    else (Removed(m, id).0, None, Removed(m, id).1)
  }
}
