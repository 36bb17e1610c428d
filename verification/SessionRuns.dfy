/** Any number of asks, finishes, expiries and drains of one session manager, interleaved at every
    suspension.

    An ask is `pending` from its first check until it takes a slot, and `running` while the runner
    has its context.  `issued`, `entered` and `cleaned` are history: the identifiers generated, the
    slots taken, and the sessions whose context was handed to the cleanup. */
module SessionRuns {
  import opened Domain
  import opened SessionTables
  import opened SetFacts

  datatype Pending = Pending(bound: SessionBinding, argument: Value, now: real, todo: seq<Id>)
  datatype Use = Use(id: Id, bound: SessionBinding)
  datatype Entered = Entered(id: Id, bound: SessionBinding, at: real)

  /** A drain waits for the running asks, removes the sessions left, and returns. */
  datatype Drain = Joining(tasks: set<nat>) | Clearing(todo: seq<Id>) | Returned

  datatype State = State(manager: Manager, pending: map<nat, Pending>, running: map<nat, Use>,
                         drains: map<nat, Drain>, issued: set<Id>, entered: seq<Entered>, cleaned: seq<Id>)

  const START := State(Manager(map[], map[], map[], true), map[], map[], map[], {}, [], [])

  datatype Event =
    | Begin(task: nat, service: Service, origin: Option<Origin>, request: Request, now: real, order: seq<Id>)
    | Purge(task: nat)
    | Abandon(task: nat)
    | Enter(task: nat, token: Id, made: Made)
    | Leave(task: nat, ending: Ending)
    | Finish(service: Service, origin: Option<Origin>, id: Id)
    | Expire(id: Id, now: real)
    | Drain(drain: nat)
    | Joined(drain: nat, order: seq<Id>)
    | Clear(drain: nat)

  predicate Enumerates(order: seq<Id>, ids: set<Id>) { (set id | id in order) == ids }

  /** A service is determined by its name: a manager serves one published service of each name. */
  type Catalog = map<string, Service>

  predicate Legal(catalog: Catalog, s: State, e: Event) {
    match e
    case Begin(task, service, _, _, now, order) =>
      && task !in s.pending && task !in s.running
      && service.name in catalog && catalog[service.name] == service
      && Enumerates(order, Expired(s.manager, now))
    case Purge(task) => task in s.pending && s.pending[task].todo != []
    case Abandon(task) => task in s.pending
    case Enter(task, token, _) => task in s.pending && s.pending[task].todo == [] && token !in s.issued
    case Leave(task, _) => task in s.running
    case Finish(_, _, _) => true
    case Expire(id, now) => id in Expired(s.manager, now)
    case Drain(d) => d !in s.drains
    case Joined(d, order) =>
      && d in s.drains && s.drains[d].Joining? && s.drains[d].tasks !! s.running.Keys
      && Enumerates(order, s.manager.sessions.Keys)
    case Clear(d) => d in s.drains && s.drains[d].Clearing?
  }

  /** `_remove`: the session leaves the table and a context it had is handed to the cleanup. */
  function Drop(s: State, id: Id): State {
    var x := Removed(s.manager, id);
    s.(manager := x.0, cleaned := s.cleaned + if x.1.Some? then [id] else [])
  }

  function OnEnter(s: State, task: nat, token: Id, made: Made): State
    requires task in s.pending
  {
    var p := s.pending[task];
    var x := SessionTables.Enter(s.manager, p.bound, p.argument, p.now, token, made);
    var n := s.(manager := x.0, pending := s.pending - {task});
    if x.1.Refused? then n else Seated(n, task, p.bound, p.now, x)
  }

  function Seated(s: State, task: nat, bound: SessionBinding, now: real, x: (Manager, Entry)): State
    requires x.1.Admitted?
  {
    var id := x.1.id;
    s.(manager := x.0, running := if x.1.running then s.running[task := Use(id, bound)] else s.running,
       issued := s.issued + {id}, entered := s.entered + [Entered(id, bound, now)])
  }

  function OnLeave(s: State, task: nat, ending: Ending): State
    requires task in s.running
  {
    var use := s.running[task];
    var x := SessionTables.Leave(s.manager, use.bound.service, use.id, ending);
    s.(manager := x.0, running := s.running - {task},
       cleaned := s.cleaned + if x.1.Some? then [use.id] else [])
  }

  function Step(s: State, e: Event): State {
    match e
    case Begin(task, service, origin, request, now, order) =>
      if Screen(s.manager, service, origin, request).Some? then s
      else s.(pending := s.pending[task := Pending(SessionBinding(service, origin.value), Argument(request), now, order)])
    case Purge(task) =>
      if task in s.pending && s.pending[task].todo != [] then
        var p := s.pending[task];
        Drop(s, p.todo[0]).(pending := s.pending[task := p.(todo := p.todo[1..])])
      else s
    case Abandon(task) => s.(pending := s.pending - {task})
    case Enter(task, token, made) => if task in s.pending then OnEnter(s, task, token, made) else s
    case Leave(task, ending) => if task in s.running then OnLeave(s, task, ending) else s
    case Finish(service, origin, id) =>
      if SessionTables.Finish(s.manager, service, origin, id).1.None? then Drop(s, id) else s
    case Expire(id, _) => Drop(s, id)
    case Drain(d) =>
      s.(manager := s.manager.(accepting := false), drains := s.drains[d := Joining(s.running.Keys)])
    case Joined(d, order) => s.(drains := s.drains[d := Clearing(order)])
    case Clear(d) =>
      if d in s.drains && s.drains[d].Clearing? then
        var todo := s.drains[d].todo;
        if todo == [] then s.(drains := s.drains[d := Returned])
        else Drop(s, todo[0]).(drains := s.drains[d := Clearing(todo[1..])])
      else s
  }

  predicate LegalRun(catalog: Catalog, s: State, es: seq<Event>)
    decreases |es|
  {
    es == [] || (Legal(catalog, s, es[0]) && LegalRun(catalog, Step(s, es[0]), es[1..]))
  }

  function Run(s: State, es: seq<Event>): State
    decreases |es|
  {
    if es == [] then s else Run(Step(s, es[0]), es[1..])
  }

  // ---------------------------------------------------------------- invariants

  /** A running ask holds a session of its own binding: while listed it is marked active. */
  predicate Holds(sessions: map<Id, Record>, use: Use) {
    use.id in sessions ==> sessions[use.id].active && sessions[use.id].binding == use.bound
  }

  ghost predicate InUse(running: map<nat, Use>, id: Id) { exists t :: t in running && running[t].id == id }

  /** A session is active exactly while one ask runs on it. */
  ghost predicate Exclusive(sessions: map<Id, Record>, running: map<nat, Use>) {
    && (forall t :: t in running ==> Holds(sessions, running[t]))
    && (forall t, u :: t in running && u in running && running[t].id == running[u].id ==> t == u)
    && (forall id :: id in sessions && sessions[id].active ==> InUse(running, id))
  }

  function RunningOn(running: map<nat, Use>, name: string): set<nat> {
    set t | t in running && running[t].bound.service.name == name
  }

  ghost predicate Counted(active: map<string, int>, running: map<nat, Use>) {
    forall name :: Taken(active, name) == |RunningOn(running, name)|
  }

  predicate Small(m: Manager) { |m.sessions| <= MAX_SESSIONS && |m.rates| <= MAX_ORIGINS }

  ghost predicate Limited(catalog: Catalog, active: map<string, int>) {
    forall name :: name in catalog ==> Taken(active, name) <= catalog[name].maxConcurrency
  }

  ghost predicate AllPublished(catalog: Catalog, pending: map<nat, Pending>, running: map<nat, Use>) {
    && (forall t :: t in pending ==> Published(catalog, pending[t].bound))
    && (forall t :: t in running ==> Published(catalog, running[t].bound))
  }

  predicate Published(catalog: Catalog, bound: SessionBinding) {
    bound.service.name in catalog && catalog[bound.service.name] == bound.service
  }

  /** A slot was taken for the session's own binding. */
  predicate Rightful(sessions: map<Id, Record>, entry: Entered) {
    entry.id in sessions ==> sessions[entry.id].binding == entry.bound
  }

  ghost predicate Owned(sessions: map<Id, Record>, entered: seq<Entered>) {
    && (forall i :: 0 <= i < |entered| ==> Rightful(sessions, entered[i]))
    && (forall i, j :: 0 <= i < |entered| && 0 <= j < |entered| && entered[i].id == entered[j].id ==>
      entered[i].bound == entered[j].bound)
  }

  ghost predicate CleanedOnce(sessions: map<Id, Record>, cleaned: seq<Id>) {
    && (forall i :: 0 <= i < |cleaned| ==> cleaned[i] !in sessions)
    && (forall i, j :: 0 <= i < j < |cleaned| ==> cleaned[i] != cleaned[j])
  }

  ghost predicate Known(s: State) {
    && s.manager.sessions.Keys <= s.issued
    && UsesKnown(s.running, s.issued) && EntriesKnown(s.entered, s.issued) && CleanedKnown(s.cleaned, s.issued)
  }

  ghost predicate UsesKnown(running: map<nat, Use>, issued: set<Id>) {
    forall t :: t in running ==> running[t].id in issued
  }

  ghost predicate EntriesKnown(entered: seq<Entered>, issued: set<Id>) {
    forall i :: 0 <= i < |entered| ==> entered[i].id in issued
  }

  ghost predicate CleanedKnown(cleaned: seq<Id>, issued: set<Id>) {
    forall i :: 0 <= i < |cleaned| ==> cleaned[i] in issued
  }

  /** A drain has closed admission; past the join nothing runs, and what is left is on its list. */
  ghost predicate Drained(m: Manager, running: map<nat, Use>, d: Drain) {
    && !m.accepting
    && match d
       case Joining(tasks) => running.Keys <= tasks
       case Clearing(todo) => running == map[] && forall id :: id in m.sessions ==> id in todo
       case Returned => running == map[] && m.sessions == map[]
  }

  ghost predicate AllDrained(m: Manager, running: map<nat, Use>, drains: map<nat, Drain>) {
    forall d :: d in drains ==> Drained(m, running, drains[d])
  }

  ghost predicate Inv(catalog: Catalog, s: State) {
    && Exclusive(s.manager.sessions, s.running)
    && Counted(s.manager.active, s.running)
    && Small(s.manager) && Limited(catalog, s.manager.active) && AllPublished(catalog, s.pending, s.running)
    && Owned(s.manager.sessions, s.entered)
    && CleanedOnce(s.manager.sessions, s.cleaned)
    && Known(s)
    && AllDrained(s.manager, s.running, s.drains)
  }

  // ---------------------------------------------------------------- removing a session

  predicate Within(a: map<Id, Record>, b: map<Id, Record>) {
    forall id :: id in a ==> id in b && a[id] == b[id]
  }

  lemma FewerKeepExclusive(a: map<Id, Record>, b: map<Id, Record>, running: map<nat, Use>)
    requires Exclusive(b, running) && Within(a, b)
    ensures Exclusive(a, running)
  {
    forall t | t in running ensures Holds(a, running[t]) { assert Holds(b, running[t]); }
    forall id | id in a && a[id].active ensures InUse(running, id) { assert id in b; }
  }

  lemma FewerKeepOwned(a: map<Id, Record>, b: map<Id, Record>, entered: seq<Entered>)
    requires Owned(b, entered) && Within(a, b)
    ensures Owned(a, entered)
  {
    forall i | 0 <= i < |entered| ensures Rightful(a, entered[i]) { assert Rightful(b, entered[i]); }
  }

  lemma RemovalKeepsCleanedOnce(a: map<Id, Record>, b: map<Id, Record>, cleaned: seq<Id>, id: Id)
    requires CleanedOnce(b, cleaned) && Within(a, b) && id in b && id !in a
    ensures CleanedOnce(a, cleaned) && CleanedOnce(a, cleaned + [id])
  {
    forall i | 0 <= i < |cleaned| ensures cleaned[i] != id && cleaned[i] !in a { assert cleaned[i] !in b; }
  }

  lemma FewerStaySmall(a: Manager, b: Manager)
    requires Small(b) && a.sessions.Keys <= b.sessions.Keys && a.rates == b.rates
    ensures Small(a)
  {
    SubsetSize(a.sessions.Keys, b.sessions.Keys);
    assert |a.sessions| == |a.sessions.Keys| && |b.sessions| == |b.sessions.Keys|;
  }

  lemma FewerStayDrained(a: Manager, b: Manager, after: map<nat, Use>, running: map<nat, Use>, drains: map<nat, Drain>)
    requires AllDrained(b, running, drains)
    requires a.sessions.Keys <= b.sessions.Keys && after.Keys <= running.Keys && a.accepting == b.accepting
    ensures AllDrained(a, after, drains)
  {
    forall d | d in drains ensures Drained(a, after, drains[d]) { assert Drained(b, running, drains[d]); }
  }

  lemma DropKeepsUse(s: State, n: State, id: Id)
    requires Exclusive(s.manager.sessions, s.running)
    requires Owned(s.manager.sessions, s.entered)
    requires CleanedOnce(s.manager.sessions, s.cleaned)
    requires n == Drop(s, id)
    ensures Within(n.manager.sessions, s.manager.sessions)
    ensures Exclusive(n.manager.sessions, s.running)
    ensures Owned(n.manager.sessions, s.entered)
    ensures CleanedOnce(n.manager.sessions, n.cleaned)
  {
    var a, b := n.manager.sessions, s.manager.sessions;
    FewerKeepExclusive(a, b, s.running);
    FewerKeepOwned(a, b, s.entered);
    if id in b { RemovalKeepsCleanedOnce(a, b, s.cleaned, id); } else { assert a == b; }
    assert n.cleaned == s.cleaned || n.cleaned == s.cleaned + [id];
  }

  lemma DropKeepsInv(catalog: Catalog, s: State, id: Id)
    requires Inv(catalog, s)
    ensures Inv(catalog, Drop(s, id))
  {
    var n := Drop(s, id);
    DropKeepsUse(s, n, id);
    FewerStaySmall(n.manager, s.manager);
    FewerStayDrained(n.manager, s.manager, s.running, s.running, s.drains);
  }

  // ---------------------------------------------------------------- taking a slot

  lemma TrimmedStaysSmall(rates: Rates, now: real)
    requires |rates| <= MAX_ORIGINS
    ensures |Trimmed(rates, now)| <= MAX_ORIGINS
  {
    var t := Trimmed(rates, now);
    SubsetSize(t.Keys, rates.Keys);
    assert |t| == |t.Keys| && |rates| == |rates.Keys|;
  }

  lemma CheckedKeeps(m: Manager, bound: SessionBinding, argument: Value, now: real)
    requires Small(m)
    ensures var x := Checked(m, bound, argument, now);
            Small(x.0) && x.0 == m.(rates := x.0.rates)
  {
    TrimmedStaysSmall(m.rates, now);
  }

  lemma TakeKeepsExclusive(sessions: map<Id, Record>, running: map<nat, Use>, task: nat, use: Use, r: Record)
    requires Exclusive(sessions, running) && task !in running
    requires forall t :: t in running ==> running[t].id != use.id
    requires r.active && r.binding == use.bound
    ensures Exclusive(sessions[use.id := r], running[task := use])
  {
    var after := running[task := use];
    forall t | t in after ensures Holds(sessions[use.id := r], after[t]) {
      if t in running { assert Holds(sessions, running[t]); }
    }
    forall id | id in sessions[use.id := r] && sessions[use.id := r][id].active ensures InUse(after, id) {
      if id == use.id {
        assert after[task].id == id;
      } else {
        assert InUse(running, id);
        var t :| t in running && running[t].id == id;
        assert after[t].id == id;
      }
    }
  }

  lemma OneMoreRuns(running: map<nat, Use>, task: nat, use: Use, name: string)
    requires task !in running
    ensures |RunningOn(running[task := use], name)| ==
            |RunningOn(running, name)| + if name == use.bound.service.name then 1 else 0
  {
    var before, after := RunningOn(running, name), RunningOn(running[task := use], name);
    assert after == if name == use.bound.service.name then before + {task} else before;
  }

  lemma TakeKeepsCounted(active: map<string, int>, running: map<nat, Use>, task: nat, use: Use)
    requires Counted(active, running) && task !in running
    ensures var name := use.bound.service.name;
            Counted(active[name := Taken(active, name) + 1], running[task := use])
  {
    var name, after := use.bound.service.name, running[task := use];
    var slots := active[name := Taken(active, name) + 1];
    forall other ensures Taken(slots, other) == |RunningOn(after, other)| {
      OneMoreRuns(running, task, use, other);
      assert Taken(active, other) == |RunningOn(running, other)|;
    }
  }

  lemma TakeKeepsOwned(sessions: map<Id, Record>, entered: seq<Entered>, entry: Entered, r: Record)
    requires Owned(sessions, entered) && r.binding == entry.bound
    requires forall i :: 0 <= i < |entered| && entered[i].id == entry.id ==> entered[i].bound == entry.bound
    ensures Owned(sessions[entry.id := r], entered + [entry])
  {
    var log := entered + [entry];
    forall i | 0 <= i < |log| ensures Rightful(sessions[entry.id := r], log[i]) {
      if i < |entered| { assert Rightful(sessions, entered[i]); }
    }
  }

  /** A slot on an open session: a new identifier, or a listed and inactive session of the binding. */
  lemma SeatKeepsUse(s: State, n: State, task: nat, use: Use, r: Record, at: real)
    requires Exclusive(s.manager.sessions, s.running) && Owned(s.manager.sessions, s.entered)
    requires CleanedOnce(s.manager.sessions, s.cleaned) && Known(s)
    requires task !in s.running && r.active && r.binding == use.bound
    requires use.id in s.issued ==>
      use.id in s.manager.sessions && !s.manager.sessions[use.id].active
      && s.manager.sessions[use.id].binding == use.bound
    requires n.manager.sessions == s.manager.sessions[use.id := r] && n.running == s.running[task := use]
    requires n.entered == s.entered + [Entered(use.id, use.bound, at)] && n.cleaned == s.cleaned
    requires n.issued == s.issued + {use.id}
    ensures Exclusive(n.manager.sessions, n.running) && Owned(n.manager.sessions, n.entered)
    ensures CleanedOnce(n.manager.sessions, n.cleaned) && Known(n)
  {
    forall t | t in s.running ensures s.running[t].id != use.id {
      assert Holds(s.manager.sessions, s.running[t]);
    }
    TakeKeepsExclusive(s.manager.sessions, s.running, task, use, r);
    forall i | 0 <= i < |s.entered| && s.entered[i].id == use.id ensures s.entered[i].bound == use.bound {
      assert Rightful(s.manager.sessions, s.entered[i]);
    }
    TakeKeepsOwned(s.manager.sessions, s.entered, Entered(use.id, use.bound, at), r);
  }

  lemma TakeKeepsLimited(catalog: Catalog, active: map<string, int>, bound: SessionBinding, slots: int)
    requires Limited(catalog, active) && Published(catalog, bound) && slots <= bound.service.maxConcurrency
    ensures Limited(catalog, active[bound.service.name := slots])
  {
    var after := active[bound.service.name := slots];
    forall name | name in catalog ensures Taken(after, name) <= catalog[name].maxConcurrency {
      assert Taken(active, name) <= catalog[name].maxConcurrency;
    }
  }

  lemma OpenMeansNoDrain(m: Manager, running: map<nat, Use>, drains: map<nat, Drain>)
    requires AllDrained(m, running, drains)
    ensures m.accepting ==> drains == map[]
  {
    if d :| d in drains { assert Drained(m, running, drains[d]); }
  }

  lemma OneMoreStaysSmall(m: Manager, id: Id, r: Record)
    requires Small(m) && (id in m.sessions || |m.sessions| < MAX_SESSIONS)
    ensures |m.sessions[id := r]| <= MAX_SESSIONS
  {
    var n := m.sessions[id := r];
    assert n.Keys == m.sessions.Keys + {id} && |n| == |n.Keys| && |m.sessions| == |m.sessions.Keys|;
  }

  /** The context could not be made: only the stamp and the log entry remain. */
  lemma FailedSeatKeepsUse(s: State, n: State, token: Id, bound: SessionBinding, at: real)
    requires Owned(s.manager.sessions, s.entered) && Known(s) && token !in s.issued
    requires n.manager.sessions == s.manager.sessions && n.running == s.running && n.cleaned == s.cleaned
    requires n.entered == s.entered + [Entered(token, bound, at)] && n.issued == s.issued + {token}
    ensures Owned(n.manager.sessions, n.entered) && Known(n)
  {}

  /** Taking a slot, given what the checks established. */
  lemma SeatKeepsInv(catalog: Catalog, s: State, n: State, task: nat, bound: SessionBinding, argument: Value,
                     now: real, token: Id, made: Made)
    requires Inv(catalog, s) && s.manager.accepting && Published(catalog, bound)
    requires task !in s.running && token !in s.issued
    requires RateKey(bound.service.name, bound.origin) in s.manager.rates
    requires Denied(s.manager, bound, argument, now).None?
    requires argument.Null? ==> |s.manager.sessions| < MAX_SESSIONS
    requires Taken(s.manager.active, bound.service.name) < bound.service.maxConcurrency
    requires var x := Seat(s.manager, bound, argument, now, token, made);
             n == Seated(s, task, bound, now, x)
    ensures Inv(catalog, n)
  {
    var x := Seat(s.manager, bound, argument, now, token, made);
    var id, name := x.1.id, bound.service.name;
    OpenMeansNoDrain(s.manager, s.running, s.drains);
    TakeKeepsLimited(catalog, s.manager.active, bound, Taken(n.manager.active, name));
    assert |n.manager.rates| == |s.manager.rates| by {
      assert n.manager.rates.Keys == s.manager.rates.Keys;
      assert |n.manager.rates| == |n.manager.rates.Keys| && |s.manager.rates| == |s.manager.rates.Keys|;
    }
    if x.1.running {
      var use := Use(id, bound);
      SeatKeepsUse(s, n, task, use, n.manager.sessions[id], now);
      TakeKeepsCounted(s.manager.active, s.running, task, use);
      OneMoreStaysSmall(s.manager, id, n.manager.sessions[id]);
    } else {
      FailedSeatKeepsUse(s, n, token, bound, now);
    }
  }

  lemma CheckedKeepsInv(catalog: Catalog, s: State, task: nat)
    requires Inv(catalog, s) && task in s.pending
    ensures var p := s.pending[task];
            Inv(catalog, s.(manager := Checked(s.manager, p.bound, p.argument, p.now).0, pending := s.pending - {task}))
  {
    var p := s.pending[task];
    var m := Checked(s.manager, p.bound, p.argument, p.now).0;
    CheckedKeeps(s.manager, p.bound, p.argument, p.now);
    FewerStayDrained(m, s.manager, s.running, s.running, s.drains);
  }

  lemma EnterKeepsInv(catalog: Catalog, s: State, task: nat, token: Id, made: Made)
    requires Inv(catalog, s) && task in s.pending && task !in s.running && token !in s.issued
    ensures Inv(catalog, OnEnter(s, task, token, made))
  {
    var p := s.pending[task];
    var x := Checked(s.manager, p.bound, p.argument, p.now);
    var mid := s.(manager := x.0, pending := s.pending - {task});
    CheckedKeepsInv(catalog, s, task);
    CheckedKeeps(s.manager, p.bound, p.argument, p.now);
    if x.1.None? {
      assert Published(catalog, p.bound);
      SeatKeepsInv(catalog, mid, OnEnter(s, task, token, made), task, p.bound, p.argument, p.now, token, made);
    } else {
      assert OnEnter(s, task, token, made) == mid;
    }
  }

  // ---------------------------------------------------------------- giving a slot back

  lemma LeaveKeepsExclusive(sessions: map<Id, Record>, after: map<Id, Record>, running: map<nat, Use>, task: nat)
    requires Exclusive(sessions, running) && task in running
    requires var id := running[task].id;
             && (id in after ==> !after[id].active)
             && (forall other :: other in after && other != id ==> other in sessions && after[other] == sessions[other])
    ensures Exclusive(after, running - {task})
  {
    var left := running - {task};
    forall t | t in left ensures Holds(after, left[t]) { assert Holds(sessions, running[t]); }
    forall id | id in after && after[id].active ensures InUse(left, id) {
      assert InUse(running, id);
      var t :| t in running && running[t].id == id;
      assert left[t].id == id;
    }
  }

  lemma LeaveKeepsCounted(active: map<string, int>, running: map<nat, Use>, task: nat)
    requires Counted(active, running) && task in running
    ensures var name := running[task].bound.service.name;
            Counted(active[name := Taken(active, name) - 1], running - {task})
  {
    var name, left := running[task].bound.service.name, running - {task};
    var slots := active[name := Taken(active, name) - 1];
    forall other ensures Taken(slots, other) == |RunningOn(left, other)| {
      OneMoreRuns(left, task, running[task], other);
      assert left[task := running[task]] == running;
      assert Taken(active, other) == |RunningOn(running, other)|;
    }
  }

  lemma FreedKeepsOwned(sessions: map<Id, Record>, after: map<Id, Record>, entered: seq<Entered>)
    requires Owned(sessions, entered)
    requires forall id :: id in after ==> id in sessions && after[id].binding == sessions[id].binding
    ensures Owned(after, entered)
  {
    forall i | 0 <= i < |entered| ensures Rightful(after, entered[i]) { assert Rightful(sessions, entered[i]); }
  }

  /** The running ask is over; its session, if still listed, is inactive. */
  function FreedState(s: State, task: nat, ending: Ending): State
    requires task in s.running
  {
    var use := s.running[task];
    s.(manager := Freed(s.manager, use.bound.service, use.id, ending), running := s.running - {task})
  }

  lemma FreedKeepsInv(catalog: Catalog, s: State, task: nat, ending: Ending)
    requires Inv(catalog, s) && task in s.running
    ensures Inv(catalog, FreedState(s, task, ending))
  {
    var use := s.running[task];
    var n := FreedState(s, task, ending);
    LeaveKeepsExclusive(s.manager.sessions, n.manager.sessions, s.running, task);
    LeaveKeepsCounted(s.manager.active, s.running, task);
    FreedKeepsOwned(s.manager.sessions, n.manager.sessions, s.entered);
    assert n.manager.sessions.Keys == s.manager.sessions.Keys;
    FewerStaySmall(n.manager, s.manager);
    FewerStayDrained(n.manager, s.manager, n.running, s.running, s.drains);
    assert Published(catalog, use.bound);
    assert Limited(catalog, s.manager.active);
    TakeKeepsLimited(catalog, s.manager.active, use.bound, Taken(s.manager.active, use.bound.service.name) - 1);
  }

  lemma LeaveKeepsInv(catalog: Catalog, s: State, task: nat, ending: Ending)
    requires Inv(catalog, s) && task in s.running
    ensures Inv(catalog, OnLeave(s, task, ending))
  {
    var use := s.running[task];
    var freed := FreedState(s, task, ending);
    FreedKeepsInv(catalog, s, task, ending);
    if Succeeded(ending) && !use.bound.service.stateless {
      assert OnLeave(s, task, ending) == freed;
    } else {
      DropKeepsInv(catalog, freed, use.id);
      assert OnLeave(s, task, ending) == Drop(freed, use.id);
    }
  }

  // ---------------------------------------------------------------- every run

  lemma DrainKeepsInv(catalog: Catalog, s: State, d: nat)
    requires Inv(catalog, s)
    ensures Inv(catalog, Step(s, Drain(d)))
  {
    var n := Step(s, Drain(d));
    forall other | other in n.drains ensures Drained(n.manager, n.running, n.drains[other]) {
      if other != d { assert Drained(s.manager, s.running, s.drains[other]); }
    }
  }

  lemma JoinedKeepsInv(catalog: Catalog, s: State, d: nat, order: seq<Id>)
    requires Inv(catalog, s) && Legal(catalog, s, Joined(d, order))
    ensures Inv(catalog, Step(s, Joined(d, order)))
  {
    var n := Step(s, Joined(d, order));
    assert Drained(s.manager, s.running, s.drains[d]);
    assert s.running.Keys == {};
    forall id | id in s.manager.sessions ensures id in order { assert id in (set k | k in order); }
    forall other | other in n.drains ensures Drained(n.manager, n.running, n.drains[other]) {
      if other != d { assert Drained(s.manager, s.running, s.drains[other]); }
    }
  }

  lemma ClearKeepsInv(catalog: Catalog, s: State, d: nat)
    requires Inv(catalog, s) && Legal(catalog, s, Clear(d))
    ensures Inv(catalog, Step(s, Clear(d)))
  {
    var todo, n := s.drains[d].todo, Step(s, Clear(d));
    assert Drained(s.manager, s.running, s.drains[d]);
    if todo == [] {
      assert s.manager.sessions == map[];
      forall other | other in n.drains ensures Drained(n.manager, n.running, n.drains[other]) {
        if other != d { assert Drained(s.manager, s.running, s.drains[other]); }
      }
    } else {
      var mid := Drop(s, todo[0]);
      DropKeepsInv(catalog, s, todo[0]);
      forall other | other in n.drains ensures Drained(n.manager, n.running, n.drains[other]) {
        if other != d { assert Drained(mid.manager, mid.running, mid.drains[other]); }
      }
    }
  }

  lemma PendingKeepsInv(catalog: Catalog, s: State, pending: map<nat, Pending>)
    requires Inv(catalog, s)
    requires forall t :: t in pending ==> Published(catalog, pending[t].bound)
    ensures Inv(catalog, s.(pending := pending))
  {}

  lemma PurgeKeepsInv(catalog: Catalog, s: State, task: nat)
    requires Inv(catalog, s) && Legal(catalog, s, Purge(task))
    ensures Inv(catalog, Step(s, Purge(task)))
  {
    var p := s.pending[task];
    DropKeepsInv(catalog, s, p.todo[0]);
    PendingKeepsInv(catalog, Drop(s, p.todo[0]), s.pending[task := p.(todo := p.todo[1..])]);
  }

  lemma BeginKeepsInv(catalog: Catalog, s: State, e: Event)
    requires Inv(catalog, s) && Legal(catalog, s, e) && e.Begin?
    ensures Inv(catalog, Step(s, e))
  {
    PendingKeepsInv(catalog, s, Step(s, e).pending);
  }

  lemma StepKeepsInv(catalog: Catalog, s: State, e: Event)
    requires Inv(catalog, s) && Apart(s) && Legal(catalog, s, e)
    ensures Inv(catalog, Step(s, e))
  {
    match e
    case Begin(_, _, _, _, _, _) => BeginKeepsInv(catalog, s, e);
    case Purge(task) => PurgeKeepsInv(catalog, s, task);
    case Abandon(task) => PendingKeepsInv(catalog, s, s.pending - {task});
    case Enter(task, token, made) => EnterKeepsInv(catalog, s, task, token, made);
    case Leave(task, ending) => LeaveKeepsInv(catalog, s, task, ending);
    case Finish(_, _, id) => DropKeepsInv(catalog, s, id);
    case Expire(id, _) => DropKeepsInv(catalog, s, id);
    case Drain(d) => DrainKeepsInv(catalog, s, d);
    case Joined(d, order) => JoinedKeepsInv(catalog, s, d, order);
    case Clear(d) => ClearKeepsInv(catalog, s, d);
  }

  /** A task is in one phase at a time. */
  predicate Apart(s: State) { s.pending.Keys !! s.running.Keys }

  lemma StepKeepsApart(catalog: Catalog, s: State, e: Event)
    requires Apart(s) && Legal(catalog, s, e)
    ensures Apart(Step(s, e))
  {}

  lemma {:induction false} RunKeepsInv(catalog: Catalog, s: State, es: seq<Event>)
    requires Inv(catalog, s) && Apart(s) && LegalRun(catalog, s, es)
    ensures Inv(catalog, Run(s, es)) && Apart(Run(s, es))
    decreases |es|
  {
    if es != [] {
      StepKeepsInv(catalog, s, es[0]);
      StepKeepsApart(catalog, s, es[0]);
      RunKeepsInv(catalog, Step(s, es[0]), es[1..]);
    }
  }
}
