/** EmbassyRegistry: any number of starts, closes and close-alls, interleaved at every suspension.

    A record is identified by its position in `records`, in the order of creation; its lifecycle
    task may become ready, fail or end at any time.  Only a start holds the lock over a suspension. */
module RegistryRuns {
  import opened Domain
  import opened SessionTables
  import SetFacts

  const MAX_SERVICES := 8

  datatype Readiness = Pending | Up | Broken

  /** `stopping`: told to drain, its manager closed; `done`: its lifecycle task has finished. */
  datatype Running = Running(owner: Profile, service: Service, stopping: bool, ready: Readiness, done: bool)

  datatype Worker =
    | Waiting(service: Service, owner: Profile)
    | Starting(record: nat)
    | Abandoning(record: nat)
    | CloseWaiting(name: string, owner: Profile)
    | Closing(name: string, record: nat)
    | AllWaiting
    | AllClosing(children: map<nat, string>)
    | AllReturned
    | Gone

  datatype State = State(services: map<string, nat>, records: seq<Running>, closing: bool,
                         lock: Option<nat>, workers: map<nat, Worker>)

  const INITIAL := State(map[], [], false, None, map[])

  datatype Event =
    | RequestStart(w: nat, service: Service, owner: Profile, allowed: bool)
    | EnterStart(w: nat)
    | Launched(w: nat, allowed: bool)
    | CancelStart(w: nat)
    | EndStart(w: nat)
    | RequestClose(w: nat, name: string, owner: Profile)
    | EnterClose(w: nat)
    | CancelClose(w: nat)
    | EndClose(w: nat)
    | RequestCloseAll(w: nat)
    | EnterCloseAll(w: nat, children: map<nat, string>)
    | CancelCloseAll(w: nat)
    | EndCloseAll(w: nat)
    | Ready(record: nat)
    | End(record: nat)

  function WorkerOf(s: State, w: nat): Worker { if w in s.workers then s.workers[w] else Gone }

  predicate Done(s: State, record: nat) { record < |s.records| && s.records[record].done }

  function Readied(s: State, record: nat): Readiness { if record < |s.records| then s.records[record].ready else Pending }

  predicate IsChild(s: State, w: nat) {
    exists p :: p in s.workers && s.workers[p].AllClosing? && w in s.workers[p].children
  }

  /** A close-all gets the lock and starts one close for each listed service. */
  predicate Spawns(s: State, w: nat, children: map<nat, string>) {
    && WorkerOf(s, w).AllWaiting? && s.lock.None?
    && children.Keys !! s.workers.Keys && children.Values == s.services.Keys && |children| == |s.services|
  }

  predicate Legal(s: State, e: Event) {
    match e
    case RequestStart(w, _, _, _) => w !in s.workers
    case EnterStart(w) => WorkerOf(s, w).Waiting? && s.lock.None?
    case Launched(w, _) => WorkerOf(s, w).Starting? && !Readied(s, WorkerOf(s, w).record).Pending?
    case CancelStart(w) => WorkerOf(s, w).Waiting? || WorkerOf(s, w).Starting?
    case EndStart(w) => WorkerOf(s, w).Abandoning? && Done(s, WorkerOf(s, w).record)
    case RequestClose(w, _, _) => w !in s.workers
    case EnterClose(w) => WorkerOf(s, w).CloseWaiting? && s.lock.None?
    case CancelClose(w) => WorkerOf(s, w).CloseWaiting? && !IsChild(s, w)
    case EndClose(w) => WorkerOf(s, w).Closing? && Done(s, WorkerOf(s, w).record)
    case RequestCloseAll(w) => w !in s.workers
    case EnterCloseAll(w, children) => Spawns(s, w, children)
    case CancelCloseAll(w) => WorkerOf(s, w).AllWaiting? || WorkerOf(s, w).AllClosing?
    case EndCloseAll(w) =>
      WorkerOf(s, w).AllClosing? && forall c :: c in WorkerOf(s, w).children ==> WorkerOf(s, c).Gone?
    case Ready(r) => Readied(s, r).Pending? && r < |s.records| && !s.records[r].done
    case End(r) => r < |s.records| && !s.records[r].done
  }

  // ---------------------------------------------------------------- the code between suspensions

  datatype Verdict = Unavailable | NameInUse | AlreadyRunning | Capacity | Launch

  /** What `start` decides once it holds the lock; `listed` is what the name is registered to. */
  function Admission(closing: bool, listed: Option<Running>, size: nat, service: Service, owner: Profile): Verdict {
    if closing then Unavailable
    else if listed.Some? then
      if listed.value.owner != owner || listed.value.service != service then NameInUse else AlreadyRunning
    else if size >= MAX_SERVICES then Capacity
    else Launch
  }

  function Lookup(s: State, name: string): Option<Running> {
    if name in s.services && s.services[name] < |s.records| then Some(s.records[s.services[name]]) else None
  }

  function Stopped(s: State, record: nat): seq<Running> {
    if record < |s.records| then s.records[record := s.records[record].(stopping := true)] else s.records
  }

  /** Every listed record is told to stop. */
  function AllStopped(s: State): seq<Running> {
    seq(|s.records|, i requires 0 <= i < |s.records| =>
      if i in s.services.Values then s.records[i].(stopping := true) else s.records[i])
  }

  function Set(s: State, w: nat, worker: Worker): State { s.(workers := s.workers[w := worker]) }

  function OnEnterStart(s: State, w: nat, service: Service, owner: Profile): State {
    if Admission(s.closing, Lookup(s, service.name), |s.services|, service, owner).Launch? then
      Set(s, w, Starting(|s.records|)).(lock := Some(w),
        records := s.records + [Running(owner, service, false, Pending, false)])
    else Set(s, w, Gone)
  }

  function Abandon(s: State, w: nat, record: nat): State {
    Set(s, w, Abandoning(record)).(records := Stopped(s, record))
  }

  function OnLaunched(s: State, w: nat, record: nat, allowed: bool): State {
    if Readied(s, record).Up? && !s.closing && allowed && record < |s.records| then
      Set(s, w, Gone).(lock := None, services := s.services[s.records[record].service.name := record])
    else Abandon(s, w, record)
  }

  function OnEnterClose(s: State, w: nat, name: string, owner: Profile): State {
    var listed := Lookup(s, name);
    if listed.None? || listed.value.owner != owner then Set(s, w, Gone)
    else Set(s, w, Closing(name, s.services[name])).(records := Stopped(s, s.services[name]))
  }

  /** Only the very record that was closed is taken out. */
  function OnEndClose(s: State, w: nat, name: string, record: nat): State {
    Set(s, w, Gone).(services :=
      if name in s.services && s.services[name] == record then s.services - {name} else s.services)
  }

  /** One close for every listed service, with the owner of its record. */
  function Closers(s: State, children: map<nat, string>): map<nat, Worker> {
    map c | c in children :: Closer(s, children[c])
  }

  function Closer(s: State, name: string): Worker {
    if Lookup(s, name).Some? then CloseWaiting(name, Lookup(s, name).value.owner) else Gone
  }

  function OnEnterCloseAll(s: State, w: nat, children: map<nat, string>): State {
    s.(workers := s.workers[w := AllClosing(children)] + Closers(s, children), records := AllStopped(s))
  }

  function Step(s: State, e: Event): State {
    match e
    case RequestStart(w, service, owner, allowed) => Set(s, w, if allowed then Waiting(service, owner) else Gone)
    case EnterStart(w) =>
      if WorkerOf(s, w).Waiting? then OnEnterStart(s, w, WorkerOf(s, w).service, WorkerOf(s, w).owner) else s
    case Launched(w, allowed) =>
      if WorkerOf(s, w).Starting? then OnLaunched(s, w, WorkerOf(s, w).record, allowed) else s
    case CancelStart(w) =>
      if WorkerOf(s, w).Starting? then Abandon(s, w, WorkerOf(s, w).record) else Set(s, w, Gone)
    case EndStart(w) => Set(s, w, Gone).(lock := None)
    case RequestClose(w, name, owner) => Set(s, w, CloseWaiting(name, owner))
    case EnterClose(w) =>
      if WorkerOf(s, w).CloseWaiting? then OnEnterClose(s, w, WorkerOf(s, w).name, WorkerOf(s, w).owner) else s
    case CancelClose(w) => Set(s, w, Gone)
    case EndClose(w) =>
      if WorkerOf(s, w).Closing? then OnEndClose(s, w, WorkerOf(s, w).name, WorkerOf(s, w).record) else s
    case RequestCloseAll(w) => Set(s, w, AllWaiting).(closing := true)
    case EnterCloseAll(w, children) => OnEnterCloseAll(s, w, children)
    case CancelCloseAll(w) => Set(s, w, Gone)
    case EndCloseAll(w) => Set(s, w, AllReturned)
    case Ready(r) =>
      if r < |s.records| then s.(records := s.records[r := s.records[r].(ready := Up)]) else s
    case End(r) =>
      if r < |s.records| then
        var ready := if s.records[r].ready.Pending? then Readiness.Broken else s.records[r].ready;
        s.(records := s.records[r := s.records[r].(ready := ready, done := true)])
      else s
  }

  function Run(s: State, es: seq<Event>): State
    decreases |es|
  {
    if es == [] then s else Run(Step(s, es[0]), es[1..])
  }

  predicate LegalRun(s: State, es: seq<Event>)
    decreases |es|
  {
    es == [] || (Legal(s, es[0]) && LegalRun(Step(s, es[0]), es[1..]))
  }

  // ---------------------------------------------------------------- invariants

  /** The record is the one its name is registered to. */
  predicate Registered(services: map<string, nat>, records: seq<Running>, r: nat) {
    && r < |records|
    && records[r].service.name in services
    && services[records[r].service.name] == r
  }

  ghost predicate NamesOk(services: map<string, nat>, records: seq<Running>) {
    forall name :: name in services ==>
      services[name] < |records| && records[services[name]].service.name == name
  }

  predicate Holds(worker: Worker) { worker.Starting? || worker.Abandoning? }

  /** A lifecycle task that is neither finished nor registered belongs to the start holding the lock. */
  ghost predicate Accounted(s: State, r: nat) {
    r < |s.records| && !s.records[r].done && !Registered(s.services, s.records, r) ==>
      s.lock.Some? && Holds(WorkerOf(s, s.lock.value)) && WorkerOf(s, s.lock.value).record == r
  }

  /** The worker `c` is closing the record registered under `name`. */
  predicate Pursues(s: State, c: nat, name: string) {
    match WorkerOf(s, c)
    case CloseWaiting(n, owner) => n == name && Lookup(s, name).Some? && Lookup(s, name).value.owner == owner
    case Closing(n, r) => n == name && name in s.services && s.services[name] == r
    case _ => false
  }

  ghost predicate Pursued(s: State, children: map<nat, string>, name: string) {
    exists c :: c in children && Pursues(s, c, name)
  }

  ghost predicate WorkerOk(s: State, w: nat) {
    && (Holds(WorkerOf(s, w)) <==> s.lock == Some(w))
    && match WorkerOf(s, w)
       case Starting(r) =>
         r < |s.records| && s.records[r].service.name !in s.services && |s.services| < MAX_SERVICES
       case Abandoning(r) => r < |s.records| && s.records[r].service.name !in s.services && s.records[r].stopping
       case Closing(name, r) => r < |s.records| && s.records[r].stopping
       case AllWaiting => s.closing
       case AllClosing(children) =>
         s.closing && s.lock.None? && forall name :: name in s.services ==> Pursued(s, children, name)
       case AllReturned => s.closing && s.lock.None? && s.services == map[]
       case _ => true
  }

  ghost predicate Inv(s: State) {
    && NamesOk(s.services, s.records) && |s.services| <= MAX_SERVICES
    && (forall w :: WorkerOk(s, w))
    && (forall r :: Accounted(s, r))
  }

  // ---------------------------------------------------------------- what steps keep

  /** The same names registered to the same records, which keep their owner and service. */
  ghost predicate SameTable(s: State, n: State) {
    && n.services == s.services && |n.records| >= |s.records|
    && (forall r :: 0 <= r < |s.records| ==> SameRecord(s.records[r], n.records[r]))
  }

  /** A record's owner and service are fixed; told to stop, or finished, it stays so. */
  predicate SameRecord(a: Running, b: Running) {
    b.owner == a.owner && b.service == a.service && (a.stopping ==> b.stopping) && (a.done ==> b.done)
  }

  ghost predicate OnlyMoves(s: State, n: State, w: nat) {
    forall v: nat :: v != w ==> WorkerOf(n, v) == WorkerOf(s, v)
  }

  /** What `w` pursues on behalf of a close-all, it goes on pursuing. */
  ghost predicate KeepsPursuing(s: State, n: State, w: nat) {
    forall name :: IsChild(s, w) && Pursues(s, w, name) ==> Pursues(n, w, name)
  }

  lemma PursuitStays(s: State, n: State, w: nat, children: map<nat, string>, name: string)
    requires SameTable(s, n) && OnlyMoves(s, n, w) && NamesOk(s.services, s.records)
    requires Pursued(s, children, name)
    requires w in children && Pursues(s, w, name) ==> Pursues(n, w, name)
    ensures Pursued(n, children, name)
  {
    var c :| c in children && Pursues(s, c, name);
    assert Pursues(n, c, name);
  }

  /** Another worker is as it was, if the lock moved only to or from `w`. */
  lemma OtherStaysOk(s: State, n: State, w: nat, v: nat)
    requires WorkerOk(s, v) && v != w && NamesOk(s.services, s.records)
    requires SameTable(s, n) && OnlyMoves(s, n, w) && (s.closing ==> n.closing)
    requires n.lock == s.lock || (s.lock == None && n.lock == Some(w)) || (s.lock == Some(w) && n.lock == None)
    requires s.lock == None && n.lock == Some(w) ==> !s.closing
    requires KeepsPursuing(s, n, w)
    ensures WorkerOk(n, v)
  {
    if WorkerOf(s, v).AllClosing? {
      var children := WorkerOf(s, v).children;
      forall name | name in n.services ensures Pursued(n, children, name) {
        PursuitStays(s, n, w, children, name);
      }
    }
  }

  lemma AccountedStays(s: State, n: State, w: nat, r: nat)
    requires Accounted(s, r) && SameTable(s, n) && OnlyMoves(s, n, w) && r < |s.records|
    requires n.lock == s.lock && (Holds(WorkerOf(s, w)) ==> Holds(WorkerOf(n, w)) && WorkerOf(n, w).record == WorkerOf(s, w).record)
    ensures Accounted(n, r)
  {}

  /** A worker that neither holds the lock nor touches the table changes its own place only. */
  lemma QuietMoveKeepsInv(s: State, n: State, w: nat)
    requires Inv(s) && SameTable(s, n) && |n.records| == |s.records| && OnlyMoves(s, n, w)
    requires n.lock == s.lock && (s.closing ==> n.closing)
    requires Holds(WorkerOf(s, w)) ==> Holds(WorkerOf(n, w)) && WorkerOf(n, w).record == WorkerOf(s, w).record
    requires WorkerOk(n, w)
    requires KeepsPursuing(s, n, w)
    ensures Inv(n)
  {
    forall v: nat ensures WorkerOk(n, v) {
      assert WorkerOk(s, v);
      if v != w { OtherStaysOk(s, n, w, v); }
    }
    forall r: nat ensures Accounted(n, r) {
      assert Accounted(s, r);
      if r < |s.records| { AccountedStays(s, n, w, r); }
    }
  }

  lemma TaskStepKeepsInv(s: State, n: State)
    requires Inv(s) && SameTable(s, n) && |n.records| == |s.records|
    requires n.workers == s.workers && n.lock == s.lock && n.closing == s.closing
    ensures Inv(n)
  {
    assert WorkerOk(s, 0);
    OtherStaysOk(s, n, 1, 0);
    QuietMoveKeepsInv(s, n, 0);
  }

  lemma LaunchKeepsInv(s: State, w: nat, service: Service, owner: Profile)
    requires Inv(s) && Legal(s, EnterStart(w)) && WorkerOf(s, w) == Waiting(service, owner)
    ensures Inv(OnEnterStart(s, w, service, owner))
  {
    var n := OnEnterStart(s, w, service, owner);
    assert WorkerOk(s, w);
    if n.lock.None? {
      QuietMoveKeepsInv(s, n, w);
    } else {
      forall v: nat ensures WorkerOk(n, v) {
        assert WorkerOk(s, v);
        if v != w { OtherStaysOk(s, n, w, v); }
      }
      forall r: nat ensures Accounted(n, r) { assert Accounted(s, r); }
    }
  }

  lemma RegisterKeepsInv(s: State, w: nat, record: nat)
    requires Inv(s) && WorkerOf(s, w) == Starting(record) && Readied(s, record).Up? && !s.closing
    ensures Inv(OnLaunched(s, w, record, true))
  {
    var n := OnLaunched(s, w, record, true);
    assert WorkerOk(s, w);
    forall v: nat ensures WorkerOk(n, v) { assert WorkerOk(s, v); }
    forall r: nat ensures Accounted(n, r) { assert Accounted(s, r); }
  }

  lemma EndStartKeepsInv(s: State, w: nat)
    requires Inv(s) && Legal(s, EndStart(w))
    ensures Inv(Step(s, EndStart(w)))
  {
    var n := Step(s, EndStart(w));
    assert WorkerOk(s, w);
    forall v: nat ensures WorkerOk(n, v) {
      assert WorkerOk(s, v);
      if v != w { OtherStaysOk(s, n, w, v); }
    }
    forall r: nat ensures Accounted(n, r) { assert Accounted(s, r); }
  }

  lemma FewerServices(a: map<string, nat>, b: map<string, nat>)
    requires a.Keys <= b.Keys
    ensures |a| <= |b|
  {
    SetFacts.SubsetSize(a.Keys, b.Keys);
    assert |a| == |a.Keys| && |b| == |b.Keys|;
  }

  lemma EndCloseKeepsPursuit(s: State, w: nat, name: string, record: nat, children: map<nat, string>, other: string)
    requires WorkerOf(s, w) == Closing(name, record) && other in OnEndClose(s, w, name, record).services
    requires Pursued(s, children, other)
    ensures Pursued(OnEndClose(s, w, name, record), children, other)
  {
    var c :| c in children && Pursues(s, c, other);
    assert Pursues(OnEndClose(s, w, name, record), c, other);
  }

  lemma EndCloseKeepsInv(s: State, w: nat, name: string, record: nat)
    requires Inv(s) && Legal(s, EndClose(w)) && WorkerOf(s, w) == Closing(name, record)
    ensures Inv(OnEndClose(s, w, name, record))
  {
    var n := OnEndClose(s, w, name, record);
    FewerServices(n.services, s.services);
    assert WorkerOk(s, w);
    forall v: nat ensures WorkerOk(n, v) {
      assert WorkerOk(s, v);
      if WorkerOf(n, v).AllClosing? {
        forall other | other in n.services ensures Pursued(n, WorkerOf(n, v).children, other) {
          EndCloseKeepsPursuit(s, w, name, record, WorkerOf(n, v).children, other);
        }
      }
    }
    forall r: nat ensures Accounted(n, r) { assert Accounted(s, r); }
  }

  /** The state after a close-all has marked the records and spawned its closes. */
  ghost predicate Spawning(s: State, n: State, w: nat, children: map<nat, string>) {
    && SameTable(s, n) && |n.records| == |s.records| && n.lock.None? && s.lock.None? && n.closing == s.closing
    && w !in children && WorkerOf(s, w).AllWaiting? && WorkerOf(n, w) == AllClosing(children)
    && (forall c: nat :: c in children ==> WorkerOf(s, c).Gone? && WorkerOf(n, c) == Closer(s, children[c]))
    && (forall v: nat :: v !in children && v != w ==> WorkerOf(n, v) == WorkerOf(s, v))
    && children.Values == s.services.Keys
  }

  lemma StoppingKeepsTable(s: State, n: State)
    requires n.services == s.services && n.records == AllStopped(s)
    ensures SameTable(s, n)
  {}

  lemma EnterCloseAllSpawns(s: State, w: nat, children: map<nat, string>)
    requires Spawns(s, w, children)
    ensures Spawning(s, OnEnterCloseAll(s, w, children), w, children)
  {
    var n := OnEnterCloseAll(s, w, children);
    StoppingKeepsTable(s, n);
    var closers := Closers(s, children);
    assert closers.Keys == children.Keys;
    forall v: nat ensures WorkerOf(n, v) ==
      if v in children then Closer(s, children[v]) else if v == w then AllClosing(children) else WorkerOf(s, v)
    {
      if v in children { assert n.workers[v] == closers[v]; }
    }
  }

  lemma SpawnedPursue(s: State, n: State, w: nat, children: map<nat, string>, name: string)
    requires NamesOk(s.services, s.records) && Spawning(s, n, w, children) && name in s.services
    ensures Pursued(n, children, name)
  {
    assert name in children.Values;
    var c :| c in children && children[c] == name;
    assert Pursues(n, c, name);
  }

  lemma SpawningKeepsPursuit(s: State, n: State, w: nat, children: map<nat, string>, others: map<nat, string>, name: string)
    requires NamesOk(s.services, s.records) && Spawning(s, n, w, children) && Pursued(s, others, name)
    ensures Pursued(n, others, name)
  {
    var c :| c in others && Pursues(s, c, name);
    assert Pursues(n, c, name);
  }

  lemma SpawnerIsOk(s: State, n: State, w: nat, children: map<nat, string>)
    requires NamesOk(s.services, s.records) && Spawning(s, n, w, children) && s.closing
    ensures WorkerOk(n, w)
  {
    forall name | name in n.services ensures Pursued(n, children, name) { SpawnedPursue(s, n, w, children, name); }
  }

  lemma BystanderIsOk(s: State, n: State, w: nat, children: map<nat, string>, v: nat)
    requires NamesOk(s.services, s.records) && Spawning(s, n, w, children) && WorkerOk(s, v)
    requires v !in children && v != w
    ensures WorkerOk(n, v)
  {
    if WorkerOf(s, v).AllClosing? {
      forall name | name in n.services ensures Pursued(n, WorkerOf(s, v).children, name) {
        SpawningKeepsPursuit(s, n, w, children, WorkerOf(s, v).children, name);
      }
    }
  }

  lemma SpawningKeepsInv(s: State, n: State, w: nat, children: map<nat, string>)
    requires Inv(s) && Spawning(s, n, w, children)
    ensures Inv(n)
  {
    forall v: nat ensures WorkerOk(n, v) {
      assert WorkerOk(s, v) && WorkerOk(s, w);
      if v == w {
        SpawnerIsOk(s, n, w, children);
      } else if v !in children {
        BystanderIsOk(s, n, w, children, v);
      }
    }
    forall r: nat ensures Accounted(n, r) { assert Accounted(s, r); }
  }

  // ---------------------------------------------------------------- every run

  lemma AbandonKeepsInv(s: State, w: nat, record: nat)
    requires Inv(s) && WorkerOf(s, w) == Starting(record)
    ensures Inv(Abandon(s, w, record))
  {
    assert WorkerOk(s, w);
    QuietMoveKeepsInv(s, Abandon(s, w, record), w);
  }

  lemma RequestStartKeepsInv(s: State, w: nat, worker: Worker)
    requires Inv(s) && w !in s.workers && (worker.Waiting? || worker.Gone?)
    ensures Inv(Set(s, w, worker))
  {
    assert WorkerOk(s, w);
    QuietMoveKeepsInv(s, Set(s, w, worker), w);
  }

  lemma StartKeepsInv(s: State, e: Event)
    requires Inv(s) && Legal(s, e) && (e.RequestStart? || e.EnterStart? || e.Launched? || e.CancelStart? || e.EndStart?)
    ensures Inv(Step(s, e))
  {
    match e
    case RequestStart(w, service, owner, allowed) =>
      RequestStartKeepsInv(s, w, if allowed then Waiting(service, owner) else Gone);
    case EnterStart(w) => LaunchKeepsInv(s, w, WorkerOf(s, w).service, WorkerOf(s, w).owner);
    case Launched(w, allowed) =>
      var record := WorkerOf(s, w).record;
      assert WorkerOk(s, w);
      if Readied(s, record).Up? && !s.closing && allowed {
        RegisterKeepsInv(s, w, record);
      } else {
        AbandonKeepsInv(s, w, record);
      }
    case CancelStart(w) =>
      if WorkerOf(s, w).Starting? { AbandonKeepsInv(s, w, WorkerOf(s, w).record); } else { CancelWaitingKeepsInv(s, w); }
    case EndStart(w) => EndStartKeepsInv(s, w);
  }

  lemma CancelWaitingKeepsInv(s: State, w: nat)
    requires Inv(s) && WorkerOf(s, w).Waiting?
    ensures Inv(Set(s, w, Gone))
  {
    assert WorkerOk(s, w);
    QuietMoveKeepsInv(s, Set(s, w, Gone), w);
  }

  lemma EnterCloseKeepsInv(s: State, w: nat, name: string, owner: Profile)
    requires Inv(s) && WorkerOf(s, w) == CloseWaiting(name, owner)
    ensures Inv(OnEnterClose(s, w, name, owner))
  {
    assert WorkerOk(s, w);
    QuietMoveKeepsInv(s, OnEnterClose(s, w, name, owner), w);
  }

  lemma CancelKeepsInv(s: State, w: nat)
    requires Inv(s) && !Holds(WorkerOf(s, w)) && !IsChild(s, w)
    ensures Inv(Set(s, w, Gone))
  {
    assert WorkerOk(s, w);
    QuietMoveKeepsInv(s, Set(s, w, Gone), w);
  }

  lemma RequestCloseKeepsInv(s: State, w: nat, name: string, owner: Profile)
    requires Inv(s) && w !in s.workers
    ensures Inv(Set(s, w, CloseWaiting(name, owner)))
  {
    assert WorkerOk(s, w);
    QuietMoveKeepsInv(s, Set(s, w, CloseWaiting(name, owner)), w);
  }

  lemma CloseKeepsInv(s: State, e: Event)
    requires Inv(s) && Legal(s, e) && (e.RequestClose? || e.EnterClose? || e.CancelClose? || e.EndClose?)
    ensures Inv(Step(s, e))
  {
    match e
    case RequestClose(w, name, owner) => RequestCloseKeepsInv(s, w, name, owner);
    case EnterClose(w) => EnterCloseKeepsInv(s, w, WorkerOf(s, w).name, WorkerOf(s, w).owner);
    case CancelClose(w) => CancelKeepsInv(s, w);
    case EndClose(w) => EndCloseKeepsInv(s, w, WorkerOf(s, w).name, WorkerOf(s, w).record);
  }

  lemma EndCloseAllFindsNothing(s: State, w: nat)
    requires Inv(s) && Legal(s, EndCloseAll(w))
    ensures s.services == map[]
  {
    assert WorkerOk(s, w);
    var children := WorkerOf(s, w).children;
    forall name ensures name !in s.services { GoneDoNotPursue(s, children, name); }
  }

  lemma GoneDoNotPursue(s: State, children: map<nat, string>, name: string)
    requires forall c :: c in children ==> WorkerOf(s, c).Gone?
    ensures !Pursued(s, children, name)
  {}

  lemma CloseAllKeepsInv(s: State, e: Event)
    requires Inv(s) && Legal(s, e) && (e.RequestCloseAll? || e.EnterCloseAll? || e.CancelCloseAll? || e.EndCloseAll?)
    ensures Inv(Step(s, e))
  {
    assert WorkerOk(s, e.w);
    match e
    case RequestCloseAll(w) => QuietMoveKeepsInv(s, Step(s, e), w);
    case EnterCloseAll(w, children) =>
      EnterCloseAllSpawns(s, w, children);
      SpawningKeepsInv(s, Step(s, e), w, children);
    case CancelCloseAll(w) => QuietMoveKeepsInv(s, Step(s, e), w);
    case EndCloseAll(w) =>
      EndCloseAllFindsNothing(s, w);
      QuietMoveKeepsInv(s, Step(s, e), w);
  }

  lemma StepKeepsInv(s: State, e: Event)
    requires Inv(s) && Legal(s, e)
    ensures Inv(Step(s, e))
  {
    if e.Ready? || e.End? {
      TaskStepKeepsInv(s, Step(s, e));
    } else if e.RequestCloseAll? || e.EnterCloseAll? || e.CancelCloseAll? || e.EndCloseAll? {
      CloseAllKeepsInv(s, e);
    } else if e.RequestClose? || e.EnterClose? || e.CancelClose? || e.EndClose? {
      CloseKeepsInv(s, e);
    } else {
      StartKeepsInv(s, e);
    }
  }

  lemma {:induction false} RunKeepsInv(s: State, es: seq<Event>)
    requires Inv(s) && LegalRun(s, es)
    ensures Inv(Run(s, es))
    decreases |es|
  {
    if es != [] {
      StepKeepsInv(s, es[0]);
      RunKeepsInv(Step(s, es[0]), es[1..]);
    }
  }
}
