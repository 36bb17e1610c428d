/** The rate limit when slots are not asked for in the order of the clock readings: what the table still
    counts at a reading that lies behind, and a run that exceeds the limit. */
module SessionStale {
  import opened Domain
  import OriginProofs
  import opened SessionTables
  import opened SessionRuns
  import opened SessionSafety
  import opened SessionWindow

  // ---------------------------------------------------------------- what the table still counts

  /** The ask gets as far as the rate table. */
  predicate Trims(m: Manager, p: Pending) {
    m.accepting && Denied(m, p.bound, p.argument, p.now).None? && Taken(m.active, p.bound.service.name) < p.bound.service.maxConcurrency
  }

  /** The reading of the last ask that trimmed the table. */
  function LastTrim(s: State, e: Event, trim: real): real {
    if e.Enter? && e.task in s.pending && Trims(s.manager, s.pending[e.task]) then s.pending[e.task].now else trim
  }

  function LastTrimOf(s: State, es: seq<Event>, trim: real): real
    decreases |es|
  {
    if es == [] then trim else LastTrimOf(Step(s, es[0]), es[1..], LastTrim(s, es[0], trim))
  }

  predicate Ordered(stamps: seq<real>) { forall i, j :: 0 <= i < j < |stamps| ==> stamps[i] <= stamps[j] }

  /** The deque is the stamps above the line, and they are the end of the history. */
  ghost predicate Exact(times: seq<real>, stamps: seq<real>, line: real) {
    && |times| <= |stamps| && times == stamps[|stamps| - |times|..]
    && forall i :: 0 <= i < |stamps| ==> (stamps[i] > line <==> i >= |stamps| - |times|)
  }

  lemma {:induction false} RecentStops(times: seq<real>, now: real)
    ensures var left := Recent(times, now); left == [] || left[0] > now - PERIOD
    decreases |times|
  {
    if times != [] && times[0] <= now - PERIOD { RecentStops(times[1..], now); }
  }

  /** Trimming later; trimming earlier changes nothing. */
  lemma {:induction false} TrimIsExact(times: seq<real>, stamps: seq<real>, trim: real, now: real)
    requires Ordered(stamps) && Exact(times, stamps, trim - PERIOD)
    ensures Exact(Recent(times, now), stamps, (if now < trim then trim else now) - PERIOD)
  {
    var n := |stamps| - |times|;
    if now < trim {
      if times != [] { assert times[0] == stamps[n]; }
    } else {
      RecentIsKept(times, stamps, now);
      RecentStops(times, now);
      var left := Recent(times, now);
      if left != [] { assert left[0] == stamps[|stamps| - |left|]; }
    }
  }

  lemma StampIsExact(times: seq<real>, stamps: seq<real>, line: real, now: real, more: seq<real>)
    requires Exact(times, stamps, line) && (more == [] || (more == [now] && line < now))
    ensures Exact(times + more, stamps + more, line)
  {
    if more == [] {
      assert times + [] == times && stamps + [] == stamps;
    } else {
      var longer := stamps + [now];
      assert times + [now] == longer[|longer| - (|times| + 1)..];
    }
  }

  /** Every table is trimmed to the same line. */
  ghost predicate TrimInv(catalog: Catalog, s: State, trim: real) {
    forall key: RateKey :: key.service in catalog ==>
      Exact(StampsOf(s.manager.rates, key), Stamps(s.entered, key), trim - PERIOD)
  }

  lemma {:induction false} CheckedTrims(m: Manager, p: Pending, key: RateKey)
    ensures StampsOf(Checked(m, p.bound, p.argument, p.now).0.rates, key)
         == if Trims(m, p) then Recent(StampsOf(m.rates, key), p.now) else StampsOf(m.rates, key)
    ensures Checked(m, p.bound, p.argument, p.now).1.None? ==> Trims(m, p)
  {
    TrimmedIsRecent(m.rates, key, p.now);
  }

  lemma CheckedIsExact(m: Manager, p: Pending, stamps: seq<real>, trim: real, key: RateKey)
    requires trim <= p.now && Ordered(stamps) && Exact(StampsOf(m.rates, key), stamps, trim - PERIOD)
    ensures Exact(StampsOf(Checked(m, p.bound, p.argument, p.now).0.rates, key), stamps, (if Trims(m, p) then p.now else trim) - PERIOD)
  {
    TrimIsExact(StampsOf(m.rates, key), stamps, trim, p.now);
    CheckedTrims(m, p, key);
  }

  lemma {:induction false} EnterIsExact(s: State, task: nat, token: Id, made: Made, trim: real, key: RateKey)
    requires task in s.pending && trim <= s.pending[task].now && Ordered(Stamps(s.entered, key))
    requires Exact(StampsOf(s.manager.rates, key), Stamps(s.entered, key), trim - PERIOD)
    ensures var n := OnEnter(s, task, token, made);
            Exact(StampsOf(n.manager.rates, key), Stamps(n.entered, key),
                  (if Trims(s.manager, s.pending[task]) then s.pending[task].now else trim) - PERIOD)
  {
    var p, stamps := s.pending[task], Stamps(s.entered, key);
    var times := StampsOf(Checked(s.manager, p.bound, p.argument, p.now).0.rates, key);
    var entry := SessionTables.Enter(s.manager, p.bound, p.argument, p.now, token, made).1;
    CheckedIsExact(s.manager, p, stamps, trim, key);
    CheckedTrims(s.manager, p, key);
    EnterRates(s.manager, p.bound, p.argument, p.now, token, made, key);
    EnterStamps(s, task, token, made, key);
    StampIsExact(times, stamps, (if Trims(s.manager, p) then p.now else trim) - PERIOD, p.now, Stamped(p.bound, p.now, entry, key));
  }

  lemma StepIsExact(catalog: Catalog, s: State, e: Event, trim: real, latest: real)
    requires TrimInv(catalog, s, trim) && WindowInv(catalog, s, latest) && trim <= latest <= Latest(s, e, latest)
    ensures TrimInv(catalog, Step(s, e), LastTrim(s, e, trim))
  {
    var n := Step(s, e);
    forall key: RateKey | key.service in catalog
      ensures Exact(StampsOf(n.manager.rates, key), Stamps(n.entered, key), LastTrim(s, e, trim) - PERIOD)
    {
      assert RateOk(StampsOf(s.manager.rates, key), Stamps(s.entered, key), latest, catalog[key.service].perMinute);
      if e.Enter? {
        if e.task in s.pending { EnterIsExact(s, e.task, e.token, e.made, trim, key); }
      } else {
        OnlyEnterTouchesRates(s, e);
      }
    }
  }

  lemma {:induction false} RunIsExact(catalog: Catalog, s: State, es: seq<Event>, trim: real, latest: real)
    requires Inv(catalog, s) && Apart(s) && WindowInv(catalog, s, latest) && TrimInv(catalog, s, trim) && trim <= latest
    requires LegalRun(catalog, s, es) && PunctualRun(s, es, latest)
    ensures TrimInv(catalog, Run(s, es), LastTrimOf(s, es, trim))
    decreases |es|
  {
    if es != [] {
      StepKeepsInv(catalog, s, es[0]);
      StepKeepsApart(catalog, s, es[0]);
      StepKeepsWindow(catalog, s, es[0], latest);
      StepIsExact(catalog, s, es[0], trim, latest);
      RunIsExact(catalog, Step(s, es[0]), es[1..], LastTrim(s, es[0], trim), Latest(s, es[0], latest));
    }
  }

  lemma {:induction false} TableIsExact(catalog: Catalog, es: seq<Event>, s: State, start: real, key: RateKey)
    requires Reached(catalog, es, s) && PunctualRun(START, es, start) && key.service in catalog
    ensures Ordered(Stamps(s.entered, key))
    ensures Exact(StampsOf(s.manager.rates, key), Stamps(s.entered, key), LastTrimOf(START, es, start) - PERIOD)
  {
    StartIsValid(catalog);
    RunIsExact(catalog, START, es, start, start);
    var last := RunKeepsWindow(catalog, START, es, start);
    assert RateOk(StampsOf(s.manager.rates, key), Stamps(s.entered, key), last, catalog[key.service].perMinute);
  }

  lemma {:induction false} ExactMisses(times: seq<real>, stamps: seq<real>, trim: real, now: real)
    requires Ordered(stamps) && Exact(times, stamps, trim - PERIOD)
    ensures var found := Recent(times, now);
            && |found| <= |stamps| && found == stamps[|stamps| - |found|..]
            && forall i :: 0 <= i < |stamps| && now - PERIOD < stamps[i] ==>
                 (i < |stamps| - |found| <==> stamps[i] <= trim - PERIOD)
  {
    TrimIsExact(times, stamps, trim, now);
  }

  /** After any run whose slots were asked for in order, an ask with the reading `now` finds exactly the
      stamps younger than a minute at `now` and at the last trim. One whose reading lies behind that
      trim misses the slots of the minute before `now` that were a minute old at the trim, and no
      others. */
  lemma {:induction false} StaleReadingMissesIff(catalog: Catalog, es: seq<Event>, s: State, start: real, key: RateKey, now: real)
    requires Reached(catalog, es, s) && PunctualRun(START, es, start) && key.service in catalog
    ensures var stamps := Stamps(s.entered, key);
            var found := Recent(StampsOf(s.manager.rates, key), now);
            var trim := LastTrimOf(START, es, start);
            && |found| <= |stamps| && found == stamps[|stamps| - |found|..]
            && forall i :: 0 <= i < |stamps| && now - PERIOD < stamps[i] ==>
                 (i < |stamps| - |found| <==> stamps[i] <= trim - PERIOD)
  {
    TableIsExact(catalog, es, s, start, key);
    ExactMisses(StampsOf(s.manager.rates, key), Stamps(s.entered, key), LastTrimOf(START, es, start), now);
  }

  // ---------------------------------------------------------------- a run that exceeds the limit

  /** Two slots a minute, four asks at a time, sessions idle for fifty seconds. */
  const SERVICE := Service("docs", Json(""), 100, 4, 2, 50, false)
  const PEER := OriginProofs.Origin("peer", "boundary")
  const BOUND := SessionBinding(SERVICE, PEER)
  const KEY := RateKey("docs", PEER)
  const CATALOG: Catalog := map["docs" := SERVICE]
  const NEW: Request := Some(map["message" := Text("hi", 2)])

  /** The table holds `kept` of the stamps `taken`, `asks` are running, and no session can expire. */
  ghost predicate View(s: State, kept: seq<real>, taken: seq<real>, asks: nat) {
    && s.manager.accepting && s.manager.rates == (if kept == [] then map[] else map[KEY := kept])
    && Taken(s.manager.active, "docs") == asks <= |s.issued| && |s.manager.sessions| == asks
    && Stamps(s.entered, KEY) == taken
    && forall id :: id in s.manager.sessions ==> s.manager.sessions[id].active && id in s.issued
  }

  /** A slot taken on a new session. */
  function Seated(s: State, task: nat, token: Id, now: real, kept: seq<real>): State {
    State(Manager(s.manager.sessions[token := Record(BOUND, None, now + 50.0, true)], map[KEY := kept + [now]],
                  s.manager.active["docs" := Taken(s.manager.active, "docs") + 1], true),
          s.pending - {task}, s.running[task := Use(token, BOUND)], s.drains, s.issued + {token},
          s.entered + [Entered(token, BOUND, now)], s.cleaned)
  }

  lemma {:induction false} TableTrims(rates: Rates, kept: seq<real>, now: real)
    requires rates == if kept == [] then map[] else map[KEY := kept]
    ensures var left := Trimmed(rates, now);
            left[KEY := StampsOf(left, KEY)] == map[KEY := Recent(kept, now)] && |left| <= 1
  {
    var left := Trimmed(rates, now);
    assert left == if Recent(kept, now) == [] then map[] else map[KEY := Recent(kept, now)];
    assert left.Keys <= {KEY};
    SubsetOfOne(left.Keys);
  }

  lemma SubsetOfOne(keys: set<RateKey>)
    requires keys <= {KEY}
    ensures |keys| <= 1
  {
    if keys != {} { assert keys == {KEY}; }
  }

  lemma {:induction false} AskPasses(m: Manager, kept: seq<real>, now: real)
    requires m.accepting && m.rates == if kept == [] then map[] else map[KEY := kept]
    requires |Recent(kept, now)| < 2 && Taken(m.active, "docs") < 4 && |m.sessions| < 4
    ensures Checked(m, BOUND, Null, now) == (m.(rates := map[KEY := Recent(kept, now)]), None)
  {
    TableTrims(m.rates, kept, now);
  }

  lemma {:induction false} AskSeats(m: Manager, kept: seq<real>, now: real, token: Id)
    requires m.accepting && m.rates == if kept == [] then map[] else map[KEY := kept]
    requires |Recent(kept, now)| < 2 && Taken(m.active, "docs") < 4 && |m.sessions| < 4
    ensures SessionTables.Enter(m, BOUND, Null, now, token, NoFactory) ==
            (Manager(m.sessions[token := Record(BOUND, None, now + 50.0, true)], map[KEY := Recent(kept, now) + [now]],
                     m.active["docs" := Taken(m.active, "docs") + 1], true), Admitted(token, true))
  {
    AskPasses(m, kept, now);
    assert map[KEY := Recent(kept, now)][KEY := Recent(kept, now) + [now]] == map[KEY := Recent(kept, now) + [now]];
  }

  lemma {:induction false} AskEnters(s: State, task: nat, token: Id, kept: seq<real>, taken: seq<real>, asks: nat)
    requires View(s, kept, taken, asks) && asks < 4 && task in s.pending
    requires s.pending[task].bound == BOUND && s.pending[task].argument == Null
    requires |Recent(kept, s.pending[task].now)| < 2
    ensures OnEnter(s, task, token, NoFactory) == Seated(s, task, token, s.pending[task].now, Recent(kept, s.pending[task].now))
  {
    AskSeats(s.manager, kept, s.pending[task].now, token);
  }

  lemma SeatedView(s: State, task: nat, token: Id, now: real, kept: seq<real>, before: seq<real>, taken: seq<real>, asks: nat)
    requires View(s, before, taken, asks) && token !in s.issued
    ensures View(Seated(s, task, token, now, kept), kept + [now], taken + [now], asks + 1)
  {
    var n := Seated(s, task, token, now, kept);
    assert n.entered[..|n.entered| - 1] == s.entered;
    assert n.manager.sessions.Keys == s.manager.sessions.Keys + {token};
  }

  function NewAsk(task: nat, token: Id, now: real): seq<Event> {
    [Begin(task, SERVICE, Some(PEER), NEW, now, []), Enter(task, token, NoFactory)]
  }

  lemma {:induction false} TwoSteps(s: State, es: seq<Event>)
    requires |es| == 2 && Legal(CATALOG, s, es[0]) && Legal(CATALOG, Step(s, es[0]), es[1])
    ensures LegalRun(CATALOG, s, es) && Run(s, es) == Step(Step(s, es[0]), es[1])
  {
    assert es[1..] == [es[1]] && [es[1]][1..] == [];
    var m := Step(s, es[0]);
    assert Run(m, [es[1]]) == Run(Step(m, es[1]), []) && LegalRun(CATALOG, m, [es[1]]);
  }

  function Asking(s: State, task: nat, now: real): State { s.(pending := s.pending[task := Pending(BOUND, Null, now, [])]) }

  lemma NothingLapses(s: State, kept: seq<real>, taken: seq<real>, asks: nat, now: real)
    requires View(s, kept, taken, asks)
    ensures Enumerates([], Expired(s.manager, now))
  {
    assert Expired(s.manager, now) == {} && (set id: Id | id in []) == {};
  }

  lemma NewAskBegins(s: State, task: nat, token: Id, now: real, kept: seq<real>, taken: seq<real>, asks: nat)
    requires View(s, kept, taken, asks) && task !in s.pending && task !in s.running
    ensures var e := Begin(task, SERVICE, Some(PEER), NEW, now, []);
            Legal(CATALOG, s, e) && Step(s, e) == Asking(s, task, now) && View(Asking(s, task, now), kept, taken, asks)
  {
    NothingLapses(s, kept, taken, asks, now);
  }

  lemma AskingIsSeated(s: State, task: nat, token: Id, now: real, kept: seq<real>)
    requires task !in s.pending
    ensures Seated(Asking(s, task, now), task, token, now, kept) == Seated(s, task, token, now, kept)
  {
    assert s.pending[task := Pending(BOUND, Null, now, [])] - {task} == s.pending - {task};
  }

  /** A new ask is seated at once. */
  lemma {:induction false} NewAskIsSeated(s: State, task: nat, token: Id, now: real, kept: seq<real>, taken: seq<real>, asks: nat)
    requires View(s, kept, taken, asks) && asks < 4 && |Recent(kept, now)| < 2
    requires task !in s.pending && task !in s.running && token !in s.issued
    ensures LegalRun(CATALOG, s, NewAsk(task, token, now))
    ensures Run(s, NewAsk(task, token, now)) == Seated(s, task, token, now, Recent(kept, now))
  {
    var m := Asking(s, task, now);
    NewAskBegins(s, task, token, now, kept, taken, asks);
    AskEnters(m, task, token, kept, taken, asks);
    AskingIsSeated(s, task, token, now, Recent(kept, now));
    TwoSteps(s, NewAsk(task, token, now));
  }

  /** What the run below keeps track of: the late ask waits, `asks` others run, and these are the
      stamps kept and taken. */
  ghost predicate Tracked(s: State, late: map<nat, Pending>, tasks: set<nat>, tokens: set<Id>, kept: seq<real>, taken: seq<real>, asks: nat) {
    View(s, kept, taken, asks) && s.pending == late && s.running.Keys == tasks && s.issued == tokens
  }

  lemma OneMore(s: State, task: nat, token: Id, now: real, late: map<nat, Pending>, tasks: set<nat>, tokens: set<Id>,
                kept: seq<real>, taken: seq<real>, asks: nat) returns (es: seq<Event>, n: State)
    requires Tracked(s, late, tasks, tokens, kept, taken, asks) && asks < 4 && |Recent(kept, now)| < 2
    requires task !in late && task !in tasks && token !in tokens
    ensures LegalRun(CATALOG, s, es) && Run(s, es) == n
    ensures Tracked(n, late, tasks + {task}, tokens + {token}, Recent(kept, now) + [now], taken + [now], asks + 1)
  {
    NewAskIsSeated(s, task, token, now, kept, taken, asks);
    es := NewAsk(task, token, now);
    n := Seated(s, task, token, now, Recent(kept, now));
    SeatedView(s, task, token, now, Recent(kept, now), kept, taken, asks);
    assert s.pending - {task} == s.pending;
  }

  lemma {:induction false} Joined(s: State, a: seq<Event>, m: State, b: seq<Event>, n: State)
    requires LegalRun(CATALOG, s, a) && Run(s, a) == m && LegalRun(CATALOG, m, b) && Run(m, b) == n
    ensures LegalRun(CATALOG, s, a + b) && Run(s, a + b) == n
  {
    RunIsAppended(CATALOG, s, a, b);
  }

  lemma {:induction false} OneStep(s: State, e: Event)
    requires Legal(CATALOG, s, e)
    ensures LegalRun(CATALOG, s, [e]) && Run(s, [e]) == Step(s, e)
  {
    assert [e][1..] == [];
    assert Run(s, [e]) == Run(Step(s, e), []) && LegalRun(CATALOG, Step(s, e), []);
  }

  // ---- a first session at 0, expired when the late ask reads the clock at 100

  const OLD: Id := "old"

  function Fresh(): State { Asking(START, 1, 0.0) }

  function Opened(active: bool, running: map<nat, Use>, asks: int): State {
    State(Manager(map[OLD := Record(BOUND, Some(1), 50.0, active)], map[KEY := [0.0]], map["docs" := asks], true),
          map[], running, map[], {OLD}, [Entered(OLD, BOUND, 0.0)], [])
  }

  function Busy(): State { Opened(true, map[1 := Use(OLD, BOUND)], 1) }

  function Idle(): State { Opened(false, map[], 0) }

  lemma OldPasses()
    ensures Checked(Fresh().manager, BOUND, Null, 0.0) == (Fresh().manager.(rates := map[KEY := []]), None)
  {
    AskPasses(Fresh().manager, [], 0.0);
  }

  lemma OldIsSeated(m: Manager)
    requires m == START.manager.(rates := map[KEY := []])
    ensures SessionTables.Seat(m, BOUND, Null, 0.0, OLD, Made(1)) == (Busy().manager, Admitted(OLD, true))
  {
    assert [] + [0.0] == [0.0] && map[KEY := []][KEY := [0.0]] == map[KEY := [0.0]];
  }

  lemma OldEnters()
    ensures OnEnter(Fresh(), 1, OLD, Made(1)) == Busy()
  {
    OldPasses();
    OldIsSeated(Fresh().manager.(rates := map[KEY := []]));
    assert Fresh().pending - {1} == map[];
  }

  lemma OldBegins()
    ensures var e := Begin(1, SERVICE, Some(PEER), NEW, 0.0, []);
            LegalRun(CATALOG, START, [e]) && Run(START, [e]) == Fresh()
  {
    assert Expired(START.manager, 0.0) == {} && (set id: Id | id in []) == {};
    OneStep(START, Begin(1, SERVICE, Some(PEER), NEW, 0.0, []));
  }

  lemma OldRuns()
    ensures var e := Enter(1, OLD, Made(1));
            LegalRun(CATALOG, Fresh(), [e]) && Run(Fresh(), [e]) == Busy()
  {
    OldEnters();
    OneStep(Fresh(), Enter(1, OLD, Made(1)));
  }

  lemma OldLeaves()
    ensures var e := Leave(1, Reply(Some(1), Some(0), 0.0));
            LegalRun(CATALOG, Busy(), [e]) && Run(Busy(), [e]) == Idle()
  {
    var ending := Reply(Some(1), Some(0), 0.0);
    assert OnLeave(Busy(), 1, ending) == Idle();
    OneStep(Busy(), Leave(1, ending));
  }

  lemma OpeningRuns() returns (es: seq<Event>)
    ensures LegalRun(CATALOG, START, es) && Run(START, es) == Idle()
  {
    var begin, enter, leave := Begin(1, SERVICE, Some(PEER), NEW, 0.0, []), Enter(1, OLD, Made(1)), Leave(1, Reply(Some(1), Some(0), 0.0));
    OldBegins();
    OldRuns();
    OldLeaves();
    Joined(START, [begin], Fresh(), [enter], Busy());
    Joined(START, [begin] + [enter], Busy(), [leave], Idle());
    es := [begin] + [enter] + [leave];
  }

  // ---- the late ask hands it to the cleanup, and waits for that with its reading

  const LATE := map[2 := Pending(BOUND, Null, 100.0, [])]

  function Purging(): State { Idle().(pending := map[2 := Pending(BOUND, Null, 100.0, [OLD])]) }

  function Held(): State {
    State(Manager(map[], map[KEY := [0.0]], map["docs" := 0], true), LATE, map[], map[], {OLD}, [Entered(OLD, BOUND, 0.0)], [OLD])
  }

  lemma LateBegins()
    ensures var e := Begin(2, SERVICE, Some(PEER), NEW, 100.0, [OLD]);
            Legal(CATALOG, Idle(), e) && Step(Idle(), e) == Purging()
  {
    assert Expired(Idle().manager, 100.0) == {OLD} && (set id | id in [OLD]) == {OLD};
  }

  lemma LatePurges()
    ensures Legal(CATALOG, Purging(), Purge(2)) && Step(Purging(), Purge(2)) == Held()
  {
    var m := Purging();
    assert [OLD][1..] == [] && [] + [OLD] == [OLD] && m.manager.sessions - {OLD} == map[];
    assert m.pending[2 := m.pending[2].(todo := [])] == LATE;
  }

  lemma HoldingRuns() returns (es: seq<Event>)
    ensures LegalRun(CATALOG, Idle(), es) && Run(Idle(), es) == Held()
  {
    var begin := Begin(2, SERVICE, Some(PEER), NEW, 100.0, [OLD]);
    LateBegins();
    LatePurges();
    OneStep(Idle(), begin);
    OneStep(Purging(), Purge(2));
    Joined(Idle(), [begin], Purging(), [Purge(2)], Held());
    es := [begin] + [Purge(2)];
  }

  // ---- two slots at 100 and 110, one at 200 which forgets them, and then the late ask

  lemma RecentTimes()
    ensures Recent([0.0], 100.0) == [] && Recent([100.0], 110.0) == [100.0]
    ensures Recent([100.0, 110.0], 200.0) == [] && Recent([200.0], 100.0) == [200.0]
  {
    assert [0.0][1..] == [] && [100.0, 110.0][1..] == [110.0] && [110.0][1..] == [];
    assert Recent([100.0, 110.0], 200.0) == Recent([110.0], 200.0);
  }

  lemma HeldIsTracked()
    ensures Tracked(Held(), LATE, {}, {OLD}, [0.0], [0.0], 0)
  {
    assert Held().entered[..0] == [] && Stamps([], KEY) == [] && [] + [0.0] == [0.0];
    assert Stamps(Held().entered, KEY) == [0.0];
  }

  lemma FirstRuns() returns (es: seq<Event>, n: State)
    ensures LegalRun(CATALOG, Held(), es) && Run(Held(), es) == n
    ensures Tracked(n, LATE, {3}, {OLD, "a"}, [100.0], [0.0, 100.0], 1)
  {
    RecentTimes();
    HeldIsTracked();
    es, n := OneMore(Held(), 3, "a", 100.0, LATE, {}, {OLD}, [0.0], [0.0], 0);
    assert [] + [100.0] == [100.0] && [0.0] + [100.0] == [0.0, 100.0] && {} + {3} == {3} && {OLD} + {"a"} == {OLD, "a"};
  }

  lemma SecondRuns(s: State) returns (es: seq<Event>, n: State)
    requires Tracked(s, LATE, {3}, {OLD, "a"}, [100.0], [0.0, 100.0], 1)
    ensures LegalRun(CATALOG, s, es) && Run(s, es) == n
    ensures Tracked(n, LATE, {3, 4}, {OLD, "a", "b"}, [100.0, 110.0], [0.0, 100.0, 110.0], 2)
  {
    RecentTimes();
    es, n := OneMore(s, 4, "b", 110.0, LATE, {3}, {OLD, "a"}, [100.0], [0.0, 100.0], 1);
    assert [100.0] + [110.0] == [100.0, 110.0] && [0.0, 100.0] + [110.0] == [0.0, 100.0, 110.0];
    assert {3} + {4} == {3, 4} && {OLD, "a"} + {"b"} == {OLD, "a", "b"};
  }

  lemma ThirdRuns(s: State) returns (es: seq<Event>, n: State)
    requires Tracked(s, LATE, {3, 4}, {OLD, "a", "b"}, [100.0, 110.0], [0.0, 100.0, 110.0], 2)
    ensures LegalRun(CATALOG, s, es) && Run(s, es) == n
    ensures Tracked(n, LATE, {3, 4, 5}, {OLD, "a", "b", "c"}, [200.0], [0.0, 100.0, 110.0, 200.0], 3)
  {
    RecentTimes();
    es, n := OneMore(s, 5, "c", 200.0, LATE, {3, 4}, {OLD, "a", "b"}, [100.0, 110.0], [0.0, 100.0, 110.0], 2);
    assert [] + [200.0] == [200.0] && [0.0, 100.0, 110.0] + [200.0] == [0.0, 100.0, 110.0, 200.0];
    assert {3, 4} + {5} == {3, 4, 5} && {OLD, "a", "b"} + {"c"} == {OLD, "a", "b", "c"};
  }

  lemma LateAskIsSeated(s: State, taken: seq<real>) returns (es: seq<Event>, n: State)
    requires Tracked(s, LATE, {3, 4, 5}, {OLD, "a", "b", "c"}, [200.0], taken, 3)
    ensures LegalRun(CATALOG, s, es) && Run(s, es) == n && Stamps(n.entered, KEY) == taken + [100.0]
  {
    RecentTimes();
    es := [Enter(2, "d", NoFactory)];
    AskEnters(s, 2, "d", [200.0], taken, 3);
    n := Seated(s, 2, "d", 100.0, [200.0]);
    SeatedView(s, 2, "d", 100.0, [200.0], [200.0], taken, 3);
    OneStep(s, Enter(2, "d", NoFactory));
  }

  lemma OthersRun() returns (es: seq<Event>, n: State)
    ensures LegalRun(CATALOG, Held(), es) && Run(Held(), es) == n
    ensures Stamps(n.entered, KEY) == [0.0, 100.0, 110.0, 200.0] + [100.0]
  {
    var e1, s1 := FirstRuns();
    var e2, s2 := SecondRuns(s1);
    var e3, s3 := ThirdRuns(s2);
    var e4;
    e4, n := LateAskIsSeated(s3, [0.0, 100.0, 110.0, 200.0]);
    Joined(Held(), e1, s1, e2, s2);
    Joined(Held(), e1 + e2, s2, e3, s3);
    Joined(Held(), e1 + e2 + e3, s3, e4, n);
    es := e1 + e2 + e3 + e4;
  }

  /** From an empty manager, by legal steps: an ask that waits for a cleanup with the reading 100 gets
      its slot after one with the reading 200 has, and the minute from 100 holds three slots where two
      are allowed. */
  lemma StaleReadingOverfillsWindow() returns (es: seq<Event>, s: State)
    ensures Reached(CATALOG, es, s)
    ensures |SessionWindow.Within(Stamps(s.entered, KEY), 100.0)| == 3 > CATALOG["docs"].perMinute
  {
    var opening := OpeningRuns();
    var holding := HoldingRuns();
    var others;
    others, s := OthersRun();
    Joined(START, opening, Idle(), holding, Held());
    Joined(START, opening + holding, Held(), others, s);
    es := opening + holding + others;
    assert SessionWindow.Within([0.0, 100.0, 110.0, 200.0] + [100.0], 100.0) == {1, 2, 4};
  }
}
