/** A concrete interleaving in which an ask's removal of expired sessions takes a context that
    another ask is running: the first ask read the clock before it waited for a cleanup. */
module SessionOverrun {
  import opened Domain
  import OriginProofs
  import opened SessionTables
  import opened SessionRuns
  import opened SessionSafety

  const SERVICE := Service("docs", Json(""), 100, 2, 6, 10, false)
  const PEER := OriginProofs.Origin("peer", "boundary")
  const BOUND := SessionBinding(SERVICE, PEER)
  const KEY := RateKey("docs", PEER)
  const CATALOG: Catalog := map["docs" := SERVICE]

  const FIRST: Id := "first---------------"
  const SECOND: Id := "second--------------"
  const THIRD: Id := "third---------------"

  const NEW: Request := Some(map["message" := Text("hi", 2)])
  const RESUME: Request := Some(map["message" := Text("hi", 2), "session_id" := Text(THIRD, 20)])

  /** A new session is asked once and answered at the same clock reading. */
  function Ask(task: nat, token: Id, now: real): seq<Event> {
    [Begin(task, SERVICE, Some(PEER), NEW, now, []), Enter(task, token, Made(task)),
     Leave(task, Answer(task, now))]
  }

  /** Idle sessions only: nothing pending, running or draining. */
  function Resting(sessions: map<Id, Record>, stamps: seq<real>, entered: seq<Entered>): State {
    State(Manager(sessions, Stamps(stamps),
                  if stamps == [] then map[] else map["docs" := 0], true),
          map[], map[], map[], sessions.Keys, entered, [])
  }

  lemma {:induction false} RecentKeepsAll(stamps: seq<real>, now: real)
    requires stamps != [] ==> stamps[0] > now - PERIOD
    ensures Recent(stamps, now) == stamps
  {}

  ghost predicate Roomy(sessions: map<Id, Record>, stamps: seq<real>, token: Id, now: real) {
    && |stamps| < 6 && (stamps != [] ==> stamps[0] > now - PERIOD) && |sessions| < 128
    && token !in sessions && (forall id :: id in sessions ==> !Lapsed(sessions[id], now))
  }

  function Stamps(stamps: seq<real>): Rates { if stamps == [] then map[] else map[KEY := stamps] }

  lemma NewAskPasses(m: Manager, stamps: seq<real>, now: real)
    requires m.accepting && m.rates == Stamps(stamps) && Taken(m.active, "docs") == 0
    requires Roomy(m.sessions, stamps, "", now)
    ensures Checked(m, BOUND, Null, now) == (m.(rates := map[KEY := stamps]), None)
  {
    RecentKeepsAll(stamps, now);
    assert Trimmed(m.rates, now) == m.rates;
    assert m.rates[KEY := StampsOf(m.rates, KEY)] == map[KEY := stamps];
  }

  lemma NewAskSeats(m: Manager, stamps: seq<real>, task: nat, token: Id, now: real)
    requires m.accepting && m.rates == Stamps(stamps) && Taken(m.active, "docs") == 0
    requires Roomy(m.sessions, stamps, "", now)
    ensures SessionTables.Enter(m, BOUND, Null, now, token, Made(task)) ==
            (Manager(m.sessions[token := Record(BOUND, Some(task), now + 10.0, true)], map[KEY := stamps + [now]],
                     m.active["docs" := 1], true), Admitted(token, true))
  {
    NewAskPasses(m, stamps, now);
    assert map[KEY := stamps][KEY := stamps + [now]] == map[KEY := stamps + [now]];
  }

  function Busy(sessions: map<Id, Record>, stamps: seq<real>, entered: seq<Entered>, task: nat, token: Id, now: real): State {
    State(Manager(sessions[token := Record(BOUND, Some(task), now + 10.0, true)], map[KEY := stamps + [now]],
                  map["docs" := 1], true),
          map[], map[task := Use(token, BOUND)], map[], sessions.Keys + {token}, entered + [Entered(token, BOUND, now)], [])
  }

  function Waiting(s: State, task: nat, now: real): State { s.(pending := map[task := Pending(BOUND, Null, now, [])]) }

  lemma NewAskEnters(sessions: map<Id, Record>, stamps: seq<real>, entered: seq<Entered>, task: nat, token: Id, now: real)
    requires Roomy(sessions, stamps, token, now) && Roomy(sessions, stamps, "", now)
    ensures OnEnter(Waiting(Resting(sessions, stamps, entered), task, now), task, token, Made(task)) ==
            Busy(sessions, stamps, entered, task, token, now)
  {
    var s := Waiting(Resting(sessions, stamps, entered), task, now);
    NewAskSeats(s.manager, stamps, task, token, now);
    assert s.pending - {task} == map[];
    assert s.manager.active["docs" := 1] == map["docs" := 1];
  }

  function Answer(task: nat, now: real): Ending { Reply(Some(task), Some(0), now) }

  function Kept(sessions: map<Id, Record>, stamps: seq<real>, entered: seq<Entered>, task: nat, token: Id, now: real): State {
    Resting(sessions[token := Record(BOUND, Some(task), now + 10.0, false)], stamps + [now],
            entered + [Entered(token, BOUND, now)])
  }

  lemma NewAskLeaves(sessions: map<Id, Record>, stamps: seq<real>, entered: seq<Entered>, task: nat, token: Id, now: real)
    ensures OnLeave(Busy(sessions, stamps, entered, task, token, now), task, Answer(task, now)) ==
            Kept(sessions, stamps, entered, task, token, now)
  {
    var r := Record(BOUND, Some(task), now + 10.0, true);
    assert Settled(r, SERVICE, Answer(task, now)) == r.(active := false);
    assert sessions[token := r][token := r.(active := false)] == sessions[token := r.(active := false)];
  }

  lemma AskOpensSession(sessions: map<Id, Record>, stamps: seq<real>, entered: seq<Entered>, task: nat, token: Id, now: real)
    requires Roomy(sessions, stamps, token, now) && Roomy(sessions, stamps, "", now)
    ensures LegalRun(CATALOG, Resting(sessions, stamps, entered), Ask(task, token, now))
    ensures Run(Resting(sessions, stamps, entered), Ask(task, token, now)) == Kept(sessions, stamps, entered, task, token, now)
  {
    var s, es := Resting(sessions, stamps, entered), Ask(task, token, now);
    var waiting, busy := Waiting(s, task, now), Busy(sessions, stamps, entered, task, token, now);
    assert Step(s, es[0]) == waiting;
    NewAskEnters(sessions, stamps, entered, task, token, now);
    NewAskLeaves(sessions, stamps, entered, task, token, now);
    Three(s, waiting, busy, Kept(sessions, stamps, entered, task, token, now), es);
  }

  lemma {:induction false} Three(s: State, s1: State, s2: State, s3: State, es: seq<Event>)
    requires |es| == 3 && Step(s, es[0]) == s1 && Step(s1, es[1]) == s2 && Step(s2, es[2]) == s3
    requires Legal(CATALOG, s, es[0]) && Legal(CATALOG, s1, es[1]) && Legal(CATALOG, s2, es[2])
    ensures LegalRun(CATALOG, s, es) && Run(s, es) == s3
  {
    var tail := es[1..];
    assert tail[1..] == [es[2]] && [es[2]][1..] == [];
    assert Run(s2, [es[2]]) == Run(s3, []) && LegalRun(CATALOG, s2, [es[2]]);
    assert Run(s1, tail) == s3 && LegalRun(CATALOG, s1, tail);
  }

  // ---------------------------------------------------------------- three sessions, then the overlap

  const ONE := map[FIRST := Record(BOUND, Some(1), 10.0, false)]
  const TWO := ONE[SECOND := Record(BOUND, Some(2), 15.0, false)]
  const THREE := TWO[THIRD := Record(BOUND, Some(3), 16.0, false)]
  const LOG1 := [Entered(FIRST, BOUND, 0.0)]
  const LOG2 := LOG1 + [Entered(SECOND, BOUND, 5.0)]
  const LOG3 := LOG2 + [Entered(THIRD, BOUND, 6.0)]
  const HELD := Resting(THREE, [0.0, 5.0, 6.0], LOG3)

  lemma StartIsResting()
    ensures START == Resting(map[], [], [])
  {}

  lemma FirstOpens()
    ensures LegalRun(CATALOG, Resting(map[], [], []), Ask(1, FIRST, 0.0))
    ensures Run(Resting(map[], [], []), Ask(1, FIRST, 0.0)) == Resting(ONE, [0.0], LOG1)
  {
    AskOpensSession(map[], [], [], 1, FIRST, 0.0);
    assert Kept(map[], [], [], 1, FIRST, 0.0) == Resting(ONE, [0.0], LOG1) by {
      assert [] + [0.0] == [0.0] && [] + LOG1 == LOG1;
    }
  }

  lemma SecondOpens()
    ensures LegalRun(CATALOG, Resting(ONE, [0.0], LOG1), Ask(2, SECOND, 5.0))
    ensures Run(Resting(ONE, [0.0], LOG1), Ask(2, SECOND, 5.0)) == Resting(TWO, [0.0, 5.0], LOG2)
  {
    AskOpensSession(ONE, [0.0], LOG1, 2, SECOND, 5.0);
    assert [0.0] + [5.0] == [0.0, 5.0];
  }

  lemma ThirdOpens()
    ensures LegalRun(CATALOG, Resting(TWO, [0.0, 5.0], LOG2), Ask(3, THIRD, 6.0))
    ensures Run(Resting(TWO, [0.0, 5.0], LOG2), Ask(3, THIRD, 6.0)) == HELD
  {
    AskOpensSession(TWO, [0.0, 5.0], LOG2, 3, THIRD, 6.0);
    assert [0.0, 5.0] + [6.0] == [0.0, 5.0, 6.0];
  }

  const OPENING := Ask(1, FIRST, 0.0) + Ask(2, SECOND, 5.0) + Ask(3, THIRD, 6.0)

  lemma OpeningRuns()
    ensures LegalRun(CATALOG, START, OPENING) && Run(START, OPENING) == HELD
  {
    StartIsResting();
    FirstOpens();
    SecondOpens();
    ThirdOpens();
    var a, b, c := Ask(1, FIRST, 0.0), Ask(2, SECOND, 5.0), Ask(3, THIRD, 6.0);
    RunIsAppended(CATALOG, START, a, b);
    RunIsAppended(CATALOG, START, a + b, c);
  }

  /** Task 4 resumes the third session, having read the clock at 12. */
  const STALE := Pending(BOUND, Text(THIRD, 20), 12.0, [])

  /** Task 5 read the clock at 20, when the second and third sessions had expired. */
  const OVERLAP := State(HELD.manager.(sessions := map[THIRD := THREE[THIRD]]),
                         map[4 := STALE, 5 := Pending(BOUND, Null, 20.0, [THIRD])],
                         map[], map[], THREE.Keys, LOG3, [FIRST, SECOND])

  const WAITING := [Begin(4, SERVICE, Some(PEER), RESUME, 12.0, [FIRST]), Purge(4),
                    Begin(5, SERVICE, Some(PEER), NEW, 20.0, [SECOND, THIRD]), Purge(5)]

  const W1 := HELD.(pending := map[4 := STALE.(todo := [FIRST])])
  const W2 := State(HELD.manager.(sessions := THREE - {FIRST}), map[4 := STALE], map[], map[], THREE.Keys, LOG3, [FIRST])
  const W3 := W2.(pending := map[4 := STALE, 5 := Pending(BOUND, Null, 20.0, [SECOND, THIRD])])

  lemma StaleAskBegins()
    ensures Legal(CATALOG, HELD, WAITING[0]) && Step(HELD, WAITING[0]) == W1
  {
    assert Expired(HELD.manager, 12.0) == {FIRST};
    assert (set id | id in [FIRST]) == {FIRST};
  }

  lemma StaleAskPurges()
    ensures Legal(CATALOG, W1, WAITING[1]) && Step(W1, WAITING[1]) == W2
  {
    assert map[4 := STALE.(todo := [FIRST])][4 := STALE] == map[4 := STALE];
    assert [FIRST][1..] == [] && [] + [FIRST] == [FIRST];
  }

  lemma LaterAskBegins()
    ensures Legal(CATALOG, W2, WAITING[2]) && Step(W2, WAITING[2]) == W3
  {
    assert Expired(W2.manager, 20.0) == {SECOND, THIRD};
    assert (set id | id in [SECOND, THIRD]) == {SECOND, THIRD};
  }

  lemma LaterAskPurges()
    ensures Legal(CATALOG, W3, WAITING[3]) && Step(W3, WAITING[3]) == OVERLAP
  {
    assert THREE - {FIRST} - {SECOND} == map[THIRD := THREE[THIRD]];
    assert [SECOND, THIRD][1..] == [THIRD] && [FIRST] + [SECOND] == [FIRST, SECOND];
  }

  const TAKEN := State(Manager(map[THIRD := THREE[THIRD].(active := true)], map[KEY := [0.0, 5.0, 6.0, 12.0]],
                               map["docs" := 1], true),
                       map[5 := Pending(BOUND, Null, 20.0, [THIRD])], map[4 := Use(THIRD, BOUND)], map[],
                       THREE.Keys + {THIRD}, LOG3 + [Entered(THIRD, BOUND, 12.0)], [FIRST, SECOND])

  lemma StaleAskIsSeated(id: Id)
    ensures SessionTables.Enter(OVERLAP.manager, BOUND, Text(THIRD, 20), 12.0, id, NoFactory) == (TAKEN.manager, Admitted(THIRD, true))
  {
    var m, stamps := OVERLAP.manager, [0.0, 5.0, 6.0];
    RecentKeepsAll(stamps, 12.0);
    assert Trimmed(m.rates, 12.0) == m.rates;
    assert m.rates[KEY := stamps] == m.rates;
    assert Checked(m, BOUND, Text(THIRD, 20), 12.0) == (m, None);
    assert stamps + [12.0] == [0.0, 5.0, 6.0, 12.0];
    assert m.rates[KEY := m.rates[KEY] + [12.0]] == TAKEN.manager.rates;
    assert m.active["docs" := 1] == TAKEN.manager.active;
    assert m.sessions[THIRD := m.sessions[THIRD].(active := true)] == TAKEN.manager.sessions;
  }

  lemma StaleAskEnters()
    ensures OnEnter(OVERLAP, 4, "spare", NoFactory) == TAKEN
  {
    StaleAskIsSeated("spare");
    assert OVERLAP.pending - {4} == TAKEN.pending;
    assert OVERLAP.running[4 := Use(THIRD, BOUND)] == TAKEN.running;
  }

  lemma LaterAskPurgesAgain()
    ensures Step(TAKEN, Purge(5)).cleaned == [FIRST, SECOND, THIRD] && Step(TAKEN, Purge(5)).running == TAKEN.running
  {}

  lemma WaitingRuns()
    ensures LegalRun(CATALOG, HELD, WAITING) && Run(HELD, WAITING) == OVERLAP
  {
    StaleAskBegins();
    StaleAskPurges();
    LaterAskBegins();
    LaterAskPurges();
    var tail := WAITING[1..];
    Three(W1, W2, W3, OVERLAP, tail);
  }

  const SPARE := Enter(4, "spare", NoFactory)

  lemma OverlapRuns()
    ensures LegalRun(CATALOG, OVERLAP, [SPARE, Purge(5)])
    ensures Run(OVERLAP, [SPARE, Purge(5)]) == Step(TAKEN, Purge(5))
  {
    StaleAskEnters();
    assert Step(OVERLAP, SPARE) == TAKEN;
    assert [SPARE, Purge(5)][1..] == [Purge(5)] && [Purge(5)][1..] == [];
    assert Run(TAKEN, [Purge(5)]) == Run(Step(TAKEN, Purge(5)), []);
    assert LegalRun(CATALOG, TAKEN, [Purge(5)]);
  }

  /** From an empty manager, by legal steps: task 4 runs on the third session while its context has
      been handed to the cleanup. */
  lemma StalePurgeTakesRunningContext()
    ensures var es := OPENING + WAITING + [SPARE, Purge(5)];
            var s := Run(START, es);
            && Reached(CATALOG, es, s) && InUse(s.running, THIRD) && THIRD in s.cleaned
  {
    OpeningRuns();
    WaitingRuns();
    OverlapRuns();
    LaterAskPurgesAgain();
    RunIsAppended(CATALOG, START, OPENING, WAITING);
    RunIsAppended(CATALOG, START, OPENING + WAITING, [SPARE, Purge(5)]);
    var s := Step(TAKEN, Purge(5));
    assert s.running[4].id == THIRD && s.cleaned[2] == THIRD;
  }
}
