/** The sliding-window rate limit over the whole history, although stamps older than a minute and
    empty keys are discarded. */
module SessionWindow {
  import opened Domain
  import OriginProofs
  import opened SessionTables
  import opened SessionRuns
  import opened SessionSafety
  import opened SetFacts

  function KeyOf(entry: Entered): RateKey { RateKey(entry.bound.service.name, entry.bound.origin) }

  /** The clock readings of every slot ever taken for a key. */
  function Stamps(entered: seq<Entered>, key: RateKey): seq<real> {
    if entered == [] then []
    else
      var e := entered[|entered| - 1];
      Stamps(entered[..|entered| - 1], key) + if KeyOf(e) == key then [e.at] else []
  }

  /** More than `limit` consecutive slots span at least a minute. */
  ghost predicate Spaced(stamps: seq<real>, limit: nat) {
    forall i, j :: 0 <= i && i + limit <= j < |stamps| ==> stamps[j] - stamps[i] >= PERIOD
  }

  ghost predicate Sorted(stamps: seq<real>, latest: real) {
    && (forall i, j :: 0 <= i < j < |stamps| ==> stamps[i] <= stamps[j])
    && (forall i :: 0 <= i < |stamps| ==> stamps[i] <= latest)
  }

  /** The deque is the end of the history; what is missing is at least a minute old. */
  ghost predicate Kept(times: seq<real>, stamps: seq<real>, latest: real) {
    && |times| <= |stamps|
    && times == stamps[|stamps| - |times|..]
    && (forall i :: 0 <= i < |stamps| - |times| ==> stamps[i] <= latest - PERIOD)
  }

  ghost predicate RateOk(times: seq<real>, stamps: seq<real>, latest: real, limit: nat) {
    Sorted(stamps, latest) && Kept(times, stamps, latest) && Spaced(stamps, limit)
  }

  lemma {:induction false} RecentIsKept(times: seq<real>, stamps: seq<real>, now: real)
    requires Kept(times, stamps, now)
    ensures Kept(Recent(times, now), stamps, now)
    decreases |times|
  {
    if times != [] && times[0] <= now - PERIOD {
      assert times[1..] == stamps[|stamps| - |times[1..]|..];
      RecentIsKept(times[1..], stamps, now);
    }
  }

  lemma {:induction false} RecentIsYoung(times: seq<real>, now: real)
    requires forall i, j :: 0 <= i < j < |times| ==> times[i] <= times[j]
    ensures forall t :: t in times && t > now - PERIOD <==> t in Recent(times, now)
    decreases |times|
  {
    if times != [] && times[0] <= now - PERIOD {
      RecentIsYoung(times[1..], now);
      assert times == [times[0]] + times[1..];
    }
  }

  /** A slot taken while fewer than `limit` stamps are kept. */
  lemma SlotKeepsRate(times: seq<real>, stamps: seq<real>, now: real, limit: nat)
    requires RateOk(times, stamps, now, limit) && |times| < limit
    ensures RateOk(times + [now], stamps + [now], now, limit)
  {
    var longer := stamps + [now];
    assert times + [now] == longer[|longer| - (|times| + 1)..];
    forall i, j | 0 <= i && i + limit <= j < |longer| ensures longer[j] - longer[i] >= PERIOD {
      if j < |stamps| { assert stamps[j] - stamps[i] >= PERIOD; }
    }
  }

  lemma {:induction false} TrimmedIsRecent(rates: Rates, key: RateKey, now: real)
    ensures StampsOf(Trimmed(rates, now), key) == Recent(StampsOf(rates, key), now)
  {}

  // ---------------------------------------------------------------- over a run

  ghost predicate WindowInv(catalog: Catalog, s: State, latest: real) {
    forall key: RateKey :: key.service in catalog ==>
      RateOk(StampsOf(s.manager.rates, key), Stamps(s.entered, key), latest, catalog[key.service].perMinute)
  }

  /** Slots are asked for in the order of their clock readings, as they are when the reading and the
      slot are one step of a clock that does not go back. */
  predicate PunctualRun(s: State, es: seq<Event>, latest: real)
    decreases |es|
  {
    es == [] ||
    (if es[0].Enter? && es[0].task in s.pending
     then latest <= s.pending[es[0].task].now && PunctualRun(Step(s, es[0]), es[1..], s.pending[es[0].task].now)
     else PunctualRun(Step(s, es[0]), es[1..], latest))
  }

  /** The last clock reading a slot was asked for with. */
  function Latest(s: State, e: Event, latest: real): real {
    if e.Enter? && e.task in s.pending then s.pending[e.task].now else latest
  }

  lemma {:induction false} LaterIsOk(times: seq<real>, stamps: seq<real>, latest: real, now: real, limit: nat)
    requires RateOk(times, stamps, latest, limit) && latest <= now
    ensures RateOk(times, stamps, now, limit) && RateOk(Recent(times, now), stamps, now, limit)
  {
    RecentIsKept(times, stamps, now);
  }

  lemma {:induction false} CheckedRates(m: Manager, bound: SessionBinding, argument: Value, now: real, key: RateKey)
    ensures var x := Checked(m, bound, argument, now);
            StampsOf(x.0.rates, key) in {StampsOf(m.rates, key), Recent(StampsOf(m.rates, key), now)}
    ensures var x := Checked(m, bound, argument, now);
            x.1.None? && key == RateKey(bound.service.name, bound.origin) ==>
              |StampsOf(x.0.rates, key)| < bound.service.perMinute
  {
    TrimmedIsRecent(m.rates, key, now);
  }

  /** What an entry appends to a key's deque and to its history. */
  function Stamped(bound: SessionBinding, now: real, entry: Entry, key: RateKey): seq<real> {
    if entry.Admitted? && key == RateKey(bound.service.name, bound.origin) then [now] else []
  }

  lemma EnterRates(m: Manager, bound: SessionBinding, argument: Value, now: real, token: Id, made: Made, key: RateKey)
    ensures var x := SessionTables.Enter(m, bound, argument, now, token, made);
            && StampsOf(x.0.rates, key) ==
               StampsOf(Checked(m, bound, argument, now).0.rates, key) + Stamped(bound, now, x.1, key)
            && x.1.Admitted? == Checked(m, bound, argument, now).1.None?
  {}

  lemma {:induction false} EnterStamps(s: State, task: nat, token: Id, made: Made, key: RateKey)
    requires task in s.pending
    ensures var p := s.pending[task];
            var entry := SessionTables.Enter(s.manager, p.bound, p.argument, p.now, token, made).1;
            Stamps(OnEnter(s, task, token, made).entered, key) == Stamps(s.entered, key) + Stamped(p.bound, p.now, entry, key)
  {
    var n := OnEnter(s, task, token, made);
    assert n.entered == s.entered || n.entered[..|n.entered| - 1] == s.entered;
  }

  lemma StampKeepsRate(times: seq<real>, stamps: seq<real>, now: real, limit: nat, more: seq<real>)
    requires RateOk(times, stamps, now, limit) && (more == [] || (more == [now] && |times| < limit))
    ensures RateOk(times + more, stamps + more, now, limit)
  {
    if more == [] {
      assert times + [] == times && stamps + [] == stamps;
    } else {
      SlotKeepsRate(times, stamps, now, limit);
    }
  }

  lemma {:induction false} CheckedKeepsRate(m: Manager, bound: SessionBinding, argument: Value, now: real, key: RateKey,
                                            stamps: seq<real>, latest: real, limit: nat)
    requires RateOk(StampsOf(m.rates, key), stamps, latest, limit) && latest <= now
    ensures RateOk(StampsOf(Checked(m, bound, argument, now).0.rates, key), stamps, now, limit)
  {
    LaterIsOk(StampsOf(m.rates, key), stamps, latest, now, limit);
    CheckedRates(m, bound, argument, now, key);
  }

  lemma {:induction false} EnterKeepsRate(catalog: Catalog, s: State, task: nat, token: Id, made: Made, latest: real, key: RateKey)
    requires task in s.pending && Published(catalog, s.pending[task].bound) && latest <= s.pending[task].now
    requires key.service in catalog
    requires RateOk(StampsOf(s.manager.rates, key), Stamps(s.entered, key), latest, catalog[key.service].perMinute)
    ensures var n := OnEnter(s, task, token, made);
            RateOk(StampsOf(n.manager.rates, key), Stamps(n.entered, key), s.pending[task].now, catalog[key.service].perMinute)
  {
    var p := s.pending[task];
    var limit, stamps := catalog[key.service].perMinute, Stamps(s.entered, key);
    var times := StampsOf(Checked(s.manager, p.bound, p.argument, p.now).0.rates, key);
    var entry := SessionTables.Enter(s.manager, p.bound, p.argument, p.now, token, made).1;
    CheckedKeepsRate(s.manager, p.bound, p.argument, p.now, key, stamps, latest, limit);
    CheckedRates(s.manager, p.bound, p.argument, p.now, key);
    EnterRates(s.manager, p.bound, p.argument, p.now, token, made, key);
    EnterStamps(s, task, token, made, key);
    StampKeepsRate(times, stamps, p.now, limit, Stamped(p.bound, p.now, entry, key));
  }

  lemma StepKeepsWindow(catalog: Catalog, s: State, e: Event, latest: real)
    requires WindowInv(catalog, s, latest) && Legal(catalog, s, e) && AllPublished(catalog, s.pending, s.running)
    requires latest <= Latest(s, e, latest)
    ensures WindowInv(catalog, Step(s, e), Latest(s, e, latest))
  {
    var n := Step(s, e);
    forall key: RateKey | key.service in catalog
      ensures RateOk(StampsOf(n.manager.rates, key), Stamps(n.entered, key), Latest(s, e, latest),
                     catalog[key.service].perMinute)
    {
      if e.Enter? {
        EnterKeepsRate(catalog, s, e.task, e.token, e.made, latest, key);
      } else {
        OnlyEnterTouchesRates(s, e);
      }
    }
  }

  lemma OnlyEnterTouchesRates(s: State, e: Event)
    requires !e.Enter?
    ensures Step(s, e).manager.rates == s.manager.rates && Step(s, e).entered == s.entered
  {}

  lemma {:induction false} RunKeepsWindow(catalog: Catalog, s: State, es: seq<Event>, latest: real) returns (last: real)
    requires Inv(catalog, s) && Apart(s) && WindowInv(catalog, s, latest)
    requires LegalRun(catalog, s, es) && PunctualRun(s, es, latest)
    ensures WindowInv(catalog, Run(s, es), last)
    decreases |es|
  {
    if es == [] {
      last := latest;
    } else {
      StepKeepsInv(catalog, s, es[0]);
      StepKeepsApart(catalog, s, es[0]);
      StepKeepsWindow(catalog, s, es[0], latest);
      last := RunKeepsWindow(catalog, Step(s, es[0]), es[1..], Latest(s, es[0], latest));
    }
  }

  /** The slots of a key whose clock reading falls in the minute from `from`. */
  function Within(stamps: seq<real>, from: real): set<int> {
    set i | 0 <= i < |stamps| && from <= stamps[i] < from + PERIOD
  }

  function Range(lo: int, n: nat): (r: set<int>)
    ensures |r| == n && forall i :: i in r <==> lo <= i < lo + n
  {
    if n == 0 then {} else Range(lo, n - 1) + {lo + n - 1}
  }

  lemma SpacedFitsWindow(stamps: seq<real>, limit: nat, from: real)
    requires Spaced(stamps, limit)
    ensures |Within(stamps, from)| <= limit
  {
    var hits := Within(stamps, from);
    if hits != {} {
      var lo := Least(hits);
      forall i | i in hits ensures i in Range(lo, limit) {
        assert stamps[i] - stamps[lo] < PERIOD;
      }
      SubsetSize(hits, Range(lo, limit));
    }
  }

  /** Every half-open minute over the whole history of a service and origin holds at most
      `perMinute` slots. */
  lemma {:induction false} SlidingWindow(catalog: Catalog, es: seq<Event>, s: State, start: real, key: RateKey, from: real)
    requires Reached(catalog, es, s) && PunctualRun(START, es, start) && key.service in catalog
    ensures |Within(Stamps(s.entered, key), from)| <= catalog[key.service].perMinute
  {
    StartIsValid(catalog);
    var last := RunKeepsWindow(catalog, START, es, start);
    assert RateOk(StampsOf(s.manager.rates, key), Stamps(s.entered, key), last, catalog[key.service].perMinute);
    SpacedFitsWindow(Stamps(s.entered, key), catalog[key.service].perMinute, from);
  }

  // ---------------------------------------------------------------- when slots are asked for in order

  /** The readings of one clock that does not go back. */
  predicate ClockedRun(es: seq<Event>, clock: real)
    decreases |es|
  {
    es == [] || (if es[0].Begin? then clock <= es[0].now && ClockedRun(es[1..], es[0].now) else ClockedRun(es[1..], clock))
  }

  lemma {:induction false} SerialIsPunctual(s: State, es: seq<Event>, latest: real, clock: real)
    requires SerialRun(s, es) && ClockedRun(es, clock) && latest <= clock
    requires forall t :: t in s.pending ==> s.pending[t].now == clock
    ensures PunctualRun(s, es, latest)
    decreases |es|
  {
    if es != [] {
      var e := es[0];
      var after := if e.Begin? then e.now else clock;
      if e.Begin? { assert s.pending == map[]; }
      assert forall t :: t in Step(s, e).pending ==> Step(s, e).pending[t].now == after;
      SerialIsPunctual(Step(s, e), es[1..], Latest(s, e, latest), after);
    }
  }
}
