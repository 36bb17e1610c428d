/** What callers of the session manager may rely on, over every interleaving. */
module SessionSafety {
  import opened Domain
  import opened SessionTables
  import opened SessionRuns

  ghost predicate Reached(catalog: Catalog, es: seq<Event>, s: State) {
    LegalRun(catalog, START, es) && s == Run(START, es)
  }

  lemma StartIsValid(catalog: Catalog)
    ensures Inv(catalog, START) && Apart(START)
  {
    forall name ensures RunningOn(START.running, name) == {} {}
    assert forall name :: Taken(START.manager.active, name) == |RunningOn(START.running, name)|;
  }

  lemma ReachedIsValid(catalog: Catalog, es: seq<Event>, s: State)
    requires Reached(catalog, es, s)
    ensures Inv(catalog, s) && Apart(s)
  {
    StartIsValid(catalog);
    RunKeepsInv(catalog, START, es);
  }

  /** The slot counter of a service is the number of its running asks, and never above its limit. */
  lemma SlotsAreTheRunningAsks(catalog: Catalog, es: seq<Event>, s: State, name: string)
    requires Reached(catalog, es, s)
    ensures Taken(s.manager.active, name) == |RunningOn(s.running, name)|
    ensures name in catalog ==> |RunningOn(s.running, name)| <= catalog[name].maxConcurrency
  {
    ReachedIsValid(catalog, es, s);
    assert Limited(catalog, s.manager.active);
  }

  lemma TablesStayBounded(catalog: Catalog, es: seq<Event>, s: State)
    requires Reached(catalog, es, s)
    ensures |s.manager.sessions| <= 128 && |s.manager.rates| <= 1024
  {
    ReachedIsValid(catalog, es, s);
  }

  /** A session serves one binding for good, and one ask at a time. */
  lemma SessionsHaveOneOwner(catalog: Catalog, es: seq<Event>, s: State)
    requires Reached(catalog, es, s)
    ensures forall i, j :: 0 <= i < j < |s.entered| && s.entered[i].id == s.entered[j].id ==>
      s.entered[i].bound == s.entered[j].bound
    ensures forall t, u :: t in s.running && u in s.running && t != u ==> s.running[t].id != s.running[u].id
  {
    ReachedIsValid(catalog, es, s);
  }

  lemma CleanedAtMostOnce(catalog: Catalog, es: seq<Event>, s: State)
    requires Reached(catalog, es, s)
    ensures forall i, j :: 0 <= i < j < |s.cleaned| ==> s.cleaned[i] != s.cleaned[j]
    ensures forall id :: id in s.cleaned ==> id !in s.manager.sessions
  {
    ReachedIsValid(catalog, es, s);
  }

  // ---------------------------------------------------------------- draining

  lemma StepStaysClosed(s: State, e: Event)
    requires !s.manager.accepting
    ensures !Step(s, e).manager.accepting && Step(s, e).entered == s.entered
  {}

  lemma {:induction false} RunStaysClosed(s: State, es: seq<Event>)
    requires !s.manager.accepting
    ensures !Run(s, es).manager.accepting && Run(s, es).entered == s.entered
    decreases |es|
  {
    if es != [] {
      StepStaysClosed(s, es[0]);
      RunStaysClosed(Step(s, es[0]), es[1..]);
    }
  }

  lemma {:induction false} RunIsAppended(catalog: Catalog, s: State, before: seq<Event>, after: seq<Event>)
    ensures Run(s, before + after) == Run(Run(s, before), after)
    ensures LegalRun(catalog, s, before + after) <==>
            LegalRun(catalog, s, before) && LegalRun(catalog, Run(s, before), after)
    decreases |before|
  {
    if before == [] {
      assert before + after == after;
    } else {
      assert (before + after)[0] == before[0] && (before + after)[1..] == before[1..] + after;
      RunIsAppended(catalog, Step(s, before[0]), before[1..], after);
    }
  }

  lemma StepKeepsReturned(catalog: Catalog, s: State, e: Event, d: nat)
    requires Legal(catalog, s, e) && d in s.drains && s.drains[d].Returned?
    ensures d in Step(s, e).drains && Step(s, e).drains[d].Returned?
  {}

  lemma {:induction false} RunKeepsReturned(catalog: Catalog, s: State, es: seq<Event>, d: nat)
    requires LegalRun(catalog, s, es) && d in s.drains && s.drains[d].Returned?
    ensures d in Run(s, es).drains && Run(s, es).drains[d].Returned?
    decreases |es|
  {
    if es != [] {
      StepKeepsReturned(catalog, s, es[0], d);
      RunKeepsReturned(catalog, Step(s, es[0]), es[1..], d);
    }
  }

  /** No slot is taken after a drain has begun, and once it has returned there is no session and no
      running ask, then or ever after. */
  lemma {:induction false} DrainIsFinal(catalog: Catalog, before: seq<Event>, after: seq<Event>, d: nat)
    requires LegalRun(catalog, START, before + after) && d in Run(START, before).drains
    ensures Run(START, before + after).entered == Run(START, before).entered
    ensures Run(START, before).drains[d].Returned? ==>
      Run(START, before + after).manager.sessions == map[] && Run(START, before + after).running == map[]
  {
    var s, n := Run(START, before), Run(START, before + after);
    RunIsAppended(catalog, START, before, after);
    ReachedIsValid(catalog, before, s);
    ReachedIsValid(catalog, before + after, n);
    assert Drained(s.manager, s.running, s.drains[d]);
    RunStaysClosed(s, after);
    if s.drains[d].Returned? {
      RunKeepsReturned(catalog, s, after, d);
      assert Drained(n.manager, n.running, n.drains[d]);
    }
  }

  // ---------------------------------------------------------------- expired sessions in use

  /** An ask removes the sessions it found expired without looking again whether they are active.
      It takes the context from under a running ask exactly when the record is active by then. */
  lemma PurgeOverrunsIff(catalog: Catalog, es: seq<Event>, s: State, task: nat)
    requires Reached(catalog, es, s) && Legal(catalog, s, Purge(task))
    ensures var id := s.pending[task].todo[0];
            id in s.manager.sessions ==> (InUse(s.running, id) <==> s.manager.sessions[id].active)
    ensures s.pending[task].todo[0] !in Step(s, Purge(task)).manager.sessions
  {
    ReachedIsValid(catalog, es, s);
    var id := s.pending[task].todo[0];
    if id in s.manager.sessions && InUse(s.running, id) {
      var t :| t in s.running && s.running[t].id == id;
      assert Holds(s.manager.sessions, s.running[t]);
    }
  }

  /** While an ask has read the clock and not yet taken its slot, nothing else happens. */
  predicate Alone(s: State, e: Event) {
    forall t :: t in s.pending ==> e == Purge(t) || e == Abandon(t) || (e.Enter? && e.task == t)
  }

  ghost predicate SerialRun(s: State, es: seq<Event>)
    decreases |es|
  {
    es == [] || (Alone(s, es[0]) && SerialRun(Step(s, es[0]), es[1..]))
  }

  predicate Idle(sessions: map<Id, Record>, todo: seq<Id>) {
    forall i :: 0 <= i < |todo| && todo[i] in sessions ==> !sessions[todo[i]].active
  }

  ghost predicate Quiet(s: State) { forall t :: t in s.pending ==> Idle(s.manager.sessions, s.pending[t].todo) }

  lemma StepKeepsQuiet(catalog: Catalog, s: State, e: Event)
    requires Quiet(s) && Alone(s, e) && Legal(catalog, s, e)
    ensures Quiet(Step(s, e))
  {
    var n := Step(s, e);
    if e.Begin? {
      assert s.pending == map[];
      forall i | 0 <= i < |e.order| ensures e.order[i] in Expired(s.manager, e.now) {
        assert e.order[i] in (set id | id in e.order);
      }
    } else {
      forall t | t in n.pending ensures Idle(n.manager.sessions, n.pending[t].todo) {
        assert t in s.pending && Idle(s.manager.sessions, s.pending[t].todo);
      }
    }
  }

  lemma {:induction false} SerialRunStaysQuiet(catalog: Catalog, s: State, es: seq<Event>)
    requires Quiet(s) && SerialRun(s, es) && LegalRun(catalog, s, es)
    ensures Quiet(Run(s, es))
    decreases |es|
  {
    if es != [] {
      StepKeepsQuiet(catalog, s, es[0]);
      SerialRunStaysQuiet(catalog, Step(s, es[0]), es[1..]);
    }
  }

  /** With the clock reading and the slot in one step, no removal of an expired session touches a
      running ask. */
  lemma {:induction false} SerialPurgeSparesRunningAsks(catalog: Catalog, es: seq<Event>, s: State, task: nat)
    requires Reached(catalog, es, s) && SerialRun(START, es) && Legal(catalog, s, Purge(task))
    ensures var id := s.pending[task].todo[0];
            id in s.manager.sessions ==> !InUse(s.running, id)
  {
    SerialRunStaysQuiet(catalog, START, es);
    assert Idle(s.manager.sessions, s.pending[task].todo);
    PurgeOverrunsIff(catalog, es, s, task);
  }
}
