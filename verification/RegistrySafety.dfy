/** What callers of the registry may rely on, over every interleaving. */
module RegistrySafety {
  import opened RegistryRuns

  ghost predicate Reached(es: seq<Event>, s: State) { LegalRun(INITIAL, es) && s == Run(INITIAL, es) }

  lemma ReachedIsValid(es: seq<Event>, s: State)
    requires Reached(es, s)
    ensures Inv(s)
  {
    RunKeepsInv(INITIAL, es);
  }

  lemma AtMostEightServices(es: seq<Event>, s: State)
    requires Reached(es, s)
    ensures |s.services| <= 8
  {
    ReachedIsValid(es, s);
  }

  /** A lifecycle task still running belongs to a registered service or to the start that holds the
      lock; whoever waits for one to end has told it to stop. */
  lemma NoTaskIsOrphaned(es: seq<Event>, s: State, record: nat)
    requires Reached(es, s) && record < |s.records| && !s.records[record].done
    ensures Registered(s.services, s.records, record) ||
            (s.lock.Some? && Holds(WorkerOf(s, s.lock.value)) && WorkerOf(s, s.lock.value).record == record)
    ensures forall w :: (WorkerOf(s, w).Closing? || WorkerOf(s, w).Abandoning?) && WorkerOf(s, w).record == record ==>
      s.records[record].stopping
  {
    ReachedIsValid(es, s);
    assert Accounted(s, record);
    forall w: nat | (WorkerOf(s, w).Closing? || WorkerOf(s, w).Abandoning?) && WorkerOf(s, w).record == record
      ensures s.records[record].stopping
    {
      assert WorkerOk(s, w);
    }
  }

  // ---------------------------------------------------------------- leaving the table

  /** A name goes on standing for its record until that record's own task has finished: a close that
      comes late removes no newer record of the name, and no start replaces one. */
  lemma OnlyFinishedRecordsLeave(es: seq<Event>, s: State, e: Event, name: string)
    requires Reached(es, s) && Legal(s, e) && name in s.services
    ensures name in Step(s, e).services ==> Step(s, e).services[name] == s.services[name]
    ensures name !in Step(s, e).services ==>
      e.EndClose? && WorkerOf(s, e.w) == Closing(name, s.services[name]) && Done(s, s.services[name])
  {
    ReachedIsValid(es, s);
    if e.Launched? { assert WorkerOk(s, e.w); }
  }

  // ---------------------------------------------------------------- shutting down

  predicate NoMore(a: map<string, nat>, b: map<string, nat>) { forall name :: name in a ==> name in b && a[name] == b[name] }

  lemma StepRegistersNothing(s: State, e: Event)
    requires s.closing
    ensures Step(s, e).closing && NoMore(Step(s, e).services, s.services)
    ensures |Step(s, e).records| == |s.records|
  {}

  /** Once closing is set no service is registered and no lifecycle task is started. */
  lemma {:induction false} ClosingRegistersNothing(s: State, es: seq<Event>)
    requires s.closing
    ensures Run(s, es).closing && NoMore(Run(s, es).services, s.services) && |Run(s, es).records| == |s.records|
    decreases |es|
  {
    if es != [] {
      StepRegistersNothing(s, es[0]);
      ClosingRegistersNothing(Step(s, es[0]), es[1..]);
    }
  }

  /** When a close-all has returned the table is empty and every lifecycle task ever started has
      finished. */
  lemma CloseAllLeavesNothing(es: seq<Event>, s: State, w: nat)
    requires Reached(es, s) && WorkerOf(s, w).AllReturned?
    ensures s.closing && s.services == map[]
    ensures forall r :: 0 <= r < |s.records| ==> s.records[r].done
  {
    ReachedIsValid(es, s);
    assert WorkerOk(s, w);
    forall r | 0 <= r < |s.records| ensures s.records[r].done { assert Accounted(s, r); }
  }

  /** And so it stays. */
  lemma {:induction false} CloseAllIsFinal(before: seq<Event>, after: seq<Event>, w: nat)
    requires LegalRun(INITIAL, before) && WorkerOf(Run(INITIAL, before), w).AllReturned?
    ensures Run(Run(INITIAL, before), after).services == map[]
    ensures |Run(Run(INITIAL, before), after).records| == |Run(INITIAL, before).records|
  {
    var s := Run(INITIAL, before);
    CloseAllLeavesNothing(before, s, w);
    ClosingRegistersNothing(s, after);
  }
}
