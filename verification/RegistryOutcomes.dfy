/** What each step of the registry does in the states it can be in, said of the table, the records and
    the lock alone: when a start registers its service, who can close one, and what a refusal leaves. */
module RegistryOutcomes {
  import opened Domain
  import opened SessionTables
  import opened RegistryRuns
  import opened RegistrySafety

  // ---------------------------------------------------------------- a start tells its record nothing

  predicate Untold(s: State, w: nat) {
    WorkerOf(s, w).Starting? && WorkerOf(s, w).record < |s.records| ==> !s.records[WorkerOf(s, w).record].stopping
  }

  ghost predicate AllUntold(s: State) { forall w :: Untold(s, w) }

  /** Starts hold the lock, so only one at a time; and what it starts is not in the table. */
  lemma StartingIsAlone(s: State, w: nat, v: nat)
    requires Inv(s) && WorkerOf(s, w).Starting?
    ensures s.lock == Some(w) && (Holds(WorkerOf(s, v)) ==> v == w)
    ensures var r := WorkerOf(s, w).record;
            r < |s.records| && s.records[r].service.name !in s.services && r !in s.services.Values
  {
    assert WorkerOk(s, w) && WorkerOk(s, v);
    forall name | name in s.services ensures s.services[name] != WorkerOf(s, w).record {}
  }

  lemma CloseLeavesUntold(s: State, e: Event, w: nat)
    requires Inv(s) && Legal(s, e) && (e.EnterClose? || e.EnterCloseAll?) && Untold(s, w)
    ensures Untold(Step(s, e), w)
  {
    var n := Step(s, e);
    if WorkerOf(n, w).Starting? {
      if e.EnterCloseAll? {
        EnterCloseAllSpawns(s, e.w, e.children);
        assert WorkerOf(s, w).Starting?;
        StartingIsAlone(s, w, w);
      } else {
        StartingIsAlone(s, w, w);
      }
    }
  }

  lemma StartLeavesUntold(s: State, e: Event, w: nat)
    requires Inv(s) && Legal(s, e) && (e.EnterStart? || e.Launched? || e.CancelStart?) && Untold(s, w)
    ensures Untold(Step(s, e), w)
  {
    if WorkerOf(s, w).Starting? { StartingIsAlone(s, w, e.w); }
  }

  lemma RestLeavesUntold(s: State, e: Event, w: nat)
    requires Untold(s, w)
    requires !e.EnterStart? && !e.Launched? && !e.CancelStart? && !e.EnterClose? && !e.EnterCloseAll?
    ensures Untold(Step(s, e), w)
  {}

  lemma StepKeepsUntold(s: State, e: Event)
    requires Inv(s) && Legal(s, e) && AllUntold(s)
    ensures AllUntold(Step(s, e))
  {
    forall w: nat ensures Untold(Step(s, e), w) {
      if e.EnterClose? || e.EnterCloseAll? {
        CloseLeavesUntold(s, e, w);
      } else if e.EnterStart? || e.Launched? || e.CancelStart? {
        StartLeavesUntold(s, e, w);
      } else {
        RestLeavesUntold(s, e, w);
      }
    }
  }

  lemma {:induction false} RunKeepsUntold(s: State, es: seq<Event>)
    requires Inv(s) && AllUntold(s) && LegalRun(s, es)
    ensures AllUntold(Run(s, es))
    decreases |es|
  {
    if es != [] {
      StepKeepsInv(s, es[0]);
      StepKeepsUntold(s, es[0]);
      RunKeepsUntold(Step(s, es[0]), es[1..]);
    }
  }

  // ---------------------------------------------------------------- starts

  /** The answers of a start that holds the lock, each exactly when it is due. */
  lemma VerdictIsDue(closing: bool, listed: Option<Running>, size: nat, service: Service, owner: Profile)
    ensures var v := Admission(closing, listed, size, service, owner);
            && (v.Unavailable? <==> closing)
            && (v.AlreadyRunning? <==> !closing && listed.Some? && listed.value.owner == owner && listed.value.service == service)
            && (v.NameInUse? <==> !closing && listed.Some? && !(listed.value.owner == owner && listed.value.service == service))
            && (v.Capacity? <==> !closing && listed.None? && size >= 8)
            && (v.Launch? <==> !closing && listed.None? && size < 8)
  {}

  /** With the lock a start begins a lifecycle task if and only if the registry is not closing, the name is
      free and fewer than 8 services are listed; otherwise it is over and nothing else has changed. */
  lemma StartLaunchesIff(es: seq<Event>, s: State, w: nat)
    requires Reached(es, s) && Legal(s, EnterStart(w))
    ensures var Waiting(service, owner) := WorkerOf(s, w);
            Step(s, EnterStart(w)) ==
              if !s.closing && service.name !in s.services && |s.services| < 8
              then s.(records := s.records + [Running(owner, service, false, Pending, false)],
                      lock := Some(w), workers := s.workers[w := Starting(|s.records|)])
              else s.(workers := s.workers[w := Gone])
  {
    ReachedIsValid(es, s);
    var Waiting(service, owner) := WorkerOf(s, w);
    VerdictIsDue(s.closing, Lookup(s, service.name), |s.services|, service, owner);
  }

  /** In every reached state, when the task of a start is ready, its guard allows and the registry is not
      closing, the name comes to stand for its record, which was told nothing; the lock is free.
      In any other case the record is told to stop, and the start keeps the lock until it has ended. */
  lemma LaunchedRegistersIff(es: seq<Event>, s: State, w: nat, allowed: bool)
    requires Reached(es, s) && Legal(s, Launched(w, allowed))
    ensures var n, r := Step(s, Launched(w, allowed)), WorkerOf(s, w).record;
            && r < |s.records| && s.lock == Some(w) && s.records[r].service.name !in s.services && !s.records[r].stopping
            && n == if s.records[r].ready.Up? && allowed && !s.closing
                    then s.(services := s.services[s.records[r].service.name := r], lock := None, workers := s.workers[w := Gone])
                    else s.(records := s.records[r := s.records[r].(stopping := true)], workers := s.workers[w := Abandoning(r)])
  {
    ReachedIsValid(es, s);
    assert AllUntold(INITIAL);
    RunKeepsUntold(INITIAL, es);
    StartingIsAlone(s, w, w);
    assert Untold(s, w);
  }

  /** A start cancelled while its task starts tells it to stop; one cancelled before is over. */
  lemma CancelledStartTells(es: seq<Event>, s: State, w: nat)
    requires Reached(es, s) && Legal(s, CancelStart(w))
    ensures WorkerOf(s, w).Starting? ==> WorkerOf(s, w).record < |s.records|
    ensures Step(s, CancelStart(w)) ==
              if WorkerOf(s, w).Starting?
              then var r := WorkerOf(s, w).record;
                   s.(records := s.records[r := s.records[r].(stopping := true)], workers := s.workers[w := Abandoning(r)])
              else s.(workers := s.workers[w := Gone])
  {
    ReachedIsValid(es, s);
    assert WorkerOk(s, w);
  }

  /** What was told to stop has finished before the lock is free, and was never listed. */
  lemma UndoneStartFreesTheLock(es: seq<Event>, s: State, w: nat)
    requires Reached(es, s) && Legal(s, EndStart(w))
    ensures var r := WorkerOf(s, w).record;
            && r < |s.records| && s.records[r].stopping && s.records[r].done && s.records[r].service.name !in s.services
            && s.lock == Some(w) && Step(s, EndStart(w)) == s.(lock := None, workers := s.workers[w := Gone])
  {
    ReachedIsValid(es, s);
    assert WorkerOk(s, w);
  }

  lemma {:induction false} OneStep(s: State, e: Event, rest: seq<Event>)
    ensures Run(s, [e] + rest) == Run(Step(s, e), rest)
    ensures LegalRun(s, [e] + rest) <==> Legal(s, e) && LegalRun(Step(s, e), rest)
  {
    assert ([e] + rest)[0] == e && ([e] + rest)[1..] == rest;
  }

  lemma {:induction false} FourSteps(s: State, a: Event, b: Event, c: Event, d: Event)
    ensures Run(s, [a, b, c, d]) == Step(Step(Step(Step(s, a), b), c), d)
    ensures Legal(s, a) && Legal(Step(s, a), b) && Legal(Step(Step(s, a), b), c) && Legal(Step(Step(Step(s, a), b), c), d)
      ==> LegalRun(s, [a, b, c, d])
  {
    var t := Step(s, a);
    assert [a, b, c, d] == [a] + [b, c, d] && [b, c, d] == [b] + [c, d] && [c, d] == [c] + [d] && [d] == [d] + [];
    OneStep(s, a, [b, c, d]);
    OneStep(t, b, [c, d]);
    OneStep(Step(t, b), c, [d]);
    OneStep(Step(Step(t, b), c), d, []);
  }

  /** So a start let through alone, under a free name and with fewer than 8 services, ends registered,
      from any reached state with the lock free that is not closing; all other services are as they were. */
  lemma {:induction false} StartLeftAloneRegisters(es: seq<Event>, s: State, w: nat, service: Service, owner: Profile)
    requires Reached(es, s) && w !in s.workers && s.lock.None? && !s.closing
    requires service.name !in s.services && |s.services| < 8
    ensures var run := [RequestStart(w, service, owner, true), EnterStart(w), Ready(|s.records|), Launched(w, true)];
            LegalRun(s, run)
            && Run(s, run) == s.(services := s.services[service.name := |s.records|],
                                 records := s.records + [Running(owner, service, false, Up, false)],
                                 workers := s.workers[w := Gone])
  {
    var a := Step(s, RequestStart(w, service, owner, true));
    var b := Step(a, EnterStart(w));
    var c := Step(b, Ready(|s.records|));
    FourSteps(s, RequestStart(w, service, owner, true), EnterStart(w), Ready(|s.records|), Launched(w, true));
    assert a == s.(workers := s.workers[w := Waiting(service, owner)]);
    AloneLaunches(a, w, service, owner);
    assert c == b.(records := s.records + [Running(owner, service, false, Up, false)]);
    AloneRegisters(c, w, |s.records|);
  }

  lemma AloneLaunches(s: State, w: nat, service: Service, owner: Profile)
    requires WorkerOf(s, w) == Waiting(service, owner) && !s.closing && service.name !in s.services && |s.services| < 8
    ensures Step(s, EnterStart(w)) == s.(records := s.records + [Running(owner, service, false, Pending, false)],
                                         lock := Some(w), workers := s.workers[w := Starting(|s.records|)])
  {
    VerdictIsDue(s.closing, Lookup(s, service.name), |s.services|, service, owner);
  }

  lemma AloneRegisters(s: State, w: nat, r: nat)
    requires WorkerOf(s, w) == Starting(r) && r < |s.records| && s.records[r].ready.Up? && !s.closing
    ensures Step(s, Launched(w, true))
         == s.(services := s.services[s.records[r].service.name := r], lock := None, workers := s.workers[w := Gone])
  {}

  /** A start whose guard refuses never asks for the lock. */
  lemma RefusedStartIsOver(s: State, w: nat, service: Service, owner: Profile, allowed: bool)
    ensures Step(s, RequestStart(w, service, owner, allowed))
         == s.(workers := s.workers[w := if allowed then Waiting(service, owner) else Gone])
  {}

  // ---------------------------------------------------------------- closes

  /** A close tells a record to stop if and only if its name stands for it and the owner is its own; the
      close then waits for that record.  Another owner's close changes nothing. */
  lemma CloseTellsIff(es: seq<Event>, s: State, w: nat)
    requires Reached(es, s) && Legal(s, EnterClose(w))
    ensures var CloseWaiting(name, owner) := WorkerOf(s, w);
            Step(s, EnterClose(w)) ==
              if name in s.services && s.services[name] < |s.records| && s.records[s.services[name]].owner == owner
              then var r := s.services[name];
                   s.(records := s.records[r := s.records[r].(stopping := true)], workers := s.workers[w := Closing(name, r)])
              else s.(workers := s.workers[w := Gone])
  {
    ReachedIsValid(es, s);
    var CloseWaiting(name, owner) := WorkerOf(s, w);
    assert name in s.services ==> s.services[name] < |s.records|;
  }

  /** When the task of the record has finished the name is free again, if it still stands for it. */
  lemma ClosedNameIsFree(es: seq<Event>, s: State, w: nat)
    requires Reached(es, s) && Legal(s, EndClose(w))
    ensures var Closing(name, record) := WorkerOf(s, w);
            && record < |s.records| && s.records[record].done
            && Step(s, EndClose(w)) ==
                 if name in s.services && s.services[name] == record
                 then s.(services := s.services - {name}, workers := s.workers[w := Gone])
                 else s.(workers := s.workers[w := Gone])
  {
    ReachedIsValid(es, s);
  }

  lemma StoppedAreTheListed(s: State)
    requires NamesOk(s.services, s.records)
    ensures |AllStopped(s)| == |s.records|
    ensures forall r :: 0 <= r < |s.records| ==>
      AllStopped(s)[r] == s.records[r].(stopping := s.records[r].stopping || Registered(s.services, s.records, r))
  {
    forall r | 0 <= r < |s.records| ensures r in s.services.Values <==> Registered(s.services, s.records, r) {
      if r in s.services.Values {
        var name :| name in s.services && s.services[name] == r;
        assert s.records[r].service.name == name;
      }
    }
  }

  lemma ChildIsTheOwners(s: State, n: State, w: nat, children: map<nat, string>, c: nat)
    requires NamesOk(s.services, s.records) && Spawning(s, n, w, children) && c in children
    ensures children[c] in s.services && s.services[children[c]] < |s.records|
    ensures WorkerOf(n, c) == CloseWaiting(children[c], s.records[s.services[children[c]]].owner)
  {
    assert children[c] in children.Values;
  }

  /** A close-all tells exactly the listed records, and starts for each name a close by its own owner. */
  lemma CloseAllTellsTheListed(es: seq<Event>, s: State, w: nat, children: map<nat, string>)
    requires Reached(es, s) && Legal(s, EnterCloseAll(w, children))
    ensures var n := Step(s, EnterCloseAll(w, children));
            && n.services == s.services && n.lock == s.lock && n.closing == s.closing && |n.records| == |s.records|
            && (forall r :: 0 <= r < |s.records| ==>
                  n.records[r] == s.records[r].(stopping := s.records[r].stopping || Registered(s.services, s.records, r)))
    ensures var n := Step(s, EnterCloseAll(w, children));
            && WorkerOf(n, w) == AllClosing(children) && children.Values == s.services.Keys
            && forall c :: c in children ==>
                 && s.services[children[c]] < |s.records|
                 && WorkerOf(n, c) == CloseWaiting(children[c], s.records[s.services[children[c]]].owner)
  {
    ReachedIsValid(es, s);
    var n := Step(s, EnterCloseAll(w, children));
    EnterCloseAllSpawns(s, w, children);
    StoppedAreTheListed(s);
    forall c | c in children
      ensures children[c] in s.services && s.services[children[c]] < |s.records|
      ensures WorkerOf(n, c) == CloseWaiting(children[c], s.records[s.services[children[c]]].owner)
    {
      ChildIsTheOwners(s, n, w, children, c);
    }
  }

  /** A close left alone frees the name of its owner's service, from any reached state with the lock free;
      all other services are as they were. */
  lemma {:induction false} CloseLeftAloneFrees(es: seq<Event>, s: State, w: nat, name: string, owner: Profile)
    requires Reached(es, s) && w !in s.workers && s.lock.None? && name in s.services
    requires s.services[name] < |s.records| && s.records[s.services[name]].owner == owner && !s.records[s.services[name]].done
    ensures var r := s.services[name];
            var run := [RequestClose(w, name, owner), EnterClose(w), End(r), EndClose(w)];
            && LegalRun(s, run)
            && Run(s, run).services == s.services - {name} && Run(s, run).lock.None? && Run(s, run).workers == s.workers[w := Gone]
            && |Run(s, run).records| == |s.records| && Run(s, run).records[r].stopping && Run(s, run).records[r].done
            && forall i :: 0 <= i < |s.records| && i != r ==> Run(s, run).records[i] == s.records[i]
  {
    var r := s.services[name];
    var a := Step(s, RequestClose(w, name, owner));
    FourSteps(s, RequestClose(w, name, owner), EnterClose(w), End(r), EndClose(w));
    assert a == s.(workers := s.workers[w := CloseWaiting(name, owner)]);
    AloneTells(a, w, name, owner);
  }

  lemma AloneTells(s: State, w: nat, name: string, owner: Profile)
    requires WorkerOf(s, w) == CloseWaiting(name, owner) && name in s.services
    requires s.services[name] < |s.records| && s.records[s.services[name]].owner == owner
    ensures var r := s.services[name];
            Step(s, EnterClose(w))
            == s.(records := s.records[r := s.records[r].(stopping := true)], workers := s.workers[w := Closing(name, r)])
  {}

  /** A close-all sets closing before it waits for the lock, and returns when its closes are over. */
  lemma CloseAllBeginsAndReturns(s: State, w: nat)
    ensures Step(s, RequestCloseAll(w)) == s.(closing := true, workers := s.workers[w := AllWaiting])
    ensures Step(s, EndCloseAll(w)) == s.(workers := s.workers[w := AllReturned])
    ensures Legal(s, EndCloseAll(w)) <==>
              WorkerOf(s, w).AllClosing? && forall c :: c in WorkerOf(s, w).children ==> WorkerOf(s, c).Gone?
  {}
}
