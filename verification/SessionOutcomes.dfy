/** What each step of the session manager decides, said by the history of slots taken and by the asks
    that run: who may finish a session, what an ask needs to be let in, and which session it leaves. */
module SessionOutcomes {
  import opened Domain
  import opened SessionTables
  import opened SessionRuns
  import opened SessionSafety

  /** Some slot was taken on the session, and each for this service and origin. */
  ghost predicate Mine(entered: seq<Entered>, id: Id, service: Service, origin: Origin) {
    && (exists i :: 0 <= i < |entered| && entered[i].id == id)
    && forall i :: 0 <= i < |entered| && entered[i].id == id ==> entered[i].bound.service == service && entered[i].bound.origin == origin
  }

  ghost predicate Used(entered: seq<Entered>, id: Id) { exists i :: 0 <= i < |entered| && entered[i].id == id }

  /** A session is listed from the first slot taken on it. */
  ghost predicate AllUsed(s: State) { forall id :: id in s.manager.sessions ==> Used(s.entered, id) }

  lemma FewerStayUsed(a: State, b: State)
    requires AllUsed(a) && b.manager.sessions.Keys <= a.manager.sessions.Keys && b.entered == a.entered
    ensures AllUsed(b)
  {}

  lemma DropLists(s: State, id: Id)
    ensures Drop(s, id).manager.sessions.Keys == s.manager.sessions.Keys - {id} && Drop(s, id).entered == s.entered
  {}

  lemma LeaveLists(s: State, task: nat, ending: Ending)
    requires task in s.running
    ensures OnLeave(s, task, ending).manager.sessions.Keys <= s.manager.sessions.Keys && OnLeave(s, task, ending).entered == s.entered
  {}

  lemma EnterLists(s: State, task: nat, token: Id, made: Made)
    requires task in s.pending && AllUsed(s)
    ensures AllUsed(OnEnter(s, task, token, made))
  {
    var n := OnEnter(s, task, token, made);
    forall id | id in n.manager.sessions ensures Used(n.entered, id) {
      if id in s.manager.sessions {
        assert Used(s.entered, id);
        var i :| 0 <= i < |s.entered| && s.entered[i].id == id;
        assert n.entered[i].id == id;
      } else {
        assert n.entered[|s.entered|].id == id;
      }
    }
  }

  lemma StepKeepsUsed(s: State, e: Event)
    requires AllUsed(s)
    ensures AllUsed(Step(s, e))
  {
    if e.Enter? {
      if e.task in s.pending { EnterLists(s, e.task, e.token, e.made); }
    } else if e.Leave? {
      if e.task in s.running { LeaveLists(s, e.task, e.ending); }
    }
  }

  lemma {:induction false} RunKeepsUsed(s: State, es: seq<Event>)
    requires AllUsed(s)
    ensures AllUsed(Run(s, es))
    decreases |es|
  {
    if es != [] {
      StepKeepsUsed(s, es[0]);
      RunKeepsUsed(Step(s, es[0]), es[1..]);
    }
  }

  /** A listed session is its asks': active while one runs, and bound to the one service and origin
      that every slot on it was taken for. */
  lemma SessionIsItsAsks(catalog: Catalog, es: seq<Event>, s: State, id: Id, service: Service, origin: Origin)
    requires Reached(catalog, es, s) && id in s.manager.sessions
    ensures s.manager.sessions[id].active <==> InUse(s.running, id)
    ensures s.manager.sessions[id].binding == SessionBinding(service, origin) <==> Mine(s.entered, id, service, origin)
  {
    ReachedIsValid(catalog, es, s);
    RunKeepsUsed(START, es);
    var r := s.manager.sessions[id];
    if InUse(s.running, id) {
      var t :| t in s.running && s.running[t].id == id;
      assert Holds(s.manager.sessions, s.running[t]);
    }
    assert Used(s.entered, id);
    forall i | 0 <= i < |s.entered| && s.entered[i].id == id ensures s.entered[i].bound == r.binding {
      assert Rightful(s.manager.sessions, s.entered[i]);
    }
  }

  // ---------------------------------------------------------------- finish

  /** The session is listed, no ask runs on it, and every slot ever taken on it was for this very
      service and origin. */
  ghost predicate MayFinish(s: State, service: Service, origin: Option<Origin>, id: Id) {
    id in s.manager.sessions && !InUse(s.running, id) && origin.Some? && Mine(s.entered, id, service, origin.value)
  }

  /** In every reached state a finish ends the session it names if and only if it may, and no other. */
  lemma FinishEndsIff(catalog: Catalog, es: seq<Event>, s: State, service: Service, origin: Option<Origin>, id: Id)
    requires Reached(catalog, es, s)
    ensures var n := Step(s, Finish(service, origin, id));
            && n == s.(manager := n.manager, cleaned := n.cleaned)
            && n.manager == s.manager.(sessions := n.manager.sessions)
            && n.manager.sessions == (if MayFinish(s, service, origin, id) then s.manager.sessions - {id} else s.manager.sessions)
            && n.cleaned == s.cleaned + if MayFinish(s, service, origin, id) && s.manager.sessions[id].context.Some? then [id] else []
    ensures SessionTables.Finish(s.manager, service, origin, id).1 ==
            if id !in s.manager.sessions then Some(AccessDenied)
            else if origin.None? then Some(VerifiedOriginRequired)
            else if !Mine(s.entered, id, service, origin.value) then Some(AccessDenied)
            else if InUse(s.running, id) then Some(Busy)
            else None
  {
    if id in s.manager.sessions && origin.Some? { SessionIsItsAsks(catalog, es, s, id, service, origin.value); }
  }

  // ---------------------------------------------------------------- an ask

  /** The peer is verified, and the request has a message, short enough, and no unknown entry. */
  predicate Proper(service: Service, origin: Option<Origin>, request: Request) {
    && origin.Some? && request.Some?
    && (forall k :: k in request.value ==> k == "message" || k == "session_id")
    && "message" in request.value && request.value["message"].Text?
    && request.value["message"].text != "" && request.value["message"].size <= service.maxInput
  }

  /** Listed, with nobody running on it, and past its time. */
  ghost predicate Lapses(s: State, id: Id, now: real) {
    id in s.manager.sessions && !InUse(s.running, id) && s.manager.sessions[id].expires <= now
  }

  /** An ask gets as far as the clock reading if and only if it is proper and the manager accepts; it is
      then bound to its service and peer, and has to remove exactly the sessions that have lapsed. */
  lemma BeginIsScreened(catalog: Catalog, es: seq<Event>, s: State, e: Event)
    requires Reached(catalog, es, s) && e.Begin? && Legal(catalog, s, e)
    ensures var n := Step(s, e);
            && n == s.(pending := n.pending)
            && (forall t :: t != e.task ==> (t in n.pending <==> t in s.pending) && (t in s.pending ==> n.pending[t] == s.pending[t]))
            && (e.task in n.pending <==> Proper(e.service, e.origin, e.request) && s.manager.accepting)
    ensures var n := Step(s, e);
            e.task in n.pending ==>
              var p := n.pending[e.task];
              && p.bound.service == e.service && p.bound.origin == e.origin.value && p.now == e.now
              && p.argument == (if "session_id" in e.request.value then e.request.value["session_id"] else Null)
              && (forall id :: id in p.todo <==> Lapses(s, id, e.now))
  {
    ScreenPasses(s.manager, e.service, e.origin, e.request);
    forall id ensures id in Expired(s.manager, e.now) <==> Lapses(s, id, e.now) {
      if id in s.manager.sessions { SessionIsItsAsks(catalog, es, s, id, e.service, s.manager.sessions[id].binding.origin); }
    }
    assert forall id :: id in e.order <==> id in (set k | k in e.order);
  }

  lemma ScreenPasses(m: Manager, service: Service, origin: Option<Origin>, request: Request)
    ensures Screen(m, service, origin, request).None? <==> Proper(service, origin, request) && m.accepting
    ensures Screen(m, service, origin, request) == Some(VerifiedOriginRequired) <==> origin.None?
    ensures Screen(m, service, origin, request) == Some(Draining) <==> Proper(service, origin, request) && !m.accepting
  {
    if request.Some? { assert request.value.Keys <= {"message", "session_id"} <==> forall k :: k in request.value ==> k == "message" || k == "session_id"; }
  }

  /** The session an ask names: none, or one of its own service and peer, unexpired at its reading, that
      nobody runs on. */
  ghost predicate Resumable(s: State, p: Pending) {
    p.argument.Text? && 20 <= |p.argument.text| <= 128
    && var id := p.argument.text;
    && id in s.manager.sessions && !InUse(s.running, id) && p.now < s.manager.sessions[id].expires
    && Mine(s.entered, id, p.bound.service, p.bound.origin)
  }

  /** Keys with a slot in the minute before the reading. */
  function Keys(m: Manager, now: real): set<RateKey> { set k | k in m.rates && Recent(m.rates[k], now) != [] }

  predicate RateAllows(m: Manager, p: Pending) {
    var key := RateKey(p.bound.service.name, p.bound.origin);
    (key in Keys(m, p.now) || |Keys(m, p.now)| < 1024) && |Recent(StampsOf(m.rates, key), p.now)| < p.bound.service.perMinute
  }

  ghost predicate MayEnter(s: State, p: Pending) {
    && s.manager.accepting
    && (Resumable(s, p) || (p.argument.Null? && |s.manager.sessions| < 128))
    && |RunningOn(s.running, p.bound.service.name)| < p.bound.service.maxConcurrency
    && RateAllows(s.manager, p)
  }

  /** Why an ask gets no slot, if it does not. */
  ghost function Refusal(s: State, p: Pending): Option<Error> {
    var key := RateKey(p.bound.service.name, p.bound.origin);
    if !s.manager.accepting then Some(Draining)
    else if !p.argument.Null? && !Named(s, p) then Some(AccessDenied)
    else if !p.argument.Null? && InUse(s.running, p.argument.text) then Some(Busy)
    else if |RunningOn(s.running, p.bound.service.name)| >= p.bound.service.maxConcurrency then Some(ConcurrencyLimited)
    else if key !in Keys(s.manager, p.now) && |Keys(s.manager, p.now)| >= 1024 then Some(OriginCapacity)
    else if |Recent(StampsOf(s.manager.rates, key), p.now)| >= p.bound.service.perMinute then Some(RateLimited)
    else if p.argument.Null? && |s.manager.sessions| >= 128 then Some(SessionCapacity)
    else None
  }

  /** The session it names is listed, its own, and unexpired at its reading. */
  ghost predicate Named(s: State, p: Pending) {
    && p.argument.Text? && 20 <= |p.argument.text| <= 128
    && p.argument.text in s.manager.sessions && p.now < s.manager.sessions[p.argument.text].expires
    && Mine(s.entered, p.argument.text, p.bound.service, p.bound.origin)
  }

  lemma RefusalIsDue(catalog: Catalog, es: seq<Event>, s: State, p: Pending)
    requires Reached(catalog, es, s)
    ensures Checked(s.manager, p.bound, p.argument, p.now).1 == Refusal(s, p)
    ensures Refusal(s, p).None? <==> MayEnter(s, p)
  {
    DeniedIs(catalog, es, s, p);
    RatedIs(s.manager, p);
    SlotsAreTheRunningAsks(catalog, es, s, p.bound.service.name);
  }

  lemma DeniedIs(catalog: Catalog, es: seq<Event>, s: State, p: Pending)
    requires Reached(catalog, es, s)
    ensures Denied(s.manager, p.bound, p.argument, p.now) ==
            if p.argument.Null? then None
            else if !Named(s, p) then Some(AccessDenied)
            else if InUse(s.running, p.argument.text) then Some(Busy)
            else None
  {
    if p.argument.Text? && p.argument.text in s.manager.sessions {
      SessionIsItsAsks(catalog, es, s, p.argument.text, p.bound.service, p.bound.origin);
    }
  }

  lemma RatedIs(m: Manager, p: Pending)
    ensures var key := RateKey(p.bound.service.name, p.bound.origin);
            Rated(m, p.bound.service, key, p.argument.Null?, p.now).1 ==
            if key !in Keys(m, p.now) && |Keys(m, p.now)| >= 1024 then Some(OriginCapacity)
            else if |Recent(StampsOf(m.rates, key), p.now)| >= p.bound.service.perMinute then Some(RateLimited)
            else if p.argument.Null? && |m.sessions| >= 128 then Some(SessionCapacity)
            else None
  {
    var key := RateKey(p.bound.service.name, p.bound.origin);
    var rates := Trimmed(m.rates, p.now);
    assert rates.Keys == Keys(m, p.now) && |rates| == |rates.Keys|;
    assert StampsOf(rates, key) == Recent(StampsOf(m.rates, key), p.now);
  }

  /** In every reached state an ask takes a slot if and only if the manager accepts, its session may be
      resumed or a new one opened, and concurrency and rate allow it. */
  lemma EntersIff(catalog: Catalog, es: seq<Event>, s: State, task: nat, token: Id, made: Made)
    requires Reached(catalog, es, s) && Legal(catalog, s, Enter(task, token, made))
    ensures Step(s, Enter(task, token, made)).entered
         == s.entered + if MayEnter(s, s.pending[task]) then [Slot(s.pending[task], token)] else []
  {
    RefusalIsDue(catalog, es, s, s.pending[task]);
    EntersWhenChecked(s, task, token, made);
  }

  /** The slot an ask takes, if it takes one: on the session it named or on a new one. */
  function Slot(p: Pending, token: Id): Entered { Entered(if p.argument.Text? then p.argument.text else token, p.bound, p.now) }

  lemma EntersWhenChecked(s: State, task: nat, token: Id, made: Made)
    requires task in s.pending
    ensures var p := s.pending[task];
            Step(s, Enter(task, token, made)).entered
            == s.entered + if Checked(s.manager, p.bound, p.argument, p.now).1.None? then [Slot(p, token)] else []
  {}

  /** No session but this one is added, changed or removed. */
  ghost predicate OthersKept(s: State, n: State, id: Id) {
    && (forall other :: other != id ==> (other in n.manager.sessions <==> other in s.manager.sessions))
    && (forall other :: other != id && other in s.manager.sessions ==> n.manager.sessions[other] == s.manager.sessions[other])
  }

  /** With a slot it runs, on the session it named as it was or on a new one with the context made for it
      and the idle time of its service; only if no context could be made it does not. */
  lemma EnteredRuns(catalog: Catalog, es: seq<Event>, s: State, task: nat, token: Id, made: Made)
    requires Reached(catalog, es, s) && Legal(catalog, s, Enter(task, token, made)) && MayEnter(s, s.pending[task])
    ensures var p, n := s.pending[task], Step(s, Enter(task, token, made));
            var id := Slot(p, token).id;
            && n.pending == s.pending - {task} && n.cleaned == s.cleaned && n.manager.accepting
            && OthersKept(s, n, id)
            && (task in n.running <==> p.argument.Text? || !made.Failed?)
            && (task in n.running ==>
                  && n.running[task].id == id && n.running[task].bound == p.bound
                  && id in n.manager.sessions && n.manager.sessions[id].active
                  && n.manager.sessions[id].binding == p.bound
                  && (if p.argument.Text?
                      then n.manager.sessions[id].context == s.manager.sessions[id].context
                           && n.manager.sessions[id].expires == s.manager.sessions[id].expires
                      else n.manager.sessions[id].expires == p.now + p.bound.service.idle as real
                           && n.manager.sessions[id].context == if made.Made? then Some(made.context) else None))
            && (task !in n.running ==> n.manager.sessions == s.manager.sessions && n.running == s.running)
  {
    EntersIff(catalog, es, s, task, token, made);
    ReachedIsValid(catalog, es, s);
    DeniedIs(catalog, es, s, s.pending[task]);
  }

  // ---------------------------------------------------------------- leaving

  /** The runner gave a text of at most 65,536 bytes. */
  predicate Replied(ending: Ending) { ending.Reply? && ending.size.Some? && ending.size.value <= 65_536 }

  /** When the runner is done its slot is free, and its session, if still listed, is kept if and only if it
      replied and the service keeps sessions: inactive, with the runner's context, for the idle time from
      then on.  A session not kept leaves the table, a context it had goes to the cleanup; no other session
      is touched. */
  lemma LeaveKeepsIff(catalog: Catalog, es: seq<Event>, s: State, task: nat, ending: Ending)
    requires Reached(catalog, es, s) && Legal(catalog, s, Leave(task, ending))
    ensures var use, n := s.running[task], Step(s, Leave(task, ending));
            var kept := use.id in s.manager.sessions && Replied(ending) && !use.bound.service.stateless;
            && n.running == s.running - {task} && n.pending == s.pending && n.entered == s.entered
            && OthersKept(s, n, use.id)
            && (use.id in n.manager.sessions <==> kept)
            && (kept ==> n.manager.sessions[use.id] == Record(use.bound, ending.context, ending.clock + use.bound.service.idle as real, false))
    ensures var use, n := s.running[task], Step(s, Leave(task, ending));
            var handed := && use.id in s.manager.sessions && use.id !in n.manager.sessions
                          && (if ending.Reply? then ending.context else s.manager.sessions[use.id].context).Some?;
            n.cleaned == s.cleaned + if handed then [use.id] else []
  {
    ReachedIsValid(catalog, es, s);
    assert Holds(s.manager.sessions, s.running[task]);
    LeaveStep(s, task, ending);
  }

  lemma LeaveStep(s: State, task: nat, ending: Ending)
    requires task in s.running && Holds(s.manager.sessions, s.running[task])
    ensures var use, n := s.running[task], OnLeave(s, task, ending);
            var kept := Replied(ending) && !use.bound.service.stateless;
            var handed := && use.id in s.manager.sessions && !kept
                          && (if ending.Reply? then ending.context else s.manager.sessions[use.id].context).Some?;
            && n == s.(manager := n.manager, running := s.running - {task}, cleaned := s.cleaned + if handed then [use.id] else [])
            && OthersKept(s, n, use.id) && (use.id in n.manager.sessions <==> kept && use.id in s.manager.sessions)
            && (use.id in n.manager.sessions ==>
                  n.manager.sessions[use.id] == Record(use.bound, ending.context, ending.clock + use.bound.service.idle as real, false))
  {}

  /** So the peer that was answered comes back to its session: an ask that names it, with a reading before
      it expires, takes its slot there whenever rate and concurrency allow, and any other peer is refused. */
  lemma AnsweredSessionIsResumable(catalog: Catalog, es: seq<Event>, s: State, task: nat, ending: Ending, p: Pending)
    requires Reached(catalog, es, s) && Legal(catalog, s, Leave(task, ending)) && Replied(ending)
    requires var use := s.running[task];
             && !use.bound.service.stateless && use.id in s.manager.sessions && 20 <= |use.id| <= 128
             && p.argument.Text? && p.argument.text == use.id
    ensures var use, n := s.running[task], Step(s, Leave(task, ending));
            Resumable(n, p) <==> p.bound == use.bound && p.now < ending.clock + use.bound.service.idle as real
  {
    var use, n := s.running[task], Step(s, Leave(task, ending));
    LeaveKeepsIff(catalog, es, s, task, ending);
    RunIsAppended(catalog, START, es, [Leave(task, ending)]);
    assert Reached(catalog, es + [Leave(task, ending)], n);
    SessionIsItsAsks(catalog, es + [Leave(task, ending)], n, use.id, p.bound.service, p.bound.origin);
    assert p.bound == SessionBinding(p.bound.service, p.bound.origin);
  }

  // ---------------------------------------------------------------- removals and drains

  /** The session is gone, its context with the cleanup, and nothing else has changed. */
  ghost predicate OnlyRemoved(s: State, n: State, id: Id) {
    && n == s.(manager := s.manager.(sessions := s.manager.sessions - {id}), pending := n.pending, drains := n.drains, cleaned := n.cleaned)
    && n.cleaned == s.cleaned + if id in s.manager.sessions && s.manager.sessions[id].context.Some? then [id] else []
  }

  /** An ask removes the sessions on its list one by one, and so does a drain; an expiry removes its own. */
  lemma RemovalsAreSingle(catalog: Catalog, s: State, e: Event)
    requires Legal(catalog, s, e) && (e.Purge? || e.Expire? || (e.Clear? && s.drains[e.drain].todo != []))
    ensures var n := Step(s, e);
            if e.Purge? then
              var p := s.pending[e.task];
              OnlyRemoved(s, n, p.todo[0]) && n.pending == s.pending[e.task := p.(todo := p.todo[1..])] && n.drains == s.drains
            else if e.Expire? then OnlyRemoved(s, n, e.id) && n.pending == s.pending && n.drains == s.drains
            else
              var todo := s.drains[e.drain].todo;
              OnlyRemoved(s, n, todo[0]) && n.pending == s.pending && n.drains == s.drains[e.drain := Clearing(todo[1..])]
  {}

  /** A drain closes admission and waits for exactly the asks running then; when they are done it takes
      the sessions there are, and with none left it returns. */
  lemma DrainGoesOn(catalog: Catalog, s: State, e: Event)
    requires Legal(catalog, s, e) && (e.Drain? || e.Joined? || (e.Clear? && s.drains[e.drain].todo == []))
    ensures Step(s, e) ==
            if e.Drain? then
              s.(manager := s.manager.(accepting := false), drains := s.drains[e.drain := Joining(s.running.Keys)])
            else if e.Joined? then s.(drains := s.drains[e.drain := Clearing(e.order)])
            else s.(drains := s.drains[e.drain := Returned])
    ensures e.Joined? ==> s.drains[e.drain].tasks !! s.running.Keys && forall id :: id in e.order <==> id in s.manager.sessions
  {
    if e.Joined? { assert forall id :: id in e.order <==> id in (set k | k in e.order); }
  }
}
