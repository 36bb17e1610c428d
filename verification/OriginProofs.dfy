/** OriginVerifier: a freshness window and a bounded table of seen nonces.

    The signature check and the decoding of a proof are outside the model: a proof arrives as the
    claims its valid signature covers, or as None. */
module OriginProofs {
  import opened Domain
  import opened SetFacts

  const WINDOW := 30
  const SKEW := 5.0

  datatype Claims = Claims(audience: string, peer: string, service: string, httpMethod: string, path: string,
                           body: Digest<string>, at: int, nonce: string)

  datatype Origin = Origin(peer: string, boundary: string)

  datatype Request = Request(proof: Option<Claims>, service: string, httpMethod: string, path: string,
                             body: string, now: real)

  datatype Verdict = Invalid | Expired | Replay | Capacity | Accepted(origin: Option<Origin>)

  predicate Base58(c: char) {
    '1' <= c <= '9' || ('A' <= c <= 'Z' && c != 'I' && c != 'O') || ('a' <= c <= 'z' && c != 'l')
  }

  predicate UrlSafe(c: char) { 'A' <= c <= 'Z' || 'a' <= c <= 'z' || '0' <= c <= '9' || c == '_' || c == '-' }

  predicate PeerOk(peer: string) { peer == "" || (32 <= |peer| <= 128 && forall c :: c in peer ==> Base58(c)) }

  predicate NonceOk(nonce: string) { |nonce| == 32 && forall c :: c in nonce ==> UrlSafe(c) }

  /** The claims are well formed and are about this very request and this verifier's challenge. */
  predicate Matches(challenge: string, r: Request) {
    && r.proof.Some?
    && var c := r.proof.value;
    && PeerOk(c.peer) && NonceOk(c.nonce)
    && c == Claims(challenge, c.peer, r.service, r.httpMethod, r.path, Digest(r.body), c.at, c.nonce)
  }

  predicate Fresh(at: int, now: real) { -SKEW <= now - at as real <= WINDOW as real }

  type Seen = map<string, int>

  /** A nonce stays as long as its proof could still be fresh. */
  function Purged(seen: Seen, now: real): Seen { map n | n in seen && now <= seen[n] as real :: seen[n] }

  function OriginOf(boundary: string, c: Claims): Option<Origin> {
    if c.peer == "" then None else Some(Origin(c.peer, boundary))
  }

  datatype Settings = Settings(challenge: string, boundary: string, capacity: nat)

  function Verify(cfg: Settings, seen: Seen, r: Request): (Seen, Verdict) {
    if !Matches(cfg.challenge, r) then (seen, Invalid)
    else
      var c := r.proof.value;
      if !Fresh(c.at, r.now) then (seen, Expired)
      else
        var kept := Purged(seen, r.now);
        if c.nonce in kept then (kept, Replay)
        else if |kept| >= cfg.capacity then (kept, Capacity)
        else (kept[c.nonce := c.at + WINDOW], Accepted(OriginOf(cfg.boundary, c)))
  }

  // ---------------------------------------------------------------- the unbounded reference

  /** Nonces of accepted proofs that could still be fresh. */
  function Unexpired(history: seq<Claims>, now: real): set<string> {
    set c | c in history && now <= (c.at + WINDOW) as real :: c.nonce
  }

  /** What a verifier that forgets nothing answers. */
  function Reference(cfg: Settings, history: seq<Claims>, r: Request): Verdict {
    if !Matches(cfg.challenge, r) then Invalid
    else if !Fresh(r.proof.value.at, r.now) then Expired
    else if r.proof.value.nonce in Unexpired(history, r.now) then Replay
    else if |Unexpired(history, r.now)| >= cfg.capacity then Capacity
    else Accepted(OriginOf(cfg.boundary, r.proof.value))
  }

  /** The verifier with the history of what it accepted; `purged` is when it last purged. */
  datatype State = State(seen: Seen, history: seq<Claims>, purged: real)

  function Step(cfg: Settings, s: State, r: Request): State {
    var x := Verify(cfg, s.seen, r);
    match x.1
    case Invalid => s
    case Expired => s
    case Accepted(_) => State(x.0, s.history + [r.proof.value], r.now)
    case _ => State(x.0, s.history, r.now)
  }

  function Run(cfg: Settings, s: State, rs: seq<Request>): State
    decreases |rs|
  {
    if rs == [] then s else Run(cfg, Step(cfg, s, rs[0]), rs[1..])
  }

  predicate Clocked(rs: seq<Request>, from: real)
    decreases |rs|
  {
    rs == [] || (from <= rs[0].now && Clocked(rs[1..], rs[0].now))
  }

  ghost predicate Stamped(history: seq<Claims>, nonce: string, expiry: int) {
    exists c :: c in history && c.nonce == nonce && c.at + WINDOW == expiry
  }

  /** An accepted proof still unexpired at the last purge has its entry. */
  predicate Remembered(seen: Seen, c: Claims, purged: real) {
    purged <= (c.at + WINDOW) as real ==> c.nonce in seen && seen[c.nonce] == c.at + WINDOW
  }

  /** The table holds exactly the accepted proofs that were unexpired at the last purge. */
  ghost predicate Inv(cfg: Settings, s: State) {
    && |s.seen| <= cfg.capacity
    && (forall c :: c in s.history ==> Remembered(s.seen, c, s.purged))
    && (forall n :: n in s.seen ==> Stamped(s.history, n, s.seen[n]))
  }

  lemma PurgedIsUnexpired(cfg: Settings, s: State, now: real)
    requires Inv(cfg, s) && s.purged <= now
    ensures Purged(s.seen, now).Keys == Unexpired(s.history, now)
    ensures |Purged(s.seen, now)| == |Unexpired(s.history, now)| <= |s.seen|
  {
    var kept := Purged(s.seen, now);
    forall c | c in s.history && now <= (c.at + WINDOW) as real ensures c.nonce in kept {
      assert Remembered(s.seen, c, s.purged);
    }
    forall n ensures n in kept <==> n in Unexpired(s.history, now) {
      if n in kept {
        assert Stamped(s.history, n, s.seen[n]);
      }
    }
    assert |kept| == |kept.Keys|;
    SubsetSize(kept.Keys, s.seen.Keys);
  }

  function Cleaned(s: State, now: real): State { State(Purged(s.seen, now), s.history, now) }

  lemma PurgeKeepsInv(cfg: Settings, s: State, now: real)
    requires Inv(cfg, s) && s.purged <= now
    ensures Inv(cfg, Cleaned(s, now))
  {
    PurgedIsUnexpired(cfg, s, now);
    forall c | c in s.history ensures Remembered(Purged(s.seen, now), c, now) {
      assert Remembered(s.seen, c, s.purged);
    }
  }

  lemma AcceptKeepsInv(cfg: Settings, s: State, c: Claims)
    requires Inv(cfg, s) && c.nonce !in s.seen && |s.seen| < cfg.capacity
    ensures Inv(cfg, State(s.seen[c.nonce := c.at + WINDOW], s.history + [c], s.purged))
  {
    var seen, history := s.seen[c.nonce := c.at + WINDOW], s.history + [c];
    assert c in history;
    forall d | d in history ensures Remembered(seen, d, s.purged) {
      if d != c { assert Remembered(s.seen, d, s.purged); }
    }
    forall n | n in seen ensures Stamped(history, n, seen[n]) {
      if n != c.nonce {
        assert Stamped(s.history, n, s.seen[n]);
        var d :| d in s.history && d.nonce == n && d.at + WINDOW == s.seen[n];
        assert d in history;
      }
    }
  }

  lemma StepCases(cfg: Settings, s: State, r: Request)
    ensures var n := Step(cfg, s, r);
            var kept := Purged(s.seen, r.now);
            || n == s
            || n == Cleaned(s, r.now)
            || (&& r.proof.Some?
                && var c := r.proof.value;
                && c.nonce !in kept && |kept| < cfg.capacity
                && n == State(kept[c.nonce := c.at + WINDOW], s.history + [c], r.now))
  {}

  lemma AfterPurgeKeepsInv(cfg: Settings, s: State, n: State, r: Request)
    requires Inv(cfg, s) && s.purged <= r.now && r.proof.Some?
    requires var kept, c := Purged(s.seen, r.now), r.proof.value;
             c.nonce !in kept && |kept| < cfg.capacity && n == State(kept[c.nonce := c.at + WINDOW], s.history + [c], r.now)
    ensures Inv(cfg, n)
  {
    PurgeKeepsInv(cfg, s, r.now);
    AcceptKeepsInv(cfg, Cleaned(s, r.now), r.proof.value);
  }

  lemma StepKeepsInv(cfg: Settings, s: State, r: Request)
    requires Inv(cfg, s) && s.purged <= r.now
    ensures Inv(cfg, Step(cfg, s, r)) && Step(cfg, s, r).purged <= r.now
  {
    StepCases(cfg, s, r);
    var n := Step(cfg, s, r);
    if n == Cleaned(s, r.now) {
      PurgeKeepsInv(cfg, s, r.now);
    } else if n != s {
      AfterPurgeKeepsInv(cfg, s, n, r);
    }
  }

  /** While the clock does not go back, the bounded table answers as the unbounded history would:
      in particular a fresh proof not seen before is refused only when `capacity` many accepted
      proofs are still unexpired. */
  lemma TableRefinesHistory(cfg: Settings, s: State, r: Request)
    requires Inv(cfg, s) && s.purged <= r.now
    ensures Verify(cfg, s.seen, r).1 == Reference(cfg, s.history, r)
  {
    PurgedIsUnexpired(cfg, s, r.now);
  }

  lemma {:induction false} RunKeepsInv(cfg: Settings, s: State, rs: seq<Request>)
    requires Inv(cfg, s) && Clocked(rs, s.purged)
    ensures Inv(cfg, Run(cfg, s, rs))
    decreases |rs|
  {
    if rs != [] {
      StepKeepsInv(cfg, s, rs[0]);
      ClockedFromEarlier(rs[1..], rs[0].now, Step(cfg, s, rs[0]).purged);
      RunKeepsInv(cfg, Step(cfg, s, rs[0]), rs[1..]);
    }
  }

  /** The last purge is no later than the last request, and nothing accepted is forgotten. */
  lemma {:induction false} RunGoesOn(cfg: Settings, s: State, rs: seq<Request>)
    requires Clocked(rs, s.purged)
    ensures Run(cfg, s, rs).purged <= if rs == [] then s.purged else rs[|rs| - 1].now
    ensures s.history <= Run(cfg, s, rs).history
    decreases |rs|
  {
    if rs != [] {
      var n := Step(cfg, s, rs[0]);
      assert s.history <= n.history;
      ClockedFromEarlier(rs[1..], rs[0].now, n.purged);
      RunGoesOn(cfg, n, rs[1..]);
    }
  }

  lemma {:induction false} ClockedFromEarlier(rs: seq<Request>, from: real, earlier: real)
    requires Clocked(rs, from) && earlier <= from
    ensures Clocked(rs, earlier)
  {}

  function Start(now: real): State { State(map[], [], now) }

  /** The table never outgrows its capacity and, whatever came before, answers for the history. */
  lemma {:induction false} BoundedTableIsExact(cfg: Settings, start: real, rs: seq<Request>, r: Request)
    requires Clocked(rs, start) && start <= r.now && (rs != [] ==> rs[|rs| - 1].now <= r.now)
    ensures var s := Run(cfg, Start(start), rs);
            |s.seen| <= cfg.capacity && Verify(cfg, s.seen, r).1 == Reference(cfg, s.history, r)
  {
    RunKeepsInv(cfg, Start(start), rs);
    RunGoesOn(cfg, Start(start), rs);
    TableRefinesHistory(cfg, Run(cfg, Start(start), rs), r);
  }

  lemma KnownIsNotAccepted(cfg: Settings, s: State, c: Claims, again: Request)
    requires Inv(cfg, s) && s.purged <= again.now && c in s.history && again.proof == Some(c)
    ensures !Verify(cfg, s.seen, again).1.Accepted?
  {
    PurgedIsUnexpired(cfg, s, again.now);
    assert again.now <= (c.at + WINDOW) as real ==> c.nonce in Unexpired(s.history, again.now);
  }

  /** Accepted claims are never accepted again. */
  lemma {:induction false} NoReplay(cfg: Settings, start: real, before: seq<Request>, first: Request, between: seq<Request>, again: Request)
    requires Clocked(before, start) && (if before == [] then start else before[|before| - 1].now) <= first.now
    requires Clocked(between, first.now) && (if between == [] then first.now else between[|between| - 1].now) <= again.now
    requires Verify(cfg, Run(cfg, Start(start), before).seen, first).1.Accepted?
    requires again.proof == first.proof
    ensures var s := Run(cfg, Step(cfg, Run(cfg, Start(start), before), first), between);
            !Verify(cfg, s.seen, again).1.Accepted?
  {
    var s0 := Run(cfg, Start(start), before);
    RunKeepsInv(cfg, Start(start), before);
    RunGoesOn(cfg, Start(start), before);
    StepKeepsInv(cfg, s0, first);
    var s1 := Step(cfg, s0, first);
    ClockedFromEarlier(between, first.now, s1.purged);
    RunKeepsInv(cfg, s1, between);
    RunGoesOn(cfg, s1, between);
    var s2 := Run(cfg, s1, between);
    assert first.proof.value == s1.history[|s0.history|] && s1.history <= s2.history;
    KnownIsNotAccepted(cfg, s2, first.proof.value, again);
  }

  // ---------------------------------------------------------------- what an accepted proof says

  /** The character classes as the patterns write them. */
  predicate PeerChar(c: char) {
    '1' <= c <= '9' || 'A' <= c <= 'H' || 'J' <= c <= 'N' || 'P' <= c <= 'Z' || 'a' <= c <= 'k' || 'm' <= c <= 'z'
  }

  predicate NonceChar(c: char) { 'A' <= c <= 'Z' || 'a' <= c <= 'z' || '0' <= c <= '9' || c == '_' || c == '-' }

  /** The claims are those of this very request, made for this verifier, by nobody named or by a peer
      with a well-formed name. */
  predicate Speaks(cfg: Settings, r: Request) {
    && r.proof.Some?
    && var c := r.proof.value;
    && c.audience == cfg.challenge && c.service == r.service && c.httpMethod == r.httpMethod && c.path == r.path
    && c.body.preimage == r.body
    && (c.peer == "" || (32 <= |c.peer| <= 128 && forall i :: 0 <= i < |c.peer| ==> PeerChar(c.peer[i])))
    && |c.nonce| == 32 && (forall i :: 0 <= i < |c.nonce| ==> NonceChar(c.nonce[i]))
  }

  /** They are at most 30 seconds old, and at most 5 seconds ahead of the clock. */
  predicate Timely(c: Claims, now: real) { c.at as real - 5.0 <= now <= c.at as real + 30.0 }

  lemma PeerCharsIff(s: string)
    ensures (forall i :: 0 <= i < |s| ==> PeerChar(s[i])) <==> (forall c :: c in s ==> Base58(c))
  {
    if forall c :: c in s ==> Base58(c) { assert forall i :: 0 <= i < |s| ==> s[i] in s; }
    if forall i :: 0 <= i < |s| ==> PeerChar(s[i]) {
      forall c | c in s ensures Base58(c) { var i :| 0 <= i < |s| && s[i] == c; assert PeerChar(s[i]); }
    }
  }

  lemma NonceCharsIff(s: string)
    ensures (forall i :: 0 <= i < |s| ==> NonceChar(s[i])) <==> (forall c :: c in s ==> UrlSafe(c))
  {
    if forall c :: c in s ==> UrlSafe(c) { assert forall i :: 0 <= i < |s| ==> s[i] in s; }
    if forall i :: 0 <= i < |s| ==> NonceChar(s[i]) {
      forall c | c in s ensures UrlSafe(c) { var i :| 0 <= i < |s| && s[i] == c; assert NonceChar(s[i]); }
    }
  }

  lemma SpeaksIff(cfg: Settings, r: Request)
    ensures Speaks(cfg, r) <==> Matches(cfg.challenge, r)
    ensures Speaks(cfg, r) ==> (Timely(r.proof.value, r.now) <==> Fresh(r.proof.value.at, r.now))
  {
    if r.proof.Some? {
      PeerCharsIff(r.proof.value.peer);
      NonceCharsIff(r.proof.value.nonce);
    }
  }

  /** What is answered after any run with a clock that does not go back: accepted, for the peer it names,
      if and only if the proof speaks for this request in time, no accepted proof that could still be fresh
      has its nonce, and such proofs hold fewer nonces than the capacity; else the first reason of these. */
  lemma {:induction false} VerdictIsDue(cfg: Settings, start: real, rs: seq<Request>, r: Request, held: set<string>)
    requires Clocked(rs, start) && start <= r.now && (rs != [] ==> rs[|rs| - 1].now <= r.now)
    requires forall n :: n in held <==> Held(Run(cfg, Start(start), rs).history, n, r.now)
    ensures Verify(cfg, Run(cfg, Start(start), rs).seen, r).1 ==
            if !Speaks(cfg, r) then Invalid
            else if !Timely(r.proof.value, r.now) then Expired
            else if r.proof.value.nonce in held then Replay
            else if |held| >= cfg.capacity then Capacity
            else Accepted(if r.proof.value.peer == "" then None else Some(Origin(r.proof.value.peer, cfg.boundary)))
  {
    BoundedTableIsExact(cfg, start, rs, r);
    SpeaksIff(cfg, r);
    assert held == Unexpired(Run(cfg, Start(start), rs).history, r.now);
  }

  ghost predicate Held(history: seq<Claims>, nonce: string, now: real) {
    exists c :: c in history && c.nonce == nonce && now <= c.at as real + 30.0
  }

  /** The history is that of the proofs accepted, in order. */
  function AcceptedIn(cfg: Settings, s: State, rs: seq<Request>): seq<Claims>
    decreases |rs|
  {
    if rs == [] then []
    else (if Verify(cfg, s.seen, rs[0]).1.Accepted? then [rs[0].proof.value] else []) + AcceptedIn(cfg, Step(cfg, s, rs[0]), rs[1..])
  }

  lemma {:induction false} HistoryIsWhatWasAccepted(cfg: Settings, s: State, rs: seq<Request>)
    ensures Run(cfg, s, rs).history == s.history + AcceptedIn(cfg, s, rs)
    decreases |rs|
  {
    if rs != [] { HistoryIsWhatWasAccepted(cfg, Step(cfg, s, rs[0]), rs[1..]); }
  }

  /** A purge drops only nonces whose proof is stale from then on. */
  lemma PurgeDropsOnlyStale(seen: Seen, c: Claims, now: real, later: real)
    requires c.nonce in seen && seen[c.nonce] == c.at + WINDOW && c.nonce !in Purged(seen, now) && now <= later
    ensures !Fresh(c.at, later)
  {}

  // ---------------------------------------------------------------- whatever the clock does

  /** A request that gets as far as the purge. */
  predicate Purges(cfg: Settings, r: Request) { Matches(cfg.challenge, r) && Fresh(r.proof.value.at, r.now) }

  /** No request of the run is accepted under this nonce. */
  predicate NotAccepted(cfg: Settings, s: State, rs: seq<Request>, nonce: string)
    decreases |rs|
  {
    rs == [] ||
    (&& !(Verify(cfg, s.seen, rs[0]).1.Accepted? && rs[0].proof.value.nonce == nonce)
     && NotAccepted(cfg, Step(cfg, s, rs[0]), rs[1..], nonce))
  }

  predicate InTime(cfg: Settings, r: Request, expiry: int) { Purges(cfg, r) ==> r.now <= expiry as real }

  predicate NoPurgePast(cfg: Settings, rs: seq<Request>, expiry: int) {
    forall i :: 0 <= i < |rs| ==> InTime(cfg, rs[i], expiry)
  }

  predicate Holds(seen: Seen, nonce: string, expiry: int) { nonce in seen && seen[nonce] == expiry }

  lemma OneStepHolds(cfg: Settings, s: State, r: Request, nonce: string, expiry: int)
    requires !(Verify(cfg, s.seen, r).1.Accepted? && r.proof.value.nonce == nonce)
    ensures var n := Step(cfg, s, r);
            if Holds(s.seen, nonce, expiry)
            then (nonce in n.seen) == Holds(n.seen, nonce, expiry) == InTime(cfg, r, expiry)
            else nonce !in s.seen ==> nonce !in n.seen
  {
    if Purges(cfg, r) {
      assert Step(cfg, s, r).seen == Verify(cfg, s.seen, r).0;
    } else {
      assert Step(cfg, s, r) == s;
    }
  }

  lemma FirstAndRest(cfg: Settings, rs: seq<Request>, expiry: int)
    requires rs != []
    ensures NoPurgePast(cfg, rs, expiry) <==> InTime(cfg, rs[0], expiry) && NoPurgePast(cfg, rs[1..], expiry)
  {
    if InTime(cfg, rs[0], expiry) && NoPurgePast(cfg, rs[1..], expiry) {
      forall i | 0 <= i < |rs| ensures InTime(cfg, rs[i], expiry) {
        if i > 0 { assert InTime(cfg, rs[1..][i - 1], expiry); }
      }
    } else if NoPurgePast(cfg, rs, expiry) {
      forall i | 0 <= i < |rs| - 1 ensures InTime(cfg, rs[1..][i], expiry) { assert InTime(cfg, rs[i + 1], expiry); }
    }
  }

  lemma {:induction false} ForgottenStays(cfg: Settings, s: State, rs: seq<Request>, nonce: string)
    requires nonce !in s.seen && NotAccepted(cfg, s, rs, nonce)
    ensures nonce !in Run(cfg, s, rs).seen
    decreases |rs|
  {
    if rs != [] {
      OneStepHolds(cfg, s, rs[0], nonce, 0);
      ForgottenStays(cfg, Step(cfg, s, rs[0]), rs[1..], nonce);
    }
  }

  /** Under any clock, an accepted nonce is remembered exactly until a purge reads past its expiry. */
  lemma {:induction false} RememberedIff(cfg: Settings, s: State, rs: seq<Request>, nonce: string, expiry: int)
    requires Holds(s.seen, nonce, expiry) && NotAccepted(cfg, s, rs, nonce)
    ensures Holds(Run(cfg, s, rs).seen, nonce, expiry) <==> nonce in Run(cfg, s, rs).seen
    ensures nonce in Run(cfg, s, rs).seen <==> NoPurgePast(cfg, rs, expiry)
    decreases |rs|
  {
    if rs != [] {
      var n := Step(cfg, s, rs[0]);
      OneStepHolds(cfg, s, rs[0], nonce, expiry);
      FirstAndRest(cfg, rs, expiry);
      if nonce in n.seen {
        RememberedIff(cfg, n, rs[1..], nonce, expiry);
      } else {
        ForgottenStays(cfg, n, rs[1..], nonce);
      }
    }
  }

  /** Whatever the clock does between the last acceptance of a proof and a repeat that is still fresh,
      the repeat is answered Replay exactly if no purge in between read past the expiry. */
  lemma {:induction false} ReplayIsCaughtIff(cfg: Settings, s: State, first: Request, between: seq<Request>, again: Request)
    requires Verify(cfg, s.seen, first).1.Accepted? && again.proof == first.proof && Purges(cfg, again)
    requires NotAccepted(cfg, Step(cfg, s, first), between, first.proof.value.nonce)
    ensures var n := Run(cfg, Step(cfg, s, first), between);
            var verdict := Verify(cfg, n.seen, again).1;
            && (verdict == Replay <==> NoPurgePast(cfg, between, first.proof.value.at + WINDOW))
            && (verdict == Replay || verdict == Capacity || verdict.Accepted?)
  {
    var c := first.proof.value;
    RememberedIff(cfg, Step(cfg, s, first), between, c.nonce, c.at + WINDOW);
  }

  /** The clock assumption is needed: set back after a purge, it lets the same proof through again. */
  lemma {:induction false} ClockSetBackReplays(cfg: Settings, r: Request, other: Request)
    requires Matches(cfg.challenge, r) && Matches(cfg.challenge, other) && r.proof.value.nonce != other.proof.value.nonce
    requires cfg.capacity >= 2 && r.now == r.proof.value.at as real
    requires other.now == other.proof.value.at as real && other.now > r.now + WINDOW as real
    ensures var s := Run(cfg, Start(r.now), [r, other]);
            s.history == [r.proof.value, other.proof.value] && Verify(cfg, s.seen, r).1.Accepted?
  {
    var s1 := Step(cfg, Start(r.now), r);
    assert Run(cfg, Start(r.now), [r, other]) == Run(cfg, s1, [other]) == Step(cfg, s1, other);
    assert Purged(s1.seen, other.now) == map[];
    var s2 := Step(cfg, s1, other);
    assert s2.seen == map[other.proof.value.nonce := other.proof.value.at + WINDOW];
    assert Purged(s2.seen, r.now) == s2.seen && |s2.seen| == 1;
  }
}
