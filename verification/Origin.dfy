/** Class OriginVerifier: the nonce table updated in place, against OriginProofs.Verify. */
module Origin {
  import opened OriginProofs

  class OriginVerifier {
    const settings: Settings
    var seen: Seen

    constructor (settings: Settings)
      ensures this.settings == settings && seen == map[]
    {
      this.settings, seen := settings, map[];
    }

    /** Delete every nonce whose expiry has passed. */
    method Purge(now: real)
      modifies this
      ensures seen == Purged(old(seen), now)
    {
      ghost var was := seen;
      var items := seen.Keys;
      while items != {}
        invariant items <= was.Keys && seen.Keys <= was.Keys
        invariant forall n :: n in was ==> (n in seen <==> n in items || now <= was[n] as real)
        invariant forall n :: n in seen ==> seen[n] == was[n]
      {
        var nonce :| nonce in items;
        if (seen[nonce] as real) < now { seen := seen - {nonce}; }
        items := items - {nonce};
      }
    }

    method Verify(r: Request) returns (verdict: Verdict)
      modifies this
      ensures (seen, verdict) == OriginProofs.Verify(settings, old(seen), r)
    {
      if r.proof.None? { return Invalid; }
      var c := r.proof.value;
      if !PeerOk(c.peer) || !NonceOk(c.nonce) { return Invalid; }
      if c.audience != settings.challenge || c.service != r.service || c.httpMethod != r.httpMethod
         || c.path != r.path || c.body.preimage != r.body {
        return Invalid;
      }
      var age := r.now - c.at as real;
      if age < -SKEW || (WINDOW as real) < age { return Expired; }
      Purge(r.now);
      if c.nonce in seen { return Replay; }
      if |seen| >= settings.capacity { return Capacity; }
      seen := seen[c.nonce := c.at + 30];
      return Accepted(OriginOf(settings.boundary, c));
    }
  }
}
