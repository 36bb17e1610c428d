/** How a response is split into parts does not change what the probe reports, as long as it holds no
    CR CR LF and is within the size limit. CR CR LF is what replacing CRLF by LF leaves unfinished. */
module ProbeFragments {
  import opened Probe

  predicate CrLfAt(s: Bytes, i: nat)
    requires i + 1 < |s|
  {
    s[i] == CR && s[i + 1] == LF
  }

  predicate CrCrLfAt(s: Bytes, i: nat)
    requires i + 2 < |s|
  {
    s[i] == CR && s[i + 1] == CR && s[i + 2] == LF
  }

  /** Nothing left to normalise. */
  predicate Plain(s: Bytes) { forall i :: 0 <= i < |s| - 1 ==> !CrLfAt(s, i) }

  predicate NoCrCrLf(s: Bytes) { forall i :: 0 <= i < |s| - 2 ==> !CrCrLfAt(s, i) }

  predicate EndsInCr(s: Bytes) { s != [] && s[|s| - 1] == CR }

  /** The text without the CRs at its end: the LF of the last may be still to come. */
  function Core(s: Bytes): Bytes { if EndsInCr(s) then Core(s[..|s| - 1]) else s }

  /** The CRs at its end. */
  function Tail(s: Bytes): Bytes { if EndsInCr(s) then Tail(s[..|s| - 1]) + [CR] else [] }

  predicate OnlyCrs(s: Bytes) { forall i :: 0 <= i < |s| ==> s[i] == CR }

  function Joined(parts: seq<Bytes>): Bytes { if parts == [] then [] else parts[0] + Joined(parts[1..]) }

  // ---------------------------------------------------------------- normal form

  lemma {:induction false} NormAppends(x: Bytes, y: Bytes)
    requires !EndsInCr(x)
    ensures Norm(x + y) == Norm(x) + Norm(y)
    decreases |x|
  {
    if x == [] {
      assert x + y == y;
    } else {
      var k := if |x| >= 2 && x[0] == CR && x[1] == LF then 2 else 1;
      assert (x + y)[k..] == x[k..] + y;
      NormAppends(x[k..], y);
    }
  }

  lemma PlainSuffix(s: Bytes, k: nat)
    requires k <= |s|
    ensures Plain(s) ==> Plain(s[k..])
    ensures NoCrCrLf(s) ==> NoCrCrLf(s[k..])
  {
    if Plain(s) {
      forall i: nat | i < |s[k..]| - 1 ensures !CrLfAt(s[k..], i) { assert !CrLfAt(s, k + i); }
    }
    if NoCrCrLf(s) {
      forall i: nat | i < |s[k..]| - 2 ensures !CrCrLfAt(s[k..], i) { assert !CrCrLfAt(s, k + i); }
    }
  }

  lemma PrefixHasNoCrCrLf(x: Bytes, y: Bytes)
    requires NoCrCrLf(x + y)
    ensures NoCrCrLf(x)
  {
    forall i: nat | i < |x| - 2 ensures !CrCrLfAt(x, i) { assert !CrCrLfAt(x + y, i); }
  }

  lemma {:induction false} NormKeepsPlain(s: Bytes)
    requires Plain(s)
    ensures Norm(s) == s
  {
    if s != [] {
      assert |s| >= 2 ==> !CrLfAt(s, 0);
      PlainSuffix(s, 1);
      NormKeepsPlain(s[1..]);
    }
  }

  /** A CR before plain text stays plain unless an LF follows. */
  lemma PlainAfter(b: byte, t: Bytes)
    requires Plain(t) && !(b == CR && t != [] && t[0] == LF)
    ensures Plain([b] + t)
  {
    var s := [b] + t;
    forall i: nat | i < |s| - 1 ensures !CrLfAt(s, i) {
      if i > 0 { assert !CrLfAt(t, i - 1); }
    }
  }

  lemma {:induction false} NormIsPlain(s: Bytes)
    requires NoCrCrLf(s)
    ensures Plain(Norm(s))
    decreases |s|
  {
    if s == [] {
    } else if |s| >= 2 && s[0] == CR && s[1] == LF {
      PlainSuffix(s, 2);
      NormIsPlain(s[2..]);
      PlainAfter(LF, Norm(s[2..]));
    } else {
      PlainSuffix(s, 1);
      NormIsPlain(s[1..]);
      assert |s| >= 3 ==> !CrCrLfAt(s, 0);
      PlainAfter(s[0], Norm(s[1..]));
    }
  }

  lemma {:induction false} NormLeavesCrLf(s: Bytes)
    requires !NoCrCrLf(s)
    ensures !Plain(Norm(s))
    decreases |s|
  {
    var k :| 0 <= k < |s| - 2 && CrCrLfAt(s, k);
    var t := Norm(s);
    if s[0] == CR && s[1] == LF {
      assert CrCrLfAt(s[2..], k - 2);
      NormLeavesCrLf(s[2..]);
      PlainSuffix(t, 1);
      assert t[1..] == Norm(s[2..]);
    } else if k == 0 {
      assert t[1..] == Norm(s[1..]) && s[1..][0] == CR && s[1..][1] == LF;
      assert CrLfAt(t, 0);
    } else {
      assert CrCrLfAt(s[1..], k - 1);
      NormLeavesCrLf(s[1..]);
      PlainSuffix(t, 1);
      assert t[1..] == Norm(s[1..]);
    }
  }

  lemma {:induction false} NormShortens(s: Bytes)
    requires !Plain(s)
    ensures |Norm(s)| < |s|
    decreases |s|
  {
    var k :| 0 <= k < |s| - 1 && CrLfAt(s, k);
    if !(s[0] == CR && s[1] == LF) {
      assert CrLfAt(s[1..], k - 1);
      NormShortens(s[1..]);
    }
  }

  /** Replacing CRLF by LF once is enough exactly if there is no CR CR LF. */
  lemma {:induction false} NormIsStableIff(s: Bytes)
    ensures Norm(Norm(s)) == Norm(s) <==> NoCrCrLf(s)
  {
    if NoCrCrLf(s) {
      NormIsPlain(s);
      NormKeepsPlain(Norm(s));
    } else {
      NormLeavesCrLf(s);
      NormShortens(Norm(s));
    }
  }

  // ---------------------------------------------------------------- the CRs at the end

  lemma {:induction false} CoreAndTail(s: Bytes)
    ensures s == Core(s) + Tail(s) && !EndsInCr(Core(s)) && OnlyCrs(Tail(s))
  {
    if EndsInCr(s) {
      CoreAndTail(s[..|s| - 1]);
      assert s == s[..|s| - 1] + [CR];
    } else {
      assert s + [] == s;
    }
  }

  lemma {:induction false} CoreOfCrs(x: Bytes, t: Bytes)
    requires !EndsInCr(x) && OnlyCrs(t)
    ensures Core(x + t) == x && Tail(x + t) == t
    decreases |t|
  {
    if t == [] {
      assert x + t == x;
    } else {
      var u := t[..|t| - 1];
      assert (x + t)[..|x + t| - 1] == x + u && t == u + [CR];
      CoreOfCrs(x, u);
    }
  }

  lemma {:induction false} CoreOfConcat(x: Bytes, y: Bytes)
    requires !EndsInCr(x)
    ensures Core(x + y) == x + Core(y) && Tail(x + y) == Tail(y)
  {
    CoreAndTail(y);
    assert x + y == x + Core(y) + Tail(y);
    if Core(y) != [] { assert (x + Core(y))[|x + Core(y)| - 1] == Core(y)[|Core(y)| - 1]; }
    CoreOfCrs(x + Core(y), Tail(y));
  }

  lemma {:induction false} CrsArePlain(t: Bytes)
    requires OnlyCrs(t)
    ensures Plain(t) && Norm(t) == t
  {
    NormKeepsPlain(t);
  }

  lemma {:induction false} CoreIsPlain(s: Bytes)
    requires NoCrCrLf(s)
    ensures Norm(s) == Norm(Core(s)) + Tail(s) && Plain(Norm(Core(s)))
  {
    CoreAndTail(s);
    PrefixHasNoCrCrLf(Core(s), Tail(s));
    NormIsPlain(Core(s));
    CrsArePlain(Tail(s));
    NormAppends(Core(s), Tail(s));
  }

  lemma {:induction false} NormEndsPlain(s: Bytes)
    requires !EndsInCr(s)
    ensures !EndsInCr(Norm(s))
    decreases |s|
  {
    if s != [] {
      if |s| >= 2 && s[0] == CR && s[1] == LF { NormEndsPlain(s[2..]); } else { NormEndsPlain(s[1..]); }
    }
  }

  /** What more bytes add to the normal form of the core. */
  function Added(x: Bytes, y: Bytes): Bytes { Norm(Core(Tail(x) + y)) }

  lemma {:induction false} CoreSplits(x: Bytes, y: Bytes)
    ensures !EndsInCr(Core(x))
    ensures Core(x + y) == Core(x) + Core(Tail(x) + y) && Tail(x + y) == Tail(Tail(x) + y)
  {
    CoreAndTail(x);
    var core, end := Core(x), Tail(x) + y;
    assert x + y == core + end by { assert x == core + Tail(x); }
    CoreOfConcat(core, end);
  }

  lemma {:induction false} CoreGrows(x: Bytes, y: Bytes)
    ensures Norm(Core(x + y)) == Norm(Core(x)) + Added(x, y) && Tail(x + y) == Tail(Tail(x) + y)
  {
    CoreSplits(x, y);
    NormAppends(Core(x), Core(Tail(x) + y));
  }

  // ---------------------------------------------------------------- taking events from normal text

  /** `Drain` on text where nothing is left to normalise. */
  function Take(s: Bytes, p: Progress, judge: Judge): (Bytes, Progress)
    decreases |s|
  {
    var i := Break(s);
    if p.Failed? || i < 0 then (s, p) else Take(s[i + 2..], Handle(p, s[..i], judge), judge)
  }

  /** A blank line is found where it was, and CRs at the end make none. */
  lemma {:induction false} BreakStays(s: Bytes, t: Bytes)
    ensures Break(s) >= 0 ==> Break(s + t) == Break(s)
    ensures OnlyCrs(t) ==> Break(s + t) == Break(s)
    decreases |s|
  {
    if |s| >= 1 {
      assert (s + t)[1..] == s[1..] + t;
      BreakStays(s[1..], t);
    } else {
      assert s + t == t;
      CrsBreakNothing(t);
    }
  }

  lemma {:induction false} CrsBreakNothing(t: Bytes)
    ensures OnlyCrs(t) ==> Break(t) == -1
  {
    if |t| >= 2 { CrsBreakNothing(t[1..]); }
  }

  lemma {:induction false} TakeAppends(s: Bytes, t: Bytes, p: Progress, judge: Judge)
    ensures Take(s + t, p, judge) == Take(Take(s, p, judge).0 + t, Take(s, p, judge).1, judge)
    decreases |s|
  {
    var i := Break(s);
    if !p.Failed? && i >= 0 {
      var rest, next := s[i + 2..], Handle(p, s[..i], judge);
      BreakStays(s, t);
      assert (s + t)[..i] == s[..i] && (s + t)[i + 2..] == rest + t;
      assert Take(s + t, p, judge) == Take(rest + t, next, judge);
      assert Take(s, p, judge) == Take(rest, next, judge);
      TakeAppends(rest, t, next, judge);
    }
  }

  lemma {:induction false} PlainFront(n: Bytes, t: Bytes)
    requires Plain(n) && !EndsInCr(n) && OnlyCrs(t)
    ensures var i := Break(n);
            && Break(n + t) == i
            && (i >= 0 ==> (n + t)[..i] == n[..i] && (n + t)[i + 2..] == n[i + 2..] + t
                           && Plain(n[i + 2..]) && !EndsInCr(n[i + 2..]))
  {
    BreakStays(n, t);
    var i := Break(n);
    if i >= 0 { PlainSuffix(n, i + 2); }
  }

  /** The first event of a buffer is that of its normal form, and so is what is left. */
  lemma {:induction false} FrontIsPlain(b: Bytes)
    requires NoCrCrLf(b)
    ensures var n := Norm(Core(b));
            var i := Break(n);
            && Break(Norm(b)) == i
            && (i >= 0 ==> Norm(b)[..i] == n[..i] && Norm(b)[i + 2..] == n[i + 2..] + Tail(b)
                           && Plain(n[i + 2..]) && !EndsInCr(n[i + 2..]))
  {
    CoreAndTail(b);
    CoreIsPlain(b);
    NormEndsPlain(Core(b));
    PlainFront(Norm(Core(b)), Tail(b));
  }

  lemma {:induction false} PlainWithTail(s: Bytes, t: Bytes)
    requires Plain(s) && !EndsInCr(s) && OnlyCrs(t)
    ensures NoCrCrLf(s + t) && Core(s + t) == s && Tail(s + t) == t && Norm(Core(s + t)) == s
  {
    NormKeepsPlain(s);
    CoreOfCrs(s, t);
    forall i: nat | i < |s + t| - 2 ensures !CrCrLfAt(s + t, i) {
      if i + 2 < |s| { assert !CrLfAt(s, i + 1); }
    }
  }

  /** Draining normalises as it goes, with the same result; the CRs at the end stay. */
  lemma {:induction false} DrainIsTake(b: Bytes, p: Progress, judge: Judge)
    requires NoCrCrLf(b)
    ensures var x := Drain(b, p, judge);
            var y := Take(Norm(Core(b)), p, judge);
            && x.1 == y.1
            && (!p.Failed? ==> NoCrCrLf(x.0) && Norm(Core(x.0)) == y.0 && Tail(x.0) == Tail(b))
    decreases |b|
  {
    FrontIsPlain(b);
    CoreAndTail(b);
    var n := Norm(Core(b));
    var i := Break(n);
    if !p.Failed? && i >= 0 {
      var next, rest := Handle(p, n[..i], judge), n[i + 2..] + Tail(b);
      PlainWithTail(n[i + 2..], Tail(b));
      DrainIsTake(rest, next, judge);
    }
  }

  // ---------------------------------------------------------------- parts

  /** The buffer and the variables after the bytes `x`, however they came. */
  predicate InStep(x: Bytes, buffer: Bytes, p: Progress, judge: Judge) {
    var whole := Take(Norm(Core(x)), START, judge);
    && p == whole.1
    && (!p.Failed? ==> NoCrCrLf(buffer) && Norm(Core(buffer)) == whole.0 && Tail(buffer) == Tail(x))
  }

  /** Nothing straddles the end of text that does not end in CR. */
  lemma JoinHasNoCrCrLf(a: Bytes, e: Bytes)
    requires !EndsInCr(a) && NoCrCrLf(a) && NoCrCrLf(e)
    ensures NoCrCrLf(a + e)
  {
    forall i: nat | i < |a + e| - 2 ensures !CrCrLfAt(a + e, i) {
      if i + 2 < |a| {
        assert !CrCrLfAt(a, i);
      } else if i >= |a| {
        assert !CrCrLfAt(e, i - |a|);
      }
    }
  }

  lemma SuffixHasNoCrCrLf(x: Bytes, e: Bytes)
    requires NoCrCrLf(x + e)
    ensures NoCrCrLf(e)
  {
    PlainSuffix(x + e, |x|);
    assert (x + e)[|x|..] == e;
  }

  /** Two texts with the same end: what may follow one may follow the other. */
  lemma SameEndSameNext(core: Bytes, other: Bytes, end: Bytes, y: Bytes)
    requires !EndsInCr(core) && NoCrCrLf(core + end) && NoCrCrLf(other + end + y)
    ensures NoCrCrLf(core + end + y)
  {
    PrefixHasNoCrCrLf(core, end);
    assert other + end + y == other + (end + y);
    SuffixHasNoCrCrLf(other, end + y);
    JoinHasNoCrCrLf(core, end + y);
    assert core + (end + y) == core + end + y;
  }

  lemma {:induction false} BufferHasNoCrCrLf(x: Bytes, buffer: Bytes, y: Bytes)
    requires NoCrCrLf(x + y) && NoCrCrLf(buffer) && Tail(buffer) == Tail(x)
    ensures NoCrCrLf(buffer + y)
  {
    CoreAndTail(x);
    CoreAndTail(buffer);
    SameEndSameNext(Core(buffer), Core(x), Tail(x), y);
  }

  lemma {:induction false} PartKeepsStep(x: Bytes, buffer: Bytes, y: Bytes, p: Progress, judge: Judge)
    requires NoCrCrLf(x + y) && InStep(x, buffer, p, judge) && !p.Failed?
    ensures var n := Drain(buffer + y, p, judge);
            InStep(x + y, n.0, n.1, judge)
  {
    BufferHasNoCrCrLf(x, buffer, y);
    CoreGrows(x, y);
    CoreGrows(buffer, y);
    TakeAppends(Norm(Core(x)), Added(x, y), START, judge);
    DrainIsTake(buffer + y, p, judge);
  }

  lemma {:induction false} FailureStays(x: Bytes, y: Bytes, judge: Judge)
    requires NoCrCrLf(x + y) && Take(Norm(Core(x)), START, judge).1.Failed?
    ensures Take(Norm(Core(x + y)), START, judge).1 == Take(Norm(Core(x)), START, judge).1
  {
    CoreGrows(x, y);
    TakeAppends(Norm(Core(x)), Added(x, y), START, judge);
  }

  /** One more part in the buffer, and the events it completes. */
  function Arrived(buffer: Bytes, part: Bytes, p: Progress, judge: Judge): (Bytes, Progress) {
    Drain(buffer + part, p, judge)
  }

  /** The loop over the parts still to come. */
  function Rest(parts: seq<Bytes>, buffer: Bytes, size: nat, p: Progress, judge: Judge): (Bytes, Progress) {
    Feed(parts, buffer, size, p, judge)
  }

  lemma FeedOne(parts: seq<Bytes>, buffer: Bytes, size: nat, p: Progress, judge: Judge)
    requires parts != [] && !p.Failed? && size + |parts[0]| <= MAX_RESPONSE
    ensures var n := Arrived(buffer, parts[0], p, judge);
            Rest(parts, buffer, size, p, judge) == Rest(parts[1..], n.0, size + |parts[0]|, n.1, judge)
  {}

  /** The first `size` bytes of `s` have come, in whatever parts. */
  predicate Came(s: Bytes, size: nat, parts: seq<Bytes>) { size <= |s| && Joined(parts) == s[size..] }

  predicate InStepAt(s: Bytes, size: nat, buffer: Bytes, p: Progress, judge: Judge) {
    size <= |s| && InStep(s[..size], buffer, p, judge)
  }

  lemma OnePartComes(s: Bytes, size: nat, parts: seq<Bytes>)
    requires Came(s, size, parts) && parts != []
    ensures size + |parts[0]| <= |s| && Came(s, size + |parts[0]|, parts[1..])
    ensures s[..size] + parts[0] == s[..size + |parts[0]|]
  {
    var y := parts[0];
    assert s[size..] == y + Joined(parts[1..]);
    assert s[size..][|y|..] == s[size + |y|..] && s[size..][..|y|] == y;
  }

  lemma PartKeepsStepAt(s: Bytes, size: nat, parts: seq<Bytes>, buffer: Bytes, p: Progress, judge: Judge)
    requires NoCrCrLf(s) && Came(s, size, parts) && parts != [] && InStepAt(s, size, buffer, p, judge) && !p.Failed?
    ensures var n := Arrived(buffer, parts[0], p, judge);
            InStepAt(s, size + |parts[0]|, n.0, n.1, judge)
  {
    OnePartComes(s, size, parts);
    var next := size + |parts[0]|;
    assert s == s[..next] + s[next..];
    PrefixHasNoCrCrLf(s[..next], s[next..]);
    PartKeepsStep(s[..size], buffer, parts[0], p, judge);
  }

  lemma FeedStops(s: Bytes, size: nat, parts: seq<Bytes>, buffer: Bytes, p: Progress, judge: Judge)
    requires NoCrCrLf(s) && Came(s, size, parts) && InStepAt(s, size, buffer, p, judge)
    requires parts == [] || p.Failed?
    ensures InStepAt(s, |s|, buffer, p, judge)
  {
    assert s[..|s|] == s;
    if p.Failed? {
      assert s == s[..size] + s[size..];
      FailureStays(s[..size], s[size..], judge);
    }
  }

  lemma {:induction false} FeedKeepsStep(s: Bytes, size: nat, parts: seq<Bytes>, buffer: Bytes, p: Progress, judge: Judge)
    returns (n: (Bytes, Progress))
    requires NoCrCrLf(s) && |s| <= MAX_RESPONSE && Came(s, size, parts) && InStepAt(s, size, buffer, p, judge)
    ensures n == Rest(parts, buffer, size, p, judge) && InStepAt(s, |s|, n.0, n.1, judge)
    decreases |parts|
  {
    if parts == [] || p.Failed? {
      n := (buffer, p);
      FeedStops(s, size, parts, buffer, p, judge);
    } else {
      var x := Arrived(buffer, parts[0], p, judge);
      OnePartComes(s, size, parts);
      PartKeepsStepAt(s, size, parts, buffer, p, judge);
      n := FeedKeepsStep(s, size + |parts[0]|, parts[1..], x.0, x.1, judge);
      FeedOne(parts, buffer, size, p, judge);
    }
  }

  // ---------------------------------------------------------------- what is left at the end

  predicate Blank(s: Bytes) { forall b :: b in s ==> IsSpace(b) }

  lemma {:induction false} StripRightEmptiesBlank(s: Bytes)
    ensures StripRight(s) == [] <==> Blank(s)
    decreases |s|
  {
    if s != [] {
      StripRightEmptiesBlank(s[..|s| - 1]);
      assert s == s[..|s| - 1] + [s[|s| - 1]];
    }
  }

  lemma {:induction false} StripEmptiesBlank(s: Bytes)
    ensures Strip(s) == [] <==> Blank(s)
    decreases |s|
  {
    if s != [] && IsSpace(s[0]) {
      StripEmptiesBlank(s[1..]);
      assert s == [s[0]] + s[1..];
    } else {
      StripRightEmptiesBlank(s);
    }
  }

  lemma {:induction false} NormKeepsBlank(s: Bytes)
    ensures Blank(Norm(s)) <==> Blank(s)
    decreases |s|
  {
    if s == [] {
    } else if |s| >= 2 && s[0] == CR && s[1] == LF {
      NormKeepsBlank(s[2..]);
      assert s == [CR, LF] + s[2..];
    } else {
      NormKeepsBlank(s[1..]);
      assert s == [s[0]] + s[1..];
    }
  }

  lemma {:induction false} LeftoverIsBlankIff(buffer: Bytes)
    ensures Strip(buffer) == [] <==> Blank(Norm(Core(buffer)))
  {
    StripEmptiesBlank(buffer);
    CoreAndTail(buffer);
    NormKeepsBlank(Core(buffer));
    assert forall b :: b in buffer <==> b in Core(buffer) || b in Tail(buffer);
  }

  /** What the probe reports, from the bytes alone. */
  function Reported(s: Bytes, judge: Judge): Outcome {
    var (left, p) := Take(Norm(Core(s)), START, judge);
    if p.Failed? then Error(p.error)
    else if !p.finished || !Blank(left) || p.chunks == 0 then Error("inference_stream_incomplete")
    else Verified(p.chunks, p.toolCalls)
  }

  lemma {:induction false} ProbeReportsBytes(parts: seq<Bytes>, judge: Judge)
    requires NoCrCrLf(Joined(parts)) && |Joined(parts)| <= MAX_RESPONSE
    ensures Probed(parts, judge) == Reported(Joined(parts), judge)
  {
    var s := Joined(parts);
    assert s[0..] == s && s[..0] == [] && s[..|s|] == s;
    var n := FeedKeepsStep(s, 0, parts, [], START, judge);
    if !n.1.Failed? { LeftoverIsBlankIff(n.0); }
  }

  /** Chunk count, tool-call flag, completion and first error do not depend on the splitting. */
  lemma {:induction false} FragmentsDoNotMatter(parts: seq<Bytes>, others: seq<Bytes>, judge: Judge)
    requires Joined(parts) == Joined(others) && NoCrCrLf(Joined(parts)) && |Joined(parts)| <= MAX_RESPONSE
    ensures Probed(parts, judge) == Probed(others, judge)
  {
    ProbeReportsBytes(parts, judge);
    ProbeReportsBytes(others, judge);
  }

  /** A response over the limit is never verified. */
  lemma {:induction false} OversizedFails(parts: seq<Bytes>, buffer: Bytes, size: nat, p: Progress, judge: Judge)
    requires size + |Joined(parts)| > MAX_RESPONSE >= size
    ensures Feed(parts, buffer, size, p, judge).1.Failed?
    decreases |parts|
  {
    if !p.Failed? && size + |parts[0]| <= MAX_RESPONSE {
      var x := Drain(buffer + parts[0], p, judge);
      OversizedFails(parts[1..], x.0, size + |parts[0]|, x.1, judge);
    }
  }

  // ---------------------------------------------------------------- CR CR LF

  predicate OneLine(s: Bytes) { CR !in s && LF !in s }

  lemma {:induction false} SplitOneLine(s: Bytes, line: Bytes)
    requires OneLine(s) && line + s != []
    ensures SplitLines(s, line) == [line + s]
    decreases |s|
  {
    if s == [] {
      assert line + s == line;
    } else {
      assert line + [s[0]] + s[1..] == line + s;
      SplitOneLine(s[1..], line + [s[0]]);
    }
  }

  lemma StripKeepsTrimmed(x: Bytes)
    requires x != [] && !IsSpace(x[0]) && !IsSpace(x[|x| - 1])
    ensures Strip(x) == x
  {}

  lemma {:induction false} DataEvent(x: Bytes)
    requires OneLine(x) && x != [] && !IsSpace(x[0]) && !IsSpace(x[|x| - 1])
    ensures DataLines(SplitLines(DATA + x, [])) == [x]
  {
    var line := DATA + x;
    SplitOneLine(line, []);
    assert [] + line == line && line[5..] == x && DATA <= line;
    StripKeepsTrimmed(x);
    OneDataLine(line, x);
  }

  lemma OneDataLine(line: Bytes, x: Bytes)
    requires DATA <= line && Strip(line[5..]) == x
    ensures DataLines([line]) == [x]
  {
    assert [line][1..] == [] && [x] + [] == [x];
  }

  /** The first line end after plain text. */
  lemma {:induction false} BreakAfterLine(x: Bytes, rest: Bytes)
    requires LF !in x
    ensures Break(x + [LF, LF] + rest) == |x| && Break(x + [LF, CR, LF]) == -1
    decreases |x|
  {
    var s, t := x + [LF, LF] + rest, x + [LF, CR, LF];
    if x == [] {
      assert t[1..] == [CR, LF] && [CR, LF][1..] == [LF];
    } else {
      assert s[0] == t[0] == x[0] && s[1..] == x[1..] + [LF, LF] + rest && t[1..] == x[1..] + [LF, CR, LF];
      BreakAfterLine(x[1..], rest);
    }
  }

  /** An event text that can be sent on one line and is read back as it is. */
  predicate Sendable(x: Bytes) {
    OneLine(x) && x != [] && !IsSpace(x[0]) && !IsSpace(x[|x| - 1]) && x != DONE && |x| <= MAX_RESPONSE - 22
  }

  const END: Bytes := DATA + DONE

  /** The last event, followed by LF CR CR LF. */
  const ENDING: Bytes := END + [LF, CR, CR, LF]

  lemma EndingNormalises()
    ensures Norm(ENDING) == END + [LF, CR, LF] && Norm(END + [LF, CR, LF]) == END + [LF, LF]
  {
    NormAppends(END, [LF, CR, CR, LF]);
    NormAppends(END, [LF, CR, LF]);
    NormKeepsPlain(END);
    assert Norm([CR, CR, LF]) == [CR] + Norm([CR, LF]) by { assert [CR, CR, LF][1..] == [CR, LF]; }
    assert Norm([CR, LF]) == [LF] + Norm([]) by { assert [CR, LF][2..] == []; }
    assert [LF, CR, CR, LF][1..] == [CR, CR, LF] && [LF, CR, LF][1..] == [CR, LF];
    assert Norm([LF, CR, CR, LF]) == [LF, CR, LF] && Norm([LF, CR, LF]) == [LF, LF];
  }

  /** An event without CR or blank line at the front of the buffer. */
  lemma {:induction false} FrontEvent(event: Bytes, rest: Bytes, p: Progress, judge: Judge)
    requires OneLine(event) && !p.Failed?
    ensures Drain(event + [LF, LF] + rest, p, judge) == Drain(Norm(rest), Handle(p, event, judge), judge)
  {
    var front := event + [LF, LF];
    NormAppends(front, rest);
    NormKeepsPlain(front);
    BreakAfterLine(event, Norm(rest));
    assert (front + Norm(rest))[..|event|] == event && (front + Norm(rest))[|event| + 2..] == Norm(rest);
  }

  lemma {:induction false} LastEvent(p: Progress, judge: Judge)
    requires p.Progress?
    ensures Drain(END + [LF, CR, LF], p, judge) == ([], p.(finished := true))
    ensures Drain(ENDING, p, judge) == (ENDING, p)
  {
    EndingNormalises();
    BreakAfterLine(END, []);
    assert END + [LF, LF] + [] == END + [LF, LF];
    DataEvent(DONE);
    assert (END + [LF, LF])[..|END|] == END && (END + [LF, LF])[|END| + 2..] == [];
    assert Drain(END + [LF, CR, LF], p, judge) == Drain([], p.(finished := true), judge);
  }

  function Counted(x: Bytes, judge: Judge): Progress { Progress(1, judge(x).Chunk? && judge(x).toolCalls, false) }

  function First(x: Bytes): Bytes { DATA + x + [LF, LF] }

  lemma {:induction false} FirstEvent(x: Bytes, rest: Bytes, judge: Judge)
    requires Sendable(x) && judge(x).Chunk?
    ensures Drain(First(x) + rest, START, judge) == Drain(Norm(rest), Counted(x, judge), judge)
  {
    FrontEvent(DATA + x, rest, START, judge);
    DataEvent(x);
    assert Join([x]) == x;
    assert Handle(START, DATA + x, judge) == Counted(x, judge);
  }

  lemma {:induction false} FeedLast(part: Bytes, buffer: Bytes, size: nat, p: Progress, judge: Judge)
    requires !p.Failed? && size + |part| <= MAX_RESPONSE
    ensures Feed([part], buffer, size, p, judge) == Drain(buffer + part, p, judge)
  {
    assert [part][1..] == [];
  }

  lemma InOnePart(x: Bytes, judge: Judge)
    requires Sendable(x) && judge(x).Chunk?
    ensures Probed([First(x) + ENDING], judge) == Verified(1, judge(x).toolCalls)
  {
    FirstEvent(x, ENDING, judge);
    EndingNormalises();
    LastEvent(Counted(x, judge), judge);
    FeedLast(First(x) + ENDING, [], 0, START, judge);
    assert [] + (First(x) + ENDING) == First(x) + ENDING;
  }

  lemma InTwoParts(x: Bytes, judge: Judge)
    requires Sendable(x) && judge(x).Chunk?
    ensures Probed([First(x), ENDING], judge) == Error("inference_stream_incomplete")
  {
    var p, first := Counted(x, judge), First(x);
    FirstEvent(x, [], judge);
    LastEvent(p, judge);
    FeedLast(ENDING, [], |first|, p, judge);
    assert [] + first == first + [] == first && [] + ENDING == ENDING;
    assert [first, ENDING][1..] == [ENDING];
    assert Drain([], p, judge) == ([], p);
    assert Feed([first, ENDING], [], 0, START, judge) == Feed([ENDING], [], |first|, p, judge);
  }

  /** With CR CR LF the splitting matters: any event, then the last one ended by LF CR CR LF. In one
      part the CRLF left by the first replacement is replaced on the way to the last event; apart
      from the first event it never is. */
  lemma CrCrLfSplitsMatter(x: Bytes, judge: Judge)
    requires Sendable(x) && judge(x).Chunk?
    ensures Joined([First(x) + ENDING]) == Joined([First(x), ENDING])
    ensures Probed([First(x) + ENDING], judge) == Verified(1, judge(x).toolCalls)
    ensures Probed([First(x), ENDING], judge) == Error("inference_stream_incomplete")
  {
    var first := First(x);
    InOnePart(x, judge);
    InTwoParts(x, judge);
    assert [first + ENDING][1..] == [] && [first, ENDING][1..] == [ENDING] && [ENDING][1..] == [];
    assert Joined([ENDING]) == ENDING + [] == ENDING;
    assert Joined([first + ENDING]) == first + ENDING + [] == first + ENDING;
  }
}
