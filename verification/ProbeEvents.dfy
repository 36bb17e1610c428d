/** What the probe reports of a stream of events, however it is split into parts: the number of its
    chunks, whether any calls a tool, its first error, and that it was completed.

    An event is data lines and lines of other fields, each ended by LF or CRLF, and a blank line. */
module ProbeEvents {
  import opened Probe
  import opened ProbeFragments

  /** Tab, vertical tab, form feed or space. */
  predicate Pad(b: byte) { b == 9 || b == 11 || b == 12 || b == 32 }

  predicate Padding(s: Bytes) { forall i :: 0 <= i < |s| ==> Pad(s[i]) }

  /** A data line, with any padding around its text, or a line the probe does not look at. */
  datatype Line = Data(text: Bytes, before: Bytes, after: Bytes, crlf: bool) | Other(text: Bytes, crlf: bool) {
    function Content(): Bytes {
      if Other? then text else [100, 97, 116, 97, 58] + (before + text + after)
    }

    predicate Proper() {
      && OneLine(text)
      && if Data? then Padding(before) && Padding(after) && (text == [] || (!Pad(text[0]) && !Pad(text[|text| - 1])))
         else text != [] && !([100, 97, 116, 97, 58] <= text)
    }
  }

  datatype Event = Event(lines: seq<Line>, crlf: bool) {
    predicate Proper() { lines != [] && ProperLines(lines) }
  }

  predicate ProperLines(ls: seq<Line>) { forall i :: 0 <= i < |ls| ==> ls[i].Proper() }

  predicate AllProper(es: seq<Event>) { forall i :: 0 <= i < |es| ==> es[i].Proper() }

  function EndOf(crlf: bool): Bytes { if crlf then [CR, LF] else [LF] }

  function PrintedLines(ls: seq<Line>): Bytes {
    if ls == [] then [] else ls[0].Content() + EndOf(ls[0].crlf) + PrintedLines(ls[1..])
  }

  function Printed(es: seq<Event>): Bytes {
    if es == [] then [] else PrintedLines(es[0].lines) + EndOf(es[0].crlf) + Printed(es[1..])
  }

  /** The texts of the data lines. */
  function Texts(ls: seq<Line>): seq<Bytes> {
    if ls == [] then [] else (if ls[0].Data? then [ls[0].text] else []) + Texts(ls[1..])
  }

  predicate HasData(e: Event) { Texts(e.lines) != [] }

  /** Texts one a line. */
  function Lined(texts: seq<Bytes>): Bytes {
    if texts == [] then [] else if |texts| == 1 then texts[0] else texts[0] + [10] + Lined(texts[1..])
  }

  lemma {:induction false} LinedIsJoined(texts: seq<Bytes>)
    ensures Join(texts) == Lined(texts)
  {
    if |texts| > 1 { LinedIsJoined(texts[1..]); }
  }

  function Says(e: Event): Bytes { Lined(Texts(e.lines)) }

  predicate Done(e: Event) { HasData(e) && Says(e) == [91, 68, 79, 78, 69, 93] }

  /** An event that counts: with data that is judged a chunk. */
  predicate IsChunk(e: Event, judge: Judge) { HasData(e) && !Done(e) && judge(Says(e)).Chunk? }

  predicate CallsTool(e: Event, judge: Judge) { IsChunk(e, judge) && judge(Says(e)).toolCalls }

  // ---------------------------------------------------------------- lines

  /** The lines, each ended by LF. */
  function Plainly(ls: seq<Line>): Bytes { if ls == [] then [] else ls[0].Content() + [LF] + Plainly(ls[1..]) }

  lemma PaddingIsOneLine(s: Bytes)
    requires Padding(s)
    ensures OneLine(s)
  {
    forall b | b in s ensures b != CR && b != LF { var i :| 0 <= i < |s| && s[i] == b; assert Pad(s[i]); }
  }

  lemma ContentIsOneLine(l: Line)
    requires l.Proper()
    ensures OneLine(l.Content()) && l.Content() != []
  {
    if l.Data? {
      PaddingIsOneLine(l.before);
      PaddingIsOneLine(l.after);
    }
  }

  lemma {:induction false} StripsBefore(pad: Bytes, s: Bytes)
    requires Padding(pad)
    ensures StripLeft(pad + s) == StripLeft(s)
    decreases |pad|
  {
    if pad == [] {
      assert pad + s == s;
    } else {
      assert Pad((pad + s)[0]) && (pad + s)[1..] == pad[1..] + s;
      StripsBefore(pad[1..], s);
    }
  }

  lemma {:induction false} StripsAfter(s: Bytes, pad: Bytes)
    requires Padding(pad)
    ensures StripRight(s + pad) == StripRight(s)
    decreases |pad|
  {
    if pad == [] {
      assert s + pad == s;
    } else {
      var last := |pad| - 1;
      assert Pad(pad[last]) && (s + pad)[..|s + pad| - 1] == s + pad[..last];
      StripsAfter(s, pad[..last]);
    }
  }

  lemma PaddedTextIsStripped(before: Bytes, text: Bytes, after: Bytes)
    requires Padding(before) && Padding(after) && OneLine(text)
    requires text == [] || (!Pad(text[0]) && !Pad(text[|text| - 1]))
    ensures Strip(before + text + after) == text
  {
    assert before + text + after == before + (text + after);
    StripsBefore(before, text + after);
    if text == [] {
      assert text + after == after && after + [] == after;
      StripsBefore(after, []);
    } else {
      assert text[0] in text && text[|text| - 1] in text && (text + after)[0] == text[0];
      StripsAfter(text, after);
    }
  }

  lemma {:induction false} LineNormalises(l: Line, rest: Bytes)
    requires l.Proper()
    ensures Norm(l.Content() + EndOf(l.crlf) + rest) == l.Content() + [LF] + Norm(rest)
    ensures !EndsInCr(l.Content() + EndOf(l.crlf)) && NoCrCrLf(l.Content() + EndOf(l.crlf))
  {
    var c := l.Content();
    ContentIsOneLine(l);
    NormAppends(c + EndOf(l.crlf), rest);
    NormAppends(c, EndOf(l.crlf));
    NormKeepsPlain(c);
    EndNormalises(l.crlf);
  }

  lemma EndNormalises(crlf: bool)
    ensures Norm(EndOf(crlf)) == [LF]
  {
    assert [CR, LF][2..] == [] && [LF][1..] == [];
  }

  lemma Front(ls: seq<Line>)
    requires ls != [] && ProperLines(ls)
    ensures ls[0].Proper() && ProperLines(ls[1..])
  {}

  /** Text that normalises piece by piece. */
  lemma {:induction false} Pieces(head: Bytes, plainHead: Bytes, tail: Bytes, plainTail: Bytes, rest: Bytes)
    requires Norm(head + (tail + rest)) == plainHead + Norm(tail + rest)
    requires Norm(tail + rest) == plainTail + Norm(rest)
    ensures Norm(head + tail + rest) == plainHead + plainTail + Norm(rest)
  {
    assert head + tail + rest == head + (tail + rest);
    assert plainHead + plainTail + Norm(rest) == plainHead + (plainTail + Norm(rest));
  }

  lemma {:induction false} NothingNormalises(rest: Bytes)
    ensures Norm([] + rest) == [] + Norm(rest)
  {
    assert [] + rest == rest && [] + Norm(rest) == Norm(rest);
  }

  lemma {:induction false} LinesNormalise(ls: seq<Line>, rest: Bytes)
    requires ProperLines(ls)
    ensures Norm(PrintedLines(ls) + rest) == Plainly(ls) + Norm(rest)
    decreases |ls|
  {
    if ls == [] {
      NothingNormalises(rest);
    } else {
      var l, tail := ls[0], PrintedLines(ls[1..]);
      Front(ls);
      LineNormalises(l, tail + rest);
      LinesNormalise(ls[1..], rest);
      Pieces(l.Content() + EndOf(l.crlf), l.Content() + [LF], tail, Plainly(ls[1..]), rest);
    }
  }

  lemma JoinEndsPlain(head: Bytes, tail: Bytes)
    requires !EndsInCr(head) && NoCrCrLf(head) && !EndsInCr(tail) && NoCrCrLf(tail)
    ensures !EndsInCr(head + tail) && NoCrCrLf(head + tail)
  {
    JoinHasNoCrCrLf(head, tail);
  }

  lemma {:induction false} LinesEndPlain(ls: seq<Line>)
    requires ProperLines(ls)
    ensures !EndsInCr(PrintedLines(ls)) && NoCrCrLf(PrintedLines(ls))
    decreases |ls|
  {
    if ls != [] {
      Front(ls);
      LineNormalises(ls[0], []);
      LinesEndPlain(ls[1..]);
      JoinEndsPlain(ls[0].Content() + EndOf(ls[0].crlf), PrintedLines(ls[1..]));
    }
  }

  function PlainEvents(es: seq<Event>): Bytes { if es == [] then [] else Plainly(es[0].lines) + [LF] + PlainEvents(es[1..]) }

  lemma {:induction false} EventNormalises(e: Event, rest: Bytes)
    requires e.Proper()
    ensures Norm(PrintedLines(e.lines) + EndOf(e.crlf) + rest) == Plainly(e.lines) + [LF] + Norm(rest)
    ensures !EndsInCr(PrintedLines(e.lines) + EndOf(e.crlf)) && NoCrCrLf(PrintedLines(e.lines) + EndOf(e.crlf))
  {
    var end := EndOf(e.crlf);
    EndNormalises(e.crlf);
    NormAppends(end, rest);
    LinesNormalise(e.lines, end + rest);
    Pieces(PrintedLines(e.lines), Plainly(e.lines), end, [LF], rest);
    LinesEndPlain(e.lines);
    JoinEndsPlain(PrintedLines(e.lines), end);
  }

  lemma FirstAndRest(es: seq<Event>)
    requires es != [] && AllProper(es)
    ensures es[0].Proper() && AllProper(es[1..])
  {}

  lemma {:induction false} EventsNormalise(es: seq<Event>, rest: Bytes)
    requires AllProper(es)
    ensures Norm(Printed(es) + rest) == PlainEvents(es) + Norm(rest)
    decreases |es|
  {
    if es == [] {
      NothingNormalises(rest);
    } else {
      var e, tail := es[0], Printed(es[1..]);
      FirstAndRest(es);
      EventNormalises(e, tail + rest);
      EventsNormalise(es[1..], rest);
      Pieces(PrintedLines(e.lines) + EndOf(e.crlf), Plainly(e.lines) + [LF], tail, PlainEvents(es[1..]), rest);
    }
  }

  lemma {:induction false} EventsEndPlain(es: seq<Event>)
    requires AllProper(es)
    ensures !EndsInCr(Printed(es)) && NoCrCrLf(Printed(es))
    decreases |es|
  {
    if es != [] {
      FirstAndRest(es);
      EventNormalises(es[0], []);
      EventsEndPlain(es[1..]);
      JoinEndsPlain(PrintedLines(es[0].lines) + EndOf(es[0].crlf), Printed(es[1..]));
    }
  }

  /** A line and its LF are skipped, if no blank line follows at once. */
  lemma {:induction false} BreakSkipsLine(c: Bytes, t: Bytes)
    requires OneLine(c) && t != [] && t[0] != LF && Break(t) >= 0
    ensures Break(c + [LF] + t) == |c| + 1 + Break(t)
  {
    var s := c + [LF] + t;
    if c == [] {
      assert s[1..] == t;
    } else {
      assert s[1..] == c[1..] + [LF] + t && s[0] == c[0] && c[0] != LF;
      BreakSkipsLine(c[1..], t);
    }
  }

  lemma PlainlyOne(l: Line, rest: Bytes)
    ensures Plainly([l]) == l.Content() + [LF] && Plainly([l]) + [LF] + rest == l.Content() + [LF, LF] + rest
  {
    assert [l][1..] == [];
    assert Plainly([]) == [];
  }

  lemma {:induction false} BreakInTail(c: Bytes, lines: Bytes, rest: Bytes)
    requires OneLine(c) && lines != [] && lines[0] != LF && Break(lines + [LF] + rest) == |lines| - 1
    ensures Break(c + [LF] + lines + [LF] + rest) == |c + [LF] + lines| - 1
  {
    var t := lines + [LF] + rest;
    BreakSkipsLine(c, t);
    assert c + [LF] + lines + [LF] + rest == c + [LF] + t;
  }

  lemma {:induction false} PlainlyStarts(ls: seq<Line>)
    requires ls != [] && ProperLines(ls)
    ensures Plainly(ls) != [] && Plainly(ls)[0] != LF
  {
    var c := ls[0].Content();
    Front(ls);
    ContentIsOneLine(ls[0]);
    assert Plainly(ls)[0] == c[0] && c[0] in c;
  }

  lemma {:induction false} BreakEndsEvent(ls: seq<Line>, rest: Bytes)
    requires ls != [] && ProperLines(ls)
    ensures Break(Plainly(ls) + [LF] + rest) == |Plainly(ls)| - 1
    decreases |ls|
  {
    var c := ls[0].Content();
    Front(ls);
    ContentIsOneLine(ls[0]);
    if |ls| == 1 {
      assert ls == [ls[0]];
      PlainlyOne(ls[0], rest);
      BreakAfterLine(c, rest);
    } else {
      BreakEndsEvent(ls[1..], rest);
      PlainlyStarts(ls[1..]);
      BreakInTail(c, Plainly(ls[1..]), rest);
    }
  }

  /** The lines joined by LF, as the probe finds them before the blank line. */
  function Body(ls: seq<Line>): Bytes
    requires ls != []
  {
    if |ls| == 1 then ls[0].Content() else ls[0].Content() + [LF] + Body(ls[1..])
  }

  lemma {:induction false} BodyIsPlain(ls: seq<Line>)
    requires ls != []
    ensures Plainly(ls) == Body(ls) + [LF]
  {
    if |ls| > 1 { BodyIsPlain(ls[1..]); }
  }

  lemma {:induction false} SplitFirstLine(c: Bytes, rest: Bytes, line: Bytes)
    requires OneLine(c)
    ensures SplitLines(c + [LF] + rest, line) == [line + c] + SplitLines(rest, [])
    decreases |c|
  {
    var s := c + [LF] + rest;
    if c == [] {
      assert s[0] == LF && s[1..] == rest && line + c == line;
    } else {
      assert s[0] == c[0] && c[0] in c && s[1..] == c[1..] + [LF] + rest;
      assert line + [c[0]] + c[1..] == line + c;
      SplitFirstLine(c[1..], rest, line + [c[0]]);
    }
  }

  function Contents(ls: seq<Line>): seq<Bytes> { if ls == [] then [] else [ls[0].Content()] + Contents(ls[1..]) }

  lemma {:induction false} BodySplits(ls: seq<Line>)
    requires ls != [] && ProperLines(ls)
    ensures SplitLines(Body(ls), []) == Contents(ls)
    decreases |ls|
  {
    var c := ls[0].Content();
    ContentIsOneLine(ls[0]);
    assert [] + c == c;
    if |ls| == 1 {
      SplitOneLine(c, []);
    } else {
      BodySplits(ls[1..]);
      SplitFirstLine(c, Body(ls[1..]), []);
    }
  }

  lemma ContentIsRead(l: Line)
    requires l.Proper()
    ensures l.Data? <==> DATA <= l.Content()
    ensures l.Data? ==> Strip(l.Content()[5..]) == l.text
  {
    if l.Data? {
      var value := l.before + l.text + l.after;
      assert l.Content() == DATA + value && l.Content()[5..] == value;
      PaddedTextIsStripped(l.before, l.text, l.after);
    }
  }

  lemma {:induction false} ContentsAreRead(ls: seq<Line>)
    requires ProperLines(ls)
    ensures DataLines(Contents(ls)) == Texts(ls)
    decreases |ls|
  {
    if ls != [] {
      ContentIsRead(ls[0]);
      ContentsAreRead(ls[1..]);
      assert Contents(ls)[1..] == Contents(ls[1..]);
    }
  }

  // ---------------------------------------------------------------- events

  /** What an event does to the count, the flag and the end of a probe that has not failed. */
  function Told(p: Progress, e: Event, judge: Judge): Progress
    requires p.Progress?
  {
    if !HasData(e) then p
    else if Done(e) then Progress(p.chunks, p.toolCalls, true)
    else if p.finished then Failed("malformed_inference_stream")
    else if judge(Says(e)).Bad? then Failed(judge(Says(e)).error)
    else Progress(p.chunks + 1, p.toolCalls || judge(Says(e)).toolCalls, false)
  }

  lemma EventIsHandled(e: Event, p: Progress, judge: Judge)
    requires e.Proper() && p.Progress?
    ensures Handle(p, Body(e.lines), judge) == Told(p, e, judge)
  {
    BodySplits(e.lines);
    ContentsAreRead(e.lines);
    LinedIsJoined(Texts(e.lines));
  }

  lemma {:induction false} TakeFirst(body: Bytes, rest: Bytes, p: Progress, judge: Judge)
    requires p.Progress? && Break(body + [LF] + [LF] + rest) == |body|
    ensures Take(body + [LF] + [LF] + rest, p, judge) == Take(rest, Handle(p, body, judge), judge)
  {
    var s := body + [LF] + [LF] + rest;
    assert s[..|body|] == body && s[|body| + 2..] == rest;
  }

  lemma {:induction false} FirstEventIsTaken(e: Event, rest: Bytes, p: Progress, judge: Judge)
    requires e.Proper() && p.Progress?
    ensures Take(Plainly(e.lines) + [LF] + rest, p, judge) == Take(rest, Told(p, e, judge), judge)
  {
    BreakEndsEvent(e.lines, rest);
    BodyIsPlain(e.lines);
    EventIsHandled(e, p, judge);
    TakeFirst(Body(e.lines), rest, p, judge);
  }

  function Chunks(es: seq<Event>, judge: Judge): nat {
    if es == [] then 0 else (if IsChunk(es[0], judge) then 1 else 0) + Chunks(es[1..], judge)
  }

  /** No event that is an end or an error. */
  predicate Harmless(es: seq<Event>, judge: Judge) { forall i :: 0 <= i < |es| ==> !HasData(es[i]) || IsChunk(es[i], judge) }

  predicate AnyTool(es: seq<Event>, judge: Judge) { exists i :: 0 <= i < |es| && CallsTool(es[i], judge) }

  lemma AnyToolStep(es: seq<Event>, judge: Judge)
    requires es != []
    ensures AnyTool(es, judge) <==> CallsTool(es[0], judge) || AnyTool(es[1..], judge)
  {
    if AnyTool(es[1..], judge) {
      var i :| 0 <= i < |es[1..]| && CallsTool(es[1..][i], judge);
      assert CallsTool(es[i + 1], judge);
    }
    if AnyTool(es, judge) && !CallsTool(es[0], judge) {
      var i :| 0 <= i < |es| && CallsTool(es[i], judge);
      assert CallsTool(es[1..][i - 1], judge);
    }
  }

  lemma HarmlessStep(es: seq<Event>, judge: Judge)
    requires es != [] && Harmless(es, judge)
    ensures (!HasData(es[0]) || IsChunk(es[0], judge)) && Harmless(es[1..], judge)
  {}

  /** The count and the flag after harmless events. */
  function Tally(p: Progress, es: seq<Event>, judge: Judge): Progress
    requires p.Progress?
  {
    Progress(p.chunks + Chunks(es, judge), p.toolCalls || AnyTool(es, judge), false)
  }

  lemma TallyStep(p: Progress, es: seq<Event>, judge: Judge)
    requires es != [] && Harmless(es, judge) && p.Progress? && !p.finished
    ensures var n := Told(p, es[0], judge);
            n.Progress? && !n.finished && Tally(n, es[1..], judge) == Tally(p, es, judge)
  {
    AnyToolStep(es, judge);
    HarmlessStep(es, judge);
  }

  lemma Regroup(a: Bytes, b: Bytes, c: Bytes)
    ensures a + b + c == a + (b + c)
  {}

  lemma {:induction false} ChunksAreCounted(es: seq<Event>, rest: Bytes, p: Progress, judge: Judge)
    requires AllProper(es) && Harmless(es, judge) && p.Progress? && !p.finished
    ensures Take(PlainEvents(es) + rest, p, judge) == Take(rest, Tally(p, es, judge), judge)
    decreases |es|
  {
    if es == [] {
      assert PlainEvents(es) + rest == rest;
    } else {
      var tail := PlainEvents(es[1..]);
      FirstAndRest(es);
      HarmlessStep(es, judge);
      TallyStep(p, es, judge);
      FirstEventIsTaken(es[0], tail + rest, p, judge);
      Regroup(Plainly(es[0].lines) + [LF], tail, rest);
      ChunksAreCounted(es[1..], rest, Told(p, es[0], judge), judge);
    }
  }

  // ---------------------------------------------------------------- reports

  /** Bytes after whole events, as the probe sees them at the end. */
  function Seen(rest: Bytes): Bytes { Norm(Core(rest)) }

  lemma {:induction false} EventsThen(es: seq<Event>, rest: Bytes, parts: seq<Bytes>, judge: Judge)
    requires AllProper(es) && Joined(parts) == Printed(es) + rest && NoCrCrLf(rest) && |Joined(parts)| <= MAX_RESPONSE
    ensures Probed(parts, judge) == Ended(Take(PlainEvents(es) + Seen(rest), START, judge))
  {
    EventsNormalise(es, Core(rest));
    EventsEndPlain(es);
    JoinHasNoCrCrLf(Printed(es), rest);
    CoreOfConcat(Printed(es), rest);
    ProbeReportsBytes(parts, judge);
  }

  /** The final checks. */
  function Ended(x: (Bytes, Progress)): Outcome {
    if x.1.Failed? then Error(x.1.error)
    else if x.1.finished && Blank(x.0) && x.1.chunks > 0 then Verified(x.1.chunks, x.1.toolCalls)
    else Error("inference_stream_incomplete")
  }

  lemma {:induction false} PlainEventsJoin(es: seq<Event>, more: seq<Event>, rest: Bytes)
    ensures PlainEvents(es + more) + rest == PlainEvents(es) + (PlainEvents(more) + rest)
    decreases |es|
  {
    if es == [] {
      assert es + more == more && [] + (PlainEvents(more) + rest) == PlainEvents(more) + rest;
    } else {
      assert (es + more)[1..] == es[1..] + more && (es + more)[0] == es[0];
      PlainEventsJoin(es[1..], more, rest);
      Regroup(Plainly(es[0].lines) + [LF], PlainEvents(es[1..] + more), rest);
      Regroup(Plainly(es[0].lines) + [LF], PlainEvents(es[1..]), PlainEvents(more) + rest);
    }
  }

  lemma ProperParts(es: seq<Event>, more: seq<Event>)
    requires AllProper(es + more)
    ensures AllProper(es) && AllProper(more)
  {
    forall i | 0 <= i < |es| ensures es[i].Proper() { assert (es + more)[i] == es[i]; }
    forall i | 0 <= i < |more| ensures more[i].Proper() { assert (es + more)[|es| + i] == more[i]; }
  }

  /** One more event at the front of what is left. */
  lemma {:induction false} NextIsTaken(e: Event, more: seq<Event>, rest: Bytes, p: Progress, judge: Judge)
    requires e.Proper() && p.Progress?
    ensures Take(PlainEvents([e] + more) + rest, p, judge) == Take(PlainEvents(more) + rest, Told(p, e, judge), judge)
  {
    assert ([e] + more)[1..] == more;
    Regroup(Plainly(e.lines) + [LF], PlainEvents(more), rest);
    FirstEventIsTaken(e, PlainEvents(more) + rest, p, judge);
  }

  /** What is left to take after harmless events and one more. */
  lemma {:induction false} HarmlessThen(es: seq<Event>, e: Event, more: seq<Event>, rest: Bytes, judge: Judge)
    requires AllProper(es + ([e] + more)) && Harmless(es, judge)
    ensures e.Proper()
    ensures Take(PlainEvents(es + ([e] + more)) + rest, START, judge)
         == Take(PlainEvents(more) + rest, Told(Tally(START, es, judge), e, judge), judge)
  {
    ProperParts(es, [e] + more);
    assert ([e] + more)[0] == e;
    PlainEventsJoin(es, [e] + more, rest);
    ChunksAreCounted(es, PlainEvents([e] + more) + rest, START, judge);
    NextIsTaken(e, more, rest, Tally(START, es, judge), judge);
  }

  lemma {:induction false} NothingMore(rest: Bytes, p: Progress, judge: Judge)
    requires Break(rest) < 0 || p.Failed?
    ensures Take(PlainEvents([]) + rest, p, judge) == (rest, p)
  {
    assert PlainEvents([]) + rest == rest;
  }

  /** A stream with its end and nothing behind it is verified, in any splitting, with the number of its
      chunks and whether any of them calls a tool; it is incomplete if it has none. */
  lemma {:induction false} CompleteStreamIsCounted(es: seq<Event>, done: Event, parts: seq<Bytes>, judge: Judge)
    requires AllProper(es + [done]) && Harmless(es, judge) && Done(done)
    requires Joined(parts) == Printed(es + [done]) && |Joined(parts)| <= 65_536
    ensures Probed(parts, judge) == if Chunks(es, judge) > 0 then Verified(Chunks(es, judge), AnyTool(es, judge))
                                    else Error("inference_stream_incomplete")
  {
    assert [done] == [done] + [] && Printed(es + [done]) + [] == Printed(es + [done]);
    EventsThen(es + [done], [], parts, judge);
    HarmlessThen(es, done, [], Seen([]), judge);
    NothingMore(Seen([]), Told(Tally(START, es, judge), done, judge), judge);
  }

  /** The first event judged bad is what is reported, whatever follows. */
  lemma {:induction false} FirstErrorIsReported(es: seq<Event>, bad: Event, rest: Bytes, parts: seq<Bytes>, judge: Judge)
    requires AllProper(es + [bad]) && Harmless(es, judge) && HasData(bad) && !Done(bad) && judge(Says(bad)).Bad?
    requires Joined(parts) == Printed(es + [bad]) + rest && NoCrCrLf(rest) && |Joined(parts)| <= 65_536
    ensures Probed(parts, judge) == Error(judge(Says(bad)).error)
  {
    assert [bad] == [bad] + [];
    EventsThen(es + [bad], rest, parts, judge);
    HarmlessThen(es, bad, [], Seen(rest), judge);
    NothingMore(Seen(rest), Told(Tally(START, es, judge), bad, judge), judge);
  }

  /** So is data behind the end. */
  lemma {:induction false} DataBehindTheEndIsReported(es: seq<Event>, done: Event, extra: Event, rest: Bytes, parts: seq<Bytes>, judge: Judge)
    requires AllProper(es + ([done] + [extra])) && Harmless(es, judge) && Done(done) && HasData(extra) && !Done(extra)
    requires Joined(parts) == Printed(es + ([done] + [extra])) + rest && NoCrCrLf(rest) && |Joined(parts)| <= 65_536
    ensures Probed(parts, judge) == Error("malformed_inference_stream")
  {
    var p := Told(Tally(START, es, judge), done, judge);
    EventsThen(es + ([done] + [extra]), rest, parts, judge);
    HarmlessThen(es, done, [extra], Seen(rest), judge);
    ProperParts(es, [done] + [extra]);
    assert ([done] + [extra])[1] == extra && [extra] == [extra] + [];
    NextIsTaken(extra, [], Seen(rest), p, judge);
    NothingMore(Seen(rest), Told(p, extra, judge), judge);
  }

  /** Without its end a stream is incomplete. */
  lemma {:induction false} EndlessStreamIsIncomplete(es: seq<Event>, rest: Bytes, parts: seq<Bytes>, judge: Judge)
    requires AllProper(es) && Harmless(es, judge) && NoCrCrLf(rest) && Break(Seen(rest)) < 0
    requires Joined(parts) == Printed(es) + rest && |Joined(parts)| <= 65_536
    ensures Probed(parts, judge) == Error("inference_stream_incomplete")
  {
    EventsThen(es, rest, parts, judge);
    ChunksAreCounted(es, Seen(rest), START, judge);
    assert Take(Seen(rest), Tally(START, es, judge), judge) == (Seen(rest), Tally(START, es, judge));
  }

  /** And so it is if something is begun behind the end. */
  lemma {:induction false} RemainderIsIncomplete(es: seq<Event>, done: Event, rest: Bytes, parts: seq<Bytes>, judge: Judge)
    requires AllProper(es + [done]) && Harmless(es, judge) && Done(done)
    requires NoCrCrLf(rest) && Break(Seen(rest)) < 0 && !Blank(Seen(rest))
    requires Joined(parts) == Printed(es + [done]) + rest && |Joined(parts)| <= 65_536
    ensures Probed(parts, judge) == Error("inference_stream_incomplete")
  {
    assert [done] == [done] + [];
    EventsThen(es + [done], rest, parts, judge);
    HarmlessThen(es, done, [], Seen(rest), judge);
    NothingMore(Seen(rest), Told(Tally(START, es, judge), done, judge), judge);
  }

  lemma {:induction false} ChunksOfChunks(es: seq<Event>, judge: Judge)
    requires forall i :: 0 <= i < |es| ==> IsChunk(es[i], judge)
    ensures Harmless(es, judge) && Chunks(es, judge) == |es|
    decreases |es|
  {
    if es != [] { ChunksOfChunks(es[1..], judge); }
  }

  /** n chunks and the end: verified, with n chunks. */
  lemma {:induction false} StreamOfChunksIsVerified(es: seq<Event>, done: Event, parts: seq<Bytes>, judge: Judge)
    requires es != [] && AllProper(es + [done]) && Done(done) && forall i :: 0 <= i < |es| ==> IsChunk(es[i], judge)
    requires Joined(parts) == Printed(es + [done]) && |Joined(parts)| <= 65_536
    ensures Probed(parts, judge) == Verified(|es|, exists i :: 0 <= i < |es| && judge(Says(es[i])) == Chunk(true))
  {
    ChunksOfChunks(es, judge);
    CompleteStreamIsCounted(es, done, parts, judge);
    forall i | 0 <= i < |es| ensures CallsTool(es[i], judge) <==> judge(Says(es[i])) == Chunk(true) {}
  }
}
