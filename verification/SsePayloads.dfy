/** When the event texts themselves come back, although terminators may run together. */
module SsePayloads {
  import opened Domain
  import opened Sse
  import opened SseRoundTrip

  predicate HasData(ls: seq<Line>) { exists i :: 0 <= i < |ls| && ls[i].Data? }

  /** The blank line after line i is lost, and there is data behind it. */
  predicate Joins(ls: seq<Line>, ends: seq<Ending>, i: nat)
    requires |ls| == |ends|
  {
    Merges(Laid(ls, ends), i) && HasData(ls[i + 2..])
  }

  ghost predicate JoinsSomewhere(ls: seq<Line>, ends: seq<Ending>)
    requires |ls| == |ends|
  {
    exists i: nat :: Joins(ls, ends, i)
  }

  /** The lines the decoder sees. */
  function Left(ls: seq<Line>, ends: seq<Ending>): seq<Line>
    requires |ls| == |ends|
  {
    if ls == [] then []
    else if Merges(Laid(ls, ends), 0) then [ls[0]] + Left(ls[2..], ends[2..])
    else [ls[0]] + Left(ls[1..], ends[1..])
  }

  lemma LaidFrom(ls: seq<Line>, ends: seq<Ending>, n: nat)
    requires |ls| == |ends| && n <= |ls|
    ensures Laid(ls, ends)[n..] == Laid(ls[n..], ends[n..])
  {}

  lemma ProperFrom(ls: seq<Line>, n: nat)
    requires n <= |ls| && AllProper(ls)
    ensures AllProper(ls[n..])
  {}

  lemma {:induction false} LeftSurvives(ls: seq<Line>, ends: seq<Ending>)
    requires |ls| == |ends| && AllProper(ls)
    ensures Surviving(Laid(ls, ends)) == LineTexts(Left(ls, ends)) && AllProper(Left(ls, ends))
    decreases |ls|
  {
    if ls != [] {
      var n := if Merges(Laid(ls, ends), 0) then 2 else 1;
      LaidFrom(ls, ends, n);
      ProperFrom(ls, n);
      LeftSurvives(ls[n..], ends[n..]);
      OneMoreText(ls[0], Left(ls[n..], ends[n..]));
    }
  }

  lemma OneMoreText(line: Line, rest: seq<Line>)
    ensures LineTexts([line] + rest) == [line.Text()] + LineTexts(rest)
    ensures line.Proper() && AllProper(rest) ==> AllProper([line] + rest)
  {}

  lemma {:induction false} DecodingIsOfLeft(ls: seq<Line>, ends: seq<Ending>)
    requires |ls| == |ends| && AllProper(ls)
    ensures Payloads(Lines(Print(Laid(ls, ends), "")), []) == Meaning(Left(ls, ends), [])
  {
    LaidIsClean(ls, ends);
    LinesOfPrint(Laid(ls, ends), "");
    LeftSurvives(ls, ends);
    PayloadsAreMeaning(Left(ls, ends), []);
  }

  // ---------------------------------------------------------------- framed streams

  /** Every blank line ends an event with data, and no data is left at the end. */
  predicate Framed(ls: seq<Line>, open: bool) {
    if ls == [] then !open
    else match ls[0]
      case Data(_, _) => Framed(ls[1..], true)
      case Ignored(_) => Framed(ls[1..], open)
      case Blank => open && Framed(ls[1..], false)
  }

  lemma {:induction false} ErasedIsFramed(ls: seq<Line>, open: bool)
    ensures Framed(Erased(ls), open) == Framed(ls, open)
    decreases |ls|
  {
    if ls != [] {
      ErasedIsFramed(ls[1..], if ls[0].Data? then true else if ls[0].Blank? then false else open);
      if ls[0].Ignored? {
        assert Erased(ls) == Erased(ls[1..]);
      } else {
        assert Erased(ls)[1..] == Erased(ls[1..]);
      }
    }
  }

  lemma {:induction false} DataLinesAreFramed(values: seq<string>, rest: seq<Line>, open: bool)
    ensures Framed(DataLines(values) + rest, open) == Framed(rest, open || values != [])
    decreases |values|
  {
    if values == [] {
      assert DataLines(values) + rest == rest;
    } else {
      var ls := DataLines(values) + rest;
      assert ls[0] == Data(values[0], Spaced) && ls[1..] == DataLines(values[1..]) + rest;
      DataLinesAreFramed(values[1..], rest, true);
    }
  }

  lemma {:induction false} RenderedIsFramed(payloads: seq<seq<string>>)
    requires [] !in payloads
    ensures Framed(Rendered(payloads), false)
    decreases |payloads|
  {
    if payloads != [] {
      var rest := [Blank] + Rendered(payloads[1..]);
      assert Rendered(payloads) == DataLines(payloads[0]) + rest && rest[1..] == Rendered(payloads[1..]);
      DataLinesAreFramed(payloads[0], rest, false);
      assert payloads[0] in payloads && forall p :: p in payloads[1..] ==> p in payloads;
      RenderedIsFramed(payloads[1..]);
    }
  }

  function Blanks(ls: seq<Line>): nat { if ls == [] then 0 else (if ls[0].Blank? then 1 else 0) + Blanks(ls[1..]) }

  lemma {:induction false} FramedCount(ls: seq<Line>, data: seq<string>)
    requires Framed(ls, data != [])
    ensures |Meaning(ls, data)| == Blanks(ls)
    decreases |ls|
  {
    if ls != [] {
      FramedCount(ls[1..], if ls[0].Data? then data + [ls[0].value] else if ls[0].Blank? then [] else data);
    }
  }

  // ---------------------------------------------------------------- nothing but ignored lines

  lemma HasDataFrom(ls: seq<Line>, n: nat)
    requires n <= |ls| && HasData(ls[n..])
    ensures HasData(ls)
  {
    var i :| 0 <= i < |ls[n..]| && ls[n..][i].Data?;
    assert ls[n + i].Data?;
  }

  lemma FirstOrLater(ls: seq<Line>)
    requires ls != []
    ensures HasData(ls) <==> ls[0].Data? || HasData(ls[1..])
  {
    if i :| 0 <= i < |ls| && ls[i].Data? {
      if i > 0 { assert ls[1..][i - 1].Data?; }
    }
    if HasData(ls[1..]) { HasDataFrom(ls, 1); }
  }

  /** What a merge drops is a blank line. */
  lemma MergedIsBlank(ls: seq<Line>, ends: seq<Ending>)
    requires |ls| == |ends| && AllProper(ls) && Merges(Laid(ls, ends), 0)
    ensures ls[1].Blank? && ls[1..][0] == ls[1] && ls[1..][1..] == ls[2..]
  {
    assert ls[1].Proper() && ls[1].Text() == "";
  }

  /** Without data and with no event open, a framed stream is all ignored lines. */
  lemma {:induction false} QuietMeansNothing(ls: seq<Line>, ends: seq<Ending>, data: seq<string>)
    requires |ls| == |ends| && AllProper(ls) && Framed(ls, false) && !HasData(ls)
    ensures Meaning(ls, data) == Flush(data) == Meaning(Left(ls, ends), data) && Blanks(ls) == 0
    decreases |ls|
  {
    if ls != [] {
      FirstOrLater(ls);
      ProperFrom(ls, 1);
      QuietMeansNothing(ls[1..], ends[1..], data);
      if Merges(Laid(ls, ends), 0) { MergedIsBlank(ls, ends); }
    }
  }

  // ---------------------------------------------------------------- the condition

  lemma JoinsFrom(ls: seq<Line>, ends: seq<Ending>, n: nat, i: nat)
    requires |ls| == |ends| && n <= |ls|
    ensures Joins(ls[n..], ends[n..], i) <==> Joins(ls, ends, n + i)
  {
    LaidFrom(ls, ends, n);
    var laid := Laid(ls, ends);
    assert Merges(laid[n..], i) <==> Merges(laid, n + i);
    if Merges(laid, n + i) { assert ls[n..][i + 2..] == ls[n + i + 2..]; }
  }

  /** Where the first line does not merge. */
  lemma JoinsLater(ls: seq<Line>, ends: seq<Ending>)
    requires |ls| == |ends| && ls != [] && !Merges(Laid(ls, ends), 0)
    ensures JoinsSomewhere(ls, ends) <==> JoinsSomewhere(ls[1..], ends[1..])
  {
    if i: nat :| Joins(ls, ends, i) { JoinsFrom(ls, ends, 1, i - 1); }
    if i: nat :| Joins(ls[1..], ends[1..], i) { JoinsFrom(ls, ends, 1, i); }
  }

  /** And where it does: the blank line after it is ended by LF and cannot merge again. */
  lemma JoinsHere(ls: seq<Line>, ends: seq<Ending>)
    requires |ls| == |ends| && Merges(Laid(ls, ends), 0)
    ensures JoinsSomewhere(ls, ends) <==> HasData(ls[2..])
  {
    assert Joins(ls, ends, 0) <==> HasData(ls[2..]);
    if i: nat :| Joins(ls, ends, i) {
      assert !Merges(Laid(ls, ends), 1);
      if i >= 2 {
        assert ls[i + 2..] == ls[2..][i..];
        HasDataFrom(ls[2..], i);
      }
    }
  }

  /** A line that stays, and what the unfinished event is after it. */
  function Held(line: Line, data: seq<string>): seq<string> { if line.Data? then data + [line.value] else data }

  lemma LeftStep(ls: seq<Line>, ends: seq<Ending>, data: seq<string>)
    requires |ls| == |ends| && ls != [] && !ls[0].Blank?
    ensures var n := if Merges(Laid(ls, ends), 0) then 2 else 1;
            Meaning(Left(ls, ends), data) == Meaning(Left(ls[n..], ends[n..]), Held(ls[0], data))
  {
    var n := if Merges(Laid(ls, ends), 0) then 2 else 1;
    assert Left(ls, ends)[1..] == Left(ls[n..], ends[n..]);
  }

  lemma {:induction false} LeftBlank(ls: seq<Line>, ends: seq<Ending>, data: seq<string>)
    requires |ls| == |ends| && AllProper(ls) && ls != [] && ls[0].Blank? && Framed(ls, data != [])
    ensures !Merges(Laid(ls, ends), 0)
    ensures Meaning(Left(ls, ends), data) == Flush(data) + Meaning(Left(ls[1..], ends[1..]), [])
  {
    if Merges(Laid(ls, ends), 0) { MergedIsBlank(ls, ends); }
    assert Left(ls, ends)[1..] == Left(ls[1..], ends[1..]);
  }

  /** If no merged blank line has data behind it, the meaning is unchanged. */
  lemma {:induction false} NothingJoined(ls: seq<Line>, ends: seq<Ending>, data: seq<string>)
    requires |ls| == |ends| && AllProper(ls) && Framed(ls, data != []) && !JoinsSomewhere(ls, ends)
    ensures Meaning(Left(ls, ends), data) == Meaning(ls, data)
    decreases |ls|
  {
    if ls != [] {
      ProperFrom(ls, 1);
      if Merges(Laid(ls, ends), 0) {
        MergedIsBlank(ls, ends);
        JoinsHere(ls, ends);
        ProperFrom(ls, 2);
        assert !ls[0].Blank?;
        LeftStep(ls, ends, data);
        QuietMeansNothing(ls[2..], ends[2..], Held(ls[0], data));
        QuietMeansNothing(ls[2..], ends[2..], []);
        assert Flush(Held(ls[0], data)) + [] == Flush(Held(ls[0], data));
      } else {
        JoinsLater(ls, ends);
        if ls[0].Blank? { LeftBlank(ls, ends, data); } else { LeftStep(ls, ends, data); }
        NothingJoined(ls[1..], ends[1..], if ls[0].Blank? then [] else Held(ls[0], data));
      }
    }
  }

  function Count(b: bool): nat { if b then 1 else 0 }

  /** The decoder finds at most one event a blank line, and one more if data carried over a merged
      blank line meets no other; and one less as soon as two events are joined. */
  lemma {:induction false} EventsAreLost(ls: seq<Line>, ends: seq<Ending>, open: bool, data: seq<string>)
    requires |ls| == |ends| && AllProper(ls) && Framed(ls, open) && (open ==> data != [])
    ensures |Meaning(Left(ls, ends), data)| + Count(JoinsSomewhere(ls, ends))
         <= Blanks(ls) + Count(!open && data != [] && !HasData(ls))
    decreases |ls|
  {
    if ls != [] {
      ProperFrom(ls, 1);
      if Merges(Laid(ls, ends), 0) {
        MergedIsBlank(ls, ends);
        JoinsHere(ls, ends);
        ProperFrom(ls, 2);
        LeftStep(ls, ends, data);
        EventsAreLost(ls[2..], ends[2..], false, Held(ls[0], data));
        OpenedByData(ls, open);
      } else {
        JoinsLater(ls, ends);
        if ls[0].Blank? {
          LeftBlank(ls, ends, data);
          EventsAreLost(ls[1..], ends[1..], false, []);
        } else {
          LeftStep(ls, ends, data);
          EventsAreLost(ls[1..], ends[1..], open || ls[0].Data?, Held(ls[0], data));
          FirstOrLater(ls);
        }
      }
    }
  }

  /** A blank line needs an open event, so one of the lines up to it is data. */
  lemma {:induction false} OpenedByData(ls: seq<Line>, open: bool)
    requires |ls| >= 2 && ls[1].Blank? && ls[1..][0] == ls[1] && Framed(ls, open)
    ensures open || HasData(ls)
  {}

  /** Payloads printed as data lines, with ignored lines anywhere between, are decoded to exactly their
      texts unless a blank line that merges with the CR before it has more data behind it: then two
      events are joined. The last blank line may merge. */
  lemma {:induction false} PayloadsComeBackIff(payloads: seq<seq<string>>, ls: seq<Line>, ends: seq<Ending>)
    requires [] !in payloads && AllProper(ls) && Erased(ls) == Rendered(payloads) && |ls| == |ends|
    ensures Payloads(Lines(Print(Laid(ls, ends), "")), []) == Joined(payloads) <==> !JoinsSomewhere(ls, ends)
  {
    DecodingIsOfLeft(ls, ends);
    IgnoredLinesMeanNothing(ls, []);
    RenderedMeansPayloads(payloads);
    RenderedIsFramed(payloads);
    ErasedIsFramed(ls, false);
    FramedCount(ls, []);
    EventsAreLost(ls, ends, false, []);
    if !JoinsSomewhere(ls, ends) { NothingJoined(ls, ends, []); }
  }
}
