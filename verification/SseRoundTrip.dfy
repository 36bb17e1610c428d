/** Printing an event stream and decoding it again. */
module SseRoundTrip {
  import opened Domain
  import opened Sse

  datatype Ending = Lf | Cr | CrLf {
    function Chars(): string {
      match this
      case Lf => [LF]
      case Cr => [CR]
      case CrLf => [CR, LF]
    }
  }

  /** A line of text and the terminator after it. */
  datatype Printed = Printed(text: string, end: Ending)

  function Print(ls: seq<Printed>, tail: string): string {
    if ls == [] then tail else ls[0].text + ls[0].end.Chars() + Print(ls[1..], tail)
  }

  predicate Clean(ls: seq<Printed>) { forall i :: 0 <= i < |ls| ==> NoBreak(ls[i].text) }

  function Texts(ls: seq<Printed>): seq<string> { seq(|ls|, i requires 0 <= i < |ls| => ls[i].text) }

  /** The CR of a line and the LF of an empty line after it read as one terminator. */
  predicate Merges(ls: seq<Printed>, i: nat) {
    i + 1 < |ls| && ls[i].end.Cr? && ls[i + 1] == Printed("", Lf)
  }

  ghost predicate Ambiguous(ls: seq<Printed>) { exists i: nat :: Merges(ls, i) }

  function Next(ls: seq<Printed>): seq<Printed>
    requires ls != []
  {
    if Merges(ls, 0) then ls[2..] else ls[1..]
  }

  /** The lines left when every merged empty line is dropped. */
  function Surviving(ls: seq<Printed>): seq<string> {
    if ls == [] then []
    else [ls[0].text] + Surviving(Next(ls))
  }

  // ---------------------------------------------------------------- lines

  function Norm(s: string): string { CrToLf(CrlfToLf(s)) }

  lemma {:induction false} NormText(t: string, rest: string)
    requires NoBreak(t)
    ensures Norm(t + rest) == t + Norm(rest)
  {
    if t == "" {
      assert t + rest == rest && t + Norm(rest) == Norm(rest);
    } else {
      assert (t + rest)[0] == t[0] && (t + rest)[1..] == t[1..] + rest;
      assert CrlfToLf(t + rest) == [t[0]] + CrlfToLf(t[1..] + rest);
      NormText(t[1..], rest);
    }
  }

  lemma NormEnding(end: Ending, rest: string)
    ensures Norm(end.Chars() + rest) ==
            [LF] + Norm(if end.Cr? && rest != "" && rest[0] == LF then rest[1..] else rest)
  {
    var s := end.Chars() + rest;
    assert s[|end.Chars()|..] == rest;
    if end.Cr? && rest != "" && rest[0] == LF { assert s[2..] == rest[1..]; }
  }

  lemma {:induction false} SplitText(t: string, rest: string)
    requires NoBreak(t)
    ensures SplitLf(t + [LF] + rest) == [t] + SplitLf(rest) && SplitLf(t) == [t]
  {
    var s := t + [LF] + rest;
    if t == "" {
      assert s[0] == LF && s[1..] == rest;
    } else {
      assert s[0] == t[0] && s[1..] == t[1..] + [LF] + rest;
      SplitText(t[1..], rest);
      assert [t[0]] + t[1..] == t;
      assert ([t[1..]] + SplitLf(rest))[1..] == SplitLf(rest);
    }
  }

  lemma {:induction false} PrintStarts(ls: seq<Printed>, tail: string)
    requires Clean(ls) && NoBreak(tail)
    ensures var s := Print(ls, tail);
            (s != "" && s[0] == LF) == (ls != [] && ls[0] == Printed("", Lf))
  {
    if ls != [] {
      assert NoBreak(ls[0].text);
      if ls[0].text != "" { assert ls[0].text[0] in ls[0].text; }
    } else if tail != "" {
      assert tail[0] in tail;
    }
  }

  lemma {:induction false} NormOfPrint(ls: seq<Printed>, tail: string)
    requires ls != [] && Clean(ls) && NoBreak(tail)
    ensures Norm(Print(ls, tail)) == ls[0].text + ([LF] + Norm(Print(Next(ls), tail)))
  {
    var t, end, rest := ls[0].text, ls[0].end, Print(ls[1..], tail);
    assert NoBreak(t);
    assert Print(ls, tail) == t + (end.Chars() + rest);
    NormText(t, end.Chars() + rest);
    NormEnding(end, rest);
    PrintStarts(ls[1..], tail);
    if Merges(ls, 0) {
      assert ls[1..][1..] == ls[2..];
      assert rest[1..] == Print(ls[2..], tail);
    }
  }

  lemma {:induction false} LinesOfPrint(ls: seq<Printed>, tail: string)
    requires Clean(ls) && NoBreak(tail)
    ensures Lines(Print(ls, tail)) == Surviving(ls) + [tail]
    decreases |ls|
  {
    if ls == [] {
      NormText(tail, "");
      assert tail + "" == tail;
      SplitText(tail, "");
    } else {
      var t, rest := ls[0].text, Norm(Print(Next(ls), tail));
      assert NoBreak(t);
      NormOfPrint(ls, tail);
      assert t + ([LF] + rest) == t + [LF] + rest;
      SplitText(t, rest);
      LinesOfPrint(Next(ls), tail);
      assert [t] + (Surviving(Next(ls)) + [tail]) == [t] + Surviving(Next(ls)) + [tail];
    }
  }

  lemma {:induction false} SurvivingIff(ls: seq<Printed>)
    ensures |Surviving(ls)| <= |ls|
    ensures Surviving(ls) == Texts(ls) <==> !Ambiguous(ls)
    ensures Ambiguous(ls) ==> |Surviving(ls)| < |ls|
    decreases |ls|
  {
    if ls != [] {
      if Merges(ls, 0) {
        SurvivingIff(ls[2..]);
      } else {
        SurvivingIff(ls[1..]);
        assert Texts(ls) == [ls[0].text] + Texts(ls[1..]);
        assert Surviving(ls)[1..] == Surviving(ls[1..]) && Texts(ls)[1..] == Texts(ls[1..]);
        forall i: nat | Merges(ls, i) ensures Ambiguous(ls[1..]) { assert Merges(ls[1..], i - 1); }
        forall i: nat | Merges(ls[1..], i) ensures Ambiguous(ls) { assert Merges(ls, i + 1); }
      }
    }
  }

  /** Printed lines are read back one for one exactly if no line ended by CR is followed by an empty
      line ended by LF. */
  lemma {:induction false} LinesComeBackIff(ls: seq<Printed>, tail: string)
    requires Clean(ls) && NoBreak(tail)
    ensures Lines(Print(ls, tail)) == Texts(ls) + [tail] <==> !Ambiguous(ls)
  {
    LinesOfPrint(ls, tail);
    SurvivingIff(ls);
    assert |Texts(ls)| == |ls|;
    assert (Surviving(ls) + [tail])[..|Surviving(ls)|] == Surviving(ls);
    assert (Texts(ls) + [tail])[..|ls|] == Texts(ls);
  }

  // ---------------------------------------------------------------- events

  /** How a data line is written: with a space after the colon, without it, or without the colon. */
  datatype Form = Spaced | Tight | Bare

  /** A data line, a comment or field the decoder ignores, or the end of an event. */
  datatype Line = Data(value: string, form: Form) | Ignored(text: string) | Blank {
    function Text(): string {
      match this
      case Data(value, Spaced) => "data: " + value
      case Data(value, Tight) => "data:" + value
      case Data(_, Bare) => "data"
      case Ignored(text) => text
      case Blank => ""
    }

    /** No value has a line break; one with a space in front needs the space after the colon, and only
        the empty value is written without it. */
    predicate Proper() {
      match this
      case Data(value, Spaced) => NoBreak(value)
      case Data(value, Tight) => NoBreak(value) && (value != "" ==> value[0] != ' ')
      case Data(value, Bare) => value == ""
      case Ignored(text) => NoBreak(text) && text != "" && text != "data" && !("data:" <= text)
      case Blank => true
    }
  }

  predicate AllProper(ls: seq<Line>) { forall i :: 0 <= i < |ls| ==> ls[i].Proper() }

  /** The event texts a stream stands for, after the data lines of an unfinished event. */
  function Meaning(ls: seq<Line>, data: seq<string>): seq<string> {
    if ls == [] then Flush(data)
    else match ls[0]
      case Data(value, _) => Meaning(ls[1..], data + [value])
      case Ignored(_) => Meaning(ls[1..], data)
      case Blank => Flush(data) + Meaning(ls[1..], [])
  }

  function LineTexts(ls: seq<Line>): seq<string> { seq(|ls|, i requires 0 <= i < |ls| => ls[i].Text()) }

  lemma {:induction false} PartitionFindsColon(name: string, value: string)
    requires ':' !in name
    ensures Partition(name + ":" + value) == (name, Some(value))
  {
    var s := name + ":" + value;
    if name == "" {
      assert s[0] == ':' && s[1..] == value;
    } else {
      assert s[0] == name[0] && s[1..] == name[1..] + ":" + value;
      PartitionFindsColon(name[1..], value);
      assert [name[0]] + name[1..] == name;
    }
  }

  lemma DataLineCarries(line: Line)
    requires line.Data? && line.Proper()
    ensures DataOf(line.Text()) == [line.value]
  {
    match line
    case Data(value, Spaced) =>
      PartitionFindsColon("data", " " + value);
      assert "data" + ":" + (" " + value) == "data: " + value;
      assert (" " + value)[1..] == value;
    case Data(value, Tight) =>
      PartitionFindsColon("data", value);
      assert "data" + ":" + value == "data:" + value;
    case Data(_, Bare) => PartitionOfName("data");
  }

  lemma {:induction false} PartitionOfName(name: string)
    requires ':' !in name
    ensures Partition(name) == (name, None)
  {
    if name != "" {
      PartitionOfName(name[1..]);
      assert [name[0]] + name[1..] == name;
    }
  }

  /** The field name of a line is what stands before its first colon. */
  lemma {:induction false} PartitionSplits(line: string)
    ensures var (name, value) := Partition(line);
            line == if value.Some? then name + ":" + value.value else name
  {
    if line != "" {
      if line[0] == ':' {
        assert line == "" + ":" + line[1..];
      } else {
        PartitionSplits(line[1..]);
        assert line == [line[0]] + line[1..];
      }
    }
  }

  lemma IgnoredLineCarriesNothing(line: Line)
    requires line.Ignored? && line.Proper()
    ensures DataOf(line.Text()) == []
  {
    PartitionSplits(line.text);
  }

  lemma {:induction false} PayloadsAreMeaning(ls: seq<Line>, data: seq<string>)
    requires AllProper(ls)
    ensures Payloads(LineTexts(ls) + [""], data) == Meaning(ls, data)
    decreases |ls|
  {
    var texts := LineTexts(ls) + [""];
    if ls == [] {
      assert texts == [""] && texts[1..] == [] && Flush(data) + Payloads([], []) == Flush(data);
    } else {
      assert ls[0].Proper() && texts[0] == ls[0].Text() && texts[1..] == LineTexts(ls[1..]) + [""];
      match ls[0]
      case Data(value, _) =>
        DataLineCarries(ls[0]);
        PayloadsAreMeaning(ls[1..], data + [value]);
      case Ignored(text) =>
        IgnoredLineCarriesNothing(ls[0]);
        assert data + [] == data;
        PayloadsAreMeaning(ls[1..], data);
      case Blank =>
        PayloadsAreMeaning(ls[1..], []);
    }
  }

  // ---------------------------------------------------------------- the round trip

  /** The payloads as data lines, each ended by a blank line. */
  function Rendered(payloads: seq<seq<string>>): seq<Line> {
    if payloads == [] then [] else DataLines(payloads[0]) + [Blank] + Rendered(payloads[1..])
  }

  function DataLines(values: seq<string>): seq<Line> {
    if values == [] then [] else [Data(values[0], Spaced)] + DataLines(values[1..])
  }

  /** What a stream says: without the ignored lines, however the data lines are written. */
  function Erased(ls: seq<Line>): seq<Line> {
    if ls == [] then []
    else (if ls[0].Ignored? then [] else if ls[0].Data? then [Data(ls[0].value, Spaced)] else [Blank]) + Erased(ls[1..])
  }

  function Joined(payloads: seq<seq<string>>): seq<string> {
    if payloads == [] then [] else [Join(payloads[0])] + Joined(payloads[1..])
  }

  lemma {:induction false} IgnoredLinesMeanNothing(ls: seq<Line>, data: seq<string>)
    ensures Meaning(Erased(ls), data) == Meaning(ls, data)
    decreases |ls|
  {
    if ls != [] {
      var next := if ls[0].Data? then data + [ls[0].value] else if ls[0].Blank? then [] else data;
      IgnoredLinesMeanNothing(ls[1..], next);
      if ls[0].Ignored? {
        assert Erased(ls) == Erased(ls[1..]);
      } else {
        assert Erased(ls)[1..] == Erased(ls[1..]);
      }
    }
  }

  lemma {:induction false} DataLinesGather(values: seq<string>, rest: seq<Line>, data: seq<string>)
    ensures Meaning(DataLines(values) + rest, data) == Meaning(rest, data + values)
    decreases |values|
  {
    if values == [] {
      assert DataLines(values) + rest == rest && data + values == data;
    } else {
      var ls := DataLines(values) + rest;
      assert ls[0] == Data(values[0], Spaced) && ls[1..] == DataLines(values[1..]) + rest;
      DataLinesGather(values[1..], rest, data + [values[0]]);
      assert data + [values[0]] + values[1..] == data + values;
    }
  }

  lemma {:induction false} RenderedMeansPayloads(payloads: seq<seq<string>>)
    requires [] !in payloads
    ensures Meaning(Rendered(payloads), []) == Joined(payloads)
    decreases |payloads|
  {
    if payloads != [] {
      var rest := [Blank] + Rendered(payloads[1..]);
      assert Rendered(payloads) == DataLines(payloads[0]) + rest;
      DataLinesGather(payloads[0], rest, []);
      assert [] + payloads[0] == payloads[0];
      assert rest[1..] == Rendered(payloads[1..]);
      assert payloads[0] in payloads && forall p :: p in payloads[1..] ==> p in payloads;
      RenderedMeansPayloads(payloads[1..]);
    }
  }

  function Laid(ls: seq<Line>, ends: seq<Ending>): seq<Printed>
    requires |ls| == |ends|
  {
    seq(|ls|, i requires 0 <= i < |ls| => Printed(ls[i].Text(), ends[i]))
  }

  lemma LaidIsClean(ls: seq<Line>, ends: seq<Ending>)
    requires |ls| == |ends| && AllProper(ls)
    ensures Clean(Laid(ls, ends)) && Texts(Laid(ls, ends)) == LineTexts(ls)
  {
    forall i | 0 <= i < |ls| ensures NoBreak(ls[i].Text()) { assert ls[i].Proper(); }
  }

  /** Payloads printed as data lines, each with the space after the colon or without, with ignored
      lines anywhere between and any terminators that do not run together, are decoded to exactly their
      texts. */
  lemma {:induction false} RoundTrip(payloads: seq<seq<string>>, ls: seq<Line>, ends: seq<Ending>)
    requires [] !in payloads && AllProper(ls) && Erased(ls) == Rendered(payloads)
    requires |ls| == |ends| && !Ambiguous(Laid(ls, ends))
    ensures Payloads(Lines(Print(Laid(ls, ends), "")), []) == Joined(payloads)
  {
    LaidIsClean(ls, ends);
    LinesComeBackIff(Laid(ls, ends), "");
    PayloadsAreMeaning(ls, []);
    IgnoredLinesMeanNothing(ls, []);
    RenderedMeansPayloads(payloads);
  }

  /** One terminator throughout never runs together. */
  lemma {:induction false} UniformRoundTrip(payloads: seq<seq<string>>, ls: seq<Line>, end: Ending)
    requires [] !in payloads && AllProper(ls) && Erased(ls) == Rendered(payloads)
    ensures Payloads(Lines(Print(Laid(ls, seq(|ls|, _ => end)), "")), []) == Joined(payloads)
  {
    var laid := Laid(ls, seq(|ls|, _ => end));
    assert forall i: nat :: i < |laid| ==> laid[i].end == end;
    RoundTrip(payloads, ls, seq(|ls|, _ => end));
  }

  /** With the JSON values: a nonempty list of values comes back. */
  lemma {:induction false} ValuesRoundTrip<T>(values: seq<T>, payloads: seq<seq<string>>, ls: seq<Line>, end: Ending, parse: string -> Option<T>)
    requires |values| == |payloads| > 0 && [] !in payloads && AllProper(ls) && Erased(ls) == Rendered(payloads)
    requires forall i :: 0 <= i < |values| ==> parse(Join(payloads[i])) == Some(values[i])
    ensures Decoding(Payloads(Lines(Print(Laid(ls, seq(|ls|, _ => end)), "")), []), parse) == Events(values)
  {
    UniformRoundTrip(payloads, ls, end);
    ParsedIsValues(values, payloads, parse);
  }

  lemma {:induction false} ParsedIsValues<T>(values: seq<T>, payloads: seq<seq<string>>, parse: string -> Option<T>)
    requires |values| == |payloads|
    requires forall i :: 0 <= i < |values| ==> parse(Join(payloads[i])) == Some(values[i])
    ensures Parsed(Joined(payloads), parse) == Some(values)
    decreases |values|
  {
    if values != [] {
      ParsedIsValues(values[1..], payloads[1..], parse);
      assert Joined(payloads)[1..] == Joined(payloads[1..]);
      assert [values[0]] + values[1..] == values;
    }
  }

  /** The blank line after the last event is not needed. */
  lemma {:induction false} UnterminatedEventIsKept(lines: seq<string>, data: seq<string>)
    ensures Payloads(lines + [""], data) == Payloads(lines, data)
    decreases |lines|
  {
    if lines == [] {
      assert ([] + [""])[1..] == [] && Flush(data) + Payloads([], []) == Flush(data);
    } else {
      assert (lines + [""])[0] == lines[0] && (lines + [""])[1..] == lines[1..] + [""];
      UnterminatedEventIsKept(lines[1..], if lines[0] == "" then [] else data + DataOf(lines[0]));
    }
  }

  lemma DataLine(value: string)
    ensures DataLines([value]) == [Data(value, Spaced)]
  {
    assert [value][1..] == [];
  }

  lemma JoinedEvent(a: string, b: string)
    requires NoBreak(a) && NoBreak(b)
    ensures Payloads(LineTexts([Data(a, Spaced), Data(b, Spaced), Blank]) + [""], []) == [a + [LF] + b]
  {
    var ls := [Data(a, Spaced), Data(b, Spaced), Blank];
    PayloadsAreMeaning(ls, []);
    DataLine(b);
    assert [a, b][1..] == [b];
    assert DataLines([a, b]) == [Data(a, Spaced), Data(b, Spaced)];
    assert ls == DataLines([a, b]) + [Blank];
    DataLinesGather([a, b], [Blank], []);
    assert [] + [a, b] == [a, b] && [a, b][1..] == [b] && [Blank][1..] == [];
    assert Meaning([Blank], [a, b]) == Flush([a, b]) + Meaning([], []) == [Join([a, b])];
  }

  lemma TwoEventsRendered(a: string, b: string)
    ensures Rendered([[a], [b]]) == [Data(a, Spaced), Blank, Data(b, Spaced), Blank]
    ensures Joined([[a], [b]]) == [a, b]
  {
    assert [[a], [b]][1..] == [[b]] && [[b]][1..] == [] && [a][1..] == [] && [b][1..] == [];
    DataLine(a);
    DataLine(b);
    assert Rendered([[b]]) == [Data(b, Spaced), Blank];
    assert Joined([[b]]) == [b] + [];
  }

  /** Terminators that run together join two events: CR after the data, LF for the blank line. */
  lemma MixedTerminatorsJoinEvents(a: string, b: string)
    requires NoBreak(a) && NoBreak(b)
    ensures var ls := [Data(a, Spaced), Blank, Data(b, Spaced), Blank];
            && ls == Rendered([[a], [b]])
            && Payloads(Lines(Print(Laid(ls, [Cr, Lf, Lf, Lf]), "")), []) == [a + [LF] + b]
            && Joined([[a], [b]]) == [a, b]
  {
    var ls := [Data(a, Spaced), Blank, Data(b, Spaced), Blank];
    var laid := Laid(ls, [Cr, Lf, Lf, Lf]);
    TwoEventsRendered(a, b);
    LaidIsClean(ls, [Cr, Lf, Lf, Lf]);
    LinesOfPrint(laid, "");
    assert Merges(laid, 0);
    var last := [laid[3]];
    assert laid[2..][1..] == last && last[1..] == [];
    assert Surviving(last) == [""] + [] && Surviving(laid[2..]) == [laid[2].text] + Surviving(last);
    assert Surviving(laid) == LineTexts([Data(a, Spaced), Data(b, Spaced), Blank]);
    JoinedEvent(a, b);
  }
}
