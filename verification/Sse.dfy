/** The event-stream decoder of the MCP transport, and the round trip from printed streams.

    Lines and fields are those of sections 9.2.5 and 9.2.6 of the WHATWG HTML Living Standard. Two
    differences are the code's own: an event not followed by a blank line is still delivered, and a
    leading byte order mark is not dropped. JSON decoding is the parameter `parse`. */
module Sse {
  import opened Domain

  const CR := '\r'
  const LF := '\n'

  predicate NoBreak(s: string) { CR !in s && LF !in s }

  // ---------------------------------------------------------------- the decoder

  /** Every CRLF replaced by LF. */
  function CrlfToLf(s: string): string {
    if s == "" then ""
    else if |s| >= 2 && s[0] == CR && s[1] == LF then [LF] + CrlfToLf(s[2..])
    else [s[0]] + CrlfToLf(s[1..])
  }

  /** Every CR replaced by LF. */
  function CrToLf(s: string): string {
    if s == "" then "" else [if s[0] == CR then LF else s[0]] + CrToLf(s[1..])
  }

  function SplitLf(s: string): (lines: seq<string>)
    ensures |lines| >= 1
  {
    if s == "" then [""]
    else
      var rest := SplitLf(s[1..]);
      if s[0] == LF then [""] + rest else [[s[0]] + rest[0]] + rest[1..]
  }

  function Lines(text: string): seq<string> { SplitLf(CrToLf(CrlfToLf(text))) }

  /** The text before the first colon, and after it if there is one. */
  function Partition(line: string): (string, Option<string>) {
    if line == "" then ("", None)
    else if line[0] == ':' then ("", Some(line[1..]))
    else
      var (name, value) := Partition(line[1..]);
      ([line[0]] + name, value)
  }

  function Value(value: Option<string>): string {
    if value.None? then "" else if value.value != "" && value.value[0] == ' ' then value.value[1..] else value.value
  }

  /** The data a line contributes, if it is a data field. */
  function DataOf(line: string): seq<string> {
    if line != "" && line[0] == ':' then []
    else if Partition(line).0 == "data" then [Value(Partition(line).1)] else []
  }

  function Join(parts: seq<string>): string {
    if parts == [] then "" else if |parts| == 1 then parts[0] else parts[0] + [LF] + Join(parts[1..])
  }

  function Flush(data: seq<string>): seq<string> { if data == [] then [] else [Join(data)] }

  /** The payload texts of the lines, after the data lines `data` of an unfinished event. */
  function Payloads(lines: seq<string>, data: seq<string>): seq<string> {
    if lines == [] then Flush(data)
    else if lines[0] == "" then Flush(data) + Payloads(lines[1..], [])
    else Payloads(lines[1..], data + DataOf(lines[0]))
  }

  datatype Decoded<+T> = Events(values: seq<T>) | MalformedJson | NoEvents

  function Parsed<T>(payloads: seq<string>, parse: string -> Option<T>): Option<seq<T>> {
    if payloads == [] then Some([])
    else
      var first := parse(payloads[0]);
      var rest := Parsed(payloads[1..], parse);
      if first.None? || rest.None? then None else Some([first.value] + rest.value)
  }

  function Decoding<T>(payloads: seq<string>, parse: string -> Option<T>): Decoded<T> {
    match Parsed(payloads, parse)
    case None => MalformedJson
    case Some(values) => if |values| == 0 then NoEvents else Events(values)
  }

  /** A stream is malformed if some payload is not JSON, empty if there is none, and otherwise the
      values of its payloads in their order. */
  lemma {:induction false} DecodingIff<T>(payloads: seq<string>, parse: string -> Option<T>)
    ensures var d := Decoding(payloads, parse);
            && (d.MalformedJson? <==> exists p :: p in payloads && parse(p).None?)
            && (d.NoEvents? <==> payloads == [])
            && (d.Events? ==> |d.values| == |payloads| && forall i :: 0 <= i < |payloads| ==> parse(payloads[i]) == Some(d.values[i]))
  {
    ParsedIff(payloads, parse);
  }

  lemma {:induction false} ParsedIff<T>(payloads: seq<string>, parse: string -> Option<T>)
    ensures var o := Parsed(payloads, parse);
            && (o.None? <==> exists p :: p in payloads && parse(p).None?)
            && (o.Some? ==> |o.value| == |payloads| && forall i :: 0 <= i < |payloads| ==> parse(payloads[i]) == Some(o.value[i]))
  {
    if payloads != [] {
      ParsedIff(payloads[1..], parse);
      assert payloads == [payloads[0]] + payloads[1..];
    }
  }

  /** `values` decoded already, then what the rest decodes to. */
  function After<T>(values: seq<T>, rest: Option<seq<T>>): Option<seq<T>> {
    if rest.None? then None else Some(values + rest.value)
  }

  lemma AfterUnits<T>(values: seq<T>, o: Option<seq<T>>)
    ensures After([], o) == o && After(values, Some([])) == Some(values)
  {
    assert o.Some? ==> [] + o.value == o.value;
    assert values + [] == values;
  }

  /** The payloads from line `i` on, by the kind of that line. */
  lemma {:induction false} PayloadsAt(lines: seq<string>, i: nat, data: seq<string>)
    requires i < |lines|
    ensures Payloads(lines[i..], data) ==
            if lines[i] == "" then Flush(data) + Payloads(lines[i + 1..], [])
            else Payloads(lines[i + 1..], data + DataOf(lines[i]))
  {
    assert lines[i..][1..] == lines[i + 1..];
  }

  /** The end of an event: its text is decoded unless it has no data. */
  method Dispatch<T>(events: seq<T>, data: seq<string>, parse: string -> Option<T>, ghost rest: seq<string>)
    returns (r: Option<seq<T>>)
    ensures After(events, Parsed(Flush(data) + rest, parse)) ==
            if r.None? then None else After(r.value, Parsed(rest, parse))
  {
    if data == [] {
      assert [] + rest == rest;
      return Some(events);
    }
    var value := parse(Join(data));
    assert ([Join(data)] + rest)[1..] == rest;
    if value.None? { return None; }
    if Parsed(rest, parse).Some? {
      var more := Parsed(rest, parse).value;
      assert events + ([value.value] + more) == events + [value.value] + more;
    }
    return Some(events + [value.value]);
  }

  method Collect<T>(lines: seq<string>, parse: string -> Option<T>) returns (r: Option<seq<T>>)
    ensures r == Parsed(Payloads(lines, []), parse)
  {
    var events: seq<T> := [];
    var data: seq<string> := [];
    assert lines[0..] == lines;
    AfterUnits(events, Parsed(Payloads(lines, []), parse));
    for i := 0 to |lines|
      invariant Parsed(Payloads(lines, []), parse) == After(events, Parsed(Payloads(lines[i..], data), parse))
    {
      PayloadsAt(lines, i, data);
      if lines[i] == "" {
        var more := Dispatch(events, data, parse, Payloads(lines[i + 1..], []));
        if more.None? { return None; }
        events, data := more.value, [];
      } else {
        data := data + DataOf(lines[i]);
      }
    }
    assert Flush(data) + [] == Flush(data);
    r := Dispatch(events, data, parse, []);
    if r.Some? { AfterUnits(r.value, None); }
  }

  method Decode<T>(text: string, parse: string -> Option<T>) returns (r: Decoded<T>)
    ensures r == Decoding(Payloads(Lines(text), []), parse)
  {
    var values := Collect(Lines(text), parse);
    return if values.None? then MalformedJson else if |values.value| == 0 then NoEvents else Events(values.value);
  }
}
