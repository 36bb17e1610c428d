/** The streaming inference probe: an event loop over the bytes of a response as they arrive.

    `judge` stands for the decoding and the checks of one event's JSON. */
module Probe {
  newtype byte = x: int | 0 <= x < 256

  type Bytes = seq<byte>

  const CR: byte := 13
  const LF: byte := 10
  const SPACE: byte := 32
  const MAX_RESPONSE := 65_536

  /** data: */
  const DATA: Bytes := [100, 97, 116, 97, 58]
  /** [DONE] */
  const DONE: Bytes := [91, 68, 79, 78, 69, 93]

  datatype Judgement = Chunk(toolCalls: bool) | Bad(error: string)

  type Judge = Bytes -> Judgement

  /** The variables of the loop besides the buffer; an error ends the probe. */
  datatype Progress = Progress(chunks: nat, toolCalls: bool, finished: bool) | Failed(error: string)

  const START := Progress(0, false, false)

  datatype Outcome = Verified(chunks: nat, toolCalls: bool) | Error(error: string)

  // ---------------------------------------------------------------- one event

  /** Every CRLF replaced by LF. */
  function Norm(s: Bytes): (r: Bytes)
    ensures |r| <= |s|
  {
    if s == [] then []
    else if |s| >= 2 && s[0] == CR && s[1] == LF then [LF] + Norm(s[2..])
    else [s[0]] + Norm(s[1..])
  }

  /** The lines of an event, ended by LF, CR or CRLF; `line` is the line begun. */
  function SplitLines(s: Bytes, line: Bytes): seq<Bytes> {
    if s == [] then if line == [] then [] else [line]
    else if s[0] == CR && |s| >= 2 && s[1] == LF then [line] + SplitLines(s[2..], [])
    else if s[0] == CR || s[0] == LF then [line] + SplitLines(s[1..], [])
    else SplitLines(s[1..], line + [s[0]])
  }

  predicate IsSpace(b: byte) { 9 <= b <= 13 || b == SPACE }

  function StripLeft(s: Bytes): Bytes { if s != [] && IsSpace(s[0]) then StripLeft(s[1..]) else s }

  function StripRight(s: Bytes): Bytes {
    if s != [] && IsSpace(s[|s| - 1]) then StripRight(s[..|s| - 1]) else s
  }

  function Strip(s: Bytes): Bytes { StripRight(StripLeft(s)) }

  function DataLines(lines: seq<Bytes>): seq<Bytes> {
    if lines == [] then []
    else (if DATA <= lines[0] then [Strip(lines[0][5..])] else []) + DataLines(lines[1..])
  }

  function Join(lines: seq<Bytes>): Bytes {
    if lines == [] then [] else if |lines| == 1 then lines[0] else lines[0] + [LF] + Join(lines[1..])
  }

  function Handle(p: Progress, event: Bytes, judge: Judge): Progress {
    var lines := DataLines(SplitLines(event, []));
    if p.Failed? || lines == [] then p
    else if Join(lines) == DONE then p.(finished := true)
    else if p.finished then Failed("malformed_inference_stream")
    else match judge(Join(lines))
      case Bad(error) => Failed(error)
      case Chunk(toolCalls) => p.(chunks := p.chunks + 1, toolCalls := p.toolCalls || toolCalls)
  }

  // ---------------------------------------------------------------- the loop

  /** The first blank line, or -1. */
  function Break(s: Bytes): (i: int)
    ensures -1 <= i && (i >= 0 ==> i + 2 <= |s| && s[i] == LF && s[i + 1] == LF)
  {
    if |s| < 2 then -1
    else if s[0] == LF && s[1] == LF then 0
    else
      var i := Break(s[1..]);
      if i < 0 then -1 else i + 1
  }

  /** Whole events are taken from the buffer until none is left or one fails. */
  function Drain(buffer: Bytes, p: Progress, judge: Judge): (Bytes, Progress)
    decreases |buffer|
  {
    var b := Norm(buffer);
    var i := Break(b);
    if p.Failed? || i < 0 then (buffer, p) else Drain(b[i + 2..], Handle(p, b[..i], judge), judge)
  }

  function Feed(parts: seq<Bytes>, buffer: Bytes, size: nat, p: Progress, judge: Judge): (Bytes, Progress)
    decreases |parts|
  {
    if parts == [] || p.Failed? then (buffer, p)
    else if size + |parts[0]| > MAX_RESPONSE then (buffer, Failed("oversized_inference_response"))
    else
      var x := Drain(buffer + parts[0], p, judge);
      Feed(parts[1..], x.0, size + |parts[0]|, x.1, judge)
  }

  function Verdict(buffer: Bytes, p: Progress): Outcome {
    if p.Failed? then Error(p.error)
    else if !p.finished || Strip(buffer) != [] || p.chunks == 0 then Error("inference_stream_incomplete")
    else Verified(p.chunks, p.toolCalls)
  }

  function Probed(parts: seq<Bytes>, judge: Judge): Outcome {
    var x := Feed(parts, [], 0, START, judge);
    Verdict(x.0, x.1)
  }

  method DrainBuffer(start: Bytes, before: Progress, judge: Judge) returns (buffer: Bytes, p: Progress)
    requires !before.Failed?
    ensures (buffer, p) == Drain(start, before, judge)
  {
    buffer, p := start, before;
    while !p.Failed? && Break(Norm(buffer)) >= 0
      invariant Drain(buffer, p, judge) == Drain(start, before, judge)
      decreases |buffer|
    {
      buffer := Norm(buffer);
      var i := Break(buffer);
      var event := buffer[..i];
      buffer := buffer[i + 2..];
      var lines := DataLines(SplitLines(event, []));
      if lines == [] { continue; }
      var raw := Join(lines);
      if raw == DONE {
        p := p.(finished := true);
        continue;
      }
      if p.finished {
        p := Failed("malformed_inference_stream");
        continue;
      }
      match judge(raw)
      case Bad(error) => p := Failed(error);
      case Chunk(toolCalls) => p := p.(chunks := p.chunks + 1, toolCalls := p.toolCalls || toolCalls);
    }
  }

  method Probe(parts: seq<Bytes>, judge: Judge) returns (r: Outcome)
    ensures r == Probed(parts, judge)
  {
    var buffer: Bytes, size, p := [], 0, START;
    for k := 0 to |parts|
      invariant !p.Failed? && size >= 0
      invariant Feed(parts[k..], buffer, size, p, judge) == Feed(parts, [], 0, START, judge)
    {
      assert parts[k..][1..] == parts[k + 1..];
      size := size + |parts[k]|;
      if size > MAX_RESPONSE { return Error("oversized_inference_response"); }
      buffer, p := DrainBuffer(buffer + parts[k], p, judge);
      if p.Failed? { return Error(p.error); }
    }
    if !p.finished || Strip(buffer) != [] || p.chunks == 0 { return Error("inference_stream_incomplete"); }
    return Verified(p.chunks, p.toolCalls);
  }
}
