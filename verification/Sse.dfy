/** The incremental decoder of the server-sent event stream. */
module Sse {
  import opened Options

  /** The white space that trimming removes. */
  predicate IsSpace(c: char) {
    '\t' <= c <= '\r' || c == ' ' || c == '\U{a0}' || c == '\U{1680}' || '\U{2000}' <= c <= '\U{200a}' ||
    c == '\U{2028}' || c == '\U{2029}' || c == '\U{202f}' || c == '\U{205f}' || c == '\U{3000}' || c == '\U{feff}'
  }

  function TrimStart(s: string): string {
    if s != [] && IsSpace(s[0]) then TrimStart(s[1..]) else s
  }

  function TrimEnd(s: string): string {
    if s != [] && IsSpace(s[|s| - 1]) then TrimEnd(s[..|s| - 1]) else s
  }

  function Trim(s: string): string {
    TrimEnd(TrimStart(s))
  }

  /** Drop one carriage return at the end of a line. */
  function StripReturn(line: string): string {
    if line != [] && line[|line| - 1] == '\r' then line[..|line| - 1] else line
  }

  function IndexOf(s: string, c: char): (i: int)
    ensures -1 <= i < |s|
    ensures i == -1 <==> c !in s
    ensures i >= 0 ==> s[i] == c && c !in s[..i]
  {
    if s == [] then -1
    else if s[0] == c then 0
    else
      var i := IndexOf(s[1..], c);
      assert i >= 0 ==> s[..i + 1] == [s[0]] + s[1..][..i];
      if i == -1 then -1 else i + 1
  }

  /** Decode one line: the parsed payload of a non-empty `data:` line, else nothing. */
  function DecodeLine<E>(parse: string -> Option<E>, line: string): Option<E> {
    if !("data:" <= line) then None
    else
      var payload := Trim(line[5..]);
      if payload == "" then None else parse(payload)
  }

  function Emit<E>(m: Option<E>): seq<E> {
    if m.Some? then [m.value] else []
  }

  /** The events of all complete lines of `text`, in order. */
  function Events<E>(parse: string -> Option<E>, text: string): seq<E>
    decreases |text|
  {
    var i := IndexOf(text, '\n');
    if i == -1 then [] else Emit(DecodeLine(parse, StripReturn(text[..i]))) + Events(parse, text[i + 1..])
  }

  /** What follows the last newline of `text`. */
  function Rest(text: string): string
    decreases |text|
  {
    var i := IndexOf(text, '\n');
    if i == -1 then text else Rest(text[i + 1..])
  }

  class SseDecoder<E> {
    const parse: string -> Option<E>
    var buffer: string

    constructor (parse: string -> Option<E>)
      ensures buffer == "" && this.parse == parse
    {
      this.parse, buffer := parse, "";
    }

    method Push(chunk: string) returns (out: seq<E>)
      modifies this`buffer
      ensures out == Events(parse, old(buffer) + chunk) && buffer == Rest(old(buffer) + chunk)
    {
      ghost var text := buffer + chunk;
      buffer := buffer + chunk;
      out := [];
      hide Events, Rest, DecodeLine, StripReturn, IndexOf, Emit;
      var newline := IndexOf(buffer, '\n');
      while newline != -1
        invariant newline == IndexOf(buffer, '\n') && -1 <= newline < |buffer|
        invariant Events(parse, text) == out + Events(parse, buffer) && Rest(text) == Rest(buffer)
        decreases |buffer|
      {
        Accumulate(parse, out, buffer, newline);
        var line, rest := StripReturn(buffer[..newline]), buffer[newline + 1..];
        assert |rest| < |buffer|;
        var envelope := DecodeLine(parse, line);
        if envelope.Some? {
          out := out + [envelope.value];
        }
        assert Events(parse, text) == out + Events(parse, rest);
        buffer := rest;
        newline := IndexOf(buffer, '\n');
      }
      NoLine(parse, buffer);
    }
  }

  // ----- trimming -----

  predicate AllSpace(s: string) {
    forall c :: c in s ==> IsSpace(c)
  }

  lemma {:induction false} TrimStartIsExact(s: string) returns (before: string)
    ensures s == before + TrimStart(s) && AllSpace(before) && (TrimStart(s) != "" ==> !IsSpace(TrimStart(s)[0]))
  {
    before := [];
    if s != [] && IsSpace(s[0]) {
      before := TrimStartIsExact(s[1..]);
      before := [s[0]] + before;
    }
  }

  lemma {:induction false} TrimEndIsExact(s: string) returns (after: string)
    ensures s == TrimEnd(s) + after && AllSpace(after) && (TrimEnd(s) != "" ==> !IsSpace(TrimEnd(s)[|TrimEnd(s)| - 1]))
  {
    after := [];
    if s != [] && IsSpace(s[|s| - 1]) {
      after := TrimEndIsExact(s[..|s| - 1]);
      after := after + [s[|s| - 1]];
    }
  }

  /** Trimming removes white space only, and all of it at both ends; so a line is decoded exactly when it starts with
      the field name and what follows is not all white space, and then from what is left of it. */
  lemma LineIsDecoded<E>(parse: string -> Option<E>, line: string) returns (before: string, after: string)
    ensures !("data:" <= line) ==> DecodeLine(parse, line) == None
    ensures "data:" <= line ==>
      var payload := Trim(line[5..]);
      line[5..] == before + payload + after && AllSpace(before) && AllSpace(after) &&
      (payload != "" ==> !IsSpace(payload[0]) && !IsSpace(payload[|payload| - 1])) &&
      DecodeLine(parse, line) == if payload == "" then None else parse(payload)
  {
    before, after := "", "";
    if "data:" <= line {
      var text := line[5..];
      before := TrimStartIsExact(text);
      after := TrimEndIsExact(TrimStart(text));
      hide IsSpace, TrimStart, TrimEnd;
      assert text == before + Trim(text) + after;
    }
  }

  // ----- chunk independence -----

  lemma IndexInConcat(a: string, b: string, c: char)
    ensures IndexOf(a, c) >= 0 ==> IndexOf(a + b, c) == IndexOf(a, c)
  {
    var i := IndexOf(a, c);
    if i >= 0 {
      assert (a + b)[..i] == a[..i];
      FirstIndex(a + b, c, i);
    }
  }

  lemma FirstIndex(s: string, c: char, i: nat)
    requires i < |s| && s[i] == c && c !in s[..i]
    ensures IndexOf(s, c) == i
  {
  }

  /** Taking one complete line off the buffer. */
  lemma Accumulate<E>(parse: string -> Option<E>, out: seq<E>, text: string, i: nat)
    requires i == IndexOf(text, '\n')
    ensures var m := DecodeLine(parse, StripReturn(text[..i]));
      out + Events(parse, text) == (if m.Some? then out + [m.value] else out) + Events(parse, text[i + 1..])
    ensures Rest(text) == Rest(text[i + 1..])
  {
    hide Events, Rest, DecodeLine, IndexOf;
    OneLine(parse, text);
  }

  lemma OneLine<E>(parse: string -> Option<E>, text: string)
    requires IndexOf(text, '\n') >= 0
    ensures var i := IndexOf(text, '\n');
      Events(parse, text) == Emit(DecodeLine(parse, StripReturn(text[..i]))) + Events(parse, text[i + 1..]) &&
      Rest(text) == Rest(text[i + 1..])
  {
  }

  lemma NoLine<E>(parse: string -> Option<E>, text: string)
    requires IndexOf(text, '\n') == -1
    ensures Events(parse, text) == [] && Rest(text) == text
  {
  }

  /** Decoding `a` and then, from what was left over, `b` is decoding both at once. */
  lemma {:induction false} EventsConcat<E>(parse: string -> Option<E>, a: string, b: string)
    ensures Events(parse, a + b) == Events(parse, a) + Events(parse, Rest(a) + b)
    ensures Rest(a + b) == Rest(Rest(a) + b)
    decreases |a|
  {
    hide Events, Rest, DecodeLine;
    var i := IndexOf(a, '\n');
    if i >= 0 {
      var tail := a[i + 1..];
      IndexInConcat(a, b, '\n');
      assert (a + b)[..i] == a[..i] && (a + b)[i + 1..] == tail + b;
      OneLine(parse, a);
      OneLine(parse, a + b);
      EventsConcat(parse, tail, b);
    } else {
      NoLine(parse, a);
      assert [] + Events(parse, a + b) == Events(parse, a + b);
    }
  }

  function Joined(chunks: seq<string>): string {
    if chunks == [] then "" else Joined(chunks[..|chunks| - 1]) + chunks[|chunks| - 1]
  }

  /** A whole session: push the chunks one by one from a given buffer. */
  function Session<E>(parse: string -> Option<E>, chunks: seq<string>): (seq<E>, string) {
    if chunks == [] then ([], "")
    else
      var (out, buffer) := Session(parse, chunks[..|chunks| - 1]);
      var text := buffer + chunks[|chunks| - 1];
      (out + Events(parse, text), Rest(text))
  }

  /** However a stream is split into chunks, the outputs add up to the events of the whole text, and
      the buffer ends as after one push of it. */
  lemma {:induction false} ChunkingIsIrrelevant<E>(parse: string -> Option<E>, chunks: seq<string>)
    ensures Session(parse, chunks) == (Events(parse, Joined(chunks)), Rest(Joined(chunks)))
    decreases |chunks|
  {
    if chunks != [] {
      var front, last := chunks[..|chunks| - 1], chunks[|chunks| - 1];
      ChunkingIsIrrelevant(parse, front);
      EventsConcat(parse, Joined(front), last);
    }
  }

  /** Pushing a list of chunks into a new decoder is such a session. */
  method PushAll<E>(parse: string -> Option<E>, chunks: seq<string>) returns (out: seq<E>, buffer: string)
    ensures out == Events(parse, Joined(chunks)) && buffer == Rest(Joined(chunks))
  {
    var decoder := new SseDecoder<E>(parse);
    out := [];
    var i := 0;
    while i < |chunks|
      invariant 0 <= i <= |chunks| && decoder.parse == parse && fresh(decoder)
      invariant (out, decoder.buffer) == Session(parse, chunks[..i])
    {
      var more := decoder.Push(chunks[i]);
      assert chunks[..i + 1][..i] == chunks[..i];
      out := out + more;
      i := i + 1;
    }
    assert chunks[..i] == chunks;
    ChunkingIsIrrelevant(parse, chunks);
    buffer := decoder.buffer;
  }

  // ----- the server's frames -----

  datatype Frame = Frame(eventType: string, payload: string)

  /** One message as the event route writes it. */
  function Wire(f: Frame): string {
    "event: " + f.eventType + "\n" + "data: " + f.payload + "\n\n"
  }

  function WireAll(fs: seq<Frame>): string {
    if fs == [] then "" else Wire(fs[0]) + WireAll(fs[1..])
  }

  function Payloads<E>(parse: string -> Option<E>, fs: seq<Frame>): seq<E> {
    if fs == [] then [] else Emit(parse(fs[0].payload)) + Payloads(parse, fs[1..])
  }

  /** A serialized event: it neither contains a newline nor starts or ends with white space. */
  predicate CleanFrame(f: Frame) {
    '\n' !in f.eventType && '\n' !in f.payload && f.payload != "" &&
    !IsSpace(f.payload[0]) && !IsSpace(f.payload[|f.payload| - 1])
  }

  lemma LineThenRest<E>(parse: string -> Option<E>, line: string, rest: string)
    requires '\n' !in line
    ensures Events(parse, line + "\n" + rest) == Emit(DecodeLine(parse, StripReturn(line))) + Events(parse, rest)
    ensures Rest(line + "\n" + rest) == Rest(rest)
  {
    hide Events, Rest, DecodeLine;
    var text := line + "\n" + rest;
    assert text[|line|] == '\n' && text[..|line|] == line && text[|line| + 1..] == rest;
    FirstIndex(text, '\n', |line|);
    OneLine(parse, text);
  }

  lemma TrimOfPadded(payload: string)
    requires payload != "" && !IsSpace(payload[0]) && !IsSpace(payload[|payload| - 1])
    ensures Trim(" " + payload) == payload
  {
    assert (" " + payload)[1..] == payload;
    assert TrimStart(payload) == payload;
  }

  lemma FrameDecodes<E>(parse: string -> Option<E>, f: Frame, rest: string)
    requires CleanFrame(f)
    ensures Events(parse, Wire(f) + rest) == Emit(parse(f.payload)) + Events(parse, rest)
    ensures Rest(Wire(f) + rest) == Rest(rest)
  {
    hide Events, Rest;
    var typeLine, dataLine := "event: " + f.eventType, "data: " + f.payload;
    TypeLineIgnored(parse, f.eventType);
    DataLineDecodes(parse, f.payload);
    hide DecodeLine;
    assert Wire(f) + rest == typeLine + "\n" + (dataLine + "\n" + ("" + "\n" + rest));
    LineThenRest(parse, typeLine, dataLine + "\n" + ("" + "\n" + rest));
    LineThenRest(parse, dataLine, "" + "\n" + rest);
    LineThenRest(parse, "", rest);
  }

  lemma TypeLineIgnored<E>(parse: string -> Option<E>, eventType: string)
    ensures DecodeLine(parse, StripReturn("event: " + eventType)) == None
    ensures DecodeLine(parse, StripReturn("")) == None
  {
    var line := StripReturn("event: " + eventType);
    assert |line| >= 1 && line[0] == 'e';
    assert "data:"[0] == 'd';
  }

  lemma DataLineDecodes<E>(parse: string -> Option<E>, payload: string)
    requires payload != "" && !IsSpace(payload[0]) && !IsSpace(payload[|payload| - 1])
    ensures DecodeLine(parse, StripReturn("data: " + payload)) == parse(payload)
  {
    var line := "data: " + payload;
    assert line[|line| - 1] == payload[|payload| - 1];
    assert line[..5] == "data:" && line[5..] == " " + payload;
    TrimOfPadded(payload);
  }

  /** Decoding everything the server writes yields its event payloads in order and leaves nothing over. */
  lemma {:induction false} FramesDecode<E>(parse: string -> Option<E>, fs: seq<Frame>)
    requires forall f :: f in fs ==> CleanFrame(f)
    ensures Events(parse, WireAll(fs)) == Payloads(parse, fs) && Rest(WireAll(fs)) == ""
  {
    if fs != [] {
      FramesDecode(parse, fs[1..]);
      FrameDecodes(parse, fs[0], WireAll(fs[1..]));
    }
  }
}
