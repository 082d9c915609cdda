/** The web client's incremental parser for server-sent events, read chunk by chunk. */
module EventStream {
  import opened Basics

  datatype Event = Event(kind: string, data: string)

  /** What survives between two reads: the unfinished line, the event under construction and the events applied. */
  datatype Parser = Parser(buffer: string, kind: string, data: seq<string>, events: seq<Event>)

  const Start := Parser("", "message", [], [])

  // ----- text -----

  /** JavaScript's `split('\n')`. */
  function Split(s: string): (r: seq<string>)
    ensures r != []
  {
    if s == "" then [""]
    else if s[0] == '\n' then [""] + Split(s[1..])
    else Prepend(s[0], Split(s[1..]))
  }

  function Prepend(c: char, pieces: seq<string>): seq<string>
    requires pieces != []
  {
    [[c] + pieces[0]] + pieces[1..]
  }

  function Last(s: seq<string>): string
    requires s != []
  {
    s[|s| - 1]
  }

  function Init(s: seq<string>): seq<string>
    requires s != []
  {
    s[..|s| - 1]
  }

  function JoinLines(lines: seq<string>): string {
    if lines == [] then "" else if |lines| == 1 then lines[0] else lines[0] + "\n" + JoinLines(lines[1..])
  }

  function StripCr(line: string): string {
    if line != "" && line[|line| - 1] == '\r' then line[..|line| - 1] else line
  }

  function DropSpace(value: string): string {
    if value != "" && value[0] == ' ' then value[1..] else value
  }

  function Colon(line: string): nat {
    if line == "" || line[0] == ':' then 0 else 1 + Colon(line[1..])
  }

  lemma {:induction false} ColonBound(line: string)
    ensures Colon(line) <= |line|
  {
    if line != "" && line[0] != ':' {
      ColonBound(line[1..]);
    }
  }

  datatype Field = Field(name: string, value: string)

  /** Name and value of a line; a line without colon is all name. */
  function FieldOf(line: string): Field {
    ColonBound(line);
    if Colon(line) == |line| then Field(line, "") else Field(line[..Colon(line)], DropSpace(line[Colon(line) + 1..]))
  }

  // ----- the parser -----

  /** `flushEvent`: without data nothing happens, and the event type stays. */
  function Flush(p: Parser): Parser {
    if p.data == [] then p
    else p.(kind := "message", data := [], events := p.events + [Event(p.kind, JoinLines(p.data))])
  }

  function TakeField(p: Parser, f: Field): Parser {
    if f.name == "event" then p.(kind := if f.value == "" then "message" else f.value)
    else if f.name == "data" then p.(data := p.data + [f.value])
    else p
  }

  function TakeLine(p: Parser, line: string): Parser {
    if line == "" then Flush(p)
    else if line[0] == ':' then p
    else TakeField(p, FieldOf(line))
  }

  function TakeLines(p: Parser, lines: seq<string>): Parser
    decreases lines
  {
    if lines == [] then p else TakeLines(TakeLine(p, StripCr(lines[0])), lines[1..])
  }

  /** One chunk: all complete lines of the buffer are taken, the last piece stays. */
  function Absorb(p: Parser, chunk: string): Parser {
    var pieces := Split(p.buffer + chunk);
    TakeLines(p, Init(pieces)).(buffer := Last(pieces))
  }

  function AbsorbAll(p: Parser, chunks: seq<string>): Parser
    decreases chunks
  {
    if chunks == [] then p else AbsorbAll(Absorb(p, chunks[0]), chunks[1..])
  }

  /** The blanks that JavaScript's `trim` removes. */
  predicate IsBlankChar(c: char) {
    || '\t' <= c <= '\r' || c in {' ', '\U{a0}', '\U{1680}', '\U{2028}', '\U{2029}', '\U{202f}', '\U{205f}', '\U{3000}', '\U{feff}'}
    || '\U{2000}' <= c <= '\U{200a}'
  }

  predicate AllBlank(s: string) { forall c :: c in s ==> IsBlankChar(c) }

  /** After the last read: an unfinished line still counts, and pending data is flushed. */
  function End(p: Parser): Parser {
    Flush(if AllBlank(p.buffer) || '\n' in p.buffer then p else TakeField(p, FieldOf(p.buffer)))
  }

  function Parse(chunks: seq<string>): seq<Event> { End(AbsorbAll(Start, chunks)).events }

  // ----- the loop -----

  /** The variables of `streamEvents`. */
  class StreamReader {
    var buffer: string
    var eventType: string
    var dataLines: seq<string>
    var events: seq<Event>

    function State(): Parser
      reads this
    {
      Parser(buffer, eventType, dataLines, events)
    }

    constructor ()
      ensures State() == Start
    {
      buffer, eventType, dataLines, events := "", "message", [], [];
    }

    method FlushEvent()
      modifies this
      ensures State() == Flush(old(State()))
    {
      if |dataLines| == 0 { return; }
      events := events + [Event(eventType, JoinLines(dataLines))];
      eventType := "message";
      dataLines := [];
    }

    method ReadField(line: string)
      modifies `eventType, `dataLines
      ensures State() == TakeField(old(State()), FieldOf(line))
    {
      var f := FieldOf(line);
      if f.name == "event" {
        eventType := if f.value != "" then f.value else "message";
      } else if f.name == "data" {
        dataLines := dataLines + [f.value];
      }
    }

    method ReadLine(rawLine: string)
      modifies this
      ensures State() == TakeLine(old(State()), StripCr(rawLine))
    {
      var line := StripCr(rawLine);
      if line == "" {
        FlushEvent();
      } else if line[0] != ':' {
        ReadField(line);
      }
    }

    method ReadChunk(chunk: string)
      modifies this
      ensures State() == Absorb(old(State()), chunk)
    {
      var pieces := Split(buffer + chunk);
      var complete := Init(pieces);
      ghost var start := State();
      for i := 0 to |complete|
        invariant TakeLines(State(), complete[i..]) == TakeLines(start, complete)
      {
        ReadLine(complete[i]);
        assert complete[i..][1..] == complete[i + 1..];
      }
      buffer := Last(pieces);
    }

    method ReadEnd()
      modifies this
      ensures State() == End(old(State()))
    {
      if !AllBlank(buffer) && '\n' !in buffer {
        ReadField(buffer);
      }
      FlushEvent();
    }
  }

  method StreamEvents(chunks: seq<string>) returns (events: seq<Event>)
    ensures events == Parse(chunks)
  {
    var reader := new StreamReader();
    for i := 0 to |chunks|
      invariant AbsorbAll(reader.State(), chunks[i..]) == AbsorbAll(Start, chunks)
    {
      reader.ReadChunk(chunks[i]);
      assert chunks[i..][1..] == chunks[i + 1..];
    }
    reader.ReadEnd();
    events := reader.events;
  }

  // ----- chunks do not matter -----

  lemma {:induction false} PrependMany(c: char, rest: seq<string>, tail: seq<string>)
    requires |rest| > 1
    ensures Prepend(c, Init(rest) + tail) == Init(Prepend(c, rest)) + tail
    ensures Last(Prepend(c, rest)) == Last(rest)
  {
  }

  lemma {:induction false} PrependOne(c: char, line: string, b: string)
    requires c != '\n'
    ensures Split([c] + line + b) == Prepend(c, Split(line + b))
  {
    assert ([c] + line + b)[1..] == line + b;
  }

  lemma {:induction false} SplitConcat(a: string, b: string)
    ensures Split(a + b) == Init(Split(a)) + Split(Last(Split(a)) + b)
  {
    if a == "" {
      assert a + b == b && "" + b == b;
    } else {
      assert (a + b)[0] == a[0] && (a + b)[1..] == a[1..] + b;
      SplitConcat(a[1..], b);
      var rest := Split(a[1..]);
      if a[0] == '\n' {
        assert Init([""] + rest) == [""] + Init(rest) && Last([""] + rest) == Last(rest);
      } else if |rest| == 1 {
        PrependOne(a[0], rest[0], b);
        assert Init(rest) == [] && Init(Prepend(a[0], rest)) == [];
        assert Last(Prepend(a[0], rest)) == [a[0]] + rest[0];
      } else {
        PrependMany(a[0], rest, Split(Last(rest) + b));
      }
    }
  }

  lemma {:induction false} TakeLinesConcat(p: Parser, a: seq<string>, b: seq<string>)
    ensures TakeLines(p, a + b) == TakeLines(TakeLines(p, a), b)
    decreases a
  {
    if a == [] {
      assert a + b == b;
    } else {
      assert (a + b)[0] == a[0] && (a + b)[1..] == a[1..] + b;
      TakeLinesConcat(TakeLine(p, StripCr(a[0])), a[1..], b);
    }
  }

  lemma {:induction false} BufferAside(p: Parser, lines: seq<string>, buffer: string)
    ensures TakeLines(p.(buffer := buffer), lines) == TakeLines(p, lines).(buffer := buffer)
    decreases lines
  {
    if lines != [] {
      BufferAside(TakeLine(p, StripCr(lines[0])), lines[1..], buffer);
    }
  }

  /** Reading two chunks is reading them as one. */
  lemma {:induction false} AbsorbConcat(p: Parser, a: string, b: string)
    ensures Absorb(Absorb(p, a), b) == Absorb(p, a + b)
  {
    var first := Split(p.buffer + a);
    var second := Split(Last(first) + b);
    assert p.buffer + (a + b) == (p.buffer + a) + b;
    SplitConcat(p.buffer + a, b);
    assert Init(Init(first) + second) == Init(first) + Init(second);
    TakeLinesConcat(p, Init(first), Init(second));
    BufferAside(TakeLines(p, Init(first)), Init(second), Last(first));
  }

  lemma {:induction false} NoBreakInLast(s: string)
    ensures '\n' !in Last(Split(s))
  {
    if s != "" {
      NoBreakInLast(s[1..]);
    }
  }

  lemma {:induction false} SplitPlain(s: string)
    requires '\n' !in s
    ensures Split(s) == [s]
  {
    if s != "" {
      assert s[0] in s;
      SplitPlain(s[1..]);
      assert [s[0]] + s[1..] == s;
    }
  }

  lemma {:induction false} AbsorbAllIsOne(p: Parser, chunks: seq<string>)
    requires '\n' !in p.buffer
    ensures AbsorbAll(p, chunks) == Absorb(p, Flatten(chunks))
    decreases chunks
  {
    if chunks == [] {
      assert p.buffer + "" == p.buffer;
      SplitPlain(p.buffer);
    } else {
      NoBreakInLast(p.buffer + chunks[0]);
      AbsorbAllIsOne(Absorb(p, chunks[0]), chunks[1..]);
      AbsorbConcat(p, chunks[0], Flatten(chunks[1..]));
    }
  }

  /** However the stream is cut into chunks, even between CR and LF, the events are those of the whole text. */
  lemma {:induction false} ChunksDoNotMatter(chunks: seq<string>)
    ensures Parse(chunks) == Parse([Flatten(chunks)])
  {
    AbsorbAllIsOne(Start, chunks);
    AbsorbAllIsOne(Start, [Flatten(chunks)]);
    assert Flatten([Flatten(chunks)]) == Flatten(chunks);
  }

  lemma {:induction false} TakeLinesExtends(p: Parser, lines: seq<string>)
    ensures p.events <= TakeLines(p, lines).events
    decreases lines
  {
    if lines != [] {
      TakeLinesExtends(TakeLine(p, StripCr(lines[0])), lines[1..]);
    }
  }

  lemma {:induction false} EndExtends(p: Parser)
    ensures p.events <= End(p).events
  {
  }

  lemma {:induction false} AbsorbAllExtends(p: Parser, chunks: seq<string>)
    ensures p.events <= AbsorbAll(p, chunks).events
    decreases chunks
  {
    if chunks != [] {
      TakeLinesExtends(p, Init(Split(p.buffer + chunks[0])));
      AbsorbAllExtends(Absorb(p, chunks[0]), chunks[1..]);
    }
  }

  lemma {:induction false} AbsorbAllConcat(p: Parser, a: seq<string>, b: seq<string>)
    ensures AbsorbAll(p, a + b) == AbsorbAll(AbsorbAll(p, a), b)
    decreases a
  {
    if a == [] {
      assert a + b == b;
    } else {
      assert (a + b)[0] == a[0] && (a + b)[1..] == a[1..] + b;
      AbsorbAllConcat(Absorb(p, a[0]), a[1..], b);
    }
  }

  /** A stream given up early has delivered a prefix of what the whole stream delivers. */
  lemma {:induction false} AbandonedIsPrefix(seen: seq<string>, rest: seq<string>)
    ensures AbsorbAll(Start, seen).events <= Parse(seen + rest)
  {
    AbsorbAllConcat(Start, seen, rest);
    AbsorbAllExtends(AbsorbAll(Start, seen), rest);
    EndExtends(AbsorbAll(Start, seen + rest));
  }

  /** Whether the unfinished last line is all blank makes no difference: such a line names no field. */
  lemma {:induction false} BlankTailIsImmaterial(p: Parser)
    requires '\n' !in p.buffer
    ensures End(p) == Flush(TakeField(p, FieldOf(p.buffer)))
  {
    if AllBlank(p.buffer) && p.buffer != "" {
      ColonBound(p.buffer);
      var name := FieldOf(p.buffer).name;
      assert !IsBlankChar(':') && !IsBlankChar('e') && !IsBlankChar('d');
      if name != "" {
        assert name[0] == p.buffer[0] && p.buffer[0] in p.buffer;
      }
      assert "event"[0] == 'e' && "data"[0] == 'd';
    }
  }
}
