/**
 The client's parser beside section 9.2.6 of the WHATWG HTML Standard (Server-sent events),
 and encoded events read back.
 */
module EventStreamStandard {
  import opened Basics
  import opened EventStream

  // ----- the standard's interpretation -----

  /** The data buffer, the event type buffer and the dispatched events of the standard. */
  datatype Standard = Standard(dataBuffer: string, typeBuffer: string, events: seq<Event>)

  const Fresh := Standard("", "", [])

  /** The complete lines of a text: CRLF, LF and CR all end a line, an unfinished line is discarded. */
  function Lines(line: string, s: string): seq<string>
    decreases s
  {
    if s == "" then []
    else if s[0] == '\r' && |s| > 1 && s[1] == '\n' then [line] + Lines("", s[2..])
    else if s[0] == '\r' || s[0] == '\n' then [line] + Lines("", s[1..])
    else Lines(line + [s[0]], s[1..])
  }

  function Dispatch(st: Standard): Standard {
    if st.dataBuffer == "" then Standard("", "", st.events)
    else
      var n := |st.dataBuffer| - 1;
      var data := if st.dataBuffer[n] == '\n' then st.dataBuffer[..n] else st.dataBuffer;
      Standard("", "", st.events + [Event(if st.typeBuffer == "" then "message" else st.typeBuffer, data)])
  }

  function Process(st: Standard, line: string): Standard {
    if line == "" then Dispatch(st)
    else if line[0] == ':' then st
    else
      var f := FieldOf(line);
      if f.name == "event" then st.(typeBuffer := f.value)
      else if f.name == "data" then st.(dataBuffer := st.dataBuffer + f.value + "\n")
      else st
  }

  function ProcessAll(st: Standard, lines: seq<string>): Standard
    decreases lines
  {
    if lines == [] then st else ProcessAll(Process(st, lines[0]), lines[1..])
  }

  /** The events the standard dispatches for a whole stream. */
  function Dispatched(text: string): seq<Event> { ProcessAll(Fresh, Lines("", text)).events }

  // ----- lines -----

  /** Every CR is followed by LF. */
  predicate CrClean(s: string) {
    forall i :: 0 <= i < |s| && s[i] == '\r' ==> i + 1 < |s| && s[i + 1] == '\n'
  }

  function Stripped(pieces: seq<string>): seq<string> { Map(StripCr, pieces) }

  function WithHead(line: string, pieces: seq<string>): seq<string>
    requires pieces != []
  {
    [line + pieces[0]] + pieces[1..]
  }

  /** On CR-clean text the client's lines are the standard's. */
  lemma {:induction false} SameLines(line: string, s: string)
    requires CrClean(s) && '\r' !in line
    ensures Stripped(Init(WithHead(line, Split(s)))) == Lines(line, s)
    decreases s
  {
    if s == "" {
      assert Init(WithHead(line, [""])) == [];
    } else {
      assert forall i :: 0 <= i < |s[1..]| ==> s[1..][i] == s[i + 1];
      assert CrClean(s[1..]);
      var rest := Split(s[1..]);
      if s[0] == '\n' {
        SameLines("", s[1..]);
        assert WithHead("", rest) == rest by { assert "" + rest[0] == rest[0]; }
        LineThenRest(line, rest);
        assert line + "" == line && StripCr(line) == line;
      } else if s[0] == '\r' {
        assert s[1] == '\n' && s[1..][0] == '\n' && s[1..][1..] == s[2..];
        assert forall i :: 0 <= i < |s[2..]| ==> s[2..][i] == s[i + 2];
        SameLines("", s[2..]);
        var later := Split(s[2..]);
        assert rest == [""] + later;
        assert WithHead("", later) == later by { assert "" + later[0] == later[0]; }
        assert ['\r'] + "" == "\r" && line + (['\r'] + rest[0]) == line + "\r";
        assert WithHead(line, Prepend('\r', rest)) == [line + "\r"] + later;
        LineThenRest(line + "\r", later);
        assert StripCr(line + "\r") == line;
      } else {
        SameLines(line + [s[0]], s[1..]);
        assert WithHead(line, Prepend(s[0], rest)) == WithHead(line + [s[0]], rest) by {
          assert line + ([s[0]] + rest[0]) == line + [s[0]] + rest[0];
        }
      }
    }
  }

  lemma {:induction false} LineThenRest(line: string, rest: seq<string>)
    requires rest != []
    ensures Stripped(Init([line] + rest)) == [StripCr(line)] + Stripped(Init(rest))
  {
    assert Init([line] + rest) == [line] + Init(rest);
  }

  // ----- fields of a block -----

  /** Taking lines that are stripped already. */
  function TakeAll(p: Parser, lines: seq<string>): Parser
    decreases lines
  {
    if lines == [] then p else TakeAll(TakeLine(p, lines[0]), lines[1..])
  }

  lemma {:induction false} TakeStripped(p: Parser, lines: seq<string>)
    ensures TakeLines(p, lines) == TakeAll(p, Stripped(lines))
    decreases lines
  {
    if lines != [] {
      TakeStripped(TakeLine(p, StripCr(lines[0])), lines[1..]);
      assert Stripped(lines)[1..] == Stripped(lines[1..]);
    }
  }

  function NamedKind(value: string): string { if value == "" then "message" else value }

  /**
   What a reader of the lines keeps track of: the type named in this block, the type
   left over from blocks without data, and whether this block has data.
   */
  datatype Scan = Scan(named: Option<string>, leftOver: string, hasData: bool)

  const Clean := Scan(None, "message", false)

  function ScanLine(s: Scan, line: string): Scan {
    if line == "" then
      if s.hasData then Clean else Scan(None, s.named.GetOr(s.leftOver), false)
    else if line[0] == ':' then s
    else
      var f := FieldOf(line);
      if f.name == "event" then s.(named := Some(NamedKind(f.value)))
      else if f.name == "data" then s.(hasData := true)
      else s
  }

  function ScanAll(s: Scan, lines: seq<string>): Scan
    decreases lines
  {
    if lines == [] then s else ScanAll(ScanLine(s, lines[0]), lines[1..])
  }

  /** A block with data that names no type, after blocks without data of which the last to name a type named another than `message`. */
  predicate LeakAt(s: Scan, line: string) { line == "" && s.hasData && s.named.None? && s.leftOver != "message" }

  predicate NoLeak(s: Scan, lines: seq<string>)
    decreases lines
  {
    lines == [] || (!LeakAt(s, lines[0]) && NoLeak(ScanLine(s, lines[0]), lines[1..]))
  }

  function Buffered(data: seq<string>): string { if data == [] then "" else data[0] + "\n" + Buffered(data[1..]) }

  /** How client and standard stand after the same lines. */
  ghost predicate Alike(p: Parser, st: Standard, s: Scan) {
    && st.dataBuffer == Buffered(p.data) && (s.hasData <==> p.data != [])
    && p.kind == s.named.GetOr(s.leftOver) && NamedKind(st.typeBuffer) == s.named.GetOr("message")
    && |p.events| == |st.events|
  }

  lemma {:induction false} BufferedAppend(data: seq<string>, value: string)
    ensures Buffered(data + [value]) == Buffered(data) + value + "\n"
  {
    if data == [] {
      assert data + [value] == [value] && [value][1..] == [];
    } else {
      assert (data + [value])[0] == data[0] && (data + [value])[1..] == data[1..] + [value];
      BufferedAppend(data[1..], value);
    }
  }

  lemma {:induction false} BufferedIsJoined(data: seq<string>)
    requires data != []
    ensures Buffered(data) == JoinLines(data) + "\n"
  {
    if |data| == 1 {
      assert data[1..] == [] && data[0] + "\n" + "" == data[0] + "\n";
    } else {
      BufferedIsJoined(data[1..]);
    }
  }

  lemma {:induction false} DispatchedData(p: Parser, st: Standard, s: Scan)
    requires Alike(p, st, s) && p.data != []
    ensures Dispatch(st).events == st.events + [Event(NamedKind(st.typeBuffer), JoinLines(p.data))]
  {
    BufferedIsJoined(p.data);
  }

  lemma {:induction false} FlushAlike(p: Parser, st: Standard, s: Scan)
    requires Alike(p, st, s)
    ensures Alike(Flush(p), Dispatch(st), ScanLine(s, ""))
    ensures p.events == st.events ==> (Flush(p).events == Dispatch(st).events <==> !LeakAt(s, ""))
  {
    if p.data != [] {
      DispatchedData(p, st, s);
      BufferedIsJoined(p.data);
      assert Flush(p).events == p.events + [Event(p.kind, JoinLines(p.data))];
      if p.events == st.events {
        assert Flush(p).events[|p.events|] == Event(p.kind, JoinLines(p.data));
        assert Dispatch(st).events[|p.events|] == Event(NamedKind(st.typeBuffer), JoinLines(p.data));
      }
    }
  }

  lemma {:induction false} LineAlike(p: Parser, st: Standard, s: Scan, line: string)
    requires Alike(p, st, s)
    ensures Alike(TakeLine(p, line), Process(st, line), ScanLine(s, line))
    ensures p.events == st.events ==> (TakeLine(p, line).events == Process(st, line).events <==> !LeakAt(s, line))
    ensures p.events <= TakeLine(p, line).events && st.events <= Process(st, line).events
  {
    if line == "" {
      FlushAlike(p, st, s);
    } else if line[0] != ':' {
      BufferedAppend(p.data, FieldOf(line).value);
    }
  }

  lemma {:induction false} DifferenceStays(p: Parser, st: Standard, s: Scan, lines: seq<string>)
    requires Alike(p, st, s) && p.events != st.events
    ensures TakeAll(p, lines).events != ProcessAll(st, lines).events
    decreases lines
  {
    if lines != [] {
      LineAlike(p, st, s, lines[0]);
      PrefixesDiffer(p.events, TakeLine(p, lines[0]).events, st.events, Process(st, lines[0]).events);
      DifferenceStays(TakeLine(p, lines[0]), Process(st, lines[0]), ScanLine(s, lines[0]), lines[1..]);
    }
  }

  lemma {:induction false} PrefixesDiffer<T>(a: seq<T>, a': seq<T>, b: seq<T>, b': seq<T>)
    requires a <= a' && b <= b' && |a| == |b| && a != b
    ensures a' != b'
  {
    var i :| 0 <= i < |a| && a[i] != b[i];
    assert a'[i] == a[i] && b'[i] == b[i];
  }

  /** On the same lines, client and standard have dispatched the same events exactly when no type leaks. */
  lemma {:induction false} SameEventsIff(p: Parser, st: Standard, s: Scan, lines: seq<string>)
    requires Alike(p, st, s) && p.events == st.events
    ensures Alike(TakeAll(p, lines), ProcessAll(st, lines), ScanAll(s, lines))
    ensures TakeAll(p, lines).events == ProcessAll(st, lines).events <==> NoLeak(s, lines)
    decreases lines
  {
    if lines != [] {
      var q, t, u := TakeLine(p, lines[0]), Process(st, lines[0]), ScanLine(s, lines[0]);
      LineAlike(p, st, s, lines[0]);
      if LeakAt(s, lines[0]) {
        DifferenceStays(q, t, u, lines[1..]);
        AlikeStays(q, t, u, lines[1..]);
      } else {
        SameEventsIff(q, t, u, lines[1..]);
      }
    }
  }

  lemma {:induction false} AlikeStays(p: Parser, st: Standard, s: Scan, lines: seq<string>)
    requires Alike(p, st, s)
    ensures Alike(TakeAll(p, lines), ProcessAll(st, lines), ScanAll(s, lines))
    decreases lines
  {
    if lines != [] {
      LineAlike(p, st, s, lines[0]);
      AlikeStays(TakeLine(p, lines[0]), Process(st, lines[0]), ScanLine(s, lines[0]), lines[1..]);
    }
  }

  // ----- whole streams -----

  /** The stream ends with data that no blank line follows, in its complete lines or in its unfinished one. */
  predicate DataPending(text: string) {
    ScanAll(Clean, Lines("", text)).hasData || FieldOf(Last(Split(text))).name == "data"
  }

  lemma {:induction false} WholeText(text: string)
    requires CrClean(text)
    ensures AbsorbAll(Start, [text]) == TakeAll(Start, Lines("", text)).(buffer := Last(Split(text)))
  {
    SameLines("", text);
    assert "" + text == text && "" + Split(text)[0] == Split(text)[0];
    assert WithHead("", Split(text)) == Split(text);
    TakeStripped(Start, Init(Split(text)));
    assert [text][1..] == [];
  }

  lemma {:induction false} EndEvents(p: Parser)
    requires '\n' !in p.buffer
    ensures p.data == [] && FieldOf(p.buffer).name != "data" ==> End(p).events == p.events
    ensures p.data != [] || FieldOf(p.buffer).name == "data" ==> |End(p).events| == |p.events| + 1
  {
    BlankTailIsImmaterial(p);
  }

  /**
   On streams in which every CR is followed by LF, the client's events are the
   standard's exactly when no event type leaks from a block without data into a later
   one that names none, and no data is pending at the end.
   */
  lemma {:induction false} AgreesWithStandardIff(text: string)
    requires CrClean(text)
    ensures Parse([text]) == Dispatched(text) <==> NoLeak(Clean, Lines("", text)) && !DataPending(text)
  {
    var lines := Lines("", text);
    WholeText(text);
    NoBreakInLast(text);
    assert Alike(Start, Fresh, Clean);
    SameEventsIff(Start, Fresh, Clean, lines);
    EndEvents(TakeAll(Start, lines).(buffer := Last(Split(text))));
  }

  // ----- every event field followed by data -----

  /** Blocks that name a type also carry data. */
  predicate TypesHaveData(s: Scan, lines: seq<string>)
    decreases lines
  {
    lines == [] || (!(lines[0] == "" && s.named.Some? && !s.hasData) && TypesHaveData(ScanLine(s, lines[0]), lines[1..]))
  }

  lemma {:induction false} TypesWithDataNeverLeak(s: Scan, lines: seq<string>)
    requires TypesHaveData(s, lines) && s.leftOver == "message"
    ensures NoLeak(s, lines)
    decreases lines
  {
    if lines != [] {
      TypesWithDataNeverLeak(ScanLine(s, lines[0]), lines[1..]);
    }
  }

  // ----- encoding -----

  lemma {:induction false} Colons(name: string, rest: string)
    requires ':' !in name
    ensures Colon(name + ":" + rest) == |name|
    ensures FieldOf(name + ":" + rest) == Field(name, DropSpace(rest))
  {
    ColonAt(name, rest);
    assert (name + ":" + rest)[..|name|] == name && (name + ":" + rest)[|name| + 1..] == rest;
  }

  lemma {:induction false} ColonAt(name: string, rest: string)
    requires ':' !in name
    ensures Colon(name + ":" + rest) == |name|
  {
    if name != "" {
      assert name[0] in name;
      assert (name + ":" + rest)[1..] == name[1..] + ":" + rest;
      ColonAt(name[1..], rest);
    }
  }

  /** A field's name ends at the first colon, and one space behind it is dropped; without a colon the value is empty. */
  lemma {:induction false} FieldsAre(name: string, value: string)
    requires ':' !in name
    ensures FieldOf(name) == Field(name, "") && FieldOf(name + ":" + " " + value) == Field(name, value)
    ensures value == "" || value[0] != ' ' ==> FieldOf(name + ":" + value) == Field(name, value)
  {
    NoColon(name);
    Colons(name, " " + value);
    Colons(name, value);
    assert name + ":" + " " + value == name + ":" + (" " + value) && (" " + value)[1..] == value;
  }

  lemma {:induction false} NoColon(name: string)
    requires ':' !in name
    ensures Colon(name) == |name|
  {
    if name != "" {
      assert name[0] in name;
      NoColon(name[1..]);
    }
  }

  predicate CleanText(s: string) { '\n' !in s && '\r' !in s }

  /** A server's event: its type, and its data as lines. */
  datatype Message = Message(kind: string, lines: seq<string>)

  predicate Encodable(m: Message) {
    m.kind != "" && CleanText(m.kind) && m.lines != [] && forall l :: l in m.lines ==> CleanText(l)
  }

  function DataTexts(ls: seq<string>): seq<string> { Map((l: string) => "data" + ":" + (" " + l), ls) }

  function Encoded(m: Message): seq<string> {
    ["event" + ":" + (" " + m.kind)] + DataTexts(m.lines) + [""]
  }

  function EncodedAll(ms: seq<Message>): seq<string> { if ms == [] then [] else Encoded(ms[0]) + EncodedAll(ms[1..]) }

  /** Lines written with one separator, LF or CRLF. */
  function Written(lines: seq<string>, cr: bool): string {
    if lines == [] then "" else lines[0] + (if cr then "\r\n" else "\n") + Written(lines[1..], cr)
  }

  function Sent(ms: seq<Message>): seq<Event> { Map((m: Message) => Event(m.kind, JoinLines(m.lines)), ms) }

  lemma {:induction false} WrittenSplits(lines: seq<string>, cr: bool)
    requires forall l :: l in lines ==> CleanText(l)
    ensures Init(Split(Written(lines, cr))) == Map((l: string) => if cr then l + "\r" else l, lines)
    ensures Last(Split(Written(lines, cr))) == ""
  {
    if lines != [] {
      WrittenSplits(lines[1..], cr);
      var line := if cr then lines[0] + "\r" else lines[0];
      assert lines[0] in lines && '\n' !in line;
      assert Written(lines, cr) == line + ("\n" + Written(lines[1..], cr));
      SplitLine(line, Written(lines[1..], cr));
      LineInFront(line, Split(Written(lines[1..], cr)));
    }
  }

  lemma {:induction false} LineInFront(line: string, rest: seq<string>)
    requires rest != []
    ensures Init([line] + rest) == [line] + Init(rest) && Last([line] + rest) == Last(rest)
  {
  }

  lemma {:induction false} SplitLine(line: string, rest: string)
    requires '\n' !in line
    ensures Split(line + ("\n" + rest)) == [line] + Split(rest)
  {
    if line == "" {
      assert line + ("\n" + rest) == "\n" + rest && ("\n" + rest)[1..] == rest;
    } else {
      assert line[0] in line;
      assert (line + ("\n" + rest))[1..] == line[1..] + ("\n" + rest);
      SplitLine(line[1..], rest);
      assert [line[0]] + line[1..] == line;
    }
  }

  lemma {:induction false} TakeAllConcat(p: Parser, a: seq<string>, b: seq<string>)
    ensures TakeAll(p, a + b) == TakeAll(TakeAll(p, a), b)
    decreases a
  {
    if a == [] {
      assert a + b == b;
    } else {
      assert (a + b)[0] == a[0] && (a + b)[1..] == a[1..] + b;
      TakeAllConcat(TakeLine(p, a[0]), a[1..], b);
    }
  }

  lemma {:induction false} DataLine(p: Parser, l: string)
    ensures TakeLine(p, "data" + ":" + (" " + l)) == p.(data := p.data + [l])
  {
    Colons("data", " " + l);
    assert (" " + l)[1..] == l && "data"[0] != "event"[0];
  }

  lemma {:induction false} DataTextsCons(ls: seq<string>)
    requires ls != []
    ensures DataTexts(ls)[0] == "data" + ":" + (" " + ls[0]) && DataTexts(ls)[1..] == DataTexts(ls[1..])
  {
  }

  lemma {:induction false} DataLines(p: Parser, ls: seq<string>)
    ensures TakeAll(p, DataTexts(ls)) == p.(data := p.data + ls)
    decreases ls
  {
    if ls == [] {
      assert p.data + ls == p.data;
    } else {
      DataTextsCons(ls);
      DataLine(p, ls[0]);
      DataLines(p.(data := p.data + [ls[0]]), ls[1..]);
      assert p.data + [ls[0]] + ls[1..] == p.data + ls;
    }
  }

  lemma {:induction false} EventLine(p: Parser, kind: string)
    requires kind != ""
    ensures TakeLine(p, "event" + ":" + (" " + kind)) == p.(kind := kind)
  {
    Colons("event", " " + kind);
    assert (" " + kind)[1..] == kind;
  }

  lemma {:induction false} EncodedReads(p: Parser, m: Message)
    requires Encodable(m) && p.data == [] && p.kind == "message"
    ensures TakeAll(p, Encoded(m)) == p.(events := p.events + [Event(m.kind, JoinLines(m.lines))])
  {
    var head := "event" + ":" + (" " + m.kind);
    var body := DataTexts(m.lines);
    var typed := p.(kind := m.kind);
    EventLine(p, m.kind);
    assert Encoded(m) == [head] + (body + [""]);
    assert ([head] + (body + [""]))[1..] == body + [""];
    TakeAllConcat(typed, body, [""]);
    DataLines(typed, m.lines);
    assert [] + m.lines == m.lines && [""][1..] == [];
  }

  lemma {:induction false} EncodedAllReads(p: Parser, ms: seq<Message>)
    requires p.data == [] && p.kind == "message" && forall m :: m in ms ==> Encodable(m)
    ensures TakeAll(p, EncodedAll(ms)) == p.(events := p.events + Sent(ms))
    decreases ms
  {
    if ms == [] {
      assert p.events + Sent(ms) == p.events;
    } else {
      var q := p.(events := p.events + [Event(ms[0].kind, JoinLines(ms[0].lines))]);
      EncodedReads(p, ms[0]);
      TakeAllConcat(p, Encoded(ms[0]), EncodedAll(ms[1..]));
      EncodedAllReads(q, ms[1..]);
      SentCons(p.events, ms);
    }
  }

  lemma {:induction false} SentCons(events: seq<Event>, ms: seq<Message>)
    requires ms != []
    ensures events + [Event(ms[0].kind, JoinLines(ms[0].lines))] + Sent(ms[1..]) == events + Sent(ms)
  {
    assert Sent(ms) == [Event(ms[0].kind, JoinLines(ms[0].lines))] + Sent(ms[1..]);
  }

  lemma {:induction false} EncodedIsClean(ms: seq<Message>)
    requires forall m :: m in ms ==> Encodable(m)
    ensures forall l :: l in EncodedAll(ms) ==> CleanText(l)
  {
    if ms != [] {
      EncodedIsClean(ms[1..]);
      OneIsClean(ms[0]);
    }
  }

  lemma {:induction false} OneIsClean(m: Message)
    requires Encodable(m)
    ensures forall l :: l in Encoded(m) ==> CleanText(l)
  {
    var body := DataTexts(m.lines);
    forall l | l in body ensures CleanText(l) {
      var i :| 0 <= i < |body| && body[i] == l;
      assert m.lines[i] in m.lines;
    }
  }

  lemma {:induction false} StrippedAgain(lines: seq<string>, cr: bool)
    requires forall l :: l in lines ==> CleanText(l)
    ensures Stripped(Map((l: string) => if cr then l + "\r" else l, lines)) == lines
  {
    forall i | 0 <= i < |lines| ensures StripCr(if cr then lines[i] + "\r" else lines[i]) == lines[i] {
      assert lines[i] in lines;
      if lines[i] != "" { assert lines[i][|lines[i]| - 1] in lines[i]; }
    }
  }

  /** Events written with LF or CRLF come back as they were sent, however the text is cut into chunks. */
  lemma {:induction false} EncodedEventsReadBack(ms: seq<Message>, cr: bool, chunks: seq<string>)
    requires (forall m :: m in ms ==> Encodable(m)) && Flatten(chunks) == Written(EncodedAll(ms), cr)
    ensures Parse(chunks) == Sent(ms)
  {
    var text := Written(EncodedAll(ms), cr);
    ChunksDoNotMatter(chunks);
    EncodedIsClean(ms);
    WrittenSplits(EncodedAll(ms), cr);
    StrippedAgain(EncodedAll(ms), cr);
    TakeStripped(Start, Init(Split(text)));
    EncodedAllReads(Start, ms);
    assert "" + text == text && [text][1..] == [];
    assert [] + Sent(ms) == Sent(ms);
    NoBreakInLast(text);
    var p := Absorb(Start, text);
    assert AbsorbAll(p, [text][1..]) == p && AbsorbAll(Start, [text]) == p;
    assert p.buffer == Last(Split(text));
    EndEvents(p);
    assert FieldOf("").name != "data";
  }
  // ----- where client and standard differ -----

  lemma {:induction false} WrittenIsCrClean(lines: seq<string>, cr: bool)
    requires forall l :: l in lines ==> CleanText(l)
    ensures CrClean(Written(lines, cr))
  {
    if lines != [] {
      var sep, rest := if cr then "\r\n" else "\n", Written(lines[1..], cr);
      WrittenIsCrClean(lines[1..], cr);
      var line, text := lines[0], Written(lines, cr);
      assert line in lines && forall j :: 0 <= j < |line| ==> line[j] in line;
      forall i | 0 <= i < |text| && text[i] == '\r' ensures i + 1 < |text| && text[i + 1] == '\n' {
        if i >= |line| + |sep| {
          assert rest[i - |line| - |sep|] == text[i];
        }
      }
    }
  }

  /** Written lines are the lines the standard reads, and nothing is left unfinished. */
  lemma {:induction false} WrittenLines(lines: seq<string>, cr: bool)
    requires forall l :: l in lines ==> CleanText(l)
    ensures Lines("", Written(lines, cr)) == lines && CrClean(Written(lines, cr)) && Last(Split(Written(lines, cr))) == ""
  {
    var text := Written(lines, cr);
    WrittenIsCrClean(lines, cr);
    SameLines("", text);
    assert "" + Split(text)[0] == Split(text)[0];
    assert WithHead("", Split(text)) == Split(text);
    WrittenSplits(lines, cr);
    StrippedAgain(lines, cr);
  }

  /** The client's events on written lines: those of the lines, and one more for pending data. */
  lemma {:induction false} ReadWritten(lines: seq<string>, cr: bool)
    requires forall l :: l in lines ==> CleanText(l)
    ensures Parse([Written(lines, cr)]) == End(TakeAll(Start, lines).(buffer := "")).events
    ensures Dispatched(Written(lines, cr)) == ProcessAll(Fresh, lines).events
  {
    WrittenLines(lines, cr);
    WholeText(Written(lines, cr));
  }

  function TypeLine(kind: string): string { "event" + ":" + (" " + kind) }
  function ValueLine(value: string): string { "data" + ":" + (" " + value) }

  lemma {:induction false} LinesProcessed(st: Standard, kind: string, value: string)
    ensures Process(st, TypeLine(kind)) == st.(typeBuffer := kind)
    ensures Process(st, ValueLine(value)) == st.(dataBuffer := st.dataBuffer + value + "\n")
  {
    Colons("event", " " + kind);
    Colons("data", " " + value);
    assert (" " + kind)[1..] == kind && (" " + value)[1..] == value && "event"[0] != "data"[0];
  }

  lemma {:induction false} LeakTaken(kind: string, value: string)
    requires kind != ""
    ensures TakeAll(Start, [TypeLine(kind), "", ValueLine(value), ""]) == Start.(events := [Event(kind, value)])
  {
    var lines := [TypeLine(kind), "", ValueLine(value), ""];
    var typed := Start.(kind := kind);
    EventLine(Start, kind);
    DataLine(typed, value);
    assert lines[1..][0] == "" && lines[1..][1..][0] == ValueLine(value) && lines[1..][1..][1..] == [""];
    assert [""][1..] == [] && [value][1..] == [] && [] + [value] == [value];
    assert TakeLine(typed, "") == typed;
    assert TakeAll(typed.(data := [value]), [""]) == Start.(events := [Event(kind, value)]);
    assert TakeAll(typed, lines[1..][1..]) == Start.(events := [Event(kind, value)]);
    assert TakeAll(typed, lines[1..]) == Start.(events := [Event(kind, value)]);
  }

  lemma {:induction false} LeakProcessed(kind: string, value: string)
    ensures ProcessAll(Fresh, [TypeLine(kind), "", ValueLine(value), ""]).events == [Event("message", value)]
  {
    var lines := [TypeLine(kind), "", ValueLine(value), ""];
    LinesProcessed(Fresh, kind, value);
    assert lines[1..][0] == "" && lines[1..][1..][0] == ValueLine(value) && lines[1..][1..][1..] == [""] && [""][1..] == [];
    var buffered := Fresh.(dataBuffer := "" + value + "\n");
    assert buffered.dataBuffer[..|buffered.dataBuffer| - 1] == value;
    assert ProcessAll(buffered, [""]) == Dispatch(buffered);
    assert ProcessAll(Fresh, lines[1..][1..]) == Dispatch(buffered);
    assert ProcessAll(Fresh.(typeBuffer := kind), lines[1..]) == Dispatch(buffered);
  }

  /** The client lends the type of a block without data to the next block; the standard forgets it. */
  lemma {:induction false} TypeLeaks(kind: string, value: string, cr: bool)
    requires kind != "" && CleanText(kind) && CleanText(value)
    ensures var text := Written([TypeLine(kind), "", ValueLine(value), ""], cr);
      Parse([text]) == [Event(kind, value)] && Dispatched(text) == [Event("message", value)]
  {
    ReadWritten([TypeLine(kind), "", ValueLine(value), ""], cr);
    LeakTaken(kind, value);
    LeakProcessed(kind, value);
  }

  /** The client delivers data that no blank line follows; the standard discards it. */
  lemma {:induction false} PendingDataIsDelivered(value: string, cr: bool)
    requires CleanText(value)
    ensures var text := Written([ValueLine(value)], cr);
      Parse([text]) == [Event("message", value)] && Dispatched(text) == []
  {
    ReadWritten([ValueLine(value)], cr);
    DataLine(Start, value);
    LinesProcessed(Fresh, "", value);
    assert [ValueLine(value)][1..] == [] && [] + [value] == [value] && [value][1..] == [];
    assert TakeAll(Start, [ValueLine(value)]) == Start.(data := [value]);
    assert End(Start.(data := [value])).events == [Event("message", value)];
  }
}
