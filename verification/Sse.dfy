/** The token stream on the wire: the producer's printer, the TypeScript parser that
    works on arriving chunks, and the Python parser that works on lines. */
module Sse {
  import opened Types
  import Json

  const LF: Unit := 10
  const SPACE: Unit := 32
  const DATA: Text := [100, 97, 116, 97, 58]                  // data:
  const EVENT: Text := [101, 118, 101, 110, 116, 58]          // event:
  const DONE: Text := [91, 68, 79, 78, 69, 93]                // [DONE]

  predicate StartsWith(s: Text, prefix: Text) { |prefix| <= |s| && s[..|prefix|] == prefix }

  // JavaScript's `trimStart` and Python's `strip`.
  predicate IsJsSpace(u: Unit) {
    9 <= u <= 13 || u == 32 || u == 0xA0 || u == 0x1680 || 0x2000 <= u <= 0x200A
    || u == 0x2028 || u == 0x2029 || u == 0x202F || u == 0x205F || u == 0x3000 || u == 0xFEFF
  }

  predicate IsPySpace(u: Unit) {
    9 <= u <= 13 || 0x1C <= u <= 0x20 || u == 0x85 || u == 0xA0 || u == 0x1680 || 0x2000 <= u <= 0x200A
    || u == 0x2028 || u == 0x2029 || u == 0x202F || u == 0x205F || u == 0x3000
  }

  function TrimStart(s: Text): Text {
    if s != [] && IsJsSpace(s[0]) then TrimStart(s[1..]) else s
  }

  function Strip(s: Text): Text {
    if s != [] && IsPySpace(s[0]) then Strip(s[1..])
    else if s != [] && IsPySpace(s[|s| - 1]) then Strip(s[..|s| - 1])
    else s
  }

  /** `split("\n")`: always at least one line. */
  function Split(s: Text): (lines: seq<Text>)
    ensures lines != []
  {
    if s == [] then [[]]
    else if s[0] == LF then [[]] + Split(s[1..])
    else var rest := Split(s[1..]); [[s[0]] + rest[0]] + rest[1..]
  }

  function Join(lines: seq<Text>): Text {
    if lines == [] then [] else if |lines| == 1 then lines[0] else lines[0] + [LF] + Join(lines[1..])
  }

  function Flatten(parts: seq<Text>): Text {
    if parts == [] then [] else parts[0] + Flatten(parts[1..])
  }

  // ---------------------------------------------------------------- printer

  function DataFrame(payload: Text): Text { DATA + [SPACE] + payload + [LF, LF] }

  /** One frame per pair, then the sentinel. */
  function EncodeSse(pairs: seq<(Text, nat)>): (frames: seq<Text>)
    ensures |frames| == |pairs| + 1
  {
    if pairs == [] then [DataFrame(DONE)]
    else [DataFrame(Json.TokenObject(pairs[0].0, pairs[0].1))] + EncodeSse(pairs[1..])
  }

  // -------------------------------------------------------- JSON, seen by both

  /** What the parsers read of a JSON payload. */
  datatype Payload = Payload(text: Text, ack: Option<nat>, isError: bool, finished: bool)

  type Decoder = Text -> Option<Payload>

  /** A decoder for what producers send: flat objects of strings and naturals. */
  function ReadPayload(s: Text): Option<Payload> {
    match Json.ReadObject(s)
    case None => None
    case Some(ms) =>
      var text, ack := Json.Lookup(ms, Json.KEY_TEXT), Json.Lookup(ms, Json.KEY_ACK);
      Some(Payload(if text.Some? && text.value.Str? then text.value.text else [],
                   if ack.Some? && ack.value.Num? then Some(ack.value.n) else None,
                   Json.Lookup(ms, Json.KEY_ERROR).Some?,
                   false))
  }

  // ------------------------------------------------- TypeScript: frames

  datatype SseEvent = SseEvent(text: Text, finished: bool)

  function DataLines(lines: seq<Text>): seq<Text> {
    if lines == [] then []
    else (if StartsWith(lines[0], DATA) then [TrimStart(lines[0][5..])] else []) + DataLines(lines[1..])
  }

  function FrameEvent(dataLines: seq<Text>, decode: Decoder): Option<SseEvent> {
    if dataLines == [] then None
    else
      var payload := Join(dataLines);
      if payload == DONE then Some(SseEvent([], true))
      else match decode(payload)
        case Some(p) => Some(SseEvent(p.text, false))
        case None => Some(SseEvent(payload, false))
  }

  method ParseFrame(frame: Text, decode: Decoder) returns (event: Option<SseEvent>)
    ensures event == FrameEvent(DataLines(Split(frame)), decode)
  {
    var lines := Split(frame);
    var dataLines := [];
    assert lines[0..] == lines;
    for i := 0 to |lines|
      invariant dataLines + DataLines(lines[i..]) == DataLines(lines)
    {
      assert lines[i..][1..] == lines[i + 1..];
      if StartsWith(lines[i], DATA) {
        dataLines := dataLines + [TrimStart(lines[i][5..])];
      }
    }
    assert dataLines + DataLines(lines[|lines|..]) == dataLines;
    return FrameEvent(dataLines, decode);
  }

  /** The first blank line: `indexOf("\n\n")`. */
  function IndexOfSep(s: Text): (i: int)
    ensures -1 <= i && (i >= 0 ==> i + 2 <= |s|)
  {
    if |s| < 2 then -1
    else if s[0] == LF && s[1] == LF then 0
    else var i := IndexOfSep(s[1..]); if i < 0 then -1 else i + 1
  }

  lemma {:induction false} IndexOfSepMeaning(s: Text)
    ensures var i := IndexOfSep(s);
            && (i >= 0 ==> s[i] == LF && s[i + 1] == LF)
            && forall j :: 0 <= j < |s| - 1 && (i < 0 || j < i) ==> !(s[j] == LF && s[j + 1] == LF)
  {
    if |s| >= 2 && !(s[0] == LF && s[1] == LF) {
      IndexOfSepMeaning(s[1..]);
      forall j | 0 < j < |s| - 1 && (IndexOfSep(s) < 0 || j < IndexOfSep(s))
        ensures !(s[j] == LF && s[j + 1] == LF)
      {
        assert s[1..][j - 1] == s[j] && s[1..][j] == s[j + 1];
      }
    }
  }

  /** The events of a whole text: frame by frame, up to the first sentinel; an unfinished
      last frame yields nothing. */
  function Events(s: Text, decode: Decoder): seq<SseEvent>
    decreases |s|
  {
    var i := IndexOfSep(s);
    if i < 0 then []
    else
      var rest := s[i + 2..];
      match FrameEvent(DataLines(Split(s[..i])), decode)
      case None => Events(rest, decode)
      case Some(e) => if e.finished then [e] else [e] + Events(rest, decode)
  }

  // Text arriving later does not move the first blank line.
  lemma {:induction false} IndexOfSepStable(s: Text, more: Text)
    requires IndexOfSep(s) >= 0
    ensures IndexOfSep(s + more) == IndexOfSep(s)
  {
    if !(s[0] == LF && s[1] == LF) {
      IndexOfSepStable(s[1..], more);
      assert (s + more)[1..] == s[1..] + more;
    }
  }

  lemma FirstFrame(s: Text, more: Text, decode: Decoder)
    requires IndexOfSep(s) >= 0
    ensures Events(s + more, decode)
         == match FrameEvent(DataLines(Split(s[..IndexOfSep(s)])), decode)
            case None => Events(s[IndexOfSep(s) + 2..] + more, decode)
            case Some(e) =>
              if e.finished then [e] else [e] + Events(s[IndexOfSep(s) + 2..] + more, decode)
  {
    hide FrameEvent, Split, DataLines;
    var i := IndexOfSep(s);
    IndexOfSepStable(s, more);
    assert (s + more)[..i] == s[..i] && (s + more)[i + 2..] == s[i + 2..] + more;
  }

  lemma NoFrameNoEvent(s: Text, decode: Decoder)
    requires IndexOfSep(s) == -1
    ensures Events(s, decode) == []
  {
  }

  lemma FlattenFrom(chunks: seq<Text>, n: nat)
    requires n <= |chunks|
    ensures n == 0 ==> Flatten(chunks[n..]) == Flatten(chunks)
    ensures n == |chunks| ==> Flatten(chunks[n..]) == []
    ensures n < |chunks| ==> Flatten(chunks[n..]) == chunks[n] + Flatten(chunks[n + 1..])
  {
    if n == 0 { assert chunks[0..] == chunks; }
    if n < |chunks| { assert chunks[n..][1..] == chunks[n + 1..]; }
  }

  /** `iterSse`: a buffer grown chunk by chunk, drained frame by frame. However the text
      is cut, the events are those of the whole. */
  method IterSse(chunks: seq<Text>, decode: Decoder) returns (events: seq<SseEvent>)
    ensures events == Events(Flatten(chunks), decode)
  {
    hide FrameEvent, Split, DataLines, Flatten, Events, IndexOfSep;
    events := [];
    var buffer: Text := [];
    FlattenFrom(chunks, 0);
    assert buffer + Flatten(chunks) == Flatten(chunks) && IndexOfSep([]) == -1 by { IndexOfSepStart(); }
    for n := 0 to |chunks|
      invariant events + Events(buffer + Flatten(chunks[n..]), decode) == Events(Flatten(chunks), decode)
      invariant IndexOfSep(buffer) == -1
    {
      ghost var later := Flatten(chunks[n + 1..]);
      FlattenFrom(chunks, n);
      assert buffer + (chunks[n] + later) == (buffer + chunks[n]) + later;
      buffer := buffer + chunks[n];
      var sep := IndexOfSep(buffer);
      while sep != -1
        invariant sep == IndexOfSep(buffer)
        invariant events + Events(buffer + later, decode) == Events(Flatten(chunks), decode)
        decreases |buffer|
      {
        FirstFrame(buffer, later, decode);
        var frame := buffer[..sep];
        buffer := buffer[sep + 2..];
        var event := ParseFrame(frame, decode);
        if event.Some? {
          events := events + [event.value];
          if event.value.finished { return; }
        }
        sep := IndexOfSep(buffer);
      }
    }
    FlattenFrom(chunks, |chunks|);
    assert buffer + [] == buffer;
    NoFrameNoEvent(buffer, decode);
  }

  lemma IndexOfSepStart()
    ensures IndexOfSep([]) == -1
  {
  }

  /** Only the last event can be the sentinel's. */
  lemma {:induction false} NothingAfterDone(s: Text, decode: Decoder, i: nat)
    requires i + 1 < |Events(s, decode)|
    ensures !Events(s, decode)[i].finished
    decreases |s|
  {
    hide FrameEvent, Split, DataLines, IndexOfSep;
    var k := IndexOfSep(s);
    var e := FrameEvent(DataLines(Split(s[..k])), decode);
    if e == None {
      NothingAfterDone(s[k + 2..], decode, i);
    } else if i > 0 {
      NothingAfterDone(s[k + 2..], decode, i - 1);
    }
  }

  // ------------------------------------------------- frames, one by one

  /** Text with no blank line in it, also when one follows. */
  predicate OneFrame(frame: Text) { IndexOfSep(frame + [LF, LF]) == |frame| }

  function Framed(frames: seq<Text>): Text {
    if frames == [] then [] else frames[0] + [LF, LF] + Framed(frames[1..])
  }

  /** The events of frames, up to the first sentinel. */
  function EventsOf(frames: seq<Text>, decode: Decoder): seq<SseEvent> {
    if frames == [] then []
    else match FrameEvent(DataLines(Split(frames[0])), decode)
      case None => EventsOf(frames[1..], decode)
      case Some(e) => [e] + if e.finished then [] else EventsOf(frames[1..], decode)
  }

  /** A stream is parsed frame by frame, and an unfinished last frame gives nothing. */
  lemma {:induction false} EventsFrameByFrame(frames: seq<Text>, rest: Text, decode: Decoder)
    requires forall f :: f in frames ==> OneFrame(f)
    requires IndexOfSep(rest) == -1
    ensures Events(Framed(frames) + rest, decode) == EventsOf(frames, decode)
  {
    hide FrameEvent, Split, DataLines, IndexOfSep;
    if frames == [] {
      assert Framed(frames) + rest == rest;
    } else {
      var f, more := frames[0], Framed(frames[1..]) + rest;
      assert OneFrame(f);
      EventsFrameByFrame(frames[1..], rest, decode);
      FirstFrame(f + [LF, LF], more, decode);
      assert (f + [LF, LF]) + more == Framed(frames) + rest;
      assert (f + [LF, LF])[..|f|] == f && (f + [LF, LF])[|f| + 2..] + more == more;
    }
  }

  /** A data line: the field name, any blanks, the value. */
  function DataLine(blanks: Text, value: Text): Text { DATA + blanks + value }

  lemma {:induction false} BlanksTrimmed(blanks: Text, value: Text)
    requires forall i :: 0 <= i < |blanks| ==> IsJsSpace(blanks[i])
    requires value == [] || !IsJsSpace(value[0])
    ensures TrimStart(blanks + value) == value
  {
    if blanks == [] {
      assert blanks + value == value;
    } else {
      assert (blanks + value)[1..] == blanks[1..] + value;
      BlanksTrimmed(blanks[1..], value);
    }
  }

  lemma {:induction false} DataLinesAppend(before: seq<Text>, line: Text)
    ensures DataLines(before + [line]) == DataLines(before) + DataLines([line])
  {
    hide TrimStart, StartsWith;
    if before == [] {
      assert before + [line] == [line];
    } else {
      assert (before + [line])[0] == before[0] && (before + [line])[1..] == before[1..] + [line];
      DataLinesAppend(before[1..], line);
    }
  }

  /** Of a frame's lines the data lines count, in order, each for its value after the blanks;
      all other lines count for nothing. */
  lemma DataLinesInOrder(before: seq<Text>, blanks: Text, value: Text, other: Text)
    requires forall i :: 0 <= i < |blanks| ==> IsJsSpace(blanks[i])
    requires value == [] || !IsJsSpace(value[0])
    requires !StartsWith(other, DATA)
    ensures DataLines(before + [DataLine(blanks, value)]) == DataLines(before) + [value]
    ensures DataLines(before + [other]) == DataLines(before)
  {
    hide TrimStart, IsJsSpace;
    var line := DataLine(blanks, value);
    DataLinesAppend(before, line);
    DataLinesAppend(before, other);
    assert line[5..] == blanks + value && line[..5] == DATA;
    BlanksTrimmed(blanks, value);
    assert [line][1..] == [] && [other][1..] == [];
  }

  /** Splitting into lines undoes joining them. */
  lemma {:induction false} SplitOfJoin(lines: seq<Text>)
    requires lines != [] && forall l :: l in lines ==> NoLf(l)
    ensures Split(Join(lines)) == lines
  {
    if |lines| == 1 {
      SplitNoLf(lines[0]);
    } else {
      SplitOfJoin(lines[1..]);
      SplitLine(lines[0], Join(lines[1..]));
    }
  }

  function DataLinesFor(blanks: Text, values: seq<Text>): seq<Text> {
    if values == [] then [] else [DataLine(blanks, values[0])] + DataLinesFor(blanks, values[1..])
  }

  // A value that survives on a data line.
  predicate LineValue(v: Text) { NoLf(v) && (v == [] || !IsJsSpace(v[0])) }

  lemma ValueReadBack(blanks: Text, value: Text, more: seq<Text>)
    requires forall i :: 0 <= i < |blanks| ==> IsJsSpace(blanks[i]) && blanks[i] != LF
    requires LineValue(value)
    ensures DataLines([DataLine(blanks, value)] + more) == [value] + DataLines(more)
    ensures NoLf(DataLine(blanks, value))
  {
    hide TrimStart, IsJsSpace;
    var line := DataLine(blanks, value);
    assert line[5..] == blanks + value && line[..5] == DATA;
    BlanksTrimmed(blanks, value);
    assert ([line] + more)[1..] == more;
  }

  lemma {:induction false} ValuesReadBack(blanks: Text, values: seq<Text>)
    requires forall i :: 0 <= i < |blanks| ==> IsJsSpace(blanks[i]) && blanks[i] != LF
    requires forall v :: v in values ==> LineValue(v)
    ensures DataLines(DataLinesFor(blanks, values)) == values
    ensures forall l :: l in DataLinesFor(blanks, values) ==> NoLf(l)
    ensures |DataLinesFor(blanks, values)| == |values|
  {
    hide DataLines, DataLine, LineValue, IsJsSpace, NoLf;
    if values == [] {
      assert DataLines([]) == [] by { NoDataLines(); }
    } else {
      ValuesReadBack(blanks, values[1..]);
      assert LineValue(values[0]);
      ValueReadBack(blanks, values[0], DataLinesFor(blanks, values[1..]));
      assert [values[0]] + values[1..] == values;
    }
  }

  lemma NoDataLines()
    ensures DataLines([]) == []
  {
  }

  /** A frame of several data lines is one payload, their values joined by line feeds: the
      sentinel finishes, what the decoder reads is its text, anything else is passed on. */
  lemma FrameOfValues(blanks: Text, values: seq<Text>, decode: Decoder)
    requires values != [] && forall v :: v in values ==> LineValue(v)
    requires forall i :: 0 <= i < |blanks| ==> IsJsSpace(blanks[i]) && blanks[i] != LF
    ensures FrameEvent(DataLines(Split(Join(DataLinesFor(blanks, values)))), decode)
         == Some(if Join(values) == DONE then SseEvent([], true)
                 else SseEvent(match decode(Join(values)) case Some(p) => p.text case None => Join(values), false))
  {
    hide DataLines, Split, Join, LineValue, IsJsSpace, DataLinesFor;
    ValuesReadBack(blanks, values);
    SplitOfJoin(DataLinesFor(blanks, values));
  }

  // ------------------------------------------------------ Python: lines

  datatype StreamEvent = StreamEvent(text: Text, ack: Option<nat>, finished: bool)

  /** The events of a list of lines, and whether the parser raised. */
  datatype Parsed = Parsed(events: seq<StreamEvent>, raised: bool)

  function Before(e: StreamEvent, p: Parsed): Parsed { p.(events := [e] + p.events) }

  function IterLines(lines: seq<Text>, decode: Decoder): Parsed {
    if lines == [] then Parsed([], false)
    else
      var line := lines[0];
      if line == [] || line[0] == 58 || StartsWith(line, EVENT) then IterLines(lines[1..], decode)
      else if !StartsWith(line, DATA) then Parsed([], true)
      else
        var payload := Strip(line[5..]);
        if payload == DONE then Parsed([StreamEvent([], None, true)], false)
        else match decode(payload)
          case None => Parsed([], true)
          case Some(p) =>
            if p.isError then Parsed([], true)
            else Before(StreamEvent(p.text, p.ack, p.finished), IterLines(lines[1..], decode))
  }

  /** The line parser, line by line: blank lines, comments and `event:` headers are skipped,
      any other line without data raises, and so does data that is no JSON or reports an
      error. */
  lemma LineByLine(line: Text, more: seq<Text>, decode: Decoder)
    ensures line == [] || line[0] == 58 || StartsWith(line, EVENT) ==>
              IterLines([line] + more, decode) == IterLines(more, decode)
    ensures line != [] && line[0] != 58 && !StartsWith(line, EVENT) && !StartsWith(line, DATA) ==>
              IterLines([line] + more, decode) == Parsed([], true)
    ensures StartsWith(line, DATA) && Strip(line[5..]) == DONE ==>
              IterLines([line] + more, decode) == Parsed([StreamEvent([], None, true)], false)
    ensures StartsWith(line, DATA) && Strip(line[5..]) != DONE ==>
              IterLines([line] + more, decode)
              == match decode(Strip(line[5..]))
                 case None => Parsed([], true)
                 case Some(p) =>
                   if p.isError then Parsed([], true)
                   else var rest := IterLines(more, decode);
                        Parsed([StreamEvent(p.text, p.ack, p.finished)] + rest.events, rest.raised)
  {
    assert ([line] + more)[1..] == more;
    assert StartsWith(line, DATA) ==> line[0] == DATA[0] && line[..5] == DATA;
    assert StartsWith(line, EVENT) ==> line[0] == EVENT[0];
  }

  // ------------------------------------------------------------- round trip

  predicate NoLf(s: Text) { forall i :: 0 <= i < |s| ==> s[i] != LF }

  lemma {:induction false} SplitLine(line: Text, more: Text)
    requires NoLf(line)
    ensures Split(line + [LF] + more) == [line] + Split(more)
  {
    var s := line + [LF] + more;
    if line == [] {
      assert s[1..] == more;
    } else {
      assert s[1..] == line[1..] + [LF] + more;
      SplitLine(line[1..], more);
      assert [line[0]] + line[1..] == line;
    }
  }

  lemma {:induction false} SplitNoLf(line: Text)
    requires NoLf(line)
    ensures Split(line) == [line]
  {
    if line != [] {
      SplitNoLf(line[1..]);
      assert [line[0]] + line[1..] == line;
    }
  }

  lemma {:induction false} SepAfter(line: Text, more: Text)
    requires NoLf(line)
    ensures IndexOfSep(line + [LF, LF] + more) == |line|
  {
    var s := line + [LF, LF] + more;
    if line != [] {
      assert s[1..] == line[1..] + [LF, LF] + more;
      SepAfter(line[1..], more);
    }
  }

  /** Payloads both parsers read back unchanged: printable, no blank at either end. */
  predicate Clean(payload: Text) {
    Json.Printable(payload) && payload != [] && payload[0] != SPACE && payload[|payload| - 1] != SPACE
  }

  lemma CleanData(payload: Text)
    requires Clean(payload)
    ensures NoLf(DATA + [SPACE] + payload)
    ensures (DATA + [SPACE] + payload)[5..] == [SPACE] + payload
    ensures StartsWith(DATA + [SPACE] + payload, DATA)
    ensures TrimStart([SPACE] + payload) == payload
    ensures Strip([SPACE] + payload) == payload
  {
    assert ([SPACE] + payload)[1..] == payload;
  }

  lemma FrameIsOneEvent(payload: Text, more: Text, decode: Decoder)
    requires Clean(payload)
    ensures Events(DataFrame(payload) + more, decode)
         == if payload == DONE then [SseEvent([], true)]
            else [SseEvent(match decode(payload) case Some(p) => p.text case None => payload, false)]
                 + Events(more, decode)
  {
    var line := DATA + [SPACE] + payload;
    var s := DataFrame(payload) + more;
    CleanData(payload);
    SepAfter(line, more);
    assert s == line + [LF, LF] + more;
    assert s[..|line|] == line && s[|line| + 2..] == more;
    SplitNoLf(line);
    assert DataLines([line]) == [payload];
  }

  lemma FrameIsOneLine(payload: Text, more: Text, decode: Decoder)
    requires Clean(payload)
    requires payload != DONE ==> decode(payload).Some? && !decode(payload).value.isError
    ensures IterLines(Split(DataFrame(payload) + more), decode)
         == if payload == DONE then Parsed([StreamEvent([], None, true)], false)
            else var p := decode(payload).value;
                 Before(StreamEvent(p.text, p.ack, p.finished), IterLines(Split(more), decode))
  {
    var line := DATA + [SPACE] + payload;
    CleanData(payload);
    assert DataFrame(payload) + more == line + [LF] + ([LF] + more);
    SplitLine(line, [LF] + more);
    assert ([LF] + more)[1..] == more;
    assert Split([LF] + more) == [[]] + Split(more);
    var lines := [line] + ([[]] + Split(more));
    assert lines[1..] == [[]] + Split(more) && lines[1..][1..] == Split(more);
  }

  lemma TokenPayload(text: Text, ack: nat)
    ensures Clean(Json.TokenObject(text, ack)) && Json.TokenObject(text, ack) != DONE
    ensures ReadPayload(Json.TokenObject(text, ack)) == Some(Payload(text, Some(ack), false, false))
  {
    Json.TokenObjectPrintable(text, ack);
    Json.TokenObjectReads(text, ack);
    LookupTwo(Json.Member(Json.KEY_TEXT, Json.Str(text)), Json.Member(Json.KEY_ACK, Json.Num(ack)), Json.KEY_TEXT);
    LookupTwo(Json.Member(Json.KEY_TEXT, Json.Str(text)), Json.Member(Json.KEY_ACK, Json.Num(ack)), Json.KEY_ACK);
    LookupTwo(Json.Member(Json.KEY_TEXT, Json.Str(text)), Json.Member(Json.KEY_ACK, Json.Num(ack)), Json.KEY_ERROR);
    assert |Json.KEY_TEXT| == 4 && |Json.KEY_ACK| == 3 && |Json.KEY_ERROR| == 5;
  }

  lemma LookupOne(a: Json.Member, key: Text)
    ensures Json.Lookup([a], key) == if a.key == key then Some(a.value) else None
  {
    assert [a][..0] == [];
  }

  lemma LookupTwo(a: Json.Member, b: Json.Member, key: Text)
    ensures Json.Lookup([a, b], key)
         == if b.key == key then Some(b.value) else if a.key == key then Some(a.value) else None
  {
    assert [a, b][..1] == [a];
    LookupOne(a, key);
  }

  // One event per token, then `tail`.
  function TsEvents(pairs: seq<(Text, nat)>, tail: seq<SseEvent>): seq<SseEvent> {
    if pairs == [] then tail else [SseEvent(pairs[0].0, false)] + TsEvents(pairs[1..], tail)
  }

  function PyEvents(pairs: seq<(Text, nat)>, tail: seq<StreamEvent>): seq<StreamEvent> {
    if pairs == [] then tail
    else [StreamEvent(pairs[0].0, Some(pairs[0].1), false)] + PyEvents(pairs[1..], tail)
  }

  /** Whatever the tokens contain, both parsers read the printed stream back: exactly the
      tokens in order (the Python one with their acks), then finished. */
  lemma {:induction false} RoundTrip(pairs: seq<(Text, nat)>)
    ensures Events(Flatten(EncodeSse(pairs)), ReadPayload) == TsEvents(pairs, [SseEvent([], true)])
    ensures IterLines(Split(Flatten(EncodeSse(pairs))), ReadPayload)
         == Parsed(PyEvents(pairs, [StreamEvent([], None, true)]), false)
  {
    var frames := EncodeSse(pairs);
    var more := Flatten(frames[1..]);
    if pairs == [] {
      FrameIsOneEvent(DONE, more, ReadPayload);
      FrameIsOneLine(DONE, more, ReadPayload);
    } else {
      var payload := Json.TokenObject(pairs[0].0, pairs[0].1);
      assert frames[1..] == EncodeSse(pairs[1..]);
      RoundTrip(pairs[1..]);
      TokenPayload(pairs[0].0, pairs[0].1);
      FrameIsOneEvent(payload, more, ReadPayload);
      FrameIsOneLine(payload, more, ReadPayload);
    }
  }

  // ------------------------------------------------------ upstream failure

  /** What the producer sends when the model fails after `pairs`: an error object, then
      the sentinel. */
  function EncodeFailed(pairs: seq<(Text, nat)>, message: Text): seq<Text> {
    if pairs == [] then [DataFrame(Json.ErrorObject(message)), DataFrame(DONE)]
    else [DataFrame(Json.TokenObject(pairs[0].0, pairs[0].1))] + EncodeFailed(pairs[1..], message)
  }

  lemma ErrorPayload(message: Text)
    ensures Clean(Json.ErrorObject(message)) && Json.ErrorObject(message) != DONE
    ensures ReadPayload(Json.ErrorObject(message)) == Some(Payload([], None, true, false))
  {
    Json.ErrorObjectReads(message);
    var m := Json.Member(Json.KEY_ERROR, Json.Str(message));
    LookupOne(m, Json.KEY_TEXT);
    LookupOne(m, Json.KEY_ACK);
    LookupOne(m, Json.KEY_ERROR);
    assert |Json.KEY_TEXT| == 4 && |Json.KEY_ACK| == 3 && |Json.KEY_ERROR| == 5;
  }

  /** The two parsers part ways on a failed stream: Python delivers the tokens and raises;
      TypeScript delivers one more, empty token and then finishes normally. */
  lemma FailedStream(pairs: seq<(Text, nat)>, message: Text)
    ensures IterLines(Split(Flatten(EncodeFailed(pairs, message))), ReadPayload)
         == Parsed(PyEvents(pairs, []), true)
    ensures Events(Flatten(EncodeFailed(pairs, message)), ReadPayload)
         == TsEvents(pairs, [SseEvent([], false), SseEvent([], true)])
  {
    FailedStreamPy(pairs, message);
    FailedStreamTs(pairs, message);
  }

  lemma FailedTail(pairs: seq<(Text, nat)>, message: Text)
    requires pairs != []
    ensures Flatten(EncodeFailed(pairs, message))
         == DataFrame(Json.TokenObject(pairs[0].0, pairs[0].1)) + Flatten(EncodeFailed(pairs[1..], message))
  {
    assert EncodeFailed(pairs, message)[1..] == EncodeFailed(pairs[1..], message);
  }

  lemma {:induction false} FailedStreamTs(pairs: seq<(Text, nat)>, message: Text)
    ensures Events(Flatten(EncodeFailed(pairs, message)), ReadPayload)
         == TsEvents(pairs, [SseEvent([], false), SseEvent([], true)])
  {
    if pairs == [] {
      FailureAlone(message);
    } else {
      FailedTail(pairs, message);
      FailedStreamTs(pairs[1..], message);
      TokenPayload(pairs[0].0, pairs[0].1);
      FrameIsOneEvent(Json.TokenObject(pairs[0].0, pairs[0].1),
                      Flatten(EncodeFailed(pairs[1..], message)), ReadPayload);
    }
  }

  lemma {:induction false} FailedStreamPy(pairs: seq<(Text, nat)>, message: Text)
    ensures IterLines(Split(Flatten(EncodeFailed(pairs, message))), ReadPayload)
         == Parsed(PyEvents(pairs, []), true)
  {
    if pairs == [] {
      FailureAlone(message);
    } else {
      FailedTail(pairs, message);
      FailedStreamPy(pairs[1..], message);
      TokenPayload(pairs[0].0, pairs[0].1);
      FrameIsOneLine(Json.TokenObject(pairs[0].0, pairs[0].1),
                     Flatten(EncodeFailed(pairs[1..], message)), ReadPayload);
    }
  }

  lemma FailureAlone(message: Text)
    ensures var wire := Flatten(EncodeFailed([], message));
            && IterLines(Split(wire), ReadPayload) == Parsed([], true)
            && Events(wire, ReadPayload) == [SseEvent([], false), SseEvent([], true)]
  {
    hide Events, IterLines, Split, ReadPayload, DataFrame;
    var last := DataFrame(DONE);
    assert Flatten([last]) == last + [];
    assert EncodeFailed([], message) == [DataFrame(Json.ErrorObject(message)), last];
    assert EncodeFailed([], message)[1..] == [last];
    assert Flatten(EncodeFailed([], message)) == DataFrame(Json.ErrorObject(message)) + (last + []);
    ErrorFrameRaises(message, last + []);
    ErrorFrameContinues(message, last + []);
    FrameIsOneEvent(DONE, [], ReadPayload);
  }

  lemma ErrorFrameContinues(message: Text, more: Text)
    ensures Events(DataFrame(Json.ErrorObject(message)) + more, ReadPayload)
         == [SseEvent([], false)] + Events(more, ReadPayload)
  {
    hide Events, ReadPayload, DataFrame;
    ErrorPayload(message);
    FrameIsOneEvent(Json.ErrorObject(message), more, ReadPayload);
  }

  lemma ErrorFrameRaises(message: Text, more: Text)
    ensures IterLines(Split(DataFrame(Json.ErrorObject(message)) + more), ReadPayload) == Parsed([], true)
  {
    hide ReadPayload, Split, Clean;
    var payload := Json.ErrorObject(message);
    var line := DATA + [SPACE] + payload;
    ErrorPayload(message);
    CleanData(payload);
    assert DataFrame(payload) + more == line + [LF] + ([LF] + more);
    SplitLine(line, [LF] + more);
  }

  /** The producer's stream read by the TypeScript consumer, cut into chunks anywhere. */
  method ReadProducerStream(pairs: seq<(Text, nat)>, chunks: seq<Text>) returns (events: seq<SseEvent>)
    requires Flatten(chunks) == Flatten(EncodeSse(pairs))
    ensures |events| == |pairs| + 1 && events[|pairs|] == SseEvent([], true)
    ensures forall i :: 0 <= i < |pairs| ==> events[i] == SseEvent(pairs[i].0, false)
  {
    events := IterSse(chunks, ReadPayload);
    RoundTrip(pairs);
    TsEventsAt(pairs);
  }

  lemma {:induction false} TsEventsAt(pairs: seq<(Text, nat)>)
    ensures var es := TsEvents(pairs, [SseEvent([], true)]);
            && |es| == |pairs| + 1 && es[|pairs|] == SseEvent([], true)
            && forall i :: 0 <= i < |pairs| ==> es[i] == SseEvent(pairs[i].0, false)
  {
    if pairs != [] { TsEventsAt(pairs[1..]); }
  }
}
