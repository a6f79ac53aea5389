/** The project event stream: rendering its frames (apps/api/src/app.ts), parsing them
    (apps/web/src/api.ts) and polling with a cursor (apps/web/src/App.tsx). */
module ServerSentEvents {
  import opened Wrappers
  import opened Json
  import JsonReader
  import CanonicalJson

  const LF: CodeUnit := 10
  const CR: CodeUnit := 13
  const SPACE: CodeUnit := 32

  /** A logged event: its durable sequence, its type and the summary that is sent. */
  datatype Event = Event(id: nat, kind: Text, data: Value)

  // ------------------------------------------------------------------------------ rendering

  const ID := CanonicalJson.Units("id")
  const EVENT := CanonicalJson.Units("event")
  const DATA := CanonicalJson.Units("data")
  const HEARTBEAT := CanonicalJson.Units(": heartbeat")

  function Line(field: Text, value: Text): Text { field + [COLON, SPACE] + value }

  function Body(e: Event): Text
    requires Jsonable(e.data)
  {
    Line(ID, Digits(e.id)) + [LF] + Line(EVENT, e.kind) + [LF] + Line(DATA, Print(e.data))
  }

  predicate Printable(log: seq<Event>) { forall n :: 0 <= n < |log| ==> Jsonable(log[n].data) }

  /** One frame for each event after the cursor, then a heartbeat. */
  function Render(log: seq<Event>, cursor: nat): Text
    requires Printable(log)
  {
    if log == [] then HEARTBEAT + [LF, LF]
    else (if log[0].id > cursor then Body(log[0]) + [LF, LF] else []) + Render(log[1..], cursor)
  }

  /** The events the client is meant to get. */
  function Since(log: seq<Event>, cursor: nat): seq<Event> {
    if log == [] then [] else (if log[0].id > cursor then [log[0]] else []) + Since(log[1..], cursor)
  }

  // -------------------------------------------------------------------------------- parsing

  /** The length of \r?\n at the start of a text, or 0. */
  function LineEnd(t: Text): (m: nat)
    ensures m <= |t|
  {
    if |t| > 0 && t[0] == LF then 1 else if |t| > 1 && t[0] == CR && t[1] == LF then 2 else 0
  }

  /** The length of \r?\n\r?\n at the start of a text, or 0. */
  function BlankLine(t: Text): (m: nat)
    ensures m <= |t|
  {
    var first := LineEnd(t);
    if first == 0 || LineEnd(t[first..]) == 0 then 0 else first + LineEnd(t[first..])
  }

  function SplitFrames(t: Text): (parts: seq<Text>)
    ensures parts != []
    decreases |t|
  {
    if t == [] then [[]]
    else if BlankLine(t) > 0 then [[]] + SplitFrames(t[BlankLine(t)..])
    else
      var parts := SplitFrames(t[1..]);
      [[t[0]] + parts[0]] + parts[1..]
  }

  function SplitLines(t: Text): (parts: seq<Text>)
    ensures parts != []
    decreases |t|
  {
    if t == [] then [[]]
    else if LineEnd(t) > 0 then [[]] + SplitLines(t[LineEnd(t)..])
    else
      var parts := SplitLines(t[1..]);
      [[t[0]] + parts[0]] + parts[1..]
  }

  /** Where the first colon is, or the length of the line. */
  function ColonAt(line: Text): (n: nat)
    ensures n <= |line|
  {
    if line == [] || line[0] == COLON then 0 else 1 + ColonAt(line[1..])
  }

  predicate AllDigits(t: Text) { t != [] && forall n :: 0 <= n < |t| ==> JsonReader.IsDigit(t[n]) }

  /** The fields of the frame being read. */
  datatype Frame = Frame(id: Option<nat>, kind: Text, dataLines: seq<Text>)

  const MESSAGE := CanonicalJson.Units("message")
  const NEW_FRAME := Frame(None, MESSAGE, [])

  function AfterLine(frame: Frame, line: Text): Frame {
    if line != [] && line[0] == COLON then frame
    else
      var separator := ColonAt(line);
      var field := line[..separator];
      var value := if separator == |line| then [] else TrimStart(line[separator + 1..]);
      var f1 := if field == ID && AllDigits(value) then frame.(id := Some(JsonReader.ReadDigits(value, 0).0))
                else frame;
      var f2 := if field == EVENT && value != [] then f1.(kind := value) else f1;
      if field == DATA then f2.(dataLines := f2.dataLines + [value]) else f2
  }

  function AfterLines(frame: Frame, lines: seq<Text>): Frame
    decreases |lines|
  {
    if lines == [] then frame else AfterLines(AfterLine(frame, lines[0]), lines[1..])
  }

  function Join(lines: seq<Text>): Text {
    if lines == [] then [] else if |lines| == 1 then lines[0] else lines[0] + [LF] + Join(lines[1..])
  }

  /** The event of a frame that has an identifier and a JSON object. */
  function EventOf(frame: Frame): Option<Event> {
    if frame.id.None? || frame.dataLines == [] then None
    else
      var data := JsonReader.Parse(Join(frame.dataLines));
      if data.Some? && data.value.Obj? then Some(Event(frame.id.value, frame.kind, data.value)) else None
  }

  function Events(frames: seq<Text>): seq<Event> {
    if frames == [] then []
    else
      var event := EventOf(AfterLines(NEW_FRAME, SplitLines(frames[0])));
      (if event.Some? then [event.value] else []) + Events(frames[1..])
  }

  /** The lines of one frame, read one after another. */
  method ReadFrame(text: Text) returns (frame: Frame)
    ensures frame == AfterLines(NEW_FRAME, SplitLines(text))
  {
    var lines := SplitLines(text);
    var id: Option<nat> := None;
    var kind := MESSAGE;
    var dataLines: seq<Text> := [];
    var k := 0;
    while k < |lines|
      invariant k <= |lines|
      invariant AfterLines(Frame(id, kind, dataLines), lines[k..]) == AfterLines(NEW_FRAME, lines)
    {
      var line := lines[k];
      assert lines[k..][1..] == lines[k + 1..];
      k := k + 1;
      if line != [] && line[0] == COLON { continue; }
      var separator := ColonAt(line);
      var field := line[..separator];
      var value := if separator == |line| then [] else TrimStart(line[separator + 1..]);
      if field == ID && AllDigits(value) { id := Some(JsonReader.ReadDigits(value, 0).0); }
      if field == EVENT && value != [] { kind := value; }
      if field == DATA { dataLines := dataLines + [value]; }
    }
    assert lines[k..] == [];
    return Frame(id, kind, dataLines);
  }

  lemma EventsStep(events: seq<Event>, frames: seq<Text>, n: nat)
    requires n < |frames|
    ensures var event := EventOf(AfterLines(NEW_FRAME, SplitLines(frames[n])));
            events + Events(frames[n..])
            == (if event.Some? then events + [event.value] else events) + Events(frames[n + 1..])
  {
    var event := EventOf(AfterLines(NEW_FRAME, SplitLines(frames[n])));
    var one: seq<Event> := if event.Some? then [event.value] else [];
    assert frames[n..][1..] == frames[n + 1..];
    assert events + (one + Events(frames[n + 1..])) == (events + one) + Events(frames[n + 1..]);
  }

  method ParseSseFrames(text: Text) returns (events: seq<Event>)
    ensures events == Events(SplitFrames(text))
  {
    events := [];
    var frames := SplitFrames(text);
    var n := 0;
    while n < |frames|
      invariant n <= |frames| && events + Events(frames[n..]) == Events(frames)
    {
      var frame := ReadFrame(frames[n]);
      EventsStep(events, frames, n);
      n := n + 1;
      var event := EventOf(frame);
      if event.Some? { events := events + [event.value]; }
    }
    assert frames[n..] == [];
  }

  // ---------------------------------------------------------------------------- round trip

  /** A line without line ends of its own. */
  predicate OneLine(t: Text) { forall n :: 0 <= n < |t| ==> t[n] != LF && t[n] != CR }

  /** A type as the event log has them: one line, not empty, not starting with white space. */
  predicate TypeText(t: Text) { t != [] && OneLine(t) && !White(t[0]) }

  predicate Sendable(e: Event) { e.data.Obj? && Jsonable(e.data) && TypeText(e.kind) }

  predicate AllSendable(log: seq<Event>) { forall n :: 0 <= n < |log| ==> Sendable(log[n]) }

  predicate Visible(t: Text) { forall n :: 0 <= n < |t| ==> t[n] >= 32 }

  lemma {:induction false} EscapeIsVisible(s: Text)
    ensures Visible(Escape(s))
    decreases |s|
  {
    if s == [] {
    } else if HighSurrogate(s[0]) && |s| > 1 && LowSurrogate(s[1]) {
      EscapeIsVisible(s[2..]);
    } else {
      EscapeIsVisible(s[1..]);
      UnitIsVisible(s[0]);
    }
  }

  lemma UnitIsVisible(u: CodeUnit)
    ensures Visible(EscapeUnit(u))
  {
    var h := Hex4(u);
    assert h[0] >= 48 && h[1] >= 48 && h[2] >= 48 && h[3] >= 48;
  }

  lemma {:induction false} DigitsAreVisible(n: nat)
    ensures Visible(Digits(n)) && AllDigits(Digits(n))
  {
    if n >= 10 { DigitsAreVisible(n / 10); }
  }

  lemma ScalarIsVisible(v: Value)
    requires v.Null? || v.Bool? || v.Num?
    ensures Visible(Print(v))
  {
    if v.Num? { DigitsAreVisible(if v.n < 0 then -v.n else v.n); }
  }

  /** Printed JSON is one line of text. */
  lemma {:induction false} PrintIsVisible(v: Value)
    requires Jsonable(v)
    ensures Visible(Print(v))
    decreases v, 2, 0
  {
    if v.Str? {
      EscapeIsVisible(v.s);
    } else if v.Arr? {
      ItemsAreVisible(v, 0);
    } else if v.Obj? {
      FieldsAreVisible(v, 0);
    } else {
      ScalarIsVisible(v);
    }
  }

  lemma {:induction false} ItemsAreVisible(v: Value, n: nat)
    requires v.Arr? && Jsonable(v) && n <= |v.items|
    ensures Visible(PrintItems(v, n))
    decreases v, 0, |v.items| - n
  {
    if n < |v.items| {
      PrintIsVisible(v.items[n]);
      ItemsAreVisible(v, n + 1);
    }
  }

  lemma {:induction false} FieldsAreVisible(v: Value, n: nat)
    requires v.Obj? && Jsonable(v) && n <= |v.fields|
    ensures Visible(PrintFields(v, n))
    decreases v, 0, |v.fields| - n
  {
    if n < |v.fields| {
      EscapeIsVisible(v.fields[n].key);
      PrintIsVisible(v.fields[n].value);
      FieldsAreVisible(v, n + 1);
      assert Visible(PrintField(v, n));
    }
  }

  lemma {:induction false} SplitOneLine(line: Text)
    requires OneLine(line)
    ensures SplitLines(line) == [line]
  {
    if line != [] {
      SplitOneLine(line[1..]);
      assert [line[0]] + line[1..] == line;
    }
  }

  lemma {:induction false} SplitFirstLine(line: Text, rest: Text)
    requires OneLine(line)
    ensures SplitLines(line + ([LF] + rest)) == [line] + SplitLines(rest)
  {
    var t := line + ([LF] + rest);
    if line == [] {
      assert t == [LF] + rest && t[1..] == rest;
    } else {
      assert t[1..] == line[1..] + ([LF] + rest) && t[0] == line[0];
      SplitFirstLine(line[1..], rest);
      assert [line[0]] + line[1..] == line;
    }
  }

  /** No blank line inside, nor begun at the end. */
  predicate Compact(body: Text) {
    forall n :: 0 <= n < |body| && body[n] == LF ==> n + 1 < |body| && body[n + 1] != LF && body[n + 1] != CR
  }

  predicate NoCr(t: Text) { forall n :: 0 <= n < |t| ==> t[n] != CR }

  lemma {:induction false} SplitFirstFrame(body: Text, rest: Text)
    requires Compact(body) && NoCr(body)
    ensures SplitFrames(body + ([LF, LF] + rest)) == [body] + SplitFrames(rest)
  {
    var after := [LF, LF] + rest;
    var t := body + after;
    if body == [] {
      assert t == after && t[1..][1..] == rest && t[2..] == rest;
    } else {
      assert t[0] == body[0] && t[1..] == body[1..] + after;
      assert BlankLine(t) == 0 by {
        if body[0] == LF { assert t[1] == body[1]; }
      }
      assert Compact(body[1..]) by {
        forall n | 0 <= n < |body[1..]| && body[1..][n] == LF
          ensures n + 1 < |body[1..]| && body[1..][n + 1] != LF && body[1..][n + 1] != CR
        {
          assert body[n + 1] == LF;
        }
      }
      SplitFirstFrame(body[1..], rest);
      assert [body[0]] + body[1..] == body;
    }
  }

  lemma {:induction false} ColonAfter(field: Text, rest: Text)
    requires forall n :: 0 <= n < |field| ==> field[n] != COLON
    ensures ColonAt(field + ([COLON] + rest)) == |field|
  {
    var t := field + ([COLON] + rest);
    if field != [] {
      assert t[1..] == field[1..] + ([COLON] + rest);
      ColonAfter(field[1..], rest);
    }
  }

  /** A rendered line gives its field and its value back. */
  lemma LineParts(field: Text, value: Text)
    requires field != [] && (forall n :: 0 <= n < |field| ==> field[n] != COLON)
    requires value == [] || !White(value[0])
    ensures var line := Line(field, value);
            && line[0] != COLON && ColonAt(line) == |field| < |line| && line[..|field|] == field
            && TrimStart(line[|field| + 1..]) == value
  {
    var line := Line(field, value);
    assert line == field + ([COLON] + ([SPACE] + value));
    ColonAfter(field, [SPACE] + value);
    assert line[|field| + 1..] == [SPACE] + value;
    assert ([SPACE] + value)[1..] == value;
  }

  lemma FieldNames()
    ensures |ID| == 2 && |EVENT| == 5 && |DATA| == 4
    ensures forall n :: 0 <= n < |ID| ==> ID[n] > 58
    ensures forall n :: 0 <= n < |EVENT| ==> EVENT[n] > 58
    ensures forall n :: 0 <= n < |DATA| ==> DATA[n] > 58
  {
  }

  lemma {:induction false} DigitsRead(n: nat)
    ensures AllDigits(Digits(n)) && JsonReader.ReadDigits(Digits(n), 0).0 == n
  {
    DigitsAreVisible(n);
    JsonReader.DigitsRoundTrip(n, []);
    assert Digits(n) + [] == Digits(n);
  }

  lemma IdLine(frame: Frame, n: nat)
    ensures AfterLine(frame, Line(ID, Digits(n))) == frame.(id := Some(n))
  {
    FieldNames();
    DigitsRead(n);
    LineParts(ID, Digits(n));
  }

  lemma EventLine(frame: Frame, kind: Text)
    requires TypeText(kind)
    ensures AfterLine(frame, Line(EVENT, kind)) == frame.(kind := kind)
  {
    FieldNames();
    LineParts(EVENT, kind);
  }

  lemma DataLine(frame: Frame, data: Text)
    requires data != [] && !White(data[0])
    ensures AfterLine(frame, Line(DATA, data)) == frame.(dataLines := frame.dataLines + [data])
  {
    FieldNames();
    LineParts(DATA, data);
  }

  lemma LineIsOne(field: Text, value: Text)
    requires OneLine(field) && OneLine(value)
    ensures OneLine(Line(field, value))
  {
  }

  /** The three lines of a frame. */
  lemma BodyLines(e: Event)
    requires Sendable(e)
    ensures OneLine(Line(ID, Digits(e.id))) && OneLine(Line(EVENT, e.kind)) && OneLine(Line(DATA, Print(e.data)))
    ensures SplitLines(Body(e)) == [Line(ID, Digits(e.id)), Line(EVENT, e.kind), Line(DATA, Print(e.data))]
  {
    FieldNames();
    DigitsAreVisible(e.id);
    PrintIsVisible(e.data);
    var l1, l2, l3 := Line(ID, Digits(e.id)), Line(EVENT, e.kind), Line(DATA, Print(e.data));
    LineIsOne(ID, Digits(e.id));
    LineIsOne(EVENT, e.kind);
    LineIsOne(DATA, Print(e.data));
    assert Body(e) == l1 + ([LF] + (l2 + ([LF] + l3)));
    SplitFirstLine(l1, l2 + ([LF] + l3));
    SplitFirstLine(l2, l3);
    SplitOneLine(l3);
  }

  lemma FrameRoundTrip(e: Event)
    requires Sendable(e)
    ensures EventOf(AfterLines(NEW_FRAME, SplitLines(Body(e)))) == Some(e)
  {
    BodyLines(e);
    var l1, l2, l3 := Line(ID, Digits(e.id)), Line(EVENT, e.kind), Line(DATA, Print(e.data));
    var f1 := NEW_FRAME.(id := Some(e.id));
    var f2 := f1.(kind := e.kind);
    IdLine(NEW_FRAME, e.id);
    EventLine(f1, e.kind);
    DataLine(f2, Print(e.data));
    ThreeLines(NEW_FRAME, l1, l2, l3);
    JsonReader.ParseOfPrint(e.data);
  }

  lemma OneMoreLine(frame: Frame, line: Text)
    ensures AfterLines(frame, [line]) == AfterLine(frame, line)
  {
    var one: seq<Text> := [line];
    assert |one[1..]| == 0;
  }

  lemma ThreeLines(frame: Frame, l1: Text, l2: Text, l3: Text)
    ensures AfterLines(frame, [l1, l2, l3]) == AfterLine(AfterLine(AfterLine(frame, l1), l2), l3)
  {
    var three: seq<Text> := [l1, l2, l3];
    var two: seq<Text> := [l2, l3];
    var one: seq<Text> := [l3];
    assert three[1..] == two && two[1..] == one && |one[1..]| == 0;
    var f1 := AfterLine(frame, l1);
    OneMoreLine(AfterLine(f1, l2), l3);
    assert AfterLines(frame, three) == AfterLines(f1, two);
    assert AfterLines(f1, two) == AfterLines(AfterLine(f1, l2), one);
  }

  lemma JoinedIsCompact(l1: Text, l2: Text, l3: Text)
    requires OneLine(l1) && OneLine(l2) && OneLine(l3) && l2 != [] && l3 != []
    ensures Compact(l1 + [LF] + l2 + [LF] + l3) && NoCr(l1 + [LF] + l2 + [LF] + l3)
  {
    var body := l1 + [LF] + l2 + [LF] + l3;
    forall n | 0 <= n < |body| && body[n] == LF ensures n + 1 < |body| && body[n + 1] != LF && body[n + 1] != CR {
      assert n == |l1| || n == |l1| + 1 + |l2|;
      if n == |l1| {
        assert body[n + 1] == l2[0];
      } else {
        assert body[n + 1] == l3[0];
      }
    }
  }

  lemma HeartbeatIsSilent()
    ensures Events(SplitFrames(HEARTBEAT + [LF, LF])) == []
  {
    assert HEARTBEAT[0] == COLON && OneLine(HEARTBEAT);
    SplitFirstFrame(HEARTBEAT, []);
    assert [LF, LF] + [] == [LF, LF];
    SplitOneLine(HEARTBEAT);
    assert SplitFrames(HEARTBEAT + [LF, LF]) == [HEARTBEAT] + SplitFrames([]);
    NoEvent(HEARTBEAT);
    EmptyLine();
    NoEvent([]);
    var empty: Text := [];
    var frames: seq<Text> := [HEARTBEAT, empty];
    var last: seq<Text> := [empty];
    assert frames[1..] == last && |last[1..]| == 0;
    assert |Events(frames[1..])| == 0;
  }

  lemma EmptyLine()
    ensures AfterLine(NEW_FRAME, []) == NEW_FRAME
  {
    FieldNames();
  }

  lemma NoEvent(line: Text)
    requires SplitLines(line) == [line] && AfterLine(NEW_FRAME, line) == NEW_FRAME
    ensures EventOf(AfterLines(NEW_FRAME, SplitLines(line))).None?
  {
    assert [line][1..] == [];
  }

  lemma RenderFirst(log: seq<Event>, cursor: nat)
    requires log != [] && Printable(log)
    ensures Render(log, cursor)
            == if log[0].id > cursor then Body(log[0]) + ([LF, LF] + Render(log[1..], cursor))
            else Render(log[1..], cursor)
  {
    assert [] + Render(log[1..], cursor) == Render(log[1..], cursor);
  }

  /** Parsing what was rendered gives back exactly the events after the cursor. */
  lemma {:induction false} RoundTrip(log: seq<Event>, cursor: nat)
    requires AllSendable(log)
    ensures Printable(log) && Events(SplitFrames(Render(log, cursor))) == Since(log, cursor)
  {
    if log == [] {
      HeartbeatIsSilent();
    } else {
      RoundTrip(log[1..], cursor);
      RenderFirst(log, cursor);
      var rest := Render(log[1..], cursor);
      var text := Render(log, cursor);
      if log[0].id > cursor {
        FirstFrame(log[0], rest);
        assert Events(SplitFrames(text)) == [log[0]] + Events(SplitFrames(rest));
      } else {
        assert text == rest;
        assert Since(log, cursor) == Since(log[1..], cursor);
      }
    }
  }

  lemma FirstFrame(e: Event, rest: Text)
    requires Sendable(e)
    ensures Events(SplitFrames(Body(e) + ([LF, LF] + rest))) == [e] + Events(SplitFrames(rest))
  {
    FieldNames();
    BodyLines(e);
    JoinedIsCompact(Line(ID, Digits(e.id)), Line(EVENT, e.kind), Line(DATA, Print(e.data)));
    SplitFirstFrame(Body(e), rest);
    FrameRoundTrip(e);
    var frames := [Body(e)] + SplitFrames(rest);
    assert frames[1..] == SplitFrames(rest);
  }

  // ------------------------------------------------------------------------------ polling

  predicate Increasing(log: seq<Event>) {
    && (forall n :: 0 <= n < |log| ==> log[n].id > 0)
    && forall m, n :: 0 <= m < n < |log| ==> log[m].id < log[n].id
  }

  function MaxId(cursor: nat, events: seq<Event>): nat {
    if events == [] then cursor
    else
      var max := MaxId(cursor, events[..|events| - 1]);
      if events[|events| - 1].id > max then events[|events| - 1].id else max
  }

  lemma {:induction false} SinceSplits(xs: seq<Event>, ys: seq<Event>, cursor: nat)
    ensures Since(xs + ys, cursor) == Since(xs, cursor) + Since(ys, cursor)
  {
    if xs == [] {
      assert xs + ys == ys;
    } else {
      assert (xs + ys)[1..] == xs[1..] + ys;
      SinceSplits(xs[1..], ys, cursor);
    }
  }

  lemma {:induction false} SinceKeepsAll(log: seq<Event>, cursor: nat)
    requires forall n :: 0 <= n < |log| ==> log[n].id > cursor
    ensures Since(log, cursor) == log
  {
    if log != [] {
      SinceKeepsAll(log[1..], cursor);
      assert log == [log[0]] + log[1..];
    }
  }

  lemma {:induction false} SinceDropsAll(log: seq<Event>, cursor: nat)
    requires forall n :: 0 <= n < |log| ==> log[n].id <= cursor
    ensures Since(log, cursor) == []
  {
    if log != [] { SinceDropsAll(log[1..], cursor); }
  }

  /** The cursor after everything in the log was seen. */
  function CursorOf(log: seq<Event>): nat { if log == [] then 0 else log[|log| - 1].id }

  lemma GrownIsNew(seen: seq<Event>, log: seq<Event>)
    requires seen <= log && Increasing(log)
    ensures var grown := log[|seen|..];
            && (forall n :: 0 <= n < |grown| ==> grown[n].id > CursorOf(seen))
            && (forall m, n :: 0 <= m < n < |grown| ==> grown[m].id < grown[n].id)
    ensures forall n :: 0 <= n < |seen| ==> seen[n].id <= CursorOf(seen)
  {
    var grown := log[|seen|..];
    forall n | 0 <= n < |grown| ensures grown[n] == log[|seen| + n] {
    }
    forall n | 0 <= n < |seen| ensures seen[n] == log[n] {
    }
  }

  lemma SinceIsGrowth(seen: seq<Event>, grown: seq<Event>, cursor: nat)
    requires forall n :: 0 <= n < |grown| ==> grown[n].id > cursor
    requires forall n :: 0 <= n < |seen| ==> seen[n].id <= cursor
    ensures Since(seen + grown, cursor) == grown
  {
    SinceSplits(seen, grown, cursor);
    SinceDropsAll(seen, cursor);
    SinceKeepsAll(grown, cursor);
  }

  /** A poll after the log grew gives exactly what it grew by, and moves the cursor to its end. */
  lemma PollAdvances(seen: seq<Event>, log: seq<Event>)
    requires seen <= log && Increasing(log)
    ensures seen + Since(log, CursorOf(seen)) == log
    ensures MaxId(CursorOf(seen), Since(log, CursorOf(seen))) == CursorOf(log)
  {
    var grown := log[|seen|..];
    GrownIsNew(seen, log);
    assert log == seen + grown;
    SinceIsGrowth(seen, grown, CursorOf(seen));
    MaxIsLast(CursorOf(seen), grown);
  }

  lemma {:induction false} MaxIsLast(cursor: nat, events: seq<Event>)
    requires forall n :: 0 <= n < |events| ==> events[n].id > cursor
    requires forall m, n :: 0 <= m < n < |events| ==> events[m].id < events[n].id
    ensures MaxId(cursor, events) == if events == [] then cursor else events[|events| - 1].id
  {
    if events != [] { MaxIsLast(cursor, events[..|events| - 1]); }
  }

  /** The client's cursor before its n-th poll, when its polls find these logs: the highest sequence it
      was given. A poll that fails changes nothing and is not one of them. */
  function CursorAt(logs: seq<seq<Event>>, n: nat): nat
    requires n <= |logs|
  {
    if n == 0 then 0 else MaxId(CursorAt(logs, n - 1), Since(logs[n - 1], CursorAt(logs, n - 1)))
  }

  /** What the first n polls give the client. */
  function DeliveredBy(logs: seq<seq<Event>>, n: nat): seq<Event>
    requires n <= |logs|
  {
    if n == 0 then [] else DeliveredBy(logs, n - 1) + Since(logs[n - 1], CursorAt(logs, n - 1))
  }

  /** The polling loop of the client, over whatever logs its polls find. */
  method Poll(logs: seq<seq<Event>>) returns (delivered: seq<Event>, cursor: nat)
    requires forall n :: 0 <= n < |logs| ==> AllSendable(logs[n])
    ensures delivered == DeliveredBy(logs, |logs|) && cursor == CursorAt(logs, |logs|)
  {
    delivered, cursor := [], 0;
    var n := 0;
    while n < |logs|
      invariant n <= |logs| && delivered == DeliveredBy(logs, n) && cursor == CursorAt(logs, n)
    {
      RoundTrip(logs[n], cursor);
      var events := ParseSseFrames(Render(logs[n], cursor));
      cursor := MaxId(cursor, events);
      delivered := delivered + events;
      n := n + 1;
    }
  }

  lemma PollGives(logs: seq<seq<Event>>, n: nat)
    requires 0 < n <= |logs|
    ensures var cursor := CursorAt(logs, n - 1);
            && DeliveredBy(logs, n) == DeliveredBy(logs, n - 1) + Since(logs[n - 1], cursor)
            && CursorAt(logs, n) == MaxId(cursor, Since(logs[n - 1], cursor))
  {
  }

  /** Polling a log that grows at its end gives every event once, in order. */
  lemma {:induction false} GrowingLogIsDelivered(logs: seq<seq<Event>>, n: nat)
    requires n <= |logs| && forall m :: 0 <= m < |logs| ==> Increasing(logs[m])
    requires forall l, m :: 0 <= l <= m < |logs| ==> logs[l] <= logs[m]
    ensures DeliveredBy(logs, n) == if n == 0 then [] else logs[n - 1]
    ensures CursorAt(logs, n) == CursorOf(DeliveredBy(logs, n))
  {
    if n > 0 {
      GrowingLogIsDelivered(logs, n - 1);
      GrowthIsGiven(logs, n, if n == 1 then [] else logs[n - 2]);
    }
  }

  lemma GrowthIsGiven(logs: seq<seq<Event>>, n: nat, seen: seq<Event>)
    requires 0 < n <= |logs| && seen <= logs[n - 1] && Increasing(logs[n - 1])
    requires DeliveredBy(logs, n - 1) == seen && CursorAt(logs, n - 1) == CursorOf(seen)
    ensures DeliveredBy(logs, n) == logs[n - 1] && CursorAt(logs, n) == CursorOf(logs[n - 1])
  {
    PollAdvances(seen, logs[n - 1]);
    PollGives(logs, n);
  }

  lemma {:induction false} GivenExactly(log: seq<Event>, cursor: nat, e: Event)
    ensures e in Since(log, cursor) <==> e in log && e.id > cursor
  {
    if log != [] { GivenExactly(log[1..], cursor, e); }
  }

  lemma {:induction false} MaxCovers(cursor: nat, events: seq<Event>)
    ensures MaxId(cursor, events) >= cursor
    ensures forall e :: e in events ==> MaxId(cursor, events) >= e.id
  {
    if events != [] { MaxCovers(cursor, events[..|events| - 1]); }
  }

  lemma {:induction false} MaxIsReached(cursor: nat, events: seq<Event>) returns (e: Event)
    requires MaxId(cursor, events) != cursor
    ensures e in events && e.id == MaxId(cursor, events)
  {
    var init, last := events[..|events| - 1], events[|events| - 1];
    if last.id > MaxId(cursor, init) { e := last; } else { e := MaxIsReached(cursor, init); }
  }

  lemma {:induction false} CursorGrows(logs: seq<seq<Event>>, m: nat, n: nat)
    requires m <= n <= |logs|
    ensures CursorAt(logs, m) <= CursorAt(logs, n)
  {
    if m < n {
      CursorGrows(logs, m, n - 1);
      MaxCovers(CursorAt(logs, n - 1), Since(logs[n - 1], CursorAt(logs, n - 1)));
    }
  }

  /** The cursor is the highest sequence delivered so far. */
  lemma {:induction false} CursorCovers(logs: seq<seq<Event>>, n: nat, e: Event)
    requires n <= |logs| && e in DeliveredBy(logs, n)
    ensures e.id <= CursorAt(logs, n)
  {
    var given := Since(logs[n - 1], CursorAt(logs, n - 1));
    PollGives(logs, n);
    MaxCovers(CursorAt(logs, n - 1), given);
    if e in DeliveredBy(logs, n - 1) { CursorCovers(logs, n - 1, e); } else { assert e in given; }
  }

  lemma {:induction false} CursorIsReached(logs: seq<seq<Event>>, n: nat) returns (e: Event)
    requires n <= |logs| && CursorAt(logs, n) > 0
    ensures e in DeliveredBy(logs, n) && e.id == CursorAt(logs, n)
  {
    var cursor, given := CursorAt(logs, n - 1), Since(logs[n - 1], CursorAt(logs, n - 1));
    if MaxId(cursor, given) == cursor { e := CursorIsReached(logs, n - 1); } else { e := MaxIsReached(cursor, given); }
  }

  /** The n-th poll is the first to find the event. */
  predicate AppearsAt(logs: seq<seq<Event>>, n: nat, e: Event) {
    n < |logs| && e in logs[n] && forall m :: 0 <= m < n ==> e !in logs[m]
  }

  lemma {:induction false} DeliveredIsAbove(logs: seq<seq<Event>>, n: nat, e: Event, k: nat)
    requires k <= |logs| && AppearsAt(logs, n, e) && e in DeliveredBy(logs, k)
    ensures e.id > CursorAt(logs, n)
  {
    GivenExactly(logs[k - 1], CursorAt(logs, k - 1), e);
    if e in Since(logs[k - 1], CursorAt(logs, k - 1)) {
      assert n <= k - 1;
      CursorGrows(logs, n, k - 1);
    } else {
      DeliveredIsAbove(logs, n, e, k - 1);
    }
  }

  lemma {:induction false} DeliveredStays(logs: seq<seq<Event>>, n: nat, k: nat)
    requires n <= k <= |logs|
    ensures DeliveredBy(logs, n) <= DeliveredBy(logs, k)
  {
    if n < k {
      DeliveredStays(logs, n, k - 1);
      PollGives(logs, k);
    }
  }

  /** Whatever logs the polls find, an event is delivered by some poll exactly when its sequence is above
      the cursor at the first poll that finds it. */
  lemma DeliveredExactly(logs: seq<seq<Event>>, n: nat, e: Event)
    requires AppearsAt(logs, n, e)
    ensures e in DeliveredBy(logs, |logs|) <==> e.id > CursorAt(logs, n)
  {
    if e.id > CursorAt(logs, n) {
      GivenExactly(logs[n], CursorAt(logs, n), e);
      assert e in DeliveredBy(logs, n + 1);
      DeliveredStays(logs, n + 1, |logs|);
    } else if e in DeliveredBy(logs, |logs|) {
      DeliveredIsAbove(logs, n, e, |logs|);
    }
  }

  /** So it is lost exactly when one with the same or a higher sequence was delivered before it appeared. */
  lemma LostExactly(logs: seq<seq<Event>>, n: nat, e: Event)
    requires AppearsAt(logs, n, e) && e.id > 0
    ensures e !in DeliveredBy(logs, |logs|) <==> exists d :: d in DeliveredBy(logs, n) && d.id >= e.id
  {
    DeliveredExactly(logs, n, e);
    if e.id <= CursorAt(logs, n) {
      var d := CursorIsReached(logs, n);
    } else {
      forall d | d in DeliveredBy(logs, n) ensures d.id < e.id {
        CursorCovers(logs, n, d);
      }
    }
  }

  /** No event is delivered twice. */
  lemma DeliveredOnce(logs: seq<seq<Event>>, m: nat, n: nat, e: Event)
    requires m < n < |logs| && e in Since(logs[m], CursorAt(logs, m))
    ensures e !in Since(logs[n], CursorAt(logs, n))
  {
    CursorPasses(logs, m, e);
    CursorStaysAbove(logs, m + 1, n, e.id);
    NotGivenBelow(logs[n], CursorAt(logs, n), e);
  }

  lemma CursorStaysAbove(logs: seq<seq<Event>>, m: nat, n: nat, id: nat)
    requires m <= n <= |logs| && id <= CursorAt(logs, m)
    ensures id <= CursorAt(logs, n)
  {
    CursorGrows(logs, m, n);
  }

  lemma NotGivenBelow(log: seq<Event>, cursor: nat, e: Event)
    requires e.id <= cursor
    ensures e !in Since(log, cursor)
  {
    GivenExactly(log, cursor, e);
  }

  lemma CursorPasses(logs: seq<seq<Event>>, m: nat, e: Event)
    requires m < |logs| && e in Since(logs[m], CursorAt(logs, m))
    ensures e.id <= CursorAt(logs, m + 1)
  {
    MaxCovers(CursorAt(logs, m), Since(logs[m], CursorAt(logs, m)));
  }

  /** An event committed after one with a higher sequence was polled: no later poll delivers it. */
  lemma LateEventIsLost(first: Event, late: Event, later: seq<seq<Event>>)
    requires 0 < late.id < first.id
    ensures Increasing([first]) && Increasing([late, first])
    ensures var logs := [[first], [late, first]] + later; late !in DeliveredBy(logs, |logs|)
  {
    var logs := [[first], [late, first]] + later;
    assert logs[0] == [first] && logs[1] == [late, first];
    GivenExactly([first], 0, first);
    PollGives(logs, 1);
    assert first in Since(logs[0], CursorAt(logs, 0));
    LostExactly(logs, 1, late);
  }
}
