/** De-duplicating the messages of the executor's event stream (ComfyObserver in
    apps/api/src/generation.ts). */
module Observer {
  import opened Wrappers
  import opened Json
  import JsonReader
  import CanonicalJson

  datatype Message = Message(kind: Text, data: Value)

  datatype EventKind = Started | Executing | Progress | Executed | Succeeded | FailedEvent | Interrupted

  /** A normalized message; its details are a function of the data it carries. */
  datatype CanonicalEvent = CanonicalEvent(kind: EventKind, prompt: Text, data: Value)

  predicate TerminalKind(kind: EventKind) {
    kind == Succeeded || kind == FailedEvent || kind == Interrupted
  }

  /** A received message carries an object that JSON.parse returned. */
  predicate Received(m: Message) { m.data.Obj? && Jsonable(m.data) }

  predicate AllReceived(messages: seq<Message>) {
    forall n :: 0 <= n < |messages| ==> Received(messages[n])
  }

  const START := CanonicalJson.Units("execution_start")
  const EXECUTING := CanonicalJson.Units("executing")
  const PROGRESS := CanonicalJson.Units("progress")
  const EXECUTED := CanonicalJson.Units("executed")
  const SUCCESS := CanonicalJson.Units("execution_success")
  const ERROR := CanonicalJson.Units("execution_error")
  const INTERRUPTED := CanonicalJson.Units("execution_interrupted")
  const PROMPT_ID := CanonicalJson.Units("prompt_id")

  function KindOf(t: Text): Option<EventKind> {
    if t == START then Some(Started) else if t == EXECUTING then Some(Executing)
    else if t == PROGRESS then Some(Progress) else if t == EXECUTED then Some(Executed)
    else if t == SUCCESS then Some(Succeeded) else if t == ERROR then Some(FailedEvent)
    else if t == INTERRUPTED then Some(Interrupted) else None
  }

  /** The text of a message decides what it tells. */
  lemma KindTable(t: Text)
    ensures (KindOf(t) == Some(Started) <==> t == CanonicalJson.Units("execution_start"))
            && (KindOf(t) == Some(Executing) <==> t == CanonicalJson.Units("executing"))
            && (KindOf(t) == Some(Progress) <==> t == CanonicalJson.Units("progress"))
            && (KindOf(t) == Some(Executed) <==> t == CanonicalJson.Units("executed"))
    ensures (KindOf(t) == Some(Succeeded) <==> t == CanonicalJson.Units("execution_success"))
            && (KindOf(t) == Some(FailedEvent) <==> t == CanonicalJson.Units("execution_error"))
            && (KindOf(t) == Some(Interrupted) <==> t == CanonicalJson.Units("execution_interrupted"))
  {
    assert |START| == 15 && |EXECUTING| == 9 && |PROGRESS| == 8 && |EXECUTED| == 8;
    assert |SUCCESS| == 17 && |ERROR| == 15 && |INTERRUPTED| == 21;
    assert PROGRESS[0] != EXECUTED[0] && START[10] != ERROR[10];
  }

  /** The prompt a message names; empty when it names none. */
  function PromptOf(data: Value): Text
    requires data.Obj?
  {
    if Has(data.fields, PROMPT_ID) && Lookup(data.fields, PROMPT_ID).Str? then Lookup(data.fields, PROMPT_ID).s else []
  }

  const OUTPUT := CanonicalJson.Units("output")

  const FILENAME := CanonicalJson.Units("filename")

  /** Object.values of an object or an array. */
  function ValuesOf(v: Value): seq<Value> {
    if v.Obj? then seq(|v.fields|, n requires 0 <= n < |v.fields| => v.fields[n].value) else if v.Arr? then v.items
    else []
  }

  /** The elements of the arrays among the values. */
  function Flattened(values: seq<Value>): seq<Value> {
    if values == [] then [] else (if values[0].Arr? then values[0].items else []) + Flattened(values[1..])
  }

  /** Whether the first object that names a file names it with a string. */
  predicate FirstFileIsNamed(values: seq<Value>) {
    values != []
    && if values[0].Obj? && Has(values[0].fields, FILENAME) then Lookup(values[0].fields, FILENAME).Str?
       else FirstFileIsNamed(values[1..])
  }

  /** Whether an executed message yields an output reference. */
  predicate HasOutput(data: Value) {
    data.Obj? && Has(data.fields, OUTPUT) && FirstFileIsNamed(Flattened(ValuesOf(Lookup(data.fields, OUTPUT))))
  }

  function Normalized(m: Message): Option<CanonicalEvent>
    requires Received(m)
  {
    if PromptOf(m.data) == [] || KindOf(m.kind).None? then None
    else Some(CanonicalEvent(KindOf(m.kind).value, PromptOf(m.data), m.data))
  }

  /** promptId:type:data, the data as JSON.stringify prints it. */
  function Key(m: Message): Text
    requires Received(m)
  {
    PromptOf(m.data) + [COLON] + m.kind + [COLON] + Print(m.data)
  }

  /** What the observer remembers. */
  datatype Memory = Memory(terminal: set<Text>, seen: set<Text>)

  function Observed(memory: Memory, m: Message): (Memory, Option<CanonicalEvent>)
    requires Received(m)
  {
    var event := Normalized(m);
    if event.None? || event.value.prompt in memory.terminal || Key(m) in memory.seen then (memory, None)
    else
      (Memory(if TerminalKind(event.value.kind) then memory.terminal + {event.value.prompt} else memory.terminal,
              memory.seen + {Key(m)}), event)
  }

  class ComfyObserver {
    var terminalPromptIds: set<Text>
    var seenEvents: set<Text>

    constructor ()
      ensures Remembers() == Memory({}, {})
    {
      terminalPromptIds, seenEvents := {}, {};
    }

    function Remembers(): Memory
      reads this
    {
      Memory(terminalPromptIds, seenEvents)
    }

    method Observe(message: Message) returns (event: Option<CanonicalEvent>)
      requires Received(message)
      modifies this
      ensures (Remembers(), event) == Observed(old(Remembers()), message)
    {
      var normalized := Normalized(message);
      if normalized.None? || normalized.value.prompt in terminalPromptIds { return None; }
      var eventKey := Key(message);
      if eventKey in seenEvents { return None; }
      seenEvents := seenEvents + {eventKey};
      if TerminalKind(normalized.value.kind) {
        terminalPromptIds := terminalPromptIds + {normalized.value.prompt};
      }
      return normalized;
    }

    method MarkTerminal(promptId: Text)
      modifies this
      ensures terminalPromptIds == old(terminalPromptIds) + {promptId} && seenEvents == old(seenEvents)
    {
      terminalPromptIds := terminalPromptIds + {promptId};
    }
  }

  // ---------------------------------------------------------------------- keys do not collide

  datatype Mode = Out | In | Escaped

  /** Reading printed JSON unit by unit: outside strings it has no backslash and none of the
      letters x and p, one of which is in every kind of message. */
  function Lex(mode: Mode, t: Text): Option<Mode>
    decreases |t|
  {
    if t == [] then Some(mode)
    else
      match mode
      case Out =>
        if t[0] == BACKSLASH || t[0] == 120 || t[0] == 112 then None
        else Lex(if t[0] == QUOTE then In else Out, t[1..])
      case In => Lex(if t[0] == QUOTE then Out else if t[0] == BACKSLASH then Escaped else In, t[1..])
      case Escaped => Lex(In, t[1..])
  }

  lemma {:induction false} LexConcat(mode: Mode, a: Text, b: Text)
    ensures Lex(mode, a + b) == if Lex(mode, a).None? then None else Lex(Lex(mode, a).value, b)
    decreases |a|
  {
    if a == [] {
      assert a + b == b;
    } else {
      assert (a + b)[1..] == a[1..] + b;
      LexConcat(Out, a[1..], b);
      LexConcat(In, a[1..], b);
      LexConcat(Escaped, a[1..], b);
    }
  }

  lemma {:induction false} LexPlainString(p: Text, t: Text)
    requires forall n :: 0 <= n < |p| ==> p[n] != QUOTE && p[n] != BACKSLASH
    ensures Lex(In, p + t) == Lex(In, t)
  {
    if p == [] {
      assert p + t == t;
    } else {
      assert (p + t)[1..] == p[1..] + t;
      LexPlainString(p[1..], t);
    }
  }

  lemma LexUnit(u: CodeUnit, t: Text)
    ensures Lex(In, EscapeUnit(u) + t) == Lex(In, t)
  {
    var e := EscapeUnit(u) + t;
    if ShortEscape(u).Some? {
      assert e[0] == BACKSLASH && e[1..][1..] == t;
    } else if u < 32 || HighSurrogate(u) || LowSurrogate(u) {
      assert e[0] == BACKSLASH && e[1] == 117 && e[1..][1..] == Hex4(u) + t;
      LexPlainString(Hex4(u), t);
    } else {
      LexPlainString([u], t);
    }
  }

  lemma {:induction false} LexEscaped(s: Text, t: Text)
    ensures Lex(In, Escape(s) + t) == Lex(In, t)
    decreases |s|
  {
    if s == [] {
      assert Escape(s) + t == t;
    } else if HighSurrogate(s[0]) && |s| > 1 && LowSurrogate(s[1]) {
      assert Escape(s) + t == [s[0], s[1]] + (Escape(s[2..]) + t);
      LexPlainString([s[0], s[1]], Escape(s[2..]) + t);
      LexEscaped(s[2..], t);
    } else {
      assert Escape(s) + t == EscapeUnit(s[0]) + (Escape(s[1..]) + t);
      LexUnit(s[0], Escape(s[1..]) + t);
      LexEscaped(s[1..], t);
    }
  }

  lemma LexQuoted(s: Text)
    ensures Lex(Out, Quote(s)) == Some(Out)
  {
    var q := Quote(s);
    assert q[0] == QUOTE && q[1..] == Escape(s) + [QUOTE];
    LexEscaped(s, [QUOTE]);
    assert [QUOTE][1..] == [];
  }

  lemma {:induction false} LexPlain(p: Text)
    requires forall n :: 0 <= n < |p| ==> p[n] != QUOTE && p[n] != BACKSLASH && p[n] != 120 && p[n] != 112
    ensures Lex(Out, p) == Some(Out)
  {
    if p != [] { LexPlain(p[1..]); }
  }

  lemma {:induction false} DigitsArePlain(n: nat)
    ensures forall k :: 0 <= k < |Digits(n)| ==> 48 <= Digits(n)[k] <= 57
  {
    if n >= 10 { DigitsArePlain(n / 10); }
  }

  lemma LexScalar(v: Value)
    requires v.Null? || v.Bool? || v.Num?
    ensures Lex(Out, Print(v)) == Some(Out)
  {
    if v.Num? { DigitsArePlain(if v.n < 0 then -v.n else v.n); }
    LexPlain(Print(v));
  }

  lemma LexJoin(a: Text, b: Text)
    requires Lex(Out, a) == Some(Out) && Lex(Out, b) == Some(Out)
    ensures Lex(Out, a + b) == Some(Out)
  {
    LexConcat(Out, a, b);
  }

  lemma {:induction false} LexPrinted(v: Value)
    requires Jsonable(v)
    ensures Lex(Out, Print(v)) == Some(Out)
    decreases v, 2, 0
  {
    if v.Str? {
      LexQuoted(v.s);
    } else if v.Arr? {
      LexItems(v, 0);
      LexBracketed(OPEN_BRACKET, PrintItems(v, 0), CLOSE_BRACKET);
    } else if v.Obj? {
      LexFields(v, 0);
      LexBracketed(OPEN_BRACE, PrintFields(v, 0), CLOSE_BRACE);
    } else {
      LexScalar(v);
    }
  }

  lemma LexBracketed(open: CodeUnit, t: Text, close: CodeUnit)
    requires (open == OPEN_BRACKET || open == OPEN_BRACE) && (close == CLOSE_BRACKET || close == CLOSE_BRACE)
    requires Lex(Out, t) == Some(Out)
    ensures Lex(Out, [open] + t + [close]) == Some(Out)
  {
    LexPlain([open]);
    LexPlain([close]);
    LexJoin([open], t);
    LexJoin([open] + t, [close]);
  }

  lemma {:induction false} LexItems(v: Value, n: nat)
    requires v.Arr? && Jsonable(v) && n <= |v.items|
    ensures Lex(Out, PrintItems(v, n)) == Some(Out)
    decreases v, 0, |v.items| - n
  {
    if n < |v.items| {
      LexPrinted(v.items[n]);
      LexItems(v, n + 1);
      LexPlain([COMMA]);
      LexJoin([COMMA], PrintItems(v, n + 1));
      LexJoin(Print(v.items[n]), if n + 1 == |v.items| then [] else [COMMA] + PrintItems(v, n + 1));
    }
  }

  lemma {:induction false} LexField(v: Value, n: nat)
    requires v.Obj? && Jsonable(v) && n < |v.fields|
    ensures Lex(Out, PrintField(v, n)) == Some(Out)
    decreases v, 0, |v.fields| - n, 0
  {
    LexQuoted(v.fields[n].key);
    LexPlain([COLON]);
    LexJoin(Quote(v.fields[n].key), [COLON]);
    LexPrinted(v.fields[n].value);
    LexJoin(Quote(v.fields[n].key) + [COLON], Print(v.fields[n].value));
  }

  lemma {:induction false} LexFields(v: Value, n: nat)
    requires v.Obj? && Jsonable(v) && n <= |v.fields|
    ensures Lex(Out, PrintFields(v, n)) == Some(Out)
    decreases v, 0, |v.fields| - n, 1
  {
    if n < |v.fields| {
      LexField(v, n);
      LexFields(v, n + 1);
      LexPlain([COMMA]);
      LexJoin([COMMA], PrintFields(v, n + 1));
      LexJoin(PrintField(v, n), if n + 1 == |v.fields| then [] else [COMMA] + PrintFields(v, n + 1));
    }
  }

  /** No text reads the same from inside and from outside a string. */
  lemma {:induction false} LexFlips(t: Text)
    requires Lex(Out, t).Some? && Lex(In, t).Some?
    ensures Lex(Out, t) != Lex(In, t)
    decreases |t|
  {
    if t != [] { LexFlips(t[1..]); }
  }

  predicate Marked(kind: Text) {
    exists n :: 0 <= n < |kind| && (kind[n] == 120 || kind[n] == 112)
  }

  /** A kind of message: no colon, quote or backslash, and an x or a p. */
  predicate KindText(kind: Text) {
    && kind != [] && kind[0] != OPEN_BRACE && Marked(kind)
    && forall n :: 0 <= n < |kind| ==> kind[n] != COLON && kind[n] != QUOTE && kind[n] != BACKSLASH
  }

  predicate ObjectText(json: Text) { json != [] && json[0] == OPEN_BRACE && Lex(Out, json) == Some(Out) }

  lemma StartIsKindText()
    ensures KindText(START)
  {
    assert START[1] == 120;
  }

  lemma ExecutingIsKindText()
    ensures KindText(EXECUTING)
  {
    assert EXECUTING[1] == 120;
  }

  lemma ProgressIsKindText()
    ensures KindText(PROGRESS)
  {
    assert PROGRESS[0] == 112;
  }

  lemma ExecutedIsKindText()
    ensures KindText(EXECUTED)
  {
    assert EXECUTED[1] == 120;
  }

  lemma SuccessIsKindText()
    ensures KindText(SUCCESS)
  {
    assert SUCCESS[1] == 120;
  }

  lemma ErrorIsKindText()
    ensures KindText(ERROR)
  {
    assert ERROR[1] == 120;
  }

  lemma InterruptedIsKindText()
    ensures KindText(INTERRUPTED)
  {
    assert INTERRUPTED[1] == 120;
  }

  lemma KindsAreMarked(kind: Text)
    requires KindOf(kind).Some?
    ensures KindText(kind)
  {
    StartIsKindText();
    ExecutingIsKindText();
    ProgressIsKindText();
    ExecutedIsKindText();
    SuccessIsKindText();
    ErrorIsKindText();
    InterruptedIsKindText();
  }

  lemma {:induction false} MarkedCannotStandOutside(t: Text)
    requires Marked(t) && forall n :: 0 <= n < |t| ==> t[n] != QUOTE
    ensures Lex(Out, t).None?
    decreases |t|
  {
    var n :| 0 <= n < |t| && (t[n] == 120 || t[n] == 112);
    if n > 0 {
      assert t[1..][n - 1] == t[n];
      MarkedCannotStandOutside(t[1..]);
    }
  }

  lemma Bracketing(kind: Text)
    requires KindText(kind)
    ensures Lex(Out, [COLON] + kind + [COLON]).None?
    ensures Lex(In, [COLON] + kind + [COLON]) == Some(In) && Lex(Escaped, [COLON] + kind + [COLON]) == Some(In)
  {
    var mark := [COLON] + kind + [COLON];
    assert forall n :: 0 <= n < |kind| ==> mark[n + 1] == kind[n];
    assert forall n :: 0 < n < |kind| + 1 ==> mark[n] == kind[n - 1];
    assert Marked(mark) by {
      var n :| 0 <= n < |kind| && (kind[n] == 120 || kind[n] == 112);
      assert mark[n + 1] == kind[n];
    }
    MarkedCannotStandOutside(mark);
    LexPlainString(mark[1..], []);
    LexPlainString(mark, []);
    assert mark + [] == mark && mark[1..] + [] == mark[1..];
  }

  /** A printed object never ends in a kind followed by another printed object. */
  lemma NoKeyInsideData(x: Text, kind: Text, inner: Text)
    requires KindText(kind) && ObjectText(inner)
    ensures Lex(Out, x + (([COLON] + kind + [COLON]) + inner)) != Some(Out)
  {
    var mark := [COLON] + kind + [COLON];
    Bracketing(kind);
    LexConcat(Out, x, mark + inner);
    if Lex(Out, x).Some? {
      LexConcat(Lex(Out, x).value, mark, inner);
      if Lex(In, inner).Some? { LexFlips(inner); }
    }
  }

  function Joined(prompt: Text, kind: Text, json: Text): Text {
    prompt + [COLON] + kind + [COLON] + json
  }

  lemma LongerPrefix(a: Text, x: Text, b: Text, y: Text)
    requires a + x == b + y && |a| <= |b|
    ensures b == a + b[|a|..] && x == b[|a|..] + y
  {
    assert (a + x)[..|a|] == a && (b + y)[..|a|] == b[..|a|];
    assert (a + x)[|a|..] == x && (b + y)[|a|..] == b[|a|..] + y;
  }

  /** Splitting at the first colon. */
  lemma FirstColon(a: Text, x: Text, b: Text, y: Text)
    requires a + ([COLON] + x) == b + ([COLON] + y) && |a| <= |b|
    ensures (a == b && x == y) || (|a| < |b| && b[|a|] == COLON)
  {
    LongerPrefix(a, [COLON] + x, b, [COLON] + y);
    assert (a + ([COLON] + x))[|a|] == COLON;
    if |a| == |b| {
      assert ([COLON] + x)[1..] == x && ([COLON] + y)[1..] == y;
    }
  }

  lemma KindsSplit(kind: Text, json: Text, kind': Text, json': Text)
    requires KindText(kind) && KindText(kind') && kind + ([COLON] + json) == kind' + ([COLON] + json')
    ensures kind == kind' && json == json'
  {
    if |kind| <= |kind'| { FirstColon(kind, json, kind', json'); } else { FirstColon(kind', json', kind, json); }
  }

  /** No longer prompt can hide the first kind and the start of its data. */
  lemma NoLongerPrompt(kind: Text, json: Text, extra: Text, kind': Text, json': Text)
    requires KindText(kind) && KindText(kind') && ObjectText(json) && ObjectText(json')
    ensures kind + ([COLON] + json) != extra + (([COLON] + kind' + [COLON]) + json')
  {
    var mark := [COLON] + kind' + [COLON];
    assert (kind' + ([COLON] + json'))[0] == kind'[0];
    if kind + ([COLON] + json) == extra + (mark + json') {
      assert mark + json' == [COLON] + (kind' + ([COLON] + json'));
      if |extra| <= |kind| {
        FirstColon(extra, kind' + ([COLON] + json'), kind, json);
      } else {
        LongerPrefix(kind, [COLON] + json, extra, mark + json');
        var x := extra[|kind|..][1..];
        assert ([COLON] + json)[1..] == json;
        assert json == x + (mark + json');
        NoKeyInsideData(x, kind', json');
      }
    }
  }

  lemma ShorterPromptFirst(prompt: Text, kind: Text, json: Text, prompt': Text, kind': Text, json': Text)
    requires KindText(kind) && KindText(kind') && ObjectText(json) && ObjectText(json')
    requires Joined(prompt, kind, json) == Joined(prompt', kind', json') && |prompt| <= |prompt'|
    ensures prompt == prompt' && kind == kind' && json == json'
  {
    var x, y := [COLON] + (kind + ([COLON] + json)), [COLON] + (kind' + ([COLON] + json'));
    assert Joined(prompt, kind, json) == prompt + x && Joined(prompt', kind', json') == prompt' + y;
    LongerPrefix(prompt, x, prompt', y);
    if |prompt| == |prompt'| {
      assert x == y && x[1..] == kind + ([COLON] + json) && y[1..] == kind' + ([COLON] + json');
      KindsSplit(kind, json, kind', json');
    } else {
      var extra := prompt'[|prompt|..][1..];
      assert x[1..] == kind + ([COLON] + json);
      assert x[1..] == extra + y && y == ([COLON] + kind' + [COLON]) + json';
      NoLongerPrompt(kind, json, extra, kind', json');
    }
  }

  lemma KeyParts(m: Message)
    requires Received(m) && Normalized(m).Some?
    ensures KindText(m.kind) && ObjectText(Print(m.data)) && Key(m) == Joined(PromptOf(m.data), m.kind, Print(m.data))
  {
    KindsAreMarked(m.kind);
    LexPrinted(m.data);
  }

  /** promptId:type:data identifies the message, although prompt identifiers may hold anything. */
  lemma KeyIsInjective(m: Message, m': Message)
    requires Received(m) && Received(m') && Normalized(m).Some? && Normalized(m').Some?
    requires Key(m) == Key(m')
    ensures m == m'
  {
    KeyParts(m);
    KeyParts(m');
    var p, p' := PromptOf(m.data), PromptOf(m'.data);
    if |p| <= |p'| {
      ShorterPromptFirst(p, m.kind, Print(m.data), p', m'.kind, Print(m'.data));
    } else {
      ShorterPromptFirst(p', m'.kind, Print(m'.data), p, m.kind, Print(m.data));
    }
    JsonReader.ParseOfPrint(m.data);
    JsonReader.ParseOfPrint(m'.data);
  }

  // ------------------------------------------------------------------------ whole streams

  function RememberedAfter(memory: Memory, messages: seq<Message>): Memory
    requires AllReceived(messages)
  {
    if messages == [] then memory
    else
      var n := |messages| - 1;
      Observed(RememberedAfter(memory, messages[..n]), messages[n]).0
  }

  /** The events a sequence of messages lets through. */
  function Output(memory: Memory, messages: seq<Message>): seq<CanonicalEvent>
    requires AllReceived(messages)
  {
    if messages == [] then []
    else
      var n := |messages| - 1;
      var event := Observed(RememberedAfter(memory, messages[..n]), messages[n]).1;
      Output(memory, messages[..n]) + (if event.Some? then [event.value] else [])
  }

  predicate EndsPrompt(m: Message, prompt: Text)
    requires Received(m)
  {
    Normalized(m).Some? && Normalized(m).value.prompt == prompt && TerminalKind(Normalized(m).value.kind)
  }

  /** Message n is the first of its kind, and no earlier message ended its prompt. */
  ghost predicate Fresh(messages: seq<Message>, n: nat)
    requires AllReceived(messages) && n < |messages|
  {
    && Normalized(messages[n]).Some?
    && (forall j :: 0 <= j < n ==> messages[j] != messages[n])
    && (forall j :: 0 <= j < n ==> !EndsPrompt(messages[j], Normalized(messages[n]).value.prompt))
  }

  const NOTHING := Memory({}, {})

  /** What is remembered is exactly which prompts ended and, for the others, which messages came. */
  ghost predicate Remembers(memory: Memory, messages: seq<Message>)
    requires AllReceived(messages)
  {
    && (forall prompt ::
          prompt in memory.terminal <==> exists j :: 0 <= j < |messages| && EndsPrompt(messages[j], prompt))
    && (forall m | Received(m) && Normalized(m).Some? && Normalized(m).value.prompt !in memory.terminal ::
          Key(m) in memory.seen <==> m in messages)
  }

  lemma {:induction false} MemoryIsExact(messages: seq<Message>)
    requires AllReceived(messages)
    ensures Remembers(RememberedAfter(NOTHING, messages), messages)
  {
    if messages != [] {
      var n := |messages| - 1;
      MemoryIsExact(messages[..n]);
      MemoryGrows(RememberedAfter(NOTHING, messages[..n]), messages[..n], messages[n]);
      assert messages == messages[..n] + [messages[n]];
    }
  }

  lemma EndedGrows(messages: seq<Message>, m: Message, prompt: Text)
    requires AllReceived(messages) && Received(m)
    ensures var all := messages + [m];
            (exists j :: 0 <= j < |all| && EndsPrompt(all[j], prompt))
            <==> EndsPrompt(m, prompt) || exists j :: 0 <= j < |messages| && EndsPrompt(messages[j], prompt)
  {
    var all := messages + [m];
    assert all[|messages|] == m;
    if j :| 0 <= j < |messages| && EndsPrompt(messages[j], prompt) { assert all[j] == messages[j]; }
  }

  lemma MemoryGrows(memory: Memory, messages: seq<Message>, m: Message)
    requires AllReceived(messages) && Received(m) && Remembers(memory, messages)
    ensures AllReceived(messages + [m]) && Remembers(Observed(memory, m).0, messages + [m])
  {
    var memory', all := Observed(memory, m).0, messages + [m];
    forall prompt ensures prompt in memory'.terminal <==> exists j :: 0 <= j < |all| && EndsPrompt(all[j], prompt) {
      EndedGrows(messages, m, prompt);
    }
    forall m' | Received(m') && Normalized(m').Some? && Normalized(m').value.prompt !in memory'.terminal
      ensures Key(m') in memory'.seen <==> m' in all
    {
      if Normalized(m).Some? && Key(m') == Key(m) { KeyIsInjective(m, m'); }
    }
  }

  /** A message passes exactly when it is fresh. */
  lemma PassesExactly(messages: seq<Message>, n: nat)
    requires AllReceived(messages) && n < |messages|
    ensures Observed(RememberedAfter(NOTHING, messages[..n]), messages[n]).1
            == if Fresh(messages, n) then Normalized(messages[n]) else None
  {
    MemoryIsExact(messages[..n]);
    var before := messages[..n];
    assert forall j :: 0 <= j < n ==> before[j] == messages[j];
    assert messages[n] in before <==> exists j :: 0 <= j < n && messages[j] == messages[n];
  }

  lemma FreshStays(messages: seq<Message>, n: nat, k: nat)
    requires AllReceived(messages) && k < n <= |messages|
    ensures Fresh(messages, k) <==> Fresh(messages[..n], k)
  {
    assert forall j :: 0 <= j <= k ==> messages[..n][j] == messages[j];
  }

  /** Where the events let through come from: fresh messages, in order. */
  lemma {:induction false} Sources(messages: seq<Message>) returns (from: seq<nat>)
    requires AllReceived(messages)
    ensures |from| == |Output(NOTHING, messages)|
    ensures forall i :: 0 <= i < |from| ==> from[i] < |messages| && Fresh(messages, from[i])
    ensures forall i :: 0 <= i < |from| ==> Some(Output(NOTHING, messages)[i]) == Normalized(messages[from[i]])
    ensures forall i, j :: 0 <= i < j < |from| ==> from[i] < from[j]
    ensures forall n :: 0 <= n < |messages| && Fresh(messages, n) ==> n in from
  {
    from := [];
    if messages != [] {
      var n := |messages| - 1;
      from := Sources(messages[..n]);
      PassesExactly(messages, n);
      if Fresh(messages, n) { from := from + [n]; }
      forall k | 0 <= k < n ensures Fresh(messages, k) <==> Fresh(messages[..n], k) {
        FreshStays(messages, n, k);
      }
    }
  }

  /** The output is a subsequence of the normalized input: exactly its fresh messages. It has no
      repeats, at most one terminal event for a prompt, and nothing of a prompt after it. */
  lemma OutputIsClean(messages: seq<Message>, i: nat, j: nat)
    requires AllReceived(messages) && i < j < |Output(NOTHING, messages)|
    ensures var out := Output(NOTHING, messages);
            && out[i] != out[j]
            && (out[i].prompt == out[j].prompt ==> !TerminalKind(out[i].kind))
  {
    var out := Output(NOTHING, messages);
    var from := Sources(messages);
    var m, m' := messages[from[i]], messages[from[j]];
    assert Some(out[i]) == Normalized(m) && Some(out[j]) == Normalized(m');
    if out[i] == out[j] { KindsDiffer(m.kind, m'.kind); }
    if TerminalKind(out[i].kind) { assert EndsPrompt(m, out[i].prompt); }
  }

  lemma KindsDiffer(kind: Text, kind': Text)
    requires KindOf(kind).Some? && KindOf(kind) == KindOf(kind')
    ensures kind == kind'
  {
  }

  lemma {:induction false} MemoriesCompose(memory: Memory, xs: seq<Message>, ys: seq<Message>, all: seq<Message>)
    requires AllReceived(xs) && AllReceived(ys) && AllReceived(all) && all == xs + ys
    ensures RememberedAfter(memory, all) == RememberedAfter(RememberedAfter(memory, xs), ys)
    decreases |ys|
  {
    if ys == [] {
      assert all == xs;
    } else {
      var n := |ys| - 1;
      assert all[..|all| - 1] == xs + ys[..n] && all[|all| - 1] == ys[n];
      MemoriesCompose(memory, xs, ys[..n], all[..|all| - 1]);
    }
  }

  function LetThrough(memory: Memory, m: Message): seq<CanonicalEvent>
    requires Received(m)
  {
    var event := Observed(memory, m).1;
    if event.Some? then [event.value] else []
  }

  lemma OutputLast(memory: Memory, init: seq<Message>, m: Message, all: seq<Message>)
    requires AllReceived(init) && Received(m) && AllReceived(all) && all == init + [m]
    ensures Output(memory, all) == Output(memory, init) + LetThrough(RememberedAfter(memory, init), m)
  {
    assert all[..|all| - 1] == init;
  }

  /** What is let through before and after some point of a stream. */
  lemma {:induction false} StreamsCompose(memory: Memory, xs: seq<Message>, ys: seq<Message>, all: seq<Message>)
    requires AllReceived(xs) && AllReceived(ys) && AllReceived(all) && all == xs + ys
    ensures Output(memory, all) == Output(memory, xs) + Output(RememberedAfter(memory, xs), ys)
    decreases |ys|
  {
    if ys == [] {
      assert all == xs;
    } else {
      var m, early, init := ys[|ys| - 1], ys[..|ys| - 1], all[..|all| - 1];
      assert init == xs + early && all == init + [m] && ys == early + [m];
      MemoriesCompose(memory, xs, early, init);
      StreamsCompose(memory, xs, early, init);
      OutputLast(memory, init, m, all);
      OutputLast(RememberedAfter(memory, xs), early, m, ys);
    }
  }

  /** Sending an earlier message again, anywhere later, leaves the whole output unchanged. */
  lemma DuplicatesChangeNothing(before: seq<Message>, m: Message, after: seq<Message>)
    requires AllReceived(before) && m in before && AllReceived(after) && AllReceived(before + [m])
             && AllReceived(before + [m] + after)
    requires AllReceived(before + after)
    ensures Output(NOTHING, before + [m] + after) == Output(NOTHING, before + after)
  {
    var again := before + [m];
    var n := |before|;
    assert again[..n] == before && again[n] == m;
    assert !Fresh(again, n) by {
      var k :| 0 <= k < |before| && before[k] == m;
      assert again[k] == again[n];
    }
    PassesExactly(again, n);
    assert RememberedAfter(NOTHING, again) == RememberedAfter(NOTHING, before)
           && Output(NOTHING, again) == Output(NOTHING, before);
    StreamsCompose(NOTHING, again, after, again + after);
    StreamsCompose(NOTHING, before, after, before + after);
  }
}
