/** A reader for printed JSON, and the proof that it recovers every printed value. */
module JsonReader {
  import opened Wrappers
  import opened Domain
  import opened Json

  /** What was read, and the text after it. */
  datatype Reading<T> = Nothing | Read(value: T, rest: Text)

  function HexValue(u: CodeUnit): Option<nat> {
    if 48 <= u <= 57 then Some(u - 48) else if 97 <= u <= 102 then Some(u - 87) else None
  }

  function ReadHex4(t: Text): Reading<CodeUnit> {
    if |t| < 4 || HexValue(t[0]).None? || HexValue(t[1]).None? || HexValue(t[2]).None?
       || HexValue(t[3]).None? then Nothing
    else
      var u := HexValue(t[0]).value * 4096 + HexValue(t[1]).value * 256 + HexValue(t[2]).value * 16
        + HexValue(t[3]).value;
      if u < 0x1_0000 then Read(u, t[4..]) else Nothing
  }

  /** The unit that a letter after a backslash stands for. */
  function ShortUnit(letter: CodeUnit): Option<CodeUnit> {
    if letter == 98 then Some(8) else if letter == 116 then Some(9) else if letter == 110 then Some(10)
    else if letter == 102 then Some(12) else if letter == 114 then Some(13)
    else if letter == QUOTE || letter == BACKSLASH || letter == 47 then Some(letter) else None
  }

  /** One unit of a string, escaped or not. */
  function ReadUnit(t: Text): (r: Reading<CodeUnit>)
    ensures r.Read? ==> |r.rest| < |t|
  {
    if t == [] || t[0] < 32 || t[0] == QUOTE then Nothing
    else if t[0] != BACKSLASH then Read(t[0], t[1..])
    else if |t| > 1 && t[1] == 117 then ReadHex4(t[2..])
    else if |t| > 1 && ShortUnit(t[1]).Some? then Read(ShortUnit(t[1]).value, t[2..])
    else Nothing
  }

  /** A string up to and including its closing quote. */
  function ReadBody(t: Text): (r: Reading<Text>)
    ensures r.Read? ==> |r.rest| < |t|
    decreases |t|
  {
    if t == [] then Nothing
    else if t[0] == QUOTE then Read([], t[1..])
    else
      var unit := ReadUnit(t);
      if unit.Nothing? then Nothing
      else
        var body := ReadBody(unit.rest);
        if body.Nothing? then Nothing else Read([unit.value] + body.value, body.rest)
  }

  predicate IsDigit(u: CodeUnit) { 48 <= u <= 57 }

  function ReadDigits(t: Text, value: nat): (r: (nat, Text))
    ensures |r.1| <= |t|
    decreases |t|
  {
    if t == [] || !IsDigit(t[0]) then (value, t) else ReadDigits(t[1..], value * 10 + (t[0] - ZERO))
  }

  function ReadNumber(t: Text): (r: Reading<Value>)
    ensures r.Read? ==> |r.rest| < |t|
  {
    if t == [] then Nothing
    else if t[0] == MINUS then
      if |t| == 1 || !IsDigit(t[1]) then Nothing
      else
        var (n, rest) := ReadDigits(t[1..], 0);
        if n <= MAX_SAFE_INTEGER then Read(Num(0 - n), rest) else Nothing
    else if !IsDigit(t[0]) then Nothing
    else
      var (n, rest) := ReadDigits(t[1..], t[0] - ZERO);
      if n <= MAX_SAFE_INTEGER then Read(Num(n), rest) else Nothing
  }

  function ReadWord(t: Text): (r: Reading<Value>)
    ensures r.Read? ==> |r.rest| < |t|
  {
    if NULL_TEXT <= t then Read(Null, t[4..])
    else if TRUE_TEXT <= t then Read(Bool(true), t[4..])
    else if FALSE_TEXT <= t then Read(Bool(false), t[5..])
    else Nothing
  }

  function ReadValue(t: Text): (r: Reading<Value>)
    ensures r.Read? ==> |r.rest| < |t|
    decreases |t|, 1
  {
    if t == [] then Nothing
    else if t[0] == QUOTE then
      var body := ReadBody(t[1..]);
      if body.Nothing? then Nothing else Read(Str(body.value), body.rest)
    else if t[0] == OPEN_BRACKET then
      if |t| > 1 && t[1] == CLOSE_BRACKET then Read(Arr([]), t[2..])
      else
        var items := ReadItems(t[1..]);
        if items.Nothing? then Nothing else Read(Arr(items.value), items.rest)
    else if t[0] == OPEN_BRACE then
      if |t| > 1 && t[1] == CLOSE_BRACE then Read(Obj([]), t[2..])
      else
        var fields := ReadFields(t[1..]);
        if fields.Nothing? then Nothing else Read(Obj(fields.value), fields.rest)
    else if t[0] == MINUS || IsDigit(t[0]) then ReadNumber(t)
    else ReadWord(t)
  }

  /** The elements of an array up to and including its closing bracket. */
  function ReadItems(t: Text): (r: Reading<seq<Value>>)
    ensures r.Read? ==> |r.rest| < |t|
    decreases |t|, 2
  {
    var first := ReadValue(t);
    if first.Nothing? || first.rest == [] then Nothing
    else if first.rest[0] == CLOSE_BRACKET then Read([first.value], first.rest[1..])
    else if first.rest[0] != COMMA then Nothing
    else
      var others := ReadItems(first.rest[1..]);
      if others.Nothing? then Nothing else Read([first.value] + others.value, others.rest)
  }

  function ReadField(t: Text): (r: Reading<Field>)
    ensures r.Read? ==> |r.rest| < |t|
    decreases |t|, 2
  {
    if t == [] || t[0] != QUOTE then Nothing
    else
      var key := ReadBody(t[1..]);
      if key.Nothing? || key.rest == [] || key.rest[0] != COLON then Nothing
      else
        var value := ReadValue(key.rest[1..]);
        if value.Nothing? then Nothing else Read(Field(key.value, value.value), value.rest)
  }

  function ReadFields(t: Text): (r: Reading<seq<Field>>)
    ensures r.Read? ==> |r.rest| < |t|
    decreases |t|, 3
  {
    var first := ReadField(t);
    if first.Nothing? || first.rest == [] then Nothing
    else if first.rest[0] == CLOSE_BRACE then Read([first.value], first.rest[1..])
    else if first.rest[0] != COMMA then Nothing
    else
      var others := ReadFields(first.rest[1..]);
      if others.Nothing? then Nothing else Read([first.value] + others.value, others.rest)
  }

  /** A whole text is one value. */
  function Parse(t: Text): Option<Value> {
    var r := ReadValue(t);
    if r.Read? && r.rest == [] then Some(r.value) else None
  }

  // ------------------------------------------------------------------------- round trips

  lemma HexDigitRoundTrip(d: nat)
    requires d < 16
    ensures HexValue(HexDigit(d)) == Some(d)
  {
  }

  lemma Hex4RoundTrip(u: CodeUnit, rest: Text)
    ensures ReadHex4(Hex4(u) + rest) == Read(u, rest)
  {
    var x := u / 16;
    var y := x / 16;
    assert u == x * 16 + u % 16 && x == y * 16 + x % 16 && y == y / 16 * 16 + y % 16;
    HexDigitRoundTrip(y / 16);
    HexDigitRoundTrip(y % 16);
    HexDigitRoundTrip(x % 16);
    HexDigitRoundTrip(u % 16);
    assert (Hex4(u) + rest)[4..] == rest;
  }

  lemma UnitRoundTrip(u: CodeUnit, rest: Text)
    ensures ReadUnit(EscapeUnit(u) + rest) == Read(u, rest)
  {
    var t := EscapeUnit(u) + rest;
    if ShortEscape(u).Some? {
      assert t[1] == ShortEscape(u).value && t[2..] == rest;
    } else if u < 32 || HighSurrogate(u) || LowSurrogate(u) {
      assert t[0] == BACKSLASH && t[1] == 117 && t[2..] == Hex4(u) + rest;
      Hex4RoundTrip(u, rest);
    } else {
      assert t[0] == u && t[1..] == rest;
    }
  }

  lemma BodyStep(t: Text, u: CodeUnit, tail: Text, s: Text, rest: Text)
    requires t != [] && t[0] != QUOTE && ReadUnit(t) == Read(u, tail) && ReadBody(tail) == Read(s, rest)
    ensures ReadBody(t) == Read([u] + s, rest)
  {
  }

  lemma BodyUnit(u: CodeUnit, tail: Text, s: Text, rest: Text)
    requires ReadBody(tail) == Read(s, rest)
    ensures ReadBody(EscapeUnit(u) + tail) == Read([u] + s, rest)
  {
    UnitRoundTrip(u, tail);
    BodyStep(EscapeUnit(u) + tail, u, tail, s, rest);
  }

  lemma BodySurrogate(u: CodeUnit, tail: Text, s: Text, rest: Text)
    requires HighSurrogate(u) || LowSurrogate(u)
    requires ReadBody(tail) == Read(s, rest)
    ensures ReadBody([u] + tail) == Read([u] + s, rest)
  {
    assert ([u] + tail)[1..] == tail;
    BodyStep([u] + tail, u, tail, s, rest);
  }

  lemma BodyOfPair(s: Text, after: Text, rest: Text)
    requires |s| > 1 && HighSurrogate(s[0]) && LowSurrogate(s[1])
    requires ReadBody(Escape(s[2..]) + after) == Read(s[2..], rest)
    ensures ReadBody(Escape(s) + after) == Read(s, rest)
  {
    var tail := Escape(s[2..]) + after;
    assert Escape(s) + after == [s[0]] + ([s[1]] + tail);
    assert s == [s[0]] + ([s[1]] + s[2..]);
    BodySurrogate(s[1], tail, s[2..], rest);
    BodySurrogate(s[0], [s[1]] + tail, [s[1]] + s[2..], rest);
  }

  lemma BodyOfUnit(s: Text, after: Text, rest: Text)
    requires s != [] && !(HighSurrogate(s[0]) && |s| > 1 && LowSurrogate(s[1]))
    requires ReadBody(Escape(s[1..]) + after) == Read(s[1..], rest)
    ensures ReadBody(Escape(s) + after) == Read(s, rest)
  {
    var tail := Escape(s[1..]) + after;
    EscapeFirst(s, after);
    BodyUnit(s[0], tail, s[1..], rest);
  }

  lemma Join(a: Text, b: Text, c: Text)
    ensures (a + b) + c == a + (b + c)
  {
  }

  lemma EscapeFirst(s: Text, after: Text)
    requires s != [] && !(HighSurrogate(s[0]) && |s| > 1 && LowSurrogate(s[1]))
    ensures Escape(s) + after == EscapeUnit(s[0]) + (Escape(s[1..]) + after)
    ensures s == [s[0]] + s[1..]
  {
    var first, others := EscapeUnit(s[0]), Escape(s[1..]);
    assert Escape(s) == first + others;
    Join(first, others, after);
  }

  lemma BodyEnds(rest: Text)
    ensures ReadBody([QUOTE] + rest) == Read([], rest)
  {
    assert ([QUOTE] + rest)[1..] == rest;
  }

  lemma {:induction false} BodyRoundTrip(s: Text, after: Text, rest: Text)
    requires after == [QUOTE] + rest
    ensures ReadBody(Escape(s) + after) == Read(s, rest)
    decreases |s|
  {
    if s == [] {
      assert Escape(s) + after == after;
      BodyEnds(rest);
    } else if HighSurrogate(s[0]) && |s| > 1 && LowSurrogate(s[1]) {
      BodyRoundTrip(s[2..], after, rest);
      BodyOfPair(s, after, rest);
    } else {
      BodyRoundTrip(s[1..], after, rest);
      BodyOfUnit(s, after, rest);
    }
  }

  lemma {:induction false} DigitsRoundTrip(n: nat, rest: Text)
    ensures ReadDigits(Digits(n) + rest, 0) == ReadDigits(rest, n)
  {
    if n < 10 {
      assert (Digits(n) + rest)[1..] == rest;
    } else {
      var last := [ZERO + n % 10] + rest;
      assert Digits(n) + rest == Digits(n / 10) + last;
      DigitsRoundTrip(n / 10, last);
      assert last[1..] == rest;
      assert ReadDigits(last, n / 10) == ReadDigits(rest, n / 10 * 10 + n % 10);
    }
  }

  lemma {:induction false} DigitsStart(n: nat)
    ensures Digits(n) != [] && IsDigit(Digits(n)[0])
  {
    if n >= 10 { DigitsStart(n / 10); }
  }

  /** The text after a value cannot continue a number. */
  predicate Stops(rest: Text) { rest == [] || !IsDigit(rest[0]) }

  lemma NumberRoundTrip(n: SafeInt, rest: Text)
    requires Stops(rest)
    ensures ReadNumber(Decimal(n) + rest) == Read(Num(n), rest)
  {
    var m: nat := if n < 0 then -n else n;
    var t := Digits(m) + rest;
    DigitsAreRead(m, rest);
    if n < 0 {
      assert Decimal(n) + rest == [MINUS] + t;
      NegativeRead(m, t, rest);
    } else {
      PositiveRead(m, t, rest);
    }
  }

  lemma DigitsAreRead(m: nat, rest: Text)
    requires Stops(rest)
    ensures var t := Digits(m) + rest; t != [] && IsDigit(t[0]) && ReadDigits(t, 0) == (m, rest)
  {
    DigitsStart(m);
    DigitsRoundTrip(m, rest);
  }

  lemma NegativeRead(m: nat, t: Text, rest: Text)
    requires m <= MAX_SAFE_INTEGER && t != [] && IsDigit(t[0]) && ReadDigits(t, 0) == (m, rest)
    ensures ReadNumber([MINUS] + t) == Read(Num(0 - m), rest)
  {
    assert ([MINUS] + t)[1..] == t;
  }

  lemma PositiveRead(m: nat, t: Text, rest: Text)
    requires m <= MAX_SAFE_INTEGER && t != [] && IsDigit(t[0]) && ReadDigits(t, 0) == (m, rest)
    ensures ReadNumber(t) == Read(Num(m), rest)
  {
    assert ReadDigits(t, 0) == ReadDigits(t[1..], t[0] - ZERO);
  }

  lemma PrintStarts(v: Value)
    requires Jsonable(v)
    ensures Print(v) != [] && Print(v)[0] != CLOSE_BRACKET
  {
    match v {
      case Num(n) => DigitsStart(if n < 0 then -n else n);
      case _ =>
    }
  }

  lemma ScalarRoundTrip(v: Value, rest: Text)
    requires v.Null? || v.Bool?
    ensures ReadValue(Print(v) + rest) == Read(v, rest)
  {
    var t := Print(v) + rest;
    assert t[|Print(v)|..] == rest;
    assert t[0] == Print(v)[0];
    assert Print(v) <= t;
  }

  lemma NumRoundTrip(v: Value, rest: Text)
    requires v.Num? && Stops(rest)
    ensures ReadValue(Print(v) + rest) == Read(v, rest)
  {
    DigitsStart(if v.n < 0 then -v.n else v.n);
    NumberRoundTrip(v.n, rest);
    var t := Print(v) + rest;
    assert t[0] == MINUS || IsDigit(t[0]);
  }

  lemma StrRoundTrip(v: Value, rest: Text)
    requires v.Str?
    ensures ReadValue(Print(v) + rest) == Read(v, rest)
  {
    var after := [QUOTE] + rest;
    BodyRoundTrip(v.s, after, rest);
    QuotedText(v, rest);
    StrOfBody(Escape(v.s) + after, v.s, rest);
  }

  lemma QuotedText(v: Value, rest: Text)
    requires v.Str?
    ensures Print(v) + rest == [QUOTE] + (Escape(v.s) + ([QUOTE] + rest))
  {
    var escaped := Escape(v.s);
    assert ([QUOTE] + escaped + [QUOTE]) + rest == [QUOTE] + (escaped + ([QUOTE] + rest));
  }

  lemma StrOfBody(body: Text, s: Text, rest: Text)
    requires ReadBody(body) == Read(s, rest)
    ensures ReadValue([QUOTE] + body) == Read(Str(s), rest)
  {
    assert ([QUOTE] + body)[1..] == body;
  }

  lemma ArrOfItems(t: Text, items: seq<Value>, rest: Text)
    requires t != [] && t[0] != CLOSE_BRACKET && ReadItems(t) == Read(items, rest)
    ensures ReadValue([OPEN_BRACKET] + t) == Read(Arr(items), rest)
  {
    assert ([OPEN_BRACKET] + t)[1..] == t;
  }

  lemma EmptyArr(rest: Text)
    ensures ReadValue([OPEN_BRACKET] + ([CLOSE_BRACKET] + rest)) == Read(Arr([]), rest)
  {
    assert ([OPEN_BRACKET] + ([CLOSE_BRACKET] + rest))[2..] == rest;
  }

  lemma ObjOfFields(t: Text, fields: seq<Field>, rest: Text)
    requires t != [] && t[0] == QUOTE && ReadFields(t) == Read(fields, rest)
    ensures ReadValue([OPEN_BRACE] + t) == Read(Obj(fields), rest)
  {
    assert ([OPEN_BRACE] + t)[1..] == t;
  }

  lemma EmptyObj(rest: Text)
    ensures ReadValue([OPEN_BRACE] + ([CLOSE_BRACE] + rest)) == Read(Obj([]), rest)
  {
    assert ([OPEN_BRACE] + ([CLOSE_BRACE] + rest))[2..] == rest;
  }

  lemma LastItem(t: Text, v: Value, rest: Text)
    requires ReadValue(t) == Read(v, [CLOSE_BRACKET] + rest)
    ensures ReadItems(t) == Read([v], rest)
  {
    assert ([CLOSE_BRACKET] + rest)[1..] == rest;
  }

  lemma MoreItems(t: Text, v: Value, tail: Text, others: seq<Value>, rest: Text)
    requires ReadValue(t) == Read(v, [COMMA] + tail) && ReadItems(tail) == Read(others, rest)
    ensures ReadItems(t) == Read([v] + others, rest)
  {
    assert ([COMMA] + tail)[1..] == tail;
  }

  lemma LastField(t: Text, field: Field, rest: Text)
    requires ReadField(t) == Read(field, [CLOSE_BRACE] + rest)
    ensures ReadFields(t) == Read([field], rest)
  {
    assert ([CLOSE_BRACE] + rest)[1..] == rest;
  }

  lemma MoreFields(t: Text, field: Field, tail: Text, others: seq<Field>, rest: Text)
    requires ReadField(t) == Read(field, [COMMA] + tail) && ReadFields(tail) == Read(others, rest)
    ensures ReadFields(t) == Read([field] + others, rest)
  {
    assert ([COMMA] + tail)[1..] == tail;
  }

  lemma OneField(key: Text, t: Text, value: Value, rest: Text)
    requires ReadValue(t) == Read(value, rest)
    ensures ReadField(Quote(key) + ([COLON] + t)) == Read(Field(key, value), rest)
  {
    var colon := [COLON] + t;
    var text := Quote(key) + colon;
    assert text[0] == QUOTE && text[1..] == Escape(key) + ([QUOTE] + colon);
    BodyRoundTrip(key, [QUOTE] + colon, colon);
    assert colon[1..] == t;
  }

  // ------------------------------------------------- texts that read as a value, wherever they stand

  /** The text reads as the value before anything that cannot continue a number. */
  ghost predicate Reads(t: Text, v: Value) {
    forall rest :: Stops(rest) ==> ReadsBefore(t, v, rest)
  }

  predicate ReadsBefore(t: Text, v: Value, rest: Text) { ReadValue(t + rest) == Read(v, rest) }

  /** The text reads as the elements of an array before its closing bracket. */
  ghost predicate ReadsItems(t: Text, items: seq<Value>) {
    forall rest :: ReadsItemsBefore(t, items, rest)
  }

  predicate ReadsItemsBefore(t: Text, items: seq<Value>, rest: Text) {
    ReadItems(t + ([CLOSE_BRACKET] + rest)) == Read(items, rest)
  }

  ghost predicate ReadsFields(t: Text, fields: seq<Field>) {
    forall rest :: ReadsFieldsBefore(t, fields, rest)
  }

  predicate ReadsFieldsBefore(t: Text, fields: seq<Field>, rest: Text) {
    ReadFields(t + ([CLOSE_BRACE] + rest)) == Read(fields, rest)
  }

  lemma OneItemReads(t: Text, v: Value)
    requires Reads(t, v)
    ensures ReadsItems(t, [v])
  {
    forall rest ensures ReadsItemsBefore(t, [v], rest) {
      assert ReadsBefore(t, v, [CLOSE_BRACKET] + rest);
      LastItem(t + ([CLOSE_BRACKET] + rest), v, rest);
    }
  }

  lemma MoreItemsRead(t: Text, v: Value, others: Text, items: seq<Value>)
    requires Reads(t, v) && ReadsItems(others, items)
    ensures ReadsItems(t + ([COMMA] + others), [v] + items)
  {
    forall rest ensures ReadsItemsBefore(t + ([COMMA] + others), [v] + items, rest) {
      var tail := others + ([CLOSE_BRACKET] + rest);
      assert ReadsBefore(t, v, [COMMA] + tail) && ReadsItemsBefore(others, items, rest);
      MoreItems(t + ([COMMA] + tail), v, tail, items, rest);
      Associate(t, others, [CLOSE_BRACKET] + rest);
    }
  }

  lemma Associate(t: Text, others: Text, after: Text)
    ensures t + ([COMMA] + others) + after == t + ([COMMA] + (others + after))
  {
  }

  lemma ArrReads(t: Text, items: seq<Value>)
    requires ReadsItems(t, items) && t != [] && t[0] != CLOSE_BRACKET
    ensures Reads([OPEN_BRACKET] + t + [CLOSE_BRACKET], Arr(items))
  {
    forall rest | Stops(rest) ensures ReadsBefore([OPEN_BRACKET] + t + [CLOSE_BRACKET], Arr(items), rest) {
      var inner := t + ([CLOSE_BRACKET] + rest);
      assert ReadsItemsBefore(t, items, rest) && inner[0] == t[0];
      ArrOfItems(inner, items, rest);
      assert [OPEN_BRACKET] + t + [CLOSE_BRACKET] + rest == [OPEN_BRACKET] + inner;
    }
  }

  lemma EmptyArrReads()
    ensures Reads([OPEN_BRACKET] + [] + [CLOSE_BRACKET], Arr([]))
  {
    forall rest | Stops(rest) ensures ReadsBefore([OPEN_BRACKET] + [] + [CLOSE_BRACKET], Arr([]), rest) {
      EmptyArr(rest);
      assert [OPEN_BRACKET] + [] + [CLOSE_BRACKET] + rest == [OPEN_BRACKET] + ([CLOSE_BRACKET] + rest);
    }
  }

  lemma FieldReads(key: Text, t: Text, value: Value, rest: Text)
    requires Reads(t, value) && Stops(rest)
    ensures ReadField(Quote(key) + [COLON] + t + rest) == Read(Field(key, value), rest)
  {
    assert ReadsBefore(t, value, rest);
    OneField(key, t + rest, value, rest);
    FieldText(Quote(key), t, rest);
  }

  lemma FieldText(quoted: Text, t: Text, rest: Text)
    ensures quoted + [COLON] + t + rest == quoted + ([COLON] + (t + rest))
  {
  }

  lemma OneFieldReads(key: Text, t: Text, value: Value)
    requires Reads(t, value)
    ensures ReadsFields(Quote(key) + [COLON] + t, [Field(key, value)])
  {
    forall rest ensures ReadsFieldsBefore(Quote(key) + [COLON] + t, [Field(key, value)], rest) {
      FieldReads(key, t, value, [CLOSE_BRACE] + rest);
      LastField(Quote(key) + [COLON] + t + ([CLOSE_BRACE] + rest), Field(key, value), rest);
    }
  }

  lemma MoreFieldsRead(key: Text, t: Text, value: Value, others: Text, fields: seq<Field>)
    requires Reads(t, value) && ReadsFields(others, fields)
    ensures ReadsFields(Quote(key) + [COLON] + t + ([COMMA] + others), [Field(key, value)] + fields)
  {
    var field := Quote(key) + [COLON] + t;
    forall rest ensures ReadsFieldsBefore(field + ([COMMA] + others), [Field(key, value)] + fields, rest) {
      var tail := others + ([CLOSE_BRACE] + rest);
      assert ReadsFieldsBefore(others, fields, rest);
      FieldReads(key, t, value, [COMMA] + tail);
      MoreFields(field + ([COMMA] + tail), Field(key, value), tail, fields, rest);
      Associate(field, others, [CLOSE_BRACE] + rest);
    }
  }

  lemma ObjReads(t: Text, fields: seq<Field>)
    requires ReadsFields(t, fields) && t != [] && t[0] == QUOTE
    ensures Reads([OPEN_BRACE] + t + [CLOSE_BRACE], Obj(fields))
  {
    forall rest | Stops(rest) ensures ReadsBefore([OPEN_BRACE] + t + [CLOSE_BRACE], Obj(fields), rest) {
      var inner := t + ([CLOSE_BRACE] + rest);
      assert ReadsFieldsBefore(t, fields, rest) && inner[0] == t[0];
      ObjOfFields(inner, fields, rest);
      assert [OPEN_BRACE] + t + [CLOSE_BRACE] + rest == [OPEN_BRACE] + inner;
    }
  }

  lemma EmptyObjReads()
    ensures Reads([OPEN_BRACE] + [] + [CLOSE_BRACE], Obj([]))
  {
    forall rest | Stops(rest) ensures ReadsBefore([OPEN_BRACE] + [] + [CLOSE_BRACE], Obj([]), rest) {
      EmptyObj(rest);
      assert [OPEN_BRACE] + [] + [CLOSE_BRACE] + rest == [OPEN_BRACE] + ([CLOSE_BRACE] + rest);
    }
  }

  lemma ScalarReads(v: Value)
    requires v.Null? || v.Bool? || v.Num? || v.Str?
    ensures Reads(Print(v), v)
  {
    forall rest | Stops(rest) ensures ReadsBefore(Print(v), v, rest) {
      if v.Num? { NumRoundTrip(v, rest); } else if v.Str? { StrRoundTrip(v, rest); } else { ScalarRoundTrip(v, rest); }
    }
  }

  lemma FieldsStart(v: Value)
    requires v.Obj? && Jsonable(v) && v.fields != []
    ensures PrintFields(v, 0) != [] && PrintFields(v, 0)[0] == QUOTE
  {
    assert PrintField(v, 0) != [] && PrintField(v, 0)[0] == QUOTE;
    assert PrintField(v, 0) <= PrintFields(v, 0);
  }

  /** Reading back what was printed gives the value and leaves the text after it. */
  lemma {:induction false} PrintedReads(v: Value)
    requires Jsonable(v)
    ensures Reads(Print(v), v)
    decreases v, 1, 0
  {
    if v.Arr? {
      if v.items == [] {
        EmptyArrReads();
      } else {
        PrintedItemsRead(v, 0);
        PrintStarts(v.items[0]);
        assert v.items[0..] == v.items && PrintItems(v, 0)[0] == Print(v.items[0])[0];
        ArrReads(PrintItems(v, 0), v.items);
      }
    } else if v.Obj? {
      if v.fields == [] {
        EmptyObjReads();
      } else {
        PrintedFieldsRead(v, 0);
        FieldsStart(v);
        assert v.fields[0..] == v.fields;
        ObjReads(PrintFields(v, 0), v.fields);
      }
    } else {
      ScalarReads(v);
    }
  }

  lemma {:induction false} PrintedItemsRead(v: Value, n: nat)
    requires v.Arr? && Jsonable(v) && n < |v.items|
    ensures ReadsItems(PrintItems(v, n), v.items[n..])
    decreases v, 0, |v.items| - n
  {
    PrintedReads(v.items[n]);
    if n + 1 == |v.items| {
      OneItemReads(Print(v.items[n]), v.items[n]);
      assert PrintItems(v, n) == Print(v.items[n]) && v.items[n..] == [v.items[n]];
    } else {
      PrintedItemsRead(v, n + 1);
      MoreItemsRead(Print(v.items[n]), v.items[n], PrintItems(v, n + 1), v.items[n + 1..]);
      assert v.items[n..] == [v.items[n]] + v.items[n + 1..];
    }
  }

  lemma {:induction false} PrintedFieldsRead(v: Value, n: nat)
    requires v.Obj? && Jsonable(v) && n < |v.fields|
    ensures ReadsFields(PrintFields(v, n), v.fields[n..])
    decreases v, 0, |v.fields| - n
  {
    var field := v.fields[n];
    PrintedReads(field.value);
    if n + 1 == |v.fields| {
      OneFieldReads(field.key, Print(field.value), field.value);
      assert PrintFields(v, n) == PrintField(v, n) && v.fields[n..] == [field];
    } else {
      PrintedFieldsRead(v, n + 1);
      MoreFieldsRead(field.key, Print(field.value), field.value, PrintFields(v, n + 1), v.fields[n + 1..]);
      assert v.fields[n..] == [field] + v.fields[n + 1..];
    }
  }

  /** Parsing is a left inverse of printing, so two values with one text are one value. */
  lemma ParseOfPrint(v: Value)
    requires Jsonable(v)
    ensures Parse(Print(v)) == Some(v)
  {
    PrintedReads(v);
    assert ReadsBefore(Print(v), v, []);
    assert Print(v) + [] == Print(v);
  }
}
