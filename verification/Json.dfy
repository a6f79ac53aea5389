/** JSON texts as sequences of UTF-16 code units: printing the way JSON.stringify does, canonical
    printing (packages/workflow-compiler/src/canonical.ts), and a reader that recovers the value. */
module Json {
  import opened Wrappers
  import opened Domain

  type CodeUnit = x: int | 0 <= x < 0x1_0000
  type Text = seq<CodeUnit>

  /** The integers a JavaScript number holds exactly; their text is plain decimal. */
  type SafeInt = x: int | -MAX_SAFE_INTEGER <= x <= MAX_SAFE_INTEGER

  const QUOTE: CodeUnit := 34
  const COMMA: CodeUnit := 44
  const MINUS: CodeUnit := 45
  const ZERO: CodeUnit := 48
  const COLON: CodeUnit := 58
  const OPEN_BRACKET: CodeUnit := 91
  const BACKSLASH: CodeUnit := 92
  const CLOSE_BRACKET: CodeUnit := 93
  const OPEN_BRACE: CodeUnit := 123
  const CLOSE_BRACE: CodeUnit := 125

  /** What JavaScript trims from the ends of a text. */
  predicate White(u: CodeUnit) {
    9 <= u <= 13 || u == 32 || u == 0xA0 || u == 0x1680 || 0x2000 <= u <= 0x200A || u == 0x2028 || u == 0x2029
    || u == 0x202F || u == 0x205F || u == 0x3000 || u == 0xFEFF
  }

  function TrimStart(t: Text): Text {
    if t != [] && White(t[0]) then TrimStart(t[1..]) else t
  }

  const NULL_TEXT: Text := [110, 117, 108, 108]
  const TRUE_TEXT: Text := [116, 114, 117, 101]
  const FALSE_TEXT: Text := [102, 97, 108, 115, 101]

  datatype Field = Field(key: Text, value: Value)

  /** A JavaScript value. The last five are not JSON: a non-finite number, an undefined, a function
      or symbol, a hole of a sparse array and an object with a prototype of its own. */
  datatype Value =
    | Null | Bool(b: bool) | Num(n: SafeInt) | Str(s: Text)
    | Arr(items: seq<Value>) | Obj(fields: seq<Field>)
    | NonFinite | Undefined | Opaque | Hole | Exotic

  datatype Problem = NonFiniteNumber | NonJsonValue | SparseArray | NotPlainObject | UndefinedField

  // ------------------------------------------------------------------------- scalar texts

  predicate HighSurrogate(u: CodeUnit) { 0xD800 <= u < 0xDC00 }

  predicate LowSurrogate(u: CodeUnit) { 0xDC00 <= u < 0xE000 }

  /** The letter after the backslash of a two-unit escape. */
  function ShortEscape(u: CodeUnit): Option<CodeUnit> {
    if u == 8 then Some(98) else if u == 9 then Some(116) else if u == 10 then Some(110)
    else if u == 12 then Some(102) else if u == 13 then Some(114)
    else if u == QUOTE || u == BACKSLASH then Some(u) else None
  }

  function HexDigit(d: nat): CodeUnit
    requires d < 16
  {
    if d < 10 then 48 + d else 87 + d
  }

  function Hex4(u: CodeUnit): Text {
    [HexDigit(u / 16 / 16 / 16), HexDigit(u / 16 / 16 % 16), HexDigit(u / 16 % 16), HexDigit(u % 16)]
  }

  function EscapeUnit(u: CodeUnit): Text {
    if ShortEscape(u).Some? then [BACKSLASH, ShortEscape(u).value]
    else if u < 32 || HighSurrogate(u) || LowSurrogate(u) then [BACKSLASH, 117] + Hex4(u)
    else [u]
  }

  /** A surrogate pair is copied; a surrogate on its own is escaped. */
  function Escape(s: Text): Text {
    if s == [] then []
    else if HighSurrogate(s[0]) && |s| > 1 && LowSurrogate(s[1]) then [s[0], s[1]] + Escape(s[2..])
    else EscapeUnit(s[0]) + Escape(s[1..])
  }

  function Quote(s: Text): Text { [QUOTE] + Escape(s) + [QUOTE] }

  function Digits(n: nat): Text {
    if n < 10 then [ZERO + n] else Digits(n / 10) + [ZERO + n % 10]
  }

  function Decimal(n: int): Text { if n < 0 then [MINUS] + Digits(-n) else Digits(n) }

  // ------------------------------------------------------------------------- canonical text

  /** The default order of sort(): code unit by code unit, a prefix first. */
  predicate Before(a: Text, b: Text) {
    b != [] && (a == [] || a[0] < b[0] || (a[0] == b[0] && Before(a[1..], b[1..])))
  }

  function Insert(key: Text, keys: seq<Text>): seq<Text> {
    if keys == [] || !Before(keys[0], key) then [key] + keys else [keys[0]] + Insert(key, keys[1..])
  }

  function Sort(keys: seq<Text>): seq<Text> {
    if keys == [] then [] else Insert(keys[0], Sort(keys[1..]))
  }

  function Keys(fields: seq<Field>): (keys: seq<Text>)
    ensures |keys| == |fields| && forall n :: 0 <= n < |fields| ==> keys[n] == fields[n].key
  {
    seq(|fields|, n requires 0 <= n < |fields| => fields[n].key)
  }

  predicate Has(fields: seq<Field>, key: Text) {
    exists n :: 0 <= n < |fields| && fields[n].key == key
  }

  function IndexOf(fields: seq<Field>, key: Text): (n: nat)
    requires Has(fields, key)
    ensures n < |fields| && fields[n].key == key
  {
    if fields[0].key == key then 0 else 1 + IndexOf(fields[1..], key)
  }

  /** record[key] */
  function Lookup(fields: seq<Field>, key: Text): Value
    requires Has(fields, key)
  {
    fields[IndexOf(fields, key)].value
  }

  function SortedKeys(fields: seq<Field>): (keys: seq<Text>)
    ensures forall n :: 0 <= n < |keys| ==> Has(fields, keys[n])
  {
    SortPermutes(Keys(fields));
    var keys := Sort(Keys(fields));
    assert forall n :: 0 <= n < |keys| ==> keys[n] in Keys(fields);
    keys
  }

  function Canonicalize(v: Value): Result<Text, Problem>
    decreases v, 1, 0
  {
    match v
    case Null => Success(NULL_TEXT)
    case Bool(b) => Success(if b then TRUE_TEXT else FALSE_TEXT)
    case Num(n) => Success(Decimal(n))
    case Str(s) => Success(Quote(s))
    case Arr(items) =>
      var text :- CanonicalItems(v, 0);
      Success([OPEN_BRACKET] + text + [CLOSE_BRACKET])
    case Obj(fields) =>
      var text :- CanonicalFields(v, SortedKeys(fields));
      Success([OPEN_BRACE] + text + [CLOSE_BRACE])
    case NonFinite => Failure(NonFiniteNumber)
    case Undefined => Failure(NonJsonValue)
    case Opaque => Failure(NonJsonValue)
    case Hole => Failure(SparseArray)
    case Exotic => Failure(NotPlainObject)
  }

  /** The elements from index n on, joined by commas. */
  function CanonicalItems(v: Value, n: nat): Result<Text, Problem>
    requires v.Arr? && n <= |v.items|
    decreases v, 0, |v.items| - n
  {
    if n == |v.items| then Success([])
    else
      var first :- Canonicalize(v.items[n]);
      var rest :- CanonicalItems(v, n + 1);
      Success(if n + 1 == |v.items| then first else first + [COMMA] + rest)
  }

  function CanonicalFields(v: Value, keys: seq<Text>): Result<Text, Problem>
    requires v.Obj? && forall n :: 0 <= n < |keys| ==> Has(v.fields, keys[n])
    decreases v, 0, |keys|
  {
    if keys == [] then Success([])
    else
      var candidate := Lookup(v.fields, keys[0]);
      if candidate == Undefined then Failure(UndefinedField)
      else
        var first :- Canonicalize(candidate);
        var rest :- CanonicalFields(v, keys[1..]);
        var field := Quote(keys[0]) + [COLON] + first;
        Success(if |keys| == 1 then field else field + [COMMA] + rest)
  }

  // --------------------------------------------------------------------- sorting the keys

  lemma {:induction false} BeforeIsTransitive(a: Text, b: Text, c: Text)
    requires Before(a, b) && Before(b, c)
    ensures Before(a, c)
  {
    if a != [] && a[0] == b[0] && b[0] == c[0] {
      BeforeIsTransitive(a[1..], b[1..], c[1..]);
    }
  }

  lemma {:induction false} BeforeIsTotal(a: Text, b: Text)
    requires !Before(a, b) && !Before(b, a)
    ensures a == b
  {
    if a != [] && b != [] {
      BeforeIsTotal(a[1..], b[1..]);
      assert a == [a[0]] + a[1..] && b == [b[0]] + b[1..];
    }
  }

  lemma {:induction false} InsertPermutes(key: Text, keys: seq<Text>)
    ensures multiset(Insert(key, keys)) == multiset{key} + multiset(keys)
  {
    if keys != [] && Before(keys[0], key) {
      InsertPermutes(key, keys[1..]);
      assert keys == [keys[0]] + keys[1..];
    }
  }

  lemma {:induction false} SortPermutes(keys: seq<Text>)
    ensures multiset(Sort(keys)) == multiset(keys)
    ensures forall key :: key in Sort(keys) <==> key in keys
  {
    if keys != [] {
      SortPermutes(keys[1..]);
      InsertPermutes(keys[0], Sort(keys[1..]));
      assert keys == [keys[0]] + keys[1..];
    }
    forall key ensures key in Sort(keys) <==> key in keys {
      assert key in Sort(keys) <==> multiset(Sort(keys))[key] > 0;
      assert key in keys <==> multiset(keys)[key] > 0;
    }
  }

  // ------------------------------------------------------------------------ JSON.stringify

  /** Nothing in the value is outside JSON. */
  predicate Jsonable(v: Value) {
    match v
    case Arr(items) => forall n :: 0 <= n < |items| ==> Jsonable(items[n])
    case Obj(fields) => forall n :: 0 <= n < |fields| ==> Jsonable(fields[n].value)
    case _ => !(v.NonFinite? || v.Undefined? || v.Opaque? || v.Hole? || v.Exotic?)
  }

  /** The text of a JSON value, its fields in the order they stand. */
  function Print(v: Value): Text
    requires Jsonable(v)
    decreases v, 1, 0
  {
    match v
    case Null => NULL_TEXT
    case Bool(b) => if b then TRUE_TEXT else FALSE_TEXT
    case Num(n) => Decimal(n)
    case Str(s) => Quote(s)
    case Arr(_) => [OPEN_BRACKET] + PrintItems(v, 0) + [CLOSE_BRACKET]
    case Obj(_) => [OPEN_BRACE] + PrintFields(v, 0) + [CLOSE_BRACE]
  }

  function PrintItems(v: Value, n: nat): Text
    requires v.Arr? && Jsonable(v) && n <= |v.items|
    decreases v, 0, |v.items| - n
  {
    if n == |v.items| then []
    else Print(v.items[n]) + (if n + 1 == |v.items| then [] else [COMMA] + PrintItems(v, n + 1))
  }

  function PrintFields(v: Value, n: nat): Text
    requires v.Obj? && Jsonable(v) && n <= |v.fields|
    decreases v, 0, |v.fields| - n
  {
    if n == |v.fields| then []
    else PrintField(v, n) + (if n + 1 == |v.fields| then [] else [COMMA] + PrintFields(v, n + 1))
  }

  function PrintField(v: Value, n: nat): Text
    requires v.Obj? && Jsonable(v) && n < |v.fields|
    decreases v, 0, |v.fields| - n, 0
  {
    Quote(v.fields[n].key) + [COLON] + Print(v.fields[n].value)
  }
}
