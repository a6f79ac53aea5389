/** What canonical JSON identifies: exactly the values that differ only in the order of object keys
    (packages/workflow-compiler/src/canonical.ts). */
module CanonicalJson {
  import opened Wrappers
  import opened Json
  import JsonReader

  /** The same value with the keys of every object in sorted order. */
  function Normalize(v: Value): Value
    decreases v
  {
    match v
    case Arr(items) => Arr(seq(|items|, n requires 0 <= n < |items| => Normalize(items[n])))
    case Obj(fields) =>
      var keys := SortedKeys(fields);
      Obj(seq(|keys|, n requires 0 <= n < |keys| => Field(keys[n], Normalize(Lookup(fields, keys[n])))))
    case _ => v
  }

  /** A JavaScript object has each key once. */
  predicate DistinctKeys(v: Value)
    decreases v
  {
    match v
    case Arr(items) => forall n :: 0 <= n < |items| ==> DistinctKeys(items[n])
    case Obj(fields) =>
      && (forall m, n :: 0 <= m < n < |fields| ==> fields[m].key != fields[n].key)
      && (forall n :: 0 <= n < |fields| ==> DistinctKeys(fields[n].value))
    case _ => true
  }

  /** The same value up to the order in which objects hold their keys. */
  ghost predicate Equivalent(v: Value, w: Value)
    decreases v
  {
    match v
    case Arr(items) =>
      && w.Arr? && |w.items| == |items|
      && forall n :: 0 <= n < |items| ==> Equivalent(items[n], w.items[n])
    case Obj(fields) =>
      && w.Obj?
      && (forall key :: Has(fields, key) <==> Has(w.fields, key))
      && (forall key :: Has(fields, key) && Has(w.fields, key) ==>
          Equivalent(Lookup(fields, key), Lookup(w.fields, key)))
    case _ => v == w
  }

  // ----------------------------------------------------- canonical text is printed normal form

  lemma {:induction false} NormalizeKeepsJson(v: Value)
    requires Jsonable(v)
    ensures Jsonable(Normalize(v))
    decreases v
  {
    match v {
      case Arr(items) =>
        forall n | 0 <= n < |items| ensures Jsonable(Normalize(items[n])) {
          NormalizeKeepsJson(items[n]);
        }
      case Obj(fields) =>
        forall n | 0 <= n < |SortedKeys(fields)| ensures Jsonable(Normalize(Lookup(fields, SortedKeys(fields)[n]))) {
          NormalizeKeepsJson(Lookup(fields, SortedKeys(fields)[n]));
        }
      case _ =>
    }
  }

  /** Canonical printing is JSON.stringify of the normal form. */
  lemma {:induction false} CanonicalIsPrinted(v: Value)
    requires Jsonable(v)
    ensures Jsonable(Normalize(v)) && Canonicalize(v) == Success(Print(Normalize(v)))
    decreases v, 1, 0
  {
    NormalizeKeepsJson(v);
    match v {
      case Arr(_) => CanonicalItemsArePrinted(v, 0);
      case Obj(fields) =>
        CanonicalFieldsArePrinted(v, 0);
        assert SortedKeys(fields)[0..] == SortedKeys(fields);
      case _ =>
    }
  }

  lemma {:induction false} CanonicalItemsArePrinted(v: Value, n: nat)
    requires v.Arr? && Jsonable(v) && n <= |v.items| && Jsonable(Normalize(v))
    ensures CanonicalItems(v, n) == Success(PrintItems(Normalize(v), n))
    decreases v, 0, |v.items| - n
  {
    if n < |v.items| {
      CanonicalIsPrinted(v.items[n]);
      CanonicalItemsArePrinted(v, n + 1);
      var first, rest := Print(Normalize(v.items[n])), PrintItems(Normalize(v), n + 1);
      assert first + [] == first && first + [COMMA] + rest == first + ([COMMA] + rest);
    }
  }

  lemma {:induction false} CanonicalFieldsArePrinted(v: Value, n: nat)
    requires v.Obj? && Jsonable(v) && n <= |SortedKeys(v.fields)| && Jsonable(Normalize(v))
    ensures CanonicalFields(v, SortedKeys(v.fields)[n..]) == Success(PrintFields(Normalize(v), n))
    decreases v, 0, |SortedKeys(v.fields)| - n
  {
    var keys := SortedKeys(v.fields);
    if n < |keys| {
      CanonicalIsPrinted(Lookup(v.fields, keys[n]));
      CanonicalFieldsArePrinted(v, n + 1);
      assert keys[n..][1..] == keys[n + 1..];
      var first, rest := PrintField(Normalize(v), n), PrintFields(Normalize(v), n + 1);
      assert first + [] == first && first + [COMMA] + rest == first + ([COMMA] + rest);
    }
  }

  /** A reader recovers the value, its keys in sorted order, from its canonical text. */
  lemma CanonicalRoundTrip(v: Value)
    requires Jsonable(v)
    ensures Canonicalize(v).Success? && JsonReader.Parse(Canonicalize(v).value) == Some(Normalize(v))
  {
    CanonicalIsPrinted(v);
    JsonReader.ParseOfPrint(Normalize(v));
  }

  // --------------------------------------------------------------------- when it is refused

  lemma IndexOfDistinct(fields: seq<Field>, n: nat)
    requires n < |fields| && forall m, k :: 0 <= m < k < |fields| ==> fields[m].key != fields[k].key
    ensures Has(fields, fields[n].key) && Lookup(fields, fields[n].key) == fields[n].value
  {
    var k := IndexOf(fields, fields[n].key);
    assert k == n;
  }

  lemma {:induction false} RefusedItem(v: Value, from: nat, n: nat)
    requires v.Arr? && from <= n < |v.items| && Canonicalize(v.items[n]).Failure?
    ensures CanonicalItems(v, from).Failure?
    decreases n - from
  {
    if from < n { RefusedItem(v, from + 1, n); }
  }

  lemma {:induction false} RefusedField(v: Value, keys: seq<Text>, n: nat)
    requires v.Obj? && (forall m :: 0 <= m < |keys| ==> Has(v.fields, keys[m])) && n < |keys|
    requires Canonicalize(Lookup(v.fields, keys[n])).Failure?
    ensures CanonicalFields(v, keys).Failure?
    decreases n
  {
    if n > 0 { RefusedField(v, keys[1..], n - 1); }
  }

  /** Canonicalization is refused exactly when something in the value is not JSON. */
  lemma {:induction false} RefusedExactly(v: Value)
    requires DistinctKeys(v)
    ensures Canonicalize(v).Success? <==> Jsonable(v)
    decreases v
  {
    if Jsonable(v) {
      CanonicalIsPrinted(v);
    } else {
      match v {
        case Arr(items) =>
          var n :| 0 <= n < |items| && !Jsonable(items[n]);
          RefusedExactly(items[n]);
          RefusedItem(v, 0, n);
        case Obj(fields) =>
          var n :| 0 <= n < |fields| && !Jsonable(fields[n].value);
          RefusedExactly(fields[n].value);
          var key := fields[n].key;
          IndexOfDistinct(fields, n);
          SortPermutes(Keys(fields));
          assert key in Keys(fields) by { assert Keys(fields)[n] == key; }
          var m :| 0 <= m < |SortedKeys(fields)| && SortedKeys(fields)[m] == key;
          RefusedField(v, SortedKeys(fields), m);
        case _ =>
      }
    }
  }

  // ------------------------------------------------------------- independence of key order

  predicate StrictlySorted(keys: seq<Text>) {
    forall m, n :: 0 <= m < n < |keys| ==> Before(keys[m], keys[n])
  }

  predicate Distinct(keys: seq<Text>) {
    forall m, n :: 0 <= m < n < |keys| ==> keys[m] != keys[n]
  }

  lemma {:induction false} NotBeforeItself(a: Text)
    ensures !Before(a, a)
  {
    if a != [] { NotBeforeItself(a[1..]); }
  }

  predicate DifferAt(a: Text, b: Text, n: nat) { n < |a| && n < |b| && a[..n] == b[..n] && a[n] != b[n] }

  lemma DifferLater(a: Text, b: Text, n: nat)
    requires a != [] && b != [] && a[0] == b[0]
    ensures DifferAt(a, b, n + 1) <==> DifferAt(a[1..], b[1..], n)
    ensures DifferAt(a, b, n + 1) ==> a[n + 1] == a[1..][n] && b[n + 1] == b[1..][n]
    ensures !DifferAt(a, b, 0)
  {
    if n + 1 < |a| && n + 1 < |b| {
      assert a[..n + 1] == [a[0]] + a[1..][..n] && b[..n + 1] == [b[0]] + b[1..][..n];
      assert a[1..][..n] == a[..n + 1][1..] && b[1..][..n] == b[..n + 1][1..];
    }
  }

  /** The order of keys is that of their first difference, unit by unit, a prefix coming first. */
  lemma {:induction false} BeforeExactly(a: Text, b: Text)
    ensures Before(a, b) <==> a < b || exists n: nat :: DifferAt(a, b, n) && a[n] < b[n]
  {
    if a != [] && b != [] && a[0] == b[0] {
      BeforeExactly(a[1..], b[1..]);
      assert a < b <==> a[1..] < b[1..] by { assert a == [a[0]] + a[1..] && b == [b[0]] + b[1..]; }
      if n: nat :| DifferAt(a, b, n) && a[n] < b[n] { DifferLater(a, b, n - 1); }
      if n: nat :| DifferAt(a[1..], b[1..], n) && a[1..][n] < b[1..][n] { DifferLater(a, b, n); }
    } else if a != [] && b != [] {
      assert DifferAt(a, b, 0);
      assert forall n: nat :: n > 0 && n < |a| && n < |b| ==> a[..n][0] != b[..n][0];
    }
  }

  lemma {:induction false} InsertSorts(key: Text, keys: seq<Text>)
    requires StrictlySorted(keys) && key !in keys
    ensures StrictlySorted(Insert(key, keys))
    ensures forall k :: k in Insert(key, keys) <==> k == key || k in keys
  {
    if keys == [] {
    } else if Before(keys[0], key) {
      InsertSorts(key, keys[1..]);
      var rest := Insert(key, keys[1..]);
      forall n | 0 <= n < |rest| ensures Before(keys[0], rest[n]) {
        assert rest[n] in rest;
      }
    } else {
      if !Before(key, keys[0]) { BeforeIsTotal(key, keys[0]); }
      forall n | 0 <= n < |keys| ensures Before(key, keys[n]) {
        if n > 0 { BeforeIsTransitive(key, keys[0], keys[n]); }
      }
    }
  }

  lemma {:induction false} SortStrictly(keys: seq<Text>)
    requires Distinct(keys)
    ensures StrictlySorted(Sort(keys))
  {
    if keys != [] {
      SortStrictly(keys[1..]);
      SortPermutes(keys[1..]);
      InsertSorts(keys[0], Sort(keys[1..]));
    }
  }

  lemma HasMember(keys: seq<Text>)
    ensures keys != [] ==> exists key :: key in keys
  {
    if keys != [] { assert keys[0] in keys; }
  }

  /** A set of keys has one strictly sorted arrangement. */
  lemma {:induction false} OneSortedOrder(xs: seq<Text>, ys: seq<Text>)
    requires StrictlySorted(xs) && StrictlySorted(ys) && forall key :: key in xs <==> key in ys
    ensures xs == ys
  {
    HasMember(ys);
    if xs != [] {
      assert xs[0] in ys;
      HeadsAgree(xs, ys);
      forall key ensures key in xs[1..] <==> key in ys[1..] {
        TailMembers(xs, key);
        TailMembers(ys, key);
      }
      OneSortedOrder(xs[1..], ys[1..]);
      assert xs == [xs[0]] + xs[1..] && ys == [ys[0]] + ys[1..];
    }
  }

  lemma HeadsAgree(xs: seq<Text>, ys: seq<Text>)
    requires StrictlySorted(xs) && StrictlySorted(ys) && xs != [] && ys != []
    requires xs[0] in ys && ys[0] in xs
    ensures xs[0] == ys[0]
  {
    var m :| 0 <= m < |ys| && ys[m] == xs[0];
    var n :| 0 <= n < |xs| && xs[n] == ys[0];
    if m > 0 && n > 0 {
      BeforeIsTransitive(ys[0], xs[0], ys[0]);
      NotBeforeItself(ys[0]);
      assert false;
    }
  }

  lemma TailMembers(xs: seq<Text>, key: Text)
    requires StrictlySorted(xs) && xs != []
    ensures key in xs[1..] <==> key in xs && key != xs[0]
  {
    NotBeforeItself(key);
  }

  lemma SortedKeysOf(fields: seq<Field>)
    requires forall m, n :: 0 <= m < n < |fields| ==> fields[m].key != fields[n].key
    ensures StrictlySorted(SortedKeys(fields))
    ensures forall key :: key in SortedKeys(fields) <==> Has(fields, key)
  {
    SortStrictly(Keys(fields));
    SortPermutes(Keys(fields));
    forall key ensures key in Keys(fields) <==> Has(fields, key) {
      if Has(fields, key) {
        var n :| 0 <= n < |fields| && fields[n].key == key;
        assert Keys(fields)[n] == key;
      }
    }
  }

  lemma {:induction false} EquivalentHaveOneNormalForm(v: Value, w: Value)
    requires DistinctKeys(v) && DistinctKeys(w) && Equivalent(v, w)
    ensures Normalize(v) == Normalize(w)
    decreases v
  {
    match v {
      case Arr(items) =>
        forall n | 0 <= n < |items| ensures Normalize(items[n]) == Normalize(w.items[n]) {
          EquivalentHaveOneNormalForm(items[n], w.items[n]);
        }
      case Obj(fields) =>
        SortedKeysOf(fields);
        SortedKeysOf(w.fields);
        OneSortedOrder(SortedKeys(fields), SortedKeys(w.fields));
        forall n | 0 <= n < |SortedKeys(fields)|
          ensures Normalize(Lookup(fields, SortedKeys(fields)[n])) == Normalize(Lookup(w.fields, SortedKeys(fields)[n]))
        {
          EquivalentHaveOneNormalForm(Lookup(fields, SortedKeys(fields)[n]), Lookup(w.fields, SortedKeys(fields)[n]));
        }
      case _ =>
    }
  }

  lemma {:induction false} OneNormalFormIsEquivalent(v: Value, w: Value)
    requires DistinctKeys(v) && DistinctKeys(w) && Normalize(v) == Normalize(w)
    ensures Equivalent(v, w)
    decreases v
  {
    match v {
      case Arr(items) =>
        forall n | 0 <= n < |items| ensures Equivalent(items[n], w.items[n]) {
          assert Normalize(v).items[n] == Normalize(w).items[n];
          OneNormalFormIsEquivalent(items[n], w.items[n]);
        }
      case Obj(fields) => OneNormalFormOfObjects(v, w);
      case _ =>
    }
  }

  lemma NormalKeys(v: Value)
    requires v.Obj?
    ensures Keys(Normalize(v).fields) == SortedKeys(v.fields)
  {
  }

  lemma {:induction false} OneNormalFormOfObjects(v: Value, w: Value)
    requires v.Obj? && w.Obj? && DistinctKeys(v) && DistinctKeys(w) && Normalize(v) == Normalize(w)
    ensures Equivalent(v, w)
    decreases v, 0
  {
    SortedKeysOf(v.fields);
    SortedKeysOf(w.fields);
    NormalKeys(v);
    NormalKeys(w);
    forall key | Has(v.fields, key) && Has(w.fields, key)
      ensures Equivalent(Lookup(v.fields, key), Lookup(w.fields, key))
    {
      var n :| 0 <= n < |SortedKeys(v.fields)| && SortedKeys(v.fields)[n] == key;
      assert Normalize(v).fields[n] == Normalize(w).fields[n];
      OneNormalFormIsEquivalent(Lookup(v.fields, key), Lookup(w.fields, key));
    }
  }

  /** Two JSON values have one canonical text exactly when they differ at most in key order. */
  lemma CanonicalTextIdentifies(v: Value, w: Value)
    requires DistinctKeys(v) && DistinctKeys(w) && Jsonable(v) && Jsonable(w)
    ensures Canonicalize(v) == Canonicalize(w) <==> Equivalent(v, w)
  {
    CanonicalIsPrinted(v);
    CanonicalIsPrinted(w);
    if Canonicalize(v) == Canonicalize(w) {
      CanonicalRoundTrip(v);
      CanonicalRoundTrip(w);
      OneNormalFormIsEquivalent(v, w);
    }
    if Equivalent(v, w) { EquivalentHaveOneNormalForm(v, w); }
  }

  // -------------------------------------------------------------- the execution envelope

  datatype Envelope = Envelope(profileId: Text, profileVersion: Text, apiGraph: Value, parameters: Value)

  function Units(s: string): (t: Text)
    requires forall n :: 0 <= n < |s| ==> s[n] < 128 as char
    ensures |t| == |s| && forall n :: 0 <= n < |s| ==> t[n] == s[n] as int
  {
    seq(|s|, n requires 0 <= n < |s| => s[n] as int)
  }

  /** The names of the four members of an envelope. */
  datatype Names = Names(id: Text, version: Text, graph: Text, parameters: Text)

  predicate Apart(k: Names) {
    k.id != k.version && k.id != k.graph && k.id != k.parameters
    && k.version != k.graph && k.version != k.parameters && k.graph != k.parameters
  }

  function Named(k: Names, e: Envelope): Value {
    Obj([Field(k.id, Str(e.profileId)), Field(k.version, Str(e.profileVersion)),
         Field(k.graph, e.apiGraph), Field(k.parameters, e.parameters)])
  }

  function EnvelopeNames(): (k: Names)
    ensures Apart(k)
  {
    var k := Names(Units("profileId"), Units("profileVersion"), Units("apiGraph"), Units("parameters"));
    assert |k.id| == 9 && |k.version| == 14 && |k.graph| == 8 && |k.parameters| == 10;
    k
  }

  function CanonicalEnvelope(e: Envelope): Result<Text, Problem> { Canonicalize(Named(EnvelopeNames(), e)) }

  predicate Plain(e: Envelope) { DistinctKeys(e.apiGraph) && DistinctKeys(e.parameters) }

  lemma NamedFields(k: Names, e: Envelope)
    requires Apart(k)
    ensures Plain(e) ==> DistinctKeys(Named(k, e))
    ensures var fields := Named(k, e).fields;
            && (forall key :: Has(fields, key) <==>
                  key == k.id || key == k.version || key == k.graph || key == k.parameters)
            && Lookup(fields, k.id) == Str(e.profileId) && Lookup(fields, k.version) == Str(e.profileVersion)
            && Lookup(fields, k.graph) == e.apiGraph && Lookup(fields, k.parameters) == e.parameters
  {
    var fields := Named(k, e).fields;
    assert fields[0].key == k.id && fields[1].key == k.version && fields[2].key == k.graph
           && fields[3].key == k.parameters;
  }

  ghost predicate SameEnvelope(e: Envelope, f: Envelope) {
    && e.profileId == f.profileId && e.profileVersion == f.profileVersion
    && Equivalent(e.apiGraph, f.apiGraph) && Equivalent(e.parameters, f.parameters)
  }

  lemma NamedEquivalent(k: Names, e: Envelope, f: Envelope)
    requires Apart(k)
    ensures Equivalent(Named(k, e), Named(k, f)) <==> SameEnvelope(e, f)
  {
    NamedFields(k, e);
    NamedFields(k, f);
    var ef, ff := Named(k, e).fields, Named(k, f).fields;
    if Equivalent(Named(k, e), Named(k, f)) {
      assert Equivalent(Lookup(ef, k.id), Lookup(ff, k.id)) && Equivalent(Lookup(ef, k.version), Lookup(ff, k.version));
      assert Equivalent(Lookup(ef, k.graph), Lookup(ff, k.graph))
             && Equivalent(Lookup(ef, k.parameters), Lookup(ff, k.parameters));
    }
  }

  /** Equal canonical envelopes mean the same profile, and the same graph and parameters up to key order. */
  lemma EnvelopeIdentifies(e: Envelope, f: Envelope)
    requires Plain(e) && Plain(f) && CanonicalEnvelope(e).Success? && CanonicalEnvelope(f).Success?
    ensures CanonicalEnvelope(e) == CanonicalEnvelope(f) <==> SameEnvelope(e, f)
  {
    var k := EnvelopeNames();
    NamedFields(k, e);
    NamedFields(k, f);
    RefusedExactly(Named(k, e));
    RefusedExactly(Named(k, f));
    CanonicalTextIdentifies(Named(k, e), Named(k, f));
    NamedEquivalent(k, e, f);
  }

  predicate IsHex(u: CodeUnit) { 48 <= u <= 57 || 97 <= u <= 102 }

  function HexWorth(u: CodeUnit): int { if u <= 57 then u - 48 else u - 87 }

  lemma HexDigitWorth(d: nat)
    requires d < 16
    ensures IsHex(HexDigit(d)) && HexWorth(HexDigit(d)) == d
  {
  }

  /** The escapes of a string: a letter after the backslash for seven units, four lower-case hexadecimal digits
      for the other control characters and a surrogate on its own, and none for the rest. */
  lemma EscapesAre(u: CodeUnit)
    ensures var letters := map[8 := 98, 9 := 116, 10 := 110, 12 := 102, 13 := 114, 34 := 34, 92 := 92];
            var e := EscapeUnit(u);
            if u in letters then e == [92, letters[u]]
            else if u < 32 || 0xD800 <= u < 0xE000 then
              && |e| == 6 && e[0] == 92 && e[1] == 117 && IsHex(e[2]) && IsHex(e[3]) && IsHex(e[4]) && IsHex(e[5])
              && 4096 * HexWorth(e[2]) + 256 * HexWorth(e[3]) + 16 * HexWorth(e[4]) + HexWorth(e[5]) == u
            else e == [u]
  {
    HexDigitWorth(u / 16 / 16 / 16);
    HexDigitWorth(u / 16 / 16 % 16);
    HexDigitWorth(u / 16 % 16);
    HexDigitWorth(u % 16);
  }
}
