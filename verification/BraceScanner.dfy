/** Finding the last top-level {...} of a model's answer (lastBalancedJsonObject in
    apps/api/src/operator.ts). */
module BraceScanner {
  import opened Wrappers
  import opened Json
  import JsonReader
  import CanonicalJson

  // --------------------------------------------------------------------- the reference lexer

  /** What follows a string, from inside it; nothing when it is never closed. */
  function SkipString(t: Text): (rest: Text)
    ensures |rest| <= |t| && rest == t[|t| - |rest|..]
    decreases |t|
  {
    if t == [] then t
    else if t[0] == QUOTE then t[1..]
    else if t[0] == BACKSLASH then SkipEscaped(t[1..])
    else SkipString(t[1..])
  }

  function SkipEscaped(t: Text): (rest: Text)
    ensures |rest| <= |t| && rest == t[|t| - |rest|..]
    decreases |t|
  {
    if t == [] then t else SkipString(t[1..])
  }

  /** What follows the brace that closes the block we are in, if any does. */
  function Inside(t: Text): (rest: Option<Text>)
    ensures rest.Some? ==> |rest.value| < |t| && rest.value == t[|t| - |rest.value|..]
    decreases |t|
  {
    if t == [] then None
    else if t[0] == QUOTE then Inside(SkipString(t[1..]))
    else if t[0] == CLOSE_BRACE then Some(t[1..])
    else if t[0] == OPEN_BRACE then
      var inner := Inside(t[1..]);
      if inner.None? then None else Inside(inner.value)
    else Inside(t[1..])
  }

  function OrElse(first: Option<Text>, second: Option<Text>): Option<Text> {
    if first.Some? then first else second
  }

  /** The last block that opens outside every string and every other block, and is closed. */
  function LastBlock(t: Text): Option<Text>
    decreases |t|
  {
    if t == [] then None
    else if t[0] == QUOTE then LastBlock(SkipString(t[1..]))
    else if t[0] == OPEN_BRACE then
      var rest := Inside(t[1..]);
      if rest.None? then None else OrElse(LastBlock(rest.value), Some(t[..|t| - |rest.value|]))
    else LastBlock(t[1..])
  }

  // -------------------------------------------------------------------------- the scanner

  /** What follows the closing of `depth` blocks. */
  function Close(t: Text, depth: nat): (rest: Option<Text>)
    ensures rest.Some? ==> |rest.value| <= |t|
    decreases depth
  {
    if depth == 0 then Some(t)
    else
      var rest := Inside(t);
      if rest.None? then None else Close(rest.value, depth - 1)
  }

  /** The unread text, once the string being read has ended. */
  function Unquoted(t: Text, inString: bool, escapeNext: bool): (rest: Text)
    ensures |rest| <= |t|
  {
    if !inString then t else if escapeNext then SkipEscaped(t) else SkipString(t)
  }

  /** What the scan will answer, with `t` left to read, `depth` blocks open since `start` and `last` found so far. */
  function Answer(text: Text, t: Text, depth: nat, start: int, last: Option<Text>): Option<Text>
    requires |t| <= |text| && (depth > 0 ==> 0 <= start <= |text| - |t|)
  {
    if depth == 0 then OrElse(LastBlock(t), last)
    else
      var rest := Close(t, depth);
      if rest.None? then last
      else OrElse(LastBlock(rest.value), Some(text[start..|text| - |rest.value|]))
  }

  lemma CloseStep(t: Text, depth: nat)
    requires t != [] && depth > 0
    ensures t[0] == QUOTE ==> Close(t, depth) == Close(SkipString(t[1..]), depth)
    ensures t[0] == OPEN_BRACE ==> Close(t, depth) == Close(t[1..], depth + 1)
    ensures t[0] == CLOSE_BRACE ==> Close(t, depth) == Close(t[1..], depth - 1)
    ensures t[0] != QUOTE && t[0] != OPEN_BRACE && t[0] != CLOSE_BRACE ==> Close(t, depth) == Close(t[1..], depth)
  {
    if t[0] == OPEN_BRACE && Inside(t[1..]).Some? {
      assert Close(t[1..], depth + 1) == Close(Inside(t[1..]).value, depth);
    }
  }

  /** Opening a block at the top level records where it starts. */
  lemma AnswerOpens(text: Text, t: Text, start: int, last: Option<Text>)
    requires t != [] && |t| <= |text| && t == text[|text| - |t|..] && t[0] == OPEN_BRACE
    ensures Answer(text, t, 0, start, last) == Answer(text, t[1..], 1, |text| - |t|, last)
  {
    assert Close(t[1..], 1) == Inside(t[1..]) by {
      if Inside(t[1..]).Some? { assert Close(Inside(t[1..]).value, 0) == Inside(t[1..]); }
    }
    if Inside(t[1..]).Some? {
      var rest := Inside(t[1..]).value;
      assert text[|text| - |t|..|text| - |rest|] == t[..|t| - |rest|];
    }
  }

  lemma AnswerByClose(text: Text, t: Text, depth: nat, t': Text, depth': nat, start: int, last: Option<Text>)
    requires |t| <= |text| && |t'| <= |text| && depth > 0 && depth' > 0
    requires 0 <= start <= |text| - |t| && start <= |text| - |t'|
    requires Close(t, depth) == Close(t', depth')
    ensures Answer(text, t, depth, start, last) == Answer(text, t', depth', start, last)
  {
  }

  /** The text and the number of open blocks after one unit read within blocks, strings being read whole. */
  function Consume(t: Text, depth: nat): (r: (Text, nat))
    requires t != [] && depth > 0
    ensures |r.0| < |t|
  {
    if t[0] == QUOTE then (SkipString(t[1..]), depth)
    else (t[1..], if t[0] == OPEN_BRACE then depth + 1 else if t[0] == CLOSE_BRACE then depth - 1 else depth)
  }

  lemma AnswerNested(text: Text, t: Text, depth: nat, start: int, last: Option<Text>)
    requires t != [] && |t| <= |text| && depth > 0 && 0 <= start < |text| - |t|
    requires Consume(t, depth).1 > 0
    ensures Answer(text, Consume(t, depth).0, Consume(t, depth).1, start, last) == Answer(text, t, depth, start, last)
  {
    CloseStep(t, depth);
    AnswerByClose(text, t, depth, Consume(t, depth).0, Consume(t, depth).1, start, last);
  }

  /** Closing the outermost block makes it the last one found. */
  lemma AnswerCloses(text: Text, t: Text, start: int, last: Option<Text>)
    requires t != [] && |t| <= |text| && 0 <= start < |text| - |t| && t[0] == CLOSE_BRACE
    ensures Answer(text, t[1..], 0, start, Some(text[start..|text| - |t| + 1])) == Answer(text, t, 1, start, last)
  {
    assert Close(t, 1) == Close(t[1..], 0);
  }

  /** The five variables of the scan. */
  datatype Scan = Scan(depth: nat, start: int, last: Option<Text>, inString: bool, escapeNext: bool)

  /** The scan, with `t` left to read, is on its way to the answer for the whole text. */
  ghost predicate OnTrack(text: Text, t: Text, scan: Scan) {
    && |t| <= |text| && t == text[|text| - |t|..]
    && (scan.escapeNext ==> scan.inString)
    && (scan.depth > 0 ==> 0 <= scan.start < |text| - |t|)
    && Answer(text, Unquoted(t, scan.inString, scan.escapeNext), scan.depth, scan.start, scan.last) == LastBlock(text)
  }

  /** What one unit does to the five variables. */
  function Advance(scan: Scan, unit: CodeUnit, index: nat, text: Text): Scan
    requires scan.depth > 0 ==> 0 <= scan.start < index < |text|
  {
    if scan.inString then
      if scan.escapeNext then scan.(escapeNext := false)
      else if unit == BACKSLASH then scan.(escapeNext := true)
      else if unit == QUOTE then scan.(inString := false)
      else scan
    else if unit == QUOTE then scan.(inString := true)
    else if unit == OPEN_BRACE then
      scan.(depth := scan.depth + 1, start := if scan.depth == 0 then index else scan.start)
    else if unit == CLOSE_BRACE && scan.depth > 1 then scan.(depth := scan.depth - 1)
    else if unit == CLOSE_BRACE && scan.depth == 1 then scan.(depth := 0, last := Some(text[scan.start..index + 1]))
    else scan
  }

  lemma InStringOnTrack(text: Text, t: Text, scan: Scan)
    requires OnTrack(text, t, scan) && t != [] && scan.inString
    ensures OnTrack(text, t[1..], Advance(scan, t[0], |text| - |t|, text))
  {
    var scan' := Advance(scan, t[0], |text| - |t|, text);
    assert Unquoted(t, true, scan.escapeNext) == Unquoted(t[1..], scan'.inString, scan'.escapeNext);
  }

  lemma NestedOnTrack(text: Text, t: Text, scan: Scan)
    requires OnTrack(text, t, scan) && t != [] && !scan.inString && scan.depth > 0
    ensures OnTrack(text, t[1..], Advance(scan, t[0], |text| - |t|, text))
  {
    if t[0] == CLOSE_BRACE && scan.depth == 1 {
      AnswerCloses(text, t, scan.start, scan.last);
    } else {
      AnswerNested(text, t, scan.depth, scan.start, scan.last);
    }
  }

  lemma TopOnTrack(text: Text, t: Text, scan: Scan)
    requires OnTrack(text, t, scan) && t != [] && !scan.inString && scan.depth == 0
    ensures OnTrack(text, t[1..], Advance(scan, t[0], |text| - |t|, text))
  {
    if t[0] == OPEN_BRACE { AnswerOpens(text, t, scan.start, scan.last); }
  }

  lemma AdvanceOnTrack(text: Text, index: nat, scan: Scan)
    requires index < |text| && OnTrack(text, text[index..], scan)
    ensures OnTrack(text, text[index + 1..], Advance(scan, text[index], index, text))
  {
    var t := text[index..];
    assert t[0] == text[index] && t[1..] == text[index + 1..];
    if scan.inString {
      InStringOnTrack(text, t, scan);
    } else if scan.depth > 0 {
      NestedOnTrack(text, t, scan);
    } else {
      TopOnTrack(text, t, scan);
    }
  }

  lemma StartsOnTrack(text: Text)
    ensures OnTrack(text, text[0..], Scan(0, -1, None, false, false))
  {
    assert text[0..] == text;
  }

  lemma EndsOnTrack(text: Text, scan: Scan)
    requires OnTrack(text, [], scan)
    ensures scan.last == LastBlock(text)
  {
    if scan.depth > 0 { assert Close([], scan.depth).None?; }
  }

  /** The variables after reading the first `index` units. */
  function Scanned(text: Text, index: nat): (scan: Scan)
    requires index <= |text|
    ensures scan.depth > 0 ==> 0 <= scan.start < index
  {
    if index == 0 then Scan(0, -1, None, false, false)
    else Advance(Scanned(text, index - 1), text[index - 1], index - 1, text)
  }

  lemma {:induction false} ScannedOnTrack(text: Text, index: nat)
    requires index <= |text|
    ensures OnTrack(text, text[index..], Scanned(text, index))
  {
    if index == 0 {
      StartsOnTrack(text);
    } else {
      var before: nat := index - 1;
      var scan := Scanned(text, before);
      ScannedOnTrack(text, before);
      AdvanceOnTrack(text, before, scan);
      assert Scanned(text, index) == Advance(scan, text[before], before, text);
    }
  }

  lemma ScannedFinds(text: Text)
    ensures Scanned(text, |text|).last == LastBlock(text)
  {
    ScannedOnTrack(text, |text|);
    assert text[|text|..] == [];
    EndsOnTrack(text, Scanned(text, |text|));
  }

  /** The scan with its five variables finds what the reference lexer finds, on every text. */
  method LastBalancedJsonObject(text: Text) returns (last: Option<Text>)
    ensures last == LastBlock(text)
  {
    var depth: nat := 0;
    var start := -1;
    last := None;
    var inString := false;
    var escapeNext := false;
    var index := 0;
    while index < |text|
      invariant index <= |text|
      invariant Scan(depth, start, last, inString, escapeNext) == Scanned(text, index)
    {
      var unit := text[index];
      if inString {
        if escapeNext {
          escapeNext := false;
        } else if unit == BACKSLASH {
          escapeNext := true;
        } else if unit == QUOTE {
          inString := false;
        }
      } else if unit == QUOTE {
        inString := true;
      } else if unit == OPEN_BRACE {
        if depth == 0 { start := index; }
        depth := depth + 1;
      } else if unit == CLOSE_BRACE && depth > 0 {
        depth := depth - 1;
        if depth == 0 && start != -1 { last := Some(text[start..index + 1]); }
      }
      index := index + 1;
    }
    ScannedFinds(text);
  }

  // --------------------------------------------------------- printed JSON inside other text

  /** No quote and no brace. */
  predicate Inert(t: Text) {
    forall n :: 0 <= n < |t| ==> t[n] != QUOTE && t[n] != OPEN_BRACE && t[n] != CLOSE_BRACE
  }

  /** A text that leaves us in the block we were in. */
  ghost predicate Neutral(p: Text) {
    forall t :: NeutralBefore(p, t)
  }

  predicate NeutralBefore(p: Text, t: Text) { Inside(p + t) == Inside(t) }

  lemma NeutralJoin(p: Text, q: Text)
    requires Neutral(p) && Neutral(q)
    ensures Neutral(p + q)
  {
    forall t ensures NeutralBefore(p + q, t) {
      assert NeutralBefore(p, q + t) && NeutralBefore(q, t);
      SameText(p + q + t, p + (q + t));
    }
  }

  lemma SameText(a: Text, b: Text)
    requires a == b
    ensures Inside(a) == Inside(b)
  {
  }

  lemma {:induction false} InertInside(p: Text, t: Text)
    requires Inert(p)
    ensures Inside(p + t) == Inside(t)
  {
    if p == [] {
      assert p + t == t;
    } else {
      assert (p + t)[1..] == p[1..] + t;
      InertInside(p[1..], t);
    }
  }

  lemma InertIsNeutral(p: Text)
    requires Inert(p)
    ensures Neutral(p)
  {
    forall t ensures NeutralBefore(p, t) {
      InertInside(p, t);
    }
  }

  lemma SkipsEscape(letter: CodeUnit, t: Text)
    ensures SkipString([BACKSLASH, letter] + t) == SkipString(t)
  {
    var e := [BACKSLASH, letter] + t;
    assert e[0] == BACKSLASH && e[1..][1..] == t;
  }

  lemma SkipsHex(hex: Text, t: Text)
    requires forall n :: 0 <= n < |hex| ==> hex[n] != QUOTE && hex[n] != BACKSLASH
    ensures SkipString([BACKSLASH, 117] + hex + t) == SkipString(t)
  {
    assert [BACKSLASH, 117] + hex + t == [BACKSLASH, 117] + (hex + t);
    SkipsEscape(117, hex + t);
    SkipsPlain(hex, t);
  }

  lemma SkipsUnit(u: CodeUnit, t: Text)
    ensures SkipString(EscapeUnit(u) + t) == SkipString(t)
  {
    if ShortEscape(u).Some? {
      SkipsEscape(ShortEscape(u).value, t);
    } else if u < 32 || HighSurrogate(u) || LowSurrogate(u) {
      SkipsHex(Hex4(u), t);
    } else {
      SkipsPlain([u], t);
    }
  }

  /** Neither a quote nor a backslash. */
  lemma {:induction false} SkipsPlain(p: Text, t: Text)
    requires forall n :: 0 <= n < |p| ==> p[n] != QUOTE && p[n] != BACKSLASH
    ensures SkipString(p + t) == SkipString(t)
  {
    if p == [] {
      assert p + t == t;
    } else {
      assert (p + t)[1..] == p[1..] + t;
      SkipsPlain(p[1..], t);
    }
  }

  /** Whatever a printed string holds, its closing quote is found. */
  lemma {:induction false} SkipsEscaped(s: Text, t: Text)
    ensures SkipString(Escape(s) + ([QUOTE] + t)) == t
    decreases |s|
  {
    var after := [QUOTE] + t;
    if s == [] {
      assert Escape(s) + after == after && after[1..] == t;
    } else if HighSurrogate(s[0]) && |s| > 1 && LowSurrogate(s[1]) {
      assert Escape(s) + after == [s[0], s[1]] + (Escape(s[2..]) + after);
      SkipsPlain([s[0], s[1]], Escape(s[2..]) + after);
      SkipsEscaped(s[2..], t);
    } else {
      assert Escape(s) + after == EscapeUnit(s[0]) + (Escape(s[1..]) + after);
      SkipsUnit(s[0], Escape(s[1..]) + after);
      SkipsEscaped(s[1..], t);
    }
  }

  lemma QuoteInside(s: Text, t: Text)
    ensures Inside(Quote(s) + t) == Inside(t)
  {
    var q := Quote(s) + t;
    assert q[0] == QUOTE && q[1..] == Escape(s) + ([QUOTE] + t);
    SkipsEscaped(s, t);
  }

  lemma QuoteIsNeutral(s: Text)
    ensures Neutral(Quote(s))
  {
    forall t ensures NeutralBefore(Quote(s), t) {
      QuoteInside(s, t);
    }
  }

  lemma {:induction false} DigitsInert(n: nat)
    ensures Inert(Digits(n))
  {
    if n >= 10 { DigitsInert(n / 10); }
  }

  lemma ScalarInert(v: Value)
    requires v.Null? || v.Bool? || v.Num?
    ensures Inert(Print(v))
  {
    if v.Num? { DigitsInert(if v.n < 0 then -v.n else v.n); }
  }

  /** A printed value closes every block and string it opens. */
  lemma {:induction false} ValueIsNeutral(v: Value)
    requires Jsonable(v)
    ensures Neutral(Print(v))
    decreases v, 2, 0
  {
    if v.Str? {
      QuoteIsNeutral(v.s);
    } else if v.Arr? {
      ItemsAreNeutral(v, 0);
      InertIsNeutral([OPEN_BRACKET]);
      InertIsNeutral([CLOSE_BRACKET]);
      NeutralJoin([OPEN_BRACKET], PrintItems(v, 0));
      NeutralJoin([OPEN_BRACKET] + PrintItems(v, 0), [CLOSE_BRACKET]);
    } else if v.Obj? {
      FieldsAreNeutral(v, 0);
      BlockIsNeutral(PrintFields(v, 0));
    } else {
      ScalarInert(v);
      InertIsNeutral(Print(v));
    }
  }

  lemma CloseBrace(t: Text)
    ensures Inside([CLOSE_BRACE] + t) == Some(t)
  {
    assert ([CLOSE_BRACE] + t)[1..] == t;
  }

  lemma ClosesAfter(p: Text, t: Text)
    requires Neutral(p)
    ensures Inside(p + ([CLOSE_BRACE] + t)) == Some(t)
  {
    assert NeutralBefore(p, [CLOSE_BRACE] + t);
    CloseBrace(t);
  }

  lemma NestedBlock(t: Text, inner: Text, rest: Text)
    requires t != [] && t[0] == OPEN_BRACE && t[1..] == inner && Inside(inner) == Some(rest)
    ensures Inside(t) == Inside(rest)
  {
  }

  lemma BlockIsNeutral(p: Text)
    requires Neutral(p)
    ensures Neutral([OPEN_BRACE] + p + [CLOSE_BRACE])
  {
    forall t ensures NeutralBefore([OPEN_BRACE] + p + [CLOSE_BRACE], t) {
      BlockText(p, t);
      ClosesAfter(p, t);
      NestedBlock([OPEN_BRACE] + p + [CLOSE_BRACE] + t, p + ([CLOSE_BRACE] + t), t);
    }
  }

  lemma BlockText(p: Text, t: Text)
    ensures var block := [OPEN_BRACE] + p + [CLOSE_BRACE] + t;
            block[0] == OPEN_BRACE && block[1..] == p + ([CLOSE_BRACE] + t)
            && block[..|block| - |t|] == [OPEN_BRACE] + p + [CLOSE_BRACE]
  {
  }

  lemma {:induction false} ItemsAreNeutral(v: Value, n: nat)
    requires v.Arr? && Jsonable(v) && n <= |v.items|
    ensures Neutral(PrintItems(v, n))
    decreases v, 0, |v.items| - n
  {
    InertIsNeutral([]);
    if n < |v.items| {
      ValueIsNeutral(v.items[n]);
      ItemsAreNeutral(v, n + 1);
      InertIsNeutral([COMMA]);
      NeutralJoin([COMMA], PrintItems(v, n + 1));
      NeutralJoin(Print(v.items[n]), if n + 1 == |v.items| then [] else [COMMA] + PrintItems(v, n + 1));
    }
  }

  lemma {:induction false} FieldIsNeutral(v: Value, n: nat)
    requires v.Obj? && Jsonable(v) && n < |v.fields|
    ensures Neutral(PrintField(v, n))
    decreases v, 0, |v.fields| - n, 0
  {
    QuoteIsNeutral(v.fields[n].key);
    InertIsNeutral([COLON]);
    NeutralJoin(Quote(v.fields[n].key), [COLON]);
    ValueIsNeutral(v.fields[n].value);
    NeutralJoin(Quote(v.fields[n].key) + [COLON], Print(v.fields[n].value));
  }

  lemma {:induction false} FieldsAreNeutral(v: Value, n: nat)
    requires v.Obj? && Jsonable(v) && n <= |v.fields|
    ensures Neutral(PrintFields(v, n))
    decreases v, 0, |v.fields| - n, 1
  {
    InertIsNeutral([]);
    if n < |v.fields| {
      FieldIsNeutral(v, n);
      FieldsAreNeutral(v, n + 1);
      InertIsNeutral([COMMA]);
      NeutralJoin([COMMA], PrintFields(v, n + 1));
      NeutralJoin(PrintField(v, n), if n + 1 == |v.fields| then [] else [COMMA] + PrintFields(v, n + 1));
    }
  }

  /** Prose in which no string and no block opens. */
  predicate Prose(t: Text) {
    forall n :: 0 <= n < |t| ==> t[n] != QUOTE && t[n] != OPEN_BRACE
  }

  lemma {:induction false} ProseHasNoBlock(p: Text, t: Text)
    requires Prose(p)
    ensures LastBlock(p + t) == LastBlock(t)
  {
    if p == [] {
      assert p + t == t;
    } else {
      assert (p + t)[1..] == p[1..] + t;
      ProseHasNoBlock(p[1..], t);
    }
  }

  lemma OnlyBlock(t: Text, inner: Text, rest: Text)
    requires t != [] && t[0] == OPEN_BRACE && t[1..] == inner && Inside(inner) == Some(rest) && LastBlock(rest).None?
    ensures |rest| <= |t| && LastBlock(t) == Some(t[..|t| - |rest|])
  {
  }

  lemma NoBlockInProse(t: Text)
    requires Prose(t)
    ensures LastBlock(t).None?
  {
    ProseHasNoBlock(t, []);
    assert t + [] == t;
  }

  lemma BlockThenProse(p: Text, post: Text)
    requires Neutral(p) && Prose(post)
    ensures LastBlock([OPEN_BRACE] + p + [CLOSE_BRACE] + post) == Some([OPEN_BRACE] + p + [CLOSE_BRACE])
  {
    BlockText(p, post);
    ClosesAfter(p, post);
    NoBlockInProse(post);
    OnlyBlock([OPEN_BRACE] + p + [CLOSE_BRACE] + post, p + ([CLOSE_BRACE] + post), post);
  }

  /** An object printed between prose is found exactly, whatever its strings contain. */
  lemma PrintedObjectIsFound(pre: Text, v: Value, post: Text)
    requires v.Obj? && Jsonable(v) && Prose(pre) && Prose(post)
    ensures LastBlock(pre + Print(v) + post) == Some(Print(v))
  {
    FieldsAreNeutral(v, 0);
    BlockThenProse(PrintFields(v, 0), post);
    assert pre + Print(v) + post == pre + (Print(v) + post);
    ProseHasNoBlock(pre, Print(v) + post);
  }

  /** So an answer that holds one canonical object among prose yields that object back. */
  lemma CanonicalObjectIsRecovered(pre: Text, v: Value, post: Text)
    requires v.Obj? && Jsonable(v) && Prose(pre) && Prose(post)
    ensures Canonicalize(v).Success?
    ensures var found := LastBlock(pre + Canonicalize(v).value + post);
            found == Some(Canonicalize(v).value) && JsonReader.Parse(found.value) == Some(CanonicalJson.Normalize(v))
  {
    CanonicalJson.CanonicalIsPrinted(v);
    CanonicalJson.CanonicalRoundTrip(v);
    PrintedObjectIsFound(pre, CanonicalJson.Normalize(v), post);
  }

  /** Prose and printed objects in turn. */
  datatype Part = Part(prose: Text, printed: Value)

  predicate Readable(part: Part) { Prose(part.prose) && part.printed.Obj? && Jsonable(part.printed) }

  predicate AllReadable(parts: seq<Part>) { forall n :: 0 <= n < |parts| ==> Readable(parts[n]) }

  function Written(parts: seq<Part>): Text
    requires AllReadable(parts)
  {
    if parts == [] then []
    else
      assert Readable(parts[0]);
      parts[0].prose + Print(parts[0].printed) + Written(parts[1..])
  }

  lemma FirstBlockYields(p: Text, t: Text)
    requires Neutral(p) && LastBlock(t).Some?
    ensures LastBlock([OPEN_BRACE] + p + [CLOSE_BRACE] + t) == LastBlock(t)
  {
    BlockText(p, t);
    ClosesAfter(p, t);
  }

  lemma PartYields(part: Part, rest: Text)
    requires Readable(part) && LastBlock(rest).Some?
    ensures LastBlock(part.prose + (Print(part.printed) + rest)) == LastBlock(rest)
  {
    FieldsAreNeutral(part.printed, 0);
    FirstBlockYields(PrintFields(part.printed, 0), rest);
    ProseHasNoBlock(part.prose, Print(part.printed) + rest);
  }

  /** Of several objects between prose the scan answers the last, whatever stands in the ones before it. */
  lemma {:induction false} LastObjectIsFound(parts: seq<Part>, pre: Text, v: Value, post: Text)
    requires AllReadable(parts) && v.Obj? && Jsonable(v) && Prose(pre) && Prose(post)
    ensures LastBlock(Written(parts) + (pre + Print(v) + post)) == Some(Print(v))
    decreases |parts|
  {
    var end := pre + Print(v) + post;
    if parts == [] {
      assert Written(parts) + end == end;
      PrintedObjectIsFound(pre, v, post);
    } else {
      LastObjectIsFound(parts[1..], pre, v, post);
      assert Readable(parts[0]);
      PartYields(parts[0], Written(parts[1..]) + end);
      JoinParts(parts[0].prose, Print(parts[0].printed), Written(parts[1..]), end);
    }
  }

  lemma JoinParts(a: Text, b: Text, c: Text, d: Text)
    ensures (a + b + c) + d == a + (b + (c + d))
  {
  }
}
