/** Dollar texts and integer micro-dollars (packages/domain/src/index.ts). */
module Money {
  import opened Wrappers
  import opened Domain
  import opened Json
  import JsonReader

  const DOT: CodeUnit := 46
  const MICRO_USD_PER_USD: nat := 1000000

  datatype MoneyError = InvalidMoney | Overflow

  function TrimEnd(t: Text): Text {
    if t != [] && White(t[|t| - 1]) then TrimEnd(t[..|t| - 1]) else t
  }

  function Trim(t: Text): Text { TrimEnd(TrimStart(t)) }

  predicate AllDigits(t: Text) { forall n :: 0 <= n < |t| ==> JsonReader.IsDigit(t[n]) }

  function LeadingDigits(t: Text): (n: nat)
    ensures n <= |t| && AllDigits(t[..n]) && (n < |t| ==> !JsonReader.IsDigit(t[n]))
  {
    if t == [] || !JsonReader.IsDigit(t[0]) then 0 else 1 + LeadingDigits(t[1..])
  }

  /** The two groups of ^(\d+)(?:\.(\d{1,6}))?$ */
  function Match(t: Text): Option<(Text, Text)> {
    var n := LeadingDigits(t);
    if n == 0 then None
    else if n == |t| then Some((t, []))
    else
      var fraction := t[n + 1..];
      if t[n] == DOT && 1 <= |fraction| <= 6 && AllDigits(fraction) then Some((t[..n], fraction)) else None
  }

  function DigitsValue(t: Text): nat
    requires AllDigits(t)
  {
    if t == [] then 0 else DigitsValue(t[..|t| - 1]) * 10 + (t[|t| - 1] - ZERO)
  }

  function PadEnd(t: Text, n: nat): (r: Text)
    ensures AllDigits(t) ==> AllDigits(r)
    decreases n - |t|
  {
    if |t| >= n then t else PadEnd(t + [ZERO], n)
  }

  function PadStart(t: Text, n: nat): Text
    decreases n - |t|
  {
    if |t| >= n then t else PadStart([ZERO] + t, n)
  }

  /** replace(/0+$/, '') */
  function DropZeros(t: Text): Text {
    if t != [] && t[|t| - 1] == ZERO then DropZeros(t[..|t| - 1]) else t
  }

  function Parse(text: Text): Result<nat, MoneyError> {
    var groups := Match(Trim(text));
    if groups.None? then Failure(InvalidMoney)
    else
      MatchedDigits(Trim(text));
      var result := DigitsValue(groups.value.0) * MICRO_USD_PER_USD + DigitsValue(PadEnd(groups.value.1, 6));
      if result > MAX_SAFE_INTEGER then Failure(Overflow) else Success(result)
  }

  function Format(v: nat): Text {
    var trimmed := DropZeros(PadStart(Digits(v % MICRO_USD_PER_USD), 6));
    Digits(v / MICRO_USD_PER_USD) + [DOT] + (if trimmed == [] then [ZERO] else trimmed)
  }

  lemma MatchedDigits(t: Text)
    ensures Match(t).Some? ==> AllDigits(Match(t).value.0) && AllDigits(Match(t).value.1) && Match(t).value.0 != []
  {
  }

  // ------------------------------------------------------------- which texts, which amounts

  function Pow10(n: nat): nat { if n == 0 then 1 else 10 * Pow10(n - 1) }

  /** A decimal: a whole part, and a fraction of one to six digits or none. */
  predicate Decimal6(t: Text, whole: Text, fraction: Text) {
    && whole != [] && AllDigits(whole) && AllDigits(fraction) && |fraction| <= 6
    && t == if fraction == [] then whole else whole + [DOT] + fraction
  }

  /** The amount in millionths: whole.fraction read as a decimal number, times a million. */
  function Millionths(whole: Text, fraction: Text): nat
    requires AllDigits(whole) && AllDigits(fraction) && |fraction| <= 6
  {
    DigitsValue(whole) * MICRO_USD_PER_USD + DigitsValue(fraction) * Pow10(6 - |fraction|)
  }

  lemma {:induction false} LeadingDigitsOf(whole: Text, rest: Text)
    requires AllDigits(whole) && (rest == [] || !JsonReader.IsDigit(rest[0]))
    ensures LeadingDigits(whole + rest) == |whole|
  {
    if whole == [] {
      assert whole + rest == rest;
    } else {
      assert (whole + rest)[1..] == whole[1..] + rest;
      LeadingDigitsOf(whole[1..], rest);
    }
  }

  /** The pattern matches exactly the decimals, and splits each in the one way there is. */
  lemma MatchExactly(t: Text, whole: Text, fraction: Text)
    ensures Match(t) == Some((whole, fraction)) <==> Decimal6(t, whole, fraction)
  {
    if Decimal6(t, whole, fraction) {
      if fraction == [] {
        LeadingDigitsOf(whole, []);
        assert whole + [] == whole;
      } else {
        LeadingDigitsOf(whole, [DOT] + fraction);
        assert t == whole + ([DOT] + fraction);
        assert t[..|whole|] == whole && t[|whole| + 1..] == fraction;
      }
    }
    if Match(t) == Some((whole, fraction)) {
      var n := LeadingDigits(t);
      assert t[..|t|] == t;
      if n < |t| { assert t == t[..n] + [DOT] + t[n + 1..]; }
    }
  }

  lemma {:induction false} PaddedValue(t: Text, n: nat)
    requires AllDigits(t) && |t| <= n
    ensures AllDigits(PadEnd(t, n)) && DigitsValue(PadEnd(t, n)) == DigitsValue(t) * Pow10(n - |t|)
    decreases n - |t|
  {
    if |t| < n {
      var longer := t + [ZERO];
      assert longer[..|t|] == t;
      PaddedValue(longer, n);
      assert DigitsValue(longer) == DigitsValue(t) * 10;
      Rescale(DigitsValue(t), Pow10(n - |t| - 1));
    }
  }

  lemma Rescale(a: nat, p: nat)
    ensures a * 10 * p == a * (10 * p)
  {
  }

  /** Parsing succeeds exactly on a trimmed decimal whose amount is a safe integer, and gives that
      amount; it fails as an overflow on the other decimals and as malformed on everything else. */
  lemma ParseDecimal(text: Text, whole: Text, fraction: Text)
    requires Decimal6(Trim(text), whole, fraction)
    ensures var amount := Millionths(whole, fraction);
            Parse(text) == if amount <= MAX_SAFE_INTEGER then Success(amount) else Failure(Overflow)
  {
    MatchExactly(Trim(text), whole, fraction);
    PaddedValue(fraction, 6);
  }

  lemma ParseMalformed(text: Text)
    requires forall whole, fraction :: !Decimal6(Trim(text), whole, fraction)
    ensures Parse(text) == Failure(InvalidMoney)
  {
    if Match(Trim(text)).Some? {
      var groups := Match(Trim(text)).value;
      MatchExactly(Trim(text), groups.0, groups.1);
    }
  }

  // --------------------------------------------------------------------------- round trip

  lemma {:induction false} DigitsBack(n: nat)
    ensures Digits(n) != [] && AllDigits(Digits(n)) && DigitsValue(Digits(n)) == n
  {
    if n >= 10 {
      DigitsBack(n / 10);
      var d := Digits(n);
      assert d[..|d| - 1] == Digits(n / 10);
    } else {
      assert Digits(n)[..0] == [];
    }
  }

  lemma {:induction false} DigitsFit(n: nat, k: nat)
    requires n < Pow10(k) && k > 0
    ensures |Digits(n)| <= k
    decreases k
  {
    if n >= 10 {
      assert Pow10(k) == 10 * Pow10(k - 1);
      DigitsFit(n / 10, k - 1);
    }
  }

  lemma {:induction false} PadStartValue(t: Text, n: nat)
    requires AllDigits(t) && |t| <= n
    ensures var r := PadStart(t, n); AllDigits(r) && |r| == n && DigitsValue(r) == DigitsValue(t)
    decreases n - |t|
  {
    if |t| < n {
      LeadingZero(t);
      PadStartValue([ZERO] + t, n);
    }
  }

  lemma {:induction false} LeadingZero(t: Text)
    requires AllDigits(t)
    ensures AllDigits([ZERO] + t) && DigitsValue([ZERO] + t) == DigitsValue(t)
  {
    var z := [ZERO] + t;
    if t == [] {
      assert z[..0] == [];
    } else {
      LeadingZero(t[..|t| - 1]);
      assert z[..|z| - 1] == [ZERO] + t[..|t| - 1];
    }
  }

  lemma {:induction false} DroppedZerosComeBack(t: Text)
    ensures PadEnd(DropZeros(t), |t|) == t && |DropZeros(t)| <= |t| && (AllDigits(t) ==> AllDigits(DropZeros(t)))
    ensures DropZeros(t) != [] ==> DropZeros(t)[|DropZeros(t)| - 1] != ZERO
  {
    if t != [] && t[|t| - 1] == ZERO {
      var init := t[..|t| - 1];
      DroppedZerosComeBack(init);
      PadOneMore(DropZeros(init), |init|);
      assert init + [ZERO] == t;
    }
  }

  lemma {:induction false} PadOneMore(t: Text, n: nat)
    requires |t| <= n
    ensures PadEnd(t, n + 1) == PadEnd(t, n) + [ZERO]
    decreases n - |t|
  {
    if |t| < n { PadOneMore(t + [ZERO], n); }
  }

  lemma PadZero(n: nat)
    requires n > 0
    ensures PadEnd([], n) == PadEnd([ZERO], n)
  {
    assert [] + [ZERO] == [ZERO];
  }

  /** The parts a formatted amount is made of. */
  lemma FormatParts(v: nat) returns (whole: Text, fraction: Text)
    ensures whole == Digits(v / MICRO_USD_PER_USD) && Format(v) == whole + [DOT] + fraction
    ensures Decimal6(Format(v), whole, fraction) && fraction != []
    ensures fraction == [ZERO] || fraction[|fraction| - 1] != ZERO
    ensures Millionths(whole, fraction) == v
  {
    var m := v % MICRO_USD_PER_USD;
    whole := Digits(v / MICRO_USD_PER_USD);
    var padded := PadStart(Digits(m), 6);
    var trimmed := DropZeros(padded);
    fraction := if trimmed == [] then [ZERO] else trimmed;
    DigitsBack(v / MICRO_USD_PER_USD);
    DigitsBack(m);
    assert Pow10(6) == MICRO_USD_PER_USD;
    DigitsFit(m, 6);
    PadStartValue(Digits(m), 6);
    DroppedZerosComeBack(padded);
    PadZero(6);
    assert PadEnd(fraction, 6) == padded;
    PaddedValue(fraction, 6);
  }

  lemma TrimNothing(t: Text)
    requires t != [] && !White(t[0]) && !White(t[|t| - 1])
    ensures Trim(t) == t
  {
  }

  /** Formatting and parsing again gives every amount back. */
  lemma RoundTrip(v: nat)
    requires v <= MAX_SAFE_INTEGER
    ensures Parse(Format(v)) == Success(v)
  {
    var whole, fraction := FormatParts(v);
    var t := Format(v);
    assert t[0] == whole[0] && t[|t| - 1] == fraction[|fraction| - 1];
    assert JsonReader.IsDigit(whole[0]) && JsonReader.IsDigit(fraction[|fraction| - 1]);
    TrimNothing(t);
    ParseDecimal(t, whole, fraction);
  }

  lemma {:induction false} NoLeadingZero(n: nat)
    ensures Digits(n) == [ZERO] || Digits(n)[0] != ZERO
  {
    if n >= 10 { NoLeadingZero(n / 10); }
  }

  /** One normal form: no leading zeros, and no trailing zeros but the single one of '.0'. */
  predicate Normal(t: Text, whole: Text, fraction: Text) {
    && Decimal6(t, whole, fraction) && (whole == [ZERO] || whole[0] != ZERO)
    && fraction != [] && (fraction == [ZERO] || fraction[|fraction| - 1] != ZERO)
  }

  /** Formatting what any text parses to gives its normal form, and two texts have one normal form
      exactly when they parse to one amount. */
  lemma FormatIsNormal(text: Text, other: Text) returns (whole: Text, fraction: Text)
    requires Parse(text).Success? && Parse(other).Success?
    ensures Normal(Format(Parse(text).value), whole, fraction)
    ensures Format(Parse(text).value) == Format(Parse(other).value) <==> Parse(text) == Parse(other)
  {
    whole, fraction := FormatParts(Parse(text).value);
    NoLeadingZero(Parse(text).value / MICRO_USD_PER_USD);
    RoundTrip(Parse(text).value);
    RoundTrip(Parse(other).value);
  }
}
