/**
 Decimal figures as people write them: digit groups, decimal points, and the two
 functions of the FX desk that write and read them (app/domain/fx.py:70-95, 126-146).
 */
module Figures {
  import opened Prelude
  import opened Text

  /** A decimal as Python keeps it: `units` with the point `places` digits from the right. */
  datatype Dec = Dec(units: nat, places: nat)

  function Pow10(k: nat): (p: nat)
    ensures p > 0
  {
    if k == 0 then 1 else 10 * Pow10(k - 1)
  }

  lemma {:induction false} Pow10Adds(a: nat, b: nat)
    ensures Pow10(a + b) == Pow10(a) * Pow10(b)
  {
    if a > 0 {
      Pow10Adds(a - 1, b);
      assert Pow10(a + b) == 10 * Pow10(a - 1 + b);
    }
  }

  predicate SameValue(a: Dec, b: Dec) {
    a.units * Pow10(b.places) == b.units * Pow10(a.places)
  }

  /** A whole part and a fraction, both as digits. */
  function Number(whole: string, fraction: string): Dec
    requires AllDigits(whole + fraction)
  {
    Dec(NumeralValue(whole + fraction), |fraction|)
  }

  /** A positive count of digits, three at a time from the right. */
  function Grouped(whole: string, separator: char): string {
    if |whole| <= 3 then whole
    else Grouped(whole[..|whole| - 3], separator) + [separator] + whole[|whole| - 3..]
  }

  /** The separator stands before every third digit from the right, and nowhere else. */
  ghost predicate InThrees(g: string, separator: char) {
    forall i :: 0 <= i < |g| ==> (g[i] == separator <==> (|g| - i) % 4 == 0)
  }

  lemma OneMoreThree(h: string, digits: string, separator: char)
    requires InThrees(h, separator) && |digits| == 3 && separator !in digits
    ensures InThrees(h + [separator] + digits, separator)
  {
    var g := h + [separator] + digits;
    forall i | 0 <= i < |g| ensures g[i] == separator <==> (|g| - i) % 4 == 0 {
      if i < |h| {
        assert g[i] == h[i] && |g| - i == (|h| - i) + 4;
      } else if i > |h| {
        assert g[i] == digits[i - |h| - 1];
      }
    }
  }

  /** Digits can be grouped in one way only: no separator first, and one for each three digits that follow. */
  lemma {:induction false} GroupedMeans(whole: string, separator: char)
    requires whole != "" && separator !in whole
    ensures InThrees(Grouped(whole, separator), separator)
    ensures |Grouped(whole, separator)| == |whole| + (|whole| - 1) / 3
  {
    if |whole| > 3 {
      var n := |whole| - 3;
      GroupedMeans(whole[..n], separator);
      OneMoreThree(Grouped(whole[..n], separator), whole[n..], separator);
      assert (|whole| - 1) / 3 == (n - 1) / 3 + 1;
    }
  }

  /** A figure in one convention: a thousands separator and a decimal point. */
  function Written(whole: string, fraction: string, separator: char, point: char): string {
    Grouped(whole, separator) + if fraction == "" then "" else [point] + fraction
  }

  // ---- deleting and finding characters -----------------------------------------

  function Without(s: string, drop: set<char>): (r: string)
    ensures forall c :: c in r <==> c in s && c !in drop
  {
    if s == "" then ""
    else
      var last := s[|s| - 1];
      assert s == s[..|s| - 1] + [last];
      if last in drop then Without(s[..|s| - 1], drop) else Without(s[..|s| - 1], drop) + [last]
  }

  lemma {:induction false} WithoutConcat(a: string, b: string, drop: set<char>)
    ensures Without(a + b, drop) == Without(a, drop) + Without(b, drop)
    decreases |b|
  {
    if b == "" {
      assert a + b == a;
    } else {
      var n := |b| - 1;
      assert (a + b)[..|a + b| - 1] == a + b[..n];
      WithoutConcat(a, b[..n], drop);
    }
  }

  lemma {:induction false} WithoutNothing(s: string, drop: set<char>)
    requires forall c :: c in s ==> c !in drop
    ensures Without(s, drop) == s
  {
    if s != "" {
      WithoutNothing(s[..|s| - 1], drop);
      assert s[|s| - 1] in s;
    }
  }

  /** `str.rfind` */
  function LastIndexOf(s: string, c: char): (i: int)
    ensures -1 <= i < |s|
    ensures i == -1 <==> c !in s
    ensures i >= 0 ==> s[i] == c && c !in s[i + 1..]
  {
    if s == "" then -1 else if s[|s| - 1] == c then |s| - 1 else LastIndexOf(s[..|s| - 1], c)
  }

  lemma {:induction false} LastIndexIs(before: string, c: char, after: string)
    requires c !in after
    ensures LastIndexOf(before + [c] + after, c) == |before|
    decreases |after|
  {
    if after == "" {
      assert before + [c] + after == before + [c];
    } else {
      var s := before + [c] + after;
      assert s[..|s| - 1] == before + [c] + after[..|after| - 1];
      LastIndexIs(before, c, after[..|after| - 1]);
    }
  }

  lemma {:induction false} LastIndexBelow(s: string, c: char, n: nat)
    requires n <= |s| && c !in s[n..]
    ensures LastIndexOf(s, c) < n
  {
    if n < |s| {
      var m := |s| - 1;
      assert s[n..][m - n] == s[m];
      assert s[n..] == s[..m][n..] + [s[m]];
      LastIndexBelow(s[..m], c, n);
    }
  }

  // ---- digits and their values ----------------------------------------------------

  lemma OneMoreDigit(s: string, d: char)
    requires AllDigits(s) && IsDigit(d)
    ensures AllDigits(s + [d]) && NumeralValue(s + [d]) == 10 * NumeralValue(s) + DigitValue(d)
  {
    assert (s + [d])[..|s|] == s;
  }

  lemma TenTimes(x: nat, k: nat)
    ensures x * Pow10(k + 1) == 10 * (x * Pow10(k))
  {
  }

  lemma {:induction false} ValueOfConcat(a: string, b: string)
    requires AllDigits(a) && AllDigits(b)
    ensures AllDigits(a + b) && NumeralValue(a + b) == NumeralValue(a) * Pow10(|b|) + NumeralValue(b)
    decreases |b|
  {
    if b == "" {
      assert a + b == a;
    } else {
      var n := |b| - 1;
      ValueOfConcat(a, b[..n]);
      OneMoreDigit(b[..n], b[n]);
      OneMoreDigit(a + b[..n], b[n]);
      assert a + b == a + b[..n] + [b[n]] && b == b[..n] + [b[n]];
      TenTimes(NumeralValue(a), n);
    }
  }

  /** The fraction of a figure, with every place written. */
  function Places(n: nat, k: nat): (s: string)
    ensures |s| == k && AllDigits(s)
  {
    if k == 0 then "" else Places(n / 10, k - 1) + [DigitChar(n % 10)]
  }

  lemma {:induction false} ValueOfPlaces(n: nat, k: nat)
    requires n < Pow10(k)
    ensures NumeralValue(Places(n, k)) == n
  {
    if k > 0 {
      ValueOfPlaces(n / 10, k - 1);
      assert Places(n, k)[..k - 1] == Places(n / 10, k - 1);
    }
  }

  // ---- `format_money` ----------------------------------------------------------------

  function TrimZeros(s: string): (r: string)
    ensures r <= s
  {
    if s != "" && s[|s| - 1] == '0' then TrimZeros(s[..|s| - 1]) else s
  }

  /** No trailing zeros, but money never shows a single decimal. */
  function ShownFraction(fraction: string): string {
    var trimmed := TrimZeros(fraction);
    if |trimmed| == 1 then trimmed + "0" else trimmed
  }

  /** Two decimals or none, but for more where the figure needs them. */
  lemma {:induction false} ShownIsShort(fraction: string)
    ensures var shown := ShownFraction(fraction);
            && |shown| != 1
            && (|shown| > 2 ==> shown[|shown| - 1] != '0' && shown <= fraction)
            && (|shown| == 2 ==> shown != "00" && |fraction| >= 1 && shown[0] == fraction[0])
  {
    TrimmedEnds(fraction);
  }

  lemma {:induction false} TrimmedEnds(s: string)
    ensures TrimZeros(s) != "" ==> TrimZeros(s)[|TrimZeros(s)| - 1] != '0'
  {
    if s != "" {
      TrimmedEnds(s[..|s| - 1]);
    }
  }

  function Quotient(n: nat, m: nat): (q: nat)
    requires m > 0
    ensures n == q * m + n % m
  {
    n / m
  }

  function WholeDigits(d: Dec): (s: string)
    ensures s != "" && AllDigits(s)
  {
    Numeral(Quotient(d.units, Pow10(d.places)))
  }

  function FractionDigits(d: Dec): (s: string)
    ensures AllDigits(s)
  {
    Places(d.units % Pow10(d.places), d.places)
  }

  function FormatMoney(d: Dec): string {
    Written(WholeDigits(d), ShownFraction(FractionDigits(d)), ',', '.')
  }

  /** Zeros on the end of a fraction change its writing and not its value. */
  lemma {:induction false} TrailingZeros(whole: string, fraction: string)
    requires AllDigits(whole) && AllDigits(fraction)
    ensures var t := TrimZeros(fraction);
            && AllDigits(whole + t) && AllDigits(whole + fraction) && |t| <= |fraction|
            && NumeralValue(whole + fraction) == NumeralValue(whole + t) * Pow10(|fraction| - |t|)
  {
    var t := TrimZeros(fraction);
    if fraction != "" && fraction[|fraction| - 1] == '0' {
      var n := |fraction| - 1;
      TrailingZeros(whole, fraction[..n]);
      OneMoreDigit(whole + fraction[..n], '0');
      assert whole + fraction == whole + fraction[..n] + ['0'];
      TenTimes(NumeralValue(whole + t), n - |t|);
    }
  }

  /** What is shown is the figure that was given. */
  lemma ShownIsSame(whole: string, fraction: string)
    requires AllDigits(whole) && AllDigits(fraction)
    ensures var shown := ShownFraction(fraction);
            AllDigits(shown) && SameValue(Number(whole, shown), Number(whole, fraction))
  {
    var t := TrimZeros(fraction);
    var shown := ShownFraction(fraction);
    TrailingZeros(whole, fraction);
    Scaled(NumeralValue(whole + t), |t|, |fraction|);
    if |t| == 1 {
      OneMoreDigit(whole + t, '0');
      assert whole + shown == whole + t + ['0'];
      TwoPlaces(NumeralValue(whole + t), Number(whole, fraction));
    }
  }

  lemma TwoPlaces(v: nat, d: Dec)
    requires SameValue(Dec(v, 1), d)
    ensures SameValue(Dec(10 * v, 2), d)
  {
    assert Pow10(1) == 10 && Pow10(2) == 100;
  }

  lemma Scaled(v: nat, a: nat, b: nat)
    requires a <= b
    ensures v * Pow10(b) == v * Pow10(b - a) * Pow10(a)
  {
    Pow10Adds(b - a, a);
    assert v * (Pow10(b - a) * Pow10(a)) == v * Pow10(b - a) * Pow10(a);
  }

  /** The digits of a figure make up the figure. */
  lemma DigitsOf(d: Dec)
    ensures AllDigits(WholeDigits(d) + FractionDigits(d))
    ensures Number(WholeDigits(d), FractionDigits(d)) == d
  {
    var p := Pow10(d.places);
    var q := Quotient(d.units, p);
    ValueOfConcat(Numeral(q), FractionDigits(d));
    NumeralRoundTrip(q);
    ValueOfPlaces(d.units % p, d.places);
  }

  // ---- `parse_amount` -------------------------------------------------------------------

  datatype Fault = Empty | NotANumber | Negative | TooLarge | NotPositive

  datatype Read = Figure(value: Dec) | Refused(why: Fault)

  /** Digits, with at most one dot among them and a digit on at least one side. */
  function Plain(s: string): Option<Dec> {
    var dot := LastIndexOf(s, '.');
    if dot < 0 then (if s != "" && AllDigits(s) then Some(Dec(NumeralValue(s), 0)) else None)
    else
      var digits := s[..dot] + s[dot + 1..];
      if digits != "" && AllDigits(digits) then Some(Number(s[..dot], s[dot + 1..])) else None
  }

  /** `\d+(\.\d+)?`: a digit before any dot, and one after it. */
  predicate Strict(s: string) {
    s != "" && s[0] != '.' && s[|s| - 1] != '.'
  }

  function ParseAmount(text: string): Read {
    ReadAmount(Without(Without(Strip(text), {','}), {' '}))
  }

  function ReadAmount(cleaned: string): Read {
    if cleaned == "" then Refused(Empty)
    else if !Strict(cleaned) || Plain(cleaned) == None then Refused(NotANumber)
    else if Plain(cleaned).value.units == 0 then Refused(NotPositive)
    else Figure(Plain(cleaned).value)
  }

  // ---- written figures, taken apart -------------------------------------------------------

  predicate Mark(c: char) {
    !IsDigit(c)
  }

  lemma {:induction false} GroupedDigits(whole: string, separator: char)
    requires whole != "" && AllDigits(whole)
    ensures var g := Grouped(whole, separator);
            && g != "" && IsDigit(g[0]) && IsDigit(g[|g| - 1])
            && (forall c :: c in g ==> IsDigit(c) || c == separator)
            && (|whole| <= 3 ==> g == whole) && (|whole| > 3 ==> separator in g)
  {
    if |whole| > 3 {
      GroupedDigits(whole[..|whole| - 3], separator);
    }
  }

  lemma WithoutBetween(a: string, c: char, b: string, drop: set<char>)
    requires c in drop
    ensures Without(a + [c] + b, drop) == Without(a, drop) + Without(b, drop)
  {
    WithoutConcat(a + [c], b, drop);
    assert (a + [c])[..|a|] == a;
  }

  predicate OnlyMarks(drop: set<char>) {
    forall c :: c in drop ==> Mark(c)
  }

  lemma DigitsStay(s: string, drop: set<char>)
    requires AllDigits(s) && OnlyMarks(drop)
    ensures Without(s, drop) == s
  {
    WithoutNothing(s, drop);
  }

  lemma {:induction false} UngroupedIsWhole(whole: string, separator: char, drop: set<char>)
    requires AllDigits(whole) && separator in drop && OnlyMarks(drop)
    ensures Without(Grouped(whole, separator), drop) == whole
  {
    if |whole| <= 3 {
      DigitsStay(whole, drop);
    } else {
      var n := |whole| - 3;
      UngroupedIsWhole(whole[..n], separator, drop);
      DigitsStay(whole[n..], drop);
      WithoutBetween(Grouped(whole[..n], separator), separator, whole[n..], drop);
      assert whole == whole[..n] + whole[n..];
    }
  }

  /** Deleting the thousands separator leaves whole part, point and fraction. */
  lemma UngroupedWritten(whole: string, fraction: string, separator: char, point: char, drop: set<char>)
    requires whole != "" && AllDigits(whole) && AllDigits(fraction)
    requires separator in drop && point !in drop && OnlyMarks(drop)
    ensures Without(Written(whole, fraction, separator, point), drop)
         == whole + if fraction == "" then "" else [point] + fraction
  {
    var tail := if fraction == "" then "" else [point] + fraction;
    UngroupedIsWhole(whole, separator, drop);
    WithoutConcat(Grouped(whole, separator), tail, drop);
    WithoutNothing(tail, drop);
  }

  lemma WrittenIsTight(whole: string, fraction: string, separator: char, point: char)
    requires whole != "" && AllDigits(whole) && AllDigits(fraction)
    ensures var s := Written(whole, fraction, separator, point);
            s != "" && IsDigit(s[0]) && IsDigit(s[|s| - 1]) && Strip(s) == s
  {
    GroupedDigits(whole, separator);
    StripOfTight(Written(whole, fraction, separator, point));
  }

  lemma PlainWhole(whole: string)
    requires whole != "" && AllDigits(whole)
    ensures Plain(whole) == Some(Dec(NumeralValue(whole), 0))
  {
    assert '.' !in whole;
  }

  lemma PlainBoth(whole: string, fraction: string)
    requires whole != "" && AllDigits(whole) && AllDigits(fraction)
    ensures AllDigits(whole + fraction) && Plain(whole + ['.'] + fraction) == Some(Number(whole, fraction))
  {
    var s := whole + ['.'] + fraction;
    LastIndexIs(whole, '.', fraction);
    assert s[..|whole|] == whole && s[|whole| + 1..] == fraction;
  }

  lemma PlainNumber(whole: string, fraction: string)
    requires whole != "" && AllDigits(whole) && AllDigits(fraction)
    ensures AllDigits(whole + fraction)
    ensures Plain(whole + if fraction == "" then "" else "." + fraction) == Some(Number(whole, fraction))
  {
    if fraction == "" {
      PlainWhole(whole);
      assert whole + "" == whole;
    } else {
      PlainBoth(whole, fraction);
      assert whole + ("." + fraction) == whole + ['.'] + fraction;
    }
  }

  lemma AmountCleaned(whole: string, fraction: string, separator: char)
    requires whole != "" && AllDigits(whole) && AllDigits(fraction) && (separator == ',' || separator == ' ')
    ensures Without(Without(Written(whole, fraction, separator, '.'), {','}), {' '})
         == whole + if fraction == "" then "" else "." + fraction
  {
    if separator == ',' {
      UngroupedWritten(whole, fraction, ',', '.', {','});
      NoMarkLeft(whole, fraction);
    } else {
      NoCommaWritten(whole, fraction);
      UngroupedWritten(whole, fraction, ' ', '.', {' '});
    }
  }

  lemma NoMarkLeft(whole: string, fraction: string)
    requires AllDigits(whole) && AllDigits(fraction)
    ensures var figure := whole + if fraction == "" then "" else "." + fraction; Without(figure, {' '}) == figure
  {
    WithoutNothing(whole + if fraction == "" then "" else "." + fraction, {' '});
  }

  lemma NoCommaWritten(whole: string, fraction: string)
    requires whole != "" && AllDigits(whole) && AllDigits(fraction)
    ensures var figure := Written(whole, fraction, ' ', '.'); Without(figure, {','}) == figure
  {
    GroupedDigits(whole, ' ');
    WithoutNothing(Written(whole, fraction, ' ', '.'), {','});
  }

  /** `parse_amount` reads comma groups with a dot, and space groups with a dot. */
  lemma AmountReadsWritten(whole: string, fraction: string, separator: char)
    requires whole != "" && AllDigits(whole) && AllDigits(fraction) && (separator == ',' || separator == ' ')
    requires NumeralValue(whole + fraction) > 0
    ensures ParseAmount(Written(whole, fraction, separator, '.')) == Figure(Number(whole, fraction))
  {
    WrittenIsTight(whole, fraction, separator, '.');
    AmountCleaned(whole, fraction, separator);
    AmountReadsPlain(whole, fraction);
  }

  lemma AmountReadsPlain(whole: string, fraction: string)
    requires whole != "" && AllDigits(whole) && AllDigits(fraction) && NumeralValue(whole + fraction) > 0
    ensures ReadAmount(whole + if fraction == "" then "" else "." + fraction) == Figure(Number(whole, fraction))
  {
    PlainNumber(whole, fraction);
    if fraction == "" {
      assert whole + "" == whole;
    }
  }

  /** Commas and spaces apart: digits, then perhaps a dot and more digits, and something to them. */
  ghost predicate IsAmount(text: string, whole: string, fraction: string) {
    && whole != "" && AllDigits(whole) && AllDigits(fraction) && AllDigits(whole + fraction)
    && NumeralValue(whole + fraction) > 0
    && Without(Without(Strip(text), {','}), {' '}) == whole + if fraction == "" then "" else "." + fraction
  }

  /** What `parse_amount` takes, and what it takes it for. */
  lemma AmountIff(text: string)
    ensures ParseAmount(text).Figure? <==> exists whole, fraction :: IsAmount(text, whole, fraction)
    ensures forall whole, fraction :: IsAmount(text, whole, fraction) ==>
              ParseAmount(text) == Figure(Number(whole, fraction))
  {
    forall whole, fraction | IsAmount(text, whole, fraction)
      ensures ParseAmount(text) == Figure(Number(whole, fraction))
    {
      AmountReadsPlain(whole, fraction);
    }
    if ParseAmount(text).Figure? {
      FigureIsAmount(text);
    }
  }

  lemma DigitsApart(a: string, b: string)
    requires AllDigits(a + b)
    ensures AllDigits(a) && AllDigits(b)
  {
    assert forall i :: 0 <= i < |a| ==> a[i] == (a + b)[i];
    assert forall i :: 0 <= i < |b| ==> b[i] == (a + b)[|a| + i];
  }

  /** A plain figure with a digit at each end, at its dot. */
  lemma PlainApart(s: string) returns (whole: string, fraction: string)
    requires Strict(s) && Plain(s).Some?
    ensures whole != "" && AllDigits(whole) && AllDigits(fraction) && AllDigits(whole + fraction)
    ensures s == whole + if fraction == "" then "" else "." + fraction
    ensures Plain(s) == Some(Number(whole, fraction))
  {
    var dot := LastIndexOf(s, '.');
    if dot < 0 {
      whole, fraction := s, "";
      assert s + "" == s;
    } else {
      whole, fraction := s[..dot], s[dot + 1..];
      DigitsApart(whole, fraction);
    }
  }

  lemma FigureIsAmount(text: string)
    requires ParseAmount(text).Figure?
    ensures exists whole, fraction :: IsAmount(text, whole, fraction)
  {
    var whole, fraction := PlainApart(Without(Without(Strip(text), {','}), {' '}));
    assert IsAmount(text, whole, fraction);
  }

  lemma ZeroUnits(a: Dec, b: Dec)
    requires SameValue(a, b) && b.units > 0
    ensures a.units > 0
  {
    assert b.units * Pow10(a.places) > 0;
  }

  /** `parse_amount` inverts `format_money`, for every positive figure. */
  lemma AmountInvertsFormat(d: Dec)
    requires d.units > 0
    ensures var read := ParseAmount(FormatMoney(d)); read.Figure? && SameValue(read.value, d)
  {
    DigitsOf(d);
    ShownIsSame(WholeDigits(d), FractionDigits(d));
    ZeroUnits(Number(WholeDigits(d), ShownFraction(FractionDigits(d))), d);
    AmountReadsWritten(WholeDigits(d), ShownFraction(FractionDigits(d)), ',');
  }
}
