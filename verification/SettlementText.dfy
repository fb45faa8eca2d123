/**
 Reading a pasted settlement (app/domain/settlement_text.py:90-367). The desk
 writes one number in several conventions, and `parse_figure` has to tell them apart.
 */
module SettlementText {
  import opened Prelude
  import opened Text
  import opened Figures

  const SPACES := set c: char | IsSpace(c)

  /** From here on a figure is taken for a slip of the hand. */
  const CEILING_PLACES := 15

  predicate TooMuch(d: Dec) {
    d.units >= Pow10(CEILING_PLACES) * Pow10(d.places)
  }

  /** Two digits with spaces, and nothing else, between them. */
  predicate SpacesBetweenDigits(s: string, i: nat, j: nat)
    requires i + 1 < j < |s|
  {
    IsDigit(s[i]) && IsSpace(s[i + 1]) && (forall k :: i < k < j ==> IsSpace(s[k])) && IsDigit(s[j])
  }

  predicate GroupedBySpaces(s: string) {
    exists i, j :: 0 <= i && i + 1 < j < |s| && SpacesBetweenDigits(s, i, j)
  }

  /** `str.replace` of one character by another. */
  function Replace(s: string, from: char, to: char): string {
    seq(|s|, i requires 0 <= i < |s| => if s[i] == from then to else s[i])
  }

  /** `str.split` */
  function Split(s: string, c: char): (parts: seq<string>)
    ensures |parts| >= 1
    ensures c !in s ==> parts == [s]
    decreases |s|
  {
    var i := LastIndexOf(s, c);
    if i < 0 then [s] else Split(s[..i], c) + [s[i + 1..]]
  }

  /** Every group after the first is three digits. */
  predicate LooksGrouped(s: string) {
    var groups := Split(s, ',');
    |groups| > 1 && forall i :: 1 <= i < |groups| ==> |groups[i]| == 3 && AllDigits(groups[i])
  }

  /** The figure with a dot for its decimal point and no thousands separators left. */
  function Pointed(cleaned: string, groupedBySpaces: bool): string {
    if ',' in cleaned && '.' in cleaned then
      if LastIndexOf(cleaned, ',') > LastIndexOf(cleaned, '.')
      then Replace(Without(cleaned, {'.'}), ',', '.')
      else Without(cleaned, {','})
    else if ',' in cleaned then
      if groupedBySpaces then Replace(cleaned, ',', '.')
      else if LooksGrouped(cleaned) then Without(cleaned, {','})
      else Replace(cleaned, ',', '.')
    else cleaned
  }

  /** `Decimal(text)`, for plain notation with an optional sign, and the two limits. */
  function ReadPointed(s: string): Read {
    var signed := s != "" && (s[0] == '-' || s[0] == '+');
    var value := Plain(if signed then s[1..] else s);
    if value == None then Refused(NotANumber)
    else if signed && s[0] == '-' && value.value.units > 0 then Refused(Negative)
    else if TooMuch(value.value) then Refused(TooLarge)
    else Figure(value.value)
  }

  function ParseFigure(text: string): Read {
    var raw := Strip(text);
    if raw == "" then Refused(Empty)
    else ReadPointed(Pointed(Without(raw, SPACES), GroupedBySpaces(raw)))
  }

  lemma FirstStays(s: string, drop: set<char>)
    requires s != "" && s[0] !in drop
    ensures Without(s, drop) != "" && Without(s, drop)[0] == s[0]
  {
    assert s == [s[0]] + s[1..];
    WithoutConcat([s[0]], s[1..], drop);
    WithoutNothing([s[0]], drop);
  }

  lemma MinusStays(s: string, groupedBySpaces: bool)
    requires s != "" && s[0] == '-'
    ensures Pointed(s, groupedBySpaces) != "" && Pointed(s, groupedBySpaces)[0] == '-'
  {
    FirstStays(s, {'.'});
    FirstStays(s, {','});
  }

  /** Nothing of a thousand million million or more is a figure, and nothing below zero. */
  lemma FigureIsInRange(text: string)
    requires ParseFigure(text).Figure?
    ensures var d := ParseFigure(text).value;
            && d.units < Pow10(15) * Pow10(d.places)
            && (Strip(text)[0] == '-' ==> d.units == 0)
  {
    var raw := Strip(text);
    if raw[0] == '-' {
      FirstStays(raw, SPACES);
      MinusStays(Without(raw, SPACES), GroupedBySpaces(raw));
    }
  }

  // ---- the conventions, one by one --------------------------------------------------

  /** Figures as digits, small enough to be money. */
  predicate Digits(whole: string, fraction: string) {
    && whole != "" && AllDigits(whole) && AllDigits(fraction) && AllDigits(whole + fraction)
    && !TooMuch(Number(whole, fraction))
  }

  function Tail(point: char, fraction: string): string {
    if fraction == "" then "" else [point] + fraction
  }

  lemma ReadUnsigned(s: string, d: Dec)
    requires s != "" && IsDigit(s[0]) && Plain(s) == Some(d) && !TooMuch(d)
    ensures ReadPointed(s) == Figure(d)
  {
  }

  lemma ReadPlain(whole: string, fraction: string)
    requires Digits(whole, fraction)
    ensures ReadPointed(whole + Tail('.', fraction)) == Figure(Number(whole, fraction))
  {
    PlainNumber(whole, fraction);
    ReadUnsigned(whole + Tail('.', fraction), Number(whole, fraction));
  }

  lemma NoSpaces(s: string)
    requires forall c :: c in s ==> !IsSpace(c)
    ensures Without(s, SPACES) == s && !GroupedBySpaces(s)
  {
    WithoutNothing(s, SPACES);
    assert forall i :: 0 <= i < |s| ==> s[i] in s;
  }

  lemma WrittenChars(whole: string, fraction: string, separator: char, point: char)
    requires whole != "" && AllDigits(whole) && AllDigits(fraction)
    ensures forall c :: c in Written(whole, fraction, separator, point) ==> IsDigit(c) || c == separator || c == point
    ensures separator != point && Mark(separator) && Mark(point) ==>
              var s := Written(whole, fraction, separator, point);
              && (separator in s <==> |whole| > 3) && (point in s <==> fraction != "")
  {
    GroupedDigits(whole, separator);
  }

  lemma SplitAtLast(before: string, c: char, after: string)
    requires c !in after
    ensures Split(before + [c] + after, c) == Split(before, c) + [after]
  {
    LastIndexIs(before, c, after);
    var s := before + [c] + after;
    assert s[..|before|] == before && s[|before| + 1..] == after;
  }

  lemma {:induction false} SplitGrouped(whole: string)
    requires whole != "" && AllDigits(whole)
    ensures var groups := Split(Grouped(whole, ','), ',');
            && (|whole| > 3 ==> |groups| > 1)
            && forall i :: 1 <= i < |groups| ==> |groups[i]| == 3 && AllDigits(groups[i])
    decreases |whole|
  {
    if |whole| > 3 {
      var n := |whole| - 3;
      SplitGrouped(whole[..n]);
      SplitAtLast(Grouped(whole[..n], ','), ',', whole[n..]);
    }
  }

  /** The last of two marks decides: the point of a written figure is its last mark. */
  lemma PointIsLast(whole: string, fraction: string, separator: char, point: char)
    requires whole != "" && AllDigits(whole) && AllDigits(fraction) && fraction != ""
    requires separator != point && Mark(separator) && Mark(point)
    ensures var s := Written(whole, fraction, separator, point); LastIndexOf(s, separator) < LastIndexOf(s, point)
  {
    var s := Written(whole, fraction, separator, point);
    var g := Grouped(whole, separator);
    assert s == g + [point] + fraction;
    LastIndexIs(g, point, fraction);
    assert s[|g|..] == [point] + fraction;
    LastIndexBelow(s, separator, |g|);
  }

  /** Once the marks are interpreted, the figure is read. */
  lemma ReadOf(s: string, groupedBySpaces: bool, whole: string, fraction: string)
    requires s != "" && Strip(s) == s && GroupedBySpaces(s) == groupedBySpaces && Digits(whole, fraction)
    requires Pointed(Without(s, SPACES), groupedBySpaces) == whole + Tail('.', fraction)
    ensures ParseFigure(s) == Figure(Number(whole, fraction))
  {
    ReadPlain(whole, fraction);
  }

  lemma CommaFiguresPointed(whole: string, fraction: string)
    requires whole != "" && AllDigits(whole) && AllDigits(fraction)
    ensures Pointed(Written(whole, fraction, ',', '.'), false) == whole + Tail('.', fraction)
  {
    var s := Written(whole, fraction, ',', '.');
    WrittenChars(whole, fraction, ',', '.');
    UngroupedWritten(whole, fraction, ',', '.', {','});
    if fraction == "" {
      SplitGrouped(whole);
      assert s == Grouped(whole, ',');
    } else {
      PointIsLast(whole, fraction, ',', '.');
    }
    if |whole| <= 3 {
      WithoutNothing(s, {','});
    }
  }

  /** Comma groups with a dot: always. */
  lemma CommaFiguresRead(whole: string, fraction: string)
    requires Digits(whole, fraction)
    ensures ParseFigure(Written(whole, fraction, ',', '.')) == Figure(Number(whole, fraction))
  {
    WrittenIsTight(whole, fraction, ',', '.');
    WrittenChars(whole, fraction, ',', '.');
    NoSpaces(Written(whole, fraction, ',', '.'));
    CommaFiguresPointed(whole, fraction);
    ReadOf(Written(whole, fraction, ',', '.'), false, whole, fraction);
  }

  lemma DotFiguresPointed(whole: string, fraction: string)
    requires whole != "" && AllDigits(whole) && AllDigits(fraction) && |whole| > 3 && fraction != ""
    ensures Pointed(Written(whole, fraction, '.', ','), false) == whole + Tail('.', fraction)
  {
    WrittenChars(whole, fraction, '.', ',');
    PointIsLast(whole, fraction, '.', ',');
    UngroupedWritten(whole, fraction, '.', ',', {'.'});
    ReplacePoint(whole, fraction);
  }

  /** Dot groups with a decimal comma: whenever both marks are there to be compared. */
  lemma DotFiguresRead(whole: string, fraction: string)
    requires Digits(whole, fraction) && |whole| > 3 && fraction != ""
    ensures ParseFigure(Written(whole, fraction, '.', ',')) == Figure(Number(whole, fraction))
  {
    WrittenIsTight(whole, fraction, '.', ',');
    WrittenChars(whole, fraction, '.', ',');
    NoSpaces(Written(whole, fraction, '.', ','));
    DotFiguresPointed(whole, fraction);
    ReadOf(Written(whole, fraction, '.', ','), false, whole, fraction);
  }

  lemma ReplacePoint(whole: string, fraction: string)
    requires AllDigits(whole) && AllDigits(fraction)
    ensures Replace(whole + Tail(',', fraction), ',', '.') == whole + Tail('.', fraction)
  {
  }

  // ---- space groups with a decimal comma ------------------------------------------------

  lemma {:induction false} GroupedHasSpaceBetweenDigits(whole: string)
    requires AllDigits(whole) && |whole| > 3
    ensures GroupedBySpaces(Grouped(whole, ' '))
  {
    var n := |whole| - 3;
    var g := Grouped(whole[..n], ' ');
    GroupedDigits(whole[..n], ' ');
    var s := Grouped(whole, ' ');
    assert s == g + [' '] + whole[n..];
    assert SpacesBetweenDigits(s, |g| - 1, |g| + 1);
  }

  lemma GroupedPrefix(s: string, more: string)
    requires GroupedBySpaces(s)
    ensures GroupedBySpaces(s + more)
  {
    var i, j :| 0 <= i && i + 1 < j < |s| && SpacesBetweenDigits(s, i, j);
    assert SpacesBetweenDigits(s + more, i, j);
  }

  lemma CommaSplits(whole: string, fraction: string)
    requires AllDigits(whole) && AllDigits(fraction)
    ensures Split(whole + "," + fraction, ',') == [whole, fraction]
  {
    SplitAtLast(whole, ',', fraction);
    assert whole + [','] + fraction == whole + "," + fraction;
  }

  /** What is left of the figure before the marks are interpreted. */
  lemma SpacesGone(whole: string, fraction: string)
    requires Digits(whole, fraction)
    ensures var s := Written(whole, fraction, ' ', ',');
            && Without(s, SPACES) == whole + Tail(',', fraction)
            && (GroupedBySpaces(s) <==> |whole| > 3)
  {
    var s := Written(whole, fraction, ' ', ',');
    UngroupedWritten(whole, fraction, ' ', ',', SPACES);
    if |whole| > 3 {
      GroupedHasSpaceBetweenDigits(whole);
      GroupedPrefix(Grouped(whole, ' '), Tail(',', fraction));
    } else {
      WrittenChars(whole, fraction, ' ', ',');
      NoSpaces(s);
    }
  }

  lemma CommaDeleted(whole: string, fraction: string)
    requires AllDigits(whole) && AllDigits(fraction)
    ensures Without(whole + "," + fraction, {','}) == whole + fraction
  {
    WithoutConcat(whole + ",", fraction, {','});
    WithoutConcat(whole, ",", {','});
    WithoutNothing(whole, {','});
    WithoutNothing(fraction, {','});
    assert ","[..0] == "";
    assert Without(",", {','}) == "";
  }

  /** How a decimal comma is read when no space has given the convention away. */
  lemma PointedComma(whole: string, fraction: string, grouped: bool)
    requires AllDigits(whole) && AllDigits(fraction) && fraction != ""
    ensures Pointed(whole + Tail(',', fraction), grouped)
         == if grouped || |fraction| != 3 then whole + Tail('.', fraction) else whole + fraction
  {
    var s := whole + "," + fraction;
    assert s == whole + Tail(',', fraction);
    ReplacePoint(whole, fraction);
    if grouped {
      OneComma(whole, fraction);
    } else {
      OneComma(whole, fraction);
      CommaDeleted(whole, fraction);
    }
  }

  lemma OneComma(whole: string, fraction: string)
    requires AllDigits(whole) && AllDigits(fraction)
    ensures var s := whole + "," + fraction; ',' in s && '.' !in s && (LooksGrouped(s) <==> |fraction| == 3)
  {
    var s := whole + "," + fraction;
    CommaSplits(whole, fraction);
    assert s[|whole|] == ',';
    assert Split(s, ',')[1] == fraction;
  }

  lemma {:induction false} NumeralBelow(s: string)
    requires AllDigits(s)
    ensures NumeralValue(s) < Pow10(|s|)
  {
    if s != "" {
      NumeralBelow(s[..|s| - 1]);
      assert IsDigit(s[|s| - 1]);
    }
  }

  /** A numeral of at most six digits is far below the ceiling. */
  lemma ShortIsSmall(s: string)
    requires s != "" && AllDigits(s) && |s| <= 6
    ensures Digits(s, "")
  {
    assert s + "" == s;
    NumeralBelow(s);
    PowersGrow(|s|, CEILING_PLACES);
  }

  lemma {:induction false} PowersGrow(j: nat, k: nat)
    requires j <= k
    ensures Pow10(j) <= Pow10(k)
    decreases k
  {
    if j < k {
      PowersGrow(j, k - 1);
    }
  }

  /** Space groups with a decimal comma: the figure itself, or a thousand times it. */
  lemma SpaceFiguresRead(whole: string, fraction: string)
    requires Digits(whole, fraction)
    ensures ParseFigure(Written(whole, fraction, ' ', ','))
         == Figure(if |whole| > 3 || |fraction| != 3 then Number(whole, fraction) else Number(whole + fraction, ""))
  {
    var s := Written(whole, fraction, ' ', ',');
    WrittenIsTight(whole, fraction, ' ', ',');
    SpacesGone(whole, fraction);
    if fraction == "" {
      assert ',' !in whole + Tail(',', fraction);
    } else {
      PointedComma(whole, fraction, |whole| > 3);
    }
    if |whole| > 3 || |fraction| != 3 {
      ReadOf(s, |whole| > 3, whole, fraction);
    } else {
      ShortIsSmall(whole + fraction);
      assert whole + fraction == whole + fraction + Tail('.', "");
      ReadOf(s, false, whole + fraction, "");
    }
  }

  lemma ThousandTimes(v: nat)
    ensures SameValue(Dec(v, 0), Dec(v, 3)) <==> v == 0
  {
    assert Pow10(0) == 1 && Pow10(1) == 10 && Pow10(2) == 100 && Pow10(3) == 1000;
  }

  /**
   So a figure below the ceiling in that convention is read as what it is exactly when
   it has a group to see, or its fraction is not three digits, or it is nothing at all.
   */
  lemma SpaceFiguresReadIff(whole: string, fraction: string)
    requires Digits(whole, fraction)
    ensures var read := ParseFigure(Written(whole, fraction, ' ', ','));
            && read.Figure?
            && (SameValue(read.value, Number(whole, fraction))
                <==> |whole| > 3 || |fraction| != 3 || NumeralValue(whole + fraction) == 0)
  {
    SpaceFiguresRead(whole, fraction);
    if |whole| <= 3 && |fraction| == 3 {
      assert whole + fraction + "" == whole + fraction;
      ThousandTimes(NumeralValue(whole + fraction));
    }
  }

  // ---- what the platform itself writes ----------------------------------------------------

  /** The ceiling is a matter of value, not of how many places are written. */
  lemma CeilingOfValue(a: Dec, b: Dec)
    requires SameValue(a, b) && !TooMuch(a)
    ensures !TooMuch(b)
  {
    var c, pa, pb := Pow10(CEILING_PLACES), Pow10(a.places), Pow10(b.places);
    if b.units >= c * pb {
      Multiplied(c * pb, b.units, pa);
      assert (c * pb) * pa == (c * pa) * pb;
      MultipliedStrictly(a.units, c * pa, pb);
      assert false;
    }
  }

  lemma Multiplied(x: nat, y: nat, z: nat)
    requires x <= y
    ensures x * z <= y * z
  {
  }

  lemma MultipliedStrictly(x: nat, y: nat, z: nat)
    requires x < y && z > 0
    ensures x * z < y * z
  {
  }

  /** `parse_figure` inverts `format_money`, for every figure below the ceiling. */
  lemma FigureInvertsFormat(d: Dec)
    requires !TooMuch(d)
    ensures var read := ParseFigure(FormatMoney(d)); read.Figure? && SameValue(read.value, d)
  {
    var whole, shown := WholeDigits(d), ShownFraction(FractionDigits(d));
    DigitsOf(d);
    ShownIsSame(whole, FractionDigits(d));
    CeilingOfValue(d, Number(whole, shown));
    CommaFiguresRead(whole, shown);
  }
}
