/**
 A pasted block, line by line: nothing dropped, and every figure it promises
 works out (app/domain/settlement_text.py:86-122, 221-367).
 */
module SettlementLines {
  import opened Prelude
  import opened Text
  import opened Figures
  import opened SettlementText
  import FxOrders
  import Ledger

  /** What the line pattern finds in a text; the matching itself is taken as given. */
  datatype Shape = Shape(tag: string, local: string, rate: string, usdt: Option<string>, account: Option<string>)

  datatype ParsedLine = ParsedLine(tag: string, localAmount: Dec, rate: Dec, statedUsdt: Option<Dec>,
                                   account: Option<string>)

  datatype LineFault = BadFigure(why: Fault) | DividesByNothing | DoesNotWorkOut

  datatype LineRead = NotALine | Unreadable(fault: LineFault) | Readable(line: ParsedLine)

  /** A line of the desk's own: shaped like one, and labelled with a country or a currency. */
  predicate OwnLine(shape: Option<Shape>, countries: map<string, string>) {
    shape.Some? && (var tag := Upper(shape.value.tag); tag in countries || tag in countries.Values)
  }

  /** `local / rate >= CEILING` */
  predicate QuotientTooMuch(local: Dec, rate: Dec) {
    local.units * Pow10(rate.places) >= Pow10(CEILING_PLACES) * (rate.units * Pow10(local.places))
  }

  /** Both figures can be read, something is divided by, and it comes to no more than money can. */
  predicate MakesSense(shape: Shape) {
    var local, rate := ParseFigure(shape.local), ParseFigure(shape.rate);
    local.Figure? && rate.Figure? && rate.value.units > 0 && !QuotientTooMuch(local.value, rate.value)
  }

  predicate SaysWhatIsThere(line: ParsedLine, shape: Shape) {
    && line.tag == Upper(shape.tag) && line.account == shape.account
    && ParseFigure(shape.local) == Figure(line.localAmount) && ParseFigure(shape.rate) == Figure(line.rate)
    && (line.statedUsdt.Some? <==> FxOrders.Given(shape.usdt) && ParseFigure(shape.usdt.value).Figure?)
    && (line.statedUsdt.Some? ==> ParseFigure(shape.usdt.value) == Figure(line.statedUsdt.value))
  }

  function ParseLine(shape: Option<Shape>, countries: map<string, string>): (read: LineRead)
    ensures read.NotALine? <==> !OwnLine(shape, countries)
    ensures read.Readable? <==> OwnLine(shape, countries) && MakesSense(shape.value)
    ensures read.Readable? ==> WorksOut(read.line) && SaysWhatIsThere(read.line, shape.value)
  {
    if OwnLine(shape, countries) then ReadOwn(shape.value) else NotALine
  }

  /** What the rest of the program relies on: if there is a parsed line, its arithmetic works. */
  predicate WorksOut(line: ParsedLine) {
    line.rate.units > 0 && !QuotientTooMuch(line.localAmount, line.rate)
  }

  function ReadOwn(shape: Shape): (read: LineRead)
    ensures !read.NotALine?
    ensures read.Readable? ==> WorksOut(read.line)
  {
    Assemble(shape, ParseFigure(shape.local), ParseFigure(shape.rate), Stated(shape.usdt))
  }

  /** The two figures, and what they come to together. */
  function Assemble(shape: Shape, local: Read, rate: Read, stated: Option<Dec>): (read: LineRead)
    ensures !read.NotALine?
    ensures read.Readable? ==> WorksOut(read.line)
  {
    if local.Refused? then Unreadable(BadFigure(local.why))
    else if rate.Refused? then Unreadable(BadFigure(rate.why))
    else if rate.value.units == 0 then Unreadable(DividesByNothing)
    else if QuotientTooMuch(local.value, rate.value) then Unreadable(DoesNotWorkOut)
    else Readable(ParsedLine(Upper(shape.tag), local.value, rate.value, stated, shape.account))
  }

  /** What the desk made it, if they said and it can be read. */
  function Stated(usdt: Option<string>): Option<Dec> {
    if FxOrders.Given(usdt) && ParseFigure(usdt.value).Figure? then Some(ParseFigure(usdt.value).value) else None
  }

  datatype BlockRead = Block(lines: seq<ParsedLine>) | NoLines | Failed(fault: LineFault)

  /** The comprehension of `parse`: lines in order, stopped by the first unreadable one. */
  function Collect(answers: seq<LineRead>): (r: BlockRead)
    ensures !r.NoLines?
  {
    if answers == [] then Block([])
    else
      var before := Collect(answers[..|answers| - 1]);
      var last := answers[|answers| - 1];
      if before.Failed? || last.NotALine? then before
      else if last.Unreadable? then Failed(last.fault)
      else Block(before.lines + [last.line])
  }

  function Parse(shapes: seq<Option<Shape>>, countries: map<string, string>): BlockRead {
    var read := Collect(Reads(shapes, countries));
    if read == Block([]) then NoLines else read
  }

  function Reads(shapes: seq<Option<Shape>>, countries: map<string, string>): seq<LineRead> {
    seq(|shapes|, i requires 0 <= i < |shapes| => ParseLine(shapes[i], countries))
  }

  /** How many of the first `k` are lines at all. */
  function LinesBefore(answers: seq<LineRead>, k: nat): nat
    requires k <= |answers|
  {
    if k == 0 then 0 else LinesBefore(answers, k - 1) + if answers[k - 1].NotALine? then 0 else 1
  }

  predicate AllReadable(answers: seq<LineRead>) {
    forall i :: 0 <= i < |answers| ==> !answers[i].Unreadable?
  }

  /** A line has its place in the result, after those before it, and is what was read there. */
  predicate ThereAt(answers: seq<LineRead>, lines: seq<ParsedLine>, i: nat)
    requires i < |answers|
  {
    var place := LinesBefore(answers, i);
    answers[i].NotALine? || (place < |lines| && answers[i] == Readable(lines[place]))
  }

  ghost predicate AllThere(answers: seq<LineRead>, lines: seq<ParsedLine>) {
    |lines| == LinesBefore(answers, |answers|) && forall i :: 0 <= i < |answers| ==> ThereAt(answers, lines, i)
  }

  lemma {:induction false} LinesBeforePrefix(answers: seq<LineRead>, more: seq<LineRead>, k: nat)
    requires k <= |answers|
    ensures LinesBefore(answers + more, k) == LinesBefore(answers, k)
  {
    if k > 0 {
      LinesBeforePrefix(answers, more, k - 1);
    }
  }

  lemma {:induction false} CollectedAllThere(answers: seq<LineRead>)
    ensures Collect(answers).Block? <==> AllReadable(answers)
    ensures Collect(answers).Block? ==> AllThere(answers, Collect(answers).lines)
  {
    if answers != [] {
      var n := |answers| - 1;
      var rest, last := answers[..n], answers[n];
      CollectedAllThere(rest);
      assert answers == rest + [last];
      assert AllReadable(answers) <==> AllReadable(rest) && !last.Unreadable?;
      if AllReadable(answers) {
        OneMoreThere(rest, last, Collect(rest).lines, Collect(answers).lines);
      }
    }
  }

  lemma OneMoreThere(rest: seq<LineRead>, last: LineRead, before: seq<ParsedLine>, after: seq<ParsedLine>)
    requires AllThere(rest, before) && !last.Unreadable?
    requires after == if last.NotALine? then before else before + [last.line]
    ensures AllThere(rest + [last], after)
  {
    var all, n := rest + [last], |rest|;
    LinesBeforePrefix(rest, [last], n);
    forall i | 0 <= i < |all| ensures ThereAt(all, after, i) {
      if i < n {
        LinesBeforePrefix(rest, [last], i);
        assert ThereAt(rest, before, i);
      }
    }
  }

  lemma {:induction false} NoLinesMeans(answers: seq<LineRead>)
    ensures LinesBefore(answers, |answers|) == 0 <==> forall i :: 0 <= i < |answers| ==> answers[i].NotALine?
  {
    if answers != [] {
      var n := |answers| - 1;
      NoLinesMeans(answers[..n]);
      LinesBeforePrefix(answers[..n], [answers[n]], n);
      assert answers == answers[..n] + [answers[n]];
      assert forall i :: 0 <= i < n ==> answers[..n][i] == answers[i];
    }
  }

  /**
   Nothing is dropped in silence: a block is read exactly when it has a line of
   the desk's own and every such line is readable, and then every one of them is
   there, in order.
   */
  lemma NothingIsDropped(shapes: seq<Option<Shape>>, countries: map<string, string>)
    ensures var answers, read := Reads(shapes, countries), Parse(shapes, countries);
            && (read.NoLines? <==> forall i :: 0 <= i < |shapes| ==> !OwnLine(shapes[i], countries))
            && (read.Block? <==> AllReadable(answers) && !read.NoLines?)
            && (read.Block? ==> AllThere(answers, read.lines))
  {
    var answers := Reads(shapes, countries);
    CollectedAllThere(answers);
    NoLinesMeans(answers);
    assert forall i :: 0 <= i < |shapes| ==> (answers[i].NotALine? <==> !OwnLine(shapes[i], countries));
  }

  // ---- what a line comes to ----------------------------------------------------------------------

  /** `computed_usdt`, in micro-USDT. */
  function ComputedUsdt(line: ParsedLine): int
    requires line.rate.units > 0
  {
    Ledger.RoundHalfUp(Numerator(line), Denominator(line))
  }

  function Numerator(line: ParsedLine): nat {
    line.localAmount.units * Pow10(line.rate.places) * Ledger.MICRO
  }

  function Denominator(line: ParsedLine): (d: nat)
    ensures line.rate.units > 0 ==> d > 0
  {
    line.rate.units * Pow10(line.localAmount.places)
  }

  /** The nearest micro-USDT to the quotient, a tie going up. */
  lemma ComputedIsNearest(line: ParsedLine)
    requires line.rate.units > 0
    ensures var d: int := Denominator(line);
            -d < 2 * (ComputedUsdt(line) * d - Numerator(line)) <= d
  {
    Ledger.RoundHalfUpIsNearest(Numerator(line), Denominator(line));
  }

  /** A line that was read comes to a figure, and one within the ceiling. */
  lemma ReadableWorksOut(line: ParsedLine)
    requires line.rate.units > 0 && WorksOut(line)
    ensures 0 <= ComputedUsdt(line) <= Pow10(CEILING_PLACES) * Ledger.MICRO
  {
    BelowCeiling(line.localAmount.units * Pow10(line.rate.places), Pow10(CEILING_PLACES), Denominator(line),
                 Ledger.MICRO);
    RoundedBelow(Numerator(line), Denominator(line), Pow10(CEILING_PLACES) * Ledger.MICRO);
  }

  lemma BelowCeiling(n: nat, ceiling: nat, d: nat, k: nat)
    requires n < ceiling * d && k > 0
    ensures n * k < ceiling * k * d
  {
    MultipliedStrictly(n, ceiling * d, k);
    assert (ceiling * d) * k == ceiling * k * d;
  }

  lemma RoundedBelow(n: nat, d: nat, limit: nat)
    requires d > 0 && n < limit * d
    ensures 0 <= Ledger.RoundHalfUp(n, d) <= limit
  {
    assert 2 * n + d < (2 * limit + 1) * d;
    assert (2 * limit + 1) * d <= (limit + 1) * (2 * d);
    QuotientBelow(2 * n + d, 2 * d, limit + 1);
  }

  lemma QuotientBelow(n: nat, d: nat, limit: nat)
    requires d > 0 && n < limit * d
    ensures 0 <= n / d < limit
  {
    var q := n / d;
    assert n == q * d + n % d;
    if q >= limit {
      Multiplied(limit, q, d);
      assert false;
    }
  }

  /** A decimal that is exactly this many units of the ledger's money. */
  predicate IsMoney(d: Dec, m: nat) {
    d.units * Pow10(10) == m * Pow10(d.places)
  }

  /** Rounding depends on the ratio alone. */
  lemma RatioDecides(n: nat, d: nat, n': nat, d': nat)
    requires d > 0 && d' > 0 && n * d' == n' * d
    ensures Ledger.RoundHalfUp(n, d) <= Ledger.RoundHalfUp(n', d')
  {
    var r, r' := Ledger.RoundHalfUp(n, d), Ledger.RoundHalfUp(n', d');
    Ledger.RoundHalfUpIsNearest(n, d);
    Ledger.RoundHalfUpIsNearest(n', d');
    if r > r' {
      // 2 n >= (2 r - 1) d and 2 n' < (2 r' + 1) d'
      assert (2 * r - 1) * d <= 2 * n;
      assert 2 * n' < (2 * r' + 1) * d';
      CrossMultiplied(2 * r - 1, d, 2 * n, d');
      CrossStrictly(2 * n', 2 * r' + 1, d', d);
      assert 2 * n * d' == 2 * n' * d;
      assert (2 * r - 1) * d * d' < (2 * r' + 1) * d' * d;
      Cancel(2 * r - 1, 2 * r' + 1, d, d');
      assert false;
    }
  }

  lemma CrossMultiplied(a: int, d: nat, n: int, k: nat)
    requires a * d <= n
    ensures a * d * k <= n * k
  {
  }

  lemma CrossStrictly(n: int, a: int, d: nat, k: nat)
    requires n < a * d && k > 0
    ensures n * k < a * d * k
  {
  }

  lemma Cancel(a: int, b: int, d: nat, k: nat)
    requires d > 0 && k > 0 && a * d * k < b * k * d
    ensures a < b
  {
    var e := d * k;
    assert e > 0 && a * e < b * e by {
      assert a * d * k == a * (d * k) && b * k * d == b * (d * k);
    }
    assert (b - a) * e > 0;
  }

  /** The figure previewed from the text is the figure the ledger will record. */
  lemma PreviewIsLedger(line: ParsedLine, localAmount: nat, rate: nat)
    requires line.rate.units > 0 && rate > 0 && IsMoney(line.localAmount, localAmount) && IsMoney(line.rate, rate)
    ensures ComputedUsdt(line) == Ledger.Usdt(localAmount, rate)
  {
    SameRatio(line.localAmount, line.rate, localAmount, rate);
    var n, d := Numerator(line), Denominator(line);
    RatioDecides(n, d, localAmount * Ledger.MICRO, rate);
    RatioDecides(localAmount * Ledger.MICRO, rate, n, d);
  }

  lemma SameRatio(local: Dec, rate: Dec, localAmount: nat, rateAmount: nat)
    requires IsMoney(local, localAmount) && IsMoney(rate, rateAmount)
    ensures local.units * Pow10(rate.places) * Ledger.MICRO * rateAmount
         == localAmount * Ledger.MICRO * (rate.units * Pow10(local.places))
  {
    var t := Pow10(10);
    var pl, pr := Pow10(local.places), Pow10(rate.places);
    // lu t = a pl and ru t = r pr, so (lu t)(r pr) = (a pl)(ru t)
    calc {
      local.units * pr * rateAmount * t;
      (local.units * t) * (rateAmount * pr);
      (localAmount * pl) * (rate.units * t);
      localAmount * (rate.units * pl) * t;
    }
    CancelEqual(local.units * pr * rateAmount, localAmount * (rate.units * pl), t);
    assert local.units * pr * Ledger.MICRO * rateAmount == (local.units * pr * rateAmount) * Ledger.MICRO;
    assert localAmount * Ledger.MICRO * (rate.units * pl) == (localAmount * (rate.units * pl)) * Ledger.MICRO;
  }

  lemma CancelEqual(a: int, b: int, k: nat)
    requires k > 0 && a * k == b * k
    ensures a == b
  {
    assert (a - b) * k == 0;
  }
}
