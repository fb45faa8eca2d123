/** Splitting a long message on line boundaries, losing nothing (app/bot/deps.py:270-311). */
module Parts {
  import opened Prelude
  import opened Text

  /** What ends a line for `str.splitlines`. */
  predicate IsBreak(c: char) {
    var code := c as int;
    0x0A <= code <= 0x0D || 0x1C <= code <= 0x1E || code == 0x85 || code == 0x2028 || code == 0x2029
  }

  /** The length of the first line with its ending; a carriage return and a line feed are one ending. */
  function LineLength(text: string): (n: nat)
    requires text != ""
    ensures 1 <= n <= |text|
  {
    if IsBreak(text[0]) then (if text[0] == '\r' && |text| > 1 && text[1] == '\n' then 2 else 1)
    else if |text| == 1 then 1
    else 1 + LineLength(text[1..])
  }

  /** `str.splitlines(keepends=True)` */
  function SplitLines(text: string): seq<string>
    decreases |text|
  {
    if text == "" then [] else [text[..LineLength(text)]] + SplitLines(text[LineLength(text)..])
  }

  function Concat(parts: seq<string>): string {
    if parts == [] then "" else Concat(parts[..|parts| - 1]) + parts[|parts| - 1]
  }

  // ---- the loop ------------------------------------------------------------------

  /** The pieces cut off the front of a line that is too long, and what is left of it. */
  function Chunks(line: string, limit: nat): seq<string>
    requires limit > 0
    decreases |line|
  {
    if |line| <= limit then [] else [line[..limit]] + Chunks(line[limit..], limit)
  }

  function Rest(line: string, limit: nat): (rest: string)
    requires limit > 0
    ensures |rest| <= limit
    decreases |line|
  {
    if |line| <= limit then line else Rest(line[limit..], limit)
  }

  datatype Packing = Packing(parts: seq<string>, current: string)

  function Flush(p: Packing): seq<string> {
    if p.current == "" then p.parts else p.parts + [p.current]
  }

  /** One turn of the outer loop. */
  function AddLine(p: Packing, line: string, limit: nat): Packing
    requires limit > 0
  {
    var q := if |line| > limit then Packing(Flush(p) + Chunks(line, limit), "") else p;
    var rest := Rest(line, limit);
    if |q.current| + |rest| > limit then Packing(q.parts + [q.current], rest) else Packing(q.parts, q.current + rest)
  }

  function Pack(lines: seq<string>, limit: nat): Packing
    requires limit > 0
  {
    if lines == [] then Packing([], "") else AddLine(Pack(lines[..|lines| - 1], limit), lines[|lines| - 1], limit)
  }

  /** The parts before the blank ones are left out. */
  function AllParts(text: string, limit: nat): seq<string>
    requires limit > 0
  {
    if |text| <= limit then [text] else Flush(Pack(SplitLines(text), limit))
  }

  predicate Blank(part: string) {
    Strip(part) == ""
  }

  function NotBlank(parts: seq<string>): seq<string> {
    if parts == [] then []
    else
      var before := NotBlank(parts[..|parts| - 1]);
      if Blank(parts[|parts| - 1]) then before else before + [parts[|parts| - 1]]
  }

  /** A blank part has nothing but spaces in it. */
  lemma BlankIff(part: string)
    ensures Blank(part) <==> forall c :: c in part ==> IsSpace(c)
  {
    var before, after := StripMeans(part);
    if Blank(part) {
      assert part == before + after;
    } else {
      assert Strip(part)[0] in part;
    }
  }

  lemma OneMorePart(parts: seq<string>, part: string)
    ensures NotBlank(parts + [part]) == if Blank(part) then NotBlank(parts) else NotBlank(parts) + [part]
  {
    assert (parts + [part])[..|parts|] == parts;
  }

  lemma {:induction false} KeptIff(parts: seq<string>, part: string)
    ensures part in NotBlank(parts) <==> part in parts && !Blank(part)
  {
    if parts != [] {
      var n := |parts| - 1;
      assert parts == parts[..n] + [parts[n]];
      KeptIff(parts[..n], part);
    }
  }

  /** Each part is kept or left out by itself, and those that are kept stay in order. */
  lemma {:induction false} KeptInOrder(earlier: seq<string>, later: seq<string>)
    ensures NotBlank(earlier + later) == NotBlank(earlier) + NotBlank(later)
    decreases |later|
  {
    if later == [] {
      assert earlier + later == earlier;
    } else {
      var n := |later| - 1;
      KeptInOrder(earlier, later[..n]);
      assert later == later[..n] + [later[n]];
      assert earlier + later == earlier + later[..n] + [later[n]];
      OneMorePart(earlier + later[..n], later[n]);
      OneMorePart(later[..n], later[n]);
    }
  }

  /** The inner loop: a line too long is cut, after what was waiting. */
  method CutLine(long: string, before: Packing, limit: nat) returns (parts: seq<string>, current: string, line: string)
    requires limit > 0
    ensures line == Rest(long, limit)
    ensures Packing(parts, current)
            == if |long| > limit then Packing(Flush(before) + Chunks(long, limit), "") else before
  {
    parts, current, line := before.parts, before.current, long;
    while |line| > limit
      invariant Rest(line, limit) == Rest(long, limit) && |line| <= |long|
      invariant Flush(Packing(parts, current)) + Chunks(line, limit) == Flush(before) + Chunks(long, limit)
      invariant if |line| == |long| then line == long && Packing(parts, current) == before
                else current == "" && |long| > limit
      decreases |line|
    {
      if current != "" {
        parts := parts + [current];
        current := "";
      }
      assert parts + [line[..limit]] + Chunks(line[limit..], limit) == parts + Chunks(line, limit);
      parts := parts + [line[..limit]];
      line := line[limit..];
    }
    assert parts + [] == parts;
  }

  /** A limit of nothing would never end; the program's is 3800. */
  method InParts(text: string, limit: nat) returns (parts: seq<string>)
    requires limit > 0
    ensures parts == if |text| <= limit then [text] else NotBlank(AllParts(text, limit))
  {
    if |text| <= limit {
      return [text];
    }
    var lines := SplitLines(text);
    parts := [];
    var current := "";
    var i := 0;
    while i < |lines|
      invariant 0 <= i <= |lines|
      invariant Packing(parts, current) == Pack(lines[..i], limit)
    {
      assert lines[..i + 1][..i] == lines[..i];
      var line;
      parts, current, line := CutLine(lines[i], Packing(parts, current), limit);
      if |current| + |line| > limit {
        parts := parts + [current];
        current := line;
      } else {
        current := current + line;
      }
      i := i + 1;
    }
    assert lines[..i] == lines;
    if current != "" {
      parts := parts + [current];
    }
    parts := NotBlank(parts);
  }

  // ---- nothing is lost -----------------------------------------------------------------

  lemma ConcatOneMore(parts: seq<string>, part: string)
    ensures Concat(parts + [part]) == Concat(parts) + part
  {
    assert (parts + [part])[..|parts|] == parts;
  }

  lemma {:induction false} ConcatAppend(a: seq<string>, b: seq<string>)
    ensures Concat(a + b) == Concat(a) + Concat(b)
    decreases |b|
  {
    if b == [] {
      assert a + b == a;
    } else {
      var n := |b| - 1;
      assert (a + b)[..|a + b| - 1] == a + b[..n];
      ConcatAppend(a, b[..n]);
    }
  }

  predicate NoneEmpty(lines: seq<string>) {
    forall i :: 0 <= i < |lines| ==> lines[i] != ""
  }

  lemma {:induction false} LinesMakeText(text: string)
    ensures Concat(SplitLines(text)) == text
    ensures NoneEmpty(SplitLines(text))
    decreases |text|
  {
    if text != "" {
      var n := LineLength(text);
      LinesMakeText(text[n..]);
      ConcatAppend([text[..n]], SplitLines(text[n..]));
      assert [text[..n]][..0] == [];
      assert Concat([text[..n]]) == text[..n];
    }
  }

  lemma {:induction false} ChunksMakeLine(line: string, limit: nat)
    requires limit > 0
    ensures Concat(Chunks(line, limit)) + Rest(line, limit) == line
    ensures forall part :: part in Chunks(line, limit) ==> |part| == limit
    decreases |line|
  {
    if |line| > limit {
      ChunksMakeLine(line[limit..], limit);
      ConcatAppend([line[..limit]], Chunks(line[limit..], limit));
      assert [line[..limit]][..0] == [];
      assert Concat([line[..limit]]) == line[..limit];
    }
  }

  lemma FlushMakes(p: Packing)
    ensures Concat(Flush(p)) == Concat(p.parts) + p.current
  {
    ConcatOneMore(p.parts, p.current);
  }

  predicate Within(parts: seq<string>, limit: nat) {
    forall part :: part in parts ==> |part| <= limit
  }

  /** Cutting up a line that is too long keeps what was there and all of the line but the rest. */
  lemma CuttingKeepsAll(p: Packing, line: string, limit: nat)
    requires limit > 0 && Within(p.parts, limit) && |p.current| <= limit
    ensures var parts := Flush(p) + Chunks(line, limit);
            Concat(parts) + Rest(line, limit) == Concat(p.parts) + p.current + line && Within(parts, limit)
  {
    FlushMakes(p);
    ChunksMakeLine(line, limit);
    ConcatAppend(Flush(p), Chunks(line, limit));
    Regrouped(Concat(Flush(p)), Concat(Chunks(line, limit)), Rest(line, limit), line);
  }

  lemma Regrouped(a: string, b: string, c: string, line: string)
    requires b + c == line
    ensures a + b + c == a + line
  {
  }

  lemma PlacingKeepsAll(p: Packing, rest: string, limit: nat)
    requires Within(p.parts, limit) && |p.current| <= limit && |rest| <= limit
    ensures var q := if |p.current| + |rest| > limit then Packing(p.parts + [p.current], rest)
                     else Packing(p.parts, p.current + rest);
            Concat(q.parts) + q.current == Concat(p.parts) + p.current + rest && Within(q.parts, limit)
              && |q.current| <= limit
  {
    ConcatOneMore(p.parts, p.current);
    assert Concat(p.parts) + (p.current + rest) == Concat(p.parts) + p.current + rest;
  }

  lemma AddLineKeepsAll(p: Packing, line: string, limit: nat)
    requires limit > 0 && Within(p.parts, limit) && |p.current| <= limit
    ensures var q := AddLine(p, line, limit);
            && Concat(q.parts) + q.current == Concat(p.parts) + p.current + line
            && Within(q.parts, limit) && |q.current| <= limit
  {
    if |line| > limit {
      CuttingKeepsAll(p, line, limit);
      PlacingKeepsAll(Packing(Flush(p) + Chunks(line, limit), ""), Rest(line, limit), limit);
      assert Concat(Flush(p) + Chunks(line, limit)) + "" == Concat(Flush(p) + Chunks(line, limit));
    } else {
      PlacingKeepsAll(p, line, limit);
    }
  }

  lemma {:induction false} PackKeepsAll(lines: seq<string>, limit: nat)
    requires limit > 0
    ensures var p := Pack(lines, limit);
            Concat(p.parts) + p.current == Concat(lines) && Within(p.parts, limit) && |p.current| <= limit
  {
    if lines != [] {
      PackKeepsAll(lines[..|lines| - 1], limit);
      AddLineKeepsAll(Pack(lines[..|lines| - 1], limit), lines[|lines| - 1], limit);
    }
  }

  /** Put back together, the parts are the text, and each fits. */
  lemma NothingIsLost(text: string, limit: nat)
    requires limit > 0
    ensures Concat(AllParts(text, limit)) == text && Within(AllParts(text, limit), limit)
  {
    if |text| <= limit {
      ConcatOneMore([], text);
      assert [] + [text] == [text];
    } else {
      LinesMakeText(text);
      PackKeepsAll(SplitLines(text), limit);
      FlushMakes(Pack(SplitLines(text), limit));
    }
  }

  // ---- no more parts than it takes ---------------------------------------------------------

  /** No two neighbours would have fitted in one message. */
  ghost predicate NeighboursOverflow(parts: seq<string>, limit: nat) {
    forall j, k :: 0 <= j < k < |parts| && k == j + 1 ==> |parts[j]| + |parts[k]| > limit
  }

  /** Nor would the last part and what is waiting. */
  ghost predicate Full(p: Packing, limit: nat) {
    && NeighboursOverflow(p.parts, limit)
    && (p.parts != [] ==> |p.parts[|p.parts| - 1]| + |p.current| > limit && p.current != "")
  }

  lemma OneMoreOverflows(parts: seq<string>, part: string, limit: nat)
    requires NeighboursOverflow(parts, limit) && (parts != [] ==> |parts[|parts| - 1]| + |part| > limit)
    ensures NeighboursOverflow(parts + [part], limit)
  {
  }

  lemma {:induction false} ChunksOverflow(parts: seq<string>, line: string, limit: nat)
    requires limit > 0 && |line| > limit && NeighboursOverflow(parts, limit)
    requires parts != [] ==> parts[|parts| - 1] != ""
    ensures Full(Packing(parts + Chunks(line, limit), Rest(line, limit)), limit)
    decreases |line|
  {
    var more, left := parts + [line[..limit]], line[limit..];
    OneMoreOverflows(parts, line[..limit], limit);
    assert parts + Chunks(line, limit) == more + Chunks(left, limit);
    if |left| > limit {
      ChunksOverflow(more, left, limit);
    } else {
      assert more + [] == more;
    }
  }

  lemma AddLineStaysFull(p: Packing, line: string, limit: nat)
    requires limit > 0 && line != "" && Full(p, limit)
    ensures Full(AddLine(p, line, limit), limit)
  {
    OneMoreOverflows(p.parts, p.current, limit);
    if |line| > limit {
      ChunksOverflow(Flush(p), line, limit);
      RestIsSome(line, limit);
    }
  }

  lemma {:induction false} RestIsSome(line: string, limit: nat)
    requires limit > 0 && line != ""
    ensures Rest(line, limit) != ""
    decreases |line|
  {
    if |line| > limit {
      RestIsSome(line[limit..], limit);
    }
  }

  lemma {:induction false} PackStaysFull(lines: seq<string>, limit: nat)
    requires limit > 0 && NoneEmpty(lines)
    ensures Full(Pack(lines, limit), limit)
  {
    if lines != [] {
      PackStaysFull(lines[..|lines| - 1], limit);
      AddLineStaysFull(Pack(lines[..|lines| - 1], limit), lines[|lines| - 1], limit);
    }
  }

  /** The split is no finer than it has to be: no two neighbouring parts could have gone as one. */
  lemma NoFinerThanNeeded(text: string, limit: nat)
    requires limit > 0
    ensures NeighboursOverflow(AllParts(text, limit), limit)
  {
    LinesMakeText(text);
    PackStaysFull(SplitLines(text), limit);
    var p := Pack(SplitLines(text), limit);
    OneMoreOverflows(p.parts, p.current, limit);
  }

  // ---- where the cuts fall ----------------------------------------------------------------

  function OffsetOf(lines: seq<string>, j: nat): nat
    requires j <= |lines|
  {
    |Concat(lines[..j])|
  }

  /** At the end of a line, or inside one that is longer than the limit. */
  ghost predicate GoodCut(lines: seq<string>, cut: nat, limit: nat) {
    || (exists j :: 0 <= j <= |lines| && cut == OffsetOf(lines, j))
    || (exists j ::
          0 <= j < |lines| && |lines[j]| > limit && OffsetOf(lines, j) < cut < OffsetOf(lines, j) + |lines[j]|)
  }

  ghost predicate GoodCuts(lines: seq<string>, parts: seq<string>, limit: nat) {
    forall k :: 0 <= k <= |parts| ==> GoodCut(lines, OffsetOf(parts, k), limit)
  }

  lemma GoodCutMoreLines(lines: seq<string>, line: string, cut: nat, limit: nat)
    requires GoodCut(lines, cut, limit)
    ensures GoodCut(lines + [line], cut, limit)
  {
    var more := lines + [line];
    if j :| 0 <= j <= |lines| && cut == OffsetOf(lines, j) {
      assert more[..j] == lines[..j];
      assert cut == OffsetOf(more, j);
    } else {
      var j :| 0 <= j < |lines| && |lines[j]| > limit && OffsetOf(lines, j) < cut < OffsetOf(lines, j) + |lines[j]|;
      assert more[..j] == lines[..j] && more[j] == lines[j];
      assert OffsetOf(more, j) == OffsetOf(lines, j);
    }
  }

  lemma GoodCutsMoreLines(lines: seq<string>, line: string, parts: seq<string>, limit: nat)
    requires GoodCuts(lines, parts, limit)
    ensures GoodCuts(lines + [line], parts, limit)
  {
    forall k | 0 <= k <= |parts| ensures GoodCut(lines + [line], OffsetOf(parts, k), limit) {
      GoodCutMoreLines(lines, line, OffsetOf(parts, k), limit);
    }
  }

  /** One more part, whose end is a good cut too. */
  lemma GoodCutsMoreParts(lines: seq<string>, parts: seq<string>, part: string, limit: nat)
    requires GoodCuts(lines, parts, limit) && GoodCut(lines, |Concat(parts)| + |part|, limit)
    ensures GoodCuts(lines, parts + [part], limit)
  {
    var more := parts + [part];
    ConcatOneMore(parts, part);
    forall k | 0 <= k <= |more| ensures GoodCut(lines, OffsetOf(more, k), limit) {
      if k <= |parts| {
        assert more[..k] == parts[..k];
        assert GoodCut(lines, OffsetOf(parts, k), limit);
      } else {
        assert more[..k] == more;
      }
    }
  }

  lemma EndOfLines(lines: seq<string>, limit: nat)
    ensures GoodCut(lines, |Concat(lines)|, limit)
  {
    assert lines[..|lines|] == lines;
    assert |Concat(lines)| == OffsetOf(lines, |lines|);
  }

  /** The pieces of the last line, `done` characters of which have been cut off already. */
  lemma {:induction false} GoodCutsInLine(lines: seq<string>, line: string, done: nat, parts: seq<string>, limit: nat)
    requires limit > 0 && |line| > limit && done <= |line|
    requires GoodCuts(lines + [line], parts, limit) && |Concat(parts)| == |Concat(lines)| + done
    ensures GoodCuts(lines + [line], parts + Chunks(line[done..], limit), limit)
    decreases |line| - done
  {
    var left := line[done..];
    if |left| > limit {
      var more := lines + [line];
      assert more[..|lines|] == lines && OffsetOf(more, |lines|) == |Concat(lines)|;
      assert more[|lines|] == line;
      assert GoodCut(more, |Concat(parts)| + limit, limit);
      GoodCutsMoreParts(more, parts, left[..limit], limit);
      ConcatOneMore(parts, left[..limit]);
      assert left[limit..] == line[done + limit..];
      GoodCutsInLine(lines, line, done + limit, parts + [left[..limit]], limit);
      assert parts + Chunks(left, limit) == parts + [left[..limit]] + Chunks(line[done + limit..], limit);
    } else {
      assert parts + [] == parts;
    }
  }

  lemma AddLineCutsWell(lines: seq<string>, line: string, p: Packing, limit: nat)
    requires limit > 0 && GoodCuts(lines, p.parts, limit) && Concat(p.parts) + p.current == Concat(lines)
    requires |p.current| <= limit && Within(p.parts, limit)
    ensures GoodCuts(lines + [line], AddLine(p, line, limit).parts, limit)
  {
    EndOfLines(lines, limit);
    if p.current != "" {
      GoodCutsMoreParts(lines, p.parts, p.current, limit);
    }
    GoodCutsMoreLines(lines, line, p.parts, limit);
    GoodCutsMoreLines(lines, line, Flush(p), limit);
    FlushMakes(p);
    if |line| > limit {
      assert line[0..] == line;
      GoodCutsInLine(lines, line, 0, Flush(p), limit);
    } else if |p.current| + |line| > limit {
      assert p.current != "";
    }
  }

  lemma {:induction false} PackCutsWell(lines: seq<string>, limit: nat)
    requires limit > 0
    ensures GoodCuts(lines, Pack(lines, limit).parts, limit)
  {
    if lines == [] {
      assert GoodCut([], OffsetOf([], 0), limit) by {
        EndOfLines([], limit);
      }
    } else {
      var n := |lines| - 1;
      PackCutsWell(lines[..n], limit);
      PackKeepsAll(lines[..n], limit);
      AddLineCutsWell(lines[..n], lines[n], Pack(lines[..n], limit), limit);
      assert lines == lines[..n] + [lines[n]];
    }
  }

  /** Every cut is at the end of a line of the text, or inside a line no message could hold. */
  lemma CutsAreAtLineEnds(text: string, limit: nat)
    requires limit > 0
    ensures GoodCuts(SplitLines(text), AllParts(text, limit), limit)
  {
    var lines := SplitLines(text);
    LinesMakeText(text);
    EndOfLines(lines, limit);
    if |text| <= limit {
      assert lines[..0] == [];
      assert OffsetOf(lines, 0) == 0;
      assert GoodCuts(lines, [], limit);
      GoodCutsMoreParts(lines, [], text, limit);
      assert [] + [text] == [text];
    } else {
      PackCutsWell(lines, limit);
      PackKeepsAll(lines, limit);
      GoodCutsMoreParts(lines, Pack(lines, limit).parts, Pack(lines, limit).current, limit);
    }
  }

  // ---- and the lines are lines ---------------------------------------------------------------

  predicate EndsInBoth(line: string) {
    |line| >= 2 && line[|line| - 2] == '\r' && line[|line| - 1] == '\n'
  }

  /** No ending but at the end. */
  predicate IsLine(line: string) {
    line != "" && forall i :: 0 <= i < |line| - 1 && IsBreak(line[i]) ==> i == |line| - 2 && EndsInBoth(line)
  }

  lemma IsLineAfter(c: char, line: string)
    requires !IsBreak(c) && IsLine(line)
    ensures IsLine([c] + line)
  {
    var longer := [c] + line;
    forall i | 0 <= i < |longer| - 1 && IsBreak(longer[i]) ensures i == |longer| - 2 && EndsInBoth(longer) {
      assert IsBreak(line[i - 1]);
    }
  }

  lemma {:induction false} FirstLineIsLine(text: string)
    requires text != ""
    ensures IsLine(text[..LineLength(text)])
    ensures LineLength(text) < |text| ==> IsBreak(text[LineLength(text) - 1])
  {
    if !IsBreak(text[0]) && |text| > 1 {
      FirstLineIsLine(text[1..]);
      var n := LineLength(text);
      assert text[..n] == [text[0]] + text[1..][..n - 1];
      assert text[n - 1] == text[1..][n - 2];
      IsLineAfter(text[0], text[1..][..n - 1]);
    }
  }

  lemma {:induction false} LinesAreLines(text: string, i: nat)
    requires i < |SplitLines(text)|
    ensures var lines := SplitLines(text);
            IsLine(lines[i]) && (i + 1 < |lines| ==> IsBreak(lines[i][|lines[i]| - 1]))
    decreases |text|
  {
    FirstLineIsLine(text);
    var n := LineLength(text);
    if i > 0 {
      LinesAreLines(text[n..], i - 1);
    } else if n == |text| {
      assert text[n..] == "";
    }
  }
}
