/**
 When the order of a pasted block's lines matters (app/domain/settlement.py:343-404):
 a class that an account narrows, taken on its own.
 */
module MatchingTwins {
  import opened Prelude
  import opened FxOrders
  import opened Matching

  /** Lines and deals compete only within one currency and local amount. */
  datatype Class = Class(currency: string, amount: Money)

  predicate InClass(line: PastedLine, c: Class) {
    line.currency == Some(c.currency) && line.localAmount == c.amount
  }

  function Deals(orders: seq<Order>, c: Class): seq<Order> {
    Fits(orders, {}, c.currency, c.amount)
  }

  function Names(deals: seq<Order>): set<nat> {
    set o | o in deals :: o.reference
  }

  /** The deals a class holds that no line has claimed. */
  function Left(deals: seq<Order>, taken: set<nat>): (left: seq<Order>)
    ensures forall o :: o in left <==> o in deals && o.reference !in taken
  {
    if deals == [] then []
    else
      var n := |deals| - 1;
      var before := Left(deals[..n], taken);
      assert deals == deals[..n] + [deals[n]];
      if deals[n].reference in taken then before else before + [deals[n]]
  }

  lemma {:induction false} FitsAreLeft(orders: seq<Order>, taken: set<nat>, c: Class)
    ensures Fits(orders, taken, c.currency, c.amount) == Left(Deals(orders, c), taken)
  {
    if orders != [] {
      var n := |orders| - 1;
      FitsAreLeft(orders[..n], taken, c);
      var before := Deals(orders[..n], c);
      assert (before + [orders[n]])[..|before|] == before;
    }
  }

  lemma {:induction false} LeftOnlyOwn(deals: seq<Order>, taken: set<nat>, own: set<nat>)
    requires forall o :: o in deals ==> (o.reference in taken <==> o.reference in own)
    ensures Left(deals, taken) == Left(deals, own)
  {
    if deals != [] {
      var n := |deals| - 1;
      assert deals[n] in deals;
      LeftOnlyOwn(deals[..n], taken, own);
    }
  }

  // ---- one class, as if the rest of the block were not there ------------------------------

  function Claim(v: Verdict): set<nat> {
    if v.Found? then {v.order} else {}
  }

  /** What the lines of one class claim of its deals. */
  function Claimed(deals: seq<Order>, lines: seq<PastedLine>, accounts: Accounts, c: Class): set<nat> {
    if lines == [] then {}
    else
      var n := |lines| - 1;
      var before := Claimed(deals, lines[..n], accounts, c);
      if InClass(lines[n], c) then before + Claim(Decide(Narrow(Left(deals, before), lines[n], accounts))) else before
  }

  /** Classes do not meet: what a block claims of a class is what the class claims on its own. */
  lemma {:induction false} ClassOnItsOwn(orders: seq<Order>, lines: seq<PastedLine>, accounts: Accounts, c: Class)
    requires DistinctReferences(orders)
    ensures Taken(Verdicts(orders, lines, accounts)) * Names(Deals(orders, c))
         == Claimed(Deals(orders, c), lines, accounts, c)
  {
    if lines != [] {
      var n := |lines| - 1;
      ClassOnItsOwn(orders, lines[..n], accounts, c);
      var before := Verdicts(orders, lines[..n], accounts);
      var v := Judge(orders, Taken(before), lines[n], accounts);
      TakenOneMore(before, v);
      if InClass(lines[n], c) {
        InsideVerdict(orders, Taken(before), lines[n], accounts, c);
      } else {
        OutsideVerdict(orders, Taken(before), lines[n], accounts, c);
      }
    }
  }

  lemma InsideVerdict(orders: seq<Order>, taken: set<nat>, line: PastedLine, accounts: Accounts, c: Class)
    requires InClass(line, c)
    ensures var own := taken * Names(Deals(orders, c));
            var v := Judge(orders, taken, line, accounts);
            && v == Decide(Narrow(Left(Deals(orders, c), own), line, accounts))
            && (v.Found? ==> v.order in Names(Deals(orders, c)))
  {
    var deals := Deals(orders, c);
    FitsAreLeft(orders, taken, c);
    LeftOnlyOwn(deals, taken, taken * Names(deals));
    var narrowed := Narrow(Left(deals, taken), line, accounts);
    assert narrowed != [] ==> narrowed[0] in narrowed;
  }

  lemma OutsideVerdict(orders: seq<Order>, taken: set<nat>, line: PastedLine, accounts: Accounts, c: Class)
    requires DistinctReferences(orders) && !InClass(line, c)
    ensures var v := Judge(orders, taken, line, accounts); v.Found? ==> v.order !in Names(Deals(orders, c))
  {
    var v := Judge(orders, taken, line, accounts);
    if v.Found? {
      var narrowed := Narrow(Fits(orders, taken, line.currency.value, line.localAmount), line, accounts);
      assert narrowed[0] in narrowed;
      forall o | o in Deals(orders, c) ensures o.reference != v.order {
        if o.reference == v.order {
          SameReference(orders, o, narrowed[0]);
          assert false;
        }
      }
    }
  }

  // ---- a class nothing narrows ----------------------------------------------------------------

  lemma {:induction false} UnnarrowedClass(deals: seq<Order>, lines: seq<PastedLine>, accounts: Accounts, c: Class)
    requires forall line :: line in lines && InClass(line, c) ==> Narrow(deals, line, accounts) == deals
    ensures Claimed(deals, lines, accounts, c)
         == if |deals| == 1 && (exists line :: line in lines && InClass(line, c)) then {deals[0].reference} else {}
  {
    if lines != [] {
      var n := |lines| - 1;
      UnnarrowedClass(deals, lines[..n], accounts, c);
      assert lines == lines[..n] + [lines[n]];
      assert lines[n] in lines;
      assert forall line :: line in lines <==> line in lines[..n] || line == lines[n];
      if Claimed(deals, lines[..n], accounts, c) == {} {
        LeftAll(deals);
      } else {
        assert Left(deals, {deals[0].reference}) == [] by {
          assert deals == [deals[0]];
        }
      }
    }
  }

  lemma {:induction false} LeftAll(deals: seq<Order>)
    ensures Left(deals, {}) == deals
  {
    if deals != [] {
      LeftAll(deals[..|deals| - 1]);
    }
  }

  // ---- a class of two deals -------------------------------------------------------------------

  /** A line of the class whose account leaves one of its deals standing. */
  predicate Picks(deals: seq<Order>, line: PastedLine, accounts: Accounts, c: Class) {
    InClass(line, c) && |Narrow(deals, line, accounts)| == 1
  }

  function Pick(deals: seq<Order>, line: PastedLine, accounts: Accounts): nat
    requires deals != []
  {
    Narrow(deals, line, accounts)[0].reference
  }

  predicate Twins(deals: seq<Order>) {
    |deals| == 2 && deals[0].reference != deals[1].reference
  }

  ghost predicate PickedThenAnother(deals: seq<Order>, lines: seq<PastedLine>, accounts: Accounts, c: Class) {
    exists i, j :: 0 <= i < j < |lines| && Picks(deals, lines[i], accounts, c) && InClass(lines[j], c)
  }

  lemma LeftOfTwins(deals: seq<Order>, taken: set<nat>)
    requires Twins(deals)
    ensures Left(deals, taken)
         == (if deals[0].reference in taken then [] else [deals[0]])
            + (if deals[1].reference in taken then [] else [deals[1]])
  {
    assert deals[..1] == [deals[0]];
    assert Left([deals[0]], taken) == if deals[0].reference in taken then [] else [deals[0]] by {
      assert [deals[0]][..0] == [];
    }
  }

  ghost predicate SomePicks(deals: seq<Order>, lines: seq<PastedLine>, accounts: Accounts, c: Class) {
    exists line :: line in lines && Picks(deals, line, accounts, c)
  }

  /** What one more line of the class adds to what is claimed. */
  lemma TwinsClaimOneMore(deals: seq<Order>, claimed: set<nat>, line: PastedLine, accounts: Accounts, c: Class)
    requires Twins(deals) && claimed <= {deals[0].reference, deals[1].reference} && InClass(line, c)
    ensures var more := Claim(Decide(Narrow(Left(deals, claimed), line, accounts)));
            && (claimed == {} ==> more == if Picks(deals, line, accounts, c) then {Pick(deals, line, accounts)} else {})
            && (claimed != {} ==> claimed + more == {deals[0].reference, deals[1].reference})
            && (Picks(deals, line, accounts, c) ==> Pick(deals, line, accounts) in Names(deals))
  {
    NarrowTwins(deals, line, accounts);
    if claimed == {} {
      LeftAll(deals);
    } else {
      SecondIsClaimed(deals, claimed, line, accounts);
    }
  }

  /** With one of the two claimed, any line finds the other alone, and no account narrows that away. */
  lemma SecondIsClaimed(deals: seq<Order>, claimed: set<nat>, line: PastedLine, accounts: Accounts)
    requires Twins(deals) && claimed <= {deals[0].reference, deals[1].reference} && claimed != {}
    ensures claimed + Claim(Decide(Narrow(Left(deals, claimed), line, accounts)))
         == {deals[0].reference, deals[1].reference}
  {
    LeftOfTwins(deals, claimed);
    if deals[0].reference in claimed && deals[1].reference in claimed {
      assert Left(deals, claimed) == [];
    } else {
      var other := if deals[0].reference in claimed then deals[1] else deals[0];
      assert Left(deals, claimed) == [other];
      assert Decide([other]) == Found(other.reference);
    }
  }

  /**
   Of two like deals: a line whose account picks one claims that one, and any
   line of the class after it claims the other. Before that nothing is claimed.
   */
  lemma {:induction false} TwinsClaimed(deals: seq<Order>, lines: seq<PastedLine>, accounts: Accounts, c: Class)
    requires Twins(deals)
    ensures var claimed := Claimed(deals, lines, accounts, c);
            && claimed <= {deals[0].reference, deals[1].reference}
            && (claimed == {} <==> !SomePicks(deals, lines, accounts, c))
            && (claimed == {deals[0].reference, deals[1].reference} <==> PickedThenAnother(deals, lines, accounts, c))
  {
    if lines != [] {
      var n := |lines| - 1;
      var before, line := Claimed(deals, lines[..n], accounts, c), lines[n];
      TwinsClaimed(deals, lines[..n], accounts, c);
      assert lines == lines[..n] + [line];
      SomeOneMore(deals, lines[..n], line, accounts, c);
      PickedOneMore(deals, lines[..n], line, accounts, c);
      if InClass(line, c) {
        TwinsClaimOneMore(deals, before, line, accounts, c);
      }
    }
  }

  /** One of the two claimed and not the other: the one some line picked. */
  lemma {:induction false} PickIsClaimed(deals: seq<Order>, lines: seq<PastedLine>, accounts: Accounts, c: Class,
                                         r: nat)
    requires Twins(deals) && Claimed(deals, lines, accounts, c) == {r}
    ensures exists line :: line in lines && Picks(deals, line, accounts, c) && Pick(deals, line, accounts) == r
  {
    var n := |lines| - 1;
    var before, line := Claimed(deals, lines[..n], accounts, c), lines[n];
    TwinsClaimed(deals, lines[..n], accounts, c);
    if before == {r} {
      PickIsClaimed(deals, lines[..n], accounts, c, r);
    } else {
      TwinsClaimOneMore(deals, before, line, accounts, c);
      assert line in lines;
    }
  }

  lemma SomeOneMore(deals: seq<Order>, lines: seq<PastedLine>, line: PastedLine, accounts: Accounts, c: Class)
    ensures SomePicks(deals, lines + [line], accounts, c)
       <==> SomePicks(deals, lines, accounts, c) || Picks(deals, line, accounts, c)
  {
    assert forall l :: l in lines + [line] <==> l in lines || l == line;
  }

  lemma NarrowTwins(deals: seq<Order>, line: PastedLine, accounts: Accounts)
    requires Twins(deals)
    ensures var narrowed := Narrow(deals, line, accounts);
            narrowed == deals || narrowed == [deals[0]] || narrowed == [deals[1]]
  {
    var code := FirstSupplierCode(deals);
    if Given(line.account) && code.Some? {
      var clients := accounts(code.value, line.account.value);
      assert deals[1..] == [deals[1]] && [deals[1]][1..] == [];
      assert OfClients([deals[1]], clients) == if deals[1].clientId in clients then [deals[1]] else [];
      assert deals == [deals[0], deals[1]];
    }
  }

  lemma PickedOneMore(deals: seq<Order>, lines: seq<PastedLine>, line: PastedLine, accounts: Accounts, c: Class)
    ensures PickedThenAnother(deals, lines + [line], accounts, c)
       <==> || PickedThenAnother(deals, lines, accounts, c)
            || (InClass(line, c) && SomePicks(deals, lines, accounts, c))
  {
    var all := lines + [line];
    if PickedThenAnother(deals, lines, accounts, c) {
      var i, j :| 0 <= i < j < |lines| && Picks(deals, lines[i], accounts, c) && InClass(lines[j], c);
      assert all[i] == lines[i] && all[j] == lines[j];
    }
    if InClass(line, c) && SomePicks(deals, lines, accounts, c) {
      var l :| l in lines && Picks(deals, l, accounts, c);
      var i :| 0 <= i < |lines| && lines[i] == l;
      assert all[i] == l && all[|lines|] == line;
    }
    if PickedThenAnother(deals, all, accounts, c) {
      var i, j :| 0 <= i < j < |all| && Picks(deals, all[i], accounts, c) && InClass(all[j], c);
      assert all[i] in lines;
    }
  }

  // ---- counting, whatever the order ---------------------------------------------------------------

  function Count(lines: seq<PastedLine>, counts: PastedLine -> bool): nat {
    if lines == [] then 0
    else Count(lines[..|lines| - 1], counts) + if counts(lines[|lines| - 1]) then 1 else 0
  }

  lemma {:induction false} CountConcat(a: seq<PastedLine>, b: seq<PastedLine>, counts: PastedLine -> bool)
    ensures Count(a + b, counts) == Count(a, counts) + Count(b, counts)
  {
    if b == [] {
      assert a + b == a;
    } else {
      var n := |b| - 1;
      CountConcat(a, b[..n], counts);
      assert (a + b)[..|a| + n] == a + b[..n];
    }
  }

  lemma CountAround(lines: seq<PastedLine>, k: nat, counts: PastedLine -> bool)
    requires k < |lines|
    ensures var rest := lines[..k] + lines[k + 1..];
            && multiset(lines) == multiset(rest) + multiset{lines[k]}
            && Count(lines, counts) == Count(rest, counts) + if counts(lines[k]) then 1 else 0
  {
    assert lines == lines[..k] + [lines[k]] + lines[k + 1..];
    CountConcat(lines[..k] + [lines[k]], lines[k + 1..], counts);
    CountConcat(lines[..k], [lines[k]], counts);
    CountConcat(lines[..k], lines[k + 1..], counts);
    assert [lines[k]][..0] == [];
    assert Count([lines[k]], counts) == if counts(lines[k]) then 1 else 0;
  }

  lemma {:induction false} CountShuffled(lines: seq<PastedLine>, shuffled: seq<PastedLine>, counts: PastedLine -> bool)
    requires multiset(lines) == multiset(shuffled)
    ensures Count(lines, counts) == Count(shuffled, counts)
  {
    if lines == [] {
      assert |multiset(shuffled)| == 0;
    } else {
      var n := |lines| - 1;
      assert lines == lines[..n] + [lines[n]];
      assert lines[n] in multiset(shuffled);
      var k :| 0 <= k < |shuffled| && shuffled[k] == lines[n];
      CountAround(shuffled, k, counts);
      assert multiset(lines) == multiset(lines[..n]) + multiset{lines[n]};
      assert multiset(lines[..n]) == multiset(lines) - multiset{lines[n]};
      CountShuffled(lines[..n], shuffled[..k] + shuffled[k + 1..], counts);
    }
  }

  lemma {:induction false} CountSome(lines: seq<PastedLine>, counts: PastedLine -> bool)
    ensures Count(lines, counts) > 0 <==> exists line :: line in lines && counts(line)
  {
    if lines != [] {
      var n := |lines| - 1;
      assert lines == lines[..n] + [lines[n]];
      CountSome(lines[..n], counts);
      assert forall l :: l in lines <==> l in lines[..n] || l == lines[n];
    }
  }

  // ---- when the order matters ---------------------------------------------------------------------

  function Picking(deals: seq<Order>, accounts: Accounts, c: Class): PastedLine -> bool {
    line => Picks(deals, line, accounts, c)
  }

  function Within(c: Class): PastedLine -> bool {
    line => InClass(line, c)
  }

  /** One line of the class picks a deal by its account, and there are other lines to come before or after it. */
  predicate OrderMatters(orders: seq<Order>, lines: seq<PastedLine>, accounts: Accounts, c: Class) {
    var deals := Deals(orders, c);
    |deals| == 2 && Count(lines, Picking(deals, accounts, c)) == 1 && Count(lines, Within(c)) > 1
  }

  lemma DealsDiffer(orders: seq<Order>, c: Class)
    requires DistinctReferences(orders) && |Deals(orders, c)| == 2
    ensures Twins(Deals(orders, c))
  {
    DealsDistinct(orders, c);
  }

  lemma {:induction false} DealsDistinct(orders: seq<Order>, c: Class)
    requires DistinctReferences(orders)
    ensures DistinctReferences(Deals(orders, c))
  {
    if orders != [] {
      var n := |orders| - 1;
      DealsDistinct(orders[..n], c);
      var before := Deals(orders[..n], c);
      forall i | 0 <= i < |before| ensures before[i].reference != orders[n].reference {
        assert before[i] in before;
        var k :| 0 <= k < n && orders[k] == before[i];
      }
    }
  }

  /** The one line that picks, its place in the block, and the rest. */
  lemma OnePicks(deals: seq<Order>, lines: seq<PastedLine>, accounts: Accounts, c: Class) returns (k: nat)
    requires Count(lines, Picking(deals, accounts, c)) == 1
    ensures k < |lines| && Picks(deals, lines[k], accounts, c)
    ensures var rest := lines[..k] + lines[k + 1..];
            && (forall line :: line in rest ==> !Picks(deals, line, accounts, c))
            && Count(rest, Within(c)) == Count(lines, Within(c)) - 1
            && multiset(lines) == multiset(rest) + multiset{lines[k]}
  {
    var picks := Picking(deals, accounts, c);
    CountSome(lines, picks);
    var line :| line in lines && picks(line);
    k :| 0 <= k < |lines| && lines[k] == line;
    CountAround(lines, k, picks);
    CountAround(lines, k, Within(c));
    CountSome(lines[..k] + lines[k + 1..], picks);
  }

  lemma PickFirst(deals: seq<Order>, rest: seq<PastedLine>, line: PastedLine, accounts: Accounts, c: Class)
    requires Twins(deals) && Picks(deals, line, accounts, c) && Count(rest, Within(c)) > 0
    ensures Claimed(deals, [line] + rest, accounts, c) == {deals[0].reference, deals[1].reference}
  {
    CountSome(rest, Within(c));
    var other :| other in rest && Within(c)(other);
    var j :| 0 <= j < |rest| && rest[j] == other;
    var all := [line] + rest;
    assert all[0] == line && all[j + 1] == other && 0 <= 0 < j + 1 < |all|;
    assert PickedThenAnother(deals, all, accounts, c);
    TwinsClaimed(deals, all, accounts, c);
  }

  lemma PickLast(deals: seq<Order>, rest: seq<PastedLine>, line: PastedLine, accounts: Accounts, c: Class)
    requires Twins(deals) && forall l :: l in rest ==> !Picks(deals, l, accounts, c)
    ensures Claimed(deals, rest + [line], accounts, c) != {deals[0].reference, deals[1].reference}
  {
    TwinsClaimed(deals, rest + [line], accounts, c);
    TwinsClaimed(deals, rest, accounts, c);
    PickedOneMore(deals, rest, line, accounts, c);
  }

  /** Two arrangements of the block, the picking line first and last, that settle different deals. */
  lemma TwoArrangements(orders: seq<Order>, lines: seq<PastedLine>, accounts: Accounts, c: Class)
      returns (first: seq<PastedLine>, last: seq<PastedLine>)
    requires DistinctReferences(orders) && OrderMatters(orders, lines, accounts, c)
    ensures multiset(first) == multiset(lines) && multiset(last) == multiset(lines)
    ensures Taken(Verdicts(orders, first, accounts)) != Taken(Verdicts(orders, last, accounts))
  {
    var deals := Deals(orders, c);
    DealsDiffer(orders, c);
    var k := OnePicks(deals, lines, accounts, c);
    var rest, line := lines[..k] + lines[k + 1..], lines[k];
    first, last := [line] + rest, rest + [line];
    PickFirst(deals, rest, line, accounts, c);
    PickLast(deals, rest, line, accounts, c);
    ClassOnItsOwn(orders, first, accounts, c);
    ClassOnItsOwn(orders, last, accounts, c);
  }

  lemma SameMembers(lines: seq<PastedLine>, shuffled: seq<PastedLine>)
    requires multiset(lines) == multiset(shuffled)
    ensures forall line :: line in lines <==> line in shuffled
  {
    assert forall line :: line in lines <==> line in multiset(lines);
    assert forall line :: line in shuffled <==> line in multiset(shuffled);
  }

  /** Where the order of a class does not matter, any arrangement claims the same of it. */
  lemma ClassInAnyOrder(orders: seq<Order>, lines: seq<PastedLine>, shuffled: seq<PastedLine>, accounts: Accounts,
                        c: Class)
    requires DistinctReferences(orders) && multiset(lines) == multiset(shuffled)
    requires Clear(orders, lines, accounts, c) && !OrderMatters(orders, lines, accounts, c)
    ensures Claimed(Deals(orders, c), lines, accounts, c) == Claimed(Deals(orders, c), shuffled, accounts, c)
  {
    var deals := Deals(orders, c);
    SameMembers(lines, shuffled);
    if |deals| == 2 {
      DealsDiffer(orders, c);
      TwinsInAnyOrder(deals, lines, shuffled, accounts, c);
    } else {
      UnnarrowedClass(deals, lines, accounts, c);
      UnnarrowedClass(deals, shuffled, accounts, c);
    }
  }

  lemma TwinsInAnyOrder(deals: seq<Order>, lines: seq<PastedLine>, shuffled: seq<PastedLine>, accounts: Accounts,
                        c: Class)
    requires Twins(deals) && multiset(lines) == multiset(shuffled)
    requires Count(lines, Picking(deals, accounts, c)) != 1 || Count(lines, Within(c)) <= 1
    ensures Claimed(deals, lines, accounts, c) == Claimed(deals, shuffled, accounts, c)
  {
    var picks := Picking(deals, accounts, c);
    SameMembers(lines, shuffled);
    CountShuffled(lines, shuffled, picks);
    CountShuffled(lines, shuffled, Within(c));
    CountSome(lines, picks);
    TwinsClaimed(deals, lines, accounts, c);
    TwinsClaimed(deals, shuffled, accounts, c);
    if Count(lines, picks) > 1 {
      PickedTwice(deals, lines, accounts, c);
      PickedTwice(deals, shuffled, accounts, c);
    } else if Count(lines, picks) == 1 {
      AloneInClass(deals, lines, accounts, c);
      AloneInClass(deals, shuffled, accounts, c);
      var line :| line in lines && picks(line);
      OnlyPick(deals, lines, line, accounts, c);
      OnlyPick(deals, shuffled, line, accounts, c);
    } else {
      assert forall line :: line in lines ==> !picks(line);
    }
  }

  lemma PickedTwice(deals: seq<Order>, lines: seq<PastedLine>, accounts: Accounts, c: Class)
    requires Count(lines, Picking(deals, accounts, c)) > 1
    ensures PickedThenAnother(deals, lines, accounts, c)
  {
    var picks := Picking(deals, accounts, c);
    CountSome(lines, picks);
    var line :| line in lines && picks(line);
    var k :| 0 <= k < |lines| && lines[k] == line;
    CountAround(lines, k, picks);
    var rest := lines[..k] + lines[k + 1..];
    CountSome(rest, picks);
    var other :| other in rest && picks(other);
    var m :| 0 <= m < |rest| && rest[m] == other;
    var j := if m < k then m else m + 1;
    assert lines[j] == other;
  }

  lemma AloneInClass(deals: seq<Order>, lines: seq<PastedLine>, accounts: Accounts, c: Class)
    requires Count(lines, Within(c)) <= 1
    ensures !PickedThenAnother(deals, lines, accounts, c)
  {
    if PickedThenAnother(deals, lines, accounts, c) {
      var i, j :| 0 <= i < j < |lines| && Picks(deals, lines[i], accounts, c) && InClass(lines[j], c);
      CountAround(lines, i, Within(c));
      var rest := lines[..i] + lines[i + 1..];
      assert rest[j - 1] == lines[j];
      assert Within(c)(rest[j - 1]) && rest[j - 1] in rest;
      CountSome(rest, Within(c));
    }
  }

  lemma OnlyPick(deals: seq<Order>, lines: seq<PastedLine>, line: PastedLine, accounts: Accounts, c: Class)
    requires Twins(deals) && line in lines && Picks(deals, line, accounts, c)
    requires Count(lines, Picking(deals, accounts, c)) == 1 && !PickedThenAnother(deals, lines, accounts, c)
    ensures Claimed(deals, lines, accounts, c) == {Pick(deals, line, accounts)}
  {
    TwinsClaimed(deals, lines, accounts, c);
    var k := OnePicks(deals, lines, accounts, c);
    var rest := lines[..k] + lines[k + 1..];
    forall m | 0 <= m < |lines| && m != k ensures lines[m] in rest {
      assert rest[if m < k then m else m - 1] == lines[m];
    }
    assert forall other :: other in lines && Picks(deals, other, accounts, c) ==> other == lines[k];
    var claimed := Claimed(deals, lines, accounts, c);
    var r :| r in claimed;
    assert claimed == {r};
    PickIsClaimed(deals, lines, accounts, c, r);
  }

  predicate Clear(orders: seq<Order>, lines: seq<PastedLine>, accounts: Accounts, c: Class) {
    || |Deals(orders, c)| == 2
    || forall line :: line in lines && InClass(line, c) ==> Narrow(Deals(orders, c), line, accounts) == Deals(orders, c)
  }

  lemma ClassIsClear(orders: seq<Order>, lines: seq<PastedLine>, accounts: Accounts, c: Class)
    requires forall line :: line in lines ==> Unnarrowed(orders, line, accounts) || |Candidates(orders, line)| == 2
    ensures Clear(orders, lines, accounts, c)
  {
    assert forall line :: line in lines && InClass(line, c) ==> Candidates(orders, line) == Deals(orders, c);
  }

  /** No class of the block is one whose order matters. */
  ghost predicate NoneMatters(orders: seq<Order>, lines: seq<PastedLine>, accounts: Accounts) {
    forall c :: !OrderMatters(orders, lines, accounts, c)
  }

  ghost predicate AllClear(orders: seq<Order>, lines: seq<PastedLine>, accounts: Accounts) {
    forall c :: Clear(orders, lines, accounts, c)
  }

  lemma TakenInClass(orders: seq<Order>, lines: seq<PastedLine>, shuffled: seq<PastedLine>, accounts: Accounts,
                     c: Class)
    requires DistinctReferences(orders) && multiset(lines) == multiset(shuffled)
    requires AllClear(orders, lines, accounts) && NoneMatters(orders, lines, accounts)
    ensures var names := Names(Deals(orders, c));
            Taken(Verdicts(orders, lines, accounts)) * names == Taken(Verdicts(orders, shuffled, accounts)) * names
  {
    assert Clear(orders, lines, accounts, c) && !OrderMatters(orders, lines, accounts, c);
    ClassInAnyOrder(orders, lines, shuffled, accounts, c);
    ClassOnItsOwn(orders, lines, accounts, c);
    ClassOnItsOwn(orders, shuffled, accounts, c);
  }

  /** A claimed deal is of the class of the line that claimed it. */
  lemma ClassExists(orders: seq<Order>, lines: seq<PastedLine>, accounts: Accounts, r: nat)
    requires r in Taken(Verdicts(orders, lines, accounts))
    ensures exists c :: r in Names(Deals(orders, c))
  {
    var vs := Verdicts(orders, lines, accounts);
    var i :| 0 <= i < |vs| && vs[i] == Found(r);
    MatchesAgreeAndDiffer(orders, lines, accounts, i);
    var c := Class(lines[i].currency.value, lines[i].localAmount);
    var o :| o in orders && o.reference == r && Sends(o, c.currency, c.amount);
    assert o in Deals(orders, c);
  }

  ghost function ClassWhere(orders: seq<Order>, lines: seq<PastedLine>, accounts: Accounts, r: nat): (c: Class)
    requires r in Taken(Verdicts(orders, lines, accounts))
    ensures r in Names(Deals(orders, c))
  {
    ClassExists(orders, lines, accounts, r);
    var c :| r in Names(Deals(orders, c));
    c
  }

  lemma TakenAlike(orders: seq<Order>, lines: seq<PastedLine>, shuffled: seq<PastedLine>, accounts: Accounts)
    requires DistinctReferences(orders) && multiset(lines) == multiset(shuffled)
    requires AllClear(orders, lines, accounts) && NoneMatters(orders, lines, accounts)
    ensures Taken(Verdicts(orders, lines, accounts)) == Taken(Verdicts(orders, shuffled, accounts))
  {
    var here, there := Taken(Verdicts(orders, lines, accounts)), Taken(Verdicts(orders, shuffled, accounts));
    forall r | r in here || r in there ensures r in here && r in there {
      var c := if r in here then ClassWhere(orders, lines, accounts, r) else ClassWhere(orders, shuffled, accounts, r);
      TakenInClass(orders, lines, shuffled, accounts, c);
      assert r in here * Names(Deals(orders, c)) || r in there * Names(Deals(orders, c));
    }
  }

  /**
   A block in which accounts narrow only classes of two deals: every arrangement of its
   lines settles the same deals, if and only if no class has exactly one line that
   picks a deal by its account and another line beside it.
   */
  lemma LineOrderMattersIff(orders: seq<Order>, lines: seq<PastedLine>, accounts: Accounts)
    requires DistinctReferences(orders)
    requires forall line :: line in lines ==> Unnarrowed(orders, line, accounts) || |Candidates(orders, line)| == 2
    ensures (forall shuffled :: multiset(shuffled) == multiset(lines) ==>
               Taken(Verdicts(orders, shuffled, accounts)) == Taken(Verdicts(orders, lines, accounts)))
       <==> (forall c :: !OrderMatters(orders, lines, accounts, c))
  {
    if c :| OrderMatters(orders, lines, accounts, c) {
      var first, last := TwoArrangements(orders, lines, accounts, c);
      assert multiset(first) == multiset(lines) && multiset(last) == multiset(lines);
    } else {
      forall c ensures Clear(orders, lines, accounts, c) {
        ClassIsClear(orders, lines, accounts, c);
      }
      forall shuffled | multiset(shuffled) == multiset(lines)
        ensures Taken(Verdicts(orders, shuffled, accounts)) == Taken(Verdicts(orders, lines, accounts))
      {
        TakenAlike(orders, lines, shuffled, accounts);
      }
    }
  }
}
