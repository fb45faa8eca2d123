/**
 From a matched block to a recorded payment (app/domain/settlement.py:128-146, 407-427):
 what the block settles, what it comes to, and why the storage never objects.
 */
module PastedPayments {
  import opened Prelude
  import opened Text
  import opened FxOrders
  import opened FxSteps
  import opened Ledger
  import opened LedgerRuns
  import opened Matching
  import opened MatchingColumns

  /** `_settleable_orders`: every order awaiting settlement, once. */
  ghost predicate OpenList(orders: seq<Order>, b: Books) {
    && DistinctReferences(orders)
    && forall o ::
         o in orders <==> o.reference in b.orders && b.orders[o.reference] == o && o.status == AwaitingSettlement
  }

  /** The country the line names, or else the order's. A matched order is always there: see `MatchesAreReady`. */
  function LineFor(line: PastedLine, o: Order): Line {
    Line(o.reference, if Given(line.country) then line.country else o.countryCode, line.localAmount, line.rate)
  }

  function LinesFrom(lines: seq<PastedLine>, verdicts: seq<Verdict>, orders: map<nat, Order>): seq<Line>
    requires |verdicts| == |lines|
  {
    if lines == [] then []
    else
      var n := |lines| - 1;
      var before := LinesFrom(lines[..n], verdicts[..n], orders);
      if verdicts[n].Found? && verdicts[n].order in orders then before + [LineFor(lines[n], orders[verdicts[n].order])]
      else before
  }

  method LinesFromMatches(lines: seq<PastedLine>, verdicts: seq<Verdict>,
                          orders: map<nat, Order>) returns (built: seq<Line>)
    requires |verdicts| == |lines|
    ensures built == LinesFrom(lines, verdicts, orders)
  {
    built := [];
    var i := 0;
    while i < |lines|
      invariant 0 <= i <= |lines|
      invariant built == LinesFrom(lines[..i], verdicts[..i], orders)
    {
      assert lines[..i + 1][..i] == lines[..i] && verdicts[..i + 1][..i] == verdicts[..i];
      if verdicts[i].Found? && verdicts[i].order in orders {
        built := built + [LineFor(lines[i], orders[verdicts[i].order])];
      }
      i := i + 1;
    }
    assert lines[..i] == lines && verdicts[..i] == verdicts;
  }

  /** How many of the first `k` lines found a deal. */
  function FoundAmong(verdicts: seq<Verdict>, k: nat): nat
    requires k <= |verdicts|
  {
    if k == 0 then 0 else FoundAmong(verdicts, k - 1) + if verdicts[k - 1].Found? then 1 else 0
  }

  predicate KnownOrders(verdicts: seq<Verdict>, orders: map<nat, Order>) {
    forall v :: v in verdicts && v.Found? ==> v.order in orders && orders[v.order].reference == v.order
  }

  lemma {:induction false} FoundAmongPrefix(verdicts: seq<Verdict>, n: nat, k: nat)
    requires k <= n <= |verdicts|
    ensures FoundAmong(verdicts[..n], k) == FoundAmong(verdicts, k)
    decreases k
  {
    if k > 0 {
      FoundAmongPrefix(verdicts, n, k - 1);
    }
  }

  /** As many lines as matches. */
  lemma {:induction false} OneLineAMatch(lines: seq<PastedLine>, verdicts: seq<Verdict>, orders: map<nat, Order>)
    requires |verdicts| == |lines| && KnownOrders(verdicts, orders)
    ensures |LinesFrom(lines, verdicts, orders)| == FoundAmong(verdicts, |verdicts|)
  {
    if lines != [] {
      var n := |lines| - 1;
      assert verdicts[n] in verdicts;
      OneLineAMatch(lines[..n], verdicts[..n], orders);
      FoundAmongPrefix(verdicts, n, n);
    }
  }

  /**
   Every match has its line, at its place among the matches: the order it found, the amount and
   rate as pasted, and the country the line names or else the order's.
   */
  lemma {:induction false} MatchKeepsItsLine(lines: seq<PastedLine>, verdicts: seq<Verdict>, orders: map<nat, Order>,
                                             i: nat)
    requires |verdicts| == |lines| && KnownOrders(verdicts, orders) && i < |lines| && verdicts[i].Found?
    ensures var built := LinesFrom(lines, verdicts, orders);
            var k := FoundAmong(verdicts, i);
            && k < |built| == FoundAmong(verdicts, |verdicts|)
            && built[k].order == verdicts[i].order
            && built[k].localAmount == lines[i].localAmount && built[k].rate == lines[i].rate
            && built[k].country
               == (if Given(lines[i].country) then lines[i].country else orders[verdicts[i].order].countryCode)
    decreases |lines|
  {
    var n := |lines| - 1;
    assert verdicts[n] in verdicts && verdicts[i] in verdicts;
    OneLineAMatch(lines, verdicts, orders);
    OneLineAMatch(lines[..n], verdicts[..n], orders);
    FoundAmongPrefix(verdicts, n, n);
    if i < n {
      MatchKeepsItsLine(lines[..n], verdicts[..n], orders, i);
      FoundAmongPrefix(verdicts, n, i);
    }
  }

  // ---- the unique constraint never trips ------------------------------------------------

  predicate FoundOnce(verdicts: seq<Verdict>) {
    forall i, j :: 0 <= i < j < |verdicts| && verdicts[i].Found? ==> verdicts[i] != verdicts[j]
  }

  lemma {:induction false} BuiltLines(lines: seq<PastedLine>, verdicts: seq<Verdict>, orders: map<nat, Order>)
    requires |verdicts| == |lines| && FoundOnce(verdicts)
    requires forall v :: v in verdicts && v.Found? ==> v.order in orders && orders[v.order].reference == v.order
    ensures var built := LinesFrom(lines, verdicts, orders);
            && Distinct(OrdersOf(built))
            && forall line :: line in built ==> Found(line.order) in verdicts
  {
    if lines != [] {
      var n := |lines| - 1;
      BuiltLines(lines[..n], verdicts[..n], orders);
      var before := LinesFrom(lines[..n], verdicts[..n], orders);
      if verdicts[n].Found? {
        var line := LineFor(lines[n], orders[verdicts[n].order]);
        assert OrdersOf(before + [line]) == OrdersOf(before) + [line.order];
        assert verdicts[n] !in verdicts[..n];
        forall k | 0 <= k < |before| ensures before[k].order != line.order {
          assert before[k] in before;
        }
        DistinctSnoc(OrdersOf(before), line.order);
      }
    }
  }

  predicate ReadyLines(b: Books, lines: seq<Line>) {
    forall line :: line in lines ==> line.order in b.orders && b.orders[line.order].status == AwaitingSettlement
  }

  lemma UnpaidIsUnallocated(b: Books, reference: nat)
    requires PaymentsOk(b) && reference in b.orders && !Paid(b.orders[reference].status)
    ensures !Allocated(b, reference)
  {
    forall a | a in b.allocations ensures a.order != reference {
      assert AllocationOk(b.orders, b.settlements, a);
    }
  }

  lemma {:induction false} FaultIsTheLines(b: Books, lines: seq<Line>, known: set<string>)
    requires PaymentsOk(b) && ReadyLines(b, lines)
    ensures var fault := FirstFault(b, lines, known); fault.Some? ==>
            fault.value.BadRate? || fault.value.UnknownCountry?
  {
    if lines != [] {
      FaultIsTheLines(b, lines[1..], known);
      assert lines[0] in lines;
      UnpaidIsUnallocated(b, lines[0].order);
    }
  }

  lemma MatchesAreReady(b: Books, orders: seq<Order>, lines: seq<PastedLine>, accounts: Accounts)
    requires HistoriesOk(b) && OpenList(orders, b)
    ensures var vs := Verdicts(orders, lines, accounts);
            && FoundOnce(vs)
            && (forall v :: v in vs && v.Found? ==>
                  v.order in b.orders && b.orders[v.order].reference == v.order
                    && b.orders[v.order].status == AwaitingSettlement)
  {
    var vs := Verdicts(orders, lines, accounts);
    forall v | v in vs && v.Found?
      ensures v.order in b.orders && b.orders[v.order].reference == v.order
              && b.orders[v.order].status == AwaitingSettlement
    {
      var i :| 0 <= i < |vs| && vs[i] == v;
      MatchesAgreeAndDiffer(orders, lines, accounts, i);
    }
    forall i, j | 0 <= i < j < |vs| && vs[i].Found? ensures vs[i] != vs[j] {
      MatchesAgreeAndDiffer(orders, lines, accounts, i);
    }
  }

  /**
   A matched block can be recorded whatever it says, accounts and all: its
   orders are open, unallocated and different, so nothing but its own figures,
   countries or hash can stop it - and the unique constraint never does.
   */
  lemma MatchedBlockRecords(b: Books, orders: seq<Order>, lines: seq<PastedLine>, accounts: Accounts,
                            txHash: Option<string>,
                            amount: Option<Money>, known: set<string>, now: Time)
    requires BooksOk(b) && OpenList(orders, b)
    ensures var built := LinesFrom(lines, Verdicts(orders, lines, accounts), b.orders);
            && ReadyLines(b, built)
            && var refusal := Pay(b, built, txHash, amount, known, now).1;
            && (refusal == None <==>
                  && built != [] && (Given(txHash) ==> CheckHash(txHash.value).Some?)
                  && forall line :: line in built ==> line.rate > 0 && KnownCountry(line.country, known))
            && (refusal.Some? ==>
                  refusal.value.NoLines? || refusal.value.BadRate? || refusal.value.UnknownCountry?
                    || refusal.value.BadPaymentHash?)
  {
    var vs := Verdicts(orders, lines, accounts);
    MatchesAreReady(b, orders, lines, accounts);
    BuiltLines(lines, vs, b.orders);
    var built := LinesFrom(lines, vs, b.orders);
    PayIsAllOrNothing(b, built, txHash, amount, known, now);
    FaultIsTheLines(b, built, known);
    assert forall line :: line in built ==>
        (Payable(b.orders, line) && KnownCountry(line.country, known)
         <==> line.rate > 0 && KnownCountry(line.country, known));
  }

  // ---- what was paid, what was allocated, what is missing ------------------------------------

  /** `amount_usdt - expected_total(lines)`, in the unit of amounts: 10^4 to a micro-USDT. */
  function Discrepancy(lines: seq<Line>, amount: Option<Money>): Option<Money>
    requires forall line :: line in lines ==> line.rate > 0
  {
    if amount == None then None else Some(amount.value - ExpectedTotal(lines) * 10_000)
  }

  function AllocatedTo(allocations: seq<Allocation>, settlement: nat): int {
    if allocations == [] then 0
    else
      var last := allocations[|allocations| - 1];
      AllocatedTo(allocations[..|allocations| - 1], settlement) + if last.settlement == settlement then last.usdt else 0
  }

  lemma {:induction false} SharesAddUp(before: seq<Allocation>, lines: seq<Line>, settlement: nat, other: nat)
    requires Priced(lines)
    ensures AllocatedTo(before + Shares(lines, settlement), other)
         == AllocatedTo(before, other) + if other == settlement then ExpectedTotal(lines) else 0
  {
    if lines == [] {
      assert before + [] == before;
    } else {
      var n := |lines| - 1;
      SharesAddUp(before, lines[..n], settlement, other);
      var all := before + Shares(lines, settlement);
      assert all[..|all| - 1] == before + Shares(lines[..n], settlement);
    }
  }

  lemma {:induction false} NothingAllocatedYet(allocations: seq<Allocation>, settlement: nat)
    requires forall a :: a in allocations ==> a.settlement < settlement
    ensures AllocatedTo(allocations, settlement) == 0
  {
    if allocations != [] {
      var n := |allocations| - 1;
      NothingAllocatedYet(allocations[..n], settlement);
      assert allocations[n] in allocations;
    }
  }

  /**
   Nothing is lost in a payment: what it allocates is what its lines come to,
   what was paid is that and the discrepancy, and no other payment's total moves.
   */
  lemma PaymentIsConserved(b: Books, lines: seq<Line>, txHash: Option<string>, amount: Option<Money>,
                           known: set<string>, now: Time, other: nat)
    requires PaymentsOk(b) && (forall line :: line in lines ==> line.order in b.orders)
    requires PaymentAccepted(b, lines, txHash, known)
    ensures var b' := Pay(b, lines, txHash, amount, known, now).0;
            && AllocatedTo(b'.allocations, |b.settlements|) == ExpectedTotal(lines)
            && (amount.Some? ==>
                  amount.value
                  == AllocatedTo(b'.allocations, |b.settlements|) * 10_000 + Discrepancy(lines, amount).value)
            && (other != |b.settlements| ==> AllocatedTo(b'.allocations, other) == AllocatedTo(b.allocations, other))
  {
    PayIsAllOrNothing(b, lines, txHash, amount, known, now);
    forall a | a in b.allocations ensures a.settlement < |b.settlements| {
      assert AllocationOk(b.orders, b.settlements, a);
    }
    NothingAllocatedYet(b.allocations, |b.settlements|);
    SharesAddUp(b.allocations, lines, |b.settlements|, |b.settlements|);
    SharesAddUp(b.allocations, lines, |b.settlements|, other);
  }

  lemma {:induction false} ShareAt(lines: seq<Line>, settlement: nat, k: nat)
    requires Priced(lines) && k < |lines|
    ensures |Shares(lines, settlement)| == |lines| && Shares(lines, settlement)[k] == ShareOf(lines[k], settlement)
  {
    var n := |lines| - 1;
    if n > 0 {
      ShareAt(lines[..n], settlement, if k < n then k else 0);
    }
  }

  /** The k-th line of a payment is its k-th new allocation. */
  lemma LineIsAllocated(b: Books, built: seq<Line>, txHash: Option<string>, amount: Option<Money>, known: set<string>,
                        now: Time, k: nat)
    requires PaymentsOk(b) && (forall line :: line in built ==> line.order in b.orders)
    requires PaymentAccepted(b, built, txHash, known) && k < |built|
    ensures var b' := Pay(b, built, txHash, amount, known, now).0;
            && built[k].rate > 0 && built[k].country.Some?
            && |b'.allocations| == |b.allocations| + |built|
            && b'.allocations[|b.allocations| + k] == ShareOf(built[k], |b.settlements|)
  {
    PayIsAllOrNothing(b, built, txHash, amount, known, now);
    assert built[k] in built;
    ShareAt(built, |b.settlements|, k);
  }

  /** What a found verdict says of the order it found. */
  lemma FoundIsItsOrder(b: Books, orders: seq<Order>, lines: seq<PastedLine>, accounts: Accounts, i: nat)
    requires OpenList(orders, b) && i < |lines|
    requires Verdicts(orders, lines, accounts)[i].Found?
    ensures var r := Verdicts(orders, lines, accounts)[i].order;
            r in b.orders && lines[i].currency.Some?
            && PaysOut(b.orders[r], lines[i].currency.value, lines[i].localAmount)
  {
    MatchIsPaidOut(orders, lines, accounts, i);
    var r := Verdicts(orders, lines, accounts)[i].order;
    var o :| o in orders && o.reference == r && PaysOut(o, lines[i].currency.value, lines[i].localAmount);
    assert b.orders[o.reference] == o;
  }

  /**
   The k-th new allocation is this pasted line's: to the order it found, for exactly what that order's
   supplier pays out, of the line's currency, at the rate pasted and the USDT that comes to.
   */
  ghost predicate AllocatedTheLine(b: Books, b': Books, k: nat, line: PastedLine, order: nat) {
    && |b.allocations| + k < |b'.allocations|
    && var a := b'.allocations[|b.allocations| + k];
       && a.order == order && order in b.orders && a.settlement == |b.settlements|
       && line.currency.Some? && PaysOut(b.orders[order], line.currency.value, a.localAmount)
       && b.orders[order].supplier.pays == Some(a.localAmount) && a.localAmount == line.localAmount
       && a.rate == line.rate > 0 && a.usdt == Usdt(line.localAmount, line.rate)
  }

  lemma LineReachesLedger(b: Books, built: seq<Line>, txHash: Option<string>, amount: Option<Money>, known: set<string>,
                          now: Time, k: nat, line: PastedLine, order: nat)
    requires PaymentsOk(b) && (forall l :: l in built ==> l.order in b.orders)
    requires PaymentAccepted(b, built, txHash, known) && k < |built|
    requires built[k].order == order && built[k].localAmount == line.localAmount && built[k].rate == line.rate
    requires order in b.orders && line.currency.Some?
    requires PaysOut(b.orders[order], line.currency.value, line.localAmount)
    ensures var b' := Pay(b, built, txHash, amount, known, now).0;
            |b'.allocations| == |b.allocations| + |built| && AllocatedTheLine(b, b', k, line, order)
  {
    LineIsAllocated(b, built, txHash, amount, known, now, k);
  }

  /**
   From paste to ledger: once a matched block is recorded, its k-th match is the k-th new
   allocation, as above, and there is no other new allocation.
   */
  lemma MatchIsAllocated(b: Books, orders: seq<Order>, lines: seq<PastedLine>, accounts: Accounts,
                         txHash: Option<string>,
                         amount: Option<Money>, known: set<string>, now: Time, i: nat)
    requires BooksOk(b) && OpenList(orders, b) && i < |lines| && Verdicts(orders, lines, accounts)[i].Found?
    requires PaymentAccepted(b, LinesFrom(lines, Verdicts(orders, lines, accounts), b.orders), txHash, known)
    ensures var vs := Verdicts(orders, lines, accounts);
            var b' := Pay(b, LinesFrom(lines, vs, b.orders), txHash, amount, known, now).0;
            && |b'.allocations| == |b.allocations| + FoundAmong(vs, |vs|)
            && FoundAmong(vs, i) < FoundAmong(vs, |vs|)
            && AllocatedTheLine(b, b', FoundAmong(vs, i), lines[i], vs[i].order)
  {
    var vs := Verdicts(orders, lines, accounts);
    MatchesAreReady(b, orders, lines, accounts);
    assert KnownOrders(vs, b.orders);
    MatchKeepsItsLine(lines, vs, b.orders, i);
    FoundIsItsOrder(b, orders, lines, accounts, i);
    LineReachesLedger(b, LinesFrom(lines, vs, b.orders), txHash, amount, known, now, FoundAmong(vs, i), lines[i],
                      vs[i].order);
  }

  // ---- with accounts, the order of the lines matters --------------------------------------------

  function TwinOrder(reference: nat, clientId: nat): Order {
    Order(reference, clientId, None, 1, Some(9), Some("BBS"), None, Some("XOF"), Some("CI"), AwaitingSettlement,
          NO_FIGURES, None, Half(None, None, Some(1000), Some("XOF"), None, None), None, None, "tron", None, None)
  }

  const TWINS := [TwinOrder(1000, 1), TwinOrder(1001, 2)]
  const NAMED := PastedLine(Some("XOF"), None, 1000, 5, Some("1"))
  const UNNAMED := PastedLine(Some("XOF"), None, 1000, 5, None)

  function FirstClientOnly(supplier: string, number: string): set<nat> {
    {1}
  }

  /** Two deals alike, told apart by an account: only the block that names the account first settles both. */
  lemma AccountsMakeLineOrderMatter()
    ensures Verdicts(TWINS, [NAMED, UNNAMED], FirstClientOnly) == [Found(1000), Found(1001)]
    ensures Verdicts(TWINS, [UNNAMED, NAMED], FirstClientOnly) == [Several([1000, 1001]), Found(1000)]
  {
    NamedFirst();
    NamedLast();
  }

  lemma NamedFirst()
    ensures Verdicts(TWINS, [NAMED, UNNAMED], FirstClientOnly) == [Found(1000), Found(1001)]
  {
    JudgeUntaken();
    JudgeTaken();
    TakenOfOne(Found(1000));
    VerdictsOfTwo(NAMED, UNNAMED, Found(1000), Found(1001));
  }

  lemma NamedLast()
    ensures Verdicts(TWINS, [UNNAMED, NAMED], FirstClientOnly) == [Several([1000, 1001]), Found(1000)]
  {
    JudgeUntaken();
    TakenOfOne(Several([1000, 1001]));
    VerdictsOfTwo(UNNAMED, NAMED, Several([1000, 1001]), Found(1000));
  }

  lemma TakenOfOne(v: Verdict)
    ensures Taken([v]) == if v.Found? then {v.order} else {}
  {
    TakenOneMore([], v);
    assert [] + [v] == [v];
  }

  lemma JudgeTaken()
    ensures Judge(TWINS, {1000}, UNNAMED, FirstClientOnly) == Found(1001)
  {
    TwinFits({1000});
  }

  lemma JudgeUntaken()
    ensures Judge(TWINS, {}, NAMED, FirstClientOnly) == Found(1000)
    ensures Judge(TWINS, {}, UNNAMED, FirstClientOnly) == Several([1000, 1001])
  {
    TwinFits({});
    NarrowTwins();
    assert References(TWINS) == [1000, 1001];
  }

  lemma TwinsSend()
    ensures forall o :: o in TWINS ==> Sends(o, "XOF", 1000)
  {
    assert Upper("XOF") == "XOF";
  }

  lemma TwinFits(taken: set<nat>)
    requires taken == {} || taken == {1000}
    ensures Fits(TWINS, taken, "XOF", 1000) == if taken == {} then TWINS else [TwinOrder(1001, 2)]
  {
    TwinsSend();
    var a, b := TwinOrder(1000, 1), TwinOrder(1001, 2);
    assert TWINS[..1] == [a] && [a][..0] == [];
    assert Fits([a], taken, "XOF", 1000) == if taken == {} then [a] else [];
  }

  lemma NarrowTwins()
    ensures Narrow(TWINS, NAMED, FirstClientOnly) == [TwinOrder(1000, 1)]
  {
    var a, b := TwinOrder(1000, 1), TwinOrder(1001, 2);
    assert TWINS[1..] == [b] && [b][1..] == [];
    assert OfClients([b], {1}) == [];
  }

  lemma VerdictsOfTwo(x: PastedLine, y: PastedLine, first: Verdict, second: Verdict)
    requires Judge(TWINS, {}, x, FirstClientOnly) == first && Judge(TWINS, Taken([first]), y, FirstClientOnly) == second
    ensures Verdicts(TWINS, [x, y], FirstClientOnly) == [first, second]
  {
    assert [x, y][..1] == [x] && [x][..0] == [];
    assert Taken([]) == {};
    assert Verdicts(TWINS, [x], FirstClientOnly) == [first];
  }
}
