/**
 What opening, stepping and paying write into the books, field by field
 (app/domain/fx.py:433-457, app/domain/settlement.py:101-231).
 */
module LedgerColumns {
  import opened Prelude
  import opened Text
  import opened FxOrders
  import opened FxSteps
  import opened FxHistory
  import opened Ledger
  import opened LedgerRuns

  /** A new deal has the client's columns, no supplier and no figures, and one event says it was asked for. */
  lemma OpeningWrites(b: Books, clientId: nat, code: Option<string>, name: string, workItem: nat, now: Time)
    ensures var b' := OpenOrder(b, clientId, code, name, workItem, now);
            var n := b.nextReference;
            && b'.nextReference == n + 1 && b'.orders.Keys == b.orders.Keys + {n}
            && (forall r :: r in b.orders && r != n ==> b'.orders[r] == b.orders[r])
            && b'.orders[n].reference == n && b'.orders[n].clientId == clientId && b'.orders[n].clientCode == code
            && b'.orders[n].clientWorkItem == workItem && b'.orders[n].status == RateRequested
            && b'.orders[n].client == Half(Some(name), None, None, None, None, None)
            && b'.orders[n].supplier == Half(None, None, None, None, None, None)
            && b'.orders[n].supplierId == None && b'.orders[n].txHash == None
            && b'.log == b.log + [Event(workItem, ClientReference(b'.orders[n]), now, Requested)]
            && b'.settlements == b.settlements && b'.allocations == b.allocations
  {
  }

  /** A step that goes through is one event more about its deal, under the reference it has afterwards. */
  lemma StepIsLogged(b: Books, reference: nat, step: Step, entitled: bool, now: Time)
    requires reference in b.orders && b.orders[reference].reference == reference
    ensures var o := b.orders[reference];
            var out := Act(o, step, entitled, HasAccepted(b.log, o), now);
            var b' := StepOrder(b, reference, step, entitled, now);
            && (out.refusal.Some? ==> b' == b)
            && (out.refusal == None ==>
                  && b'.orders == b.orders[reference := out.order] && b'.settlements == b.settlements
                  && b'.allocations == b.allocations
                  && |b'.log| == |b.log| + 1 && b.log <= b'.log
                  && var e := b'.log[|b.log|];
                     && e.workItem == o.clientWorkItem && e.at == now && Some(e.what) == out.event
                     && e.fxReference == DisplayReference(out.order))
  {
    StepsFollowTheTable(b.orders[reference], step, entitled, HasAccepted(b.log, b.orders[reference]), now);
  }

  // ---- what a payment is refused for ----------------------------------------------

  predicate OnSome(allocations: seq<Allocation>, order: nat) {
    exists i :: 0 <= i < |allocations| && allocations[i].order == order
  }

  predicate Named(country: Option<string>, known: set<string>) {
    match country
    case None => false
    case Some(name) => Upper(Strip(name)) in known
  }

  /** The guards of a line, in their order. */
  predicate FaultOf(b: Books, line: Line, known: set<string>, fault: Option<PayRefusal>)
    requires line.order in b.orders
  {
    if b.orders[line.order].status != AwaitingSettlement then fault == Some(NotAwaiting(line.order))
    else if OnSome(b.allocations, line.order) then fault == Some(AlreadySettled(line.order))
    else if line.rate <= 0 then fault == Some(BadRate(line.order))
    else if !Named(line.country, known) then fault == Some(UnknownCountry(line.order))
    else fault == None
  }

  /** A payment is refused for the first line at fault. */
  lemma {:induction false} FaultIsTheFirst(b: Books, lines: seq<Line>, known: set<string>) returns (k: nat)
    requires forall line :: line in lines ==> line.order in b.orders
    ensures k <= |lines| && forall j :: 0 <= j < k ==> FaultOf(b, lines[j], known, None)
    ensures if k == |lines| then FirstFault(b, lines, known) == None
            else FirstFault(b, lines, known).Some? && FaultOf(b, lines[k], known, FirstFault(b, lines, known))
  {
    k := 0;
    if lines != [] {
      var line := lines[0];
      assert Allocated(b, line.order) <==> OnSome(b.allocations, line.order);
      if FaultOf(b, line, known, None) {
        var rest := FaultIsTheFirst(b, lines[1..], known);
        k := rest + 1;
      }
    }
  }

  // ---- what a payment writes -------------------------------------------------------

  /** What one line of a payment becomes. */
  ghost predicate IsShare(a: Allocation, line: Line, settlement: nat) {
    && a.settlement == settlement && a.order == line.order
    && a.localAmount == line.localAmount && a.rate == line.rate
    && line.country.Some? && a.country == Upper(Strip(line.country.value))
    && var error := 2 * (a.usdt * line.rate - line.localAmount * 1_000_000);
       if line.localAmount >= 0 then -line.rate < error <= line.rate else -line.rate <= error < line.rate
  }

  lemma ShareIs(line: Line, settlement: nat)
    requires line.rate > 0 && line.country.Some?
    ensures IsShare(ShareOf(line, settlement), line, settlement)
  {
    UsdtIsNearest(line.localAmount, line.rate);
  }

  /** Each line in turn is its own share. */
  ghost predicate AreShares(shares: seq<Allocation>, lines: seq<Line>, settlement: nat) {
    |shares| == |lines| && forall k :: 0 <= k < |lines| ==> IsShare(shares[k], lines[k], settlement)
  }

  lemma OneMoreShare(shares: seq<Allocation>, lines: seq<Line>, line: Line, settlement: nat)
    requires AreShares(shares, lines, settlement) && line.rate > 0 && line.country.Some?
    ensures AreShares(shares + [ShareOf(line, settlement)], lines + [line], settlement)
  {
    ShareIs(line, settlement);
  }

  lemma {:induction false} SharesAre(lines: seq<Line>, settlement: nat)
    requires Priced(lines)
    ensures AreShares(Shares(lines, settlement), lines, settlement)
  {
    if lines != [] {
      var n := |lines| - 1;
      SharesAre(lines[..n], settlement);
      OneMoreShare(Shares(lines[..n], settlement), lines[..n], lines[n], settlement);
      assert lines == lines[..n] + [lines[n]];
    }
  }

  ghost predicate OnPayment(lines: seq<Line>, reference: nat) {
    exists line :: line in lines && line.order == reference
  }

  lemma OnPaymentIff(lines: seq<Line>, reference: nat)
    ensures OnPayment(lines, reference) <==> reference in OrdersOf(lines)
  {
    if OnPayment(lines, reference) {
      var line :| line in lines && line.order == reference;
      var k :| 0 <= k < |lines| && lines[k] == line;
      assert OrdersOf(lines)[k] in OrdersOf(lines);
    }
  }

  /** The hash, the time and the next status, on the orders of the payment and no other. */
  ghost predicate SettledOnly(before: map<nat, Order>, after: map<nat, Order>, lines: seq<Line>, hash: Option<string>,
                              now: Time) {
    && after.Keys == before.Keys
    && forall r :: r in before ==>
         after[r] == if OnPayment(lines, r)
                     then before[r].(txHash := hash, settledAt := Some(now), status := AwaitingReceipt)
                     else before[r]
  }

  lemma MovedIs(before: map<nat, Order>, after: map<nat, Order>, lines: seq<Line>, hash: Option<string>, now: Time)
    requires Moved(before, after, OrdersOf(lines), hash, now)
    ensures SettledOnly(before, after, lines, hash, now)
  {
    forall r | r in before ensures OnPayment(lines, r) <==> r in OrdersOf(lines) {
      OnPaymentIff(lines, r);
    }
  }

  /** One settlement more, its shares after all others, and its orders settled. */
  ghost predicate BooksPayment(b: Books, b': Books, lines: seq<Line>, hash: Option<string>, amount: Option<Money>,
                               now: Time) {
    var s, n := |b.settlements|, |b.allocations|;
    && b'.settlements == b.settlements + [Settlement(1000 + s, hash, amount, now)]
    && n <= |b'.allocations| && b'.allocations[..n] == b.allocations
    && AreShares(b'.allocations[n..], lines, s)
    && SettledOnly(b.orders, b'.orders, lines, hash, now)
  }

  lemma RecordedIs(b: Books, b': Books, lines: seq<Line>, hash: Option<string>, amount: Option<Money>, now: Time)
    requires Recorded(b, b', lines, hash, amount, now)
    ensures BooksPayment(b, b', lines, hash, amount, now)
  {
    SharesAre(lines, |b.settlements|);
    assert b'.allocations[|b.allocations|..] == Shares(lines, |b.settlements|);
    MovedIs(b.orders, b'.orders, lines, hash, now);
  }

  /**
   A payment that goes through books one settlement with the hash stripped, and each line in turn as its
   share; the orders on it get that hash, the time and the next status, and no other order changes.
   */
  lemma PaymentBooks(b: Books, lines: seq<Line>, txHash: Option<string>, amount: Option<Money>, known: set<string>,
                     now: Time)
    requires PaymentsOk(b) && forall line :: line in lines ==> line.order in b.orders
    requires Pay(b, lines, txHash, amount, known, now).1 == None
    ensures var hash := if txHash == None || txHash.value == "" then None else Some(Strip(txHash.value));
            BooksPayment(b, Pay(b, lines, txHash, amount, known, now).0, lines, hash, amount, now)
  {
    PayIsAllOrNothing(b, lines, txHash, amount, known, now);
    RecordedIs(b, Pay(b, lines, txHash, amount, known, now).0, lines, CleanHash(txHash), amount, now);
  }
}
