/** What holds of the FX desk after any run of openings, steps, payments and late proofs. */
module FxTheorems {
  import opened Prelude
  import opened FxOrders
  import opened FxSteps
  import opened FxHistory
  import opened Ledger
  import opened LedgerRuns

  /**
   The log is complete: folding one deal's events, picked out of the shared log
   by the number in their reference, rebuilds its status, currency, both sides'
   figures, accounts and hash; and each event's account of the figures before it is true.
   */
  lemma LogRebuildsEveryDeal(run: seq<Timed>, reference: nat)
    requires Possible(EMPTY, run) && reference in Exec(EMPTY, run).orders
    ensures var b := Exec(EMPTY, run);
            var events := History(b.log, reference);
            && Replay(events) == FiguresOf(b.orders[reference])
            && (ClientAccount(events).Some? ==> b.orders[reference].client.account == ClientAccount(events))
            && forall k :: 0 <= k < |events| ==> Truthful(Replay(events[..k]), events[k])
  {
    RunKeepsBooks(EMPTY, run);
    assert DealOk(Exec(EMPTY, run).orders[reference], reference, Exec(EMPTY, run).log);
  }

  /** The timestamps are set exactly in the states they belong to, and no quote is below cost. */
  lemma StampsFollowStatus(run: seq<Timed>, reference: nat)
    requires Possible(EMPTY, run) && reference in Exec(EMPTY, run).orders
    ensures var o := Exec(EMPTY, run).orders[reference];
            && (o.clientConfirmedAt.Some? <==> ClientAgreed(o.status))
            && (o.supplierConfirmedAt.Some? <==> SupplierAgreed(o.status))
            && (o.settledAt.Some? <==> Paid(o.status))
            && (o.closedAt.Some? <==> o.status == Closed)
            && (o.status == RateQuoted ==>
                  o.client.rate.Some? && (o.supplier.rate.Some? ==> o.supplier.rate.value <= o.client.rate.value))
  {
    RunKeepsBooks(EMPTY, run);
    assert DealOk(Exec(EMPTY, run).orders[reference], reference, Exec(EMPTY, run).log);
  }

  /**
   No payment is recorded on a deal before, since its last pricing, the client
   was sent an order, confirmed it, and the supplier accepted - in that order;
   and the client's figures at that moment are those confirmed, or those of the
   last amendment of its amounts since (`AgreedMeans` spells `Agreed` out).
   */
  lemma NoPaymentBeforeAgreement(run: seq<Timed>, reference: nat, k: nat)
    requires Possible(EMPTY, run) && reference in Exec(EMPTY, run).orders
    requires var events := History(Exec(EMPTY, run).log, reference);
             k < |events| && events[k].HashRecorded? && forall i :: 0 <= i < k ==> !events[i].HashRecorded?
    ensures var events := History(Exec(EMPTY, run).log, reference);
            var client := Replay(events[..k]).client;
            && FullyAgreed(events[..k])
            && Agreed(events[..k]) == (client.rate, client.pays, client.receives)
  {
    RunKeepsBooks(EMPTY, run);
    var b := Exec(EMPTY, run);
    var events := History(b.log, reference);
    assert DealOk(b.orders[reference], reference, b.log);
    assert !HasHash(events[..k]);
  }

  /**
   The payment ledger: each order has at most one allocation, an allocated order
   is paid and carries its settlement's hash.
   */
  lemma LedgerIsConsistent(run: seq<Timed>, i: nat)
    requires Possible(EMPTY, run) && i < |Exec(EMPTY, run).allocations|
    ensures var b := Exec(EMPTY, run);
            var a := b.allocations[i];
            && (forall j :: 0 <= j < |b.allocations| && j != i ==> b.allocations[j].order != a.order)
            && a.settlement < |b.settlements| && a.order in b.orders
            && Paid(b.orders[a.order].status)
            && b.orders[a.order].txHash == b.settlements[a.settlement].txHash
  {
    RunKeepsBooks(EMPTY, run);
    var b := Exec(EMPTY, run);
    assert AllocationOk(b.orders, b.settlements, b.allocations[i]);
  }

  /** Once on an order or a settlement, a hash stays, whatever happens next. */
  lemma HashesNeverChange(run: seq<Timed>, more: seq<Timed>)
    requires Possible(EMPTY, run) && Possible(Exec(EMPTY, run), more)
    ensures HashesKept(Exec(EMPTY, run), Exec(Exec(EMPTY, run), more))
  {
    RunKeepsBooks(EMPTY, run);
    RunKeepsBooks(Exec(EMPTY, run), more);
  }

  predicate StaysOrFollows(before: Status, after: Status) {
    after == before || MayMove(before, after)
  }

  lemma PayIsAnEdge(b: Books, lines: seq<Line>, txHash: Option<string>, amount: Option<Money>, known: set<string>,
                    now: Time, reference: nat)
    requires PaymentsOk(b) && (forall line :: line in lines ==> line.order in b.orders) && reference in b.orders
    ensures var after := Pay(b, lines, txHash, amount, known, now).0.orders;
            reference in after && StaysOrFollows(b.orders[reference].status, after[reference].status)
  {
    PayIsAllOrNothing(b, lines, txHash, amount, known, now);
    if reference in OrdersOf(lines) && PaymentAccepted(b, lines, txHash, known) {
      var i :| 0 <= i < |lines| && OrdersOf(lines)[i] == reference;
      assert Payable(b.orders, lines[i]);
    }
  }

  lemma ActionIsAnEdge(b: Books, t: Timed, reference: nat)
    requires PaymentsOk(b) && b.nextReference !in b.orders && Doable(b, t) && reference in b.orders
    ensures reference in Next(b, t).orders
    ensures StaysOrFollows(b.orders[reference].status, Next(b, t).orders[reference].status)
  {
    match t.action
    case Open(_, _, _, _) =>
    case Deal(r, step, entitled) =>
      StepsFollowTheTable(b.orders[r], step, entitled, HasAccepted(b.log, b.orders[r]), t.now);
    case PayFor(lines, txHash, amount, known) => PayIsAnEdge(b, lines, txHash, amount, known, t.now, reference);
    case Prove(settlement, proof) => AttachReachesEveryOrder(b, settlement, proof, t.now);
  }

  /** Every change of status is an edge of the table, the direct assignment in `record` included. */
  lemma EveryMoveIsAnEdge(run: seq<Timed>, t: Timed, reference: nat)
    requires Possible(EMPTY, run) && Doable(Exec(EMPTY, run), t) && reference in Exec(EMPTY, run).orders
    ensures var b := Exec(EMPTY, run);
            var after := Next(b, t).orders;
            reference in after && StaysOrFollows(b.orders[reference].status, after[reference].status)
  {
    RunKeepsBooks(EMPTY, run);
    ActionIsAnEdge(Exec(EMPTY, run), t, reference);
  }
}
