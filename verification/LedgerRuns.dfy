/** What every run of the FX desk keeps: each deal's history, and the payment ledger. */
module LedgerRuns {
  import opened Prelude
  import opened FxOrders
  import opened FxSteps
  import opened FxHistory
  import opened Ledger

  /** The events about one deal, found by reading the number back out of their references. */
  function History(log: seq<Event>, reference: nat): seq<What> {
    if log == [] then []
    else
      var before := History(log[..|log| - 1], reference);
      var last := log[|log| - 1];
      if ParseFxReference(last.fxReference) == Some(reference) then before + [last.what] else before
  }

  lemma HistoryOneMore(log: seq<Event>, e: Event, reference: nat)
    ensures History(log + [e], reference) ==
            History(log, reference) + (if ParseFxReference(e.fxReference) == Some(reference) then [e.what] else [])
  {
    assert (log + [e])[..|log|] == log;
  }

  lemma {:induction false} NoHistory(log: seq<Event>, reference: nat)
    requires forall e :: e in log ==> ParseFxReference(e.fxReference) != Some(reference)
    ensures History(log, reference) == []
  {
    if log != [] {
      NoHistory(log[..|log| - 1], reference);
      assert log[|log| - 1] in log;
    }
  }

  // ---- every deal agrees with its history ---------------------------------------------------

  ghost predicate DealOk(o: Order, reference: nat, log: seq<Event>) {
    o.reference == reference && OrderOk(o, History(log, reference))
  }

  ghost predicate KnownDeal(e: Event, next: nat) {
    var r := ParseFxReference(e.fxReference);
    r.Some? && r.value < next
  }

  ghost predicate DealsOk(orders: map<nat, Order>, log: seq<Event>, next: nat) {
    && FIRST_REFERENCE <= next
    && (forall r :: r in orders ==> FIRST_REFERENCE <= r < next && DealOk(orders[r], r, log))
    && (forall e :: e in log ==> KnownDeal(e, next))
  }

  ghost predicate HistoriesOk(b: Books) {
    DealsOk(b.orders, b.log, b.nextReference)
  }

  /** One deal changes, or appears, with one more event about it. */
  lemma DealsOneMore(orders: map<nat, Order>, log: seq<Event>, next: nat, o': Order, e: Event, next': nat)
    requires DealsOk(orders, log, next) && next <= next' && FIRST_REFERENCE <= o'.reference < next'
    requires ParseFxReference(e.fxReference) == Some(o'.reference)
    requires OrderOk(o', History(log, o'.reference) + [e.what])
    ensures DealsOk(orders[o'.reference := o'], log + [e], next')
  {
    var orders', log' := orders[o'.reference := o'], log + [e];
    forall r | r in orders' ensures FIRST_REFERENCE <= r < next' && DealOk(orders'[r], r, log') {
      HistoryOneMore(log, e, r);
      if r != o'.reference {
        assert History(log', r) == History(log, r);
        assert DealOk(orders[r], r, log);
      }
    }
    forall x | x in log' ensures KnownDeal(x, next') {
      assert x != e ==> KnownDeal(x, next);
    }
  }

  /** A successful step is one record: the new columns and the event. */
  lemma StepOrderShape(b: Books, reference: nat, step: Step, entitled: bool, now: Time) returns (o': Order, e: Event)
    requires reference in b.orders && b.orders[reference].reference == reference && FIRST_REFERENCE <= reference
    ensures var o := b.orders[reference];
            var out := Act(o, step, entitled, HasAccepted(b.log, o), now);
            var b' := StepOrder(b, reference, step, entitled, now);
            && (out.refusal.Some? ==> b' == b)
            && (out.refusal == None ==>
                  && out == Record(o', e.what)
                  && o'.reference == reference && ParseFxReference(e.fxReference) == Some(reference)
                  && e == Event(o'.clientWorkItem, DisplayReference(o'), now, e.what)
                  && b' == b.(orders := b.orders[reference := o'], log := b.log + [e], clock := now))
  {
    var o := b.orders[reference];
    var accepted := HasAccepted(b.log, o);
    StepsFollowTheTable(o, step, entitled, accepted, now);
    var out := Act(o, step, entitled, accepted, now);
    o' := out.order;
    e := Event(o.clientWorkItem, DisplayReference(o'), now, if out.event.Some? then out.event.value else Requested);
    if out.refusal == None {
      ParseInvertsReferences(o');
    }
  }

  lemma StepKeepsDeals(b: Books, reference: nat, step: Step, entitled: bool, now: Time)
    requires HistoriesOk(b) && reference in b.orders && Applicable(b.orders[reference], step)
    ensures HistoriesOk(StepOrder(b, reference, step, entitled, now))
  {
    var o := b.orders[reference];
    assert DealOk(o, reference, b.log);
    var o', e := StepOrderShape(b, reference, step, entitled, now);
    if Act(o, step, entitled, HasAccepted(b.log, o), now).refusal == None {
      StepKeepsOrder(o, History(b.log, reference), step, entitled, HasAccepted(b.log, o), now, o', e.what);
      DealsOneMore(b.orders, b.log, b.nextReference, o', e, b.nextReference);
    }
  }

  lemma OpenKeepsDeals(b: Books, clientId: nat, code: Option<string>, name: string, workItem: nat, now: Time)
    requires HistoriesOk(b)
    ensures HistoriesOk(OpenOrder(b, clientId, code, name, workItem, now))
  {
    var n := b.nextReference;
    var o := OpenOrder(b, clientId, code, name, workItem, now).orders[n];
    forall x | x in b.log ensures ParseFxReference(x.fxReference) != Some(n) {
      assert KnownDeal(x, n);
    }
    NoHistory(b.log, n);
    NewDealOk(o);
    ParseInvertsReferences(o);
    assert [] + [Requested] == [Requested];
    DealsOneMore(b.orders, b.log, n, o, Event(workItem, DisplayReference(o), now, Requested), n + 1);
  }

  lemma NewDealOk(o: Order)
    requires o.status == RateRequested && FiguresOf(o) == OPENED
    requires o.clientConfirmedAt == None && o.supplierConfirmedAt == None && o.settledAt == None && o.closedAt == None
    ensures OrderOk(o, [Requested])
  {
    assert [Requested][..0] == [];
    assert Replay([Requested]) == OPENED;
    assert ProgressOf([Requested]) == Progress(None, None, None, None);
    assert !HasHash([Requested]);
  }

  // ---- the ledger -------------------------------------------------------------------------------

  ghost predicate AllocationOk(orders: map<nat, Order>, settlements: seq<Settlement>, a: Allocation) {
    && a.settlement < |settlements|
    && a.order in orders && Paid(orders[a.order].status)
    && orders[a.order].txHash == settlements[a.settlement].txHash
  }

  /** One allocation an order, none but on paid orders, each with its settlement's hash. */
  ghost predicate LedgerOk(orders: map<nat, Order>, settlements: seq<Settlement>, allocations: seq<Allocation>) {
    && (forall i, j :: 0 <= i < j < |allocations| ==> allocations[i].order != allocations[j].order)
    && (forall a :: a in allocations ==> AllocationOk(orders, settlements, a))
    && (forall s :: s in settlements && s.txHash.Some? ==> s.txHash.value != "")
    && (forall r :: r in orders && orders[r].txHash.Some? ==> Paid(orders[r].status))
  }

  ghost predicate PaymentsOk(b: Books) {
    LedgerOk(b.orders, b.settlements, b.allocations)
  }

  /** A hash once set, on an order or on a settlement, is never changed. */
  ghost predicate HashesKept(b: Books, b': Books) {
    && (forall r :: r in b.orders ==>
        r in b'.orders && (b.orders[r].txHash.Some? ==> b'.orders[r].txHash == b.orders[r].txHash))
    && |b.settlements| <= |b'.settlements|
    && (forall i :: 0 <= i < |b.settlements| && b.settlements[i].txHash.Some? ==>
          b'.settlements[i].txHash == b.settlements[i].txHash)
  }

  /** Ordinary steps: a paid order keeps its hash and stays paid; a hash appears only on an unpaid one. */
  lemma StepKeepsHash(o: Order, step: Step, entitled: bool, accepted: bool, now: Time)
    requires !step.Settle? && !step.AttachProof? && (o.txHash.Some? ==> Paid(o.status))
    ensures var o' := Commit(o, Act(o, step, entitled, accepted, now));
            && (Paid(o.status) ==> Paid(o'.status) && o'.txHash == o.txHash)
            && (o'.txHash.Some? ==> Paid(o'.status))
  {
  }

  lemma StepKeepsLedger(b: Books, reference: nat, step: Step, entitled: bool, now: Time)
    requires PaymentsOk(b) && reference in b.orders && !step.Settle? && !step.AttachProof?
    ensures var b' := StepOrder(b, reference, step, entitled, now); PaymentsOk(b') && HashesKept(b, b')
  {
    var o := b.orders[reference];
    var accepted := HasAccepted(b.log, o);
    StepKeepsHash(o, step, entitled, accepted, now);
    OrderChanges(b, StepOrder(b, reference, step, entitled, now), reference,
                 Commit(o, Act(o, step, entitled, accepted, now)));
  }

  lemma OrderChanges(b: Books, b': Books, reference: nat, o': Order)
    requires PaymentsOk(b) && reference in b.orders
    requires b'.allocations == b.allocations && b'.settlements == b.settlements
    requires b'.orders == b.orders[reference := o'] || (b' == b && o' == b.orders[reference])
    requires Paid(b.orders[reference].status) ==> Paid(o'.status) && o'.txHash == b.orders[reference].txHash
    requires o'.txHash.Some? ==> Paid(o'.status)
    ensures PaymentsOk(b') && HashesKept(b, b')
  {
    forall a | a in b'.allocations ensures AllocationOk(b'.orders, b'.settlements, a) {
      assert AllocationOk(b.orders, b.settlements, a);
    }
  }

  // ---- a payment ------------------------------------------------------------------------------------

  function SettledBy(o: Order, hash: Option<string>, now: Time): Order {
    o.(txHash := hash, settledAt := Some(now), status := AwaitingReceipt)
  }

  function ShareOf(line: Line, settlement: nat): Allocation
    requires line.rate > 0 && line.country.Some?
  {
    Allocation(settlement, line.order, Text.Upper(Text.Strip(line.country.value)), line.localAmount, line.rate,
               Usdt(line.localAmount, line.rate))
  }

  function Shares(lines: seq<Line>, settlement: nat): seq<Allocation>
    requires Priced(lines)
  {
    if lines == [] then [] else Shares(lines[..|lines| - 1], settlement) + [ShareOf(lines[|lines| - 1], settlement)]
  }

  /** A line that can be settled: its order awaits settlement and its figures convert. */
  predicate Payable(orders: map<nat, Order>, line: Line) {
    && line.order in orders && orders[line.order].status == AwaitingSettlement
    && line.rate > 0 && line.country.Some?
  }

  lemma SettleLineEffect(b: Books, line: Line, settlement: nat, hash: Option<string>, now: Time)
    requires Payable(b.orders, line)
    ensures var b' := SettleLine(b, line, settlement, hash, now);
            && b'.orders == b.orders[line.order := SettledBy(b.orders[line.order], hash, now)]
            && b'.allocations == b.allocations + [ShareOf(line, settlement)]
            && b'.settlements == b.settlements && b'.nextReference == b.nextReference
  {
  }

  lemma SettleLineKeepsDeals(b: Books, line: Line, settlement: nat, hash: Option<string>, now: Time)
    requires HistoriesOk(b) && Payable(b.orders, line)
    ensures HistoriesOk(SettleLine(b, line, settlement, hash, now))
  {
    StepKeepsDeals(b, line.order, Settle(hash, settlement), true, now);
  }

  lemma SettleLineKeepsLedger(b: Books, line: Line, settlement: nat, hash: Option<string>, now: Time)
    requires PaymentsOk(b) && Payable(b.orders, line)
    requires settlement < |b.settlements| && b.settlements[settlement].txHash == hash
    ensures PaymentsOk(SettleLine(b, line, settlement, hash, now))
  {
    SettleLineEffect(b, line, settlement, hash, now);
    var b' := SettleLine(b, line, settlement, hash, now);
    forall a | a in b'.allocations ensures AllocationOk(b'.orders, b'.settlements, a) {
      assert a in b.allocations ==> AllocationOk(b.orders, b.settlements, a);
    }
    forall i, j | 0 <= i < j < |b'.allocations| ensures b'.allocations[i].order != b'.allocations[j].order {
      assert b.allocations[i] in b.allocations;
      assert AllocationOk(b.orders, b.settlements, b.allocations[i]);
    }
  }

  /** The orders on the payment, and no others, have moved on with its hash. */
  ghost predicate Moved(orders: map<nat, Order>, orders': map<nat, Order>, on: seq<nat>, hash: Option<string>,
                        now: Time) {
    && orders'.Keys == orders.Keys
    && forall r :: r in orders ==> orders'[r] == if r in on then SettledBy(orders[r], hash, now) else orders[r]
  }

  lemma {:induction false} SettleLinesEffect(b: Books, lines: seq<Line>, settlement: nat, hash: Option<string>,
                                             now: Time)
    requires Distinct(OrdersOf(lines)) && Priced(lines) && forall line :: line in lines ==> Payable(b.orders, line)
    requires settlement < |b.settlements| && b.settlements[settlement].txHash == hash
    ensures var b' := SettleLines(b, lines, settlement, hash, now);
            && b'.settlements == b.settlements && b'.allocations == b.allocations + Shares(lines, settlement)
            && Moved(b.orders, b'.orders, OrdersOf(lines), hash, now)
            && (HistoriesOk(b) ==> HistoriesOk(b')) && (PaymentsOk(b) ==> PaymentsOk(b'))
    decreases |lines|
  {
    if lines == [] {
      assert b.allocations + [] == b.allocations;
    } else {
      var n := |lines| - 1;
      var rest, line := lines[..n], lines[n];
      assert OrdersOf(lines) == OrdersOf(rest) + [line.order];
      DistinctSnoc(OrdersOf(rest), line.order);
      SettleLinesEffect(b, rest, settlement, hash, now);
      var before := SettleLines(b, rest, settlement, hash, now);
      assert line.order !in OrdersOf(rest);
      assert Payable(b.orders, line) && Payable(before.orders, line);
      SettleLineEffect(before, line, settlement, hash, now);
      if HistoriesOk(b) {
        SettleLineKeepsDeals(before, line, settlement, hash, now);
      }
      if PaymentsOk(b) {
        SettleLineKeepsLedger(before, line, settlement, hash, now);
      }
    }
  }

  /** When `record` goes through: the guards of its loop, its hash check, and the storage's uniqueness. */
  ghost predicate PaymentAccepted(b: Books, lines: seq<Line>, txHash: Option<string>, known: set<string>) {
    && lines != [] && Distinct(OrdersOf(lines))
    && (Given(txHash) ==> CheckHash(txHash.value).Some?)
    && forall line :: line in lines ==> Payable(b.orders, line) && KnownCountry(line.country, known)
  }

  lemma {:induction false} FaultIff(b: Books, lines: seq<Line>, known: set<string>)
    requires PaymentsOk(b) && forall line :: line in lines ==> line.order in b.orders
    ensures FirstFault(b, lines, known) == None
       <==> forall line :: line in lines ==> Payable(b.orders, line) && KnownCountry(line.country, known)
  {
    if lines != [] {
      FaultIff(b, lines[1..], known);
      if Allocated(b, lines[0].order) {
        var a :| a in b.allocations && a.order == lines[0].order;
        assert AllocationOk(b.orders, b.settlements, a);
      }
      assert forall line :: line in lines <==> line == lines[0] || line in lines[1..];
    }
  }

  /** What a payment that goes through leaves behind. */
  ghost predicate Recorded(b: Books, b': Books, lines: seq<Line>, hash: Option<string>, amount: Option<Money>,
                           now: Time) {
    && b'.settlements == b.settlements + [Settlement(FIRST_REFERENCE + |b.settlements|, hash, amount, now)]
    && Priced(lines) && b'.allocations == b.allocations + Shares(lines, |b.settlements|)
    && Moved(b.orders, b'.orders, OrdersOf(lines), hash, now)
  }

  /**
   A payment settles all its lines or none. It is refused exactly when a guard
   fails - no order awaiting settlement is allocated already - and then nothing
   has changed; otherwise every order on it, and no other, moves on.
   */
  lemma PayIsAllOrNothing(b: Books, lines: seq<Line>, txHash: Option<string>, amount: Option<Money>,
                          known: set<string>, now: Time)
    requires PaymentsOk(b) && forall line :: line in lines ==> line.order in b.orders
    ensures var (b', refusal) := Pay(b, lines, txHash, amount, known, now);
            && (refusal == None <==> PaymentAccepted(b, lines, txHash, known))
            && (refusal.Some? ==> b' == b)
            && (refusal == None ==>
                  Recorded(b, b', lines, CleanHash(txHash), amount, now))
  {
    FaultIff(b, lines, known);
    if PaymentAccepted(b, lines, txHash, known) {
      SettleLinesEffect(Booked(b, CleanHash(txHash), amount, now), lines, |b.settlements|, CleanHash(txHash), now);
    }
  }

  lemma BookedKeepsLedger(b: Books, hash: Option<string>, amount: Option<Money>, now: Time)
    requires PaymentsOk(b) && (hash.Some? ==> hash.value != "")
    ensures PaymentsOk(Booked(b, hash, amount, now))
  {
    var b' := Booked(b, hash, amount, now);
    forall a | a in b.allocations ensures AllocationOk(b'.orders, b'.settlements, a) {
      assert AllocationOk(b.orders, b.settlements, a);
    }
  }

  lemma PayKeepsLedger(b: Books, lines: seq<Line>, txHash: Option<string>, amount: Option<Money>, known: set<string>,
                       now: Time)
    requires PaymentsOk(b) && forall line :: line in lines ==> line.order in b.orders
    ensures PaymentsOk(Pay(b, lines, txHash, amount, known, now).0)
  {
    FaultIff(b, lines, known);
    if PaymentAccepted(b, lines, txHash, known) {
      BookedKeepsLedger(b, CleanHash(txHash), amount, now);
      SettleLinesEffect(Booked(b, CleanHash(txHash), amount, now), lines, |b.settlements|, CleanHash(txHash), now);
    }
  }

  /** `Pay`, as far as the books are concerned: what is settled, or nothing. */
  lemma PayIs(b: Books, lines: seq<Line>, txHash: Option<string>, amount: Option<Money>, known: set<string>, now: Time)
    requires forall line :: line in lines ==> line.order in b.orders
    ensures var (b', refusal) := Pay(b, lines, txHash, amount, known, now);
            && (refusal.Some? ==> b' == b)
            && (refusal == None ==>
                  Priced(lines) && b' == SettleLines(Booked(b, CleanHash(txHash), amount, now), lines, |b.settlements|,
                                                     CleanHash(txHash), now))
  {
    if FirstFault(b, lines, known) == None {
      NoFaultMeans(b, lines, known);
    }
  }

  lemma SettledKeepsDeals(b: Books, lines: seq<Line>, hash: Option<string>, amount: Option<Money>, now: Time)
    requires HistoriesOk(b) && Distinct(OrdersOf(lines)) && Priced(lines)
             && forall line :: line in lines ==> Payable(b.orders, line)
    ensures HistoriesOk(SettleLines(Booked(b, hash, amount, now), lines, |b.settlements|, hash, now))
  {
    var booked := Booked(b, hash, amount, now);
    assert HistoriesOk(booked);
    SettleLinesEffect(booked, lines, |b.settlements|, hash, now);
  }

  lemma PayKeepsDeals(b: Books, lines: seq<Line>, txHash: Option<string>, amount: Option<Money>, known: set<string>,
                      now: Time)
    requires HistoriesOk(b) && PaymentsOk(b) && forall line :: line in lines ==> line.order in b.orders
    ensures HistoriesOk(Pay(b, lines, txHash, amount, known, now).0)
  {
    PayIs(b, lines, txHash, amount, known, now);
    PayIsAllOrNothing(b, lines, txHash, amount, known, now);
    if PaymentAccepted(b, lines, txHash, known) {
      SettledKeepsDeals(b, lines, CleanHash(txHash), amount, now);
    }
  }

  lemma PayKeepsHashes(b: Books, lines: seq<Line>, txHash: Option<string>, amount: Option<Money>, known: set<string>,
                       now: Time)
    requires PaymentsOk(b) && forall line :: line in lines ==> line.order in b.orders
    ensures HashesKept(b, Pay(b, lines, txHash, amount, known, now).0)
  {
    PayIsAllOrNothing(b, lines, txHash, amount, known, now);
    if PaymentAccepted(b, lines, txHash, known) {
      NoneOnPaymentHasHash(b, lines, txHash, known);
    }
  }

  lemma NoneOnPaymentHasHash(b: Books, lines: seq<Line>, txHash: Option<string>, known: set<string>)
    requires PaymentsOk(b) && PaymentAccepted(b, lines, txHash, known)
    ensures forall r :: r in OrdersOf(lines) ==> r in b.orders && b.orders[r].txHash == None
  {
    forall r | r in OrdersOf(lines) ensures r in b.orders && b.orders[r].txHash == None {
      var i :| 0 <= i < |lines| && OrdersOf(lines)[i] == r;
      assert Payable(b.orders, lines[i]);
    }
  }

  // ---- a proof that arrives later -------------------------------------------------------------------

  predicate CoveredBefore(b: Books, k: nat, settlement: nat, order: nat)
    requires k <= |b.allocations|
  {
    exists i :: 0 <= i < k && b.allocations[i].settlement == settlement && b.allocations[i].order == order
  }

  /** The orders of the first `k` allocations of this settlement carry the hash. */
  ghost predicate Proved(b: Books, b': Books, k: nat, settlement: nat, hash: string)
    requires k <= |b.allocations|
  {
    && b'.orders.Keys == b.orders.Keys
    && b'.settlements == b.settlements && b'.allocations == b.allocations && b'.nextReference == b.nextReference
    && forall r :: r in b.orders ==>
         b'.orders[r] == if CoveredBefore(b, k, settlement, r) then b.orders[r].(txHash := Some(hash)) else b.orders[r]
  }

  lemma AttachOneEffect(b: Books, a: Allocation, settlement: nat, hash: string, now: Time)
    requires a.order in b.orders
    ensures var b' := AttachOne(b, a, settlement, hash, now);
            && b'.orders == (if a.settlement == settlement
                             then b.orders[a.order := b.orders[a.order].(txHash := Some(hash))] else b.orders)
            && b'.settlements == b.settlements && b'.allocations == b.allocations && b'.nextReference == b.nextReference
  {
  }

  lemma AttachOneKeepsDeals(b: Books, a: Allocation, settlement: nat, hash: string, now: Time)
    requires HistoriesOk(b) && a.order in b.orders && Paid(b.orders[a.order].status)
    ensures HistoriesOk(AttachOne(b, a, settlement, hash, now))
  {
    if a.settlement == settlement {
      StepKeepsDeals(b, a.order, AttachProof(hash, settlement), true, now);
    }
  }

  lemma ProvedOneMore(b: Books, before: Books, after: Books, k: nat, settlement: nat, hash: string)
    requires k < |b.allocations| && Proved(b, before, k, settlement, hash)
    requires var a := b.allocations[k];
             && a.order in b.orders
             && after.orders == (if a.settlement == settlement
                                 then before.orders[a.order := before.orders[a.order].(txHash := Some(hash))]
                                 else before.orders)
    requires after.settlements == before.settlements && after.allocations == before.allocations
             && after.nextReference == before.nextReference
    ensures Proved(b, after, k + 1, settlement, hash)
  {
    var a := b.allocations[k];
    forall r | r in b.orders
      ensures CoveredBefore(b, k + 1, settlement, r) <==>
              CoveredBefore(b, k, settlement, r) || (a.settlement == settlement && a.order == r)
    {
    }
  }

  lemma {:induction false} AttachOverEffect(b: Books, k: nat, settlement: nat, hash: string, now: Time)
    requires k <= |b.allocations| && forall a :: a in b.allocations ==> a.order in b.orders
    ensures Proved(b, AttachOver(b, k, settlement, hash, now), k, settlement, hash)
  {
    if k > 0 {
      AttachOverEffect(b, k - 1, settlement, hash, now);
      var before := AttachOver(b, k - 1, settlement, hash, now);
      assert b.allocations[k - 1] in b.allocations;
      AttachOneEffect(before, b.allocations[k - 1], settlement, hash, now);
      ProvedOneMore(b, before, AttachOver(b, k, settlement, hash, now), k - 1, settlement, hash);
    }
  }

  lemma AttachNextKeepsDeals(b: Books, k: nat, settlement: nat, hash: string, now: Time)
    requires 0 < k <= |b.allocations|
             && forall a :: a in b.allocations ==> a.order in b.orders && Paid(b.orders[a.order].status)
    requires HistoriesOk(AttachOver(b, k - 1, settlement, hash, now))
    ensures HistoriesOk(AttachOver(b, k, settlement, hash, now))
  {
    AttachOverEffect(b, k - 1, settlement, hash, now);
    assert b.allocations[k - 1] in b.allocations;
    AttachOneKeepsDeals(AttachOver(b, k - 1, settlement, hash, now), b.allocations[k - 1], settlement, hash, now);
  }

  lemma AttachOverKeepsDeals(b: Books, k: nat, settlement: nat, hash: string, now: Time)
    requires k <= |b.allocations| && HistoriesOk(b)
    requires forall a :: a in b.allocations ==> a.order in b.orders && Paid(b.orders[a.order].status)
    ensures HistoriesOk(AttachOver(b, k, settlement, hash, now))
  {
    var i := 0;
    while i < k
      invariant 0 <= i <= k && HistoriesOk(AttachOver(b, i, settlement, hash, now))
    {
      i := i + 1;
      AttachNextKeepsDeals(b, i, settlement, hash, now);
    }
  }

  /**
   The proof goes onto the settlement and onto every order it covers; it is
   refused when the settlement has one or the text is not a hash.
   */
  lemma AttachReachesEveryOrder(b: Books, settlement: nat, txHash: string, now: Time)
    requires PaymentsOk(b) && settlement < |b.settlements|
    ensures var (b', refusal) := AttachHash(b, settlement, txHash, now);
            && (refusal == None <==> b.settlements[settlement].txHash == None && CheckHash(txHash).Some?)
            && (refusal.Some? ==> b' == b)
            && (refusal == None ==>
                  && b'.settlements == b.settlements[settlement :=
                                                     b.settlements[settlement].(txHash := CheckHash(txHash))]
                  && b'.allocations == b.allocations && b'.orders.Keys == b.orders.Keys
                  && forall r :: r in b.orders ==>
                       b'.orders[r] == if CoveredBefore(b, |b.allocations|, settlement, r)
                                       then b.orders[r].(txHash := CheckHash(txHash)) else b.orders[r])
  {
    if b.settlements[settlement].txHash == None && CheckHash(txHash).Some? {
      var hash := CheckHash(txHash).value;
      var b0 := b.(settlements := b.settlements[settlement := b.settlements[settlement].(txHash := Some(hash))],
                   clock := now);
      forall a | a in b0.allocations ensures a.order in b0.orders && Paid(b0.orders[a.order].status) {
        assert AllocationOk(b.orders, b.settlements, a);
      }
      AttachOverEffect(b0, |b0.allocations|, settlement, hash, now);
    } else {
      assert b.settlements[settlement] in b.settlements;
    }
  }

  lemma AttachKeepsLedger(b: Books, settlement: nat, txHash: string, now: Time)
    requires PaymentsOk(b) && settlement < |b.settlements|
    ensures var b' := AttachHash(b, settlement, txHash, now).0; PaymentsOk(b') && HashesKept(b, b')
  {
    AttachReachesEveryOrder(b, settlement, txHash, now);
    var (b', refusal) := AttachHash(b, settlement, txHash, now);
    if refusal == None {
      forall a | a in b'.allocations ensures AllocationOk(b'.orders, b'.settlements, a) {
        assert AllocationOk(b.orders, b.settlements, a);
        var i :| 0 <= i < |b.allocations| && b.allocations[i] == a;
        if CoveredBefore(b, |b.allocations|, settlement, a.order) {
          var j :| 0 <= j < |b.allocations| && b.allocations[j].settlement == settlement
            && b.allocations[j].order == a.order;
          assert i == j;
        } else {
          assert a.settlement != settlement;
        }
      }
      forall r | r in b.orders && CoveredBefore(b, |b.allocations|, settlement, r)
        ensures Paid(b.orders[r].status) && b.orders[r].txHash == None
      {
        var j :| 0 <= j < |b.allocations| && b.allocations[j].settlement == settlement && b.allocations[j].order == r;
        assert AllocationOk(b.orders, b.settlements, b.allocations[j]);
      }
    }
  }

  lemma AttachKeepsDeals(b: Books, settlement: nat, txHash: string, now: Time)
    requires HistoriesOk(b) && PaymentsOk(b) && settlement < |b.settlements|
    ensures HistoriesOk(AttachHash(b, settlement, txHash, now).0)
  {
    if AttachHash(b, settlement, txHash, now).1 == None {
      var hash := CheckHash(txHash).value;
      var b0 := b.(settlements := b.settlements[settlement := b.settlements[settlement].(txHash := Some(hash))],
                   clock := now);
      assert HistoriesOk(b0);
      forall a | a in b0.allocations ensures a.order in b0.orders && Paid(b0.orders[a.order].status) {
        assert AllocationOk(b.orders, b.settlements, a);
      }
      AttachOverKeepsDeals(b0, |b0.allocations|, settlement, hash, now);
    }
  }

  // ---- every run ---------------------------------------------------------------------------------------

  ghost predicate BooksOk(b: Books) {
    HistoriesOk(b) && PaymentsOk(b)
  }

  lemma ActionKeepsDeals(b: Books, t: Timed)
    requires BooksOk(b) && Doable(b, t)
    ensures HistoriesOk(Next(b, t))
  {
    match t.action
    case Open(clientId, code, name, workItem) => OpenKeepsDeals(b, clientId, code, name, workItem, t.now);
    case Deal(reference, step, entitled) => StepKeepsDeals(b, reference, step, entitled, t.now);
    case PayFor(lines, txHash, amount, known) => PayKeepsDeals(b, lines, txHash, amount, known, t.now);
    case Prove(settlement, proof) => AttachKeepsDeals(b, settlement, proof, t.now);
  }

  lemma ActionKeepsLedger(b: Books, t: Timed)
    requires BooksOk(b) && Doable(b, t)
    ensures PaymentsOk(Next(b, t)) && HashesKept(b, Next(b, t))
  {
    match t.action
    case Open(clientId, code, name, workItem) =>
      var b' := Next(b, t);
      assert b.nextReference !in b.orders;
      forall a | a in b'.allocations ensures AllocationOk(b'.orders, b'.settlements, a) {
        assert AllocationOk(b.orders, b.settlements, a);
      }
    case Deal(reference, step, entitled) => StepKeepsLedger(b, reference, step, entitled, t.now);
    case PayFor(lines, txHash, amount, known) =>
      PayKeepsLedger(b, lines, txHash, amount, known, t.now);
      PayKeepsHashes(b, lines, txHash, amount, known, t.now);
    case Prove(settlement, proof) => AttachKeepsLedger(b, settlement, proof, t.now);
  }

  lemma {:induction false} RunKeepsBooks(b: Books, run: seq<Timed>)
    requires BooksOk(b) && Possible(b, run)
    ensures BooksOk(Exec(b, run)) && HashesKept(b, Exec(b, run))
    decreases |run|
  {
    if run != [] {
      ActionKeepsDeals(b, run[0]);
      ActionKeepsLedger(b, run[0]);
      RunKeepsBooks(Next(b, run[0]), run[1..]);
    }
  }
}
