/**
 A supplier's acceptance that answers an order of an earlier round
 (app/domain/fx.py:460-484, 730-794, 851-861): a run that gets there.
 */
module FxRounds {
  import opened Prelude
  import Text
  import opened FxOrders
  import opened FxSteps
  import opened Ledger
  import opened LedgerRuns
  import opened FxLimits

  ghost predicate LeadsTo(b: Books, run: seq<Timed>, b': Books) {
    Possible(b, run) && Exec(b, run) == b'
  }

  lemma {:induction false} ThenRun(a: Books, first: seq<Timed>, b: Books, second: seq<Timed>, c: Books)
    requires LeadsTo(a, first, b) && LeadsTo(b, second, c)
    ensures LeadsTo(a, first + second, c)
    decreases |first|
  {
    if first == [] {
      assert first + second == second;
    } else {
      ThenRun(Next(a, first[0]), first[1..], b, second, c);
      assert (first + second)[1..] == first[1..] + second;
    }
  }

  lemma OneStep(o: Order, log: seq<Event>, clock: Time, step: Step, o': Order, what: What)
    requires o.reference == FIRST_REFERENCE && !step.Settle? && !step.AttachProof?
    requires Act(o, step, true, HasAccepted(log, o), clock + 1) == Record(o', what)
    ensures LeadsTo(Solo(o, log, clock), [Do(step, clock + 1)],
                    Solo(o', log + [Noted(o', what, clock + 1)], clock + 1))
  {
    DoNext(o, log, clock, step, o', what, []);
    assert [Do(step, clock + 1)] + [] == [Do(step, clock + 1)];
  }

  ghost predicate Overtaken(log: seq<Event>) {
    RepricedSinceOrdered(History(log, FIRST_REFERENCE))
  }

  lemma OvertakenOneMore(log: seq<Event>, o: Order, what: What, at: Time)
    requires o.reference == FIRST_REFERENCE
    ensures Overtaken(log + [Noted(o, what, at)]) <==> Amends(what) || (Overtaken(log) && !OrdersForSupplier(what))
  {
    ParseInvertsReferences(o);
    HistoryOneMore(log, Noted(o, what, at), FIRST_REFERENCE);
    HoldsOneMore(History(log, FIRST_REFERENCE), what, Amends, OrdersForSupplier);
  }

  // ---- the first round: an order to the supplier, repriced and turned down ---------------

  function FirstRound(terms: Terms, supplierRate: Money, clientRate: Money, reason: string): seq<Timed> {
    [Do(CreateSupplierOrder(terms), 6)] + [Do(Reprice(supplierRate, clientRate, reason), 7)]
    + [Do(RejectClientRate(reason), 8)]
  }

  lemma FirstRoundIs(o: Order, log: seq<Event>, terms: Terms, supplierRate: Money, clientRate: Money, reason: string)
      returns (o': Order, log': seq<Event>)
    requires o.reference == FIRST_REFERENCE && o.status == AwaitingSupplierAcceptance
    requires 0 < supplierRate <= clientRate && Text.Strip(reason) != ""
    ensures LeadsTo(Solo(o, log, 5), FirstRound(terms, supplierRate, clientRate, reason), Solo(o', log', 8))
    ensures o'.reference == FIRST_REFERENCE && o'.status == RateRejected && Overtaken(log')
    ensures o'.supplier.account == Some(Text.Strip(terms.account))
  {
    var o1 := o.(supplier := HalfFrom(CleanTerms(terms)));
    var built := OrderCreated(Supplier, CleanTerms(terms));
    var log1 := log + [Noted(o1, built, 6)];
    OneStep(o, log, 5, CreateSupplierOrder(terms), o1, built);
    var o2, log2 := RepricedAtSeven(o1, log1, supplierRate, clientRate, reason);
    ThenRun(Solo(o, log, 5), [Do(CreateSupplierOrder(terms), 6)], Solo(o1, log1, 6),
            [Do(Reprice(supplierRate, clientRate, reason), 7)], Solo(o2, log2, 7));
    o', log' := TurnedDownAtEight(o2, log2, reason);
    ThenRun(Solo(o, log, 5),
            [Do(CreateSupplierOrder(terms), 6)] + [Do(Reprice(supplierRate, clientRate, reason), 7)],
            Solo(o2, log2, 7), [Do(RejectClientRate(reason), 8)], Solo(o', log', 8));
  }

  lemma RepricedAtSeven(o: Order, log: seq<Event>, supplierRate: Money, clientRate: Money, reason: string)
      returns (o': Order, log': seq<Event>)
    requires o.reference == FIRST_REFERENCE && o.status == AwaitingSupplierAcceptance
    requires 0 < supplierRate <= clientRate && Text.Strip(reason) != ""
    ensures LeadsTo(Solo(o, log, 6), [Do(Reprice(supplierRate, clientRate, reason), 7)], Solo(o', log', 7))
    ensures o'.reference == FIRST_REFERENCE && o'.status == RateQuoted && Overtaken(log')
    ensures o'.supplier.account == o.supplier.account
  {
    o' := Repriced(o, supplierRate, clientRate).(status := RateQuoted);
    var amended := RateAmended(Text.Strip(reason), o.supplier.rate, o.client.rate, supplierRate, clientRate);
    log' := log + [Noted(o', amended, 7)];
    OneStep(o, log, 6, Reprice(supplierRate, clientRate, reason), o', amended);
    OvertakenOneMore(log, o', amended, 7);
  }

  lemma TurnedDownAtEight(o: Order, log: seq<Event>, reason: string) returns (o': Order, log': seq<Event>)
    requires o.reference == FIRST_REFERENCE && o.status == RateQuoted && Overtaken(log)
    ensures LeadsTo(Solo(o, log, 7), [Do(RejectClientRate(reason), 8)], Solo(o', log', 8))
    ensures o'.reference == FIRST_REFERENCE && o'.status == RateRejected && Overtaken(log')
    ensures o'.supplier == o.supplier
  {
    o' := o.(status := RateRejected);
    var refused := ClientRateRejected(o.client.rate, reason);
    log' := log + [Noted(o', refused, 8)];
    OneStep(o, log, 7, RejectClientRate(reason), o', refused);
    OvertakenOneMore(log, o', refused, 8);
  }

  // ---- the second round: another supplier, who is sent nothing -----------------------------

  function Requoted(supplier: nat, asks: Money, quote: Money): seq<Timed> {
    [Do(RecordSupplierQuote(supplier, None, None, asks), 9)] + [Do(QuoteClient(quote, None), 10)]
  }

  lemma RequotedIs(o: Order, log: seq<Event>, supplier: nat, asks: Money, quote: Money)
      returns (o': Order, log': seq<Event>)
    requires o.reference == FIRST_REFERENCE && o.status == RateRejected && Overtaken(log) && asks <= quote
    ensures LeadsTo(Solo(o, log, 8), Requoted(supplier, asks, quote), Solo(o', log', 10))
    ensures o'.reference == FIRST_REFERENCE && o'.status == RateQuoted && Overtaken(log')
    ensures o'.supplierId == Some(supplier) && o'.supplier.account == o.supplier.account
  {
    var o1 := o.(supplierId := Some(supplier), supplierCode := None, supplier := o.supplier.(rate := Some(asks)));
    var log1 := log + [Noted(o1, SupplierQuoted(asks), 9)];
    OneStep(o, log, 8, RecordSupplierQuote(supplier, None, None, asks), o1, SupplierQuoted(asks));
    OvertakenOneMore(log, o1, SupplierQuoted(asks), 9);
    o' := o1.(status := RateQuoted, client := o1.client.(rate := Some(quote)));
    var quoted := Quoted(quote, o'.currencyCode);
    log' := log1 + [Noted(o', quoted, 10)];
    OneStep(o1, log1, 9, QuoteClient(quote, None), o', quoted);
    OvertakenOneMore(log1, o', quoted, 10);
    ThenRun(Solo(o, log, 8), [Do(RecordSupplierQuote(supplier, None, None, asks), 9)], Solo(o1, log1, 9),
            [Do(QuoteClient(quote, None), 10)], Solo(o', log', 10));
  }

  function Reconfirmed(terms: Terms): seq<Timed> {
    [Do(CreateClientOrder(terms), 11)] + [Do(ClientConfirms, 12)]
  }

  lemma ReconfirmedIs(o: Order, log: seq<Event>, terms: Terms) returns (o': Order, log': seq<Event>)
    requires o.reference == FIRST_REFERENCE && o.status == RateQuoted && Overtaken(log)
    ensures LeadsTo(Solo(o, log, 10), Reconfirmed(terms), Solo(o', log', 12))
    ensures o'.reference == FIRST_REFERENCE && o'.status == AwaitingSupplierAcceptance && Overtaken(log')
    ensures o'.supplierId == o.supplierId && o'.supplier.account == o.supplier.account
  {
    var o1, built := OrderedOn(o, terms), OrderCreated(Client, CleanTerms(terms));
    var log1 := log + [Noted(o1, built, 11)];
    OneStep(o, log, 10, CreateClientOrder(terms), o1, built);
    OvertakenOneMore(log, o1, built, 11);
    o', log' := ConfirmedAtTwelve(o1, log1);
    ThenRun(Solo(o, log, 10), [Do(CreateClientOrder(terms), 11)], Solo(o1, log1, 11), [Do(ClientConfirms, 12)],
            Solo(o', log', 12));
  }

  lemma ConfirmedAtTwelve(o: Order, log: seq<Event>) returns (o': Order, log': seq<Event>)
    requires o.reference == FIRST_REFERENCE && o.status == AwaitingClientConfirmation && Overtaken(log)
    ensures LeadsTo(Solo(o, log, 11), [Do(ClientConfirms, 12)], Solo(o', log', 12))
    ensures o'.reference == FIRST_REFERENCE && o'.status == AwaitingSupplierAcceptance && Overtaken(log')
    ensures o'.supplierId == o.supplierId && o'.supplier == o.supplier
  {
    o' := o.(clientConfirmedAt := Some(12), status := AwaitingSupplierAcceptance);
    var agreed := ClientConfirmed(o.client.rate, o.client.pays, o.client.receives);
    log' := log + [Noted(o', agreed, 12)];
    OneStep(o, log, 11, ClientConfirms, o', agreed);
    OvertakenOneMore(log, o', agreed, 12);
  }

  function UntilConfirmed(name: string, cost: Money, quote: Money, terms: Terms): seq<Timed> {
    ToQuote(name, cost, quote) + ([Do(CreateClientOrder(terms), 4)] + [Do(ClientConfirms, 5)])
  }

  lemma UntilConfirmedIs(name: string, cost: Money, quote: Money, terms: Terms) returns (o: Order, log: seq<Event>)
    requires cost <= quote
    ensures LeadsTo(EMPTY, UntilConfirmed(name, cost, quote, terms), Solo(o, log, 5))
    ensures o.reference == FIRST_REFERENCE && o.status == AwaitingSupplierAcceptance
  {
    var ordered := OrderedOn(QuotedAt(Costed(name, cost), quote), terms);
    o := ordered.(clientConfirmedAt := Some(5), status := AwaitingSupplierAcceptance);
    log := QuoteLog(name, cost, quote) + [Noted(ordered, OrderCreated(Client, CleanTerms(terms)), 4)]
           + [Noted(o, ClientConfirmed(ordered.client.rate, ordered.client.pays, ordered.client.receives), 5)];
    ThenConfirmed(name, cost, quote, terms, []);
    assert [Do(ClientConfirms, 5)] + [] == [Do(ClientConfirms, 5)];
  }

  /** One supplier is sent an order; the deal is repriced and turned down; another quotes, and it is confirmed. */
  function TwoRounds(name: string, cost: Money, quote: Money, terms: Terms, order: Terms, supplierRate: Money,
                     clientRate: Money, reason: string, supplier: nat): seq<Timed>
  {
    UntilConfirmed(name, cost, quote, terms)
    + (FirstRound(order, supplierRate, clientRate, reason) + (Requoted(supplier, cost, quote) + Reconfirmed(terms)))
  }

  /**
   A deal whose present supplier was never sent anything can be accepted for them, with the account of
   the supplier before on it: at any rates and terms, whoever the new supplier is.
   */
  lemma AcceptanceOfAnotherIsReached(name: string, cost: Money, quote: Money, terms: Terms, order: Terms,
                                     supplierRate: Money, clientRate: Money, reason: string, supplier: nat,
                                     entitled: bool, now: Time)
    requires cost <= quote && 0 < supplierRate <= clientRate && Text.Strip(reason) != ""
    ensures var run := TwoRounds(name, cost, quote, terms, order, supplierRate, clientRate, reason, supplier);
            && Possible(EMPTY, run)
            && var b := Exec(EMPTY, run);
               && FIRST_REFERENCE in b.orders
               && var o := b.orders[FIRST_REFERENCE];
                  && o.supplierId == Some(supplier) && o.supplier.account == Some(Text.Strip(order.account))
                  && !OrderedThisRound(History(b.log, FIRST_REFERENCE))
                  && var out := Act(o, SupplierAccepts, entitled, HasAccepted(b.log, o), now);
                     out.refusal == None && out.order.status == AwaitingSettlement
  {
    var o0, log0 := UntilConfirmedIs(name, cost, quote, terms);
    var o1, log1 := FirstRoundIs(o0, log0, order, supplierRate, clientRate, reason);
    var o2, log2 := RequotedIs(o1, log1, supplier, cost, quote);
    var o3, log3 := ReconfirmedIs(o2, log2, terms);
    ThenRun(Solo(o1, log1, 8), Requoted(supplier, cost, quote), Solo(o2, log2, 10), Reconfirmed(terms),
            Solo(o3, log3, 12));
    ThenRun(Solo(o0, log0, 5), FirstRound(order, supplierRate, clientRate, reason), Solo(o1, log1, 8),
            Requoted(supplier, cost, quote) + Reconfirmed(terms), Solo(o3, log3, 12));
    ThenRun(EMPTY, UntilConfirmed(name, cost, quote, terms), Solo(o0, log0, 5),
            FirstRound(order, supplierRate, clientRate, reason)
              + (Requoted(supplier, cost, quote) + Reconfirmed(terms)),
            Solo(o3, log3, 12));
    var run := TwoRounds(name, cost, quote, terms, order, supplierRate, clientRate, reason, supplier);
    AcceptanceAnswersAnOrderIff(run, FIRST_REFERENCE, entitled, now);
  }
}
