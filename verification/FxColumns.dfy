/**
 What each step of a deal writes where, and exactly when it is let through, column by column
 (app/domain/fx.py:460-892). No helper of the steps is used to say it.
 */
module FxColumns {
  import opened Prelude
  import opened Text
  import opened FxOrders
  import opened FxSteps

  /** One side's columns are these figures, as typed but for the space around words and the case of currencies. */
  predicate WrittenAs(half: Half, terms: Terms) {
    && half.account == Some(Strip(terms.account))
    && half.rate == Some(terms.rate)
    && half.pays == Some(terms.pays)
    && half.paysCurrency == Some(Upper(Strip(terms.paysCurrency)))
    && half.receives == Some(terms.receives)
    && half.receivesCurrency == Some(Upper(Strip(terms.receivesCurrency)))
  }

  /** The same of what the event records of them. */
  predicate RecordedAs(recorded: Terms, terms: Terms) {
    && recorded.account == Strip(terms.account)
    && recorded.rate == terms.rate
    && recorded.pays == terms.pays
    && recorded.paysCurrency == Upper(Strip(terms.paysCurrency))
    && recorded.receives == terms.receives
    && recorded.receivesCurrency == Upper(Strip(terms.receivesCurrency))
  }

  // ---- orders ----------------------------------------------------------------------------

  /** The client's order goes to the client's columns, each figure to its own, and nothing to the supplier's. */
  lemma ClientOrderWrites(o: Order, terms: Terms, entitled: bool, accepted: bool, now: Time)
    ensures var out := Act(o, CreateClientOrder(terms), entitled, accepted, now);
            && (out.refusal == None <==>
                  entitled && (o.status == RateQuoted || o.status == AwaitingClientConfirmation))
            && (out.refusal == None ==>
                  && WrittenAs(out.order.client, terms) && out.order.supplier == o.supplier
                  && out.order.status == AwaitingClientConfirmation
                  && out.order == o.(client := out.order.client, status := out.order.status)
                  && out.event.Some? && out.event.value.OrderCreated? && out.event.value.side == Client
                  && RecordedAs(out.event.value.terms, terms))
  {
  }

  /** The supplier's goes to the supplier's, and the deal stays where it is. */
  lemma SupplierOrderWrites(o: Order, terms: Terms, entitled: bool, accepted: bool, now: Time)
    ensures var out := Act(o, CreateSupplierOrder(terms), entitled, accepted, now);
            && (out.refusal == None <==> entitled && o.status == AwaitingSupplierAcceptance)
            && (out.refusal == None ==>
                  && WrittenAs(out.order.supplier, terms) && out.order.client == o.client
                  && out.order == o.(supplier := out.order.supplier)
                  && out.event.Some? && out.event.value.OrderCreated? && out.event.value.side == Supplier
                  && RecordedAs(out.event.value.terms, terms))
  {
  }

  /** A column that a figure was given for holds it; one that none was given for is as it was. */
  predicate Amended(now: Option<Money>, was: Option<Money>, given: Option<Money>) {
    now == match given case Some(_) => given case None => was
  }

  /** An amendment changes amounts alone, each on its own side and column, and records them before and after. */
  lemma AmendmentWrites(o: Order, clientPays: Money, clientReceives: Money, supplierPays: Option<Money>,
                        supplierReceives: Option<Money>, reason: string, entitled: bool, accepted: bool, now: Time)
    ensures var out := Act(o, AmendAmount(clientPays, clientReceives, supplierPays, supplierReceives, reason), entitled,
                           accepted, now);
            && (out.refusal == None <==>
                  && entitled && Strip(reason) != "" && clientPays > 0 && clientReceives > 0
                  && (o.status == AwaitingClientConfirmation || o.status == AwaitingSupplierAcceptance
                      || o.status == AwaitingSettlement))
            && (out.refusal == None ==>
                  var after := out.order;
                  && after.client.pays == Some(clientPays) && after.client.receives == Some(clientReceives)
                  && Amended(after.supplier.pays, o.supplier.pays, supplierPays)
                  && Amended(after.supplier.receives, o.supplier.receives, supplierReceives)
                  && after == o.(client := o.client.(pays := after.client.pays, receives := after.client.receives),
                                 supplier := o.supplier.(pays := after.supplier.pays,
                                                         receives := after.supplier.receives))
                  && out.event.Some? && out.event.value.AmountAmended? && out.event.value.reason == Strip(reason)
                  && RecordsAmounts(out.event.value.was, o) && RecordsAmounts(out.event.value.now, after))
  {
  }

  predicate RecordsAmounts(amounts: Amounts, o: Order) {
    && amounts.clientPays == o.client.pays && amounts.clientReceives == o.client.receives
    && amounts.supplierPays == o.supplier.pays && amounts.supplierReceives == o.supplier.receives
  }

  /** A repricing writes each rate on its own side, and clears both confirmations. */
  lemma RepricingWrites(o: Order, supplierRate: Money, clientRate: Money, reason: string, entitled: bool,
                        accepted: bool, now: Time)
    requires Act(o, Reprice(supplierRate, clientRate, reason), entitled, accepted, now).refusal == None
    ensures var out := Act(o, Reprice(supplierRate, clientRate, reason), entitled, accepted, now);
            && out.order.supplier.rate == Some(supplierRate) && out.order.client.rate == Some(clientRate)
            && out.order.clientConfirmedAt == None && out.order.supplierConfirmedAt == None
            && out.order.status == RateQuoted
            && out.order == o.(supplier := o.supplier.(rate := out.order.supplier.rate),
                               client := o.client.(rate := out.order.client.rate),
                               clientConfirmedAt := None, supplierConfirmedAt := None, status := RateQuoted)
            && out.event.Some? && out.event.value.RateAmended?
            && out.event.value.wasSupplier == o.supplier.rate && out.event.value.wasClient == o.client.rate
            && out.event.value.supplierRate == supplierRate && out.event.value.clientRate == clientRate
            && out.event.value.reason == Strip(reason)
  {
  }

  // ---- rates -------------------------------------------------------------------------------

  predicate BeforeQuote(status: Status) {
    status == RateRequested || status == RateRejected
  }

  /** A supplier's quote names the supplier and their rate, and leaves the client's columns alone. */
  lemma SupplierQuoteWrites(o: Order, supplier: nat, code: Option<string>, workItem: Option<nat>, rate: Money,
                            entitled: bool, accepted: bool, now: Time)
    ensures var out := Act(o, RecordSupplierQuote(supplier, code, workItem, rate), entitled, accepted, now);
            && (out.refusal == None <==> entitled && BeforeQuote(o.status))
            && (out.refusal == None ==>
                  && out.order.supplierId == Some(supplier) && out.order.supplierCode == code
                  && out.order.supplier.rate == Some(rate)
                  && out.order.supplierWorkItem == (match workItem case Some(_) => workItem
                                                    case None => o.supplierWorkItem)
                  && out.order == o.(supplierId := Some(supplier), supplierCode := code,
                                     supplier := o.supplier.(rate := Some(rate)),
                                     supplierWorkItem := out.order.supplierWorkItem)
                  && out.event == Some(SupplierQuoted(rate)))
  {
  }

  /** Turning it down clears it, and records it. */
  lemma SupplierRejectionWrites(o: Order, reason: string, entitled: bool, accepted: bool, now: Time)
    ensures var out := Act(o, RejectSupplierRate(reason), entitled, accepted, now);
            && (out.refusal == None <==> entitled && BeforeQuote(o.status))
            && (out.refusal == None ==>
                  && out.order.supplier.rate == None && out.order == o.(supplier := out.order.supplier)
                  && out.order.supplier == o.supplier.(rate := None)
                  && out.event == Some(SupplierRateRejected(o.supplier.rate, reason)))
  {
  }

  /** A quote to the client is not below the supplier's rate, and is all that it writes but a currency it may name. */
  lemma QuoteWrites(o: Order, quote: Money, currency: Option<string>, entitled: bool, accepted: bool, now: Time)
    ensures var out := Act(o, QuoteClient(quote, currency), entitled, accepted, now);
            && (out.refusal == None <==>
                  && entitled && (BeforeQuote(o.status) || o.status == RateQuoted)
                  && match o.supplier.rate case Some(cost) => cost <= quote case None => true)
            && (out.refusal == None ==>
                  && out.order.client.rate == Some(quote) && out.order.status == RateQuoted
                  && out.order.currencyCode == (if currency == None || currency == Some("") then o.currencyCode
                                                else currency)
                  && out.order == o.(client := o.client.(rate := Some(quote)),
                                     currencyCode := out.order.currencyCode, status := RateQuoted)
                  && out.event == Some(Quoted(quote, out.order.currencyCode)))
  {
  }

  /** A client's yes writes nothing but its event. */
  lemma YesWrites(o: Order, entitled: bool, accepted: bool, now: Time)
    ensures var out := Act(o, ClientAcceptsRate, entitled, accepted, now);
            && (out.refusal == None <==> o.status == RateQuoted && !accepted)
            && out.order == o
            && (out.refusal == None ==> out.event == Some(RateAccepted(o.client.rate, o.currencyCode)))
  {
  }

  lemma ClientRejectionWrites(o: Order, reason: string, entitled: bool, accepted: bool, now: Time)
    ensures var out := Act(o, RejectClientRate(reason), entitled, accepted, now);
            && (out.refusal == None <==>
                  entitled && (o.status == RateQuoted || o.status == AwaitingClientConfirmation))
            && (out.refusal == None ==>
                  && out.order == o.(status := RateRejected)
                  && out.event == Some(ClientRateRejected(o.client.rate, reason)))
  {
  }

  // ---- confirming and paying ------------------------------------------------------------------

  /** Each confirmation stamps its own side; the client's records the figures agreed. */
  lemma ConfirmationsWrite(o: Order, entitled: bool, accepted: bool, now: Time)
    ensures var client := Act(o, ClientConfirms, entitled, accepted, now);
            var supplier := Act(o, SupplierAccepts, entitled, accepted, now);
            && (client.refusal == None <==> o.status == AwaitingClientConfirmation)
            && (client.refusal == None ==>
                  && client.order == o.(clientConfirmedAt := Some(now), status := AwaitingSupplierAcceptance)
                  && client.event == Some(ClientConfirmed(o.client.rate, o.client.pays, o.client.receives)))
            && (supplier.refusal == None <==> o.status == AwaitingSupplierAcceptance)
            && (supplier.refusal == None ==>
                  && supplier.order == o.(supplierConfirmedAt := Some(now), status := AwaitingSettlement)
                  && supplier.event == Some(SupplierAccepted))
  {
  }

  /** A hash of sixteen characters or more, and no space, stripped, settles; receipt closes. */
  lemma HashAndReceiptWrite(o: Order, hash: string, entitled: bool, accepted: bool, now: Time)
    ensures var paid := Act(o, RecordHash(hash), entitled, accepted, now);
            var received := Act(o, ClientConfirmsReceipt, entitled, accepted, now);
            && (paid.refusal == None <==>
                  && entitled && o.status == AwaitingSettlement && |Strip(hash)| >= 16
                  && forall i :: 0 <= i < |Strip(hash)| ==> Strip(hash)[i] != ' ')
            && (paid.refusal == None ==>
                  && paid.order == o.(txHash := Some(Strip(hash)), settledAt := Some(now), status := AwaitingReceipt)
                  && paid.event == Some(HashRecorded(Some(Strip(hash)), None, false)))
            && (received.refusal == None <==> o.status == AwaitingReceipt)
            && (received.refusal == None ==>
                  && received.order == o.(closedAt := Some(now), status := Closed)
                  && received.event == Some(ReceiptConfirmed))
  {
  }

  /** A payment settles a deal that awaits it; a proof that comes later changes nothing but the hash. */
  lemma PaymentWrites(o: Order, hash: Option<string>, proof: string, settlement: nat, entitled: bool, accepted: bool,
                      now: Time)
    ensures var paid := Act(o, Settle(hash, settlement), entitled, accepted, now);
            var proved := Act(o, AttachProof(proof, settlement), entitled, accepted, now);
            && (paid.refusal == None <==> o.status == AwaitingSettlement)
            && (paid.refusal == None ==>
                  && paid.order == o.(txHash := hash, settledAt := Some(now), status := AwaitingReceipt)
                  && paid.event == Some(HashRecorded(hash, Some(settlement), false)))
            && proved.refusal == None && proved.order == o.(txHash := Some(proof))
            && proved.event == Some(HashRecorded(Some(proof), Some(settlement), true))
  {
  }
}
