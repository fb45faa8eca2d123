/**
 The steps of an FX deal (app/domain/fx.py:433-892): what each does to the
 order's columns, what it records, and when it refuses. An `Outcome` is what is
 in memory when the step ends; a refusal is an exception, and `Commit` is what
 the transaction around it leaves in the database (app/db/base.py:74-84).
 */
module FxSteps {
  import opened Prelude
  import opened Text
  import opened FxOrders

  datatype Refusal = NotEntitled | WrongState | CannotMove | BelowCost | AlreadyAccepted | NoReason | NotPositive
    | BadHash

  datatype Outcome = Outcome(order: Order, refusal: Option<Refusal>, event: Option<What>)

  datatype Step =
    | RecordSupplierQuote(supplier: nat, code: Option<string>, workItem: Option<nat>, rate: Money)
    | RejectSupplierRate(reason: string)
    | QuoteClient(quote: Money, currency: Option<string>)
    | ClientAcceptsRate
    | RejectClientRate(reason: string)
    | CreateClientOrder(terms: Terms)
    | AmendAmount(clientPays: Money, clientReceives: Money, supplierPays: Option<Money>,
                  supplierReceives: Option<Money>, reason: string)
    | Reprice(supplierRate: Money, clientRate: Money, reason: string)
    | ClientConfirms
    | CreateSupplierOrder(terms: Terms)
    | SupplierAccepts
    | RecordHash(hash: string)
    | ClientConfirmsReceipt
    // the two effects a settlement has on each order it covers
    | Settle(paidHash: Option<string>, settlement: nat)
    | AttachProof(proof: string, settlement: nat)

  function Refuse(o: Order, why: Refusal): Outcome {
    Outcome(o, Some(why), None)
  }

  function Record(o: Order, what: What): Outcome {
    Outcome(o, None, Some(what))
  }

  /** `_move`, then `record_event`. */
  function MoveAndRecord(o: Order, target: Status, what: What): Outcome {
    if MayMove(o.status, target) then Record(o.(status := target), what) else Refuse(o, CannotMove)
  }

  function CleanTerms(t: Terms): Terms {
    t.(account := Strip(t.account), paysCurrency := Upper(Strip(t.paysCurrency)),
       receivesCurrency := Upper(Strip(t.receivesCurrency)))
  }

  function HalfFrom(t: Terms): Half {
    Half(Some(t.account), Some(t.rate), Some(t.pays), Some(t.paysCurrency), Some(t.receives), Some(t.receivesCurrency))
  }

  /** `check_hash`: sixteen characters or more once stripped, and no space inside. */
  function CheckHash(text: string): Option<string> {
    var cleaned := Strip(text);
    if |cleaned| < 16 || ' ' in cleaned then None else Some(cleaned)
  }

  function OrElse<T>(given: Option<T>, kept: Option<T>): Option<T> {
    if given.Some? then given else kept
  }

  /** `accepted` answers `has_event(FX_RATE_ACCEPTED)`; `entitled` answers `actor.require`. */
  function Act(o: Order, step: Step, entitled: bool, accepted: bool, now: Time): Outcome {
    match step
    case RecordSupplierQuote(supplier, code, workItem, rate) =>
      if !entitled then Refuse(o, NotEntitled)
      else if !(o.status.RateRequested? || o.status.RateRejected?) then Refuse(o, WrongState)
      else Record(o.(supplierId := Some(supplier), supplierCode := code, supplier := o.supplier.(rate := Some(rate)),
                     supplierWorkItem := OrElse(workItem, o.supplierWorkItem)),
                  SupplierQuoted(rate))
    case RejectSupplierRate(reason) =>
      if !entitled then Refuse(o, NotEntitled)
      else if !(o.status.RateRequested? || o.status.RateRejected?) then Refuse(o, WrongState)
      else Record(o.(supplier := o.supplier.(rate := None)), SupplierRateRejected(o.supplier.rate, reason))
    case QuoteClient(quote, currency) =>
      if !entitled then Refuse(o, NotEntitled)
      else if !(o.status.RateRequested? || o.status.RateQuoted? || o.status.RateRejected?) then Refuse(o, WrongState)
      else if o.supplier.rate.Some? && quote < o.supplier.rate.value then Refuse(o, BelowCost)
      else
        var o' := o.(client := o.client.(rate := Some(quote)),
                     currencyCode := if Given(currency) then currency else o.currencyCode);
        if o.status == RateQuoted then Record(o', Quoted(quote, o'.currencyCode))
        else MoveAndRecord(o', RateQuoted, Quoted(quote, o'.currencyCode))
    case ClientAcceptsRate =>
      if o.status != RateQuoted then Refuse(o, WrongState)
      else if accepted then Refuse(o, AlreadyAccepted)
      else Record(o, RateAccepted(o.client.rate, o.currencyCode))
    case RejectClientRate(reason) =>
      if !entitled then Refuse(o, NotEntitled)
      else if !(o.status.RateQuoted? || o.status.AwaitingClientConfirmation?) then Refuse(o, WrongState)
      else MoveAndRecord(o, RateRejected, ClientRateRejected(o.client.rate, reason))
    case CreateClientOrder(terms) =>
      if !entitled then Refuse(o, NotEntitled)
      else if !(o.status.RateQuoted? || o.status.AwaitingClientConfirmation?) then Refuse(o, WrongState)
      else
        var o' := o.(client := HalfFrom(CleanTerms(terms)));
        var what := OrderCreated(Client, CleanTerms(terms));
        if o.status == AwaitingClientConfirmation then Record(o', what)
        else MoveAndRecord(o', AwaitingClientConfirmation, what)
    case AmendAmount(clientPays, clientReceives, supplierPays, supplierReceives, reason) =>
      if !entitled then Refuse(o, NotEntitled)
      else if !Amendable(o.status) then Refuse(o, WrongState)
      else if Strip(reason) == "" then Refuse(o, NoReason)
      else if clientPays <= 0 || clientReceives <= 0 then Refuse(o, NotPositive)
      else
        var o' := o.(client := o.client.(pays := Some(clientPays), receives := Some(clientReceives)),
                     supplier := o.supplier.(pays := OrElse(supplierPays, o.supplier.pays),
                                             receives := OrElse(supplierReceives, o.supplier.receives)));
        Record(o', AmountAmended(Strip(reason), AmountsOf(o), AmountsOf(o')))
    case Reprice(supplierRate, clientRate, reason) =>
      if !entitled then Refuse(o, NotEntitled)
      else if !Amendable(o.status) then Refuse(o, WrongState)
      else if Strip(reason) == "" then Refuse(o, NoReason)
      else if supplierRate <= 0 || clientRate <= 0 then Refuse(o, NotPositive)
      else if clientRate < supplierRate then Refuse(o, BelowCost)
      else MoveAndRecord(Repriced(o, supplierRate, clientRate), RateQuoted,
                         RateAmended(Strip(reason), o.supplier.rate, o.client.rate, supplierRate, clientRate))
    case ClientConfirms =>
      if o.status != AwaitingClientConfirmation then Refuse(o, WrongState)
      else MoveAndRecord(o.(clientConfirmedAt := Some(now)), AwaitingSupplierAcceptance,
                         ClientConfirmed(o.client.rate, o.client.pays, o.client.receives))
    case CreateSupplierOrder(terms) =>
      if !entitled then Refuse(o, NotEntitled)
      else if o.status != AwaitingSupplierAcceptance then Refuse(o, WrongState)
      else Record(o.(supplier := HalfFrom(CleanTerms(terms))), OrderCreated(Supplier, CleanTerms(terms)))
    case SupplierAccepts =>
      if o.status != AwaitingSupplierAcceptance then Refuse(o, WrongState)
      else MoveAndRecord(o.(supplierConfirmedAt := Some(now)), AwaitingSettlement, SupplierAccepted)
    case RecordHash(hash) =>
      if !entitled then Refuse(o, NotEntitled)
      else if o.status != AwaitingSettlement then Refuse(o, WrongState)
      else if CheckHash(hash) == None then Refuse(o, BadHash)
      else MoveAndRecord(o.(txHash := CheckHash(hash), settledAt := Some(now)), AwaitingReceipt,
                         HashRecorded(CheckHash(hash), None, false))
    case ClientConfirmsReceipt =>
      if o.status != AwaitingReceipt then Refuse(o, WrongState)
      else MoveAndRecord(o.(closedAt := Some(now)), Closed, ReceiptConfirmed)
    case Settle(paidHash, settlement) =>
      if o.status != AwaitingSettlement then Refuse(o, WrongState)
      else Record(o.(txHash := paidHash, settledAt := Some(now), status := AwaitingReceipt),
                  HashRecorded(paidHash, Some(settlement), false))
    case AttachProof(proof, settlement) =>
      Record(o.(txHash := Some(proof)), HashRecorded(Some(proof), Some(settlement), true))
  }

  /** What `reprice` has already assigned when it calls `_move`. */
  function Repriced(o: Order, supplierRate: Money, clientRate: Money): Order {
    o.(supplier := o.supplier.(rate := Some(supplierRate)), client := o.client.(rate := Some(clientRate)),
       clientConfirmedAt := None, supplierConfirmedAt := None)
  }

  /** What the database holds after the transaction. */
  function Commit(o: Order, out: Outcome): Order {
    if out.refusal.Some? then o else out.order
  }

  function Logged(out: Outcome, now: Time): seq<Event> {
    if out.event.Some? then [Event(out.order.clientWorkItem, DisplayReference(out.order), now, out.event.value)] else []
  }

  /** `has_event`: same request, same type, same reference string. */
  predicate HasAccepted(log: seq<Event>, o: Order) {
    exists e :: e in log && e.workItem == o.clientWorkItem && e.what.RateAccepted?
      && e.fxReference == DisplayReference(o)
  }

  // ---- what the table and the guards amount to -------------------------------

  /** A step that succeeds stays put or follows an edge of the table, and records one event. */
  lemma StepsFollowTheTable(o: Order, step: Step, entitled: bool, accepted: bool, now: Time)
    ensures var out := Act(o, step, entitled, accepted, now);
            && (out.refusal.Some? ==> out.event == None)
            && (out.refusal == None ==>
                  && out.event.Some?
                  && (out.order.status == o.status || MayMove(o.status, out.order.status))
                  && out.order.reference == o.reference && out.order.clientWorkItem == o.clientWorkItem
                  && out.order.clientCode == o.clientCode)
  {
  }

  /**
   A refusal leaves the order in memory as it was, with one exception: `reprice`
   assigns the new rates before the table refuses it, because a deal awaiting
   the client's confirmation is amendable but has no edge back to a quote.
   */
  lemma RefusalTouchesOnlyReprice(o: Order, step: Step, entitled: bool, accepted: bool, now: Time)
    requires Act(o, step, entitled, accepted, now).refusal.Some?
    ensures var out := Act(o, step, entitled, accepted, now);
            var caught := step.Reprice? && entitled && o.status == AwaitingClientConfirmation
                          && Strip(step.reason) != "" && 0 < step.supplierRate <= step.clientRate;
            && (caught <==> out.refusal == Some(CannotMove))
            && out.order == (if caught then Repriced(o, step.supplierRate, step.clientRate) else o)
            && Commit(o, out) == o
  {
  }

  /** `reprice` works exactly from the two states after the client has confirmed. */
  lemma RepriceSucceedsIff(o: Order, supplierRate: Money, clientRate: Money, reason: string, entitled: bool,
                           accepted: bool, now: Time)
    ensures Act(o, Reprice(supplierRate, clientRate, reason), entitled, accepted, now).refusal == None
       <==> entitled && (o.status.AwaitingSupplierAcceptance? || o.status.AwaitingSettlement?)
            && Strip(reason) != "" && 0 < supplierRate <= clientRate
  {
  }
}
