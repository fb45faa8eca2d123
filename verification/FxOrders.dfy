/**
 The columns of an FX deal (app/db/models.py:492-653), its statuses
 (app/domain/enums.py:156-215), the three references it is known by, and the
 events its history is made of (app/domain/fx.py:308-339).
 */
module FxOrders {
  import opened Prelude
  import opened Text

  /** Rates and amounts, exactly, in units of 10^-10: the finest column has ten places. */
  type Money = int

  datatype Status =
    | RateRequested
    | RateQuoted
    | RateRejected
    | AwaitingClientConfirmation
    | AwaitingSupplierAcceptance
    | AwaitingSettlement
    | AwaitingReceipt
    | Closed

  datatype Side = Client | Supplier

  /** One side's columns. */
  datatype Half = Half(
    account: Option<string>,
    rate: Option<Money>,
    pays: Option<Money>,
    paysCurrency: Option<string>,
    receives: Option<Money>,
    receivesCurrency: Option<string>)

  const NO_FIGURES := Half(None, None, None, None, None, None)

  datatype Order = Order(
    reference: nat,
    clientId: nat,
    clientCode: Option<string>,
    clientWorkItem: nat,
    supplierId: Option<nat>,
    supplierCode: Option<string>,
    supplierWorkItem: Option<nat>,
    currencyCode: Option<string>,
    countryCode: Option<string>,
    status: Status,
    client: Half,
    clientConfirmedAt: Option<Time>,
    supplier: Half,
    supplierConfirmedAt: Option<Time>,
    txHash: Option<string>,
    chain: string,
    settledAt: Option<Time>,
    closedAt: Option<Time>)

  /** Python's truth of an optional string. */
  predicate Given(s: Option<string>) {
    s.Some? && s.value != ""
  }

  // ---- references ------------------------------------------------------------

  function DisplayReference(o: Order): string {
    if Given(o.clientCode) && Given(o.supplierCode) then
      "FX" + o.clientCode.value + "-" + o.supplierCode.value + "-" + Numeral(o.reference)
    else ClientReference(o)
  }

  function ClientReference(o: Order): string {
    CodedReference(o.clientCode, o.reference)
  }

  function SupplierReference(o: Order): string {
    CodedReference(o.supplierCode, o.reference)
  }

  function CodedReference(code: Option<string>, reference: nat): string {
    if Given(code) then "FX" + code.value + "-" + Numeral(reference) else "FX#" + Numeral(reference)
  }

  /** `parse_fx_reference`: the number at the end, if it has three digits or more. */
  function ParseFxReference(text: string): Option<nat> {
    var tail := TrailingDigits(Strip(text));
    if |tail| >= 3 then Some(NumeralValue(tail)) else None
  }

  lemma ParseNumbered(prefix: string, separator: char, reference: nat)
    requires prefix != "" && !IsSpace(prefix[0]) && !IsDigit(separator)
    requires 100 <= reference
    ensures ParseFxReference(prefix + [separator] + Numeral(reference)) == Some(reference)
  {
    var text := prefix + [separator] + Numeral(reference);
    StripOfTight(text);
    TrailingDigitsOf(prefix + [separator], Numeral(reference));
    NumeralRoundTrip(reference);
  }

  /**
   Whatever a deal is called - with its supplier's code, without it, or with no
   code at all - the number is recovered. References start at 1000.
   */
  lemma ParseInvertsReferences(o: Order)
    requires 100 <= o.reference
    ensures ParseFxReference(DisplayReference(o)) == Some(o.reference)
    ensures ParseFxReference(ClientReference(o)) == Some(o.reference)
    ensures ParseFxReference(SupplierReference(o)) == Some(o.reference)
    ensures ParseFxReference(Numeral(o.reference)) == Some(o.reference)
  {
    if Given(o.clientCode) && Given(o.supplierCode) {
      ParseNumbered("FX" + o.clientCode.value + "-" + o.supplierCode.value, '-', o.reference);
    }
    ParseCoded(o.clientCode, o.reference);
    ParseCoded(o.supplierCode, o.reference);
    StripOfTight(Numeral(o.reference));
    AllTrailing(Numeral(o.reference));
    NumeralRoundTrip(o.reference);
  }

  lemma ParseCoded(code: Option<string>, reference: nat)
    requires 100 <= reference
    ensures ParseFxReference(CodedReference(code, reference)) == Some(reference)
  {
    if Given(code) {
      ParseNumbered("FX" + code.value, '-', reference);
    } else {
      ParseNumbered("FX", '#', reference);
      assert "FX" + ['#'] == "FX#";
    }
  }

  lemma {:induction false} AllTrailing(digits: string)
    requires AllDigits(digits)
    ensures TrailingDigits(digits) == digits
  {
    if digits != "" {
      AllTrailing(digits[..|digits| - 1]);
    }
  }

  // ---- events ----------------------------------------------------------------

  datatype Terms = Terms(account: string, rate: Money, pays: Money, paysCurrency: string, receives: Money,
                         receivesCurrency: string)

  datatype Amounts = Amounts(clientPays: Option<Money>, clientReceives: Option<Money>, supplierPays: Option<Money>,
                             supplierReceives: Option<Money>)

  /** An event's type and payload. */
  datatype What =
    | Requested
    | SupplierQuoted(rate: Money)
    | SupplierRateRejected(rejected: Option<Money>, reason: string)
    | Quoted(quote: Money, currency: Option<string>)
    | RateAccepted(accepted: Option<Money>, currency: Option<string>)
    | ClientRateRejected(rejected: Option<Money>, reason: string)
    | OrderCreated(side: Side, terms: Terms)
    | AmountAmended(reason: string, was: Amounts, now: Amounts)
    | RateAmended(reason: string, wasSupplier: Option<Money>, wasClient: Option<Money>, supplierRate: Money,
                  clientRate: Money)
    | ClientConfirmed(agreedRate: Option<Money>, agreedPays: Option<Money>, agreedReceives: Option<Money>)
    | SupplierAccepted
    | HashRecorded(hash: Option<string>, settlement: Option<nat>, attachedLater: bool)
    | ReceiptConfirmed

  datatype Event = Event(workItem: nat, fxReference: string, at: Time, what: What)

  function AmountsOf(o: Order): Amounts {
    Amounts(o.client.pays, o.client.receives, o.supplier.pays, o.supplier.receives)
  }

  // ---- the table of moves ------------------------------------------------------

  predicate MayMove(current: Status, target: Status) {
    match current
    case RateRequested => target.RateQuoted?
    case RateQuoted => target.RateRejected? || target.AwaitingClientConfirmation?
    case RateRejected => target.RateRequested? || target.RateQuoted?
    case AwaitingClientConfirmation => target.AwaitingSupplierAcceptance? || target.RateRejected?
    case AwaitingSupplierAcceptance => target.AwaitingSettlement? || target.RateQuoted?
    case AwaitingSettlement => target.AwaitingReceipt? || target.RateQuoted?
    case AwaitingReceipt => target.Closed?
    case Closed => false
  }

  /** The client has agreed an order that is still being seen through, or has been. */
  predicate ClientAgreed(s: Status) {
    s.AwaitingSupplierAcceptance? || s.AwaitingSettlement? || s.AwaitingReceipt? || s.Closed?
  }

  predicate SupplierAgreed(s: Status) {
    s.AwaitingSettlement? || s.AwaitingReceipt? || s.Closed?
  }

  predicate Paid(s: Status) {
    s.AwaitingReceipt? || s.Closed?
  }

  /** The states an order's figures can still change in. */
  predicate Amendable(s: Status) {
    s.AwaitingClientConfirmation? || s.AwaitingSupplierAcceptance? || s.AwaitingSettlement?
  }
}
