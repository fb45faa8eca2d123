/**
 What each counterparty is sent (app/domain/fx.py:126-266, app/services/fx_relay.py:74-138,
 316-339): composed from that side's columns, so that nothing of the other side's can show.
 */
module FxViews {
  import opened Prelude
  import opened Text
  import opened FxOrders
  import opened FxSteps
  import opened FxHistory
  import opened Figures

  /** An amount or a rate as it is shown; amounts have ten places at the most. */
  function Shown(m: Money): string {
    if m < 0 then "-" + FormatMoney(Dec(-m, 10)) else FormatMoney(Dec(m, 10))
  }

  /** What is shown is the figure itself: typed back, it reads as what is recorded. */
  lemma ShownReadsBack(m: Money)
    requires m > 0
    ensures var read := ParseAmount(Shown(m)); read.Figure? && SameValue(read.value, Dec(m, 10))
  {
    AmountInvertsFormat(Dec(m, 10));
  }

  function ShownOrDash(m: Option<Money>): string {
    if m.Some? then Shown(m.value) else "—"
  }

  function OrEmpty(s: Option<string>): string {
    if s.Some? then s.value else ""
  }

  function Join(lines: seq<string>): string {
    if lines == [] then ""
    else if |lines| == 1 then lines[0]
    else Join(lines[..|lines| - 1]) + "\n" + lines[|lines| - 1]
  }

  // ---- the view of one side -------------------------------------------------------

  datatype View = View(
    reference: string,
    accountName: Option<string>,
    currencyCode: Option<string>,
    rate: Option<Money>,
    pays: Option<Money>,
    paysCurrency: Option<string>,
    receives: Option<Money>,
    receivesCurrency: Option<string>)

  function ViewFor(o: Order, side: Side): View {
    var half := if side.Client? then o.client else o.supplier;
    View(if side.Client? then ClientReference(o) else SupplierReference(o), half.account, o.currencyCode,
         half.rate, half.pays, half.paysCurrency, half.receives, half.receivesCurrency)
  }

  function WithCurrency(opening: string, amount: Money, currency: Option<string>): string {
    StripRight(opening + Shown(amount) + " " + OrEmpty(currency))
  }

  /** `OrderView.lines` */
  function Lines(v: View): seq<string> {
    ["Order " + v.reference]
    + (if Given(v.accountName) then ["Account: " + v.accountName.value] else [])
    + (if v.rate.Some? then ["Rate: " + Shown(v.rate.value)] else [])
    + (if v.pays.Some? then [WithCurrency("You send: ", v.pays.value, v.paysCurrency)] else [])
    + (if v.receives.Some? then [WithCurrency("You receive: ", v.receives.value, v.receivesCurrency)] else [])
  }

  // ---- the texts ------------------------------------------------------------------------

  function OrderText(o: Order, side: Side): string {
    Join(Lines(ViewFor(o, side)) + ["", "Please confirm these figures are correct."])
  }

  function RateLine(v: View): string {
    "Rate" + (if Given(v.currencyCode) then " on " + v.currencyCode.value else "") + " is " + ShownOrDash(v.rate) + "."
  }

  function RateQuoteText(o: Order): string {
    var v := ViewFor(o, Client);
    Join([v.reference, "", RateLine(v), "", "Would you like to proceed?"])
  }

  /** `explorer_link`: Tron only, and only for a hash there is something of. */
  function ExplorerLink(chain: string, hash: string): Option<string> {
    if Lower(chain) == "tron" && Strip(hash) != "" then Some("https://tronscan.org/#/transaction/" + Strip(hash))
    else None
  }

  /** A payment whose proof is still to come says nothing of a transaction. */
  function ProofLines(o: Order): seq<string> {
    var proof := OrEmpty(o.txHash);
    if Strip(proof) == "" then []
    else ["", "Transaction: " + proof]
         + (if ExplorerLink(o.chain, proof).Some? then [ExplorerLink(o.chain, proof).value] else [])
  }

  function ReceivedLine(v: View): string {
    ShownOrDash(v.receives) + StripRight(" " + OrEmpty(v.receivesCurrency))
  }

  function SettlementText(o: Order): string {
    var v := ViewFor(o, Client);
    Join([v.reference + " has been settled.", "", ReceivedLine(v)] + ProofLines(o)
         + ["", "Please confirm once you have received it."])
  }

  /** A hash of nothing but spaces is no hash: the client is told of no transaction and given no link. */
  lemma BlankProofIsNoProof(o: Order)
    requires Strip(OrEmpty(o.txHash)) == ""
    ensures SettlementText(o) == SettlementText(o.(txHash := None))
    ensures ExplorerLink(o.chain, OrEmpty(o.txHash)) == None
  {
    assert Strip("") == "";
  }

  function RejectionText(o: Order): string {
    ViewFor(o, Supplier).reference + " — we are not able to work with that rate on this one. Thank you for quoting."
  }

  // ---- what a side can see changes only with that side's own values ------------------------

  /** All that a client's texts are made of. */
  datatype ClientSide = ClientSide(reference: nat, code: Option<string>, currencyCode: Option<string>, half: Half,
                                   txHash: Option<string>, chain: string, status: Status)

  function ClientSideOf(o: Order): ClientSide {
    ClientSide(o.reference, o.clientCode, o.currencyCode, o.client, o.txHash, o.chain, o.status)
  }

  datatype SupplierSide = SupplierSide(reference: nat, code: Option<string>, currencyCode: Option<string>, half: Half,
                                       status: Status)

  function SupplierSideOf(o: Order): SupplierSide {
    SupplierSide(o.reference, o.supplierCode, o.currencyCode, o.supplier, o.status)
  }

  /** The same step, as far as the client is concerned: whatever the supplier says may differ. */
  predicate SameForClient(a: Step, b: Step) {
    match a
    case RecordSupplierQuote(_, _, _, _) => b.RecordSupplierQuote?
    case RejectSupplierRate(_) => b.RejectSupplierRate?
    case QuoteClient(quote, currency) => b.QuoteClient? && b.quote == quote && b.currency == currency
    case ClientAcceptsRate => b.ClientAcceptsRate?
    case RejectClientRate(_) => b.RejectClientRate?
    case CreateClientOrder(terms) => b.CreateClientOrder? && b.terms == terms
    case AmendAmount(pays, receives, _, _, _) => b.AmendAmount? && b.clientPays == pays && b.clientReceives == receives
    case Reprice(_, rate, _) => b.Reprice? && b.clientRate == rate
    case ClientConfirms => b.ClientConfirms?
    case CreateSupplierOrder(_) => b.CreateSupplierOrder?
    case SupplierAccepts => b.SupplierAccepts?
    case RecordHash(hash) => b.RecordHash? && b.hash == hash
    case ClientConfirmsReceipt => b.ClientConfirmsReceipt?
    case Settle(hash, _) => b.Settle? && b.paidHash == hash
    case AttachProof(proof, _) => b.AttachProof? && b.proof == proof
  }

  /** And as far as the supplier is: the client's rate, terms and amounts may differ. */
  predicate SameForSupplier(a: Step, b: Step) {
    match a
    case RecordSupplierQuote(_, code, _, rate) => b.RecordSupplierQuote? && b.code == code && b.rate == rate
    case RejectSupplierRate(_) => b.RejectSupplierRate?
    case QuoteClient(_, currency) => b.QuoteClient? && b.currency == currency
    case ClientAcceptsRate => b.ClientAcceptsRate?
    case RejectClientRate(_) => b.RejectClientRate?
    case CreateClientOrder(_) => b.CreateClientOrder?
    case AmendAmount(_, _, pays, receives, _) => b.AmendAmount? && b.supplierPays == pays
      && b.supplierReceives == receives
    case Reprice(rate, _, _) => b.Reprice? && b.supplierRate == rate
    case ClientConfirms => b.ClientConfirms?
    case CreateSupplierOrder(terms) => b.CreateSupplierOrder? && b.terms == terms
    case SupplierAccepts => b.SupplierAccepts?
    case RecordHash(_) => b.RecordHash?
    case ClientConfirmsReceipt => b.ClientConfirmsReceipt?
    case Settle(_, _) => b.Settle?
    case AttachProof(_, _) => b.AttachProof?
  }

  /** A step, who takes it, whether the rate had been accepted, and when. */
  datatype Taken = Taken(step: Step, entitled: bool, accepted: bool, now: Time)

  function Take(o: Order, t: Taken): Outcome {
    Act(o, t.step, t.entitled, t.accepted, t.now)
  }

  lemma ClientPricingUnwinds(a: Order, b: Order, s: Taken, t: Taken)
    requires ClientSideOf(a) == ClientSideOf(b) && SameForClient(s.step, t.step) && Pricing(s.step)
    requires Take(a, s).refusal == None && Take(b, t).refusal == None
    ensures ClientSideOf(Take(a, s).order) == ClientSideOf(Take(b, t).order)
  {
  }

  lemma ClientOrderingUnwinds(a: Order, b: Order, s: Taken, t: Taken)
    requires ClientSideOf(a) == ClientSideOf(b) && SameForClient(s.step, t.step) && Ordering(s.step)
    requires Take(a, s).refusal == None && Take(b, t).refusal == None
    ensures ClientSideOf(Take(a, s).order) == ClientSideOf(Take(b, t).order)
  {
  }

  lemma ClientSettlingUnwinds(a: Order, b: Order, s: Taken, t: Taken)
    requires ClientSideOf(a) == ClientSideOf(b) && SameForClient(s.step, t.step) && !Pricing(s.step)
             && !Ordering(s.step)
    requires Take(a, s).refusal == None && Take(b, t).refusal == None
    ensures ClientSideOf(Take(a, s).order) == ClientSideOf(Take(b, t).order)
  {
  }

  lemma ClientStepUnwinds(a: Order, b: Order, s: Taken, t: Taken)
    requires ClientSideOf(a) == ClientSideOf(b) && SameForClient(s.step, t.step)
    requires Take(a, s).refusal == None && Take(b, t).refusal == None
    ensures ClientSideOf(Take(a, s).order) == ClientSideOf(Take(b, t).order)
  {
    if Pricing(s.step) {
      ClientPricingUnwinds(a, b, s, t);
    } else if Ordering(s.step) {
      ClientOrderingUnwinds(a, b, s, t);
    } else {
      ClientSettlingUnwinds(a, b, s, t);
    }
  }

  lemma SupplierPricingUnwinds(a: Order, b: Order, s: Taken, t: Taken)
    requires SupplierSideOf(a) == SupplierSideOf(b) && SameForSupplier(s.step, t.step) && Pricing(s.step)
    requires Take(a, s).refusal == None && Take(b, t).refusal == None
    ensures SupplierSideOf(Take(a, s).order) == SupplierSideOf(Take(b, t).order)
  {
  }

  lemma SupplierOrderingUnwinds(a: Order, b: Order, s: Taken, t: Taken)
    requires SupplierSideOf(a) == SupplierSideOf(b) && SameForSupplier(s.step, t.step) && Ordering(s.step)
    requires Take(a, s).refusal == None && Take(b, t).refusal == None
    ensures SupplierSideOf(Take(a, s).order) == SupplierSideOf(Take(b, t).order)
  {
  }

  lemma SupplierSettlingUnwinds(a: Order, b: Order, s: Taken, t: Taken)
    requires SupplierSideOf(a) == SupplierSideOf(b) && SameForSupplier(s.step, t.step) && !Pricing(s.step)
             && !Ordering(s.step)
    requires Take(a, s).refusal == None && Take(b, t).refusal == None
    ensures SupplierSideOf(Take(a, s).order) == SupplierSideOf(Take(b, t).order)
  {
  }

  lemma SupplierStepUnwinds(a: Order, b: Order, s: Taken, t: Taken)
    requires SupplierSideOf(a) == SupplierSideOf(b) && SameForSupplier(s.step, t.step)
    requires Take(a, s).refusal == None && Take(b, t).refusal == None
    ensures SupplierSideOf(Take(a, s).order) == SupplierSideOf(Take(b, t).order)
  {
    if Pricing(s.step) {
      SupplierPricingUnwinds(a, b, s, t);
    } else if Ordering(s.step) {
      SupplierOrderingUnwinds(a, b, s, t);
    } else {
      SupplierSettlingUnwinds(a, b, s, t);
    }
  }

  /** Every step of the run succeeds. */
  predicate Succeeds(o: Order, run: seq<Taken>)
    decreases |run|
  {
    run == [] || (Take(o, run[0]).refusal == None && Succeeds(Take(o, run[0]).order, run[1..]))
  }

  function After(o: Order, run: seq<Taken>): Order
    decreases |run|
  {
    if run == [] then o else After(Take(o, run[0]).order, run[1..])
  }

  predicate AgreeForClient(run: seq<Taken>, other: seq<Taken>) {
    |run| == |other| && forall i :: 0 <= i < |run| ==> SameForClient(run[i].step, other[i].step)
  }

  predicate AgreeForSupplier(run: seq<Taken>, other: seq<Taken>) {
    |run| == |other| && forall i :: 0 <= i < |run| ==> SameForSupplier(run[i].step, other[i].step)
  }

  lemma {:induction false} ClientRunsUnwind(a: Order, b: Order, run: seq<Taken>, other: seq<Taken>)
    requires ClientSideOf(a) == ClientSideOf(b) && AgreeForClient(run, other) && Succeeds(a, run) && Succeeds(b, other)
    ensures ClientSideOf(After(a, run)) == ClientSideOf(After(b, other))
    decreases |run|
  {
    if run != [] {
      assert SameForClient(run[0].step, other[0].step);
      ClientStepUnwinds(a, b, run[0], other[0]);
      assert forall i :: 0 <= i < |run[1..]| ==> run[1..][i] == run[i + 1] && other[1..][i] == other[i + 1];
      ClientRunsUnwind(Take(a, run[0]).order, Take(b, other[0]).order, run[1..], other[1..]);
    }
  }

  lemma {:induction false} SupplierRunsUnwind(a: Order, b: Order, run: seq<Taken>, other: seq<Taken>)
    requires SupplierSideOf(a) == SupplierSideOf(b) && AgreeForSupplier(run, other) && Succeeds(a, run)
             && Succeeds(b, other)
    ensures SupplierSideOf(After(a, run)) == SupplierSideOf(After(b, other))
    decreases |run|
  {
    if run != [] {
      assert SameForSupplier(run[0].step, other[0].step);
      SupplierStepUnwinds(a, b, run[0], other[0]);
      assert forall i :: 0 <= i < |run[1..]| ==> run[1..][i] == run[i + 1] && other[1..][i] == other[i + 1];
      SupplierRunsUnwind(Take(a, run[0]).order, Take(b, other[0]).order, run[1..], other[1..]);
    }
  }

  lemma {:induction false} SucceedsThrough(o: Order, run: seq<Taken>, k: nat)
    requires Succeeds(o, run) && k <= |run|
    ensures Succeeds(o, run[..k])
    decreases k
  {
    if k > 0 {
      assert run[..k][1..] == run[1..][..k - 1];
      SucceedsThrough(Take(o, run[0]).order, run[1..], k - 1);
    }
  }

  /**
   Two deals that go through the same steps with the same values on the client's
   side, and any others on the supplier's, send the client the same texts at
   every step.
   */
  lemma ClientSeesNothingOfTheSupplier(a: Order, b: Order, run: seq<Taken>, other: seq<Taken>, k: nat)
    requires ClientSideOf(a) == ClientSideOf(b) && AgreeForClient(run, other) && Succeeds(a, run) && Succeeds(b, other)
    requires k <= |run|
    ensures var a', b' := After(a, run[..k]), After(b, other[..k]);
            && RateQuoteText(a') == RateQuoteText(b')
            && OrderText(a', Client) == OrderText(b', Client)
            && SettlementText(a') == SettlementText(b')
  {
    SucceedsThrough(a, run, k);
    SucceedsThrough(b, other, k);
    ClientRunsUnwind(a, b, run[..k], other[..k]);
    SameClientTexts(After(a, run[..k]), After(b, other[..k]));
  }

  lemma SameClientTexts(a: Order, b: Order)
    requires ClientSideOf(a) == ClientSideOf(b)
    ensures RateQuoteText(a) == RateQuoteText(b) && OrderText(a, Client) == OrderText(b, Client)
            && SettlementText(a) == SettlementText(b)
  {
  }

  /** The mirror image: what a supplier is sent tells nothing of the client or of the margin. */
  lemma SupplierSeesNothingOfTheClient(a: Order, b: Order, run: seq<Taken>, other: seq<Taken>, k: nat)
    requires SupplierSideOf(a) == SupplierSideOf(b) && AgreeForSupplier(run, other) && Succeeds(a, run)
             && Succeeds(b, other)
    requires k <= |run|
    ensures var a', b' := After(a, run[..k]), After(b, other[..k]);
            OrderText(a', Supplier) == OrderText(b', Supplier) && RejectionText(a') == RejectionText(b')
  {
    SucceedsThrough(a, run, k);
    SucceedsThrough(b, other, k);
    SupplierRunsUnwind(a, b, run[..k], other[..k]);
    SameSupplierTexts(After(a, run[..k]), After(b, other[..k]));
  }

  lemma SameSupplierTexts(a: Order, b: Order)
    requires SupplierSideOf(a) == SupplierSideOf(b)
    ensures OrderText(a, Supplier) == OrderText(b, Supplier) && RejectionText(a) == RejectionText(b)
  {
  }
}
