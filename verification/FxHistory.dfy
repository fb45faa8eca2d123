/**
 What one deal's own history says about it. `OrderOk` ties an order's columns to
 the events recorded about it; every step keeps it, so it holds in every run.
 */
module FxHistory {
  import opened Prelude
  import opened FxOrders
  import opened FxSteps

  // ---- replaying the log -------------------------------------------------------

  /** The columns the log has to account for. */
  datatype Figures = Figures(status: Status, currencyCode: Option<string>, client: Half, supplier: Half,
                             txHash: Option<string>)

  /** All but the client's account name, whose first value comes with the request: see `ClientAccount`. */
  function FiguresOf(o: Order): Figures {
    Figures(o.status, o.currencyCode, o.client.(account := None), o.supplier, o.txHash)
  }

  const OPENED := Figures(RateRequested, None, NO_FIGURES, NO_FIGURES, None)

  function Apply(f: Figures, what: What): Figures {
    match what
    case Requested => OPENED
    case SupplierQuoted(rate) => f.(supplier := f.supplier.(rate := Some(rate)))
    case SupplierRateRejected(_, _) => f.(supplier := f.supplier.(rate := None))
    case Quoted(quote, currency) =>
      f.(status := RateQuoted, currencyCode := currency, client := f.client.(rate := Some(quote)))
    case RateAccepted(_, _) => f
    case ClientRateRejected(_, _) => f.(status := RateRejected)
    case OrderCreated(Client, terms) =>
      f.(status := AwaitingClientConfirmation, client := HalfFrom(terms).(account := None))
    case OrderCreated(Supplier, terms) => f.(supplier := HalfFrom(terms))
    case AmountAmended(_, _, now) =>
      f.(client := f.client.(pays := now.clientPays, receives := now.clientReceives),
         supplier := f.supplier.(pays := now.supplierPays, receives := now.supplierReceives))
    case RateAmended(_, _, _, supplierRate, clientRate) =>
      f.(status := RateQuoted, supplier := f.supplier.(rate := Some(supplierRate)),
         client := f.client.(rate := Some(clientRate)))
    case ClientConfirmed(_, _, _) => f.(status := AwaitingSupplierAcceptance)
    case SupplierAccepted => f.(status := AwaitingSettlement)
    case HashRecorded(hash, _, attachedLater) =>
      f.(txHash := hash, status := if attachedLater then f.status else AwaitingReceipt)
    case ReceiptConfirmed => f.(status := Closed)
  }

  function Replay(events: seq<What>): Figures {
    if events == [] then OPENED else Apply(Replay(events[..|events| - 1]), events[|events| - 1])
  }

  /** The account name of the client's last order, once there is one. */
  function ClientAccount(events: seq<What>): Option<string> {
    if events == [] then None
    else
      var last := events[|events| - 1];
      if OrdersForClient(last) then Some(last.terms.account) else ClientAccount(events[..|events| - 1])
  }

  lemma ReplayOneMore(events: seq<What>, what: What)
    ensures Replay(events + [what]) == Apply(Replay(events), what)
  {
    assert (events + [what])[..|events|] == events;
  }

  /**
   What an event claims about the figures before it is what the log before it says; a deal
   is requested once, and no rate is quoted or amended to below the supplier's.
   */
  predicate Truthful(before: Figures, what: What) {
    match what
    case Requested => before == OPENED
    case Quoted(quote, _) => before.supplier.rate.Some? ==> before.supplier.rate.value <= quote
    case SupplierRateRejected(rejected, _) => rejected == before.supplier.rate
    case RateAccepted(accepted, currency) => accepted == before.client.rate && currency == before.currencyCode
    case ClientRateRejected(rejected, _) => rejected == before.client.rate
    case AmountAmended(_, was, _) =>
      was == Amounts(before.client.pays, before.client.receives, before.supplier.pays, before.supplier.receives)
    case RateAmended(_, wasSupplier, wasClient, supplierRate, clientRate) =>
      wasSupplier == before.supplier.rate && wasClient == before.client.rate && supplierRate <= clientRate
    case ClientConfirmed(rate, pays, receives) =>
      rate == before.client.rate && pays == before.client.pays && receives == before.client.receives
    case _ => true
  }

  // ---- how far a deal has come since it was last priced --------------------------

  /** Positions in the log of the latest pricing and of what followed it. */
  datatype Progress = Progress(priced: Option<nat>, ordered: Option<nat>, confirmed: Option<nat>, accepted: Option<nat>)

  predicate Prices(what: What) {
    what.Quoted? || what.RateAmended?
  }

  predicate OrdersForClient(what: What) {
    what.OrderCreated? && what.side == Client
  }

  function Advance(p: Progress, what: What, at: nat): Progress {
    if Prices(what) then Progress(Some(at), None, None, None)
    else if OrdersForClient(what) then Progress(p.priced, Some(at), None, None)
    else if what.ClientConfirmed? then p.(confirmed := Some(at))
    else if what.SupplierAccepted? then p.(accepted := Some(at))
    else p
  }

  function ProgressOf(events: seq<What>): Progress {
    if events == [] then Progress(None, None, None, None)
    else Advance(ProgressOf(events[..|events| - 1]), events[|events| - 1], |events| - 1)
  }

  /** The positions are what they say, in order, and no price has moved since `priced`. */
  ghost predicate ProgressTrue(events: seq<What>, p: Progress) {
    && (p.priced.Some? ==> p.priced.value < |events| && Prices(events[p.priced.value]))
    && (p.priced.Some? ==> forall k :: p.priced.value < k < |events| ==> !Prices(events[k]))
    && (p.ordered.Some? ==> p.ordered.value < |events| && OrdersForClient(events[p.ordered.value]))
    && (p.confirmed.Some? ==> p.confirmed.value < |events| && events[p.confirmed.value].ClientConfirmed?)
    && (p.accepted.Some? ==> p.accepted.value < |events| && events[p.accepted.value].SupplierAccepted?)
    && (p.priced.Some? && p.ordered.Some? ==> p.priced.value < p.ordered.value)
    && (p.ordered.Some? && p.confirmed.Some? ==> p.ordered.value < p.confirmed.value)
    && (p.confirmed.Some? && p.accepted.Some? ==> p.confirmed.value < p.accepted.value)
    // nothing has been agreed again after the supplier accepted or the client confirmed
    && (p.confirmed.Some? ==> forall k :: p.confirmed.value < k < |events| ==>
          !events[k].ClientConfirmed? && !OrdersForClient(events[k]))
  }

  /** How far each status implies the deal has come. */
  ghost predicate ReachedFor(status: Status, p: Progress) {
    && (status == RateQuoted || Amendable(status) ==> p.priced.Some?)
    && (Amendable(status) ==> p.ordered.Some?)
    && (status == AwaitingSupplierAcceptance || status == AwaitingSettlement ==> p.confirmed.Some?)
    && (status == AwaitingSettlement ==> p.accepted.Some?)
    && (status == AwaitingClientConfirmation ==> p.confirmed == None && p.accepted == None)
    && (status == AwaitingSupplierAcceptance ==> p.accepted == None)
  }

  /** The client's figures as last agreed or, after that, as last amended. */
  function Agreed(events: seq<What>): (Option<Money>, Option<Money>, Option<Money>) {
    if events == [] then (None, None, None)
    else
      var before := Agreed(events[..|events| - 1]);
      match events[|events| - 1]
      case ClientConfirmed(rate, pays, receives) => (rate, pays, receives)
      case AmountAmended(_, _, now) => (before.0, now.clientPays, now.clientReceives)
      case _ => before
  }

  predicate HasHash(events: seq<What>) {
    exists k :: 0 <= k < |events| && events[k].HashRecorded?
  }

  /** The road a deal has travelled when its payment is first recorded. */
  ghost predicate FullyAgreed(events: seq<What>) {
    exists priced: nat, ordered: nat, confirmed: nat, accepted: nat ::
      && priced < ordered < confirmed < accepted < |events|
      && Prices(events[priced]) && OrdersForClient(events[ordered])
      && events[confirmed].ClientConfirmed? && events[accepted].SupplierAccepted?
      && (forall k :: priced < k < |events| ==> !Prices(events[k]))
      && (forall k :: confirmed < k < |events| ==> !events[k].ClientConfirmed? && !OrdersForClient(events[k]))
  }

  /** The client's columns at this point of the log are the figures agreed. */
  predicate StandsAsAgreed(events: seq<What>) {
    var client := Replay(events).client;
    Agreed(events) == (client.rate, client.pays, client.receives)
  }

  /** At the first record of a payment, everything before it is as it should be. */
  ghost predicate PaidOnlyWhenAgreed(events: seq<What>) {
    forall k :: 0 <= k < |events| && events[k].HashRecorded? && !HasHash(events[..k]) ==>
      FullyAgreed(events[..k]) && StandsAsAgreed(events[..k])
  }

  /** `Agreed`, spelled out: what the client confirmed, or the last amendment of its amounts since. */
  lemma {:induction false} AgreedMeans(events: seq<What>, confirmed: nat)
    requires confirmed < |events| && events[confirmed].ClientConfirmed?
    requires forall k :: confirmed < k < |events| ==> !events[k].ClientConfirmed?
    ensures var c := events[confirmed];
            || (&& Agreed(events) == (c.agreedRate, c.agreedPays, c.agreedReceives)
                && forall k :: confirmed < k < |events| ==> !events[k].AmountAmended?)
            || (exists a :: confirmed < a < |events| && events[a].AmountAmended?
                  && (forall k :: a < k < |events| ==> !events[k].AmountAmended?)
                  && Agreed(events) == (c.agreedRate, events[a].now.clientPays, events[a].now.clientReceives))
    decreases |events|
  {
    var last := |events| - 1;
    if confirmed < last && !events[last].AmountAmended? {
      AgreedMeans(events[..last], confirmed);
      if a :| confirmed < a < last && events[..last][a].AmountAmended?
              && (forall k :: a < k < last ==> !events[..last][k].AmountAmended?)
              && Agreed(events[..last])
                 == (events[confirmed].agreedRate, events[a].now.clientPays, events[a].now.clientReceives)
      {
        assert events[a].AmountAmended?;
      }
    } else if confirmed < last {
      AgreedKeepsRate(events[..last], confirmed);
      assert events[last].AmountAmended?;
    }
  }

  lemma {:induction false} AgreedKeepsRate(events: seq<What>, confirmed: nat)
    requires confirmed < |events| && events[confirmed].ClientConfirmed?
    requires forall k :: confirmed < k < |events| ==> !events[k].ClientConfirmed?
    ensures Agreed(events).0 == events[confirmed].agreedRate
    decreases |events|
  {
    if confirmed < |events| - 1 {
      AgreedKeepsRate(events[..|events| - 1], confirmed);
    }
  }

  // ---- the invariant --------------------------------------------------------------

  /** Which timestamps a status carries. */
  ghost predicate StampsOk(o: Order) {
    && (o.clientConfirmedAt.Some? <==> ClientAgreed(o.status))
    && (o.supplierConfirmedAt.Some? <==> SupplierAgreed(o.status))
    && (o.settledAt.Some? <==> Paid(o.status))
    && (o.closedAt.Some? <==> o.status == Closed)
    && (o.txHash.Some? ==> Paid(o.status))
  }

  /** No deal stands quoted to a client below what its supplier asks. */
  ghost predicate MarginOk(o: Order) {
    o.status == RateQuoted ==>
      o.client.rate.Some? && (o.supplier.rate.Some? ==> o.supplier.rate.value <= o.client.rate.value)
  }

  ghost predicate TrailOk(o: Order, events: seq<What>) {
    && ProgressTrue(events, ProgressOf(events))
    && ReachedFor(o.status, ProgressOf(events))
    && (HasHash(events) <==> Paid(o.status))
    && PaidOnlyWhenAgreed(events)
  }

  ghost predicate ReplayOk(o: Order, events: seq<What>) {
    && Replay(events) == FiguresOf(o)
    && (ClientAccount(events).Some? ==> o.client.account == ClientAccount(events))
    && (forall k :: 0 <= k < |events| ==> Truthful(Replay(events[..k]), events[k]))
    && (ClientAgreed(o.status) ==>
          Agreed(events) == (o.client.rate, o.client.pays, o.client.receives))
  }

  ghost predicate OrderOk(o: Order, events: seq<What>) {
    StampsOk(o) && MarginOk(o) && TrailOk(o, events) && ReplayOk(o, events)
  }

  // ---- every step keeps it ---------------------------------------------------------

  /** A payment's proof is attached only to deals the payment has settled. */
  predicate Applicable(o: Order, step: Step) {
    step.AttachProof? ==> Paid(o.status)
  }

  /** The client's agreed figures change only with the agreement. */
  predicate KeepsAgreement(o: Order, o': Order, what: What) {
    ClientAgreed(o'.status) ==>
      var figures := (o'.client.rate, o'.client.pays, o'.client.receives);
      match what
      case ClientConfirmed(rate, pays, receives) => figures == (rate, pays, receives)
      case AmountAmended(_, _, after) =>
        figures == (o.client.rate, after.clientPays, after.clientReceives) && o.status == o'.status
      case _ => figures == (o.client.rate, o.client.pays, o.client.receives) && ClientAgreed(o.status)
  }

  /** The heart of the replay: a step changes the columns as its event says. */
  predicate AsRecorded(o: Order, o': Order, what: What) {
    && Apply(FiguresOf(o), what) == FiguresOf(o')
    && Truthful(FiguresOf(o), what)
    && KeepsAgreement(o, o', what)
    && o'.client.account == if OrdersForClient(what) then Some(what.terms.account) else o.client.account
  }

  lemma ReplayOneMoreOk(o: Order, o': Order, events: seq<What>, what: What)
    requires ReplayOk(o, events)
    requires Apply(FiguresOf(o), what) == FiguresOf(o') && Truthful(FiguresOf(o), what)
    requires o'.client.account == if OrdersForClient(what) then Some(what.terms.account) else o.client.account
    requires ClientAgreed(o'.status) ==>
               Agreed(events + [what]) == (o'.client.rate, o'.client.pays, o'.client.receives)
    ensures ReplayOk(o', events + [what])
  {
    var events' := events + [what];
    ReplayOneMore(events, what);
    assert events'[..|events|] == events;
    forall k | 0 <= k < |events'| ensures Truthful(Replay(events'[..k]), events'[k]) {
      if k < |events| {
        assert events'[..k] == events[..k];
        assert Truthful(Replay(events[..k]), events[k]);
      } else {
        assert events'[..k] == events;
      }
    }
  }

  /** An event that neither prices nor agrees anything leaves the positions as they are. */
  lemma ProgressIdles(events: seq<What>, what: What, p: Progress)
    requires ProgressTrue(events, p) && !Prices(what) && !OrdersForClient(what) && !what.ClientConfirmed?
    ensures ProgressTrue(events + [what], p)
  {
    assert forall k :: 0 <= k < |events| ==> (events + [what])[k] == events[k];
  }

  lemma ProgressOrders(events: seq<What>, what: What, p: Progress)
    requires ProgressTrue(events, p) && OrdersForClient(what)
    ensures ProgressTrue(events + [what], Progress(p.priced, Some(|events|), None, None))
  {
    assert forall k :: 0 <= k < |events| ==> (events + [what])[k] == events[k];
  }

  lemma ProgressConfirms(events: seq<What>, what: What, p: Progress)
    requires ProgressTrue(events, p) && what.ClientConfirmed? && p.ordered.Some? && p.accepted == None
    ensures ProgressTrue(events + [what], p.(confirmed := Some(|events|)))
  {
    assert forall k :: 0 <= k < |events| ==> (events + [what])[k] == events[k];
  }

  lemma AdvanceKeepsProgress(events: seq<What>, what: What)
    requires ProgressTrue(events, ProgressOf(events))
    requires what.ClientConfirmed? ==>
             ProgressOf(events).ordered.Some? && ProgressOf(events).confirmed == None
               && ProgressOf(events).accepted == None
    requires what.SupplierAccepted? ==> ProgressOf(events).confirmed.Some?
    ensures ProgressOf(events + [what]) == Advance(ProgressOf(events), what, |events|)
    ensures ProgressTrue(events + [what], ProgressOf(events + [what]))
  {
    assert (events + [what])[..|events|] == events;
    var p := ProgressOf(events);
    if OrdersForClient(what) {
      ProgressOrders(events, what, p);
    } else if what.ClientConfirmed? {
      ProgressConfirms(events, what, p);
    } else if !Prices(what) {
      ProgressIdles(events, what, p);
    }
  }

  lemma ProgressIsFullyAgreed(events: seq<What>)
    requires ProgressTrue(events, ProgressOf(events)) && ReachedFor(AwaitingSettlement, ProgressOf(events))
    ensures FullyAgreed(events)
  {
    var p := ProgressOf(events);
    assert p.priced.value < p.ordered.value < p.confirmed.value < p.accepted.value < |events|;
  }

  lemma HasHashOneMore(events: seq<What>, what: What)
    ensures HasHash(events + [what]) <==> HasHash(events) || what.HashRecorded?
  {
    if HasHash(events) {
      var k :| 0 <= k < |events| && events[k].HashRecorded?;
      assert (events + [what])[k].HashRecorded?;
    }
    if what.HashRecorded? {
      assert (events + [what])[|events|].HashRecorded?;
    }
  }

  lemma PaidOneMore(events: seq<What>, what: What)
    requires PaidOnlyWhenAgreed(events)
    requires what.HashRecorded? && !HasHash(events) ==> FullyAgreed(events) && StandsAsAgreed(events)
    ensures PaidOnlyWhenAgreed(events + [what])
  {
    var events' := events + [what];
    forall k | 0 <= k < |events'| && events'[k].HashRecorded? && !HasHash(events'[..k])
      ensures FullyAgreed(events'[..k]) && StandsAsAgreed(events'[..k])
    {
      if k < |events| {
        assert events'[..k] == events[..k];
        assert events[k].HashRecorded?;
      } else {
        assert events'[..k] == events;
      }
    }
  }

  /** What a step may do to a deal's progress, from one status to the next. */
  ghost predicate Progresses(before: Status, after: Status, p: Progress, what: What, at: nat) {
    && ReachedFor(after, Advance(p, what, at))
    && (what.ClientConfirmed? ==> p.ordered.Some? && p.confirmed == None && p.accepted == None)
    && (what.SupplierAccepted? ==> p.confirmed.Some?)
    && (what.HashRecorded? ==> Paid(after) && SupplierAgreed(before))
    && (!what.HashRecorded? ==> (Paid(after) <==> Paid(before)))
  }

  lemma TrailOneMore(before: Status, o': Order, events: seq<What>, what: What)
    requires ProgressTrue(events, ProgressOf(events)) && PaidOnlyWhenAgreed(events)
    requires HasHash(events) <==> Paid(before)
    requires Progresses(before, o'.status, ProgressOf(events), what, |events|)
    requires what.HashRecorded? && !HasHash(events) ==> FullyAgreed(events) && StandsAsAgreed(events)
    ensures TrailOk(o', events + [what])
  {
    AdvanceKeepsProgress(events, what);
    HasHashOneMore(events, what);
    PaidOneMore(events, what);
  }

  lemma ReadyToPay(o: Order, events: seq<What>)
    requires ProgressTrue(events, ProgressOf(events)) && ReachedFor(AwaitingSettlement, ProgressOf(events))
    requires Replay(events) == FiguresOf(o) && Agreed(events) == (o.client.rate, o.client.pays, o.client.receives)
    ensures FullyAgreed(events) && StandsAsAgreed(events)
  {
    ProgressIsFullyAgreed(events);
  }

  /** What every step does, whichever it is. */
  ghost predicate Sound(o: Order, p: Progress, at: nat, o': Order, what: What) {
    && StampsOk(o') && MarginOk(o')
    && AsRecorded(o, o', what)
    && Progresses(o.status, o'.status, p, what, at)
  }

  predicate Pricing(step: Step) {
    step.RecordSupplierQuote? || step.RejectSupplierRate? || step.QuoteClient? || step.ClientAcceptsRate?
      || step.RejectClientRate?
  }

  predicate Ordering(step: Step) {
    step.CreateClientOrder? || step.AmendAmount? || step.Reprice? || step.CreateSupplierOrder?
  }

  lemma PricingSound(o: Order, p: Progress, at: nat, step: Step, entitled: bool, accepted: bool, now: Time, o': Order,
                     what: What)
    requires Pricing(step) && StampsOk(o) && MarginOk(o) && ReachedFor(o.status, p)
    requires Act(o, step, entitled, accepted, now) == Record(o', what)
    ensures Sound(o, p, at, o', what)
  {
  }

  lemma OrderingSound(o: Order, p: Progress, at: nat, step: Step, entitled: bool, accepted: bool, now: Time,
                      o': Order, what: What)
    requires Ordering(step) && StampsOk(o) && MarginOk(o) && ReachedFor(o.status, p)
    requires Act(o, step, entitled, accepted, now) == Record(o', what)
    ensures Sound(o, p, at, o', what)
  {
  }

  lemma SettlingSound(o: Order, p: Progress, at: nat, step: Step, entitled: bool, accepted: bool, now: Time,
                      o': Order, what: What)
    requires !Pricing(step) && !Ordering(step) && StampsOk(o) && MarginOk(o) && ReachedFor(o.status, p)
             && Applicable(o, step)
    requires Act(o, step, entitled, accepted, now) == Record(o', what)
    ensures Sound(o, p, at, o', what)
  {
  }

  lemma SoundKeepsOrder(o: Order, events: seq<What>, o': Order, what: What)
    requires OrderOk(o, events) && Sound(o, ProgressOf(events), |events|, o', what)
    ensures OrderOk(o', events + [what])
  {
    assert (events + [what])[..|events|] == events;
    ReplayOneMoreOk(o, o', events, what);
    if o.status == AwaitingSettlement {
      ReadyToPay(o, events);
    }
    TrailOneMore(o.status, o', events, what);
  }

  /** Every step, recorded with its event, keeps everything this module says of an order. */
  lemma StepKeepsOrder(o: Order, events: seq<What>, step: Step, entitled: bool, accepted: bool, now: Time, o': Order,
                       what: What)
    requires OrderOk(o, events) && Applicable(o, step)
    requires Act(o, step, entitled, accepted, now) == Record(o', what)
    ensures OrderOk(o', events + [what])
  {
    var p, at := ProgressOf(events), |events|;
    if Pricing(step) {
      PricingSound(o, p, at, step, entitled, accepted, now, o', what);
    } else if Ordering(step) {
      OrderingSound(o, p, at, step, entitled, accepted, now, o', what);
    } else {
      SettlingSound(o, p, at, step, entitled, accepted, now, o', what);
    }
    SoundKeepsOrder(o, events, o', what);
  }
}
