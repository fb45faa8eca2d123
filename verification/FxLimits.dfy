/**
 Where the desk's guards stop, exactly: a second yes to a rate, a margin after the
 quote, and an acceptance with no order to accept (app/domain/fx.py:273-305, 542-861).
 */
module FxLimits {
  import opened Prelude
  import Text
  import opened FxOrders
  import opened FxSteps
  import opened FxHistory
  import opened Ledger
  import opened LedgerRuns

  // ---- whose an event is -------------------------------------------------------------

  predicate About(e: Event, reference: nat) {
    ParseFxReference(e.fxReference) == Some(reference)
  }

  predicate OrdersForSupplier(what: What) {
    what.OrderCreated? && what.side == Supplier
  }

  ghost predicate SupplierOrdered(log: seq<Event>, reference: nat) {
    exists e :: e in log && About(e, reference) && OrdersForSupplier(e.what)
  }

  /** An event of the first kind, with none of the second after it. */
  ghost predicate HoldsSince(events: seq<What>, starts: What -> bool, ends: What -> bool) {
    exists s :: 0 <= s < |events| && starts(events[s]) && forall k :: s < k < |events| ==> !ends(events[k])
  }

  lemma HoldsOneMore(events: seq<What>, what: What, starts: What -> bool, ends: What -> bool)
    ensures HoldsSince(events + [what], starts, ends)
       <==> starts(what) || (HoldsSince(events, starts, ends) && !ends(what))
  {
    var all := events + [what];
    assert all[|events|] == what && forall k :: 0 <= k < |events| ==> all[k] == events[k];
    if HoldsSince(events, starts, ends) && !ends(what) {
      var s :| 0 <= s < |events| && starts(events[s]) && forall k :: s < k < |events| ==> !ends(events[k]);
      assert starts(all[s]);
    }
  }

  /** The client confirms, or a supplier quotes: an order sent to a supplier before that is not of this round. */
  predicate StartsARound(what: What) {
    what.ClientConfirmed? || what.SupplierQuoted?
  }

  predicate Amends(what: What) {
    what.RateAmended?
  }

  /** The supplier has been sent an order since the client last confirmed and since any supplier last quoted. */
  ghost predicate OrderedThisRound(events: seq<What>) {
    HoldsSince(events, OrdersForSupplier, StartsARound)
  }

  /** The deal has been repriced, and no supplier sent an order since. */
  ghost predicate RepricedSinceOrdered(events: seq<What>) {
    HoldsSince(events, Amends, OrdersForSupplier)
  }

  /** An order left from before a repricing is no order of the round that ends in an acceptance. */
  ghost predicate RoundOk(o: Order, events: seq<What>) {
    && (o.status == AwaitingSupplierAcceptance ==>
          (OrderedThisRound(events) <==> o.supplier.account.Some? && !RepricedSinceOrdered(events)))
    && (BeforeConfirmation(o.status) && o.supplier.account.Some? ==> RepricedSinceOrdered(events))
  }

  predicate BeforeConfirmation(status: Status) {
    || status == RateRequested || status == RateQuoted || status == RateRejected
    || status == AwaitingClientConfirmation
  }

  /** A deal's events are on its request, and what its history and its columns say of orders to a supplier agrees. */
  ghost predicate OwnDeal(o: Order, reference: nat, log: seq<Event>) {
    && o.reference == reference
    && (forall e :: e in log && About(e, reference) ==> e.workItem == o.clientWorkItem)
    && (o.supplier.account.Some? <==> SupplierOrdered(log, reference))
    && RoundOk(o, History(log, reference))
  }

  ghost predicate OwnOk(b: Books) {
    && FIRST_REFERENCE <= b.nextReference
    && (forall r :: r in b.orders ==> FIRST_REFERENCE <= r < b.nextReference && OwnDeal(b.orders[r], r, b.log))
    && (forall e :: e in b.log ==> KnownDeal(e, b.nextReference))
  }

  /** Nothing is taken out of the log, and no deal goes away. */
  ghost predicate Grows(b: Books, b': Books) {
    b.log <= b'.log && b.orders.Keys <= b'.orders.Keys
  }

  lemma OwnOneMore(b: Books, b': Books, o': Order, e: Event)
    requires OwnOk(b) && b.nextReference <= b'.nextReference && FIRST_REFERENCE <= o'.reference < b'.nextReference
    requires b'.orders == b.orders[o'.reference := o'] && b'.log == b.log + [e]
    requires About(e, o'.reference) && e.workItem == o'.clientWorkItem
    requires forall x :: x in b.log && About(x, o'.reference) ==> x.workItem == o'.clientWorkItem
    requires o'.supplier.account.Some? <==> SupplierOrdered(b.log, o'.reference) || OrdersForSupplier(e.what)
    requires RoundOk(o', History(b.log, o'.reference) + [e.what])
    ensures OwnOk(b') && Grows(b, b')
  {
    assert forall x :: x in b'.log <==> x in b.log || x == e;
    forall r | r in b'.orders ensures FIRST_REFERENCE <= r < b'.nextReference && OwnDeal(b'.orders[r], r, b'.log) {
      assert r in b.orders ==> OwnDeal(b.orders[r], r, b.log);
      assert SupplierOrdered(b'.log, r) <==> SupplierOrdered(b.log, r) || (About(e, r) && OrdersForSupplier(e.what));
      HistoryOneMore(b.log, e, r);
      if r != o'.reference {
        assert History(b'.log, r) == History(b.log, r);
      }
    }
    forall x | x in b'.log ensures KnownDeal(x, b'.nextReference) {
      assert x != e ==> KnownDeal(x, b.nextReference);
    }
  }

  /** The supplier's account comes with the order built for them, and stays. */
  lemma StepAccounts(o: Order, step: Step, entitled: bool, accepted: bool, now: Time, o': Order, what: What)
    requires Act(o, step, entitled, accepted, now) == Record(o', what)
    ensures o'.clientWorkItem == o.clientWorkItem
    ensures o'.supplier.account.Some? <==> o.supplier.account.Some? || OrdersForSupplier(what)
  {
  }

  lemma StepKeepsRounds(o: Order, events: seq<What>, step: Step, entitled: bool, accepted: bool, now: Time, o': Order,
                        what: What)
    requires Act(o, step, entitled, accepted, now) == Record(o', what) && RoundOk(o, events)
    ensures RoundOk(o', events + [what])
  {
    HoldsOneMore(events, what, OrdersForSupplier, StartsARound);
    HoldsOneMore(events, what, Amends, OrdersForSupplier);
    StepAccounts(o, step, entitled, accepted, now, o', what);
    StepInRounds(o, step, entitled, accepted, now, o', what);
  }

  /** What one step does to the round: an order comes only in it, and only a repricing goes back. */
  lemma StepInRounds(o: Order, step: Step, entitled: bool, accepted: bool, now: Time, o': Order, what: What)
    requires Act(o, step, entitled, accepted, now) == Record(o', what)
    ensures OrdersForSupplier(what) ==> o'.status == o.status == AwaitingSupplierAcceptance
    ensures o'.status == AwaitingSupplierAcceptance ==>
              if o.status == AwaitingSupplierAcceptance then !StartsARound(what) && !Amends(what)
              else o.status == AwaitingClientConfirmation && what.ClientConfirmed?
    ensures BeforeConfirmation(o'.status) ==> BeforeConfirmation(o.status) || Amends(what)
  {
  }

  lemma StepKeepsOwn(b: Books, reference: nat, step: Step, entitled: bool, now: Time)
    requires OwnOk(b) && reference in b.orders
    ensures var b' := StepOrder(b, reference, step, entitled, now); OwnOk(b') && Grows(b, b')
  {
    var o := b.orders[reference];
    assert OwnDeal(o, reference, b.log);
    var o', e := StepOrderShape(b, reference, step, entitled, now);
    if Act(o, step, entitled, HasAccepted(b.log, o), now).refusal == None {
      StepAccounts(o, step, entitled, HasAccepted(b.log, o), now, o', e.what);
      StepKeepsRounds(o, History(b.log, reference), step, entitled, HasAccepted(b.log, o), now, o', e.what);
      OwnOneMore(b, StepOrder(b, reference, step, entitled, now), o', e);
    }
  }

  lemma OpenKeepsOwn(b: Books, clientId: nat, code: Option<string>, name: string, workItem: nat, now: Time)
    requires OwnOk(b)
    ensures var b' := OpenOrder(b, clientId, code, name, workItem, now); OwnOk(b') && Grows(b, b')
  {
    var b' := OpenOrder(b, clientId, code, name, workItem, now);
    var n := b.nextReference;
    var o := b'.orders[n];
    ParseInvertsReferences(o);
    forall x | x in b.log ensures !About(x, n) {
      assert KnownDeal(x, n);
    }
    NoHistory(b.log, n);
    OwnOneMore(b, b', o, Event(workItem, DisplayReference(o), now, Requested));
  }

  lemma {:induction false} SettleLinesKeepsOwn(b: Books, lines: seq<Line>, settlement: nat, hash: Option<string>,
                                               now: Time)
    requires OwnOk(b) && Priced(lines)
    ensures var b' := SettleLines(b, lines, settlement, hash, now); OwnOk(b') && Grows(b, b')
  {
    if lines != [] {
      var n := |lines| - 1;
      SettleLinesKeepsOwn(b, lines[..n], settlement, hash, now);
      var before := SettleLines(b, lines[..n], settlement, hash, now);
      if lines[n].order in before.orders {
        StepKeepsOwn(before, lines[n].order, Settle(hash, settlement), true, now);
      }
    }
  }

  lemma {:induction false} AttachOverKeepsOwn(b: Books, k: nat, settlement: nat, hash: string, now: Time)
    requires OwnOk(b) && k <= |b.allocations|
    ensures var b' := AttachOver(b, k, settlement, hash, now); OwnOk(b') && Grows(b, b')
  {
    if k > 0 {
      AttachOverKeepsOwn(b, k - 1, settlement, hash, now);
      var before, a := AttachOver(b, k - 1, settlement, hash, now), b.allocations[k - 1];
      if a.settlement == settlement && a.order in before.orders {
        StepKeepsOwn(before, a.order, AttachProof(hash, settlement), true, now);
      }
    }
  }

  lemma PayKeepsOwn(b: Books, lines: seq<Line>, txHash: Option<string>, amount: Option<Money>, known: set<string>,
                    now: Time)
    requires OwnOk(b) && forall line :: line in lines ==> line.order in b.orders
    ensures var b' := Pay(b, lines, txHash, amount, known, now).0; OwnOk(b') && Grows(b, b')
  {
    PayIs(b, lines, txHash, amount, known, now);
    if Pay(b, lines, txHash, amount, known, now).1 == None {
      var booked := Booked(b, CleanHash(txHash), amount, now);
      assert OwnOk(booked);
      SettleLinesKeepsOwn(booked, lines, |b.settlements|, CleanHash(txHash), now);
    }
  }

  lemma ProveKeepsOwn(b: Books, settlement: nat, proof: string, now: Time)
    requires OwnOk(b) && settlement < |b.settlements|
    ensures var b' := AttachHash(b, settlement, proof, now).0; OwnOk(b') && Grows(b, b')
  {
    if AttachHash(b, settlement, proof, now).1 == None {
      var hash := CheckHash(proof).value;
      var b0 := b.(settlements := b.settlements[settlement := b.settlements[settlement].(txHash := Some(hash))],
                   clock := now);
      assert OwnOk(b0);
      AttachOverKeepsOwn(b0, |b0.allocations|, settlement, hash, now);
    }
  }

  lemma ActionKeepsOwn(b: Books, t: Timed)
    requires OwnOk(b) && Doable(b, t)
    ensures OwnOk(Next(b, t)) && Grows(b, Next(b, t))
  {
    match t.action
    case Open(clientId, code, name, workItem) => OpenKeepsOwn(b, clientId, code, name, workItem, t.now);
    case Deal(reference, step, entitled) => StepKeepsOwn(b, reference, step, entitled, t.now);
    case PayFor(lines, txHash, amount, known) => PayKeepsOwn(b, lines, txHash, amount, known, t.now);
    case Prove(settlement, proof) => ProveKeepsOwn(b, settlement, proof, t.now);
  }

  lemma {:induction false} RunKeepsOwn(b: Books, run: seq<Timed>)
    requires OwnOk(b) && Possible(b, run)
    ensures OwnOk(Exec(b, run)) && Grows(b, Exec(b, run))
    decreases |run|
  {
    if run != [] {
      ActionKeepsOwn(b, run[0]);
      RunKeepsOwn(Next(b, run[0]), run[1..]);
    }
  }

  // ---- a yes to a rate ----------------------------------------------------------------

  /** The client has said yes to a rate of this deal while it went by this name. */
  ghost predicate AnsweredAs(log: seq<Event>, reference: nat, name: string) {
    exists e :: e in log && About(e, reference) && e.what.RateAccepted? && e.fxReference == name
  }

  /** Through any run, `has_event` sees the deal's own events: those of its request under its present name. */
  lemma HasAcceptedMeans(b: Books, reference: nat)
    requires OwnOk(b) && reference in b.orders
    ensures var o := b.orders[reference];
            HasAccepted(b.log, o) <==> AnsweredAs(b.log, reference, DisplayReference(o))
  {
    var o := b.orders[reference];
    assert OwnDeal(o, reference, b.log);
    ParseInvertsReferences(o);
  }

  /**
   After any run the client's yes is taken, if and only if the deal stands quoted
   and has not been said yes to, at whatever rate, under the name it has now.
   */
  lemma YesIsTakenIff(run: seq<Timed>, reference: nat, entitled: bool, now: Time)
    requires Possible(EMPTY, run) && reference in Exec(EMPTY, run).orders
    ensures var b := Exec(EMPTY, run);
            var o := b.orders[reference];
            Act(o, ClientAcceptsRate, entitled, HasAccepted(b.log, o), now).refusal == None
            <==> o.status == RateQuoted && !AnsweredAs(b.log, reference, DisplayReference(o))
  {
    RunKeepsOwn(EMPTY, run);
    HasAcceptedMeans(Exec(EMPTY, run), reference);
  }

  /**
   So a yes to one rate answers for every later one under the same name: whatever happens
   next - a requote, a rejection and a new quote, a repricing back to a quote - while the
   deal goes by that name no rate of it can be accepted again.
   */
  lemma RequoteCannotBeAccepted(run: seq<Timed>, more: seq<Timed>, reference: nat, name: string, entitled: bool,
                                now: Time)
    requires Possible(EMPTY, run) && Possible(Exec(EMPTY, run), more)
    requires AnsweredAs(Exec(EMPTY, run).log, reference, name) && reference in Exec(EMPTY, run).orders
    ensures var b := Exec(Exec(EMPTY, run), more);
            && reference in b.orders
            && var o := b.orders[reference];
               DisplayReference(o) == name ==>
                 Act(o, ClientAcceptsRate, entitled, HasAccepted(b.log, o), now).refusal
                 == Some(if o.status == RateQuoted then AlreadyAccepted else WrongState)
  {
    RunKeepsOwn(EMPTY, run);
    var before := Exec(EMPTY, run);
    RunKeepsOwn(before, more);
    var b := Exec(before, more);
    StaysAnswered(before, b, reference, name);
    if DisplayReference(b.orders[reference]) == name {
      AnsweredIsRefused(b.orders[reference], b.log, entitled, now);
    }
  }

  lemma AnsweredIsRefused(o: Order, log: seq<Event>, entitled: bool, now: Time)
    requires HasAccepted(log, o)
    ensures Act(o, ClientAcceptsRate, entitled, HasAccepted(log, o), now).refusal
         == Some(if o.status == RateQuoted then AlreadyAccepted else WrongState)
  {
  }

  lemma StaysAnswered(before: Books, b: Books, reference: nat, name: string)
    requires OwnOk(b) && Grows(before, b) && reference in before.orders && AnsweredAs(before.log, reference, name)
    ensures reference in b.orders
    ensures DisplayReference(b.orders[reference]) == name ==> HasAccepted(b.log, b.orders[reference])
  {
    var e :| e in before.log && About(e, reference) && e.what.RateAccepted? && e.fxReference == name;
    assert e in b.log;
    HasAcceptedMeans(b, reference);
  }

  // ---- the margin after the quote --------------------------------------------------------

  /** Both rates are set, and the client's is below the supplier's. */
  predicate BelowCost(client: Option<Money>, supplier: Option<Money>) {
    client.Some? && supplier.Some? && client.value < supplier.value
  }

  predicate StandsBelow(o: Order) {
    BelowCost(o.client.rate, o.supplier.rate)
  }

  /** Exactly when a step that succeeds leaves a deal below cost. */
  lemma StepGoesBelowIff(o: Order, step: Step, entitled: bool, accepted: bool, now: Time)
    requires Act(o, step, entitled, accepted, now).refusal == None
    ensures StandsBelow(Act(o, step, entitled, accepted, now).order) <==>
            match step
            case RecordSupplierQuote(_, _, _, rate) => BelowCost(o.client.rate, Some(rate))
            case RejectSupplierRate(_) => false
            case QuoteClient(_, _) => false
            case CreateClientOrder(terms) => BelowCost(Some(terms.rate), o.supplier.rate)
            case CreateSupplierOrder(terms) => BelowCost(o.client.rate, Some(terms.rate))
            case Reprice(_, _, _) => false
            case _ => StandsBelow(o)
  {
  }

  predicate SetsRate(what: What) {
    what.SupplierQuoted? || what.SupplierRateRejected? || what.Quoted? || what.OrderCreated? || what.RateAmended?
  }

  /** The event set one side's rate on the wrong side of the other's; only an order or a supplier's quote can. */
  predicate PutsBelow(before: Figures, what: What) {
    match what
    case SupplierQuoted(rate) => BelowCost(before.client.rate, Some(rate))
    case OrderCreated(Client, terms) => BelowCost(Some(terms.rate), before.supplier.rate)
    case OrderCreated(Supplier, terms) => BelowCost(before.client.rate, Some(terms.rate))
    case _ => false
  }

  /** The k-th event put the deal below cost, and no event after it sets a rate. */
  ghost predicate PutBelowAt(events: seq<What>, k: nat) {
    && k < |events| && PutsBelow(Replay(events[..k]), events[k])
    && forall j :: k < j < |events| ==> !SetsRate(events[j])
  }

  ghost predicate LastRatePutBelow(events: seq<What>) {
    exists k: nat :: PutBelowAt(events, k)
  }

  /** What one true event does to the margin. */
  lemma EventPutsBelow(before: Figures, what: What)
    requires Truthful(before, what)
    ensures var after := Apply(before, what);
            BelowCost(after.client.rate, after.supplier.rate) <==>
            if SetsRate(what) then PutsBelow(before, what) else BelowCost(before.client.rate, before.supplier.rate)
  {
  }

  ghost predicate AllTruthful(events: seq<What>) {
    forall k :: 0 <= k < |events| ==> Truthful(Replay(events[..k]), events[k])
  }

  lemma EarlierTruthful(events: seq<What>, n: nat)
    requires AllTruthful(events) && n < |events|
    ensures AllTruthful(events[..n]) && Truthful(Replay(events[..n]), events[n])
  {
    forall k | 0 <= k < n ensures Truthful(Replay(events[..n][..k]), events[..n][k]) {
      assert events[..n][..k] == events[..k];
    }
  }

  lemma {:induction false} BelowIffLastRate(events: seq<What>)
    requires AllTruthful(events)
    ensures BelowCost(Replay(events).client.rate, Replay(events).supplier.rate) <==> LastRatePutBelow(events)
  {
    if events != [] {
      var n := |events| - 1;
      var before, last := events[..n], events[n];
      assert events == before + [last];
      EarlierTruthful(events, n);
      BelowIffLastRate(before);
      LastRateOneMore(before, last);
      EventPutsBelow(Replay(before), last);
    }
  }

  lemma LastRateOneMore(events: seq<What>, what: What)
    ensures LastRatePutBelow(events + [what]) <==>
            if SetsRate(what) then PutsBelow(Replay(events), what) else LastRatePutBelow(events)
  {
    var all := events + [what];
    LastOneAt(events, what);
    if LastRatePutBelow(all) {
      var k: nat :| PutBelowAt(all, k);
      if k < |events| {
        EarlierOneAt(events, what, k);
      }
    }
    if !SetsRate(what) && LastRatePutBelow(events) {
      var k: nat :| PutBelowAt(events, k);
      EarlierOneAt(events, what, k);
    }
  }

  lemma LastOneAt(events: seq<What>, what: What)
    ensures PutBelowAt(events + [what], |events|) <==> SetsRate(what) && PutsBelow(Replay(events), what)
  {
    assert (events + [what])[..|events|] == events;
  }

  lemma EarlierOneAt(events: seq<What>, what: What, k: nat)
    requires k < |events|
    ensures PutBelowAt(events + [what], k) <==> !SetsRate(what) && PutBelowAt(events, k)
  {
    var all := events + [what];
    assert all[..k] == events[..k];
    assert all[|events|] == what && forall j :: 0 <= j < |events| ==> all[j] == events[j];
  }

  /**
   After any run a deal stands below cost, if and only if the last event of its history that
   set or cleared a rate was an order or a supplier's quote that put it there.
   */
  lemma BelowCostIff(run: seq<Timed>, reference: nat)
    requires Possible(EMPTY, run) && reference in Exec(EMPTY, run).orders
    ensures var b := Exec(EMPTY, run);
            StandsBelow(b.orders[reference]) <==> LastRatePutBelow(History(b.log, reference))
  {
    RunKeepsBooks(EMPTY, run);
    var b := Exec(EMPTY, run);
    assert DealOk(b.orders[reference], reference, b.log);
    BelowIffLastRate(History(b.log, reference));
  }

  // ---- an acceptance with nothing to accept ----------------------------------------------

  /** After any run: some supplier, at some time, was sent an order of this deal, if and only if an account is on it. */
  lemma SupplierOrderedIff(run: seq<Timed>, reference: nat)
    requires Possible(EMPTY, run) && reference in Exec(EMPTY, run).orders
    ensures var b := Exec(EMPTY, run);
            SupplierOrdered(b.log, reference) <==> b.orders[reference].supplier.account.Some?
  {
    RunKeepsOwn(EMPTY, run);
    assert OwnDeal(Exec(EMPTY, run).orders[reference], reference, Exec(EMPTY, run).log);
  }

  lemma AcceptsIff(o: Order, entitled: bool, accepted: bool, now: Time)
    ensures var out := Act(o, SupplierAccepts, entitled, accepted, now);
            && (out.refusal == None <==> o.status == AwaitingSupplierAcceptance)
            && (out.refusal == None ==> out.order.status == AwaitingSettlement)
  {
  }

  /**
   So of the acceptances that go through - and all do in the one state they are asked for, opening the
   deal to payment - exactly those answer an order of their own round, sent to the supplier whose quote
   is the deal's last and after the client's last confirmation, whose deal has an account for a supplier
   and has not been repriced since an order was last built for one.
   */
  lemma AcceptanceAnswersAnOrderIff(run: seq<Timed>, reference: nat, entitled: bool, now: Time)
    requires Possible(EMPTY, run) && reference in Exec(EMPTY, run).orders
    ensures var b := Exec(EMPTY, run);
            var o := b.orders[reference];
            var out := Act(o, SupplierAccepts, entitled, HasAccepted(b.log, o), now);
            && (out.refusal == None <==> o.status == AwaitingSupplierAcceptance)
            && (out.refusal == None ==>
                  && out.order.status == AwaitingSettlement
                  && (OrderedThisRound(History(b.log, reference)) <==>
                      o.supplier.account.Some? && !RepricedSinceOrdered(History(b.log, reference))))
  {
    RunKeepsOwn(EMPTY, run);
    var b := Exec(EMPTY, run);
    assert OwnDeal(b.orders[reference], reference, b.log);
    AcceptsIff(b.orders[reference], entitled, HasAccepted(b.log, b.orders[reference]), now);
  }

  // ---- runs that get there ---------------------------------------------------------------------

  /** Books with one deal in them. */
  function Solo(o: Order, log: seq<Event>, clock: Time): Books {
    Books(map[FIRST_REFERENCE := o], FIRST_REFERENCE + 1, log, [], [], clock)
  }

  function Do(step: Step, now: Time): Timed {
    Timed(Deal(FIRST_REFERENCE, step, true), now)
  }

  function NewDeal(name: string): Order {
    Order(FIRST_REFERENCE, 1, Some("ACME"), 7, None, None, None, None, None, RateRequested,
          NO_FIGURES.(account := Some(name)), None, NO_FIGURES, None, None, "tron", None, None)
  }

  function Noted(o: Order, what: What, now: Time): Event {
    Event(o.clientWorkItem, DisplayReference(o), now, what)
  }

  lemma OpenFirst(name: string, rest: seq<Timed>)
    ensures var first := Timed(Open(1, Some("ACME"), name, 7), 1);
            var b := Solo(NewDeal(name), [Noted(NewDeal(name), Requested, 1)], 1);
            && (Possible(EMPTY, [first] + rest) <==> Possible(b, rest))
            && (Possible(b, rest) ==> Exec(EMPTY, [first] + rest) == Exec(b, rest))
  {
    var first := Timed(Open(1, Some("ACME"), name, 7), 1);
    var b := Solo(NewDeal(name), [Noted(NewDeal(name), Requested, 1)], 1);
    assert ([first] + rest)[1..] == rest;
    assert Next(EMPTY, first).log == b.log;
    assert Next(EMPTY, first) == b;
  }

  lemma DoNext(o: Order, log: seq<Event>, clock: Time, step: Step, o': Order, what: What, rest: seq<Timed>)
    requires o.reference == FIRST_REFERENCE && !step.Settle? && !step.AttachProof?
    requires Act(o, step, true, HasAccepted(log, o), clock + 1) == Record(o', what)
    ensures var b, b' := Solo(o, log, clock), Solo(o', log + [Noted(o', what, clock + 1)], clock + 1);
            && (Possible(b, [Do(step, clock + 1)] + rest) <==> Possible(b', rest))
            && (Possible(b', rest) ==> Exec(b, [Do(step, clock + 1)] + rest) == Exec(b', rest))
  {
    var b, b' := Solo(o, log, clock), Solo(o', log + [Noted(o', what, clock + 1)], clock + 1);
    var t := Do(step, clock + 1);
    assert ([t] + rest)[1..] == rest;
    assert b.orders[FIRST_REFERENCE := o'] == b'.orders;
    assert Next(b, t) == b';
  }

  function Costed(name: string, cost: Money): Order {
    NewDeal(name).(supplierId := Some(2), supplierCode := Some("BBS"), supplier := NO_FIGURES.(rate := Some(cost)))
  }

  function QuotedAt(o: Order, quote: Money): Order {
    o.(status := RateQuoted, client := o.client.(rate := Some(quote)), currencyCode := Some("XOF"))
  }

  function OrderedOn(o: Order, terms: Terms): Order {
    o.(status := AwaitingClientConfirmation, client := HalfFrom(CleanTerms(terms)))
  }

  /** A request, the supplier's quote, and ours to the client. */
  function ToQuote(name: string, cost: Money, quote: Money): seq<Timed> {
    [Timed(Open(1, Some("ACME"), name, 7), 1), Do(RecordSupplierQuote(2, Some("BBS"), None, cost), 2),
     Do(QuoteClient(quote, Some("XOF")), 3)]
  }

  function QuoteLog(name: string, cost: Money, quote: Money): seq<Event> {
    var deal := Costed(name, cost);
    [Noted(NewDeal(name), Requested, 1), Noted(deal, SupplierQuoted(cost), 2),
     Noted(QuotedAt(deal, quote), Quoted(quote, Some("XOF")), 3)]
  }

  lemma UntilCosted(name: string, cost: Money, rest: seq<Timed>)
    ensures var deal := Costed(name, cost);
            var b := Solo(deal, [Noted(NewDeal(name), Requested, 1), Noted(deal, SupplierQuoted(cost), 2)], 2);
            var run := [Timed(Open(1, Some("ACME"), name, 7), 1)]
                       + ([Do(RecordSupplierQuote(2, Some("BBS"), None, cost), 2)] + rest);
            && (Possible(EMPTY, run) <==> Possible(b, rest))
            && (Possible(b, rest) ==> Exec(EMPTY, run) == Exec(b, rest))
  {
    var step := RecordSupplierQuote(2, Some("BBS"), None, cost);
    var log := [Noted(NewDeal(name), Requested, 1)];
    OpenFirst(name, [Do(step, 2)] + rest);
    DoNext(NewDeal(name), log, 1, step, Costed(name, cost), SupplierQuoted(cost), rest);
    assert log + [Noted(Costed(name, cost), SupplierQuoted(cost), 2)]
           == [log[0], Noted(Costed(name, cost), SupplierQuoted(cost), 2)];
  }

  lemma UntilQuoted(name: string, cost: Money, quote: Money, rest: seq<Timed>)
    requires cost <= quote
    ensures var b := Solo(QuotedAt(Costed(name, cost), quote), QuoteLog(name, cost, quote), 3);
            && (Possible(EMPTY, ToQuote(name, cost, quote) + rest) <==> Possible(b, rest))
            && (Possible(b, rest) ==> Exec(EMPTY, ToQuote(name, cost, quote) + rest) == Exec(b, rest))
  {
    var deal := Costed(name, cost);
    var asked := Do(QuoteClient(quote, Some("XOF")), 3);
    var log := [Noted(NewDeal(name), Requested, 1), Noted(deal, SupplierQuoted(cost), 2)];
    UntilCosted(name, cost, [asked] + rest);
    var costed := Do(RecordSupplierQuote(2, Some("BBS"), None, cost), 2);
    Regroup(Timed(Open(1, Some("ACME"), name, 7), 1), costed, asked, rest);
    QuoteIsTaken(deal, log, cost, quote, rest);
    assert QuoteLog(name, cost, quote) == log + [Noted(QuotedAt(deal, quote), Quoted(quote, Some("XOF")), 3)];
  }

  lemma Regroup(a: Timed, b: Timed, c: Timed, rest: seq<Timed>)
    ensures [a, b, c] + rest == [a] + ([b] + ([c] + rest))
  {
  }

  lemma QuoteIsTaken(o: Order, log: seq<Event>, cost: Money, quote: Money, rest: seq<Timed>)
    requires o.reference == FIRST_REFERENCE && o.status == RateRequested && o.supplier.rate == Some(cost)
             && cost <= quote
    ensures var asked := Do(QuoteClient(quote, Some("XOF")), 3);
            var b := Solo(o, log, 2);
            var b' := Solo(QuotedAt(o, quote), log + [Noted(QuotedAt(o, quote), Quoted(quote, Some("XOF")), 3)], 3);
            && (Possible(b, [asked] + rest) <==> Possible(b', rest))
            && (Possible(b', rest) ==> Exec(b, [asked] + rest) == Exec(b', rest))
  {
    DoNext(o, log, 2, QuoteClient(quote, Some("XOF")), QuotedAt(o, quote), Quoted(quote, Some("XOF")), rest);
  }

  /** From a quote: the client's yes. */
  lemma ThenAccepted(name: string, cost: Money, quote: Money, rest: seq<Timed>)
    requires cost <= quote
    ensures var o := QuotedAt(Costed(name, cost), quote);
            var b := Solo(o, QuoteLog(name, cost, quote) + [Noted(o, RateAccepted(Some(quote), Some("XOF")), 4)], 4);
            && (Possible(EMPTY, ToQuote(name, cost, quote) + ([Do(ClientAcceptsRate, 4)] + rest))
                <==> Possible(b, rest))
            && (Possible(b, rest) ==>
                  Exec(EMPTY, ToQuote(name, cost, quote) + ([Do(ClientAcceptsRate, 4)] + rest)) == Exec(b, rest))
  {
    var o, log := QuotedAt(Costed(name, cost), quote), QuoteLog(name, cost, quote);
    UntilQuoted(name, cost, quote, [Do(ClientAcceptsRate, 4)] + rest);
    FirstYes(o, log, Some(quote), Some("XOF"), rest);
  }

  lemma FirstYes(o: Order, log: seq<Event>, quote: Option<Money>, currency: Option<string>, rest: seq<Timed>)
    requires o.reference == FIRST_REFERENCE && o.status == RateQuoted && forall e :: e in log ==> !e.what.RateAccepted?
    requires o.client.rate == quote && o.currencyCode == currency
    ensures var b, b' := Solo(o, log, 3), Solo(o, log + [Noted(o, RateAccepted(quote, currency), 4)], 4);
            && (Possible(b, [Do(ClientAcceptsRate, 4)] + rest) <==> Possible(b', rest))
            && (Possible(b', rest) ==> Exec(b, [Do(ClientAcceptsRate, 4)] + rest) == Exec(b', rest))
  {
    DoNext(o, log, 3, ClientAcceptsRate, o, RateAccepted(quote, currency), rest);
  }

  /**
   The client says yes to one rate and is quoted another: at any two rates not below
   cost, the second cannot be accepted, though no one has ever said yes to it.
   */
  lemma RequoteIsReached(name: string, cost: Money, quote: Money, again: Money, entitled: bool, now: Time)
    requires cost <= quote && cost <= again
    ensures var run := ToQuote(name, cost, quote) + [Do(ClientAcceptsRate, 4), Do(QuoteClient(again, None), 5)];
            && Possible(EMPTY, run)
            && var b := Exec(EMPTY, run);
               && FIRST_REFERENCE in b.orders
               && var o := b.orders[FIRST_REFERENCE];
                  && o.status == RateQuoted && o.client.rate == Some(again)
                  && Act(o, ClientAcceptsRate, entitled, HasAccepted(b.log, o), now).refusal == Some(AlreadyAccepted)
  {
    var o := QuotedAt(Costed(name, cost), quote);
    var yes := Noted(o, RateAccepted(Some(quote), Some("XOF")), 4);
    var log := QuoteLog(name, cost, quote) + [yes];
    var last := Do(QuoteClient(again, None), 5);
    ThenAccepted(name, cost, quote, [last]);
    assert [Do(ClientAcceptsRate, 4)] + [last] == [Do(ClientAcceptsRate, 4), last];
    var o' := QuotedAt(o, again);
    DoNext(o, log, 4, QuoteClient(again, None), o', Quoted(again, Some("XOF")), []);
    assert [last] + [] == [last];
    var b := Solo(o', log + [Noted(o', Quoted(again, Some("XOF")), 5)], 5);
    assert Exec(b, []) == b;
    assert yes in b.log && DisplayReference(o') == DisplayReference(o);
  }

  /** The client's order at whatever rate the desk types, from a quote. */
  lemma ThenOrdered(name: string, cost: Money, quote: Money, terms: Terms, rest: seq<Timed>)
    requires cost <= quote
    ensures var o := OrderedOn(QuotedAt(Costed(name, cost), quote), terms);
            var b := Solo(o, QuoteLog(name, cost, quote) + [Noted(o, OrderCreated(Client, CleanTerms(terms)), 4)], 4);
            var run := ToQuote(name, cost, quote) + ([Do(CreateClientOrder(terms), 4)] + rest);
            && (Possible(EMPTY, run) <==> Possible(b, rest))
            && (Possible(b, rest) ==> Exec(EMPTY, run) == Exec(b, rest))
  {
    var o := QuotedAt(Costed(name, cost), quote);
    UntilQuoted(name, cost, quote, [Do(CreateClientOrder(terms), 4)] + rest);
    DoNext(o, QuoteLog(name, cost, quote), 3, CreateClientOrder(terms), OrderedOn(o, terms),
           OrderCreated(Client, CleanTerms(terms)), rest);
  }

  /** An order below cost, from an honest quote: any rate under the supplier's will do. */
  lemma BelowCostIsReached(name: string, cost: Money, quote: Money, terms: Terms)
    requires cost <= quote && terms.rate < cost
    ensures var run := ToQuote(name, cost, quote) + [Do(CreateClientOrder(terms), 4)];
            && Possible(EMPTY, run)
            && var b := Exec(EMPTY, run);
               && FIRST_REFERENCE in b.orders && StandsBelow(b.orders[FIRST_REFERENCE])
               && b.orders[FIRST_REFERENCE].status == AwaitingClientConfirmation
  {
    ThenOrdered(name, cost, quote, terms, []);
    assert [Do(CreateClientOrder(terms), 4)] + [] == [Do(CreateClientOrder(terms), 4)];
  }

  lemma ThenConfirmed(name: string, cost: Money, quote: Money, terms: Terms, rest: seq<Timed>)
    requires cost <= quote
    ensures var o := OrderedOn(QuotedAt(Costed(name, cost), quote), terms);
            var o' := o.(clientConfirmedAt := Some(5), status := AwaitingSupplierAcceptance);
            var log := QuoteLog(name, cost, quote) + [Noted(o, OrderCreated(Client, CleanTerms(terms)), 4)];
            var confirmed := ClientConfirmed(o.client.rate, o.client.pays, o.client.receives);
            var b := Solo(o', log + [Noted(o', confirmed, 5)], 5);
            var run := ToQuote(name, cost, quote)
                       + ([Do(CreateClientOrder(terms), 4)] + ([Do(ClientConfirms, 5)] + rest));
            && (Possible(EMPTY, run) <==> Possible(b, rest))
            && (Possible(b, rest) ==> Exec(EMPTY, run) == Exec(b, rest))
  {
    var o := OrderedOn(QuotedAt(Costed(name, cost), quote), terms);
    var o' := o.(clientConfirmedAt := Some(5), status := AwaitingSupplierAcceptance);
    var log := QuoteLog(name, cost, quote) + [Noted(o, OrderCreated(Client, CleanTerms(terms)), 4)];
    ThenOrdered(name, cost, quote, terms, [Do(ClientConfirms, 5)] + rest);
    DoNext(o, log, 4, ClientConfirms, o', ClientConfirmed(o.client.rate, o.client.pays, o.client.receives), rest);
  }

  /** A deal open to payment whose supplier was never sent an order. */
  lemma AcceptanceOfNothingIsReached(name: string, cost: Money, quote: Money, terms: Terms)
    requires cost <= quote
    ensures var run := ToQuote(name, cost, quote) + [Do(CreateClientOrder(terms), 4), Do(ClientConfirms, 5),
                                                     Do(SupplierAccepts, 6)];
            && Possible(EMPTY, run)
            && var b := Exec(EMPTY, run);
               && FIRST_REFERENCE in b.orders && b.orders[FIRST_REFERENCE].status == AwaitingSettlement
               && !SupplierOrdered(b.log, FIRST_REFERENCE)
  {
    var order, confirm, accept := Do(CreateClientOrder(terms), 4), Do(ClientConfirms, 5), Do(SupplierAccepts, 6);
    var run := ToQuote(name, cost, quote) + [order, confirm, accept];
    assert run == ToQuote(name, cost, quote) + ([order] + ([confirm] + [accept]));
    ThenConfirmed(name, cost, quote, terms, [accept]);
    var o := OrderedOn(QuotedAt(Costed(name, cost), quote), terms);
    var o' := o.(clientConfirmedAt := Some(5), status := AwaitingSupplierAcceptance);
    var log := QuoteLog(name, cost, quote) + [Noted(o, OrderCreated(Client, CleanTerms(terms)), 4)];
    ThenAccepts(o', log + [Noted(o', ClientConfirmed(o.client.rate, o.client.pays, o.client.receives), 5)]);
    SupplierOrderedIff(run, FIRST_REFERENCE);
  }

  lemma ThenAccepts(o: Order, log: seq<Event>)
    requires o.reference == FIRST_REFERENCE && o.status == AwaitingSupplierAcceptance
    ensures var b := Solo(o, log, 5);
            && Possible(b, [Do(SupplierAccepts, 6)])
            && var b' := Exec(b, [Do(SupplierAccepts, 6)]);
               b'.orders == map[FIRST_REFERENCE := o.(supplierConfirmedAt := Some(6), status := AwaitingSettlement)]
  {
    var o' := o.(supplierConfirmedAt := Some(6), status := AwaitingSettlement);
    DoNext(o, log, 5, SupplierAccepts, o', SupplierAccepted, []);
    assert [Do(SupplierAccepts, 6)] + [] == [Do(SupplierAccepts, 6)];
  }

  /** And so after a repricing: confirmed, repriced back to a quote, and never to be accepted under that name. */
  lemma RepricedIsReached(name: string, cost: Money, quote: Money, terms: Terms, supplierRate: Money, clientRate: Money,
                          reason: string, entitled: bool, now: Time)
    requires cost <= quote && 0 < supplierRate <= clientRate && Text.Strip(reason) != ""
    ensures var run := ToQuote(name, cost, quote) + [Do(ClientAcceptsRate, 4), Do(CreateClientOrder(terms), 5),
                                                     Do(ClientConfirms, 6),
                                                     Do(Reprice(supplierRate, clientRate, reason), 7)];
            && Possible(EMPTY, run)
            && var b := Exec(EMPTY, run);
               && FIRST_REFERENCE in b.orders
               && var o := b.orders[FIRST_REFERENCE];
                  && o.status == RateQuoted && o.client.rate == Some(clientRate)
                  && Act(o, ClientAcceptsRate, entitled, HasAccepted(b.log, o), now).refusal == Some(AlreadyAccepted)
  {
    var o := QuotedAt(Costed(name, cost), quote);
    var yes := Noted(o, RateAccepted(Some(quote), Some("XOF")), 4);
    var log := QuoteLog(name, cost, quote) + [yes];
    var order, confirm := Do(CreateClientOrder(terms), 5), Do(ClientConfirms, 6);
    var reprice := Do(Reprice(supplierRate, clientRate, reason), 7);
    ThenAccepted(name, cost, quote, [order, confirm, reprice]);
    assert [Do(ClientAcceptsRate, 4)] + [order, confirm, reprice]
           == [Do(ClientAcceptsRate, 4), order, confirm, reprice];
    OrderedAndRepriced(o, log, terms, supplierRate, clientRate, reason);
    var b := Exec(Solo(o, log, 4), [order, confirm, reprice]);
    assert yes in b.log;
    AnsweredIsRefused(b.orders[FIRST_REFERENCE], b.log, entitled, now);
  }

  /** From a quote: the order, its confirmation, and a repricing back to a quote under the same name. */
  lemma OrderedAndRepriced(o: Order, log: seq<Event>, terms: Terms, supplierRate: Money, clientRate: Money,
                           reason: string)
    requires o.reference == FIRST_REFERENCE && o.status == RateQuoted
    requires 0 < supplierRate <= clientRate && Text.Strip(reason) != ""
    ensures var rest := [Do(CreateClientOrder(terms), 5), Do(ClientConfirms, 6),
                         Do(Reprice(supplierRate, clientRate, reason), 7)];
            && Possible(Solo(o, log, 4), rest)
            && RepricedTo(o, log, supplierRate, clientRate, Exec(Solo(o, log, 4), rest))
  {
    var order, confirm := Do(CreateClientOrder(terms), 5), Do(ClientConfirms, 6);
    var reprice := Do(Reprice(supplierRate, clientRate, reason), 7);
    var o', built := OrderedOn(o, terms), OrderCreated(Client, CleanTerms(terms));
    DoNext(o, log, 4, CreateClientOrder(terms), o', built, [confirm, reprice]);
    assert [order] + [confirm, reprice] == [order, confirm, reprice];
    var log' := log + [Noted(o', built, 5)];
    ConfirmedAndRepriced(o', log', supplierRate, clientRate, reason);
    RepricedFromBefore(o, log, o', log', supplierRate, clientRate, Exec(Solo(o', log', 5), [confirm, reprice]));
  }

  lemma RepricedFromBefore(o: Order, log: seq<Event>, o': Order, log': seq<Event>, supplierRate: Money,
                           clientRate: Money, b: Books)
    requires RepricedTo(o', log', supplierRate, clientRate, b) && log <= log'
    requires o'.clientWorkItem == o.clientWorkItem && DisplayReference(o') == DisplayReference(o)
    ensures RepricedTo(o, log, supplierRate, clientRate, b)
  {
  }

  lemma ConfirmedAndRepriced(o: Order, log: seq<Event>, supplierRate: Money, clientRate: Money, reason: string)
    requires o.reference == FIRST_REFERENCE && o.status == AwaitingClientConfirmation
    requires 0 < supplierRate <= clientRate && Text.Strip(reason) != ""
    ensures var rest := [Do(ClientConfirms, 6), Do(Reprice(supplierRate, clientRate, reason), 7)];
            && Possible(Solo(o, log, 5), rest)
            && RepricedTo(o, log, supplierRate, clientRate, Exec(Solo(o, log, 5), rest))
  {
    var confirm, reprice := Do(ClientConfirms, 6), Do(Reprice(supplierRate, clientRate, reason), 7);
    var o' := o.(clientConfirmedAt := Some(6), status := AwaitingSupplierAcceptance);
    var agreed := ClientConfirmed(o.client.rate, o.client.pays, o.client.receives);
    DoNext(o, log, 5, ClientConfirms, o', agreed, [reprice]);
    assert [confirm] + [reprice] == [confirm, reprice];
    ThenRepriced(o', log + [Noted(o', agreed, 6)], supplierRate, clientRate, reason);
  }

  /** The deal is quoted again at the new rates, under its old name, with its history still there. */
  ghost predicate RepricedTo(o: Order, log: seq<Event>, supplierRate: Money, clientRate: Money, b: Books) {
    && log <= b.log && FIRST_REFERENCE in b.orders
    && var o' := b.orders[FIRST_REFERENCE];
       && o'.status == RateQuoted && o'.client.rate == Some(clientRate) && o'.supplier.rate == Some(supplierRate)
       && o'.clientWorkItem == o.clientWorkItem && DisplayReference(o') == DisplayReference(o)
  }

  lemma ThenRepriced(o: Order, log: seq<Event>, supplierRate: Money, clientRate: Money, reason: string)
    requires o.reference == FIRST_REFERENCE && o.status == AwaitingSupplierAcceptance
    requires 0 < supplierRate <= clientRate && Text.Strip(reason) != ""
    ensures var b, rest := Solo(o, log, 6), [Do(Reprice(supplierRate, clientRate, reason), 7)];
            Possible(b, rest) && RepricedTo(o, log, supplierRate, clientRate, Exec(b, rest))
  {
    var reprice := Do(Reprice(supplierRate, clientRate, reason), 7);
    var o' := Repriced(o, supplierRate, clientRate).(status := RateQuoted);
    var amended := RateAmended(Text.Strip(reason), o.supplier.rate, o.client.rate, supplierRate, clientRate);
    DoNext(o, log, 6, Reprice(supplierRate, clientRate, reason), o', amended, []);
    assert [reprice] + [] == [reprice];
    var b := Solo(o', log + [Noted(o', amended, 7)], 7);
    assert Exec(b, []) == b;
  }
}
