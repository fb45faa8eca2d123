/**
 The deal as the program holds it: an object whose columns the steps assign, and
 a session they append events to. Each method does what the source's function
 does, assignment by assignment, and is proved equal to the step it implements.
 */
module FxDesk {
  import opened Prelude
  import opened Text
  import opened FxOrders
  import opened FxSteps
  import opened FxHistory

  class Session {
    var log: seq<Event>

    constructor ()
      ensures log == []
    {
      log := [];
    }
  }

  class FxOrder {
    const reference: nat
    const clientId: nat
    const clientCode: Option<string>
    const clientWorkItem: nat
    const countryCode: Option<string>
    const chain: string
    var supplierId: Option<nat>
    var supplierCode: Option<string>
    var supplierWorkItem: Option<nat>
    var currencyCode: Option<string>
    var status: Status
    var client: Half
    var clientConfirmedAt: Option<Time>
    var supplier: Half
    var supplierConfirmedAt: Option<Time>
    var txHash: Option<string>
    var settledAt: Option<Time>
    var closedAt: Option<Time>

    function Row(): Order
      reads this
    {
      Order(reference, clientId, clientCode, clientWorkItem, supplierId, supplierCode, supplierWorkItem,
            currencyCode, countryCode, status, client, clientConfirmedAt, supplier, supplierConfirmedAt,
            txHash, chain, settledAt, closedAt)
    }

    constructor (row: Order)
      ensures Row() == row
    {
      reference, clientId, clientCode, clientWorkItem := row.reference, row.clientId, row.clientCode,
        row.clientWorkItem;
      countryCode, chain := row.countryCode, row.chain;
      supplierId, supplierCode, supplierWorkItem := row.supplierId, row.supplierCode, row.supplierWorkItem;
      currencyCode, status := row.currencyCode, row.status;
      client, clientConfirmedAt := row.client, row.clientConfirmedAt;
      supplier, supplierConfirmedAt := row.supplier, row.supplierConfirmedAt;
      txHash, settledAt, closedAt := row.txHash, row.settledAt, row.closedAt;
    }

    /** In memory and in the log, exactly what the step prescribes. */
    ghost predicate Did(session: Session, before: seq<Event>, out: Outcome, refusal: Option<Refusal>, now: Time)
      reads this, session
    {
      Row() == out.order && refusal == out.refusal && session.log == before + Logged(out, now)
    }

    method RecordEvent(session: Session, what: What, now: Time)
      modifies session
      ensures session.log == old(session.log) + [Event(clientWorkItem, DisplayReference(Row()), now, what)]
    {
      session.log := session.log + [Event(clientWorkItem, DisplayReference(Row()), now, what)];
    }

    /** `_move`: false is the exception. */
    method Move(target: Status) returns (moved: bool)
      modifies this`status
      ensures moved == MayMove(old(status), target)
      ensures status == if moved then target else old(status)
    {
      moved := MayMove(status, target);
      if moved {
        status := target;
      }
    }

    /** `has_event`, for events of any type, reading the log as the source does. */
    method HasEvent(session: Session, ofType: What -> bool) returns (found: bool)
      ensures found <==> exists e :: e in session.log && e.workItem == clientWorkItem && ofType(e.what)
                                     && e.fxReference == DisplayReference(Row())
    {
      var i := 0;
      found := false;
      while i < |session.log|
        invariant 0 <= i <= |session.log|
        invariant found <==> exists e :: e in session.log[..i] && e.workItem == clientWorkItem && ofType(e.what)
                                         && e.fxReference == DisplayReference(Row())
      {
        var e := session.log[i];
        assert session.log[..i + 1] == session.log[..i] + [e];
        if e.workItem == clientWorkItem && ofType(e.what) && e.fxReference == DisplayReference(Row()) {
          found := true;
        }
        i := i + 1;
      }
      assert session.log[..i] == session.log;
    }

    method QuoteTheClient(session: Session, quote: Money, currency: Option<string>, entitled: bool, now: Time)
      returns (refusal: Option<Refusal>)
      modifies this, session
      ensures Did(session, old(session.log), Act(old(Row()), QuoteClient(quote, currency), entitled, false, now),
                  refusal, now)
    {
      if !entitled {
        return Some(NotEntitled);
      }
      if status != RateRequested && status != RateQuoted && status != RateRejected {
        return Some(WrongState);
      }
      if supplier.rate.Some? && quote < supplier.rate.value {
        return Some(BelowCost);
      }
      client := client.(rate := Some(quote));
      if Given(currency) {
        currencyCode := currency;
      }
      if status != RateQuoted {
        var moved := Move(RateQuoted);
        if !moved {
          return Some(CannotMove);
        }
      }
      RecordEvent(session, Quoted(quote, currencyCode), now);
      refusal := None;
    }

    method TakeSupplierQuote(session: Session, supplierRow: nat, code: Option<string>, workItem: Option<nat>,
                             rate: Money, entitled: bool, now: Time)
      returns (refusal: Option<Refusal>)
      modifies this, session
      ensures Did(session, old(session.log),
                  Act(old(Row()), RecordSupplierQuote(supplierRow, code, workItem, rate), entitled, false, now),
                    refusal, now)
    {
      if !entitled {
        return Some(NotEntitled);
      }
      if status != RateRequested && status != RateRejected {
        return Some(WrongState);
      }
      supplierId := Some(supplierRow);
      supplierCode := code;
      supplier := supplier.(rate := Some(rate));
      if workItem.Some? {
        supplierWorkItem := workItem;
      }
      RecordEvent(session, SupplierQuoted(rate), now);
      refusal := None;
    }

    method TurnDownSupplierRate(session: Session, reason: string, entitled: bool,
                                now: Time) returns (refusal: Option<Refusal>)
      modifies this, session
      ensures Did(session, old(session.log), Act(old(Row()), RejectSupplierRate(reason), entitled, false, now),
                  refusal, now)
    {
      if !entitled {
        return Some(NotEntitled);
      }
      if status != RateRequested && status != RateRejected {
        return Some(WrongState);
      }
      var rejected := supplier.rate;
      supplier := supplier.(rate := None);
      RecordEvent(session, SupplierRateRejected(rejected, reason), now);
      refusal := None;
    }

    method ClientSaysYes(session: Session, now: Time) returns (refusal: Option<Refusal>)
      modifies this, session
      ensures Did(session, old(session.log),
                  Act(old(Row()), ClientAcceptsRate, false, HasAccepted(old(session.log), old(Row())), now), refusal,
                    now)
    {
      if status != RateQuoted {
        return Some(WrongState);
      }
      var already := HasEvent(session, (what: What) => what.RateAccepted?);
      if already {
        return Some(AlreadyAccepted);
      }
      RecordEvent(session, RateAccepted(client.rate, currencyCode), now);
      refusal := None;
    }

    method ClientSaysNo(session: Session, reason: string, entitled: bool, now: Time) returns (refusal: Option<Refusal>)
      modifies this, session
      ensures Did(session, old(session.log), Act(old(Row()), RejectClientRate(reason), entitled, false, now), refusal,
                  now)
    {
      if !entitled {
        return Some(NotEntitled);
      }
      if status != RateQuoted && status != AwaitingClientConfirmation {
        return Some(WrongState);
      }
      var moved := Move(RateRejected);
      if !moved {
        return Some(CannotMove);
      }
      RecordEvent(session, ClientRateRejected(client.rate, reason), now);
      refusal := None;
    }

    method BuildClientOrder(session: Session, terms: Terms, entitled: bool,
                            now: Time) returns (refusal: Option<Refusal>)
      modifies this, session
      ensures Did(session, old(session.log), Act(old(Row()), CreateClientOrder(terms), entitled, false, now), refusal,
                  now)
    {
      if !entitled {
        return Some(NotEntitled);
      }
      if status != RateQuoted && status != AwaitingClientConfirmation {
        return Some(WrongState);
      }
      var clean := CleanTerms(terms);
      client := HalfFrom(clean);
      if status != AwaitingClientConfirmation {
        var moved := Move(AwaitingClientConfirmation);
        if !moved {
          return Some(CannotMove);
        }
      }
      RecordEvent(session, OrderCreated(Client, clean), now);
      refusal := None;
    }

    method ChangeAmount(session: Session, clientPays: Money, clientReceives: Money, supplierPays: Option<Money>,
                        supplierReceives: Option<Money>,
                        reason: string, entitled: bool, now: Time) returns (refusal: Option<Refusal>)
      modifies this, session
      ensures Did(session, old(session.log),
                  Act(old(Row()), AmendAmount(clientPays, clientReceives, supplierPays, supplierReceives, reason),
                      entitled, false, now), refusal, now)
    {
      if !entitled {
        return Some(NotEntitled);
      }
      if !Amendable(status) {
        return Some(WrongState);
      }
      var cleaned := Strip(reason);
      if cleaned == "" {
        return Some(NoReason);
      }
      if clientPays <= 0 || clientReceives <= 0 {
        return Some(NotPositive);
      }
      var before := AmountsOf(Row());
      client := client.(pays := Some(clientPays));
      client := client.(receives := Some(clientReceives));
      if supplierPays.Some? {
        supplier := supplier.(pays := supplierPays);
      }
      if supplierReceives.Some? {
        supplier := supplier.(receives := supplierReceives);
      }
      RecordEvent(session, AmountAmended(cleaned, before, AmountsOf(Row())), now);
      refusal := None;
    }

    /** New rates on both sides, and nobody has agreed to them yet. */
    method AssignRates(supplierRate: Money, clientRate: Money)
      modifies this
      ensures Row() == Repriced(old(Row()), supplierRate, clientRate)
    {
      supplier := supplier.(rate := Some(supplierRate));
      client := client.(rate := Some(clientRate));
      clientConfirmedAt := None;
      supplierConfirmedAt := None;
    }

    /** On the refusal of `_move` the new rates are already in memory. */
    method ChangeRates(session: Session, supplierRate: Money, clientRate: Money, reason: string, entitled: bool,
                       now: Time)
      returns (refusal: Option<Refusal>)
      modifies this, session
      ensures Did(session, old(session.log),
                  Act(old(Row()), Reprice(supplierRate, clientRate, reason), entitled, false, now), refusal, now)
    {
      if !entitled {
        return Some(NotEntitled);
      }
      if !Amendable(status) {
        return Some(WrongState);
      }
      var cleaned := Strip(reason);
      if cleaned == "" {
        return Some(NoReason);
      }
      if supplierRate <= 0 || clientRate <= 0 {
        return Some(NotPositive);
      }
      if clientRate < supplierRate {
        return Some(BelowCost);
      }
      var wasSupplier, wasClient := supplier.rate, client.rate;
      AssignRates(supplierRate, clientRate);
      var moved := Move(RateQuoted);
      if !moved {
        return Some(CannotMove);
      }
      RecordEvent(session, RateAmended(cleaned, wasSupplier, wasClient, supplierRate, clientRate), now);
      refusal := None;
    }

    method ClientConfirmsOrder(session: Session, now: Time) returns (refusal: Option<Refusal>)
      modifies this, session
      ensures Did(session, old(session.log), Act(old(Row()), ClientConfirms, false, false, now), refusal, now)
    {
      if status != AwaitingClientConfirmation {
        return Some(WrongState);
      }
      clientConfirmedAt := Some(now);
      var moved := Move(AwaitingSupplierAcceptance);
      if !moved {
        return Some(CannotMove);
      }
      RecordEvent(session, ClientConfirmed(client.rate, client.pays, client.receives), now);
      refusal := None;
    }

    method BuildSupplierOrder(session: Session, terms: Terms, entitled: bool,
                              now: Time) returns (refusal: Option<Refusal>)
      modifies this, session
      ensures Did(session, old(session.log), Act(old(Row()), CreateSupplierOrder(terms), entitled, false, now),
                  refusal, now)
    {
      if !entitled {
        return Some(NotEntitled);
      }
      if status != AwaitingSupplierAcceptance {
        return Some(WrongState);
      }
      var clean := CleanTerms(terms);
      supplier := HalfFrom(clean);
      RecordEvent(session, OrderCreated(Supplier, clean), now);
      refusal := None;
    }

    method SupplierAcceptsOrder(session: Session, now: Time) returns (refusal: Option<Refusal>)
      modifies this, session
      ensures Did(session, old(session.log), Act(old(Row()), SupplierAccepts, false, false, now), refusal, now)
    {
      if status != AwaitingSupplierAcceptance {
        return Some(WrongState);
      }
      supplierConfirmedAt := Some(now);
      var moved := Move(AwaitingSettlement);
      if !moved {
        return Some(CannotMove);
      }
      RecordEvent(session, SupplierAccepted, now);
      refusal := None;
    }

    method RecordTheHash(session: Session, hash: string, entitled: bool, now: Time) returns (refusal: Option<Refusal>)
      modifies this, session
      ensures Did(session, old(session.log), Act(old(Row()), RecordHash(hash), entitled, false, now), refusal, now)
    {
      if !entitled {
        return Some(NotEntitled);
      }
      if status != AwaitingSettlement {
        return Some(WrongState);
      }
      var cleaned := CheckHash(hash);
      if cleaned == None {
        return Some(BadHash);
      }
      txHash := cleaned;
      settledAt := Some(now);
      var moved := Move(AwaitingReceipt);
      if !moved {
        return Some(CannotMove);
      }
      RecordEvent(session, HashRecorded(cleaned, None, false), now);
      refusal := None;
    }

    method ClientHasTheFunds(session: Session, now: Time) returns (refusal: Option<Refusal>)
      modifies this, session
      ensures Did(session, old(session.log), Act(old(Row()), ClientConfirmsReceipt, false, false, now), refusal, now)
    {
      if status != AwaitingReceipt {
        return Some(WrongState);
      }
      closedAt := Some(now);
      var moved := Move(Closed);
      if !moved {
        return Some(CannotMove);
      }
      RecordEvent(session, ReceiptConfirmed, now);
      refusal := None;
    }

    /** The object goes back to what the database holds. */
    method Rollback(saved: Order)
      requires saved.reference == reference && saved.clientId == clientId && saved.clientCode == clientCode
      requires saved.clientWorkItem == clientWorkItem && saved.countryCode == countryCode && saved.chain == chain
      modifies this
      ensures Row() == saved
    {
      supplierId, supplierCode, supplierWorkItem := saved.supplierId, saved.supplierCode, saved.supplierWorkItem;
      currencyCode, status := saved.currencyCode, saved.status;
      client, clientConfirmedAt := saved.client, saved.clientConfirmedAt;
      supplier, supplierConfirmedAt := saved.supplier, saved.supplierConfirmedAt;
      txHash, settledAt, closedAt := saved.txHash, saved.settledAt, saved.closedAt;
    }

    /** The pricing steps. */
    method Price(session: Session, step: Step, entitled: bool, now: Time) returns (refusal: Option<Refusal>)
      requires Pricing(step)
      modifies this, session
      ensures Did(session, old(session.log),
                  Act(old(Row()), step, entitled, HasAccepted(old(session.log), old(Row())), now), refusal, now)
    {
      match step
      case RecordSupplierQuote(supplierRow, code, workItem, rate) =>
        refusal := TakeSupplierQuote(session, supplierRow, code, workItem, rate, entitled, now);
      case RejectSupplierRate(reason) => refusal := TurnDownSupplierRate(session, reason, entitled, now);
      case QuoteClient(quote, currency) => refusal := QuoteTheClient(session, quote, currency, entitled, now);
      case ClientAcceptsRate => refusal := ClientSaysYes(session, now);
      case RejectClientRate(reason) => refusal := ClientSaysNo(session, reason, entitled, now);
    }

    /** The ordering steps. */
    method Arrange(session: Session, step: Step, entitled: bool, now: Time) returns (refusal: Option<Refusal>)
      requires Ordering(step)
      modifies this, session
      ensures Did(session, old(session.log),
                  Act(old(Row()), step, entitled, HasAccepted(old(session.log), old(Row())), now), refusal, now)
    {
      match step
      case CreateClientOrder(terms) => refusal := BuildClientOrder(session, terms, entitled, now);
      case AmendAmount(clientPays, clientReceives, supplierPays, supplierReceives, reason) =>
        refusal := ChangeAmount(session, clientPays, clientReceives, supplierPays, supplierReceives, reason, entitled,
                                now);
      case Reprice(supplierRate, clientRate, reason) =>
        refusal := ChangeRates(session, supplierRate, clientRate, reason, entitled, now);
      case CreateSupplierOrder(terms) => refusal := BuildSupplierOrder(session, terms, entitled, now);
    }

    /** The steps that see it through. */
    method SeeThrough(session: Session, step: Step, entitled: bool, now: Time) returns (refusal: Option<Refusal>)
      requires step.ClientConfirms? || step.SupplierAccepts? || step.RecordHash? || step.ClientConfirmsReceipt?
      modifies this, session
      ensures Did(session, old(session.log),
                  Act(old(Row()), step, entitled, HasAccepted(old(session.log), old(Row())), now), refusal, now)
    {
      match step
      case ClientConfirms => refusal := ClientConfirmsOrder(session, now);
      case SupplierAccepts => refusal := SupplierAcceptsOrder(session, now);
      case RecordHash(hash) => refusal := RecordTheHash(session, hash, entitled, now);
      case ClientConfirmsReceipt => refusal := ClientHasTheFunds(session, now);
    }

    /**
     `session_scope` around any of the thirteen commands: it commits the step and its one
     event, or it leaves every column and the log as they were, whatever had been assigned.
     */
    method InTransaction(session: Session, step: Step, entitled: bool, now: Time) returns (refusal: Option<Refusal>)
      requires !step.Settle? && !step.AttachProof?
      modifies this, session
      ensures var out := Act(old(Row()), step, entitled, HasAccepted(old(session.log), old(Row())), now);
              && refusal == out.refusal && Row() == Commit(old(Row()), out)
              && session.log == old(session.log) + Logged(out, now)
    {
      var saved, savedLog := Row(), session.log;
      if Pricing(step) {
        refusal := Price(session, step, entitled, now);
      } else if Ordering(step) {
        refusal := Arrange(session, step, entitled, now);
      } else {
        refusal := SeeThrough(session, step, entitled, now);
      }
      if refusal.Some? {
        StepsFollowTheTable(saved, step, entitled, HasAccepted(savedLog, saved), now);
        Rollback(saved);
        session.log := savedLog;
      }
    }
  }
}
