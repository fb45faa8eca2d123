/**
 Recording a payment and attaching its proof as the program does it
 (app/domain/settlement.py:149-231, 486-511): guards in a loop, then rows and
 columns assigned in a loop, and the whole thing undone if the storage objects.
 */
module SettlementDesk {
  import opened Prelude
  import opened Text
  import opened FxOrders
  import opened FxSteps
  import opened FxHistory
  import opened Ledger
  import opened LedgerRuns

  lemma FirstFaultPrefix(b: Books, lines: seq<Line>, k: nat, known: set<string>)
    requires (forall line :: line in lines ==> line.order in b.orders) && k < |lines|
    requires FirstFault(b, lines[..k], known) == None
    ensures FirstFault(b, lines[..k + 1], known) == FirstFault(b, [lines[k]], known)
    ensures FirstFault(b, [lines[k]], known).Some? ==> FirstFault(b, lines, known) == FirstFault(b, [lines[k]], known)
    decreases k
  {
    assert lines[..k + 1][1..] == lines[1..][..k];
    if k > 0 {
      assert lines[..k][1..] == lines[1..][..k - 1];
      FirstFaultPrefix(b, lines[1..], k - 1, known);
    } else {
      assert lines[..1] == [lines[0]];
      assert [lines[0]][1..] == [];
    }
  }

  /** After the first lines are settled, an order is allocated exactly if it was on one of them. */
  lemma {:induction false} AllocatedAfter(b: Books, lines: seq<Line>, settlement: nat, order: nat)
    requires Priced(lines) && !Allocated(b, order)
    ensures (exists a :: a in b.allocations + Shares(lines, settlement) && a.order == order)
            <==> order in OrdersOf(lines)
  {
    if lines == [] {
      assert b.allocations + [] == b.allocations;
    } else {
      var n := |lines| - 1;
      AllocatedAfter(b, lines[..n], settlement, order);
      assert OrdersOf(lines) == OrdersOf(lines[..n]) + [lines[n].order];
      var before, share := b.allocations + Shares(lines[..n], settlement), ShareOf(lines[n], settlement);
      assert b.allocations + Shares(lines, settlement) == before + [share];
      if lines[n].order == order {
        assert share in before + [share];
      }
    }
  }

  lemma Repeats(lines: seq<Line>, k: nat)
    requires k < |lines| && lines[k].order in OrdersOf(lines[..k])
    ensures !Distinct(OrdersOf(lines))
  {
    var i :| 0 <= i < k && OrdersOf(lines[..k])[i] == lines[k].order;
    assert OrdersOf(lines)[i] == OrdersOf(lines)[k];
  }

  class Desk {
    var orders: map<nat, Order>
    var nextReference: nat
    var log: seq<Event>
    var settlements: seq<Settlement>
    var allocations: seq<Allocation>
    var clock: Time

    constructor (b: Books)
      ensures State() == b
    {
      orders, nextReference, log, settlements, allocations, clock := b.orders, b.nextReference, b.log, b.settlements,
        b.allocations, b.clock;
    }

    function State(): Books
      reads this
    {
      Books(orders, nextReference, log, settlements, allocations, clock)
    }

    method Rollback(saved: Books)
      modifies this
      ensures State() == saved
    {
      orders, nextReference, log, settlements, allocations, clock :=
        saved.orders, saved.nextReference, saved.log, saved.settlements, saved.allocations, saved.clock;
    }

    /** `already_settled` */
    method AlreadyOnASettlement(order: nat) returns (found: bool)
      ensures found == Allocated(State(), order)
    {
      found := false;
      var i := 0;
      while i < |allocations|
        invariant 0 <= i <= |allocations|
        invariant found <==> exists j :: 0 <= j < i && allocations[j].order == order
      {
        if allocations[i].order == order {
          found := true;
        }
        i := i + 1;
      }
    }

    /** The guards, line by line: the first that fails is the exception. */
    method Check(lines: seq<Line>, known: set<string>) returns (fault: Option<PayRefusal>)
      requires forall line :: line in lines ==> line.order in orders
      ensures fault == FirstFault(State(), lines, known)
    {
      var i := 0;
      while i < |lines|
        invariant 0 <= i <= |lines|
        invariant FirstFault(State(), lines[..i], known) == None
      {
        var line := lines[i];
        assert line in lines;
        FirstFaultPrefix(State(), lines, i, known);
        assert [line][1..] == [];
        var settled := AlreadyOnASettlement(line.order);
        if orders[line.order].status != AwaitingSettlement {
          return Some(NotAwaiting(line.order));
        }
        if settled {
          return Some(AlreadySettled(line.order));
        }
        if line.rate <= 0 {
          return Some(BadRate(line.order));
        }
        if !KnownCountry(line.country, known) {
          return Some(UnknownCountry(line.order));
        }
        i := i + 1;
      }
      assert lines[..i] == lines;
      fault := None;
    }

    /** One line's share, and its order assigned past the table: status, hash and time. */
    method SettleOne(line: Line, settlement: nat, hash: Option<string>, now: Time)
      requires Payable(orders, line)
      modifies this
      ensures State() == SettleLine(old(State()), line, settlement, hash, now)
    {
      var o := orders[line.order];
      allocations := allocations + [Allocation(settlement, line.order, Upper(Strip(line.country.value)),
                                               line.localAmount, line.rate,
                                               Usdt(line.localAmount, line.rate))];
      o := o.(txHash := hash);
      o := o.(settledAt := Some(now));
      o := o.(status := AwaitingReceipt);
      orders := orders[line.order := o];
      log := log + [Event(o.clientWorkItem, DisplayReference(o), now, HashRecorded(hash, Some(settlement), false))];
      clock := now;
    }

    method Record(lines: seq<Line>, txHash: Option<string>, amount: Option<Money>, known: set<string>, now: Time)
      returns (refusal: Option<PayRefusal>)
      requires forall line :: line in lines ==> line.order in orders
      modifies this
      ensures (State(), refusal) == Pay(old(State()), lines, txHash, amount, known, now)
    {
      if lines == [] {
        return Some(NoLines);
      }
      refusal := Check(lines, known);
      if refusal.Some? {
        return;
      }
      if Given(txHash) && CheckHash(txHash.value) == None {
        return Some(BadPaymentHash);
      }
      NoFaultMeans(State(), lines, known);
      var saved := State();
      var hash := CleanHash(txHash);
      var settlement := |settlements|;
      settlements := settlements + [Settlement(FIRST_REFERENCE + |settlements|, hash, amount, now)];
      clock := now;
      refusal := SettleEach(lines, settlement, hash, now);
      if refusal.Some? {
        Rollback(saved);
      }
    }

    /** The second loop; the storage refuses a second share of one order. */
    method SettleEach(lines: seq<Line>, settlement: nat, hash: Option<string>,
                      now: Time) returns (refusal: Option<PayRefusal>)
      requires settlement < |settlements| && settlements[settlement].txHash == hash
      requires forall line :: line in lines ==> Payable(orders, line) && !Allocated(State(), line.order)
      modifies this
      ensures refusal == if Distinct(OrdersOf(lines)) then None else Some(TwiceOnOnePayment)
      ensures refusal == None ==> Priced(lines) && State() == SettleLines(old(State()), lines, settlement, hash, now)
    {
      var i := 0;
      while i < |lines|
        invariant 0 <= i <= |lines|
        invariant Distinct(OrdersOf(lines[..i])) && Priced(lines)
        invariant State() == SettleLines(old(State()), lines[..i], settlement, hash, now)
      {
        var line := lines[i];
        assert line in lines && lines[..i + 1] == lines[..i] + [line];
        assert OrdersOf(lines[..i + 1]) == OrdersOf(lines[..i]) + [line.order];
        DistinctSnoc(OrdersOf(lines[..i]), line.order);
        SettleLinesEffect(old(State()), lines[..i], settlement, hash, now);
        AllocatedAfter(old(State()), lines[..i], settlement, line.order);
        var taken := AlreadyOnASettlement(line.order);
        if taken {
          Repeats(lines, i);
          return Some(TwiceOnOnePayment);
        }
        SettleOne(line, settlement, hash, now);
        assert lines[..i + 1][..i] == lines[..i];
        i := i + 1;
      }
      assert lines[..i] == lines;
      refusal := None;
    }

    /** The proof of one payment, onto the payment and onto every order it covers. */
    method PutProof(settlement: nat, text: string, now: Time) returns (refusal: Option<PayRefusal>)
      requires settlement < |settlements|
      modifies this
      ensures (State(), refusal) == AttachHash(old(State()), settlement, text, now)
    {
      if Given(settlements[settlement].txHash) {
        return Some(HasHashAlready);
      }
      var cleaned := CheckHash(text);
      if cleaned == None {
        return Some(BadPaymentHash);
      }
      settlements := settlements[settlement := settlements[settlement].(txHash := cleaned)];
      clock := now;
      ghost var proved := State();
      var i := 0;
      while i < |allocations|
        invariant 0 <= i <= |allocations| && allocations == proved.allocations
        invariant State() == AttachOver(proved, i, settlement, cleaned.value, now)
      {
        var a := allocations[i];
        if a.settlement == settlement && a.order in orders {
          var o := orders[a.order].(txHash := cleaned);
          orders := orders[a.order := o];
          log := log + [Event(o.clientWorkItem, DisplayReference(o), now,
                              HashRecorded(cleaned, Some(settlement), true))];
          clock := now;
        }
        i := i + 1;
      }
      refusal := None;
    }
  }
}
