/**
 What a match says of a deal's columns (app/domain/settlement.py:280-404): the local leg is what
 the supplier pays out, in their currency, and not the USDT they are sent for it.
 */
module MatchingColumns {
  import opened Prelude
  import opened Text
  import opened FxOrders
  import opened Matching

  /** The supplier sends out this amount, of this currency: their leg's own, or the deal's where the leg has none. */
  predicate PaysOut(o: Order, currency: string, amount: Money) {
    && o.supplier.pays == Some(amount)
    && match o.supplier.paysCurrency
       case Some(own) =>
         if own != "" then Upper(own) == currency
         else o.currencyCode.Some? && o.currencyCode.value != "" && Upper(o.currencyCode.value) == currency
       case None => o.currencyCode.Some? && o.currencyCode.value != "" && Upper(o.currencyCode.value) == currency
  }

  lemma SendsIsPaysOut(o: Order, currency: string, amount: Money)
    ensures Sends(o, currency, amount) <==> PaysOut(o, currency, amount)
  {
  }

  /** A line that found a deal found one whose supplier pays out what the line says. */
  lemma MatchIsPaidOut(orders: seq<Order>, lines: seq<PastedLine>, accounts: Accounts, i: nat)
    requires i < |lines| && Verdicts(orders, lines, accounts)[i].Found?
    ensures lines[i].currency.Some?
    ensures exists o :: o in orders && o.reference == Verdicts(orders, lines, accounts)[i].order
              && PaysOut(o, lines[i].currency.value, lines[i].localAmount)
  {
    MatchesAgreeAndDiffer(orders, lines, accounts, i);
    var r := Verdicts(orders, lines, accounts)[i].order;
    var o :| o in orders && o.reference == r && Sends(o, lines[i].currency.value, lines[i].localAmount);
    SendsIsPaysOut(o, lines[i].currency.value, lines[i].localAmount);
  }

  /** The k-th open deal, and no other, pays out this amount. */
  predicate OnlyPayer(orders: seq<Order>, currency: string, amount: Money, k: nat) {
    && k < |orders| && PaysOut(orders[k], currency, amount)
    && forall j :: 0 <= j < |orders| && j != k ==> !PaysOut(orders[j], currency, amount)
  }

  lemma FitsOneMore(orders: seq<Order>, last: Order, taken: set<nat>, currency: string, amount: Money)
    ensures Fits(orders + [last], taken, currency, amount)
         == Fits(orders, taken, currency, amount)
          + if last.reference !in taken && PaysOut(last, currency, amount) then [last] else []
  {
    assert (orders + [last])[..|orders|] == orders;
    SendsIsPaysOut(last, currency, amount);
  }

  lemma {:induction false} FitsOnlyPayer(orders: seq<Order>, taken: set<nat>, currency: string, amount: Money, k: nat)
    requires OnlyPayer(orders, currency, amount, k) && orders[k].reference !in taken
    ensures Fits(orders, taken, currency, amount) == [orders[k]]
  {
    var n := |orders| - 1;
    assert orders == orders[..n] + [orders[n]];
    FitsOneMore(orders[..n], orders[n], taken, currency, amount);
    if k < n {
      FitsOnlyPayer(orders[..n], taken, currency, amount, k);
    } else {
      FitsNobody(orders[..n], taken, currency, amount);
    }
  }

  lemma {:induction false} FitsNobody(orders: seq<Order>, taken: set<nat>, currency: string, amount: Money)
    requires forall o :: o in orders ==> !PaysOut(o, currency, amount)
    ensures Fits(orders, taken, currency, amount) == []
  {
    if orders != [] {
      var n := |orders| - 1;
      FitsNobody(orders[..n], taken, currency, amount);
      SendsIsPaysOut(orders[n], currency, amount);
    }
  }

  /** A deal is taken only by a line of what it pays out. */
  lemma TakenByItsClass(orders: seq<Order>, lines: seq<PastedLine>, accounts: Accounts, i: nat, o: Order)
    requires DistinctReferences(orders) && o in orders && i <= |lines|
    requires forall j :: 0 <= j < i && lines[j].currency.Some? ==>
               !PaysOut(o, lines[j].currency.value, lines[j].localAmount)
    ensures o.reference !in Taken(Verdicts(orders, lines, accounts)[..i])
  {
    var vs := Verdicts(orders, lines, accounts);
    if o.reference in Taken(vs[..i]) {
      var j :| 0 <= j < i && vs[j] == Found(o.reference);
      MatchIsPaidOut(orders, lines, accounts, j);
      var other :| other in orders && other.reference == o.reference
                && PaysOut(other, lines[j].currency.value, lines[j].localAmount);
      SameReference(orders, o, other);
      assert false;
    }
  }

  /**
   The first line of an amount that just one open deal's supplier pays out finds that deal,
   whatever account it names, whatever the lines about other amounts find.
   */
  lemma OnlyPayerIsFound(orders: seq<Order>, lines: seq<PastedLine>, accounts: Accounts, i: nat, k: nat)
    requires DistinctReferences(orders) && i < |lines| && lines[i].currency.Some?
    requires forall j :: 0 <= j < i ==>
               !(lines[j].currency == lines[i].currency && lines[j].localAmount == lines[i].localAmount)
    requires OnlyPayer(orders, lines[i].currency.value, lines[i].localAmount, k)
    ensures Verdicts(orders, lines, accounts)[i] == Found(orders[k].reference)
  {
    var vs := Verdicts(orders, lines, accounts);
    VerdictAt(orders, lines, accounts, i);
    TakenByItsClass(orders, lines, accounts, i, orders[k]);
    FitsOnlyPayer(orders, Taken(vs[..i]), lines[i].currency.value, lines[i].localAmount, k);
  }

  /** A line of an amount that nobody pays out finds no deal. */
  lemma NobodyPaysNobodyIsFound(orders: seq<Order>, lines: seq<PastedLine>, accounts: Accounts, i: nat)
    requires i < |lines| && lines[i].currency.Some?
    requires forall o :: o in orders ==> !PaysOut(o, lines[i].currency.value, lines[i].localAmount)
    ensures Verdicts(orders, lines, accounts)[i] == NoDeal
  {
    VerdictAt(orders, lines, accounts, i);
    FitsNobody(orders, Taken(Verdicts(orders, lines, accounts)[..i]), lines[i].currency.value, lines[i].localAmount);
  }

  // ---- which deals an account leaves ------------------------------------------------------------

  /** The k-th of the deals is the first that has its supplier's code. */
  predicate FirstCoded(fits: seq<Order>, k: nat) {
    && k < |fits| && fits[k].supplierCode.Some? && fits[k].supplierCode.value != ""
    && forall j :: 0 <= j < k ==> fits[j].supplierCode == None || fits[j].supplierCode == Some("")
  }

  lemma {:induction false} FirstCodeIs(fits: seq<Order>, k: nat)
    requires FirstCoded(fits, k)
    ensures FirstSupplierCode(fits) == fits[k].supplierCode
    decreases k
  {
    if k > 0 {
      FirstCodeIs(fits[1..], k - 1);
    }
  }

  /**
   An account named on a line leaves, of several deals, those of its clients - the account being a
   number of the supplier of the first that names one - unless that leaves none.
   */
  lemma AccountLeavesItsClients(fits: seq<Order>, line: PastedLine, accounts: Accounts, k: nat)
    requires |fits| > 1 && FirstCoded(fits, k) && line.account.Some? && line.account.value != ""
    ensures var clients := accounts(fits[k].supplierCode.value, line.account.value);
            var left := Narrow(fits, line, accounts);
            if exists o :: o in fits && o.clientId in clients
            then forall o :: o in left <==> o in fits && o.clientId in clients
            else left == fits
  {
    FirstCodeIs(fits, k);
    var clients := accounts(fits[k].supplierCode.value, line.account.value);
    var narrowed := OfClients(fits, clients);
    if o :| o in fits && o.clientId in clients {
      assert o in narrowed;
    } else {
      assert narrowed == [] || narrowed[0] in narrowed;
    }
  }
}
