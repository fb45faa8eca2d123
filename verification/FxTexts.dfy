/**
 Which figure stands on which line of what a counterparty is sent (app/domain/fx.py:195-266,
 app/services/fx_relay.py:74-138).
 */
module FxTexts {
  import opened Prelude
  import opened Text
  import opened FxOrders
  import opened FxViews

  /** The text has this among its lines, whole. */
  ghost predicate HasLine(text: string, line: string) {
    exists before: string, after: string :: LineBetween(text, before, line, after)
  }

  predicate LineBetween(text: string, before: string, line: string, after: string) {
    && text == before + line + after
    && (before == "" || before[|before| - 1] == '\n') && (after == "" || after[0] == '\n')
  }

  lemma {:induction false} JoinHasLine(lines: seq<string>, i: nat)
    requires i < |lines|
    ensures HasLine(Join(lines), lines[i])
    decreases |lines|
  {
    var n := |lines| - 1;
    var text := Join(lines);
    if n == 0 {
      assert LineBetween(text, "", lines[0], "");
    } else {
      var earlier := Join(lines[..n]);
      assert text == earlier + "\n" + lines[n];
      if i == n {
        assert text == (earlier + "\n") + lines[n] + "";
        assert LineBetween(text, earlier + "\n", lines[n], "");
      } else {
        JoinHasLine(lines[..n], i);
        var before, after :| LineBetween(earlier, before, lines[i], after);
        assert text == before + lines[i] + (after + "\n" + lines[n]);
        assert LineBetween(text, before, lines[i], after + "\n" + lines[n]);
      }
    }
  }

  /** An amount with its currency after it, if it has one. */
  function Figured(opening: string, amount: Money, currency: Option<string>): string {
    match currency
    case Some(code) => StripRight(opening + Shown(amount) + " " + code)
    case None => StripRight(opening + Shown(amount) + " ")
  }

  lemma FiguredAsShown(opening: string, amount: Money, currency: Option<string>)
    ensures Figured(opening, amount, currency) == WithCurrency(opening, amount, currency)
  {
    var start := opening + Shown(amount) + " ";
    assert start + "" == start;
  }

  lemma OrderHas(o: Order, side: Side, line: string)
    requires line in Lines(ViewFor(o, side))
    ensures HasLine(OrderText(o, side), line)
  {
    var lines := Lines(ViewFor(o, side));
    var k :| 0 <= k < |lines| && lines[k] == line;
    var all := lines + ["", "Please confirm these figures are correct."];
    assert all[k] == line;
    JoinHasLine(all, k);
  }

  function HalfOf(o: Order, side: Side): Half {
    match side case Client => o.client case Supplier => o.supplier
  }

  /** On either side's order: what that side pays, in its currency, is what it is told it sends. */
  lemma OrderSaysWhatIsSent(o: Order, side: Side)
    requires HalfOf(o, side).pays.Some?
    ensures var half := HalfOf(o, side);
            HasLine(OrderText(o, side), Figured("You send: ", half.pays.value, half.paysCurrency))
  {
    var v := ViewFor(o, side);
    FiguredAsShown("You send: ", v.pays.value, v.paysCurrency);
    OrderHas(o, side, WithCurrency("You send: ", v.pays.value, v.paysCurrency));
  }

  /** And what it receives, in its currency, is what it is told it receives. */
  lemma OrderSaysWhatIsReceived(o: Order, side: Side)
    requires HalfOf(o, side).receives.Some?
    ensures var half := HalfOf(o, side);
            HasLine(OrderText(o, side), Figured("You receive: ", half.receives.value, half.receivesCurrency))
  {
    var v := ViewFor(o, side);
    FiguredAsShown("You receive: ", v.receives.value, v.receivesCurrency);
    OrderHas(o, side, WithCurrency("You receive: ", v.receives.value, v.receivesCurrency));
  }

  /** Its own rate, and its own name for the deal. */
  lemma OrderSaysTheRate(o: Order, side: Side)
    requires HalfOf(o, side).rate.Some?
    ensures HasLine(OrderText(o, side), "Rate: " + Shown(HalfOf(o, side).rate.value))
  {
    OrderHas(o, side, "Rate: " + Shown(HalfOf(o, side).rate.value));
  }

  lemma OrderSaysWhichDeal(o: Order, side: Side)
    ensures HasLine(OrderText(o, side), "Order " + if side == Client then ClientReference(o) else SupplierReference(o))
  {
    OrderHas(o, side, "Order " + if side == Client then ClientReference(o) else SupplierReference(o));
  }

  lemma OrderSaysTheAccount(o: Order, side: Side)
    requires HalfOf(o, side).account.Some? && HalfOf(o, side).account.value != ""
    ensures HasLine(OrderText(o, side), "Account: " + HalfOf(o, side).account.value)
  {
    OrderHas(o, side, "Account: " + HalfOf(o, side).account.value);
  }

  /** Nothing is taken off an amount whose currency does not end in a space. */
  lemma FiguredIs(opening: string, amount: Money, code: string)
    requires code != "" && !IsSpace(code[|code| - 1])
    ensures Figured(opening, amount, Some(code)) == opening + Shown(amount) + " " + code
  {
  }

  /** The client is quoted the client's rate, on the deal's currency if it has one. */
  lemma QuoteSays(o: Order)
    requires o.client.rate.Some?
    ensures var on := if o.currencyCode.Some? && o.currencyCode.value != "" then " on " + o.currencyCode.value else "";
            HasLine(RateQuoteText(o), "Rate" + on + " is " + Shown(o.client.rate.value) + ".")
  {
    var v := ViewFor(o, Client);
    JoinHasLine([v.reference, "", RateLine(v), "", "Would you like to proceed?"], 2);
  }

  /** The client is told what the client receives. */
  lemma SettlementSaysWhatIsReceived(o: Order)
    requires o.client.receives.Some?
    ensures var currency := match o.client.receivesCurrency case Some(code) => code case None => "";
            HasLine(SettlementText(o), Shown(o.client.receives.value) + StripRight(" " + currency))
  {
    var v := ViewFor(o, Client);
    var lines := [v.reference + " has been settled.", "", ReceivedLine(v)] + ProofLines(o)
                 + ["", "Please confirm once you have received it."];
    assert lines[2] == ReceivedLine(v);
    JoinHasLine(lines, 2);
  }

  /** And the hash it was paid under, if there is anything of one. */
  lemma SettlementSaysTheHash(o: Order)
    requires o.txHash.Some? && Strip(o.txHash.value) != ""
    ensures HasLine(SettlementText(o), "Transaction: " + o.txHash.value)
  {
    var v := ViewFor(o, Client);
    var head := [v.reference + " has been settled.", "", ReceivedLine(v)];
    var lines := head + ProofLines(o) + ["", "Please confirm once you have received it."];
    assert ProofLines(o)[1] == "Transaction: " + o.txHash.value;
    assert |head| == 3 && lines[4] == ProofLines(o)[1];
    JoinHasLine(lines, 4);
  }
}
