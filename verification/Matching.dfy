/**
 Matching a pasted block to the deals it is about (app/domain/settlement.py:280-427):
 the loop that claims orders line by line, and the rule it comes to.
 */
module Matching {
  import opened Prelude
  import opened Text
  import opened FxOrders
  import Ledger

  /** A parsed line with its figures in the ledger's unit. */
  datatype PastedLine = PastedLine(
    currency: Option<string>,
    country: Option<string>,
    localAmount: Money,
    rate: Money,
    account: Option<string>)

  datatype Verdict = UnknownCurrency | NoDeal | Several(fits: seq<nat>) | Found(order: nat)

  /** `local_leg`: what the supplier sends, and its currency; the deal's own only if the leg has none. */
  function LocalLeg(o: Order): (Option<string>, Option<Money>) {
    var currency := if Given(o.supplier.paysCurrency) then o.supplier.paysCurrency else o.currencyCode;
    (if Given(currency) then Some(Upper(currency.value)) else None, o.supplier.pays)
  }

  predicate Sends(o: Order, currency: string, amount: Money) {
    LocalLeg(o) == (Some(currency), Some(amount))
  }

  /** The orders sending this amount of this currency that no line has claimed. */
  function Fits(orders: seq<Order>, taken: set<nat>, currency: string, amount: Money): (fits: seq<Order>)
    ensures forall o :: o in fits <==> o in orders && o.reference !in taken && Sends(o, currency, amount)
    ensures fits == [] <==> forall o :: o in orders && Sends(o, currency, amount) ==> o.reference in taken
  {
    if orders == [] then []
    else
      var before := Fits(orders[..|orders| - 1], taken, currency, amount);
      var last := orders[|orders| - 1];
      assert orders == orders[..|orders| - 1] + [last];
      if last.reference !in taken && Sends(last, currency, amount) then before + [last] else before
  }

  function References(orders: seq<Order>): seq<nat> {
    seq(|orders|, i requires 0 <= i < |orders| => orders[i].reference)
  }

  // ---- narrowing by account --------------------------------------------------------

  /** The clients behind a supplier's numbered account. */
  type Accounts = (string, string) -> set<nat>

  function FirstSupplierCode(fits: seq<Order>): Option<string> {
    if fits == [] then None
    else if Given(fits[0].supplierCode) then fits[0].supplierCode
    else FirstSupplierCode(fits[1..])
  }

  function OfClients(fits: seq<Order>, clients: set<nat>): (r: seq<Order>)
    ensures forall o :: o in r <==> o in fits && o.clientId in clients
  {
    if fits == [] then []
    else
      assert fits == [fits[0]] + fits[1..];
      if fits[0].clientId in clients then [fits[0]] + OfClients(fits[1..], clients) else OfClients(fits[1..], clients)
  }

  /** Applied only to a choice, and only when it leaves something. */
  function Narrow(fits: seq<Order>, line: PastedLine, accounts: Accounts): (r: seq<Order>)
    ensures fits != [] ==> r != []
    ensures forall o :: o in r ==> o in fits
    ensures !Given(line.account) ==> r == fits
  {
    var code := FirstSupplierCode(fits);
    if |fits| > 1 && Given(line.account) && code.Some? then
      var narrowed := OfClients(fits, accounts(code.value, line.account.value));
      if narrowed == [] then fits else narrowed
    else fits
  }

  // ---- the loop -----------------------------------------------------------------------

  function Judge(orders: seq<Order>, taken: set<nat>, line: PastedLine, accounts: Accounts): Verdict {
    if line.currency == None then UnknownCurrency
    else Decide(Narrow(Fits(orders, taken, line.currency.value, line.localAmount), line, accounts))
  }

  function Decide(fits: seq<Order>): Verdict {
    if fits == [] then NoDeal else if |fits| > 1 then Several(References(fits)) else Found(fits[0].reference)
  }

  function Taken(verdicts: seq<Verdict>): set<nat> {
    set v | v in verdicts && v.Found? :: v.order
  }

  function Verdicts(orders: seq<Order>, lines: seq<PastedLine>, accounts: Accounts): (vs: seq<Verdict>)
    ensures |vs| == |lines|
  {
    if lines == [] then []
    else
      var before := Verdicts(orders, lines[..|lines| - 1], accounts);
      before + [Judge(orders, Taken(before), lines[|lines| - 1], accounts)]
  }

  method MatchLines(orders: seq<Order>, lines: seq<PastedLine>, accounts: Accounts) returns (matches: seq<Verdict>)
    ensures matches == Verdicts(orders, lines, accounts)
  {
    var taken: set<nat> := {};
    matches := [];
    var i := 0;
    while i < |lines|
      invariant 0 <= i <= |lines|
      invariant matches == Verdicts(orders, lines[..i], accounts) && taken == Taken(matches)
    {
      var line := lines[i];
      assert lines[..i + 1][..i] == lines[..i];
      if line.currency == None {
        matches := matches + [UnknownCurrency];
      } else {
        var fits: seq<Order> := [];
        var k := 0;
        while k < |orders|
          invariant 0 <= k <= |orders|
          invariant fits == Fits(orders[..k], taken, line.currency.value, line.localAmount)
        {
          assert orders[..k + 1][..k] == orders[..k];
          if orders[k].reference !in taken && Sends(orders[k], line.currency.value, line.localAmount) {
            fits := fits + [orders[k]];
          }
          k := k + 1;
        }
        assert orders[..k] == orders;
        fits := Narrow(fits, line, accounts);
        var verdict := Decide(fits);
        TakenOneMore(matches, verdict);
        if |fits| == 1 {
          taken := taken + {fits[0].reference};
        }
        matches := matches + [verdict];
      }
      i := i + 1;
    }
    assert lines[..i] == lines;
  }

  lemma TakenOneMore(verdicts: seq<Verdict>, v: Verdict)
    ensures Taken(verdicts + [v]) == Taken(verdicts) + if v.Found? then {v.order} else {}
  {
  }

  // ---- what holds whatever the accounts say -----------------------------------------------

  lemma {:induction false} VerdictsPrefix(orders: seq<Order>, lines: seq<PastedLine>, accounts: Accounts, i: nat)
    requires i <= |lines|
    ensures Verdicts(orders, lines, accounts)[..i] == Verdicts(orders, lines[..i], accounts)
    decreases |lines|
  {
    if i == |lines| {
      assert lines[..i] == lines;
    } else {
      VerdictsPrefix(orders, lines[..|lines| - 1], accounts, i);
      assert lines[..|lines| - 1][..i] == lines[..i];
    }
  }

  lemma VerdictAt(orders: seq<Order>, lines: seq<PastedLine>, accounts: Accounts, i: nat)
    requires i < |lines|
    ensures var vs := Verdicts(orders, lines, accounts); vs[i] == Judge(orders, Taken(vs[..i]), lines[i], accounts)
  {
    VerdictsPrefix(orders, lines, accounts, i);
    VerdictsPrefix(orders, lines, accounts, i + 1);
    assert lines[..i + 1][..i] == lines[..i];
    assert Verdicts(orders, lines, accounts)[i] == Verdicts(orders, lines, accounts)[..i + 1][i];
  }

  /** A match agrees with its line, and no two lines match one order. */
  lemma MatchesAgreeAndDiffer(orders: seq<Order>, lines: seq<PastedLine>, accounts: Accounts, i: nat)
    requires i < |lines| && Verdicts(orders, lines, accounts)[i].Found?
    ensures var vs := Verdicts(orders, lines, accounts);
            && (exists o :: o in orders && o.reference == vs[i].order && lines[i].currency.Some?
                  && Sends(o, lines[i].currency.value, lines[i].localAmount))
            && (forall j :: 0 <= j < |lines| && j != i ==> vs[j] != vs[i])
  {
    var vs := Verdicts(orders, lines, accounts);
    VerdictAt(orders, lines, accounts, i);
    var fits := Fits(orders, Taken(vs[..i]), lines[i].currency.value, lines[i].localAmount);
    assert Narrow(fits, lines[i], accounts)[0] in fits;
    forall j | 0 <= j < |lines| && j != i ensures vs[j] != vs[i] {
      if j < i {
        assert vs[j] in vs[..i];
      } else {
        VerdictAt(orders, lines, accounts, j);
        assert vs[i] in vs[..j];
        var currency := if lines[j].currency.Some? then lines[j].currency.value else "";
        var later := Fits(orders, Taken(vs[..j]), currency, lines[j].localAmount);
        assert vs[j].Found? ==> Narrow(later, lines[j], accounts)[0] in later;
      }
    }
  }

  // ---- the rule ----------------------------------------------------------------------------

  predicate SameClass(a: PastedLine, b: PastedLine) {
    a.currency == b.currency && a.localAmount == b.localAmount
  }

  predicate FirstOfItsClass(lines: seq<PastedLine>, i: nat)
    requires i < |lines|
  {
    forall j :: 0 <= j < i ==> !SameClass(lines[j], lines[i])
  }

  /** What a line gets, said without any state: who else is in its class, and whether it is the first there. */
  function Rule(orders: seq<Order>, lines: seq<PastedLine>, i: nat): Verdict
    requires i < |lines|
  {
    if lines[i].currency == None then UnknownCurrency
    else
      var all := Fits(orders, {}, lines[i].currency.value, lines[i].localAmount);
      if |all| == 1 && !FirstOfItsClass(lines, i) then NoDeal else Decide(all)
  }

  /** The open deals of a line's class, before any line has claimed one. */
  function Candidates(orders: seq<Order>, line: PastedLine): seq<Order> {
    if line.currency == None then [] else Fits(orders, {}, line.currency.value, line.localAmount)
  }

  /** The line names no account, or one that leaves every deal of its class standing. */
  predicate Unnarrowed(orders: seq<Order>, line: PastedLine, accounts: Accounts) {
    Narrow(Candidates(orders, line), line, accounts) == Candidates(orders, line)
  }

  predicate NothingNarrows(orders: seq<Order>, lines: seq<PastedLine>, accounts: Accounts) {
    forall line :: line in lines ==> Unnarrowed(orders, line, accounts)
  }

  predicate DistinctReferences(orders: seq<Order>) {
    forall i, j :: 0 <= i < j < |orders| ==> orders[i].reference != orders[j].reference
  }

  lemma SameReference(orders: seq<Order>, a: Order, b: Order)
    requires DistinctReferences(orders) && a in orders && b in orders && a.reference == b.reference
    ensures a == b
  {
    var i :| 0 <= i < |orders| && orders[i] == a;
    var j :| 0 <= j < |orders| && orders[j] == b;
  }

  lemma {:induction false} FitsUntaken(orders: seq<Order>, taken: set<nat>, currency: string, amount: Money)
    requires forall o :: o in orders && Sends(o, currency, amount) ==> o.reference !in taken
    ensures Fits(orders, taken, currency, amount) == Fits(orders, {}, currency, amount)
  {
    if orders != [] {
      var n := |orders| - 1;
      FitsUntaken(orders[..n], taken, currency, amount);
      assert orders[n] in orders;
    }
  }

  predicate OnlyOrder(orders: seq<Order>, currency: string, amount: Money, reference: nat) {
    var all := Fits(orders, {}, currency, amount);
    |all| == 1 && all[0].reference == reference
  }

  predicate Finds(orders: seq<Order>, lines: seq<PastedLine>, i: nat, reference: nat)
    requires i < |lines|
  {
    && lines[i].currency.Some? && FirstOfItsClass(lines, i)
    && OnlyOrder(orders, lines[i].currency.value, lines[i].localAmount, reference)
  }

  lemma RuleFinds(orders: seq<Order>, lines: seq<PastedLine>, i: nat, reference: nat)
    requires i < |lines|
    ensures Rule(orders, lines, i) == Found(reference) <==> Finds(orders, lines, i, reference)
  {
  }

  /** The verdicts so far find what the rule finds. */
  ghost predicate FoundByRule(orders: seq<Order>, lines: seq<PastedLine>, before: seq<Verdict>) {
    && |before| <= |lines|
    && forall k, r :: 0 <= k < |before| ==> (before[k] == Found(r) <==> Finds(orders, lines, k, r))
  }

  lemma OnlyOneSuch(orders: seq<Order>, currency: string, amount: Money, reference: nat, o: Order)
    requires DistinctReferences(orders) && OnlyOrder(orders, currency, amount, reference)
    requires o in orders && o.reference == reference
    ensures Sends(o, currency, amount) && Fits(orders, {}, currency, amount) == [o]
  {
    var all := Fits(orders, {}, currency, amount);
    assert all[0] in all;
    SameReference(orders, all[0], o);
  }

  /** A taken order is alone in its class, and a line of the class has come up. */
  lemma TakenIsAlone(orders: seq<Order>, lines: seq<PastedLine>, before: seq<Verdict>, o: Order)
    requires DistinctReferences(orders) && |before| < |lines| && FoundByRule(orders, lines, before)
    requires var line := lines[|before|];
             line.currency.Some? && o in orders && Sends(o, line.currency.value, line.localAmount)
    requires o.reference in Taken(before)
    ensures var line := lines[|before|];
            |Fits(orders, {}, line.currency.value, line.localAmount)| == 1 && !FirstOfItsClass(lines, |before|)
  {
    var v :| v in before && v == Found(o.reference);
    var k :| 0 <= k < |before| && before[k] == v;
    assert Finds(orders, lines, k, o.reference);
    OnlyOneSuch(orders, lines[k].currency.value, lines[k].localAmount, o.reference, o);
    assert SameClass(lines[k], lines[|before|]);
  }

  lemma AloneIsTaken(orders: seq<Order>, lines: seq<PastedLine>, before: seq<Verdict>, o: Order)
    requires |before| < |lines| && FoundByRule(orders, lines, before)
    requires var line := lines[|before|];
             line.currency.Some? && Fits(orders, {}, line.currency.value, line.localAmount) == [o]
    requires !FirstOfItsClass(lines, |before|)
    ensures o.reference in Taken(before)
  {
    var j := FirstLike(lines, |before|);
    assert Finds(orders, lines, j, o.reference);
    assert before[j] in before;
  }

  lemma {:induction false} FirstLike(lines: seq<PastedLine>, i: nat) returns (j: nat)
    requires i < |lines|
    ensures j <= i && SameClass(lines[j], lines[i]) && FirstOfItsClass(lines, j)
    ensures !FirstOfItsClass(lines, i) ==> j < i
    decreases i
  {
    j := i;
    if k :| 0 <= k < i && SameClass(lines[k], lines[i]) {
      j := FirstLike(lines, k);
    }
  }

  /**
   When no account narrows, the greedy loop is the rule: a line matches exactly
   when its class holds one open order and it is the first line of the class.
   */
  lemma {:induction false} LoopIsRule(orders: seq<Order>, lines: seq<PastedLine>, accounts: Accounts, n: nat)
    requires DistinctReferences(orders) && NothingNarrows(orders, lines, accounts) && n <= |lines|
    ensures Follow(orders, lines, Verdicts(orders, lines, accounts)[..n])
  {
    if n > 0 {
      var before := Verdicts(orders, lines, accounts)[..n - 1];
      LoopIsRule(orders, lines, accounts, n - 1);
      VerdictAt(orders, lines, accounts, n - 1);
      RuleIsFollowed(orders, lines, before);
      LineByRule(orders, lines, accounts, before);
      FollowOneMore(orders, lines, before, Verdicts(orders, lines, accounts)[n - 1]);
      assert Verdicts(orders, lines, accounts)[..n] == before + [Verdicts(orders, lines, accounts)[n - 1]];
    }
  }

  ghost predicate Follow(orders: seq<Order>, lines: seq<PastedLine>, verdicts: seq<Verdict>) {
    |verdicts| <= |lines| && forall k :: 0 <= k < |verdicts| ==> verdicts[k] == Rule(orders, lines, k)
  }

  lemma FollowOneMore(orders: seq<Order>, lines: seq<PastedLine>, before: seq<Verdict>, v: Verdict)
    requires Follow(orders, lines, before) && |before| < |lines| && v == Rule(orders, lines, |before|)
    ensures Follow(orders, lines, before + [v])
  {
  }

  lemma RuleIsFollowed(orders: seq<Order>, lines: seq<PastedLine>, before: seq<Verdict>)
    requires Follow(orders, lines, before)
    ensures FoundByRule(orders, lines, before)
  {
    forall k, r | 0 <= k < |before| ensures before[k] == Found(r) <==> Finds(orders, lines, k, r) {
      RuleFinds(orders, lines, k, r);
    }
  }

  lemma LineByRule(orders: seq<Order>, lines: seq<PastedLine>, accounts: Accounts, before: seq<Verdict>)
    requires DistinctReferences(orders) && |before| < |lines| && FoundByRule(orders, lines, before)
    requires Unnarrowed(orders, lines[|before|], accounts)
    ensures Judge(orders, Taken(before), lines[|before|], accounts) == Rule(orders, lines, |before|)
  {
    var line, taken := lines[|before|], Taken(before);
    if line.currency.Some? {
      var currency, amount := line.currency.value, line.localAmount;
      var alone := |Fits(orders, {}, currency, amount)| == 1 && !FirstOfItsClass(lines, |before|);
      forall o | o in orders && Sends(o, currency, amount) ensures o.reference in taken <==> alone {
        assert o in Fits(orders, {}, currency, amount);
        if o.reference in taken {
          TakenIsAlone(orders, lines, before, o);
        } else if alone {
          AloneIsTaken(orders, lines, before, o);
        }
      }
      if !alone {
        FitsUntaken(orders, taken, currency, amount);
      }
    }
  }

  /** The same, for one line and one order. */
  lemma MatchedIff(orders: seq<Order>, lines: seq<PastedLine>, accounts: Accounts, i: nat, reference: nat)
    requires DistinctReferences(orders) && NothingNarrows(orders, lines, accounts) && i < |lines|
    ensures Verdicts(orders, lines, accounts)[i] == Found(reference) <==>
            && lines[i].currency.Some? && FirstOfItsClass(lines, i)
            && OnlyOrder(orders, lines[i].currency.value, lines[i].localAmount, reference)
  {
    LoopIsRule(orders, lines, accounts, |lines|);
    assert Verdicts(orders, lines, accounts)[..|lines|][i] == Rule(orders, lines, i);
    RuleFinds(orders, lines, i, reference);
  }

  /** The orders matched: those alone in a class that some line names. So the lines' order is of no account. */
  lemma MatchedSet(orders: seq<Order>, lines: seq<PastedLine>, accounts: Accounts, reference: nat)
    requires DistinctReferences(orders) && NothingNarrows(orders, lines, accounts)
    ensures reference in Taken(Verdicts(orders, lines, accounts)) <==>
            exists line :: line in lines && line.currency.Some?
              && OnlyOrder(orders, line.currency.value, line.localAmount, reference)
  {
    var vs := Verdicts(orders, lines, accounts);
    LoopIsRule(orders, lines, accounts, |lines|);
    assert vs[..|lines|] == vs;
    if reference in Taken(vs) {
      var i :| 0 <= i < |vs| && vs[i] == Found(reference);
      RuleFinds(orders, lines, i, reference);
      assert lines[i] in lines;
    }
    if line :|
      line in lines && line.currency.Some? && OnlyOrder(orders, line.currency.value, line.localAmount, reference)
    {
      var i :| 0 <= i < |lines| && lines[i] == line;
      var j := FirstLike(lines, i);
      RuleFinds(orders, lines, j, reference);
      assert vs[j] == Found(reference);
    }
  }

  lemma LineOrderIsOfNoAccount(orders: seq<Order>, lines: seq<PastedLine>, shuffled: seq<PastedLine>,
                               accounts: Accounts)
    requires DistinctReferences(orders) && NothingNarrows(orders, lines, accounts)
    requires forall line :: line in lines <==> line in shuffled
    ensures Taken(Verdicts(orders, lines, accounts)) == Taken(Verdicts(orders, shuffled, accounts))
  {
    forall r: nat
      ensures r in Taken(Verdicts(orders, lines, accounts)) <==> r in Taken(Verdicts(orders, shuffled, accounts))
    {
      MatchedSet(orders, lines, accounts, r);
      MatchedSet(orders, shuffled, accounts, r);
    }
  }
}
