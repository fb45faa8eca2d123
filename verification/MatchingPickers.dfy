/**
 When the order of a pasted block's lines matters, for any number of like deals
 (app/domain/settlement.py:343-404): lines whose account picks a deal out, and lines
 that name no account and have to wait until one deal is left.
 */
module MatchingPickers {
  import opened Prelude
  import opened FxOrders
  import opened Matching
  import opened MatchingTwins

  // ---- any block: the order matters if it matters in some class ---------------------------

  /** However the lines are arranged, they claim the same of this class. */
  ghost predicate OrderFree(orders: seq<Order>, lines: seq<PastedLine>, accounts: Accounts, c: Class) {
    forall shuffled :: multiset(shuffled) == multiset(lines) ==>
      Claimed(Deals(orders, c), shuffled, accounts, c) == Claimed(Deals(orders, c), lines, accounts, c)
  }

  /** Whatever the accounts: the deals settled depend on no arrangement of the block, if and only if no class's do. */
  lemma OrderMattersInSomeClass(orders: seq<Order>, lines: seq<PastedLine>, accounts: Accounts)
    requires DistinctReferences(orders)
    ensures (forall shuffled :: multiset(shuffled) == multiset(lines) ==>
               Taken(Verdicts(orders, shuffled, accounts)) == Taken(Verdicts(orders, lines, accounts)))
       <==> (forall c :: OrderFree(orders, lines, accounts, c))
  {
    if forall c :: OrderFree(orders, lines, accounts, c) {
      forall shuffled | multiset(shuffled) == multiset(lines)
        ensures Taken(Verdicts(orders, shuffled, accounts)) == Taken(Verdicts(orders, lines, accounts))
      {
        AlikeByClass(orders, lines, shuffled, accounts);
      }
    } else {
      var c :| !OrderFree(orders, lines, accounts, c);
      var shuffled :| multiset(shuffled) == multiset(lines)
                   && Claimed(Deals(orders, c), shuffled, accounts, c) != Claimed(Deals(orders, c), lines, accounts, c);
      ClassOnItsOwn(orders, lines, accounts, c);
      ClassOnItsOwn(orders, shuffled, accounts, c);
    }
  }

  lemma AlikeByClass(orders: seq<Order>, lines: seq<PastedLine>, shuffled: seq<PastedLine>, accounts: Accounts)
    requires DistinctReferences(orders) && multiset(shuffled) == multiset(lines)
    requires forall c :: OrderFree(orders, lines, accounts, c)
    ensures Taken(Verdicts(orders, shuffled, accounts)) == Taken(Verdicts(orders, lines, accounts))
  {
    var here, there := Taken(Verdicts(orders, lines, accounts)), Taken(Verdicts(orders, shuffled, accounts));
    forall r | r in here || r in there ensures r in here && r in there {
      var c := if r in here then ClassWhere(orders, lines, accounts, r) else ClassWhere(orders, shuffled, accounts, r);
      assert OrderFree(orders, lines, accounts, c);
      ClassOnItsOwn(orders, lines, accounts, c);
      ClassOnItsOwn(orders, shuffled, accounts, c);
      assert here * Names(Deals(orders, c)) == there * Names(Deals(orders, c));
      assert r in here * Names(Deals(orders, c)) || r in there * Names(Deals(orders, c));
    }
  }

  // ---- lines that pick, and lines that name no account --------------------------------------

  predicate Plain(line: PastedLine) {
    !Given(line.account)
  }

  /** Whatever of the others is left, this line's account picks that deal out. */
  ghost predicate Steady(deals: seq<Order>, line: PastedLine, accounts: Accounts, r: nat) {
    && r in Names(deals)
    && forall taken :: r !in taken ==> Decide(Narrow(Left(deals, taken), line, accounts)) == Found(r)
  }

  ghost function Picker(deals: seq<Order>, accounts: Accounts, c: Class, r: nat): PastedLine -> bool {
    line => InClass(line, c) && Steady(deals, line, accounts, r)
  }

  /** Several like deals; every line of the class picks one out or names no account; and no two pick the same. */
  ghost predicate Orderly(deals: seq<Order>, lines: seq<PastedLine>, accounts: Accounts, c: Class) {
    && |deals| >= 2 && DistinctReferences(deals)
    && (forall line :: line in lines && InClass(line, c) ==>
          Plain(line) || exists r :: Steady(deals, line, accounts, r))
    && (forall r :: Count(lines, Picker(deals, accounts, c, r)) <= 1)
  }

  ghost predicate IsPicked(deals: seq<Order>, lines: seq<PastedLine>, accounts: Accounts, c: Class, r: nat) {
    exists line :: line in lines && InClass(line, c) && Steady(deals, line, accounts, r)
  }

  ghost function Picked(deals: seq<Order>, lines: seq<PastedLine>, accounts: Accounts, c: Class): (picked: set<nat>)
    ensures picked <= Names(deals)
  {
    set r | r in Names(deals) && IsPicked(deals, lines, accounts, c, r)
  }

  ghost predicate SomePlain(lines: seq<PastedLine>, c: Class) {
    exists line :: line in lines && InClass(line, c) && Plain(line)
  }

  // ---- what is left of the deals --------------------------------------------------------------

  lemma {:induction false} LeftCount(deals: seq<Order>, taken: set<nat>)
    requires DistinctReferences(deals)
    ensures |Left(deals, taken)| == |Names(deals) - taken|
  {
    if deals == [] {
      assert Names(deals) - taken == {};
    } else {
      var n := |deals| - 1;
      LastIsNew(deals);
      LeftCount(deals[..n], taken);
      CountOneMore(Names(deals[..n]), deals[n].reference, taken);
    }
  }

  lemma LastIsNew(deals: seq<Order>)
    requires DistinctReferences(deals) && deals != []
    ensures var n := |deals| - 1;
            && DistinctReferences(deals[..n]) && deals[n].reference !in Names(deals[..n])
            && Names(deals) == Names(deals[..n]) + {deals[n].reference}
  {
    var n := |deals| - 1;
    assert deals == deals[..n] + [deals[n]];
    NamesOneMore(deals[..n], deals[n]);
    forall o | o in deals[..n] ensures o.reference != deals[n].reference {
      var k :| 0 <= k < n && deals[k] == o;
    }
  }

  lemma CountOneMore(names: set<nat>, r: nat, taken: set<nat>)
    requires r !in names
    ensures |(names + {r}) - taken| == |names - taken| + if r in taken then 0 else 1
  {
    if r in taken {
      assert (names + {r}) - taken == names - taken;
    } else {
      assert (names + {r}) - taken == (names - taken) + {r};
    }
  }

  lemma NamesOneMore(deals: seq<Order>, o: Order)
    ensures Names(deals + [o]) == Names(deals) + {o.reference}
  {
  }

  /** A line without an account claims the last deal left, and nothing while there is a choice. */
  lemma PlainClaims(deals: seq<Order>, claimed: set<nat>, line: PastedLine, accounts: Accounts)
    requires DistinctReferences(deals) && claimed <= Names(deals) && Plain(line)
    ensures Claim(Decide(Narrow(Left(deals, claimed), line, accounts)))
         == if |Names(deals) - claimed| == 1 then Names(deals) - claimed else {}
  {
    LeftCount(deals, claimed);
    var left := Left(deals, claimed);
    if |left| == 1 {
      assert left[0] in left;
      var r :| r in Names(deals) - claimed;
      OneOnly(Names(deals) - claimed, r);
      OneOnly(Names(deals) - claimed, left[0].reference);
    }
  }

  lemma OneOnly(s: set<nat>, r: nat)
    requires r in s && |s| == 1
    ensures s == {r}
  {
    assert |s - {r}| == 0;
  }

  lemma NothingLeft(deals: seq<Order>, line: PastedLine, accounts: Accounts)
    requires DistinctReferences(deals)
    ensures Claim(Decide(Narrow(Left(deals, Names(deals)), line, accounts))) == {}
  {
    LeftCount(deals, Names(deals));
    assert Names(deals) - Names(deals) == {};
  }

  // ---- what such lines claim -------------------------------------------------------------------

  lemma OrderlyOneMore(deals: seq<Order>, lines: seq<PastedLine>, line: PastedLine, accounts: Accounts, c: Class)
    requires Orderly(deals, lines + [line], accounts, c)
    ensures Orderly(deals, lines, accounts, c)
    ensures forall r :: InClass(line, c) && Steady(deals, line, accounts, r) ==>
              !IsPicked(deals, lines, accounts, c, r)
  {
    assert (lines + [line])[..|lines|] == lines;
    forall r
      ensures Count(lines, Picker(deals, accounts, c, r)) <= 1
      ensures InClass(line, c) && Steady(deals, line, accounts, r) ==> !IsPicked(deals, lines, accounts, c, r)
    {
      var picker := Picker(deals, accounts, c, r);
      assert Count(lines + [line], picker) <= 1;
      CountSome(lines, picker);
      if IsPicked(deals, lines, accounts, c, r) {
        var l :| l in lines && InClass(l, c) && Steady(deals, l, accounts, r);
        assert picker(l);
      }
      assert picker(line) <==> InClass(line, c) && Steady(deals, line, accounts, r);
    }
    forall l | l in lines && InClass(l, c) ensures Plain(l) || exists r :: Steady(deals, l, accounts, r) {
      assert l in lines + [line];
    }
  }

  /** A line that picks is not one without an account: with nothing taken, that would leave a choice. */
  lemma PickerIsNotPlain(deals: seq<Order>, line: PastedLine, accounts: Accounts, r: nat)
    requires |deals| >= 2 && Steady(deals, line, accounts, r)
    ensures !Plain(line)
  {
    LeftAll(deals);
    assert Decide(Narrow(Left(deals, {}), line, accounts)) == Found(r);
  }

  lemma PickedOnce(deals: seq<Order>, line: PastedLine, accounts: Accounts, r: nat, s: nat)
    requires Steady(deals, line, accounts, r) && Steady(deals, line, accounts, s)
    ensures r == s
  {
    assert Decide(Narrow(Left(deals, {}), line, accounts)) == Found(r);
  }

  lemma PickedOneMoreLine(deals: seq<Order>, lines: seq<PastedLine>, line: PastedLine, accounts: Accounts, c: Class)
    ensures forall r :: IsPicked(deals, lines + [line], accounts, c, r)
                   <==> || IsPicked(deals, lines, accounts, c, r)
                        || (InClass(line, c) && Steady(deals, line, accounts, r))
  {
    assert forall l :: l in lines + [line] <==> l in lines || l == line;
  }

  /** Each line that picks claims its deal; one without an account claims the last, once all the others are claimed. */
  ghost predicate ClaimedSo(deals: seq<Order>, lines: seq<PastedLine>, accounts: Accounts, c: Class) {
    var claimed, picked := Claimed(deals, lines, accounts, c), Picked(deals, lines, accounts, c);
    claimed == picked || (claimed == Names(deals) && |picked| >= |Names(deals)| - 1 && SomePlain(lines, c))
  }

  lemma {:induction false} PickersClaim(deals: seq<Order>, lines: seq<PastedLine>, accounts: Accounts, c: Class)
    requires Orderly(deals, lines, accounts, c)
    ensures ClaimedSo(deals, lines, accounts, c)
  {
    if lines != [] {
      var n := |lines| - 1;
      assert lines == lines[..n] + [lines[n]];
      OrderlyOneMore(deals, lines[..n], lines[n], accounts, c);
      PickersClaim(deals, lines[..n], accounts, c);
      OneMoreClaims(deals, lines[..n], lines[n], accounts, c);
    }
  }

  lemma OneMoreClaims(deals: seq<Order>, lines: seq<PastedLine>, line: PastedLine, accounts: Accounts, c: Class)
    requires Orderly(deals, lines + [line], accounts, c) && Orderly(deals, lines, accounts, c)
    requires ClaimedSo(deals, lines, accounts, c)
    ensures ClaimedSo(deals, lines + [line], accounts, c)
  {
    assert (lines + [line])[..|lines|] == lines && line in lines + [line];
    PickedOneMoreLine(deals, lines, line, accounts, c);
    assert forall l :: l in lines ==> l in lines + [line];
    if !InClass(line, c) {
      assert Picked(deals, lines + [line], accounts, c) == Picked(deals, lines, accounts, c);
    } else if Plain(line) {
      PlainOneMore(deals, lines, line, accounts, c);
    } else {
      var r :| Steady(deals, line, accounts, r);
      PickerOneMore(deals, lines, line, accounts, c, r);
    }
  }

  lemma ClaimedOneMore(deals: seq<Order>, lines: seq<PastedLine>, line: PastedLine, accounts: Accounts, c: Class)
    requires InClass(line, c)
    ensures var claimed := Claimed(deals, lines, accounts, c);
            Claimed(deals, lines + [line], accounts, c)
            == claimed + Claim(Decide(Narrow(Left(deals, claimed), line, accounts)))
  {
    assert (lines + [line])[..|lines|] == lines;
  }

  lemma PickedAsBefore(deals: seq<Order>, lines: seq<PastedLine>, line: PastedLine, accounts: Accounts, c: Class)
    requires |deals| >= 2 && Plain(line)
    ensures Picked(deals, lines + [line], accounts, c) == Picked(deals, lines, accounts, c)
  {
    PickedOneMoreLine(deals, lines, line, accounts, c);
    forall r ensures !Steady(deals, line, accounts, r) {
      if Steady(deals, line, accounts, r) {
        PickerIsNotPlain(deals, line, accounts, r);
      }
    }
  }

  lemma PickedOneMoreDeal(deals: seq<Order>, lines: seq<PastedLine>, line: PastedLine, accounts: Accounts, c: Class,
                          r: nat)
    requires InClass(line, c) && Steady(deals, line, accounts, r)
    ensures Picked(deals, lines + [line], accounts, c) == Picked(deals, lines, accounts, c) + {r}
  {
    PickedOneMoreLine(deals, lines, line, accounts, c);
    forall s | Steady(deals, line, accounts, s) ensures s == r {
      PickedOnce(deals, line, accounts, r, s);
    }
  }

  lemma SomePlainOneMore(lines: seq<PastedLine>, line: PastedLine, c: Class)
    ensures SomePlain(lines, c) || (InClass(line, c) && Plain(line)) ==> SomePlain(lines + [line], c)
  {
    assert line in lines + [line];
    if SomePlain(lines, c) {
      var l :| l in lines && InClass(l, c) && Plain(l);
      assert l in lines + [line];
    }
  }

  /** The rest of a set, when there is one of it or none. */
  lemma RestOf(names: set<nat>, part: set<nat>)
    requires part <= names
    ensures |names - part| == |names| - |part| && part + (names - part) == names
  {
  }

  lemma PlainOneMore(deals: seq<Order>, lines: seq<PastedLine>, line: PastedLine, accounts: Accounts, c: Class)
    requires |deals| >= 2 && DistinctReferences(deals) && InClass(line, c) && Plain(line)
    requires ClaimedSo(deals, lines, accounts, c)
    ensures ClaimedSo(deals, lines + [line], accounts, c)
    ensures Picked(deals, lines + [line], accounts, c) == Picked(deals, lines, accounts, c)
    ensures |Picked(deals, lines, accounts, c)| == |Names(deals)| - 1 ==>
              Claimed(deals, lines + [line], accounts, c) == Names(deals)
  {
    var claimed := Claimed(deals, lines, accounts, c);
    PickedAsBefore(deals, lines, line, accounts, c);
    ClaimedOneMore(deals, lines, line, accounts, c);
    SomePlainOneMore(lines, line, c);
    PlainClaims(deals, claimed, line, accounts);
    RestOf(Names(deals), claimed);
  }

  lemma PickerOneMore(deals: seq<Order>, lines: seq<PastedLine>, line: PastedLine, accounts: Accounts, c: Class,
                      r: nat)
    requires Orderly(deals, lines + [line], accounts, c) && ClaimedSo(deals, lines, accounts, c)
    requires InClass(line, c) && Steady(deals, line, accounts, r)
    ensures ClaimedSo(deals, lines + [line], accounts, c)
    ensures r !in Picked(deals, lines, accounts, c)
    ensures Picked(deals, lines + [line], accounts, c) == Picked(deals, lines, accounts, c) + {r}
    ensures Claimed(deals, lines, accounts, c) == Picked(deals, lines, accounts, c) ==>
              Claimed(deals, lines + [line], accounts, c) == Picked(deals, lines + [line], accounts, c)
  {
    OrderlyOneMore(deals, lines, line, accounts, c);
    PickedOneMoreDeal(deals, lines, line, accounts, c, r);
    ClaimedOneMore(deals, lines, line, accounts, c);
    SomePlainOneMore(lines, line, c);
    assert !IsPicked(deals, lines, accounts, c, r);
    var claimed, picked := Claimed(deals, lines, accounts, c), Picked(deals, lines, accounts, c);
    PickerClaims(deals, claimed, line, accounts, r);
    ClaimedGrows(Names(deals), claimed, picked, Claim(Decide(Narrow(Left(deals, claimed), line, accounts))), r);
  }

  lemma ClaimedGrows(names: set<nat>, claimed: set<nat>, picked: set<nat>, more: set<nat>, r: nat)
    requires r in names && r !in picked && picked <= names
    requires (r !in claimed ==> more == {r}) && (claimed == names ==> more == {})
    requires claimed == picked || (claimed == names && |picked| >= |names| - 1)
    ensures claimed == picked ==> claimed + more == picked + {r}
    ensures claimed != picked ==> claimed + more == names && |picked + {r}| >= |names| - 1
  {
    OneMoreIn(picked, r);
  }

  lemma PickerClaims(deals: seq<Order>, claimed: set<nat>, line: PastedLine, accounts: Accounts, r: nat)
    requires DistinctReferences(deals) && Steady(deals, line, accounts, r)
    ensures var more := Claim(Decide(Narrow(Left(deals, claimed), line, accounts)));
            (r !in claimed ==> more == {r}) && (claimed == Names(deals) ==> more == {})
  {
    if claimed == Names(deals) {
      NothingLeft(deals, line, accounts);
    } else if r !in claimed {
      assert Decide(Narrow(Left(deals, claimed), line, accounts)) == Found(r);
    }
  }

  // ---- when their order matters -------------------------------------------------------------------

  /** One deal is picked by no line, and a line without an account claims it, unless that line comes too soon. */
  ghost predicate OneLeftForPlain(deals: seq<Order>, lines: seq<PastedLine>, accounts: Accounts, c: Class) {
    |Picked(deals, lines, accounts, c)| == |Names(deals)| - 1 && SomePlain(lines, c)
  }

  lemma OrderlyShuffled(deals: seq<Order>, lines: seq<PastedLine>, shuffled: seq<PastedLine>, accounts: Accounts,
                        c: Class)
    requires Orderly(deals, lines, accounts, c) && multiset(shuffled) == multiset(lines)
    ensures Orderly(deals, shuffled, accounts, c)
    ensures Picked(deals, shuffled, accounts, c) == Picked(deals, lines, accounts, c)
    ensures SomePlain(shuffled, c) == SomePlain(lines, c)
  {
    SameMembers(shuffled, lines);
    forall r ensures Count(shuffled, Picker(deals, accounts, c, r)) <= 1 {
      CountShuffled(shuffled, lines, Picker(deals, accounts, c, r));
    }
    forall r ensures IsPicked(deals, shuffled, accounts, c, r) == IsPicked(deals, lines, accounts, c, r) {
    }
  }

  /** Where it does not matter, every arrangement claims the same: the deals picked, or all. */
  lemma OtherwiseSame(deals: seq<Order>, lines: seq<PastedLine>, accounts: Accounts, c: Class)
    requires Orderly(deals, lines, accounts, c) && !OneLeftForPlain(deals, lines, accounts, c)
    ensures Claimed(deals, lines, accounts, c) == Picked(deals, lines, accounts, c)
  {
    PickersClaim(deals, lines, accounts, c);
    var picked := Picked(deals, lines, accounts, c);
    if |picked| >= |Names(deals)| - 1 && SomePlain(lines, c) {
      assert |Names(deals) - picked| == |Names(deals)| - |picked|;
      assert |picked| == |Names(deals)|;
      assert picked == Names(deals);
    }
  }

  /** The line taken to one end of the block, the rest in their order. */
  lemma TakenOut(lines: seq<PastedLine>, line: PastedLine) returns (rest: seq<PastedLine>)
    requires line in lines
    ensures multiset(rest + [line]) == multiset(lines)
  {
    var k :| 0 <= k < |lines| && lines[k] == line;
    rest := lines[..k] + lines[k + 1..];
    assert lines == lines[..k] + [line] + lines[k + 1..];
  }

  /** With the line without an account last, all the deals are claimed. */
  lemma PlainLast(deals: seq<Order>, lines: seq<PastedLine>, accounts: Accounts, c: Class)
      returns (shuffled: seq<PastedLine>)
    requires Orderly(deals, lines, accounts, c) && OneLeftForPlain(deals, lines, accounts, c)
    ensures multiset(shuffled) == multiset(lines) && Claimed(deals, shuffled, accounts, c) == Names(deals)
  {
    var line :| line in lines && InClass(line, c) && Plain(line);
    var rest := TakenOut(lines, line);
    shuffled := rest + [line];
    OrderlyShuffled(deals, lines, shuffled, accounts, c);
    OrderlyOneMore(deals, rest, line, accounts, c);
    PickersClaim(deals, rest, accounts, c);
    PlainOneMore(deals, rest, line, accounts, c);
  }

  /** With a line that picks last, only the deals picked are. */
  lemma PickerLast(deals: seq<Order>, lines: seq<PastedLine>, accounts: Accounts, c: Class)
      returns (shuffled: seq<PastedLine>)
    requires Orderly(deals, lines, accounts, c) && OneLeftForPlain(deals, lines, accounts, c)
    ensures multiset(shuffled) == multiset(lines)
    ensures Claimed(deals, shuffled, accounts, c) == Picked(deals, lines, accounts, c) != Names(deals)
  {
    NamesAreMany(deals);
    var r :| r in Picked(deals, lines, accounts, c);
    var line :| line in lines && InClass(line, c) && Steady(deals, line, accounts, r);
    var rest := TakenOut(lines, line);
    shuffled := rest + [line];
    OrderlyShuffled(deals, lines, shuffled, accounts, c);
    OrderlyOneMore(deals, rest, line, accounts, c);
    PickersClaim(deals, rest, accounts, c);
    PickerOneMore(deals, rest, line, accounts, c, r);
    OneMoreIn(Picked(deals, rest, accounts, c), r);
  }

  lemma OneMoreIn(s: set<nat>, r: nat)
    requires r !in s
    ensures |s + {r}| == |s| + 1
  {
  }

  lemma NamesAreMany(deals: seq<Order>)
    requires |deals| >= 2 && DistinctReferences(deals)
    ensures |Names(deals)| == |deals|
  {
    LeftCount(deals, {});
    LeftAll(deals);
    assert Names(deals) - {} == Names(deals);
  }

  /**
   Any number of like deals, each line of the class picking one out or naming no account: however
   the lines are arranged they claim the same of the class, if and only if it is not so that
   one deal is picked by no line and some line names no account.
   */
  lemma PickersOrderIff(orders: seq<Order>, lines: seq<PastedLine>, accounts: Accounts, c: Class)
    requires Orderly(Deals(orders, c), lines, accounts, c)
    ensures OrderFree(orders, lines, accounts, c) <==> !OneLeftForPlain(Deals(orders, c), lines, accounts, c)
  {
    var deals := Deals(orders, c);
    if OneLeftForPlain(deals, lines, accounts, c) {
      var first := PlainLast(deals, lines, accounts, c);
      var second := PickerLast(deals, lines, accounts, c);
      assert Claimed(deals, first, accounts, c) != Claimed(deals, second, accounts, c);
    } else {
      OtherwiseSame(deals, lines, accounts, c);
      forall shuffled | multiset(shuffled) == multiset(lines)
        ensures Claimed(deals, shuffled, accounts, c) == Claimed(deals, lines, accounts, c)
      {
        OrderlyShuffled(deals, lines, shuffled, accounts, c);
        OtherwiseSame(deals, shuffled, accounts, c);
      }
    }
  }

  // ---- one supplier's accounts pick steadily ---------------------------------------------------------

  /** The deals of one supplier, whose numbered account on the line is of the client of just one of them. */
  predicate PicksForOneSupplier(deals: seq<Order>, line: PastedLine, accounts: Accounts, code: string, k: nat)
    requires k < |deals|
  {
    && code != "" && (forall o :: o in deals ==> o.supplierCode == Some(code)) && Given(line.account)
    && forall j :: 0 <= j < |deals| ==> (deals[j].clientId in accounts(code, line.account.value) <==> j == k)
  }

  lemma {:induction false} OnlyTheClients(left: seq<Order>, clients: set<nat>, o: Order)
    requires o in left && o.clientId in clients && Once(left, o)
    requires forall x :: x in left && x.clientId in clients ==> x == o
    ensures OfClients(left, clients) == [o]
    decreases |left|
  {
    assert left == [left[0]] + left[1..];
    if left[0] == o {
      NoneOfClients(left[1..], clients);
    } else {
      OnlyTheClients(left[1..], clients, o);
    }
  }

  predicate Once(s: seq<Order>, o: Order) {
    forall i, j :: 0 <= i < j < |s| ==> !(s[i] == o && s[j] == o)
  }

  lemma {:induction false} NoneOfClients(left: seq<Order>, clients: set<nat>)
    requires forall x :: x in left ==> x.clientId !in clients
    ensures OfClients(left, clients) == []
    decreases |left|
  {
    if left != [] {
      assert left[0] in left;
      NoneOfClients(left[1..], clients);
    }
  }

  /** Whatever is taken of the others, such a line picks its deal. */
  lemma OneSupplierPicksSteadily(deals: seq<Order>, line: PastedLine, accounts: Accounts, code: string, k: nat)
    requires DistinctReferences(deals) && k < |deals| && PicksForOneSupplier(deals, line, accounts, code, k)
    ensures Steady(deals, line, accounts, deals[k].reference)
  {
    forall taken | deals[k].reference !in taken
      ensures Decide(Narrow(Left(deals, taken), line, accounts)) == Found(deals[k].reference)
    {
      PicksFromWhatIsLeft(deals, line, accounts, code, k, taken);
    }
  }

  lemma PicksFromWhatIsLeft(deals: seq<Order>, line: PastedLine, accounts: Accounts, code: string, k: nat,
                            taken: set<nat>)
    requires DistinctReferences(deals) && k < |deals| && PicksForOneSupplier(deals, line, accounts, code, k)
    requires deals[k].reference !in taken
    ensures Decide(Narrow(Left(deals, taken), line, accounts)) == Found(deals[k].reference)
  {
    var left, o := Left(deals, taken), deals[k];
    assert o in left;
    LeftIsDistinct(deals, taken);
    forall x | x in left && x.clientId in accounts(code, line.account.value) ensures x == o {
      var j :| 0 <= j < |deals| && deals[j] == x;
    }
    OnlyTheClients(left, accounts(code, line.account.value), o);
    assert left[0] in left;
    assert |left| == 1 ==> left == [left[0]];
  }

  lemma {:induction false} LeftIsDistinct(deals: seq<Order>, taken: set<nat>)
    requires DistinctReferences(deals)
    ensures DistinctReferences(Left(deals, taken))
  {
    if deals != [] {
      var n := |deals| - 1;
      LeftIsDistinct(deals[..n], taken);
      var before := Left(deals[..n], taken);
      forall i | 0 <= i < |before| ensures before[i].reference != deals[n].reference {
        assert before[i] in before;
        var k :| 0 <= k < n && deals[k] == before[i];
      }
    }
  }
}
