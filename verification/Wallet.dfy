/**
 Which open deal an incoming payment looks like (app/services/wallet.py:59-79, 152-250, 286-319).
 Amounts are in micro-USDT, as the chain reports them.
 */
module Wallet {
  import opened Prelude
  import opened FxOrders
  import opened Sorting
  import Ledger
  import Matching

  datatype Payment = Payment(txHash: string, amount: int, at: Time)

  datatype Candidate = Candidate(key: string, expected: int)

  datatype Proposal = Proposal(payment: Payment, candidates: seq<Candidate>)

  predicate Certain(p: Proposal) {
    |p.candidates| == 1
  }

  function ArrivedAt(p: Payment): int {
    p.at
  }

  // ---- the window ------------------------------------------------------------------

  /** Tolerances are exact in ten-thousandths of a micro-USDT, the unit of one basis point. */
  const TOLERANCE_UNIT := 10_000

  const MATCH_FLOOR := 5 * Ledger.MICRO * TOLERANCE_UNIT

  function Abs(n: int): nat {
    if n < 0 then -n else n
  }

  function ToleranceFor(expected: int): int {
    if Abs(expected) > MATCH_FLOOR then Abs(expected) else MATCH_FLOOR
  }

  predicate Near(p: Payment, c: Candidate, tolerance: Option<int>) {
    Abs(p.amount - c.expected) * TOLERANCE_UNIT <= if tolerance.Some? then tolerance.value else ToleranceFor(c.expected)
  }

  /** Within five USDT, or within a basis point of what was expected, whichever is wider. */
  lemma NearMeans(p: Payment, c: Candidate)
    ensures Near(p, c, None) <==>
              Abs(p.amount - c.expected) <= 5 * Ledger.MICRO || 10_000 * Abs(p.amount - c.expected) <= Abs(c.expected)
  {
  }

  // ---- one payment -------------------------------------------------------------------

  /** Every candidate within tolerance whose key has not been claimed, in order. */
  function Fitting(p: Payment, outstanding: seq<Candidate>, claimed: set<string>,
                   tolerance: Option<int>): (r: seq<Candidate>)
    ensures forall c :: c in r <==> c in outstanding && c.key !in claimed && Near(p, c, tolerance)
  {
    if outstanding == [] then []
    else
      var before := Fitting(p, outstanding[..|outstanding| - 1], claimed, tolerance);
      var last := outstanding[|outstanding| - 1];
      assert outstanding == outstanding[..|outstanding| - 1] + [last];
      if last.key !in claimed && Near(p, last, tolerance) then before + [last] else before
  }

  function MatchPayment(p: Payment, outstanding: seq<Candidate>, tolerance: Option<int>): Proposal {
    Proposal(p, Fitting(p, outstanding, {}, tolerance))
  }

  function Unclaimed(outstanding: seq<Candidate>, claimed: set<string>): seq<Candidate> {
    if outstanding == [] then []
    else
      var before := Unclaimed(outstanding[..|outstanding| - 1], claimed);
      var last := outstanding[|outstanding| - 1];
      if last.key in claimed then before else before + [last]
  }

  lemma {:induction false} FittingUnclaimed(p: Payment, outstanding: seq<Candidate>, claimed: set<string>,
                                            tolerance: Option<int>)
    ensures Fitting(p, Unclaimed(outstanding, claimed), {}, tolerance) == Fitting(p, outstanding, claimed, tolerance)
  {
    if outstanding != [] {
      var n := |outstanding| - 1;
      FittingUnclaimed(p, outstanding[..n], claimed, tolerance);
      var left := Unclaimed(outstanding, claimed);
      if outstanding[n].key !in claimed {
        assert left[..|left| - 1] == Unclaimed(outstanding[..n], claimed);
      }
    }
  }

  lemma {:induction false} UnclaimedTwice(outstanding: seq<Candidate>, claimed: set<string>, key: string)
    ensures Unclaimed(Unclaimed(outstanding, claimed), {key}) == Unclaimed(outstanding, claimed + {key})
  {
    if outstanding != [] {
      var n := |outstanding| - 1;
      UnclaimedTwice(outstanding[..n], claimed, key);
      var left := Unclaimed(outstanding, claimed);
      if outstanding[n].key !in claimed {
        assert left[..|left| - 1] == Unclaimed(outstanding[..n], claimed);
      }
    }
  }

  lemma {:induction false} UnclaimedAll(outstanding: seq<Candidate>)
    ensures Unclaimed(outstanding, {}) == outstanding
  {
    if outstanding != [] {
      UnclaimedAll(outstanding[..|outstanding| - 1]);
    }
  }

  // ---- several payments ---------------------------------------------------------------

  /** The keys certain proposals have taken out of play. */
  function Claimed(proposals: seq<Proposal>): set<string> {
    set p | p in proposals && Certain(p) :: p.candidates[0].key
  }

  /** The pass over payments in the order they arrived. */
  function Proposals(arrived: seq<Payment>, outstanding: seq<Candidate>, tolerance: Option<int>): (ps: seq<Proposal>)
    ensures |ps| == |arrived|
  {
    if arrived == [] then []
    else
      var before := Proposals(arrived[..|arrived| - 1], outstanding, tolerance);
      var last := arrived[|arrived| - 1];
      before + [Proposal(last, Fitting(last, outstanding, Claimed(before), tolerance))]
  }

  method MatchAll(payments: seq<Payment>, outstanding: seq<Candidate>,
                  tolerance: Option<int>) returns (proposals: seq<Proposal>)
    ensures proposals == Proposals(Sorted(payments, ArrivedAt), outstanding, tolerance)
  {
    var arrived := Sorted(payments, ArrivedAt);
    var remaining := outstanding;
    proposals := [];
    UnclaimedAll(outstanding);
    assert Claimed(proposals) == {};
    var i := 0;
    while i < |arrived|
      invariant 0 <= i <= |arrived|
      invariant proposals == Proposals(arrived[..i], outstanding, tolerance)
      invariant remaining == Unclaimed(outstanding, Claimed(proposals))
    {
      var proposal := MatchPayment(arrived[i], remaining, tolerance);
      OneMoreProposal(arrived, outstanding, tolerance, i);
      proposals := proposals + [proposal];
      if |proposal.candidates| == 1 {
        remaining := Without(remaining, proposal.candidates[0].key);
      }
      i := i + 1;
    }
    assert arrived[..i] == arrived;
  }

  /** What one turn of the loop adds, and what it leaves to be matched. */
  lemma OneMoreProposal(arrived: seq<Payment>, outstanding: seq<Candidate>, tolerance: Option<int>, i: nat)
    requires i < |arrived|
    ensures var before := Proposals(arrived[..i], outstanding, tolerance);
            var remaining := Unclaimed(outstanding, Claimed(before));
            var p := MatchPayment(arrived[i], remaining, tolerance);
            && Proposals(arrived[..i + 1], outstanding, tolerance) == before + [p]
            && Unclaimed(outstanding, Claimed(before + [p]))
               == if Certain(p) then Unclaimed(remaining, {p.candidates[0].key}) else remaining
  {
    var before := Proposals(arrived[..i], outstanding, tolerance);
    var p := MatchPayment(arrived[i], Unclaimed(outstanding, Claimed(before)), tolerance);
    FittingUnclaimed(arrived[i], outstanding, Claimed(before), tolerance);
    assert arrived[..i + 1][..i] == arrived[..i];
    ClaimedOneMore(before, p);
    if Certain(p) {
      UnclaimedTwice(outstanding, Claimed(before), p.candidates[0].key);
    } else {
      assert Claimed(before) + {} == Claimed(before);
    }
  }

  method Without(remaining: seq<Candidate>, key: string) returns (left: seq<Candidate>)
    ensures left == Unclaimed(remaining, {key})
  {
    left := [];
    var k := 0;
    while k < |remaining|
      invariant 0 <= k <= |remaining|
      invariant left == Unclaimed(remaining[..k], {key})
    {
      assert remaining[..k + 1][..k] == remaining[..k];
      if remaining[k].key != key {
        left := left + [remaining[k]];
      }
      k := k + 1;
    }
    assert remaining[..k] == remaining;
  }

  lemma ClaimedOneMore(proposals: seq<Proposal>, p: Proposal)
    ensures Claimed(proposals + [p]) == Claimed(proposals) + if Certain(p) then {p.candidates[0].key} else {}
  {
  }

  lemma {:induction false} ProposalsPrefix(arrived: seq<Payment>, outstanding: seq<Candidate>, tolerance: Option<int>,
                                           i: nat)
    requires i <= |arrived|
    ensures Proposals(arrived, outstanding, tolerance)[..i] == Proposals(arrived[..i], outstanding, tolerance)
    decreases |arrived|
  {
    if i == |arrived| {
      assert arrived[..i] == arrived;
    } else {
      ProposalsPrefix(arrived[..|arrived| - 1], outstanding, tolerance, i);
      assert arrived[..|arrived| - 1][..i] == arrived[..i];
    }
  }

  lemma ProposalAt(arrived: seq<Payment>, outstanding: seq<Candidate>, tolerance: Option<int>, i: nat)
    requires i < |arrived|
    ensures var ps := Proposals(arrived, outstanding, tolerance);
            ps[i] == Proposal(arrived[i], Fitting(arrived[i], outstanding, Claimed(ps[..i]), tolerance))
  {
    ProposalsPrefix(arrived, outstanding, tolerance, i);
    ProposalsPrefix(arrived, outstanding, tolerance, i + 1);
    assert arrived[..i + 1][..i] == arrived[..i];
    assert Proposals(arrived, outstanding, tolerance)[i] == Proposals(arrived, outstanding, tolerance)[..i + 1][i];
  }

  /**
   One proposal a payment, in the order of arrival; each names exactly the
   candidates within tolerance that no certain proposal before it has claimed.
   So an ambiguous or unexpected payment takes nothing out of play.
   */
  lemma EachProposalIsFair(payments: seq<Payment>, outstanding: seq<Candidate>, tolerance: Option<int>, i: nat)
    requires i < |payments|
    ensures var arrived := Sorted(payments, ArrivedAt);
            && |arrived| == |payments| && multiset(arrived) == multiset(payments) && SortedBy(arrived, ArrivedAt)
            && var ps := Proposals(arrived, outstanding, tolerance);
            && ps[i].payment == arrived[i]
            && forall c :: c in ps[i].candidates <==>
                 c in outstanding && c.key !in Claimed(ps[..i]) && Near(arrived[i], c, tolerance)
  {
    SortedKeeps(payments, ArrivedAt);
    ProposalAt(Sorted(payments, ArrivedAt), outstanding, tolerance, i);
  }

  /** What the i-th payment could have been for: the deals near it that no certain proposal before has claimed. */
  ghost predicate LeftFor(arrived: seq<Payment>, outstanding: seq<Candidate>, tolerance: Option<int>, i: nat,
                          c: Candidate)
    requires i < |arrived|
  {
    && c in outstanding && Near(arrived[i], c, tolerance)
    && c.key !in Claimed(Proposals(arrived, outstanding, tolerance)[..i])
  }

  /** A proposal is certain if and only if one deal was left that fitted, on the list once; and it is for that one. */
  lemma CertainIff(arrived: seq<Payment>, outstanding: seq<Candidate>, tolerance: Option<int>, i: nat)
    requires i < |arrived| && Distinct(outstanding)
    ensures var p := Proposals(arrived, outstanding, tolerance)[i];
            && (Certain(p) <==>
                  exists c :: LeftFor(arrived, outstanding, tolerance, i, c)
                    && forall d :: LeftFor(arrived, outstanding, tolerance, i, d) ==> d == c)
            && (Certain(p) ==> LeftFor(arrived, outstanding, tolerance, i, p.candidates[0]))
  {
    ProposalAt(arrived, outstanding, tolerance, i);
    var p := Proposals(arrived, outstanding, tolerance)[i];
    FittingDistinct(arrived[i], outstanding, Claimed(Proposals(arrived, outstanding, tolerance)[..i]), tolerance);
    OnlyMember(p.candidates, (c: Candidate) => LeftFor(arrived, outstanding, tolerance, i, c));
  }

  lemma OnlyMember(cs: seq<Candidate>, left: Candidate -> bool)
    requires Distinct(cs) && forall c :: left(c) <==> c in cs
    ensures |cs| == 1 <==> exists c :: left(c) && forall d :: left(d) ==> d == c
    ensures |cs| == 1 ==> left(cs[0])
  {
    if |cs| == 1 {
      assert cs == [cs[0]] && left(cs[0]);
    } else if |cs| > 1 {
      assert cs[0] != cs[1] && left(cs[0]) && left(cs[1]);
    }
  }

  lemma {:induction false} FittingDistinct(p: Payment, outstanding: seq<Candidate>, claimed: set<string>,
                                           tolerance: Option<int>)
    requires Distinct(outstanding)
    ensures Distinct(Fitting(p, outstanding, claimed, tolerance))
  {
    if outstanding != [] {
      var n := |outstanding| - 1;
      FittingDistinct(p, outstanding[..n], claimed, tolerance);
      assert outstanding[n] !in outstanding[..n];
    }
  }

  /** Two certain proposals never claim one deal, and each was for the only deal left that fitted. */
  lemma CertainProposalsDiffer(arrived: seq<Payment>, outstanding: seq<Candidate>, tolerance: Option<int>, i: nat,
                               j: nat)
    requires i < j < |arrived|
    requires var ps := Proposals(arrived, outstanding, tolerance); Certain(ps[i]) && Certain(ps[j])
    ensures var ps := Proposals(arrived, outstanding, tolerance);
            && ps[i].candidates[0].key != ps[j].candidates[0].key
            && (forall c :: LeftFor(arrived, outstanding, tolerance, i, c) ==> c == ps[i].candidates[0])
            && (forall c :: LeftFor(arrived, outstanding, tolerance, j, c) ==> c == ps[j].candidates[0])
  {
    var ps := Proposals(arrived, outstanding, tolerance);
    ProposalAt(arrived, outstanding, tolerance, i);
    ProposalAt(arrived, outstanding, tolerance, j);
    assert ps[i] in ps[..j];
    assert ps[j].candidates[0] in ps[j].candidates;
    assert ps[i].candidates == [ps[i].candidates[0]];
    assert ps[j].candidates == [ps[j].candidates[0]];
  }

  // ---- what the desk is waiting for ------------------------------------------------------

  /** The supplier's rate, or the client's where there is none; Python takes a zero for none. */
  function RateFor(o: Order): Money {
    if o.supplier.rate.Some? && o.supplier.rate.value != 0 then o.supplier.rate.value
    else if o.client.rate.Some? then o.client.rate.value
    else 0
  }

  predicate Expects(o: Order) {
    RateFor(o) > 0 && Matching.LocalLeg(o).1.Some? && Matching.LocalLeg(o).1.value != 0
  }

  function CandidateFor(o: Order): Candidate
    requires Expects(o)
  {
    Candidate(DisplayReference(o), Ledger.Usdt(Matching.LocalLeg(o).1.value, RateFor(o)))
  }

  function CandidatesOf(orders: seq<Order>): seq<Candidate> {
    if orders == [] then []
    else
      var before := CandidatesOf(orders[..|orders| - 1]);
      var last := orders[|orders| - 1];
      if Expects(last) then before + [CandidateFor(last)] else before
  }

  method CandidatesFromOrders(orders: seq<Order>) returns (built: seq<Candidate>)
    ensures built == CandidatesOf(orders)
  {
    built := [];
    var i := 0;
    while i < |orders|
      invariant 0 <= i <= |orders|
      invariant built == CandidatesOf(orders[..i])
    {
      assert orders[..i + 1][..i] == orders[..i];
      var rate := RateFor(orders[i]);
      var local := Matching.LocalLeg(orders[i]).1;
      if rate > 0 && local.Some? && local.value != 0 {
        built := built + [Candidate(DisplayReference(orders[i]), Ledger.Usdt(local.value, rate))];
      }
      i := i + 1;
    }
    assert orders[..i] == orders;
  }

  predicate StandsFor(c: Candidate, o: Order) {
    Expects(o) && c == CandidateFor(o)
  }

  /** The candidates are the deals that expect an amount, and no others. */
  lemma {:induction false} CandidateOf(orders: seq<Order>, c: Candidate) returns (o: Order)
    requires c in CandidatesOf(orders)
    ensures o in orders && StandsFor(c, o)
  {
    var n := |orders| - 1;
    if c in CandidatesOf(orders[..n]) {
      o := CandidateOf(orders[..n], c);
    } else {
      o := orders[n];
    }
  }

  lemma {:induction false} EveryDealThatExpects(orders: seq<Order>, o: Order)
    requires o in orders && Expects(o)
    ensures CandidateFor(o) in CandidatesOf(orders)
  {
    var n := |orders| - 1;
    assert orders == orders[..n] + [orders[n]];
    if o in orders[..n] {
      EveryDealThatExpects(orders[..n], o);
    }
  }

  predicate KeysDiffer(cs: seq<Candidate>) {
    forall i, j :: 0 <= i < j < |cs| ==> cs[i].key != cs[j].key
  }

  /** Deals with different numbers have different references, so keys are unique. */
  lemma {:induction false} CandidateKeysDiffer(orders: seq<Order>)
    requires Matching.DistinctReferences(orders) && forall o :: o in orders ==> o.reference >= 100
    ensures KeysDiffer(CandidatesOf(orders))
  {
    if orders != [] {
      var n := |orders| - 1;
      CandidateKeysDiffer(orders[..n]);
      var before, last := CandidatesOf(orders[..n]), orders[n];
      assert forall k :: 0 <= k < |before| ==> before[k] in before;
      forall c | c in before ensures c.key != DisplayReference(last) {
        var o := CandidateOf(orders[..n], c);
        var k :| 0 <= k < n && orders[..n][k] == o;
        assert orders[k].reference != orders[n].reference;
        ParseInvertsReferences(o);
        ParseInvertsReferences(last);
      }
    }
  }
}
