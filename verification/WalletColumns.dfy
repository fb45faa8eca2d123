/**
 What a deal is expected to bring, by its columns (app/services/wallet.py:286-319): what the
 supplier pays out at the supplier's rate, or at the client's where there is none.
 */
module WalletColumns {
  import opened Prelude
  import opened FxOrders
  import opened Sorting
  import opened Wallet
  import opened WalletWatch
  import Ledger
  import Matching

  /** An amount of the supplier's at a rate comes to this many micro-USDT, to within half of one. */
  predicate ComesTo(amount: Money, rate: Money, expected: int) {
    -rate <= 2 * (expected * rate - amount * 1_000_000) <= rate
  }

  /** The deal's supplier pays out this amount, and this is the rate it is to be taken at. */
  predicate ToBePaid(o: Order, amount: Money, rate: Money) {
    && o.supplier.pays == Some(amount) && amount != 0 && rate > 0
    && (o.supplier.rate == Some(rate)
        || ((o.supplier.rate == None || o.supplier.rate == Some(0)) && o.client.rate == Some(rate)))
  }

  /** The list names this deal, for what that comes to. */
  ghost predicate Listed(cs: seq<Candidate>, o: Order, amount: Money, rate: Money) {
    exists c :: c in cs && c.key == DisplayReference(o) && ComesTo(amount, rate, c.expected)
  }

  lemma ToBePaidIsListed(orders: seq<Order>, o: Order, amount: Money, rate: Money)
    requires o in orders && ToBePaid(o, amount, rate)
    ensures Listed(CandidatesOf(orders), o, amount, rate)
  {
    EveryDealThatExpects(orders, o);
    Ledger.UsdtIsNearest(amount, rate);
    assert CandidateFor(o).key == DisplayReference(o) && ComesTo(amount, rate, CandidateFor(o).expected);
  }

  /** What is expected of a deal is reckoned at the supplier's rate, whatever the client's columns say. */
  lemma SuppliersRateCounts(orders: seq<Order>, o: Order, amount: Money, rate: Money)
    requires o in orders && o.supplier.rate == Some(rate) && rate > 0
    requires o.supplier.pays == Some(amount) && amount != 0
    ensures Listed(CandidatesOf(orders), o, amount, rate)
  {
    ToBePaidIsListed(orders, o, amount, rate);
  }

  /** Where there is none, at the client's. */
  lemma ClientsRateWhereThereIsNone(orders: seq<Order>, o: Order, amount: Money, rate: Money)
    requires o in orders && o.supplier.rate == None && o.client.rate == Some(rate) && rate > 0
    requires o.supplier.pays == Some(amount) && amount != 0
    ensures Listed(CandidatesOf(orders), o, amount, rate)
  {
    ToBePaidIsListed(orders, o, amount, rate);
  }

  /** And whatever is on the list is there for a deal, at that deal's amount and rate. */
  lemma ListedIsToBePaid(orders: seq<Order>, c: Candidate) returns (o: Order, amount: Money, rate: Money)
    requires c in CandidatesOf(orders)
    ensures o in orders && ToBePaid(o, amount, rate)
    ensures c.key == DisplayReference(o) && ComesTo(amount, rate, c.expected)
  {
    o := CandidateOf(orders, c);
    amount, rate := Matching.LocalLeg(o).1.value, RateFor(o);
    Ledger.UsdtIsNearest(amount, rate);
  }

  /** A deal without such an amount or rate is on no list. */
  lemma OthersAreNotListed(orders: seq<Order>, o: Order, c: Candidate)
    requires Matching.DistinctReferences(orders) && (forall x :: x in orders ==> x.reference >= 100)
    requires o in orders && forall amount, rate :: !ToBePaid(o, amount, rate)
    ensures c in CandidatesOf(orders) ==> c.key != DisplayReference(o)
  {
    if c in CandidatesOf(orders) {
      var other, amount, rate := ListedIsToBePaid(orders, c);
      ParseInvertsReferences(o);
      ParseInvertsReferences(other);
      if c.key == DisplayReference(o) {
        Matching.SameReference(orders, o, other);
        assert false;
      }
    }
  }

  // ---- what a pass proposes -----------------------------------------------------------------------

  /** Within five USDT of what was expected, or within a basis point of it. */
  predicate CloseTo(amount: int, expected: int) {
    var off := amount - expected;
    || -5_000_000 <= off <= 5_000_000
    || (if expected >= 0 then -expected <= 10_000 * off <= expected else expected <= 10_000 * off <= -expected)
  }

  lemma NearIsClose(p: Payment, c: Candidate)
    ensures Near(p, c, None) <==> CloseTo(p.amount, c.expected)
  {
    NearMeans(p, c);
  }

  /** Nobody before the k-th proposed this deal alone. */
  predicate NotProposedAlone(ps: seq<Proposal>, k: nat, key: string)
    requires k <= |ps|
  {
    forall j :: 0 <= j < k && |ps[j].candidates| == 1 ==> ps[j].candidates[0].key != key
  }

  lemma ClaimedMeans(ps: seq<Proposal>, k: nat, key: string)
    requires k <= |ps|
    ensures key !in Claimed(ps[..k]) <==> NotProposedAlone(ps, k, key)
  {
    if key in Claimed(ps[..k]) {
      var p :| p in ps[..k] && Certain(p) && p.candidates[0].key == key;
      var j :| 0 <= j < k && ps[j] == p;
      assert |ps[j].candidates| == 1;
    }
    forall j | 0 <= j < k && |ps[j].candidates| == 1 ensures ps[j].candidates[0].key in Claimed(ps[..k]) {
      assert ps[j] in ps[..k] && Certain(ps[j]);
    }
  }

  lemma ProposedAt(arrived: seq<Payment>, outstanding: seq<Candidate>, k: nat, c: Candidate)
    requires k < |arrived|
    ensures var ps := Proposals(arrived, outstanding, None);
            && ps[k].payment == arrived[k]
            && (c in ps[k].candidates
                <==> c in outstanding && CloseTo(arrived[k].amount, c.expected) && NotProposedAlone(ps, k, c.key))
  {
    ProposalAt(arrived, outstanding, None, k);
    NearIsClose(arrived[k], c);
    ClaimedMeans(Proposals(arrived, outstanding, None), k, c.key);
  }

  /** What a pass adds to the messages. */
  function AddedBy(mark: Time, posts: seq<Proposal>, c: Conditions): seq<Proposal> {
    var after := Poll(Some(mark), posts, c).posts;
    if |posts| <= |after| then after[|posts|..] else []
  }

  /** They are the first so many of the proposals for what is fresh. */
  lemma AddedAre(mark: Time, posts: seq<Proposal>, c: Conditions)
    ensures var unseen := Fresh(c.answer, c.recorded, mark);
            var proposals := Proposals(Sorted(unseen, ArrivedAt), CandidatesOf(c.deals), None);
            var added := AddedBy(mark, posts, c);
            && Poll(Some(mark), posts, c).posts == posts + added
            && added <= proposals
  {
    var unseen := Fresh(c.answer, c.recorded, mark);
    var proposals := Proposals(Sorted(unseen, ArrivedAt), CandidatesOf(c.deals), None);
    if c.watching && unseen != [] {
      PollSends(mark, posts, c);
      SentAdds(Some(mark), posts, proposals, Latest(unseen), c.working);
    } else {
      PollIsQuiet(mark, posts, c);
      assert AddedBy(mark, posts, c) == [] && posts + [] == posts;
    }
  }

  lemma PollSends(mark: Time, posts: seq<Proposal>, c: Conditions)
    requires c.watching && Fresh(c.answer, c.recorded, mark) != []
    ensures var unseen := Fresh(c.answer, c.recorded, mark);
            var proposals := Proposals(Sorted(unseen, ArrivedAt), CandidatesOf(c.deals), None);
            Poll(Some(mark), posts, c) == Sent(Some(mark), posts, proposals, Latest(unseen), c.working)
  {
  }

  lemma PollIsQuiet(mark: Time, posts: seq<Proposal>, c: Conditions)
    requires !c.watching || Fresh(c.answer, c.recorded, mark) == []
    ensures Poll(Some(mark), posts, c).posts == posts
  {
  }

  lemma SentAdds(mark: Option<Time>, posts: seq<Proposal>, proposals: seq<Proposal>, latest: Time, working: nat)
    ensures var after := Sent(mark, posts, proposals, latest, working).posts;
            && |posts| <= |after| && after == posts + after[|posts|..] && after[|posts|..] <= proposals
  {
  }

  /**
   Each message of a pass proposes, for a payment past the mark and in no settlement, just those of the open
   deals whose expected amount is within five USDT or a basis point of it, and which no
   message of the pass before has proposed alone.
   */
  lemma PassProposes(mark: Time, posts: seq<Proposal>, c: Conditions, k: nat, candidate: Candidate)
    requires k < |AddedBy(mark, posts, c)|
    ensures var added := AddedBy(mark, posts, c);
            var p := added[k].payment;
            && Poll(Some(mark), posts, c).posts == posts + added
            && p in c.answer && p.at > mark && !AlreadyRecorded(p, c.recorded)
            && (candidate in added[k].candidates
                <==> candidate in CandidatesOf(c.deals) && CloseTo(p.amount, candidate.expected)
                     && NotProposedAlone(added, k, candidate.key))
  {
    AddedAre(mark, posts, c);
    var unseen := Fresh(c.answer, c.recorded, mark);
    var arrived := Sorted(unseen, ArrivedAt);
    ProposedAt(arrived, CandidatesOf(c.deals), k, candidate);
    var added, proposals := AddedBy(mark, posts, c), Proposals(arrived, CandidatesOf(c.deals), None);
    assert forall j :: 0 <= j <= k ==> added[j] == proposals[j];
    SortedKeeps(unseen, ArrivedAt);
    assert arrived[k] in multiset(arrived);
  }

  /** The first look at an address announces nothing and starts from the latest payment there, or from now. */
  lemma FirstLookSetsTheMark(posts: seq<Proposal>, c: Conditions)
    requires c.watching
    ensures var pass := Poll(None, posts, c);
            && pass.posts == posts && pass.announced == Some(0)
            && (c.answer == [] ==> pass.mark == Some(c.now))
            && (c.answer != [] ==>
                  && (exists p :: p in c.answer && pass.mark == Some(p.at))
                  && forall p :: p in c.answer ==> p.at <= pass.mark.value)
  {
  }
}
