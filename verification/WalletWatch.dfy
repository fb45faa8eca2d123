/**
 Telling the desk when money arrives (app/services/wallet_watch.py:47-201): a
 high-water mark over the payments of one address, with sends that may fail
 anywhere in a pass.
 */
module WalletWatch {
  import opened Prelude
  import opened Text
  import opened FxOrders
  import opened Sorting
  import opened Wallet

  function Later(a: Time, b: Time): Time {
    if a < b then b else a
  }

  function Latest(payments: seq<Payment>): (t: Time)
    requires payments != []
    ensures forall p :: p in payments ==> p.at <= t
    ensures exists p :: p in payments && p.at == t
  {
    var last := payments[|payments| - 1];
    assert payments == payments[..|payments| - 1] + [last];
    if |payments| == 1 then last.at else Later(Latest(payments[..|payments| - 1]), last.at)
  }

  /** `_already_recorded`: the hash as the chain gives it, in lower case, against what settlements hold. */
  predicate AlreadyRecorded(p: Payment, recorded: set<string>) {
    Lower(p.txHash) in recorded
  }

  function Fresh(answer: seq<Payment>, recorded: set<string>, since: Time): (r: seq<Payment>)
    ensures forall p :: p in r <==> p in answer && !AlreadyRecorded(p, recorded) && p.at > since
    ensures Distinct(answer) ==> Distinct(r)
  {
    if answer == [] then []
    else
      var before := Fresh(answer[..|answer| - 1], recorded, since);
      var last := answer[|answer| - 1];
      assert answer == answer[..|answer| - 1] + [last];
      if !AlreadyRecorded(last, recorded) && last.at > since then before + [last] else before
  }

  // ---- one pass ---------------------------------------------------------------------

  /** What one call has to work with: the chain client's answer, and how many sends go through before one fails. */
  datatype Conditions = Conditions(watching: bool, answer: seq<Payment>, recorded: set<string>, deals: seq<Order>,
                                   now: Time, working: nat)

  /** What it leaves: the stored mark, the messages, and how many it says it sent - nothing if it raised. */
  datatype Pass = Pass(mark: Option<Time>, posts: seq<Proposal>, announced: Option<nat>)

  function Poll(mark: Option<Time>, posts: seq<Proposal>, c: Conditions): Pass {
    if !c.watching then Pass(mark, posts, Some(0))
    else if mark == None then Pass(Some(if c.answer == [] then c.now else Latest(c.answer)), posts, Some(0))
    else
      var unseen := Fresh(c.answer, c.recorded, mark.value);
      if unseen == [] then Pass(mark, posts, Some(0))
      else Announce(mark, posts, unseen, c)
  }

  function Announce(mark: Option<Time>, posts: seq<Proposal>, unseen: seq<Payment>, c: Conditions): Pass
    requires unseen != []
  {
    Sent(mark, posts, Proposals(Sorted(unseen, ArrivedAt), CandidatesOf(c.deals), None), Latest(unseen), c.working)
  }

  /** The mark moves only when every send has gone through. */
  function Sent(mark: Option<Time>, posts: seq<Proposal>, proposals: seq<Proposal>, latest: Time, working: nat): Pass {
    if working < |proposals| then Pass(mark, posts + proposals[..working], None)
    else Pass(Some(latest), posts + proposals, Some(|proposals|))
  }

  class Watcher {
    /** The stored setting: kept only if the pass ends well. */
    var mark: Option<Time>
    /** What the Operations Group has been sent: nothing takes a message back. */
    var posts: seq<Proposal>

    constructor ()
      ensures mark == None && posts == []
    {
      mark, posts := None, [];
    }

    method RunPass(c: Conditions) returns (announced: Option<nat>)
      modifies this
      ensures Pass(mark, posts, announced) == Poll(old(mark), old(posts), c)
    {
      if !c.watching {
        return Some(0);
      }
      if mark == None {
        mark := Some(if c.answer == [] then c.now else Latest(c.answer));
        return Some(0);
      }
      if c.answer == [] {
        return Some(0);
      }
      var unseen := Fresh(c.answer, c.recorded, mark.value);
      if unseen == [] {
        return Some(0);
      }
      var candidates := CandidatesFromOrders(c.deals);
      var proposals := MatchAll(unseen, candidates, None);
      announced := SendAll(proposals, Latest(unseen), c.working);
    }

    method SendAll(proposals: seq<Proposal>, latest: Time, working: nat) returns (announced: Option<nat>)
      modifies this
      ensures Pass(mark, posts, announced) == Sent(old(mark), old(posts), proposals, latest, working)
    {
      var sent := 0;
      while sent < |proposals|
        invariant 0 <= sent <= |proposals| && sent <= working
        invariant posts == old(posts) + proposals[..sent] && mark == old(mark)
      {
        if sent == working {
          return None;
        }
        posts := posts + [proposals[sent]];
        sent := sent + 1;
      }
      assert proposals[..sent] == proposals;
      mark := Some(latest);
      announced := Some(sent);
    }

    /** `reset_baseline` */
    method ResetBaseline()
      modifies this
      ensures mark == None && posts == old(posts)
    {
      mark := None;
    }
  }

  // ---- what a pass announces -----------------------------------------------------------

  function PaymentsOf(posts: seq<Proposal>): seq<Payment> {
    seq(|posts|, i requires 0 <= i < |posts| => posts[i].payment)
  }

  lemma {:induction false} ProposalsAreOf(arrived: seq<Payment>, outstanding: seq<Candidate>)
    ensures PaymentsOf(Proposals(arrived, outstanding, None)) == arrived
  {
    if arrived != [] {
      ProposalsAreOf(arrived[..|arrived| - 1], outstanding);
      var before := Proposals(arrived[..|arrived| - 1], outstanding, None);
      assert PaymentsOf(before) == arrived[..|arrived| - 1];
      forall i | 0 <= i < |arrived| ensures Proposals(arrived, outstanding, None)[i].payment == arrived[i] {
        assert i < |before| ==> PaymentsOf(before)[i] == before[i].payment;
      }
    }
  }

  /** How often a payment has been announced. */
  function Times(posts: seq<Proposal>, p: Payment): nat {
    multiset(PaymentsOf(posts))[p]
  }

  lemma TimesConcat(a: seq<Proposal>, b: seq<Proposal>, p: Payment)
    ensures Times(a + b, p) == Times(a, p) + Times(b, p)
  {
    assert PaymentsOf(a + b) == PaymentsOf(a) + PaymentsOf(b);
  }

  lemma PrefixAtMost(posts: seq<Proposal>, k: nat, p: Payment)
    requires k <= |posts|
    ensures Times(posts[..k], p) <= Times(posts, p)
  {
    TimesConcat(posts[..k], posts[k..], p);
    assert posts[..k] + posts[k..] == posts;
  }

  /** What a whole pass sends: the fresh payments, once each. */
  lemma SentOnce(unseen: seq<Payment>, candidates: seq<Candidate>, p: Payment)
    requires Distinct(unseen)
    ensures Times(Proposals(Sorted(unseen, ArrivedAt), candidates, None), p) == if p in unseen then 1 else 0
  {
    SortedKeeps(unseen, ArrivedAt);
    ProposalsAreOf(Sorted(unseen, ArrivedAt), candidates);
    DistinctOnce(unseen, p);
  }

  /** The payments this pass has to announce. */
  function News(mark: Option<Time>, c: Conditions): seq<Payment> {
    if c.watching && mark.Some? then Fresh(c.answer, c.recorded, mark.value) else []
  }

  /** A pass announces nothing but its news, at most once each, and all of it if it ends well. */
  lemma PassAnnounces(mark: Option<Time>, posts: seq<Proposal>, c: Conditions, p: Payment)
    requires Distinct(c.answer)
    ensures var pass := Poll(mark, posts, c);
            var due := if p in News(mark, c) then 1 else 0;
            && Times(posts, p) <= Times(pass.posts, p) <= Times(posts, p) + due
            && (pass.announced.Some? ==> Times(pass.posts, p) == Times(posts, p) + due)
  {
    var unseen := News(mark, c);
    if unseen != [] {
      var proposals := Proposals(Sorted(unseen, ArrivedAt), CandidatesOf(c.deals), None);
      SentOnce(unseen, CandidatesOf(c.deals), p);
      SentCounts(mark, posts, proposals, Latest(unseen), c.working, p);
    }
  }

  lemma SentCounts(mark: Option<Time>, posts: seq<Proposal>, proposals: seq<Proposal>, latest: Time, working: nat,
                   p: Payment)
    ensures var pass := Sent(mark, posts, proposals, latest, working);
            && Times(posts, p) <= Times(pass.posts, p) <= Times(posts, p) + Times(proposals, p)
            && (pass.announced.Some? ==> Times(pass.posts, p) == Times(posts, p) + Times(proposals, p))
  {
    if working < |proposals| {
      PrefixAtMost(proposals, working, p);
      TimesConcat(posts, proposals[..working], p);
    } else {
      TimesConcat(posts, proposals, p);
    }
  }

  /** The mark stays where it is unless a pass ends well with news, and then it is at the latest of it. */
  lemma PassMarks(mark: Option<Time>, posts: seq<Proposal>, c: Conditions)
    requires mark.Some?
    ensures var pass := Poll(mark, posts, c);
            && (pass.announced == None || News(mark, c) == [] ==> pass.mark == mark)
            && (pass.announced.Some? && News(mark, c) != [] ==> pass.mark == Some(Latest(News(mark, c))))
            && pass.mark.Some? && mark.value <= pass.mark.value
  {
  }
}
