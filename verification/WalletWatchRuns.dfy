/** What holds of the wallet watcher over any run of payments, settlements, passes and changes of address. */
module WalletWatchRuns {
  import opened Prelude
  import opened FxOrders
  import opened Wallet
  import opened Sorting
  import opened WalletWatch

  /**
   The stored mark, the messages sent, the payments to the watched address and the
   hashes settlements hold. The rest is history: the mark the address started
   from, the payments that reached the chain no later than the mark of the moment,
   and how many passes failed and addresses were changed.
   */
  datatype World = World(
    mark: Option<Time>,
    posts: seq<Proposal>,
    chain: seq<Payment>,
    recorded: set<string>,
    baseline: Option<Time>,
    late: set<Payment>,
    failures: nat,
    resets: nat)

  datatype Action =
    | Arrive(payment: Payment)
    | Settle(hash: string)
    | RunPass(watching: bool, answer: seq<Payment>, deals: seq<Order>, now: Time, working: nat)
    | ChangeAddress(payments: seq<Payment>)

  predicate PastMark(w: World, p: Payment) {
    w.mark.Some? && p.at <= w.mark.value
  }

  /** The client answers with nothing when it fails; otherwise with all past the mark, and what else it likes. */
  predicate Possible(w: World, a: Action) {
    a.RunPass? ==>
      && Distinct(a.answer) && (forall p :: p in a.answer ==> p in w.chain)
      && (a.answer != [] && w.mark.Some? ==> forall p :: p in w.chain && !PastMark(w, p) ==> p in a.answer)
  }

  function ConditionsOf(w: World, a: Action): Conditions
    requires a.RunPass?
  {
    Conditions(a.watching, a.answer, w.recorded, a.deals, a.now, a.working)
  }

  function Next(w: World, a: Action): World {
    match a
    case Arrive(p) => w.(chain := w.chain + [p], late := if PastMark(w, p) then w.late + {p} else w.late)
    case Settle(hash) => w.(recorded := w.recorded + {hash})
    case RunPass(_, _, _, _, _) => AfterPass(w, Poll(w.mark, w.posts, ConditionsOf(w, a)))
    case ChangeAddress(payments) => w.(mark := None, chain := payments, baseline := None, late := {},
                                       resets := w.resets + 1)
  }

  function AfterPass(w: World, pass: Pass): World {
    w.(mark := pass.mark, posts := pass.posts,
       baseline := if w.mark == None then pass.mark else w.baseline,
       failures := w.failures + if pass.announced == None then 1 else 0)
  }

  predicate PossibleRun(w: World, run: seq<Action>)
    decreases |run|
  {
    run == [] || (Possible(w, run[0]) && PossibleRun(Next(w, run[0]), run[1..]))
  }

  function Exec(w: World, run: seq<Action>): World
    decreases |run|
  {
    if run == [] then w else Exec(Next(w, run[0]), run[1..])
  }

  /** Nobody watches yet, whatever is on the chain. */
  function Start(chain: seq<Payment>, recorded: set<string>): World {
    World(None, [], chain, recorded, None, {}, 0, 0)
  }

  // ---- nothing is missed ------------------------------------------------------------------

  predicate Accounted(w: World, p: Payment) {
    || (w.baseline.Some? && p.at <= w.baseline.value)
    || p in w.late
    || Times(w.posts, p) > 0
    || AlreadyRecorded(p, w.recorded)
  }

  ghost predicate AllAccounted(w: World) {
    forall p :: p in w.chain && PastMark(w, p) ==> Accounted(w, p)
  }

  lemma PassKeepsAccounts(w: World, a: Action)
    requires AllAccounted(w) && a.RunPass? && Possible(w, a)
    ensures AllAccounted(Next(w, a))
  {
    var c, w' := ConditionsOf(w, a), Next(w, a);
    forall p | p in w'.chain && PastMark(w', p) ensures Accounted(w', p) {
      PassAnnounces(w.mark, w.posts, c, p);
      if w.mark.Some? {
        PassMarks(w.mark, w.posts, c);
        assert PastMark(w, p) ==> Accounted(w, p);
      }
    }
  }

  lemma ActionKeepsAccounts(w: World, a: Action)
    requires AllAccounted(w) && Possible(w, a)
    ensures AllAccounted(Next(w, a))
  {
    if a.RunPass? {
      PassKeepsAccounts(w, a);
    } else {
      var w' := Next(w, a);
      forall p | p in w'.chain && PastMark(w', p) ensures Accounted(w', p) {
        assert p in w.chain && PastMark(w, p) ==> Accounted(w, p);
      }
    }
  }

  lemma {:induction false} RunKeepsAccounts(w: World, run: seq<Action>)
    requires AllAccounted(w) && PossibleRun(w, run)
    ensures AllAccounted(Exec(w, run))
    decreases |run|
  {
    if run != [] {
      ActionKeepsAccounts(w, run[0]);
      RunKeepsAccounts(Next(w, run[0]), run[1..]);
    }
  }

  /**
   Whatever fails and whenever: every payment at or before the mark was there
   before the watching began, or has been announced, or recorded as a settlement
   - or reached the chain behind the mark.
   */
  lemma NothingIsMissed(chain: seq<Payment>, recorded: set<string>, run: seq<Action>, p: Payment)
    requires PossibleRun(Start(chain, recorded), run)
    requires var w := Exec(Start(chain, recorded), run); p in w.chain && PastMark(w, p)
    ensures var w := Exec(Start(chain, recorded), run);
            || (w.baseline.Some? && p.at <= w.baseline.value)
            || Times(w.posts, p) > 0
            || AlreadyRecorded(p, w.recorded)
            || p in w.late
  {
    RunKeepsAccounts(Start(chain, recorded), run);
    assert Accounted(Exec(Start(chain, recorded), run), p);
  }

  // ---- and what is behind the mark stays unsaid ---------------------------------------------

  predicate SameAddress(run: seq<Action>) {
    forall i :: 0 <= i < |run| ==> !run[i].ChangeAddress?
  }

  lemma ActionKeepsMark(w: World, a: Action, p: Payment)
    requires Possible(w, a) && !a.ChangeAddress? && w.mark.Some?
    ensures var w' := Next(w, a);
            && w'.mark.Some? && w.mark.value <= w'.mark.value
            && (PastMark(w, p) ==> PastMark(w', p) && Times(w'.posts, p) == Times(w.posts, p))
  {
    if a.RunPass? {
      PassMarks(w.mark, w.posts, ConditionsOf(w, a));
      PassAnnounces(w.mark, w.posts, ConditionsOf(w, a), p);
    }
  }

  /**
   Between changes of address the mark never moves back, and a payment once at or
   before it is never announced from then on: not a second time, and not at all
   if it came late.
   */
  lemma {:induction false} MarkOnlyAdvances(w: World, run: seq<Action>, p: Payment)
    requires PossibleRun(w, run) && SameAddress(run) && w.mark.Some?
    ensures var w' := Exec(w, run);
            && w'.mark.Some? && w.mark.value <= w'.mark.value
            && (PastMark(w, p) ==> Times(w'.posts, p) == Times(w.posts, p))
    decreases |run|
  {
    if run != [] {
      ActionKeepsMark(w, run[0], p);
      assert forall i :: 0 <= i < |run[1..]| ==> run[1..][i] == run[i + 1];
      MarkOnlyAdvances(Next(w, run[0]), run[1..], p);
    }
  }

  // ---- how often a payment is announced -------------------------------------------------------

  predicate CountOk(w: World, p: Payment) {
    Times(w.posts, p) <= w.failures + w.resets + if PastMark(w, p) then 1 else 0
  }

  lemma ActionKeepsCount(w: World, a: Action, p: Payment)
    requires CountOk(w, p) && Possible(w, a)
    ensures CountOk(Next(w, a), p)
  {
    if a.RunPass? {
      PassAnnounces(w.mark, w.posts, ConditionsOf(w, a), p);
      if w.mark.Some? {
        PassMarks(w.mark, w.posts, ConditionsOf(w, a));
      }
    }
  }

  /** One announcement for each failed pass and each change of address, and one more. */
  lemma {:induction false} RunKeepsCount(w: World, run: seq<Action>, p: Payment)
    requires CountOk(w, p) && PossibleRun(w, run)
    ensures CountOk(Exec(w, run), p)
    decreases |run|
  {
    if run != [] {
      ActionKeepsCount(w, run[0], p);
      RunKeepsCount(Next(w, run[0]), run[1..], p);
    }
  }

  /** So where nothing fails and the address stays, no payment is announced twice. */
  lemma AnnouncedAtMostOnceMore(chain: seq<Payment>, recorded: set<string>, run: seq<Action>, p: Payment)
    requires PossibleRun(Start(chain, recorded), run)
    ensures var w := Exec(Start(chain, recorded), run); Times(w.posts, p) <= w.failures + w.resets + 1
  {
    RunKeepsCount(Start(chain, recorded), run, p);
  }

  // ---- a chain that only grows later -------------------------------------------------------------

  /** Payments arrive later than every other on the chain and than the moment the watching began. */
  predicate InOrder(w: World, a: Action) {
    a.Arrive? ==>
      (forall q :: q in w.chain ==> q.at < a.payment.at) && (w.baseline.Some? ==> w.baseline.value < a.payment.at)
  }

  predicate InOrderRun(w: World, run: seq<Action>)
    decreases |run|
  {
    run == [] || (InOrder(w, run[0]) && InOrderRun(Next(w, run[0]), run[1..]))
  }

  ghost predicate NoneLate(w: World) {
    && w.late == {} && (w.mark.Some? <==> w.baseline.Some?)
    && (w.mark.Some? ==> w.mark == w.baseline || exists q :: q in w.chain && w.mark == Some(q.at))
  }

  lemma ActionKeepsNoneLate(w: World, a: Action)
    requires NoneLate(w) && Possible(w, a) && InOrder(w, a)
    ensures NoneLate(Next(w, a))
  {
    var w' := Next(w, a);
    if a.RunPass? && w.mark.Some? {
      var c := ConditionsOf(w, a);
      PassMarks(w.mark, w.posts, c);
      if w'.mark != w.mark {
        var q :| q in News(w.mark, c) && q.at == Latest(News(w.mark, c));
        assert q in w.chain;
      }
    } else if a.Arrive? && w.mark.Some? && w.mark != w.baseline {
      var q :| q in w.chain && w.mark == Some(q.at);
      assert q in w'.chain;
    }
  }

  lemma {:induction false} RunKeepsNoneLate(w: World, run: seq<Action>)
    requires NoneLate(w) && PossibleRun(w, run) && InOrderRun(w, run)
    ensures NoneLate(Exec(w, run))
    decreases |run|
  {
    if run != [] {
      ActionKeepsNoneLate(w, run[0]);
      RunKeepsNoneLate(Next(w, run[0]), run[1..]);
    }
  }

  /** On such a chain nothing is missed at all. */
  lemma NothingIsMissedInOrder(chain: seq<Payment>, recorded: set<string>, run: seq<Action>, p: Payment)
    requires PossibleRun(Start(chain, recorded), run) && InOrderRun(Start(chain, recorded), run)
    requires var w := Exec(Start(chain, recorded), run);
             p in w.chain && PastMark(w, p) && w.baseline.Some? && w.baseline.value < p.at
    ensures var w := Exec(Start(chain, recorded), run); Times(w.posts, p) > 0 || AlreadyRecorded(p, w.recorded)
  {
    RunKeepsNoneLate(Start(chain, recorded), run);
    NothingIsMissed(chain, recorded, run, p);
  }

  // ---- late payments, exactly ---------------------------------------------------------------------

  /** A payment not on the chain is not announced; a late one that is there once is not either. */
  predicate LateOk(w: World, p: Payment) {
    && (p !in w.chain ==> Times(w.posts, p) == 0)
    && (p in w.late ==> p in w.chain && PastMark(w, p) && (multiset(w.chain)[p] <= 1 ==> Times(w.posts, p) == 0))
  }

  lemma ActionKeepsLate(w: World, a: Action, p: Payment)
    requires LateOk(w, p) && Possible(w, a) && !a.ChangeAddress?
    ensures var w' := Next(w, a); LateOk(w', p) && multiset(w.chain)[p] <= multiset(w'.chain)[p]
  {
    if a.RunPass? {
      PassAnnounces(w.mark, w.posts, ConditionsOf(w, a), p);
      if w.mark.Some? {
        ActionKeepsMark(w, a, p);
      }
    } else if a.Arrive? && p in w.late {
      assert multiset(w.chain + [a.payment]) == multiset(w.chain) + multiset{a.payment};
    }
  }

  lemma {:induction false} RunKeepsLate(w: World, run: seq<Action>, p: Payment)
    requires LateOk(w, p) && PossibleRun(w, run) && SameAddress(run)
    ensures LateOk(Exec(w, run), p)
    decreases |run|
  {
    if run != [] {
      ActionKeepsLate(w, run[0], p);
      assert forall i :: 0 <= i < |run[1..]| ==> run[1..][i] == run[i + 1];
      RunKeepsLate(Next(w, run[0]), run[1..], p);
    }
  }

  // What was announced before an address was set has no part in what is announced after.

  lemma PollOnlyAdds(mark: Option<Time>, earlier: seq<Proposal>, posts: seq<Proposal>, c: Conditions)
    ensures var pass := Poll(mark, posts, c);
            Poll(mark, earlier + posts, c) == Pass(pass.mark, earlier + pass.posts, pass.announced)
  {
    if c.watching && mark.Some? {
      var unseen := Fresh(c.answer, c.recorded, mark.value);
      if unseen != [] {
        var proposals := Proposals(Sorted(unseen, ArrivedAt), CandidatesOf(c.deals), None);
        SentOnlyAdds(mark, earlier, posts, proposals, Latest(unseen), c.working);
        assert Poll(mark, posts, c) == Sent(mark, posts, proposals, Latest(unseen), c.working);
      }
    }
  }

  lemma SentOnlyAdds(mark: Option<Time>, earlier: seq<Proposal>, posts: seq<Proposal>, proposals: seq<Proposal>,
                     latest: Time, working: nat)
    ensures var pass := Sent(mark, posts, proposals, latest, working);
            Sent(mark, earlier + posts, proposals, latest, working)
            == Pass(pass.mark, earlier + pass.posts, pass.announced)
  {
    assert (earlier + posts) + proposals == earlier + (posts + proposals);
    if working < |proposals| {
      assert (earlier + posts) + proposals[..working] == earlier + (posts + proposals[..working]);
    }
  }

  lemma NextOnlyAdds(w: World, earlier: seq<Proposal>, a: Action)
    ensures var more := w.(posts := earlier + w.posts);
            && Possible(more, a) == Possible(w, a)
            && Next(more, a) == Next(w, a).(posts := earlier + Next(w, a).posts)
  {
    if a.RunPass? {
      PollOnlyAdds(w.mark, earlier, w.posts, ConditionsOf(w, a));
    }
  }

  lemma {:induction false} RunOnlyAdds(w: World, earlier: seq<Proposal>, run: seq<Action>)
    requires PossibleRun(w.(posts := earlier + w.posts), run)
    ensures PossibleRun(w, run)
    ensures Exec(w.(posts := earlier + w.posts), run) == Exec(w, run).(posts := earlier + Exec(w, run).posts)
    decreases |run|
  {
    if run != [] {
      NextOnlyAdds(w, earlier, run[0]);
      RunOnlyAdds(Next(w, run[0]), earlier, run[1..]);
    }
  }

  /** Nobody has looked at this address yet. */
  predicate Unwatched(w: World) {
    w.mark == None && w.late == {}
  }

  lemma UnwatchedAfter(chain: seq<Payment>, recorded: set<string>, before: seq<Action>)
    requires before == [] || before[|before| - 1].ChangeAddress?
    ensures Unwatched(Exec(Start(chain, recorded), before))
  {
    if before != [] {
      var n := |before| - 1;
      assert before == before[..n] + [before[n]];
      ExecConcat(Start(chain, recorded), before[..n], [before[n]]);
      assert [before[n]][1..] == [];
    }
  }

  lemma {:induction false} ExecConcat(w: World, a: seq<Action>, b: seq<Action>)
    ensures Exec(w, a + b) == Exec(Exec(w, a), b)
    ensures PossibleRun(w, a + b) ==> PossibleRun(Exec(w, a), b)
    decreases |a|
  {
    if a == [] {
      assert a + b == b;
    } else {
      ExecConcat(Next(w, a[0]), a[1..], b);
      assert (a + b)[1..] == a[1..] + b;
    }
  }

  /** The same for one address, from before anybody looked at it. */
  lemma UnannouncedSince(w0: World, run: seq<Action>, p: Payment)
    requires Unwatched(w0) && PossibleRun(w0, run) && SameAddress(run)
    requires Exposed(Exec(w0, run), p)
    ensures Times(Exec(w0, run).posts, p) == Times(w0.posts, p) <==> p in Exec(w0, run).late
  {
    var clean := w0.(posts := []);
    assert w0.posts + [] == w0.posts;
    RunOnlyAdds(clean, w0.posts, run);
    var w := Exec(clean, run);
    TimesConcat(w0.posts, w.posts, p);
    RunKeepsLate(clean, run, p);
    RunKeepsAccounts(clean, run);
    assert Accounted(w, p);
  }

  /** On the chain once, after the baseline, at or before the mark, and in no settlement. */
  predicate Exposed(w: World, p: Payment) {
    && p in w.chain && multiset(w.chain)[p] == 1 && PastMark(w, p)
    && w.baseline.Some? && w.baseline.value < p.at && !AlreadyRecorded(p, w.recorded)
  }

  /**
   In any run, whose last change of address ends `before`: of the payments to that address after the
   baseline and at or before the mark that no settlement has recorded, exactly those that reached
   the chain behind the mark of the moment have never been announced since the address was set.
   */
  lemma UnannouncedIffLate(chain: seq<Payment>, recorded: set<string>, before: seq<Action>, run: seq<Action>,
                           p: Payment)
    requires PossibleRun(Start(chain, recorded), before + run) && SameAddress(run)
    requires before == [] || before[|before| - 1].ChangeAddress?
    requires Exposed(Exec(Start(chain, recorded), before + run), p)
    ensures var was, w := Exec(Start(chain, recorded), before), Exec(Start(chain, recorded), before + run);
            Times(w.posts, p) == Times(was.posts, p) <==> p in w.late
  {
    ExecConcat(Start(chain, recorded), before, run);
    UnwatchedAfter(chain, recorded, before);
    UnannouncedSince(Exec(Start(chain, recorded), before), run, p);
  }

  function Watching(chain: seq<Payment>, mark: Time, posts: seq<Proposal>, late: set<Payment>): World {
    World(Some(mark), posts, chain, {}, Some(100), late, 0, 0)
  }

  /** The watching begins at 100; a payment of 200 is announced; one of 150 reaches the chain after that. */
  function LateRun(early: Payment, behind: Payment): seq<Action> {
    [RunPass(true, [], [], 100, 0), Arrive(early), RunPass(true, [early], [], 210, 1)] + AfterIt(early, behind)
  }

  function AfterIt(early: Payment, behind: Payment): seq<Action> {
    [Arrive(behind), RunPass(true, [early, behind], [], 220, 9)]
  }

  lemma EarlyIsAnnounced(early: Payment, behind: Payment) returns (posts: seq<Proposal>)
    requires early.at == 200 && behind.at == 150
    ensures Next(Watching([early], 100, [], {}), RunPass(true, [early], [], 210, 1))
            == Watching([early], 200, posts, {})
    ensures Times(posts, early) == 1 && Times(posts, behind) == 0
  {
    var w := Watching([early], 100, [], {});
    var c := Conditions(true, [early], {}, [], 210, 1);
    FreshOne(early);
    SortedKeeps([early], ArrivedAt);
    posts := Poll(w.mark, [], c).posts;
    ProposalsAreOf(Sorted([early], ArrivedAt), CandidatesOf([]));
    assert |Proposals(Sorted([early], ArrivedAt), CandidatesOf([]), None)|
           == |PaymentsOf(Proposals(Sorted([early], ArrivedAt), CandidatesOf([]), None))| == 1;
    PassAnnounces(w.mark, [], c, early);
    PassAnnounces(w.mark, [], c, behind);
  }

  lemma NothingNew(w: World, early: Payment, behind: Payment)
    requires early.at == 200 && behind.at == 150 && w.mark == Some(200) && w.baseline.Some? && w.recorded == {}
    ensures Next(w, RunPass(true, [early, behind], [], 220, 9)) == w
  {
    FreshNone(early, behind);
  }

  lemma FreshOne(p: Payment)
    requires p.at == 200
    ensures Fresh([p], {}, 100) == [p] && Latest([p]) == 200
  {
    assert [p][..0] == [];
  }

  lemma FreshNone(p: Payment, q: Payment)
    requires p.at == 200 && q.at == 150
    ensures Fresh([p, q], {}, 200) == []
  {
    assert [p, q][..1] == [p] && [p][..0] == [];
    assert Fresh([p], {}, 200) == [];
  }

  lemma RunStep(w: World, a: Action, rest: seq<Action>, w': World, run: seq<Action>)
    requires Possible(w, a) && Next(w, a) == w' && run == [a] + rest
    ensures PossibleRun(w, run) <==> PossibleRun(w', rest)
    ensures Exec(w, run) == Exec(w', rest)
  {
    assert run[1..] == rest;
  }

  lemma UntilAnnounced(early: Payment, behind: Payment, posts: seq<Proposal>)
    requires early.at == 200
    requires Next(Watching([early], 100, [], {}), RunPass(true, [early], [], 210, 1))
             == Watching([early], 200, posts, {})
    ensures var w := Watching([early], 200, posts, {});
            && (PossibleRun(Start([], {}), LateRun(early, behind)) <==> PossibleRun(w, AfterIt(early, behind)))
            && Exec(Start([], {}), LateRun(early, behind)) == Exec(w, AfterIt(early, behind))
  {
    var a, b, c := RunPass(true, [], [], 100, 0), Arrive(early), RunPass(true, [early], [], 210, 1);
    var rest := AfterIt(early, behind);
    WatchingBegins();
    RunStep(Start([], {}), a, [b, c] + rest, Watching([], 100, [], {}), LateRun(early, behind));
    PaymentArrives(early);
    RunStep(Watching([], 100, [], {}), b, [c] + rest, Watching([early], 100, [], {}), [b, c] + rest);
    RunStep(Watching([early], 100, [], {}), c, rest, Watching([early], 200, posts, {}), [c] + rest);
  }

  lemma WatchingBegins()
    ensures var a := RunPass(true, [], [], 100, 0);
            Possible(Start([], {}), a) && Next(Start([], {}), a) == Watching([], 100, [], {})
  {
  }

  lemma PaymentArrives(early: Payment)
    requires early.at == 200
    ensures Next(Watching([], 100, [], {}), Arrive(early)) == Watching([early], 100, [], {})
  {
  }

  lemma AfterAnnounced(early: Payment, behind: Payment, posts: seq<Proposal>)
    requires early.at == 200 && behind.at == 150
    ensures var w := Watching([early], 200, posts, {});
            && PossibleRun(w, AfterIt(early, behind))
            && Exec(w, AfterIt(early, behind)) == Watching([early, behind], 200, posts, {behind})
  {
    var run := AfterIt(early, behind);
    var w, w' := Watching([early], 200, posts, {}), Watching([early, behind], 200, posts, {behind});
    assert [early] + [behind] == [early, behind];
    RunStep(w, run[0], run[1..], w', run);
    NothingNew(w', early, behind);
    RunStep(w', run[1], [], w', run[1..]);
  }

  /** It is never announced, although it is past the baseline, nothing has failed and no settlement knows it. */
  lemma LatePaymentIsMissed(early: Payment, behind: Payment)
    requires early.at == 200 && behind.at == 150
    ensures PossibleRun(Start([], {}), LateRun(early, behind)) && SameAddress(LateRun(early, behind))
    ensures var w := Exec(Start([], {}), LateRun(early, behind));
            && w.mark == Some(200) && w.baseline == Some(100) && w.failures == 0
            && behind in w.chain && PastMark(w, behind) && !AlreadyRecorded(behind, w.recorded)
            && Times(w.posts, behind) == 0 && Times(w.posts, early) == 1
  {
    var posts := LateRunEnds(early, behind);
    LateRunIsOnOneAddress(early, behind);
    assert [early, behind][1] == behind;
  }

  lemma LateRunEnds(early: Payment, behind: Payment) returns (posts: seq<Proposal>)
    requires early.at == 200 && behind.at == 150
    ensures PossibleRun(Start([], {}), LateRun(early, behind))
    ensures Exec(Start([], {}), LateRun(early, behind)) == Watching([early, behind], 200, posts, {behind})
    ensures Times(posts, early) == 1 && Times(posts, behind) == 0
  {
    posts := EarlyIsAnnounced(early, behind);
    UntilAnnounced(early, behind, posts);
    AfterAnnounced(early, behind, posts);
  }

  lemma LateRunIsOnOneAddress(early: Payment, behind: Payment)
    ensures SameAddress(LateRun(early, behind))
  {
  }
}
