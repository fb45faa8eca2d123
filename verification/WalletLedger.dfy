/**
 The watcher and the payment ledger together (app/services/wallet_watch.py:47-58,
 app/domain/fx.py:149-168, app/domain/settlement.py:189-201, 471-511): which of the
 payments the desk has settled itself the watcher takes for settled.
 */
module WalletLedger {
  import opened Prelude
  import opened Text
  import opened FxOrders
  import opened FxSteps
  import opened Ledger
  import opened LedgerRuns
  import opened Wallet
  import opened WalletWatch

  /** What the watcher looks hashes up in. */
  function RecordedIn(b: Books): set<string> {
    set s | s in b.settlements && s.txHash.Some? :: s.txHash.value
  }

  function AsSet(hash: Option<string>): set<string> {
    if hash.Some? then {hash.value} else {}
  }

  /** The hash that an action puts on record, if it succeeds: a payment's, or a late proof's. */
  function EnteredBy(b: Books, t: Timed): set<string>
    requires Doable(b, t)
  {
    match t.action
    case PayFor(lines, txHash, amount, known) =>
      if Pay(b, lines, txHash, amount, known, t.now).1 == None then AsSet(CleanHash(txHash)) else {}
    case Prove(settlement, proof) =>
      if AttachHash(b, settlement, proof, t.now).1 == None then AsSet(CheckHash(proof)) else {}
    case _ => {}
  }

  /** The hashes a run of the desk has entered. */
  function Entered(b: Books, run: seq<Timed>): set<string>
    requires Possible(b, run)
    decreases |run|
  {
    if run == [] then {} else EnteredBy(b, run[0]) + Entered(Next(b, run[0]), run[1..])
  }

  /** They are kept as they were typed, but for the space around them: in whatever case. */
  lemma KeptAsTyped(b: Books, t: Timed, hash: string)
    requires Doable(b, t) && hash in EnteredBy(b, t)
    ensures match t.action
            case PayFor(_, txHash, _, _) => txHash.Some? && hash == Strip(txHash.value)
            case Prove(_, proof) => hash == Strip(proof)
            case _ => false
  {
  }

  lemma RecordedOneMore(settlements: seq<Settlement>, s: Settlement)
    ensures (set x | x in settlements + [s] && x.txHash.Some? :: x.txHash.value)
         == (set x | x in settlements && x.txHash.Some? :: x.txHash.value) + AsSet(s.txHash)
  {
  }

  lemma RecordedAt(settlements: seq<Settlement>, i: nat, hash: string)
    requires i < |settlements| && settlements[i].txHash == None
    ensures (set x | x in settlements[i := settlements[i].(txHash := Some(hash))] && x.txHash.Some? :: x.txHash.value)
         == (set x | x in settlements && x.txHash.Some? :: x.txHash.value) + {hash}
  {
    var settlements' := settlements[i := settlements[i].(txHash := Some(hash))];
    assert settlements'[i] in settlements' && settlements'[i].txHash.value == hash;
    forall x | x in settlements && x.txHash.Some? ensures x in settlements' {
      var k :| 0 <= k < |settlements| && settlements[k] == x;
      assert settlements'[k] == x;
    }
  }

  lemma ActionRecords(b: Books, t: Timed)
    requires PaymentsOk(b) && Doable(b, t)
    ensures RecordedIn(Next(b, t)) == RecordedIn(b) + EnteredBy(b, t)
  {
    match t.action
    case PayFor(lines, txHash, amount, known) =>
      PayIsAllOrNothing(b, lines, txHash, amount, known, t.now);
      RecordedOneMore(b.settlements,
                      Settlement(FIRST_REFERENCE + |b.settlements|, CleanHash(txHash), amount, t.now));
    case Prove(settlement, proof) =>
      AttachReachesEveryOrder(b, settlement, proof, t.now);
      if AttachHash(b, settlement, proof, t.now).1 == None {
        RecordedAt(b.settlements, settlement, CheckHash(proof).value);
      }
    case _ =>
  }

  lemma {:induction false} RunRecords(b: Books, run: seq<Timed>)
    requires BooksOk(b) && Possible(b, run)
    ensures RecordedIn(Exec(b, run)) == RecordedIn(b) + Entered(b, run)
    decreases |run|
  {
    if run != [] {
      ActionRecords(b, run[0]);
      RunKeepsBooks(b, [run[0]]);
      assert [run[0]][1..] == [];
      assert Exec(b, [run[0]]) == Next(b, run[0]);
      RunRecords(Next(b, run[0]), run[1..]);
    }
  }

  /** The same transaction, however it is written. */
  predicate SameHash(hash: string, p: Payment) {
    Lower(hash) == Lower(p.txHash)
  }

  /** The desk has entered this payment's hash, and typed it in lower case. */
  ghost predicate EnteredInLowerCase(run: seq<Timed>, p: Payment)
    requires Possible(EMPTY, run)
  {
    exists hash :: hash in Entered(EMPTY, run) && SameHash(hash, p) && hash == Lower(hash)
  }

  /**
   After any run of the desk a payment is taken for settled, if and only if some payment or late
   proof that went through gave its hash, typed in lower case. One that was typed as it
   stands on an explorer in capitals, or put on a deal by itself, is not.
   */
  lemma TakenForSettledIff(run: seq<Timed>, p: Payment)
    requires Possible(EMPTY, run)
    ensures AlreadyRecorded(p, RecordedIn(Exec(EMPTY, run))) <==> EnteredInLowerCase(run, p)
  {
    RunRecords(EMPTY, run);
    LowerTwice(p.txHash);
    if AlreadyRecorded(p, RecordedIn(Exec(EMPTY, run))) {
      assert Lower(p.txHash) in Entered(EMPTY, run);
      assert SameHash(Lower(p.txHash), p);
    }
  }

  lemma LowerTwice(s: string)
    ensures Lower(Lower(s)) == Lower(s)
  {
  }

  /** So a pass that ends well tells the desk of it, if and only if they have not entered it so. */
  lemma AnnouncedUnlessEntered(run: seq<Timed>, p: Payment, mark: Time, posts: seq<Proposal>, c: Conditions)
    requires Possible(EMPTY, run) && c.recorded == RecordedIn(Exec(EMPTY, run))
    requires c.watching && Distinct(c.answer) && p in c.answer && mark < p.at
    requires Poll(Some(mark), posts, c).announced.Some?
    ensures Times(Poll(Some(mark), posts, c).posts, p)
         == Times(posts, p) + if EnteredInLowerCase(run, p) then 0 else 1
  {
    TakenForSettledIff(run, p);
    PassAnnounces(Some(mark), posts, c, p);
  }

  // ---- a settlement the watcher does not see ------------------------------------------------

  const TYPED := "ABCDEF0123456789"

  const ON_CHAIN := "abcdef0123456789"

  lemma TypedIs()
    ensures CleanHash(Some(TYPED)) == Some(TYPED) && Lower(TYPED) == ON_CHAIN == Lower(ON_CHAIN) != TYPED
  {
    StripOfTight(TYPED);
    assert Lower(TYPED)[0] == 'a' && TYPED[0] == 'A';
  }

  lemma SettlesInCapitals(b: Books, lines: seq<Line>, amount: Option<Money>, known: set<string>, at: Time)
    requires PaymentsOk(b) && RecordedIn(b) == {} && PaymentAccepted(b, lines, Some(TYPED), known)
    ensures var b' := Pay(b, lines, Some(TYPED), amount, known, at).0;
            RecordedIn(b') == {TYPED} && exists s :: s in b'.settlements && s.txHash == Some(TYPED)
  {
    TypedIs();
    PayIsAllOrNothing(b, lines, Some(TYPED), amount, known, at);
    var s := Settlement(FIRST_REFERENCE + |b.settlements|, Some(TYPED), amount, at);
    RecordedOneMore(b.settlements, s);
    assert s in b.settlements + [s];
  }

  /**
   However the deals came to be awaiting it: a payment settled under its hash in capitals,
   when no settlement has a hash yet, is announced none the less by the next good pass.
   */
  lemma SettledInCapitalsIsAnnounced(b: Books, lines: seq<Line>, amount: Option<Money>, known: set<string>, at: Time,
                                     p: Payment, mark: Time, posts: seq<Proposal>, c: Conditions)
    requires PaymentsOk(b) && RecordedIn(b) == {} && PaymentAccepted(b, lines, Some(TYPED), known)
    requires c.recorded == RecordedIn(Pay(b, lines, Some(TYPED), amount, known, at).0)
    requires p.txHash == ON_CHAIN && c.watching && Distinct(c.answer) && p in c.answer && mark < p.at
    requires Poll(Some(mark), posts, c).announced.Some?
    ensures SameHash(TYPED, p)
    ensures exists s :: s in Pay(b, lines, Some(TYPED), amount, known, at).0.settlements && s.txHash == Some(TYPED)
    ensures Times(Poll(Some(mark), posts, c).posts, p) == Times(posts, p) + 1
  {
    TypedIs();
    SettlesInCapitals(b, lines, amount, known, at);
    assert !AlreadyRecorded(p, {TYPED});
    PassAnnounces(Some(mark), posts, c, p);
  }
}
