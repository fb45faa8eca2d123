/**
 The outstanding book (app/domain/fx.py:906-924, 1016-1084): every open deal once,
 the longest-waiting first, with the moment it last moved read off the event log.
 */
module FxBook {
  import opened Prelude
  import opened FxOrders
  import opened FxSteps
  import opened Ledger
  import opened LedgerRuns
  import opened Sorting

  // ---- reading the log ------------------------------------------------------------

  /** The latest event under each reference string, among these requests' events. */
  function Latest(log: seq<Event>, items: set<nat>): map<string, Time> {
    if log == [] then map[]
    else
      var before := Latest(log[..|log| - 1], items);
      var e := log[|log| - 1];
      if e.workItem in items && (e.fxReference in before ==> e.at > before[e.fxReference])
      then before[e.fxReference := e.at] else before
  }

  /** `_last_movement` */
  method LastMovement(log: seq<Event>, items: set<nat>) returns (latest: map<string, Time>)
    ensures latest == Latest(log, items)
  {
    latest := map[];
    var i := 0;
    while i < |log|
      invariant 0 <= i <= |log|
      invariant latest == Latest(log[..i], items)
    {
      assert log[..i + 1][..i] == log[..i];
      var e := log[i];
      if e.workItem in items {
        var known := if e.fxReference in latest then latest[e.fxReference] else e.at - 1;
        if e.at > known {
          latest := latest[e.fxReference := e.at];
        }
      }
      i := i + 1;
    }
    assert log[..i] == log;
  }

  ghost predicate InTime(log: seq<Event>, clock: Time) {
    && (forall i, j :: 0 <= i < j < |log| ==> log[i].at <= log[j].at)
    && (forall i :: 0 <= i < |log| ==> log[i].at <= clock)
  }

  lemma {:induction false} LatestIsSomeEvent(log: seq<Event>, items: set<nat>, reference: string)
    requires reference in Latest(log, items)
    ensures exists i :: 0 <= i < |log| && log[i].at == Latest(log, items)[reference]
  {
    var n := |log| - 1;
    if log[n].fxReference == reference && log[n].at == Latest(log, items)[reference] {
    } else {
      LatestIsSomeEvent(log[..n], items, reference);
      var i :| 0 <= i < n && log[..n][i].at == Latest(log[..n], items)[reference];
      assert log[i].at == Latest(log, items)[reference];
    }
  }

  /** On a log in order of time, the latest event under a reference is the last one under it. */
  lemma {:induction false} LatestIsLast(log: seq<Event>, items: set<nat>, clock: Time, k: nat)
    requires InTime(log, clock) && k < |log| && log[k].workItem in items
    requires forall j :: k < j < |log| ==> log[j].fxReference != log[k].fxReference
    ensures log[k].fxReference in Latest(log, items) && Latest(log, items)[log[k].fxReference] == log[k].at
    decreases |log|
  {
    var n := |log| - 1;
    var before := Latest(log[..n], items);
    if k < n {
      LatestIsLast(log[..n], items, clock, k);
    } else if log[k].fxReference in before {
      LatestIsSomeEvent(log[..n], items, log[k].fxReference);
      var i :| 0 <= i < n && log[..n][i].at == before[log[k].fxReference];
      assert log[i].at <= log[k].at;
    }
  }

  // ---- the book ----------------------------------------------------------------------

  datatype Entry = Entry(order: Order, waitingSince: Time)

  function WaitingSince(e: Entry): int {
    e.waitingSince
  }

  /** `open_orders`: those below `limit`, by reference. */
  function OpenOrders(orders: map<nat, Order>, limit: nat): (os: seq<Order>)
    ensures forall o :: o in os ==> exists r :: 0 <= r < limit && r in orders && orders[r] == o && o.status != Closed
  {
    if limit == 0 then []
    else
      var before := OpenOrders(orders, limit - 1);
      if limit - 1 in orders && orders[limit - 1].status != Closed then before + [orders[limit - 1]] else before
  }

  function RequestsOf(orders: seq<Order>): set<nat> {
    set o | o in orders :: o.clientWorkItem
  }

  /** The log, or else the request it hangs off, or else now. */
  function Since(o: Order, latest: map<string, Time>, raised: map<nat, Time>, now: Time): Time {
    if DisplayReference(o) in latest then latest[DisplayReference(o)]
    else if o.clientWorkItem in raised then raised[o.clientWorkItem] else now
  }

  function Entries(orders: seq<Order>, latest: map<string, Time>, raised: map<nat, Time>, now: Time): seq<Entry> {
    seq(|orders|, i requires 0 <= i < |orders| => Entry(orders[i], Since(orders[i], latest, raised, now)))
  }

  function OutstandingBook(b: Books, raised: map<nat, Time>, now: Time): seq<Entry> {
    var orders := OpenOrders(b.orders, b.nextReference);
    Sorted(Entries(orders, Latest(b.log, RequestsOf(orders)), raised, now), WaitingSince)
  }

  /** `outstanding_book` */
  method BuildBook(b: Books, raised: map<nat, Time>, now: Time) returns (book: seq<Entry>)
    ensures book == OutstandingBook(b, raised, now)
  {
    var orders := OpenOrders(b.orders, b.nextReference);
    if orders == [] {
      return [];
    }
    var moved := LastMovement(b.log, RequestsOf(orders));
    var entries := [];
    var i := 0;
    while i < |orders|
      invariant 0 <= i <= |orders|
      invariant entries == Entries(orders[..i], moved, raised, now)
    {
      entries := entries + [Entry(orders[i], Since(orders[i], moved, raised, now))];
      i := i + 1;
    }
    assert orders[..i] == orders;
    book := Sorted(entries, WaitingSince);
  }

  // ---- what every run keeps: the last word on a deal is under its present name ------------

  ghost predicate LastAbout(log: seq<Event>, k: nat, reference: nat) {
    && k < |log| && ParseFxReference(log[k].fxReference) == Some(reference)
    && forall j :: k < j < |log| ==> ParseFxReference(log[j].fxReference) != Some(reference)
  }

  ghost predicate LastWordOn(o: Order, log: seq<Event>, k: nat) {
    LastAbout(log, k, o.reference) && log[k].fxReference == DisplayReference(o) && log[k].workItem == o.clientWorkItem
  }

  ghost predicate Traced(o: Order, log: seq<Event>) {
    exists k: nat :: LastWordOn(o, log, k)
  }

  ghost predicate BookOk(b: Books) {
    && InTime(b.log, b.clock)
    && forall r :: r in b.orders ==>
         FIRST_REFERENCE <= r < b.nextReference && b.orders[r].reference == r && Traced(b.orders[r], b.log)
  }

  /** One more event, about an order under its present name. */
  lemma TracedOneMore(o: Order, log: seq<Event>, e: Event, changed: Order)
    requires 100 <= changed.reference && e.fxReference == DisplayReference(changed)
             && e.workItem == changed.clientWorkItem
    requires o == changed || (o.reference != changed.reference && Traced(o, log))
    ensures Traced(o, log + [e])
  {
    var log' := log + [e];
    ParseInvertsReferences(changed);
    if o == changed {
      assert LastWordOn(o, log', |log|);
    } else {
      var k :| LastWordOn(o, log, k);
      assert LastWordOn(o, log', k);
    }
  }

  lemma InTimeOneMore(log: seq<Event>, clock: Time, e: Event)
    requires InTime(log, clock) && clock <= e.at
    ensures InTime(log + [e], e.at)
  {
  }

  lemma PutKeepsBook(b: Books, b': Books, o': Order, e: Event)
    requires BookOk(b) && b.clock <= e.at
    requires FIRST_REFERENCE <= o'.reference < b'.nextReference && b.nextReference <= b'.nextReference
    requires e.fxReference == DisplayReference(o') && e.workItem == o'.clientWorkItem
    requires b'.orders == b.orders[o'.reference := o'] && b'.log == b.log + [e] && b'.clock == e.at
    ensures BookOk(b')
  {
    InTimeOneMore(b.log, b.clock, e);
    forall r | r in b'.orders
      ensures FIRST_REFERENCE <= r < b'.nextReference && b'.orders[r].reference == r && Traced(b'.orders[r], b'.log)
    {
      TracedOneMore(b'.orders[r], b.log, e, o');
    }
  }

  lemma StepKeepsBook(b: Books, reference: nat, step: Step, entitled: bool, now: Time)
    requires BookOk(b) && reference in b.orders && b.clock <= now
    ensures var b' := StepOrder(b, reference, step, entitled, now);
            BookOk(b') && b'.clock <= now && b'.orders.Keys == b.orders.Keys && b'.allocations == b.allocations
              && b'.settlements == b.settlements
  {
    var o', e := StepOrderShape(b, reference, step, entitled, now);
    var b' := StepOrder(b, reference, step, entitled, now);
    if b' != b {
      PutKeepsBook(b, b', o', e);
    }
  }

  /** Only the orders, the log and the clock matter here. */
  lemma BookIgnoresTheRest(b: Books, b': Books)
    requires BookOk(b) && b'.orders == b.orders && b'.log == b.log && b'.nextReference == b.nextReference
             && b.clock <= b'.clock
    ensures BookOk(b')
  {
  }

  lemma {:induction false} SettleLinesKeepsBook(b: Books, lines: seq<Line>, settlement: nat, hash: Option<string>,
                                                now: Time)
    requires BookOk(b) && b.clock <= now && Priced(lines)
    ensures var b' := SettleLines(b, lines, settlement, hash, now); BookOk(b') && b'.clock <= now
    decreases |lines|
  {
    if lines != [] {
      var n := |lines| - 1;
      SettleLinesKeepsBook(b, lines[..n], settlement, hash, now);
      var before, line := SettleLines(b, lines[..n], settlement, hash, now), lines[n];
      if line.order in before.orders {
        StepKeepsBook(before, line.order, Settle(hash, settlement), true, now);
        BookIgnoresTheRest(StepOrder(before, line.order, Settle(hash, settlement), true, now),
                           SettleLines(b, lines, settlement, hash, now));
      }
    }
  }

  lemma {:induction false} AttachOverKeepsBook(b: Books, k: nat, settlement: nat, hash: string, now: Time)
    requires BookOk(b) && b.clock <= now && k <= |b.allocations|
    ensures var b' := AttachOver(b, k, settlement, hash, now); BookOk(b') && b'.clock <= now
  {
    if k > 0 {
      AttachOverKeepsBook(b, k - 1, settlement, hash, now);
      var before, a := AttachOver(b, k - 1, settlement, hash, now), b.allocations[k - 1];
      if a.settlement == settlement && a.order in before.orders {
        StepKeepsBook(before, a.order, AttachProof(hash, settlement), true, now);
      }
    }
  }

  lemma SettledKeepsBook(b: Books, lines: seq<Line>, hash: Option<string>, amount: Option<Money>, now: Time)
    requires BookOk(b) && b.clock <= now && Priced(lines)
    ensures BookOk(SettleLines(Booked(b, hash, amount, now), lines, |b.settlements|, hash, now))
  {
    BookIgnoresTheRest(b, Booked(b, hash, amount, now));
    SettleLinesKeepsBook(Booked(b, hash, amount, now), lines, |b.settlements|, hash, now);
  }

  lemma PayKeepsBook(b: Books, lines: seq<Line>, txHash: Option<string>, amount: Option<Money>, known: set<string>,
                     now: Time)
    requires BookOk(b) && b.clock <= now && forall line :: line in lines ==> line.order in b.orders
    ensures BookOk(Pay(b, lines, txHash, amount, known, now).0)
  {
    PayIs(b, lines, txHash, amount, known, now);
    if Pay(b, lines, txHash, amount, known, now).1 == None {
      SettledKeepsBook(b, lines, CleanHash(txHash), amount, now);
    }
  }

  lemma ProveKeepsBook(b: Books, settlement: nat, txHash: string, now: Time)
    requires BookOk(b) && b.clock <= now && settlement < |b.settlements|
    ensures BookOk(AttachHash(b, settlement, txHash, now).0)
  {
    if AttachHash(b, settlement, txHash, now).1 == None {
      var hash := CheckHash(txHash).value;
      var b0 := b.(settlements := b.settlements[settlement := b.settlements[settlement].(txHash := Some(hash))],
                   clock := now);
      BookIgnoresTheRest(b, b0);
      AttachOverKeepsBook(b0, |b0.allocations|, settlement, hash, now);
    }
  }

  lemma ActionKeepsBook(b: Books, t: Timed)
    requires BookOk(b) && Doable(b, t) && FIRST_REFERENCE <= b.nextReference
    ensures BookOk(Next(b, t))
  {
    match t.action
    case Open(clientId, code, name, workItem) =>
      var b' := Next(b, t);
      var o := b'.orders[b.nextReference];
      PutKeepsBook(b, b', o, Event(workItem, DisplayReference(o), t.now, Requested));
    case Deal(reference, step, entitled) => StepKeepsBook(b, reference, step, entitled, t.now);
    case PayFor(lines, txHash, amount, known) => PayKeepsBook(b, lines, txHash, amount, known, t.now);
    case Prove(settlement, proof) => ProveKeepsBook(b, settlement, proof, t.now);
  }

  lemma {:induction false} RunKeepsBook(b: Books, run: seq<Timed>)
    requires BookOk(b) && BooksOk(b) && Possible(b, run)
    ensures BookOk(Exec(b, run))
    decreases |run|
  {
    if run != [] {
      ActionKeepsBook(b, run[0]);
      ActionKeepsDeals(b, run[0]);
      ActionKeepsLedger(b, run[0]);
      RunKeepsBook(Next(b, run[0]), run[1..]);
    }
  }

  // ---- the book is right ----------------------------------------------------------------------

  lemma {:induction false} OpenOrdersIs(orders: map<nat, Order>, limit: nat)
    requires forall r :: r in orders ==> orders[r].reference == r
    ensures forall i, j :: 0 <= i < j < |OpenOrders(orders, limit)| ==>
            OpenOrders(orders, limit)[i].reference < OpenOrders(orders, limit)[j].reference
    ensures forall r :: r in orders && r < limit && orders[r].status != Closed ==>
            orders[r] in OpenOrders(orders, limit)
    ensures forall o :: o in OpenOrders(orders, limit) ==>
            o.reference < limit && o.reference in orders && orders[o.reference] == o && o.status != Closed
  {
    if limit > 0 {
      OpenOrdersIs(orders, limit - 1);
      var before := OpenOrders(orders, limit - 1);
      assert forall k :: 0 <= k < |before| ==> before[k] in before;
    }
  }

  lemma SinceIsLastEvent(b: Books, orders: seq<Order>, o: Order, k: nat, raised: map<nat, Time>, now: Time)
    requires InTime(b.log, b.clock) && o in orders && LastWordOn(o, b.log, k) && 100 <= o.reference
    ensures Since(o, Latest(b.log, RequestsOf(orders)), raised, now) == b.log[k].at
  {
    ParseInvertsReferences(o);
    LatestIsLast(b.log, RequestsOf(orders), b.clock, k);
  }

  /** The order of an entry is open, and has waited since the last thing that happened to it. */
  ghost predicate WaitsSinceItsLastEvent(b: Books, e: Entry) {
    var r := e.order.reference;
    && r in b.orders && b.orders[r] == e.order && e.order.status != Closed
    && exists k: nat :: LastAbout(b.log, k, r) && e.waitingSince == b.log[k].at
  }

  lemma EntryWaits(b: Books, orders: seq<Order>, o: Order, raised: map<nat, Time>, now: Time)
    requires BookOk(b) && o in orders && o.reference in b.orders && b.orders[o.reference] == o && o.status != Closed
    ensures WaitsSinceItsLastEvent(b, Entry(o, Since(o, Latest(b.log, RequestsOf(orders)), raised, now)))
  {
    assert Traced(b.orders[o.reference], b.log);
    var k :| LastWordOn(o, b.log, k);
    SinceIsLastEvent(b, orders, o, k, raised, now);
  }

  ghost predicate OncePerOpenDeal(b: Books, book: seq<Entry>) {
    && (forall i, j :: 0 <= i < j < |book| ==> book[i].order.reference != book[j].order.reference)
    && (forall r :: r in b.orders && b.orders[r].status != Closed ==>
        exists i :: 0 <= i < |book| && book[i].order == b.orders[r])
  }

  lemma UnsortedWaits(b: Books, raised: map<nat, Time>, now: Time)
    requires BookOk(b)
    ensures var orders := OpenOrders(b.orders, b.nextReference);
            forall e :: e in Entries(orders, Latest(b.log, RequestsOf(orders)), raised, now) ==>
                   WaitsSinceItsLastEvent(b, e)
  {
    var orders := OpenOrders(b.orders, b.nextReference);
    var entries := Entries(orders, Latest(b.log, RequestsOf(orders)), raised, now);
    OpenOrdersIs(b.orders, b.nextReference);
    forall i | 0 <= i < |entries| ensures WaitsSinceItsLastEvent(b, entries[i]) {
      assert orders[i] in orders;
      EntryWaits(b, orders, orders[i], raised, now);
    }
  }

  lemma UnsortedOnce(b: Books, latest: map<string, Time>, raised: map<nat, Time>, now: Time)
    requires BookOk(b)
    ensures var entries := Entries(OpenOrders(b.orders, b.nextReference), latest, raised, now);
            Distinct(entries) && OncePerOpenDeal(b, entries)
  {
    var orders := OpenOrders(b.orders, b.nextReference);
    var entries := Entries(orders, latest, raised, now);
    OpenOrdersIs(b.orders, b.nextReference);
    assert forall i :: 0 <= i < |entries| ==> entries[i].order == orders[i];
    forall r | r in b.orders && b.orders[r].status != Closed
      ensures exists i :: 0 <= i < |entries| && entries[i].order == b.orders[r]
    {
      var i :| 0 <= i < |orders| && orders[i] == b.orders[r];
      assert entries[i].order == b.orders[r];
    }
  }

  lemma RearrangedBook(b: Books, entries: seq<Entry>, book: seq<Entry>)
    requires Distinct(entries) && OncePerOpenDeal(b, entries)
             && (forall e :: e in entries ==> WaitsSinceItsLastEvent(b, e))
    requires multiset(book) == multiset(entries)
    ensures OncePerOpenDeal(b, book) && forall e :: e in book ==> WaitsSinceItsLastEvent(b, e)
  {
    DistinctRearranged(entries, book);
    forall e | e in book ensures e in entries {
      assert e in multiset(book);
    }
    forall i, j | 0 <= i < j < |book| ensures book[i].order.reference != book[j].order.reference {
      assert book[i] in book && book[j] in book;
      var k :| 0 <= k < |entries| && entries[k] == book[i];
      var l :| 0 <= l < |entries| && entries[l] == book[j];
      assert k < l || l < k;
    }
    forall r | r in b.orders && b.orders[r].status != Closed
      ensures exists i :: 0 <= i < |book| && book[i].order == b.orders[r]
    {
      var k :| 0 <= k < |entries| && entries[k].order == b.orders[r];
      assert entries[k] in multiset(book);
      var i :| 0 <= i < |book| && book[i] == entries[k];
      assert book[i].order == b.orders[r];
    }
  }

  lemma BookIsRight(b: Books, raised: map<nat, Time>, now: Time)
    requires BookOk(b)
    ensures var book := OutstandingBook(b, raised, now);
            SortedBy(book, WaitingSince) && OncePerOpenDeal(b, book)
              && forall e :: e in book ==> WaitsSinceItsLastEvent(b, e)
  {
    var orders := OpenOrders(b.orders, b.nextReference);
    var entries := Entries(orders, Latest(b.log, RequestsOf(orders)), raised, now);
    UnsortedWaits(b, raised, now);
    UnsortedOnce(b, Latest(b.log, RequestsOf(orders)), raised, now);
    SortedKeeps(entries, WaitingSince);
    RearrangedBook(b, entries, OutstandingBook(b, raised, now));
  }

  /**
   After any run, the book lists every open deal exactly once and nothing else,
   longest-waiting first, and each deal has waited since its own last event - whatever
   name its supplier's code has given it meanwhile.
   */
  lemma BookListsEveryOpenDeal(run: seq<Timed>, raised: map<nat, Time>, now: Time)
    requires Possible(EMPTY, run)
    ensures var b := Exec(EMPTY, run);
            var book := OutstandingBook(b, raised, now);
            && SortedBy(book, WaitingSince)
            && (forall i, j :: 0 <= i < j < |book| ==> book[i].order.reference != book[j].order.reference)
            && (forall r :: r in b.orders && b.orders[r].status != Closed ==>
                exists i :: 0 <= i < |book| && book[i].order == b.orders[r])
            && (forall e :: e in book ==> WaitsSinceItsLastEvent(b, e))
  {
    RunKeepsBook(EMPTY, run);
    BookIsRight(Exec(EMPTY, run), raised, now);
  }
}
