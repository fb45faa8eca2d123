/** What one sweep after another does to the backlog of closed tickets (app/services/archive.py:100-143, 279-299). */
module ArchiveSweeps {
  import opened Prelude
  import opened Sorting
  import opened Archive
  import WorkItems

  // ---- with failures: archived whole, or untouched ----------------------------------------

  /** Copied whole into the archive; the original may still have to go. */
  ghost predicate NowArchived(before: Ticket, after: Ticket, conversation: seq<nat>, log: seq<Call>, now: Time) {
    && after.row == before.row && after.archivedAt == Some(now) && after.archiveTopic.Some?
    && (after.topic == before.topic || after.topic == None)
    && exists k :: 0 <= k <= |log| && EndsWith(log[..k], WholeCopy(conversation, after.archiveTopic.value))
  }

  predicate EndsWith(s: seq<Call>, tail: seq<Call>) {
    |tail| <= |s| && s[|s| - |tail|..] == tail
  }

  lemma ArchivedInLog(before: Ticket, after: Ticket, conversation: seq<nat>, log: seq<Call>, log': seq<Call>, now: Time)
    requires NowArchived(before, after, conversation, log, now) && log <= log'
    ensures NowArchived(before, after, conversation, log', now)
  {
    var k :| 0 <= k <= |log| && EndsWith(log[..k], WholeCopy(conversation, after.archiveTopic.value));
    assert log'[..k] == log[..k];
  }

  lemma ArchiveOneOutcome(ticket: Ticket, hasArchive: bool, conversation: seq<nat>, t: Telegram, fates: Fates,
                          now: Time)
    requires ticket.archivedAt == None
    ensures var one := ArchiveOne(ticket, hasArchive, conversation, t, fates, now);
            && t.log <= one.telegram.log
            && (one.ticket == ticket || NowArchived(ticket, one.ticket, conversation, one.telegram.log, now))
            && (one.moved == Some(true) ==> NowArchived(ticket, one.ticket, conversation, one.telegram.log, now))
  {
    ArchiveOneIs(ticket, hasArchive, conversation, t, fates, now);
    var one := ArchiveOne(ticket, hasArchive, conversation, t, fates, now);
    if one.ticket != ticket {
      var copy := WholeCopy(conversation, t.nextThread);
      var k := |t.log| + |copy|;
      assert one.telegram.log[..k] == t.log + copy;
      assert EndsWith(one.telegram.log[..k], copy);
    }
  }

  predicate DistinctIds(batch: seq<Entry>) {
    forall i, j :: 0 <= i < j < |batch| ==> batch[i].id != batch[j].id
  }

  predicate InBatch(batch: seq<Entry>, id: nat) {
    exists e :: e in batch && e.id == id
  }

  ghost predicate Swept1(before: Ticket, after: Ticket, inBatch: bool, conversation: seq<nat>, log: seq<Call>,
                         now: Time) {
    after == before || (inBatch && NowArchived(before, after, conversation, log, now))
  }

  /**
   A sweep leaves every ticket as it was, and so as due as it was, or - if it
   was in the batch - archived, with a whole copy of its conversation made.
   */
  lemma {:induction false} SweepOutcome(batch: seq<Entry>, tickets: seq<Ticket>, archives: set<nat>,
                                        messages: seq<Message>,
                                        t: Telegram, fates: Fates, now: Time)
    requires DistinctIds(batch) && forall e :: e in batch ==> e.id < |tickets| && tickets[e.id].archivedAt == None
    ensures var s := SweepOver(batch, tickets, archives, messages, t, fates, now);
            && t.log <= s.telegram.log
            && forall i :: 0 <= i < |tickets| ==>
                 Swept1(tickets[i], s.tickets[i], InBatch(batch, i), Conversation(messages, i), s.telegram.log, now)
    decreases |batch|
  {
    if batch != [] {
      var n := |batch| - 1;
      assert batch == batch[..n] + [batch[n]];
      SweepOutcome(batch[..n], tickets, archives, messages, t, fates, now);
      var before := SweepOver(batch[..n], tickets, archives, messages, t, fates, now);
      var id := batch[n].id;
      assert !InBatch(batch[..n], id);
      assert Swept1(tickets[id], before.tickets[id], InBatch(batch[..n], id), Conversation(messages, id),
                    before.telegram.log, now);
      var s := SweepOver(batch, tickets, archives, messages, t, fates, now);
      ArchiveOneOutcome(tickets[id], tickets[id].department in archives, Conversation(messages, id), before.telegram,
                        fates, now);
      forall i | 0 <= i < |tickets|
        ensures Swept1(tickets[i], s.tickets[i], InBatch(batch, i), Conversation(messages, i), s.telegram.log, now)
      {
        assert Swept1(tickets[i], before.tickets[i], InBatch(batch[..n], i), Conversation(messages, i),
                      before.telegram.log, now);
        if i == id {
          assert batch[n] in batch && InBatch(batch, id);
        } else if s.tickets[i] != tickets[i] {
          assert InBatch(batch, i);
          ArchivedInLog(tickets[i], s.tickets[i], Conversation(messages, i), before.telegram.log, s.telegram.log, now);
        }
      }
    }
  }

  // ---- without failures: the backlog drains, oldest first --------------------------------------

  ghost predicate NoFailures(fates: Fates) {
    forall n :: fates(n) == Works
  }

  lemma {:induction false} ForwardAllWorks(conversation: seq<nat>, thread: nat, t: Telegram, fates: Fates)
    requires NoFailures(fates)
    ensures ForwardAll(conversation, thread, t, fates).1
  {
    if conversation != [] {
      ForwardAllWorks(conversation[..|conversation| - 1], thread, t, fates);
    }
  }

  lemma ArchiveOneWorks(ticket: Ticket, conversation: seq<nat>, t: Telegram, fates: Fates, now: Time)
    requires NoFailures(fates)
    ensures var one := ArchiveOne(ticket, true, conversation, t, fates, now);
            one.moved == Some(true) && one.ticket.archivedAt == Some(now) && one.ticket.row == ticket.row
            && one.ticket.department == ticket.department
  {
    ForwardAllWorks(conversation, t.nextThread,
                    Attempt(Attempt(t, fates, CreateTopic(t.nextThread)).0, fates, Post(t.nextThread)).0, fates);
  }

  /** As far as being due goes, the batch is done and the rest is as it was. */
  ghost predicate BatchDone(batch: seq<Entry>, tickets: seq<Ticket>, tickets': seq<Ticket>) {
    && |tickets'| == |tickets|
    && forall i :: 0 <= i < |tickets| ==>
         if InBatch(batch, i)
         then tickets'[i].archivedAt.Some? && tickets'[i].row == tickets[i].row
           && tickets'[i].department == tickets[i].department
         else tickets'[i] == tickets[i]
  }

  lemma {:induction false} SweepWorks(batch: seq<Entry>, tickets: seq<Ticket>, archives: set<nat>,
                                      messages: seq<Message>,
                                      t: Telegram, fates: Fates, now: Time)
    requires NoFailures(fates) && forall e :: e in batch ==> e.id < |tickets| && tickets[e.id].department in archives
    ensures var s := SweepOver(batch, tickets, archives, messages, t, fates, now);
            s.moved == |batch| && BatchDone(batch, tickets, s.tickets)
    decreases |batch|
  {
    if batch != [] {
      var n := |batch| - 1;
      assert batch == batch[..n] + [batch[n]];
      assert batch[n] in batch;
      SweepWorks(batch[..n], tickets, archives, messages, t, fates, now);
      var before := SweepOver(batch[..n], tickets, archives, messages, t, fates, now);
      var id := batch[n].id;
      assert before.tickets[id].department == tickets[id].department;
      ArchiveOneWorks(before.tickets[id], Conversation(messages, id), before.telegram, fates, now);
      forall i | 0 <= i < |tickets| ensures InBatch(batch, i) <==> InBatch(batch[..n], i) || i == id {
        if InBatch(batch, i) {
          var e :| e in batch && e.id == i;
          assert e in batch[..n] || e == batch[n];
        }
      }
    }
  }

  function OutOf(batch: seq<Entry>): Entry -> bool {
    (e: Entry) => !InBatch(batch, e.id)
  }

  /** Entries whose ticket is not in the batch. */
  function Remaining(es: seq<Entry>, batch: seq<Entry>): seq<Entry> {
    Filter(es, OutOf(batch))
  }

  lemma StillDue(batch: seq<Entry>, tickets: seq<Ticket>, tickets': seq<Ticket>, archives: set<nat>, now: Time, i: nat)
    requires BatchDone(batch, tickets, tickets') && i < |tickets|
    ensures tickets'[i].row == tickets[i].row
    ensures IsDue(tickets'[i], archives, now) <==> IsDue(tickets[i], archives, now) && !InBatch(batch, i)
  {
  }

  lemma {:induction false} DueAfterBatch(batch: seq<Entry>, tickets: seq<Ticket>, tickets': seq<Ticket>,
                                         archives: set<nat>, now: Time, k: nat)
    requires BatchDone(batch, tickets, tickets') && k <= |tickets|
    ensures DueAmong(tickets', archives, now, k) == Remaining(DueAmong(tickets, archives, now, k), batch)
  {
    if k > 0 {
      DueAfterBatch(batch, tickets, tickets', archives, now, k - 1);
      StillDue(batch, tickets, tickets', archives, now, k - 1);
      var before := DueAmong(tickets, archives, now, k - 1);
      if IsDue(tickets[k - 1], archives, now) {
        var e := Entry(k - 1, tickets[k - 1].row.closedAt.value);
        FilterAppend(before, e, OutOf(batch));
        assert DueAmong(tickets, archives, now, k) == before + [e];
      } else {
        assert DueAmong(tickets, archives, now, k) == before;
      }
    }
  }

  lemma OutOfPrefix(es: seq<Entry>, n: nat, k: nat)
    requires DistinctIds(es) && n <= |es| && k < |es|
    ensures OutOf(es[..n])(es[k]) <==> k >= n
  {
    if k < n {
      assert es[k] in es[..n];
    }
  }

  lemma RemainingAfterPrefix(es: seq<Entry>, n: nat)
    requires DistinctIds(es) && n <= |es|
    ensures Remaining(es, es[..n]) == es[n..]
  {
    forall k | 0 <= k < |es| ensures OutOf(es[..n])(es[k]) <==> k >= n {
      OutOfPrefix(es, n, k);
    }
    FilterSuffix(es, OutOf(es[..n]), n);
  }

  lemma {:induction false} DueIdsDiffer(tickets: seq<Ticket>, archives: set<nat>, now: Time, k: nat)
    requires k <= |tickets|
    ensures Distinct(DueAmong(tickets, archives, now, k))
    ensures forall e :: e in DueAmong(tickets, archives, now, k) ==> tickets[e.id].row.closedAt == Some(e.closedAt)
  {
    if k > 0 {
      DueIdsDiffer(tickets, archives, now, k - 1);
      if IsDue(tickets[k - 1], archives, now) {
        DistinctSnoc(DueAmong(tickets, archives, now, k - 1), Entry(k - 1, tickets[k - 1].row.closedAt.value));
      }
    }
  }

  /** The backlog: oldest closure first, each ticket once. */
  lemma BacklogIsInOrder(tickets: seq<Ticket>, archives: set<nat>, now: Time)
    ensures var due := AllDue(tickets, archives, now);
            && DistinctIds(due) && SortedBy(due, ClosedWhen)
            && multiset(due) == multiset(DueAmong(tickets, archives, now, |tickets|))
  {
    var among := DueAmong(tickets, archives, now, |tickets|);
    var due := AllDue(tickets, archives, now);
    SortedKeeps(among, ClosedWhen);
    DueIdsDiffer(tickets, archives, now, |tickets|);
    DistinctRearranged(among, due);
    forall e | e in due ensures tickets[e.id].row.closedAt == Some(e.closedAt) {
      assert e in multiset(due);
    }
    forall i, j | 0 <= i < j < |due| ensures due[i].id != due[j].id {
      assert due[i] in due && due[j] in due;
    }
  }

  function AtMost(n: nat, limit: nat): nat {
    if n <= limit then n else limit
  }

  // ---- waiting longer only adds to the end of the backlog ------------------------------------

  function DueBy(now: Time): Entry -> bool {
    (e: Entry) => e.closedAt <= now - ARCHIVE_AFTER
  }

  lemma {:induction false} DueEarlier(tickets: seq<Ticket>, archives: set<nat>, now: Time, later: Time, k: nat)
    requires now <= later && k <= |tickets|
    ensures DueAmong(tickets, archives, now, k) == Filter(DueAmong(tickets, archives, later, k), DueBy(now))
  {
    if k > 0 {
      DueEarlier(tickets, archives, now, later, k - 1);
      if IsDue(tickets[k - 1], archives, later) {
        var e := Entry(k - 1, tickets[k - 1].row.closedAt.value);
        FilterAppend(DueAmong(tickets, archives, later, k - 1), e, DueBy(now));
      }
    }
  }

  lemma {:induction false} EarlyIsPrefix(es: seq<Entry>, now: Time)
    requires SortedBy(es, ClosedWhen)
    ensures Filter(es, DueBy(now)) <= es
  {
    if es != [] {
      var n := |es| - 1;
      EarlyIsPrefix(es[..n], now);
      if DueBy(now)(es[n]) {
        AllEarly(es[..n], now);
        assert es == es[..n] + [es[n]];
      }
    }
  }

  lemma {:induction false} AllEarly(es: seq<Entry>, now: Time)
    requires forall e :: e in es ==> DueBy(now)(e)
    ensures Filter(es, DueBy(now)) == es
  {
    if es != [] {
      var n := |es| - 1;
      AllEarly(es[..n], now);
      assert es[n] in es && es == es[..n] + [es[n]];
    }
  }

  /** What becomes due later closed later, so it queues behind. */
  lemma BacklogGrowsAtItsEnd(tickets: seq<Ticket>, archives: set<nat>, now: Time, later: Time)
    requires now <= later
    ensures AllDue(tickets, archives, now) <= AllDue(tickets, archives, later)
  {
    var among := DueAmong(tickets, archives, later, |tickets|);
    DueEarlier(tickets, archives, now, later, |tickets|);
    SortedFilter(among, DueBy(now), ClosedWhen);
    SortedKeeps(among, ClosedWhen);
    EarlyIsPrefix(AllDue(tickets, archives, later), now);
  }

  // ---- one sweep, and one after another ---------------------------------------------------------

  /**
   One sweep with nothing failing takes the oldest off the backlog, up to a batch of
   them, and leaves the rest in order - as seen at that moment or at any later one.
   */
  lemma SweepTakesTheOldest(tickets: seq<Ticket>, archives: set<nat>, messages: seq<Message>, t: Telegram,
                            fates: Fates, now: Time, later: Time)
    requires NoFailures(fates) && now <= later
    ensures var s := Sweep(tickets, archives, messages, t, fates, now);
            && s.moved == AtMost(|AllDue(tickets, archives, now)|, BATCH)
            && s.moved <= |AllDue(tickets, archives, later)|
            && AllDue(s.tickets, archives, later) == AllDue(tickets, archives, later)[s.moved..]
  {
    var due, all := AllDue(tickets, archives, now), AllDue(tickets, archives, later);
    var n := AtMost(|due|, BATCH);
    var batch := DueForArchive(tickets, archives, now);
    BacklogGrowsAtItsEnd(tickets, archives, now, later);
    assert batch == due[..n] == all[..n];
    forall e | e in batch ensures e.id < |tickets| && tickets[e.id].department in archives {
      assert e in due;
    }
    SweepWorks(batch, tickets, archives, messages, t, fates, now);
    var s := Sweep(tickets, archives, messages, t, fates, now);
    DueAfterBatch(batch, tickets, s.tickets, archives, later, |tickets|);
    SortedFilter(DueAmong(tickets, archives, later, |tickets|), OutOf(batch), ClosedWhen);
    BacklogIsInOrder(tickets, archives, later);
    RemainingAfterPrefix(all, n);
  }

  /** Sweeps one after another, at the moments given. */
  function Sweeps(nows: seq<Time>, tickets: seq<Ticket>, archives: set<nat>, messages: seq<Message>, t: Telegram,
                  fates: Fates): Swept
  {
    if nows == [] then Swept(tickets, t, 0)
    else
      var n := |nows| - 1;
      OneMore(Sweeps(nows[..n], tickets, archives, messages, t, fates), archives, messages, fates, nows[n])
  }

  function OneMore(before: Swept, archives: set<nat>, messages: seq<Message>, fates: Fates, now: Time): Swept {
    var s := Sweep(before.tickets, archives, messages, before.telegram, fates, now);
    Swept(s.tickets, s.telegram, before.moved + s.moved)
  }

  /** How many have gone: each sweep takes a batch more, or all that are due by then. */
  function Gone(nows: seq<Time>, tickets: seq<Ticket>, archives: set<nat>): nat {
    if nows == [] then 0
    else
      var n := |nows| - 1;
      AtMost(|AllDue(tickets, archives, nows[n])|, Gone(nows[..n], tickets, archives) + BATCH)
  }

  predicate InOrderOfTime(nows: seq<Time>, later: Time) {
    && (forall i, j :: 0 <= i < j < |nows| ==> nows[i] <= nows[j])
    && (forall i :: 0 <= i < |nows| ==> nows[i] <= later)
  }

  lemma AnotherSweep(before: Swept, archives: set<nat>, messages: seq<Message>, fates: Fates, now: Time, later: Time,
                     due: seq<Entry>, all: seq<Entry>)
    requires NoFailures(fates) && now <= later && before.moved <= |due| && before.moved <= |all|
    requires AllDue(before.tickets, archives, now) == due[before.moved..]
    requires AllDue(before.tickets, archives, later) == all[before.moved..]
    ensures var s := OneMore(before, archives, messages, fates, now);
            && s.moved == AtMost(|due|, before.moved + BATCH) && s.moved <= |all|
            && AllDue(s.tickets, archives, later) == all[s.moved..]
  {
    SweepTakesTheOldest(before.tickets, archives, messages, before.telegram, fates, now, later);
  }

  /** What sweeps leave of the backlog, as it stands at a later moment. */
  predicate Drained(s: Swept, tickets: seq<Ticket>, archives: set<nat>, later: Time) {
    && s.moved <= |AllDue(tickets, archives, later)|
    && AllDue(s.tickets, archives, later) == AllDue(tickets, archives, later)[s.moved..]
  }

  lemma NothingDrained(tickets: seq<Ticket>, archives: set<nat>, t: Telegram, later: Time)
    ensures Drained(Swept(tickets, t, 0), tickets, archives, later)
  {
    assert AllDue(tickets, archives, later)[0..] == AllDue(tickets, archives, later);
  }

  lemma EarlierInOrder(nows: seq<Time>, later: Time)
    requires InOrderOfTime(nows, later) && nows != []
    ensures var n := |nows| - 1;
            InOrderOfTime(nows[..n], nows[n]) && InOrderOfTime(nows[..n], later) && nows[n] <= later
  {
  }

  lemma DrainedFurther(before: Swept, tickets: seq<Ticket>, archives: set<nat>, messages: seq<Message>, fates: Fates,
                       now: Time, later: Time)
    requires NoFailures(fates) && now <= later
    requires Drained(before, tickets, archives, now) && Drained(before, tickets, archives, later)
    ensures var s := OneMore(before, archives, messages, fates, now);
            && s.moved == AtMost(|AllDue(tickets, archives, now)|, before.moved + BATCH)
            && Drained(s, tickets, archives, later)
  {
    AnotherSweep(before, archives, messages, fates, now, later, AllDue(tickets, archives, now),
                 AllDue(tickets, archives, later));
  }

  /**
   So the backlog drains in the order it accumulated: whenever the sweeps happen, and however
   many tickets become due in between, what they have moved is the front of the backlog as it
   stands at any later moment, and what they have left is the rest of it, in order.
   */
  lemma {:induction false} BacklogDrains(nows: seq<Time>, tickets: seq<Ticket>, archives: set<nat>,
                                         messages: seq<Message>, t: Telegram, fates: Fates, later: Time)
    requires NoFailures(fates) && InOrderOfTime(nows, later)
    ensures var s := Sweeps(nows, tickets, archives, messages, t, fates);
            s.moved == Gone(nows, tickets, archives) && Drained(s, tickets, archives, later)
    decreases |nows|
  {
    if nows == [] {
      NothingDrained(tickets, archives, t, later);
    } else {
      var n := |nows| - 1;
      var before := Sweeps(nows[..n], tickets, archives, messages, t, fates);
      EarlierInOrder(nows, later);
      BacklogDrains(nows[..n], tickets, archives, messages, t, fates, nows[n]);
      BacklogDrains(nows[..n], tickets, archives, messages, t, fates, later);
      DrainedFurther(before, tickets, archives, messages, fates, nows[n], later);
    }
  }
}
