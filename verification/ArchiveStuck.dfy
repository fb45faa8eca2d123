/**
 Sweeping around tickets whose archiving fails every time, because the permissions of
 a group are wrong (app/services/archive.py:100-143, 279-299): how many the rest can stand.
 */
module ArchiveStuck {
  import opened Prelude
  import opened Sorting
  import opened Archive
  import opened ArchiveSweeps

  function Held(stuck: set<nat>): Entry -> bool {
    (e: Entry) => e.id in stuck
  }

  function Free(stuck: set<nat>): Entry -> bool {
    (e: Entry) => e.id !in stuck
  }

  // ---- choosing from a sequence ------------------------------------------------------

  lemma {:induction false} FilterConcat(a: seq<Entry>, b: seq<Entry>, keep: Entry -> bool)
    ensures Filter(a + b, keep) == Filter(a, keep) + Filter(b, keep)
  {
    if b == [] {
      assert a + b == a;
    } else {
      var n := |b| - 1;
      FilterConcat(a, b[..n], keep);
      assert a + b == (a + b[..n]) + [b[n]] && b == b[..n] + [b[n]];
      FilterAppend(a + b[..n], b[n], keep);
      FilterAppend(b[..n], b[n], keep);
    }
  }

  lemma {:induction false} FilterTwice(es: seq<Entry>, first: Entry -> bool, second: Entry -> bool)
    ensures Filter(Filter(es, first), second) == Filter(Filter(es, second), first)
  {
    if es != [] {
      var n := |es| - 1;
      FilterTwice(es[..n], first, second);
      assert es == es[..n] + [es[n]];
      FilterAppend(es[..n], es[n], first);
      FilterAppend(es[..n], es[n], second);
      FilterAppend(Filter(es[..n], first), es[n], second);
      FilterAppend(Filter(es[..n], second), es[n], first);
    }
  }

  lemma {:induction false} HeldAndFree(es: seq<Entry>, stuck: set<nat>)
    ensures |Filter(es, Held(stuck))| + |Filter(es, Free(stuck))| == |es|
  {
    if es != [] {
      HeldAndFree(es[..|es| - 1], stuck);
    }
  }

  lemma {:induction false} FilterKeepsIds(es: seq<Entry>, keep: Entry -> bool)
    requires DistinctIds(es)
    ensures DistinctIds(Filter(es, keep))
  {
    if es != [] {
      var n := |es| - 1;
      FilterKeepsIds(es[..n], keep);
      var before := Filter(es[..n], keep);
      forall i | 0 <= i < |before| ensures before[i].id != es[n].id {
        assert before[i] in before;
        var k :| 0 <= k < n && es[k] == before[i];
      }
    }
  }

  lemma {:induction false} FilterAll(es: seq<Entry>, keep: Entry -> bool)
    requires forall e :: e in es ==> keep(e)
    ensures Filter(es, keep) == es
  {
    if es != [] {
      var n := |es| - 1;
      FilterAll(es[..n], keep);
      assert es[n] in es && es == es[..n] + [es[n]];
    }
  }

  /** Taking the free ones of a prefix out leaves the held as they are and the rest of the free. */
  lemma TakenFromTheFront(all: seq<Entry>, n: nat, stuck: set<nat>)
    requires DistinctIds(all) && n <= |all|
    ensures var moved := Filter(all[..n], Free(stuck));
            var left := Remaining(all, moved);
            && |moved| <= |Filter(all, Free(stuck))|
            && Filter(left, Held(stuck)) == Filter(all, Held(stuck))
            && Filter(left, Free(stuck)) == Filter(all, Free(stuck))[|moved|..]
  {
    var moved, free := Filter(all[..n], Free(stuck)), Filter(all, Free(stuck));
    assert all == all[..n] + all[n..];
    FilterConcat(all[..n], all[n..], Free(stuck));
    assert free[..|moved|] == moved;
    FilterKeepsIds(all, Free(stuck));
    RemainingAfterPrefix(free, |moved|);
    FilterTwice(all, OutOf(moved), Free(stuck));
    FilterTwice(all, OutOf(moved), Held(stuck));
    FilterAll(Filter(all, Held(stuck)), OutOf(moved));
  }

  // ---- one sweep ------------------------------------------------------------------------

  /** The batch goes so: of a stuck ticket some call of the copy fails; of another none fails, nor its deletion. */
  ghost predicate Goes(stuck: set<nat>, batch: seq<Entry>, tickets: seq<Ticket>, archives: set<nat>,
                       messages: seq<Message>, t: Telegram, fates: Fates, now: Time)
    requires forall e :: e in batch ==> e.id < |tickets|
  {
    batch != [] ==>
      var n := |batch| - 1;
      var id, calls := batch[n].id, SweepOver(batch[..n], tickets, archives, messages, t, fates, now).telegram.calls;
      var copying := CallsToCopy(Conversation(messages, id));
      && Goes(stuck, batch[..n], tickets, archives, messages, t, fates, now)
      && if id in stuck then !AllWork(fates, calls, copying) else AllWork(fates, calls, copying + 1)
  }

  lemma OneGoes(ticket: Ticket, conversation: seq<nat>, t: Telegram, fates: Fates, now: Time)
    ensures var one := ArchiveOne(ticket, true, conversation, t, fates, now);
            && (!AllWork(fates, t.calls, CallsToCopy(conversation)) ==> one.ticket == ticket && one.moved == None)
            && (AllWork(fates, t.calls, CallsToCopy(conversation) + 1) ==>
                  && one.moved == Some(true) && one.ticket.archivedAt == Some(now)
                  && one.ticket.row == ticket.row && one.ticket.department == ticket.department)
  {
    CopyCalls(conversation, t, fates);
    if AllWork(fates, t.calls, CallsToCopy(conversation) + 1) {
      assert AllWork(fates, t.calls, CallsToCopy(conversation));
      assert fates(t.calls + CallsToCopy(conversation)).Works?;
    }
  }

  lemma {:induction false} SweepGoes(stuck: set<nat>, batch: seq<Entry>, tickets: seq<Ticket>, archives: set<nat>,
                                     messages: seq<Message>, t: Telegram, fates: Fates, now: Time)
    requires DistinctIds(batch)
    requires forall e :: e in batch ==> e.id < |tickets| && tickets[e.id].department in archives
    requires Goes(stuck, batch, tickets, archives, messages, t, fates, now)
    ensures var s := SweepOver(batch, tickets, archives, messages, t, fates, now);
            s.moved == |Filter(batch, Free(stuck))| && BatchDone(Filter(batch, Free(stuck)), tickets, s.tickets)
    decreases |batch|
  {
    if batch != [] {
      var n := |batch| - 1;
      assert batch == batch[..n] + [batch[n]];
      assert batch[n] in batch;
      SweepGoes(stuck, batch[..n], tickets, archives, messages, t, fates, now);
      var before := SweepOver(batch[..n], tickets, archives, messages, t, fates, now);
      var id := batch[n].id;
      FilterAppend(batch[..n], batch[n], Free(stuck));
      assert before.tickets[id].department == tickets[id].department;
      OneGoes(before.tickets[id], Conversation(messages, id), before.telegram, fates, now);
      InOneMore(Filter(batch[..n], Free(stuck)), batch[n]);
    }
  }

  lemma InOneMore(batch: seq<Entry>, e: Entry)
    ensures forall i :: InBatch(batch + [e], i) <==> InBatch(batch, i) || i == e.id
  {
    forall i: nat ensures InBatch(batch + [e], i) <==> InBatch(batch, i) || i == e.id {
      if i == e.id {
        assert e in batch + [e];
      }
      if InBatch(batch, i) {
        var x :| x in batch && x.id == i;
        assert x in batch + [e];
      }
    }
  }

  /** The backlog at a moment, of the stuck tickets and of the others. */
  function HeldUp(stuck: set<nat>, tickets: seq<Ticket>, archives: set<nat>, now: Time): seq<Entry> {
    Filter(AllDue(tickets, archives, now), Held(stuck))
  }

  function Others(stuck: set<nat>, tickets: seq<Ticket>, archives: set<nat>, now: Time): seq<Entry> {
    Filter(AllDue(tickets, archives, now), Free(stuck))
  }

  ghost predicate SweepGoesOn(stuck: set<nat>, tickets: seq<Ticket>, archives: set<nat>, messages: seq<Message>,
                              t: Telegram, fates: Fates, now: Time)
  {
    Goes(stuck, DueForArchive(tickets, archives, now), tickets, archives, messages, t, fates, now)
  }

  /**
   One sweep takes the others of the ten oldest off the front of the rest of the backlog, which stays in
   order, and leaves the stuck - as seen at that moment or later. It takes all the others,
   or as many as the stuck leave room for in a batch.
   */
  lemma SweepPassesTheStuck(stuck: set<nat>, tickets: seq<Ticket>, archives: set<nat>, messages: seq<Message>,
                            t: Telegram, fates: Fates, now: Time, later: Time)
    requires SweepGoesOn(stuck, tickets, archives, messages, t, fates, now) && now <= later
    ensures var s := Sweep(tickets, archives, messages, t, fates, now);
            && s.moved == |Filter(DueForArchive(tickets, archives, now), Free(stuck))|
            && s.moved <= |Others(stuck, tickets, archives, later)|
            && HeldUp(stuck, s.tickets, archives, later) == HeldUp(stuck, tickets, archives, later)
            && Others(stuck, s.tickets, archives, later) == Others(stuck, tickets, archives, later)[s.moved..]
  {
    var due, all := AllDue(tickets, archives, now), AllDue(tickets, archives, later);
    var batch := DueForArchive(tickets, archives, now);
    var n := |batch|;
    BacklogGrowsAtItsEnd(tickets, archives, now, later);
    BacklogIsInOrder(tickets, archives, now);
    BacklogIsInOrder(tickets, archives, later);
    assert batch == due[..n] == all[..n];
    forall e | e in batch ensures e.id < |tickets| && tickets[e.id].department in archives {
      assert e in due;
    }
    SweepGoes(stuck, batch, tickets, archives, messages, t, fates, now);
    var s := Sweep(tickets, archives, messages, t, fates, now);
    var moved := Filter(batch, Free(stuck));
    DueAfterBatch(moved, tickets, s.tickets, archives, later, |tickets|);
    SortedFilter(DueAmong(tickets, archives, later, |tickets|), OutOf(moved), ClosedWhen);
    TakenFromTheFront(all, n, stuck);
  }

  lemma HeldInFront(due: seq<Entry>, stuck: set<nat>, n: nat)
    requires n <= |due|
    ensures |Filter(due[..n], Held(stuck))| <= |Filter(due, Held(stuck))|
  {
    assert due == due[..n] + due[n..];
    FilterConcat(due[..n], due[n..], Held(stuck));
  }

  lemma RoomForOthers(due: seq<Entry>, stuck: set<nat>)
    requires |Filter(due, Held(stuck))| <= BATCH
    ensures |Filter(Head(due, BATCH), Free(stuck))|
         >= AtMost(|Filter(due, Free(stuck))|, BATCH - |Filter(due, Held(stuck))|)
  {
    if |due| > BATCH {
      HeldInFront(due, stuck, BATCH);
      HeldAndFree(due[..BATCH], stuck);
    }
  }

  // ---- one sweep after another -------------------------------------------------------------

  ghost predicate SweepsGoOn(stuck: set<nat>, nows: seq<Time>, tickets: seq<Ticket>, archives: set<nat>,
                             messages: seq<Message>, t: Telegram, fates: Fates)
  {
    nows != [] ==>
      var n := |nows| - 1;
      var before := Sweeps(nows[..n], tickets, archives, messages, t, fates);
      && SweepsGoOn(stuck, nows[..n], tickets, archives, messages, t, fates)
      && SweepGoesOn(stuck, before.tickets, archives, messages, before.telegram, fates, nows[n])
  }

  /** How many others are gone at least: each sweep takes what `room` there is, or all that are due by then. */
  function GoneAround(stuck: set<nat>, nows: seq<Time>, tickets: seq<Ticket>, archives: set<nat>, room: nat): nat {
    if nows == [] then 0
    else
      var n := |nows| - 1;
      AtMost(|Others(stuck, tickets, archives, nows[n])|,
             GoneAround(stuck, nows[..n], tickets, archives, room) + room)
  }

  /** What sweeps leave, as it stands at a later moment. */
  predicate DrainedAround(stuck: set<nat>, s: Swept, tickets: seq<Ticket>, archives: set<nat>, later: Time) {
    && s.moved <= |Others(stuck, tickets, archives, later)|
    && HeldUp(stuck, s.tickets, archives, later) == HeldUp(stuck, tickets, archives, later)
    && Others(stuck, s.tickets, archives, later) == Others(stuck, tickets, archives, later)[s.moved..]
  }

  lemma DrainedOneMore(stuck: set<nat>, before: Swept, tickets: seq<Ticket>, archives: set<nat>, messages: seq<Message>,
                       fates: Fates, now: Time, later: Time, room: nat)
    requires SweepGoesOn(stuck, before.tickets, archives, messages, before.telegram, fates, now) && now <= later
    requires DrainedAround(stuck, before, tickets, archives, now)
    requires DrainedAround(stuck, before, tickets, archives, later)
    requires |HeldUp(stuck, tickets, archives, now)| + room <= BATCH
    ensures var s := OneMore(before, archives, messages, fates, now);
            && DrainedAround(stuck, s, tickets, archives, later)
            && s.moved >= AtMost(|Others(stuck, tickets, archives, now)|, before.moved + room)
  {
    AroundOneMore(stuck, before, archives, messages, fates, now, later, room, Others(stuck, tickets, archives, now),
                  Others(stuck, tickets, archives, later));
  }

  lemma AroundOneMore(stuck: set<nat>, before: Swept, archives: set<nat>, messages: seq<Message>, fates: Fates,
                      now: Time, later: Time, room: nat, due: seq<Entry>, all: seq<Entry>)
    requires SweepGoesOn(stuck, before.tickets, archives, messages, before.telegram, fates, now) && now <= later
    requires before.moved <= |due| && before.moved <= |all|
    requires Others(stuck, before.tickets, archives, now) == due[before.moved..]
    requires Others(stuck, before.tickets, archives, later) == all[before.moved..]
    requires |HeldUp(stuck, before.tickets, archives, now)| + room <= BATCH
    ensures var s := OneMore(before, archives, messages, fates, now);
            && s.moved <= |all|
            && HeldUp(stuck, s.tickets, archives, later) == HeldUp(stuck, before.tickets, archives, later)
            && Others(stuck, s.tickets, archives, later) == all[s.moved..]
            && s.moved >= AtMost(|due|, before.moved + room)
  {
    var s := Sweep(before.tickets, archives, messages, before.telegram, fates, now);
    SweepPassesTheStuck(stuck, before.tickets, archives, messages, before.telegram, fates, now, later);
    RoomAtLeast(stuck, before.tickets, archives, now, room);
    DropTwice(all, before.moved, s.moved);
    assert OneMore(before, archives, messages, fates, now) == Swept(s.tickets, s.telegram, before.moved + s.moved);
  }

  lemma DropTwice(es: seq<Entry>, m: nat, n: nat)
    requires m + n <= |es|
    ensures es[m..][n..] == es[m + n..]
  {
  }

  lemma RoomAtLeast(stuck: set<nat>, tickets: seq<Ticket>, archives: set<nat>, now: Time, room: nat)
    requires |HeldUp(stuck, tickets, archives, now)| + room <= BATCH
    ensures |Filter(DueForArchive(tickets, archives, now), Free(stuck))|
         >= AtMost(|Others(stuck, tickets, archives, now)|, room)
  {
    RoomForOthers(AllDue(tickets, archives, now), stuck);
  }

  lemma FewerHeldBefore(stuck: set<nat>, tickets: seq<Ticket>, archives: set<nat>, now: Time, later: Time)
    requires now <= later
    ensures |HeldUp(stuck, tickets, archives, now)| <= |HeldUp(stuck, tickets, archives, later)|
  {
    BacklogGrowsAtItsEnd(tickets, archives, now, later);
    var due, all := AllDue(tickets, archives, now), AllDue(tickets, archives, later);
    assert all[..|due|] == due;
    HeldInFront(all, stuck, |due|);
  }

  /**
   Fewer than ten stuck tickets hold nobody up: whenever the sweeps happen, the others drain in the
   order they accumulated, at least as many a sweep as the stuck leave room for.
   */
  lemma {:induction false} OthersDrain(stuck: set<nat>, nows: seq<Time>, tickets: seq<Ticket>, archives: set<nat>,
                                       messages: seq<Message>, t: Telegram, fates: Fates, later: Time, room: nat)
    requires SweepsGoOn(stuck, nows, tickets, archives, messages, t, fates) && InOrderOfTime(nows, later)
    requires |HeldUp(stuck, tickets, archives, later)| + room <= BATCH
    ensures var s := Sweeps(nows, tickets, archives, messages, t, fates);
            && DrainedAround(stuck, s, tickets, archives, later)
            && s.moved >= GoneAround(stuck, nows, tickets, archives, room)
    decreases |nows|
  {
    if nows == [] {
      assert Others(stuck, tickets, archives, later)[0..] == Others(stuck, tickets, archives, later);
    } else {
      var n := |nows| - 1;
      EarlierInOrder(nows, later);
      FewerHeldBefore(stuck, tickets, archives, nows[n], later);
      OthersDrain(stuck, nows[..n], tickets, archives, messages, t, fates, nows[n], room);
      OthersDrain(stuck, nows[..n], tickets, archives, messages, t, fates, later, room);
      var before := Sweeps(nows[..n], tickets, archives, messages, t, fates);
      DrainedOneMore(stuck, before, tickets, archives, messages, fates, nows[n], later, room);
    }
  }

  /** The ten oldest due tickets are all stuck. */
  predicate TenStuckInFront(stuck: set<nat>, tickets: seq<Ticket>, archives: set<nat>, now: Time) {
    && |AllDue(tickets, archives, now)| >= BATCH
    && forall e :: e in AllDue(tickets, archives, now)[..BATCH] ==> e.id in stuck
  }

  lemma {:induction false} NoneFree(es: seq<Entry>, stuck: set<nat>)
    requires forall e :: e in es ==> e.id in stuck
    ensures Filter(es, Free(stuck)) == []
  {
    FilterNone(es, Free(stuck));
  }

  lemma SweepMovesNothing(stuck: set<nat>, tickets: seq<Ticket>, archives: set<nat>, messages: seq<Message>,
                          t: Telegram, fates: Fates, first: Time, now: Time)
    requires TenStuckInFront(stuck, tickets, archives, first) && first <= now
    requires SweepGoesOn(stuck, tickets, archives, messages, t, fates, now)
    ensures var s := Sweep(tickets, archives, messages, t, fates, now); s.tickets == tickets && s.moved == 0
  {
    var due := AllDue(tickets, archives, now);
    var batch := DueForArchive(tickets, archives, now);
    BacklogGrowsAtItsEnd(tickets, archives, first, now);
    BacklogIsInOrder(tickets, archives, now);
    assert batch == due[..BATCH] == AllDue(tickets, archives, first)[..BATCH];
    forall e | e in batch ensures e.id < |tickets| && tickets[e.id].department in archives {
      assert e in due;
    }
    NoneFree(batch, stuck);
    SweepGoes(stuck, batch, tickets, archives, messages, t, fates, now);
  }

  /** Ten of them, once they are the oldest, hold everything up for ever: no sweep changes any ticket. */
  lemma {:induction false} TenStuckHoldAll(stuck: set<nat>, nows: seq<Time>, tickets: seq<Ticket>, archives: set<nat>,
                                           messages: seq<Message>, t: Telegram, fates: Fates, first: Time)
    requires SweepsGoOn(stuck, nows, tickets, archives, messages, t, fates)
    requires TenStuckInFront(stuck, tickets, archives, first) && forall now :: now in nows ==> first <= now
    ensures var s := Sweeps(nows, tickets, archives, messages, t, fates); s.tickets == tickets && s.moved == 0
    decreases |nows|
  {
    if nows != [] {
      var n := |nows| - 1;
      assert forall now :: now in nows[..n] || now == nows[n] ==> now in nows;
      TenStuckHoldAll(stuck, nows[..n], tickets, archives, messages, t, fates, first);
      var before := Sweeps(nows[..n], tickets, archives, messages, t, fates);
      SweepMovesNothing(stuck, tickets, archives, messages, before.telegram, fates, first, nows[n]);
    }
  }
}
