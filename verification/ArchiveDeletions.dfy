/**
 Every deletion in every run of the archive, explained: whose topic it was, what was
 stored of its conversation by then, and that a copy of all of it is there and stays.
 */
module ArchiveDeletions {
  import opened Prelude
  import opened Archive
  import opened ArchiveRuns
  import opened ArchiveSweeps

  /** The calls just before the k-th made a finished copy of the conversation in the thread. */
  predicate CopyBefore(log: seq<Call>, k: nat, conversation: seq<nat>, thread: nat) {
    var copy := WholeCopy(conversation, thread);
    |copy| <= k <= |log| && log[k - |copy|..k] == copy
  }

  // ---- within one sweep --------------------------------------------------------------

  /** The k-th call deleted the topic of a ticket of the batch, straight after its conversation was copied. */
  predicate SweptAway(batch: seq<Entry>, tickets: seq<Ticket>, messages: seq<Message>, from: nat, log: seq<Call>,
                      k: nat, i: nat, thread: nat)
  {
    && k < |log| && log[k].DeleteTopic?
    && InBatch(batch, i) && i < |tickets| && tickets[i].topic == Some(log[k].topic)
    && CopyBefore(log, k, Conversation(messages, i), thread)
    && from + |WholeCopy(Conversation(messages, i), thread)| <= k
  }

  ghost predicate AllSweptAway(batch: seq<Entry>, tickets: seq<Ticket>, messages: seq<Message>, from: nat,
                               log: seq<Call>)
  {
    forall k :: from <= k < |log| && log[k].DeleteTopic? ==>
      exists i, thread :: SweptAway(batch, tickets, messages, from, log, k, i, thread)
  }

  ghost predicate OthersKeep(batch: seq<Entry>, tickets: seq<Ticket>, tickets': seq<Ticket>) {
    && |tickets'| == |tickets|
    && forall i :: 0 <= i < |tickets| && !InBatch(batch, i) ==> tickets'[i] == tickets[i]
  }

  lemma {:induction false} SweepExplains(batch: seq<Entry>, tickets: seq<Ticket>, archives: set<nat>,
                                         messages: seq<Message>, t: Telegram, fates: Fates, now: Time)
    requires DistinctIds(batch) && forall e :: e in batch ==> e.id < |tickets|
    ensures var s := SweepOver(batch, tickets, archives, messages, t, fates, now);
            && t.log <= s.telegram.log
            && OthersKeep(batch, tickets, s.tickets)
            && AllSweptAway(batch, tickets, messages, |t.log|, s.telegram.log)
    decreases |batch|
  {
    if batch != [] {
      var n := |batch| - 1;
      assert batch == batch[..n] + [batch[n]];
      SweepExplains(batch[..n], tickets, archives, messages, t, fates, now);
      var before := SweepOver(batch[..n], tickets, archives, messages, t, fates, now);
      var id := batch[n].id;
      assert batch[n] in batch && !InBatch(batch[..n], id);
      var ticket := before.tickets[id];
      assert ticket == tickets[id];
      ArchiveOneIs(ticket, ticket.department in archives, Conversation(messages, id), before.telegram, fates, now);
      var s := SweepOver(batch, tickets, archives, messages, t, fates, now);
      forall k | |t.log| <= k < |s.telegram.log| && s.telegram.log[k].DeleteTopic?
        ensures exists i, thread :: SweptAway(batch, tickets, messages, |t.log|, s.telegram.log, k, i, thread)
      {
        if k < |before.telegram.log| {
          SweptEarlier(batch, n, tickets, messages, |t.log|, before.telegram.log, s.telegram.log, k);
        } else {
          SweptNow(batch, id, tickets, messages, |t.log|, before.telegram.log, s.telegram.log, k,
                   before.telegram.nextThread);
        }
      }
    }
  }

  lemma SweptEarlier(batch: seq<Entry>, n: nat, tickets: seq<Ticket>, messages: seq<Message>, from: nat,
                     log: seq<Call>, log': seq<Call>, k: nat)
    requires n <= |batch| && log <= log' && from <= k < |log| && log[k].DeleteTopic?
    requires AllSweptAway(batch[..n], tickets, messages, from, log)
    ensures exists i, thread :: SweptAway(batch, tickets, messages, from, log', k, i, thread)
  {
    var i, thread :| SweptAway(batch[..n], tickets, messages, from, log, k, i, thread);
    var size := |WholeCopy(Conversation(messages, i), thread)|;
    assert log'[k - size..k] == log[k - size..k];
    assert SweptAway(batch, tickets, messages, from, log', k, i, thread);
  }

  lemma SweptNow(batch: seq<Entry>, id: nat, tickets: seq<Ticket>, messages: seq<Message>, from: nat,
                 log: seq<Call>, log': seq<Call>, k: nat, thread: nat)
    requires InBatch(batch, id) && id < |tickets| && from <= |log| <= k < |log'| && log'[k].DeleteTopic?
    requires tickets[id].topic == Some(log'[k].topic)
    requires log'[..k] == log + WholeCopy(Conversation(messages, id), thread)
    ensures exists i, thread :: SweptAway(batch, tickets, messages, from, log', k, i, thread)
  {
    var copy := WholeCopy(Conversation(messages, id), thread);
    assert log'[k - |copy|..k] == log'[..k][|log|..] == copy;
    assert SweptAway(batch, tickets, messages, from, log', k, id, thread);
  }

  // ---- over a run -----------------------------------------------------------------------

  lemma {:induction false} ExecOneMore(w: World, run: seq<Timed>, last: Timed, fates: Fates)
    ensures Exec(w, run + [last], fates) == Next(Exec(w, run, fates), last.action, fates, last.now)
    decreases |run|
  {
    if run == [] {
      assert [last][1..] == [];
    } else {
      ExecOneMore(Next(w, run[0].action, fates, run[0].now), run[1..], last, fates);
      assert (run + [last])[1..] == run[1..] + [last];
    }
  }

  /** The calls made and the messages stored only grow, and only a sweep deletes. */
  lemma ActionGrows(w: World, action: Action, fates: Fates, now: Time)
    requires DeskOk(w.tickets, w.telegram)
    ensures var w' := Next(w, action, fates, now);
            && w.telegram.log <= w'.telegram.log && w.messages <= w'.messages
            && (!action.SweepAll? ==> NoDeletions(w.telegram, w'.telegram))
  {
    match action
    case CloseOne(i, actor, notices) =>
      if i < |w.tickets| {
        CloseTurns(w.tickets[i], actor, notices, w.telegram, fates, now);
      }
    case ReopenOne(i, actor, notices) =>
      if i < |w.tickets| {
        ReopenTurns(w.tickets[i], actor, notices, w.telegram, fates, now);
      }
    case SweepAll =>
      SweepOfDue(w, fates, now);
    case _ =>
  }

  /** What one sweep of the desk deletes: topics of tickets that were due. */
  lemma SweepOfDue(w: World, fates: Fates, now: Time)
    ensures var w' := Next(w, SweepAll, fates, now);
            var batch := DueForArchive(w.tickets, w.archives, now);
            && w.telegram.log <= w'.telegram.log
            && OthersKeep(batch, w.tickets, w'.tickets)
            && AllSweptAway(batch, w.tickets, w.messages, |w.telegram.log|, w'.telegram.log)
            && (forall i: nat :: InBatch(batch, i) ==> i < |w.tickets| && IsDue(w.tickets[i], w.archives, now))
  {
    BacklogIsInOrder(w.tickets, w.archives, now);
    var batch := DueForArchive(w.tickets, w.archives, now);
    forall i: nat | InBatch(batch, i) ensures i < |w.tickets| && IsDue(w.tickets[i], w.archives, now) {
      var e :| e in batch && e.id == i;
      assert e in AllDue(w.tickets, w.archives, now);
    }
    SweepExplains(batch, w.tickets, w.archives, w.messages, w.telegram, fates, now);
  }

  /**
   The k-th call of the run, a deletion, explained. It was made in the m-th action, a sweep, and it took
   the topic that ticket `i` then had, which was then due. Of the messages stored by then, every one of
   that ticket's that can be forwarded had just been forwarded, in order, into a thread of the archive
   that was then closed; and that thread has not been deleted since.
   */
  ghost predicate Explained(run: seq<Timed>, fates: Fates, k: nat, m: nat, i: nat, thread: nat) {
    && m < |run| && run[m].action.SweepAll?
    && var was, w := Exec(START, run[..m], fates), Exec(START, run, fates);
       && i < |was.tickets| && IsDue(was.tickets[i], was.archives, run[m].now)
       && was.messages <= w.messages
       && k < |w.telegram.log| && w.telegram.log[k].DeleteTopic?
       && was.tickets[i].topic == Some(w.telegram.log[k].topic)
       && CopyBefore(w.telegram.log, k, Conversation(was.messages, i), thread)
       && |was.telegram.log| + |WholeCopy(Conversation(was.messages, i), thread)| <= k
       && !Deleted(w.telegram.log, thread)
  }

  ghost predicate AccountedFor(run: seq<Timed>, fates: Fates, k: nat) {
    exists m: nat, i: nat, thread: nat :: Explained(run, fates, k, m, i, thread)
  }

  lemma {:induction false} DeletionsExplained(run: seq<Timed>, fates: Fates, k: nat)
    requires var log := Exec(START, run, fates).telegram.log; k < |log| && log[k].DeleteTopic?
    ensures AccountedFor(run, fates, k)
    decreases |run|
  {
    var n := |run| - 1;
    var earlier, last := run[..n], run[n];
    assert run == earlier + [last];
    ExecOneMore(START, earlier, last, fates);
    RunKeepsDesk(START, earlier, fates);
    RunKeepsDesk(START, run, fates);
    var was, w := Exec(START, earlier, fates), Exec(START, run, fates);
    ActionGrows(was, last.action, fates, last.now);
    if k < |was.telegram.log| {
      assert was.telegram.log[k] == w.telegram.log[k];
      DeletionsExplained(earlier, fates, k);
      StillExplained(earlier, last, fates, k);
    } else {
      SweepOfDue(was, fates, last.now);
      var batch := DueForArchive(was.tickets, was.archives, last.now);
      var i, thread :| SweptAway(batch, was.tickets, was.messages, |was.telegram.log|, w.telegram.log, k, i, thread);
      CopyStays(w, k, Conversation(was.messages, i), thread);
      assert Explained(run, fates, k, n, i, thread);
    }
  }

  lemma CopyStays(w: World, k: nat, conversation: seq<nat>, thread: nat)
    requires DeskOk(w.tickets, w.telegram) && CopyBefore(w.telegram.log, k, conversation, thread)
    requires k < |w.telegram.log| && w.telegram.log[k].DeleteTopic?
    ensures !Deleted(w.telegram.log, thread)
  {
    var copy := WholeCopy(conversation, thread);
    assert w.telegram.log[k - 1] == w.telegram.log[k - |copy|..k][|copy| - 1] == CloseTopic(thread);
    assert Kept(w.tickets, w.telegram, thread);
  }

  lemma StillExplained(earlier: seq<Timed>, last: Timed, fates: Fates, k: nat)
    requires AccountedFor(earlier, fates, k)
    ensures AccountedFor(earlier + [last], fates, k)
  {
    var run := earlier + [last];
    var m: nat, i: nat, thread: nat :| Explained(earlier, fates, k, m, i, thread);
    assert run[..m] == earlier[..m] && run[m] == earlier[m];
    ExecOneMore(START, earlier, last, fates);
    RunKeepsDesk(START, earlier, fates);
    RunKeepsDesk(START, run, fates);
    var before, w := Exec(START, earlier, fates), Exec(START, run, fates);
    ActionGrows(before, last.action, fates, last.now);
    var conversation := Conversation(Exec(START, run[..m], fates).messages, i);
    var size := |WholeCopy(conversation, thread)|;
    assert w.telegram.log[k] == before.telegram.log[k];
    assert w.telegram.log[k - size..k] == before.telegram.log[k - size..k];
    CopyStays(w, k, conversation, thread);
    assert Explained(run, fates, k, m, i, thread);
  }

  /**
   Whatever fails, at any point of any run: every deletion is explained; a ticket is marked archived
   only while it is closed; and a ticket that is not marked archived has its topic, not deleted.
   */
  lemma NothingIsLostInArchiving(run: seq<Timed>, fates: Fates)
    ensures var w := Exec(START, run, fates);
            && (forall k :: 0 <= k < |w.telegram.log| && w.telegram.log[k].DeleteTopic? ==>
                  AccountedFor(run, fates, k))
            && (forall i :: 0 <= i < |w.tickets| ==>
                  if w.tickets[i].archivedAt.Some? then IsClosed(w.tickets[i])
                  else w.tickets[i].topic.Some? && !Deleted(w.telegram.log, w.tickets[i].topic.value))
  {
    var w := Exec(START, run, fates);
    RunKeepsDesk(START, run, fates);
    forall k | 0 <= k < |w.telegram.log| && w.telegram.log[k].DeleteTopic?
      ensures AccountedFor(run, fates, k)
    {
      DeletionsExplained(run, fates, k);
    }
    forall i | 0 <= i < |w.tickets| ensures TicketOk(w.tickets[i]) {
    }
  }

  // ---- an original that would not go -------------------------------------------------------

  /** Marked archived, with its topic still on record: its deletion raised. */
  predicate LeftOver(t: Ticket) {
    t.archivedAt.Some? && t.topic.Some?
  }

  lemma LeftOverThroughAction(w: World, action: Action, fates: Fates, now: Time, i: nat)
    requires DeskOk(w.tickets, w.telegram) && i < |w.tickets| && LeftOver(w.tickets[i])
    requires !(action.ReopenOne? && action.ticket == i)
    ensures var w' := Next(w, action, fates, now);
            && i < |w'.tickets| && w'.tickets[i].topic == w.tickets[i].topic
            && w'.tickets[i].archivedAt == w.tickets[i].archivedAt
            && (Deleted(w'.telegram.log, w.tickets[i].topic.value) ==>
                Deleted(w.telegram.log, w.tickets[i].topic.value))
  {
    var w' := Next(w, action, fates, now);
    var topic := w.tickets[i].topic.value;
    ActionGrows(w, action, fates, now);
    if action.SweepAll? {
      SweepOfDue(w, fates, now);
      forall k | 0 <= k < |w'.telegram.log| && w'.telegram.log[k].DeleteTopic? && w'.telegram.log[k].topic == topic
        ensures Deleted(w.telegram.log, topic)
      {
        if k < |w.telegram.log| {
          assert w.telegram.log[k] == w'.telegram.log[k];
        }
      }
    } else {
      assert forall k :: 0 <= k < |w.telegram.log| ==> w.telegram.log[k] == w'.telegram.log[k];
    }
  }

  /** Nothing but reopening its ticket ends it: no sweep takes the ticket up again, and no sweep deletes its topic. */
  lemma {:induction false} LeftOverStays(w: World, run: seq<Timed>, fates: Fates, i: nat)
    requires DeskOk(w.tickets, w.telegram) && i < |w.tickets| && LeftOver(w.tickets[i])
    requires forall a :: a in run ==> !(a.action.ReopenOne? && a.action.ticket == i)
    ensures var w' := Exec(w, run, fates);
            && i < |w'.tickets| && w'.tickets[i].topic == w.tickets[i].topic
            && w'.tickets[i].archivedAt == w.tickets[i].archivedAt
            && (Deleted(w'.telegram.log, w.tickets[i].topic.value) ==>
                Deleted(w.telegram.log, w.tickets[i].topic.value))
    decreases |run|
  {
    if run != [] {
      assert run[0] in run;
      LeftOverThroughAction(w, run[0].action, fates, run[0].now, i);
      ActionKeepsDesk(w, run[0].action, fates, run[0].now);
      LeftOverStays(Next(w, run[0].action, fates, run[0].now), run[1..], fates, i);
    }
  }
}
