/**
 Moving finished tickets into an archive group, and getting them back
 (app/services/archive.py:94-299, app/services/relay.py:1584-1680, 2318-2377),
 against a gateway any call of which may fail - before it has had its effect, or after.
 */
module Archive {
  import opened Prelude
  import opened Sorting
  import WorkItems

  /** Twenty-four hours, in seconds. */
  const ARCHIVE_AFTER := 24 * 3600

  const BATCH := 10

  // ---- the gateway ---------------------------------------------------------------

  /** The fate of every call to come, by its number. */
  type Fates = nat -> Fate

  /** Calls as they take effect. */
  datatype Call =
    | CreateTopic(thread: nat)
    | Post(thread: nat)
    | Forward(thread: nat, message: nat)
    | CloseTopic(thread: nat)
    | ReopenTopic(thread: nat)
    | DeleteTopic(topic: nat)
    | Say

  datatype Telegram = Telegram(log: seq<Call>, calls: nat, nextThread: nat)

  function Attempt(t: Telegram, fates: Fates, call: Call): (Telegram, bool) {
    var fate := fates(t.calls);
    (Telegram(if fate.Fails? then t.log else t.log + [call], t.calls + 1,
              if call.CreateTopic? then t.nextThread + 1 else t.nextThread),
     fate.Works?)
  }

  // ---- the ticket's columns ---------------------------------------------------------

  datatype Ticket = Ticket(
    row: WorkItems.Row,
    department: nat,
    topic: Option<nat>,
    header: Option<nat>,
    archivedAt: Option<Time>,
    archiveTopic: Option<nat>)

  /** A stored message; only those with something real behind them can be forwarded. */
  datatype Message = Message(ticket: nat, telegramId: Option<nat>)

  /** `_conversation` */
  function Conversation(messages: seq<Message>, ticket: nat): seq<nat> {
    if messages == [] then []
    else
      var before := Conversation(messages[..|messages| - 1], ticket);
      var last := messages[|messages| - 1];
      if last.ticket == ticket && last.telegramId.Some? then before + [last.telegramId.value] else before
  }

  predicate IsClosed(t: Ticket) {
    t.row.status == WorkItems.Closed
  }

  // ---- `archive_one` ------------------------------------------------------------------

  function ForwardAll(conversation: seq<nat>, thread: nat, t: Telegram, fates: Fates): (Telegram, bool) {
    if conversation == [] then (t, true)
    else
      var before := ForwardAll(conversation[..|conversation| - 1], thread, t, fates);
      if before.1 then Attempt(before.0, fates, Forward(thread, conversation[|conversation| - 1])) else before
  }

  /** A closed topic in the archive holding the summary and the conversation; false if any call raised. */
  function Copy(conversation: seq<nat>, t: Telegram, fates: Fates): (Telegram, bool) {
    var created := Attempt(t, fates, CreateTopic(t.nextThread));
    if !created.1 then created
    else
      var posted := Attempt(created.0, fates, Post(t.nextThread));
      if !posted.1 then posted
      else
        var forwarded := ForwardAll(conversation, t.nextThread, posted.0, fates);
        if !forwarded.1 then forwarded else Attempt(forwarded.0, fates, CloseTopic(t.nextThread))
  }

  /** What one call leaves; `moved` is None if it raised. Whatever was flushed before a raise stays. */
  datatype Archived = Archived(ticket: Ticket, telegram: Telegram, moved: Option<bool>)

  function ArchiveOne(ticket: Ticket, hasArchive: bool, conversation: seq<nat>, t: Telegram, fates: Fates,
                      now: Time): Archived {
    if !hasArchive then Archived(ticket, t, Some(false))
    else
      var copied := Copy(conversation, t, fates);
      if !copied.1 then Archived(ticket, copied.0, None)
      else RemoveOriginal(ticket.(archiveTopic := Some(t.nextThread), archivedAt := Some(now)), copied.0, fates)
  }

  function RemoveOriginal(ticket: Ticket, t: Telegram, fates: Fates): Archived {
    if ticket.topic == None then Archived(ticket, t, Some(true))
    else
      var deleted := Attempt(t, fates, DeleteTopic(ticket.topic.value));
      if deleted.1 then Archived(ticket.(topic := None), deleted.0, Some(true)) else Archived(ticket, deleted.0, None)
  }

  // ---- what is due, and one sweep -------------------------------------------------------

  datatype Entry = Entry(id: nat, closedAt: Time)

  function ClosedWhen(e: Entry): int {
    e.closedAt
  }

  predicate IsDue(t: Ticket, archives: set<nat>, now: Time) {
    && t.department in archives && IsClosed(t) && t.row.closedAt.Some?
    && t.row.closedAt.value <= now - ARCHIVE_AFTER && t.archivedAt == None
  }

  /** The due tickets among the first `k`. */
  function DueAmong(tickets: seq<Ticket>, archives: set<nat>, now: Time, k: nat): (es: seq<Entry>)
    requires k <= |tickets|
    ensures forall e :: e in es ==> e.id < k && IsDue(tickets[e.id], archives, now)
  {
    if k == 0 then []
    else
      var before := DueAmong(tickets, archives, now, k - 1);
      if IsDue(tickets[k - 1], archives, now) then before + [Entry(k - 1, tickets[k - 1].row.closedAt.value)]
      else before
  }

  /** Everything due, oldest closure first. */
  function AllDue(tickets: seq<Ticket>, archives: set<nat>, now: Time): (es: seq<Entry>)
    ensures forall e :: e in es ==> e.id < |tickets| && IsDue(tickets[e.id], archives, now)
  {
    var among := DueAmong(tickets, archives, now, |tickets|);
    SortedKeeps(among, ClosedWhen);
    assert forall e :: e in Sorted(among, ClosedWhen) ==> e in multiset(Sorted(among, ClosedWhen));
    Sorted(among, ClosedWhen)
  }

  function Head(es: seq<Entry>, n: nat): seq<Entry> {
    if |es| <= n then es else es[..n]
  }

  /** `due_for_archive` */
  function DueForArchive(tickets: seq<Ticket>, archives: set<nat>, now: Time): seq<Entry> {
    Head(AllDue(tickets, archives, now), BATCH)
  }

  datatype Swept = Swept(tickets: seq<Ticket>, telegram: Telegram, moved: nat)

  /** The loop: a failure on one ticket does not stop the rest. */
  function SweepOver(batch: seq<Entry>, tickets: seq<Ticket>, archives: set<nat>, messages: seq<Message>, t: Telegram,
                     fates: Fates, now: Time): (s: Swept)
    requires forall e :: e in batch ==> e.id < |tickets|
    ensures |s.tickets| == |tickets| && s.moved <= |batch|
  {
    if batch == [] then Swept(tickets, t, 0)
    else
      var before := SweepOver(batch[..|batch| - 1], tickets, archives, messages, t, fates, now);
      var id := batch[|batch| - 1].id;
      SweepOne(before, id, archives, messages, fates, now)
  }

  function SweepOne(s: Swept, id: nat, archives: set<nat>, messages: seq<Message>, fates: Fates, now: Time): (s': Swept)
    requires id < |s.tickets|
    ensures |s'.tickets| == |s.tickets| && s.moved <= s'.moved <= s.moved + 1
  {
    var ticket := s.tickets[id];
    var one := ArchiveOne(ticket, ticket.department in archives, Conversation(messages, id), s.telegram, fates, now);
    Swept(s.tickets[id := one.ticket], one.telegram, if one.moved == Some(true) then s.moved + 1 else s.moved)
  }

  function Sweep(tickets: seq<Ticket>, archives: set<nat>, messages: seq<Message>, t: Telegram, fates: Fates,
                 now: Time): (s: Swept)
    ensures |s.tickets| == |tickets| && s.moved <= BATCH
  {
    SweepOver(DueForArchive(tickets, archives, now), tickets, archives, messages, t, fates, now)
  }

  // ---- closing and reopening ---------------------------------------------------------------

  /** Notices to the desk and to counterparties, any of which may raise. */
  function SayAll(notices: nat, t: Telegram, fates: Fates): (Telegram, bool) {
    if notices == 0 then (t, true)
    else
      var before := SayAll(notices - 1, t, fates);
      if before.1 then Attempt(before.0, fates, Say) else before
  }

  /** What is in memory when the call ends, and whether it ended well. */
  datatype Turned = Turned(ticket: Ticket, telegram: Telegram, ok: bool)

  function Close(ticket: Ticket, actor: WorkItems.Actor, notices: nat, t: Telegram, fates: Fates, now: Time): Turned {
    if IsClosed(ticket) then Turned(ticket, t, true)
    else
      match WorkItems.Act(ticket.row, WorkItems.Close, actor, now)
      case Refused(_) => Turned(ticket, t, false)
      case Done(row, _) =>
        var closed := ticket.(row := row);
        var said := SayAll(notices, t, fates);
        if !said.1 || ticket.topic == None then Turned(closed, said.0, said.1)
        else
          var shut := Attempt(said.0, fates, CloseTopic(ticket.topic.value));
          Turned(closed, shut.0, shut.1)
  }

  /** `_reopen_from_archive`: a fresh topic, its header, and the way back to the archived copy. */
  function FromArchive(ticket: Ticket, t: Telegram, fates: Fates): Turned {
    var created := Attempt(t, fates, CreateTopic(t.nextThread));
    if !created.1 then Turned(ticket, created.0, false)
    else
      var live := ticket.(topic := Some(t.nextThread), header := None, archivedAt := None, archiveTopic := None);
      var posted := Attempt(created.0, fates, Post(t.nextThread));
      if !posted.1 then Turned(live, posted.0, false)
      else
        var linked := Attempt(posted.0, fates, Post(t.nextThread));
        Turned(live.(header := Some(created.0.calls)), linked.0, linked.1)
  }

  function Reopen(ticket: Ticket, actor: WorkItems.Actor, notices: nat, t: Telegram, fates: Fates, now: Time): Turned {
    if !IsClosed(ticket) then Turned(ticket, t, true)
    else
      match WorkItems.Act(ticket.row, WorkItems.Reopen, actor, now)
      case Refused(_) => Turned(ticket, t, false)
      case Done(row, _) =>
        var back := BackInPlay(ticket.(row := row), t, fates);
        if !back.ok then back
        else
          var said := SayAll(notices, back.telegram, fates);
          Turned(back.ticket, said.0, said.1)
  }

  function BackInPlay(ticket: Ticket, t: Telegram, fates: Fates): Turned {
    if ticket.archivedAt.Some? then FromArchive(ticket, t, fates)
    else if ticket.topic == None then Turned(ticket, t, true)
    else
      var again := Attempt(t, fates, ReopenTopic(ticket.topic.value));
      Turned(ticket, again.0, again.1)
  }

  /** The transaction around a command: Telegram remembers, the database does not. */
  function Committed(before: Ticket, turned: Turned): Ticket {
    if turned.ok then turned.ticket else before
  }

  // ---- what one archiving does, whatever fails -------------------------------------------------

  function Forwards(conversation: seq<nat>, thread: nat): seq<Call> {
    seq(|conversation|, i requires 0 <= i < |conversation| => Forward(thread, conversation[i]))
  }

  /** A finished copy: created, summarised, the whole conversation in order, and closed. */
  function WholeCopy(conversation: seq<nat>, thread: nat): seq<Call> {
    [CreateTopic(thread), Post(thread)] + Forwards(conversation, thread) + [CloseTopic(thread)]
  }

  lemma {:induction false} ForwardAllIs(conversation: seq<nat>, thread: nat, t: Telegram, fates: Fates)
    ensures var (t', ok) := ForwardAll(conversation, thread, t, fates);
            && t.log <= t'.log && t'.nextThread == t.nextThread && t.calls <= t'.calls
            && (ok ==> t'.log == t.log + Forwards(conversation, thread))
            && (forall k :: |t.log| <= k < |t'.log| ==> t'.log[k].Forward?)
  {
    if conversation == [] {
      assert t.log + Forwards([], thread) == t.log;
    } else {
      var n := |conversation| - 1;
      ForwardAllIs(conversation[..n], thread, t, fates);
      assert Forwards(conversation, thread) == Forwards(conversation[..n], thread) + [Forward(thread, conversation[n])];
    }
  }

  /** The copy deletes nothing; and it says it succeeded only when the archive holds all of it. */
  lemma CopyIs(conversation: seq<nat>, t: Telegram, fates: Fates)
    ensures var (t', ok) := Copy(conversation, t, fates);
            && t.log <= t'.log && t'.nextThread == t.nextThread + 1
            && (ok ==> t'.log == t.log + WholeCopy(conversation, t.nextThread))
            && (forall k :: |t.log| <= k < |t'.log| ==> !t'.log[k].DeleteTopic?)
  {
    var thread := t.nextThread;
    var created := Attempt(t, fates, CreateTopic(thread));
    var posted := Attempt(created.0, fates, Post(thread));
    ForwardAllIs(conversation, thread, posted.0, fates);
  }

  /** Where a raise leaves the ticket: untouched, or archived with its original still to be removed. */
  lemma ArchiveOneIs(ticket: Ticket, hasArchive: bool, conversation: seq<nat>, t: Telegram, fates: Fates, now: Time)
    ensures var one := ArchiveOne(ticket, hasArchive, conversation, t, fates, now);
            var archived := ticket.(archiveTopic := Some(t.nextThread), archivedAt := Some(now));
            && t.log <= one.telegram.log && t.nextThread <= one.telegram.nextThread
            && (one.moved == Some(false) <==> !hasArchive)
            && (one.ticket == ticket || one.ticket == archived || one.ticket == archived.(topic := None))
            && (one.moved == Some(true) ==> one.ticket == archived.(topic := None))
            && (one.moved == Some(false) ==> one.ticket == ticket && one.telegram == t)
            && (one.ticket.archivedAt != ticket.archivedAt ==>
                  t.log + WholeCopy(conversation, t.nextThread) <= one.telegram.log)
            && (forall k :: |t.log| <= k < |one.telegram.log| && one.telegram.log[k].DeleteTopic? ==>
                  && one.telegram.log[..k] == t.log + WholeCopy(conversation, t.nextThread)
                  && ticket.topic == Some(one.telegram.log[k].topic)
                  && one.ticket.archivedAt == Some(now) && t.nextThread < one.telegram.nextThread)
  {
    if hasArchive {
      CopyIs(conversation, t, fates);
    }
  }

  /** All of the next `n` calls work. */
  ghost predicate AllWork(fates: Fates, from: nat, n: nat) {
    forall k: nat :: from <= k < from + n ==> fates(k).Works?
  }

  lemma {:induction false} ForwardAllCalls(conversation: seq<nat>, thread: nat, t: Telegram, fates: Fates)
    ensures var (t', ok) := ForwardAll(conversation, thread, t, fates);
            && (ok <==> AllWork(fates, t.calls, |conversation|))
            && (ok ==> t'.calls == t.calls + |conversation|)
  {
    if conversation != [] {
      ForwardAllCalls(conversation[..|conversation| - 1], thread, t, fates);
    }
  }

  /** The calls of a copy: a topic, the summary, one for each message, and the closing. */
  function CallsToCopy(conversation: seq<nat>): nat {
    |conversation| + 3
  }

  lemma CopyCalls(conversation: seq<nat>, t: Telegram, fates: Fates)
    ensures var (t', ok) := Copy(conversation, t, fates);
            && (ok <==> AllWork(fates, t.calls, CallsToCopy(conversation)))
            && (ok ==> t'.calls == t.calls + CallsToCopy(conversation))
  {
    var posted := Attempt(Attempt(t, fates, CreateTopic(t.nextThread)).0, fates, Post(t.nextThread)).0;
    ForwardAllCalls(conversation, t.nextThread, posted, fates);
    if AllWork(fates, t.calls, CallsToCopy(conversation)) {
      assert fates(t.calls).Works? && fates(t.calls + 1).Works? && fates(t.calls + 2 + |conversation|).Works?;
    } else {
      var k: nat :| t.calls <= k < t.calls + CallsToCopy(conversation) && !fates(k).Works?;
    }
  }

  /**
   Which call fails decides whether the ticket is due again. It raises if a call of the copy fails, or
   the deletion's. It is due at any later moment if and only if it was a call of the copy; otherwise
   it is marked archived, and if then the deletion fails it keeps its topic, whether or not Telegram does.
   */
  lemma DueAgainIff(ticket: Ticket, archives: set<nat>, conversation: seq<nat>, t: Telegram, fates: Fates, now: Time,
                    later: Time)
    requires IsDue(ticket, archives, now) && now <= later
    ensures var one := ArchiveOne(ticket, true, conversation, t, fates, now);
            var copied := AllWork(fates, t.calls, CallsToCopy(conversation));
            var deleted := ticket.topic == None || fates(t.calls + CallsToCopy(conversation)).Works?;
            && (one.moved == None <==> !(copied && deleted))
            && (IsDue(one.ticket, archives, later) <==> !copied)
            && (copied ==>
                  && one.ticket.archivedAt == Some(now)
                  && one.ticket.topic == if deleted then None else ticket.topic)
  {
    CopyCalls(conversation, t, fates);
  }

  function FailsAt(call: nat): Fates {
    n => if n == call then Fails else Works
  }

  /** Such a ticket: nothing stored of it, a finished copy, and a deletion that fails before its effect. */
  lemma DeletionFails(ticket: Ticket, archives: set<nat>, t: Telegram, now: Time, later: Time)
    requires IsDue(ticket, archives, now) && ticket.topic.Some? && now <= later
    ensures var one := ArchiveOne(ticket, true, [], t, FailsAt(t.calls + 3), now);
            && one.moved == None && !IsDue(one.ticket, archives, later)
            && one.telegram.log == t.log + WholeCopy([], t.nextThread)
            && one.ticket.topic == ticket.topic
  {
    assert Forwards([], t.nextThread) == [];
  }
}
