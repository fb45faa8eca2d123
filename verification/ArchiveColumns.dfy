/**
 What the archive's steps do to a ticket and to Telegram, column by column and
 call by call (app/services/archive.py:94-299, app/services/relay.py:1584-1680, 2318-2377).
 */
module ArchiveColumns {
  import opened Prelude
  import opened Sorting
  import opened Archive
  import WorkItems

  // ---- what is copied ------------------------------------------------------------

  /** How many of the ticket's first `k` messages can be forwarded is the place of the next one. */
  lemma {:induction false} MessageIsCopied(messages: seq<Message>, ticket: nat, k: nat)
    requires k < |messages|
    ensures var place := |Conversation(messages[..k], ticket)|;
            var upToIt := |Conversation(messages[..k + 1], ticket)|;
            if messages[k].ticket == ticket && messages[k].telegramId.Some?
            then && upToIt == place + 1 && place < |Conversation(messages, ticket)|
                 && Conversation(messages, ticket)[place] == messages[k].telegramId.value
            else upToIt == place
    decreases |messages|
  {
    var n := |messages| - 1;
    if k == n {
      assert messages[..k + 1] == messages && messages[..k + 1][..k] == messages[..k];
    } else {
      MessageIsCopied(messages[..n], ticket, k);
      assert messages[..n][..k] == messages[..k] && messages[..n][..k + 1] == messages[..k + 1];
    }
  }

  /** Nothing else is in the conversation. */
  lemma {:induction false} NothingElseIsCopied(messages: seq<Message>, ticket: nat, place: nat) returns (k: nat)
    requires place < |Conversation(messages, ticket)|
    ensures k < |messages| && |Conversation(messages[..k], ticket)| == place
    ensures messages[k] == Message(ticket, Some(Conversation(messages, ticket)[place]))
    decreases |messages|
  {
    k := |messages| - 1;
    if place < |Conversation(messages[..k], ticket)| {
      var rest := messages[..k];
      k := NothingElseIsCopied(rest, ticket, place);
      assert rest[..k] == messages[..k];
    }
  }

  // ---- what is due ----------------------------------------------------------------

  lemma {:induction false} AmongIff(tickets: seq<Ticket>, archives: set<nat>, now: Time, k: nat, e: Entry)
    requires k <= |tickets|
    ensures e in DueAmong(tickets, archives, now, k)
       <==> && e.id < k && tickets[e.id].department in archives
            && tickets[e.id].row.status == WorkItems.Closed && tickets[e.id].archivedAt == None
            && tickets[e.id].row.closedAt == Some(e.closedAt) && now - e.closedAt >= 86_400
  {
    if k > 0 {
      AmongIff(tickets, archives, now, k - 1, e);
    }
  }

  /** A closed ticket of a desk with an archive, not archived yet, a day or more after it was closed. */
  lemma DueMeans(tickets: seq<Ticket>, archives: set<nat>, now: Time, e: Entry)
    ensures e in AllDue(tickets, archives, now)
       <==> && e.id < |tickets| && tickets[e.id].department in archives
            && tickets[e.id].row.status == WorkItems.Closed && tickets[e.id].archivedAt == None
            && tickets[e.id].row.closedAt == Some(e.closedAt) && now - e.closedAt >= 86_400
  {
    var among := DueAmong(tickets, archives, now, |tickets|);
    SortedKeeps(among, ClosedWhen);
    assert e in AllDue(tickets, archives, now) <==> e in multiset(among);
    AmongIff(tickets, archives, now, |tickets|, e);
  }

  /** The ten that were closed first, or all of them where there are fewer. */
  lemma BatchIsTheOldest(tickets: seq<Ticket>, archives: set<nat>, now: Time)
    ensures var all, batch := AllDue(tickets, archives, now), DueForArchive(tickets, archives, now);
            && |batch| == (if |all| < 10 then |all| else 10) && batch <= all
            && forall i, j :: 0 <= i < |batch| && i < j < |all| ==> batch[i].closedAt <= all[j].closedAt
  {
    SortedKeeps(DueAmong(tickets, archives, now, |tickets|), ClosedWhen);
  }

  // ---- closing and reopening ---------------------------------------------------------

  function Notices(n: nat): seq<Call> {
    seq(n, _ => Say)
  }

  lemma {:induction false} SayAllSays(notices: nat, t: Telegram, fates: Fates)
    ensures var (t', ok) := SayAll(notices, t, fates);
            && (ok <==> AllWork(fates, t.calls, notices))
            && (ok ==> t'.log == t.log + Notices(notices) && t'.calls == t.calls + notices)
            && t'.nextThread == t.nextThread
  {
    if notices == 0 {
      assert t.log + Notices(0) == t.log;
    } else {
      SayAllSays(notices - 1, t, fates);
      assert Notices(notices) == Notices(notices - 1) + [Say];
    }
  }

  /** Closing sets the status and its time, tells everybody, and closes the live topic last. */
  lemma ClosingWrites(ticket: Ticket, actor: WorkItems.Actor, notices: nat, t: Telegram, fates: Fates, now: Time)
    ensures var r := Close(ticket, actor, notices, t, fates, now);
            if ticket.row.status == WorkItems.Closed then r == Turned(ticket, t, true)
            else if !WorkItems.Entitled(actor, WorkItems.OPERATOR) then r == Turned(ticket, t, false)
            else
              && r.ticket.row == ticket.row.(status := WorkItems.Closed, closedAt := Some(now))
              && r.ticket == ticket.(row := r.ticket.row)
              && (r.ok <==> AllWork(fates, t.calls, notices + if ticket.topic.Some? then 1 else 0))
              && (r.ok ==> r.telegram.log == t.log + Notices(notices)
                                           + (if ticket.topic.Some? then [CloseTopic(ticket.topic.value)] else []))
  {
    SayAllSays(notices, t, fates);
    if ticket.topic.Some? {
      AllWorkJoins(fates, t.calls, notices, 1);
    }
  }

  lemma AllWorkJoins(fates: Fates, from: nat, m: nat, n: nat)
    ensures AllWork(fates, from, m) && AllWork(fates, from + m, n) <==> AllWork(fates, from, m + n)
  {
  }

  /**
   Reopening an archived ticket gives it a new topic with a header, and a link to the copy it no longer keeps;
   any other gets its own topic open again. Then everybody is told.
   */
  lemma ReopeningWrites(ticket: Ticket, actor: WorkItems.Actor, notices: nat, t: Telegram, fates: Fates, now: Time)
    ensures var r := Reopen(ticket, actor, notices, t, fates, now);
            var row := ticket.row.(status := WorkItems.InProgress, closedAt := None);
            if ticket.row.status != WorkItems.Closed then r == Turned(ticket, t, true)
            else if !WorkItems.Entitled(actor, WorkItems.MANAGER) then r == Turned(ticket, t, false)
            else if ticket.archivedAt.Some? then
              && (r.ok <==> AllWork(fates, t.calls, notices + 3))
              && (r.ok ==>
                    && r.ticket == Ticket(row, ticket.department, Some(t.nextThread), Some(t.calls + 1), None, None)
                    && r.telegram.log == t.log + [CreateTopic(t.nextThread), Post(t.nextThread), Post(t.nextThread)]
                                       + Notices(notices))
            else
              var again := if ticket.topic.Some? then [ReopenTopic(ticket.topic.value)] else [];
              && (r.ok <==> AllWork(fates, t.calls, notices + |again|))
              && r.ticket == ticket.(row := row)
              && (r.ok ==> r.telegram.log == t.log + again + Notices(notices))
  {
    var row := ticket.row.(status := WorkItems.InProgress, closedAt := None);
    if ticket.row.status == WorkItems.Closed && WorkItems.Entitled(actor, WorkItems.MANAGER) {
      var back := BackInPlay(ticket.(row := row), t, fates);
      BackInPlayWrites(ticket.(row := row), t, fates);
      SayAllSays(notices, back.telegram, fates);
      AllWorkJoins(fates, t.calls, CallsBack(ticket), notices);
    }
  }

  function CallsBack(ticket: Ticket): nat {
    if ticket.archivedAt.Some? then 3 else if ticket.topic.Some? then 1 else 0
  }

  lemma BackInPlayWrites(ticket: Ticket, t: Telegram, fates: Fates)
    ensures var back := BackInPlay(ticket, t, fates);
            && (back.ok <==> AllWork(fates, t.calls, CallsBack(ticket)))
            && (back.ok ==> back.telegram.calls == t.calls + CallsBack(ticket))
            && (ticket.archivedAt == None ==> back.ticket == ticket)
            && (back.ok ==>
                  if ticket.archivedAt.Some? then
                    && back.ticket == Ticket(ticket.row, ticket.department, Some(t.nextThread), Some(t.calls + 1), None,
                                             None)
                    && back.telegram.log == t.log + [CreateTopic(t.nextThread), Post(t.nextThread), Post(t.nextThread)]
                  else back.telegram.log
                       == t.log + if ticket.topic.Some? then [ReopenTopic(ticket.topic.value)] else [])
  {
    if ticket.archivedAt.Some? {
      ThreeWork(fates, t.calls);
    }
  }

  lemma ThreeWork(fates: Fates, from: nat)
    ensures AllWork(fates, from, 3) <==> fates(from).Works? && fates(from + 1).Works? && fates(from + 2).Works?
  {
    if AllWork(fates, from, 3) {
      assert fates(from).Works? && fates(from + 1).Works? && fates(from + 2).Works?;
    }
  }
}
