/** What closing, reopening and archiving keep over any run, whichever gateway calls fail. */
module ArchiveRuns {
  import opened Prelude
  import opened Sorting
  import opened Archive
  import WorkItems

  datatype World = World(tickets: seq<Ticket>, messages: seq<Message>, archives: set<nat>, telegram: Telegram)

  datatype Action =
    | Raise(department: nat, priority: WorkItems.Priority)
    | Store(message: Message)
    | Register(department: nat)
    | Deactivate(department: nat)
    | Change(ticket: nat, action: WorkItems.Action, actor: WorkItems.Actor)
    | CloseOne(ticket: nat, actor: WorkItems.Actor, notices: nat)
    | ReopenOne(ticket: nat, actor: WorkItems.Actor, notices: nat)
    | SweepAll

  /** A new request has a live topic before anything else can be done with it. */
  function Raised(w: World, department: nat, priority: WorkItems.Priority): World {
    var row := WorkItems.Row(|w.tickets|, WorkItems.Open, priority, None, None);
    w.(tickets := w.tickets + [Ticket(row, department, Some(w.telegram.nextThread), None, None, None)],
       telegram := w.telegram.(nextThread := w.telegram.nextThread + 1))
  }

  /** Everything about a work item except closing and reopening it, which the relay does. */
  function Changed(ticket: Ticket, action: WorkItems.Action, actor: WorkItems.Actor, now: Time): Ticket {
    if action.Close? || action.Reopen? then ticket
    else
      match WorkItems.Act(ticket.row, action, actor, now)
      case Done(row, _) => ticket.(row := row)
      case Refused(_) => ticket
  }

  function Next(w: World, action: Action, fates: Fates, now: Time): World {
    match action
    case Raise(department, priority) => Raised(w, department, priority)
    case Store(message) => w.(messages := w.messages + [message])
    case Register(department) => w.(archives := w.archives + {department})
    case Deactivate(department) => w.(archives := w.archives - {department})
    case Change(i, a, actor) =>
      if i < |w.tickets| then w.(tickets := w.tickets[i := Changed(w.tickets[i], a, actor, now)]) else w
    case CloseOne(i, actor, notices) =>
      if i < |w.tickets| then Put(w, i, Close(w.tickets[i], actor, notices, w.telegram, fates, now)) else w
    case ReopenOne(i, actor, notices) =>
      if i < |w.tickets| then Put(w, i, Reopen(w.tickets[i], actor, notices, w.telegram, fates, now)) else w
    case SweepAll =>
      var s := Sweep(w.tickets, w.archives, w.messages, w.telegram, fates, now);
      w.(tickets := s.tickets, telegram := s.telegram)
  }

  function Put(w: World, i: nat, turned: Turned): World
    requires i < |w.tickets|
  {
    w.(tickets := w.tickets[i := Committed(w.tickets[i], turned)], telegram := turned.telegram)
  }

  datatype Timed = Timed(action: Action, now: Time)

  function Exec(w: World, run: seq<Timed>, fates: Fates): World
    decreases |run|
  {
    if run == [] then w else Exec(Next(w, run[0].action, fates, run[0].now), run[1..], fates)
  }

  const START := World([], [], {}, Telegram([], 0, 0))

  // ---- the invariant -------------------------------------------------------------------

  predicate TicketOk(t: Ticket) {
    && (t.row.closedAt.Some? <==> IsClosed(t))
    && (t.archivedAt.Some? ==> IsClosed(t))
    && (t.archivedAt == None ==> t.topic.Some?)
  }

  ghost predicate Deleted(log: seq<Call>, topic: nat) {
    exists k :: 0 <= k < |log| && log[k].DeleteTopic? && log[k].topic == topic
  }

  ghost predicate TopicsOk(tickets: seq<Ticket>, t: Telegram) {
    && (forall i :: 0 <= i < |tickets| && tickets[i].topic.Some? ==> tickets[i].topic.value < t.nextThread)
    && (forall i, j :: 0 <= i < j < |tickets| && tickets[i].topic.Some? ==> tickets[i].topic != tickets[j].topic)
    && (forall i :: 0 <= i < |tickets| && tickets[i].topic.Some? && tickets[i].archivedAt == None ==>
          !Deleted(t.log, tickets[i].topic.value))
    && (forall k :: 0 <= k < |t.log| && t.log[k].DeleteTopic? ==> t.log[k].topic < t.nextThread)
  }

  ghost predicate DeskOk(tickets: seq<Ticket>, t: Telegram) {
    && (forall i :: 0 <= i < |tickets| ==> TicketOk(tickets[i]))
    && TopicsOk(tickets, t)
    && CopiesOk(tickets, t)
  }

  /** A thread that holds a copy: nobody's topic, and never deleted. */
  ghost predicate Kept(tickets: seq<Ticket>, t: Telegram, thread: nat) {
    && thread < t.nextThread && !Deleted(t.log, thread)
    && forall i :: 0 <= i < |tickets| ==> tickets[i].topic != Some(thread)
  }

  /** The call before each deletion closed a thread of the archive, which is still there. */
  ghost predicate CopiesOk(tickets: seq<Ticket>, t: Telegram) {
    forall k :: 0 <= k < |t.log| && t.log[k].DeleteTopic? ==>
      k > 0 && t.log[k - 1].CloseTopic? && Kept(tickets, t, t.log[k - 1].thread)
  }

  // ---- what any one operation does to its ticket -----------------------------------------

  ghost predicate Turns(before: Ticket, t: Telegram, after: Ticket, t': Telegram) {
    && t.log <= t'.log && t.nextThread <= t'.nextThread
    && TicketOk(after)
    && (after.topic == None || after.topic == before.topic || NewTopic(after, t, t'))
    && (before.archivedAt.Some? && after.archivedAt == None ==> NewTopic(after, t, t'))
    && (forall k :: |t.log| <= k < |t'.log| && t'.log[k].DeleteTopic? ==>
          && before.topic == Some(t'.log[k].topic) && after.archivedAt.Some?
          && |t.log| < k && t'.log[k - 1].CloseTopic?
          && t.nextThread <= t'.log[k - 1].thread < t'.nextThread && after.topic != Some(t'.log[k - 1].thread))
  }

  predicate NewTopic(after: Ticket, t: Telegram, t': Telegram) {
    after.topic.Some? && t.nextThread <= after.topic.value < t'.nextThread
  }

  lemma TurnKeepsTopics(tickets: seq<Ticket>, i: nat, t: Telegram, after: Ticket, t': Telegram)
    requires i < |tickets| && TopicsOk(tickets, t) && Turns(tickets[i], t, after, t')
    ensures TopicsOk(tickets[i := after], t')
  {
    var tickets' := tickets[i := after];
    forall k | 0 <= k < |t'.log| && t'.log[k].DeleteTopic? ensures t'.log[k].topic < t'.nextThread {
      assert k < |t.log| ==> t.log[k] == t'.log[k];
    }
    forall j | 0 <= j < |tickets'| && tickets'[j].topic.Some? && tickets'[j].archivedAt == None
      ensures !Deleted(t'.log, tickets'[j].topic.value)
    {
      forall k | 0 <= k < |t'.log| && t'.log[k].DeleteTopic? ensures t'.log[k].topic != tickets'[j].topic.value {
        if k < |t.log| {
          assert t.log[k] == t'.log[k];
          assert !(j == i && NewTopic(after, t, t')) ==> !Deleted(t.log, tickets'[j].topic.value);
        } else {
          assert j < i ==> tickets[j].topic != tickets[i].topic;
          assert i < j ==> tickets[i].topic != tickets[j].topic;
        }
      }
    }
  }

  lemma TurnKeepsCopies(tickets: seq<Ticket>, i: nat, t: Telegram, after: Ticket, t': Telegram)
    requires i < |tickets| && TopicsOk(tickets, t) && CopiesOk(tickets, t) && Turns(tickets[i], t, after, t')
    ensures CopiesOk(tickets[i := after], t')
  {
    forall k | 0 <= k < |t'.log| && t'.log[k].DeleteTopic?
      ensures k > 0 && t'.log[k - 1].CloseTopic? && Kept(tickets[i := after], t', t'.log[k - 1].thread)
    {
      if k < |t.log| {
        assert t.log[k] == t'.log[k] && t.log[k - 1] == t'.log[k - 1];
      }
      var thread := t'.log[k - 1].thread;
      assert !Deleted(t.log, thread);
      forall m | 0 <= m < |t'.log| && t'.log[m].DeleteTopic? ensures t'.log[m].topic != thread {
        if m < |t.log| {
          assert t.log[m] == t'.log[m];
        }
      }
    }
  }

  lemma TurnKeepsDesk(tickets: seq<Ticket>, i: nat, t: Telegram, after: Ticket, t': Telegram)
    requires i < |tickets| && DeskOk(tickets, t) && Turns(tickets[i], t, after, t')
    ensures DeskOk(tickets[i := after], t')
  {
    TurnKeepsTopics(tickets, i, t, after, t');
    TurnKeepsCopies(tickets, i, t, after, t');
  }

  /** An operation that deletes nothing. */
  ghost predicate NoDeletions(t: Telegram, t': Telegram) {
    && t.log <= t'.log && t.nextThread <= t'.nextThread
    && forall k :: |t.log| <= k < |t'.log| ==> !t'.log[k].DeleteTopic?
  }

  lemma {:induction false} SayAllDeletesNothing(notices: nat, t: Telegram, fates: Fates)
    ensures NoDeletions(t, SayAll(notices, t, fates).0)
  {
    if notices > 0 {
      SayAllDeletesNothing(notices - 1, t, fates);
    }
  }

  lemma CloseTurns(ticket: Ticket, actor: WorkItems.Actor, notices: nat, t: Telegram, fates: Fates, now: Time)
    requires TicketOk(ticket)
    ensures var turned := Close(ticket, actor, notices, t, fates, now);
            NoDeletions(t, turned.telegram) && Turns(ticket, t, Committed(ticket, turned), turned.telegram)
  {
    SayAllDeletesNothing(notices, t, fates);
  }

  lemma BackInPlayTurns(ticket: Ticket, t: Telegram, fates: Fates)
    ensures var back := BackInPlay(ticket, t, fates);
            && NoDeletions(t, back.telegram) && back.ticket.row == ticket.row
            && (back.ok ==> back.ticket.archivedAt == None)
            && (back.ok ==> back.ticket.topic == ticket.topic || NewTopic(back.ticket, t, back.telegram))
            && (back.ok && ticket.archivedAt.Some? ==> NewTopic(back.ticket, t, back.telegram))
  {
  }

  lemma ReopenTurns(ticket: Ticket, actor: WorkItems.Actor, notices: nat, t: Telegram, fates: Fates, now: Time)
    requires TicketOk(ticket)
    ensures var turned := Reopen(ticket, actor, notices, t, fates, now);
            NoDeletions(t, turned.telegram) && Turns(ticket, t, Committed(ticket, turned), turned.telegram)
  {
    if IsClosed(ticket) && WorkItems.Act(ticket.row, WorkItems.Reopen, actor, now).Done? {
      var live := ticket.(row := WorkItems.Act(ticket.row, WorkItems.Reopen, actor, now).row);
      BackInPlayTurns(live, t, fates);
      SayAllDeletesNothing(notices, BackInPlay(live, t, fates).telegram, fates);
    }
  }

  lemma ArchiveTurns(ticket: Ticket, hasArchive: bool, conversation: seq<nat>, t: Telegram, fates: Fates, now: Time)
    requires TicketOk(ticket) && IsClosed(ticket)
    requires ticket.topic.Some? ==> ticket.topic.value < t.nextThread
    ensures var one := ArchiveOne(ticket, hasArchive, conversation, t, fates, now);
            Turns(ticket, t, one.ticket, one.telegram) && one.ticket.row == ticket.row
  {
    ArchiveOneIs(ticket, hasArchive, conversation, t, fates, now);
    var one := ArchiveOne(ticket, hasArchive, conversation, t, fates, now);
    forall k | |t.log| <= k < |one.telegram.log| && one.telegram.log[k].DeleteTopic?
      ensures |t.log| < k && one.telegram.log[k - 1] == CloseTopic(t.nextThread)
    {
      var copy := WholeCopy(conversation, t.nextThread);
      assert one.telegram.log[k - 1] == one.telegram.log[..k][k - 1] == copy[|copy| - 1];
    }
  }

  // ---- a sweep -----------------------------------------------------------------------------

  /** A sweep touches nothing of a ticket but its archiving. */
  predicate SameRows(tickets: seq<Ticket>, tickets': seq<Ticket>) {
    |tickets'| == |tickets| && forall i :: 0 <= i < |tickets| ==> tickets'[i].row == tickets[i].row
  }

  lemma {:induction false} SweepKeepsDesk(batch: seq<Entry>, tickets: seq<Ticket>, archives: set<nat>,
                                          messages: seq<Message>,
                                          t: Telegram, fates: Fates, now: Time)
    requires DeskOk(tickets, t) && forall e :: e in batch ==> e.id < |tickets| && IsClosed(tickets[e.id])
    ensures var s := SweepOver(batch, tickets, archives, messages, t, fates, now);
            DeskOk(s.tickets, s.telegram) && SameRows(tickets, s.tickets)
    decreases |batch|
  {
    if batch != [] {
      var n := |batch| - 1;
      SweepKeepsDesk(batch[..n], tickets, archives, messages, t, fates, now);
      assert batch[n] in batch;
      SweepOneKeepsDesk(SweepOver(batch[..n], tickets, archives, messages, t, fates, now), batch[n].id, archives,
                        messages, fates, now);
    }
  }

  lemma SweepOneKeepsDesk(s: Swept, id: nat, archives: set<nat>, messages: seq<Message>, fates: Fates, now: Time)
    requires DeskOk(s.tickets, s.telegram) && id < |s.tickets| && IsClosed(s.tickets[id])
    ensures var s' := SweepOne(s, id, archives, messages, fates, now);
            DeskOk(s'.tickets, s'.telegram) && SameRows(s.tickets, s'.tickets)
  {
    var ticket := s.tickets[id];
    var conversation := Conversation(messages, id);
    ArchiveTurns(ticket, ticket.department in archives, conversation, s.telegram, fates, now);
    var one := ArchiveOne(ticket, ticket.department in archives, conversation, s.telegram, fates, now);
    TurnKeepsDesk(s.tickets, id, s.telegram, one.ticket, one.telegram);
  }

  // ---- every run ----------------------------------------------------------------------------

  lemma RaiseKeepsDesk(w: World, department: nat, priority: WorkItems.Priority)
    requires DeskOk(w.tickets, w.telegram)
    ensures var w' := Raised(w, department, priority); DeskOk(w'.tickets, w'.telegram)
  {
    var w' := Raised(w, department, priority);
    forall i | 0 <= i < |w'.tickets| && w'.tickets[i].topic.Some? && w'.tickets[i].archivedAt == None
      ensures !Deleted(w'.telegram.log, w'.tickets[i].topic.value)
    {
      assert i < |w.tickets| ==> w'.tickets[i] == w.tickets[i];
    }
  }

  lemma PutKeepsDesk(w: World, i: nat, turned: Turned)
    requires i < |w.tickets| && DeskOk(w.tickets, w.telegram)
    requires NoDeletions(w.telegram, turned.telegram)
             && Turns(w.tickets[i], w.telegram, Committed(w.tickets[i], turned), turned.telegram)
    ensures var w' := Put(w, i, turned); DeskOk(w'.tickets, w'.telegram)
  {
    TurnKeepsDesk(w.tickets, i, w.telegram, Committed(w.tickets[i], turned), turned.telegram);
  }

  lemma ChangeKeepsDesk(w: World, i: nat, action: WorkItems.Action, actor: WorkItems.Actor, now: Time)
    requires i < |w.tickets| && DeskOk(w.tickets, w.telegram)
    ensures DeskOk(w.tickets[i := Changed(w.tickets[i], action, actor, now)], w.telegram)
  {
    TurnKeepsDesk(w.tickets, i, w.telegram, Changed(w.tickets[i], action, actor, now), w.telegram);
  }

  lemma ActionKeepsDesk(w: World, action: Action, fates: Fates, now: Time)
    requires DeskOk(w.tickets, w.telegram)
    ensures var w' := Next(w, action, fates, now); DeskOk(w'.tickets, w'.telegram)
  {
    match action
    case Raise(department, priority) => RaiseKeepsDesk(w, department, priority);
    case Store(_) =>
    case Register(_) =>
    case Deactivate(_) =>
    case Change(i, a, actor) =>
      if i < |w.tickets| {
        ChangeKeepsDesk(w, i, a, actor, now);
      }
    case CloseOne(i, actor, notices) =>
      if i < |w.tickets| {
        CloseTurns(w.tickets[i], actor, notices, w.telegram, fates, now);
        PutKeepsDesk(w, i, Close(w.tickets[i], actor, notices, w.telegram, fates, now));
      }
    case ReopenOne(i, actor, notices) =>
      if i < |w.tickets| {
        ReopenTurns(w.tickets[i], actor, notices, w.telegram, fates, now);
        PutKeepsDesk(w, i, Reopen(w.tickets[i], actor, notices, w.telegram, fates, now));
      }
    case SweepAll =>
      SweepKeepsDesk(DueForArchive(w.tickets, w.archives, now), w.tickets, w.archives, w.messages, w.telegram, fates,
                     now);
  }

  lemma {:induction false} RunKeepsDesk(w: World, run: seq<Timed>, fates: Fates)
    requires DeskOk(w.tickets, w.telegram)
    ensures var w' := Exec(w, run, fates); DeskOk(w'.tickets, w'.telegram)
    decreases |run|
  {
    if run != [] {
      ActionKeepsDesk(w, run[0].action, fates, run[0].now);
      RunKeepsDesk(Next(w, run[0].action, fates, run[0].now), run[1..], fates);
    }
  }
}
