/**
 Archiving, closing and reopening as the program does them: an item whose columns
 are assigned between calls to a gateway that may raise. Each method is proved
 equal to the function of the `Archive` module it implements.
 */
module ArchiveDesk {
  import opened Prelude
  import opened Archive
  import WorkItems

  class Gateway {
    const fates: Fates
    var log: seq<Call>
    var calls: nat
    var nextThread: nat

    constructor (fates: Fates)
      ensures this.fates == fates && State() == Telegram([], 0, 0)
    {
      this.fates := fates;
      log, calls, nextThread := [], 0, 0;
    }

    function State(): Telegram
      reads this
    {
      Telegram(log, calls, nextThread)
    }

    /** One call: false is the exception, whether or not the call had its effect first. */
    method Try(call: Call) returns (ok: bool)
      modifies this
      ensures (State(), ok) == Attempt(old(State()), fates, call)
    {
      var fate := fates(calls);
      calls := calls + 1;
      if call.CreateTopic? {
        nextThread := nextThread + 1;
      }
      if !fate.Fails? {
        log := log + [call];
      }
      ok := fate.Works?;
    }

    method ForwardConversation(conversation: seq<nat>, thread: nat) returns (ok: bool)
      modifies this
      ensures (State(), ok) == ForwardAll(conversation, thread, old(State()), fates)
    {
      var i := 0;
      ok := true;
      while i < |conversation|
        invariant 0 <= i <= |conversation|
        invariant ok && (State(), ok) == ForwardAll(conversation[..i], thread, old(State()), fates)
      {
        assert conversation[..i + 1][..i] == conversation[..i];
        ok := Try(Forward(thread, conversation[i]));
        i := i + 1;
        if !ok {
          StopsThere(conversation, i, thread, old(State()), fates);
          return;
        }
      }
      assert conversation[..i] == conversation;
    }

    /** Announcements and notices, one after another until one raises. */
    method Announce(notices: nat) returns (ok: bool)
      modifies this
      ensures (State(), ok) == SayAll(notices, old(State()), fates)
    {
      var i := 0;
      ok := true;
      while i < notices
        invariant 0 <= i <= notices
        invariant ok && (State(), ok) == SayAll(i, old(State()), fates)
      {
        ok := Try(Say);
        i := i + 1;
        if !ok {
          SilentAfter(i, notices, old(State()), fates);
          return;
        }
      }
    }
  }

  lemma {:induction false} StopsThere(conversation: seq<nat>, i: nat, thread: nat, t: Telegram, fates: Fates)
    requires i <= |conversation| && !ForwardAll(conversation[..i], thread, t, fates).1
    ensures ForwardAll(conversation, thread, t, fates) == ForwardAll(conversation[..i], thread, t, fates)
    decreases |conversation|
  {
    if i == |conversation| {
      assert conversation[..i] == conversation;
    } else {
      var shorter := conversation[..|conversation| - 1];
      assert shorter[..i] == conversation[..i];
      StopsThere(shorter, i, thread, t, fates);
    }
  }

  lemma {:induction false} SilentAfter(i: nat, notices: nat, t: Telegram, fates: Fates)
    requires i <= notices && !SayAll(i, t, fates).1
    ensures SayAll(notices, t, fates) == SayAll(i, t, fates)
    decreases notices
  {
    if i < notices {
      SilentAfter(i, notices - 1, t, fates);
    }
  }

  class Item {
    var row: WorkItems.Row
    const department: nat
    var topic: Option<nat>
    var header: Option<nat>
    var archivedAt: Option<Time>
    var archiveTopic: Option<nat>

    constructor (ticket: Ticket)
      ensures Columns() == ticket
    {
      row, department, topic, header := ticket.row, ticket.department, ticket.topic, ticket.header;
      archivedAt, archiveTopic := ticket.archivedAt, ticket.archiveTopic;
    }

    function Columns(): Ticket
      reads this
    {
      Ticket(row, department, topic, header, archivedAt, archiveTopic)
    }

    /** The object goes back to what the database holds. */
    method Rollback(saved: Ticket)
      requires saved.department == department
      modifies this
      ensures Columns() == saved
    {
      row, topic, header := saved.row, saved.topic, saved.header;
      archivedAt, archiveTopic := saved.archivedAt, saved.archiveTopic;
    }

    method MoveToArchive(hasArchive: bool, conversation: seq<nat>, gateway: Gateway,
                         now: Time) returns (moved: Option<bool>)
      modifies this, gateway
      ensures Archived(Columns(), gateway.State(), moved)
           == ArchiveOne(old(Columns()), hasArchive, conversation, old(gateway.State()), gateway.fates, now)
    {
      if !hasArchive {
        return Some(false);
      }
      var thread := gateway.nextThread;
      var ok := gateway.Try(CreateTopic(thread));
      if !ok {
        return None;
      }
      ok := gateway.Try(Post(thread));
      if !ok {
        return None;
      }
      ok := gateway.ForwardConversation(conversation, thread);
      if !ok {
        return None;
      }
      ok := gateway.Try(CloseTopic(thread));
      if !ok {
        return None;
      }
      archiveTopic := Some(thread);
      archivedAt := Some(now);
      if topic.Some? {
        ok := gateway.Try(DeleteTopic(topic.value));
        if !ok {
          return None;
        }
        topic := None;
      }
      moved := Some(true);
    }

    method CloseTicket(actor: WorkItems.Actor, notices: nat, gateway: Gateway, now: Time) returns (ok: bool)
      modifies this, gateway
      ensures Turned(Columns(), gateway.State(), ok)
              == Close(old(Columns()), actor, notices, old(gateway.State()), gateway.fates, now)
    {
      if row.status == WorkItems.Closed {
        return true;
      }
      match WorkItems.Act(row, WorkItems.Close, actor, now)
      case Refused(_) =>
        ok := false;
      case Done(closed, _) =>
        row := closed;
        ok := gateway.Announce(notices);
        if ok && topic.Some? {
          ok := gateway.Try(CloseTopic(topic.value));
        }
    }

    method ReopenFromArchive(gateway: Gateway) returns (ok: bool)
      modifies this, gateway
      ensures Turned(Columns(), gateway.State(), ok) == FromArchive(old(Columns()), old(gateway.State()), gateway.fates)
    {
      var thread := gateway.nextThread;
      ok := gateway.Try(CreateTopic(thread));
      if !ok {
        return;
      }
      topic := Some(thread);
      header := None;
      archivedAt := None;
      archiveTopic := None;
      var message := gateway.calls;
      ok := gateway.Try(Post(thread));
      if !ok {
        return;
      }
      header := Some(message);
      ok := gateway.Try(Post(thread));
    }

    method ReopenTicket(actor: WorkItems.Actor, notices: nat, gateway: Gateway, now: Time) returns (ok: bool)
      modifies this, gateway
      ensures Turned(Columns(), gateway.State(), ok)
              == Reopen(old(Columns()), actor, notices, old(gateway.State()), gateway.fates, now)
    {
      if row.status != WorkItems.Closed {
        return true;
      }
      match WorkItems.Act(row, WorkItems.Reopen, actor, now)
      case Refused(_) =>
        ok := false;
      case Done(live, _) =>
        row := live;
        ok := true;
        if archivedAt.Some? {
          ok := ReopenFromArchive(gateway);
        } else if topic.Some? {
          ok := gateway.Try(ReopenTopic(topic.value));
        }
        if ok {
          ok := gateway.Announce(notices);
        }
    }

    /** Inside its transaction: on an exception the columns are what they were, and Telegram is not. */
    method ReopenInTransaction(actor: WorkItems.Actor, notices: nat, gateway: Gateway, now: Time) returns (ok: bool)
      modifies this, gateway
      ensures var turned := Reopen(old(Columns()), actor, notices, old(gateway.State()), gateway.fates, now);
              ok == turned.ok && gateway.State() == turned.telegram && Columns() == Committed(old(Columns()), turned)
    {
      var saved := Columns();
      ok := ReopenTicket(actor, notices, gateway, now);
      if !ok {
        Rollback(saved);
      }
    }
  }

  function ColumnsOf(items: seq<Item>): seq<Ticket>
    reads items
  {
    seq(|items|, i requires 0 <= i < |items| reads items => items[i].Columns())
  }

  lemma SweepOverOneMore(batch: seq<Entry>, n: nat, tickets: seq<Ticket>, archives: set<nat>, messages: seq<Message>,
                         t: Telegram, fates: Fates, now: Time)
    requires n < |batch| && forall e :: e in batch ==> e.id < |tickets|
    ensures SweepOver(batch[..n + 1], tickets, archives, messages, t, fates, now)
         == SweepOne(SweepOver(batch[..n], tickets, archives, messages, t, fates, now), batch[n].id, archives,
                     messages, fates, now)
  {
    assert batch[..n + 1][..n] == batch[..n];
  }

  /** One ticket of the batch; an exception is only logged. */
  method SweepItem(items: seq<Item>, id: nat, archives: set<nat>, messages: seq<Message>, gateway: Gateway,
                   now: Time) returns (counted: bool)
    requires id < |items| && forall i, j :: 0 <= i < j < |items| ==> items[i] != items[j]
    modifies items[id], gateway
    ensures var s := SweepOne(Swept(old(ColumnsOf(items)), old(gateway.State()), 0), id, archives, messages,
                              gateway.fates, now);
            ColumnsOf(items) == s.tickets && gateway.State() == s.telegram && s.moved == if counted then 1 else 0
  {
    ghost var was := ColumnsOf(items);
    var moved := items[id].MoveToArchive(items[id].department in archives, Conversation(messages, id), gateway, now);
    assert ColumnsOf(items) == was[id := items[id].Columns()];
    counted := moved == Some(true);
  }

  /** `sweep`: each ticket on its own, and a failure on one does not stop the rest. */
  method SweepItems(items: seq<Item>, archives: set<nat>, messages: seq<Message>, gateway: Gateway,
                    now: Time) returns (moved: nat)
    requires forall i, j :: 0 <= i < j < |items| ==> items[i] != items[j]
    modifies items, gateway
    ensures Swept(ColumnsOf(items), gateway.State(), moved)
         == Sweep(old(ColumnsOf(items)), archives, messages, old(gateway.State()), gateway.fates, now)
  {
    ghost var before := ColumnsOf(items);
    var batch := DueForArchive(ColumnsOf(items), archives, now);
    moved := 0;
    var n := 0;
    while n < |batch|
      invariant 0 <= n <= |batch|
      invariant Swept(ColumnsOf(items), gateway.State(), moved)
             == SweepOver(batch[..n], before, archives, messages, old(gateway.State()), gateway.fates, now)
    {
      SweepOverOneMore(batch, n, before, archives, messages, old(gateway.State()), gateway.fates, now);
      var counted := SweepItem(items, batch[n].id, archives, messages, gateway, now);
      if counted {
        moved := moved + 1;
      }
      n := n + 1;
    }
    assert batch[..n] == batch;
  }
}
