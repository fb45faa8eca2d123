/**
 Work items and their audit log (app/domain/work_items.py:265-409): what each
 action does to the item, what it records, and when it refuses.
 */
module WorkItems {
  import opened Prelude

  datatype Status = Open | Claimed | InProgress | WaitingClient | WaitingInternal | WaitingThirdParty | Escalated
    | Completed | Closed

  datatype Priority = Critical | High | Medium | Low

  datatype Row = Row(id: nat, status: Status, priority: Priority, owner: Option<nat>, closedAt: Option<Time>)

  /** The type and payload of an event; `actor` is the staff member it is recorded against. */
  datatype What =
    | OwnershipClaimed
    | OwnershipAssigned(assignee: nat)
    | StatusChanged(fromStatus: Status, toStatus: Status)
    | PriorityChanged(fromPriority: Priority, toPriority: Priority)
    | WorkItemClosed
    | WorkItemReopened

  datatype Event = Event(actor: Option<nat>, what: What)

  /** Who acts: the staff member, if there is an active one, and their rank on this desk, if they have one. */
  datatype Actor = Actor(staff: Option<nat>, rank: Option<nat>)

  const OPERATOR := 0
  const SENIOR_OPERATOR := 1
  const MANAGER := 2

  predicate Entitled(actor: Actor, rank: nat) {
    actor.staff.Some? && actor.rank.Some? && actor.rank.value >= rank
  }

  datatype Refusal = ItemClosed | NotAuthorised | AlreadyOwned | InvalidTransition

  datatype Action =
    | Claim
    | Assign(assignee: nat, active: bool)
    | ChangeStatus(status: Status)
    | ChangePriority(priority: Priority)
    | Close
    | Reopen

  datatype Outcome = Done(row: Row, events: seq<Event>) | Refused(why: Refusal)

  function Nothing(row: Row): Outcome {
    Done(row, [])
  }

  /** Taking or giving an open item starts it. */
  function Started(row: Row, actor: Actor, ownership: What): Outcome {
    if row.status == Open
    then Done(row.(status := InProgress),
              [Event(actor.staff, ownership), Event(actor.staff, StatusChanged(Open, InProgress))])
    else Done(row, [Event(actor.staff, ownership)])
  }

  function Act(row: Row, action: Action, actor: Actor, now: Time): Outcome {
    if row.status == Closed && !action.Close? && !action.Reopen? then Refused(ItemClosed)
    else
      match action
      case Claim =>
        if !Entitled(actor, OPERATOR) then Refused(NotAuthorised)
        else if row.owner.Some? && row.owner != actor.staff then Refused(AlreadyOwned)
        else Started(row.(owner := actor.staff), actor, OwnershipClaimed)
      case Assign(assignee, active) =>
        if !Entitled(actor, SENIOR_OPERATOR) || !active then Refused(NotAuthorised)
        else Started(row.(owner := Some(assignee)), actor, OwnershipAssigned(assignee))
      case ChangeStatus(status) =>
        if !Entitled(actor, if status == Escalated then SENIOR_OPERATOR else OPERATOR) then Refused(NotAuthorised)
        else if status == Closed then Refused(InvalidTransition)
        else if status == row.status then Nothing(row)
        else Done(row.(status := status), [Event(actor.staff, StatusChanged(row.status, status))])
      case ChangePriority(priority) =>
        if !Entitled(actor, OPERATOR) then Refused(NotAuthorised)
        else if priority == row.priority then Nothing(row)
        else Done(row.(priority := priority), [Event(actor.staff, PriorityChanged(row.priority, priority))])
      case Close =>
        if row.status == Closed then Nothing(row)
        else if !Entitled(actor, OPERATOR) then Refused(NotAuthorised)
        else Done(row.(status := Closed, closedAt := Some(now)), [Event(actor.staff, WorkItemClosed)])
      case Reopen =>
        if row.status != Closed then Nothing(row)
        else if !Entitled(actor, MANAGER) then Refused(NotAuthorised)
        else Done(row.(status := InProgress, closedAt := None), [Event(actor.staff, WorkItemReopened)])
  }

  // ---- the item as an object ---------------------------------------------------------

  class WorkItem {
    const id: nat
    var status: Status
    var priority: Priority
    var owner: Option<nat>
    var closedAt: Option<Time>
    var events: seq<Event>

    constructor (id: nat, priority: Priority)
      ensures Columns() == Row(id, Open, priority, None, None) && events == []
    {
      this.id, status, this.priority, owner, closedAt, events := id, Open, priority, None, None, [];
    }

    function Columns(): Row
      reads this
    {
      Row(id, status, priority, owner, closedAt)
    }

    /** The item and its log are what the outcome says; a refusal has touched neither. */
    ghost predicate Became(row: Row, log: seq<Event>, out: Outcome, refusal: Option<Refusal>)
      reads this
    {
      match out
      case Done(row', more) => Columns() == row' && events == log + more && refusal == None
      case Refused(why) => Columns() == row && events == log && refusal == Some(why)
    }

    method RecordEvent(actor: Actor, what: What)
      modifies this`events
      ensures events == old(events) + [Event(actor.staff, what)]
    {
      events := events + [Event(actor.staff, what)];
    }

    method StartIfOpen(actor: Actor)
      modifies this`status, this`events
      ensures Done(Columns(), events) ==
        if old(status) == Open
        then Done(old(Columns()).(status := InProgress),
                  old(events) + [Event(actor.staff, StatusChanged(Open, InProgress))])
        else Done(old(Columns()), old(events))
    {
      if status == Open {
        var previous := status;
        status := InProgress;
        RecordEvent(actor, StatusChanged(previous, InProgress));
      }
    }

    method TakeOwnership(actor: Actor, now: Time) returns (refusal: Option<Refusal>)
      modifies this
      ensures Became(old(Columns()), old(events), Act(old(Columns()), Claim, actor, now), refusal)
      ensures refusal == None ==> owner == actor.staff
    {
      if status == Closed {
        return Some(ItemClosed);
      }
      if !Entitled(actor, OPERATOR) {
        return Some(NotAuthorised);
      }
      if owner.Some? && owner != actor.staff {
        return Some(AlreadyOwned);
      }
      owner := actor.staff;
      RecordEvent(actor, OwnershipClaimed);
      StartIfOpen(actor);
      refusal := None;
    }

    method GiveOwnership(assignee: nat, active: bool, actor: Actor, now: Time) returns (refusal: Option<Refusal>)
      modifies this
      ensures Became(old(Columns()), old(events), Act(old(Columns()), Assign(assignee, active), actor, now), refusal)
      ensures refusal == None ==> owner == Some(assignee)
    {
      if status == Closed {
        return Some(ItemClosed);
      }
      if !Entitled(actor, SENIOR_OPERATOR) {
        return Some(NotAuthorised);
      }
      if !active {
        return Some(NotAuthorised);
      }
      owner := Some(assignee);
      RecordEvent(actor, OwnershipAssigned(assignee));
      StartIfOpen(actor);
      refusal := None;
    }

    method SetStatus(newStatus: Status, actor: Actor, now: Time) returns (refusal: Option<Refusal>)
      modifies this
      ensures Became(old(Columns()), old(events), Act(old(Columns()), ChangeStatus(newStatus), actor, now), refusal)
    {
      if status == Closed {
        return Some(ItemClosed);
      }
      if newStatus == Escalated {
        if !Entitled(actor, SENIOR_OPERATOR) {
          return Some(NotAuthorised);
        }
      } else if !Entitled(actor, OPERATOR) {
        return Some(NotAuthorised);
      }
      if newStatus == Closed {
        return Some(InvalidTransition);
      }
      if newStatus == status {
        return None;
      }
      var previous := status;
      status := newStatus;
      RecordEvent(actor, StatusChanged(previous, newStatus));
      refusal := None;
    }

    method SetPriority(newPriority: Priority, actor: Actor, now: Time) returns (refusal: Option<Refusal>)
      modifies this
      ensures Became(old(Columns()), old(events), Act(old(Columns()), ChangePriority(newPriority), actor, now), refusal)
    {
      if status == Closed {
        return Some(ItemClosed);
      }
      if !Entitled(actor, OPERATOR) {
        return Some(NotAuthorised);
      }
      if newPriority == priority {
        return None;
      }
      var previous := priority;
      priority := newPriority;
      RecordEvent(actor, PriorityChanged(previous, newPriority));
      refusal := None;
    }

    method CloseIt(actor: Actor, now: Time) returns (refusal: Option<Refusal>)
      modifies this
      ensures Became(old(Columns()), old(events), Act(old(Columns()), Close, actor, now), refusal)
    {
      if status == Closed {
        return None;
      }
      if !Entitled(actor, OPERATOR) {
        return Some(NotAuthorised);
      }
      status := Closed;
      closedAt := Some(now);
      RecordEvent(actor, WorkItemClosed);
      refusal := None;
    }

    method ReopenIt(actor: Actor, now: Time) returns (refusal: Option<Refusal>)
      modifies this
      ensures Became(old(Columns()), old(events), Act(old(Columns()), Reopen, actor, now), refusal)
    {
      if status != Closed {
        return None;
      }
      if !Entitled(actor, MANAGER) {
        return Some(NotAuthorised);
      }
      status := InProgress;
      closedAt := None;
      RecordEvent(actor, WorkItemReopened);
      refusal := None;
    }
  }

  // ---- replaying the log ------------------------------------------------------------------

  /** What the log has to account for. */
  datatype Standing = Standing(status: Status, priority: Priority, owner: Option<nat>)

  function StandingOf(row: Row): Standing {
    Standing(row.status, row.priority, row.owner)
  }

  function Apply(s: Standing, e: Event): Standing {
    match e.what
    case OwnershipClaimed => s.(owner := e.actor)
    case OwnershipAssigned(assignee) => s.(owner := Some(assignee))
    case StatusChanged(_, to) => s.(status := to)
    case PriorityChanged(_, to) => s.(priority := to)
    case WorkItemClosed => s.(status := Closed)
    case WorkItemReopened => s.(status := InProgress)
  }

  /** From an item just created, whose priority its creation does not record. */
  function Replay(priority: Priority, events: seq<Event>): Standing {
    if events == [] then Standing(Open, priority, None)
    else Apply(Replay(priority, events[..|events| - 1]), events[|events| - 1])
  }

  /**
   An event starts from where the log before it left the item, and goes somewhere else;
   and an item is claimed by somebody, who is the owner already if there is one.
   */
  predicate Truthful(before: Standing, e: Event) {
    match e.what
    case StatusChanged(from, to) => from == before.status && to != from && from != Closed && to != Closed
    case PriorityChanged(from, to) => from == before.priority && to != from && before.status != Closed
    case WorkItemClosed => before.status != Closed
    case WorkItemReopened => before.status == Closed
    case OwnershipClaimed =>
      before.status != Closed && e.actor.Some? && (before.owner == None || before.owner == e.actor)
    case OwnershipAssigned(_) => before.status != Closed
  }

  ghost predicate LogOk(row: Row, priority: Priority, events: seq<Event>) {
    && Replay(priority, events) == StandingOf(row)
    && (forall i :: 0 <= i < |events| ==> Truthful(Replay(priority, events[..i]), events[i]))
    && (row.closedAt.Some? <==> row.status == Closed)
  }

  lemma ReplayOneMore(priority: Priority, events: seq<Event>, e: Event)
    ensures Replay(priority, events + [e]) == Apply(Replay(priority, events), e)
  {
    assert (events + [e])[..|events|] == events;
  }

  lemma LogOneMore(row: Row, priority: Priority, events: seq<Event>, row': Row, e: Event)
    requires LogOk(row, priority, events) && Truthful(StandingOf(row), e)
    requires Apply(StandingOf(row), e) == StandingOf(row')
    requires row'.closedAt.Some? <==> row'.status == Closed
    ensures LogOk(row', priority, events + [e])
  {
    ReplayOneMore(priority, events, e);
    var events' := events + [e];
    forall i | 0 <= i < |events'| ensures Truthful(Replay(priority, events'[..i]), events'[i]) {
      assert events'[..i] == if i < |events| then events[..i] else events;
      assert i < |events| ==> Truthful(Replay(priority, events[..i]), events[i]);
    }
  }

  /** Ownership is taken or given, and the item starts. */
  lemma StartedKeepsLog(row: Row, priority: Priority, events: seq<Event>, row': Row, actor: Actor, ownership: What)
    requires LogOk(row, priority, events) && row.closedAt == row'.closedAt && row.status == row'.status
    requires var e := Event(actor.staff, ownership);
             Truthful(StandingOf(row), e) && Apply(StandingOf(row), e) == StandingOf(row')
    requires ownership.OwnershipClaimed? || ownership.OwnershipAssigned?
    ensures var out := Started(row', actor, ownership); LogOk(out.row, priority, events + out.events)
  {
    var claimed := events + [Event(actor.staff, ownership)];
    LogOneMore(row, priority, events, row', Event(actor.staff, ownership));
    if row.status == Open {
      var e := Event(actor.staff, StatusChanged(Open, InProgress));
      LogOneMore(row', priority, claimed, row'.(status := InProgress), e);
      assert claimed + [e] == events + [Event(actor.staff, ownership), e];
    }
  }

  lemma ActKeepsLog(row: Row, priority: Priority, events: seq<Event>, action: Action, actor: Actor, now: Time)
    requires LogOk(row, priority, events)
    ensures var out := Act(row, action, actor, now); out.Done? ==> LogOk(out.row, priority, events + out.events)
  {
    var out := Act(row, action, actor, now);
    if out.Done? {
      if action.Claim? {
        StartedKeepsLog(row, priority, events, row.(owner := actor.staff), actor, OwnershipClaimed);
      } else if action.Assign? {
        StartedKeepsLog(row, priority, events, row.(owner := Some(action.assignee)), actor,
                        OwnershipAssigned(action.assignee));
      } else if out.events == [] {
        assert events + [] == events;
      } else {
        LogOneMore(row, priority, events, out.row, out.events[0]);
      }
    }
  }

  // ---- every run -------------------------------------------------------------------------------

  datatype Tried = Tried(action: Action, actor: Actor, now: Time)

  /** The item and its log after a run; a refused action is one that did not happen. */
  function Exec(row: Row, events: seq<Event>, run: seq<Tried>): (Row, seq<Event>)
    decreases |run|
  {
    if run == [] then (row, events)
    else
      match Act(row, run[0].action, run[0].actor, run[0].now)
      case Done(row', more) => Exec(row', events + more, run[1..])
      case Refused(_) => Exec(row, events, run[1..])
  }

  lemma {:induction false} RunKeepsLog(row: Row, priority: Priority, events: seq<Event>, run: seq<Tried>)
    requires LogOk(row, priority, events)
    ensures var (row', events') := Exec(row, events, run); LogOk(row', priority, events')
    decreases |run|
  {
    if run != [] {
      ActKeepsLog(row, priority, events, run[0].action, run[0].actor, run[0].now);
      match Act(row, run[0].action, run[0].actor, run[0].now)
      case Done(row', more) => RunKeepsLog(row', priority, events + more, run[1..]);
      case Refused(_) => RunKeepsLog(row, priority, events, run[1..]);
    }
  }

  /**
   After any run, replaying an item's events gives its status, priority and owner; each
   change event starts from the value the replay had just before it, and a claim takes the
   item from nobody; and the closing time is set exactly while the item is closed.
   */
  lemma LogRebuildsItem(id: nat, priority: Priority, run: seq<Tried>)
    ensures var (row, events) := Exec(Row(id, Open, priority, None, None), [], run);
            && Replay(priority, events) == Standing(row.status, row.priority, row.owner)
            && (forall i :: 0 <= i < |events| ==> Truthful(Replay(priority, events[..i]), events[i]))
            && (row.closedAt.Some? <==> row.status == Closed)
  {
    RunKeepsLog(Row(id, Open, priority, None, None), priority, [], run);
  }

  // ---- whose an item is ---------------------------------------------------------------------

  predicate GivesOwner(e: Event) {
    e.what.OwnershipClaimed? || e.what.OwnershipAssigned?
  }

  /** The i-th event is the last about ownership, and says this is the owner: who was assigned it, or claimed it. */
  ghost predicate NamedAt(owner: Option<nat>, events: seq<Event>, i: nat) {
    && i < |events| && GivesOwner(events[i])
    && (forall k :: i < k < |events| ==> !GivesOwner(events[k]))
    && owner.Some?
    && (events[i].what.OwnershipClaimed? ==> events[i].actor == owner)
    && (events[i].what.OwnershipAssigned? ==> events[i].what.assignee == owner.value)
  }

  ghost predicate OwnedByTheLast(owner: Option<nat>, events: seq<Event>) {
    if owner == None then forall e :: e in events ==> !GivesOwner(e) else exists i: nat :: NamedAt(owner, events, i)
  }

  lemma OwnedOneMore(owner: Option<nat>, events: seq<Event>, e: Event)
    requires OwnedByTheLast(owner, events)
    ensures !GivesOwner(e) ==> OwnedByTheLast(owner, events + [e])
    ensures e.what.OwnershipClaimed? && e.actor.Some? ==> OwnedByTheLast(e.actor, events + [e])
    ensures e.what.OwnershipAssigned? ==> OwnedByTheLast(Some(e.what.assignee), events + [e])
  {
    var all, n := events + [e], |events|;
    if !GivesOwner(e) {
      if owner.Some? {
        var i: nat :| NamedAt(owner, events, i);
        assert NamedAt(owner, all, i);
      }
    } else if e.what.OwnershipAssigned? {
      assert NamedAt(Some(e.what.assignee), all, n);
    } else if e.actor.Some? {
      assert NamedAt(e.actor, all, n);
    }
  }

  ghost predicate AllTruthful(priority: Priority, events: seq<Event>) {
    forall i :: 0 <= i < |events| ==> Truthful(Replay(priority, events[..i]), events[i])
  }

  lemma EarlierTruthful(priority: Priority, events: seq<Event>, e: Event)
    requires AllTruthful(priority, events + [e])
    ensures AllTruthful(priority, events) && Truthful(Replay(priority, events), e)
  {
    var all := events + [e];
    assert all[..|events|] == events && all[|events|] == e;
    forall i | 0 <= i < |events| ensures Truthful(Replay(priority, events[..i]), events[i]) {
      assert all[..i] == events[..i] && all[i] == events[i];
    }
  }

  lemma {:induction false} ReplayOwner(priority: Priority, events: seq<Event>)
    requires AllTruthful(priority, events)
    ensures OwnedByTheLast(Replay(priority, events).owner, events)
  {
    if events != [] {
      var n := |events| - 1;
      var before, last := events[..n], events[n];
      assert events == before + [last];
      EarlierTruthful(priority, before, last);
      ReplayOwner(priority, before);
      OwnedOneMore(Replay(priority, before).owner, before, last);
    }
  }

  /** After any run, the owner is whom the last event about ownership names, and there is none before any. */
  lemma OwnerIsOnRecord(id: nat, priority: Priority, run: seq<Tried>)
    ensures var (row, events) := Exec(Row(id, Open, priority, None, None), [], run);
            OwnedByTheLast(row.owner, events)
  {
    LogRebuildsItem(id, priority, run);
    var (row, events) := Exec(Row(id, Open, priority, None, None), [], run);
    ReplayOwner(priority, events);
  }

  // ---- what trying one more thing does --------------------------------------------------------

  lemma {:induction false} ExecOneMore(row: Row, events: seq<Event>, run: seq<Tried>, last: Tried)
    ensures var (before, log) := Exec(row, events, run);
            Exec(row, events, run + [last])
            == match Act(before, last.action, last.actor, last.now)
               case Done(row', more) => (row', log + more)
               case Refused(_) => (before, log)
    decreases |run|
  {
    if run == [] {
      assert [last][1..] == [];
    } else {
      assert (run + [last])[0] == run[0] && (run + [last])[1..] == run[1..] + [last];
      match Act(row, run[0].action, run[0].actor, run[0].now)
      case Done(row', more) => ExecOneMore(row', events + more, run[1..], last);
      case Refused(_) => ExecOneMore(row, events, run[1..], last);
    }
  }

  /** What the ranks come to: an active member of staff, with at least this one on the desk. */
  predicate Ranked(actor: Actor, rank: nat) {
    actor.staff.Some? && match actor.rank case Some(held) => rank <= held case None => false
  }

  /**
   A claim goes through if and only if the item is open to change, its claimant is an operator, and nobody
   else owns it; then it is theirs, started, and the rest of it as it was. Otherwise nothing changes.
   */
  lemma ClaimDoes(row: Row, events: seq<Event>, run: seq<Tried>, actor: Actor, now: Time)
    ensures var (was, log) := Exec(row, events, run);
            var (row', log') := Exec(row, events, run + [Tried(Claim, actor, now)]);
            if was.status != Closed && Ranked(actor, OPERATOR) && (was.owner == None || was.owner == actor.staff)
            then && row' == was.(owner := actor.staff, status := if was.status == Open then InProgress else was.status)
                 && log < log' && log'[|log|] == Event(actor.staff, OwnershipClaimed)
            else row' == was && log' == log
  {
    ExecOneMore(row, events, run, Tried(Claim, actor, now));
  }

  /** An assignment makes the assignee the owner, whoever gives it and whoever owned it; only a senior operator may. */
  lemma AssignDoes(row: Row, events: seq<Event>, run: seq<Tried>, assignee: nat, active: bool, actor: Actor, now: Time)
    ensures var (was, log) := Exec(row, events, run);
            var (row', log') := Exec(row, events, run + [Tried(Assign(assignee, active), actor, now)]);
            if was.status != Closed && Ranked(actor, SENIOR_OPERATOR) && active
            then && row'.owner == Some(assignee)
                 && row' == was.(owner := Some(assignee),
                                 status := if was.status == Open then InProgress else was.status)
                 && log < log' && log'[|log|] == Event(actor.staff, OwnershipAssigned(assignee))
            else row' == was && log' == log
  {
    ExecOneMore(row, events, run, Tried(Assign(assignee, active), actor, now));
  }

  /** A status that may be set is the status from then on, and is recorded with the one before unless it is the same. */
  lemma ChangeStatusDoes(row: Row, events: seq<Event>, run: seq<Tried>, status: Status, actor: Actor, now: Time)
    ensures var (was, log) := Exec(row, events, run);
            var (row', log') := Exec(row, events, run + [Tried(ChangeStatus(status), actor, now)]);
            if && was.status != Closed && status != Closed
               && Ranked(actor, if status == Escalated then SENIOR_OPERATOR else OPERATOR)
            then && row'.status == status && row' == was.(status := status)
                 && log' == log + if status == was.status then []
                                  else [Event(actor.staff, StatusChanged(was.status, status))]
            else row' == was && log' == log
  {
    ExecOneMore(row, events, run, Tried(ChangeStatus(status), actor, now));
  }

  lemma ChangePriorityDoes(row: Row, events: seq<Event>, run: seq<Tried>, priority: Priority, actor: Actor, now: Time)
    ensures var (was, log) := Exec(row, events, run);
            var (row', log') := Exec(row, events, run + [Tried(ChangePriority(priority), actor, now)]);
            if was.status != Closed && Ranked(actor, OPERATOR)
            then && row'.priority == priority && row' == was.(priority := priority)
                 && log' == log + if priority == was.priority then []
                                  else [Event(actor.staff, PriorityChanged(was.priority, priority))]
            else row' == was && log' == log
  {
    ExecOneMore(row, events, run, Tried(ChangePriority(priority), actor, now));
  }

  /** Closing is an operator's and takes the time; reopening is a manager's, clears it and puts the item in progress. */
  lemma CloseAndReopenDo(row: Row, events: seq<Event>, run: seq<Tried>, actor: Actor, now: Time)
    ensures var (was, log) := Exec(row, events, run);
            var (shut, shutLog) := Exec(row, events, run + [Tried(Close, actor, now)]);
            var (back, backLog) := Exec(row, events, run + [Tried(Reopen, actor, now)]);
            && (if was.status != Closed && Ranked(actor, OPERATOR)
                then shut == was.(status := Closed, closedAt := Some(now))
                     && shutLog == log + [Event(actor.staff, WorkItemClosed)]
                else shut == was && shutLog == log)
            && (if was.status == Closed && Ranked(actor, MANAGER)
                then back == was.(status := InProgress, closedAt := None)
                     && backLog == log + [Event(actor.staff, WorkItemReopened)]
                else back == was && backLog == log)
  {
    ExecOneMore(row, events, run, Tried(Close, actor, now));
    ExecOneMore(row, events, run, Tried(Reopen, actor, now));
  }
}
