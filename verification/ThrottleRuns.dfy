/**
 Every interleaving of `acquire` calls (app/services/throttle.py:54-98).

 Time stands still while any task can run: it advances only when every task is
 asleep or queued behind a task that is asleep. A sleeper may oversleep. Locks
 are handed to any waiter, which covers asyncio's first-come order.
 */
module ThrottleRuns {
  import opened Prelude
  import opened Throttle

  /** One return of `acquire`: when it happened, and the stamp it recorded. */
  datatype Grant = Grant(at: real, stamp: real, chat: Chat)

  datatype World = World(clock: real, shared: Shared, tasks: map<Task, Stage>, grants: seq<Grant>)

  datatype Action =
    | Call(t: Task, chat: Chat)
    | Proceed(t: Task)          // a task runs from one await to the next
    | Tick(step: real)

  function Start(clock: real): World {
    World(clock, EMPTY, map[], [])
  }

  /** Can this task's await be over? */
  predicate Ready(w: World, t: Task)
    requires t in w.tasks
  {
    match w.tasks[t]
    case WantChat(chat) => chat !in w.shared.chatHolder
    case ChatSleep(_, until) => until <= w.clock
    case MinuteSleep(_, until) => until <= w.clock
    case WantGlobal(_, _) => w.shared.globalHolder == None
    case GlobalSleep(_, until) => until <= w.clock
  }

  /** A lock that is free is taken at once; only sleepers may be late. */
  predicate Prompt(w: World, t: Task)
    requires t in w.tasks
  {
    w.tasks[t].WantChat? || w.tasks[t].WantGlobal? ==> !Ready(w, t)
  }

  ghost predicate Enabled(w: World, a: Action) {
    match a
    case Call(t, _) => t !in w.tasks
    case Proceed(t) => t in w.tasks && Ready(w, t)
    case Tick(step) => step > 0.0 && forall t :: t in w.tasks ==> Prompt(w, t)
  }

  function Run(l: Limits, w: World, t: Task): Piece
    requires t in w.tasks
  {
    match w.tasks[t]
    case WantChat(chat) => EnterChat(l, w.shared, t, chat, w.clock)
    case ChatSleep(chat, _) => CheckMinute(l, w.shared, chat, w.clock)
    case MinuteSleep(chat, _) => WakeMinute(w.shared, chat, w.clock)
    case WantGlobal(chat, now) => EnterGlobal(l, w.shared, t, chat, now, w.clock)
    case GlobalSleep(chat, _) => WakeGlobal(w.shared, chat, w.clock)
  }

  function Settle(w: World, t: Task, p: Piece): World
    requires t in w.tasks
  {
    match p.outcome
    case Awaits(stage) => w.(shared := p.shared, tasks := w.tasks[t := stage])
    case Returns(stamp) =>
      w.(shared := p.shared, tasks := w.tasks - {t},
         grants := w.grants + [Grant(w.clock, stamp, w.tasks[t].chat)])
  }

  function Next(l: Limits, w: World, a: Action): World
    requires a.Proceed? ==> a.t in w.tasks
  {
    match a
    case Call(t, chat) => w.(tasks := w.tasks[t := WantChat(chat)])
    case Proceed(t) => Settle(w, t, Run(l, w, t))
    case Tick(step) => w.(clock := w.clock + step)
  }

  ghost predicate Possible(l: Limits, w: World, run: seq<Action>)
    decreases |run|
  {
    run == [] || (Enabled(w, run[0]) && Possible(l, Next(l, w, run[0]), run[1..]))
  }

  ghost function Exec(l: Limits, w: World, run: seq<Action>): World
    requires Possible(l, w, run)
    decreases |run|
  {
    if run == [] then w else Exec(l, Next(l, w, run[0]), run[1..])
  }

  // ---- what one step keeps: locks -------------------------------------------

  /** Each lock has one holder, and the holder is where the lock says. */
  ghost predicate LocksOk(tasks: map<Task, Stage>, chats: map<Chat, Task>, global: Option<Task>) {
    && (forall c :: c in chats ==> HoldsChat(tasks, chats[c], c))
    && (forall t :: t in tasks && !tasks[t].WantChat? ==>
          tasks[t].chat in chats && chats[tasks[t].chat] == t)
    && (forall t :: t in tasks && tasks[t].GlobalSleep? ==> global == Some(t))
    && (global.Some? ==> global.value in tasks && tasks[global.value].GlobalSleep?)
  }

  ghost predicate HoldsChat(tasks: map<Task, Stage>, t: Task, c: Chat) {
    t in tasks && !tasks[t].WantChat? && tasks[t].chat == c
  }

  lemma StageKeepsLocks(tasks: map<Task, Stage>, chats: map<Chat, Task>, global: Option<Task>, t: Task, stage: Stage)
    requires LocksOk(tasks, chats, global) && t in tasks && !tasks[t].GlobalSleep?
    requires tasks[t].WantChat? ==> tasks[t].chat !in chats
    requires !stage.WantChat? && stage.chat == tasks[t].chat
    requires stage.GlobalSleep? ==> global == None
    ensures LocksOk(tasks[t := stage], chats[stage.chat := t], if stage.GlobalSleep? then Some(t) else global)
  {
    var tasks', chats' := tasks[t := stage], chats[stage.chat := t];
    forall c | c in chats' ensures HoldsChat(tasks', chats'[c], c) {
      if c != stage.chat {
        assert HoldsChat(tasks, chats[c], c);
      }
    }
  }

  lemma ReturnKeepsLocks(tasks: map<Task, Stage>, chats: map<Chat, Task>, global: Option<Task>, t: Task)
    requires LocksOk(tasks, chats, global) && t in tasks && !tasks[t].WantChat?
    requires global == None || global == Some(t)
    ensures LocksOk(tasks - {t}, chats - {tasks[t].chat}, None)
  {
    var tasks', chats' := tasks - {t}, chats - {tasks[t].chat};
    forall c | c in chats' ensures HoldsChat(tasks', chats'[c], c) {
      assert HoldsChat(tasks, chats[c], c);
    }
  }

  // ---- what one step keeps: the global ceiling ------------------------------

  /** A deque holds the most recent of the recorded stamps. */
  ghost predicate IsTail(window: seq<real>, grants: seq<Grant>) {
    && |window| <= |grants|
    && forall i :: |grants| - |window| <= i < |grants| ==> window[i - (|grants| - |window|)] == grants[i].stamp
  }

  /** Every grant that has left the window is more than a second behind the clock. */
  ghost predicate PoppedAreOld(window: seq<real>, grants: seq<Grant>, clock: real) {
    forall i :: 0 <= i < |grants| - |window| ==> grants[i].at + 1.0 < clock
  }

  /** A stale stamp directly follows a grant made at the same instant. */
  ghost predicate StaleFollows(grants: seq<Grant>) {
    forall i :: 0 <= i < |grants| ==> StaleFollowsAt(grants, i)
  }

  predicate StaleFollowsAt(grants: seq<Grant>, i: nat)
    requires i < |grants|
  {
    && grants[i].stamp <= grants[i].at
    && (grants[i].stamp < grants[i].at ==> i > 0 && grants[i - 1].at == grants[i].at)
  }

  ghost predicate InOrder(grants: seq<Grant>, clock: real) {
    && (forall i :: 0 <= i < |grants| ==> grants[i].at <= clock)
    && (forall i, j :: 0 <= i < j < |grants| ==> grants[i].at <= grants[j].at)
  }

  /** `ceiling` grants apart means more than a second apart. */
  ghost predicate Spaced(ceiling: nat, grants: seq<Grant>) {
    forall i, j :: 0 <= i && j < |grants| && j == i + ceiling ==> grants[i].at + 1.0 < grants[j].at
  }

  ghost predicate WindowOk(l: Limits, window: seq<real>, grants: seq<Grant>, clock: real) {
    && IsTail(window, grants)
    && PoppedAreOld(window, grants, clock)
    && StaleFollows(grants)
    && InOrder(grants, clock)
    && Spaced(l.globalPerSecond, grants)
    && |window| <= l.globalPerSecond
  }

  predicate JustGranted(grants: seq<Grant>, clock: real) {
    grants != [] && grants[|grants| - 1].at == clock
  }

  /** A queued task's `now` is stale only behind a sleeper, or behind a grant made this instant. */
  ghost predicate QueueOk(tasks: map<Task, Stage>, global: Option<Task>, grants: seq<Grant>, clock: real) {
    forall t :: t in tasks && tasks[t].WantGlobal? ==>
      && tasks[t].now <= clock
      && (tasks[t].now == clock || global.Some? || JustGranted(grants, clock))
  }

  /** A sleeper inside the global lock outlasts the front of the window. */
  ghost predicate SleeperOk(tasks: map<Task, Stage>, window: seq<real>) {
    forall t :: t in tasks && tasks[t].GlobalSleep? ==> window != [] && window[0] + 1.0 < tasks[t].until
  }

  ghost predicate GlobalOk(l: Limits, w: World) {
    && LocksOk(w.tasks, w.shared.chatHolder, w.shared.globalHolder)
    && WindowOk(l, w.shared.second, w.grants, w.clock)
    && QueueOk(w.tasks, w.shared.globalHolder, w.grants, w.clock)
    && SleeperOk(w.tasks, w.shared.second)
  }

  lemma {:induction false} PopKeepsTail(window: seq<real>, grants: seq<Grant>, now: real, clock: real)
    requires IsTail(window, grants) && PoppedAreOld(window, grants, clock)
    requires StaleFollows(grants) && now <= clock
    ensures IsTail(PopOld(window, now, 1.0), grants)
    ensures PoppedAreOld(PopOld(window, now, 1.0), grants, clock)
    decreases |window|
  {
    if window != [] && now - window[0] > 1.0 {
      var popped := |grants| - |window|;
      assert window[0] == grants[popped].stamp;
      assert grants[popped].at + 1.0 < clock by {
        assert StaleFollowsAt(grants, popped);
        if grants[popped].stamp < grants[popped].at {
          assert grants[popped - 1].at + 1.0 < clock;
        }
      }
      PopKeepsTail(window[1..], grants, now, clock);
    }
  }

  lemma GrantKeepsWindow(l: Limits, window: seq<real>, grants: seq<Grant>, clock: real, g: Grant)
    requires WindowOk(l, window, grants, clock) && |window| < l.globalPerSecond
    requires g.at == clock && g.stamp <= clock
    requires g.stamp == clock || JustGranted(grants, clock)
    ensures WindowOk(l, window + [g.stamp], grants + [g], clock)
  {
    var n, grants' := |grants|, grants + [g];
    assert IsTail(window + [g.stamp], grants');
    forall i | 0 <= i < |grants'| ensures StaleFollowsAt(grants', i) {
      if i < n {
        assert StaleFollowsAt(grants, i);
      }
    }
    assert PoppedAreOld(window + [g.stamp], grants', clock) by {
      forall i | 0 <= i < |grants'| - |window + [g.stamp]| ensures grants'[i].at + 1.0 < clock {
        assert grants[i].at + 1.0 < clock;
      }
    }
    forall i, j | 0 <= i && j < |grants'| && j == i + l.globalPerSecond ensures grants'[i].at + 1.0 < grants'[j].at {
      if j == n {
        assert i < n - |window|;
        assert grants[i].at + 1.0 < clock;
      } else {
        assert grants[i].at + 1.0 < grants[j].at;
      }
    }
  }

  /** `Returns`, seen from the window and the queues. */
  lemma ReturnKeepsGlobal(l: Limits, w: World, t: Task, window: seq<real>, now: real)
    requires GlobalOk(l, w) && t in w.tasks && !w.tasks[t].WantChat?
    requires w.shared.globalHolder == None || w.shared.globalHolder == Some(t)
    requires IsTail(window, w.grants) && PoppedAreOld(window, w.grants, w.clock) && |window| < l.globalPerSecond
    requires now <= w.clock && (now == w.clock || JustGranted(w.grants, w.clock))
    ensures GlobalOk(l, Settle(w, t, Leave(w.shared.(second := window), w.tasks[t].chat, now)))
  {
    ReturnKeepsLocks(w.tasks, w.shared.chatHolder, w.shared.globalHolder, t);
    GrantKeepsWindow(l, window, w.grants, w.clock, Grant(w.clock, now, w.tasks[t].chat));
  }

  lemma StageKeepsGlobal(l: Limits, w: World, t: Task, p: Piece)
    requires GlobalOk(l, w) && t in w.tasks && !w.tasks[t].GlobalSleep? && !w.tasks[t].WantGlobal?
    requires Ready(w, t) && p == Run(l, w, t)
    ensures GlobalOk(l, Settle(w, t, p))
  {
    assert p.outcome.Awaits? && !p.outcome.stage.GlobalSleep?;
    StageKeepsLocks(w.tasks, w.shared.chatHolder, w.shared.globalHolder, t, p.outcome.stage);
    var chat := w.tasks[t].chat;
    if w.tasks[t].WantChat? {
      assert p.shared.chatHolder == w.shared.chatHolder[chat := t];
    } else {
      assert p.shared.chatHolder == w.shared.chatHolder[chat := t];
    }
  }

  lemma EnterGlobalKept(l: Limits, w: World, t: Task)
    requires GlobalOk(l, w) && t in w.tasks && w.tasks[t].WantGlobal? && Ready(w, t)
    ensures GlobalOk(l, Settle(w, t, Run(l, w, t)))
  {
    var chat, now := w.tasks[t].chat, w.tasks[t].now;
    var window := PopOld(w.shared.second, now, 1.0);
    PopKeepsTail(w.shared.second, w.grants, now, w.clock);
    if |window| < l.globalPerSecond {
      ReturnKeepsGlobal(l, w, t, window, now);
    } else {
      var stage := GlobalSleep(chat, w.clock + (1.0 - (now - window[0]) + 0.01));
      StageKeepsLocks(w.tasks, w.shared.chatHolder, w.shared.globalHolder, t, stage);
      assert w.shared.chatHolder[chat := t] == w.shared.chatHolder;
    }
  }

  lemma WakeGlobalKept(l: Limits, w: World, t: Task)
    requires GlobalOk(l, w) && t in w.tasks && w.tasks[t].GlobalSleep? && Ready(w, t)
    ensures GlobalOk(l, Settle(w, t, Run(l, w, t)))
  {
    var window := PopOld(w.shared.second, w.clock, 1.0);
    PopKeepsTail(w.shared.second, w.grants, w.clock, w.clock);
    assert window == PopOld(w.shared.second[1..], w.clock, 1.0);
    ReturnKeepsGlobal(l, w, t, window, w.clock);
  }

  lemma GlobalKept(l: Limits, w: World, a: Action)
    requires GlobalOk(l, w) && Enabled(w, a)
    ensures GlobalOk(l, Next(l, w, a))
  {
    match a
    case Call(t, chat) =>
    case Tick(step) =>
      forall t | t in w.tasks && w.tasks[t].WantGlobal? ensures w.shared.globalHolder.Some? {
        assert Prompt(w, t);
      }
    case Proceed(t) =>
      if w.tasks[t].WantGlobal? {
        EnterGlobalKept(l, w, t);
      } else if w.tasks[t].GlobalSleep? {
        WakeGlobalKept(l, w, t);
      } else {
        StageKeepsGlobal(l, w, t, Run(l, w, t));
      }
  }

  lemma {:induction false} GlobalAlways(l: Limits, w: World, run: seq<Action>)
    requires GlobalOk(l, w) && Possible(l, w, run)
    ensures GlobalOk(l, Exec(l, w, run))
    decreases |run|
  {
    if run != [] {
      GlobalKept(l, w, run[0]);
      GlobalAlways(l, Next(l, w, run[0]), run[1..]);
    }
  }

  lemma SpanIsShort(l: Limits, grants: seq<Grant>, clock: real, first: nat, from: real)
    requires first < |grants| && from <= grants[first].at
    requires Spaced(l.globalPerSecond, grants) && InOrder(grants, clock)
    ensures forall i :: first + l.globalPerSecond <= i < |grants| ==> from + 1.0 < grants[i].at
  {
    var next := first + l.globalPerSecond;
    if next < |grants| {
      assert grants[first].at + 1.0 < grants[next].at;
    }
  }

  /**
   The global ceiling: whatever the interleaving, no closed second of real time
   sees more than `globalPerSecond` returns of `acquire`.
   */
  lemma GlobalCeiling(l: Limits, clock: real, run: seq<Action>, from: real)
    requires Possible(l, Start(clock), run)
    ensures var grants := Exec(l, Start(clock), run).grants;
            |set i | 0 <= i < |grants| && from <= grants[i].at <= from + 1.0| <= l.globalPerSecond
  {
    GlobalAlways(l, Start(clock), run);
    var grants := Exec(l, Start(clock), run).grants;
    var inside := set i | 0 <= i < |grants| && from <= grants[i].at <= from + 1.0;
    if some :| some in inside {
      var first := LeastIn(inside, 0, some);
      SpanIsShort(l, grants, Exec(l, Start(clock), run).clock, first, from);
      WindowBoundsCardinality(inside, first, l.globalPerSecond);
    } else {
      assert inside == {};
    }
  }
}
