/**
 What contention does and does not do to the limiter
 (app/services/throttle.py:54-98): nobody waits for ever, but a stamp recorded
 late lets two sends into one chat leave together - for which limits, exactly.
 */
module ThrottleContention {
  import opened Prelude
  import opened Throttle
  import opened ThrottleRuns
  import opened ThrottleChats

  predicate Asleep(stage: Stage) {
    stage.ChatSleep? || stage.MinuteSleep? || stage.GlobalSleep?
  }

  /**
   No deadlock: while any call is in progress, some task can run now, or some
   task is asleep and time is free to advance to its deadline.
   */
  lemma NobodyIsStuck(l: Limits, clock: real, run: seq<Action>)
    requires Possible(l, Start(clock), run)
    requires Exec(l, Start(clock), run).tasks != map[]
    ensures var w := Exec(l, Start(clock), run);
            exists t :: t in w.tasks && (Ready(w, t)
                                         || (Asleep(w.tasks[t]) && Enabled(w, Tick(w.tasks[t].until - w.clock))))
  {
    GlobalAlways(l, Start(clock), run);
    var w := Exec(l, Start(clock), run);
    if t :| t in w.tasks && Ready(w, t) {
    } else {
      var t := SomeSleeper(w);
      forall u | u in w.tasks ensures Prompt(w, u) {
      }
      assert Enabled(w, Tick(w.tasks[t].until - w.clock));
    }
  }

  /** Follow the locks from any task to somebody asleep. */
  lemma SomeSleeper(w: World) returns (t: Task)
    requires LocksOk(w.tasks, w.shared.chatHolder, w.shared.globalHolder)
    requires w.tasks != map[] && forall u :: u in w.tasks ==> !Ready(w, u)
    ensures t in w.tasks && Asleep(w.tasks[t])
  {
    assert w.tasks.Keys != {};
    t :| t in w.tasks;
    if w.tasks[t].WantChat? {
      var chat := w.tasks[t].chat;
      assert !Ready(w, t);
      t := w.shared.chatHolder[chat];
      assert HoldsChat(w.tasks, t, chat);
    }
    if w.tasks[t].WantGlobal? {
      assert !Ready(w, t);
      t := w.shared.globalHolder.value;
    }
  }

  // ---- getting from one state to another -------------------------------------------

  /** Time passes no sleeper's deadline by more than `slack`; with none, everybody wakes when it is time to. */
  ghost predicate WakesBy(w: World, a: Action, slack: real) {
    a.Tick? ==> forall t :: t in w.tasks && Asleep(w.tasks[t]) ==> w.clock + a.step <= w.tasks[t].until + slack
  }

  ghost predicate Punctual(l: Limits, slack: real, w: World, run: seq<Action>)
    requires Possible(l, w, run)
    decreases |run|
  {
    run != [] ==> WakesBy(w, run[0], slack) && Punctual(l, slack, Next(l, w, run[0]), run[1..])
  }

  ghost predicate Reaches(l: Limits, slack: real, from: World, to: World) {
    exists run :: Possible(l, from, run) && Punctual(l, slack, from, run) && Exec(l, from, run) == to
  }

  lemma ByStep(l: Limits, slack: real, w: World, a: Action)
    requires Enabled(w, a) && WakesBy(w, a, slack)
    ensures Reaches(l, slack, w, Next(l, w, a))
  {
    assert [a][1..] == [];
    assert Possible(l, Next(l, w, a), []);
    assert Possible(l, w, [a]) && Exec(l, w, [a]) == Next(l, w, a);
    assert Punctual(l, slack, w, [a]);
  }

  lemma ByProceed(l: Limits, slack: real, w: World, t: Task, p: Piece)
    requires t in w.tasks && Ready(w, t) && Run(l, w, t) == p
    ensures Reaches(l, slack, w, Settle(w, t, p))
  {
    ByStep(l, slack, w, Proceed(t));
  }

  lemma {:induction false} Chain(l: Limits, slack: real, w: World, a: seq<Action>, b: seq<Action>)
    requires Possible(l, w, a) && Possible(l, Exec(l, w, a), b)
    requires Punctual(l, slack, w, a) && Punctual(l, slack, Exec(l, w, a), b)
    ensures Possible(l, w, a + b) && Punctual(l, slack, w, a + b)
    ensures Exec(l, w, a + b) == Exec(l, Exec(l, w, a), b)
    decreases |a|
  {
    if a == [] {
      assert a + b == b;
    } else {
      Chain(l, slack, Next(l, w, a[0]), a[1..], b);
      assert (a + b)[1..] == a[1..] + b;
    }
  }

  lemma Then(l: Limits, slack: real, u: World, v: World, w: World)
    requires Reaches(l, slack, u, v) && Reaches(l, slack, v, w)
    ensures Reaches(l, slack, u, w)
  {
    var a :| Possible(l, u, a) && Punctual(l, slack, u, a) && Exec(l, u, a) == v;
    var b :| Possible(l, v, b) && Punctual(l, slack, v, b) && Exec(l, v, b) == w;
    Chain(l, slack, u, a, b);
  }

  /** The chat's deque as it is once it has been popped at this moment. */
  function Fresh(w: World, chat: Chat): seq<real> {
    PopOld(MinuteOf(w.shared, chat), w.clock, 60.0)
  }

  /** Nothing holds a task of this chat back before the global lock. */
  ghost predicate Unhindered(l: Limits, w: World, t: Task, chat: Chat) {
    && t !in w.tasks && chat !in w.shared.chatHolder
    && (chat in w.shared.lastSend ==> l.perChatInterval <= w.clock - w.shared.lastSend[chat])
    && |Fresh(w, chat)| < l.groupPerMinute
  }

  function Queued(w: World, t: Task, chat: Chat): World {
    w.(shared := w.shared.(chatHolder := w.shared.chatHolder[chat := t],
                           minute := w.shared.minute[chat := Fresh(w, chat)]),
       tasks := w.tasks[t := WantGlobal(chat, w.clock)])
  }

  lemma QueueAtOnce(l: Limits, slack: real, w: World, t: Task, chat: Chat)
    requires Unhindered(l, w, t, chat)
    ensures Reaches(l, slack, w, Queued(w, t, chat))
  {
    var called := w.(tasks := w.tasks[t := WantChat(chat)]);
    ByStep(l, slack, w, Call(t, chat));
    var p := Piece(Queued(w, t, chat).shared, Awaits(WantGlobal(chat, w.clock)));
    assert EnterChat(l, w.shared, t, chat, w.clock) == p;
    ByProceed(l, slack, called, t, p);
    assert Settle(called, t, p).tasks == Queued(w, t, chat).tasks;
    Then(l, slack, w, called, Queued(w, t, chat));
  }

  /** The global lock is free and the window has room: the caller returns with its `now`. */
  lemma LeaveQueue(l: Limits, slack: real, w: World, t: Task)
    requires t in w.tasks && w.tasks[t].WantGlobal? && w.shared.globalHolder == None
    requires |PopOld(w.shared.second, w.tasks[t].now, 1.0)| < l.globalPerSecond
    ensures var stage := w.tasks[t];
            var popped := w.shared.(second := PopOld(w.shared.second, stage.now, 1.0));
            Reaches(l, slack, w, Settle(w, t, Leave(popped, stage.chat, stage.now)))
  {
    ByProceed(l, slack, w, t, EnterGlobal(l, w.shared, t, w.tasks[t].chat, w.tasks[t].now, w.clock));
  }

  /** A send with nobody else about. */
  function Sent(w: World, chat: Chat): World {
    World(w.clock,
          Shared(w.shared.lastSend[chat := w.clock], w.shared.minute[chat := Fresh(w, chat) + [w.clock]],
                 PopOld(w.shared.second, w.clock, 1.0) + [w.clock], map[], None),
          map[],
          w.grants + [Grant(w.clock, w.clock, chat)])
  }

  predicate Idle(w: World) {
    w.tasks == map[] && w.shared.chatHolder == map[] && w.shared.globalHolder == None
  }

  lemma SendAtOnce(l: Limits, slack: real, w: World, t: Task, chat: Chat)
    requires Unhindered(l, w, t, chat) && Idle(w)
    requires |PopOld(w.shared.second, w.clock, 1.0)| < l.globalPerSecond
    ensures Reaches(l, slack, w, Sent(w, chat))
  {
    var queued := Queued(w, t, chat);
    QueueAtOnce(l, slack, w, t, chat);
    LeaveQueue(l, slack, queued, t);
    var sent := Settle(queued, t,
                       Leave(queued.shared.(second := PopOld(w.shared.second, w.clock, 1.0)), chat, w.clock));
    assert sent.tasks == map[];
    assert sent.shared.chatHolder == map[];
    assert sent.shared.minute == Sent(w, chat).shared.minute;
    Then(l, slack, w, queued, Sent(w, chat));
  }

  /** A task at the head of the global queue meets a full window. */
  function Sleeping(w: World, t: Task, until: real): World
    requires t in w.tasks
  {
    w.(shared := w.shared.(globalHolder := Some(t)), tasks := w.tasks[t := GlobalSleep(w.tasks[t].chat, until)])
  }

  lemma SleepInLock(l: Limits, slack: real, w: World, t: Task, until: real)
    requires t in w.tasks && w.tasks[t].WantGlobal? && w.shared.globalHolder == None
    requires |w.shared.second| == l.globalPerSecond && w.tasks[t].now - w.shared.second[0] <= 1.0
    requires until == w.clock + (1.0 - (w.tasks[t].now - w.shared.second[0]) + 0.01)
    ensures Reaches(l, slack, w, Sleeping(w, t, until))
  {
    var p := Piece(w.shared.(globalHolder := Some(t)), Awaits(GlobalSleep(w.tasks[t].chat, until)));
    assert PopOld(w.shared.second, w.tasks[t].now, 1.0) == w.shared.second;
    ByProceed(l, slack, w, t, p);
  }

  // ---- a full window, a late sleeper, and a caller queued behind it -----------------

  /** Each of the chats 1 to `n`, with the same value. */
  function ForEach<T>(n: nat, value: T): (m: map<Chat, T>)
    ensures forall c :: c in m <==> 1 <= c <= n
  {
    if n == 0 then map[] else ForEach(n - 1, value)[n := value]
  }

  /** Chats 1 to `n` have each been sent to at time 0. */
  function Filled(n: nat): World {
    World(0.0,
          Shared(ForEach(n, 0.0), ForEach(n, [0.0]), seq(n, _ => 0.0), map[], None),
          map[],
          seq(n, i => Grant(0.0, 0.0, i + 1)))
  }

  lemma {:induction false} FillWindow(l: Limits, slack: real, n: nat)
    requires n <= l.globalPerSecond
    ensures Reaches(l, slack, Start(0.0), Filled(n))
  {
    if n == 0 {
      NothingFilled(l, slack);
    } else {
      FillWindow(l, slack, n - 1);
      FillFurther(l, slack, n - 1, n);
    }
  }

  lemma FillFurther(l: Limits, slack: real, n: nat, more: nat)
    requires more == n + 1 <= l.globalPerSecond && Reaches(l, slack, Start(0.0), Filled(n))
    ensures Reaches(l, slack, Start(0.0), Filled(more))
  {
    FillOneMore(l, slack, n);
    Then(l, slack, Start(0.0), Filled(n), Filled(more));
  }

  lemma NothingFilled(l: Limits, slack: real)
    ensures Reaches(l, slack, Start(0.0), Filled(0))
  {
    assert Filled(0).shared == EMPTY;
    assert Possible(l, Start(0.0), []) && Punctual(l, slack, Start(0.0), []) && Exec(l, Start(0.0), []) == Filled(0);
  }

  lemma FillOneMore(l: Limits, slack: real, n: nat)
    requires n < l.globalPerSecond
    ensures Reaches(l, slack, Filled(n), Filled(n + 1))
  {
    var w, w' := Filled(n), Filled(n + 1);
    SendAtOnce(l, slack, w, n + 1, n + 1);
    assert PopOld(w.shared.second, 0.0, 1.0) == w.shared.second;
    assert w.shared.second + [0.0] == w'.shared.second;
    assert w.grants + [Grant(0.0, 0.0, n + 1)] == w'.grants;
    assert w.shared.lastSend[n + 1 := 0.0] == w'.shared.lastSend;
    assert [] + [0.0] == [0.0];
    assert w.shared.minute[n + 1 := [0.0]] == w'.shared.minute;
  }

  lemma {:induction false} ZerosArePopped(n: nat, now: real)
    requires now > 1.0
    ensures PopOld(seq(n, _ => 0.0), now, 1.0) == []
  {
    if n > 0 {
      ZerosArePopped(n - 1, now);
      assert seq(n, _ => 0.0)[1..] == seq(n - 1, _ => 0.0);
    }
  }

  /** With `n` sends in the window, the next chat's task sleeps in the lock and the one after it queues behind. */
  function Crowded(n: nat): World {
    Queued(Sleeping(Queued(Filled(n), n + 1, n + 1), n + 1, 1.01), n + 2, n + 2)
  }

  lemma CrowdIn(l: Limits, slack: real)
    ensures Reaches(l, slack, Filled(l.globalPerSecond), Crowded(l.globalPerSecond))
  {
    var n := l.globalPerSecond;
    var w0 := Filled(n);
    QueueAtOnce(l, slack, w0, n + 1, n + 1);
    var w1 := Queued(w0, n + 1, n + 1);
    SleepInLock(l, slack, w1, n + 1, 1.01);
    var w2 := Sleeping(w1, n + 1, 1.01);
    QueueAtOnce(l, slack, w2, n + 2, n + 2);
    Then(l, slack, w0, w1, w2);
    Then(l, slack, w0, w2, Crowded(n));
  }

  /** The sleeper wakes at `late` and returns; then the queued task does, with the stamp it read at 0. */
  function Stale(n: nat, late: real): World {
    World(late,
          Shared(Filled(n).shared.lastSend[n + 1 := late][n + 2 := 0.0],
                 Filled(n).shared.minute[n + 1 := [late]][n + 2 := [0.0]], [late, 0.0], map[], None),
          map[],
          Filled(n).grants + [Grant(late, late, n + 1)] + [Grant(late, 0.0, n + 2)])
  }

  function Woken(n: nat, late: real): World {
    World(late,
          Shared(Filled(n).shared.lastSend[n + 1 := late], Filled(n).shared.minute[n + 1 := [late]][n + 2 := []],
                 [late], map[n + 2 := n + 2], None),
          map[n + 2 := WantGlobal(n + 2, 0.0)],
          Filled(n).grants + [Grant(late, late, n + 1)])
  }

  lemma WakeLate(l: Limits, slack: real, late: real)
    requires 1.01 <= late <= 1.01 + slack
    ensures var n := l.globalPerSecond; Reaches(l, slack, Crowded(n), Woken(n, late))
  {
    var n := l.globalPerSecond;
    var w0 := Crowded(n);
    var w1 := w0.(clock := late);
    forall t | t in w0.tasks ensures Prompt(w0, t) {
    }
    ByStep(l, slack, w0, Tick(late));
    ZerosArePopped(n, late);
    var p := WakeGlobal(w1.shared, n + 1, late);
    SleeperLeaves(n, late);
    ByProceed(l, slack, w1, n + 1, p);
    Then(l, slack, w0, w1, Woken(n, late));
  }

  lemma CrowdedIs(n: nat)
    ensures var w := Crowded(n);
            && w.shared == Shared(Filled(n).shared.lastSend, Filled(n).shared.minute[n + 1 := []][n + 2 := []],
                                  seq(n, _ => 0.0), map[n + 1 := n + 1, n + 2 := n + 2], Some(n + 1))
            && w.tasks == map[n + 1 := GlobalSleep(n + 1, 1.01), n + 2 := WantGlobal(n + 2, 0.0)]
            && w.grants == Filled(n).grants
  {
  }

  lemma SleeperLeaves(n: nat, late: real)
    requires PopOld(seq(n, _ => 0.0), late, 1.0) == []
    ensures var w := Crowded(n).(clock := late); Settle(w, n + 1, WakeGlobal(w.shared, n + 1, late)) == Woken(n, late)
  {
    CrowdedIs(n);
    var filled := Filled(n);
    SleeperSettles(filled.shared.lastSend, filled.shared.minute, seq(n, _ => 0.0), filled.grants, n, late);
  }

  lemma SleeperSettles(last: map<Chat, real>, minute: map<Chat, seq<real>>, window: seq<real>, grants: seq<Grant>,
                       n: nat, late: real)
    requires PopOld(window, late, 1.0) == []
    ensures var w := World(late,
                           Shared(last, minute[n + 1 := []][n + 2 := []], window, map[n + 1 := n + 1, n + 2 := n + 2],
                                  Some(n + 1)),
                           map[n + 1 := GlobalSleep(n + 1, 1.01), n + 2 := WantGlobal(n + 2, 0.0)], grants);
            Settle(w, n + 1, WakeGlobal(w.shared, n + 1, late))
            == World(late, Shared(last[n + 1 := late], minute[n + 1 := [late]][n + 2 := []], [late],
                                  map[n + 2 := n + 2], None),
                     map[n + 2 := WantGlobal(n + 2, 0.0)], grants + [Grant(late, late, n + 1)])
  {
    assert [] + [late] == [late];
    var minute' := minute[n + 1 := []][n + 2 := []];
    assert minute'[n + 1 := [late]] == minute[n + 1 := [late]][n + 2 := []];
    assert map[n + 1 := n + 1, n + 2 := n + 2] - {n + 1} == map[n + 2 := n + 2];
    assert map[n + 1 := GlobalSleep(n + 1, 1.01), n + 2 := WantGlobal(n + 2, 0.0)] - {n + 1}
           == map[n + 2 := WantGlobal(n + 2, 0.0)];
  }

  lemma QueuedLeaves(l: Limits, slack: real, late: real)
    requires l.globalPerSecond >= 2 && late >= 1.01
    ensures var n := l.globalPerSecond; Reaches(l, slack, Woken(n, late), Stale(n, late))
  {
    var n := l.globalPerSecond;
    var w, w' := Woken(n, late), Stale(n, late);
    assert PopOld([late], 0.0, 1.0) == [late];
    LeaveQueue(l, slack, w, n + 2);
    var left := Settle(w, n + 2, Leave(w.shared.(second := [late]), n + 2, 0.0));
    assert left.tasks == map[] && left.shared.chatHolder == map[];
    assert [] + [0.0] == [0.0] && [late] + [0.0] == [late, 0.0];
    assert left.shared.minute == w'.shared.minute;
  }

  lemma StaleIsReached(l: Limits, slack: real, late: real)
    requires l.globalPerSecond >= 2 && 1.01 <= late <= 1.01 + slack
    ensures Reaches(l, slack, Start(0.0), Stale(l.globalPerSecond, late))
  {
    var n := l.globalPerSecond;
    FillWindow(l, slack, n);
    CrowdIn(l, slack);
    WakeLate(l, slack, late);
    QueuedLeaves(l, slack, late);
    Then(l, slack, Start(0.0), Filled(n), Crowded(n));
    Then(l, slack, Start(0.0), Crowded(n), Woken(n, late));
    Then(l, slack, Start(0.0), Woken(n, late), Stale(n, late));
  }

  /** That chat's grants, once it has been sent to again at `next`. */
  lemma StaleThenAgain(n: nat, late: real, next: real)
    ensures ChatGrants(Stale(n, late).grants + [Grant(next, next, n + 2)], n + 2)
         == [Grant(late, 0.0, n + 2), Grant(next, next, n + 2)]
  {
    var ours := (g: Grant) => g.chat == n + 2;
    var before := Filled(n).grants + [Grant(late, late, n + 1)];
    FilterNone(before, ours);
    FilterAppend(before, Grant(late, 0.0, n + 2), ours);
    FilterAppend(Stale(n, late).grants, Grant(next, next, n + 2), ours);
  }

  /** Some run, in which nobody oversleeps by more than `slack`, ends with exactly these two grants to the chat. */
  ghost predicate EndsWithSends(l: Limits, slack: real, chat: Chat, first: Grant, second: Grant) {
    exists run ::
      && Possible(l, Start(0.0), run) && Punctual(l, slack, Start(0.0), run)
      && ChatGrants(Exec(l, Start(0.0), run).grants, chat) == [first, second]
  }

  lemma SendAgain(l: Limits, slack: real, late: real, next: real)
    requires l.globalPerSecond >= 2 && 1.01 <= late <= 1.01 + slack && late <= next && l.perChatInterval <= next
    requires |PopOld([late, 0.0], next, 1.0)| < l.globalPerSecond
    requires |PopOld([0.0], next, 60.0)| < l.groupPerMinute
    ensures var chat := l.globalPerSecond + 2;
            EndsWithSends(l, slack, chat, Grant(late, 0.0, chat), Grant(next, next, chat))
  {
    var n := l.globalPerSecond;
    var w := Stale(n, late);
    var w' := w.(clock := next);
    StaleIsReached(l, slack, late);
    if late < next {
      ByStep(l, slack, w, Tick(next - late));
      Then(l, slack, Start(0.0), w, w');
    }
    assert Fresh(w', n + 2) == PopOld([0.0], next, 60.0);
    SendAtOnce(l, slack, w', n + 3, n + 2);
    Then(l, slack, Start(0.0), w', Sent(w', n + 2));
    StaleThenAgain(n, late, next);
  }

  // ---- when a chat's messages are an interval apart in real time -----------------------

  /** Whatever happens, consecutive sends into one chat are an interval apart when they are made. */
  ghost predicate SpacesInRealTime(l: Limits) {
    forall clock, run, chat, i: nat :: Possible(l, Start(clock), run) ==>
      ApartAt(l, ChatGrants(Exec(l, Start(clock), run).grants, chat), i)
  }

  predicate ApartAt(l: Limits, sent: seq<Grant>, i: nat) {
    i + 1 < |sent| ==> sent[i].at + l.perChatInterval <= sent[i + 1].at
  }

  /** A stale stamp takes two grants in one instant; with a ceiling of two, a second must then pass. */
  predicate TooTightToMatter(l: Limits) {
    || l.perChatInterval <= 0.0
    || l.globalPerSecond == 1
    || (l.globalPerSecond == 2 && l.perChatInterval <= 1.0)
  }

  lemma {:induction false} FilterPositions(grants: seq<Grant>, keep: Grant -> bool, i: nat) returns (a: nat, b: nat)
    requires i + 1 < |Filter(grants, keep)|
    ensures a < b < |grants| && grants[a] == Filter(grants, keep)[i] && grants[b] == Filter(grants, keep)[i + 1]
  {
    var n := |grants| - 1;
    var before := Filter(grants[..n], keep);
    if i + 1 < |before| {
      a, b := FilterPositions(grants[..n], keep, i);
    } else {
      assert before[i] in before;
      a :| 0 <= a < n && grants[a] == before[i];
      b := n;
    }
  }

  lemma SpacedWhenTight(l: Limits, clock: real, run: seq<Action>, chat: Chat, i: nat)
    requires TooTightToMatter(l) && Possible(l, Start(clock), run)
    ensures ApartAt(l, ChatGrants(Exec(l, Start(clock), run).grants, chat), i)
  {
    ChatAlways(l, Start(clock), run, chat);
    var grants := Exec(l, Start(clock), run).grants;
    var sent := ChatGrants(grants, chat);
    if i + 1 < |sent| {
      var a, b := FilterPositions(grants, (g: Grant) => g.chat == chat, i);
      assert StaleFollowsAt(grants, a) && StaleFollowsAt(grants, b);
      assert sent[i].stamp + l.perChatInterval <= sent[i + 1].stamp;
      if l.perChatInterval > 0.0 && grants[a].stamp < grants[a].at {
        assert grants[a - 1].at == grants[a].at;
        if l.globalPerSecond == 2 {
          assert grants[a - 1].at + 1.0 < grants[a + 1].at;
        }
      }
    }
  }

  /**
   With a ceiling of three or more - and the program's is 25 - and any interval at all, two sends
   into one chat can leave in the same instant, although their stamps are an interval apart.
   */
  lemma ContendedChatIsSentTwiceAtOnce(l: Limits)
    requires l.globalPerSecond >= 3 && l.perChatInterval > 0.0
    ensures var chat, late := l.globalPerSecond + 2, l.perChatInterval + 61.0;
            EndsWithSends(l, late, chat, Grant(late, 0.0, chat), Grant(late, late, chat))
  {
    var late := l.perChatInterval + 61.0;
    assert PopOld([late, 0.0], late, 1.0) == [late, 0.0];
    assert [0.0][1..] == [] && PopOld([0.0], late, 60.0) == [];
    SendAgain(l, late, late, late);
  }

  /** With a ceiling of two and an interval longer than a second, they can be less than an interval apart. */
  lemma ContendedChatIsSentTooSoon(l: Limits)
    requires l.globalPerSecond == 2 && l.perChatInterval > 1.0
    ensures var late := l.perChatInterval + 61.0;
            EndsWithSends(l, late, 4, Grant(late, 0.0, 4),
                          Grant(late + (l.perChatInterval + 1.0) / 2.0, late + (l.perChatInterval + 1.0) / 2.0, 4))
  {
    var late := l.perChatInterval + 61.0;
    var next := late + (l.perChatInterval + 1.0) / 2.0;
    WindowIsOver(late, next);
    assert [0.0][1..] == [] && PopOld([0.0], next, 60.0) == [];
    SendAgain(l, late, late, next);
  }

  lemma WindowIsOver(late: real, next: real)
    requires 0.0 <= late && late + 1.0 < next
    ensures PopOld([late, 0.0], next, 1.0) == []
  {
    assert [late, 0.0][1..] == [0.0] && [0.0][1..] == [];
    assert PopOld([0.0], next, 1.0) == [];
  }

  /** When the second send of such a pair can leave, if the sleeper before the first woke on time, at 1.01. */
  function OnTimeAgain(l: Limits): real {
    var soonest := if l.globalPerSecond == 2 then 2.01 + Smaller(l.perChatInterval - 1.0, 1.0) / 2.0 else 1.01;
    if l.perChatInterval > soonest then l.perChatInterval else soonest
  }

  function Smaller(a: real, b: real): real {
    if a < b then a else b
  }

  /** Nor need anybody oversleep: a stamp of 0 is recorded at 1.01, and the chat is sent to again too soon. */
  lemma ContendedChatIsSentTooSoonOnTime(l: Limits)
    requires !TooTightToMatter(l) && l.groupPerMinute >= 2
    ensures var chat, next := l.globalPerSecond + 2, OnTimeAgain(l);
            && EndsWithSends(l, 0.0, chat, Grant(1.01, 0.0, chat), Grant(next, next, chat))
            && 1.01 <= next < 1.01 + l.perChatInterval
  {
    var next := OnTimeAgain(l);
    if l.globalPerSecond == 2 {
      WindowIsOver(1.01, next);
    }
    SendAgain(l, 0.0, 1.01, next);
  }

  /** The limits as shipped: a hundredth of a second over a second, and again four hundredths after that. */
  lemma ShippedLimitsAreTooLoose()
    ensures var l := Limits(1.05, 20, 25);
            EndsWithSends(l, 0.0, 27, Grant(1.01, 0.0, 27), Grant(1.05, 1.05, 27))
  {
    ContendedChatIsSentTooSoonOnTime(Limits(1.05, 20, 25));
  }

  /** The same of the runs in which nobody oversleeps. */
  ghost predicate SpacesOnTime(l: Limits) {
    forall clock, run, chat, i: nat :: Possible(l, Start(clock), run) && Punctual(l, 0.0, Start(clock), run) ==>
      ApartAt(l, ChatGrants(Exec(l, Start(clock), run).grants, chat), i)
  }

  /** The second comes too soon after the first: the chat's messages are not always an interval apart. */
  lemma NotSpaced(l: Limits, slack: real, chat: Chat, first: Grant, second: Grant)
    requires EndsWithSends(l, slack, chat, first, second) && second.at < first.at + l.perChatInterval
    ensures !SpacesInRealTime(l) && (slack == 0.0 ==> !SpacesOnTime(l))
  {
    var run :| Possible(l, Start(0.0), run) && Punctual(l, slack, Start(0.0), run)
            && ChatGrants(Exec(l, Start(0.0), run).grants, chat) == [first, second];
    assert !ApartAt(l, ChatGrants(Exec(l, Start(0.0), run).grants, chat), 0);
  }

  /**
   So the interval holds of the sends themselves, in every run, if and only if the limits are too
   tight for a stale stamp to matter: no interval is asked for, or one send a second, or two and an
   interval of no more than a second. It is so even if nobody ever oversleeps, given a group
   ceiling of at least two.
   */
  lemma RealSpacingIff(l: Limits)
    ensures SpacesInRealTime(l) <==> TooTightToMatter(l)
    ensures l.groupPerMinute >= 2 ==> (SpacesOnTime(l) <==> TooTightToMatter(l))
  {
    if TooTightToMatter(l) {
      forall clock, run, chat, i: nat | Possible(l, Start(clock), run)
        ensures ApartAt(l, ChatGrants(Exec(l, Start(clock), run).grants, chat), i)
      {
        SpacedWhenTight(l, clock, run, chat, i);
      }
    } else {
      NotTight(l);
    }
  }

  lemma NotTight(l: Limits)
    requires !TooTightToMatter(l)
    ensures !SpacesInRealTime(l) && (l.groupPerMinute >= 2 ==> !SpacesOnTime(l))
  {
    var chat, late := l.globalPerSecond + 2, l.perChatInterval + 61.0;
    if l.groupPerMinute >= 2 {
      ContendedChatIsSentTooSoonOnTime(l);
      NotSpaced(l, 0.0, chat, Grant(1.01, 0.0, chat), Grant(OnTimeAgain(l), OnTimeAgain(l), chat));
    } else if l.globalPerSecond == 2 {
      ContendedChatIsSentTooSoon(l);
      var next := late + (l.perChatInterval + 1.0) / 2.0;
      NotSpaced(l, late, chat, Grant(late, 0.0, chat), Grant(next, next, chat));
    } else {
      ContendedChatIsSentTwiceAtOnce(l);
      NotSpaced(l, late, chat, Grant(late, 0.0, chat), Grant(late, late, chat));
    }
  }
}
