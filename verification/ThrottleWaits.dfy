/**
 That nobody is made to wait longer than the limits force (app/services/throttle.py:54-98): what a
 call alone in the limiter waits, and the deadline of every sleeper in every interleaving.
 */
module ThrottleWaits {
  import opened Prelude
  import opened Throttle
  import opened ThrottleRuns
  import opened ThrottleChats

  // ---- alone in the limiter -------------------------------------------------------------

  /** Fewer than the ceiling, or the first of them over `span` old. */
  predicate HasRoom(window: seq<real>, ceiling: nat, now: real, span: real) {
    |window| < ceiling || (window != [] && now - window[0] > span)
  }

  /** With nothing to wait for, a call does not wait. */
  lemma NothingToWaitFor(l: Limits, last: Option<real>, minute: seq<real>, second: seq<real>, clock: real, rested: real,
                         admitted: real, at: real, waited: real)
    requires WaitsAsForced(l, last, minute, second, clock, rested, admitted, at, waited)
    requires last == None || last.value + l.perChatInterval <= clock
    requires HasRoom(minute, l.groupPerMinute, clock, 60.0) && HasRoom(second, l.globalPerSecond, clock, 1.0)
    ensures waited == 0.0 && at == clock
  {
  }

  /** With room in both windows by then, it waits out the chat's interval and no more. */
  lemma WaitsOutTheInterval(l: Limits, last: real, minute: seq<real>, second: seq<real>, clock: real, rested: real,
                            admitted: real, at: real, waited: real)
    requires WaitsAsForced(l, Some(last), minute, second, clock, rested, admitted, at, waited)
    requires clock < last + l.perChatInterval
    requires HasRoom(minute, l.groupPerMinute, last + l.perChatInterval, 60.0)
    requires HasRoom(second, l.globalPerSecond, last + l.perChatInterval, 1.0)
    ensures waited == last + l.perChatInterval - clock && at >= last + l.perChatInterval
  {
  }

  /** A full minute costs until sixty seconds and a twentieth after the first of it. */
  lemma WaitsOutTheMinute(l: Limits, last: Option<real>, minute: seq<real>, second: seq<real>, clock: real,
                          rested: real, admitted: real, at: real, waited: real)
    requires WaitsAsForced(l, last, minute, second, clock, rested, admitted, at, waited)
    requires last == None || last.value + l.perChatInterval <= clock
    requires |minute| == l.groupPerMinute && clock <= minute[0] + 60.0
    requires HasRoom(second, l.globalPerSecond, minute[0] + 60.05, 1.0)
    ensures waited == minute[0] + 60.05 - clock && at >= minute[0] + 60.05
  {
  }

  /** A full second costs until a second and a hundredth after the first of it. */
  lemma WaitsOutTheSecond(l: Limits, last: Option<real>, minute: seq<real>, second: seq<real>, clock: real,
                          rested: real, admitted: real, at: real, waited: real)
    requires WaitsAsForced(l, last, minute, second, clock, rested, admitted, at, waited)
    requires last == None || last.value + l.perChatInterval <= clock
    requires HasRoom(minute, l.groupPerMinute, clock, 60.0)
    requires |second| == l.globalPerSecond && clock <= second[0] + 1.0
    ensures waited == second[0] + 1.01 - clock && at >= second[0] + 1.01
  {
  }

  /** Altogether never more than an interval, a minute and a second, with the margins on them. */
  lemma NeverWaitsLonger(l: Limits, last: Option<real>, minute: seq<real>, second: seq<real>, clock: real, rested: real,
                         admitted: real, at: real, waited: real)
    requires WaitsAsForced(l, last, minute, second, clock, rested, admitted, at, waited)
    requires (last.Some? ==> last.value <= clock) && (forall x :: x in minute || x in second ==> x <= clock)
    ensures waited <= (if l.perChatInterval > 0.0 then l.perChatInterval else 0.0) + 60.05 + 1.01
  {
    assert |minute| == l.groupPerMinute ==> minute[0] in minute;
    assert |second| == l.globalPerSecond ==> second[0] in second;
  }

  // ---- in any interleaving ---------------------------------------------------------------

  /** Nobody's deadline is later than what they sleep for. */
  ghost predicate DeadlineOk(l: Limits, w: World, stage: Stage) {
    match stage
    case ChatSleep(chat, until) => chat in w.shared.lastSend && until == w.shared.lastSend[chat] + l.perChatInterval
    case MinuteSleep(chat, until) =>
      chat in w.shared.minute && w.shared.minute[chat] != [] && until == w.shared.minute[chat][0] + 60.05
    case _ => true
  }

  ghost predicate DeadlinesOk(l: Limits, w: World) {
    forall t :: t in w.tasks ==> DeadlineOk(l, w, w.tasks[t])
  }

  /** After the interval: the chat's minute, if it is full, or on to the global lock with the time just read. */
  ghost predicate PastInterval(l: Limits, w: World, stage: Stage, chat: Chat) {
    var window := if chat in w.shared.minute then w.shared.minute[chat] else [];
    stage == if |window| == l.groupPerMinute && w.clock - window[0] <= 60.0 then MinuteSleep(chat, window[0] + 60.05)
             else WantGlobal(chat, w.clock)
  }

  /** What a task does next, and until when it sleeps if it must. */
  ghost predicate GoesOn(l: Limits, w: World, t: Task, out: Outcome)
    requires t in w.tasks
  {
    match w.tasks[t]
    case WantChat(chat) =>
      if chat in w.shared.lastSend && w.clock < w.shared.lastSend[chat] + l.perChatInterval
      then out == Awaits(ChatSleep(chat, w.shared.lastSend[chat] + l.perChatInterval))
      else out.Awaits? && PastInterval(l, w, out.stage, chat)
    case ChatSleep(chat, _) => out.Awaits? && PastInterval(l, w, out.stage, chat)
    case MinuteSleep(chat, _) => out == Awaits(WantGlobal(chat, w.clock))
    case WantGlobal(chat, now) =>
      var window := w.shared.second;
      if |window| == l.globalPerSecond && now - window[0] <= 1.0
      then out == Awaits(GlobalSleep(chat, w.clock + 1.01 - (now - window[0])))
      else out == Returns(now)
    case GlobalSleep(_, _) => out == Returns(w.clock)
  }

  lemma CheckGoesOn(l: Limits, w: World, s: Shared, chat: Chat)
    requires MinuteOf(s, chat) == MinuteOf(w.shared, chat) && |MinuteOf(s, chat)| <= l.groupPerMinute
    ensures var out := CheckMinute(l, s, chat, w.clock).outcome; out.Awaits? && PastInterval(l, w, out.stage, chat)
  {
    FullIff(MinuteOf(s, chat), l.groupPerMinute, w.clock, 60.0);
  }

  lemma TaskGoesOn(l: Limits, w: World, t: Task)
    requires t in w.tasks && |w.shared.second| <= l.globalPerSecond
    requires |MinuteOf(w.shared, w.tasks[t].chat)| <= l.groupPerMinute
    ensures GoesOn(l, w, t, Run(l, w, t).outcome)
  {
    var chat := w.tasks[t].chat;
    match w.tasks[t]
    case WantChat(_) => CheckGoesOn(l, w, w.shared.(chatHolder := w.shared.chatHolder[chat := t]), chat);
    case ChatSleep(_, _) => CheckGoesOn(l, w, w.shared, chat);
    case WantGlobal(_, now) => FullIff(w.shared.second, l.globalPerSecond, now, 1.0);
    case _ =>
  }

  /** In every interleaving each task goes on so, whatever the others do. */
  lemma EveryTaskGoesOn(l: Limits, clock: real, run: seq<Action>, t: Task)
    requires Possible(l, Start(clock), run) && t in Exec(l, Start(clock), run).tasks
    ensures var w := Exec(l, Start(clock), run); GoesOn(l, w, t, Run(l, w, t).outcome)
  {
    var w := Exec(l, Start(clock), run);
    ChatAlways(l, Start(clock), run, w.tasks[t].chat);
    TaskGoesOn(l, w, t);
  }

  // ---- and the deadlines stay what they were ---------------------------------------------

  /** A task that goes on has a deadline as it should be. */
  lemma OwnDeadline(l: Limits, w: World, t: Task)
    requires t in w.tasks && |w.shared.second| <= l.globalPerSecond
    requires |MinuteOf(w.shared, w.tasks[t].chat)| <= l.groupPerMinute
    ensures var p := Run(l, w, t); p.outcome.Awaits? ==> DeadlineOk(l, Settle(w, t, p), p.outcome.stage)
  {
    var chat, p := w.tasks[t].chat, Run(l, w, t);
    match w.tasks[t]
    case WantChat(_) => FullIff(MinuteOf(w.shared, chat), l.groupPerMinute, w.clock, 60.0);
    case ChatSleep(_, _) => FullIff(MinuteOf(w.shared, chat), l.groupPerMinute, w.clock, 60.0);
    case _ =>
  }

  /** Another's deadline is of its own chat, whose lock it holds. */
  lemma OthersDeadline(l: Limits, w: World, t: Task, u: Task)
    requires LocksOk(w.tasks, w.shared.chatHolder, w.shared.globalHolder)
    requires t in w.tasks && u in w.tasks && t != u && Ready(w, t) && DeadlineOk(l, w, w.tasks[u])
    ensures DeadlineOk(l, Settle(w, t, Run(l, w, t)), w.tasks[u])
  {
    if !w.tasks[u].WantChat? && w.tasks[u].chat != w.tasks[t].chat {
      RunFrame(l, w, t, w.tasks[u].chat);
      if w.tasks[u].MinuteSleep? {
        assert MinuteOf(w.shared, w.tasks[u].chat) != [];
      }
    }
  }

  lemma DeadlinesKept(l: Limits, w: World, a: Action)
    requires GlobalOk(l, w) && DeadlinesOk(l, w) && Enabled(w, a)
    requires forall chat :: ChatOk(l, w, chat)
    ensures DeadlinesOk(l, Next(l, w, a))
  {
    match a
    case Call(_, _) =>
      assert forall t :: t in w.tasks ==> DeadlineOk(l, w, w.tasks[t]);
    case Tick(step) =>
      forall t | t in w.tasks ensures DeadlineOk(l, Next(l, w, a), w.tasks[t]) {
        assert DeadlineOk(l, w, w.tasks[t]);
      }
    case Proceed(t) =>
      var chat, w' := w.tasks[t].chat, Next(l, w, a);
      assert ChatOk(l, w, chat);
      OwnDeadline(l, w, t);
      forall u | u in w'.tasks ensures DeadlineOk(l, w', w'.tasks[u]) {
        if u != t {
          assert DeadlineOk(l, w, w.tasks[u]);
          OthersDeadline(l, w, t, u);
        }
      }
  }

  lemma {:induction false} DeadlinesAlways(l: Limits, w: World, run: seq<Action>)
    requires GlobalOk(l, w) && DeadlinesOk(l, w) && (forall chat :: ChatOk(l, w, chat)) && Possible(l, w, run)
    ensures DeadlinesOk(l, Exec(l, w, run))
    decreases |run|
  {
    if run != [] {
      GlobalKept(l, w, run[0]);
      DeadlinesKept(l, w, run[0]);
      forall chat ensures ChatOk(l, Next(l, w, run[0]), chat) {
        ChatKept(l, w, run[0], chat);
      }
      DeadlinesAlways(l, Next(l, w, run[0]), run[1..]);
    }
  }

  // ---- a sleep in the global lock, from when it began -----------------------------------------

  lemma {:induction false} UpTo(l: Limits, w: World, a: seq<Action>, b: seq<Action>)
    requires Possible(l, w, a + b)
    ensures Possible(l, w, a) && Possible(l, Exec(l, w, a), b) && Exec(l, w, a + b) == Exec(l, Exec(l, w, a), b)
    decreases |a|
  {
    if a == [] {
      assert a + b == b;
    } else {
      assert (a + b)[0] == a[0] && (a + b)[1..] == a[1..] + b;
      UpTo(l, Next(l, w, a[0]), a[1..], b);
    }
  }

  /** In the n-th action the task entered the lock, to sleep 1.01 less the age of the first stamp when it queued. */
  ghost predicate EnteredAt(l: Limits, clock: real, run: seq<Action>, n: nat, t: Task, until: real) {
    && n < |run| && run[n] == Proceed(t) && Possible(l, Start(clock), run[..n])
    && var w := Exec(l, Start(clock), run[..n]);
       && t in w.tasks && w.tasks[t].WantGlobal? && w.shared.second != []
       && until == w.clock + 1.01 - (w.tasks[t].now - w.shared.second[0])
  }

  lemma {:induction false} SleeperEntered(l: Limits, clock: real, run: seq<Action>, t: Task)
    requires Possible(l, Start(clock), run)
    requires t in Exec(l, Start(clock), run).tasks && Exec(l, Start(clock), run).tasks[t].GlobalSleep?
    ensures exists n: nat :: EnteredAt(l, clock, run, n, t, Exec(l, Start(clock), run).tasks[t].until)
    decreases |run|
  {
    var n := |run| - 1;
    var earlier, last := run[..n], run[n];
    assert run == earlier + [last] && [last][1..] == [];
    UpTo(l, Start(clock), earlier, [last]);
    var w := Exec(l, Start(clock), earlier);
    assert Exec(l, Start(clock), run) == Next(l, w, last);
    if last == Proceed(t) {
      EveryTaskGoesOn(l, clock, earlier, t);
      assert run[..n] == earlier;
      assert EnteredAt(l, clock, run, n, t, Exec(l, Start(clock), run).tasks[t].until);
    } else {
      assert t in w.tasks && w.tasks[t] == Exec(l, Start(clock), run).tasks[t];
      SleeperEntered(l, clock, earlier, t);
      var m: nat :| EnteredAt(l, clock, earlier, m, t, w.tasks[t].until);
      assert run[..m] == earlier[..m] && run[m] == earlier[m];
      assert EnteredAt(l, clock, run, m, t, w.tasks[t].until);
    }
  }

  /**
   In every interleaving, at every moment: who sleeps for the interval does so until an interval after the
   chat's last stamp; who sleeps for the minute, until sixty seconds and a twentieth after its
   first; and who sleeps in the lock, from when it entered until a second and a hundredth
   later less the age, by its `now`, of the first stamp it found.
   */
  lemma NobodySleepsLonger(l: Limits, clock: real, run: seq<Action>, t: Task)
    requires Possible(l, Start(clock), run) && t in Exec(l, Start(clock), run).tasks
    ensures var w := Exec(l, Start(clock), run);
            match w.tasks[t]
            case ChatSleep(chat, until) =>
              chat in w.shared.lastSend && until == w.shared.lastSend[chat] + l.perChatInterval
            case MinuteSleep(chat, until) =>
              chat in w.shared.minute && w.shared.minute[chat] != [] && until == w.shared.minute[chat][0] + 60.05
            case GlobalSleep(_, until) => exists n: nat :: EnteredAt(l, clock, run, n, t, until)
            case _ => true
  {
    DeadlinesAlways(l, Start(clock), run);
    var w := Exec(l, Start(clock), run);
    assert DeadlineOk(l, w, w.tasks[t]);
    if w.tasks[t].GlobalSleep? {
      SleeperEntered(l, clock, run, t);
    }
  }
}
