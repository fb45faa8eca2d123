/**
 The rate limiter of app/services/throttle.py.

 `acquire` is a coroutine: other tasks run at every `await`. It is therefore
 modelled as the pieces of code that run between two awaits. Each piece is a
 method of `RateLimiter` that updates the limiter's windows and locks in place,
 and is proved equal to a function on a snapshot of that state; the module
 ThrottleRuns then lets the pieces of any number of tasks interleave.
 */
module Throttle {
  import opened Prelude

  type Chat = int
  type Task = nat

  datatype LimitsRow = Limits(perChatInterval: real, groupPerMinute: nat, globalPerSecond: nat)

  /** A ceiling of zero would index an empty window (lines 73 and 87). */
  type Limits = l: LimitsRow | l.groupPerMinute >= 1 && l.globalPerSecond >= 1
    witness Limits(1.05, 20, 25)

  /** Where a task stands inside `acquire`, with the locals it still needs. */
  datatype Stage =
    | WantChat(chat: Chat)                    // queued for this chat's lock
    | ChatSleep(chat: Chat, until: real)      // asleep for the per-chat interval
    | MinuteSleep(chat: Chat, until: real)    // asleep for the group ceiling
    | WantGlobal(chat: Chat, now: real)       // queued for the global lock, holding `now`
    | GlobalSleep(chat: Chat, until: real)    // asleep inside the global lock

  /** What the limiter object remembers. */
  datatype Shared = Shared(
    lastSend: map<Chat, real>,
    minute: map<Chat, seq<real>>,
    second: seq<real>,
    chatHolder: map<Chat, Task>,
    globalHolder: Option<Task>)

  /** A piece of `acquire` ends either at its next await or by returning. */
  datatype Outcome = Awaits(stage: Stage) | Returns(stamp: real)

  datatype Piece = Piece(shared: Shared, outcome: Outcome)

  const EMPTY := Shared(map[], map[], [], map[], None)

  /** `while window and now - window[0] > span: window.popleft()` */
  function PopOld(window: seq<real>, now: real, span: real): (r: seq<real>)
    ensures |r| <= |window|
    ensures r != [] ==> now - r[0] <= span
  {
    if window != [] && now - window[0] > span then PopOld(window[1..], now, span) else window
  }

  function MinuteOf(s: Shared, chat: Chat): seq<real> {
    if chat in s.minute then s.minute[chat] else []
  }

  /** Lines 58-67: the chat lock has just been obtained. */
  function EnterChat(l: Limits, s: Shared, t: Task, chat: Chat, clock: real): Piece {
    var held := s.(chatHolder := s.chatHolder[chat := t]);
    if chat in s.lastSend && clock - s.lastSend[chat] < l.perChatInterval then
      Piece(held, Awaits(ChatSleep(chat, clock + (l.perChatInterval - (clock - s.lastSend[chat])))))
    else
      CheckMinute(l, held, chat, clock)
  }

  /** Lines 69-77: the group ceiling, with `now` just read. */
  function CheckMinute(l: Limits, s: Shared, chat: Chat, now: real): Piece {
    var window := PopOld(MinuteOf(s, chat), now, 60.0);
    var s' := s.(minute := s.minute[chat := window]);
    if |window| >= l.groupPerMinute then
      Piece(s', Awaits(MinuteSleep(chat, now + (60.0 - (now - window[0]) + 0.05))))
    else
      Piece(s', Awaits(WantGlobal(chat, now)))
  }

  /** Lines 79-81: awake after the group ceiling. */
  function WakeMinute(s: Shared, chat: Chat, clock: real): Piece {
    var window := PopOld(MinuteOf(s, chat), clock, 60.0);
    Piece(s.(minute := s.minute[chat := window]), Awaits(WantGlobal(chat, clock)))
  }

  /** Lines 83-88: the global lock has just been obtained, with the `now` read before queuing. */
  function EnterGlobal(l: Limits, s: Shared, t: Task, chat: Chat, now: real, clock: real): Piece {
    var window := PopOld(s.second, now, 1.0);
    if |window| >= l.globalPerSecond then
      Piece(s.(second := window, globalHolder := Some(t)),
            Awaits(GlobalSleep(chat, clock + (1.0 - (now - window[0]) + 0.01))))
    else
      Leave(s.(second := window), chat, now)
  }

  /** Lines 90-92: awake inside the global lock. */
  function WakeGlobal(s: Shared, chat: Chat, clock: real): Piece {
    Leave(s.(second := PopOld(s.second, clock, 1.0)), chat, clock)
  }

  /** Lines 93-98: stamp the three records, release both locks, return. */
  function Leave(s: Shared, chat: Chat, now: real): Piece {
    Piece(Shared(
            s.lastSend[chat := now],
            s.minute[chat := MinuteOf(s, chat) + [now]],
            s.second + [now],
            s.chatHolder - {chat},
            None),
          Returns(now))
  }

  /** Popping at two moments is popping at the later one. */
  lemma {:induction false} PopTwice(window: seq<real>, now: real, later: real, span: real)
    requires now <= later
    ensures PopOld(PopOld(window, now, span), later, span) == PopOld(window, later, span)
    decreases |window|
  {
    if window != [] && now - window[0] > span {
      PopTwice(window[1..], now, later, span);
    }
  }

  /** A full window has room once its own sleep is over. */
  lemma SleptWindow(window: seq<real>, ceiling: nat, now: real, later: real)
    requires 1 <= ceiling && |window| <= ceiling <= |PopOld(window, now, 60.0)|
    requires now + (60.0 - (now - PopOld(window, now, 60.0)[0]) + 0.05) <= later
    ensures |PopOld(window, later, 60.0)| < ceiling
    ensures now < later
  {
    assert PopOld(window, now, 60.0) == window;
    assert later - window[0] > 60.0;
  }

  /** Waking from the group ceiling is checking the window once, later. */
  lemma MinuteSleepMakesRoom(l: Limits, s: Shared, chat: Chat, now: real, later: real)
    requires |MinuteOf(s, chat)| <= l.groupPerMinute
    requires CheckMinute(l, s, chat, now).outcome.stage.MinuteSleep?
    requires CheckMinute(l, s, chat, now).outcome.stage.until <= later
    ensures var woken := PopOld(MinuteOf(s, chat), later, 60.0);
            && |woken| < l.groupPerMinute && now < later
            && WakeMinute(CheckMinute(l, s, chat, now).shared, chat, later).shared
               == s.(minute := s.minute[chat := woken])
  {
    var window := MinuteOf(s, chat);
    SleptWindow(window, l.groupPerMinute, now, later);
    PopTwice(window, now, later, 60.0);
    PutTwice(s.minute, chat, PopOld(window, now, 60.0), PopOld(window, later, 60.0));
  }

  /** As many as the ceiling allows, and the first of them not yet over `span` old. */
  predicate Full(window: seq<real>, ceiling: nat, now: real, span: real)
    requires ceiling >= 1
  {
    |window| == ceiling && now - window[0] <= span
  }

  lemma FullIff(window: seq<real>, ceiling: nat, now: real, span: real)
    requires 1 <= ceiling && |window| <= ceiling
    ensures |PopOld(window, now, span)| >= ceiling <==> Full(window, ceiling, now, span)
    ensures Full(window, ceiling, now, span) ==> PopOld(window, now, span) == window
  {
  }

  /**
   What a call alone in the limiter waits, and no more: until an interval after the chat's last send;
   then, if the group's minute is full, until sixty seconds and a twentieth after its first; then,
   if the second is full, until a second and a hundredth after its first. `rested` and `admitted`
   are when it came out of the first two waits. Only a sleeper can be later than it asked to be.
   */
  ghost predicate WaitsAsForced(l: Limits, last: Option<real>, minute: seq<real>, second: seq<real>, clock: real,
                                rested: real, admitted: real, at: real, waited: real)
  {
    var early := last.Some? && clock < last.value + l.perChatInterval;
    var heldUp := Full(minute, l.groupPerMinute, rested, 60.0);
    var crowded := Full(second, l.globalPerSecond, admitted, 1.0);
    && (if early then rested >= last.value + l.perChatInterval else rested == clock)
    && (if heldUp then admitted >= minute[0] + 60.05 else admitted == rested)
    && (if crowded then at >= second[0] + 1.01 else at == admitted)
    && waited == (if early then last.value + l.perChatInterval - clock else 0.0)
               + (if heldUp then minute[0] + 60.05 - rested else 0.0)
               + (if crowded then second[0] + 1.01 - admitted else 0.0)
  }

  /** A sleep lasts at least as long as it was asked to. */
  method Sleep(clock: real, delay: real) returns (later: real)
    ensures later >= clock && later >= clock + delay
  {
    later := if delay > 0.0 then clock + delay else clock;
  }

  class RateLimiter {
    const limits: Limits
    var lastSend: map<Chat, real>
    var minuteWindow: map<Chat, seq<real>>
    var secondWindow: seq<real>
    var chatLocks: map<Chat, Task>
    var globalLock: Option<Task>

    ghost function Snapshot(): Shared
      reads this
    {
      Shared(lastSend, minuteWindow, secondWindow, chatLocks, globalLock)
    }

    ghost function Minute(chat: Chat): seq<real>
      reads this`minuteWindow
    {
      if chat in minuteWindow then minuteWindow[chat] else []
    }

    ghost function Last(chat: Chat): Option<real>
      reads this`lastSend
    {
      if chat in lastSend then Some(lastSend[chat]) else None
    }

    constructor (limits: Limits)
      ensures Snapshot() == EMPTY && this.limits == limits
    {
      this.limits := limits;
      lastSend, minuteWindow, secondWindow := map[], map[], [];
      chatLocks, globalLock := map[], None;
    }

    method AfterChatLock(t: Task, chat: Chat, clock: real) returns (outcome: Outcome)
      requires chat !in chatLocks
      modifies this`chatLocks, this`minuteWindow
      ensures Piece(Snapshot(), outcome) == EnterChat(limits, old(Snapshot()), t, chat, clock)
    {
      chatLocks := chatLocks[chat := t];
      if chat in lastSend {
        var gap := clock - lastSend[chat];
        if gap < limits.perChatInterval {
          return Awaits(ChatSleep(chat, clock + (limits.perChatInterval - gap)));
        }
      }
      outcome := AtMinuteWindow(chat, clock);
    }

    method AtMinuteWindow(chat: Chat, now: real) returns (outcome: Outcome)
      modifies this`minuteWindow
      ensures Piece(Snapshot(), outcome) == CheckMinute(limits, old(Snapshot()), chat, now)
    {
      var window := DropMinute(chat, now);
      if |window| >= limits.groupPerMinute {
        outcome := Awaits(MinuteSleep(chat, now + (60.0 - (now - window[0]) + 0.05)));
      } else {
        outcome := Awaits(WantGlobal(chat, now));
      }
    }

    method AfterMinuteSleep(chat: Chat, clock: real) returns (outcome: Outcome)
      modifies this`minuteWindow
      ensures Piece(Snapshot(), outcome) == WakeMinute(old(Snapshot()), chat, clock)
    {
      var _ := DropMinute(chat, clock);
      outcome := Awaits(WantGlobal(chat, clock));
    }

    method AfterGlobalLock(t: Task, chat: Chat, now: real, clock: real) returns (outcome: Outcome)
      requires globalLock == None
      modifies this
      ensures Piece(Snapshot(), outcome) == EnterGlobal(limits, old(Snapshot()), t, chat, now, clock)
    {
      globalLock := Some(t);
      DropSecond(now);
      if |secondWindow| >= limits.globalPerSecond {
        return Awaits(GlobalSleep(chat, clock + (1.0 - (now - secondWindow[0]) + 0.01)));
      }
      outcome := Stamp(chat, now);
    }

    method AfterGlobalSleep(chat: Chat, clock: real) returns (outcome: Outcome)
      modifies this
      ensures Piece(Snapshot(), outcome) == WakeGlobal(old(Snapshot()), chat, clock)
    {
      DropSecond(clock);
      outcome := Stamp(chat, clock);
    }

    method Stamp(chat: Chat, now: real) returns (outcome: Outcome)
      modifies this
      ensures Piece(Snapshot(), outcome) == Leave(old(Snapshot()), chat, now)
    {
      secondWindow := secondWindow + [now];
      globalLock := None;
      lastSend := lastSend[chat := now];
      var window := if chat in minuteWindow then minuteWindow[chat] else [];
      minuteWindow := minuteWindow[chat := window + [now]];
      chatLocks := chatLocks - {chat};
      outcome := Returns(now);
    }

    /** The per-chat interval, with its sleep. */
    method PassInterval(t: Task, chat: Chat, clock: real) returns (waited: real, now: real, outcome: Outcome)
      requires chat !in chatLocks
      modifies this`chatLocks, this`minuteWindow
      ensures 0.0 <= waited <= now - clock
      ensures if chat in lastSend && clock < lastSend[chat] + limits.perChatInterval
              then waited == lastSend[chat] + limits.perChatInterval - clock
              else waited == 0.0 && now == clock
      ensures chatLocks == old(chatLocks)[chat := t]
      ensures chat in lastSend ==> lastSend[chat] + limits.perChatInterval <= now
      ensures Piece(Snapshot(), outcome) == CheckMinute(limits, old(Snapshot()).(chatHolder := chatLocks), chat, now)
    {
      waited, now := 0.0, clock;
      outcome := AfterChatLock(t, chat, now);
      if outcome.stage.ChatSleep? {
        var delay := outcome.stage.until - now;
        now := Sleep(now, delay);
        waited := delay;
        outcome := AtMinuteWindow(chat, now);
      }
    }

    /** The chat's two gates, with the sleeps they ask for. */
    method PassChatGates(t: Task, chat: Chat, clock: real) returns (waited: real, now: real, ghost rested: real)
      requires chat !in chatLocks && |Minute(chat)| <= limits.groupPerMinute
      modifies this`chatLocks, this`minuteWindow
      ensures 0.0 <= waited <= now - clock
      ensures var early := chat in lastSend && clock < lastSend[chat] + limits.perChatInterval;
              var minute := old(Minute(chat));
              var heldUp := Full(minute, limits.groupPerMinute, rested, 60.0);
              && (if early then rested >= lastSend[chat] + limits.perChatInterval else rested == clock)
              && (if heldUp then now >= minute[0] + 60.05 else now == rested)
              && waited == (if early then lastSend[chat] + limits.perChatInterval - clock else 0.0)
                         + (if heldUp then minute[0] + 60.05 - rested else 0.0)
      ensures chatLocks == old(chatLocks)[chat := t]
      ensures minuteWindow == old(minuteWindow)[chat := PopOld(old(Minute(chat)), now, 60.0)]
      ensures |Minute(chat)| < limits.groupPerMinute
      ensures chat in lastSend ==> lastSend[chat] + limits.perChatInterval <= now
    {
      ghost var before := Snapshot();
      var outcome;
      waited, now, outcome := PassInterval(t, chat, clock);
      rested := now;
      FullIff(old(Minute(chat)), limits.groupPerMinute, now, 60.0);
      before := before.(chatHolder := chatLocks);
      if outcome.stage.MinuteSleep? {
        var delay := outcome.stage.until - now;
        SleptWindow(MinuteOf(before, chat), limits.groupPerMinute, now, outcome.stage.until);
        ghost var slept := now;
        now := Sleep(now, delay);
        MinuteSleepMakesRoom(limits, before, chat, slept, now);
        waited := waited + delay;
        outcome := AfterMinuteSleep(chat, now);
      }
    }

    /** The global gate, entered with nobody else in it. */
    method PassGlobalGate(t: Task, chat: Chat, clock: real) returns (waited: real, at: real)
      requires globalLock == None && |secondWindow| <= limits.globalPerSecond
      modifies this
      ensures 0.0 <= waited <= at - clock
      ensures if Full(old(secondWindow), limits.globalPerSecond, clock, 1.0)
              then waited == old(secondWindow)[0] + 1.01 - clock else waited == 0.0 && at == clock
      ensures secondWindow == PopOld(old(secondWindow), at, 1.0) + [at]
      ensures |secondWindow| <= limits.globalPerSecond
      ensures lastSend == old(lastSend)[chat := at]
      ensures minuteWindow == old(minuteWindow)[chat := old(Minute(chat)) + [at]]
      ensures chatLocks == old(chatLocks) - {chat} && globalLock == None
    {
      waited, at := 0.0, clock;
      ghost var before := secondWindow;
      FullIff(before, limits.globalPerSecond, clock, 1.0);
      var outcome := AfterGlobalLock(t, chat, clock, clock);
      if outcome.Awaits? {
        var delay := outcome.stage.until - clock;
        at := Sleep(clock, delay);
        PopTwice(before, clock, at, 1.0);
        waited := delay;
        outcome := AfterGlobalSleep(chat, at);
      }
    }

    /**
     The whole coroutine with nobody else inside it: the pieces above joined by
     their sleeps. `waited` is what the source returns; `at` is the clock then.
     */
    method Acquire(t: Task, chat: Chat, clock: real) returns (waited: real, at: real)
      requires chat !in chatLocks && globalLock == None
      requires |Minute(chat)| <= limits.groupPerMinute && |secondWindow| <= limits.globalPerSecond
      modifies this
      ensures 0.0 <= waited <= at - clock
      ensures exists rested, admitted ::
                WaitsAsForced(limits, old(Last(chat)), old(Minute(chat)), old(secondWindow), clock, rested, admitted,
                              at, waited)
      ensures chatLocks == old(chatLocks) && globalLock == None
      ensures lastSend == old(lastSend)[chat := at]
      ensures chat in old(lastSend) ==> old(lastSend)[chat] + limits.perChatInterval <= at
      ensures secondWindow == PopOld(old(secondWindow), at, 1.0) + [at]
      ensures |secondWindow| <= limits.globalPerSecond
      ensures minuteWindow == old(minuteWindow)[chat := Minute(chat)]
      ensures Minute(chat) != [] && at == Minute(chat)[|Minute(chat)| - 1]
      ensures |Minute(chat)| <= limits.groupPerMinute
    {
      var chatWait, now, rested := PassChatGates(t, chat, clock);
      PutThenRemove(old(chatLocks), chat, t);
      ghost var gated := Minute(chat);
      waited, at := PassGlobalGate(t, chat, now);
      PutTwice(old(minuteWindow), chat, gated, gated + [at]);
      waited := waited + chatWait;
      assert WaitsAsForced(limits, old(Last(chat)), old(Minute(chat)), old(secondWindow), clock, rested, now, at,
                           waited);
    }

    /** The deque is created on first use, as `defaultdict(deque)` does. */
    method DropMinute(chat: Chat, now: real) returns (window: seq<real>)
      modifies this`minuteWindow
      ensures window == PopOld(old(Minute(chat)), now, 60.0)
      ensures minuteWindow == old(minuteWindow)[chat := window]
    {
      window := if chat in minuteWindow then minuteWindow[chat] else [];
      while window != [] && now - window[0] > 60.0
        invariant PopOld(window, now, 60.0) == PopOld(old(Minute(chat)), now, 60.0)
        decreases |window|
      {
        window := window[1..];
      }
      minuteWindow := minuteWindow[chat := window];
    }

    method DropSecond(now: real)
      modifies this`secondWindow
      ensures secondWindow == PopOld(old(secondWindow), now, 1.0)
    {
      while secondWindow != [] && now - secondWindow[0] > 1.0
        invariant PopOld(secondWindow, now, 1.0) == PopOld(old(secondWindow), now, 1.0)
        decreases |secondWindow|
      {
        secondWindow := secondWindow[1..];
      }
    }
  }
}
