/**
 The per-chat promises of the limiter (app/services/throttle.py:57-81, 95-96),
 over every interleaving. They are promises about the stamps the limiter
 records; a task that queued for the global lock returns later than its stamp.
 */
module ThrottleChats {
  import opened Prelude
  import opened Throttle
  import opened ThrottleRuns

  function ChatGrants(grants: seq<Grant>, chat: Chat): seq<Grant> {
    Filter(grants, (g: Grant) => g.chat == chat)
  }

  ghost predicate StampsApart(steps: nat, gap: real, sent: seq<Grant>) {
    forall i, j :: 0 <= i && j < |sent| && j == i + steps ==> sent[i].stamp + gap <= sent[j].stamp
  }

  /** `steps` stamps apart means strictly more than a minute apart. */
  ghost predicate MinuteApart(steps: nat, sent: seq<Grant>) {
    forall i, j :: 0 <= i && j < |sent| && j == i + steps ==> sent[i].stamp + 60.0 < sent[j].stamp
  }

  ghost predicate MinutePopped(window: seq<real>, sent: seq<Grant>, bound: real) {
    forall i :: 0 <= i < |sent| - |window| ==> sent[i].stamp + 60.0 < bound
  }

  predicate Rested(l: Limits, sent: seq<Grant>, now: real) {
    sent != [] ==> sent[|sent| - 1].stamp + l.perChatInterval <= now
  }

  /** What the holder of a chat's lock knows, by the await it stands at. */
  ghost predicate StageOk(l: Limits, sent: seq<Grant>, window: seq<real>, clock: real, stage: Stage) {
    match stage
    case WantChat(_) => true
    case ChatSleep(_, until) => Rested(l, sent, until)
    case MinuteSleep(_, until) => Rested(l, sent, clock) && window != [] && window[0] + 60.0 < until
    case WantGlobal(_, now) =>
      now <= clock && Rested(l, sent, now) && |window| < l.groupPerMinute && MinutePopped(window, sent, now)
    case GlobalSleep(_, _) => Rested(l, sent, clock) && |window| < l.groupPerMinute
  }

  ghost predicate RecordsOk(l: Limits, last: map<Chat, real>, chat: Chat, window: seq<real>, sent: seq<Grant>,
                            clock: real) {
    && (chat in last <==> sent != [])
    && (chat in last ==> last[chat] == sent[|sent| - 1].stamp)
    && IsTail(window, sent)
    && |window| <= l.groupPerMinute
    && MinutePopped(window, sent, clock)
    && StampsApart(1, l.perChatInterval, sent)
    && MinuteApart(l.groupPerMinute, sent)
  }

  ghost predicate ChatOk(l: Limits, w: World, chat: Chat) {
    && RecordsOk(l, w.shared.lastSend, chat, MinuteOf(w.shared, chat), ChatGrants(w.grants, chat), w.clock)
    && forall t :: t in w.tasks && w.tasks[t].chat == chat ==>
         StageOk(l, ChatGrants(w.grants, chat), MinuteOf(w.shared, chat), w.clock, w.tasks[t])
  }

  lemma {:induction false} PopMinute(window: seq<real>, sent: seq<Grant>, now: real)
    requires IsTail(window, sent) && MinutePopped(window, sent, now)
    ensures IsTail(PopOld(window, now, 60.0), sent)
    ensures MinutePopped(PopOld(window, now, 60.0), sent, now)
    decreases |window|
  {
    if window != [] && now - window[0] > 60.0 {
      assert window[0] == sent[|sent| - |window|].stamp;
      PopMinute(window[1..], sent, now);
    }
  }

  lemma StampKeepsRecords(l: Limits, last: map<Chat, real>, chat: Chat, window: seq<real>, sent: seq<Grant>,
                          clock: real, g: Grant)
    requires RecordsOk(l, last, chat, window, sent, clock)
    requires g.chat == chat && g.stamp <= clock && Rested(l, sent, g.stamp)
    requires |window| < l.groupPerMinute && MinutePopped(window, sent, g.stamp)
    ensures RecordsOk(l, last[chat := g.stamp], chat, window + [g.stamp], sent + [g], clock)
  {
    var n, sent' := |sent|, sent + [g];
    forall i | 0 <= i < |sent'| - |window + [g.stamp]| ensures sent'[i].stamp + 60.0 < clock {
      assert sent[i].stamp + 60.0 < g.stamp;
    }
    forall i, j | 0 <= i && j < |sent'| && j == i + 1
      ensures sent'[i].stamp + l.perChatInterval <= sent'[j].stamp
    {
      assert j < n ==> sent[i].stamp + l.perChatInterval <= sent[j].stamp;
    }
    forall i, j | 0 <= i && j < |sent'| && j == i + l.groupPerMinute
      ensures sent'[i].stamp + 60.0 < sent'[j].stamp
    {
      if j < n {
        assert sent[i].stamp + 60.0 < sent[j].stamp;
      } else {
        assert i < n - |window|;
      }
    }
  }

  /** A piece of `acquire` writes under its own chat only. */
  lemma RunFrame(l: Limits, w: World, t: Task, chat: Chat)
    requires t in w.tasks && w.tasks[t].chat != chat
    ensures var p := Run(l, w, t);
            && MinuteOf(p.shared, chat) == MinuteOf(w.shared, chat)
            && (chat in p.shared.lastSend <==> chat in w.shared.lastSend)
            && (chat in p.shared.lastSend ==> p.shared.lastSend[chat] == w.shared.lastSend[chat])
            && (p.outcome.Awaits? ==> p.outcome.stage.chat == w.tasks[t].chat)
  {
  }

  /** Tasks of other chats leave this chat's records alone. */
  lemma OthersKeepChat(l: Limits, w: World, t: Task, chat: Chat, p: Piece)
    requires ChatOk(l, w, chat) && t in w.tasks && w.tasks[t].chat != chat
    requires MinuteOf(p.shared, chat) == MinuteOf(w.shared, chat)
    requires chat in p.shared.lastSend <==> chat in w.shared.lastSend
    requires chat in p.shared.lastSend ==> p.shared.lastSend[chat] == w.shared.lastSend[chat]
    requires p.outcome.Awaits? ==> p.outcome.stage.chat == w.tasks[t].chat
    ensures ChatOk(l, Settle(w, t, p), chat)
  {
    if p.outcome.Returns? {
      FilterAppend(w.grants, Grant(w.clock, p.outcome.stamp, w.tasks[t].chat), (g: Grant) => g.chat == chat);
    }
  }

  /** A piece that ends at an await leaves the chat's records in order. */
  ghost predicate PieceOk(l: Limits, p: Piece, last: map<Chat, real>, sent: seq<Grant>, chat: Chat, clock: real) {
    && p.outcome.Awaits? && p.outcome.stage.chat == chat && p.shared.lastSend == last
    && IsTail(MinuteOf(p.shared, chat), sent)
    && |MinuteOf(p.shared, chat)| <= l.groupPerMinute
    && MinutePopped(MinuteOf(p.shared, chat), sent, clock)
    && StageOk(l, sent, MinuteOf(p.shared, chat), clock, p.outcome.stage)
  }

  lemma CheckMinuteOk(l: Limits, s: Shared, sent: seq<Grant>, chat: Chat, now: real)
    requires IsTail(MinuteOf(s, chat), sent) && MinutePopped(MinuteOf(s, chat), sent, now)
    requires |MinuteOf(s, chat)| <= l.groupPerMinute && Rested(l, sent, now)
    ensures PieceOk(l, CheckMinute(l, s, chat, now), s.lastSend, sent, chat, now)
  {
    PopMinute(MinuteOf(s, chat), sent, now);
  }

  lemma EnterChatOk(l: Limits, s: Shared, sent: seq<Grant>, t: Task, chat: Chat, clock: real)
    requires RecordsOk(l, s.lastSend, chat, MinuteOf(s, chat), sent, clock)
    ensures PieceOk(l, EnterChat(l, s, t, chat, clock), s.lastSend, sent, chat, clock)
  {
    if Rested(l, sent, clock) {
      CheckMinuteOk(l, s.(chatHolder := s.chatHolder[chat := t]), sent, chat, clock);
    }
  }

  lemma WakeMinuteOk(l: Limits, s: Shared, sent: seq<Grant>, chat: Chat, clock: real, until: real)
    requires RecordsOk(l, s.lastSend, chat, MinuteOf(s, chat), sent, clock) && until <= clock
    requires StageOk(l, sent, MinuteOf(s, chat), clock, MinuteSleep(chat, until))
    ensures PieceOk(l, WakeMinute(s, chat, clock), s.lastSend, sent, chat, clock)
  {
    PopMinute(MinuteOf(s, chat), sent, clock);
  }

  lemma NextStageOk(l: Limits, w: World, t: Task)
    requires t in w.tasks && Ready(w, t) && ChatOk(l, w, w.tasks[t].chat)
    requires Run(l, w, t).outcome.Awaits?
    ensures PieceOk(l, Run(l, w, t), w.shared.lastSend, ChatGrants(w.grants, w.tasks[t].chat), w.tasks[t].chat, w.clock)
  {
    var chat := w.tasks[t].chat;
    var sent, window := ChatGrants(w.grants, chat), MinuteOf(w.shared, chat);
    assert StageOk(l, sent, window, w.clock, w.tasks[t]);
    match w.tasks[t]
    case WantChat(_) => EnterChatOk(l, w.shared, sent, t, chat, w.clock);
    case ChatSleep(_, _) => CheckMinuteOk(l, w.shared, sent, chat, w.clock);
    case MinuteSleep(_, until) => WakeMinuteOk(l, w.shared, sent, chat, w.clock, until);
    case WantGlobal(_, _) =>
    case GlobalSleep(_, _) =>
  }

  lemma AwaitKeepsChat(l: Limits, w: World, t: Task, p: Piece)
    requires LocksOk(w.tasks, w.shared.chatHolder, w.shared.globalHolder)
    requires t in w.tasks && Ready(w, t) && ChatOk(l, w, w.tasks[t].chat)
    requires p == Run(l, w, t) && p.outcome.Awaits?
    ensures ChatOk(l, Settle(w, t, p), w.tasks[t].chat)
  {
    NextStageOk(l, w, t);
    var chat, w' := w.tasks[t].chat, Settle(w, t, p);
    forall u | u in w'.tasks && w'.tasks[u].chat == chat && u != t ensures w'.tasks[u].WantChat? {
    }
  }

  /** The holder returns. */
  lemma ReturnKeepsChat(l: Limits, w: World, t: Task)
    requires LocksOk(w.tasks, w.shared.chatHolder, w.shared.globalHolder)
    requires t in w.tasks && Ready(w, t) && ChatOk(l, w, w.tasks[t].chat)
    requires Run(l, w, t).outcome.Returns?
    ensures ChatOk(l, Settle(w, t, Run(l, w, t)), w.tasks[t].chat)
  {
    var chat, p := w.tasks[t].chat, Run(l, w, t);
    var sent, window := ChatGrants(w.grants, chat), MinuteOf(w.shared, chat);
    var g := Grant(w.clock, p.outcome.stamp, chat);
    var w' := Settle(w, t, p);
    assert StageOk(l, sent, window, w.clock, w.tasks[t]);
    FilterAppend(w.grants, g, (g: Grant) => g.chat == chat);
    StampKeepsRecords(l, w.shared.lastSend, chat, window, sent, w.clock, g);
    forall u | u in w'.tasks && w'.tasks[u].chat == chat ensures w'.tasks[u].WantChat? {
    }
  }

  lemma ChatKept(l: Limits, w: World, a: Action, chat: Chat)
    requires GlobalOk(l, w) && ChatOk(l, w, chat) && Enabled(w, a)
    ensures ChatOk(l, Next(l, w, a), chat)
  {
    match a
    case Call(_, _) =>
    case Tick(step) =>
      var sent, window := ChatGrants(w.grants, chat), MinuteOf(w.shared, chat);
      assert RecordsOk(l, w.shared.lastSend, chat, window, sent, w.clock + step);
      forall t | t in w.tasks && w.tasks[t].chat == chat
        ensures StageOk(l, sent, window, w.clock + step, w.tasks[t])
      {
        assert StageOk(l, sent, window, w.clock, w.tasks[t]);
      }
    case Proceed(t) =>
      if w.tasks[t].chat != chat {
        RunFrame(l, w, t, chat);
        OthersKeepChat(l, w, t, chat, Run(l, w, t));
      } else if Run(l, w, t).outcome.Awaits? {
        AwaitKeepsChat(l, w, t, Run(l, w, t));
      } else {
        ReturnKeepsChat(l, w, t);
      }
  }

  lemma {:induction false} ChatAlways(l: Limits, w: World, run: seq<Action>, chat: Chat)
    requires GlobalOk(l, w) && ChatOk(l, w, chat) && Possible(l, w, run)
    ensures ChatOk(l, Exec(l, w, run), chat) && GlobalOk(l, Exec(l, w, run))
    decreases |run|
  {
    if run != [] {
      GlobalKept(l, w, run[0]);
      ChatKept(l, w, run[0], chat);
      ChatAlways(l, Next(l, w, run[0]), run[1..], chat);
    }
  }

  /**
   One chat's recorded stamps: consecutive ones at least `perChatInterval`
   apart, and any `groupPerMinute` + 1 consecutive ones spanning more than sixty
   seconds, whatever the interleaving.
   */
  lemma RecordedSpacing(l: Limits, clock: real, run: seq<Action>, chat: Chat)
    requires Possible(l, Start(clock), run)
    ensures var sent := ChatGrants(Exec(l, Start(clock), run).grants, chat);
            StampsApart(1, l.perChatInterval, sent) && MinuteApart(l.groupPerMinute, sent)
  {
    ChatAlways(l, Start(clock), run, chat);
  }

  /**
   Real time between two consecutive sends to one chat: short of the interval by
   at most the time the first of them spent queuing for the global lock.
   */
  lemma RealSpacing(l: Limits, clock: real, run: seq<Action>, chat: Chat, i: nat)
    requires Possible(l, Start(clock), run)
    requires i + 1 < |ChatGrants(Exec(l, Start(clock), run).grants, chat)|
    ensures var sent := ChatGrants(Exec(l, Start(clock), run).grants, chat);
            sent[i + 1].at - sent[i].at >= l.perChatInterval - (sent[i].at - sent[i].stamp)
  {
    ChatAlways(l, Start(clock), run, chat);
    var w := Exec(l, Start(clock), run);
    var sent := ChatGrants(w.grants, chat);
    assert sent[i].stamp + l.perChatInterval <= sent[i + 1].stamp;
    assert sent[i + 1] in w.grants;
    var k :| 0 <= k < |w.grants| && w.grants[k] == sent[i + 1];
    assert StaleFollowsAt(w.grants, k);
  }

  // ---- acquires that do not overlap ------------------------------------------

  /** Every call is made while no other is in progress. */
  ghost predicate OneAtATime(l: Limits, w: World, run: seq<Action>)
    requires Possible(l, w, run)
    decreases |run|
  {
    run != [] ==> (run[0].Call? ==> w.tasks == map[]) && OneAtATime(l, Next(l, w, run[0]), run[1..])
  }

  ghost predicate AloneOk(w: World) {
    && (forall t, u :: t in w.tasks && u in w.tasks ==> t == u)
    && (forall t :: t in w.tasks && w.tasks[t].WantGlobal? ==> w.tasks[t].now == w.clock)
    && (forall i :: 0 <= i < |w.grants| ==> w.grants[i].stamp == w.grants[i].at)
  }

  /** A fresh `now` reaches the queue or the records. */
  lemma FreshOutcome(l: Limits, w: World, t: Task)
    requires t in w.tasks && (w.tasks[t].WantGlobal? ==> w.tasks[t].now == w.clock)
    ensures var out := Run(l, w, t).outcome;
            && (out.Returns? ==> out.stamp == w.clock)
            && (out.Awaits? && out.stage.WantGlobal? ==> out.stage.now == w.clock)
  {
  }

  lemma AloneSettles(w: World, t: Task, p: Piece)
    requires AloneOk(w) && t in w.tasks
    requires p.outcome.Returns? ==> p.outcome.stamp == w.clock
    requires p.outcome.Awaits? && p.outcome.stage.WantGlobal? ==> p.outcome.stage.now == w.clock
    ensures AloneOk(Settle(w, t, p))
  {
  }

  lemma AloneKept(l: Limits, w: World, a: Action)
    requires GlobalOk(l, w) && AloneOk(w) && Enabled(w, a)
    requires a.Call? ==> w.tasks == map[]
    ensures AloneOk(Next(l, w, a))
  {
    match a
    case Call(_, _) =>
    case Tick(step) =>
      forall t | t in w.tasks ensures !w.tasks[t].WantGlobal? {
        assert Prompt(w, t);
      }
    case Proceed(t) =>
      FreshOutcome(l, w, t);
      AloneSettles(w, t, Run(l, w, t));
  }

  lemma {:induction false} AloneAlways(l: Limits, w: World, run: seq<Action>)
    requires GlobalOk(l, w) && AloneOk(w) && Possible(l, w, run) && OneAtATime(l, w, run)
    ensures AloneOk(Exec(l, w, run))
    decreases |run|
  {
    if run != [] {
      GlobalKept(l, w, run[0]);
      AloneKept(l, w, run[0]);
      AloneAlways(l, Next(l, w, run[0]), run[1..]);
    }
  }

  /** Without overlap a send happens at its stamp, so the spacing is real time. */
  lemma UncontendedSpacing(l: Limits, clock: real, run: seq<Action>, chat: Chat, i: nat, j: nat)
    requires Possible(l, Start(clock), run) && OneAtATime(l, Start(clock), run)
    requires j < |ChatGrants(Exec(l, Start(clock), run).grants, chat)|
    ensures var sent := ChatGrants(Exec(l, Start(clock), run).grants, chat);
            && (j == i + 1 ==> sent[i].at + l.perChatInterval <= sent[j].at)
            && (j == i + l.groupPerMinute ==> sent[i].at + 60.0 < sent[j].at)
  {
    RecordedSpacing(l, clock, run, chat);
    AloneAlways(l, Start(clock), run);
    var w := Exec(l, Start(clock), run);
    var sent := ChatGrants(w.grants, chat);
    forall g | g in sent ensures g.stamp == g.at {
      assert g in w.grants;
    }
    if i < |sent| {
      assert sent[i] in sent && sent[j] in sent;
    }
  }
}
