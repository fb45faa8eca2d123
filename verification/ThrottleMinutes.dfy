/**
 The ceiling of a group's minute in real time (app/services/throttle.py:68-81): for
 which limits no minute of the clock holds more sends than it allows, under contention.
 */
module ThrottleMinutes {
  import opened Prelude
  import opened Throttle
  import opened ThrottleRuns
  import opened ThrottleChats
  import opened ThrottleContention

  /** Whatever happens, any `groupPerMinute` + 1 sends into one chat span more than sixty seconds. */
  ghost predicate KeepsMinutes(l: Limits) {
    forall clock, run, chat, i: nat :: Possible(l, Start(clock), run) ==>
      MinuteAt(l, ChatGrants(Exec(l, Start(clock), run).grants, chat), i)
  }

  predicate MinuteAt(l: Limits, sent: seq<Grant>, i: nat) {
    i + l.groupPerMinute < |sent| ==> sent[i].at + 60.0 < sent[i + l.groupPerMinute].at
  }

  // ---- a chat's lock: the next send is stamped after the last was made -------------------

  ghost predicate InTurn(sent: seq<Grant>) {
    && (forall i :: 0 <= i < |sent| ==> sent[i].stamp <= sent[i].at)
    && (forall i, j :: 0 <= i && j < |sent| && j == i + 1 ==> sent[i].at <= sent[j].stamp)
  }

  predicate AllBefore(sent: seq<Grant>, now: real) {
    sent != [] ==> sent[|sent| - 1].at <= now
  }

  ghost predicate TurnsOk(w: World, chat: Chat) {
    var sent := ChatGrants(w.grants, chat);
    && InTurn(sent) && AllBefore(sent, w.clock)
    && forall t :: t in w.tasks && w.tasks[t].WantGlobal? && w.tasks[t].chat == chat ==>
         AllBefore(sent, w.tasks[t].now) && w.tasks[t].now <= w.clock
  }

  lemma InTurnOneMore(sent: seq<Grant>, g: Grant)
    requires InTurn(sent) && AllBefore(sent, g.stamp) && g.stamp <= g.at
    ensures InTurn(sent + [g])
  {
    var sent' := sent + [g];
    forall i, j | 0 <= i && j < |sent'| && j == i + 1 ensures sent'[i].at <= sent'[j].stamp {
      assert j < |sent| ==> sent[i].at <= sent[j].stamp;
    }
  }

  /** A returning task stamps the `now` it queued with, or the clock. */
  lemma ReturnStamp(l: Limits, w: World, t: Task)
    requires t in w.tasks && Run(l, w, t).outcome.Returns?
    ensures !w.tasks[t].WantChat?
    ensures Run(l, w, t).outcome.stamp == if w.tasks[t].WantGlobal? then w.tasks[t].now else w.clock
  {
  }

  lemma GrantInTurn(w: World, t: Task, stamp: real, shared: Shared)
    requires LocksOk(w.tasks, w.shared.chatHolder, w.shared.globalHolder)
    requires t in w.tasks && !w.tasks[t].WantChat? && TurnsOk(w, w.tasks[t].chat)
    requires AllBefore(ChatGrants(w.grants, w.tasks[t].chat), stamp) && stamp <= w.clock
    ensures TurnsOk(Settle(w, t, Piece(shared, Returns(stamp))), w.tasks[t].chat)
  {
    var chat := w.tasks[t].chat;
    var sent, g := ChatGrants(w.grants, chat), Grant(w.clock, stamp, chat);
    var w' := Settle(w, t, Piece(shared, Returns(stamp)));
    FilterAppend(w.grants, g, (g: Grant) => g.chat == chat);
    assert ChatGrants(w'.grants, chat) == sent + [g];
    InTurnOneMore(sent, g);
    OthersWait(w, t);
  }

  /** Whoever else is in a chat waits for its lock. */
  lemma OthersWait(w: World, t: Task)
    requires LocksOk(w.tasks, w.shared.chatHolder, w.shared.globalHolder)
    requires t in w.tasks && !w.tasks[t].WantChat?
    ensures forall u :: u in w.tasks - {t} && w.tasks[u].chat == w.tasks[t].chat ==> w.tasks[u].WantChat?
  {
    forall u | u in w.tasks - {t} && w.tasks[u].chat == w.tasks[t].chat ensures w.tasks[u].WantChat? {
    }
  }

  lemma ReturnInTurn(l: Limits, w: World, t: Task)
    requires LocksOk(w.tasks, w.shared.chatHolder, w.shared.globalHolder)
    requires t in w.tasks && Ready(w, t) && TurnsOk(w, w.tasks[t].chat) && Run(l, w, t).outcome.Returns?
    ensures TurnsOk(Settle(w, t, Run(l, w, t)), w.tasks[t].chat)
  {
    ReturnStamp(l, w, t);
    var p := Run(l, w, t);
    assert p == Piece(p.shared, Returns(p.outcome.stamp));
    GrantInTurn(w, t, p.outcome.stamp, p.shared);
  }

  lemma OthersInTurn(l: Limits, w: World, t: Task, chat: Chat)
    requires t in w.tasks && w.tasks[t].chat != chat && TurnsOk(w, chat)
    ensures TurnsOk(Settle(w, t, Run(l, w, t)), chat)
  {
    RunFrame(l, w, t, chat);
    var p := Run(l, w, t);
    if p.outcome.Returns? {
      FilterAppend(w.grants, Grant(w.clock, p.outcome.stamp, w.tasks[t].chat), (g: Grant) => g.chat == chat);
    }
  }

  /** A `now` that a task brings to the global queue has just been read. */
  lemma AwaitsWithNow(l: Limits, w: World, t: Task)
    requires t in w.tasks
    ensures var out := Run(l, w, t).outcome;
            && (out.Awaits? && out.stage.WantGlobal? ==> out.stage.now == w.clock)
            && (out.Awaits? ==> out.stage.chat == w.tasks[t].chat)
  {
  }

  lemma TurnsKept(l: Limits, w: World, a: Action, chat: Chat)
    requires GlobalOk(l, w) && TurnsOk(w, chat) && Enabled(w, a)
    ensures TurnsOk(Next(l, w, a), chat)
  {
    if a.Proceed? {
      if w.tasks[a.t].chat != chat {
        OthersInTurn(l, w, a.t, chat);
      } else if Run(l, w, a.t).outcome.Returns? {
        ReturnInTurn(l, w, a.t);
      } else {
        AwaitsWithNow(l, w, a.t);
      }
    }
  }

  lemma {:induction false} TurnsAlways(l: Limits, w: World, run: seq<Action>, chat: Chat)
    requires GlobalOk(l, w) && TurnsOk(w, chat) && Possible(l, w, run)
    ensures TurnsOk(Exec(l, w, run), chat)
    decreases |run|
  {
    if run != [] {
      GlobalKept(l, w, run[0]);
      TurnsKept(l, w, run[0], chat);
      TurnsAlways(l, Next(l, w, run[0]), run[1..], chat);
    }
  }

  // ---- limits that keep every minute ------------------------------------------------------

  lemma {:induction false} StampsSpan(gap: real, sent: seq<Grant>, i: nat, n: nat)
    requires StampsApart(1, gap, sent) && i + n < |sent|
    ensures sent[i].stamp + n as real * gap <= sent[i + n].stamp
  {
    if n > 0 {
      StampsSpan(gap, sent, i, n - 1);
      assert sent[i + n - 1].stamp + gap <= sent[i + n].stamp;
      assert n as real * gap == (n - 1) as real * gap + gap;
    }
  }

  /** What a group's minute would take up at the interval asked for, first send left out. */
  function Span(l: Limits): real {
    (l.groupPerMinute - 1) as real * l.perChatInterval
  }

  /** So wide an interval that those sends, an interval apart by their stamps, take over a minute. */
  lemma WideIntervalKeepsMinute(l: Limits, clock: real, run: seq<Action>, chat: Chat, i: nat)
    requires Span(l) > 60.0 && Possible(l, Start(clock), run)
    ensures MinuteAt(l, ChatGrants(Exec(l, Start(clock), run).grants, chat), i)
  {
    RecordedSpacing(l, clock, run, chat);
    TurnsAlways(l, Start(clock), run, chat);
    WideStampsKeepMinute(l, ChatGrants(Exec(l, Start(clock), run).grants, chat), i);
  }

  lemma WideStampsKeepMinute(l: Limits, sent: seq<Grant>, i: nat)
    requires Span(l) > 60.0 && StampsApart(1, l.perChatInterval, sent) && InTurn(sent)
    ensures MinuteAt(l, sent, i)
  {
    if i + l.groupPerMinute < |sent| {
      var last := i + l.groupPerMinute;
      StampsSpan(l.perChatInterval, sent, i + 1, l.groupPerMinute - 1);
      assert sent[i + 1].stamp + Span(l) <= sent[last].stamp;
      assert sent[i].at <= sent[i + 1].stamp && sent[last].stamp <= sent[last].at;
    }
  }

  /** With one send a second no stamp is ever stale. */
  lemma OneASecondKeepsMinute(l: Limits, clock: real, run: seq<Action>, chat: Chat, i: nat)
    requires l.globalPerSecond == 1 && Possible(l, Start(clock), run)
    ensures MinuteAt(l, ChatGrants(Exec(l, Start(clock), run).grants, chat), i)
  {
    RecordedSpacing(l, clock, run, chat);
    GlobalAlways(l, Start(clock), run);
    var grants := Exec(l, Start(clock), run).grants;
    var sent := ChatGrants(grants, chat);
    forall g | g in sent ensures g.stamp == g.at {
      var k :| 0 <= k < |grants| && grants[k] == g;
      assert StaleFollowsAt(grants, k);
      assert k > 0 ==> grants[k - 1].at + 1.0 < grants[k].at;
    }
    if i + l.groupPerMinute < |sent| {
      assert sent[i] in sent && sent[i + l.groupPerMinute] in sent;
      assert sent[i].stamp + 60.0 < sent[i + l.groupPerMinute].stamp;
    }
  }

  // ---- limits that do not: a stale send, and a minute's worth after it ----------------------

  /** A minute's worth of sends, evenly over the sixty seconds. */
  function Step(l: Limits): real {
    if l.groupPerMinute <= 1 then 60.0 else 60.0 / (l.groupPerMinute - 1) as real
  }

  function When(l: Limits, late: real, k: nat): real {
    late + k as real * Step(l)
  }

  lemma {:induction false} OldArePopped(window: seq<real>, now: real)
    requires forall i :: 0 <= i < |window| ==> now - window[i] > 1.0
    ensures PopOld(window, now, 1.0) == []
    decreases |window|
  {
    if window != [] {
      OldArePopped(window[1..], now);
    }
  }

  lemma StepIsWide(l: Limits)
    requires l.groupPerMinute <= 60
    ensures Step(l) > 1.0
    ensures (l.groupPerMinute - 1) as real * Step(l) == if l.groupPerMinute <= 1 then 0.0 else 60.0
    ensures l.groupPerMinute >= 2 && Span(l) <= 60.0 ==> l.perChatInterval <= Step(l)
  {
    if l.groupPerMinute >= 2 {
      var n := (l.groupPerMinute - 1) as real;
      assert n * Step(l) == 60.0;
      if l.perChatInterval > Step(l) {
        assert n * l.perChatInterval > n * Step(l);
      }
    }
  }

  /** After the stale send at `late`, and `k` more: nobody about, and records that are the last send's. */
  ghost predicate SeriesOk(l: Limits, late: real, k: nat, w: World) {
    var chat := l.globalPerSecond + 2;
    && Idle(w) && w.clock == (if k == 0 then late else When(l, late, k - 1))
    && chat in w.shared.lastSend && w.shared.lastSend[chat] == (if k == 0 then 0.0 else When(l, late, k - 1))
    && (if k == 0 then MinuteOf(w.shared, chat) == [0.0] else |MinuteOf(w.shared, chat)| <= k)
    && (if k == 0 then w.shared.second == [late, 0.0]
        else |w.shared.second| <= 3 && forall x :: x in w.shared.second ==> x <= When(l, late, k - 1))
  }

  lemma WhenNext(l: Limits, late: real, k: nat)
    ensures When(l, late, k + 1) == When(l, late, k) + Step(l) && When(l, late, 0) == late
  {
    assert (k + 1) as real * Step(l) == k as real * Step(l) + Step(l);
  }

  lemma SecondHasRoom(l: Limits, late: real, k: nat, w: World)
    requires l.globalPerSecond >= 3 && l.groupPerMinute <= 60 && late >= 0.0 && SeriesOk(l, late, k, w)
    ensures var window := PopOld(w.shared.second, When(l, late, k), 1.0);
            if k == 0 then window == [late, 0.0] else window == []
  {
    WhenNext(l, late, 0);
    if k == 0 {
      assert PopOld([late, 0.0], late, 1.0) == [late, 0.0];
    } else {
      StepIsWide(l);
      WhenNext(l, late, k - 1);
      WindowIsOld(w.shared.second, When(l, late, k - 1), When(l, late, k));
    }
  }

  lemma WindowIsOld(window: seq<real>, last: real, now: real)
    requires last + 1.0 < now && forall x :: x in window ==> x <= last
    ensures PopOld(window, now, 1.0) == []
  {
    forall i | 0 <= i < |window| ensures now - window[i] > 1.0 {
      assert window[i] in window;
    }
    OldArePopped(window, now);
  }

  lemma MinuteHasRoom(l: Limits, late: real, k: nat, w: World)
    requires late > 60.0 && k < l.groupPerMinute && SeriesOk(l, late, k, w)
    ensures |PopOld(MinuteOf(w.shared, l.globalPerSecond + 2), When(l, late, k), 60.0)| <= k
  {
    WhenNext(l, late, 0);
    if k == 0 {
      assert [0.0][1..] == [];
      assert PopOld([0.0], late, 60.0) == [];
    }
  }

  ghost predicate Dense(l: Limits) {
    l.globalPerSecond >= 3 && l.groupPerMinute <= 60 && Span(l) <= 60.0
  }

  /** The stale send's lateness: long enough for a minute and an interval to pass since its stamp. */
  function Lateness(l: Limits): real {
    61.0 + if l.perChatInterval > 0.0 then l.perChatInterval else 0.0
  }

  lemma SeriesStep(l: Limits, k: nat, w: World)
    requires Dense(l) && k < l.groupPerMinute && SeriesOk(l, Lateness(l), k, w)
    ensures var late := Lateness(l);
            SeriesOk(l, late, k + 1, Sent(w.(clock := When(l, late, k)), l.globalPerSecond + 2))
  {
    var late := Lateness(l);
    StepIsWide(l);
    SecondHasRoom(l, late, k, w);
    MinuteHasRoom(l, late, k, w);
    WhenNext(l, late, 0);
  }

  lemma SeriesTick(l: Limits, late: real, k: nat, w: World)
    requires SeriesOk(l, late, k, w) && Step(l) > 0.0
    ensures Reaches(l, late, w, w.(clock := When(l, late, k)))
  {
    WhenNext(l, late, 0);
    if k > 0 {
      WhenNext(l, late, k - 1);
    }
    TickTo(l, late, w, When(l, late, k));
  }

  lemma TickTo(l: Limits, slack: real, w: World, at: real)
    requires Idle(w) && w.clock <= at
    ensures Reaches(l, slack, w, w.(clock := at))
  {
    if w.clock == at {
      assert w.(clock := at) == w;
      assert Possible(l, w, []) && Punctual(l, slack, w, []) && Exec(l, w, []) == w;
    } else {
      ByStep(l, slack, w, Tick(at - w.clock));
    }
  }

  lemma SeriesOneMore(l: Limits, k: nat, w: World)
    requires Dense(l) && k < l.groupPerMinute && SeriesOk(l, Lateness(l), k, w)
    ensures var late := Lateness(l);
            Reaches(l, late, w, Sent(w.(clock := When(l, late, k)), l.globalPerSecond + 2))
  {
    var late, chat := Lateness(l), l.globalPerSecond + 2;
    var w' := w.(clock := When(l, late, k));
    StepIsWide(l);
    WhenNext(l, late, 0);
    if k > 0 {
      WhenNext(l, late, k - 1);
    }
    SecondHasRoom(l, late, k, w);
    MinuteHasRoom(l, late, k, w);
    SeriesTick(l, late, k, w);
    assert Unhindered(l, w', 0, chat);
    SendAtOnce(l, late, w', 0, chat);
    Then(l, late, w, w', Sent(w', chat));
  }

  /** The chat's sends: the stale one, and `k` more, the last of them when it should be. */
  predicate SentSoFar(l: Limits, late: real, k: nat, sent: seq<Grant>) {
    && |sent| == k + 1 && sent[0] == Grant(late, 0.0, l.globalPerSecond + 2)
    && (k > 0 ==> sent[k].at == When(l, late, k - 1))
  }

  lemma OneMoreSent(l: Limits, late: real, k: nat, w: World)
    requires SentSoFar(l, late, k, ChatGrants(w.grants, l.globalPerSecond + 2))
    ensures var w' := Sent(w.(clock := When(l, late, k)), l.globalPerSecond + 2);
            SentSoFar(l, late, k + 1, ChatGrants(w'.grants, l.globalPerSecond + 2))
  {
    SentOneMore(w, When(l, late, k), l.globalPerSecond + 2);
  }

  lemma StaleSent(n: nat, late: real)
    ensures ChatGrants(Stale(n, late).grants, n + 2) == [Grant(late, 0.0, n + 2)]
  {
    var ours := (g: Grant) => g.chat == n + 2;
    var before := Filled(n).grants + [Grant(late, late, n + 1)];
    FilterNone(before, ours);
    FilterAppend(before, Grant(late, 0.0, n + 2), ours);
  }

  lemma SentOneMore(w: World, at: real, chat: Chat)
    ensures ChatGrants(Sent(w.(clock := at), chat).grants, chat)
         == ChatGrants(w.grants, chat) + [Grant(at, at, chat)]
  {
    FilterAppend(w.grants, Grant(at, at, chat), (g: Grant) => g.chat == chat);
  }

  /** Some run sends the stale one and `k` more. */
  ghost predicate GetsTo(l: Limits, k: nat, w: World) {
    && Reaches(l, Lateness(l), Start(0.0), w) && SeriesOk(l, Lateness(l), k, w)
    && SentSoFar(l, Lateness(l), k, ChatGrants(w.grants, l.globalPerSecond + 2))
  }

  lemma {:induction false} SeriesIsReached(l: Limits, k: nat) returns (w: World)
    requires Dense(l) && k <= l.groupPerMinute
    ensures GetsTo(l, k, w)
  {
    if k == 0 {
      w := SeriesStarts(l);
    } else {
      var before := SeriesIsReached(l, k - 1);
      w := SeriesGoesOn(l, k - 1, before);
    }
  }

  lemma SeriesStarts(l: Limits) returns (w: World)
    requires Dense(l)
    ensures GetsTo(l, 0, w)
  {
    w := Stale(l.globalPerSecond, Lateness(l));
    StaleIsReached(l, Lateness(l), Lateness(l));
    StaleSent(l.globalPerSecond, Lateness(l));
  }

  lemma SeriesGoesOn(l: Limits, k: nat, before: World) returns (w: World)
    requires Dense(l) && k < l.groupPerMinute && GetsTo(l, k, before)
    ensures GetsTo(l, k + 1, w)
  {
    w := Sent(before.(clock := When(l, Lateness(l), k)), l.globalPerSecond + 2);
    SeriesStep(l, k, before);
    OneMoreSent(l, Lateness(l), k, before);
    SeriesOneMore(l, k, before);
    Then(l, Lateness(l), Start(0.0), before, w);
  }

  /**
   If the sends of a minute but the first need not take a minute, a run sends one more than the
   ceiling within sixty seconds: a stale one, then a minute's worth as soon as it has gone.
   */
  lemma MinuteIsOverrun(l: Limits)
    requires Dense(l)
    ensures !KeepsMinutes(l)
  {
    var late, m := Lateness(l), l.groupPerMinute;
    var w := SeriesIsReached(l, m);
    StepIsWide(l);
    var run :| Possible(l, Start(0.0), run) && Punctual(l, late, Start(0.0), run)
            && Exec(l, Start(0.0), run) == w;
    assert !MinuteAt(l, ChatGrants(Exec(l, Start(0.0), run).grants, l.globalPerSecond + 2), 0);
  }

  /**
   With a ceiling of one a second, or of three or more - and a group's minute of up to sixty; the
   program's are 25 and 20 - a group's minute holds in real time if and only if there
   is one send a second, or a minute's sends but the first take more than a minute by themselves.
   */
  lemma MinutesAreKeptIff(l: Limits)
    requires l.globalPerSecond == 1 || (l.globalPerSecond >= 3 && l.groupPerMinute <= 60)
    ensures KeepsMinutes(l) <==> l.globalPerSecond == 1 || Span(l) > 60.0
  {
    if l.globalPerSecond == 1 || Span(l) > 60.0 {
      forall clock, run, chat, i: nat | Possible(l, Start(clock), run)
        ensures MinuteAt(l, ChatGrants(Exec(l, Start(clock), run).grants, chat), i)
      {
        if l.globalPerSecond == 1 {
          OneASecondKeepsMinute(l, clock, run, chat, i);
        } else {
          WideIntervalKeepsMinute(l, clock, run, chat, i);
        }
      }
    } else {
      MinuteIsOverrun(l);
    }
  }
}
