/**
 The order messages in counterparty groups, and taking them back
 (app/services/fx_relay.py:210-286, 456-520). A message with its button can be
 confirmed; the deal keeps the id of one message a side.
 */
module OrderMessages {
  import opened Prelude
  import opened FxOrders

  /** What becomes of the three calls a send can make. */
  datatype Plan = Plan(markup: Fate, rewrite: Fate, send: Fate)

  /** A message in a counterparty's group; its place in the list is its id. */
  datatype Posted = Posted(side: Side, text: string, button: bool)

  datatype Messages = Messages(client: Option<nat>, supplier: Option<nat>, posted: seq<Posted>)

  const WITHDRAWN_ORDER_TEXT :=
    "This order has been replaced — please ignore the figures above. An updated one will follow."

  function Stored(m: Messages, side: Side): Option<nat> {
    if side.Client? then m.client else m.supplier
  }

  function Store(m: Messages, side: Side, id: Option<nat>): Messages {
    if side.Client? then m.(client := id) else m.(supplier := id)
  }

  /** Ids on the deal are ids of messages of that side. */
  predicate StoredOk(m: Messages) {
    && (m.client.Some? ==> m.client.value < |m.posted| && m.posted[m.client.value].side == Client)
    && (m.supplier.Some? ==> m.supplier.value < |m.posted| && m.posted[m.supplier.value].side == Supplier)
  }

  function Cleared(posted: seq<Posted>, id: nat, plan: Plan): seq<Posted>
    requires id < |posted|
  {
    var unbuttoned := if plan.markup.Fails? then posted[id] else posted[id].(button := false);
    posted[id := if plan.rewrite.Fails? then unbuttoned else unbuttoned.(text := WITHDRAWN_ORDER_TEXT)]
  }

  /** `withdraw_order`: both edits are tried, neither may raise; None is the refusal when there is no group to reach. */
  function Withdraw(m: Messages, side: Side, reachable: bool, plan: Plan): (r: (Messages, Option<bool>))
    requires StoredOk(m)
    ensures StoredOk(r.0) && |r.0.posted| == |m.posted|
  {
    var id := Stored(m, side);
    if id == None then (m, Some(true))
    else if !reachable then (m, None)
    else (Store(m, side, None).(posted := Cleared(m.posted, id.value, plan)), Some(plan.markup.Works?))
  }

  /** `send_order`: the old message first, then the new one; a raise puts the stored ids back. */
  function Send(m: Messages, side: Side, text: string, keyboard: bool, reachable: bool,
                plan: Plan): (r: (Messages, Option<bool>))
    requires StoredOk(m)
    ensures StoredOk(r.0)
  {
    if !reachable then (m, None)
    else
      var (cleared, withdrew) := Withdraw(m, side, reachable, plan);
      Deliver(m, cleared, side, Posted(side, text, keyboard), withdrew, plan.send)
  }

  function Deliver(before: Messages, m: Messages, side: Side, message: Posted, withdrew: Option<bool>,
                   fate: Fate): (Messages, Option<bool>) {
    match fate
    case Works => (Store(m, side, Some(|m.posted|)).(posted := m.posted + [message]), withdrew)
    case Fails => (before.(posted := m.posted), None)
    case FailsLate => (before.(posted := m.posted + [message]), None)
  }

  // ---- what each writes ----------------------------------------------------------------

  /** The message a withdrawal takes down: no button and the notice for a text, as far as each edit had its effect. */
  ghost predicate TakenDown(before: Posted, after: Posted, plan: Plan) {
    && after.side == before.side
    && after.button == (before.button && plan.markup.Fails?)
    && after.text == if plan.rewrite.Fails? then before.text else WITHDRAWN_ORDER_TEXT
  }

  /** Only the side's stored message is touched, and only that side forgets it; the answer is for the button. */
  lemma WithdrawWrites(m: Messages, side: Side, reachable: bool, plan: Plan)
    requires StoredOk(m)
    ensures var (m', answer) := Withdraw(m, side, reachable, plan);
            var id := if side == Client then m.client else m.supplier;
            if id == None then m' == m && answer == Some(true)
            else if !reachable then m' == m && answer == None
            else
              && answer == Some(plan.markup == Works)
              && m'.client == (if side == Client then None else m.client)
              && m'.supplier == (if side == Supplier then None else m.supplier)
              && |m'.posted| == |m.posted| && TakenDown(m.posted[id.value], m'.posted[id.value], plan)
              && forall k :: 0 <= k < |m.posted| && k != id.value ==> m'.posted[k] == m.posted[k]
  {
  }

  /**
   A send that works takes the side's old message down first, posts the new one after all others and
   stores it for its side alone. One that raises leaves both stored ids as they were.
   */
  lemma SendWrites(m: Messages, side: Side, text: string, keyboard: bool, reachable: bool, plan: Plan)
    requires StoredOk(m)
    ensures var (m', answer) := Send(m, side, text, keyboard, reachable, plan);
            var n, id := |m.posted|, if side == Client then m.client else m.supplier;
            if !reachable then m' == m && answer == None
            else
              && |m'.posted| == (if plan.send.Fails? then n else n + 1)
              && (!plan.send.Fails? ==> m'.posted[n] == Posted(side, text, keyboard))
              && (forall k :: 0 <= k < n && id != Some(k) ==> m'.posted[k] == m.posted[k])
              && (id.Some? ==> TakenDown(m.posted[id.value], m'.posted[id.value], plan))
              && m'.client == (if plan.send == Works && side == Client then Some(n) else m.client)
              && m'.supplier == (if plan.send == Works && side == Supplier then Some(n) else m.supplier)
              && answer == if plan.send == Works then Some(id == None || plan.markup == Works) else None
  {
    WithdrawWrites(m, side, reachable, plan);
  }

  // ---- the deal as an object ---------------------------------------------------------

  class Group {
    var posted: seq<Posted>

    constructor ()
      ensures posted == []
    {
      posted := [];
    }

    method SendMessage(message: Posted, fate: Fate) returns (id: Option<nat>)
      modifies this
      ensures posted == if fate.Fails? then old(posted) else old(posted) + [message]
      ensures id == if fate.Works? then Some(|old(posted)|) else None
    {
      id := None;
      if !fate.Fails? {
        if fate.Works? {
          id := Some(|posted|);
        }
        posted := posted + [message];
      }
    }

    method EditReplyMarkup(id: nat, fate: Fate) returns (ok: bool)
      requires id < |posted|
      modifies this
      ensures posted == if fate.Fails? then old(posted) else old(posted)[id := old(posted)[id].(button := false)]
      ensures ok == fate.Works?
    {
      if !fate.Fails? {
        posted := posted[id := posted[id].(button := false)];
      }
      ok := fate.Works?;
    }

    method EditMessageText(id: nat, text: string, fate: Fate) returns (ok: bool)
      requires id < |posted|
      modifies this
      ensures posted == if fate.Fails? then old(posted) else old(posted)[id := old(posted)[id].(text := text)]
      ensures ok == fate.Works?
    {
      if !fate.Fails? {
        posted := posted[id := posted[id].(text := text)];
      }
      ok := fate.Works?;
    }
  }

  class Deal {
    var clientMessage: Option<nat>
    var supplierMessage: Option<nat>

    constructor ()
      ensures clientMessage == None && supplierMessage == None
    {
      clientMessage, supplierMessage := None, None;
    }

    function State(group: Group): Messages
      reads this, group
    {
      Messages(clientMessage, supplierMessage, group.posted)
    }

    method WithdrawOrder(side: Side, reachable: bool, group: Group, plan: Plan) returns (cleared: Option<bool>)
      requires StoredOk(State(group))
      modifies this, group
      ensures (State(group), cleared) == Withdraw(old(State(group)), side, reachable, plan)
    {
      var id := if side.Client? then clientMessage else supplierMessage;
      if id == None {
        return Some(true);
      }
      if !reachable {
        return None;
      }
      var ok := group.EditReplyMarkup(id.value, plan.markup);
      var rewritten := group.EditMessageText(id.value, WITHDRAWN_ORDER_TEXT, plan.rewrite);
      if side.Client? {
        clientMessage := None;
      } else {
        supplierMessage := None;
      }
      assert group.posted == Cleared(old(group.posted), id.value, plan);
      cleared := Some(ok);
    }

    /** The send and the transaction it fails in. */
    method SendOrder(side: Side, text: string, keyboard: bool, reachable: bool, group: Group,
                     plan: Plan) returns (withdrew: Option<bool>)
      requires StoredOk(State(group))
      modifies this, group
      ensures (State(group), withdrew) == Send(old(State(group)), side, text, keyboard, reachable, plan)
    {
      if !reachable {
        return None;
      }
      var savedClient, savedSupplier := clientMessage, supplierMessage;
      var replaced := if side.Client? then clientMessage else supplierMessage;
      withdrew := Some(true);
      if replaced.Some? {
        withdrew := WithdrawOrder(side, reachable, group, plan);
      }
      var sent := group.SendMessage(Posted(side, text, keyboard), plan.send);
      if sent == None {
        clientMessage, supplierMessage := savedClient, savedSupplier;
        return None;
      }
      if side.Client? {
        clientMessage := sent;
      } else {
        supplierMessage := sent;
      }
    }
  }

  // ---- every run ------------------------------------------------------------------------

  /**
   With its history: the messages whose withdrawal was reported to have failed,
   and those that reached the group by a send that then raised.
   */
  datatype World = World(messages: Messages, reported: set<nat>, astray: set<nat>)

  datatype Action =
    | SendIt(side: Side, text: string, keyboard: bool, reachable: bool, plan: Plan)
    | WithdrawIt(side: Side, reachable: bool, plan: Plan)

  const START := World(Messages(None, None, []), {}, {})

  function Reported(w: World, side: Side, answer: Option<bool>): set<nat> {
    var id := Stored(w.messages, side);
    if answer == Some(false) && id.Some? then w.reported + {id.value} else w.reported
  }

  function Next(w: World, a: Action): (w': World)
    requires StoredOk(w.messages)
    ensures StoredOk(w'.messages)
  {
    match a
    case SendIt(side, text, keyboard, reachable, plan) =>
      var (m, answer) := Send(w.messages, side, text, keyboard, reachable, plan);
      World(m, Reported(w, side, answer),
            if reachable && plan.send.FailsLate? then w.astray + {|w.messages.posted|} else w.astray)
    case WithdrawIt(side, reachable, plan) =>
      var (m, answer) := Withdraw(w.messages, side, reachable, plan);
      World(m, Reported(w, side, answer), w.astray)
  }

  /** A message that can still be confirmed. */
  predicate Live(w: World, id: nat) {
    id < |w.messages.posted| && w.messages.posted[id].button
  }

  ghost predicate WorldOk(w: World) {
    && StoredOk(w.messages)
    && forall id: nat :: Live(w, id) ==>
         Stored(w.messages, w.messages.posted[id].side) == Some(id) || id in w.reported || id in w.astray
  }

  function Exec(w: World, run: seq<Action>): (w': World)
    requires StoredOk(w.messages)
    ensures StoredOk(w'.messages)
    decreases |run|
  {
    if run == [] then w else Exec(Next(w, run[0]), run[1..])
  }

  lemma WithdrawKeepsWorld(w: World, side: Side, reachable: bool, plan: Plan)
    requires WorldOk(w)
    ensures WorldOk(Next(w, WithdrawIt(side, reachable, plan)))
  {
    var w' := Next(w, WithdrawIt(side, reachable, plan));
    forall id: nat | Live(w', id)
      ensures Stored(w'.messages, w'.messages.posted[id].side) == Some(id) || id in w'.reported || id in w'.astray
    {
      assert Live(w, id);
    }
  }

  lemma SendKeepsWorld(w: World, side: Side, text: string, keyboard: bool, reachable: bool, plan: Plan)
    requires WorldOk(w)
    ensures WorldOk(Next(w, SendIt(side, text, keyboard, reachable, plan)))
  {
    var w' := Next(w, SendIt(side, text, keyboard, reachable, plan));
    forall id: nat | Live(w', id)
      ensures Stored(w'.messages, w'.messages.posted[id].side) == Some(id) || id in w'.reported || id in w'.astray
    {
      assert id < |w.messages.posted| ==> Live(w, id);
    }
  }

  lemma ActionKeepsWorld(w: World, a: Action)
    requires WorldOk(w)
    ensures WorldOk(Next(w, a))
  {
    match a
    case SendIt(side, text, keyboard, reachable, plan) => SendKeepsWorld(w, side, text, keyboard, reachable, plan);
    case WithdrawIt(side, reachable, plan) => WithdrawKeepsWorld(w, side, reachable, plan);
  }

  lemma {:induction false} RunKeepsWorld(w: World, run: seq<Action>)
    requires WorldOk(w)
    ensures WorldOk(Exec(w, run))
    decreases |run|
  {
    if run != [] {
      ActionKeepsWorld(w, run[0]);
      RunKeepsWorld(Next(w, run[0]), run[1..]);
    }
  }

  /**
   After any run, with edits and sends failing as they like: an order message
   that can still be confirmed is the one the deal has stored for its side, or one
   whose withdrawal was reported to have failed, or one whose own send raised
   after it had been delivered - which the source has no way to know.
   */
  lemma LiveMessagesAreKnown(run: seq<Action>, id: nat)
    requires Live(Exec(START, run), id)
    ensures var w := Exec(START, run);
            Stored(w.messages, w.messages.posted[id].side) == Some(id) || id in w.reported || id in w.astray
  {
    RunKeepsWorld(START, run);
  }

  predicate EditsWork(run: seq<Action>) {
    forall i :: 0 <= i < |run| ==> run[i].plan.markup.Works? && !run[i].plan.send.FailsLate?
  }

  lemma {:induction false} NothingReported(w: World, run: seq<Action>)
    requires StoredOk(w.messages) && EditsWork(run) && w.reported == {} && w.astray == {}
    ensures Exec(w, run).reported == {} && Exec(w, run).astray == {}
    decreases |run|
  {
    if run != [] {
      assert run[0].plan.markup.Works? && !run[0].plan.send.FailsLate?;
      assert forall i :: 0 <= i < |run[1..]| ==> run[1..][i] == run[i + 1];
      NothingReported(Next(w, run[0]), run[1..]);
    }
  }

  /** Where edits never fail, and no send fails late, a side has at most one order it can confirm. */
  lemma AtMostOneLive(run: seq<Action>, a: nat, b: nat)
    requires EditsWork(run)
    requires var w := Exec(START, run);
             Live(w, a) && Live(w, b) && w.messages.posted[a].side == w.messages.posted[b].side
    ensures a == b
  {
    NothingReported(START, run);
    LiveMessagesAreKnown(run, a);
    LiveMessagesAreKnown(run, b);
  }

  // ---- sends that raise after delivery ------------------------------------------------------

  /** A message with its button reaches the group, and the call that sent it raises. */
  predicate SentLate(a: Action) {
    a.SendIt? && a.keyboard && a.reachable && a.plan.send.FailsLate?
  }

  /** The deal knows nothing of them. */
  ghost predicate AstrayOk(w: World) {
    && (forall id :: id in w.reported ==> id < |w.messages.posted|)
    && forall id :: id in w.astray ==>
      && id < |w.messages.posted| && id !in w.reported
      && w.messages.client != Some(id) && w.messages.supplier != Some(id)
  }

  ghost predicate SomeAstrayLive(w: World) {
    exists id :: id in w.astray && Live(w, id)
  }

  /** So no action reaches them, and they keep the button they came with. */
  lemma ActionLeavesAstray(w: World, a: Action)
    requires StoredOk(w.messages) && AstrayOk(w)
    ensures var w' := Next(w, a);
            && AstrayOk(w') && w.astray <= w'.astray
            && (forall id :: id in w.astray ==> (Live(w', id) <==> Live(w, id)))
            && (forall id :: id in w'.astray && id !in w.astray ==> (Live(w', id) <==> SentLate(a)))
            && (SentLate(a) ==> |w.messages.posted| in w'.astray && |w.messages.posted| !in w.astray)
  {
  }

  lemma {:induction false} AstrayLiveIff(w: World, run: seq<Action>)
    requires StoredOk(w.messages) && AstrayOk(w)
    ensures AstrayOk(Exec(w, run))
    ensures SomeAstrayLive(Exec(w, run)) <==> SomeAstrayLive(w) || exists a :: a in run && SentLate(a)
    decreases |run|
  {
    if run != [] {
      var w' := Next(w, run[0]);
      ActionLeavesAstray(w, run[0]);
      AstrayLiveIff(w', run[1..]);
      assert run == [run[0]] + run[1..];
      if SentLate(run[0]) {
        assert Live(w', |w.messages.posted|);
      }
      assert forall a :: a in run <==> a == run[0] || a in run[1..];
      assert SomeAstrayLive(w') <==> SomeAstrayLive(w) || SentLate(run[0]);
    }
  }

  /** Every message that can be confirmed is its side's stored one, or one reported as not withdrawn. */
  ghost predicate AllLiveKnown(w: World) {
    forall id: nat :: Live(w, id) ==>
      Stored(w.messages, w.messages.posted[id].side) == Some(id) || id in w.reported
  }

  /**
   After any run that is so, if and only if no send of an order with its button
   raised after it had been delivered.
   */
  lemma LiveIsKnownIff(run: seq<Action>)
    ensures AllLiveKnown(Exec(START, run)) <==> forall a :: a in run ==> !SentLate(a)
  {
    var w := Exec(START, run);
    RunKeepsWorld(START, run);
    AstrayLiveIff(START, run);
    if SomeAstrayLive(w) {
      var id :| id in w.astray && Live(w, id);
      assert !(Stored(w.messages, w.messages.posted[id].side) == Some(id) || id in w.reported);
    }
  }

  const SMOOTH := Plan(Works, Works, Works)
  const LATE := Plan(Works, Works, FailsLate)

  /**
   The exception is real: a send that raises after delivery leaves an order in the
   group that no later send takes down, next to the one it does know of.
   */
  lemma LateSendLeavesTwoLive(first: string, second: string, third: string)
    ensures var w := Exec(START, [SendIt(Client, first, true, true, SMOOTH), SendIt(Client, second, true, true, LATE),
                                  SendIt(Client, third, true, true, SMOOTH)]);
            Live(w, 1) && Live(w, 2) && w.reported == {} && Stored(w.messages, Client) == Some(2)
  {
    var a, b, c := SendIt(Client, first, true, true, SMOOTH), SendIt(Client, second, true, true, LATE),
      SendIt(Client, third, true, true, SMOOTH);
    var w1 := Next(START, a);
    var old1 := Posted(Client, WITHDRAWN_ORDER_TEXT, false);
    assert w1.messages == Messages(Some(0), None, [Posted(Client, first, true)]);
    var w2 := Next(w1, b);
    assert w2.messages == Messages(Some(0), None, [old1, Posted(Client, second, true)]);
    var w3 := Next(w2, c);
    assert w3.messages == Messages(Some(2), None, [old1, Posted(Client, second, true), Posted(Client, third, true)]);
    ExecThree(a, b, c, w1, w2);
  }

  lemma ExecThree(a: Action, b: Action, c: Action, w1: World, w2: World)
    requires w1 == Next(START, a) && w2 == Next(w1, b)
    ensures Exec(START, [a, b, c]) == Next(w2, c)
  {
    assert [a, b, c][1..] == [b, c] && [b, c][1..] == [c] && [c][1..] == [];
    assert Exec(w2, [c]) == Exec(Next(w2, c), []);
    assert Exec(w1, [b, c]) == Exec(w2, [c]);
  }
}
