/**
 Deals, the one event log they share, and the payments that settle them
 (app/domain/fx.py:433-457, app/domain/settlement.py:101-231, 471-511).
 */
module Ledger {
  import opened Prelude
  import opened Text
  import opened FxOrders
  import opened FxSteps
  import opened FxHistory

  datatype Settlement = Settlement(reference: nat, txHash: Option<string>, amount: Option<Money>, paidAt: Time)

  /** One order's share; `settlement` is the position of its settlement. */
  datatype Allocation = Allocation(settlement: nat, order: nat, country: string, localAmount: Money, rate: Money,
                                   usdt: int)

  /** One order's share, as the desk types it. */
  datatype Line = Line(order: nat, country: Option<string>, localAmount: Money, rate: Money)

  /** Orders are kept by reference, which is unique. */
  datatype Books = Books(
    orders: map<nat, Order>,
    nextReference: nat,
    log: seq<Event>,
    settlements: seq<Settlement>,
    allocations: seq<Allocation>,
    clock: Time)

  const FIRST_REFERENCE := 1000

  const EMPTY := Books(map[], FIRST_REFERENCE, [], [], [], 0)

  // ---- the arithmetic of a line ------------------------------------------------

  /** Micro-USDT in one USDT: six places, as on Tron. */
  const MICRO := 1_000_000

  /** `(local / rate).quantize(0.000001, ROUND_HALF_UP)`, in micro-USDT: ties go away from zero. */
  function Usdt(localAmount: Money, rate: Money): int
    requires rate > 0
  {
    if localAmount >= 0 then RoundHalfUp(localAmount * MICRO, rate) else -RoundHalfUp(-localAmount * MICRO, rate)
  }

  function RoundHalfUp(numerator: int, denominator: int): int
    requires denominator > 0
  {
    (2 * numerator + denominator) / (2 * denominator)
  }

  /** Rounding moves a figure by at most half a micro-USDT, and a tie never moves it towards zero. */
  lemma UsdtIsNearest(localAmount: Money, rate: Money)
    requires rate > 0
    ensures var error := 2 * (Usdt(localAmount, rate) * rate - localAmount * MICRO);
            if localAmount >= 0 then -rate < error <= rate else -rate <= error < rate
  {
    if localAmount >= 0 {
      RoundHalfUpIsNearest(localAmount * MICRO, rate);
    } else {
      RoundHalfUpIsNearest(-localAmount * MICRO, rate);
      var r := RoundHalfUp(-localAmount * MICRO, rate);
      assert (-r) * rate == -(r * rate);
    }
  }

  lemma RoundHalfUpIsNearest(numerator: int, denominator: int)
    requires denominator > 0
    ensures var r := RoundHalfUp(numerator, denominator);
            -denominator < 2 * (r * denominator - numerator) <= denominator
  {
    var r := RoundHalfUp(numerator, denominator);
    var whole := 2 * numerator + denominator;
    assert whole == 2 * denominator * r + whole % (2 * denominator);
    assert 2 * denominator * r == 2 * (r * denominator);
  }

  function ExpectedTotal(lines: seq<Line>): int
    requires forall line :: line in lines ==> line.rate > 0
  {
    if lines == [] then 0
    else ExpectedTotal(lines[..|lines| - 1]) + Usdt(lines[|lines| - 1].localAmount, lines[|lines| - 1].rate)
  }

  // ---- opening a deal, and one step of one -----------------------------------------

  predicate KnownCountry(country: Option<string>, known: set<string>) {
    country.Some? && Upper(Strip(country.value)) in known
  }

  function OpenOrder(b: Books, clientId: nat, code: Option<string>, name: string, workItem: nat, now: Time): Books {
    var o := Order(b.nextReference, clientId, code, workItem, None, None, None, None, None, RateRequested,
                   NO_FIGURES.(account := Some(name)), None, NO_FIGURES, None, None, "tron", None, None);
    b.(orders := b.orders[b.nextReference := o],
       nextReference := b.nextReference + 1,
       log := b.log + [Event(workItem, DisplayReference(o), now, Requested)],
       clock := now)
  }

  /** One step on one order, committed or rolled back. */
  function StepOrder(b: Books, reference: nat, step: Step, entitled: bool, now: Time): Books
    requires reference in b.orders
  {
    var o := b.orders[reference];
    var out := Act(o, step, entitled, HasAccepted(b.log, o), now);
    if out.refusal.Some? then b
    else b.(orders := b.orders[reference := out.order], log := b.log + Logged(out, now), clock := now)
  }

  // ---- recording a payment ------------------------------------------------------------

  datatype PayRefusal = NoLines | NotAwaiting(order: nat) | AlreadySettled(order: nat) | BadRate(order: nat)
                      | UnknownCountry(order: nat) | BadPaymentHash | TwiceOnOnePayment | HasHashAlready

  predicate Allocated(b: Books, order: nat) {
    exists a :: a in b.allocations && a.order == order
  }

  /** The first line the payment is refused for (lines 171-187). */
  function FirstFault(b: Books, lines: seq<Line>, known: set<string>): Option<PayRefusal>
    requires forall line :: line in lines ==> line.order in b.orders
  {
    if lines == [] then None
    else
      var line := lines[0];
      if b.orders[line.order].status != AwaitingSettlement then Some(NotAwaiting(line.order))
      else if Allocated(b, line.order) then Some(AlreadySettled(line.order))
      else if line.rate <= 0 then Some(BadRate(line.order))
      else if !KnownCountry(line.country, known) then Some(UnknownCountry(line.order))
      else FirstFault(b, lines[1..], known)
  }

  function OrdersOf(lines: seq<Line>): seq<nat> {
    seq(|lines|, i requires 0 <= i < |lines| => lines[i].order)
  }

  /** Every line converts, and says where the money went. */
  predicate Priced(lines: seq<Line>) {
    forall line :: line in lines ==> line.rate > 0 && line.country.Some?
  }

  /** The loop of lines 203-228: each order gets its share and moves on. */
  function SettleLines(b: Books, lines: seq<Line>, settlement: nat, hash: Option<string>, now: Time): Books
    requires Priced(lines)
  {
    if lines == [] then b
    else
      var before := SettleLines(b, lines[..|lines| - 1], settlement, hash, now);
      SettleLine(before, lines[|lines| - 1], settlement, hash, now)
  }

  function SettleLine(b: Books, line: Line, settlement: nat, hash: Option<string>, now: Time): Books
    requires line.rate > 0 && line.country.Some?
  {
    if line.order !in b.orders then b
    else
      StepOrder(b, line.order, Settle(hash, settlement), true, now)
        .(allocations := b.allocations + [Allocation(settlement, line.order, Upper(Strip(line.country.value)),
                                                     line.localAmount, line.rate, Usdt(line.localAmount, line.rate))])
  }

  /** `record`. A refusal anywhere, including the unique constraint's, leaves the books as they were. */
  function Pay(b: Books, lines: seq<Line>, txHash: Option<string>, amount: Option<Money>, known: set<string>, now: Time)
    : (Books, Option<PayRefusal>)
    requires forall line :: line in lines ==> line.order in b.orders
  {
    var fault := FirstFault(b, lines, known);
    if lines == [] then (b, Some(NoLines))
    else if fault.Some? then (b, fault)
    else if Given(txHash) && CheckHash(txHash.value) == None then (b, Some(BadPaymentHash))
    else if !Distinct(OrdersOf(lines)) then (b, Some(TwiceOnOnePayment))
    else
      NoFaultMeans(b, lines, known);
      var hash := CleanHash(txHash);
      (SettleLines(Booked(b, hash, amount, now), lines, |b.settlements|, hash, now), None)
  }

  /** `check_hash(tx_hash) if tx_hash else None` */
  function CleanHash(txHash: Option<string>): Option<string> {
    if Given(txHash) then CheckHash(txHash.value) else None
  }

  /** The new settlement's row, before its lines. */
  function Booked(b: Books, hash: Option<string>, amount: Option<Money>, now: Time): Books {
    b.(settlements := b.settlements + [Settlement(FIRST_REFERENCE + |b.settlements|, hash, amount, now)], clock := now)
  }

  lemma {:induction false} NoFaultMeans(b: Books, lines: seq<Line>, known: set<string>)
    requires forall line :: line in lines ==> line.order in b.orders
    requires FirstFault(b, lines, known) == None
    ensures forall line :: line in lines ==>
              && b.orders[line.order].status == AwaitingSettlement && !Allocated(b, line.order)
              && line.rate > 0 && KnownCountry(line.country, known)
  {
    if lines != [] {
      NoFaultMeans(b, lines[1..], known);
      forall line | line in lines
        ensures b.orders[line.order].status == AwaitingSettlement && !Allocated(b, line.order)
        ensures line.rate > 0 && KnownCountry(line.country, known)
      {
        assert line == lines[0] || line in lines[1..];
      }
    }
  }

  // ---- attaching the proof later ---------------------------------------------------------

  /** The body of the loop of lines 498-508, for an allocation of any settlement. */
  function AttachOne(b: Books, a: Allocation, settlement: nat, hash: string, now: Time): Books {
    if a.settlement == settlement && a.order in b.orders
    then StepOrder(b, a.order, AttachProof(hash, settlement), true, now)
    else b
  }

  /** The loop, over the first `k` allocations. */
  function AttachOver(b: Books, k: nat, settlement: nat, hash: string, now: Time): Books
    requires k <= |b.allocations|
  {
    if k == 0 then b
    else AttachOne(AttachOver(b, k - 1, settlement, hash, now), b.allocations[k - 1], settlement, hash, now)
  }

  /** `attach_hash` */
  function AttachHash(b: Books, settlement: nat, txHash: string, now: Time): (Books, Option<PayRefusal>)
    requires settlement < |b.settlements|
  {
    if Given(b.settlements[settlement].txHash) then (b, Some(HasHashAlready))
    else if CheckHash(txHash) == None then (b, Some(BadPaymentHash))
    else
      var hash := CheckHash(txHash).value;
      var proved := b.settlements[settlement].(txHash := Some(hash));
      var b' := b.(settlements := b.settlements[settlement := proved], clock := now);
      (AttachOver(b', |b'.allocations|, settlement, hash, now), None)
  }

  // ---- runs -----------------------------------------------------------------------------------

  datatype Action =
    | Open(clientId: nat, code: Option<string>, name: string, workItem: nat)
    | Deal(reference: nat, step: Step, entitled: bool)
    | PayFor(lines: seq<Line>, txHash: Option<string>, amount: Option<Money>, known: set<string>)
    | Prove(settlement: nat, proof: string)

  datatype Timed = Timed(action: Action, now: Time)

  predicate Doable(b: Books, t: Timed) {
    && b.clock <= t.now
    && match t.action
       case Open(_, _, _, _) => true
       case Deal(reference, step, _) => reference in b.orders && !step.Settle? && !step.AttachProof?
       case PayFor(lines, _, _, _) => forall line :: line in lines ==> line.order in b.orders
       case Prove(settlement, _) => settlement < |b.settlements|
  }

  function Next(b: Books, t: Timed): Books
    requires Doable(b, t)
  {
    match t.action
    case Open(clientId, code, name, workItem) => OpenOrder(b, clientId, code, name, workItem, t.now)
    case Deal(reference, step, entitled) => StepOrder(b, reference, step, entitled, t.now)
    case PayFor(lines, txHash, amount, known) => Pay(b, lines, txHash, amount, known, t.now).0
    case Prove(settlement, proof) => AttachHash(b, settlement, proof, t.now).0
  }

  predicate Possible(b: Books, run: seq<Timed>)
    decreases |run|
  {
    run == [] || (Doable(b, run[0]) && Possible(Next(b, run[0]), run[1..]))
  }

  function Exec(b: Books, run: seq<Timed>): Books
    requires Possible(b, run)
    decreases |run|
  {
    if run == [] then b else Exec(Next(b, run[0]), run[1..])
  }
}
