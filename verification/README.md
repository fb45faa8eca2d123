# NexterPay operations bot: what its protocols guarantee

NexterPay is a Telegram operations desk. Underneath the chat plumbing are several
stateful protocols about other people's money: a rate limiter shared by many senders,
the life of a foreign-exchange deal and the payments that settle it, the reading of
pasted settlements, a watcher over an append-only chain, an archive that deletes
topics, and order messages that can be confirmed until they are taken back. This
project models them in Dafny and proves what they keep.

Check it with `dafny verify dfyconfig.toml`.

## How it is built

| files | what they model |
|---|---|
| `Throttle`, `ThrottleRuns`, `ThrottleChats`, `ThrottleWaits`, `ThrottleContention`, `ThrottleMinutes`, `ThrottledGateway` | the limiter's windows, locks and sleeps as methods, then every interleaving of any number of `acquire` calls; how long anybody waits; which limits hold in real time; the bounded retry |
| `FxOrders`, `FxSteps`, `FxColumns`, `FxHistory`, `FxDesk` | a deal's columns, references and events; its fifteen steps; what each writes, column by column; what its history says; the deal as an object, each step a method proved to do what `FxSteps.Act` says |
| `Ledger`, `LedgerRuns`, `LedgerColumns`, `FxTheorems`, `FxLimits`, `FxRounds`, `SettlementDesk` | all deals, the shared event log and the payments; runs of openings, steps, payments and late proofs; what they write in the books; where the guarantees of a deal end; `record` and `attach_hash` as loops |
| `FxBook`, `FxViews`, `FxTexts` | the outstanding book; what each counterparty is sent, and that it never depends on the other side; what the texts say |
| `Figures`, `SettlementText`, `SettlementLines` | figures written and read; the two conventions of the desk; a pasted block |
| `Matching`, `MatchingColumns`, `MatchingTwins`, `MatchingPickers`, `PastedPayments` | claiming orders line by line, and the rule it comes to; which columns it goes by; when the order of the lines matters; from a matched block to a payment |
| `Wallet`, `WalletColumns`, `WalletWatch`, `WalletWatchRuns`, `WalletLedger` | matching payments to deals; what is expected of a deal, by its columns; a pass over the chain; runs of passes; which payments the desk has settled the watcher takes for settled |
| `Archive`, `ArchiveColumns`, `ArchiveDesk`, `ArchiveRuns`, `ArchiveSweeps`, `ArchiveStuck`, `ArchiveDeletions` | archiving, closing and reopening against a gateway that fails at any call; what they write and call; the backlog, with and without tickets that always fail; every deletion of a run explained |
| `OrderMessages` | order messages with live buttons, and withdrawing them |
| `WorkItems`, `TicketLinks`, `Parts` | the work-item log, links between tickets, the message splitter |
| `Prelude`, `Sorting`, `Text` | shared vocabulary |

Code that assigns fields or runs loops is a class or a method here, proved equal to
a function on values; the results over whole runs are lemmas about those functions.
Money is exact: amounts and rates are integers in units of 10^-10, USDT in
micro-USDT, typed figures are decimals with their places. Time is a real number in
the limiter and an integer elsewhere. A raised error is a `Refused` or a `None`, and
the transaction around it (`app/db/base.py:74-84`) puts the columns back; what
Telegram has been told stays told. A gateway call works, fails before its effect, or
fails after it, as an adversary chooses.

## What turned out not to hold

Each with the exact condition under which it does, and a way to get where it does not.

- **Per-chat spacing in real time, under contention.** A caller that queues for the
  global lock keeps the `now` it read before queuing, and records it. The recorded
  stamps are always an interval apart; the sends are, in every run, if and only if no
  interval is asked for, or the ceiling is one a second, or it is two and the interval
  at most a second (`RealSpacingIff`). Under any other limits there is a run with two
  sends into one chat at the same instant (`ContendedChatIsSentTwiceAtOnce`) or too close
  (`ContendedChatIsSentTooSoon`), and nobody need oversleep
  (`ContendedChatIsSentTooSoonOnTime`): under the program's 1.05, 20 and 25 a chat is sent
  to at 1.01 and again at 1.05 (`ShippedLimitsAreTooLoose`). `RealSpacing` bounds the
  shortfall by the time spent queuing.
- **A group's minute in real time, under contention.** With one send a second, or three or
  more and a group's minute of up to sixty, it holds if and only if there is one send a
  second or a minute's sends but the first take over a minute at the interval asked for
  (`MinutesAreKeptIff`). The program's nineteen at 1.05 seconds do not.
- **"Fails without touching the order"** is false in memory for `reprice`: it is
  admitted from AWAITING_CLIENT_CONFIRMATION, assigns its fields, and is then
  refused by the table. `RefusalTouchesOnlyReprice` says it is the only such step and
  exactly when, `RepriceSucceedsIff` when it works, `InTransaction` that the rollback
  around any command repairs it.
- **A requote after a yes.** The idempotency check for accepting a rate looks for any
  earlier acceptance under the deal's name. So a yes is taken if and only if the deal
  stands quoted and has not been said yes to, at whatever rate, under the name it has
  (`YesIsTakenIff`), and after one yes no later rate under that name is ever accepted,
  whatever happens next (`RequoteCannotBeAccepted`). `RequoteIsReached` and
  `RepricedIsReached` get there, by a requote and by a repricing.
- **The margin, once an order is written.** Quoting and repricing compare the rates;
  creating an order does not, and neither does a supplier's quote that comes second.
  `StepGoesBelowIff` says which successful steps leave a deal below cost, `BelowCostIff`
  that after any run a deal is below cost if and only if the last event to set or clear
  a rate put it there, and `BelowCostIsReached` runs to such an order from a fair quote.
- **An acceptance by a supplier who was sent nothing.** `supplier_accepts` asks only for
  the state. It answers an order of its own round - sent since the client last confirmed,
  to the supplier who last quoted - if and only if a supplier's account is on the deal and
  the deal has not been repriced since an order was last built for one
  (`AcceptanceAnswersAnOrderIff`). `AcceptanceOfNothingIsReached` opens a deal to payment
  with no supplier order at all; `AcceptanceOfAnotherIsReached` opens one for a supplier
  who was sent nothing, with the account of the supplier before.
- **Space-grouped figures below a thousand.** `4,950` meant as four point nine five is
  read as 4950. `SpaceFiguresReadIff` gives the exact condition, for every figure.
- **Line order, once an account narrows.** As long as no account narrows what its line
  could settle, the set of matched orders does not depend on the order of the lines
  (`LineOrderIsOfNoAccount`). Where accounts narrow pairs of like deals, it does not
  depend on it if and only if no pair has exactly one line that picks a deal and another
  line beside it (`LineOrderMattersIff`); `AccountsMakeLineOrderMatter` is such a block.
  Among any number of like deals, when every line picks a different one or names no
  account, it does if and only if one deal is picked by no line and some line names no
  account (`PickersOrderIff`). In any block whatever it matters if and only if it matters
  in some class of like deals (`OrderMattersInSomeClass`).
- **A send that raises after it was delivered** leaves a live order the deal knows
  nothing of, which nothing takes down (`LateSendLeavesTwoLive`). Every live order is
  stored or reported if and only if no send did that (`LiveIsKnownIff`).
- **Late payments.** Of the payments after the baseline and behind the mark that no
  settlement records, exactly those that reached the chain behind the mark of the moment
  are never announced (`UnannouncedIffLate`); `LatePaymentIsMissed` is a run with one,
  stamped 150 and arriving after one stamped 200 was announced.
- **A payment the desk has settled already.** The watcher looks for the chain's hash in
  lower case among the settlements', which keep the case they were typed in. It takes a
  payment for settled, and says nothing of it, if and only if a payment or late proof
  that went through gave its hash in lower case (`TakenForSettledIff`,
  `AnnouncedUnlessEntered`): not one typed in capitals (`SettledInCapitalsIsAnnounced`),
  nor one put on a deal by itself. A hash found in a pasted block is in lower case.
- **A failed archiving that is due again.** It is if and only if a call of the copy
  failed (`DueAgainIff`). When it is the deletion that fails (`DeletionFails`) the ticket
  is already marked, and its topic stays until the ticket is reopened (`LeftOverStays`).
- **"A failure on one does not stop the rest."** While fewer than ten due tickets fail
  every time, it does not: the others drain in order, as many a sweep as there is room
  for (`OthersDrain`). Once the ten oldest due all do, no sweep ever moves another
  (`TenStuckHoldAll`).

## Model

| member | source | states |
|---|---|---|
| Throttle.RateLimiter.AfterChatLock | app/services/throttle.py:57-67 | Once the chat lock is held: sleep until an interval after the chat's last send, or go on to the group window; how long is pinned by `ThrottleWaits.EveryTaskGoesOn` |
| Throttle.RateLimiter.AtMinuteWindow | app/services/throttle.py:68-77 | The group window is popped of what is over sixty seconds old, and a full one costs a sleep |
| Throttle.RateLimiter.AfterMinuteSleep | app/services/throttle.py:74-81 | After that sleep there is room, and the caller queues for the global lock with the time it read |
| Throttle.RateLimiter.AfterGlobalLock | app/services/throttle.py:82-98 | Inside the global lock: sleep while the second is full, otherwise record the stale `now` and leave |
| Throttle.RateLimiter.AfterGlobalSleep | app/services/throttle.py:87-98 | After that sleep a fresh stamp is recorded and both locks are released |
| Throttle.RateLimiter.Acquire | app/services/throttle.py:54-98 | Alone in the limiter: the exact new windows and stamps, the interval kept, and the wait it reports, which is just the interval's remainder, the full minute's and the full second's, from their first stamps |
| ThrottleRuns.GlobalKept | app/services/throttle.py:54-98 | Every step of every caller keeps the window such that a stale stamp sits behind a fresh one |
| ThrottleRuns.GlobalCeiling | app/services/throttle.py:82-98 | In every interleaving no closed second of real time holds more than `global_per_second` grants |
| ThrottleWaits.NothingToWaitFor | app/services/throttle.py:54-98 | A lone call with no recent send to its chat and room in both windows waits nothing and sends at once |
| ThrottleWaits.WaitsOutTheInterval | app/services/throttle.py:62-67 | With room in both windows by then it reports just what was left of the interval |
| ThrottleWaits.WaitsOutTheMinute | app/services/throttle.py:68-81 | A full minute costs until 60.05 seconds after its first stamp |
| ThrottleWaits.WaitsOutTheSecond | app/services/throttle.py:82-92 | A full second costs until 1.01 seconds after its first stamp |
| ThrottleWaits.NeverWaitsLonger | app/services/throttle.py:54-98 | A lone call never reports more than an interval, a minute and a second, with their margins |
| ThrottleWaits.EveryTaskGoesOn | app/services/throttle.py:54-98 | In every interleaving a task that runs next sleeps if and only if its interval, its chat's minute or the second asks for it, and until just then |
| ThrottleWaits.NobodySleepsLonger | app/services/throttle.py:54-98 | In every interleaving each interval sleep ends at last stamp plus interval, each minute sleep at first stamp plus 60.05, each sleep in the lock at its entry plus 1.01 less the age of the first stamp |
| ThrottleChats.RecordedSpacing | app/services/throttle.py:57-81 | In every interleaving one chat's stamps are an interval apart, and any `group_per_minute` + 1 of them span over sixty seconds |
| ThrottleChats.RealSpacing | app/services/throttle.py:57-98 | Real time between two sends to a chat falls short of the interval by at most what the first spent queuing |
| ThrottleChats.UncontendedSpacing | app/services/throttle.py:57-98 | When acquires do not overlap both spacings hold of the grant instants |
| ThrottleContention.NobodyIsStuck | app/services/throttle.py:54-98 | No deadlock: while a call is in progress some caller can run, or time can pass to a sleeper's deadline |
| ThrottleContention.RealSpacingIff | app/services/throttle.py:54-98 | In every interleaving one chat's sends are an interval apart in real time, if and only if the interval is not positive, or the ceiling is one, or it is two and the interval at most a second; and the same if nobody oversleeps |
| ThrottleContention.ContendedChatIsSentTwiceAtOnce | app/services/throttle.py:57-98 | With any ceiling of three or more and any positive interval, a run in which two sends into one chat leave at the same instant, their stamps far apart |
| ThrottleContention.ContendedChatIsSentTooSoon | app/services/throttle.py:57-98 | With a ceiling of two and an interval over a second, a run in which they leave half the difference too soon |
| ThrottleContention.ContendedChatIsSentTooSoonOnTime | app/services/throttle.py:82-98 | Under any limits the iff leaves out, a run in which every sleeper wakes on time and two sends into one chat are less than an interval apart |
| ThrottleContention.ShippedLimitsAreTooLoose | app/services/throttle.py:54-98 | Under the shipped limits: a chat sent to at 1.01 and at 1.05 seconds, with nobody oversleeping |
| ThrottleMinutes.MinutesAreKeptIff | app/services/throttle.py:68-81 | With one send a second, or at least three and at most sixty a minute: no sixty seconds hold more than `group_per_minute` sends into a chat, in any interleaving, if and only if there is one a second or all but one of a minute's sends take over a minute |
| ThrottleMinutes.WideIntervalKeepsMinute | app/services/throttle.py:57-81 | Under any ceilings, so wide an interval keeps every minute in real time |
| ThrottledGateway.Gateway.Guarded | app/services/throttle.py:122-136 | At most three calls, only a 429 is retried, the pauses asked for are just those the 429s gave, each retry comes after its pause and the chat's interval, and the last answer is the one returned |
| FxOrders.ParseInvertsReferences | app/domain/fx.py:906-911 | The number is read back from a deal's internal, client and supplier references and from itself |
| FxSteps.StepsFollowTheTable | app/domain/fx.py:364-430 | A step that succeeds stays put or follows an edge of `ALLOWED`, and records exactly one event |
| FxSteps.RefusalTouchesOnlyReprice | app/domain/fx.py:649-653 | A refusal leaves the order in memory alone, except `reprice` from the one state it is admitted in and cannot leave |
| FxSteps.RepriceSucceedsIff | app/domain/fx.py:730-794 | Repricing succeeds exactly from the two states after the client's confirmation, with a reason and rates not below cost |
| FxColumns.ClientOrderWrites | app/domain/fx.py:603-640 | When it succeeds, and what then: rate, pays and receives of the terms on the client's own columns, account stripped, currencies stripped and upper-cased onto their own amounts, the supplier's columns as they were |
| FxColumns.SupplierOrderWrites | app/domain/fx.py:814-848 | The same on the supplier's columns, the client's as they were and the status kept |
| FxColumns.AmendmentWrites | app/domain/fx.py:656-727 | When it succeeds, and what then: what the client pays and receives, and each supplier figure that was given, on its own column; old and new figures on record |
| FxColumns.RepricingWrites | app/domain/fx.py:730-794 | Both rates on their own sides, both confirmations cleared, nothing else, and the rates before on record |
| FxColumns.SupplierQuoteWrites | app/domain/fx.py:460-484 | When it succeeds, and the supplier, code, request and rate it writes |
| FxColumns.SupplierRejectionWrites | app/domain/fx.py:487-501 | When it succeeds; it clears the supplier's rate alone and records it |
| FxColumns.QuoteWrites | app/domain/fx.py:504-539 | Succeeds before any order and not below the supplier's rate; writes the client's rate, the currency if one is named, and the status |
| FxColumns.YesWrites | app/domain/fx.py:542-579 | Taken once while quoted; writes nothing but the rate accepted, on record |
| FxColumns.ClientRejectionWrites | app/domain/fx.py:582-600 | When it succeeds; the status alone moves, the rate refused on record |
| FxColumns.ConfirmationsWrite | app/domain/fx.py:797-861 | Each side's confirmation is taken in its one state, stamps that side and moves on |
| FxColumns.HashAndReceiptWrite | app/domain/fx.py:864-892 | A hash of sixteen characters or more and no space settles, stripped; receipt closes |
| FxColumns.PaymentWrites | app/domain/settlement.py:203-228 | A payment settles a deal that awaits it with its hash; a late proof changes the hash alone |
| FxDesk.FxOrder.HasEvent | app/domain/fx.py:273-305 | Scanning the log finds an event of any given type exactly if there is one on this request under the present reference |
| FxDesk.FxOrder.ChangeRates | app/domain/fx.py:730-794 | The rates are assigned before the table is asked, so its refusal finds them in memory |
| FxDesk.FxOrder.InTransaction | app/db/base.py:74-84 | Around any of the thirteen commands: the step and its one event are committed, or columns and log are as they were; which columns a step writes is what `FxColumns` says |
| FxHistory.PricingSound | app/domain/fx.py:460-600 | Every pricing step changes the columns as its event says, and keeps stamps, margin and progress |
| FxHistory.OrderingSound | app/domain/fx.py:603-848 | Ordering, amending and repricing change the columns as their events say, which say what `FxColumns` says they write |
| FxHistory.SettlingSound | app/domain/fx.py:797-892 | The same of confirming, accepting, settling and closing |
| FxHistory.StepKeepsOrder | app/domain/fx.py:433-892 | Every step, with its event, keeps everything proved of a deal and its history |
| FxHistory.AgreedMeans | app/domain/fx.py:656-727 | The agreed figures are those of the last confirmation, or of the last amendment since |
| Ledger.UsdtIsNearest | app/domain/settlement.py:90-94 | A line's USDT is its quotient to the nearest micro-USDT, a tie away from zero |
| LedgerRuns.PayIsAllOrNothing | app/domain/settlement.py:149-231 | `record` succeeds exactly when its guards hold; then it settles every line and touches no other order, otherwise it changes nothing |
| LedgerColumns.PaymentBooks | app/domain/settlement.py:189-231 | A payment that goes through books one settlement with the stripped hash, each line in turn with its order, country, amount, rate and nearest USDT, and hash, time and status on its orders alone |
| LedgerColumns.FaultIsTheFirst | app/domain/settlement.py:167-187 | It is refused for the first line at fault, by the first guard that line fails |
| LedgerColumns.OpeningWrites | app/domain/fx.py:433-457 | A new deal has the client's columns, no supplier, no figures, and one event |
| LedgerColumns.StepIsLogged | app/domain/fx.py:308-339 | A step that goes through adds one event, on the deal's request, under the reference it has afterwards |
| LedgerRuns.AttachReachesEveryOrder | app/domain/settlement.py:471-511 | A late proof goes on the settlement and on every order it covers and no other, and never over an earlier one |
| LedgerRuns.RunKeepsBooks | app/domain/settlement.py:149-511 | Any run of openings, steps, payments and proofs keeps every deal's history and the payment ledger |
| FxTheorems.LogRebuildsEveryDeal | app/domain/fx.py:308-339 | Folding a deal's events rebuilds its status, currency, both sides' figures, its hash and, from the first order on, the accounts; and each event is truthful about what was before it |
| FxTheorems.StampsFollowStatus | app/domain/fx.py:460-539 | Each timestamp is set exactly in its states, and no quote stands below a recorded supplier rate |
| FxTheorems.NoPaymentBeforeAgreement | app/domain/fx.py:603-880 | The first payment follows, since the last pricing, order, confirmation and acceptance in that order, and the figures are those agreed |
| FxTheorems.LedgerIsConsistent | app/db/models.py:774-776 | An order has at most one allocation; an allocated order is paid and carries its settlement's hash |
| FxTheorems.HashesNeverChange | app/domain/settlement.py:471-511 | A hash once on an order or a settlement is never changed |
| FxTheorems.EveryMoveIsAnEdge | app/domain/settlement.py:217-219 | Every status change in any run is an edge of `ALLOWED`, the direct assignment in `record` included |
| FxLimits.YesIsTakenIff | app/domain/fx.py:542-579 | After any run the client's yes is taken exactly if the deal stands quoted and no acceptance is on record under the name it has now |
| FxLimits.RequoteCannotBeAccepted | app/domain/fx.py:563-573 | After one acceptance, and any further run, no rate of the deal under that name is accepted: the refusal is that of the state, or that it was accepted already |
| FxLimits.RequoteIsReached | app/domain/fx.py:504-579 | A run from nothing to such a quote by requoting, for any two rates not below cost |
| FxLimits.RepricedIsReached | app/domain/fx.py:730-794 | And one by order, confirmation and repricing back to a quote |
| FxLimits.StepGoesBelowIff | app/domain/fx.py:460-848 | Which successful steps leave the client's rate below the supplier's: an order or a supplier's quote that puts it there, or none that sets a rate since |
| FxLimits.BelowCostIff | app/domain/fx.py:460-848 | After any run a deal stands below cost exactly if the last event of its history to set or clear a rate put it there |
| FxLimits.BelowCostIsReached | app/domain/fx.py:603-640 | From a quote not below cost, an order at any rate below it |
| FxLimits.SupplierOrderedIff | app/domain/fx.py:814-848 | After any run an order to some supplier, at some time, is on record exactly if a supplier's account is on the deal |
| FxLimits.AcceptanceAnswersAnOrderIff | app/domain/fx.py:851-861 | An acceptance goes through exactly in its one state and opens the deal to payment; it answers an order sent since the client last confirmed and a supplier last quoted, exactly if a supplier's account is there and no repricing has come since the last order |
| FxLimits.AcceptanceOfNothingIsReached | app/domain/fx.py:851-861 | A run that opens a deal to payment with no supplier order |
| FxRounds.AcceptanceOfAnotherIsReached | app/domain/fx.py:460-484 | A run to a deal accepted for a supplier who was sent nothing, with the account of the one before, whoever they are and at any rates |
| SettlementDesk.Desk.AlreadyOnASettlement | app/domain/settlement.py:113-125 | Found exactly if some allocation is the order's |
| SettlementDesk.Desk.Check | app/domain/settlement.py:171-187 | The first line at fault, and its first fault, decide the refusal |
| SettlementDesk.Desk.SettleOne | app/domain/settlement.py:203-228 | One allocation, the order's three columns, one event |
| SettlementDesk.Desk.SettleEach | app/domain/settlement.py:203-228 | The storage's uniqueness objects exactly when an order is on two lines |
| SettlementDesk.Desk.Record | app/domain/settlement.py:149-231 | Guards, hash check and both loops do what `Ledger.Pay` says, with everything undone on an objection |
| SettlementDesk.Desk.PutProof | app/domain/settlement.py:471-511 | The loop over allocations does what `Ledger.AttachHash` says |
| FxBook.LastMovement | app/domain/fx.py:1016-1048 | The loop leaves the latest event time under each reference string |
| FxBook.LatestIsLast | app/domain/fx.py:1016-1048 | On a log in order of time that is the time of the last event under the string |
| FxBook.BuildBook | app/domain/fx.py:1051-1084 | Open deals by reference, each with its last movement, sorted |
| FxBook.BookListsEveryOpenDeal | app/domain/fx.py:1051-1084 | After any run the book has each open deal exactly once, longest-waiting first, each waiting since its own last event although its reference string has changed |
| FxViews.ClientSeesNothingOfTheSupplier | app/services/fx_relay.py:74-138 | Runs that differ only in supplier-side values send the client the same rate, order and settlement texts at every step |
| FxViews.SupplierSeesNothingOfTheClient | app/domain/fx.py:229-266 | Runs that differ only in client-side values send the supplier the same order and rejection texts at every step |
| FxViews.ClientStepUnwinds | app/domain/fx.py:229-266 | No step lets a supplier-side value reach what the client's texts are made of |
| FxViews.SupplierStepUnwinds | app/domain/fx.py:229-266 | No step lets a client-side value reach what the supplier's texts are made of |
| FxViews.ShownReadsBack | app/domain/fx.py:126-146 | A positive figure in a message, typed back, is the figure recorded |
| FxTexts.OrderSaysWhatIsSent | app/services/fx_relay.py:74-85 | Either side's order has the line "You send: " with that side's own pays figure and currency |
| FxTexts.OrderSaysWhatIsReceived | app/domain/fx.py:195-226 | And the line "You receive: " with what it receives |
| FxTexts.OrderSaysTheRate | app/domain/fx.py:195-226 | And its own rate |
| FxTexts.OrderSaysWhichDeal | app/domain/fx.py:229-266 | And its own name for the deal |
| FxTexts.OrderSaysTheAccount | app/domain/fx.py:195-226 | And its own account, if there is one |
| FxTexts.QuoteSays | app/services/fx_relay.py:119-138 | The client is quoted the client's rate, on the deal's currency |
| FxTexts.SettlementSaysWhatIsReceived | app/services/fx_relay.py:88-116 | The client is told what the client receives |
| FxTexts.SettlementSaysTheHash | app/services/fx_relay.py:88-116 | And the hash on the deal |
| Figures.DigitsOf | app/domain/fx.py:126-146 | The digits written are the figure |
| Figures.ShownIsSame | app/domain/fx.py:136-146 | Trimming zeros and padding a single decimal change the writing and not the value |
| Figures.ShownIsShort | app/domain/fx.py:136-146 | A figure shows two decimals or none, or as many as it needs, and no zero at the end of more |
| Figures.GroupedMeans | app/domain/fx.py:136-146 | A separator stands before every third digit from the right and nowhere else |
| Figures.AmountIff | app/domain/fx.py:70-95 | `parse_amount` takes exactly what is, commas and spaces apart, digits and perhaps a dot and digits, worth more than nothing; and takes it for that |
| Figures.AmountReadsWritten | app/domain/fx.py:70-95 | `parse_amount` reads comma groups and space groups with a dot as the figure written |
| Figures.AmountInvertsFormat | app/domain/fx.py:70-95 | `parse_amount` inverts `format_money` for every positive figure |
| SettlementText.CommaFiguresRead | app/domain/settlement_text.py:147-218 | Comma groups with a decimal dot are always read as the figure |
| SettlementText.DotFiguresRead | app/domain/settlement_text.py:147-218 | Dot groups with a decimal comma are read as the figure when both marks are there |
| SettlementText.SpaceFiguresRead | app/domain/settlement_text.py:147-218 | Space groups with a decimal comma, for every figure below the ceiling, are read as the figure or as a thousand times it |
| SettlementText.SpaceFiguresReadIff | app/domain/settlement_text.py:176-202 | Of every figure below the ceiling: as the figure exactly when there is a group to see, or the fraction is not three digits, or it is zero |
| SettlementText.FigureInvertsFormat | app/domain/settlement_text.py:204-218 | `parse_figure` inverts `format_money` for every figure below the ceiling |
| SettlementText.FigureIsInRange | app/domain/settlement_text.py:204-218 | Whatever it reads, it never answers with a figure below zero or from the ceiling up |
| SettlementLines.ParseLine | app/domain/settlement_text.py:222-293 | Not a line exactly when the shape or the label is not the desk's; of the desk's lines, read exactly when both figures are, the rate is not zero and the quotient is no more than money can be; and then it says what is there |
| SettlementLines.NothingIsDropped | app/domain/settlement_text.py:332-355 | A block is read exactly when it has a line of the desk's and each is readable, and then every one is in the result, in order |
| SettlementLines.ComputedIsNearest | app/domain/settlement_text.py:130-137 | `computed_usdt` is the nearest micro-USDT to the quotient |
| SettlementLines.ReadableWorksOut | app/domain/settlement_text.py:250-277 | A line that was parsed comes to a figure, and one within the ceiling |
| SettlementLines.PreviewIsLedger | app/domain/settlement_text.py:130-137 | The USDT previewed from the text is the USDT the ledger records |
| Matching.MatchLines | app/domain/settlement.py:321-404 | The two loops over a changing `taken` set compute the verdicts; which columns of a deal they go by is what `MatchingColumns` says |
| Matching.MatchesAgreeAndDiffer | app/domain/settlement.py:321-404 | Accounts or not: a match agrees with its line on currency and amount, and no two lines match one order |
| MatchingColumns.MatchIsPaidOut | app/domain/settlement.py:280-309 | A line that found a deal found one whose supplier pays out its amount, in its currency: the leg's own, or the deal's where the leg has none |
| MatchingColumns.OnlyPayerIsFound | app/domain/settlement.py:321-404 | The first line of an amount that just one open deal's supplier pays out finds that deal, whatever accounts there are |
| MatchingColumns.NobodyPaysNobodyIsFound | app/domain/settlement.py:321-404 | A line of an amount that no open deal's supplier pays out finds no deal |
| MatchingColumns.AccountLeavesItsClients | app/domain/settlement.py:352-380 | Of several deals an account leaves just those of its clients, by the first supplier's code there is, unless that leaves none |
| Matching.LoopIsRule | app/domain/settlement.py:321-404 | While no account narrows what its line could settle, the greedy loop is a stateless rule: unknown currency, no deal, several, or found |
| Matching.MatchedIff | app/domain/settlement.py:321-404 | In such a block line i gets order o exactly if o is the only open order of its class and i is the first line of that class |
| Matching.LineOrderIsOfNoAccount | app/domain/settlement.py:321-404 | In such a block the set of matched orders does not depend on the order of the lines |
| MatchingTwins.ClassOnItsOwn | app/domain/settlement.py:321-404 | Whatever the accounts: what a block claims of one currency and amount is what that class claims on its own |
| MatchingTwins.TwinsClaimed | app/domain/settlement.py:352-380 | Of two like deals: nothing is claimed until a line's account picks one, and both are exactly if another line of the class follows one that picks |
| MatchingTwins.LineOrderMattersIff | app/domain/settlement.py:321-404 | Where accounts narrow pairs of like deals only: every arrangement of the lines settles the same deals, if and only if no pair has exactly one picking line and another line beside it |
| MatchingPickers.OrderMattersInSomeClass | app/domain/settlement.py:321-404 | In any block, whatever the accounts: every arrangement of the lines settles the same deals, if and only if every arrangement claims the same of each class of like deals |
| MatchingPickers.PickersClaim | app/domain/settlement.py:352-380 | Of any number of like deals, lines that each pick a different one claim those, and a line without an account claims the last deal only once all others are claimed |
| MatchingPickers.PickersOrderIff | app/domain/settlement.py:352-380 | Such lines claim the same in every arrangement, if and only if it is not so that one deal is picked by none and some line names no account |
| MatchingPickers.OneSupplierPicksSteadily | app/domain/settlement.py:352-380 | Of one supplier's like deals, a numbered account of just one of the clients picks that deal whatever of the others is taken |
| PastedPayments.LinesFromMatches | app/domain/settlement.py:407-427 | The loop builds the payment lines of the matches |
| PastedPayments.MatchKeepsItsLine | app/domain/settlement.py:407-427 | One payment line a match, at its place among the matches: the order found, amount and rate as pasted, the line's country or else the order's |
| PastedPayments.MatchIsAllocated | app/domain/settlement.py:203-228 | From paste to ledger: the k-th match of a recorded block is the k-th new allocation, of what the order's supplier pays out in that currency, at the pasted rate, and there are no other new ones |
| PastedPayments.MatchedBlockRecords | app/domain/settlement.py:407-427 | A matched block can be recorded unless its figures, countries or hash forbid it; the unique constraint never trips |
| PastedPayments.PaymentIsConserved | app/domain/settlement.py:128-142 | What a payment allocates is its expected total, what was paid is that and the discrepancy, and no other payment's total moves |
| PastedPayments.AccountsMakeLineOrderMatter | app/domain/settlement.py:352-380 | Two like deals and two lines that settle both in one order and only one in the other |
| Wallet.MatchAll | app/services/wallet.py:227-250 | Sorted by arrival, with certain matches taken out of play, the loop computes the proposals |
| Wallet.NearMeans | app/services/wallet.py:77-79 | Near is within five USDT or within a basis point of what was expected, whichever is wider |
| Wallet.EachProposalIsFair | app/services/wallet.py:205-250 | One proposal a payment in order of arrival, naming exactly the deals within tolerance that no certain proposal before has claimed |
| Wallet.CertainIff | app/services/wallet.py:205-250 | On a list of different deals: a proposal is certain exactly if one was left within tolerance, and it is for that one |
| Wallet.CertainProposalsDiffer | app/services/wallet.py:237-248 | Two certain proposals claim different deals, and each was for the only one left that fitted |
| Wallet.CandidatesFromOrders | app/services/wallet.py:286-319 | The loop builds a candidate for each deal with a positive rate and a local amount; at which rate and of which amount is what `WalletColumns` says |
| Wallet.CandidateOf | app/services/wallet.py:286-319 | Every candidate stands for one of the deals |
| Wallet.EveryDealThatExpects | app/services/wallet.py:286-319 | Every deal that expects an amount has its candidate, worth what `WalletColumns.SuppliersRateCounts` and `WalletColumns.ClientsRateWhereThereIsNone` say |
| Wallet.CandidateKeysDiffer | app/services/wallet.py:308-318 | Deals with different numbers give candidates with different keys |
| WalletColumns.SuppliersRateCounts | app/services/wallet.py:286-319 | A deal with a supplier's rate is expected to bring, to half a micro-USDT, what its supplier pays out at that rate, whatever the client's columns say |
| WalletColumns.ClientsRateWhereThereIsNone | app/services/wallet.py:286-319 | Without one, at the client's rate |
| WalletColumns.ListedIsToBePaid | app/services/wallet.py:286-319 | Every candidate is there for a deal, at that amount and rate |
| WalletColumns.OthersAreNotListed | app/services/wallet.py:286-319 | A deal without such an amount or rate has no candidate |
| Sorting.SortedKeeps | app/services/wallet.py:243-243 | The sorted list is in order and a rearrangement of what was given |
| Sorting.SortedIsStable | app/domain/fx.py:1083-1083 | Elements with equal keys keep their order |
| WalletWatch.Watcher.RunPass | app/services/wallet_watch.py:114-190 | A pass announces and marks as `Poll` says, baseline and quiet cases included |
| WalletWatch.Watcher.SendAll | app/services/wallet_watch.py:178-190 | The mark is written only after the last send; a failed send leaves it, and the messages before it |
| WalletWatch.Watcher.ResetBaseline | app/services/wallet_watch.py:193-201 | The mark is forgotten and nothing else |
| WalletWatch.PassAnnounces | app/services/wallet_watch.py:166-190 | A pass announces only what is fresh, at most once each, and all of it if it ends well |
| WalletWatch.PassMarks | app/services/wallet_watch.py:186-190 | The mark moves only on a good pass with news, to the latest of it, and never back |
| WalletColumns.PassProposes | app/services/wallet_watch.py:166-190 | Each message of a pass is for a payment past the mark and in no settlement, and proposes just the open deals within five USDT or a basis point that no message of the pass before proposed alone |
| WalletColumns.FirstLookSetsTheMark | app/services/wallet_watch.py:135-164 | The first look announces nothing and starts from the latest payment there, or from now |
| WalletWatchRuns.NothingIsMissed | app/services/wallet_watch.py:114-201 | Every payment at or before the mark is older than the watching, announced, recorded, or arrived behind the mark |
| WalletWatchRuns.NothingIsMissedInOrder | app/services/wallet_watch.py:114-201 | On a chain that only appends later payments, everything after the baseline and up to the mark is announced or recorded |
| WalletWatchRuns.MarkOnlyAdvances | app/services/wallet_watch.py:186-190 | Between changes of address the mark never moves back, and nothing at or before it is announced again |
| WalletWatchRuns.UnannouncedIffLate | app/services/wallet_watch.py:114-201 | In any run, changes of address included: of the payments after the baseline and behind the mark that no settlement records, those never announced since the address was set are exactly those that arrived behind the mark |
| WalletWatchRuns.LatePaymentIsMissed | app/services/wallet_watch.py:166-190 | A run with no failure in which a payment stamped 150 arrives when the mark is at 200 and is never announced |
| WalletWatchRuns.AnnouncedAtMostOnceMore | app/services/wallet_watch.py:178-190 | A payment is announced at most once, and once more for each failed pass and each change of address |
| WalletLedger.TakenForSettledIff | app/services/wallet_watch.py:47-58 | After any run of the desk a payment is taken for settled exactly if some payment or late proof that went through gave its hash typed in lower case |
| WalletLedger.AnnouncedUnlessEntered | app/services/wallet_watch.py:166-190 | A good pass announces a payment past the mark exactly once more unless it was entered so |
| WalletLedger.SettledInCapitalsIsAnnounced | app/domain/fx.py:149-168 | A payment settled under its hash in capitals is announced none the less |
| Archive.CopyIs | app/services/archive.py:232-254 | A copy reported whole holds topic, summary, the conversation in order and the close, and nothing has been deleted |
| Archive.ArchiveOneIs | app/services/archive.py:200-276 | A raise leaves the ticket untouched, or archived with its original still to be removed; the deletion comes last |
| Archive.DueAgainIff | app/services/archive.py:279-299 | An archiving raises exactly if a call of the copy or the deletion fails; it is due again exactly if one of the copy did; otherwise the ticket is marked, and keeps its topic exactly if the deletion failed |
| Archive.DeletionFails | app/services/archive.py:254-299 | A failing deletion: the copy is finished, the original is still there, and the ticket is not due again |
| ArchiveColumns.MessageIsCopied | app/services/archive.py:146-161 | Each of the ticket's messages with something behind it is in what is forwarded, after those stored before it |
| ArchiveColumns.NothingElseIsCopied | app/services/archive.py:146-161 | And nothing else is |
| ArchiveColumns.DueMeans | app/services/archive.py:100-143 | Due are exactly the closed and unarchived tickets of desks with an archive, a day or more after they were closed |
| ArchiveColumns.BatchIsTheOldest | app/services/archive.py:100-143 | A batch is the ten closed first, or all |
| ArchiveColumns.ClosingWrites | app/services/relay.py:2318-2372 | When closing goes through, the two columns it writes, and its calls: notices first, the topic last |
| ArchiveColumns.ReopeningWrites | app/services/relay.py:1584-1680 | When reopening goes through, every column, and its calls: a new topic with header and link for an archived ticket, its own topic for any other |
| ArchiveDesk.Gateway.ForwardConversation | app/services/archive.py:242-248 | Forwards in order up to the first failure |
| ArchiveDesk.Item.MoveToArchive | app/services/archive.py:200-276 | The columns are written between the calls in the order the source writes them |
| ArchiveDesk.Item.CloseTicket | app/services/relay.py:2318-2372 | Closing says its notices, closes the topic, and is nothing the second time |
| ArchiveDesk.Item.ReopenFromArchive | app/services/relay.py:1625-1680 | A new topic, its header and the link, with the archive's columns cleared |
| ArchiveDesk.Item.ReopenTicket | app/services/relay.py:1584-1608 | Reopening takes the archive's way back or the topic's |
| ArchiveDesk.Item.ReopenInTransaction | app/services/relay.py:1584-1608 | A failed reopening puts the columns back and leaves Telegram as it is |
| ArchiveDesk.SweepItems | app/services/archive.py:279-299 | The sweep handles its batch one by one; a failure on one does not stop the rest, and the count is of those moved |
| ArchiveRuns.ActionKeepsDesk | app/services/archive.py:200-299 | Each operation, whichever call fails, keeps the invariant below |
| ArchiveDeletions.DeletionsExplained | app/services/archive.py:200-276 | In any run each deletion took the topic of a ticket then due, straight after everything stored of its conversation by then was copied in order and the copy closed; and that thread is never deleted |
| ArchiveDeletions.NothingIsLostInArchiving | app/services/archive.py:200-276 | In any run every deletion is explained so, archived implies closed, and an unarchived ticket has its topic, not deleted |
| ArchiveDeletions.LeftOverStays | app/services/archive.py:279-299 | A marked ticket whose original stayed is never taken up by a sweep nor its topic deleted, until it is reopened |
| ArchiveSweeps.SweepOutcome | app/services/archive.py:279-299 | With any failures, a sweep leaves each ticket as due as it was, or archived with a whole copy made |
| ArchiveSweeps.BacklogIsInOrder | app/services/archive.py:100-143 | The due tickets are each listed once, oldest closure first |
| ArchiveSweeps.BacklogGrowsAtItsEnd | app/services/archive.py:100-143 | What becomes due with time queues behind what was due |
| ArchiveSweeps.SweepTakesTheOldest | app/services/archive.py:100-143 | A sweep without failures moves the oldest, at most ten, and leaves the rest of the backlog in order, seen then or at any later moment |
| ArchiveSweeps.BacklogDrains | app/services/archive.py:66-72 | Over sweeps at any advancing moments, what they have moved is the front of the backlog as it stands at any later one, and the rest of it remains in order |
| ArchiveStuck.SweepPassesTheStuck | app/services/archive.py:279-299 | With tickets that fail every time among them, a sweep takes the others of the ten oldest off the front of the rest, which stays in order, and leaves those |
| ArchiveStuck.OthersDrain | app/services/archive.py:283-286 | With fewer than ten of them, over sweeps at any advancing moments the others drain in order, at least as many a sweep as those leave room for |
| ArchiveStuck.TenStuckHoldAll | app/services/archive.py:100-143 | Once the ten oldest are all of them, no number of sweeps changes any ticket |
| OrderMessages.Deal.WithdrawOrder | app/services/fx_relay.py:456-520 | Both edits are tried, neither raises, the id is forgotten, and the answer is whether the button went |
| OrderMessages.Deal.SendOrder | app/services/fx_relay.py:210-286 | The old message is withdrawn first, the new id stored, and a raise restores the stored ids |
| OrderMessages.WithdrawWrites | app/services/fx_relay.py:456-520 | Only the side's stored message loses its button and text, only that side forgets it, and the answer is for the button |
| OrderMessages.SendWrites | app/services/fx_relay.py:210-286 | A send that works takes the side's old message down and stores the new one for that side alone; one that raises leaves both stored ids |
| OrderMessages.SendKeepsWorld | app/services/fx_relay.py:210-286 | A send, however it fails, keeps every live message known |
| OrderMessages.WithdrawKeepsWorld | app/services/fx_relay.py:456-520 | So does a withdrawal |
| OrderMessages.RunKeepsWorld | app/services/fx_relay.py:210-286 | So does any run of both |
| OrderMessages.LiveMessagesAreKnown | app/services/fx_relay.py:210-286 | After any run a message that can be confirmed is its side's stored one, one reported not withdrawn, or one whose send raised after delivery |
| OrderMessages.LiveIsKnownIff | app/services/fx_relay.py:210-286 | After any run every live message is stored or reported, if and only if no send of it with its button raised after delivery |
| OrderMessages.AtMostOneLive | app/services/fx_relay.py:231-252 | If edits never fail and no send fails late, a side has at most one order it can confirm |
| OrderMessages.LateSendLeavesTwoLive | app/services/fx_relay.py:254-263 | A send that raises after delivery leaves a second live order that nothing takes down |
| WorkItems.WorkItem.TakeOwnership | app/domain/work_items.py:265-292 | Claiming needs an open, unowned item and starts it, with one event for each fact |
| WorkItems.WorkItem.GiveOwnership | app/domain/work_items.py:295-326 | Assigning needs seniority and an active assignee, and starts the item too |
| WorkItems.WorkItem.SetStatus | app/domain/work_items.py:329-356 | Escalation needs seniority, closing is refused here, no change records nothing |
| WorkItems.WorkItem.SetPriority | app/domain/work_items.py:359-380 | The previous priority is on record |
| WorkItems.WorkItem.CloseIt | app/domain/work_items.py:383-391 | Closing stamps the time, once |
| WorkItems.WorkItem.ReopenIt | app/domain/work_items.py:394-409 | Reopening needs a manager and clears the time |
| WorkItems.ActKeepsLog | app/domain/work_items.py:265-409 | Each action, with its events, keeps log and item in step |
| WorkItems.LogRebuildsItem | app/domain/work_items.py:265-409 | After any run the events replay to the item's status, priority and owner, each change starts from the replayed value before it, and the closing time is set exactly while closed |
| WorkItems.OwnerIsOnRecord | app/domain/work_items.py:265-326 | After any run the owner is the assignee of the last assignment or the claimant of the last claim, whichever came later, and nobody before either |
| WorkItems.ClaimDoes | app/domain/work_items.py:265-292 | After any run a claim goes through exactly for an operator, on an item that is not closed and that nobody else owns; then it is theirs |
| WorkItems.AssignDoes | app/domain/work_items.py:295-326 | After any run an assignment by a senior operator to active staff makes the assignee the owner, and by or to others nothing |
| WorkItems.ChangeStatusDoes | app/domain/work_items.py:329-356 | After any run, when a status is set it is exactly that one, recorded with the one before |
| WorkItems.ChangePriorityDoes | app/domain/work_items.py:359-380 | The same of a priority |
| WorkItems.CloseAndReopenDo | app/domain/work_items.py:383-409 | After any run, when closing and reopening go through and what they write |
| TicketLinks.LinkTable.LinkTickets | app/domain/work_items.py:479-523 | One ordered row and two events, unless it is the same ticket or already linked |
| TicketLinks.LinkTable.UnlinkTickets | app/domain/work_items.py:526-550 | The row goes, the events stay, and the answer is whether there was one |
| TicketLinks.LinkedToMeans | app/domain/work_items.py:449-476 | A ticket is listed exactly if the pair has a row, once each |
| TicketLinks.LinkedToIsSymmetric | app/db/models.py:995-1001 | Through any links and unlinks, listing is symmetric, free of duplicates and never of itself |
| TicketLinks.LinkThenUnlink | app/domain/work_items.py:479-550 | A new link shows at the end of both lists and nowhere else, and unlinking restores every list |
| Parts.CutLine | app/bot/deps.py:299-304 | The inner loop cuts an over-long line after flushing what was waiting |
| Parts.InParts | app/bot/deps.py:278-311 | The loops build the parts and leave out the blank ones |
| Parts.BlankIff | app/bot/deps.py:311-311 | A part is left out exactly if it has nothing but spaces |
| Parts.KeptInOrder | app/bot/deps.py:311-311 | Each part is kept or left out by itself, and those kept stay in order |
| Parts.NothingIsLost | app/bot/deps.py:278-311 | Before the blank filter the parts concatenate to the text, each within the limit |
| Parts.CutsAreAtLineEnds | app/bot/deps.py:278-311 | Every cut is at the end of a line or inside a line longer than the limit |
| Parts.NoFinerThanNeeded | app/bot/deps.py:298-310 | No two neighbouring parts could have gone as one message |
| Parts.LinesAreLines | app/bot/deps.py:298-298 | A line has its ending at its end and nowhere else, and all but the last have one |

## Left out

- ThrottledGateway.Gateway.Guarded: is proved for a limiter nobody else is using; the interleaved model is of `acquire` alone.
- Throttle.RateLimiter.Acquire: is the whole coroutine with nobody else in the limiter; with others, its pieces are what `ThrottleRuns` interleaves. The wait it returns is modelled here only; in a run `ThrottleWaits.NobodySleepsLonger` says how long each sleep is.
- ThrottleMinutes.MinutesAreKeptIff: leaves out a ceiling of two a second, and minutes of over sixty sends where `WideIntervalKeepsMinute` does not apply.
- MatchingTwins.LineOrderMattersIff: takes accounts to narrow classes of two like deals only; for more there are `MatchingPickers.PickersOrderIff` and `MatchingPickers.OrderMattersInSomeClass`, and nothing for lines whose account leaves several deals or that pick the same one.
- ArchiveStuck.OthersDrain: a call fails for a stuck ticket in every sweep and for no other; other failures mixed in are covered by `ArchiveSweeps.SweepOutcome` alone.
- FxTheorems.LogRebuildsEveryDeal: cannot give the client's account name before their first order, because it comes with the request (app/domain/fx.py:446-455) and no event carries it.
- PastedPayments.MatchedBlockRecords: pasted figures with more than ten decimals are not modelled; no column can equal one, so no such line matches.
- WalletWatchRuns.NothingIsMissed: takes the chain client to answer with nothing, or with everything past the mark and nothing twice; TronGrid's page limit and timestamp ties lie outside that.
- ArchiveDeletions.NothingIsLostInArchiving: one archiving is atomic against messages that arrive while it runs, so a message stored between the last forward and the deletion is not covered.
- Parts.InParts: requires a limit of at least one, which the program's 3800 is; a limit of nothing would never end.
- SettlementText.CommaFiguresRead: and the other readings are of plain notation; exponents, infinities and underscores, which the line pattern never lets through, are not modelled.
- Python's 28-digit decimal context, Unicode digits and Unicode casing: arithmetic is exact, digits and letters are ASCII. Database rounding to a column's places is not modelled.
- The regular expressions: a settlement line's decomposition is given; so are the hash and the stated total of a block (`find_hash`, `find_total`).
- `describe`, `desk_summary`, `rate_quote_already_sent` and the announcements to the desk: text and wiring around the modelled steps.
- Country and currency tables, account normalisation, group codes, role ranks beyond their order: given as inputs.
- Handlers, keyboards, help text, broadcast, `ratecheck`, SQL, migrations and HTTP: no protocol of their own. Handlers are not part of this model, so nothing is claimed of what they call.
- Ages and chase labels of a book entry, client history windows, work-item creation and reference parsing: easy members.
- Events of work items and deals share one table in the source; here each kind has its own log, which no modelled step can tell apart.
- WorkItems.WorkItem.GiveOwnership: records the assignee's id; the source's event carries their display name (app/domain/work_items.py:307-317).
- A work item's event and its column share one instant here; the source reads the clock twice.
