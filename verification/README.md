# A verified model of the card acquirer's money lifecycle

The repository is a card acquirer. A captured sale becomes an agenda of receivables;
receivables are anticipated, settled, canceled or charged back; a double-entry ledger,
an outbox and a table of processed events are written in the same database transactions.
This project models those parts in Dafny and proves what they keep.

## How it is built

- `Money`, `Civil`, `Easter`, `Calendar`: fees and splits in cents, day numbers of the
  proleptic Gregorian calendar (years ≥ 0), Easter, holidays and business days.
- `Transactions`, `Receivables`, `Settlements`, `Anticipations`, `Schedules`, `Ledger`,
  `FeePlans`, `Events`: the aggregates. Each has a value (a table row), functions that say
  what an operation makes of it, and, where the code updates an object in place, a class
  whose methods are proved against those functions.
- `Tables`, `Acquirer`: tables as sequences of rows, and every committed unit of work as one
  step of a state machine. A step names what it does not decide itself: generated ids, the
  clock, the answers of merchants, registry, bank and issuer, and, where money has left by then, the statements and
  COMMITs that fail. An error rolls the step back. A run is
  any sequence of steps; a delivery may name any event of the outbox, at any time, any
  number of times.
- `Reconciliation`, `Agendas`, `Payouts`, `Safety`, `Theorems`: the invariants, that every
  step keeps them, and what follows for every run.
- `SaleSteps`, `AgendaSteps`, `ClosingSteps`, `AnticipationSteps`, `LotSteps`: every kind of step once more, exactly and
  column by column: which error in which case, and otherwise the whole new state written out; and from
  it what holds for every row of every run.
- `Database`, `UseCases`, `SettleDue`: the same units of work as imperative code over
  repositories, proved to compute the steps, and the daily settlement loop over them.
- `DuePicks`, `DueRows`, `Batches`, `DayRuns`, `Starvation`, `BankLog`, `PaidTwice`: the settlement day on
  values: the order of the query, what a batch does to every row, how a day ends and who is starved, and
  what the bank has taken against what the tables say. `TinySale` is the run of a sale the ledger refuses.
- `LateRead`, `VersionGuard`, `Idempotency`, `Relay`, `Consumer`: the protocols, as
  interleaved steps of several clients with failures and crashes, next to the methods that
  run them.
- `Luhn`: the check of card numbers.
- `Results`, `Sums`: errors and results, sums over sequences.

`dafny verify dfyconfig.toml` checks everything.

## Where the code does less than one would expect

Each of these is proved, most of them with the exact condition under which the code does
what is expected, and with a concrete input or run under which it does not.

- The bank is paid inside a unit of work that can still roll back. When a later merchant of the
  batch is unknown, the registry fails, an id repeats, a statement after the payment fails, the process dies or
  the COMMIT fails, the tables go back and the bank does not; the next run finds the same receivables due and the bank
  pays them again (`PaidTwice.PaidTwiceHappens`, and with one merchant and nothing wrong until the COMMIT
  `PaidTwice.FailedCommitPaysTwice`). The same happens when the bank has paid and `Send` returns an error
  (`PaidTwice.SilentBankPaysTwice`). Over a whole run a receivable is paid twice exactly when a batch that failed, or
  whose lot the bank denied having paid, had it paid and a later batch pays it again (`BankLog.PaidTwiceExactly`); the
  confirmed settlements are what the bank has taken exactly when neither happened (`BankLog.BankMatchesBooksExactly`).
  `Theorems.PaidAtMostOnce` is about the tables.
- The captured handler reads the sale without a lock. Between its read and its commit a
  chargeback or a processed cancellation can close the sale, and the agenda is then
  scheduled on a closed sale; exactly these two make it so (`LateRead.LateKeepsClosedExactly`).
  `Theorems` takes the handler as one atomic step, which is right exactly when the sale is still
  captured at the commit (`LateRead.LateIsAtomicExactly`); what survives late commits is
  in `LateRead.LateRunSound`.
- For tiny amounts the first instalment's net can be negative; the ledger's CHECK then
  refuses the whole agenda on every delivery under the same plan (`Theorems.LedgerTakesAgenda`, `TinySale.TinySaleNeverScheduled`).
- The daily settlement selects rejected receivables again at once. For a bank with any standing verdict on the
  lots, a batch rejected whole is repeated for ever, and the day ends exactly when there is none
  (`DayRuns.DayEndsExactly`). When a lot is accepted exactly if nothing is wrong with any of its receivables, as with the
  file gateway, which rejects a lot for one bad account among its orders (`DayRuns.GatewayByRows`), the day ends exactly
  when nothing is wrong with any due receivable (`DayRuns.DayEndsByRows`), and receivables that are rejected
  again and again and fill the limit starve every later merchant for good (`Starvation.StarvedOrServed`,
  `Starvation.StarvedExactly`, `Starvation.ServedExactly`). Each round of the loop in `SettleDue.Execute` is such a
  batch (`SettleDue.Batch`).
- When a batch fails, the report still counts the lots of that batch that were posted, and it never counts a lot the
  bank has paid and denied (`SettleDue.Execute`, `BankLog.ReportsMatchExactly`).
- Liens are read in full for every lot, so the cap holds per lot and not per day
  (`Settlements.LiensCapDayExactly`).
- The comparison `version < new` is a compare-and-set only because every change bumps the
  version by the same amount (`VersionGuard.GuardIsCasExactly`).
- A request that dies while it holds an idempotency key leaves the key in progress for ever: the
  expiry column is written and never read (`Idempotency.CrashTakesTheKey`, `Idempotency.TakenForEver`).
- A single relay keeps the id order only while rows become visible in that order; several relays
  do not keep it (`Relay.OrderKeptExactly`, `Relay.LateCommitReorders`, `Relay.TwoRelaysReorder`).
- The product in the fee wraps for amounts above (2^63−1)/10000 at a full rate (`Money.ApplyBps64ExactIff`).

## Model

| member | source | states |
|---|---|---|
| Money.ApplyBps64ExactIff | internal/domain/shared/money.go:22-24 | the 64-bit product-then-divide fee equals the true fee if and only if gross × rate fits in 64 bits |
| Money.WrapsModulo | internal/domain/shared/money.go:22-24 | the wrapped product is the one 64-bit number that differs from the product by a multiple of 2^64 |
| Money.ApplyBpsBounds | internal/domain/shared/money.go:22-24 | a rate of 0–100 % takes the floor of its share, never more than the amount, without overflow up to (2^63−1)/10000 |
| Money.Split | internal/domain/shared/money.go:26-38 | the array loop (division, fill, remainder added to part 0) yields exactly the specified parts; none for n ≤ 0 |
| Money.SumValues | internal/domain/shared/money.go:40-46 | the accumulating loop is the sum of the values |
| Money.SplitConserves | internal/domain/shared/money.go:26-38 | the parts of a split add up to the total, for totals of either sign |
| Money.SplitFair | internal/domain/shared/money.go:26-38 | parts of a non-negative total are non-negative and differ by less than n cents, all of it in the first part |
| Money.Mirrored | internal/domain/shared/money.go:22-38 | a negative total splits, and a rate takes of a negative amount, as of the positive one with the sign turned |
| Money.SplitNet | internal/domain/receivable/schedule.go:22-38 | gross part minus fee part is ≥ 0 from the second part on, ≥ −(n−1) in the first, and ≥ 0 there when the quotients are n−1 apart |
| Money.SplitNetCanBeNegative | internal/domain/shared/money.go:22-38 | the arithmetic of one split: 12 cents and the fee of 99.99 % in 12 parts leave a first difference of −10 |
| Civil.DateRoundTrip | internal/domain/shared/calendar.go:39-62 | reading the civil date of the day number of a valid date gives that date back, for every year ≥ 0 |
| Civil.DaysFollow | internal/domain/shared/calendar.go:20-26 | day numbers count the days one after the other: the next date by the lengths of the months and the rule of leap years |
| Civil.DayOfInstant | internal/domain/shared/calendar.go:20-21 | the day of an instant is the one whose 86400 seconds it lies in |
| Civil.Weekdays | internal/domain/shared/calendar.go:13-18 | weekdays follow one another, and 25 December 2025 is a Thursday |
| Easter.EasterRange | internal/domain/shared/calendar.go:65-81 | Easter is a date from 22 March to 25 April in every year |
| Easter.MoonAgrees | internal/domain/shared/calendar.go:65-81 | the algorithm's h, corrected, is the paschal full moon of the independent epact computus, in every year |
| Easter.EasterIsFirstSundayAfterFullMoon | internal/domain/shared/calendar.go:64-81 | Easter is a Sunday strictly after the paschal full moon and no day between is a Sunday |
| Easter.KnownEasters | internal/domain/shared/calendar.go:65-81 | the two dates the code must give for 2025 and 2026 |
| Calendar.ClosedExactly | internal/domain/shared/calendar.go:13-62 | the closed days of every year, both ways: exactly Saturdays, Sundays, the nine fixed dates, and the days 48, 47 and 2 before and 60 after Easter |
| Calendar.AtMostTwoHolidays | internal/domain/shared/calendar.go:39-62 | no more than two of five consecutive days are national holidays, fixed and movable, across year ends too (which days they are is `Calendar.ClosedExactly`) |
| Calendar.BrazilNeverClosedFiveDays | internal/domain/shared/calendar.go:13-26 | no five consecutive days are all closed, in any year: the search loops end |
| Calendar.FourClosedDaysHappen | internal/domain/shared/calendar.go:13-26 | the bound is reached: with Easter on 20 April the four days up to 21 April are closed |
| Calendar.NextBusinessDay | internal/domain/shared/calendar.go:20-26 | the loop ends at the least business day on or after the day of the instant, at most four days later |
| Calendar.NextBusinessIdempotentMonotone | internal/domain/shared/calendar.go:20-26 | rolling forward twice is rolling once, and never swaps the order of two days |
| Calendar.AddBusinessDays | internal/domain/shared/calendar.go:28-37 | the counting loop returns the n-th business day after the day of the instant, that day itself for n ≤ 0 |
| Calendar.AfterBusinessDaysCounts | internal/domain/shared/calendar.go:28-37 | the result is a business day with exactly n business days passed, at most 5n days later |
| Calendar.AfterBusinessDaysUnique | internal/domain/shared/calendar.go:28-37 | it is the only day with those two properties |
| Calendar.AfterBusinessDaysAdds | internal/domain/shared/calendar.go:28-37 | adding m + n business days is adding m and then n; the result strictly increases in n |
| FeePlans.FeePlan.MDR | internal/domain/merchant/fee_plan.go:35-49 | exactly which combinations have a rate, and which of the plan's rates it is; a valid plan's rate is within 0–100 % |
| Transactions.TransitionTable | internal/domain/transaction/transaction.go:26-31 | the transition table of a sale, pair by pair, both ways |
| Transactions.Transaction.Transition | internal/domain/transaction/transaction.go:100-109 | the table search moves the status and counts one version when the table allows it, and otherwise changes nothing |
| Transactions.Transaction.Authorize | internal/domain/transaction/transaction.go:112-126 | a pending sale becomes authorized, one version later, with exactly one event; any other fails with none |
| Transactions.Transaction.Deny | internal/domain/transaction/transaction.go:129-139 | a pending sale becomes denied, one version later, with exactly one event; any other fails with none |
| Transactions.Transaction.CaptureNow | internal/domain/transaction/transaction.go:142-153 | an authorized sale becomes captured at exactly the given instant, one version later, with exactly one event, all else as it was; any other is left alone |
| Transactions.Transaction.CancelNow | internal/domain/transaction/transaction.go:156-166 | an authorized or captured sale becomes canceled at exactly the given instant, one version later, with exactly one event, all else as it was; any other is left alone |
| Transactions.Transaction.Chargeback | internal/domain/transaction/transaction.go:172-181 | a captured or settled sale is charged back, one version later, with exactly one event; any other is left alone |
| Receivables.TransitionTable | internal/domain/receivable/receivable.go:20-23 | the transition table of a receivable, pair by pair, both ways |
| Receivables.ChangesExactly | internal/domain/receivable/receivable.go:65-99 | every change of a receivable, column by column, and when it fails |
| Receivables.Receivable.Transition | internal/domain/receivable/receivable.go:65-75 | the table search moves the status and counts one version when the table allows it, and otherwise changes nothing |
| Receivables.Receivable.AnticipateBy | internal/domain/receivable/receivable.go:85-91 | a scheduled receivable becomes anticipated, linked to the anticipation, one version later; any other is left alone |
| Receivables.Receivable.SettleBy | internal/domain/receivable/receivable.go:93-99 | a scheduled or anticipated receivable becomes settled, linked to the settlement, one version later; any other is left alone |
| Schedules.ScheduleReceivables | internal/domain/receivable/schedule.go:14-40 | the loop over the two splits builds exactly the specified agenda, of distinct new objects, or fails with the specified error |
| Schedules.ScheduledExactly | internal/domain/receivable/schedule.go:14-40 | the agenda of a sale, exactly: not captured and no rate are the two errors; otherwise every column of every instalment, with its part of amount and fee and the first open day it falls due on |
| Schedules.ScheduleConserves | internal/domain/receivable/schedule.go:14-40 | instalments are numbered 1..n and carry the whole amount, the whole fee and the whole net |
| Schedules.ScheduleAmounts | internal/domain/receivable/schedule.go:22-38 | every amount is non-negative but for the first net, whose sign is decided by an exact test on quotients and remainders; no overflow up to (2^63−1)/10000 |
| Schedules.ScheduleDueDates | internal/domain/receivable/schedule.go:26-34 | every due date is a business day; credit due dates strictly increase, each within four days of 30k days after the capture |
| Schedules.GroupUnits | internal/domain/receivable/schedule.go:51-71 | the index-map loop is group-by: one unit per key in first-occurrence order with that key's sum and count |
| Schedules.UnitsExactly | internal/domain/receivable/schedule.go:51-71 | units, exactly: a receivable belongs to the one unit of its merchant, brand, product and due date; units hold the nets and numbers of theirs and stand in the order of their first ones |
| Schedules.UnitsConserve | internal/domain/receivable/schedule.go:51-71 | the totals of the units add up to the nets of the list |
| Schedules.CreditSaleUnits | internal/domain/receivable/schedule.go:51-71 | one credit sale groups into exactly as many units as instalments, each of one receivable |
| Settlements.WaterfallTotals | internal/domain/settlement/settlement.go:63-108 | for non-negative liens the creditors get the smaller of the liens and the payable amount, the merchant the rest |
| Settlements.WaterfallAmounts | internal/domain/settlement/settlement.go:63-108 | the loop with its early exit is the waterfall: creditor i gets its lien within what earlier liens left, in order |
| Settlements.Payees | internal/domain/settlement/settlement.go:63-108 | whatever the liens: a lot has no order exactly when it has nothing to pay, else the first order is the first creditor's or, without liens, the merchant's, and every order is a creditor's or the merchant's |
| Settlements.LiensConserve | internal/domain/settlement/settlement.go:63-108 | whatever the liens, even negative, the orders carry exactly what there was to pay |
| Settlements.BuildConserves | internal/domain/settlement/settlement.go:63-108 | a lot is built exactly when it is not empty and every receivable is due, the merchant's and unsettled; total = merchant + creditors + retained, anticipated nets are only retained, orders add up to what is paid |
| Settlements.BuildPaysCreditorsFirst | internal/domain/settlement/settlement.go:63-108 | the built lot pays the creditors first, and the merchant what remains |
| Settlements.BuiltExactly | internal/domain/settlement/settlement.go:63-108 | a built lot, column by column, for liens that are not negative: totals, every order with kind, beneficiary and amount, and the receivables |
| Settlements.NotBuiltExactly | internal/domain/settlement/settlement.go:63-88 | a lot that cannot be built: empty, or the first receivable that is another merchant's, due another day or of another status, in this order |
| Settlements.CapsWithinExactly | internal/domain/settlement/settlement.go:90-102 | capped amounts add up to at most the cap exactly when the amounts fit, or the cap is zero, or at most one amount is not zero |
| Settlements.LiensCapDayExactly | internal/application/settlement/settle_due.go:113-117 | liens are read in full for every lot: over any number of lots of a merchant's day the creditors stay within the liens exactly when all lots together fit, or at most one has anything to pay, or there are no liens |
| Settlements.BuildSettlement | internal/domain/settlement/settlement.go:63-108 | the two loops over the settlement's fields build exactly the specified lot or fail with the specified error |
| Settlements.AddReceivables | internal/domain/settlement/settlement.go:63-88 | the first loop adds up payable and retained nets and ids, or stops at the first wrong merchant, day or status |
| Settlements.PayCreditors | internal/domain/settlement/settlement.go:89-102 | the second loop, with its early exit, pays the liens as the fold over all of them does |
| Anticipations.ItemsExact | internal/domain/anticipation/anticipation.go:49-69 | a simulation accepts a list exactly when every receivable is the merchant's, scheduled and due after today |
| Anticipations.ItemsConserve | internal/domain/anticipation/anticipation.go:49-69 | the items carry exactly the nets of the receivables, whatever the pricer |
| Anticipations.SimulatedExactly | internal/domain/anticipation/anticipation.go:49-69 | a simulation, exactly: the error of the first receivable that is not the merchant's, or not scheduled, or not due after today; otherwise every item with the pricer's value of the net for its days at the rate, the discount the rest of the net, and their sums |
| Anticipations.SimulateAnticipation | internal/domain/anticipation/anticipation.go:49-69 | the accumulating loop builds the specified anticipation, each item priced by the pricer, or fails with the specified error |
| Anticipations.Anticipation.Confirm | internal/domain/anticipation/anticipation.go:71-92 | marks every receivable and itself, once, and records its event; fails with the specified error otherwise |
| Anticipations.AnticipateEach | internal/domain/anticipation/anticipation.go:79-84 | the loop marks every receivable or stops at the first that cannot be |
| Anticipations.AnticipateAllMoves | internal/domain/anticipation/anticipation.go:71-92 | scheduled receivables can all be marked; each becomes anticipated and carries the anticipation |
| Ledger.EntriesForScheduled | internal/domain/ledger/entry.go:43-53 | the appending loop lists debit, net credit and fee credit of every receivable in order |
| Ledger.IsBalanced | internal/domain/ledger/entry.go:90-97 | the accumulating loop decides whether debits equal credits |
| Ledger.NetWeightSum | internal/domain/ledger/entry.go:90-97 | credits minus debits summed per entry is the difference of the two sums |
| Tables.UpdateAllIsPatch | internal/infrastructure/postgres/receivable_repository.go:79-92 | guarded updates of rows just read all succeed and replace exactly those rows |
| Tables.PatchSum | internal/infrastructure/postgres/receivable_repository.go:79-92 | such an update moves every sum over the table by the difference of new and old rows |
| Tables.WhereMember | internal/infrastructure/postgres/receivable_repository.go:116-131 | a query returns exactly the rows its condition selects |
| Database.Database.SaveAll | internal/infrastructure/postgres/receivable_repository.go:23-35 | the insert loop stores the list or fails with the error of its first refused row |
| Database.Database.UpdateReceivables | internal/infrastructure/postgres/receivable_repository.go:79-92 | the guarded update loop stores every new version or fails with the first conflict |
| Database.Database.AppendEntries | internal/infrastructure/postgres/ledger_repository.go:17-30 | refuses an unbalanced batch and any entry the table's CHECKs refuse; otherwise appends the batch in order |
| Database.Database.AppendEvents | internal/infrastructure/postgres/outbox_repository.go:18-31 | appends the events in order or fails on a repeated event id |
| Database.Database.ListDueOnForUpdate | internal/infrastructure/postgres/receivable_repository.go:64-68 | returns the rows due that day, not settled and not locked by another unit of work, in the order of merchant and id, up to the limit |
| DuePicks.DuePickIsPick | internal/infrastructure/postgres/receivable_repository.go:64-68 | the ordered pick consists of distinct due rows, as many as there are up to the limit |
| DuePicks.UnlockedPick | internal/infrastructure/postgres/receivable_repository.go:64-68 | with any rows locked the query returns distinct due rows that are not locked, and leaves such a row out only when the limit is full; when it returns none, everything due is locked |
| DuePicks.PickExactly | internal/infrastructure/postgres/receivable_repository.go:64-68 | the query, written out: scheduled and anticipated rows due that day, distinct, by merchant and then id; when one is left out the limit is full and all picked rows sort before it |
| DuePicks.Ordered | internal/infrastructure/postgres/receivable_repository.go:64-68 | ordering keeps exactly the rows and puts each before the later ones |
| UseCases.Do | internal/infrastructure/postgres/uow.go:15-30 | every use case, run statement by statement over the repositories, does its whole step or, after an error or a COMMIT that fails, leaves the tables as they were |
| UseCases.OnCapturedEvent | internal/application/receivable/schedule.go:51-83 | the captured handler's statements compute its specified step |
| UseCases.OnCanceledEvent | internal/application/receivable/schedule.go:95-126 | the canceled handler's statements compute its specified step |
| UseCases.CloseReceivables | internal/application/chargeback/open.go:51-66 | the loop over a sale's receivables closes exactly those a cancellation or chargeback reaches, with their reversing entries in order |
| UseCases.OpenCase | internal/application/chargeback/open.go:29-77 | opening a chargeback computes its specified step over sale, case, receivables, ledger and events |
| UseCases.EnsureNoLiens | internal/application/anticipation/anticipate.go:97-113 | each due date is asked at most once, every one if none stops it, and the first lien or failure in the order of the list is the error that comes back |
| UseCases.RequestAnticipation | internal/application/anticipation/anticipate.go:50-85 | the request's statements compute its specified step |
| UseCases.AuthorizeSale | internal/application/transaction/authorize.go:42-111 | storing an approved or denied sale with its event computes its specified step |
| UseCases.StoreChange | internal/application/transaction/lifecycle.go:28-50 | a changed sale and its event are written together, as specified |
| UseCases.CaptureSale | internal/application/transaction/lifecycle.go:20-22 | a capture computes its specified step: sale and event together, or nothing |
| UseCases.CancelSale | internal/application/transaction/lifecycle.go:24-26 | a cancellation computes its specified step: sale and event together, or nothing |
| UseCases.WriteAgenda | internal/application/receivable/schedule.go:73-82 | receivables, entries and event of an agenda are stored together, as specified |
| UseCases.StoreClosing | internal/application/chargeback/open.go:67-74 | changed receivables and reversing entries are stored together; nothing is written when nothing changed |
| UseCases.WriteAnticipation | internal/application/anticipation/anticipate.go:75-84 | anticipation, receivables, entries and event are stored together, as specified |
| SaleSteps.FoundExactly | internal/infrastructure/postgres/transaction_repository.go:36-42 | a sale is found by its id exactly for its own merchant |
| SaleSteps.AuthorizedExactly | internal/domain/transaction/transaction.go:58-88 | which sales are refused with which error, in order; any other is stored with the issuer's answer and its event |
| SaleSteps.CapturedExactly | internal/application/transaction/lifecycle.go:20-50 | a capture, exactly: only the merchant's own sale, only when authorized, with a new event id; then status, version and instant of that row, and the event, and nothing else |
| SaleSteps.CanceledExactly | internal/application/transaction/lifecycle.go:24-50 | a cancellation, exactly: likewise, of an authorized or captured sale |
| SaleSteps.CapturedByStep | internal/domain/transaction/transaction.go:142-153 | in every run a sale's capture time is the instant of a step that captured it |
| AgendaSteps.DeliveredExactly | internal/application/receivable/schedule.go:51-83 | a delivery of a captured event, exactly: which error in which case; otherwise the whole agenda, its entries, its event and the mark, column by column |
| AgendaSteps.RowOfCapture | internal/domain/receivable/schedule.go:14-40 | in every run every receivable is, but for status and links, an instalment of its sale, at the rate of the plan of one delivery and from the instant at which a step of the run captured the sale |
| AgendaSteps.DueOfCapture | internal/domain/receivable/schedule.go:26-34 | so in every run a receivable falls due on a business day: on credit the first from 30 days an instalment after the capture on, at most four days later; on debit the first after the day of the capture |
| ClosingSteps.CancellationExactly | internal/application/receivable/schedule.go:95-126 | a delivery of a canceled event never fails: the first cancels exactly what is scheduled of the sale and writes the reversing entries, in order; a later one changes nothing |
| ClosingSteps.CaseExactly | internal/domain/chargeback/chargeback.go:48-67 | opening a case, exactly: which error in which case, the amount within the sale's; otherwise sale, case, closed receivables, reversing entries and both events, column by column |
| AnticipationSteps.LiensExactly | internal/application/anticipation/anticipate.go:97-113 | the check passes exactly when no due date has a lien and all are answered; the first that does not decides the error |
| AnticipationSteps.AnticipatedExactly | internal/application/anticipation/anticipate.go:50-85 | a request, exactly: which error in which case, a lien among them; otherwise anticipation, receivables, the three entries and the event, column by column |
| AnticipationSteps.AnticipationMovesBalances | internal/domain/ledger/entry.go:55-61 | an applied request moves BankOutgoing by exactly the sum of the pricer's values, RevenueAnticipation by the nets minus that sum, PayableToMerchant by the nets, and no other balance, for its merchant and overall |
| LotSteps.LotExactly | internal/application/settlement/settle_due.go:106-164 | a lot, exactly: which error in which case; otherwise settled receivables, the settlement row, the entries and the event of an accepted or a rejected lot, column by column |
| Reconciliation.AppendKeeps | internal/domain/ledger/entry.go:43-53 | posting an agenda moves the balances exactly as its receivables move the sums over the tables |
| Reconciliation.AnticipationKeeps | internal/domain/ledger/entry.go:55-61 | so does an anticipation with its receivables |
| Reconciliation.SettlementKeeps | internal/domain/ledger/entry.go:63-72 | so does a confirmed settlement with its receivables |
| Reconciliation.ClosingKeeps | internal/domain/ledger/entry.go:74-88 | so does the closing of a sale's receivables by a cancellation or a chargeback |
| Reconciliation.FailureKeeps | internal/application/settlement/settle_due.go:126-135 | a failed settlement moves no balance |
| Agendas.CaptureDeliveryKeeps | internal/application/receivable/schedule.go:51-83 | the first agenda of a sale keeps agendas complete and grounded in a processed event, and closed sales closed exactly when the sale is open for it |
| Agendas.CancellationKeeps | internal/application/receivable/schedule.go:95-126 | marking a canceled event processed keeps them, once nothing of the sale is scheduled |
| Agendas.JournalMove | internal/domain/transaction/transaction.go:100-181 | a sale's transition and its event keep the outbox a faithful journal: one captured event at most, a canceled event only for a canceled sale |
| Payouts.SettlementKeepsPaid | internal/application/settlement/settle_due.go:137-164 | a confirmed settlement lists only receivables no other one lists, and pays exactly their nets |
| Payouts.AnticipationKeepsPaid | internal/application/anticipation/anticipate.go:50-85 | a confirmed anticipation covers only receivables no other one covers |
| Payouts.NeverPaidTwice | internal/domain/settlement/settlement.go:71-88 | where those invariants hold no receivable is in two confirmed settlements or two anticipations |
| Safety.StepSafe | internal/infrastructure/postgres/uow.go:15-30 | every committed or rolled-back step keeps the whole invariant: keys, row amounts, reconciliation, agendas, payouts and balance |
| Safety.RunSafe | internal/infrastructure/postgres/uow.go:15-30 | the invariant holds in every state of every run, for any interleaving of atomic steps and any delivery order |
| Safety.PostingKeeps | internal/application/receivable/schedule.go:62-79 | posting an agenda for the first time keeps everything else in any state of the sale, and keeps closed sales closed exactly when the sale is not charged back and no cancellation of it is processed |
| Theorems.LedgerReconciles | internal/domain/ledger/entry.go:43-88 | in every reachable state each of the six balances, per merchant and overall, is the stated sum over receivables, anticipations and settlements |
| Theorems.MoneyOutIsMoneySpent | internal/domain/ledger/entry.go:43-88 | bank outflow plus anticipation revenue equals the nets of receivables anticipated, settled or lost after anticipation |
| Theorems.OneAgendaPerSale | internal/application/receivable/schedule.go:51-83 | at any time a sale has no receivable or exactly its n instalments, numbered, carrying the whole amount and the fee of a rate within 0–100 % |
| Theorems.AgendaOfDelivery | internal/application/receivable/schedule.go:62-79 | whatever happened to it since, a sale's agenda is, but for status and links, the schedule that its one applied delivery computed from the sale and the plan of that moment |
| Theorems.FeeOfAppliedPlan | internal/domain/receivable/schedule.go:18-25 | so the agenda carries exactly the fee of that plan's rate for the sale |
| Theorems.EachEventAppliedOnce | internal/infrastructure/postgres/outbox_repository.go:41-48 | no event is applied twice in a run, however often and in whatever order it is delivered |
| Theorems.RunRefinesDeduplicated | internal/application/receivable/schedule.go:51-126 | a run with repeated, reordered and failed deliveries ends in the same state as the run without the deliveries that were not applied |
| Theorems.KeptDeliveriesApply | internal/application/receivable/schedule.go:51-126 | every delivery kept in that shorter run is applied there |
| Theorems.DeduplicatedDeliversOnce | internal/infrastructure/postgres/outbox_repository.go:41-48 | and the shorter run delivers no event twice |
| Theorems.AgendaPostedExactly | internal/application/receivable/schedule.go:51-83 | the first delivery of a captured event succeeds exactly when the sale is still captured, the plan has a rate, the ids are new and the first instalment's fee share is within its amount share |
| Theorems.LedgerTakesAgenda | migrations/000005_ledger_outbox_processed.up.sql:5-10 | the ledger's CHECKs accept an agenda exactly when its first net is not negative |
| Theorems.TinySaleIsRefused | migrations/000005_ledger_outbox_processed.up.sql:5-10 | a sale the factory accepts (12 cents, 12 instalments, 99.99 %) whose agenda every ledger refuses with a CHECK violation |
| TinySale.TinyDeliveryFails | internal/application/receivable/schedule.go:51-83 | on the run of that sale, authorized and captured, every delivery of the captured event under the plan fails, with the CHECK violation whenever the generated ids differ |
| TinySale.TinySaleNeverScheduled | migrations/000005_ledger_outbox_processed.up.sql:5-10 | so after any number of deliveries the sale is captured and has no receivable |
| Theorems.AmountsArePositive | internal/domain/transaction/transaction.go:58-88 | every stored sale has a positive amount, in every run |
| Theorems.ChargebackIsFinal | internal/application/chargeback/open.go:29-77 | once a sale is charged back none of its receivables is ever scheduled or anticipated again, in either arrival order of events |
| Theorems.CancellationIsFinal | internal/application/receivable/schedule.go:95-126 | once a canceled event is marked processed none of the sale's receivables is ever scheduled again |
| Theorems.PaidAtMostOnce | internal/application/settlement/settle_due.go:106-164 | over a whole run a receivable is in at most one confirmed settlement and at most one anticipation |
| Theorems.AnticipatedIsOnlyRetained | internal/domain/settlement/settlement.go:63-108 | what a confirmed settlement pays is the nets of its receivables never anticipated; anticipated nets are only retained |
| Theorems.StepMovesTxs | internal/domain/transaction/transaction.go:26-31 | every step leaves each sale as it is or moves it along the transition table, with the same amount |
| LateRead.LateIsAtomicExactly | internal/application/receivable/schedule.go:62-79 | the captured handler, reading the sale without a lock and committing later, does what the atomic step would do exactly when the sale is still captured at the commit |
| LateRead.LateKeepsClosedExactly | internal/application/receivable/schedule.go:62-79 | its commit leaves closed sales closed exactly when the sale is then not charged back and no cancellation of it has been processed; it keeps the rest of the agreement in any case |
| LateRead.LateRunSound | internal/application/receivable/schedule.go:51-83 | in runs where any number of handlers read early and commit late the state stays sound: keys, rows, ledger, one whole agenda a sale, no double payment |
| LateRead.LateRunsReconcile | internal/domain/ledger/entry.go:43-88 | in those runs every balance is still the sum over the tables, every sale has no agenda or its whole one, and nothing is paid twice by the tables |
| LateRead.ClosedSalesStayClosedExactly | internal/application/receivable/schedule.go:62-79 | in those runs closed sales stay closed throughout exactly when every late commit found its sale open |
| LateRead.AtomicRuns | internal/infrastructure/postgres/uow.go:15-30 | without late commits those runs are the runs of the state machine |
| LateRead.CapturedRowStays | internal/domain/transaction/transaction.go:26-31 | a captured sale stays the very same row until it is canceled, settled or charged back |
| LateRead.LateCommitOutlivesClosing | internal/application/receivable/schedule.go:62-79 | otherwise, after a chargeback, it leaves a scheduled receivable on a charged-back sale, which no atomic run reaches |
| LateRead.LateCommitOutlivesCancellation | internal/application/receivable/schedule.go:62-79 | likewise after a cancellation whose event was already processed |
| LateRead.LateCommitHappens | internal/application/receivable/schedule.go:62-79 | a concrete reachable interleaving: sale, capture, read, chargeback, late commit |
| LateRead.LateCommitAfterCancellationHappens | internal/application/receivable/schedule.go:62-79 | another: sale, capture, read, cancellation, the cancellation processed, late commit |
| DueRows.LotSucceedsExactly | internal/application/settlement/settle_due.go:106-164 | a lot goes through exactly when the merchant is known, the registry answers, the ids are new and the statements after the bank's answer work; nothing in its own computation fails |
| DueRows.AcceptedEffect | internal/application/settlement/settle_due.go:137-164 | an accepted lot settles its rows and only those, and takes exactly their nets off what is due |
| DueRows.RejectedBatchRepeats | internal/application/settlement/settle_due.go:126-135 | one batch the bank rejects whole leaves the agenda as it was |
| Batches.BatchRows | internal/application/settlement/settle_due.go:80-104 | a committed batch settles exactly the picked rows of accepted merchants and leaves every other row as it was, whatever the order of visits |
| Batches.BatchCommitsExactly | internal/application/settlement/settle_due.go:80-104 | all lots of a batch go through exactly when every merchant is known, the registry answers for each, the generated ids are new and no statement fails; the COMMIT is then all that is left to fail |
| Batches.PaidExactly | internal/application/settlement/settle_due.go:106-164 | the bank pays for a receivable in a batch exactly when it takes the lot of its merchant, whatever it answers, and every earlier lot has passed |
| Batches.CountedExactly | internal/application/settlement/settle_due.go:125-163 | the report counts what the bank takes of a batch exactly when no lot is taken that the bank denies or that is not posted; otherwise it counts less |
| Batches.PaidOncePerBatch | internal/application/settlement/settle_due.go:92-100 | within one batch the bank pays for a receivable at most once |
| BankLog.BatchMatchesExactly | internal/application/settlement/settle_due.go:80-104 | after a batch the confirmed settlements grow by what the bank took exactly when the bank took nothing, or the batch committed and the bank denied no lot it took |
| BankLog.BatchMatchesByAnswers | internal/infrastructure/postgres/uow.go:15-30 | whether a batch commits and whether the bank takes anything of it, by the answers, the generated ids, and the statements and the COMMIT that work |
| BankLog.BankMatchesBooksExactly | internal/application/settlement/settle_due.go:125-164 | over a whole run the bank has taken exactly the confirmed settlements if and only if no batch failed after the bank took something and the bank denied nothing it took |
| BankLog.BankPaysExactly | internal/application/settlement/settle_due.go:125-164 | over a whole run the bank has paid for a receivable exactly when the answers of some batch, committed or not, say so, even where Send returned an error |
| BankLog.PaidTwiceExactly | internal/application/settlement/settle_due.go:106-164 | over a whole run the bank pays twice for a receivable if and only if a batch had it paid and failed (an answer, an id, a statement, the COMMIT), or the bank denied that payment, and a later batch pays for it again |
| BankLog.KeptIsPaidOnce | internal/domain/receivable/receivable.go:20-23 | what a batch has paid and the tables have kept is never due again |
| BankLog.ReportsMatchExactly | internal/application/settlement/settle_due.go:160-163 | over a whole run the reports count exactly what the bank takes if and only if it takes no lot that it denies or that is not posted |
| PaidTwice.PaidTwiceHappens | internal/application/settlement/settle_due.go:106-164 | a concrete reachable run: two merchants due, the bank pays the first, the registry fails for the second, the batch rolls back, the day runs again and the first receivable is paid twice |
| PaidTwice.FailedCommitPaysTwice | internal/infrastructure/postgres/uow.go:26-28 | another, with one merchant in the batch and every answer good: only the COMMIT fails, and the receivable is paid twice |
| PaidTwice.SilentBankPaysTwice | internal/application/settlement/settle_due.go:125-136 | another: the bank has paid and Send returns an error; the failed settlement commits, the receivable stays due and is paid twice |
| DayRuns.AllRejectedGoesOn | internal/application/settlement/settle_due.go:69-77 | after any number of batches that the bank rejects whole the agenda is as it was and, if something was due, the next batch is not empty |
| DayRuns.DayEndsExactly | internal/application/settlement/settle_due.go:69-77 | for any standing verdict of the bank on merchant and receivables of a lot: after as many batches as there are due receivables nothing is due exactly when no batch that found something due was rejected whole; one that was leaves the agenda as it is for good |
| DayRuns.DayEndsByRows | internal/application/settlement/settle_due.go:69-77 | for a bank that accepts a lot exactly when nothing is wrong with any of its receivables, in any order of picks and visits: the day runs out of due receivables, within as many batches as there are, exactly when nothing is wrong with any of them; otherwise never |
| DayRuns.GatewayByRows | internal/infrastructure/bank/file_gateway.go:26-31 | the file gateway is such a bank, for any liens, where the first payee is refused or no payee is: a lot is rejected exactly when one of its receivables pays anything and the first payee is refused |
| DayRuns.GatewaySeesOrders | internal/infrastructure/bank/file_gateway.go:26-31 | its verdict is the one on the orders of the lot as built, under any id: one refused account is enough, a lot without orders is accepted |
| Starvation.PickedExactly | internal/infrastructure/postgres/receivable_repository.go:64-68 | a due row is picked exactly when fewer due rows than the limit sort before it |
| Starvation.StarvedOrServed | internal/infrastructure/postgres/receivable_repository.go:64-68 | in the order of the query: a row with something wrong in it or before it at the same merchant is never settled; a row behind as many such rows as the limit is never picked; a row of a merchant with nothing wrong, behind fewer rows than the limit of merchants with something wrong, is settled within as many batches as there are due receivables |
| Starvation.StarvedExactly | internal/infrastructure/postgres/receivable_repository.go:64-68 | where the first due row of each merchant with something wrong is wrong, as for any verdict on the merchant alone, a row of another merchant is settled exactly when fewer such rows than the limit sort before it |
| Starvation.ServedExactly | internal/infrastructure/postgres/receivable_repository.go:64-68 | for any rows: it is settled exactly when fewer due rows than the limit are left before it in the end |
| SettleDue.SettleMerchant | internal/application/settlement/settle_due.go:106-164 | one lot, statement by statement, is its specified step; the report and what the bank took are exact even when a statement or the unit of work then fails |
| SettleDue.SendLot | internal/application/settlement/settle_due.go:108-125 | builds, stores and sends a lot exactly when the merchant is known, the registry answers and the id is new; otherwise nothing is written or sent |
| SettleDue.GroupByMerchant | internal/application/settlement/settle_due.go:92-95 | the map loop gives each merchant exactly its receivables, in order |
| SettleDue.Batch | internal/application/settlement/settle_due.go:80-104 | a batch picks the due rows that are not locked, in the order of the query, and visits their merchants in any order; it is one step of the state machine, rolled back whole after an error or a COMMIT that fails; bank log and report grow by exactly what the bank takes, and what is counted, of those lots, in all cases |
| SettleDue.Execute | internal/application/settlement/settle_due.go:52-78 | for any limit, liens, order of merchants, locked rows and failing COMMITs, and a bank that in the end accepts every merchant with something due, the loop ends; on success every receivable that was due is settled or was locked at the last query, no other row changed, and paid and retained are the nets that left what was due; after an error the report is what the tables keep plus exactly what was counted of the failed batch; tables, bank log and report are those of the run of its batches |
| SettleDue.LotTruthful | internal/application/settlement/settle_due.go:160-163 | whatever happens to the unit of work, the report's paid amount grows by the posted lots that the bank reports as paid, and by nothing else |
| SettleDue.VisitCounts | internal/application/settlement/settle_due.go:106-164 | what one visit adds to each of the report's five counters, by the answers alone: a visit, a failure for a rejected lot, and for an accepted and posted one a settlement, the nets paid and the nets retained |
| SettleDue.BatchAdvances | internal/application/settlement/settle_due.go:69-77 | every non-empty batch uses up a rejection the bank may still give or a due receivable |
| VersionGuard.UniformGuardIsCas | internal/infrastructure/postgres/receivable_repository.go:79-92 | with one version bump for every change, a guarded write goes through exactly when the row is still the one read, under any interleaving of clients and without row locks |
| VersionGuard.NothingIsOverwritten | internal/infrastructure/postgres/transaction_repository.go:44-57 | with bump one, committed versions are consecutive, each a legal transition of the one before, and history only grows |
| VersionGuard.GuardIsCasExactly | internal/infrastructure/postgres/receivable_repository.go:79-92 | the guard is a compare-and-set in all runs if and only if all changes raise the version by one and the same amount |
| VersionGuard.TwoBumpsLoseAnUpdate | internal/infrastructure/postgres/receivable_repository.go:79-92 | with two different bumps a six-step run commits a stale change over one it has not seen |
| VersionGuard.ReceivablesChangeByOne | internal/domain/receivable/receivable.go:65-99 | every change of a receivable raises the version by exactly one, keeps the frozen fields and follows the table |
| VersionGuard.TransactionsChangeByOne | internal/domain/transaction/transaction.go:100-166 | every change of a transaction raises the version by exactly one, keeps the amount and the parties and follows the table |
| Idempotency.Store.Begin | internal/infrastructure/postgres/idempotency_store.go:24-52 | reserves an absent key; for a present one: conflict exactly for other content, in progress exactly for the same content without a response, the stored response exactly once it has one |
| Idempotency.Handle | internal/handler/http/middleware/idempotency.go:34-65 | one request alone, in terms of the table and the answer: bad keys are refused; a free key runs the handler; a taken one is refused as reused exactly for other content, as busy exactly for the same content without response, and replayed exactly otherwise; a server error frees the key, any other response is stored byte for byte |
| Idempotency.HandleTwice | internal/handler/http/middleware/idempotency.go:34-65 | repeating a request replays the first response unless that was a server error |
| Idempotency.RunInv | internal/infrastructure/postgres/idempotency_store.go:24-63 | under any interleaving, failed or half-failed statement and crash: one holder a key, rows with a response are exactly the completions |
| Idempotency.OneExecution | internal/handler/http/middleware/idempotency.go:34-65 | at most one request executes a key at a time, and the row then is its own and without response |
| Idempotency.OneGoodExecution | internal/handler/http/middleware/idempotency.go:54-62 | over a whole run a key has at most one handler that answers without a server error, even if its response was never stored, and none runs after it |
| Idempotency.ReplayIsExact | internal/infrastructure/postgres/idempotency_store.go:45-51 | a replay returns exactly the status and body one other request of the same merchant, key and content answered; so other content never gets a replay |
| Idempotency.TakenForEver | internal/infrastructure/postgres/idempotency_store.go:24-63 | a key that nobody holds any more stays taken: its row never changes and no handler runs for it again |
| Idempotency.CrashTakesTheKey | internal/handler/http/middleware/idempotency.go:52-60 | a request that dies while it holds a key leaves it in progress (with the theorem above: for ever) |
| Idempotency.FreeKeyRuns | internal/infrastructure/postgres/idempotency_store.go:24-32 | under any interleaving a request whose key is free reserves it with its content and runs; one whose key is taken does not |
| Idempotency.ServerErrorFrees | internal/handler/http/middleware/idempotency.go:58-65 | and when its response is recorded a server error frees the key, any other response is stored with the content |
| Idempotency.ReusedByAnother | internal/infrastructure/postgres/idempotency_store.go:45-47 | under any interleaving a request is told that its key was used with other content only if another request of the same merchant and key with other content reserved it |
| Idempotency.SameContentIsNotRefused | internal/infrastructure/postgres/idempotency_store.go:45-47 | so where all requests of a key have the same content none is told so |
| Idempotency.BusyMeansUnanswered | internal/infrastructure/postgres/idempotency_store.go:39-50 | a request is told that the first is still at work only if at its SELECT the key was free again or held its own content without a response |
| Relay.RunInv | internal/infrastructure/kafka/relay.go:42-91 | any number of relays, with failed publications, crashes and rollbacks, keep the outbox invariant |
| Relay.MarkedWasSent | internal/infrastructure/kafka/relay.go:73-89 | a row is marked published only if it was sent |
| Relay.BatchesAreDisjoint | internal/infrastructure/kafka/relay.go:49-50 | batches in flight share no row, and their rows are unpublished |
| Relay.CommitsMarkAPrefix | internal/infrastructure/kafka/relay.go:73-90 | a step marks a row exactly when it commits a batch that has sent it, a prefix of that batch; no mark is taken back |
| Relay.PendingIds | internal/infrastructure/kafka/relay.go:49-50 | a batch is the first unpublished, unlocked rows in id order, as many as there are up to the limit |
| Relay.OrderKeptExactly | internal/infrastructure/kafka/relay.go:49-90 | with one relay, published rows are a prefix in id order and first sends are in id order at every moment of a run if and only if every new row becomes visible with an id beyond all that were sent or are in flight |
| Relay.AppearKeepsOrderExactly | migrations/000005_ledger_outbox_processed.up.sql:15-24 | a new row keeps that order exactly under that condition |
| Relay.TwoRelaysReorder | internal/infrastructure/kafka/relay.go:49-50 | a run of two relays that sends the second row first |
| Relay.LateCommitReorders | internal/infrastructure/kafka/relay.go:49-50 | a run in which a smaller id becomes visible after a larger one was sent |
| Relay.PublishBatch | internal/infrastructure/kafka/relay.go:42-91 | the loop sends exactly the accepted prefix in order (and the failed one, if it arrived), stops at the first failure and marks exactly what was accepted, or nothing if the update or commit fails; it is a run of one relay of the step model |
| Consumer.Broker.Process | internal/infrastructure/kafka/consumer.go:59-88 | the retry loop ends in the one way its replies determine, and dead-letters exactly the messages it gives up |
| Consumer.Broker.Consume | internal/infrastructure/kafka/consumer.go:41-57 | the offset is committed after processing, whatever became of the message |
| Consumer.OneEnd | internal/infrastructure/kafka/consumer.go:59-88 | handled, given up and interrupted, with their attempt counts, exclude one another |
| Consumer.FiveAttempts | internal/infrastructure/kafka/consumer.go:37 | a message is given up exactly at the first permanent error or when five attempts have failed for a while, and handled exactly at a success among them |
| Luhn.Check | internal/domain/transaction/card.go:31-53 | the right-to-left loop accepts exactly the numbers of 13 to 19 digits whose last digit is the check digit of the others, by the rule on the decimal digits of the doubled ones |
| Luhn.PassesExactly | internal/domain/transaction/card.go:31-53 | the digit-by-digit sum and that rule agree on every number |
| Luhn.KnownNumber | internal/domain/transaction/card.go:31-53 | 4111111111111111 passes and 4111111111111116 does not |
| Luhn.SubstitutionDetected | internal/domain/transaction/card.go:31-53 | every substitution of one character of an accepted number is rejected |
| Luhn.SwapDetectedExactly | internal/domain/transaction/card.go:31-53 | a swap of two different neighbours of an accepted number is accepted exactly for a 0 and a 9 |
| Luhn.OneCheckDigit | internal/domain/transaction/card.go:31-53 | every number of 12 to 18 digits has exactly one check digit, the one of the rule |

## Left out

- Theorems.LedgerReconciles: the ledger table's entry ids and timestamps are not modelled; the balances do not depend on them.
- SettleDue.Execute: the bank must in the end accept every merchant with something due, as the loop does not end otherwise; amounts in sums are unbounded integers, so overflow of the report's totals is not modelled.
- Database.Database.ListDueOnForUpdate: ids are ordered as numbers where the database orders texts.
- Theorems.OneAgendaPerSale: does not name the rate; `Theorems.FeeOfAppliedPlan` does.
- The queries for anticipation and for a sale's receivables return rows in table order and not in the order of id or instalment number; only the order of items and entries, and which of several errors comes back, depends on it.
- UseCases.AuthorizeSale: the card vault, the amount rule, the issuer call, its timeout and its reversal happen before the unit of work; only the issuer's final answer is kept, as a boolean.
- Relay.PublishBatch: the ticker loop around it only repeats it.
- The pricing formula uses floating point and a power; the pricer is an arbitrary function here, so what is proved holds for every formula, and a present value above the net is refused by the ledger's CHECK.
- Identifiers are opaque numbers from a generator, and payment orders carry none; a repeated id is a key violation that rolls the step back. An empty id column is None.
- Requests are identified by the hash of their content; the hash is taken to be injective.
- A row update writes the whole row; the columns the SQL does not write are those no operation changes.
- Texts and times that no decision reads: authorization codes, reason codes, external references, updated-at columns, deadlines.
- DayRuns.GatewayByRows: where a merchant's first payee is good and a later one is refused, the file gateway's verdict depends on how far the lot's money reaches; such lots are covered by `DayRuns.DayEndsExactly` only. An order's bank account is taken to be determined by its beneficiary.
- The Redis lock is one answer (acquired, taken, unreachable); no safety property depends on it.
- Registration of units and transfer of ownership at the registry, after the commit, are calls into another system.
- Payments accepted by the bank are recorded in a log that nothing takes back; how they would be undone by hand is not modelled.
- In the settlement a statement that fails before the bank is asked is the registry's failure, one that fails afterwards stops the lot before or after the report's counters, and a process that dies is a statement that fails where it died. In the other use cases a failing statement is a step that did not happen, as nothing outside the tables has happened by then.
- SettleDue.Batch: takes the database's answer to COMMIT to be right; a COMMIT that took effect although its answer was lost is, for the tables and the bank, the step that commits.
- `MarkSettled` on a transaction has no caller in the repository, so no step makes a transaction settled; the transition table keeps the status.
- Defence, acceptance and reversal of a chargeback only move the case's own status.
- Isolation of concurrent units of work is taken as atomic steps; the two places where the code relies on something else, the unlocked read and the version guard, are modelled on their own.
- Merchants, onboarding, webhooks, the vault, authentication, HTTP and SQL encodings, brand detection, queries for display: input and output or shallow branches.
- Idempotency keys are counted in characters where the code counts bytes; the request body's size limit is part of the content that is hashed.
- Committing an offset and writing to the dead-letter topic either succeed or fail; the broker's own redelivery is covered by deliveries being arbitrary in the state machine.
