# ServiceBay: a verified model

This project models the four protocols on which the ServiceBay backend rests, and proves what
they promise over every run:

- **Booking** (`scheduler-service`): `Book`, `Cancel` and `Complete` move an appointment, its bay,
  its service lines and the outbox together. Calls race each other under an advisory lock per
  vehicle, row locks and an exclusion constraint. `Availability` predicts what `Book` would do.
- **Settlement** (`billing-service`): payments follow a provider whose answers are stale, repeated
  and out of order; a bill's status is a fold over its payments; scheduler's three topics arrive in
  any relative order.
- **Outbox relay** (all services): at-least-once publication that stops at the first failure, in
  one process, in replicas that share a lock, and in replicas that share nothing.
- **Ownership and warranty** (`vehicle-service`): row-locked transfers and updates whose event log
  replays to what is stored.

Beside them are the paginated lists of vehicles and bills, the conversion of decimal fees to minor
units, and the scoping of idempotency keys.

## How it is built

Methods that change stored rows are methods of classes whose fields are the tables. Each is proved
equal to a function from database to database, including the error and, on an error, the rollback.
What such a function means to a caller (when it succeeds, which reason it is refused for, which rows
and events it writes) is stated a second time on the rows alone, and proved of it.
These functions are the steps of machines whose runs are arbitrary lists of actions, so a theorem
about `Run` is about every interleaving. Booking (`BookingRuns`) and ownership (`OwnershipRuns`) race
statement by statement, with waiting on locks and abandoned transactions; `BookingAlone` and
`OwnershipRuns.TransferAlone` tie a call that nobody disturbs to the service's method. Settlement
steps are whole transactions. Those that decide or settle a payment hold their bill's row lock;
linking an intent holds none and is guarded by the payment's version; billing's copy of a booking is
read and written with no lock at all. Whatever a transaction decides on without a lock (a payment, a
version, the live bill's id, the copy of the booking, the provider's answer) is a parameter of its
step without constraint, so a run may have read it as long ago as it likes.

| file | about |
|---|---|
| `AppointmentTables`, `BookingRuns`, `BookingService`, `BookingAnswers`, `BookingAlone`, `Catalog` | booking |
| `SchedulerMoney` | fees and minor units |
| `Outbox`, `RelayCluster` | the relay |
| `Balances`, `Settlement`, `SettlementRuns`, `SettlementOutcomes`, `RecordedAnswers`, `Decisions`, `BalanceRequests`, `BillingService`, `IdempotencyKeys` | settlement |
| `BilledWork`, `BookingEvents`, `BookingConvergence`, `BookedAgain` | scheduler's events in billing: what a bill says after one, one delivery, all of them, handlers at the same time |
| `Ownership`, `OwnershipRuns`, `Vehicles` | owners, warranty |
| `Keyset`, `Listings` | pages |

## Premises

- PostgreSQL at READ COMMITTED: a statement sees what was committed before it began; a select that
  waited for a row lock looks at that row again, and not at rows inserted since.
- Durations in the catalog are positive, as its CHECK says. A zero-length booking would block no bay.
- A hub's opening hours lie at a fixed distance from UTC. Instants are whole microseconds.
- Rows of one outbox key become visible in the order of their ids. Nothing is assumed across keys.
- The events of one appointment describe the same booking. That their amounts agree is proved for
  catalog fees (`BookingConvergence.PublishedLinesAddUpToTheEstimate`), and that agreement is also
  needed (`BookingConvergence.EstimatesAgreeIff`).
- `BookingConvergence`: the handlers of one appointment's events run one at a time, each to its end or
  to where it threw; and the provider does not change its mind about an intent between two deliveries
  of a cancellation, though it may not answer. `BookedAgain` says exactly what becomes of the first
  premise; in `Settlement` the provider's answers are arbitrary.

## What the proofs found

- The order in which the broker first sees one key's rows needs no lock: it holds for any number of
  relays and any faults (`RelayCluster.FirstSeenInOrder`). That fault-free runs also repeat nothing
  holds exactly if the relays share the lock, or there is at most one of them, as scheduler-service is
  deployed (k8s/base/scheduler-service/deployment.yaml:32; `RelayCluster.OnceInOrderIff`). Two without
  the lock can even send an older row again after a newer one
  (`RelayCluster.UnlockedRelaysRepeatOutOfOrder`).
- A success in another currency than the bill's can never be recorded: settling fails, and the
  transaction with it, however often the provider says so (`SettlementOutcomes.ObservationFailsIff`,
  and `SettlementOutcomes.ForeignSuccessIsRolledBack` in a state that is reached). So in no reachable
  state does a bill hold foreign money.
- An ended booking can go back to BOOKED in billing's copy: a handler of AppointmentBooked that read
  before the end was stored writes after it (`BookedAgain.ConcurrentHandlersGoBack`). It happens by
  exactly the writes of `BookedAgain.BackToBookedIff`, and never if each handler read what is stored.
- `payBalance` cancels other open payments so that the customer cannot pay twice. If the provider
  cancels what it is asked to, one open payment is left exactly if at most one FINAL payment for what
  is due was open before (`BalanceRequests.OnePaymentIsLeft`); two can be, after a payment that was
  marked FAILED gets its decline from the provider after all (`BalanceRequests.TwoMayBeOpen`).
- A booked total can convert to minor units although its fees do not
  (`SchedulerMoney.TotalMayConvertWhenFeesDoNot`), so such an appointment takes a deposit and can then
  not be completed.
- "At most one update per `updated_at`" depends on the clock. After an update that changed the row, a
  second valid one with the same stamp changes it too exactly if the first wrote that very stamp
  again, did not scrap the vehicle, and left something for the second to change
  (`Vehicles.SecondGoesThroughIff`, and `Vehicles.StandingClockLosesAnUpdate` for a pair that does).
- Running alone, `Create` never meets the bay constraint after `FreeBay` found a bay
  (`BookingService.Service.Book`); between racing calls of different vehicles it does
  (`BookingRuns.BothPickTheBay`, `BookingRuns.TheConstraintTurnsOneAway`).
- A booked total in billing's hands is the two decimals of scheduler's event, which is the total
  itself exactly if that is whole cents (`SchedulerMoney.FixedTwoIsExactIff`), as catalog fees are.

## Model

| member | source | states |
|---|---|---|
| BookingRuns.NothingIsDoubleBooked | scheduler-service/internal/domain/services/booking-service.go:172-198 | However any number of Book, Cancel and Complete calls interleave, no two non-cancelled reservations of a bay overlap and no two live appointments of a vehicle do. |
| BookingRuns.OneCallCloses | scheduler-service/internal/adapters/repository/appointment-repository.go:195-244 | Of any Cancel and Complete calls on one appointment, stale reads included, at most one commits; appointment, bay and lines agree, and the outbox holds one Booked event and exactly the terminal event of the status. |
| BookingRuns.HubNeverOverfull | scheduler-service/internal/adapters/repository/appointment-repository.go:70-92 | At every instant, in every reachable state, a hub's non-cancelled reservations are at most its bays. |
| BookingRuns.BookingBlocksOneSlot | scheduler-service/internal/adapters/repository/appointment-repository.go:116-175 | A booking blocks exactly one new slot and leaves the others alone. |
| BookingRuns.CancelFreesOneSlot | scheduler-service/internal/adapters/repository/appointment-repository.go:195-216 | A cancellation frees exactly its own slot. |
| BookingRuns.CompleteKeepsSlots | scheduler-service/internal/adapters/repository/appointment-repository.go:219-244 | A completion changes no slot: used time stays recorded. |
| BookingRuns.BothPickTheBay | scheduler-service/internal/adapters/repository/appointment-repository.go:70-92 | A reachable state in which two calls, for different vehicles, have both picked the hub's only bay for overlapping times. |
| BookingRuns.TheConstraintTurnsOneAway | scheduler-service/internal/adapters/repository/appointment-repository.go:116-175 | From there, the insert of the second waits for the first, and when that commits the exclusion constraint fails it. |
| AppointmentTables.BookingKeepsConsistent | scheduler-service/internal/adapters/repository/appointment-repository.go:116-175 | A booking that found its vehicle and bay free keeps the tables disjoint, in step and in agreement with the outbox. |
| AppointmentTables.CancelKeepsConsistent | scheduler-service/internal/adapters/repository/appointment-repository.go:195-216 | So does cancelling a BOOKED appointment. |
| AppointmentTables.CompleteKeepsConsistent | scheduler-service/internal/adapters/repository/appointment-repository.go:219-244 | So does completing a live one. |
| BookingService.StoredTables.Create | scheduler-service/internal/adapters/repository/appointment-repository.go:116-175 | Inserts appointment, bay row, vehicle row and lines together, unless the exclusion constraint refuses the bay. |
| BookingService.StoredTables.CancelRows | scheduler-service/internal/adapters/repository/appointment-repository.go:195-216 | The conditional update in three tables, and whether it matched. |
| BookingService.StoredTables.CompleteRows | scheduler-service/internal/adapters/repository/appointment-repository.go:219-244 | The conditional update in three tables, and whether it matched. |
| BookingService.StoredTables.Reservations | scheduler-service/internal/adapters/repository/appointment-repository.go:95-113 | The hub's non-cancelled reservations that overlap the period. |
| BookingService.Service.Book | scheduler-service/internal/domain/services/booking-service.go:124-207 | Succeeds exactly if hub and services are known, the interval is ahead and within the hub's opening hours on its own clock, the caller is known and owns the vehicle, that is idle, and some available bay of the hub is free; then the appointment, its vehicle, the first such bay, one line per service with its fee, their sum and one event are stored, and otherwise nothing. |
| BookingService.BookIff | scheduler-service/internal/domain/services/booking-service.go:124-207 | The same of the checks and the transaction as functions: exactly when a booking is taken, and what is stored. |
| BookingService.HoursOnTheClock | scheduler-service/internal/domain/services/booking-service.go:139-143 | An interval lies between opening and closing of its local day exactly if it does on the hub's clock. |
| BookingAnswers.BookRefuses | scheduler-service/internal/domain/services/booking-service.go:124-156 | The first failing check names the error, in the order hub, services, future, opening hours, customer, vehicles, ownership. |
| BookingAnswers.BookIsTurnedAway | scheduler-service/internal/domain/services/booking-service.go:172-198 | In the transaction a busy vehicle is the error first, then a full hub. |
| BookingService.Service.Cancel | scheduler-service/internal/domain/services/booking-service.go:220-255 | Commits as a whole or changes nothing, with the first failing check as its error. |
| BookingAnswers.CancelAnswers | scheduler-service/internal/domain/services/booking-service.go:220-255 | Refused for the first of: unknown customer, not their appointment, not BOOKED, already started; otherwise exactly this appointment, its bay and its lines are CANCELLED and one event is written. |
| BookingService.Service.Complete | scheduler-service/internal/domain/services/booking-service.go:280-315 | Commits as a whole or changes nothing; a fee that does not convert stops it. |
| BookingAnswers.CompleteAnswers | scheduler-service/internal/domain/services/booking-service.go:280-315 | Refused for the first of: unknown, a fee finer than the currency, not live; otherwise exactly this appointment is COMPLETED, its bay released if it was held, its lines done, and one event is written. |
| BookingService.Service.Availability | scheduler-service/internal/domain/services/booking-service.go:74-118 | Exactly the starts 30 minutes apart from opening that end by closing, each with whether it is ahead of now and a bay is free. |
| BookingAnswers.AvailabilityLists | scheduler-service/internal/domain/services/booking-service.go:74-118 | On the tables alone: the listed starts are the multiples of half an hour after opening that leave room before closing, in order, and each is available exactly if it is ahead and some available bay of the hub is free for it. |
| BookingAnswers.AvailabilityRefuses | scheduler-service/internal/domain/services/booking-service.go:74-90 | Fails exactly for an unknown hub, bad services or no date, in this order. |
| BookingService.SlotCountIsExact | scheduler-service/internal/domain/services/booking-service.go:102-109 | A start is offered exactly if the service then ends by closing. |
| BookingService.AnyBayFree | scheduler-service/internal/domain/services/booking-service.go:390-404 | True exactly if some bay has no reservation that clashes with the interval. |
| BookingService.FreeBayMatchesAnyBayFree | scheduler-service/internal/domain/services/booking-service.go:390-404 | The reservations of the opening hours alone decide within them what the query over all rows decides. |
| BookingService.AvailabilityRefinesBook | scheduler-service/internal/domain/services/booking-service.go:89-143 | On the same state and clock, a slot is marked available exactly if Book of it, for an owned vehicle that is not busy, succeeds. |
| BookingAlone.BookAlone | scheduler-service/internal/domain/services/booking-service.go:172-198 | The statements of Book, undisturbed, end as the service's transaction does, commit or error. |
| BookingAlone.CancelAlone | scheduler-service/internal/domain/services/booking-service.go:220-255 | The same for Cancel. |
| BookingAlone.CompleteAlone | scheduler-service/internal/domain/services/booking-service.go:280-315 | The same for Complete. |
| Catalog.ResolveServices | scheduler-service/internal/domain/services/booking-service.go:331-358 | The requested rows in order of first occurrence; fails exactly on an empty list or an id that is not in the active catalog, which it names. |
| Catalog.FirstOccurrencesKeepsEachOnce | scheduler-service/internal/domain/services/booking-service.go:345-357 | Removing repeats keeps every requested id exactly once. |
| Catalog.FirstOccurrencesKeepsOrder | scheduler-service/internal/domain/services/booking-service.go:345-357 | It keeps the order in which ids first occur. |
| Catalog.TotalsDependOnTheSet | scheduler-service/internal/domain/services/booking-service.go:360-366 | Duration and fee depend only on the set of ids, not on order or repetition. |
| Catalog.TotalsAddUp | scheduler-service/internal/domain/services/booking-service.go:360-366 | Duration and fee are those of the single services added up. |
| SchedulerMoney.ToMinorNeverRounds | scheduler-service/pkg/money/money.go:35-41 | Fails exactly if the amount is finer than the currency; otherwise the result is exact exactly if it fits 64 bits. |
| SchedulerMoney.WrapsAround | scheduler-service/pkg/money/money.go:35-41 | Out of range the minor units are the 64-bit number that differs by a multiple of 2^64. |
| SchedulerMoney.NewServiceCompletedLines | scheduler-service/internal/domain/events/appointment.go:114-135 | One line per booked service, priced in minor units; fails exactly if some fee does not convert. |
| SchedulerMoney.MoneyIsConserved | scheduler-service/internal/domain/events/appointment.go:114-122 | The published lines add up to the minor units of the booked total; what billing reads from the two-decimal text of that total is the same amount exactly if the total is whole cents. |
| SchedulerMoney.CatalogMoneyIsConserved | scheduler-service/internal/domain/events/appointment.go:68-135 | At up to ten catalog fees, what billing reads from the booked event is the sum of the completed event's lines. |
| SchedulerMoney.FixedTwoIsExactIff | scheduler-service/internal/domain/events/appointment.go:68-80 | The two-decimal text of an amount is exact exactly if the amount is whole cents. |
| SchedulerMoney.FixedTwoIsTheNearest | scheduler-service/internal/domain/events/appointment.go:68-80 | The two-decimal text is the nearest number of cents, away from zero in a tie. |
| SchedulerMoney.CatalogFeesFit | scheduler-service/pkg/money/money.go:14-41 | Ten lines of numeric(12,2) fees fit 64 bits in every currency. |
| SchedulerMoney.TwoDecimalsAlwaysConvert | scheduler-service/pkg/money/money.go:20-41 | With two decimals or more every catalog fee converts. |
| SchedulerMoney.TotalMayConvertWhenFeesDoNot | scheduler-service/internal/domain/events/appointment.go:114-122 | A concrete booking whose total converts and whose fees do not. |
| Outbox.Table.MarkPublished | scheduler-service/internal/adapters/repository/outbox-repository.go:59-69 | Stamps exactly the given rows. |
| Outbox.Table.FetchUnpublished | scheduler-service/internal/adapters/repository/outbox-repository.go:32-56 | The first unpublished rows in order of id, at most a batch. |
| Outbox.RelayOnce | scheduler-service/internal/adapters/kafka/outbox-relay.go:49-74 | Sends a batch in order up to the first failure, and marks exactly the acknowledged rows. |
| Outbox.MarkedPrefixLeavesTheRest | scheduler-service/internal/adapters/kafka/outbox-relay.go:49-74 | After a pass the pending rows are those after the published prefix. |
| Outbox.CleanupKeepsPending | billing-service/src/main/java/com/servicebay/billing/adapters/kafka/OutboxRelay.java:92-98 | Cleanup deletes no unpublished row. |
| Outbox.CleanupDeletesExactly | billing-service/src/main/java/com/servicebay/billing/adapters/kafka/OutboxRelay.java:92-98 | A row is deleted exactly if it was published before the cutoff. |
| Outbox.MarkStampsExactly | scheduler-service/internal/adapters/repository/outbox-repository.go:59-69 | Marking stamps exactly the rows with the given ids. |
| Outbox.DrainsInCeilingPasses | scheduler-service/internal/adapters/kafka/outbox-relay.go:49-74 | Without faults n pending rows take the smallest number of passes whose batches hold n. |
| RelayCluster.FirstSeenInOrder | billing-service/src/main/java/com/servicebay/billing/adapters/kafka/OutboxRelay.java:59-88 | With any number of relays, locked or not, ambiguous failures, crashes and rollbacks: the broker first sees one key's rows in order of id. |
| RelayCluster.NothingIsLost | billing-service/src/main/java/com/servicebay/billing/adapters/kafka/OutboxRelay.java:59-98 | Every row written is in the broker's log or still pending; what is marked or deleted is in the log. |
| RelayCluster.LockedRelaysPublishOnceInOrder | billing-service/src/main/java/com/servicebay/billing/adapters/kafka/OutboxRelay.java:59-88 | Under the lock and without faults no row is published twice, and one key's rows strictly in order. |
| RelayCluster.OneRelayNeedsNoLock | scheduler-service/internal/adapters/kafka/outbox-relay.go:49-74 | In a run with a single relay the lock makes no difference, faults or not. |
| RelayCluster.OnceInOrderIff | scheduler-service/internal/adapters/kafka/outbox-relay.go:49-74 | All fault-free runs of a set of relays publish every row at most once and one key's rows in order, exactly if the relays share the lock or there is at most one. |
| RelayCluster.UnlockedRelaysRepeatOutOfOrder | scheduler-service/internal/adapters/kafka/outbox-relay.go:49-74 | Without the lock two relays can, without any fault, send an older row after a newer one of its key. |
| RelayCluster.PassAloneIsTheLoop | scheduler-service/internal/adapters/kafka/outbox-relay.go:49-74 | An undisturbed pass sends and marks what the relay's loop does. |
| Balances.ComputeBalance | billing-service/src/main/java/com/servicebay/billing/domain/balance/Balance.java:27-48 | The two loops compute the fold, errors included. |
| Balances.PaidOfIsTheSum | billing-service/src/main/java/com/servicebay/billing/domain/balance/Balance.java:27-48 | The fold fails exactly on a captured payment in a foreign currency, and is otherwise the sum over the whole table. |
| Balances.PaidSumAfterUpdate | billing-service/src/main/java/com/servicebay/billing/domain/balance/Balance.java:27-48 | Changing one payment changes what was paid by that payment's difference. |
| SettlementRuns.RunKeepsGood | billing-service/src/main/java/com/servicebay/billing/application/Payments.java:393-457 | Every transaction keeps: statuses equal to the fold, totals equal to lines, money in the bill's currency, one PaymentReceived per captured payment, unique keys and intents, one live bill per appointment. |
| SettlementRuns.StoredStatusIsDerived | billing-service/src/main/java/com/servicebay/billing/domain/balance/Balance.java:27-86 | In every reachable state a bill's stored status is the one its payments call for: PAID exactly if nothing is due, PENDING exactly if something is and nothing is held, PARTIALLY_PAID exactly between; and held plus due less refund due is its total, the sum of its lines. |
| SettlementRuns.BalanceIsTheSum | billing-service/src/main/java/com/servicebay/billing/domain/balance/Balance.java:27-48 | For a stored bill the balance exists exactly if its captured money is in its currency, and is then the sums over the tables. |
| SettlementRuns.LinesAddUp | billing-service/src/main/java/com/servicebay/billing/domain/bill/Bill.java:62-78 | The three fees of a priced bill partition the sum of its lines. |
| SettlementOutcomes.PricedBillsStayPriced | billing-service/src/main/java/com/servicebay/billing/application/Bookings.java:187-212 | In any run a bill that left OPEN keeps its lines, fees and total, never goes back to OPEN, and VOID is final. |
| SettlementOutcomes.OutcomeIgnoresOrder | billing-service/src/main/java/com/servicebay/billing/application/Payments.java:328-441 | Among arbitrary other transactions, a payment ends SUCCEEDED with one PaymentReceived if any committed answer about it was a success, else CANCELED if any was a cancellation, else open; a webhook is about the payment that is linked to its intent, or else the one its metadata names. |
| SettlementOutcomes.EveryPaymentSettles | billing-service/src/main/java/com/servicebay/billing/application/Payments.java:328-441 | The same from every state that the transactions can reach from the empty database. |
| SettlementOutcomes.AnswersCommute | billing-service/src/main/java/com/servicebay/billing/application/Payments.java:393-457 | Two lists of answers with the same statuses, in any order and number, come to the same payment outcome, events and bills. |
| SettlementOutcomes.AnswersDecide | billing-service/src/main/java/com/servicebay/billing/application/Payments.java:393-457 | The statuses in a list of answers decide the payment and the status of its bill. |
| SettlementOutcomes.ObservationFailsIff | billing-service/src/main/java/com/servicebay/billing/application/Payments.java:393-457 | An answer is rolled back exactly if its intent belongs to another payment or it would capture foreign money. |
| RecordedAnswers.AnswerFailsIff | billing-service/src/main/java/com/servicebay/billing/application/Payments.java:393-457 | On the rows: rolled back exactly if the answer can still move the payment and would link it to another payment's intent or take money in a foreign currency. |
| RecordedAnswers.AnswerWrites | billing-service/src/main/java/com/servicebay/billing/application/Payments.java:393-457 | A recorded answer leaves a payment that is over, or knew it, alone; otherwise it writes status, failure, card and time by the intent's status, keeps the first intent, recomputes the bill on a success, and publishes exactly the success or a new decline. |
| SettlementOutcomes.ForeignSuccessIsRolledBack | billing-service/src/main/java/com/servicebay/billing/application/Payments.java:393-457 | A reachable deposit, in a currency other than its bill's, of which every reported success is rolled back. |
| SettlementOutcomes.AnswersAreIdempotent | billing-service/src/main/java/com/servicebay/billing/application/Payments.java:393-441 | The same answer once more, about the payment as it now stands, changes no row and publishes no event, a decline included. |
| SettlementOutcomes.BillsAreReadyOnce | billing-service/src/main/java/com/servicebay/billing/application/Bookings.java:207-216 | In any run a bill is announced ready at most once, with the total it keeps, and only if part of it was then due. |
| SettlementOutcomes.EveryBillIsReadyOnce | billing-service/src/main/java/com/servicebay/billing/application/Bookings.java:207-216 | The same for every reachable state. |
| SettlementOutcomes.KeysKeepTheirPayment | billing-service/src/main/java/com/servicebay/billing/application/Payments.java:98-104 | The payment a key created is found under that key after any run, for the same money on the same bill. |
| SettlementOutcomes.UsedKeysCreateNothing | billing-service/src/main/java/com/servicebay/billing/application/Payments.java:118-146 | A decision under a key that was used meanwhile creates no payment. |
| SettlementOutcomes.NewFinalPaymentClosesTheBill | billing-service/src/main/java/com/servicebay/billing/application/Payments.java:208-235 | A new FINAL payment is for the whole positive balance with nothing processing, and if it succeeds next the bill is PAID with nothing due back. |
| SettlementOutcomes.NewDepositIsTheOnlyOne | billing-service/src/main/java/com/servicebay/billing/application/Payments.java:118-144 | A deposit is decided only on an OPEN bill with none captured or processing, and is open, for the asked amount, on that bill. |
| BalanceRequests.OnePaymentIsLeft | billing-service/src/main/java/com/servicebay/billing/application/Payments.java:173-219 | If the provider cancels every superseded intent, a decision is reached, is open for what is due, nothing of the bill is open for another amount or as a deposit, and the payment is the only open one exactly if at most one FINAL payment for that amount was open before. |
| BalanceRequests.TwoMayBeOpen | billing-service/src/main/java/com/servicebay/billing/application/Payments.java:264-318 | A reachable state in which two FINAL payments for the same balance are open. |
| BalanceRequests.DecisionIsForDue | billing-service/src/main/java/com/servicebay/billing/application/Payments.java:208-218 | The decision on a payable bill is an open FINAL payment for what is due, and a new one only if there was none, the others untouched. |
| Decisions.DepositDecision | billing-service/src/main/java/com/servicebay/billing/application/Payments.java:118-145 | Each refusal of a deposit has its first reason on the bill's rows; otherwise the open deposit for this amount is taken, or a new one made under the key. |
| Decisions.BalanceDecision | billing-service/src/main/java/com/servicebay/billing/application/Payments.java:208-235 | Each refusal of a balance has its first reason; otherwise the open FINAL payment for exactly what is due is taken, or a new one made under the key. |
| Decisions.SupersedingAnswers | billing-service/src/main/java/com/servicebay/billing/application/Payments.java:237-255 | Superseding records the provider's answer on exactly that payment, or marks it FAILED if it never had an intent, and tells nobody of a decline. |
| Decisions.SavingAnswers | billing-service/src/main/java/com/servicebay/billing/adapters/persistence/JpaPaymentRepository.java:26-34 | A save is refused for an older version first, then for another payment's intent; otherwise it writes exactly that row, with the next version if it changed. |
| BillingService.Store.UpdatePayment | billing-service/src/main/java/com/servicebay/billing/adapters/persistence/JpaPaymentRepository.java:26-34 | Stores a changed payment with its next version, or refuses one that was read in an older version, or with another payment's intent, and changes nothing. |
| BillingService.Store.MarkProcessed | billing-service/src/main/java/com/servicebay/billing/adapters/persistence/JpaSmallRepositories.java:57-65 | Adds the event's id, and tells whether it was new. |
| BillingService.Payments.RequestDeposit | billing-service/src/main/java/com/servicebay/billing/application/Payments.java:98-171 | With a used key it finds that key's payment and at most resumes it. Otherwise: the booking copied if it had to be fetched, the bill opened if there was none, the decision on that bill, and at most one transaction of resume, also when resume fails; an error before that creates no payment. On success the returned payment is an open deposit of the amount on the appointment's bill, and has its intent. |
| BillingService.PreparationGivesABill | billing-service/src/main/java/com/servicebay/billing/application/Payments.java:104-171 | Before the decision the booking is stored as known or fetched, and the appointment has the live bill it had, or a new OPEN one for the booking's customer, vehicle and currency. |
| BillingService.Payments.PayBalance | billing-service/src/main/java/com/servicebay/billing/application/Payments.java:181-219 | With a used key it finds that key's payment and at most resumes it. Otherwise: exactly the cancellations of what is superseded, in order, then the decision on what is due by then, then at most one transaction of resume, also when resume fails; an error before that creates no payment. On success the returned payment is an open FINAL payment of what was due, and has its intent. |
| BillingService.Payments.DecideBalance | billing-service/src/main/java/com/servicebay/billing/application/Payments.java:181-219 | The same up to the decision: the loop makes exactly the superseded payments' cancellations, each on what the one before it left. |
| BillingService.Payments.DecideDeposit | billing-service/src/main/java/com/servicebay/billing/application/Payments.java:118-145 | The locked decision of a deposit is the modelled transaction, errors included. |
| BillingService.Payments.DecideFinal | billing-service/src/main/java/com/servicebay/billing/application/Payments.java:208-218 | The locked decision of a final payment is the modelled transaction, errors included. |
| BillingService.Payments.RequirePayable | billing-service/src/main/java/com/servicebay/billing/application/Payments.java:222-235 | The positive balance of a bill that takes payments, or the first reason why not. |
| BillingService.Payments.CancelAtProvider | billing-service/src/main/java/com/servicebay/billing/application/Payments.java:237-255 | Takes exactly one transaction: what the provider says of this payment's intent, or FAILED if there never was one; with no answer it fails and changes nothing. |
| BillingService.Payments.MarkFailed | billing-service/src/main/java/com/servicebay/billing/application/Payments.java:310-318 | Fails a payment only while it is not final and has no intent; any other is left as it is. |
| BillingService.Payments.Link | billing-service/src/main/java/com/servicebay/billing/application/Payments.java:285-290 | Links an intent to a payment in the version that was read: a stale version, a payment that has an intent, and another payment's intent leave every row as it was, with the error or none; otherwise exactly this row gets it. |
| BillingService.Payments.Resume | billing-service/src/main/java/com/servicebay/billing/application/Payments.java:264-292 | A payment that is over, was given up or is linked is handed back as it is. Any other gets the created intent, or is FAILED with an error if none was created, or is left with an error if that intent is another payment's; that takes exactly one transaction. |
| BillingService.Payments.Apply | billing-service/src/main/java/com/servicebay/billing/application/Payments.java:393-441 | The statements of apply are the modelled transaction, for whatever was read before the lock. |
| BillingService.Payments.Settle | billing-service/src/main/java/com/servicebay/billing/application/Payments.java:444-457 | Stores the recomputed status and announces the payment. |
| BillingService.Payments.Observe | billing-service/src/main/java/com/servicebay/billing/application/Payments.java:353-378 | A re-read or confirmation takes effect as a whole or not at all. |
| BillingService.Payments.HandleWebhook | billing-service/src/main/java/com/servicebay/billing/application/Payments.java:328-350 | The event's id and the change are stored together or not at all; a repeated id does nothing. |
| SettlementOutcomes.WebhookIsTheAnswer | billing-service/src/main/java/com/servicebay/billing/application/Payments.java:328-350 | An unprocessed webhook is the answer about the payment linked to its intent; if there is none, about the one its metadata names if that is stored; otherwise only its id is kept. |
| RecordedAnswers.WebhookSuccessIsTaken | billing-service/src/main/java/com/servicebay/billing/application/Payments.java:328-350 | A committed webhook of a success leaves that payment with its money taken, announced exactly once, and the event processed. |
| BillingService.PriceBill | billing-service/src/main/java/com/servicebay/billing/domain/bill/Bill.java:62-78 | Sums the lines by kind; the total is the sum of all lines. |
| BillingService.Bookings.Booked | billing-service/src/main/java/com/servicebay/billing/application/Bookings.java:93-105 | Stores the booking unless the event was processed or the copy that was read has ended. |
| BillingService.Bookings.Cancelled | billing-service/src/main/java/com/servicebay/billing/application/Bookings.java:122-143 | Ends the booking and voids an OPEN bill without money, as a whole or not at all. |
| BilledWork.CancellationWrites | billing-service/src/main/java/com/servicebay/billing/application/Bookings.java:122-143 | The booking ends, and the bill is VOID exactly if it is OPEN and none of its payments is captured or processing. |
| BillingService.Bookings.Completed | billing-service/src/main/java/com/servicebay/billing/application/Bookings.java:169-224 | Ends the booking and prices its OPEN bill, as a whole or not at all. |
| BilledWork.CompletionCommitsIff | billing-service/src/main/java/com/servicebay/billing/application/Bookings.java:169-224 | Commits exactly if the services add up to no negative amount, and the bill, if it is OPEN or has to be opened, takes lines of these quantities and prices in this currency. |
| BilledWork.CompletionWrites | billing-service/src/main/java/com/servicebay/billing/application/Bookings.java:169-224 | The bill, opened for the completion's customer, vehicle and currency if there was none, charges the services' prices times quantities and the warranty fee exactly if the vehicle is not covered; its lines are these, in order; its status and its one BillReady follow what is held. |
| BilledWork.LinesAreWorth | billing-service/src/main/java/com/servicebay/billing/domain/bill/Pricing.java:27-37 | The priced lines are the fee, if it is charged, and the services one by one; by kind they add up to the fee, the services' worth and nothing. |
| BilledWork.EstimateAddsUp | billing-service/src/main/java/com/servicebay/billing/application/Bookings.java:177-180 | The services' worth is price times quantity, added up. |
| BillingService.SchedulerEventsConsumer.CancelIntents | billing-service/src/main/java/com/servicebay/billing/application/Bookings.java:112-158 | The loop over the bill's payments cancels each open intent and records the answer, in order of id, and stops at the first intent without an answer or with one that cannot be recorded. |
| BillingService.SchedulerEventsConsumer.OnMessage | billing-service/src/main/java/com/servicebay/billing/adapters/kafka/SchedulerEventsConsumer.java:42-56 | Each event's handler, cancellations at the provider included, has exactly the effect that the convergence theorems speak of, also when it throws half way; it reports success exactly if its transaction committed. |
| BookingConvergence.DeliveriesConverge | billing-service/src/main/java/com/servicebay/billing/application/Bookings.java:93-224 | For Booked with Cancelled or Completed in any order and number, handlers that threw half way and were retried included: the stored booking is the booking with the status of the first end that came through, and bills and payments are, but for when money came, what that end alone would have left had nothing gone wrong. |
| BookingConvergence.EveryDeliveryOrderConverges | billing-service/src/main/java/com/servicebay/billing/application/Bookings.java:93-224 | The same from every state that billing's transactions can reach. |
| BookingConvergence.DeliveryOrdersAgree | billing-service/src/main/java/com/servicebay/billing/adapters/kafka/SchedulerEventsConsumer.java:42-56 | Two lists of deliveries, failures and retries included, in which the same end came through first agree on bookings and, but for when money came, on bills and payments. |
| BookingConvergence.CancellationComesThroughIff | billing-service/src/main/java/com/servicebay/billing/application/Bookings.java:108-158 | A cancellation comes through exactly if the provider answers about every intent that is still open on the appointment's OPEN bill, and none of them succeeded in another currency than the bill's. |
| BookingConvergence.CancellationClosesTheBill | billing-service/src/main/java/com/servicebay/billing/application/Bookings.java:108-158 | On the rows: when it comes through, every payment that waited with an intent follows the provider's answer, every other payment and bill stays, and the bill is VOID exactly if no money came for it. |
| BookingConvergence.CompletionChargesTheBill | billing-service/src/main/java/com/servicebay/billing/application/Bookings.java:169-224 | A delivered completion comes through exactly if vehicle-service answers and the bill can take the lines, and charges the fee by what vehicle-service answered. |
| BookingConvergence.CancellationsTellNoDecline | billing-service/src/main/java/com/servicebay/billing/application/Bookings.java:145-158 | Canceling intents publishes successes that came after all, and no decline. |
| BookedAgain.EndedBookingsStayEnded | billing-service/src/main/java/com/servicebay/billing/application/Bookings.java:98-103 | In any run of all transactions, stale reads included, an ended booking is BOOKED at the end only if some step wrote a BOOKED copy. |
| BookedAgain.BackToBookedIff | billing-service/src/main/java/com/servicebay/billing/application/Bookings.java:93-105 | A transaction takes an ended booking back to BOOKED exactly if it is a deposit's copy of a BOOKED booking, or an unprocessed AppointmentBooked whose handler had read no copy or a BOOKED one. |
| BookedAgain.FreshHandlersKeepTheEnd | billing-service/src/main/java/com/servicebay/billing/application/Bookings.java:93-105 | In any run in which the booking's handlers read what is stored and no deposit copies it again, an ended booking stays ended and only its status can change. |
| BookedAgain.ConcurrentHandlersGoBack | billing-service/src/main/java/com/servicebay/billing/adapters/persistence/JpaSmallRepositories.java:72-97 | Two handlers at the same time take a cancelled booking back to BOOKED; one after the other they do not. |
| BookingEvents.CancelFirst | billing-service/src/main/java/com/servicebay/billing/application/Bookings.java:112-158 | A first cancellation, whatever earlier ones left half done, either comes through, and leaves bills and payments that no other cancellation changes, or leaves only intents canceled and the event unprocessed. |
| BookingEvents.PassGoesOn | billing-service/src/main/java/com/servicebay/billing/application/Bookings.java:145-158 | However far earlier passes over the intents came, this one moves the rest where the provider's answers say, up to the first it cannot record. |
| BookingEvents.CancelAgain | billing-service/src/main/java/com/servicebay/billing/application/Bookings.java:112-158 | After a cancellation came through, another changes at most the booking's status and the processed events. |
| BookingEvents.CompleteFirst | billing-service/src/main/java/com/servicebay/billing/application/Bookings.java:169-224 | A first completion either leaves a priced live bill, the same whatever bookkeeping happened before, which no other completion changes, or fails and leaves no trace. |
| BookingConvergence.EstimatesAgreeIff | billing-service/src/main/java/com/servicebay/billing/application/Bookings.java:177-185 | The stored estimate is independent of the order of Booked and Completed exactly if the completion's lines add up to the booked estimate. |
| BookingConvergence.PublishedLinesAddUpToTheEstimate | billing-service/src/main/java/com/servicebay/billing/adapters/kafka/SchedulerEventsConsumer.java:56-87 | At catalog fees the lines scheduler publishes add up to what billing reads from the two decimals of the booked estimate. |
| IdempotencyKeys.DepositKeysAreScoped | billing-service/src/main/java/com/servicebay/billing/application/Payments.java:98-100 | Two deposit keys are equal exactly if appointment and client key are, whatever text a client sends. |
| IdempotencyKeys.BillKeysAreScoped | billing-service/src/main/java/com/servicebay/billing/application/Payments.java:181-183 | The same for bills. |
| IdempotencyKeys.DepositsAndBillsDoNotShareKeys | billing-service/src/main/java/com/servicebay/billing/application/Payments.java:98-183 | A deposit's key is never a bill's. |
| OwnershipRuns.OneCurrentOwner | vehicle-service/internal/domain/services/vehicle-service.go:114-147 | In every schedule of transfers and assignments, aborts included: one CURRENT row once there is an owner, closed rows end where their successor starts, OwnerAssigned comes first and once, each transfer names the owner before it, and the log replays to the owner. |
| OwnershipRuns.ExactlyOneTransferWins | vehicle-service/internal/domain/services/vehicle-service.go:382-407 | Of any number of transfers away from the owner, however dated, in every schedule run to its end: if one is dated from the owner's first day on, exactly one commits, with its one event, and the rest fail with not-found or conflict, or with the date check if they are dated too early; if none is, all fail the check and nothing changes. |
| OwnershipRuns.SchedulesEnd | vehicle-service/internal/domain/services/vehicle-service.go:382-407 | Every step that changes anything leaves fewer to take, so schedules end. |
| OwnershipRuns.HistoryGrows | vehicle-service/internal/adapters/repository/vehicle-customer-repository.go:25-101 | No schedule takes an owner's row or event back. |
| OwnershipRuns.TransferAlone | vehicle-service/internal/domain/services/vehicle-service.go:382-407 | An undisturbed transfer ends as the service's method does. |
| OwnershipRuns.AssignAlone | vehicle-service/internal/domain/services/vehicle-service.go:114-147 | An undisturbed assignment ends as the service's method does. |
| Ownership.OwnerStore.UnassignVehicleFromCustomer | vehicle-service/internal/adapters/repository/vehicle-customer-repository.go:82-101 | Closes the CURRENT row of that customer, or says why not and changes nothing. |
| Ownership.OwnerStore.AssignVehicleToCustomer | vehicle-service/internal/adapters/repository/vehicle-customer-repository.go:25-45 | Inserts a CURRENT row unless there is one. |
| Ownership.OwnerStore.TransferVehicle | vehicle-service/internal/domain/services/vehicle-service.go:382-407 | Both rows and the event, or nothing. |
| Ownership.OwnerStore.AssignInitialOwner | vehicle-service/internal/domain/services/vehicle-service.go:114-147 | The row and the event, or nothing. |
| Ownership.TransferFailsIff | vehicle-service/internal/adapters/repository/vehicle-customer-repository.go:82-101 | On a well-kept table a transfer fails exactly for lack of an owner, another owner, or a date before the owner's first day. |
| Ownership.TransferAnswers | vehicle-service/internal/domain/services/vehicle-service.go:382-407 | Refused for the first of: no owner, another owner, a date before the owner's first day; otherwise the owner's row ends on the day the new owner's begins, older rows stay, and one event names both. |
| Ownership.AssignAnswers | vehicle-service/internal/domain/services/vehicle-service.go:114-147 | Refused for the first of: a bad customer or a future date, a scrapped vehicle, an owner; otherwise this is the only row, with one event. |
| Vehicles.EventsReplayToTheTable | vehicle-service/internal/domain/services/vehicle-service.go:191-276 | In any run each WarrantyChanged starts from the value before it, and replaying the warranty events, or the state events, gives what is stored. |
| Vehicles.ScrappedIsFinal | vehicle-service/internal/domain/services/vehicle-service.go:231-233 | A scrapped vehicle's row never changes again. |
| Vehicles.OneChangePerStamp | vehicle-service/internal/adapters/repository/vehicle-repository.go:133-157 | Of updates carrying one updated_at at most one more changes the row than write that stamp to it again: at most one on a clock that moves on, whatever updates that write nothing do. |
| Vehicles.SecondGoesThroughIff | vehicle-service/internal/domain/services/vehicle-service.go:212-285 | After an update that changed the row, a second valid one with the same stamp changes it too exactly if the first wrote that very stamp, did not scrap the vehicle, and did not already make the row what the second wants. |
| Vehicles.SecondIsConflictIff | vehicle-service/internal/domain/services/vehicle-service.go:228-230 | After one change a second request with its stamp is a conflict exactly if the clock had moved on. |
| Vehicles.StandingClockLosesAnUpdate | vehicle-service/internal/adapters/repository/vehicle-repository.go:133-157 | With a clock that stands still both of two such updates go through. |
| Vehicles.Store.Save | vehicle-service/internal/adapters/repository/vehicle-repository.go:133-157 | Writes the mutable columns only over the version that was read. |
| Vehicles.Service.RegisterVehicle | vehicle-service/internal/domain/services/vehicle-service.go:167-207 | The row and its VehicleCreated, or the first failing check and nothing. |
| Vehicles.RegistrationRefuses | vehicle-service/internal/domain/services/vehicle-service.go:167-190 | Refused exactly for a bad model or status, a taken VIN, a taken plate, or an unknown model, in this order. |
| Vehicles.RegistrationWrites | vehicle-service/internal/domain/services/vehicle-service.go:167-207 | One new row carries what was registered, ACTIVE unless it said otherwise, and one VehicleCreated tells it; other rows stay. |
| Vehicles.Service.UpdateVehicle | vehicle-service/internal/domain/services/vehicle-service.go:212-285 | The row, VehicleUpdated and, if the warranty changed, WarrantyChanged; or the first failing check and nothing. |
| Vehicles.UpdateRefuses | vehicle-service/internal/domain/services/vehicle-service.go:212-234 | Refused exactly for an empty or unclear request, an unknown vehicle, a stale stamp, or a scrapped vehicle, in this order. |
| Vehicles.UpdateWrites | vehicle-service/internal/domain/services/vehicle-service.go:236-285 | The row gets the requested status and warranty and nothing else; if neither changes, nothing is written or told, otherwise it is stamped, with one VehicleUpdated and, exactly if the warranty differs, one WarrantyChanged. |
| Keyset.WalkIncreases | vehicle-service/internal/adapters/repository/vehicle-repository.go:83-126 | Whatever happens to the table between pages, a walk meets no key twice and meets them in order. |
| Keyset.WalkMissesNothing | vehicle-service/internal/adapters/repository/vehicle-repository.go:83-126 | A finished walk has every key that was there for each of its pages. |
| Keyset.FixedWalk | vehicle-service/internal/adapters/repository/vehicle-repository.go:83-126 | On a fixed table a walk ends exactly when its pages have room for the rest, and collects the rest. |
| Listings.List | vehicle-service/internal/adapters/repository/vehicle-repository.go:83-126 | The matching rows after the cursor up to the limit, in order of id, with nothing left out but later rows, and a next cursor exactly if there are any. |
| Listings.ListVehicles | vehicle-service/internal/domain/services/vehicle-service.go:347-379 | The same with the cursor and limit clamped, stated on the rows; it fails exactly if normalization refuses the VIN or the plate or the status is unknown. |
| Listings.VehicleWalkIsExact | vehicle-service/internal/adapters/repository/vehicle-repository.go:83-126 | Through changing tables ids ascend without repeats, and a finished walk has the id of every vehicle that matches the filter for each page, however else its row changes. |
| Listings.FixedVehicleWalk | vehicle-service/internal/adapters/repository/vehicle-repository.go:83-126 | On a fixed table the pages concatenate to the filtered list, in the fewest pages that hold it. |
| Listings.PageBillsIsAPage | billing-service/src/main/java/com/servicebay/billing/application/Bills.java:62-70 | A page of bills is a page of ascending negated ids. |
| Listings.BillPageHolds | billing-service/src/main/java/com/servicebay/billing/application/Bills.java:62-70 | A page holds the customer's bills below the cursor, newest first, 20 if no size is asked for and at most 100; it leaves out only older ones, and has a cursor exactly if it does. |
| Listings.BillWalkDescends | billing-service/src/main/java/com/servicebay/billing/adapters/persistence/SpringDataRepositories.java:29-32 | Through changing tables a customer's bills come in descending order without repeats. |
| Listings.BillWalkMissesNothing | billing-service/src/main/java/com/servicebay/billing/application/Bills.java:62-70 | A finished walk has every bill that the customer had throughout, however its row changed. |
| Listings.FixedBillWalk | billing-service/src/main/java/com/servicebay/billing/application/Bills.java:62-70 | On a fixed table the pages concatenate to the customer's bills, in the fewest pages that hold them. |

## Left out

- HTTP handlers, access checks, JSON, metrics, logging, configuration and process wiring: no property of the protocols.
- identity-service, customer-service and the frontend: authentication, and shapes already covered here.
- The Stripe, Kafka, Redis and HTTP clients: their answers are parameters, also ambiguous ones.
- Time zones with daylight saving, and leap seconds: a hub's offset from UTC is fixed.
- 64-bit overflow of amounts inside billing, where the source throws: amounts are integers there; scheduler's conversion does wrap.
- The deposit policy: its amount is a parameter of the request.
- Hibernate's cache: a re-read under the row lock may be answered from it, and the version check then rolls the transaction back; a transaction that was rolled back is one that did not run. The version check of a payment that was read without a lock is modelled.
- Refund writing: no use case writes refunds yet; the table is arbitrary and fixed.
- Gaps in generated ids: a row's id in billing is its position.
- What a bill's line says beside kind, quantity and price: a service's id, and why the warranty fee was charged.
- Normalization of VINs, plates, currencies and key text: inputs come normalized, and in a listing's filter perhaps refused.
- A vehicle that does not exist, in ownership: one vehicle's rows are modelled, and its foreign keys resolve.
- BookingConvergence.DeliveriesConverge: handlers of one appointment run one at a time, and a deposit copied at most the same booking before them; what other orders of reads and writes do to the booking is in `BookedAgain`, what they do to bills and payments in `SettlementRuns` and `SettlementOutcomes`.
- BookingService.Service.Book: customer-service's and vehicle-service's answers are parameters.
- BillingService.Payments.PayBalance: shown as one caller's run, and BalanceRequests.OnePaymentIsLeft is about that run; other transactions may come between its steps in the runs of `Settlement`.
